/** `sendtoS3(bucketname, filename)` of the file uploader component: the S3 export
    task it appends to the stream, and the loop that polls the export status
    stream until the upload has finished. The stream manager client is not
    modelled: what each `read_messages` call returns is an input. */
module S3Export {
  import opened Strings

  /** The message stream the export task is appended to, and the stream the S3
      export executor reports statuses on. */
  const StreamName := "newsendtoS3stream"
  const StatusStreamName := "newsendtoS3statusstream"
  /** The identifier of the S3 export executor configured on the stream. */
  const ExecutorId := "S3TaskExecutor" + StreamName

  const KeyPrefix := "ggstreamdata/"
  /** Where the component's uploads live on the Greengrass core. */
  const WorkUrl := "file:/greengrass/v2/work/com.fileUploader/"

  /** The S3 export task definition: the file to read, the bucket, the object key. */
  datatype ExportTask = ExportTask(inputUrl: string, bucket: string, key: string)

  /** The object key: the key prefix and the file name's last '/'-separated segment. */
  function KeyName(filename: string): (r: string)
    ensures StartsWith(r, KeyPrefix)
    ensures '/' !in r[|KeyPrefix|..]
    ensures '/' !in filename ==> r == KeyPrefix + filename
  {
    var base := SplitLast(filename, "/");
    SplitLastPiece(filename, "/");
    ContainsChar(base, '/');
    ContainsChar(filename, '/');
    assert (KeyPrefix + base)[|KeyPrefix|..] == base;
    KeyPrefix + base
  }

  /** The export task for `filename`: the whole file name below the work
      directory, read into `bucket` under the key `KeyName(filename)`. */
  function TaskFor(bucket: string, filename: string): (t: ExportTask)
    ensures t.bucket == bucket
    ensures StartsWith(t.inputUrl, WorkUrl) && t.inputUrl[|WorkUrl|..] == filename
    ensures t.key == KeyName(filename)
  {
    var url := WorkUrl + filename;
    assert url[..|WorkUrl|] == WorkUrl && url[|WorkUrl|..] == filename;
    ExportTask(url, bucket, KeyName(filename))
  }

  /** A file in a sub-directory is uploaded under its own name: the directories
      are dropped from the key but kept in the URL. */
  lemma TaskForPath(bucket: string, dir: string, name: string)
    requires '/' !in name
    ensures TaskFor(bucket, dir + "/" + name).key == KeyPrefix + name
    ensures TaskFor(bucket, dir + "/" + name).inputUrl == WorkUrl + dir + "/" + name
  {
    var path := dir + "/" + name;
    assert KeyName(path) == KeyPrefix + name by {
      SplitLastAfterChar(dir, '/', name);
    }
  }

  // ---------------------------------------------------------------------------
  // The status-polling loop
  // ---------------------------------------------------------------------------

  /** The statuses the S3 export executor reports. */
  datatype Status = Success | Failure | InProgress | Warning | Canceled

  /** A status message, deserialised from the status stream, with the sequence
      number of the stream message that carried it. */
  datatype StatusMessage = StatusMessage(sequenceNumber: int, status: Status, message: string)

  /** The outcome of one `read_messages` call: the batch of status messages it
      returned, a `StreamManagerException` (caught inside the loop, which then
      retries), or any other exception, which ends `sendtoS3` through its outer
      handler. */
  datatype ReadOutcome = Batch(messages: seq<StatusMessage>) | StreamManagerError | OtherError

  /** The loop's variables `stop_checking` and `next_seq`. */
  datatype PollState = PollState(stopChecking: bool, nextSeq: int)

  const Initial := PollState(false, 0)

  /** The statuses that end the polling: the upload succeeded, failed or was
      cancelled. */
  predicate Terminal(s: Status) {
    s == Success || s == Failure || s == Canceled
  }

  /** The effect of one status message on the loop variables. */
  function StepMessage(st: PollState, m: StatusMessage): (r: PollState)
    ensures Terminal(m.status) ==> r == st.(stopChecking := true)
    ensures m.status == InProgress ==> r == st.(nextSeq := m.sequenceNumber + 1)
    ensures m.status == Warning ==> r == st
  {
    match m.status
    case Success => st.(stopChecking := true)
    case InProgress => st.(nextSeq := m.sequenceNumber + 1)
    case Failure => st.(stopChecking := true)
    case Canceled => st.(stopChecking := true)
    case Warning => st
  }

  /** The effect of a whole batch: every message in order, with no early exit. */
  function StepBatch(st: PollState, ms: seq<StatusMessage>): PollState
    decreases |ms|
  {
    if ms == [] then st else StepMessage(StepBatch(st, ms[..|ms| - 1]), ms[|ms| - 1])
  }

  /** After a batch, `stop_checking` holds exactly when it held before or the
      batch carried a terminal status; so once set it stays set. */
  lemma {:induction false} StepBatchStops(st: PollState, ms: seq<StatusMessage>)
    ensures StepBatch(st, ms).stopChecking <==>
      st.stopChecking || exists i :: 0 <= i < |ms| && Terminal(ms[i].status)
    decreases |ms|
  {
    if ms != [] {
      var init := ms[..|ms| - 1];
      StepBatchStops(st, init);
      assert forall i :: 0 <= i < |init| ==> init[i] == ms[i];
    }
  }

  /** A batch without InProgress statuses leaves `next_seq` unchanged. */
  lemma {:induction false} StepBatchKeepsNextSeq(st: PollState, ms: seq<StatusMessage>)
    requires forall i :: 0 <= i < |ms| ==> ms[i].status != InProgress
    ensures StepBatch(st, ms).nextSeq == st.nextSeq
    decreases |ms|
  {
    if ms != [] {
      StepBatchKeepsNextSeq(st, ms[..|ms| - 1]);
    }
  }

  /** After a batch, `next_seq` is one past the sequence number of the batch's
      last InProgress status. */
  lemma {:induction false} StepBatchNextSeq(st: PollState, ms: seq<StatusMessage>, i: nat)
    requires i < |ms| && ms[i].status == InProgress
    requires forall j :: i < j < |ms| ==> ms[j].status != InProgress
    ensures StepBatch(st, ms).nextSeq == ms[i].sequenceNumber + 1
    decreases |ms|
  {
    if i < |ms| - 1 {
      StepBatchNextSeq(st, ms[..|ms| - 1], i);
    }
  }

  /** There is no `break`: a message after a terminal status in the same batch is
      still processed, here moving `next_seq`. */
  lemma NoBreakAfterTerminal(st: PollState, seqNo: int)
    ensures var ms := [StatusMessage(seqNo, Success, ""), StatusMessage(seqNo + 1, InProgress, "")];
      StepBatch(st, ms) == PollState(true, seqNo + 2)
  {
    var ms := [StatusMessage(seqNo, Success, ""), StatusMessage(seqNo + 1, InProgress, "")];
    assert ms[..1] == [ms[0]] && ms[..1][..0] == [];
  }

  /** What the polling did: the loop variables when it ended, the start sequence
      numbers of the reads it made, in order, and whether it ended through an
      exception other than `StreamManagerException`. */
  datatype PollResult = PollResult(state: PollState, starts: seq<int>, aborted: bool)

  /** The loop `while not stop_checking`, from state `st`, given what the
      successive reads return. It ends when `stop_checking` is set, when a read
      raises any other exception, or when the given reads are used up. */
  function Poll(st: PollState, outcomes: seq<ReadOutcome>): PollResult
    decreases |outcomes|
  {
    if st.stopChecking || outcomes == [] then PollResult(st, [], false)
    else
      match outcomes[0]
      case OtherError => PollResult(st, [st.nextSeq], true)
      case StreamManagerError =>
        var r := Poll(st, outcomes[1..]);
        r.(starts := [st.nextSeq] + r.starts)
      case Batch(ms) =>
        var r := Poll(StepBatch(st, ms), outcomes[1..]);
        r.(starts := [st.nextSeq] + r.starts)
  }

  /** The first read starts at sequence number 0. */
  lemma PollStartsAtZero(outcomes: seq<ReadOutcome>)
    requires outcomes != []
    ensures Poll(Initial, outcomes).starts != [] && Poll(Initial, outcomes).starts[0] == 0
  {
  }

  /** A read is made for every outcome consumed, and the polling stops no later
      than the outcomes run out. */
  lemma {:induction false} PollReadsAtMostGiven(st: PollState, outcomes: seq<ReadOutcome>)
    ensures |Poll(st, outcomes).starts| <= |outcomes|
    ensures !Poll(st, outcomes).aborted && |Poll(st, outcomes).starts| < |outcomes| ==> Poll(st, outcomes).state.stopChecking
    decreases |outcomes|
  {
    if !st.stopChecking && outcomes != [] && !outcomes[0].OtherError? {
      var next := if outcomes[0].Batch? then StepBatch(st, outcomes[0].messages) else st;
      PollReadsAtMostGiven(next, outcomes[1..]);
    }
  }

  /** The batch that carries a terminal status is the last one read: whatever
      the later reads would return, the loop exits after it, with the state that
      batch left. */
  lemma PollStopsAfterTerminalBatch(st: PollState, ms: seq<StatusMessage>, later: seq<ReadOutcome>)
    requires !st.stopChecking
    requires exists i :: 0 <= i < |ms| && Terminal(ms[i].status)
    ensures Poll(st, [Batch(ms)] + later) == PollResult(StepBatch(st, ms), [st.nextSeq], false)
  {
    StepBatchStops(st, ms);
    assert ([Batch(ms)] + later)[1..] == later;
  }

  /** A batch without a terminal status keeps the loop going: the next read starts
      where the batch left `next_seq`. */
  lemma PollContinuesAfterBatch(st: PollState, ms: seq<StatusMessage>, later: seq<ReadOutcome>)
    requires !st.stopChecking && later != []
    requires forall i :: 0 <= i < |ms| ==> !Terminal(ms[i].status)
    ensures |Poll(st, [Batch(ms)] + later).starts| >= 2
    ensures Poll(st, [Batch(ms)] + later).starts[..2] == [st.nextSeq, StepBatch(st, ms).nextSeq]
  {
    StepBatchStops(st, ms);
    assert ([Batch(ms)] + later)[1..] == later;
  }

  /** After a `StreamManagerException` the loop retries from the same `next_seq`. */
  lemma PollRetriesAfterStreamManagerError(st: PollState, later: seq<ReadOutcome>)
    requires !st.stopChecking && later != []
    ensures |Poll(st, [StreamManagerError] + later).starts| >= 2
    ensures Poll(st, [StreamManagerError] + later).starts[..2] == [st.nextSeq, st.nextSeq]
    ensures Poll(st, [StreamManagerError] + later).state == Poll(st, later).state
  {
    assert ([StreamManagerError] + later)[1..] == later;
  }

  /** The result of a polling continued after the reads that started at `starts`. */
  function After(starts: seq<int>, r: PollResult): (p: PollResult)
    ensures p.state == r.state && p.aborted == r.aborted && p.starts == starts + r.starts
  {
    r.(starts := starts + r.starts)
  }

  /** Continuing after `a` a polling that continued after `b`. */
  lemma AfterAfter(a: seq<int>, b: seq<int>, r: PollResult)
    ensures After(a, After(b, r)) == After(a + b, r)
  {
    assert a + (b + r.starts) == (a + b) + r.starts;
  }

  /** One pass of the loop, read at index `n` of the outcomes. */
  lemma PollPass(st: PollState, outcomes: seq<ReadOutcome>, n: nat)
    requires !st.stopChecking && n < |outcomes|
    ensures outcomes[n].OtherError? ==> Poll(st, outcomes[n..]) == PollResult(st, [st.nextSeq], true)
    ensures outcomes[n].StreamManagerError? ==>
      Poll(st, outcomes[n..]) == After([st.nextSeq], Poll(st, outcomes[n + 1..]))
    ensures outcomes[n].Batch? ==>
      Poll(st, outcomes[n..]) == After([st.nextSeq], Poll(StepBatch(st, outcomes[n].messages), outcomes[n + 1..]))
  {
    assert outcomes[n..][1..] == outcomes[n + 1..];
  }

  /** The inner loop `for message in messages`: the status of each message read
      in a pass updates the loop variables. */
  method WalkBatch(st: PollState, ms: seq<StatusMessage>) returns (stopChecking: bool, nextSeq: int)
    ensures PollState(stopChecking, nextSeq) == StepBatch(st, ms)
  {
    stopChecking, nextSeq := st.stopChecking, st.nextSeq;
    for i := 0 to |ms|
      invariant PollState(stopChecking, nextSeq) == StepBatch(st, ms[..i])
    {
      var m := ms[i];
      if m.status == Success {
        stopChecking := true;
      } else if m.status == InProgress {
        nextSeq := m.sequenceNumber + 1;
      } else if m.status == Failure || m.status == Canceled {
        stopChecking := true;
      }
      assert ms[..i + 1][..i] == ms[..i];
    }
    assert ms[..|ms|] == ms;
  }

  /** The polling loop as the source runs it: each pass reads from `next_seq`
      (the read's outcome is the next element of `outcomes`) and walks the batch,
      message by message. Returns the final loop variables, the start sequence
      numbers of the reads made and whether another exception ended it. */
  method PollExportStatus(outcomes: seq<ReadOutcome>)
    returns (stopChecking: bool, nextSeq: int, starts: seq<int>, aborted: bool)
    ensures Poll(Initial, outcomes) == PollResult(PollState(stopChecking, nextSeq), starts, aborted)
  {
    stopChecking, nextSeq := false, 0;
    starts, aborted := [], false;
    var n := 0;
    while !stopChecking && n < |outcomes|
      invariant 0 <= n <= |outcomes|
      invariant Poll(Initial, outcomes) == After(starts, Poll(PollState(stopChecking, nextSeq), outcomes[n..]))
      decreases |outcomes| - n
    {
      var before := PollState(stopChecking, nextSeq);
      ghost var starts0 := starts;
      PollPass(before, outcomes, n);
      starts := starts + [nextSeq];
      if outcomes[n].OtherError? {
        aborted := true;
        return;
      }
      if outcomes[n].Batch? {
        stopChecking, nextSeq := WalkBatch(before, outcomes[n].messages);
      }
      ghost var rest := Poll(PollState(stopChecking, nextSeq), outcomes[n + 1..]);
      assert Poll(before, outcomes[n..]) == After([before.nextSeq], rest);
      AfterAfter(starts0, [before.nextSeq], rest);
      n := n + 1;
    }
    assert outcomes[n..] == [] || stopChecking;
  }
}
