/** The job page of the edge UI: the normalisation that turns the Python
    representation of the publisher's record, as the websocket app forwards it,
    into JSON text; the first key of the record's operating-parameters message
    (`resurveykey`) and the status colour it selects; and the end-run / end-job
    dialog, whose handlers emit socket events and navigate away. */
module JobPage {
  import opened Wrappers
  import opened Strings
  import opened JsonValues
  import FileUpload

  // ---------------------------------------------------------------------------
  // Normalising the IPC response
  // ---------------------------------------------------------------------------

  const NonePattern := ": None"
  const NoneText := ": \"None\""

  /** Every single quote turned into a double quote (`replace(/'/g, '"')`). */
  function DoubleQuoted(data: string): string {
    ReplaceAll(data, "'", "\"")
  }

  /** The four replacements applied to the response text, in order: quotes
      (global), the first "True", the first "False", and every ": None" (global). */
  function Normalize(data: string): string {
    var quoted := DoubleQuoted(data);
    var t := ReplaceFirst(quoted, "True", "true");
    var f := ReplaceFirst(t, "False", "false");
    ReplaceAll(f, NonePattern, NoneText)
  }

  /** The quote replacement maps the text character by character. */
  lemma DoubleQuotedMapsQuotes(data: string)
    ensures |DoubleQuoted(data)| == |data|
    ensures forall k :: 0 <= k < |data| ==>
      DoubleQuoted(data)[k] == if data[k] == '\'' then '"' else data[k]
  {
    ReplaceAllChar(data, '\'', '"');
  }

  /** No single quote remains in the normalised text. */
  lemma NormalizeLeavesNoSingleQuote(data: string)
    ensures '\'' !in Normalize(data)
  {
    var quoted := DoubleQuoted(data);
    DoubleQuotedMapsQuotes(data);
    assert '\'' !in quoted by {
      forall k | 0 <= k < |quoted| ensures quoted[k] != '\'' { }
    }
    var t := ReplaceFirst(quoted, "True", "true");
    ReplaceFirstKeepsAbsent(quoted, "True", "true", '\'');
    var f := ReplaceFirst(t, "False", "false");
    ReplaceFirstKeepsAbsent(t, "False", "false", '\'');
    ReplaceAllKeepsAbsent(f, NonePattern, NoneText, '\'');
  }

  /** Text without a colon starts the replaced text only where it starts the
      original: the replacement itself begins with a colon. */
  lemma {:induction false} NoColonPrefix(t: string, w: string)
    requires ':' !in w
    requires !StartsWith(t, w)
    ensures !StartsWith(ReplaceAll(t, NonePattern, NoneText), w)
    decreases |t|
  {
    var r := ReplaceAll(t, NonePattern, NoneText);
    assert w != [];
    assert w[0] != ':';
    if StartsWith(t, NonePattern) {
      assert r[0] == ':';
    } else if t != [] {
      var rest := ReplaceAll(t[1..], NonePattern, NoneText);
      assert r == [t[0]] + rest;
      if t[0] == w[0] {
        assert !StartsWith(t[1..], w[1..]) by {
          if |w| <= |t| {
            assert t[..|w|] == [t[0]] + t[1..][..|w| - 1];
            assert w == [w[0]] + w[1..];
          }
        }
        assert ':' !in w[1..] by {
          forall k | 0 <= k < |w| - 1 ensures w[1..][k] != ':' {
            assert w[1..][k] == w[k + 1];
          }
        }
        NoColonPrefix(t[1..], w[1..]);
        if |w| <= |r| {
          assert r[..|w|] == [t[0]] + rest[..|w| - 1];
        }
      }
    }
  }

  /** No ": None" is left after the global replacement: an occurrence cannot
      overlap an inserted `: "None"`, and one made only of kept characters would
      have been replaced. */
  lemma {:induction false} NoneReplacedEverywhere(s: string)
    ensures !Contains(ReplaceAll(s, NonePattern, NoneText), NonePattern)
    decreases |s|
  {
    var r := ReplaceAll(s, NonePattern, NoneText);
    if StartsWith(s, NonePattern) {
      NoneReplacedEverywhere(s[6..]);
      assert r == NoneText + ReplaceAll(s[6..], NonePattern, NoneText);
      NoNoneAfterInserted(ReplaceAll(s[6..], NonePattern, NoneText));
    } else if s != [] {
      NoneReplacedEverywhere(s[1..]);
      assert r == [s[0]] + ReplaceAll(s[1..], NonePattern, NoneText);
      NoNoneAfterKept(s);
    }
  }

  /** An inserted `: "None"` followed by text without ": None" holds none. */
  lemma NoNoneAfterInserted(rest: string)
    requires !Contains(rest, NonePattern)
    ensures !Contains(NoneText + rest, NonePattern)
  {
    var r := NoneText + rest;
    forall j: nat | j <= |r| ensures !OccursAt(r, NonePattern, j) {
      if j == 0 {
        assert r[2] != 'N';
      } else if j < 8 {
        assert r[j] != ':';
      } else {
        assert !OccursAt(rest, NonePattern, j - 8);
        if j + 6 <= |r| {
          assert r[j..j + 6] == rest[j - 8..j - 8 + 6];
        }
      }
    }
  }

  /** A kept first character followed by the replaced rest holds no ": None"
      when the rest holds none: a kept colon is not followed by " None". */
  lemma NoNoneAfterKept(s: string)
    requires s != [] && !StartsWith(s, NonePattern)
    requires !Contains(ReplaceAll(s[1..], NonePattern, NoneText), NonePattern)
    ensures !Contains([s[0]] + ReplaceAll(s[1..], NonePattern, NoneText), NonePattern)
  {
    var rest := ReplaceAll(s[1..], NonePattern, NoneText);
    var r := [s[0]] + rest;
    forall j: nat | j <= |r| ensures !OccursAt(r, NonePattern, j) {
      if j == 0 {
        if s[0] != ':' {
          assert r[0] != ':';
        } else {
          assert !StartsWith(s[1..], " None") by {
            if |s| >= 6 {
              assert s[..6] == [s[0]] + s[1..][..5];
            }
          }
          NoColonPrefix(s[1..], " None");
          if |r| >= 6 {
            assert r[1..6] == rest[..5];
          }
        }
      } else {
        OccursAtShift(s[0], rest, NonePattern, j - 1);
      }
    }
  }

  /** The normalised text carries no Python `None` after a colon. */
  lemma NormalizeLeavesNoNone(data: string)
    ensures !Contains(Normalize(data), NonePattern)
  {
    var t := ReplaceFirst(DoubleQuoted(data), "True", "true");
    NoneReplacedEverywhere(ReplaceFirst(t, "False", "false"));
  }

  /** Only the first "True" is lowercased: a later one survives the step. */
  lemma OnlyFirstTrueLowercased(quoted: string, i: nat, j: nat)
    requires OccursAt(quoted, "True", i) && i + 4 <= j && OccursAt(quoted, "True", j)
    ensures OccursAt(ReplaceFirst(quoted, "True", "true"), "True", j)
  {
    ReplaceFirstKeepsLater(quoted, "True", "true", i, j);
  }

  /** Only the first "False" is lowercased: a later one survives the step. */
  lemma OnlyFirstFalseLowercased(t: string, i: nat, j: nat)
    requires OccursAt(t, "False", i) && i + 5 <= j && OccursAt(t, "False", j)
    ensures OccursAt(ReplaceFirst(t, "False", "false"), "False", j)
  {
    ReplaceFirstKeepsLater(t, "False", "false", i, j);
  }

  // ---------------------------------------------------------------------------
  // resurveykey and the status colour
  // ---------------------------------------------------------------------------

  /** A JavaScript value read while rendering: a JSON value or `undefined`. */
  type JsValue = Option<Json>

  /** `v[key]` for a property key that is neither an array index nor "length":
      an object's member, `undefined` on strings and booleans, and a TypeError
      (`None`) on `undefined` and `null`. */
  function Prop(v: JsValue, key: string): (r: Option<JsValue>)
    ensures r.None? <==> v.None? || v == Some(JNull)
    ensures v.Some? && v.value.JObj? ==> r == Some(Get(v.value.members, key))
  {
    match v
    case None => None
    case Some(JNull) => None
    case Some(JObj(ms)) => Some(Get(ms, key))
    case Some(_) => Some(None)
  }

  /** `Object.keys(v)`: an object's keys, the indices of a string, nothing for a
      boolean, a TypeError (`None`) on `undefined` and `null`. */
  function ObjectKeys(v: JsValue): (r: Option<seq<string>>)
    ensures r.None? <==> v.None? || v == Some(JNull)
    ensures v.Some? && v.value.JObj? ==> r == Some(Keys(v.value.members))
  {
    match v
    case None => None
    case Some(JNull) => None
    case Some(JObj(ms)) => Some(Keys(ms))
    case Some(JStr(s)) => Some(seq(|s|, i requires 0 <= i < |s| => NatToString(i)))
    case Some(JBool(_)) => Some([])
  }

  /** The value of `resurveykey` in a render: a string, or `undefined`. */
  datatype Resurvey = Text(s: string) | Undefined

  /** `resurveykey` for the current `jobDetails`: "" while it is the initial
      empty string, otherwise the first key of
      `jobDetails["Operating Parameters"].message`. `None` is the TypeError that
      aborts the render when a step of that path is missing. */
  function ResurveyKey(details: Json): (r: Option<Resurvey>)
    ensures details == JStr("") ==> r == Some(Text(""))
  {
    if details == JNull then None                       // null.length
    else if details.JStr? && details.s == "" then Some(Text(""))
    else
      var op := Prop(Some(details), "Operating Parameters");
      if op.None? then None
      else
        var message := Prop(op.value, "message");
        if message.None? then None
        else
          var keys := ObjectKeys(message.value);
          if keys.None? then None
          else if keys.value == [] then Some(Undefined)
          else Some(Text(keys.value[0]))
  }

  /** For a record whose operating parameters carry a message object, the key
      is the message's first key; a record without operating parameters aborts
      the render. */
  lemma ResurveyKeyOfRecord(ms: seq<Member>, ops: seq<Member>, message: seq<Member>)
    requires Get(ms, "Operating Parameters") == Some(JObj(ops))
    requires Get(ops, "message") == Some(JObj(message))
    ensures message != [] ==> ResurveyKey(JObj(ms)) == Some(Text(message[0].key))
    ensures message == [] ==> ResurveyKey(JObj(ms)) == Some(Undefined)
  {
  }

  lemma ResurveyKeyNeedsOperatingParameters(ms: seq<Member>)
    requires "Operating Parameters" !in Keys(ms)
    ensures ResurveyKey(JObj(ms)) == None
  {
    GetFound(ms, "Operating Parameters");
  }

  const Green := "#67ac5b"
  const Red := "#EB0029"
  const JobContinues := "Job continues"

  /** The status colour (the border and the text of the status): green exactly
      when the key is "Job continues", red for any other key and for
      `undefined`. */
  function StatusColour(key: Resurvey): (c: string)
    ensures c == Green <==> key == Text(JobContinues)
    ensures c == Red <==> key != Text(JobContinues)
  {
    if key == Text(JobContinues) then Green else Red
  }

  // ---------------------------------------------------------------------------
  // The end-run / end-job dialog
  // ---------------------------------------------------------------------------

  /** The dialog's React state: whether it is shown, and whether the first
      question ("end run?") has been answered yes. */
  datatype DialogState = DialogState(open: bool, isEndRun: bool)

  const Closed := DialogState(false, false)

  /** The handlers: `openPopup`, `handleClose`, `handleAccept`, `handleCancel`. */
  datatype Event = OpenPopup | Close | Accept | Cancel

  /** What a handler does beyond its state: the socket's `end_run` and
      `end_job(jobDetails)` events, `disconnectSocket()`, and a navigation to a
      path with a page title. */
  datatype Effect = EmitEndRun | EmitEndJob(details: Json) | Disconnect | Navigate(path: string, title: string)

  datatype Transition = Transition(next: DialogState, effects: seq<Effect>)

  const EndRunEffects := [EmitEndRun, Disconnect, Navigate("/fileUpload", "new run")]

  function EndJobEffects(details: Json): seq<Effect> {
    [EmitEndJob(details), Disconnect, Navigate("/", "new job")]
  }

  /** One handler run from state `st`, with the current `jobDetails`. */
  function Step(st: DialogState, ev: Event, details: Json): Transition {
    match ev
    case OpenPopup => Transition(st.(open := true), [])
    case Close => Transition(Closed, [])
    case Accept =>
      if st.isEndRun then Transition(st.(isEndRun := false), EndRunEffects)
      else Transition(st.(isEndRun := true), [])
    case Cancel =>
      if st.isEndRun then Transition(st.(isEndRun := false), EndJobEffects(details))
      else Transition(st.(open := false), [])
  }

  /** A handler has effects exactly when the second question is pending and it
      is answered: then it ends the run (accept) or the job (cancel), and the
      navigation comes last. */
  lemma StepEffects(st: DialogState, ev: Event, details: Json)
    ensures Step(st, ev, details).effects != [] <==> st.isEndRun && (ev == Accept || ev == Cancel)
    ensures st.isEndRun && ev == Accept ==> Step(st, ev, details).effects == EndRunEffects
    ensures st.isEndRun && ev == Cancel ==> Step(st, ev, details).effects == EndJobEffects(details)
    ensures ev != OpenPopup ==> (Step(st, ev, details).next.isEndRun <==> !st.isEndRun && ev == Accept)
  {
  }

  /** The dialog's buttons exist only while it is shown. */
  predicate Enabled(st: DialogState, ev: Event) {
    ev == OpenPopup || st.open
  }

  /** The second question is only pending while the dialog is shown. */
  predicate Consistent(st: DialogState) {
    st.isEndRun ==> st.open
  }

  lemma StepKeepsConsistent(st: DialogState, ev: Event, details: Json)
    requires Consistent(st) && Enabled(st, ev)
    ensures Consistent(Step(st, ev, details).next)
  {
  }

  /** A sequence of handler runs from `st`; a navigation leaves the page, so the
      events after it are not delivered. */
  function Run(st: DialogState, events: seq<Event>, details: Json): Transition
    decreases |events|
  {
    if events == [] then Transition(st, [])
    else
      var t := Step(st, events[0], details);
      if t.effects != [] then t
      else Run(t.next, events[1..], details)
  }

  /** Answering yes twice ends the run and returns to the upload page, whose
      submit button then reads "Start run". */
  lemma AcceptTwiceEndsRun(details: Json)
    ensures Run(Closed, [OpenPopup, Accept, Accept], details).effects == EndRunEffects
    ensures FileUpload.ButtonLabel(Some(EndRunEffects[2].title)) == "Start run"
  {
    assert [OpenPopup, Accept, Accept][1..] == [Accept, Accept];
    assert [Accept, Accept][1..] == [Accept];
  }

  /** Yes, then no, ends the job with the current job details. */
  lemma AcceptThenCancelEndsJob(details: Json)
    ensures Run(Closed, [OpenPopup, Accept, Cancel], details).effects == EndJobEffects(details)
  {
    assert [OpenPopup, Accept, Cancel][1..] == [Accept, Cancel];
    assert [Accept, Cancel][1..] == [Cancel];
  }

  /** Closing the dialog forgets the first answer: reopening and cancelling only
      closes it. */
  lemma CloseForgetsAnswer(details: Json)
    ensures Run(Closed, [OpenPopup, Accept, Close, OpenPopup, Cancel], details) == Transition(Closed, [])
  {
    var evs := [OpenPopup, Accept, Close, OpenPopup, Cancel];
    assert evs[1..] == [Accept, Close, OpenPopup, Cancel];
    assert evs[1..][1..] == [Close, OpenPopup, Cancel];
    assert evs[1..][1..][1..] == [OpenPopup, Cancel];
    assert evs[1..][1..][1..][1..] == [Cancel];
  }

  /** The dialog's question and its buttons' labels. */
  function DialogTitle(isEndRun: bool): string {
    if isEndRun then "Do you want to start another run? " else "Are you sure want to end run?"
  }

  function AcceptLabel(isEndRun: bool): string {
    if isEndRun then "Yes, Start another run" else "End run"
  }

  function CancelLabel(isEndRun: bool): string {
    if isEndRun then "No, end job" else "Cancel"
  }

  /** The question and the labels say what pressing a button does: "Do you want
      to start another run?" is asked, and "Yes, Start another run" shown,
      exactly when accepting ends the run, "No, end job" exactly when cancelling
      ends the job. */
  lemma LabelsMatchEffects(st: DialogState, details: Json)
    ensures DialogTitle(st.isEndRun) == "Do you want to start another run? " <==>
      Step(st, Accept, details).effects == EndRunEffects
    ensures AcceptLabel(st.isEndRun) == "Yes, Start another run" <==> Step(st, Accept, details).effects == EndRunEffects
    ensures CancelLabel(st.isEndRun) == "No, end job" <==> Step(st, Cancel, details).effects == EndJobEffects(details)
  {
  }

  // ---------------------------------------------------------------------------
  // The page's state
  // ---------------------------------------------------------------------------

  /** The job page: the dialog state, the last job details received and the
      effects emitted so far. */
  class Page {
    var open: bool
    var isEndRun: bool
    var jobDetails: Json
    var effects: seq<Effect>

    constructor ()
      ensures !open && !isEndRun && jobDetails == JStr("") && effects == []
    {
      open, isEndRun, jobDetails, effects := false, false, JStr(""), [];
    }

    function State(): DialogState
      reads this
    {
      DialogState(open, isEndRun)
    }

    /** The `ipc_response` callback: the data is normalised and parsed (`parse`
        is `JSON.parse`; `None` is a syntax error, which leaves the details as
        they were). */
    method OnIpcResponse(data: string, parse: string -> Option<Json>)
      modifies this`jobDetails
      ensures parse(Normalize(data)).Some? ==> jobDetails == parse(Normalize(data)).value
      ensures parse(Normalize(data)).None? ==> jobDetails == old(jobDetails)
    {
      var response := ReplaceAll(data, "'", "\"");
      response := ReplaceFirst(response, "True", "true");
      response := ReplaceFirst(response, "False", "false");
      response := ReplaceAll(response, NonePattern, NoneText);
      var parsed := parse(response);
      if parsed.Some? {
        jobDetails := parsed.value;
      }
    }

    method OpenPopupHandler()
      modifies this`open
      ensures State() == Step(old(State()), OpenPopup, jobDetails).next
    {
      open := true;
    }

    method HandleClose()
      modifies this`open, this`isEndRun
      ensures State() == Step(old(State()), Close, jobDetails).next
    {
      open := false;
      isEndRun := false;
    }

    method HandleCancel()
      modifies this`open, this`isEndRun, this`effects
      ensures State() == Step(old(State()), Cancel, jobDetails).next
      ensures effects == old(effects) + Step(old(State()), Cancel, jobDetails).effects
    {
      if isEndRun {
        effects := effects + [EmitEndJob(jobDetails)];
        effects := effects + [Disconnect];
        isEndRun := false;
        effects := effects + [Navigate("/", "new job")];
      } else {
        open := false;
      }
    }

    method HandleAccept()
      modifies this`isEndRun, this`effects
      ensures State() == Step(old(State()), Accept, jobDetails).next
      ensures effects == old(effects) + Step(old(State()), Accept, jobDetails).effects
    {
      if isEndRun {
        effects := effects + [EmitEndRun];
        effects := effects + [Disconnect];
        isEndRun := false;
        effects := effects + [Navigate("/fileUpload", "new run")];
      } else {
        isEndRun := true;
      }
    }
  }
}
