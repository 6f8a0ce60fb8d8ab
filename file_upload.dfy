/** The run-configuration upload page of the edge UI: the `removeItems` helper,
    the `useFiles` hook's `withBlobs` setter and the file input's `onChange`
    handler, which takes a selection of ".json" files only. */
module FileUpload {
  import opened Wrappers
  import opened Strings

  /** A selected file; only its name matters here. */
  datatype File = File(name: string)

  /** A JavaScript array, changed in place by `pop`. */
  class JsArray<T> {
    var elems: seq<T>

    constructor (elems: seq<T>)
      ensures this.elems == elems
    {
      this.elems := elems;
    }

    /** `Array.prototype.pop`: removes and returns the last element; on an empty
        array it returns `undefined` and changes nothing. */
    method Pop() returns (last: Option<T>)
      modifies this`elems
      ensures old(elems) == [] ==> last.None? && elems == []
      ensures old(elems) != [] ==>
        && last == Some(old(elems)[|old(elems)| - 1])
        && elems == old(elems)[..|old(elems)| - 1]
    {
      if elems == [] {
        last := None;
      } else {
        last := Some(elems[|elems| - 1]);
        elems := elems[..|elems| - 1];
      }
    }
  }

  function Max(a: int, b: int): int {
    if a < b then b else a
  }

  function Min(a: int, b: int): int {
    if a < b then a else b
  }

  /** What `count` pops leave of `s`: its prefix without the last `count`
      elements, or nothing when there are fewer. */
  function DropLast<T>(s: seq<T>, count: int): (r: seq<T>)
    ensures |r| == Max(0, |s| - Max(count, 0))
    ensures r == s[..|r|]
    ensures count <= 0 ==> r == s
  {
    s[..Max(0, |s| - Max(count, 0))]
  }

  /** Dropping twice drops the sum, so the pops can be counted one by one. */
  lemma DropLastTwice<T>(s: seq<T>, a: nat, b: nat)
    ensures DropLast(DropLast(s, a), b) == DropLast(s, a + b)
  {
  }

  /** `removeItems(arr, item)`: pops `item` times. */
  method RemoveItems<T>(arr: JsArray<T>, item: int)
    modifies arr`elems
    ensures arr.elems == DropLast(old(arr.elems), item)
  {
    var i := 0;
    while i < item
      invariant 0 <= i <= Max(item, 0)
      invariant arr.elems == DropLast(old(arr.elems), i)
      decreases item - i
    {
      var _ := arr.Pop();
      DropLastTwice(old(arr.elems), i, 1);
      i := i + 1;
    }
    assert Max(i, 0) == Max(item, 0);
  }

  /** `.filter((elem) => elem !== null)`, the identity `map` before it included. */
  function NonNull(files: seq<Option<File>>): (r: seq<File>)
    ensures |r| <= |files|
    ensures forall f :: f in r <==> Some(f) in files
    ensures (forall i :: 0 <= i < |files| ==> files[i].Some?) ==>
      |r| == |files| && forall i :: 0 <= i < |files| ==> r[i] == files[i].value
  {
    if files == [] then []
    else
      var rest := NonNull(files[1..]);
      assert forall f :: Some(f) in files <==> Some(f) == files[0] || Some(f) in files[1..];
      if files[0].None? then rest else [files[0].value] + rest
  }

  /** Filtering keeps the order: it distributes over concatenation. */
  lemma {:induction false} NonNullAppend(a: seq<Option<File>>, b: seq<Option<File>>)
    ensures NonNull(a + b) == NonNull(a) + NonNull(b)
    decreases |a|
  {
    if a == [] {
      assert a + b == b;
    } else {
      assert (a + b)[0] == a[0];
      assert (a + b)[1..] == a[1..] + b;
      NonNullAppend(a[1..], b);
    }
  }

  /** The number of leading files `withBlobs` keeps. */
  function KeptCount(total: nat, maxFiles: int): (k: nat)
    ensures k <= total && k <= Max(0, maxFiles)
    ensures total <= maxFiles ==> k == total
    ensures maxFiles < total ==> k == Max(0, maxFiles)
  {
    Min(total, Max(0, maxFiles))
  }

  /** The files `withBlobs` puts in the state: the first `maxFiles` of the
      selection, in order, without the nulls. */
  function Selected(files: seq<Option<File>>, maxFiles: int): seq<File> {
    NonNull(files[..KeptCount(|files|, maxFiles)])
  }

  /** The state never holds more than `maxFiles` files, and holds nothing that was
      not selected. */
  lemma SelectedBounds(files: seq<Option<File>>, maxFiles: int)
    ensures |Selected(files, maxFiles)| <= Max(0, maxFiles)
    ensures forall f :: f in Selected(files, maxFiles) ==> Some(f) in files
  {
  }

  /** Within the limit nothing but the nulls is removed; beyond it, the files past
      the limit are the ones dropped. */
  lemma SelectedWithinLimit(files: seq<Option<File>>, maxFiles: int)
    ensures |files| <= maxFiles ==> Selected(files, maxFiles) == NonNull(files)
    ensures 0 <= maxFiles < |files| ==>
      NonNull(files) == Selected(files, maxFiles) + NonNull(files[maxFiles..])
  {
    if 0 <= maxFiles < |files| {
      assert files == files[..maxFiles] + files[maxFiles..];
      NonNullAppend(files[..maxFiles], files[maxFiles..]);
    } else if |files| <= maxFiles {
      assert files[..|files|] == files;
    }
  }

  /** The `useFiles` hook: its state and the `maxFiles` it was given. */
  class FilesHook {
    var state: seq<File>
    const maxFiles: int

    constructor (maxFiles: int)
      ensures state == [] && this.maxFiles == maxFiles
    {
      state := [];
      this.maxFiles := maxFiles;
    }

    /** `withBlobs(files)`: copies the selection, pops the files beyond
        `maxFiles` from the copy, filters out the nulls and sets the state. The
        caller's list is left as it was. */
    method WithBlobs(files: JsArray<Option<File>>)
      modifies this`state
      ensures state == Selected(files.elems, maxFiles)
      ensures files.elems == old(files.elems)
    {
      var destructured := new JsArray(files.elems);
      if |destructured.elems| > maxFiles {
        var difference := |destructured.elems| - maxFiles;
        RemoveItems(destructured, difference);
      }
      assert destructured.elems == files.elems[..KeptCount(|files.elems|, maxFiles)];
      state := NonNull(destructured.elems);
    }
  }

  /** The extension test `name.split(".").pop() === "json"`. */
  function Accepts(name: string): bool {
    SplitLast(name, ".") == "json"
  }

  /** A name is accepted exactly when it ends in ".json" or, having no dot, is
      "json" itself. */
  lemma AcceptsJsonNames(name: string)
    ensures Accepts(name) <==> name == "json" || EndsWith(name, ".json")
  {
    if name == "json" || EndsWith(name, ".json") {
      JsonNamesAccepted(name);
    }
    if Accepts(name) {
      AcceptedNamesJson(name);
    }
  }

  lemma JsonNamesAccepted(name: string)
    requires name == "json" || EndsWith(name, ".json")
    ensures Accepts(name)
  {
    if EndsWith(name, ".json") {
      var p := name[..|name| - 5];
      assert name == p + ['.'] + "json" by {
        assert name == p + name[|name| - 5..];
      }
      SplitLastAfterChar(p, '.', "json");
    } else {
      assert !Contains("json", ".") by { ContainsChar("json", '.'); }
    }
  }

  lemma AcceptedNamesJson(name: string)
    requires Accepts(name)
    ensures name == "json" || EndsWith(name, ".json")
  {
    var r := SplitLast(name, ".");
    SplitLastPiece(name, ".");
    if Contains(name, ".") {
      assert OccursAt(name, ".", |name| - 5);
      assert name[|name| - 5..] == name[|name| - 5..|name| - 4] + r;
    }
  }

  /** The outcome of a change of the file input. */
  datatype ChangeOutcome =
    | Ignored   // no file was selected
    | Accepted  // the first file is a ".json" file: it is taken
    | Rejected  // the first file is not: the error message is shown
    | Crashed   // the first entry is null: reading its name throws

  const RejectMessage := "Please upload json file"

  /** The number of files the page keeps when it is mounted without `maxFiles`. */
  const DefaultMaxFiles := 1

  /** With the default limit the state holds the selection's first file alone,
      or nothing when that entry is null or nothing was selected. */
  lemma DefaultKeepsFirstFile(files: seq<Option<File>>)
    ensures files == [] || files[0].None? ==> Selected(files, DefaultMaxFiles) == []
    ensures files != [] && files[0].Some? ==> Selected(files, DefaultMaxFiles) == [files[0].value]
  {
    if files != [] {
      assert files[..KeptCount(|files|, DefaultMaxFiles)] == [files[0]];
      assert [files[0]][1..] == [];
    }
  }

  /** The upload page's state: the submit button's `disable` flag, the file name
      shown, the error message and the files hook. */
  class Page {
    var disable: bool
    var fileName: string
    var error: string
    const files: FilesHook

    constructor (maxFiles: Option<int>)
      ensures disable && fileName == "" && error == ""
      ensures fresh(files) && files.state == []
      ensures maxFiles.None? ==> files.maxFiles == DefaultMaxFiles
      ensures maxFiles.Some? ==> files.maxFiles == maxFiles.value
    {
      disable, fileName, error := true, "", "";
      files := new FilesHook(if maxFiles.Some? then maxFiles.value else DefaultMaxFiles);
    }

    /** The input's `onChange` handler for the selection `selected`. */
    method OnChange(selected: JsArray<Option<File>>) returns (outcome: ChangeOutcome)
      modifies this`disable, this`fileName, this`error, files`state
      ensures selected.elems == old(selected.elems)
      ensures outcome == Outcome(selected.elems)
      ensures outcome == Accepted ==>
        && !disable && fileName == selected.elems[0].value.name && error == old(error)
        && files.state == Selected(selected.elems, files.maxFiles)
      ensures outcome == Rejected ==>
        && error == RejectMessage
        && disable == old(disable) && fileName == old(fileName) && files.state == old(files.state)
      ensures outcome in {Ignored, Crashed} ==>
        && error == old(error)
        && disable == old(disable) && fileName == old(fileName) && files.state == old(files.state)
    {
      if |selected.elems| == 0 {
        return Ignored;
      }
      if selected.elems[0].None? {
        return Crashed;
      }
      var name := selected.elems[0].value.name;
      if SplitLast(name, ".") == "json" {
        disable := false;
        files.WithBlobs(selected);
        fileName := name;
        outcome := Accepted;
      } else {
        error := RejectMessage;
        outcome := Rejected;
      }
    }
  }

  /** What `onChange` does with a selection, decided by its first entry. */
  function Outcome(selected: seq<Option<File>>): (o: ChangeOutcome)
    ensures o == Ignored <==> selected == []
    ensures o == Crashed <==> selected != [] && selected[0].None?
    ensures o == Accepted <==> selected != [] && selected[0].Some? && Accepts(selected[0].value.name)
  {
    if selected == [] then Ignored
    else if selected[0].None? then Crashed
    else if Accepts(selected[0].value.name) then Accepted
    else Rejected
  }

  /** The submit button's label: "Start run" when the page was reached with the
      title "new run", otherwise "Start inspection". */
  function ButtonLabel(title: Option<string>): (text: string)
    ensures text == "Start run" <==> title == Some("new run")
  {
    if title == Some("new run") then "Start run" else "Start inspection"
  }
}
