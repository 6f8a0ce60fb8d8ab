/** The log-formatting rules of the backend's logging utilities: the colour and
    level tables, the request-log classifier of the WSGI request handler, the
    module-path-to-dotted-name rule, the exception one-liner, the colour
    attributes a record carries while it is formatted, and the merge of keyword
    arguments into `extra` that the logger adapter performs.

    The working directory, the path separator and whether the stream is a TTY are
    parameters. Of the standard formatter, the message is formatted with the
    record's arguments (`PrintfStyle`); the %-substitution of the layout, the
    time formatting and the ANSI-escape regular expression are passed in as
    functions. */
module Logging {
  import opened Wrappers
  import opened Strings
  import opened PrintfStyle

  // ---------------------------------------------------------------------------
  // Tables
  // ---------------------------------------------------------------------------

  /** ANSI_HUES: escape sequence per level number; 90 is the gray hue and 0 the reset. */
  const AnsiHues: map<int, string> := map[
    90 := "\U{1B}[38;5;242m",
    60 := "\U{1B}[38;5;128m",
    50 := "\U{1B}[38;5;197m",
    40 := "\U{1B}[38;5;204m",
    30 := "\U{1B}[38;5;215m",
    20 := "\U{1B}[38;5;41m",
    10 := "\U{1B}[38;5;14m",
    0 := "\U{1B}[0m"
  ]

  /** The level-number-to-name table the module installs in the logging library. */
  const LevelToName: map<int, string> := map[
    60 := "TRACE",
    50 := "FATAL",
    40 := "ERROR",
    30 := "WARN",
    20 := "INFO",
    10 := "DEBUG",
    0 := "NOTSET"
  ]

  /** ATTRS: the record attributes that exist only while a record is formatted. */
  const Attrs: seq<string> := ["color", "gray", "reset"]

  const AttrSet: set<string> := {"color", "gray", "reset"}

  /** The default record layout and date format of the formatter. */
  const LogFmt: string :=
    "%(gray)s%(asctime)s %(color)s%(levelname)5s%(reset)s %(gray)s%(stack)s:%(lineno)d%(reset)s : %(message)s"
  const Iso8601: string := "%Y-%m-%dT%H:%M:%SZ"

  /** Every named level has a hue, so colouring a record at a named level never
      misses the table; the gray and reset hues are there too. */
  lemma EveryLevelHasHue()
    ensures LevelToName.Keys <= AnsiHues.Keys
    ensures 90 in AnsiHues && 0 in AnsiHues
    ensures AnsiHues.Keys == LevelToName.Keys + {90}
  {
  }

  // ---------------------------------------------------------------------------
  // Logger level methods
  // ---------------------------------------------------------------------------

  /** The logger's level methods, with the aliases fatal, warn and trace. */
  datatype LevelMethod = Debug | Info | Warning | Error | Critical | Exception | Fatal | Warn | Trace

  /** What a level method hands to the wrapped logger's `_log`: the level number,
      whether exception information is passed positionally, and the keyword
      arguments. */
  datatype LogCall = LogCall(level: int, excInfo: bool, kwargs: map<string, Value>)

  /** The keyword parameters of the standard `Logger._log` after `level`, `msg`
      and `args`. */
  const LogKeywords: set<string> := {"exc_info", "extra", "stack_info", "stacklevel"}

  /** The level methods call the wrapped logger's `_log` directly, so the adapter's
      own `extra` is NOT merged in (`process` is bypassed) and the keyword
      arguments reach `_log` as given. `exception` (and its alias `trace`) passes
      exception information positionally. `None` is the TypeError of the call: a
      keyword `_log` does not take, or an `exc_info=` keyword given to
      `exception`, which then has two values. Each method logs at the level its
      name says in the module's level-name table (WARN for `warning`, FATAL for
      `critical`, TRACE for `exception`). */
  function CallFor(m: LevelMethod, kwargs: map<string, Value>): (c: Option<LogCall>)
    ensures c.None? <==> !(kwargs.Keys <= LogKeywords) || (m in {Exception, Trace} && "exc_info" in kwargs)
    ensures c.Some? ==> c.value.level in LevelToName && c.value.level in AnsiHues
    ensures c.Some? ==> (c.value.excInfo <==> m in {Exception, Trace})
    ensures c.Some? ==> c.value.kwargs == kwargs
    ensures c.Some? && m == Debug ==> LevelToName[c.value.level] == "DEBUG"
    ensures c.Some? && m == Info ==> LevelToName[c.value.level] == "INFO"
    ensures c.Some? && m in {Warning, Warn} ==> LevelToName[c.value.level] == "WARN"
    ensures c.Some? && m == Error ==> LevelToName[c.value.level] == "ERROR"
    ensures c.Some? && m in {Critical, Fatal} ==> LevelToName[c.value.level] == "FATAL"
    ensures c.Some? && m in {Exception, Trace} ==> LevelToName[c.value.level] == "TRACE"
  {
    if !(kwargs.Keys <= LogKeywords) then None
    else
      match m
      case Debug => Some(LogCall(10, false, kwargs))
      case Info => Some(LogCall(20, false, kwargs))
      case Warning | Warn => Some(LogCall(30, false, kwargs))
      case Error => Some(LogCall(40, false, kwargs))
      case Critical | Fatal => Some(LogCall(50, false, kwargs))
      case Exception | Trace => if "exc_info" in kwargs then None else Some(LogCall(60, true, kwargs))
  }

  /** fatal, warn and trace are the same methods as critical, warning and exception. */
  lemma LevelMethodAliases(kwargs: map<string, Value>)
    ensures CallFor(Fatal, kwargs) == CallFor(Critical, kwargs)
    ensures CallFor(Warn, kwargs) == CallFor(Warning, kwargs)
    ensures CallFor(Trace, kwargs) == CallFor(Exception, kwargs)
  {
  }

  // ---------------------------------------------------------------------------
  // Request log classification (ANSIRequestHandler.log_request)
  // ---------------------------------------------------------------------------

  /** The level of a request line for the status `code` already converted to a
      string. The tests run in the source's order; an empty code has no first
      character (an IndexError), which is `None`. */
  function RequestLevel(code: string): (r: Option<int>)
    ensures r.None? <==> code == ""
    ensures r.Some? ==> r.value in LevelToName
    ensures r == Some(20) <==> code == "200"
  {
    if code == "" then None
    else if code[0] == '1' then Some(10)
    else if code == "200" then Some(20)
    else if code == "304" || code[0] == '3' then Some(30)
    else if code == "404" || code[0] == '4' then Some(40)
    else Some(50)
  }

  /** An independent statement of the classification by status class. */
  function StatusClassLevel(code: string): int
    requires code != ""
  {
    match code[0]
    case '1' => 10
    case '3' => 30
    case '4' => 40
    case _ => if code == "200" then 20 else 50
  }

  /** The classifier is decided by the first character alone, except that "200"
      is singled out: the explicit "304" and "404" tests add nothing, every other
      2xx code and every code not starting with 1, 3 or 4 (the default "-" among
      them) is FATAL. */
  lemma RequestLevelByStatusClass(code: string)
    requires code != ""
    ensures RequestLevel(code) == Some(StatusClassLevel(code))
    ensures code[0] == '1' ==> LevelToName[RequestLevel(code).value] == "DEBUG"
    ensures code[0] == '3' ==> LevelToName[RequestLevel(code).value] == "WARN"
    ensures code[0] == '4' ==> LevelToName[RequestLevel(code).value] == "ERROR"
    ensures code[0] == '2' && code != "200" ==> LevelToName[RequestLevel(code).value] == "FATAL"
    ensures code[0] !in {'1', '2', '3', '4'} ==> LevelToName[RequestLevel(code).value] == "FATAL"
  {
  }

  /** The handler's default code "-" is logged at FATAL, "200" at INFO and a
      created "201" at FATAL. */
  lemma RequestLevelExamples()
    ensures RequestLevel("-") == Some(50) && LevelToName[50] == "FATAL"
    ensures RequestLevel("200") == Some(20) && LevelToName[20] == "INFO"
    ensures RequestLevel("201") == Some(50)
    ensures RequestLevel("304") == Some(30) && RequestLevel("302") == Some(30)
    ensures RequestLevel("404") == Some(40) && RequestLevel("418") == Some(40)
    ensures RequestLevel("500") == Some(50)
  {
  }

  /** The label for the handling function: the endpoint with "()" when the path
      is routed, otherwise the fixed text for an unknown route. */
  function FunctionLabel(routes: map<string, string>, path: string): (r: string)
    ensures path in routes ==> r == routes[path] + "()"
    ensures path !in routes ==> r == "a non-existent function"
  {
    if path in routes then routes[path] + "()" else "a non-existent function"
  }

  /** The label tells routed paths apart: it ends with "()" exactly when the path
      is in the route table. */
  lemma FunctionLabelRevealsRouting(routes: map<string, string>, path: string)
    ensures var r := FunctionLabel(routes, path);
      (|r| >= 2 && r[|r| - 2..] == "()") <==> path in routes
  {
    var r := FunctionLabel(routes, path);
    if path in routes {
      assert r[|r| - 2..] == "()";
    } else {
      assert r[|r| - 2..] == "on";
    }
  }

  /** The request levels name logger methods. */
  lemma RequestKinds(level: int)
    requires level in {10, 20, 30, 40, 50}
    ensures ToLower(LevelToName[level]) in {"debug", "info", "warn", "error", "fatal"}
  {
    assert ToLower("DEBUG") == "debug" && ToLower("INFO") == "info" && ToLower("WARN") == "warn";
    assert ToLower("ERROR") == "error" && ToLower("FATAL") == "fatal";
  }

  /** A request line: the logger method to use (the lower-cased level name) and
      the text. */
  datatype LogLine = LogLine(kind: string, text: string)

  /** The request line for `path` (already converted to an IRI), status `code`,
      request method `command` and protocol `version`. */
  function LogRequest(path: string, code: string, routes: map<string, string>,
                      command: string, version: string): (r: Option<LogLine>)
    ensures r.None? <==> code == ""
    ensures r.Some? ==> r.value.kind == ToLower(LevelToName[RequestLevel(code).value])
    ensures r.Some? ==> r.value.kind in {"debug", "info", "warn", "error", "fatal"}
    ensures r.Some? ==> StartsWith(r.value.text, "Mapped URL path [" + path + "] to " + FunctionLabel(routes, path))
  {
    match RequestLevel(code)
    case None => None
    case Some(level) =>
      var kind := ToLower(LevelToName[level]);
      assert kind in {"debug", "info", "warn", "error", "fatal"} by {
        assert level in {10, 20, 30, 40, 50};
        RequestKinds(level);
      }
      var head := "Mapped URL path [" + path + "] to " + FunctionLabel(routes, path);
      var tail := " onto method of type " + command + " [" + code + "] (" + ToLower(version) + ")";
      assert StartsWith(head + tail, head) by { assert (head + tail)[..|head|] == head; }
      Some(LogLine(kind, head + tail))
  }

  // ---------------------------------------------------------------------------
  // ANSIFormatter.stack
  // ---------------------------------------------------------------------------

  /** The text `stack` cuts the path at: "site-packages" when the path contains
      it, otherwise the working directory. */
  function StackBase(path: string, cwd: string): string {
    if Contains(path, "site-packages") then "site-packages" else cwd
  }

  /** Path separators turned into dots. */
  function Dotted(s: string, sep: char): (r: string)
    ensures |r| == |s|
    ensures forall i :: 0 <= i < |s| ==> r[i] == if s[i] == sep then '.' else s[i]
  {
    ReplaceAllChar(s, sep, '.');
    ReplaceAll(s, [sep], ".")
  }

  /** Python's slice `s[start:-3]`: drop the first `start` characters and the last
      three (the ".py" extension), empty when nothing is left between. */
  function Trim(s: string, start: nat): (r: string)
    requires start <= 1
    ensures |s| >= start + 3 ==> r == s[start..|s| - 3]
    ensures |s| < start + 3 ==> r == ""
  {
    if |s| >= start + 3 then s[start..|s| - 3] else ""
  }

  /** The function part: nothing for module level code and lambdas, otherwise a
      dot and the function name. */
  function FunctionSuffix(fnc: string): string {
    if fnc == "<module>" || fnc == "<lambda>" then "" else "." + fnc
  }

  /** `stack(path, fnc)` on a POSIX system (`sep` is the path separator, `cwd` the
      working directory). `None` is the exception the source raises: splitting on
      an empty working directory (ValueError) or reading the first character of an
      empty path (IndexError). The slice starts at 1, dropping the separator that
      follows the base, unless the path starts with ":". */
  function Stack(path: string, fnc: string, cwd: string, sep: char): (r: Option<string>)
    ensures path == "<stdin>" ==> r == Some("shell")
    ensures path != "<stdin>" ==> (r.None? <==> path == "" || StackBase(path, cwd) == "")
    ensures r.Some? && path != "<stdin>" ==>
      |r.value| >= |FunctionSuffix(fnc)| && r.value[|r.value| - |FunctionSuffix(fnc)|..] == FunctionSuffix(fnc)
  {
    if path == "<stdin>" then Some("shell")
    else
      var base := StackBase(path, cwd);
      if base == "" || path == "" then None
      else
        var name := Trim(Dotted(SplitLast(path, base), sep), if path[0] != ':' then 1 else 0);
        var r := name + FunctionSuffix(fnc);
        assert r[|r| - |FunctionSuffix(fnc)|..] == FunctionSuffix(fnc);
        Some(r)
  }

  /** For a module file below the base (the base occurring exactly once), the
      stack name is the module's path relative to the base, with the leading
      separator and the ".py" extension dropped and separators turned into dots,
      followed by the function suffix. */
  lemma StackOfModule(prefix: string, base: string, rel: string, fnc: string, cwd: string, sep: char)
    requires prefix + base + rel != "<stdin>"
    requires base != "" && StackBase(prefix + base + rel, cwd) == base
    requires forall j: nat :: OccursAt(prefix + base + rel, base, j) ==> j == |prefix|
    ensures var path := prefix + base + rel;
      Stack(path, fnc, cwd, sep)
        == Some(Trim(Dotted(rel, sep), if path[0] != ':' then 1 else 0) + FunctionSuffix(fnc))
  {
    var path := prefix + base + rel;
    assert |path| > 0;
    SplitLastUnique(prefix, base, rel);
  }

  /** Whatever the path, the name is built from the last piece of the path split
      at the base: a suffix of the path holding no base, which follows an
      occurrence of the base when there is one and is the whole path otherwise. */
  lemma StackOfPath(path: string, fnc: string, cwd: string, sep: char)
    requires path != "<stdin>" && path != "" && StackBase(path, cwd) != ""
    ensures var base := StackBase(path, cwd);
      var rest := SplitLast(path, base);
      && |rest| <= |path| && rest == path[|path| - |rest|..]
      && !Contains(rest, base)
      && (Contains(path, base) ==> OccursAt(path, base, |path| - |rest| - |base|))
      && (!Contains(path, base) ==> rest == path)
      && Stack(path, fnc, cwd, sep)
           == Some(Trim(Dotted(rest, sep), if path[0] != ':' then 1 else 0) + FunctionSuffix(fnc))
  {
    SplitLastPiece(path, StackBase(path, cwd));
  }

  /** Outside a virtual environment, a module outside the working directory
      keeps its whole path: dotted, trimmed, and with the function suffix. */
  lemma StackOutsideBase(path: string, fnc: string, cwd: string, sep: char)
    requires path != "<stdin>" && path != "" && cwd != ""
    requires !Contains(path, "site-packages") && !Contains(path, cwd)
    ensures Stack(path, fnc, cwd, sep)
      == Some(Trim(Dotted(path, sep), if path[0] != ':' then 1 else 0) + FunctionSuffix(fnc))
  {
    SplitLastPiece(path, cwd);
  }

  /** A module of an installed package: "<prefix>site-packages/<pkg>/mod.py",
      logged from function `fnc`, yields "<pkg>.mod.<fnc>" whatever the working
      directory. */
  lemma StackOfInstalledModule(prefix: string, pkg: string, fnc: string, cwd: string)
    requires forall j: nat :: OccursAt(prefix + "site-packages" + ("/" + pkg + "/mod.py"), "site-packages", j) ==> j == |prefix|
    requires prefix == "" || prefix[0] != ':'
    requires fnc != "<module>" && fnc != "<lambda>"
    requires forall i :: 0 <= i < |pkg| ==> pkg[i] != '/'
    ensures Stack(prefix + "site-packages" + ("/" + pkg + "/mod.py"), fnc, cwd, '/')
      == Some(pkg + ".mod." + fnc)
  {
    var rel := "/" + pkg + "/mod.py";
    var path := prefix + "site-packages" + rel;
    assert Contains(path, "site-packages") by {
      assert path[|prefix|..|prefix| + 13] == "site-packages";
      assert OccursAt(path, "site-packages", |prefix|);
    }
    assert StackBase(path, cwd) == "site-packages";
    SplitLastUnique(prefix, "site-packages", rel);
    assert path[0] != ':' by {
      if prefix == "" { assert path[0] == 's'; } else { assert path[0] == prefix[0]; }
    }
    PackageModuleName(pkg);
    assert SplitLast(path, StackBase(path, cwd)) == rel;
    assert pkg + ".mod" + ("." + fnc) == pkg + ".mod." + fnc;
  }

  /** The relative path "/<pkg>/mod.py" becomes "<pkg>.mod". */
  lemma PackageModuleName(pkg: string)
    requires forall i :: 0 <= i < |pkg| ==> pkg[i] != '/'
    ensures Trim(Dotted("/" + pkg + "/mod.py", '/'), 1) == pkg + ".mod"
  {
    var rel := "/" + pkg + "/mod.py";
    var dotted := Dotted(rel, '/');
    assert dotted == "." + pkg + ".mod.py" by {
      forall i | 0 <= i < |rel| ensures dotted[i] == ("." + pkg + ".mod.py")[i] {
        if 0 < i <= |pkg| { assert rel[i] == pkg[i - 1]; }
      }
    }
    assert dotted[1..|dotted| - 3] == pkg + ".mod";
  }

  // ---------------------------------------------------------------------------
  // ANSIFormatter.formatException
  // ---------------------------------------------------------------------------

  /** The traceback entry `exc_info` carries, that of the frame where the
      exception was caught (later entries lead inward): its function name and
      line number. */
  datatype Traceback = Traceback(funcName: string, lineno: nat)

  /** A record's exception information: the `(None, None, None)` triple of a call
      made outside an exception handler, or the exception's class name, its text
      and its traceback, if any. */
  datatype ExcInfo = NoException | Raised(className: string, message: string, traceback: Option<Traceback>)

  /** The line the exception one-liner reports: the traceback's, or 0 without one. */
  function ExcLine(tb: Option<Traceback>): nat {
    if tb.Some? then tb.value.lineno else 0
  }

  /** `formatException(ei)`: "<ClassName>: <message> line <lineno>". The function
      name the source computes is never used. The class name of the
      `(None, None, None)` triple does not exist (AttributeError): `None`. */
  function FormatException(ei: ExcInfo): (r: Option<string>)
    ensures r.None? <==> ei.NoException?
    ensures r.Some? ==>
      var head := ei.className + ": " + ei.message + " line ";
      && StartsWith(r.value, head)
      && var digits := r.value[|head|..];
      && digits != [] && IsDigits(digits)
      && (|digits| > 1 ==> digits[0] != '0')
      && DigitsValue(digits) == ExcLine(ei.traceback)
  {
    match ei
    case NoException => None
    case Raised(cls, msg, tb) =>
      var head := cls + ": " + msg + " line ";
      var r := head + NatToString(ExcLine(tb));
      assert r[..|head|] == head && r[|head|..] == NatToString(ExcLine(tb));
      Some(r)
  }

  // ---------------------------------------------------------------------------
  // Log records and the colour attributes
  // ---------------------------------------------------------------------------

  /** The colour attributes `colorize` gives a record at `levelno`: the level's
      hue, the gray hue and the reset sequence on a TTY, empty strings otherwise.
      A TTY record at a level without a hue is a KeyError: `None`. */
  function Colours(levelno: int, isatty: bool): (r: Option<map<string, string>>)
    ensures r.None? <==> isatty && levelno !in AnsiHues
    ensures r.Some? ==> r.value.Keys == AttrSet
    ensures r.Some? && isatty ==>
      r.value["color"] == AnsiHues[levelno] && r.value["gray"] == AnsiHues[90] && r.value["reset"] == AnsiHues[0]
    ensures r.Some? && !isatty ==> forall a :: a in r.value ==> r.value[a] == ""
  {
    if isatty then
      if levelno in AnsiHues then
        Some(map["color" := AnsiHues[levelno], "gray" := AnsiHues[90], "reset" := AnsiHues[0]])
      else None
    else Some(map["color" := "", "gray" := "", "reset" := ""])
  }

  /** Colouring and then removing the colour attributes gives back the other
      attributes unchanged (and removes a colour attribute the record had before). */
  lemma ColouringIsUndone(attrs: map<string, string>, levelno: int, isatty: bool)
    requires Colours(levelno, isatty).Some?
    ensures (attrs + Colours(levelno, isatty).value) - AttrSet == attrs - AttrSet
    ensures forall a :: a in attrs && a !in AttrSet ==> a in (attrs + Colours(levelno, isatty).value) - AttrSet
  {
  }

  /** A record at a named level can always be coloured, on a TTY or not. */
  lemma NamedLevelsColour(levelno: int, isatty: bool)
    requires levelno in LevelToName
    ensures Colours(levelno, isatty).Some?
  {
  }

  /** The first `k` colour attributes, set to the empty string. */
  function Blanks(k: nat): map<string, string>
    requires k <= |Attrs|
  {
    if k == 0 then map[] else Blanks(k - 1)[Attrs[k - 1] := ""]
  }

  lemma BlanksAreColours()
    ensures Blanks(|Attrs|) == Colours(0, false).value
  {
    assert Blanks(3) == map["color" := "", "gray" := "", "reset" := ""];
  }

  lemma MapUpdateOfUnion<K, V>(m: map<K, V>, n: map<K, V>, k: K, v: V)
    ensures (m + n)[k := v] == m + n[k := v]
  {
  }

  lemma AttrsCoverAttrSet()
    ensures (set i | 0 <= i < |Attrs| :: Attrs[i]) == AttrSet
  {
    var s := set i | 0 <= i < |Attrs| :: Attrs[i];
    assert Attrs[0] in s && Attrs[1] in s && Attrs[2] in s;
  }

  /** How many of "color", "gray", "reset", in this order, are present before the
      first missing one: the attributes `decolorize` deletes before it fails. */
  function PresentPrefix(keys: set<string>): (k: nat)
    ensures k <= |Attrs|
    ensures forall i :: 0 <= i < k ==> Attrs[i] in keys
    ensures k < |Attrs| ==> Attrs[k] !in keys
  {
    if Attrs[0] !in keys then 0
    else if Attrs[1] !in keys then 1
    else if Attrs[2] !in keys then 2
    else 3
  }

  /** The level name a record gets when it is created: the installed name,
      or "Level <n>" for a number without one. */
  function LevelName(levelno: int): string {
    if levelno in LevelToName then LevelToName[levelno] else "Level " + IntText(levelno)
  }

  /** A logged event, with the attributes the formatter reads and writes.
      `args` are the positional arguments of the logging call, `created` its
      time; `attrs` holds the attributes set while formatting (stack, color,
      gray, reset, message, asctime); `isatty` is the hint the stream handler
      sets. */
  class LogRecord {
    const levelno: int
    const pathname: string
    const funcName: string
    const lineno: int
    const created: real
    const stackInfo: Option<string>
    const isatty: bool
    var msg: string
    var args: seq<Arg>
    var excInfo: Option<ExcInfo>
    var excText: Option<string>
    var attrs: map<string, string>

    constructor (levelno: int, pathname: string, funcName: string, lineno: int, created: real,
                 msg: string, args: seq<Arg>, excInfo: Option<ExcInfo>, stackInfo: Option<string>,
                 isatty: bool)
      ensures this.levelno == levelno && this.pathname == pathname && this.funcName == funcName
      ensures this.lineno == lineno && this.created == created && this.stackInfo == stackInfo
      ensures this.msg == msg && this.args == args && this.excInfo == excInfo && this.excText == None
      ensures this.isatty == isatty && this.attrs == map[]
    {
      this.levelno := levelno;
      this.pathname := pathname;
      this.funcName := funcName;
      this.lineno := lineno;
      this.created := created;
      this.stackInfo := stackInfo;
      this.msg := msg;
      this.args := args;
      this.excInfo := excInfo;
      this.excText := None;
      this.isatty := isatty;
      this.attrs := map[];
    }

    /** The attributes of a record's creation that a layout can name, as text. */
    function Fields(): map<string, string> {
      map["levelname" := LevelName(levelno), "levelno" := IntText(levelno),
          "lineno" := IntText(lineno), "pathname" := pathname, "funcName" := funcName]
    }
  }

  /** `LogRecord.getMessage()`: the message, formatted with the arguments when
      there are any. */
  function GetMessage(msg: string, args: seq<Arg>): (r: Option<string>)
    ensures args == [] ==> r == Some(msg)
    ensures args != [] && r.Some? ==> |args| == Specifiers(msg)
  {
    InterpolateUsesEveryArg(msg, args);
    if args == [] then Some(msg) else Interpolate(msg, args)
  }

  /** `PercentStyle.usesTime()`: the layout names `asctime`. */
  predicate UsesTime(fmt: string) {
    Contains(fmt, "%(asctime)")
  }

  /** The attributes after a standard formatter's `format`: `message` always, and
      `asctime` when the layout uses the time. */
  function Stamped(attrs: map<string, string>, message: string, fmt: string, asctime: string): map<string, string> {
    if UsesTime(fmt) then attrs["message" := message]["asctime" := asctime] else attrs["message" := message]
  }

  /** `s` followed by a block on a line of its own: a newline is added unless
      `s` already ends with one. */
  function AppendBlock(s: string, block: string): (r: string)
    ensures |s| > 0 && s[|s| - 1] == '\n' ==> r == s + block
    ensures !(|s| > 0 && s[|s| - 1] == '\n') ==> r == s + "\n" + block
  {
    if |s| > 0 && s[|s| - 1] == '\n' then s + block else s + "\n" + block
  }

  /** The rendered layout followed by the cached exception text and the stack
      information, each when present and not empty. */
  function WithTrailers(s: string, excText: Option<string>, stackInfo: Option<string>): string {
    var s1 := if excText.Some? && excText.value != "" then AppendBlock(s, excText.value) else s;
    if stackInfo.Some? && stackInfo.value != "" then AppendBlock(s1, stackInfo.value) else s1
  }

  /** The exception one-liner holds no percent sign when the class name and the
      message hold none: the line number is digits. */
  lemma ExceptionTextHasNoPercent(ei: ExcInfo)
    requires ei.Raised?
    requires forall i :: 0 <= i < |ei.className| ==> ei.className[i] != '%'
    requires forall i :: 0 <= i < |ei.message| ==> ei.message[i] != '%'
    ensures var r := FormatException(ei).value;
      forall i :: 0 <= i < |r| ==> r[i] != '%'
  {
    var head := ei.className + ": " + ei.message + " line ";
    var r := FormatException(ei).value;
    assert r == head + r[|head|..];
    forall i | 0 <= i < |r| ensures r[i] != '%' {
      if i >= |head| {
        assert r[i] == r[|head|..][i - |head|];
      }
    }
  }

  /** With exception information and positional arguments, the message `format`
      hands to the standard formatter is the one-liner, which takes no arguments:
      getting the record's message fails ("not all arguments converted"). */
  lemma ExceptionMessageWithArgsFails(ei: ExcInfo, args: seq<Arg>)
    requires ei.Raised? && args != []
    requires forall i :: 0 <= i < |ei.className| ==> ei.className[i] != '%'
    requires forall i :: 0 <= i < |ei.message| ==> ei.message[i] != '%'
    ensures GetMessage(FormatException(ei).value, args) == None
  {
    ExceptionTextHasNoPercent(ei);
    NoPercentKeepsText(FormatException(ei).value, args);
  }

  /** The formatter. `fmt` and `datefmt` default to the module's layout and the
      ISO 8601 date format. */
  class ANSIFormatter {
    const fmt: string
    const datefmt: string

    constructor (fmt: Option<string>, datefmt: Option<string>)
      ensures this.fmt == (if fmt.Some? then fmt.value else LogFmt)
      ensures this.datefmt == (if datefmt.Some? then datefmt.value else Iso8601)
    {
      this.fmt := if fmt.Some? then fmt.value else LogFmt;
      this.datefmt := if datefmt.Some? then datefmt.value else Iso8601;
    }

    /** `colorize(record)`: sets exactly the three colour attributes and touches
        nothing else. `ok` is false for the KeyError of a TTY record at a level
        without a hue, which leaves the record as it was. */
    static method Colorize(record: LogRecord) returns (ok: bool)
      modifies record`attrs
      ensures ok <==> Colours(record.levelno, record.isatty).Some?
      ensures ok ==> record.attrs == old(record.attrs) + Colours(record.levelno, record.isatty).value
      ensures !ok ==> record.attrs == old(record.attrs)
    {
      if record.isatty {
        if record.levelno !in AnsiHues {
          return false;
        }
        record.attrs := record.attrs + map["color" := AnsiHues[record.levelno], "gray" := AnsiHues[90], "reset" := AnsiHues[0]];
        ok := true;
      } else {
        for k := 0 to |Attrs|
          invariant record.attrs == old(record.attrs) + Blanks(k)
        {
          record.attrs := record.attrs[Attrs[k] := ""];
          assert record.attrs == old(record.attrs) + Blanks(k + 1) by {
            MapUpdateOfUnion(old(record.attrs), Blanks(k), Attrs[k], "");
          }
        }
        BlanksAreColours();
        ok := true;
      }
    }

    /** `decolorize(record)`: deletes "color", "gray" and "reset" in this order.
        When one is missing (AttributeError, `ok` false) the ones before it are
        already gone; nothing else changes. */
    static method Decolorize(record: LogRecord) returns (ok: bool)
      modifies record`attrs
      ensures ok <==> AttrSet <= old(record.attrs).Keys
      ensures record.attrs == old(record.attrs) - (set i | 0 <= i < PresentPrefix(old(record.attrs).Keys) :: Attrs[i])
      ensures ok ==> record.attrs == old(record.attrs) - AttrSet
    {
      ghost var n := PresentPrefix(record.attrs.Keys);
      for k := 0 to |Attrs|
        invariant k <= n
        invariant record.attrs == old(record.attrs) - (set i | 0 <= i < k :: Attrs[i])
      {
        if Attrs[k] !in record.attrs {
          return false;
        }
        assert (set i | 0 <= i < k + 1 :: Attrs[i]) == (set i | 0 <= i < k :: Attrs[i]) + {Attrs[k]};
        record.attrs := record.attrs - {Attrs[k]};
      }
      AttrsCoverAttrSet();
      ok := true;
    }

    /** The exception step of `format`: with exception information the message
        becomes the one-liner and the exception information and its cached text
        are cleared. `ok` is false for the AttributeError of `formatException`.
        The record's arguments are left as they are. */
    static method FoldException(record: LogRecord) returns (ok: bool)
      modifies record`msg, record`excInfo, record`excText
      ensures ok <==> MessageOf(old(record.msg), old(record.excInfo)).Some?
      ensures ok ==>
        && record.msg == MessageOf(old(record.msg), old(record.excInfo)).value
        && record.excInfo == None
        && record.excText == (if old(record.excInfo).Some? then None else old(record.excText))
    {
      if record.excInfo.Some? {
        var fe := FormatException(record.excInfo.value);
        if fe.None? {
          return false;
        }
        record.msg := fe.value;
        record.excInfo, record.excText := None, None;
      }
      ok := true;
    }

    /** `logging.Formatter(fmt, datefmt).format(record)` of the standard library,
        on a record without exception information (the only kind `format` hands
        it): the record gets its `message` and, when the layout uses the time,
        its `asctime`; the layout is rendered from the record's attributes and
        followed by the cached exception text and the stack information.
        `formatTime` is the library's `formatTime` of the creation time with the
        date format, `render` the %-style substitution of the layout. `None` is
        the exception of `getMessage`. */
    method StandardFormat(record: LogRecord, formatTime: (real, string) -> string,
                          render: (string, map<string, string>) -> string)
      returns (s: Option<string>)
      requires record.excInfo == None
      modifies record`attrs
      ensures s.Some? <==> GetMessage(record.msg, record.args).Some?
      ensures s.None? ==> record.attrs == old(record.attrs)
      ensures s.Some? ==>
        && record.attrs
             == Stamped(old(record.attrs), GetMessage(record.msg, record.args).value, fmt,
                        formatTime(record.created, datefmt))
        && s.value == WithTrailers(render(fmt, record.Fields() + record.attrs), record.excText, record.stackInfo)
    {
      var message := GetMessage(record.msg, record.args);
      if message.None? {
        return None;
      }
      record.attrs := record.attrs["message" := message.value];
      if UsesTime(fmt) {
        record.attrs := record.attrs["asctime" := formatTime(record.created, datefmt)];
      }
      var text := render(fmt, record.Fields() + record.attrs);
      if record.excText.Some? && record.excText.value != "" {
        text := AppendBlock(text, record.excText.value);
      }
      if record.stackInfo.Some? && record.stackInfo.value != "" {
        text := AppendBlock(text, record.stackInfo.value);
      }
      s := Some(text);
    }

    /** The rest of `format` once the exception is folded in: colorize, render
        with the standard formatter, strip the ANSI escapes from the message
        (`strip`) and decolorize. `None` is the exception of `colorize` or of
        `getMessage`. */
    method Render(record: LogRecord, formatTime: (real, string) -> string,
                  render: (string, map<string, string>) -> string, strip: string -> string)
      returns (out: Option<string>)
      requires record.excInfo == None
      modifies record`attrs, record`msg
      ensures out.Some? <==>
        Colours(record.levelno, record.isatty).Some? && GetMessage(old(record.msg), record.args).Some?
      ensures out.Some? ==>
        var message := GetMessage(old(record.msg), record.args).value;
        var asctime := formatTime(record.created, datefmt);
        && out.value == WithTrailers(
             render(fmt, record.Fields() + Stamped(old(record.attrs) + Colours(record.levelno, record.isatty).value, message, fmt, asctime)),
             record.excText, record.stackInfo)
        && record.msg == strip(old(record.msg))
        && record.attrs == Stamped(old(record.attrs) - AttrSet, message, fmt, asctime)
    {
      ghost var prepared := record.attrs;
      ghost var colours := Colours(record.levelno, record.isatty);
      var ok := Colorize(record);
      if !ok {
        return None;
      }
      assert colours.value.Keys == AttrSet;
      out := StandardFormat(record, formatTime, render);
      if out.None? {
        return None;
      }
      ghost var message := GetMessage(record.msg, record.args).value;
      ghost var asctime := formatTime(record.created, datefmt);
      ghost var stamped := Stamped(prepared + colours.value, message, fmt, asctime);
      assert record.attrs == stamped;
      StampedKeepsColours(prepared + colours.value, message, fmt, asctime);
      record.msg := strip(record.msg);
      ok := Decolorize(record);
      assert record.attrs == stamped - AttrSet;
      ColouringIsUndone(prepared, record.levelno, record.isatty);
    }

    /** `format(record)`. On success the record ends up with its `stack`
        attribute, the exception folded into the message, the standard
        formatter's `message` and `asctime`, and without the colour attributes;
        the rendered text saw the colours. The record's arguments are kept, so
        a record with exception information and arguments fails to render (see
        `ExceptionMessageWithArgsFails`). `None` is an exception raised by
        `stack`, `formatException`, `colorize` or `getMessage`. */
    method Format(record: LogRecord, cwd: string, sep: char, formatTime: (real, string) -> string,
                  render: (string, map<string, string>) -> string, strip: string -> string)
      returns (out: Option<string>)
      modifies record`attrs, record`msg, record`excInfo, record`excText
      ensures out.Some? <==>
        && Stack(record.pathname, record.funcName, cwd, sep).Some?
        && MessageOf(old(record.msg), old(record.excInfo)).Some?
        && Colours(record.levelno, record.isatty).Some?
        && GetMessage(MessageOf(old(record.msg), old(record.excInfo)).value, record.args).Some?
      ensures out.Some? ==>
        var stack := Stack(record.pathname, record.funcName, cwd, sep).value;
        var msg := MessageOf(old(record.msg), old(record.excInfo)).value;
        var message := GetMessage(msg, record.args).value;
        var asctime := formatTime(record.created, datefmt);
        && out.value == WithTrailers(
             render(fmt, record.Fields() + Stamped(old(record.attrs)["stack" := stack] + Colours(record.levelno, record.isatty).value, message, fmt, asctime)),
             record.excText, record.stackInfo)
        && record.msg == strip(msg)
        && record.attrs == Stamped((old(record.attrs) - AttrSet)["stack" := stack], message, fmt, asctime)
        && record.excInfo == None
        && record.excText == (if old(record.excInfo).Some? then None else old(record.excText))
    {
      var st := Stack(record.pathname, record.funcName, cwd, sep);
      if st.None? {
        return None;
      }
      ghost var attrs0 := record.attrs;
      record.attrs := record.attrs["stack" := st.value];
      var ok := FoldException(record);
      if !ok {
        return None;
      }
      out := Render(record, formatTime, render, strip);
      StackSurvivesDecolorize(attrs0, st.value);
    }

    /** `format` as evidently intended: the exception one-liner replaces the
        message together with its arguments, so a record with exception
        information renders whatever arguments the logging call passed. */
    method FormatDroppingArgs(record: LogRecord, cwd: string, sep: char, formatTime: (real, string) -> string,
                              render: (string, map<string, string>) -> string, strip: string -> string)
      returns (out: Option<string>)
      modifies record`attrs, record`msg, record`args, record`excInfo, record`excText
      ensures out.Some? <==>
        && Stack(record.pathname, record.funcName, cwd, sep).Some?
        && MessageOf(old(record.msg), old(record.excInfo)).Some?
        && Colours(record.levelno, record.isatty).Some?
        && (old(record.excInfo).None? ==> GetMessage(old(record.msg), old(record.args)).Some?)
      ensures out.Some? ==>
        var stack := Stack(record.pathname, record.funcName, cwd, sep).value;
        var msg := MessageOf(old(record.msg), old(record.excInfo)).value;
        var message := if old(record.excInfo).Some? then msg else GetMessage(old(record.msg), old(record.args)).value;
        var asctime := formatTime(record.created, datefmt);
        && out.value == WithTrailers(
             render(fmt, record.Fields() + Stamped(old(record.attrs)["stack" := stack] + Colours(record.levelno, record.isatty).value, message, fmt, asctime)),
             record.excText, record.stackInfo)
        && record.msg == strip(msg)
        && record.args == (if old(record.excInfo).Some? then [] else old(record.args))
        && record.attrs == Stamped((old(record.attrs) - AttrSet)["stack" := stack], message, fmt, asctime)
        && record.excInfo == None
        && record.excText == (if old(record.excInfo).Some? then None else old(record.excText))
    {
      var st := Stack(record.pathname, record.funcName, cwd, sep);
      if st.None? {
        return None;
      }
      ghost var attrs0 := record.attrs;
      record.attrs := record.attrs["stack" := st.value];
      if record.excInfo.Some? {
        record.args := [];
      }
      var ok := FoldException(record);
      if !ok {
        return None;
      }
      out := Render(record, formatTime, render, strip);
      StackSurvivesDecolorize(attrs0, st.value);
    }
  }

  /** The `message` and `asctime` a standard formatter adds are not colour
      attributes: removing the colours afterwards keeps them, and the colours
      are still there to remove. */
  lemma StampedKeepsColours(attrs: map<string, string>, message: string, fmt: string, asctime: string)
    ensures attrs.Keys <= Stamped(attrs, message, fmt, asctime).Keys
    ensures Stamped(attrs, message, fmt, asctime) - AttrSet == Stamped(attrs - AttrSet, message, fmt, asctime)
  {
  }

  /** The message `format` renders: the exception one-liner when the record
      carries exception information, otherwise the record's message. */
  function MessageOf(msg: string, excInfo: Option<ExcInfo>): Option<string> {
    if excInfo.Some? then FormatException(excInfo.value) else Some(msg)
  }

  lemma StackSurvivesDecolorize(attrs: map<string, string>, stack: string)
    ensures attrs["stack" := stack] - AttrSet == (attrs - AttrSet)["stack" := stack]
  {
  }

  // ---------------------------------------------------------------------------
  // Logger.process
  // ---------------------------------------------------------------------------

  /** A keyword argument's value: an opaque value, or a mapping (what `extra`
      must be). */
  datatype Value = Atom(text: string) | Mapping(entries: map<string, Value>)

  /** The mapping passed as `extra=`, empty when there is none. */
  function KeywordExtra(kwargs: map<string, Value>): map<string, Value>
    requires "extra" in kwargs ==> kwargs["extra"].Mapping?
  {
    if "extra" in kwargs then kwargs["extra"].entries else map[]
  }

  /** The merged `extra`: the adapter's own, overlaid by the `extra=` mapping,
      overlaid by every other keyword except `exc_info`. */
  function MergedExtra(own: map<string, Value>, kwargs: map<string, Value>): map<string, Value>
    requires "extra" in kwargs ==> kwargs["extra"].Mapping?
  {
    own + KeywordExtra(kwargs) + (kwargs - {"extra", "exc_info"})
  }

  /** The keyword arguments `process` returns: `exc_info` if it was given, and the
      merged `extra`. */
  function ProcessedKwargs(own: map<string, Value>, kwargs: map<string, Value>): map<string, Value>
    requires "extra" in kwargs ==> kwargs["extra"].Mapping?
  {
    (kwargs - (kwargs.Keys - {"exc_info"}))["extra" := Mapping(MergedExtra(own, kwargs))]
  }

  /** What the merge means key by key: precedence goes to a plain keyword, then to
      the `extra=` mapping, then to the adapter's own `extra`; `exc_info` is never
      merged and is kept as a keyword, and nothing else is kept. */
  lemma ProcessedKwargsMeaning(own: map<string, Value>, kwargs: map<string, Value>)
    requires "extra" in kwargs ==> kwargs["extra"].Mapping?
    ensures var out := ProcessedKwargs(own, kwargs);
      && out.Keys == {"extra"} + (kwargs.Keys * {"exc_info"})
      && ("exc_info" in kwargs ==> out["exc_info"] == kwargs["exc_info"])
      && out["extra"].Mapping?
    ensures var merged := MergedExtra(own, kwargs);
      && merged.Keys == own.Keys + KeywordExtra(kwargs).Keys + (kwargs.Keys - {"extra", "exc_info"})
      && (forall k :: k in kwargs && k !in {"extra", "exc_info"} ==> merged[k] == kwargs[k])
      && (forall k :: k in KeywordExtra(kwargs) && (k !in kwargs || k in {"extra", "exc_info"}) ==>
            merged[k] == KeywordExtra(kwargs)[k])
      && (forall k :: k in own && k !in KeywordExtra(kwargs) && (k !in kwargs || k in {"extra", "exc_info"}) ==>
            merged[k] == own[k])
  {
  }

  /** The logger adapter; `extra` is the contextual information it was created with. */
  class Logger {
    const extra: map<string, Value>

    constructor (extra: map<string, Value>)
      ensures this.extra == extra
    {
      this.extra := extra;
    }

    /** The first step of `process`: the copy of the adapter's own `extra`,
        updated with the mapping popped from the `extra=` keyword, if any. */
    method PopExtra(kwargs: map<string, Value>)
      returns (kw: map<string, Value>, merged: map<string, Value>, ok: bool)
      ensures ok <==> ("extra" in kwargs ==> kwargs["extra"].Mapping?)
      ensures ok ==> kw == kwargs - {"extra"} && merged == extra + KeywordExtra(kwargs)
    {
      merged, kw, ok := extra, kwargs, true;
      if "extra" in kw {
        var given := kw["extra"];
        kw := kw - {"extra"};
        if !given.Mapping? {
          return kw, merged, false;
        }
        merged := merged + given.entries;
      } else {
        assert kw - {"extra"} == kw;
      }
    }

    /** `process(msg, kwargs)` as intended: the keyword names are taken once
        before the loop, so popping inside it is harmless. The adapter's own
        `extra` is copied, never changed (the method modifies nothing). `None` is a
        non-mapping `extra=` value, which `dict.update` refuses. */
    method Process(msg: string, kwargs: map<string, Value>)
      returns (msg': string, kwargs': Option<map<string, Value>>)
      ensures msg' == msg
      ensures kwargs'.Some? <==> ("extra" in kwargs ==> kwargs["extra"].Mapping?)
      ensures kwargs'.Some? ==> kwargs'.value == ProcessedKwargs(extra, kwargs)
    {
      msg' := msg;
      var kw, merged, ok := PopExtra(kwargs);
      if !ok {
        return msg', None;
      }
      ghost var rest := kw;
      var names := kw.Keys;
      while names != {}
        invariant names <= rest.Keys
        invariant kw == rest - (rest.Keys - names - {"exc_info"})
        invariant merged == extra + KeywordExtra(kwargs) + (rest - names - {"exc_info"})
        decreases names
      {
        var name :| name in names;
        ghost var names0 := names;
        names := names - {name};
        if name == "exc_info" {
          assert rest - names - {"exc_info"} == rest - names0 - {"exc_info"};
          assert rest.Keys - names - {"exc_info"} == rest.Keys - names0 - {"exc_info"};
          continue;
        }
        assert kw[name] == rest[name];
        MoveKeyword(extra + KeywordExtra(kwargs), rest, names0, name);
        merged := merged[name := kw[name]];
        kw := kw - {name};
      }
      assert rest - names - {"exc_info"} == kwargs - {"extra", "exc_info"};
      assert merged == MergedExtra(extra, kwargs);
      assert rest.Keys - names - {"exc_info"} == kwargs.Keys - {"extra", "exc_info"};
      assert kw == kwargs - (kwargs.Keys - {"exc_info"}) by {
        assert rest.Keys - (kwargs.Keys - {"extra", "exc_info"}) <= {"exc_info"};
      }
      kw := kw["extra" := Mapping(merged)];
      kwargs' := Some(kw);
    }

    /** `process(msg, kwargs)` as written: it pops from the dictionary it is
        iterating over. The keys iterator remembers the dictionary's size when the
        loop starts, and each of its steps, the last one that ends the loop
        included, raises RuntimeError (`None`) once the size has changed. `order`
        is the dictionary's iteration order: the keys left after `extra=` is
        popped, each once. */
    method ProcessAsWritten(msg: string, kwargs: map<string, Value>, order: seq<string>)
      returns (msg': string, kwargs': Option<map<string, Value>>)
      requires forall k :: k in order <==> k in kwargs && k != "extra"
      ensures msg' == msg
      ensures kwargs'.Some? <==>
        ("extra" in kwargs ==> kwargs["extra"].Mapping?) && kwargs.Keys - {"extra", "exc_info"} == {}
      ensures kwargs'.Some? ==> kwargs'.value == ProcessedKwargs(extra, kwargs)
    {
      msg' := msg;
      var kw, merged, ok := PopExtra(kwargs);
      if !ok {
        return msg', None;
      }
      var size := |kw|;
      ghost var culprit;
      kw, merged, culprit := IterateKeywords(kw, merged, order);
      if |kw| != size {
        return msg', None;
      }
      OnlyExcInfoProcessed(extra, kwargs, order);
      kwargs' := Some(kw["extra" := Mapping(merged)]);
    }
  }

  /** One pass of the keyword loop: moving keyword `name` into the merged `extra`
      and out of the keywords left. */
  lemma MoveKeyword(base: map<string, Value>, rest: map<string, Value>, names: set<string>, name: string)
    requires name in names && names <= rest.Keys && name != "exc_info"
    ensures (base + (rest - names - {"exc_info"}))[name := rest[name]]
      == base + (rest - (names - {name}) - {"exc_info"})
    ensures (rest - (rest.Keys - names - {"exc_info"})) - {name}
      == rest - (rest.Keys - (names - {name}) - {"exc_info"})
  {
    assert (rest - names - {"exc_info"})[name := rest[name]] == rest - (names - {name}) - {"exc_info"};
  }

  /** The keyword loop of `process` as written, up to the first step of the keys
      iterator that sees the dictionary's size changed: it pops the first plain
      keyword of `order` into `merged` and stops there. */
  method IterateKeywords(kw0: map<string, Value>, merged0: map<string, Value>, order: seq<string>)
    returns (kw: map<string, Value>, merged: map<string, Value>, ghost culprit: string)
    requires forall k :: k in order ==> k in kw0
    ensures |kw| == |kw0| <==> OnlyExcInfo(order, |order|)
    ensures |kw| == |kw0| ==> kw == kw0 && merged == merged0
    ensures |kw| != |kw0| ==> culprit in order && culprit != "exc_info"
  {
    kw, merged := kw0, merged0;
    var i := 0;
    ghost var popped := false;
    culprit := "";
    while i < |order| && |kw| == |kw0|
      invariant 0 <= i <= |order|
      invariant popped <==> |kw| != |kw0|
      invariant !popped ==> kw == kw0 && merged == merged0 && OnlyExcInfo(order, i)
      invariant popped ==> culprit in order && culprit != "exc_info"
    {
      var name := order[i];
      i := i + 1;
      if name == "exc_info" {
        OnlyExcInfoExtended(order, i - 1);
        continue;
      }
      assert name in order;
      merged := merged[name := kw[name]];
      PopShrinks(kw, name);
      kw := kw - {name};
      popped, culprit := true, name;
    }
  }

  /** Every one of the first `n` keys of `order` is "exc_info". */
  predicate OnlyExcInfo(order: seq<string>, n: nat)
    requires n <= |order|
  {
    forall j :: 0 <= j < n ==> order[j] == "exc_info"
  }

  lemma OnlyExcInfoExtended(order: seq<string>, i: nat)
    requires i < |order| && OnlyExcInfo(order, i) && order[i] == "exc_info"
    ensures OnlyExcInfo(order, i + 1)
  {
  }

  /** When every key iterated over is `exc_info`, no plain keyword was given. */
  lemma OnlyExcInfoLeft(kwargs: map<string, Value>, order: seq<string>)
    requires forall k :: k in order <==> k in kwargs && k != "extra"
    requires OnlyExcInfo(order, |order|)
    ensures kwargs.Keys - {"extra", "exc_info"} == {}
  {
    forall k | k in kwargs.Keys && k != "extra" ensures k == "exc_info" {
      assert k in order;
    }
  }

  /** Without plain keywords the merge only adds the `extra=` mapping. */
  lemma ProcessedWithoutKeywords(own: map<string, Value>, kwargs: map<string, Value>)
    requires "extra" in kwargs ==> kwargs["extra"].Mapping?
    requires kwargs.Keys - {"extra", "exc_info"} == {}
    ensures ProcessedKwargs(own, kwargs) == (kwargs - {"extra"})["extra" := Mapping(own + KeywordExtra(kwargs))]
  {
    assert kwargs - {"extra", "exc_info"} == map[];
    assert kwargs - (kwargs.Keys - {"exc_info"}) == kwargs - {"extra"};
    assert MergedExtra(own, kwargs) == own + KeywordExtra(kwargs);
  }

  /** When every keyword besides `extra=` is `exc_info`, nothing is popped in the
      loop and `process` only moves the merged `extra` in. */
  lemma OnlyExcInfoProcessed(own: map<string, Value>, kwargs: map<string, Value>, order: seq<string>)
    requires "extra" in kwargs ==> kwargs["extra"].Mapping?
    requires forall k :: k in order <==> k in kwargs && k != "extra"
    requires OnlyExcInfo(order, |order|)
    ensures kwargs.Keys - {"extra", "exc_info"} == {}
    ensures ProcessedKwargs(own, kwargs) == (kwargs - {"extra"})["extra" := Mapping(own + KeywordExtra(kwargs))]
  {
    OnlyExcInfoLeft(kwargs, order);
    ProcessedWithoutKeywords(own, kwargs);
  }

  /** Popping a key makes the dictionary one smaller. */
  lemma PopShrinks(m: map<string, Value>, k: string)
    requires k in m
    ensures |m - {k}| == |m| - 1
  {
    assert (m - {k}).Keys == m.Keys - {k};
  }

  /** The discrepancy on a call with one plain keyword: the code as written fails,
      while the intended merge puts the keyword into `extra`. */
  method ProcessAsWrittenRejectsKeywords()
    returns (asWritten: Option<map<string, Value>>, intended: Option<map<string, Value>>)
    ensures asWritten == None
    ensures intended == Some(map["extra" := Mapping(map["user" := Atom("alice")])])
  {
    var kw := map["user" := Atom("alice")];
    var logger := new Logger(map[]);
    assert forall k :: k in ["user"] <==> k in kw && k != "extra";
    assert "user" in kw.Keys - {"extra", "exc_info"};
    assert kw - (kw.Keys - {"exc_info"}) == map[];
    assert MergedExtra(map[], kw) == kw;
    var _, r := logger.ProcessAsWritten("", kw, ["user"]);
    var _, q := logger.Process("", kw);
    asWritten, intended := r, q;
  }
}
