/** Python's printf-style formatting `msg % args` with a tuple of positional
    arguments, as `LogRecord.getMessage` applies it: `%%` is a percent sign,
    `%s` prints `str` of the next argument, `%d` and `%i` print an integer in
    decimal, and the tuple must be used up exactly. */
module PrintfStyle {
  import opened Wrappers
  import opened Strings

  /** A positional logging argument: an integer or a string. */
  datatype Arg = IntArg(i: int) | StrArg(s: string)

  /** `str(i)` of an integer. */
  function IntText(i: int): string {
    if i < 0 then "-" + NatToString(-i) else NatToString(i)
  }

  /** `str(a)`. */
  function Str(a: Arg): string {
    match a
    case IntArg(i) => IntText(i)
    case StrArg(s) => s
  }

  /** One conversion of argument `a` by the conversion character `c`. `%d` and
      `%i` of a string is a TypeError (`None`); conversion characters other than
      s, d and i are refused as well. */
  function Convert(c: char, a: Arg): (r: Option<string>)
    ensures c == 's' ==> r == Some(Str(a))
    ensures r.Some? ==> c in {'s', 'd', 'i'}
  {
    if c == 's' then Some(Str(a))
    else if (c == 'd' || c == 'i') && a.IntArg? then Some(IntText(a.i))
    else None
  }

  function Prepend(p: string, r: Option<string>): Option<string> {
    if r.None? then None else Some(p + r.value)
  }

  /** `f % tuple(args)`. `None` is the TypeError or ValueError Python raises: a
      conversion with no argument left ("not enough arguments"), arguments left
      over at the end ("not all arguments converted"), a lone `%` at the end
      ("incomplete format") or a refused conversion. */
  function Interpolate(f: string, args: seq<Arg>): Option<string>
    decreases |f|
  {
    if f == [] then (if args == [] then Some("") else None)
    else if f[0] != '%' then Prepend([f[0]], Interpolate(f[1..], args))
    else if |f| == 1 then None
    else if f[1] == '%' then Prepend("%", Interpolate(f[2..], args))
    else if args == [] then None
    else
      var t := Convert(f[1], args[0]);
      if t.None? then None else Prepend(t.value, Interpolate(f[2..], args[1..]))
  }

  /** The number of conversions in `f` that take an argument. */
  function Specifiers(f: string): nat
    decreases |f|
  {
    if f == [] then 0
    else if f[0] != '%' || |f| == 1 then Specifiers(f[1..])
    else if f[1] == '%' then Specifiers(f[2..])
    else 1 + Specifiers(f[2..])
  }

  /** A successful formatting uses every argument, one per conversion. */
  lemma {:induction false} InterpolateUsesEveryArg(f: string, args: seq<Arg>)
    ensures Interpolate(f, args).Some? ==> |args| == Specifiers(f)
    decreases |f|
  {
    if f == [] {
    } else if f[0] != '%' {
      InterpolateUsesEveryArg(f[1..], args);
    } else if |f| == 1 {
    } else if f[1] == '%' {
      InterpolateUsesEveryArg(f[2..], args);
    } else if args != [] {
      InterpolateUsesEveryArg(f[2..], args[1..]);
    }
  }

  /** Text without a percent sign formats to itself with no arguments, and
      fails with any ("not all arguments converted"). */
  lemma {:induction false} NoPercentKeepsText(f: string, args: seq<Arg>)
    requires forall i :: 0 <= i < |f| ==> f[i] != '%'
    ensures Interpolate(f, args) == if args == [] then Some(f) else None
    decreases |f|
  {
    if f != [] {
      NoPercentKeepsText(f[1..], args);
      if args == [] {
        assert [f[0]] + f[1..] == f;
      }
    }
  }

  /** A single `%s` between two texts without percent signs is replaced by the
      argument's text. */
  lemma {:induction false} SubstitutesString(p: string, x: string, q: string)
    requires forall i :: 0 <= i < |p| ==> p[i] != '%'
    requires forall i :: 0 <= i < |q| ==> q[i] != '%'
    ensures Interpolate(p + "%s" + q, [StrArg(x)]) == Some(p + x + q)
    decreases |p|
  {
    if p == [] {
      var f := "%s" + q;
      assert p + "%s" + q == f && p + x + q == x + q;
      assert f[0] == '%' && f[1] == 's' && f[2..] == q;
      NoPercentKeepsText(q, []);
      assert [StrArg(x)][1..] == [];
      assert Convert('s', StrArg(x)) == Some(x);
      assert Interpolate(f, [StrArg(x)]) == Prepend(x, Interpolate(q, []));
    } else {
      assert (p + "%s" + q)[1..] == p[1..] + "%s" + q;
      SubstitutesString(p[1..], x, q);
      assert [p[0]] + (p[1..] + x + q) == p + x + q;
    }
  }
}
