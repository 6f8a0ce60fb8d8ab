/** The string built-ins of Python and JavaScript that the modelled code relies
    on: substring search (`in`, `includes`), `split(sep)[-1]` / `split(sep).pop()`,
    `replace` with a string pattern (first occurrence) and with a global regular
    expression for a literal (every occurrence, left to right), `str(int)`, and
    ASCII lower-casing. */
module Strings {
  import opened Wrappers

  /** `sub` occurs in `s` at index `i`. */
  predicate OccursAt(s: string, sub: string, i: int) {
    0 <= i && i + |sub| <= |s| && s[i..i + |sub|] == sub
  }

  /** Python's `sub in s`. */
  predicate Contains(s: string, sub: string) {
    exists i: nat | i <= |s| :: OccursAt(s, sub, i)
  }

  predicate StartsWith(s: string, prefix: string) {
    |prefix| <= |s| && s[..|prefix|] == prefix
  }

  predicate EndsWith(s: string, suffix: string) {
    |suffix| <= |s| && s[|s| - |suffix|..] == suffix
  }

  lemma OccursAtShift(c: char, s: string, sub: string, i: nat)
    ensures OccursAt([c] + s, sub, i + 1) <==> OccursAt(s, sub, i)
  {
    if i + |sub| <= |s| {
      assert ([c] + s)[i + 1..i + 1 + |sub|] == s[i..i + |sub|];
    }
  }

  /** Index of the first occurrence of `sub` in `s` at or after `from`. */
  function IndexFrom(s: string, sub: string, from: nat): (r: Option<nat>)
    ensures r.Some? ==> from <= r.value && r.value + |sub| <= |s|
    decreases |s| - from
  {
    if from + |sub| > |s| then None
    else if OccursAt(s, sub, from) then Some(from)
    else IndexFrom(s, sub, from + 1)
  }

  /** The index found is an occurrence and none lies between `from` and it; when
      there is none, `sub` occurs nowhere at or after `from`. */
  lemma {:induction false} IndexFromFirst(s: string, sub: string, from: nat)
    ensures IndexFrom(s, sub, from).Some? ==> OccursAt(s, sub, IndexFrom(s, sub, from).value)
    ensures IndexFrom(s, sub, from).Some? ==>
      forall j: nat :: from <= j < IndexFrom(s, sub, from).value ==> !OccursAt(s, sub, j)
    ensures IndexFrom(s, sub, from).None? ==> forall j: nat :: from <= j ==> !OccursAt(s, sub, j)
    decreases |s| - from
  {
    if from + |sub| <= |s| && !OccursAt(s, sub, from) {
      IndexFromFirst(s, sub, from + 1);
    }
  }

  /** Python's `str.find` and JavaScript's `indexOf`: the index of the first
      occurrence of `sub` in `s`, or `None` when there is none. */
  function IndexOf(s: string, sub: string): Option<nat> {
    IndexFrom(s, sub, 0)
  }

  /** The index found is an occurrence and no occurrence comes before it; there
      is none exactly when `sub` does not occur. */
  lemma IndexOfFirst(s: string, sub: string)
    ensures IndexOf(s, sub).Some? ==> OccursAt(s, sub, IndexOf(s, sub).value)
    ensures IndexOf(s, sub).Some? ==> forall j: nat :: j < IndexOf(s, sub).value ==> !OccursAt(s, sub, j)
    ensures IndexOf(s, sub).None? <==> !Contains(s, sub)
  {
    IndexFromFirst(s, sub, 0);
  }

  /** Where the last piece of `s[from..]` split at `sep` starts: the split scans
      left to right for non-overlapping occurrences, and the last piece begins
      after the last one it finds. */
  function LastPieceFrom(s: string, sep: string, from: nat): (p: nat)
    requires sep != "" && from <= |s|
    ensures from <= p <= |s|
    decreases |s| - from
  {
    match IndexFrom(s, sep, from)
    case None => from
    case Some(i) => LastPieceFrom(s, sep, i + |sep|)
  }

  /** No separator is found after the last piece's start. */
  lemma {:induction false} LastPieceHoldsNoSeparator(s: string, sep: string, from: nat)
    requires sep != "" && from <= |s|
    ensures IndexFrom(s, sep, LastPieceFrom(s, sep, from)).None?
    decreases |s| - from
  {
    var idx := IndexFrom(s, sep, from);
    if idx.Some? {
      var i := idx.value;
      assert LastPieceFrom(s, sep, from) == LastPieceFrom(s, sep, i + |sep|);
      LastPieceHoldsNoSeparator(s, sep, i + |sep|);
    } else {
      assert LastPieceFrom(s, sep, from) == from;
    }
  }

  /** The last piece's start is `from` when there is no separator, and otherwise
      follows an occurrence. */
  lemma {:induction false} LastPieceFollowsSeparator(s: string, sep: string, from: nat)
    requires sep != "" && from <= |s|
    ensures IndexFrom(s, sep, from).None? ==> LastPieceFrom(s, sep, from) == from
    ensures IndexFrom(s, sep, from).Some? ==>
      && LastPieceFrom(s, sep, from) >= from + |sep|
      && OccursAt(s, sep, LastPieceFrom(s, sep, from) - |sep|)
    decreases |s| - from
  {
    var idx := IndexFrom(s, sep, from);
    if idx.Some? {
      var i := idx.value;
      var p := LastPieceFrom(s, sep, i + |sep|);
      assert LastPieceFrom(s, sep, from) == p;
      if IndexFrom(s, sep, i + |sep|).None? {
        assert p == i + |sep|;
        IndexFromFirst(s, sep, from);
        assert OccursAt(s, sep, p - |sep|);
      } else {
        LastPieceFollowsSeparator(s, sep, i + |sep|);
      }
    }
  }

  /** Python's `s.split(sep)[-1]` and JavaScript's `s.split(sep).pop()` for a
      non-empty separator. What the piece is, is stated by `SplitLastPiece`. */
  function SplitLast(s: string, sep: string): string
    requires sep != ""
  {
    s[LastPieceFrom(s, sep, 0)..]
  }

  /** An occurrence in a suffix is an occurrence in the whole string, shifted. */
  lemma OccursInSuffix(s: string, k: nat, sub: string, j: nat)
    requires k <= |s|
    ensures OccursAt(s[k..], sub, j) <==> OccursAt(s, sub, k + j)
  {
    if j + |sub| <= |s| - k {
      assert s[k..][j..j + |sub|] == s[k + j..k + j + |sub|];
    }
  }

  /** The last piece holds no separator; it is the whole string when there is no
      separator, and otherwise a separator occurs right before it. */
  lemma SplitLastPiece(s: string, sep: string)
    requires sep != ""
    ensures !Contains(SplitLast(s, sep), sep)
    ensures !Contains(s, sep) ==> SplitLast(s, sep) == s
    ensures Contains(s, sep) ==> OccursAt(s, sep, |s| - |SplitLast(s, sep)| - |sep|)
  {
    var p := LastPieceFrom(s, sep, 0);
    LastPieceHoldsNoSeparator(s, sep, 0);
    LastPieceFollowsSeparator(s, sep, 0);
    IndexFromFirst(s, sep, p);
    forall j: nat ensures !OccursAt(s[p..], sep, j) {
      OccursInSuffix(s, p, sep, j);
    }
    IndexOfFirst(s, sep);
    if !Contains(s, sep) {
      assert s[p..] == s;
    }
  }

  /** When `sep` occurs in `s` exactly at one index, the last piece of the split is
      what follows that occurrence. */
  lemma SplitLastUnique(prefix: string, sep: string, rest: string)
    requires sep != ""
    requires forall j: nat :: OccursAt(prefix + sep + rest, sep, j) ==> j == |prefix|
    ensures SplitLast(prefix + sep + rest, sep) == rest
  {
    var s := prefix + sep + rest;
    assert OccursAt(s, sep, |prefix|) by { assert s[|prefix|..|prefix| + |sep|] == sep; }
    SplitLastPiece(s, sep);
    var r := SplitLast(s, sep);
    assert |s| - |r| - |sep| == |prefix|;
    assert r == s[|prefix| + |sep|..];
    assert s[|prefix| + |sep|..] == rest;
  }

  /** A one-character string occurs exactly where the character does. */
  lemma ContainsChar(s: string, c: char)
    ensures Contains(s, [c]) <==> c in s
  {
    if c in s {
      var i :| 0 <= i < |s| && s[i] == c;
      assert s[i..i + 1] == [c];
      assert OccursAt(s, [c], i);
    }
    if Contains(s, [c]) {
      var i: nat :| i <= |s| && OccursAt(s, [c], i);
      assert s[i..i + 1] == [c];
      assert s[i] == c;
    }
  }

  /** With a one-character separator, the last piece is everything after the
      separator's last occurrence. */
  lemma SplitLastAfterChar(prefix: string, c: char, rest: string)
    requires c !in rest
    ensures SplitLast(prefix + [c] + rest, [c]) == rest
  {
    var s := prefix + [c] + rest;
    assert OccursAt(s, [c], |prefix|) by { assert s[|prefix|..|prefix| + 1] == [c]; }
    SplitLastPiece(s, [c]);
    var r := SplitLast(s, [c]);
    var k := |s| - |r| - 1;
    assert s[k..k + 1] == [c];
    if |r| > |rest| {
      assert OccursAt(r, [c], |r| - |rest| - 1) by {
        assert r[|r| - |rest| - 1] == s[|prefix|];
        assert r[|r| - |rest| - 1..|r| - |rest|] == [c];
      }
      assert false;
    }
    assert s[k] == c;
    forall i | |prefix| < i < |s| ensures s[i] != c {
      assert s[i] == rest[i - |prefix| - 1];
    }
    assert k <= |prefix|;
    assert |s| - |r| == |prefix| + 1;
    assert r == s[|prefix| + 1..];
    assert s[|prefix| + 1..] == rest;
  }

  /** JavaScript's `s.replace(pat, rep)` with a string pattern: only the first
      occurrence is replaced. */
  function ReplaceFirst(s: string, pat: string, rep: string): string {
    match IndexOf(s, pat)
    case None => s
    case Some(i) => s[..i] + rep + s[i + |pat|..]
  }

  /** Without an occurrence nothing changes; otherwise the text before the first
      occurrence and the text after it are kept, and the replacement is put
      between them. */
  lemma ReplaceFirstReplacesFirst(s: string, pat: string, rep: string)
    ensures !Contains(s, pat) ==> ReplaceFirst(s, pat, rep) == s
    ensures Contains(s, pat) ==>
      exists i: nat :: OccursAt(s, pat, i) && (forall j: nat :: j < i ==> !OccursAt(s, pat, j))
                      && ReplaceFirst(s, pat, rep) == s[..i] + rep + s[i + |pat|..]
  {
    IndexOfFirst(s, pat);
  }

  /** JavaScript's `s.replace(/pat/g, rep)` for a literal, non-empty pattern: the
      string is scanned left to right; wherever `pat` starts it is replaced and the
      scan resumes after it, otherwise the character is kept. */
  function ReplaceAll(s: string, pat: string, rep: string): string
    requires pat != ""
    decreases |s|
  {
    if StartsWith(s, pat) then rep + ReplaceAll(s[|pat|..], pat, rep)
    else if s == [] then []
    else [s[0]] + ReplaceAll(s[1..], pat, rep)
  }

  /** A character absent from the string and from the replacement is absent from
      the result. */
  lemma {:induction false} ReplaceAllKeepsAbsent(s: string, pat: string, rep: string, c: char)
    requires pat != "" && c !in s && c !in rep
    ensures c !in ReplaceAll(s, pat, rep)
    decreases |s|
  {
    if StartsWith(s, pat) {
      assert forall k :: |pat| <= k < |s| ==> s[|pat|..][k - |pat|] == s[k];
      ReplaceAllKeepsAbsent(s[|pat|..], pat, rep, c);
    } else if s != [] {
      assert forall k :: 1 <= k < |s| ==> s[1..][k - 1] == s[k];
      ReplaceAllKeepsAbsent(s[1..], pat, rep, c);
    }
  }

  /** The same for the replacement of the first occurrence. */
  lemma ReplaceFirstKeepsAbsent(s: string, pat: string, rep: string, c: char)
    requires c !in s && c !in rep
    ensures c !in ReplaceFirst(s, pat, rep)
  {
    var idx := IndexOf(s, pat);
    if idx.Some? {
      var i := idx.value;
      var r := s[..i] + rep + s[i + |pat|..];
      assert ReplaceFirst(s, pat, rep) == r;
      forall k | 0 <= k < |r| ensures r[k] != c {
        if k < i {
          assert r[k] == s[k];
        } else if k < i + |rep| {
          assert r[k] == rep[k - i];
        } else {
          assert r[k] == s[k - |rep| + |pat|];
        }
      }
    }
  }

  /** Replacing the first occurrence by a string of the same length leaves every
      later occurrence in place. */
  lemma ReplaceFirstKeepsLater(s: string, pat: string, rep: string, i: nat, j: nat)
    requires |rep| == |pat|
    requires OccursAt(s, pat, i) && i + |pat| <= j && OccursAt(s, pat, j)
    ensures OccursAt(ReplaceFirst(s, pat, rep), pat, j)
  {
    IndexFromFirst(s, pat, 0);
    var first := IndexOf(s, pat).value;
    assert first + |pat| <= j by { assert first <= i; }
    var r := ReplaceFirst(s, pat, rep);
    SpliceKeepsTail(s, first, pat, rep);
    assert r[j..j + |pat|] == s[j..j + |pat|];
  }

  /** Putting `rep` in place of `|rep|` characters at `i` keeps every later
      character. */
  lemma SpliceKeepsTail(s: string, i: nat, pat: string, rep: string)
    requires |rep| == |pat| && i + |pat| <= |s|
    ensures var r := s[..i] + rep + s[i + |pat|..];
      |r| == |s| && forall k :: i + |pat| <= k < |s| ==> r[k] == s[k]
  {
  }

  /** Replacing every occurrence of one character by another character maps the
      string character by character, so that none of the replaced character is left. */
  lemma {:induction false} ReplaceAllChar(s: string, c: char, d: char)
    ensures |ReplaceAll(s, [c], [d])| == |s|
    ensures forall k :: 0 <= k < |s| ==>
      ReplaceAll(s, [c], [d])[k] == if s[k] == c then d else s[k]
    decreases |s|
  {
    if s != [] {
      ReplaceAllChar(s[1..], c, d);
      if StartsWith(s, [c]) {
        assert s[0] == c;
      } else {
        assert s[..1] == [s[0]];
      }
    }
  }

  /** A decimal digit's character. */
  function DigitChar(d: nat): (c: char)
    requires d < 10
    ensures '0' <= c <= '9'
  {
    ['0', '1', '2', '3', '4', '5', '6', '7', '8', '9'][d]
  }

  predicate IsDigits(s: string) {
    forall i :: 0 <= i < |s| ==> '0' <= s[i] <= '9'
  }

  /** The number a string of decimal digits denotes. */
  function DigitsValue(s: string): nat
    requires IsDigits(s)
  {
    if s == [] then 0
    else DigitsValue(s[..|s| - 1]) * 10 + (s[|s| - 1] as int - '0' as int)
  }

  /** Python's `str(n)` and `"{}".format(n)` for a non-negative integer: the
      shortest decimal representation, read back as `n`. */
  function NatToString(n: nat): (r: string)
    ensures |r| > 0 && IsDigits(r)
    ensures |r| > 1 ==> r[0] != '0'
    ensures DigitsValue(r) == n
    decreases n
  {
    if n < 10 then
      assert DigitChar(n) as int - '0' as int == n by {
        assert n in {0, 1, 2, 3, 4, 5, 6, 7, 8, 9};
      }
      [DigitChar(n)]
    else
      var r := NatToString(n / 10) + [DigitChar(n % 10)];
      assert r[..|r| - 1] == NatToString(n / 10);
      assert DigitChar(n % 10) as int - '0' as int == n % 10 by {
        assert n % 10 in {0, 1, 2, 3, 4, 5, 6, 7, 8, 9};
      }
      r
  }

  /** The decimal string has the length the magnitude of the number gives it. */
  lemma {:induction false} NatToStringLength(n: nat, k: nat)
    requires Pow10(k) <= n < Pow10(k + 1)
    ensures |NatToString(n)| == k + 1
    decreases k
  {
    if k > 0 {
      NatToStringLength(n / 10, k - 1);
    }
  }

  function Pow10(k: nat): (p: nat)
    ensures p >= 1
  {
    if k == 0 then 1 else 10 * Pow10(k - 1)
  }

  /** ASCII upper-case letters to lower case; every other character is kept. */
  function ToLower(s: string): (r: string)
    ensures |r| == |s|
    ensures forall i :: 0 <= i < |s| ==> r[i] == if 'A' <= s[i] <= 'Z' then (s[i] as int + 32) as char else s[i]
  {
    seq(|s|, i requires 0 <= i < |s| => if 'A' <= s[i] <= 'Z' then (s[i] as int + 32) as char else s[i])
  }
}
