/** Text helpers the staging pipeline relies on: the Qt string and list
    operations it calls (contains, join, split, value, replace, arg) stated
    on `seq<char>`, each with the property the pipeline depends on. */
module Strings {

  predicate IsPrefix(p: string, s: string) {
    |p| <= |s| && s[..|p|] == p
  }

  /** `QString::contains`: `t` occurs somewhere in `s` (the empty string
      occurs everywhere). */
  function Contains(s: string, t: string): bool
    decreases |s|
  {
    IsPrefix(t, s) || (s != [] && Contains(s[1..], t))
  }

  /** Contains agrees with the positional definition of an occurrence. */
  lemma {:induction false} ContainsAt(s: string, t: string)
    ensures Contains(s, t) <==> exists i :: 0 <= i <= |s| && IsPrefix(t, s[i..])
  {
    assert s[0..] == s;
    if s != [] {
      ContainsAt(s[1..], t);
      if Contains(s[1..], t) {
        var i :| 0 <= i <= |s[1..]| && IsPrefix(t, s[1..][i..]);
        assert s[1..][i..] == s[i + 1..];
      }
      if exists i :: 0 <= i <= |s| && IsPrefix(t, s[i..]) {
        var i :| 0 <= i <= |s| && IsPrefix(t, s[i..]);
        if i > 0 {
          assert s[1..][i - 1..] == s[i..];
        }
      }
    }
  }

  /** A string shorter than `t` does not contain it. */
  lemma {:induction false} ContainsShorter(s: string, t: string)
    requires |s| < |t|
    ensures !Contains(s, t)
    decreases |s|
  {
    if s != [] {
      ContainsShorter(s[1..], t);
    }
  }

  /** `QStringList::join(sep)`. */
  function JoinWith(parts: seq<string>, sep: string): string
    decreases |parts|
  {
    if |parts| == 0 then ""
    else if |parts| == 1 then parts[0]
    else parts[0] + sep + JoinWith(parts[1..], sep)
  }

  lemma JoinWith3(a: string, b: string, c: string, sep: string)
    ensures JoinWith([a, b, c], sep) == a + sep + b + sep + c
  {
    assert [a, b, c][1..] == [b, c];
    JoinWith2(b, c, sep);
  }

  lemma JoinWith2(a: string, b: string, sep: string)
    ensures JoinWith([a, b], sep) == a + sep + b
  {
    assert [a, b][1..] == [b];
  }

  /** `QString::split(c)` with empty parts kept: the pieces between the
      separators, never fewer than one, none holding the separator. */
  function Split(s: string, c: char): (parts: seq<string>)
    ensures |parts| >= 1
    ensures forall i :: 0 <= i < |parts| ==> c !in parts[i]
    decreases |s|
  {
    if s == [] then [""]
    else
      var rest := Split(s[1..], c);
      if s[0] == c then [""] + rest
      else [[s[0]] + rest[0]] + rest[1..]
  }

  lemma JoinWithCons(x: string, ps: seq<string>, sep: string)
    ensures JoinWith([x] + ps, sep) == if ps == [] then x else x + sep + JoinWith(ps, sep)
  {
    assert ([x] + ps)[1..] == ps;
  }

  /** Joining the pieces with the separator gives back the string. */
  lemma {:induction false} JoinSplit(s: string, c: char)
    ensures JoinWith(Split(s, c), [c]) == s
    decreases |s|
  {
    if s != [] {
      var rest := Split(s[1..], c);
      JoinSplit(s[1..], c);
      if s[0] == c {
        JoinWithCons("", rest, [c]);
      } else {
        JoinWithCons(rest[0], rest[1..], [c]);
        assert [rest[0]] + rest[1..] == rest;
        JoinWithCons([s[0]] + rest[0], rest[1..], [c]);
      }
    }
  }

  lemma {:induction false} SplitNoSeparator(a: string, c: char)
    requires c !in a
    ensures Split(a, c) == [a]
    decreases |a|
  {
    if a != [] {
      SplitNoSeparator(a[1..], c);
      assert [a[0]] + a[1..] == a;
    }
  }

  lemma {:induction false} SplitAfterPiece(a: string, c: char, rest: string)
    requires c !in a
    ensures Split(a + [c] + rest, c) == [a] + Split(rest, c)
    decreases |a|
  {
    var s := a + [c] + rest;
    if a == [] {
      assert s[1..] == rest;
    } else {
      assert s[1..] == a[1..] + [c] + rest;
      SplitAfterPiece(a[1..], c, rest);
      assert [a[0]] + a[1..] == a;
    }
  }

  /** Splitting pieces that hold no separator after joining them returns
      exactly those pieces. */
  lemma {:induction false} SplitJoin(parts: seq<string>, c: char)
    requires |parts| >= 1
    requires forall i :: 0 <= i < |parts| ==> c !in parts[i]
    ensures Split(JoinWith(parts, [c]), c) == parts
    decreases |parts|
  {
    if |parts| == 1 {
      SplitNoSeparator(parts[0], c);
    } else {
      SplitJoin(parts[1..], c);
      SplitAfterPiece(parts[0], c, JoinWith(parts[1..], [c]));
      assert parts[0] + [c] + JoinWith(parts[1..], [c]) == JoinWith(parts, [c]);
      assert [parts[0]] + parts[1..] == parts;
    }
  }

  /** `QList::value(i)`: the element at `i`, or a default-constructed
      (empty) string when the list is too short. */
  function ValueAt(parts: seq<string>, i: nat): string {
    if i < |parts| then parts[i] else ""
  }

  /** `QString::replace(pat, rep)`: every occurrence of `pat`, scanning left
      to right without overlap, is replaced by `rep`. */
  function ReplaceAll(s: string, pat: string, rep: string): string
    requires pat != []
    decreases |s|
  {
    if IsPrefix(pat, s) then rep + ReplaceAll(s[|pat|..], pat, rep)
    else if s == [] then []
    else [s[0]] + ReplaceAll(s[1..], pat, rep)
  }

  /** A string that does not hold the pattern is left untouched. */
  lemma {:induction false} ReplaceAbsent(s: string, pat: string, rep: string)
    requires pat != []
    requires !Contains(s, pat)
    ensures ReplaceAll(s, pat, rep) == s
    decreases |s|
  {
    if s != [] {
      ReplaceAbsent(s[1..], pat, rep);
      assert [s[0]] + s[1..] == s;
    }
  }

  /** The first occurrence is replaced and the scan resumes right after it:
      when no occurrence starts inside `x` (not even one running into the
      pattern that follows it), `x` is kept and the pattern becomes `rep`. */
  lemma {:induction false} ReplaceFirst(x: string, pat: string, rep: string, y: string)
    requires pat != []
    requires !Contains(x + pat[..|pat| - 1], pat)
    ensures ReplaceAll(x + pat + y, pat, rep) == x + rep + ReplaceAll(y, pat, rep)
    decreases |x|
  {
    var s := x + pat + y;
    if x == [] {
      assert s == pat + y;
      assert s[..|pat|] == pat;
      assert s[|pat|..] == y;
    } else {
      var w := x + pat[..|pat| - 1];
      assert w[..|pat|] == s[..|pat|];
      assert !IsPrefix(pat, s);
      assert w[1..] == x[1..] + pat[..|pat| - 1];
      assert s[1..] == x[1..] + pat + y;
      ReplaceFirst(x[1..], pat, rep, y);
      assert [x[0]] + x[1..] == x;
    }
  }

  function DigitChar(d: nat): (c: char)
    requires d < 10
    ensures '0' <= c <= '9'
  {
    ('0' as int + d) as char
  }

  predicate AllDigits(s: string) {
    forall i :: 0 <= i < |s| ==> '0' <= s[i] <= '9'
  }

  /** `QString::arg` for an unsigned number: its decimal digits, at least
      one, no leading zero. */
  function NatToDecimal(n: nat): (s: string)
    ensures |s| >= 1 && AllDigits(s)
    ensures s[0] == '0' ==> n == 0
    decreases n
  {
    if n < 10 then [DigitChar(n)]
    else NatToDecimal(n / 10) + [DigitChar(n % 10)]
  }

  /** The number a string of decimal digits denotes. */
  function DecimalValue(s: string): nat
    requires AllDigits(s)
    decreases |s|
  {
    if s == [] then 0
    else DecimalValue(s[..|s| - 1]) * 10 + (s[|s| - 1] as int - '0' as int)
  }

  /** Reading back the decimal form gives the number. */
  lemma {:induction false} DecimalRoundTrip(n: nat)
    ensures DecimalValue(NatToDecimal(n)) == n
    decreases n
  {
    if n >= 10 {
      var s := NatToDecimal(n / 10);
      DecimalRoundTrip(n / 10);
      assert (s + [DigitChar(n % 10)])[..|s|] == s;
    }
  }

  lemma NatToDecimalInjective(a: nat, b: nat)
    requires NatToDecimal(a) == NatToDecimal(b)
    ensures a == b
  {
    DecimalRoundTrip(a);
    DecimalRoundTrip(b);
  }

  /** The ASCII word characters of a regular-expression `\w`. */
  predicate IsWordChar(c: char) {
    ('a' <= c <= 'z') || ('A' <= c <= 'Z') || ('0' <= c <= '9') || c == '_'
  }
}
