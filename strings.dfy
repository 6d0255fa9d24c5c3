/** The string primitives the source relies on: Python's `str.strip`, `str.split`,
    `str.join`, `int(...)` on digits and `str(n)`, and JavaScript's `String.trim`.
    The model takes a string to be a sequence of Unicode scalar values: lone
    surrogates, which a Python `str` may hold, and the UTF-16 code units a
    JavaScript string is made of are out of its scope. */
module Strings {

  /** Python's `str.isspace()` on one character: what `str.strip()` removes and
      what the regular-expression class `\s` matches. */
  predicate IsPySpace(c: char) {
    ('\t' <= c <= '\r') || c == ' ' || ('\U{1c}' <= c <= '\U{1f}')
    || c == '\U{85}' || c == '\U{a0}' || c == '\U{1680}'
    || ('\U{2000}' <= c <= '\U{200a}') || c == '\U{2028}' || c == '\U{2029}'
    || c == '\U{202f}' || c == '\U{205f}' || c == '\U{3000}'
  }

  /** JavaScript's WhiteSpace and LineTerminator characters: what
      `String.prototype.trim` removes. Unlike Python it includes U+FEFF and
      excludes U+001C..U+001F and U+0085. */
  predicate IsJsSpace(c: char) {
    ('\t' <= c <= '\r') || c == ' ' || c == '\U{a0}' || c == '\U{1680}'
    || ('\U{2000}' <= c <= '\U{200a}') || c == '\U{2028}' || c == '\U{2029}'
    || c == '\U{202f}' || c == '\U{205f}' || c == '\U{3000}' || c == '\U{feff}'
  }

  /** The line boundaries of Python's `str.splitlines()`. */
  predicate IsLineBreak(c: char) {
    ('\n' <= c <= '\r') || ('\U{1c}' <= c <= '\U{1e}')
    || c == '\U{85}' || c == '\U{2028}' || c == '\U{2029}'
  }

  predicate IsNewline(c: char) {
    c == '\n'
  }

  predicate AllIn(s: string, ws: char -> bool) {
    forall i :: 0 <= i < |s| ==> ws(s[i])
  }

  predicate NoneIn(s: string, p: char -> bool) {
    forall i :: 0 <= i < |s| ==> !p(s[i])
  }

  /** Neither the first nor the last character of `s` is in `ws`. */
  predicate Clean(s: string, ws: char -> bool) {
    s == [] || (!ws(s[0]) && !ws(s[|s| - 1]))
  }

  /** `t` occurs in `s` at offset `i`, with only `ws` characters on either side. */
  ghost predicate TrimmedAt(t: string, s: string, i: int, ws: char -> bool) {
    && 0 <= i && i + |t| <= |s| && s[i..i + |t|] == t
    && (forall k :: 0 <= k < i ==> ws(s[k]))
    && (forall k :: i + |t| <= k < |s| ==> ws(s[k]))
  }

  /** `t` is what removing `ws` characters from both ends of `s` leaves:
      a clean infix of `s` with only `ws` characters around it. */
  ghost predicate TrimmedFrom(t: string, s: string, ws: char -> bool) {
    Clean(t, ws) && exists i :: TrimmedAt(t, s, i, ws)
  }

  function TrimStart(s: string, ws: char -> bool): (r: string)
    ensures |r| <= |s| && (r == [] || !ws(r[0]))
  {
    if |s| > 0 && ws(s[0]) then TrimStart(s[1..], ws) else s
  }

  function TrimEnd(s: string, ws: char -> bool): (r: string)
    ensures |r| <= |s| && (r == [] || !ws(r[|r| - 1]))
  {
    if |s| > 0 && ws(s[|s| - 1]) then TrimEnd(s[..|s| - 1], ws) else s
  }

  /** `TrimStart` leaves a suffix and removes only `ws` characters. */
  lemma {:induction false} TrimStartShape(s: string, ws: char -> bool)
    ensures var r := TrimStart(s, ws);
      && r == s[|s| - |r|..]
      && forall k :: 0 <= k < |s| - |r| ==> ws(s[k])
  {
    if |s| > 0 && ws(s[0]) {
      TrimStartShape(s[1..], ws);
      assert forall k :: 1 <= k < |s| - |TrimStart(s, ws)| ==> s[k] == s[1..][k - 1];
    }
  }

  /** `TrimEnd` leaves a prefix and removes only `ws` characters. */
  lemma {:induction false} TrimEndShape(s: string, ws: char -> bool)
    ensures var r := TrimEnd(s, ws);
      && r == s[..|r|]
      && forall k :: |r| <= k < |s| ==> ws(s[k])
  {
    if |s| > 0 && ws(s[|s| - 1]) {
      TrimEndShape(s[..|s| - 1], ws);
    }
  }

  /** Removes the `ws` characters at both ends of `s`. */
  function Trim(s: string, ws: char -> bool): (r: string)
    ensures |r| <= |s| && Clean(r, ws)
  {
    var a := TrimStart(s, ws);
    TrimEndShape(a, ws);
    TrimEnd(a, ws)
  }

  /** What `Trim` leaves is a clean infix of `s` with only `ws` characters
      around it. */
  lemma TrimIsTrimmed(s: string, ws: char -> bool)
    ensures TrimmedFrom(Trim(s, ws), s, ws)
  {
    var a := TrimStart(s, ws);
    var r := TrimEnd(a, ws);
    TrimStartShape(s, ws);
    TrimEndShape(a, ws);
    var i := |s| - |a|;
    assert s[i..i + |r|] == r by {
      assert a == s[i..] && r == a[..|r|];
    }
    assert forall k :: i + |r| <= k < |s| ==> ws(s[k]) by {
      forall k | i + |r| <= k < |s|
        ensures ws(s[k])
      {
        assert s[k] == a[k - i];
      }
    }
    assert TrimmedAt(r, s, i, ws);
  }

  /** Python's `str.strip()`. */
  function Strip(s: string): (r: string)
  {
    Trim(s, IsPySpace)
  }

  /** JavaScript's `String.prototype.trim()`. */
  function JsTrim(s: string): (r: string)
  {
    Trim(s, IsJsSpace)
  }

  lemma {:induction false} TrimStartAt(s: string, i: nat, ws: char -> bool)
    requires i <= |s| && (i == |s| || !ws(s[i]))
    requires forall k :: 0 <= k < i ==> ws(s[k])
    ensures TrimStart(s, ws) == s[i..]
  {
    if i > 0 {
      assert forall k :: 0 <= k < i - 1 ==> s[1..][k] == s[k + 1];
      TrimStartAt(s[1..], i - 1, ws);
      assert s[1..][i - 1..] == s[i..];
    }
  }

  lemma {:induction false} TrimEndAt(s: string, j: nat, ws: char -> bool)
    requires j <= |s| && (j == 0 || !ws(s[j - 1]))
    requires forall k :: j <= k < |s| ==> ws(s[k])
    ensures TrimEnd(s, ws) == s[..j]
  {
    if j < |s| {
      var s' := s[..|s| - 1];
      assert forall k :: j <= k < |s'| ==> s'[k] == s[k];
      TrimEndAt(s', j, ws);
      assert s'[..j] == s[..j];
    }
  }

  lemma TrimEndInfix(a: string, t: string, ws: char -> bool)
    requires t != [] && !ws(t[|t| - 1])
    requires |t| <= |a| && a[..|t|] == t
    requires forall k :: |t| <= k < |a| ==> ws(a[k])
    ensures TrimEnd(a, ws) == t
  {
    assert a[|t| - 1] == t[|t| - 1];
    TrimEndAt(a, |t|, ws);
  }

  lemma TrimUniqueAt(t: string, s: string, i: int, ws: char -> bool)
    requires Clean(t, ws) && TrimmedAt(t, s, i, ws)
    ensures t == Trim(s, ws)
  {
    if t == [] {
      TrimStartAt(s, |s|, ws);
    } else {
      assert s[i] == t[0];
      TrimStartAt(s, i, ws);
      var a := s[i..];
      forall k | |t| <= k < |a|
        ensures ws(a[k])
      {
        assert a[k] == s[i + k];
      }
      assert a[..|t|] == s[i..i + |t|];
      TrimEndInfix(a, t, ws);
    }
  }

  /** Stripping has exactly one possible outcome: any clean infix with only
      `ws` characters around it is the result of `Trim`. */
  lemma TrimUnique(t: string, s: string, ws: char -> bool)
    requires TrimmedFrom(t, s, ws)
    ensures t == Trim(s, ws)
  {
    var i :| TrimmedAt(t, s, i, ws);
    TrimUniqueAt(t, s, i, ws);
  }

  /** A string that is already clean is left as it is. */
  lemma TrimClean(s: string, ws: char -> bool)
    requires Clean(s, ws)
    ensures Trim(s, ws) == s
  {
    assert TrimmedAt(s, s, 0, ws);
    TrimUniqueAt(s, s, 0, ws);
  }

  lemma TrimIdempotent(s: string, ws: char -> bool)
    ensures Trim(Trim(s, ws), ws) == Trim(s, ws)
  {
    TrimClean(Trim(s, ws), ws);
  }

  /** Stripping leaves nothing exactly when every character is whitespace. */
  lemma TrimEmptyIff(s: string, ws: char -> bool)
    ensures Trim(s, ws) == [] <==> AllIn(s, ws)
  {
    var t := Trim(s, ws);
    TrimIsTrimmed(s, ws);
    var i :| TrimmedAt(t, s, i, ws);
    if AllIn(s, ws) {
      assert TrimmedAt([], s, 0, ws);
      TrimUniqueAt([], s, 0, ws);
    }
  }

  /** Python's `sep.join(parts)`. */
  function Join(parts: seq<string>, sep: string): string {
    if |parts| == 0 then ""
    else if |parts| == 1 then parts[0]
    else parts[0] + sep + Join(parts[1..], sep)
  }

  /** Cuts `s` at every character satisfying `isSep` and drops those characters:
      Python's `s.split(c)` when `isSep` holds of `c` alone. */
  function SplitWhere(s: string, isSep: char -> bool): (r: seq<string>)
    ensures |r| >= 1
    ensures forall j :: 0 <= j < |r| ==> NoneIn(r[j], isSep)
  {
    if s == [] then [""]
    else
      var rest := SplitWhere(s[1..], isSep);
      if isSep(s[0]) then [""] + rest
      else
        assert forall j :: 1 <= j < |rest| ==> NoneIn(rest[j], isSep);
        [[s[0]] + rest[0]] + rest[1..]
  }

  lemma {:induction false} SplitNoSeparator(x: string, isSep: char -> bool)
    requires NoneIn(x, isSep)
    ensures SplitWhere(x, isSep) == [x]
  {
    if x != [] {
      assert NoneIn(x[1..], isSep);
      SplitNoSeparator(x[1..], isSep);
      assert [x[0]] + x[1..] == x;
    }
  }

  lemma {:induction false} SplitAtFirstSeparator(x: string, c: char, y: string, isSep: char -> bool)
    requires NoneIn(x, isSep) && isSep(c)
    ensures SplitWhere(x + [c] + y, isSep) == [x] + SplitWhere(y, isSep)
  {
    if x == [] {
      assert (x + [c] + y)[1..] == y;
    } else {
      assert (x + [c] + y)[1..] == x[1..] + [c] + y;
      assert NoneIn(x[1..], isSep);
      SplitAtFirstSeparator(x[1..], c, y, isSep);
      assert [x[0]] + x[1..] == x;
    }
  }

  /** Cutting at one separator character splits the two sides independently. */
  lemma {:induction false} SplitConcat(x: string, c: char, y: string, isSep: char -> bool)
    requires isSep(c)
    ensures SplitWhere(x + [c] + y, isSep) == SplitWhere(x, isSep) + SplitWhere(y, isSep)
  {
    if x == [] {
      assert (x + [c] + y)[1..] == y;
    } else {
      assert (x + [c] + y)[1..] == x[1..] + [c] + y;
      SplitConcat(x[1..], c, y, isSep);
    }
  }

  /** Splitting undoes joining with a separator character that no part contains. */
  lemma {:induction false} SplitJoin(parts: seq<string>, c: char, isSep: char -> bool)
    requires |parts| >= 1 && isSep(c)
    requires forall j :: 0 <= j < |parts| ==> NoneIn(parts[j], isSep)
    ensures SplitWhere(Join(parts, [c]), isSep) == parts
  {
    if |parts| == 1 {
      SplitNoSeparator(parts[0], isSep);
    } else {
      SplitJoin(parts[1..], c, isSep);
      SplitAtFirstSeparator(parts[0], c, Join(parts[1..], [c]), isSep);
      assert [parts[0]] + parts[1..] == parts;
    }
  }

  predicate IsDigit(c: char) {
    '0' <= c <= '9'
  }

  predicate AllDigits(s: string) {
    forall i :: 0 <= i < |s| ==> IsDigit(s[i])
  }

  function DigitChar(d: nat): (c: char)
    requires d < 10
    ensures IsDigit(c)
  {
    ('0' as int + d) as char
  }

  /** Python's `int(s)` on a string of ASCII digits (leading zeros allowed). */
  function DigitsValue(s: string): nat
    requires AllDigits(s)
  {
    if s == [] then 0
    else DigitsValue(s[..|s| - 1]) * 10 + ((s[|s| - 1] as int) - ('0' as int))
  }

  /** The decimal rendering of `n` without leading zeros: Python's `str(n)` and
      JavaScript's `${n}` for a non-negative integer. */
  function NatToString(n: nat): (r: string)
    ensures |r| >= 1 && AllDigits(r)
    ensures DigitsValue(r) == n
    ensures r[0] == '0' ==> n == 0
  {
    if n < 10 then [DigitChar(n)]
    else
      var p := NatToString(n / 10);
      var r := p + [DigitChar(n % 10)];
      assert r[..|r| - 1] == p;
      r
  }

  /** Distinct numbers have distinct renderings. */
  lemma NatToStringInjective(a: nat, b: nat)
    requires NatToString(a) == NatToString(b)
    ensures a == b
  {
    assert DigitsValue(NatToString(a)) == a;
  }

  /** The index of the first character of `s` satisfying `p`, or `|s|`. */
  function FirstWhere(s: string, p: char -> bool): (k: nat)
    ensures k <= |s| && (k < |s| ==> p(s[k]))
    ensures forall i :: 0 <= i < k ==> !p(s[i])
  {
    if s == [] || p(s[0]) then 0 else 1 + FirstWhere(s[1..], p)
  }

  /** The index `FirstWhere` finds is the only one with its two properties. */
  lemma FirstWhereIs(s: string, p: char -> bool, k: nat)
    requires k <= |s| && (k < |s| ==> p(s[k]))
    requires forall i :: 0 <= i < k ==> !p(s[i])
    ensures FirstWhere(s, p) == k
  {
  }

  /** The length of the run of digits `s` starts with: what `\d+` consumes. */
  function DigitRun(s: string): (k: nat)
    ensures k <= |s| && (k < |s| ==> !IsDigit(s[k]))
    ensures forall i :: 0 <= i < k ==> IsDigit(s[i])
  {
    if s == [] || !IsDigit(s[0]) then 0 else 1 + DigitRun(s[1..])
  }

  lemma DigitRunIs(s: string, k: nat)
    requires k <= |s| && (k < |s| ==> !IsDigit(s[k]))
    requires forall i :: 0 <= i < k ==> IsDigit(s[i])
    ensures DigitRun(s) == k
  {
  }

  /** The first part is a prefix of the joined string. */
  lemma JoinPrefix(parts: seq<string>, sep: string)
    requires |parts| >= 1
    ensures parts[0] <= Join(parts, sep)
  {
  }

  /** The last part is a suffix of the joined string. */
  lemma {:induction false} JoinSuffix(parts: seq<string>, sep: string)
    requires |parts| >= 1
    ensures var j := Join(parts, sep); var last := parts[|parts| - 1];
      |last| <= |j| && j[|j| - |last|..] == last
  {
    if |parts| > 1 {
      JoinSuffix(parts[1..], sep);
      var t := Join(parts[1..], sep);
      var j := Join(parts, sep);
      assert j == parts[0] + sep + t;
      assert j[|j| - |t|..] == t;
    }
  }


  lemma NoneInConcat(a: string, b: string, p: char -> bool)
    requires NoneIn(a, p) && NoneIn(b, p)
    ensures NoneIn(a + b, p)
  {
    forall k | 0 <= k < |a + b|
      ensures !p((a + b)[k])
    {
      if k >= |a| {
        assert (a + b)[k] == b[k - |a|];
      }
    }
  }

  /** A suffix is its first element followed by the rest. */
  lemma SuffixCons<T>(s: seq<T>, k: nat)
    requires k < |s|
    ensures s[k..] == [s[k]] + s[k + 1..]
  {
  }

  /** Joining non-empty clean parts gives a clean string. */
  lemma JoinClean(parts: seq<string>, sep: string, ws: char -> bool)
    requires |parts| >= 1
    requires forall i :: 0 <= i < |parts| ==> parts[i] != [] && Clean(parts[i], ws)
    ensures Join(parts, sep) != [] && Clean(Join(parts, sep), ws)
  {
    var s := Join(parts, sep);
    JoinPrefix(parts, sep);
    JoinSuffix(parts, sep);
    var last := parts[|parts| - 1];
    assert s[0] == parts[0][0];
    assert s[|s| - 1] == last[|last| - 1];
  }
}
