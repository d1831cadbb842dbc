/** String operations of Python's `str` that the three scripts rely on,
    restricted to what the model needs: ASCII whitespace, ASCII case folding,
    '\n' as the only line break, and code-point ordering for `sorted`. */
module Text {

  function Min(a: int, b: int): int { if a <= b then a else b }

  function Max(a: int, b: int): int { if a >= b then a else b }

  // ----------------------------------------------------------------------
  // Characters
  // ----------------------------------------------------------------------

  /** ASCII whitespace: what `str.strip()` and the regex class `\s` remove here. */
  predicate IsSpace(c: char) {
    c == ' ' || c == '\t' || c == '\n' || c == '\r' || c == '\U{000B}' || c == '\U{000C}'
  }

  predicate IsDigit(c: char) { '0' <= c <= '9' }

  /** The regex class `\w`, restricted to ASCII. */
  predicate IsWordChar(c: char) {
    ('a' <= c <= 'z') || ('A' <= c <= 'Z') || IsDigit(c) || c == '_'
  }

  /** `\b` before a word character at `i`. */
  predicate BoundaryBefore(s: string, i: int) {
    i == 0 || (0 < i <= |s| && !IsWordChar(s[i - 1]))
  }

  /** `\b` after a word character at `j - 1`. */
  predicate BoundaryAfter(s: string, j: int) {
    j == |s| || (0 <= j < |s| && !IsWordChar(s[j]))
  }

  function LowerChar(c: char): char {
    if 'A' <= c <= 'Z' then (c as int + 32) as char else c
  }

  /** `str.lower()` on ASCII letters. */
  function Lower(s: string): (r: string)
    ensures |r| == |s|
    ensures forall i :: 0 <= i < |s| ==> r[i] == LowerChar(s[i])
  {
    seq(|s|, i requires 0 <= i < |s| => LowerChar(s[i]))
  }

  lemma LowerIdempotent(s: string)
    ensures Lower(Lower(s)) == Lower(s)
  {
  }

  // ----------------------------------------------------------------------
  // Substrings
  // ----------------------------------------------------------------------

  predicate OccursAt(s: string, p: string, i: int) {
    0 <= i && i + |p| <= |s| && s[i..i + |p|] == p
  }

  /** Python's `p in s` on strings. */
  predicate Contains(s: string, p: string) {
    exists i :: 0 <= i <= |s| - |p| && OccursAt(s, p, i)
  }

  lemma ContainsAt(s: string, p: string, i: int)
    requires OccursAt(s, p, i)
    ensures Contains(s, p)
  {
  }

  /** A substring of a substring is a substring. */
  lemma ContainsTrans(s: string, m: string, p: string)
    requires Contains(s, m) && Contains(m, p)
    ensures Contains(s, p)
  {
    var i :| 0 <= i <= |s| - |m| && OccursAt(s, m, i);
    var j :| 0 <= j <= |m| - |p| && OccursAt(m, p, j);
    assert m == s[i..i + |m|];
    assert forall k :: 0 <= k < |p| ==> s[i + j + k] == m[j + k] == p[k];
    assert s[i + j..i + j + |p|] == p;
    assert OccursAt(s, p, i + j);
  }

  lemma ContainsInfix(a: string, b: string, c: string)
    ensures Contains(a + b + c, b)
  {
    assert (a + b + c)[|a|..|a| + |b|] == b;
    assert OccursAt(a + b + c, b, |a|);
  }

  lemma AppendAssoc<T>(a: seq<T>, b: seq<T>, c: seq<T>)
    ensures a + b + c == a + (b + c)
  {
  }

  /** The concatenation of a list of lists, in order. */
  function Flatten<T>(ss: seq<seq<T>>): seq<T>
    decreases |ss|
  {
    if ss == [] then [] else Flatten(ss[..|ss| - 1]) + ss[|ss| - 1]
  }

  /** Flattening one more list appends it. */
  lemma FlattenStep<T>(ss: seq<seq<T>>, i: int)
    requires 0 <= i < |ss|
    ensures Flatten(ss[..i + 1]) == Flatten(ss[..i]) + ss[i]
  {
    assert ss[..i + 1][..i] == ss[..i];
  }

  /** Every element of every list is in the flattened list. */
  lemma {:induction false} FlattenContains<T>(ss: seq<seq<T>>, k: int, x: T)
    requires 0 <= k < |ss| && x in ss[k]
    ensures x in Flatten(ss)
    decreases |ss|
  {
    var n := |ss| - 1;
    if k < n {
      assert ss[..n][k] == ss[k];
      FlattenContains(ss[..n], k, x);
    }
  }

  /** Every element of the flattened list comes from one of the lists. */
  lemma {:induction false} FlattenMember<T>(ss: seq<seq<T>>, x: T)
    requires x in Flatten(ss)
    ensures exists k :: 0 <= k < |ss| && x in ss[k]
    decreases |ss|
  {
    var n := |ss| - 1;
    if x in ss[n] {
    } else {
      FlattenMember(ss[..n], x);
      var k :| 0 <= k < n && x in ss[..n][k];
      assert ss[..n][k] == ss[k];
    }
  }

  /** A string made of six pieces starts with the first and contains the
      third and the fifth. */
  lemma SixPieces(p0: string, p1: string, p2: string, p3: string, p4: string, p5: string)
    ensures StartsWith(p0 + p1 + p2 + p3 + p4 + p5, p0)
    ensures Contains(p0 + p1 + p2 + p3 + p4 + p5, p2)
    ensures Contains(p0 + p1 + p2 + p3 + p4 + p5, p4)
  {
    var s := p0 + p1 + p2 + p3 + p4 + p5;
    assert s[..|p0|] == p0;
    ContainsInfix(p0 + p1, p2, p3 + p4 + p5);
    assert p0 + p1 + p2 + (p3 + p4 + p5) == s;
    ContainsInfix(p0 + p1 + p2 + p3, p4, p5);
  }

  /** An occurrence in `b` is one in `a + b`, and in `b + c`. */
  lemma ContainsExtend(a: string, b: string, c: string, p: string)
    requires Contains(b, p)
    ensures Contains(a + b, p) && Contains(b + c, p)
  {
    var i :| 0 <= i <= |b| - |p| && OccursAt(b, p, i);
    assert (a + b)[|a| + i..|a| + i + |p|] == b[i..i + |p|];
    assert OccursAt(a + b, p, |a| + i);
    assert (b + c)[i..i + |p|] == b[i..i + |p|];
    assert OccursAt(b + c, p, i);
  }

  /** `s` begins with `p`. */
  predicate StartsWith(s: string, p: string) {
    |p| <= |s| && s[..|p|] == p
  }

  /** Lower-casing both sides keeps an occurrence. */
  lemma LowerContains(s: string, p: string)
    requires Contains(s, p)
    ensures Contains(Lower(s), Lower(p))
  {
    var i :| 0 <= i <= |s| - |p| && OccursAt(s, p, i);
    assert Lower(s)[i..i + |p|] == Lower(p);
    assert OccursAt(Lower(s), Lower(p), i);
  }

  // ----------------------------------------------------------------------
  // strip()
  // ----------------------------------------------------------------------

  /** The first position at or after `i` that holds no whitespace (or |s|). */
  function SkipSpaces(s: string, i: nat): (j: nat)
    requires i <= |s|
    ensures i <= j <= |s|
    ensures forall k :: i <= k < j ==> IsSpace(s[k])
    ensures j < |s| ==> !IsSpace(s[j])
    decreases |s| - i
  {
    if i < |s| && IsSpace(s[i]) then SkipSpaces(s, i + 1) else i
  }

  /** Nothing but whitespace (or nothing at all). */
  predicate IsBlank(s: string)
    decreases |s|
  {
    s == [] || (IsSpace(s[0]) && IsBlank(s[1..]))
  }

  /** Non-empty, and neither starts nor ends with whitespace. */
  predicate Trimmed(s: string) { s != [] && !IsSpace(s[0]) && !IsSpace(s[|s| - 1]) }

  /** `str.strip()`: `s` without leading and trailing whitespace, one
      character at a time. */
  function Strip(s: string): (r: string)
    ensures |r| <= |s|
    ensures r == [] <==> IsBlank(s)
    ensures r != [] ==> Trimmed(r)
    decreases |s|
  {
    if s != [] && IsSpace(s[0]) then Strip(s[1..])
    else if s != [] && IsSpace(s[|s| - 1]) then Strip(s[..|s| - 1])
    else s
  }

  /** `r` is `s[i..i + |r|]`, with only whitespace before and after it. */
  predicate CutAt(s: string, r: string, i: int) {
    0 <= i <= |s| - |r| && r == s[i..i + |r|] && IsBlank(s[..i]) && IsBlank(s[i + |r|..])
  }

  lemma BlankCons(c: char, t: string)
    requires IsSpace(c) && IsBlank(t)
    ensures IsBlank([c] + t)
  {
    assert ([c] + t)[1..] == t;
  }

  lemma {:induction false} BlankSnoc(t: string, c: char)
    requires IsBlank(t) && IsSpace(c)
    ensures IsBlank(t + [c])
    decreases |t|
  {
    if t == [] {
      assert ([] + [c])[1..] == [];
    } else {
      BlankSnoc(t[1..], c);
      assert (t + [c])[1..] == t[1..] + [c];
    }
  }

  /** A cut of `s[1..]` after a leading space is a cut of `s`. */
  lemma CutAfterFront(s: string, r: string, i: int)
    requires s != [] && IsSpace(s[0]) && CutAt(s[1..], r, i)
    ensures CutAt(s, r, i + 1)
  {
    var t := s[1..];
    assert s[..i + 1] == [s[0]] + t[..i];
    BlankCons(s[0], t[..i]);
    assert s[i + 1..i + 1 + |r|] == t[i..i + |r|];
    assert s[i + 1 + |r|..] == t[i + |r|..];
  }

  /** A cut of `s` without its trailing space is a cut of `s`. */
  lemma CutBeforeBack(s: string, r: string, i: int)
    requires s != [] && IsSpace(s[|s| - 1]) && CutAt(s[..|s| - 1], r, i)
    ensures CutAt(s, r, i)
  {
    var t := s[..|s| - 1];
    assert s[..i] == t[..i];
    assert s[i..i + |r|] == t[i..i + |r|];
    assert s[i + |r|..] == t[i + |r|..] + [s[|s| - 1]];
    BlankSnoc(t[i + |r|..], s[|s| - 1]);
  }

  /** Stripping only removes whitespace from the two ends: the result is a
      slice of the input with nothing but whitespace before and after it. */
  lemma {:induction false} StripIsInfix(s: string)
    ensures exists i :: CutAt(s, Strip(s), i)
    decreases |s|
  {
    var r := Strip(s);
    if s != [] && IsSpace(s[0]) {
      StripIsInfix(s[1..]);
      var i :| CutAt(s[1..], r, i);
      CutAfterFront(s, r, i);
    } else if s != [] && IsSpace(s[|s| - 1]) {
      StripIsInfix(s[..|s| - 1]);
      var i :| CutAt(s[..|s| - 1], r, i);
      CutBeforeBack(s, r, i);
    } else {
      assert s[..0] == [] && s[|s|..] == [];
      assert CutAt(s, r, 0);
    }
  }

  /** A string without surrounding whitespace is its own strip. */
  lemma StripTrimmed(s: string)
    requires s == [] || Trimmed(s)
    ensures Strip(s) == s
  {
  }

  /** Stripping keeps every occurrence of a text that has no surrounding
      whitespace. */
  lemma {:induction false} StripContains(s: string, x: string)
    requires Contains(s, x) && Trimmed(x)
    ensures Contains(Strip(s), x)
    decreases |s|
  {
    var i :| 0 <= i <= |s| - |x| && OccursAt(s, x, i);
    assert s[i] == x[0] && s[i + |x| - 1] == x[|x| - 1];
    if IsSpace(s[0]) {
      assert i >= 1;
      assert s[1..][i - 1..i - 1 + |x|] == s[i..i + |x|];
      assert OccursAt(s[1..], x, i - 1);
      StripContains(s[1..], x);
    } else if IsSpace(s[|s| - 1]) {
      assert i + |x| <= |s| - 1;
      assert s[..|s| - 1][i..i + |x|] == s[i..i + |x|];
      assert OccursAt(s[..|s| - 1], x, i);
      StripContains(s[..|s| - 1], x);
    }
  }

  /** Stripping keeps a prefix that has no surrounding whitespace. */
  lemma {:induction false} StripStartsWith(s: string, p: string)
    requires StartsWith(s, p) && Trimmed(p)
    ensures StartsWith(Strip(s), p)
    decreases |s|
  {
    assert s[0] == p[0] && s[|p| - 1] == p[|p| - 1];
    if IsSpace(s[|s| - 1]) {
      assert |p| <= |s| - 1;
      assert s[..|s| - 1][..|p|] == s[..|p|];
      StripStartsWith(s[..|s| - 1], p);
    }
  }

  // ----------------------------------------------------------------------
  // Lines
  // ----------------------------------------------------------------------

  /** The position just past the first '\n' at or after `i`, or |s|. */
  function LineEnd(s: string, i: nat): (j: nat)
    requires i < |s|
    ensures i < j <= |s|
    ensures forall k :: i <= k < j - 1 ==> s[k] != '\n'
    ensures j < |s| ==> s[j - 1] == '\n'
    decreases |s| - i
  {
    if s[i] == '\n' || i + 1 == |s| then i + 1 else LineEnd(s, i + 1)
  }

  /** A line as `splitlines(True)` yields it: non-empty, '\n' only at its end. */
  predicate IsLine(l: string) {
    l != [] && forall k :: 0 <= k < |l| - 1 ==> l[k] != '\n'
  }

  predicate EndsWithNewline(l: string) { l != [] && l[|l| - 1] == '\n' }

  /** `str.splitlines(True)`, with '\n' as the only line break. */
  function Lines(s: string): seq<string>
    decreases |s|
  {
    if s == [] then [] else var j := LineEnd(s, 0); [s[..j]] + Lines(s[j..])
  }

  function Concat(ls: seq<string>): string {
    if ls == [] then [] else ls[0] + Concat(ls[1..])
  }

  lemma {:induction false} ConcatAppend(a: seq<string>, b: seq<string>)
    ensures Concat(a + b) == Concat(a) + Concat(b)
  {
    if a != [] {
      assert (a + b)[1..] == a[1..] + b;
      ConcatAppend(a[1..], b);
      assert (a + b)[0] == a[0];
      assert Concat(a + b) == a[0] + Concat(a[1..] + b);
      assert Concat(a) == a[0] + Concat(a[1..]);
    } else {
      assert a + b == b;
    }
  }

  /** The lines put back together give the text. */
  lemma {:induction false} LinesConcat(s: string)
    ensures Concat(Lines(s)) == s
    decreases |s|
  {
    if s != [] {
      var j := LineEnd(s, 0);
      LinesConcat(s[j..]);
      assert s[..j] + s[j..] == s;
    }
  }

  /** Every line is a line, and every line but the last ends with '\n'. */
  lemma {:induction false} LinesShape(s: string)
    ensures forall k :: 0 <= k < |Lines(s)| ==> IsLine(Lines(s)[k])
    ensures forall k :: 0 <= k < |Lines(s)| - 1 ==> EndsWithNewline(Lines(s)[k])
    decreases |s|
  {
    if s != [] {
      var j := LineEnd(s, 0);
      LinesShape(s[j..]);
      assert Lines(s) == [s[..j]] + Lines(s[j..]);
      if j < |s| {
        assert Lines(s[j..]) != [];
      }
    }
  }

  /** A text with no '\n' before its end is a single line. */
  lemma SingleLineLines(msg: string)
    requires IsLine(msg)
    ensures Lines(msg) == [msg]
  {
    var j := LineEnd(msg, 0);
    assert j == |msg|;
    assert msg[..j] == msg;
    assert msg[j..] == [];
    assert Lines(msg) == [msg[..j]] + Lines(msg[j..]);
  }

  /** The line without its '\n'. */
  function DropNewline(l: string): string {
    if EndsWithNewline(l) then l[..|l| - 1] else l
  }

  /** `str.splitlines()`, with '\n' as the only line break. */
  function SplitLines(s: string): seq<string> {
    var ls := Lines(s);
    seq(|ls|, k requires 0 <= k < |ls| => DropNewline(ls[k]))
  }

  /** `sep.join(parts)`. */
  function Join(parts: seq<string>, sep: string): string {
    if parts == [] then []
    else if |parts| == 1 then parts[0]
    else parts[0] + sep + Join(parts[1..], sep)
  }

  /** Every part shows up in the joined text. */
  lemma {:induction false} JoinContains(parts: seq<string>, sep: string, k: int)
    requires 0 <= k < |parts|
    ensures Contains(Join(parts, sep), parts[k])
    decreases |parts|
  {
    if |parts| == 1 {
      assert OccursAt(parts[0], parts[0], 0);
    } else if k == 0 {
      ContainsInfix([], parts[0], sep + Join(parts[1..], sep));
      assert [] + parts[0] + (sep + Join(parts[1..], sep)) == Join(parts, sep);
    } else {
      JoinContains(parts[1..], sep, k - 1);
      ContainsExtend(parts[0] + sep, Join(parts[1..], sep), [], parts[k]);
    }
  }

  /** A joined text starts with its first part. */
  lemma JoinStartsWith(parts: seq<string>, sep: string)
    requires parts != []
    ensures StartsWith(Join(parts, sep), parts[0])
  {
    if |parts| > 1 {
      assert (parts[0] + sep + Join(parts[1..], sep))[..|parts[0]|] == parts[0];
    }
  }

  // ----------------------------------------------------------------------
  // Numbers as text
  // ----------------------------------------------------------------------

  function DigitChar(d: nat): (c: char)
    requires d < 10
    ensures IsDigit(c)
  {
    ('0' as int + d) as char
  }

  /** Decimal digits of `n`, as `str(n)` writes them. */
  function NatToString(n: nat): (r: string)
    ensures |r| >= 1
    ensures forall k :: 0 <= k < |r| ==> IsDigit(r[k])
  {
    if n < 10 then [DigitChar(n)] else NatToString(n / 10) + [DigitChar(n % 10)]
  }

  /** `int(s)` for a string of decimal digits. */
  function DigitsValue(s: string): int
    decreases |s|
  {
    if s == [] then 0 else DigitsValue(s[..|s| - 1]) * 10 + (s[|s| - 1] as int - '0' as int)
  }

  /** `int(str(n)) == n`: the digits written are those of `n`. */
  lemma {:induction false} NatToStringValue(n: nat)
    ensures DigitsValue(NatToString(n)) == n
    decreases n
  {
    if n >= 10 {
      NatToStringValue(n / 10);
      var s := NatToString(n);
      assert s[..|s| - 1] == NatToString(n / 10);
    }
  }

  /** `str(i)` for an int. */
  function IntToString(i: int): string {
    if i < 0 then "-" + NatToString(-i) else NatToString(i)
  }

  // ----------------------------------------------------------------------
  // Ordering of strings, for sorted()
  // ----------------------------------------------------------------------

  /** Python's `<` on str: lexicographic by code point, a proper prefix first. */
  predicate StrLess(a: string, b: string)
    decreases |a|
  {
    if a == [] then b != []
    else if b == [] then false
    else if a[0] != b[0] then a[0] < b[0]
    else StrLess(a[1..], b[1..])
  }

  lemma {:induction false} StrLessIrreflexive(a: string)
    ensures !StrLess(a, a)
    decreases |a|
  {
    if a != [] { StrLessIrreflexive(a[1..]); }
  }

  lemma {:induction false} StrLessTransitive(a: string, b: string, c: string)
    requires StrLess(a, b) && StrLess(b, c)
    ensures StrLess(a, c)
    decreases |a|
  {
    if a != [] && b != [] && c != [] && a[0] == b[0] && b[0] == c[0] {
      StrLessTransitive(a[1..], b[1..], c[1..]);
    }
  }

  lemma {:induction false} StrLessTotal(a: string, b: string)
    requires a != b
    ensures StrLess(a, b) || StrLess(b, a)
    decreases |a|
  {
    if a != [] && b != [] && a[0] == b[0] {
      assert a == [a[0]] + a[1..] && b == [b[0]] + b[1..];
      StrLessTotal(a[1..], b[1..]);
    }
  }

  predicate StrictlySorted(s: seq<string>) {
    forall i, j :: 0 <= i < j < |s| ==> StrLess(s[i], s[j])
  }

  /** Every non-empty finite set of strings has a least element. */
  lemma {:induction false} LeastExists(s: set<string>)
    requires s != {}
    ensures exists m :: m in s && forall x :: x in s ==> !StrLess(x, m)
    decreases |s|
  {
    var y :| y in s;
    if s == {y} {
      StrLessIrreflexive(y);
      assert forall x :: x in s ==> !StrLess(x, y);
    } else {
      LeastExists(s - {y});
      var m :| m in s - {y} && forall x :: x in s - {y} ==> !StrLess(x, m);
      if StrLess(y, m) {
        forall x | x in s
          ensures !StrLess(x, y)
        {
          if x == y {
            StrLessIrreflexive(y);
          } else if StrLess(x, y) {
            StrLessTransitive(x, y, m);
          }
        }
        assert y in s && forall x :: x in s ==> !StrLess(x, y);
      } else {
        forall x | x in s
          ensures !StrLess(x, m)
        {
          if x != y {
            assert x in s - {y};
          }
        }
        assert m in s && forall x :: x in s ==> !StrLess(x, m);
      }
    }
  }

  /** A least element of a set is below every other element. */
  lemma LeastBelowRest(s: set<string>, m: string)
    requires m in s && forall x :: x in s ==> !StrLess(x, m)
    ensures forall y :: y in s - {m} ==> StrLess(m, y)
  {
    forall y | y in s - {m}
      ensures StrLess(m, y)
    {
      StrLessTotal(m, y);
    }
  }

  /** Putting a smaller element in front keeps a list strictly sorted. */
  lemma SortedCons(m: string, r: seq<string>)
    requires StrictlySorted(r) && forall x :: x in r ==> StrLess(m, x)
    ensures StrictlySorted([m] + r)
  {
    var s := [m] + r;
    forall i, j | 0 <= i < j < |s|
      ensures StrLess(s[i], s[j])
    {
      if i > 0 {
        assert s[i] == r[i - 1] && s[j] == r[j - 1];
      } else {
        assert s[j] in r;
      }
    }
  }

  /** The sorted list of a set of strings, as a specification: the least
      element, then the sorted rest. */
  ghost function SortedSet(s: set<string>): (r: seq<string>)
    ensures StrictlySorted(r)
    ensures forall x :: x in r <==> x in s
    decreases |s|
  {
    if s == {} then []
    else
      LeastExists(s);
      var m :| m in s && forall x :: x in s ==> !StrLess(x, m);
      LeastBelowRest(s, m);
      var rest := SortedSet(s - {m});
      SortedCons(m, rest);
      [m] + rest
  }

  /** Two strictly sorted lists with the same elements are equal: there is
      one sorted order. */
  lemma {:induction false} SortedUnique(a: seq<string>, b: seq<string>)
    requires StrictlySorted(a) && StrictlySorted(b)
    requires forall x :: x in a <==> x in b
    ensures a == b
    decreases |a|
  {
    assert b != [] ==> b[0] in a;
    if a != [] {
      assert a[0] in b;
      assert b[0] in a;
      if a[0] != b[0] {
        var i :| 0 <= i < |a| && a[i] == b[0];
        var j :| 0 <= j < |b| && b[j] == a[0];
        assert i > 0 && j > 0;
        assert StrLess(a[0], b[0]) && StrLess(b[0], a[0]);
        StrLessTransitive(a[0], b[0], a[0]);
        StrLessIrreflexive(a[0]);
      }
      var a', b' := a[1..], b[1..];
      forall x
        ensures x in a' <==> x in b'
      {
        if x in a' {
          var i :| 0 <= i < |a'| && a'[i] == x;
          assert StrLess(a[0], a[i + 1]);
          if x == a[0] { StrLessIrreflexive(x); }
          assert x in b && x != b[0];
        }
        if x in b' {
          var j :| 0 <= j < |b'| && b'[j] == x;
          assert StrLess(b[0], b[j + 1]);
          if x == b[0] { StrLessIrreflexive(x); }
          assert x in a && x != a[0];
        }
      }
      SortedUnique(a', b');
      assert a == [a[0]] + a' && b == [b[0]] + b';
    }
  }

  /** `sorted(ids)` for a set of strings: the ids in ascending order. */
  method SortedIds(ids: set<string>) returns (r: seq<string>)
    ensures StrictlySorted(r)
    ensures forall x :: x in r <==> x in ids
    ensures r == SortedSet(ids)
  {
    r := [];
    var rest := ids;
    while rest != {}
      invariant StrictlySorted(r)
      invariant forall x :: x in ids <==> x in r || x in rest
      invariant forall x, y :: x in r && y in rest ==> StrLess(x, y)
      decreases |rest|
    {
      LeastExists(rest);
      var m :| m in rest && forall x :: x in rest ==> !StrLess(x, m);
      forall y | y in rest - {m}
        ensures StrLess(m, y)
      {
        StrLessTotal(m, y);
      }
      r := r + [m];
      rest := rest - {m};
    }
    SortedUnique(r, SortedSet(ids));
  }
}
