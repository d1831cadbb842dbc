/** MARADMIN.py, the text extractor: the "is the RSS summary already the full
    message?" heuristic, the clean-up applied to extracted text, and the
    marker/slice rule of `extract_message_text`. The HTML-to-text step
    (BeautifulSoup's `get_text`) is outside the model: the functions here start
    from the text it returns. */
module MaradminExtract {
  import opened Wrappers
  import opened Text

  // ----------------------------------------------------------------------
  // looks_like_full_message
  // ----------------------------------------------------------------------

  /** `looks_like_full_message`: the lower-cased text is non-empty and holds
      "maradmin", "msgid/genadmin" or "r ". */
  predicate LooksLikeFullMessage(text: string) {
    var t := Lower(text);
    t != [] && (Contains(t, "maradmin") || Contains(t, "msgid/genadmin") || Contains(t, "r "))
  }

  /** The "r " test makes the heuristic accept ordinary prose: any text with a
      word ending in r (either case) followed by a space counts as a full
      message, whether or not it is one. */
  lemma AnyRSpaceLooksFull(text: string, i: int)
    requires 0 <= i && i + 1 < |text| && LowerChar(text[i]) == 'r' && text[i + 1] == ' '
    ensures LooksLikeFullMessage(text)
  {
    var t := Lower(text);
    assert t[i..i + 2] == "r ";
    assert OccursAt(t, "r ", i);
  }

  /** For instance a bare headline with no message text in it. */
  lemma HeadlineLooksFull()
    ensures LooksLikeFullMessage("Your order")
  {
    AnyRSpaceLooksFull("Your order", 3);
  }

  /** An empty summary is never taken for the full message. */
  lemma EmptyNeverLooksFull()
    ensures !LooksLikeFullMessage("")
  {
  }

  // ----------------------------------------------------------------------
  // Clean-up shared by clean_rss_summary and extract_message_text
  // ----------------------------------------------------------------------

  /** The end of the run of '\n' that starts at `i`. */
  function NewlineRunEnd(s: string, i: nat): (j: nat)
    requires i <= |s|
    ensures i <= j <= |s|
    ensures forall k :: i <= k < j ==> s[k] == '\n'
    ensures j < |s| ==> s[j] != '\n'
    decreases |s| - i
  {
    if i < |s| && s[i] == '\n' then NewlineRunEnd(s, i + 1) else i
  }

  /** `re.sub(r"\n{3,}", "\n\n", s)`: every run of three or more '\n' becomes two. */
  function CollapseNewlines(s: string): (r: string)
    ensures r == [] ==> s == []
    ensures s != [] && s[0] != '\n' ==> r != [] && r[0] == s[0]
    decreases |s|
  {
    if s == [] then []
    else if s[0] != '\n' then [s[0]] + CollapseNewlines(s[1..])
    else
      var j := NewlineRunEnd(s, 0);
      (if j >= 3 then "\n\n" else s[..j]) + CollapseNewlines(s[j..])
  }

  /** `s` with every '\n' taken out. */
  function WithoutNewlines(s: string): string
    decreases |s|
  {
    if s == [] then [] else (if s[0] == '\n' then [] else [s[0]]) + WithoutNewlines(s[1..])
  }

  lemma {:induction false} WithoutNewlinesConcat(a: string, b: string)
    ensures WithoutNewlines(a + b) == WithoutNewlines(a) + WithoutNewlines(b)
    decreases |a|
  {
    if a == [] {
      assert a + b == b;
    } else {
      assert (a + b)[1..] == a[1..] + b;
      WithoutNewlinesConcat(a[1..], b);
    }
  }

  /** `k` newlines in a row. */
  function Newlines(k: nat): (r: string)
    ensures |r| == k && forall i :: 0 <= i < k ==> r[i] == '\n'
  {
    seq(k, _ => '\n')
  }

  lemma {:induction false} WithoutNewlinesRun(s: string)
    requires forall i :: 0 <= i < |s| ==> s[i] == '\n'
    ensures WithoutNewlines(s) == []
    decreases |s|
  {
    if s != [] {
      WithoutNewlinesRun(s[1..]);
    }
  }

  /** A run of '\n' from `i` up to a character that is not one ends there. */
  lemma {:induction false} NewlineRunEndAt(s: string, i: nat, j: nat)
    requires i <= j <= |s|
    requires forall k :: i <= k < j ==> s[k] == '\n'
    requires j == |s| || s[j] != '\n'
    ensures NewlineRunEnd(s, i) == j
    decreases j - i
  {
    if i < j {
      NewlineRunEndAt(s, i + 1, j);
    }
  }

  /** Collapsing splits at a boundary that is not inside a run of '\n'. */
  lemma {:induction false} CollapseConcat(x: string, y: string)
    requires x == [] || y == [] || x[|x| - 1] != '\n' || y[0] != '\n'
    ensures CollapseNewlines(x + y) == CollapseNewlines(x) + CollapseNewlines(y)
    decreases |x|
  {
    if x == [] {
      assert x + y == y;
    } else if y == [] {
      assert x + y == x;
    } else if x[0] != '\n' {
      assert (x + y)[1..] == x[1..] + y;
      CollapseConcat(x[1..], y);
    } else {
      var j := NewlineRunEnd(x, 0);
      NewlineRunEndAt(x + y, 0, j);
      assert (x + y)[..j] == x[..j];
      assert (x + y)[j..] == x[j..] + y;
      CollapseConcat(x[j..], y);
    }
  }

  /** The characters other than '\n' all survive, in order. */
  lemma {:induction false} CollapseKeepsText(s: string)
    ensures WithoutNewlines(CollapseNewlines(s)) == WithoutNewlines(s)
    decreases |s|
  {
    if s != [] {
      if s[0] != '\n' {
        CollapseKeepsText(s[1..]);
        WithoutNewlinesConcat([s[0]], CollapseNewlines(s[1..]));
      } else {
        var j := NewlineRunEnd(s, 0);
        var head := if j >= 3 then "\n\n" else s[..j];
        CollapseKeepsText(s[j..]);
        WithoutNewlinesConcat(head, CollapseNewlines(s[j..]));
        WithoutNewlinesRun(head);
        assert s == s[..j] + s[j..];
        WithoutNewlinesConcat(s[..j], s[j..]);
        WithoutNewlinesRun(s[..j]);
      }
    }
  }

  /** A run of `k` newlines between text becomes two when `k` is three or
      more and is kept as it is otherwise; the text on both sides is
      collapsed on its own. */
  lemma CollapseRun(a: string, k: nat, b: string)
    requires a == [] || a[|a| - 1] != '\n'
    requires b == [] || b[0] != '\n'
    ensures CollapseNewlines(a + Newlines(k) + b) ==
      CollapseNewlines(a) + (if k >= 3 then "\n\n" else Newlines(k)) + CollapseNewlines(b)
  {
    var t := Newlines(k) + b;
    var head := if k >= 3 then "\n\n" else Newlines(k);
    assert a + Newlines(k) + b == a + t;
    CollapseConcat(a, t);
    if k == 0 {
      assert t == b;
      assert head == [];
    } else {
      NewlineRunEndAt(t, 0, k);
      assert t[..k] == Newlines(k);
      assert t[k..] == b;
    }
    var ca, cb := CollapseNewlines(a), CollapseNewlines(b);
    assert CollapseNewlines(t) == head + cb;
    assert CollapseNewlines(a + Newlines(k) + b) == ca + (head + cb);
    AppendAssoc(ca, head, cb);
  }

  /** No three '\n' stand in a row. */
  predicate NoTripleNewline(s: string) {
    forall k :: 0 <= k < |s| - 2 ==> !(s[k] == '\n' && s[k + 1] == '\n' && s[k + 2] == '\n')
  }

  /** Putting at most two characters in front of a text without a triple
      makes none, when the text does not start with '\n' or the front is one
      other character. */
  lemma NoTripleAfterShortHead(head: string, t: string)
    requires NoTripleNewline(t)
    requires (|head| <= 2 && (t == [] || t[0] != '\n')) || (|head| == 1 && head[0] != '\n')
    ensures NoTripleNewline(head + t)
  {
    var r := head + t;
    forall k | 0 <= k < |r| - 2
      ensures !(r[k] == '\n' && r[k + 1] == '\n' && r[k + 2] == '\n')
    {
      if k >= |head| {
        assert r[k] == t[k - |head|] && r[k + 1] == t[k + 1 - |head|] && r[k + 2] == t[k + 2 - |head|];
      } else if |head| == 1 && head[0] != '\n' {
        assert r[0] == head[0];
      } else {
        assert r[|head|] == t[0];
      }
    }
  }

  /** Text without three '\n' in a row comes out unchanged: runs of one or
      two newlines are kept. */
  lemma {:induction false} CollapseKeepsShortRuns(s: string)
    requires NoTripleNewline(s)
    ensures CollapseNewlines(s) == s
    decreases |s|
  {
    if s != [] {
      if s[0] != '\n' {
        assert NoTripleNewline(s[1..]) by {
          forall k | 0 <= k < |s[1..]| - 2
            ensures !(s[1..][k] == '\n' && s[1..][k + 1] == '\n' && s[1..][k + 2] == '\n')
          {
            assert !(s[k + 1] == '\n' && s[k + 2] == '\n' && s[k + 3] == '\n');
          }
        }
        CollapseKeepsShortRuns(s[1..]);
      } else {
        var j := NewlineRunEnd(s, 0);
        assert j < 3 by {
          assert |s| >= 3 ==> !(s[0] == '\n' && s[1] == '\n' && s[2] == '\n');
        }
        assert NoTripleNewline(s[j..]) by {
          forall k | 0 <= k < |s[j..]| - 2
            ensures !(s[j..][k] == '\n' && s[j..][k + 1] == '\n' && s[j..][k + 2] == '\n')
          {
            assert !(s[k + j] == '\n' && s[k + j + 1] == '\n' && s[k + j + 2] == '\n');
          }
        }
        CollapseKeepsShortRuns(s[j..]);
        assert s == s[..j] + s[j..];
      }
    }
  }

  /** After collapsing, no three '\n' stand in a row. */
  lemma {:induction false} CollapseNewlinesNoTriple(s: string)
    ensures NoTripleNewline(CollapseNewlines(s))
    decreases |s|
  {
    if s != [] {
      if s[0] != '\n' {
        CollapseNewlinesNoTriple(s[1..]);
        assert CollapseNewlines(s) == [s[0]] + CollapseNewlines(s[1..]);
        NoTripleAfterShortHead([s[0]], CollapseNewlines(s[1..]));
      } else {
        var j := NewlineRunEnd(s, 0);
        CollapseNewlinesNoTriple(s[j..]);
        var head := if j >= 3 then "\n\n" else s[..j];
        assert CollapseNewlines(s) == head + CollapseNewlines(s[j..]);
        NoTripleAfterShortHead(head, CollapseNewlines(s[j..]));
      }
    }
  }

  /** The text both cleaners hand on: newline runs collapsed, then stripped. */
  function CleanText(visible: string): string {
    Strip(CollapseNewlines(visible))
  }

  /** `clean_rss_summary`: empty for an empty summary, else the cleaned text
      of what the HTML parser extracted (`visible`). */
  function CleanRssSummary(summaryHtml: string, visible: string): (r: string)
    ensures summaryHtml == [] ==> r == []
  {
    if summaryHtml == [] then [] else CleanText(visible)
  }

  // ----------------------------------------------------------------------
  // The three marker patterns of extract_message_text
  // ----------------------------------------------------------------------

  /** The lower-case word `w` occurs at `i`, ignoring case. */
  predicate WordAt(s: string, w: string, i: int) {
    0 <= i && i + |w| <= |s| && Lower(s[i..i + |w|]) == w
  }

  function SkipDigits(s: string, i: nat): (j: nat)
    requires i <= |s|
    ensures i <= j <= |s|
    ensures forall k :: i <= k < j ==> IsDigit(s[k])
    ensures j < |s| ==> !IsDigit(s[j])
    decreases |s| - i
  {
    if i < |s| && IsDigit(s[i]) then SkipDigits(s, i + 1) else i
  }

  /** `\d+/\d+\b` from `i`. Greedy digit runs lose nothing here: giving a
      digit back leaves a digit where '/' or the boundary is needed. */
  predicate NumberSlashNumberAt(s: string, i: nat)
    requires i <= |s|
  {
    var a := SkipDigits(s, i);
    a > i && a < |s| && s[a] == '/' &&
    var b := SkipDigits(s, a + 1);
    b > a + 1 && BoundaryAfter(s, b)
  }

  /** `\bMARADMINS?\s*:\s*\d+/\d+\b`, ignoring case, matches at `i`. */
  predicate ColonMarkerAt(s: string, i: int) {
    WordAt(s, "maradmin", i) && BoundaryBefore(s, i) &&
    var j := if i + 8 < |s| && LowerChar(s[i + 8]) == 's' then i + 9 else i + 8;
    var k := SkipSpaces(s, j);
    k < |s| && s[k] == ':' && NumberSlashNumberAt(s, SkipSpaces(s, k + 1))
  }

  /** `\bMARADMIN\s+\d+/\d+\b`, ignoring case, matches at `i`. */
  predicate SpacedMarkerAt(s: string, i: int) {
    WordAt(s, "maradmin", i) && BoundaryBefore(s, i) &&
    var k := SkipSpaces(s, i + 8);
    k > i + 8 && NumberSlashNumberAt(s, k)
  }

  /** `\bMSGID/GENADMIN\b`, ignoring case, matches at `i`. */
  predicate GenadminMarkerAt(s: string, i: int) {
    WordAt(s, "msgid/genadmin", i) && BoundaryBefore(s, i) && BoundaryAfter(s, i + 14)
  }

  /** Marker pattern number `p` (0, 1, 2 in the source's list order) matches at `i`. */
  predicate MarkerAt(p: int, s: string, i: int) {
    if p == 0 then ColonMarkerAt(s, i)
    else if p == 1 then SpacedMarkerAt(s, i)
    else p == 2 && GenadminMarkerAt(s, i)
  }

  /** `re.search` for marker `p` from position `from`: the leftmost match. */
  function FindMarker(p: int, s: string, from: nat): (r: Option<nat>)
    requires from <= |s|
    ensures r.Some? ==> from <= r.value < |s| && MarkerAt(p, s, r.value)
    ensures r.Some? ==> forall j :: from <= j < r.value ==> !MarkerAt(p, s, j)
    ensures r.None? ==> forall j :: from <= j < |s| ==> !MarkerAt(p, s, j)
    decreases |s| - from
  {
    if from == |s| then None
    else if MarkerAt(p, s, from) then Some(from)
    else FindMarker(p, s, from + 1)
  }

  /** Position `i` is where `extract_message_text` starts: pattern `p` matches
      there and nowhere earlier, and no pattern before `p` matches anywhere. */
  predicate IsChosenMarker(s: string, p: int, i: int) {
    0 <= p < 3 && MarkerAt(p, s, i) &&
    (forall j :: 0 <= j < i ==> !MarkerAt(p, s, j)) &&
    (forall q, j :: 0 <= q < p && 0 <= j < |s| ==> !MarkerAt(q, s, j))
  }

  const NoMarkerPrefix: int := 12000
  const MarkerWindow: int := 20000

  /** The chosen marker as (pattern, start): the leftmost match of the
      first pattern, from number `p` on, that matches anywhere. */
  function ChosenStart(t: string, p: nat): (r: Option<(nat, nat)>)
    ensures r.Some? ==> IsChosenMarkerFrom(t, p, r.value.0, r.value.1)
    ensures r.None? ==> forall q, i :: p <= q < 3 && 0 <= i < |t| ==> !MarkerAt(q, t, i)
    decreases 3 - p
  {
    if p >= 3 then None
    else match FindMarker(p, t, 0)
      case Some(i) => Some((p, i))
      case None => ChosenStart(t, p + 1)
  }

  /** Like IsChosenMarker, counting only the patterns from number `p` on. */
  predicate IsChosenMarkerFrom(s: string, p: int, q: int, i: int) {
    p <= q < 3 && MarkerAt(q, s, i) &&
    (forall j :: 0 <= j < i ==> !MarkerAt(q, s, j)) &&
    (forall r, j :: p <= r < q && 0 <= j < |s| ==> !MarkerAt(r, s, j))
  }

  /** What `extract_message_text` returns for the text `get_text` gave. */
  function MessageText(visible: string): string {
    var t := CleanText(visible);
    match ChosenStart(t, 0)
    case None => t[..Min(NoMarkerPrefix, |t|)]
    case Some((_, i)) => Strip(t[i..Min(i + MarkerWindow, |t|)])
  }

  /** The marker/slice rule: with no marker the text's first 12000
      characters; otherwise the stripped window of 20000 characters from the
      chosen marker; never more than 20000 characters. */
  lemma MessageTextSlice(visible: string)
    ensures var t := CleanText(visible);
      (forall p, i :: 0 <= p < 3 && 0 <= i < |t| ==> !MarkerAt(p, t, i)) ==>
        MessageText(visible) == t[..Min(NoMarkerPrefix, |t|)]
    ensures var t := CleanText(visible);
      forall p, i :: IsChosenMarker(t, p, i) ==> MessageText(visible) == Strip(t[i..Min(i + MarkerWindow, |t|)])
    ensures |MessageText(visible)| <= MarkerWindow
  {
    var t := CleanText(visible);
    var c := ChosenStart(t, 0);
    if c.Some? {
      var (pat, i) := c.value;
      assert IsChosenMarker(t, pat, i);
      forall q, j | IsChosenMarker(t, q, j)
        ensures q == pat && j == i
      {
        ChosenMarkerUnique(t, pat, i, q, j);
      }
    }
  }

  /** A marker match lies inside the text. */
  lemma MarkerInside(p: int, s: string, i: int)
    requires MarkerAt(p, s, i)
    ensures 0 <= i < |s|
  {
  }

  /** There is at most one chosen marker. */
  lemma ChosenMarkerUnique(s: string, p: int, i: int, q: int, j: int)
    requires IsChosenMarker(s, p, i) && IsChosenMarker(s, q, j)
    ensures p == q && i == j
  {
    MarkerInside(p, s, i);
    MarkerInside(q, s, j);
  }

  /** `extract_message_text`, from the text `get_text` returned: the text is
      cleaned, then the patterns are tried in list order. */
  method ExtractMessageText(visible: string) returns (r: string)
    ensures r == MessageText(visible)
  {
    var text := CleanText(visible);
    var start: Option<nat> := None;
    var p := 0;
    while p < 3
      invariant 0 <= p <= 3
      invariant start.None?
      invariant ChosenStart(text, p) == ChosenStart(text, 0)
    {
      var m := FindMarker(p, text, 0);
      if m.Some? {
        start := m;
        break;
      }
      p := p + 1;
    }
    if start.None? {
      return text[..Min(NoMarkerPrefix, |text|)];
    }
    var i := start.value;
    r := Strip(text[i..Min(i + MarkerWindow, |text|)]);
  }
}
