/** MARADMIN.py, classification and mode selection: the keyword lists, the
    MOS-code relevance signal, the first-match-wins category rules and the
    (mode, bullet budget) table. */
module MaradminClassify {
  import opened Text

  // ----------------------------------------------------------------------
  // contains_any and the keyword lists
  // ----------------------------------------------------------------------

  /** `contains_any`: some phrase, lower-cased, occurs in the lower-cased text. */
  predicate ContainsAny(text: string, phrases: seq<string>) {
    exists k :: 0 <= k < |phrases| && ContainsFolded(text, phrases[k])
  }

  /** `p.lower() in text.lower()`. */
  predicate ContainsFolded(text: string, p: string) {
    Contains(Lower(text), Lower(p))
  }

  /** Lower-casing the text first changes nothing, as `classify_maradmin` does. */
  lemma ContainsAnyLowered(text: string, phrases: seq<string>)
    ensures ContainsAny(Lower(text), phrases) == ContainsAny(text, phrases)
  {
    LowerIdempotent(text);
  }

  const PriorityTopics: seq<string> := [
    "artificial intelligence", "ai", "machine learning", "ml", "llm", "data science", "data engineering",
    "cyberspace", "cyber", "cybersecurity", "zero trust", "rmf", "ato", "dodin", "uscybercom", "marforcyber",
    "jfhq-dodin", "cmf", "oco", "dco",
    "space", "satcom", "pnt",
    "innovation", "experimentation", "pilot", "modernization", "software factory"
  ]

  const KwPromotionList: seq<string> := [
    "officer promotions", "enlisted promotions", "promotion authority", "selected for promotion",
    "promotion selection", "promotion list", "approved for promotion", "to the grade of", "promotions for"
  ]

  const KwResults: seq<string> := [
    "results", "selection list", "selected list", "board results", "approved selection"
  ]

  const KwBoardSchedule: seq<string> := [
    "promotion selection boards", "selection boards", "board will convene", "convening date",
    "board correspondence", "selection board", "board schedule", "projected"
  ]

  // ----------------------------------------------------------------------
  // MOS codes: MOS_RE = \b(1[0-9]{3})\b, and mos_relevance
  // ----------------------------------------------------------------------

  /** MOS_RE matches at `i`: a '1', three digits, a word boundary on each side. */
  predicate MosAt(s: string, i: int) {
    0 <= i && i + 4 <= |s| && s[i] == '1' && IsDigit(s[i + 1]) && IsDigit(s[i + 2]) && IsDigit(s[i + 3]) &&
    BoundaryBefore(s, i) && BoundaryAfter(s, i + 4)
  }

  /** Two matches of MOS_RE never overlap, so `findall` reports every position
      where the pattern matches. */
  lemma MosMatchesDisjoint(s: string, i: int, j: int)
    requires MosAt(s, i) && MosAt(s, j) && i < j
    ensures i + 4 <= j
  {
    if j < i + 4 {
      assert IsWordChar(s[j - 1]);
    }
  }

  /** `extract_mos_codes`: the set of matched codes, exactly the texts of the
      matches of MOS_RE. */
  function ExtractMosCodes(text: string): (codes: set<string>)
    ensures forall c :: c in codes ==> |c| == 4 && c[0] == '1' && IsDigit(c[1]) && IsDigit(c[2]) && IsDigit(c[3])
    ensures forall i :: MosAt(text, i) ==> text[i..i + 4] in codes
    ensures forall c :: c in codes <==> exists i :: MosAt(text, i) && text[i..i + 4] == c
  {
    set i | 0 <= i <= |text| - 4 && MosAt(text, i) :: text[i..i + 4]
  }

  /** HIGH_MOS, listed in sorted order. */
  const HighMosList: seq<string> := ["1701", "1702", "1710", "1720", "1721"]

  lemma HighMosListSorted()
    ensures StrictlySorted(HighMosList)
    ensures forall x :: x in HighMosList ==> |x| == 4 && x[..2] == "17"
  {
    var s := HighMosList;
    assert StrLess(s[0], s[1]) && StrLess(s[1], s[2]) && StrLess(s[2], s[3]) && StrLess(s[3], s[4]);
    assert StrLess(s[0], s[2]) && StrLess(s[0], s[3]) && StrLess(s[0], s[4]);
    assert StrLess(s[1], s[3]) && StrLess(s[1], s[4]) && StrLess(s[2], s[4]);
  }

  /** The elements of `xs` that are in `codes`, in the order of `xs`. */
  function FilterIn(xs: seq<string>, codes: set<string>): (r: seq<string>)
    ensures forall x :: x in r <==> x in xs && x in codes
    decreases |xs|
  {
    if xs == [] then []
    else if xs[0] in codes then [xs[0]] + FilterIn(xs[1..], codes)
    else FilterIn(xs[1..], codes)
  }

  /** Filtering a strictly sorted list keeps it strictly sorted. */
  lemma {:induction false} FilterInSorted(xs: seq<string>, codes: set<string>)
    requires StrictlySorted(xs)
    ensures StrictlySorted(FilterIn(xs, codes))
    decreases |xs|
  {
    if xs != [] {
      var rest := FilterIn(xs[1..], codes);
      assert StrictlySorted(xs[1..]);
      FilterInSorted(xs[1..], codes);
      if xs[0] in codes {
        forall y | y in rest
          ensures StrLess(xs[0], y)
        {
          var j :| 0 <= j < |xs[1..]| && xs[1..][j] == y;
          assert xs[j + 1] == y;
        }
        var r := [xs[0]] + rest;
        forall i, j | 0 <= i < j < |r|
          ensures StrLess(r[i], r[j])
        {
          if i == 0 {
            assert r[j] == rest[j - 1] && r[j] in rest;
          } else {
            assert r[i] == rest[i - 1] && r[j] == rest[j - 1];
          }
        }
      }
    }
  }

  /** `high_hits`: sorted(mos ∩ HIGH_MOS). */
  function HighHits(text: string): (hits: seq<string>)
    ensures StrictlySorted(hits)
    ensures forall x :: x in hits <==> x in ExtractMosCodes(text) && x in HighMosList
  {
    HighMosListSorted();
    FilterInSorted(HighMosList, ExtractMosCodes(text));
    FilterIn(HighMosList, ExtractMosCodes(text))
  }

  /** Some extracted code starts with "17" (`any_17xx`). */
  predicate MosRelevant(text: string) {
    exists c :: c in ExtractMosCodes(text) && c[..2] == "17"
  }

  /** `mos_relevance`: `(bool(high_hits) or any_17xx, high_hits)`. The
      high-MOS hits add nothing to the boolean, since every HIGH_MOS code
      starts with "17": it is true iff some extracted code does. */
  function MosRelevance(text: string): (r: (bool, seq<string>))
    ensures r.0 <==> MosRelevant(text)
    ensures StrictlySorted(r.1)
    ensures forall x :: x in r.1 <==> x in ExtractMosCodes(text) && x in HighMosList
  {
    var hits := HighHits(text);
    if hits != [] then
      HighHitsAre17xx(text);
      (true, hits)
    else
      (MosRelevant(text), hits)
  }

  /** Every high-MOS hit is itself a "17" code. */
  lemma HighHitsAre17xx(text: string)
    requires HighHits(text) != []
    ensures MosRelevant(text)
  {
    HighMosListSorted();
    var x := HighHits(text)[0];
    assert x in HighHits(text);
    assert x in ExtractMosCodes(text) && x[..2] == "17";
  }

  /** A match of MOS_RE whose second digit is 7 makes the text relevant. */
  lemma MosAt17Relevant(text: string, i: int)
    requires MosAt(text, i) && text[i + 1] == '7'
    ensures MosRelevant(text)
  {
    var c := text[i..i + 4];
    assert c in ExtractMosCodes(text);
    assert c[..2] == "17";
  }

  /** Conversely, the text is relevant only through a match of MOS_RE whose
      second digit is 7. */
  lemma RelevantHasMos17(text: string)
    requires MosRelevant(text)
    ensures exists i :: MosAt(text, i) && text[i + 1] == '7'
  {
    var c :| c in ExtractMosCodes(text) && c[..2] == "17";
    var i :| MosAt(text, i) && text[i..i + 4] == c;
    assert text[i + 1] == c[1] == c[..2][1];
  }

  // ----------------------------------------------------------------------
  // classify_maradmin
  // ----------------------------------------------------------------------

  datatype Category = PromotionListReadAsap | BoardDatesOneLiner | ResultsBrief | General

  /** The tests the rules are made of, on `f"{title}\n{body}".lower()`. */
  datatype Signals = Signals(promotionKw: bool, resultsKw: bool, promot: bool, scheduleKw: bool, boardOrSelection: bool)

  function ClassifyText(title: string, body: string): string {
    Lower(title + "\n" + body)
  }

  function SignalsOf(title: string, body: string): Signals {
    var text := ClassifyText(title, body);
    Signals(ContainsAny(text, KwPromotionList), ContainsAny(text, KwResults), Contains(text, "promot"),
            ContainsAny(text, KwBoardSchedule), Contains(text, "board") || Contains(text, "selection"))
  }

  /** The guard of each category's rule; GENERAL is the catch-all. */
  predicate Fires(c: Category, s: Signals) {
    match c
    case PromotionListReadAsap => s.promotionKw && (s.resultsKw || s.promot)
    case BoardDatesOneLiner => s.scheduleKw && s.boardOrSelection
    case ResultsBrief => s.resultsKw
    case General => true
  }

  /** The rules in the order they are tried. */
  const RuleOrder: seq<Category> := [PromotionListReadAsap, BoardDatesOneLiner, ResultsBrief, General]

  function Rank(c: Category): (k: nat)
    ensures k < |RuleOrder| && RuleOrder[k] == c
  {
    match c
    case PromotionListReadAsap => 0
    case BoardDatesOneLiner => 1
    case ResultsBrief => 2
    case General => 3
  }

  /** `classify_maradmin`: the first rule in RuleOrder whose guard holds. */
  function Classify(title: string, body: string): (c: Category)
    ensures Fires(c, SignalsOf(title, body))
    ensures forall k :: 0 <= k < Rank(c) ==> !Fires(RuleOrder[k], SignalsOf(title, body))
  {
    var text := ClassifyText(title, body);
    if ContainsAny(text, KwPromotionList) && (ContainsAny(text, KwResults) || Contains(text, "promot")) then
      PromotionListReadAsap
    else if ContainsAny(text, KwBoardSchedule) && (Contains(text, "board") || Contains(text, "selection")) then
      BoardDatesOneLiner
    else if ContainsAny(text, KwResults) then
      ResultsBrief
    else
      General
  }

  /** The text the rules test is already lower-case. */
  lemma ClassifyTextLowered(title: string, body: string)
    ensures Lower(ClassifyText(title, body)) == ClassifyText(title, body)
  {
    LowerIdempotent(title + "\n" + body);
  }

  /** The words the rules look for are lower-case already. */
  lemma RuleWordsLowered()
    ensures Lower("promot") == "promot" && Lower("board") == "board" && Lower("selection") == "selection"
  {
  }

  /** Every promotion keyword but "to the grade of" contains "promot". */
  lemma PromotionKeywordHasPromot(k: int)
    requires 0 <= k < |KwPromotionList| && k != 7
    ensures Contains(KwPromotionList[k], "promot")
  {
    var kw := KwPromotionList[k];
    if k == 0 { assert OccursAt(kw, "promot", 8); }
    else if k == 1 { assert OccursAt(kw, "promot", 9); }
    else if k == 2 || k == 4 || k == 5 { assert OccursAt(kw, "promot", 0); }
    else if k == 3 || k == 6 { assert OccursAt(kw, "promot", 13); }
    else { assert OccursAt(kw, "promot", 0); }
  }

  /** So for those keywords the second half of the promotion rule is
      automatic. */
  lemma PromotionKeywordSuffices(title: string, body: string, k: int)
    requires 0 <= k < |KwPromotionList| && k != 7
    requires Contains(ClassifyText(title, body), KwPromotionList[k])
    ensures Classify(title, body) == PromotionListReadAsap
  {
    var text := ClassifyText(title, body);
    PromotionKeywordHasPromot(k);
    ClassifyTextLowered(title, body);
    LowerContains(text, KwPromotionList[k]);
    assert ContainsFolded(text, KwPromotionList[k]);
    assert Contains(text, "promot") by {
      LowerContains(KwPromotionList[k], "promot");
      RuleWordsLowered();
      ContainsTrans(text, Lower(KwPromotionList[k]), "promot");
    }
    assert SignalsOf(title, body).promotionKw && SignalsOf(title, body).promot;
  }

  /** Every schedule keyword but "convening date" and "projected" contains
      "board" or "selection". */
  lemma ScheduleKeywordHasBoardOrSelection(k: int)
    requires 0 <= k < |KwBoardSchedule| && k != 3 && k != 7
    ensures Contains(KwBoardSchedule[k], "board") || Contains(KwBoardSchedule[k], "selection")
  {
    var kw := KwBoardSchedule[k];
    if k == 0 {
      assert OccursAt(kw, "selection", 10);
    } else if k == 1 || k == 5 {
      assert OccursAt(kw, "selection", 0);
    } else {
      assert OccursAt(kw, "board", 0);
    }
  }

  /** So such a keyword puts the item in one of the first two categories. */
  lemma ScheduleKeywordSuffices(title: string, body: string, k: int)
    requires 0 <= k < |KwBoardSchedule| && k != 3 && k != 7
    requires Contains(ClassifyText(title, body), KwBoardSchedule[k])
    ensures Classify(title, body) in {PromotionListReadAsap, BoardDatesOneLiner}
  {
    var text := ClassifyText(title, body);
    var kw := KwBoardSchedule[k];
    ScheduleKeywordHasBoardOrSelection(k);
    ClassifyTextLowered(title, body);
    LowerContains(text, kw);
    assert ContainsFolded(text, KwBoardSchedule[k]);
    assert Contains(text, "board") || Contains(text, "selection") by {
      if Contains(kw, "selection") {
        LowerContains(kw, "selection");
        RuleWordsLowered();
        ContainsTrans(text, Lower(kw), "selection");
      } else {
        LowerContains(kw, "board");
        RuleWordsLowered();
        ContainsTrans(text, Lower(kw), "board");
      }
    }
    assert SignalsOf(title, body).scheduleKw && SignalsOf(title, body).boardOrSelection;
  }

  /** A results keyword always lifts an item out of GENERAL. */
  lemma ResultsNeverGeneral(title: string, body: string)
    requires ContainsAny(ClassifyText(title, body), KwResults)
    ensures Classify(title, body) != General
  {
  }

  /** Classification ignores case. */
  lemma ClassifyIgnoresCase(title: string, body: string)
    ensures Classify(Lower(title), Lower(body)) == Classify(title, body)
  {
    var a, b := title + "\n" + body, Lower(title) + "\n" + Lower(body);
    assert Lower(a) == b by {
      assert |Lower(a)| == |b|;
      forall i | 0 <= i < |b|
        ensures Lower(a)[i] == b[i]
      {
        if i < |title| {
        } else if i == |title| {
        } else {
          assert a[i] == body[i - |title| - 1];
        }
      }
    }
    assert Lower(b) == Lower(Lower(a));
    LowerIdempotent(a);
  }

  // ----------------------------------------------------------------------
  // choose_summary_mode
  // ----------------------------------------------------------------------

  datatype Mode = ReadAsap | DatesOnly | BriefResults | Full17xx | FyiNot17xx | Minimal

  /** What `choose_summary_mode` returns: a mode and a bullet budget. */
  datatype Decision = Decision(mode: Mode, bullets: int)

  /** The bullet budget of each mode in the source's table. */
  function Budget(m: Mode): int {
    match m
    case ReadAsap => 3
    case DatesOnly => 14
    case BriefResults => 2
    case Full17xx => 6
    case FyiNot17xx => 3
    case Minimal => 1
  }

  /** The mode fixed by each non-GENERAL category. */
  function CategoryMode(c: Category): Mode
    requires c != General
  {
    match c
    case PromotionListReadAsap => ReadAsap
    case BoardDatesOneLiner => DatesOnly
    case ResultsBrief => BriefResults
  }

  /** The table of `choose_summary_mode`, given the category and the two
      relevance signals. The budget is the mode's entry in the table and is
      at least 1; a non-GENERAL category fixes the mode whatever the signals;
      for GENERAL the mode is full_17xx exactly when the MOS signal holds,
      fyi_not_17xx exactly when only the topic signal holds, and minimal when
      neither does. */
  function ModeTable(category: Category, is17xx: bool, isPriorityTopic: bool): (d: Decision)
    ensures d.bullets == Budget(d.mode) && d.bullets >= 1
    ensures category != General ==> d.mode == CategoryMode(category)
    ensures category == General ==>
              (d.mode == Full17xx <==> is17xx) &&
              (d.mode == FyiNot17xx <==> !is17xx && isPriorityTopic) &&
              (d.mode == Minimal <==> !is17xx && !isPriorityTopic)
  {
    if category == PromotionListReadAsap then Decision(ReadAsap, 3)
    else if category == BoardDatesOneLiner then Decision(DatesOnly, 14)
    else if category == ResultsBrief then Decision(BriefResults, 2)
    else if is17xx then Decision(Full17xx, 6)
    else if isPriorityTopic then Decision(FyiNot17xx, 3)
    else Decision(Minimal, 1)
  }

  /** `choose_summary_mode`: the signals are computed on
      `f"{title}\n{body}"` (`is_17xx` is the boolean of `mos_relevance`,
      which MosRelevance shows equals MosRelevant) and looked up in the
      table. */
  function ChooseSummaryMode(category: Category, title: string, body: string): (d: Decision)
    ensures d.bullets == Budget(d.mode) && d.bullets >= 1
    ensures category != General ==> d.mode == CategoryMode(category)
    ensures category == General ==> (d.mode == Full17xx <==> MosRelevant(title + "\n" + body))
    ensures category == General ==>
              (d.mode == FyiNot17xx <==> !MosRelevant(title + "\n" + body) && ContainsAny(title + "\n" + body, PriorityTopics))
  {
    var text := title + "\n" + body;
    ModeTable(category, MosRelevant(text), ContainsAny(text, PriorityTopics))
  }

  /** Outside GENERAL the title and body play no part; inside GENERAL the
      mode is never one of the three category modes. */
  lemma ModeByCategory(category: Category, t1: string, b1: string, t2: string, b2: string)
    ensures category != General ==> ChooseSummaryMode(category, t1, b1) == ChooseSummaryMode(category, t2, b2)
    ensures category == General <==> ChooseSummaryMode(category, t1, b1).mode in {Full17xx, FyiNot17xx, Minimal}
  {
    var d := ChooseSummaryMode(category, t1, b1);
    if category == General {
      if !MosRelevant(t1 + "\n" + b1) && !ContainsAny(t1 + "\n" + b1, PriorityTopics) {
        assert d.mode == Minimal;
      }
    }
  }
}
