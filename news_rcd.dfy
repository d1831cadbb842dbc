/** News.py, the RealClearDefense side: item identity, the date window,
    the topic groups and the candidate pipeline of `main` (window gate,
    seen gate, interest gate, cap) with its counters. */
module NewsRcd {
  import opened Wrappers
  import opened Text
  import opened Filtering

  /** One feed item as `fetch_feed_entries` hands it on. `localDate` is the
      publication date in local time as "YYYY-MM-DD", or "" when unknown. */
  datatype NewsItem = NewsItem(id: string, title: string, link: string, published: string, text: string, localDate: string)

  /** The field `normalize_id` takes: `id or link or title or ""`. */
  function IdSource(e: NewsItem): string {
    if e.id != [] then e.id else if e.link != [] then e.link else e.title
  }

  /** `normalize_id`: the first non-empty of id, link and title, stripped.
      News.py defines the same function as MARADMIN.py, over its own item
      fields. */
  function NormalizeId(e: NewsItem): (nid: string)
    ensures nid == [] <==> IsBlank(IdSource(e))
    ensures nid != [] ==> Trimmed(nid)
  {
    Strip(IdSource(e))
  }

  // ----------------------------------------------------------------------
  // The date window
  // ----------------------------------------------------------------------

  /** The local calendar: today's day number, and `date.fromisoformat` as a
      partial map from text to day numbers (None when it raises). */
  datatype Calendar = Calendar(today: int, parseDate: string -> Option<int>)

  /** `rcd_is_in_window`: the item's day is today or one of the
      `max(0, days_back)` days before; an empty or unparseable date is
      outside. */
  predicate RcdIsInWindow(localDate: string, daysBack: int, cal: Calendar) {
    if localDate == [] then false
    else match cal.parseDate(localDate)
      case None => false
      case Some(d) => 0 <= cal.today - d <= Max(0, daysBack)
  }

  /** Future days are never in the window, today always is, and with a
      non-positive `days_back` today is the only day in it. */
  lemma WindowBounds(localDate: string, daysBack: int, cal: Calendar)
    requires localDate != [] && cal.parseDate(localDate).Some?
    ensures cal.parseDate(localDate).value > cal.today ==> !RcdIsInWindow(localDate, daysBack, cal)
    ensures cal.parseDate(localDate).value == cal.today ==> RcdIsInWindow(localDate, daysBack, cal)
    ensures daysBack <= 0 ==> (RcdIsInWindow(localDate, daysBack, cal) <==> cal.parseDate(localDate).value == cal.today)
  {
  }

  /** Widening the window keeps everything that was in it. */
  lemma WindowWidens(localDate: string, daysBack: int, wider: int, cal: Calendar)
    requires daysBack <= wider
    ensures RcdIsInWindow(localDate, daysBack, cal) ==> RcdIsInWindow(localDate, wider, cal)
  {
  }

  // ----------------------------------------------------------------------
  // Topic groups
  // ----------------------------------------------------------------------

  /** A named group of words and phrases, matched case-insensitively as
      whole words: `re.compile(r"\b(w1|w2|...)\b", re.IGNORECASE)`. The
      phrases are lower case; `[- ]` in a pattern is written out as the two
      spellings. */
  datatype TopicGroup = TopicGroup(name: string, phrases: seq<string>)

  const UsmcPhrases: seq<string> := ["usmc", "marine corps", "marines"]
  const CyberPhrases: seq<string> :=
    ["cyber", "cyberspace", "malware", "ransomware", "zero-trust", "zero trust", "dodin", "cybercom", "apt"]
  const SpacePhrases: seq<string> := ["space", "satellite", "orbit", "spacecom", "space force", "satcom", "pnt"]
  const TechPhrases: seq<string> :=
    ["ai", "artificial intelligence", "machine learning", "quantum", "autonomous", "unmanned", "drone", "uas",
     "hypersonic", "c4isr", "electronic warfare", "darpa", "innovation"]
  const SecPhrases: seq<string> := ["security", "defense", "threat", "attack", "espionage", "intelligence"]

  /** `RCD_TOPIC_GROUPS`, in declaration order. */
  const RcdTopicGroups: seq<TopicGroup> := [
    TopicGroup("USMC", UsmcPhrases),
    TopicGroup("CYBER", CyberPhrases),
    TopicGroup("SPACE", SpacePhrases),
    TopicGroup("TECH", TechPhrases),
    TopicGroup("SEC", SecPhrases)
  ]

  /** `\bp\b` matches `s` at `i`. */
  predicate WordAt(s: string, p: string, i: int) {
    BoundaryBefore(s, i) && OccursAt(s, p, i) && BoundaryAfter(s, i + |p|)
  }

  /** A search for `\b(p1|p2|...)\b` in the lower-cased text `s` succeeds. */
  predicate MatchesAnyWord(s: string, phrases: seq<string>) {
    exists p, i :: p in phrases && 0 <= i <= |s| && WordAt(s, p, i)
  }

  /** The text the scripts search: `f"{title}\n{text}"`. */
  function Blob(title: string, text: string): string {
    title + "\n" + text
  }

  /** `pat.search(blob)` for one group. */
  predicate GroupMatches(blob: string, g: TopicGroup) {
    MatchesAnyWord(Lower(blob), g.phrases)
  }

  /** The group test as a value, for filtering. */
  function Fires(blob: string): TopicGroup -> bool {
    g => GroupMatches(blob, g)
  }

  /** The phrase lists of the groups, in order. */
  function GroupPhrases(gs: seq<TopicGroup>): (r: seq<seq<string>>)
    ensures |r| == |gs| && forall k :: 0 <= k < |gs| ==> r[k] == gs[k].phrases
  {
    seq(|gs|, k requires 0 <= k < |gs| => gs[k].phrases)
  }

  /** The names of the groups, in order. */
  function Names(gs: seq<TopicGroup>): (r: seq<string>)
    ensures |r| == |gs| && forall k :: 0 <= k < |gs| ==> r[k] == gs[k].name
  {
    seq(|gs|, k requires 0 <= k < |gs| => gs[k].name)
  }

  /** `rcd_is_interesting`: a search with `RCD_INTEREST_RE`, the alternation
      of every group's pattern. */
  predicate RcdIsInteresting(title: string, text: string) {
    MatchesAnyWord(Lower(Blob(title, text)), Flatten(GroupPhrases(RcdTopicGroups)))
  }

  /** `rcd_tags`: the names of the matching groups, first three only. */
  function RcdTags(title: string, text: string): seq<string> {
    var names := Names(Filter(RcdTopicGroups, Fires(Blob(title, text))));
    names[..Min(|names|, 3)]
  }

  /** At most three tags; tag k names a matching group, the groups in
      declaration order; with fewer than three tags every matching group is
      tagged. */
  lemma RcdTagsShape(title: string, text: string)
    ensures |RcdTags(title, text)| <= 3
    ensures var tags := RcdTags(title, text);
      var pos := FilterPositions(RcdTopicGroups, Fires(Blob(title, text)));
      |tags| <= |pos| &&
      (forall k :: 0 <= k < |tags| ==>
         0 <= pos[k] < |RcdTopicGroups| && tags[k] == RcdTopicGroups[pos[k]].name &&
         GroupMatches(Blob(title, text), RcdTopicGroups[pos[k]])) &&
      (forall k, l :: 0 <= k < l < |tags| ==> pos[k] < pos[l])
    ensures |RcdTags(title, text)| < 3 ==>
      forall g :: g in RcdTopicGroups && GroupMatches(Blob(title, text), g) ==> g.name in RcdTags(title, text)
  {
    var blob := Blob(title, text);
    var fired := Filter(RcdTopicGroups, Fires(blob));
    FilterSubsequence(RcdTopicGroups, Fires(blob));
    FilterMembers(RcdTopicGroups, Fires(blob));
    var tags := RcdTags(title, text);
    if |tags| < 3 {
      assert tags == Names(fired);
      forall g | g in RcdTopicGroups && GroupMatches(blob, g)
        ensures g.name in tags
      {
        assert Fires(blob)(g);
        var k :| 0 <= k < |fired| && fired[k] == g;
        assert tags[k] == g.name;
      }
    }
  }

  /** An item is interesting exactly when it gets a tag: the combined
      pattern matches iff some group's pattern does. */
  lemma InterestingIffTagged(title: string, text: string)
    ensures RcdIsInteresting(title, text) <==> RcdTags(title, text) != []
  {
    var blob := Blob(title, text);
    var s := Lower(blob);
    var lists := GroupPhrases(RcdTopicGroups);
    var fired := Filter(RcdTopicGroups, Fires(blob));
    FilterMembers(RcdTopicGroups, Fires(blob));
    if RcdIsInteresting(title, text) {
      var p, i :| p in Flatten(lists) && 0 <= i <= |s| && WordAt(s, p, i);
      FlattenMember(lists, p);
      var k :| 0 <= k < |lists| && p in lists[k];
      var g := RcdTopicGroups[k];
      assert GroupMatches(blob, g);
      assert g in fired;
    }
    if RcdTags(title, text) != [] {
      var g := fired[0];
      assert g in fired;
      var k :| 0 <= k < |RcdTopicGroups| && RcdTopicGroups[k] == g;
      var p, i :| p in g.phrases && 0 <= i <= |s| && WordAt(s, p, i);
      FlattenContains(lists, k, p);
    }
  }

  // ----------------------------------------------------------------------
  // The candidate pipeline
  // ----------------------------------------------------------------------

  /** An item with an id whose date is in the window. */
  predicate PassesWindow(e: NewsItem, daysBack: int, cal: Calendar) {
    NormalizeId(e) != [] && RcdIsInWindow(e.localDate, daysBack, cal)
  }

  /** ... and not seen before, unless --force. */
  predicate PassesSeen(e: NewsItem, daysBack: int, cal: Calendar, seen: set<string>, force: bool) {
    PassesWindow(e, daysBack, cal) && (force || NormalizeId(e) !in seen)
  }

  /** ... and interesting. */
  predicate PassesInterest(e: NewsItem, daysBack: int, cal: Calendar, seen: set<string>, force: bool) {
    PassesSeen(e, daysBack, cal, seen, force) && RcdIsInteresting(e.title, e.text)
  }

  function WindowGate(daysBack: int, cal: Calendar): NewsItem -> bool {
    e => PassesWindow(e, daysBack, cal)
  }

  function SeenGate(daysBack: int, cal: Calendar, seen: set<string>, force: bool): NewsItem -> bool {
    e => PassesSeen(e, daysBack, cal, seen, force)
  }

  function InterestGate(daysBack: int, cal: Calendar, seen: set<string>, force: bool): NewsItem -> bool {
    e => PassesInterest(e, daysBack, cal, seen, force)
  }

  /** A selected item: the item with `id` set to its normalized id, and its
      tags (`e2` in `main`). */
  datatype Candidate = Candidate(item: NewsItem, tags: seq<string>)

  function MakeCandidate(e: NewsItem): Candidate {
    Candidate(e.(id := NormalizeId(e)), RcdTags(e.title, e.text))
  }

  /** The candidates made from a list of items, in order. */
  function MakeCandidates(items: seq<NewsItem>): (r: seq<Candidate>)
    ensures |r| == |items| && forall k :: 0 <= k < |items| ==> r[k] == MakeCandidate(items[k])
    decreases |items|
  {
    if items == [] then [] else MakeCandidates(items[..|items| - 1]) + [MakeCandidate(items[|items| - 1])]
  }

  /** The candidates `main` ends up with: every item passing the three
      gates, in feed order, capped at `max(1, rcd_max_items)`. */
  function Candidates(entries: seq<NewsItem>, daysBack: int, cal: Calendar, seen: set<string>, force: bool,
                      maxItems: int): seq<Candidate>
  {
    var all := MakeCandidates(Filter(entries, InterestGate(daysBack, cal, seen, force)));
    all[..Min(|all|, Max(1, maxItems))]
  }

  /** The `pipeline` counters. */
  datatype Pipeline = Pipeline(total: int, inWindow: int, newInWindow: int, interestNewInWindow: int, selected: int)

  /** The counters the gates produce for a feed. */
  function PipelineCounts(entries: seq<NewsItem>, daysBack: int, cal: Calendar, seen: set<string>, force: bool,
                          maxItems: int): Pipeline
  {
    Pipeline(|entries|,
             |Filter(entries, WindowGate(daysBack, cal))|,
             |Filter(entries, SeenGate(daysBack, cal, seen, force))|,
             |Filter(entries, InterestGate(daysBack, cal, seen, force))|,
             |Candidates(entries, daysBack, cal, seen, force, maxItems)|)
  }

  /** The loop's tally over a prefix of the feed: how many items were in
      the window, how many of those were new, and the items that also were
      interesting, in order. */
  datatype Tally = Tally(inWindow: nat, unseen: nat, picked: seq<NewsItem>)

  /** The tally the gates of `main` produce, one item at a time. */
  function Sift(entries: seq<NewsItem>, daysBack: int, cal: Calendar, seen: set<string>, force: bool): Tally
    decreases |entries|
  {
    if entries == [] then Tally(0, 0, [])
    else
      var t := Sift(entries[..|entries| - 1], daysBack, cal, seen, force);
      var e := entries[|entries| - 1];
      if !PassesWindow(e, daysBack, cal) then t
      else if !PassesSeen(e, daysBack, cal, seen, force) then t.(inWindow := t.inWindow + 1)
      else if !RcdIsInteresting(e.title, e.text) then t.(inWindow := t.inWindow + 1, unseen := t.unseen + 1)
      else Tally(t.inWindow + 1, t.unseen + 1, t.picked + [e])
  }

  /** The tally agrees with filtering the whole feed through each gate. */
  lemma {:induction false} SiftIsFilter(entries: seq<NewsItem>, daysBack: int, cal: Calendar, seen: set<string>,
                                        force: bool)
    ensures var t := Sift(entries, daysBack, cal, seen, force);
      t.inWindow == |Filter(entries, WindowGate(daysBack, cal))| &&
      t.unseen == |Filter(entries, SeenGate(daysBack, cal, seen, force))| &&
      t.picked == Filter(entries, InterestGate(daysBack, cal, seen, force))
    decreases |entries|
  {
    if entries != [] {
      SiftIsFilter(entries[..|entries| - 1], daysBack, cal, seen, force);
    }
  }

  /** One more candidate. */
  lemma MakeCandidatesSnoc(items: seq<NewsItem>, e: NewsItem)
    ensures MakeCandidates(items + [e]) == MakeCandidates(items) + [MakeCandidate(e)]
  {
    assert (items + [e])[..|items|] == items;
  }

  /** The three tests `main` puts one item through, in its order: an id and
      a date in the window, then not seen (or --force), then interesting. */
  method Admit(e: NewsItem, daysBack: int, cal: Calendar, seen: set<string>, force: bool)
    returns (inWindow: bool, isNew: bool, isInteresting: bool)
    ensures inWindow == PassesWindow(e, daysBack, cal)
    ensures inWindow ==> isNew == PassesSeen(e, daysBack, cal, seen, force)
    ensures isInteresting == RcdIsInteresting(e.title, e.text)
  {
    var eid := NormalizeId(e);
    inWindow := eid != [] && RcdIsInWindow(e.localDate, daysBack, cal);
    isNew := !(eid in seen && !force);
    isInteresting := RcdIsInteresting(e.title, e.text);
  }

  /** The loop of `main` over the RCD items, then the cap. */
  method SelectRcdCandidates(entries: seq<NewsItem>, daysBack: int, cal: Calendar, seen: set<string>, force: bool,
                             maxItems: int)
    returns (candidates: seq<Candidate>, pipeline: Pipeline)
    ensures candidates == Candidates(entries, daysBack, cal, seen, force, maxItems)
    ensures pipeline == PipelineCounts(entries, daysBack, cal, seen, force, maxItems)
  {
    candidates := [];
    ghost var picked: seq<NewsItem> := [];
    var inWindow, unseen := 0, 0;
    var i := 0;
    while i < |entries|
      invariant 0 <= i <= |entries|
      invariant Sift(entries[..i], daysBack, cal, seen, force) == Tally(inWindow, unseen, picked)
      invariant candidates == MakeCandidates(picked)
    {
      assert entries[..i + 1][..i] == entries[..i];
      var e := entries[i];
      var inW, isNew, isInteresting := Admit(e, daysBack, cal, seen, force);
      if inW {
        inWindow := inWindow + 1;
        if isNew {
          unseen := unseen + 1;
          if isInteresting {
            MakeCandidatesSnoc(picked, e);
            candidates := candidates + [MakeCandidate(e)];
            picked := picked + [e];
          }
        }
      }
      i := i + 1;
    }
    assert entries[..|entries|] == entries;
    SiftIsFilter(entries, daysBack, cal, seen, force);
    var interest := |candidates|;
    candidates := candidates[..Min(|candidates|, Max(1, maxItems))];
    pipeline := Pipeline(|entries|, inWindow, unseen, interest, |candidates|);
  }

  /** Each gate lets through no more than the one before. */
  lemma PipelineNarrows(entries: seq<NewsItem>, daysBack: int, cal: Calendar, seen: set<string>, force: bool,
                        maxItems: int)
    ensures var p := PipelineCounts(entries, daysBack, cal, seen, force, maxItems);
      p.total >= p.inWindow >= p.newInWindow >= p.interestNewInWindow >= p.selected >= 0
  {
    FilterMonotone(entries, SeenGate(daysBack, cal, seen, force), WindowGate(daysBack, cal));
    FilterMonotone(entries, InterestGate(daysBack, cal, seen, force), SeenGate(daysBack, cal, seen, force));
  }

  /** A candidate's item keeps its normalized id under `normalize_id`. */
  lemma CandidateIdStable(e: NewsItem)
    requires NormalizeId(e) != []
    ensures MakeCandidate(e).item.id == NormalizeId(MakeCandidate(e).item) != []
  {
    var nid := NormalizeId(e);
    StripTrimmed(nid);
    assert IdSource(e.(id := nid)) == nid;
  }

  /** Candidate k is made from the k-th item passing the gates. */
  lemma CandidateAt(entries: seq<NewsItem>, daysBack: int, cal: Calendar, seen: set<string>, force: bool,
                    maxItems: int, k: int)
    requires 0 <= k < |Candidates(entries, daysBack, cal, seen, force, maxItems)|
    ensures var sel := Filter(entries, InterestGate(daysBack, cal, seen, force));
      k < |sel| && PassesInterest(sel[k], daysBack, cal, seen, force) &&
      Candidates(entries, daysBack, cal, seen, force, maxItems)[k] == MakeCandidate(sel[k])
  {
    var g := InterestGate(daysBack, cal, seen, force);
    FilterSubsequence(entries, g);
    assert g(Filter(entries, g)[k]);
  }

  /** At most `max(1, rcd_max_items)` candidates, each with an id that
      `normalize_id` keeps, in the window (even under --force),
      interesting, and unseen unless --force. */
  lemma CandidatesValid(entries: seq<NewsItem>, daysBack: int, cal: Calendar, seen: set<string>, force: bool,
                        maxItems: int)
    ensures var c := Candidates(entries, daysBack, cal, seen, force, maxItems);
      |c| <= Max(1, maxItems) &&
      forall k :: 0 <= k < |c| ==>
        c[k].item.id == NormalizeId(c[k].item) != [] &&
        RcdIsInWindow(c[k].item.localDate, daysBack, cal) &&
        RcdIsInteresting(c[k].item.title, c[k].item.text) &&
        (!force ==> c[k].item.id !in seen)
  {
    var c := Candidates(entries, daysBack, cal, seen, force, maxItems);
    forall k | 0 <= k < |c|
      ensures c[k].item.id == NormalizeId(c[k].item) != []
      ensures RcdIsInWindow(c[k].item.localDate, daysBack, cal)
      ensures RcdIsInteresting(c[k].item.title, c[k].item.text)
      ensures !force ==> c[k].item.id !in seen
    {
      CandidateAt(entries, daysBack, cal, seen, force, maxItems, k);
      var e := Filter(entries, InterestGate(daysBack, cal, seen, force))[k];
      CandidateIdStable(e);
    }
  }

  /** The candidates are the first passing items, in feed order. */
  lemma CandidatesInOrder(entries: seq<NewsItem>, daysBack: int, cal: Calendar, seen: set<string>, force: bool,
                          maxItems: int)
    ensures var c := Candidates(entries, daysBack, cal, seen, force, maxItems);
      var pos := FilterPositions(entries, InterestGate(daysBack, cal, seen, force));
      |c| <= |pos| &&
      (forall k :: 0 <= k < |c| ==> 0 <= pos[k] < |entries| && c[k] == MakeCandidate(entries[pos[k]])) &&
      (forall k, l :: 0 <= k < l < |c| ==> pos[k] < pos[l])
  {
    FilterSubsequence(entries, InterestGate(daysBack, cal, seen, force));
  }

  /** Under the cap, every item passing the gates is a candidate. */
  lemma UnderCapKeepsAll(entries: seq<NewsItem>, daysBack: int, cal: Calendar, seen: set<string>, force: bool,
                         maxItems: int)
    requires |Filter(entries, InterestGate(daysBack, cal, seen, force))| <= Max(1, maxItems)
    ensures forall e :: e in entries && PassesInterest(e, daysBack, cal, seen, force) ==>
              MakeCandidate(e) in Candidates(entries, daysBack, cal, seen, force, maxItems)
  {
    var g := InterestGate(daysBack, cal, seen, force);
    FilterMembers(entries, g);
    var sel := Filter(entries, g);
    forall e | e in entries && PassesInterest(e, daysBack, cal, seen, force)
      ensures MakeCandidate(e) in Candidates(entries, daysBack, cal, seen, force, maxItems)
    {
      assert g(e);
      var k :| 0 <= k < |sel| && sel[k] == e;
      assert Candidates(entries, daysBack, cal, seen, force, maxItems)[k] == MakeCandidate(e);
    }
  }
}
