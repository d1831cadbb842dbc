/** News.py, `main` and its two summarizers: the configuration checks, the
    state preparation, the CISO step (the first episode only), the RCD step
    (candidate pipeline, section, seen ids), the combined message and its
    delivery, and the state written back. The feeds, the OpenAI model, the
    clock and the webhook are inputs. */
module NewsRun {
  import opened Wrappers
  import opened Text
  import opened JsonValue
  import opened SlackChunks
  import opened NewsState
  import opened NewsRcd
  import opened Filtering

  /** The options `main` reads from the command line. */
  datatype NewsArgs = NewsArgs(dryRun: bool, force: bool, cisoMaxBullets: int, cisoSentences: int,
                               rcdWindowDays: int, rcdMaxItems: int, rcdBulletsPerArticle: int)

  /** A request to the model: what one of the two summarizers asks about.
      `Instructions` and `UserInput` give the text it is sent as. */
  datatype Request =
    | CisoRequest(maxBullets: int, sentences: int, episode: NewsItem)
    | RcdRequest(bulletsPerArticle: int, articles: seq<Candidate>)

  /** `client.responses.create` on a request: the reply text, None when the
      call raises. */
  type Llm = Request -> Option<string>

  // ----------------------------------------------------------------------
  // The CISO summarizer
  // ----------------------------------------------------------------------

  /** `max(1, n)`, applied to both the bullet limit and the sentence count. */
  function AtLeastOne(n: int): (r: int)
    ensures r >= 1
    ensures n >= 1 ==> r == n
    ensures n <= 1 ==> r == 1
  {
    Max(1, n)
  }

  const CisoHead: string :=
    "You are a cyber news summarizer.\n"
    + "Input is a daily roll-up containing multiple story blurbs + links (may contain HTML).\n"
    + "Extract distinct stories and return ONLY Slack mrkdwn bullets.\n\n"
    + "Format:\n"
    + "- <URL|Title> - summary\n\n"
    + "Rules:\n"

  const CisoTail: string := "- Deduplicate repeated items.\n" + "- Do NOT invent facts.\n"

  function LimitLine(n: int): string {
    "- Limit to " + IntToString(n) + " bullets.\n"
  }

  function SentencesLine(n: int): string {
    "- Each bullet averages about " + IntToString(n) + " sentence(s).\n"
  }

  /** The instructions of `summarize_ciso_rollup_to_bullets`: they state the
      clamped bullet limit and sentence count. */
  function CisoInstructions(maxBullets: int, sentences: int): (r: string)
    ensures StartsWith(r, CisoHead)
    ensures Contains(r, LimitLine(AtLeastOne(maxBullets)))
    ensures Contains(r, SentencesLine(AtLeastOne(sentences)))
  {
    var limit, each := LimitLine(AtLeastOne(maxBullets)), SentencesLine(AtLeastOne(sentences));
    SixPieces(CisoHead, [], limit, [], each, CisoTail);
    CisoHead + [] + limit + [] + each + CisoTail
  }

  /** Any limit below one asks for the same as one: the model never sees a
      limit or a sentence count under one. */
  lemma CisoClampIsInvisible(maxBullets: int, sentences: int)
    ensures CisoInstructions(maxBullets, sentences) == CisoInstructions(AtLeastOne(maxBullets), AtLeastOne(sentences))
  {
  }

  /** The episode as the model gets it: title, link and date, then the text. */
  function CisoUserInput(ep: NewsItem): (r: string)
    ensures StartsWith(r, "Episode title: " + ep.title + "\n")
    ensures |ep.text| <= |r| && r[|r| - |ep.text|..] == ep.text
  {
    var head := "Episode title: " + ep.title + "\n" + "Episode link: " + ep.link + "\n"
      + "Published: " + ep.published + "\n\n" + "Roll-up text:\n";
    assert (head + ep.text)[..|"Episode title: " + ep.title + "\n"|] == "Episode title: " + ep.title + "\n";
    assert (head + ep.text)[|head|..] == ep.text;
    head + ep.text
  }

  /** The bullet written when the model returns nothing. */
  function CisoFallback(ep: NewsItem): string {
    "- <" + ep.link + "|" + ep.title + "> - (No roll-up text found.)"
  }

  /** `(resp.output_text or "").strip()`, or the fallback bullet when that
      is empty: never empty, and the model's text when it has any. */
  function CisoBullets(ep: NewsItem, reply: string): (r: string)
    ensures r != []
    ensures !IsBlank(reply) ==> r == Strip(reply) && Trimmed(r)
    ensures IsBlank(reply) ==> r == CisoFallback(ep)
  {
    var out := Strip(reply);
    if out == [] then CisoFallback(ep) else out
  }

  /** The CISO section of the Slack message. */
  function CisoSection(ep: NewsItem, bullets: string): (r: string)
    ensures StartsWith(r, "*Cyber Security Headlines* - " + ep.published + "\n")
    ensures |bullets| <= |r| && r[|r| - |bullets|..] == bullets
  {
    var head := "*Cyber Security Headlines* - " + ep.published + "\n";
    var s := head + "<" + ep.link + "|Episode link>\n\n" + bullets;
    assert s[..|head|] == head;
    assert s[|s| - |bullets|..] == bullets;
    s
  }

  // ----------------------------------------------------------------------
  // The RCD summarizer
  // ----------------------------------------------------------------------

  /** `max(5, min(bullets_per_article, 6))`. */
  function RcdBulletsClamp(b: int): (r: int)
    ensures 5 <= r <= 6
    ensures 5 <= b <= 6 ==> r == b
    ensures b <= 5 ==> r == 5
    ensures b >= 6 ==> r == 6
  {
    Max(5, Min(b, 6))
  }

  const RcdHead: string :=
    "You summarize defense/security articles for a technically-minded reader.\n"
    + "Return ONLY Slack mrkdwn bullets.\n\n"

  const RcdTail: string :=
    "1) - <URL|Title> - 1 sentence: what it is.\n"
    + "2) - Why it matters - 2 sentence (impact/implication).\n"
    + "3) (optional) - Watch-for - 2 sentence (trend/next step).\n\n"
    + "Do NOT invent facts; use only provided title/snippet.\n"

  function PerArticleLine(n: int): string {
    "For EACH article, output exactly " + IntToString(n) + " bullets:\n"
  }

  /** The instructions of `summarize_rcd_selected_entries`: they ask for the
      clamped number of bullets per article, always five or six. */
  function RcdInstructions(bulletsPerArticle: int): (r: string)
    ensures StartsWith(r, RcdHead)
    ensures Contains(r, PerArticleLine(RcdBulletsClamp(bulletsPerArticle)))
  {
    var line := PerArticleLine(RcdBulletsClamp(bulletsPerArticle));
    SixPieces(RcdHead, [], line, [], [], RcdTail);
    RcdHead + [] + line + [] + [] + RcdTail
  }

  /** One article as the model gets it. */
  function ArticlePart(c: Candidate): string {
    "TAGS: " + Join(c.tags, ", ") + "\n" + "TITLE: " + c.item.title + "\n" + "URL: " + c.item.link + "\n"
    + "PUBLISHED: " + c.item.published + "\n" + "SNIPPET:\n" + c.item.text + "\n"
  }

  function ArticleParts(cs: seq<Candidate>): (r: seq<string>)
    ensures |r| == |cs| && forall k :: 0 <= k < |cs| ==> r[k] == ArticlePart(cs[k])
  {
    seq(|cs|, k requires 0 <= k < |cs| => ArticlePart(cs[k]))
  }

  const ArticleSeparator: string := "\n---\n"

  /** The model input: every selected article, in order. */
  function RcdUserInput(cs: seq<Candidate>): (r: string)
    ensures StartsWith(r, "ARTICLES:\n\n")
  {
    var s := "ARTICLES:\n\n" + Join(ArticleParts(cs), ArticleSeparator);
    assert s[..|"ARTICLES:\n\n"|] == "ARTICLES:\n\n";
    s
  }

  /** Every selected article is sent to the model. */
  lemma EveryCandidateSent(cs: seq<Candidate>, k: int)
    requires 0 <= k < |cs|
    ensures Contains(RcdUserInput(cs), ArticlePart(cs[k]))
  {
    var parts := ArticleParts(cs);
    JoinContains(parts, ArticleSeparator, k);
    ContainsExtend("ARTICLES:\n\n", Join(parts, ArticleSeparator), [], parts[k]);
  }

  const RcdFallback: string := "- (No RealClearDefense summary produced.)"

  /** The model's text stripped, or the fallback line when that is empty. */
  function RcdBullets(reply: string): (r: string)
    ensures r != []
    ensures !IsBlank(reply) ==> r == Strip(reply) && Trimmed(r)
    ensures IsBlank(reply) ==> r == RcdFallback
  {
    var out := Strip(reply);
    if out == [] then RcdFallback else out
  }

  /** The `instructions` a request is sent with. */
  function Instructions(req: Request): string {
    match req
    case CisoRequest(maxBullets, sentences, _) => CisoInstructions(maxBullets, sentences)
    case RcdRequest(bulletsPerArticle, _) => RcdInstructions(bulletsPerArticle)
  }

  /** The `input` a request is sent with. */
  function UserInput(req: Request): string {
    match req
    case CisoRequest(_, _, ep) => CisoUserInput(ep)
    case RcdRequest(_, articles) => RcdUserInput(articles)
  }

  /** `{t for c in candidates for t in c.get("tags", [])}`. */
  function TagSet(cs: seq<Candidate>): set<string> {
    set c, t | c in cs && t in c.tags :: t
  }

  /** `" / ".join(sorted(tags)) or "Filtered"`. */
  ghost function TagLine(cs: seq<Candidate>): string {
    var j := Join(SortedSet(TagSet(cs)), " / ");
    if j == [] then "Filtered" else j
  }

  /** The RCD section of the Slack message. */
  function RcdSection(windowDays: int, tagLine: string, todayIso: string, bullets: string): string {
    "*RealClearDefense (window: today+" + IntToString(windowDays) + "d, filtered: " + tagLine + ")* - "
    + todayIso + "\n\n" + bullets
  }

  /** Every tag of a candidate names a topic group, and the first
      candidate has at least one tag. */
  lemma CandidateTags(entries: seq<NewsItem>, daysBack: int, cal: Calendar, seen: set<string>, force: bool,
                      maxItems: int, k: int)
    requires 0 <= k < |Candidates(entries, daysBack, cal, seen, force, maxItems)|
    ensures var c := Candidates(entries, daysBack, cal, seen, force, maxItems)[k];
      c.tags != [] && forall t :: t in c.tags ==> t in Names(RcdTopicGroups)
  {
    CandidateAt(entries, daysBack, cal, seen, force, maxItems, k);
    var e := Filter(entries, InterestGate(daysBack, cal, seen, force))[k];
    InterestingIffTagged(e.title, e.text);
    RcdTagsShape(e.title, e.text);
    var pos := FilterPositions(RcdTopicGroups, Fires(Blob(e.title, e.text)));
    var tags := RcdTags(e.title, e.text);
    forall t | t in tags
      ensures t in Names(RcdTopicGroups)
    {
      var j :| 0 <= j < |tags| && tags[j] == t;
      assert Names(RcdTopicGroups)[pos[j]] == t;
    }
  }

  /** The tag line of candidates that all carry group names, the first of
      them at least one, lists those names: it is never the fallback. */
  lemma TagLineOfTagged(cs: seq<Candidate>)
    requires cs != [] && cs[0].tags != []
    requires forall k :: 0 <= k < |cs| ==> forall t :: t in cs[k].tags ==> t in Names(RcdTopicGroups)
    ensures TagSet(cs) != {}
    ensures forall t :: t in TagSet(cs) ==> t in Names(RcdTopicGroups)
    ensures TagLine(cs) == Join(SortedSet(TagSet(cs)), " / ")
  {
    var c0 := cs[0];
    assert c0 in cs && c0.tags[0] in c0.tags;
    assert c0.tags[0] in TagSet(cs);
    forall t | t in TagSet(cs)
      ensures t in Names(RcdTopicGroups)
    {
      var c :| c in cs && t in c.tags;
      var k :| 0 <= k < |cs| && cs[k] == c;
    }
    var sorted := SortedSet(TagSet(cs));
    assert sorted[0] in Names(RcdTopicGroups) by {
      assert c0.tags[0] in sorted;
    }
    JoinStartsWith(sorted, " / ");
  }

  /** The "Filtered" fallback never shows for real candidates: each of them
      is interesting, so it has a tag, and every tag names a topic group. */
  lemma TagLineNamesGroups(entries: seq<NewsItem>, daysBack: int, cal: Calendar, seen: set<string>, force: bool,
                           maxItems: int)
    requires Candidates(entries, daysBack, cal, seen, force, maxItems) != []
    ensures var cs := Candidates(entries, daysBack, cal, seen, force, maxItems);
      TagSet(cs) != {} &&
      (forall t :: t in TagSet(cs) ==> t in Names(RcdTopicGroups)) &&
      TagLine(cs) == Join(SortedSet(TagSet(cs)), " / ")
  {
    var cs := Candidates(entries, daysBack, cal, seen, force, maxItems);
    forall k | 0 <= k < |cs|
      ensures cs[k].tags != [] && forall t :: t in cs[k].tags ==> t in Names(RcdTopicGroups)
    {
      CandidateTags(entries, daysBack, cal, seen, force, maxItems, k);
    }
    TagLineOfTagged(cs);
  }

  // ----------------------------------------------------------------------
  // One feed's step
  // ----------------------------------------------------------------------

  /** What a feed's step leaves behind: the feed's new state, its seen set,
      its section of the message, and whether a model call raised. */
  datatype FeedStep = FeedStep(feed: map<string, Json>, seen: set<string>, section: Option<string>, crashed: bool)

  /** `seen_ids = sorted(seen)` and `last_posted_utc = now`: reading the
      feed's seen ids back gives `seen`. */
  ghost function RecordSeen(fs: map<string, Json>, seen: set<string>, now: string): (r: map<string, Json>)
    ensures SeenIn(r) == Some(seen)
  {
    var ids := SortedSet(seen);
    var m := fs["seen_ids" := StrArray(ids)];
    SeenInAfterWrite(fs, ids);
    assert (set x | x in ids) == seen;
    SeenInOtherKey(m, "last_posted_utc", JStr(now));
    m["last_posted_utc" := JStr(now)]
  }

  /** `last_seen_id`, `last_seen_title` and `last_seen_published` set to the
      episode's; the seen ids are not touched. */
  function NoteEpisode(fs: map<string, Json>, epId: string, ep: NewsItem): (r: map<string, Json>)
    ensures SeenIn(r) == SeenIn(fs)
  {
    var f1 := fs["last_seen_id" := JStr(epId)];
    var f2 := f1["last_seen_title" := JStr(ep.title)];
    SeenInOtherKey(fs, "last_seen_id", JStr(epId));
    SeenInOtherKey(f1, "last_seen_title", JStr(ep.title));
    SeenInOtherKey(f2, "last_seen_published", JStr(ep.published));
    f2["last_seen_published" := JStr(ep.published)]
  }

  /** The CISO step of `main`: the first episode is noted; it is summarized
      when it is new (or --force) or in a dry run; its id is recorded only
      in a real run, and only when it is not empty. `reply` is what the
      model call returns when the step makes it (None: the call raises). */
  ghost function CisoRun(feed: map<string, Json>, seen: set<string>, entries: seq<NewsItem>, args: NewsArgs,
                         reply: Option<string>, now: string): FeedStep
  {
    if entries == [] then FeedStep(feed, seen, None, false)
    else
      var ep := entries[0];
      var epId := NormalizeId(ep);
      var fs := NoteEpisode(feed, epId, ep);
      var shouldPost := args.force || epId !in seen;
      if !(shouldPost || args.dryRun) then FeedStep(fs, seen, None, false)
      else match reply
        case None => FeedStep(fs, seen, None, true)
        case Some(text) =>
          var section := Some(CisoSection(ep, CisoBullets(ep, text)));
          if !args.dryRun && epId != [] then FeedStep(RecordSeen(fs, seen + {epId}, now), seen + {epId}, section, false)
          else FeedStep(fs, seen, section, false)
  }

  /** The ids of the candidates, as the loop of `main` adds them. */
  function CandidateIds(cs: seq<Candidate>): set<string>
    decreases |cs|
  {
    if cs == [] then {} else CandidateIds(cs[..|cs| - 1]) + {cs[|cs| - 1].item.id}
  }

  lemma {:induction false} CandidateIdsMembers(cs: seq<Candidate>)
    ensures forall x :: x in CandidateIds(cs) <==> exists k :: 0 <= k < |cs| && cs[k].item.id == x
    decreases |cs|
  {
    if cs != [] {
      var n := |cs| - 1;
      CandidateIdsMembers(cs[..n]);
      forall x | x in CandidateIds(cs)
        ensures exists k :: 0 <= k < |cs| && cs[k].item.id == x
      {
        if x != cs[n].item.id {
          assert x in CandidateIds(cs[..n]);
          var k :| 0 <= k < n && cs[..n][k].item.id == x;
          assert cs[k].item.id == x;
        }
      }
      forall x | exists k :: 0 <= k < |cs| && cs[k].item.id == x
        ensures x in CandidateIds(cs)
      {
        var k :| 0 <= k < |cs| && cs[k].item.id == x;
        if k < n {
          assert cs[..n][k].item.id == x;
        }
      }
    }
  }

  /** The `pipeline` dict as it is stored. */
  function PipelineJson(p: Pipeline): Json {
    JObj(map["total" := JInt(p.total), "in_window" := JInt(p.inWindow), "new_in_window" := JInt(p.newInWindow),
             "interest_new_in_window" := JInt(p.interestNewInWindow), "selected" := JInt(p.selected)])
  }

  /** `last_scan_today_local`, `last_pipeline_counts` and `last_scan_count`
      set; the seen ids are not touched. */
  function NoteScan(fs: map<string, Json>, todayIso: string, p: Pipeline, scanned: int): (r: map<string, Json>)
    ensures SeenIn(r) == SeenIn(fs)
  {
    var f1 := fs["last_scan_today_local" := JStr(todayIso)];
    var f2 := f1["last_pipeline_counts" := PipelineJson(p)];
    SeenInOtherKey(fs, "last_scan_today_local", JStr(todayIso));
    SeenInOtherKey(f1, "last_pipeline_counts", PipelineJson(p));
    SeenInOtherKey(f2, "last_scan_count", JInt(scanned));
    f2["last_scan_count" := JInt(scanned)]
  }

  /** The RCD step of `main`: the scan is noted; with candidates, they are
      summarized into a section, and in a real run all their ids are
      recorded. `reply` is as for the CISO step. */
  ghost function RcdRun(feed: map<string, Json>, seen: set<string>, entries: seq<NewsItem>, args: NewsArgs,
                        cal: Calendar, todayIso: string, reply: Option<string>, now: string): FeedStep
  {
    var days, maxItems := args.rcdWindowDays, args.rcdMaxItems;
    var cs := Candidates(entries, days, cal, seen, args.force, maxItems);
    var fs := NoteScan(feed, todayIso, PipelineCounts(entries, days, cal, seen, args.force, maxItems), |entries|);
    if cs == [] then FeedStep(fs, seen, None, false)
    else match reply
      case None => FeedStep(fs, seen, None, true)
      case Some(text) =>
        var section := Some(RcdSection(days, TagLine(cs), todayIso, RcdBullets(text)));
        if args.dryRun then FeedStep(fs, seen, section, false)
        else FeedStep(RecordSeen(fs, seen + CandidateIds(cs), now), seen + CandidateIds(cs), section, false)
  }

  /** The id the CISO step records in a real run: the first episode's,
      when it has one. */
  function EpisodeId(entries: seq<NewsItem>): set<string> {
    if entries != [] && NormalizeId(entries[0]) != [] then {NormalizeId(entries[0])} else {}
  }

  /** The CISO step keeps the feed's stored seen ids and its seen set in
      step; a dry run changes neither; a real run that gets through adds
      the episode id and nothing else (whether or not it posted: an episode
      it skips is one already seen). */
  lemma CisoRunSeen(feed: map<string, Json>, seen: set<string>, entries: seq<NewsItem>, args: NewsArgs,
                    reply: Option<string>, now: string)
    requires SeenIn(feed) == Some(seen)
    ensures var r := CisoRun(feed, seen, entries, args, reply, now);
      SeenIn(r.feed) == Some(r.seen) &&
      (args.dryRun || r.crashed ==> r.seen == seen) &&
      (!args.dryRun && !r.crashed ==> r.seen == seen + EpisodeId(entries))
  {
  }

  /** The first episode is summarized exactly when there is one and it is
      new, or --force or --dry-run is given; the step fails exactly when
      that summary's model call raises. */
  lemma CisoRunSection(feed: map<string, Json>, seen: set<string>, entries: seq<NewsItem>, args: NewsArgs,
                       reply: Option<string>, now: string)
    ensures var r := CisoRun(feed, seen, entries, args, reply, now);
      var asks := entries != [] && (args.force || NormalizeId(entries[0]) !in seen || args.dryRun);
      (r.section.Some? <==> asks && reply.Some?) &&
      (r.crashed <==> asks && reply.None?) &&
      (r.section.Some? ==> r.section.value == CisoSection(entries[0], CisoBullets(entries[0], reply.value)))
  {
  }

  /** The RCD step likewise: a dry run keeps the seen set; a real run adds
      exactly the ids of the candidates it selected; a section is written
      exactly when there are candidates and the model answered. */
  lemma RcdRunSeen(feed: map<string, Json>, seen: set<string>, entries: seq<NewsItem>, args: NewsArgs,
                   cal: Calendar, todayIso: string, reply: Option<string>, now: string)
    requires SeenIn(feed) == Some(seen)
    ensures var r := RcdRun(feed, seen, entries, args, cal, todayIso, reply, now);
      var cs := Candidates(entries, args.rcdWindowDays, cal, seen, args.force, args.rcdMaxItems);
      SeenIn(r.feed) == Some(r.seen) &&
      (args.dryRun || r.crashed ==> r.seen == seen) &&
      (!args.dryRun && !r.crashed ==> r.seen == seen + CandidateIds(cs)) &&
      (r.section.Some? <==> cs != [] && !r.crashed)
  {
    var r := RcdRun(feed, seen, entries, args, cal, todayIso, reply, now);
    var days, maxItems := args.rcdWindowDays, args.rcdMaxItems;
    var cs := Candidates(entries, days, cal, seen, args.force, maxItems);
    var fs := NoteScan(feed, todayIso, PipelineCounts(entries, days, cal, seen, args.force, maxItems), |entries|);
    if cs == [] {
      assert r == FeedStep(fs, seen, None, false);
      assert CandidateIds(cs) == {};
    } else {
      if reply.None? {
        assert r == FeedStep(fs, seen, None, true);
      } else if args.dryRun {
        assert r.feed == fs && r.seen == seen && r.section.Some?;
      } else {
        assert r.feed == RecordSeen(fs, seen + CandidateIds(cs), now) && r.seen == seen + CandidateIds(cs);
        assert r.section.Some? && !r.crashed;
      }
    }
  }

  /** After a real RCD step, a later run without --force over any feed
      selects none of the items just recorded. */
  lemma RcdNoRepost(feed: map<string, Json>, seen: set<string>, entries: seq<NewsItem>, args: NewsArgs,
                    cal: Calendar, todayIso: string, reply: Option<string>, now: string,
                    later: seq<NewsItem>, laterCal: Calendar, laterDays: int, laterMax: int)
    requires SeenIn(feed) == Some(seen)
    requires !args.dryRun && !RcdRun(feed, seen, entries, args, cal, todayIso, reply, now).crashed
    ensures var r := RcdRun(feed, seen, entries, args, cal, todayIso, reply, now);
      var first := Candidates(entries, args.rcdWindowDays, cal, seen, args.force, args.rcdMaxItems);
      var next := Candidates(later, laterDays, laterCal, r.seen, false, laterMax);
      forall k :: 0 <= k < |next| ==> next[k].item.id !in CandidateIds(first)
  {
    RcdRunSeen(feed, seen, entries, args, cal, todayIso, reply, now);
    var r := RcdRun(feed, seen, entries, args, cal, todayIso, reply, now);
    CandidatesValid(later, laterDays, laterCal, r.seen, false, laterMax);
  }

  // ----------------------------------------------------------------------
  // The whole run
  // ----------------------------------------------------------------------

  /** How a run ends: the exit code, the state written back (None when the
      run ends before `save_state`), and the message's chunks. */
  datatype Outcome = Outcome(code: int, saved: Option<map<string, Json>>, chunks: seq<string>)

  /** An exception escapes `main`: Python exits with status 1 and nothing
      is saved or sent. */
  const Crashed: Outcome := Outcome(1, None, [])

  function RunMode(dryRun: bool): string {
    if dryRun then "dry-run" else "post"
  }

  /** The state after `ensure_state_shape(load_state(...))` and the two
      run stamps; None when preparing it raises. */
  function Prepared(loaded: Option<Json>, dryRun: bool, now: string): (r: Option<map<string, Json>>)
    ensures r.Some? ==> HasFeeds(r.value)
    ensures r.Some? ==> "last_run_utc" in r.value && r.value["last_run_utc"] == JStr(now)
    ensures r.Some? ==> "last_run_mode" in r.value && r.value["last_run_mode"] == JStr(if dryRun then "dry-run" else "post")
  {
    var raw := LoadState(loaded);
    if !raw.JObj? then None
    else
      var shaped := ShapedState(raw.fields);
      ShapeRaisesOnlyOnBadFeeds(raw.fields);
      if shaped.None? then None
      else Some(shaped.value["last_run_utc" := JStr(now)]["last_run_mode" := JStr(RunMode(dryRun))])
  }

  /** Both feeds' states are dicts with a readable seen list. */
  predicate Readable(st: map<string, Json>) {
    HasFeeds(st) && FeedSeen(st, "ciso").Some? && FeedSeen(st, "rcd").Some?
  }

  function FeedFields(st: map<string, Json>, feed: string): map<string, Json>
    requires HasFeeds(st) && feed in st["feeds"].fields && st["feeds"].fields[feed].JObj?
  {
    st["feeds"].fields[feed].fields
  }

  /** `state["feeds"][feed]` replaced by `fs`. */
  function WithFeed(st: map<string, Json>, feed: string, fs: map<string, Json>): (r: map<string, Json>)
    requires HasFeeds(st)
    ensures HasFeeds(r)
  {
    st["feeds" := JObj(st["feeds"].fields[feed := JObj(fs)])]
  }

  /** The CISO request: the two knobs and the first episode. */
  function CisoReply(llm: Llm, args: NewsArgs, entries: seq<NewsItem>): Option<string> {
    if entries == [] then None else llm(CisoRequest(args.cisoMaxBullets, args.cisoSentences, entries[0]))
  }

  /** The RCD request: the knob and the selected articles. */
  function RcdReply(llm: Llm, args: NewsArgs, cs: seq<Candidate>): Option<string> {
    llm(RcdRequest(args.rcdBulletsPerArticle, cs))
  }

  ghost function CisoOf(st: map<string, Json>, entries: seq<NewsItem>, args: NewsArgs, llm: Llm, now: string): FeedStep
    requires Readable(st)
  {
    CisoRun(FeedFields(st, "ciso"), FeedSeen(st, "ciso").value, entries, args, CisoReply(llm, args, entries), now)
  }

  ghost function RcdOf(st: map<string, Json>, entries: seq<NewsItem>, args: NewsArgs, cal: Calendar,
                       todayIso: string, llm: Llm, now: string): FeedStep
    requires Readable(st)
  {
    var seen := FeedSeen(st, "rcd").value;
    var cs := Candidates(entries, args.rcdWindowDays, cal, seen, args.force, args.rcdMaxItems);
    RcdRun(FeedFields(st, "rcd"), seen, entries, args, cal, todayIso, RcdReply(llm, args, cs), now)
  }

  /** The sections present, CISO first. */
  function Sections(ciso: Option<string>, rcd: Option<string>): seq<string> {
    (if ciso.Some? then [ciso.value] else []) + (if rcd.Some? then [rcd.value] else [])
  }

  /** The rule between sections: a blank line, thirty dashes, a blank line. */
  const Separator: string := "\n\n" + "------------------------------" + "\n\n"

  /** The combined message: the sections joined by the rule. */
  function Message(sections: seq<string>): string {
    Join(sections, Separator)
  }

  /** The end of `main` once both steps ran: an exception from either model
      call ends the run; otherwise the message, when there is one, is cut
      into chunks and printed or posted (`delivered`: every post succeeds),
      and the state with both feeds' new states is saved. */
  function Finish(st: map<string, Json>, c: FeedStep, r: FeedStep, dryRun: bool, delivered: bool): (out: Outcome)
    requires HasFeeds(st)
    ensures out.code == 0 || out.code == 1
    ensures out.saved.Some? <==> out.code == 0
    ensures out.saved.Some? ==> HasFeeds(out.saved.value)
  {
    if c.crashed || r.crashed then Crashed
    else
      var sections := Sections(c.section, r.section);
      var chunks := if sections == [] then [] else Chunks(Message(sections), SlackMaxChars);
      if sections != [] && !dryRun && !delivered then Outcome(1, None, chunks)
      else Outcome(0, Some(WithFeed(WithFeed(st, "ciso", c.feed), "rcd", r.feed)), chunks)
  }

  /** `main`: exit 2 on missing configuration; 1 when an exception escapes
      (an unreadable state, a model call or a webhook post that raises);
      otherwise 0, with the state saved. */
  ghost function NewsMain(args: NewsArgs, hasOpenAiKey: bool, hasWebhook: bool, loaded: Option<Json>,
                          cisoEntries: seq<NewsItem>, rcdEntries: seq<NewsItem>, cal: Calendar, todayIso: string,
                          llm: Llm, delivered: bool, now: string): (out: Outcome)
    ensures out.code == 2 <==> !hasOpenAiKey || (!hasWebhook && !args.dryRun)
    ensures out.saved.Some? <==> out.code == 0
    ensures out.saved.Some? ==> HasFeeds(out.saved.value)
  {
    if !hasOpenAiKey || (!hasWebhook && !args.dryRun) then Outcome(2, None, [])
    else match Prepared(loaded, args.dryRun, now)
      case None => Crashed
      case Some(st) =>
        if !Readable(st) then Crashed
        else Finish(st, CisoOf(st, cisoEntries, args, llm, now), RcdOf(st, rcdEntries, args, cal, todayIso, llm, now),
                    args.dryRun, delivered)
  }

  /** Writing one feed's state: that feed reads back the new seen ids, any
      other feed reads as before. */
  lemma WithFeedSeen(st: map<string, Json>, feed: string, fs: map<string, Json>, other: string)
    requires HasFeeds(st) && other in st["feeds"].fields
    ensures FeedSeen(WithFeed(st, feed, fs), feed) == SeenIn(fs)
    ensures other != feed ==> FeedSeen(WithFeed(st, feed, fs), other) == FeedSeen(st, other)
  {
  }

  /** What a successful run saves as seen: in a dry run, both feeds' seen
      ids as loaded; in a real run, the CISO ids plus the first episode's id
      and the RCD ids plus the id of every selected candidate. */
  lemma SavedSeenIds(args: NewsArgs, hasOpenAiKey: bool, hasWebhook: bool, loaded: Option<Json>,
                     cisoEntries: seq<NewsItem>, rcdEntries: seq<NewsItem>, cal: Calendar, todayIso: string,
                     llm: Llm, delivered: bool, now: string)
    requires NewsMain(args, hasOpenAiKey, hasWebhook, loaded, cisoEntries, rcdEntries, cal, todayIso, llm, delivered, now).code == 0
    ensures Prepared(loaded, args.dryRun, now).Some? && Readable(Prepared(loaded, args.dryRun, now).value)
    ensures var st := Prepared(loaded, args.dryRun, now).value;
      var saved := NewsMain(args, hasOpenAiKey, hasWebhook, loaded, cisoEntries, rcdEntries, cal, todayIso, llm,
                            delivered, now).saved.value;
      var ciso0, rcd0 := FeedSeen(st, "ciso").value, FeedSeen(st, "rcd").value;
      var picked := Candidates(rcdEntries, args.rcdWindowDays, cal, rcd0, args.force, args.rcdMaxItems);
      HasFeeds(saved) &&
      FeedSeen(saved, "ciso") == Some(if args.dryRun then ciso0 else ciso0 + EpisodeId(cisoEntries)) &&
      FeedSeen(saved, "rcd") == Some(if args.dryRun then rcd0 else rcd0 + CandidateIds(picked))
  {
    var st := Prepared(loaded, args.dryRun, now).value;
    var ciso0, rcd0 := FeedSeen(st, "ciso").value, FeedSeen(st, "rcd").value;
    var c := CisoOf(st, cisoEntries, args, llm, now);
    var r := RcdOf(st, rcdEntries, args, cal, todayIso, llm, now);
    var picked := Candidates(rcdEntries, args.rcdWindowDays, cal, rcd0, args.force, args.rcdMaxItems);
    CisoRunSeen(FeedFields(st, "ciso"), ciso0, cisoEntries, args, CisoReply(llm, args, cisoEntries), now);
    RcdRunSeen(FeedFields(st, "rcd"), rcd0, rcdEntries, args, cal, todayIso, RcdReply(llm, args, picked), now);
    var mid := WithFeed(st, "ciso", c.feed);
    WithFeedSeen(st, "ciso", c.feed, "rcd");
    WithFeedSeen(mid, "rcd", r.feed, "ciso");
  }

  /** The next run reads back exactly the seen ids this one saved. */
  lemma ReloadKeepsSeen(saved: map<string, Json>, dryRun: bool, now: string)
    requires Readable(saved)
    ensures Prepared(Some(JObj(saved)), dryRun, now).Some?
    ensures var st := Prepared(Some(JObj(saved)), dryRun, now).value;
      Readable(st) && FeedSeen(st, "ciso") == FeedSeen(saved, "ciso") && FeedSeen(st, "rcd") == FeedSeen(saved, "rcd")
  {
    ShapeKeepsExisting(saved);
  }

  /** The message sent is the sections joined by the rule, cut into chunks
      that spell it again; both sections appear in it, and the run fails
      after the model calls only when there was something to post and the
      post did not go through. */
  lemma FinishSendsSections(st: map<string, Json>, c: FeedStep, r: FeedStep, dryRun: bool, delivered: bool)
    requires HasFeeds(st) && !c.crashed && !r.crashed
    ensures var out := Finish(st, c, r, dryRun, delivered);
      var sections := Sections(c.section, r.section);
      Concat(out.chunks) == Message(sections) &&
      (c.section.Some? ==> Contains(Concat(out.chunks), c.section.value)) &&
      (r.section.Some? ==> Contains(Concat(out.chunks), r.section.value)) &&
      (out.code == 1 <==> sections != [] && !dryRun && !delivered)
  {
    var sections := Sections(c.section, r.section);
    if sections == [] {
      assert Concat([]) == [];
    } else {
      ChunksSpellMessage(Message(sections), SlackMaxChars);
      if c.section.Some? {
        JoinContains(sections, Separator, 0);
      }
      if r.section.Some? {
        JoinContains(sections, Separator, |sections| - 1);
      }
    }
  }

  /** Run twice, the second time without --force on the state the first
      (real) run saved: the episode the first run recorded is not posted
      again, and no item the first run selected is selected again. */
  lemma NextRunSkipsPosted(args: NewsArgs, hasOpenAiKey: bool, hasWebhook: bool, loaded: Option<Json>,
                           cisoEntries: seq<NewsItem>, rcdEntries: seq<NewsItem>, cal: Calendar, todayIso: string,
                           llm: Llm, delivered: bool, now: string,
                           args2: NewsArgs, cisoEntries2: seq<NewsItem>, rcdEntries2: seq<NewsItem>, cal2: Calendar,
                           todayIso2: string, llm2: Llm, now2: string)
    requires NewsMain(args, hasOpenAiKey, hasWebhook, loaded, cisoEntries, rcdEntries, cal, todayIso, llm, delivered, now).code == 0
    requires !args.dryRun && !args2.force && !args2.dryRun
    ensures var st := Prepared(loaded, args.dryRun, now).value;
      var saved := NewsMain(args, hasOpenAiKey, hasWebhook, loaded, cisoEntries, rcdEntries, cal, todayIso, llm,
                            delivered, now).saved.value;
      var st2 := Prepared(Some(JObj(saved)), args2.dryRun, now2);
      st2.Some? && Readable(st2.value) &&
      var picked := Candidates(rcdEntries, args.rcdWindowDays, cal, FeedSeen(st, "rcd").value, args.force, args.rcdMaxItems);
      var next := Candidates(rcdEntries2, args2.rcdWindowDays, cal2, FeedSeen(st2.value, "rcd").value, false,
                             args2.rcdMaxItems);
      (cisoEntries2 != [] && NormalizeId(cisoEntries2[0]) in EpisodeId(cisoEntries) ==>
         CisoOf(st2.value, cisoEntries2, args2, llm2, now2).section.None?) &&
      (forall k :: 0 <= k < |next| ==> next[k].item.id !in CandidateIds(picked))
  {
    SavedSeenIds(args, hasOpenAiKey, hasWebhook, loaded, cisoEntries, rcdEntries, cal, todayIso, llm, delivered, now);
    var saved := NewsMain(args, hasOpenAiKey, hasWebhook, loaded, cisoEntries, rcdEntries, cal, todayIso, llm,
                          delivered, now).saved.value;
    ReloadKeepsSeen(saved, args2.dryRun, now2);
    var st2 := Prepared(Some(JObj(saved)), args2.dryRun, now2).value;
    var rcd2 := FeedSeen(st2, "rcd").value;
    CandidatesValid(rcdEntries2, args2.rcdWindowDays, cal2, rcd2, false, args2.rcdMaxItems);
    CisoRunSection(FeedFields(st2, "ciso"), FeedSeen(st2, "ciso").value, cisoEntries2, args2,
                   CisoReply(llm2, args2, cisoEntries2), now2);
  }

  // ----------------------------------------------------------------------
  // `main`, step by step
  // ----------------------------------------------------------------------

  /** The CISO part of `main`, on the feed's state dict and seen set. */
  method CisoStep(feed: map<string, Json>, seen0: set<string>, entries: seq<NewsItem>, args: NewsArgs,
                  llm: Llm, now: string)
    returns (step: FeedStep)
    ensures step == CisoRun(feed, seen0, entries, args, CisoReply(llm, args, entries), now)
  {
    if entries == [] {
      return FeedStep(feed, seen0, None, false);
    }
    var ep := entries[0];
    var epId := NormalizeId(ep);
    var fs := NoteEpisode(feed, epId, ep);
    var shouldPost := args.force || epId !in seen0;
    if !(shouldPost || args.dryRun) {
      return FeedStep(fs, seen0, None, false);
    }
    var reply := llm(CisoRequest(args.cisoMaxBullets, args.cisoSentences, ep));
    if reply.None? {
      return FeedStep(fs, seen0, None, true);
    }
    var section := CisoSection(ep, CisoBullets(ep, reply.value));
    if !args.dryRun && epId != [] {
      var seen := seen0 + {epId};
      var ids := SortedIds(seen);
      fs := fs["seen_ids" := StrArray(ids)]["last_posted_utc" := JStr(now)];
      return FeedStep(fs, seen, Some(section), false);
    }
    return FeedStep(fs, seen0, Some(section), false);
  }

  /** The loop of `main` adding every candidate's id to the seen set. */
  method AddCandidateIds(seen0: set<string>, cs: seq<Candidate>) returns (seen: set<string>)
    ensures seen == seen0 + CandidateIds(cs)
  {
    seen := seen0;
    for k := 0 to |cs|
      invariant seen == seen0 + CandidateIds(cs[..k])
    {
      assert cs[..k + 1][..k] == cs[..k];
      seen := seen + {cs[k].item.id};
    }
    assert cs[..|cs|] == cs;
  }

  /** The RCD part of `main`, on the feed's state dict and seen set. */
  method RcdStep(feed: map<string, Json>, seen0: set<string>, entries: seq<NewsItem>, args: NewsArgs,
                 cal: Calendar, todayIso: string, llm: Llm, now: string)
    returns (step: FeedStep)
    ensures var cs := Candidates(entries, args.rcdWindowDays, cal, seen0, args.force, args.rcdMaxItems);
      step == RcdRun(feed, seen0, entries, args, cal, todayIso, RcdReply(llm, args, cs), now)
  {
    var cs, pipeline := SelectRcdCandidates(entries, args.rcdWindowDays, cal, seen0, args.force, args.rcdMaxItems);
    var fs := NoteScan(feed, todayIso, pipeline, |entries|);
    if cs == [] {
      return FeedStep(fs, seen0, None, false);
    }
    var reply := llm(RcdRequest(args.rcdBulletsPerArticle, cs));
    if reply.None? {
      return FeedStep(fs, seen0, None, true);
    }
    var tags := SortedIds(TagSet(cs));
    var tagLine := Join(tags, " / ");
    if tagLine == [] {
      tagLine := "Filtered";
    }
    var section := RcdSection(args.rcdWindowDays, tagLine, todayIso, RcdBullets(reply.value));
    if args.dryRun {
      return FeedStep(fs, seen0, Some(section), false);
    }
    var seen := AddCandidateIds(seen0, cs);
    var ids := SortedIds(seen);
    fs := fs["seen_ids" := StrArray(ids)]["last_posted_utc" := JStr(now)];
    return FeedStep(fs, seen, Some(section), false);
  }

  /** `ensure_state_shape(load_state(...))` and the two run stamps. */
  method PrepareState(loaded: Option<Json>, dryRun: bool, now: string) returns (st: Option<map<string, Json>>)
    ensures st == Prepared(loaded, dryRun, now)
  {
    var raw := LoadState(loaded);
    if !raw.JObj? {
      return None;
    }
    var shaped := EnsureStateShape(raw.fields);
    if shaped.None? {
      return None;
    }
    return Some(shaped.value["last_run_utc" := JStr(now)]["last_run_mode" := JStr(RunMode(dryRun))]);
  }

  /** The end of `main`: the message chunked and sent, the state saved. */
  method FinishRun(st: map<string, Json>, c: FeedStep, r: FeedStep, dryRun: bool, delivered: bool)
    returns (out: Outcome)
    requires HasFeeds(st)
    ensures out == Finish(st, c, r, dryRun, delivered)
  {
    if c.crashed || r.crashed {
      return Crashed;
    }
    var sections := Sections(c.section, r.section);
    var chunks := [];
    if sections != [] {
      chunks := ChunkForSlack(Message(sections), SlackMaxChars);
    }
    if sections != [] && !dryRun && !delivered {
      return Outcome(1, None, chunks);
    }
    return Outcome(0, Some(WithFeed(WithFeed(st, "ciso", c.feed), "rcd", r.feed)), chunks);
  }

  /** `main` after the feeds are fetched: `loaded` is the state file's
      content (None when missing or unreadable), `delivered` whether every
      webhook post succeeds. */
  method RunNews(args: NewsArgs, hasOpenAiKey: bool, hasWebhook: bool, loaded: Option<Json>,
                 cisoEntries: seq<NewsItem>, rcdEntries: seq<NewsItem>, cal: Calendar, todayIso: string,
                 llm: Llm, delivered: bool, now: string)
    returns (out: Outcome)
    ensures out == NewsMain(args, hasOpenAiKey, hasWebhook, loaded, cisoEntries, rcdEntries, cal, todayIso,
                            llm, delivered, now)
  {
    if !hasOpenAiKey || (!hasWebhook && !args.dryRun) {
      return Outcome(2, None, []);
    }
    var prepared := PrepareState(loaded, args.dryRun, now);
    if prepared.None? || !Readable(prepared.value) {
      return Crashed;
    }
    var st := prepared.value;
    var c := CisoStep(FeedFields(st, "ciso"), FeedSeen(st, "ciso").value, cisoEntries, args, llm, now);
    var r := RcdStep(FeedFields(st, "rcd"), FeedSeen(st, "rcd").value, rcdEntries, args, cal, todayIso, llm, now);
    out := FinishRun(st, c, r, args.dryRun, delivered);
  }
}
