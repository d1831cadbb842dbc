/** MARADMIN.py, `main`: what happens to each new entry (the fetch, the
    fallbacks and the summary that ends up in `summaries`), and the run
    itself: the seen-id set, the message and the state written back. The
    network, the model and the clock are inputs. */
module MaradminRun {
  import opened Wrappers
  import opened Text
  import opened JsonValue
  import opened MaradminFeed
  import opened MaradminExtract
  import opened MaradminClassify
  import opened MaradminSummary
  import opened SlackChunks

  // ----------------------------------------------------------------------
  // The outside world, per entry
  // ----------------------------------------------------------------------

  /** What `http_get(link)` does: returns the page (given as the text
      `get_text` makes of it), raises `requests.HTTPError` (with the status
      code when there is a response), or raises some other error. */
  datatype Fetch = Page(visible: string) | HttpError(status: Option<int>) | FetchFailed

  /** What the model call does: returns its output text, or raises. */
  datatype Reply = Reply(text: string) | ModelFailed

  /** Everything outside the script that one entry's processing meets:
      the text `get_text` makes of the RSS summary, the page fetch and the
      model call. */
  datatype World = World(rssVisible: string, fetch: Fetch, reply: Reply)

  /** The mode as `choose_summary_mode` names it. */
  function ModeName(m: Mode): string {
    match m
    case ReadAsap => "read_asap"
    case DatesOnly => "dates_only"
    case BriefResults => "brief_results"
    case Full17xx => "full_17xx"
    case FyiNot17xx => "fyi_not_17xx"
    case Minimal => "minimal"
  }

  /** The first show-raw line on the two paths. */
  const NotSummarized: string := "(show-raw enabled; not summarized)"
  const UsingRss: string := "(show-raw enabled; using RSS summary)"

  const OpenLinkBullet: string := "Open the link to read this MARADMIN."
  const BlockedNote: string := "(Note: full text fetch blocked; using RSS excerpt \U{2014} open link for full details.)"

  /** The summary every failure path stores. */
  const OpenLinkInfo: Info := Info(Minimal, None, [OpenLinkBullet])

  /** The bullets stored under --show-raw, which makes no model call. */
  function RawBullets(first: string, m: Mode): seq<string> {
    [first, "Mode: " + ModeName(m), "Open the link to read."]
  }

  /** The summary of an entry whose text is `text`, once the text is known.
      `numberOf` stands for `MARADMIN_NUM_RE.search(...).group(1)` on
      `f"{title}\n{text}"`. On the fallback path `rawFirst` is the other
      show-raw line and `note` says whether the 403 note is added. A failed
      model call yields None: the caller stores the open-link summary. */
  function Summarize(e: Entry, text: string, reply: Reply, showRaw: bool, rawFirst: string, note: bool,
                     numberOf: string -> Option<string>): Option<Info>
  {
    var number := numberOf(e.title + "\n" + text);
    var d := ChooseSummaryMode(Classify(e.title, text), e.title, text);
    if showRaw then Some(Info(d.mode, number, RawBullets(rawFirst, d.mode)))
    else match reply
      case ModelFailed => None
      case Reply(out) =>
        var lines := BulletLines(out, d.bullets);
        Some(Info(d.mode, number, if note then lines + [BlockedNote] else lines))
  }

  /** A failed summary becomes the open-link summary. */
  function OrOpenLink(o: Option<Info>): Info {
    if o.Some? then o.value else OpenLinkInfo
  }

  /** The text the try-block summarizes before any fetch: the cleaned RSS
      summary when it looks like the full message, else empty. */
  function RssText(e: Entry, w: World): string {
    if LooksLikeFullMessage(e.summary) then CleanRssSummary(e.summary, w.rssVisible) else []
  }

  /** Which text the entry is summarized from, with the show-raw line and
      whether the 403 note is added: the cleaned RSS summary when it looks
      like the full message; else the fetched page; else, after an HTTP
      error, the cleaned RSS summary when it is not empty. None when there
      is nothing to summarize. */
  function Source(e: Entry, w: World): (src: Option<(string, string, bool)>)
    ensures RssText(e, w) != [] ==> src == Some((RssText(e, w), NotSummarized, false))
    ensures RssText(e, w) == [] && w.fetch.Page? ==> src == Some((MessageText(w.fetch.visible), NotSummarized, false))
    ensures RssText(e, w) == [] && w.fetch.HttpError? ==>
      (src.Some? <==> CleanRssSummary(e.summary, w.rssVisible) != []) &&
      (src.Some? ==> src.value.0 == CleanRssSummary(e.summary, w.rssVisible) && src.value.1 == UsingRss)
    ensures RssText(e, w) == [] && w.fetch == FetchFailed ==> src == None
    ensures src.Some? && src.value.2 <==>
      RssText(e, w) == [] && w.fetch == HttpError(Some(403)) && CleanRssSummary(e.summary, w.rssVisible) != []
  {
    var rss := RssText(e, w);
    if rss != [] then Some((rss, NotSummarized, false))
    else match w.fetch
      case Page(visible) => Some((MessageText(visible), NotSummarized, false))
      case HttpError(status) =>
        var fallback := CleanRssSummary(e.summary, w.rssVisible);
        if fallback == [] then None
        else Some((fallback, UsingRss, status == Some(403)))
      case FetchFailed => None
  }

  /** The page is fetched only when the RSS summary does not do: when it looks
      like the full message and cleans to some text, the fetch's outcome
      changes nothing. There is nothing to summarize exactly when the RSS
      summary does not do and the fetch fails, or raises an HTTP error while
      the RSS summary cleans to nothing. */
  lemma SourceFetchesOnlyWhenNeeded(e: Entry, w: World, f: Fetch)
    ensures RssText(e, w) != [] ==> Source(e, w.(fetch := f)) == Source(e, w)
    ensures Source(e, w).None? <==>
      RssText(e, w) == [] && (w.fetch == FetchFailed || (w.fetch.HttpError? && CleanRssSummary(e.summary, w.rssVisible) == []))
  {
    assert RssText(e, w.(fetch := f)) == RssText(e, w);
  }

  /** What `main` stores in `summaries[nid]` for entry `e`: the summary of
      its source text, or the open-link summary when there is no text or
      the model call fails. */
  function ProcessEntry(e: Entry, w: World, showRaw: bool, numberOf: string -> Option<string>): Info {
    match Source(e, w)
    case None => OpenLinkInfo
    case Some((text, rawFirst, note)) => OrOpenLink(Summarize(e, text, w.reply, showRaw, rawFirst, note, numberOf))
  }

  /** A summary that came back has at least one bullet; without --show-raw it
      holds at most the mode's budget of reply lines, plus the 403 note as
      the last line when `note` is set. */
  lemma SummarizeBullets(e: Entry, text: string, reply: Reply, showRaw: bool, rawFirst: string, note: bool,
                         numberOf: string -> Option<string>)
    requires Summarize(e, text, reply, showRaw, rawFirst, note, numberOf).Some?
    ensures var info := Summarize(e, text, reply, showRaw, rawFirst, note, numberOf).value;
      |info.bullets| >= 1 &&
      (!showRaw && !note ==> |info.bullets| <= Budget(info.mode)) &&
      (!showRaw && note ==> |info.bullets| <= Budget(info.mode) + 1 && info.bullets[|info.bullets| - 1] == BlockedNote)
  {
    var d := ChooseSummaryMode(Classify(e.title, text), e.title, text);
    if !showRaw {
      BulletLinesShape(reply.text, d.bullets);
    }
  }

  /** The stored bullets are never empty. Without --show-raw they stay within
      the mode's budget, except on the 403 fallback, where the note makes one
      more and is the last line. */
  lemma ProcessEntryBullets(e: Entry, w: World, showRaw: bool, numberOf: string -> Option<string>)
    ensures |ProcessEntry(e, w, showRaw, numberOf).bullets| >= 1
    ensures var info := ProcessEntry(e, w, showRaw, numberOf);
      !showRaw ==>
        |info.bullets| <= Budget(info.mode) ||
        (w.fetch == HttpError(Some(403)) && |info.bullets| == Budget(info.mode) + 1 && info.bullets[|info.bullets| - 1] == BlockedNote)
  {
    var src := Source(e, w);
    if src.Some? {
      var (text, rawFirst, note) := src.value;
      if Summarize(e, text, w.reply, showRaw, rawFirst, note, numberOf).Some? {
        SummarizeBullets(e, text, w.reply, showRaw, rawFirst, note, numberOf);
      }
    }
  }

  /** The budget is exceeded on the 403 fallback: when the RSS summary does
      not look like the full message but cleans to some text, the page fetch
      is refused with 403, and the model's reply has at least as many usable
      lines as the budget, the stored list is one longer than the budget. */
  lemma BlockedFetchExceedsBudget(e: Entry, w: World, numberOf: string -> Option<string>)
    requires !LooksLikeFullMessage(e.summary)
    requires CleanRssSummary(e.summary, w.rssVisible) != []
    requires w.fetch == HttpError(Some(403)) && w.reply.Reply?
    requires var t := CleanRssSummary(e.summary, w.rssVisible);
      |UsableLines(SplitLines(Strip(w.reply.text)))| >= Budget(ChooseSummaryMode(Classify(e.title, t), e.title, t).mode)
    ensures var info := ProcessEntry(e, w, false, numberOf);
      |info.bullets| == Budget(info.mode) + 1
  {
    var t := CleanRssSummary(e.summary, w.rssVisible);
    var d := ChooseSummaryMode(Classify(e.title, t), e.title, t);
    BulletLinesShape(w.reply.text, d.bullets);
    var kept := UsableLines(SplitLines(Strip(w.reply.text)));
    assert |BulletLines(w.reply.text, d.bullets)| == d.bullets;
  }

  /** An entry whose page cannot be fetched and whose RSS summary cleans to
      nothing gets the open-link summary, whatever the error. */
  lemma UnfetchableEntryOpensLink(e: Entry, w: World, showRaw: bool, numberOf: string -> Option<string>)
    requires RssText(e, w) == [] && !w.fetch.Page?
    requires CleanRssSummary(e.summary, w.rssVisible) == []
    ensures ProcessEntry(e, w, showRaw, numberOf) == OpenLinkInfo
  {
  }

  // ----------------------------------------------------------------------
  // The run
  // ----------------------------------------------------------------------

  /** `fetch_rss_entries(feed_url)[: max(1, args.max)]`. */
  function Capped(entries: seq<Entry>, maxItems: int): (r: seq<Entry>)
    ensures |r| == Min(|entries|, Max(1, maxItems)) && r == entries[..|r|]
  {
    entries[..Min(|entries|, Max(1, maxItems))]
  }

  /** The entries processed: all capped entries under --force, else the new ones. */
  function Batch(capped: seq<Entry>, seen: set<string>, force: bool): seq<Entry> {
    if force then capped else NewEntries(capped, seen)
  }

  /** The ids of a list of entries. */
  function IdsOf(entries: seq<Entry>): (r: set<string>)
    decreases |entries|
  {
    if entries == [] then {}
    else
      var n := |entries| - 1;
      IdsOf(entries[..n]) + {NormalizeId(entries[n])}
  }

  /** What `main` stores for each entry. */
  function SummaryOf(world: Entry -> World, showRaw: bool, numberOf: string -> Option<string>): Entry -> Info {
    e => ProcessEntry(e, world(e), showRaw, numberOf)
  }

  /** The dict a loop builds that stores `store(e)` under the id of each
      entry `e` in turn: one value per id, the later of two entries with the
      same id winning. */
  function Stored(batch: seq<Entry>, store: Entry -> Info): map<string, Info>
    decreases |batch|
  {
    if batch == [] then map[]
    else
      var e := batch[|batch| - 1];
      Stored(batch[..|batch| - 1], store)[NormalizeId(e) := store(e)]
  }

  /** The `summaries` dict after the loop. */
  function Summaries(batch: seq<Entry>, world: Entry -> World, showRaw: bool, numberOf: string -> Option<string>): map<string, Info> {
    Stored(batch, SummaryOf(world, showRaw, numberOf))
  }

  /** The ids are those of the entries, and only those. */
  lemma {:induction false} IdsOfMembers(entries: seq<Entry>)
    ensures forall e :: e in entries ==> NormalizeId(e) in IdsOf(entries)
    ensures forall x :: x in IdsOf(entries) ==> exists e :: e in entries && NormalizeId(e) == x
    decreases |entries|
  {
    if entries != [] {
      var n := |entries| - 1;
      IdsOfMembers(entries[..n]);
      assert entries == entries[..n] + [entries[n]];
    }
  }

  /** Taking one more entry into account. */
  lemma IdsOfStep(batch: seq<Entry>, i: int)
    requires 0 <= i < |batch|
    ensures IdsOf(batch[..i + 1]) == IdsOf(batch[..i]) + {NormalizeId(batch[i])}
  {
    assert batch[..i + 1][..i] == batch[..i];
  }

  /** Storing one more entry. */
  lemma StoredStep(batch: seq<Entry>, i: int, store: Entry -> Info)
    requires 0 <= i < |batch|
    ensures Stored(batch[..i + 1], store) == Stored(batch[..i], store)[NormalizeId(batch[i]) := store(batch[i])]
  {
    assert batch[..i + 1][..i] == batch[..i];
  }

  /** The value stored under an id is that of the last entry in the batch
      with that id: a later entry with the same id overwrites it. */
  lemma {:induction false} StoredLastWins(batch: seq<Entry>, k: int, store: Entry -> Info)
    requires 0 <= k < |batch|
    requires forall l :: k < l < |batch| ==> NormalizeId(batch[l]) != NormalizeId(batch[k])
    ensures NormalizeId(batch[k]) in Stored(batch, store)
    ensures Stored(batch, store)[NormalizeId(batch[k])] == store(batch[k])
    decreases |batch|
  {
    var n := |batch| - 1;
    if k < n {
      StoredLastWins(batch[..n], k, store);
    }
  }

  /** Every entry has a value stored, and the keys are exactly the ids. */
  lemma {:induction false} StoredKeys(batch: seq<Entry>, store: Entry -> Info)
    ensures Stored(batch, store).Keys == IdsOf(batch)
    decreases |batch|
  {
    if batch != [] {
      var n := |batch| - 1;
      StoredKeys(batch[..n], store);
      IdsOfStep(batch, n);
      assert batch[..n + 1] == batch;
    }
  }

  /** How a run ends. `saved` is the state written back, None when nothing
      is written; `chunks` are the message's chunks. */
  datatype Outcome = Outcome(code: int, saved: Option<map<string, Json>>, chunks: seq<string>)

  /** The configuration checks at the top of `main`: an OpenAI key unless
      --show-raw, a webhook unless --dry-run or --show-raw. */
  predicate ConfigOk(hasOpenAiKey: bool, hasWebhook: bool, dryRun: bool, showRaw: bool) {
    (hasOpenAiKey || showRaw) && (hasWebhook || dryRun || showRaw)
  }

  /** The loop of `main` over the batch: each entry's summary is stored
      under its id and the id is added to the seen set. */
  method SummarizeBatch(batch: seq<Entry>, seen0: set<string>, world: Entry -> World, showRaw: bool,
                        numberOf: string -> Option<string>)
    returns (summaries: map<string, Info>, seen: set<string>)
    ensures summaries == Summaries(batch, world, showRaw, numberOf)
    ensures seen == seen0 + IdsOf(batch)
  {
    // `process` is `process_entry` with this run's world and options.
    var process := SummaryOf(world, showRaw, numberOf);
    summaries := map[];
    seen := seen0;
    var i := 0;
    while i < |batch|
      invariant 0 <= i <= |batch|
      invariant seen == seen0 + IdsOf(batch[..i])
      invariant summaries == Stored(batch[..i], process)
    {
      IdsOfStep(batch, i);
      StoredStep(batch, i, process);
      var e := batch[i];
      var nid := NormalizeId(e);
      summaries := summaries[nid := process(e)];
      seen := seen + {nid};
      i := i + 1;
    }
    assert batch[..|batch|] == batch;
  }

  /** `saved` is `state` with the ids of `seen` written back sorted and
      the run time stamp. */
  ghost predicate SavesSeen(saved: map<string, Json>, state: map<string, Json>, seen: set<string>, now: string) {
    exists ids :: StrictlySorted(ids) && (forall x :: x in ids <==> x in seen) && saved == SavedState(state, ids, now)
  }

  /** `state["seen_ids"] = sorted(seen)` and the run time stamp. */
  method SaveSeen(state: map<string, Json>, seen: set<string>, now: string) returns (saved: map<string, Json>)
    ensures SavesSeen(saved, state, seen, now)
  {
    var ids := SortedIds(seen);
    saved := SavedState(state, ids, now);
    assert StrictlySorted(ids) && (forall x :: x in ids <==> x in seen) && saved == SavedState(state, ids, now);
  }

  /** How a run ends once its batch is known: no batch, no message; the
      message's chunks otherwise; a post that fails ends the run before the
      state is saved; any other run succeeds and saves the seen ids with
      the batch's ids added. */
  ghost predicate BatchOutcome(out: Outcome, state: map<string, Json>, seen0: set<string>, batch: seq<Entry>,
                               dryRun: bool, showRaw: bool, world: Entry -> World,
                               numberOf: string -> Option<string>, delivered: bool, now: string, stamp: string)
  {
    var posting := !dryRun && !showRaw;
    (batch == [] ==> out.chunks == []) &&
    (batch != [] ==> out.chunks == Chunks(SlackMessage(batch, Summaries(batch, world, showRaw, numberOf), stamp), SlackMaxChars)) &&
    (batch != [] && posting && !delivered ==> out.code == 1 && out.saved == None) &&
    (batch == [] || !posting || delivered ==>
      out.code == 0 && out.saved.Some? && SavesSeen(out.saved.value, state, seen0 + IdsOf(batch), now))
  }

  /** An exception escapes `main`: Python exits with status 1, and nothing
      is sent or saved. */
  const Crashed: Outcome := Outcome(1, None, [])

  /** `main` after argument parsing. `loaded` is the state file as
      `json.load` reads it (None when it is missing or does not parse); a
      file holding anything but a JSON object makes `state.get` raise.
      `feed` is what `fetch_rss_entries` returns, None when it raises (a
      feed that fails to fetch or parse is reported as bozo); `main` does
      not catch that.
      `delivered` says whether every webhook post succeeds (a failed post
      raises and ends the run before the state is saved); `now` and `stamp`
      stand for the clock. */
  method RunMaradmin(loaded: Option<Json>, feed: Option<seq<Entry>>, maxItems: int,
                     force: bool, dryRun: bool, showRaw: bool, hasOpenAiKey: bool, hasWebhook: bool,
                     world: Entry -> World, numberOf: string -> Option<string>, delivered: bool,
                     now: string, stamp: string)
    returns (out: Outcome)
    ensures !ConfigOk(hasOpenAiKey, hasWebhook, dryRun, showRaw) ==> out == Outcome(2, None, [])
    ensures ConfigOk(hasOpenAiKey, hasWebhook, dryRun, showRaw) && !LoadState(loaded).JObj? ==> out == Crashed
    ensures ConfigOk(hasOpenAiKey, hasWebhook, dryRun, showRaw) && LoadState(loaded).JObj? && feed.None? ==>
      out == Crashed
    ensures ConfigOk(hasOpenAiKey, hasWebhook, dryRun, showRaw) && LoadState(loaded).JObj? && feed.Some? ==>
      var state := LoadState(loaded).fields;
      var seen := LoadSeenIds(state);
      BatchOutcome(out, state, seen, Batch(Capped(feed.value, maxItems), seen, force), dryRun, showRaw, world, numberOf,
                   delivered, now, stamp)
  {
    if !ConfigOk(hasOpenAiKey, hasWebhook, dryRun, showRaw) {
      return Outcome(2, None, []);
    }
    var raw := LoadState(loaded);
    if !raw.JObj? {
      return Crashed;
    }
    var state := raw.fields;
    var seen := LoadSeenIds(state);
    ghost var seen0 := seen;
    if feed.None? {
      return Crashed;
    }
    var capped := Capped(feed.value, maxItems);
    var batch: seq<Entry>;
    if force {
      batch := capped;
    } else {
      batch := FindNewEntries(capped, seen);
    }
    if batch == [] {
      assert seen == seen0 + IdsOf(batch);
      var saved := SaveSeen(state, seen, now);
      return Outcome(0, Some(saved), []);
    }
    out := PostBatch(state, seen, batch, dryRun, showRaw, world, numberOf, delivered, now, stamp);
  }

  /** The rest of `main` once the batch is known and not empty: summarize,
      build and post the message, then save the seen ids. */
  method PostBatch(state: map<string, Json>, seen0: set<string>, batch: seq<Entry>, dryRun: bool, showRaw: bool,
                   world: Entry -> World, numberOf: string -> Option<string>, delivered: bool,
                   now: string, stamp: string)
    returns (out: Outcome)
    requires batch != []
    ensures BatchOutcome(out, state, seen0, batch, dryRun, showRaw, world, numberOf, delivered, now, stamp)
  {
    var summaries, seen := SummarizeBatch(batch, seen0, world, showRaw, numberOf);
    var message := BuildSlackMessage(batch, summaries, stamp);
    var chunks := ChunkForSlack(message, SlackMaxChars);
    if !dryRun && !showRaw && !delivered {
      return Outcome(1, None, chunks);
    }
    var saved := SaveSeen(state, seen, now);
    return Outcome(0, Some(saved), chunks);
  }

  /** The seen-id list written back holds every id seen before and the id
      of every processed entry, --force or not. */
  lemma SavedSeenGrows(state: map<string, Json>, batch: seq<Entry>, ids: seq<string>, now: string)
    requires forall x :: x in ids <==> x in LoadSeenIds(state) + IdsOf(batch)
    ensures LoadSeenIds(state) <= LoadSeenIds(SavedState(state, ids, now))
    ensures forall e :: e in batch ==> NormalizeId(e) in LoadSeenIds(SavedState(state, ids, now))
  {
    forall x | x in LoadSeenIds(state) + IdsOf(batch)
      ensures x in LoadSeenIds(SavedState(state, ids, now))
    {
      LoadAfterSave(state, ids, now);
    }
    IdsOfMembers(batch);
  }

  /** A second run over the same feed finds nothing new: every capped entry
      either has no id or has its id in the saved list. */
  lemma SecondRunFindsNothing(state: map<string, Json>, entries: seq<Entry>, maxItems: int, force: bool,
                              ids: seq<string>, now: string)
    requires var batch := Batch(Capped(entries, maxItems), LoadSeenIds(state), force);
      forall x :: x in ids <==> x in LoadSeenIds(state) + IdsOf(batch)
    ensures NewEntries(Capped(entries, maxItems), LoadSeenIds(SavedState(state, ids, now))) == []
  {
    var capped := Capped(entries, maxItems);
    var seen := LoadSeenIds(state);
    var batch := Batch(capped, seen, force);
    var after := LoadSeenIds(SavedState(state, ids, now));
    NewEntriesMembers(capped, seen);
    IdsOfMembers(batch);
    forall k | 0 <= k < |capped|
      ensures !IsNew(capped[k], after)
    {
      var e := capped[k];
      if NormalizeId(e) != [] {
        if IsNew(e, seen) {
          assert e in batch;
        }
        assert NormalizeId(e) in ids;
        LoadAfterSave(state, ids, now);
      }
    }
    NewEntriesNone(capped, after);
  }
}
