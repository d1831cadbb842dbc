/** cisoTranscriber.py: which CISO Series Cybersecurity Headlines episode a
    run picks up, and what it records. The candidate URLs of a day, the first
    of them the host serves, the scan from today back `--days-back` days that
    skips episodes already processed, the state file's "processed" map and
    the entry written once the episode is downloaded, transcribed and
    summarized. Whether a URL is served (`url_exists`), the download and the
    two OpenAI calls are inputs. */
module CisoEpisodes {
  import opened Wrappers
  import opened Text
  import opened JsonValue
  import opened Calendar

  // ----------------------------------------------------------------------
  // Candidate URLs
  // ----------------------------------------------------------------------

  /** LIBSYN_BASE. */
  const LibsynBase: string := "https://traffic.libsyn.com/secure/cisoseries"

  /** The entries of FILENAME_PATTERNS: "CSH_{yyyymmdd}.mp3" and
      "CSH-{yyyy}-{mm}-{dd}.mp3". */
  datatype Pattern = Compact | Dashed

  const FilenamePatterns: seq<Pattern> := [Compact, Dashed]

  /** `pat.format(...)` with the day's zero-padded fields. */
  function FileName(pat: Pattern, day: Date): string
    requires ValidDate(day)
  {
    match pat
    case Compact => "CSH_" + Yyyy(day) + Mm(day) + Dd(day) + ".mp3"
    case Dashed => "CSH-" + Yyyy(day) + "-" + Mm(day) + "-" + Dd(day) + ".mp3"
  }

  function UrlFor(pat: Pattern, day: Date): string
    requires ValidDate(day)
  {
    LibsynBase + "/" + FileName(pat, day)
  }

  /** What `build_candidate_urls(day)` returns: one URL per pattern, in
      pattern order. */
  function CandidateUrls(day: Date): (r: seq<string>)
    requires ValidDate(day)
    ensures |r| == |FilenamePatterns|
    ensures forall i :: 0 <= i < |r| ==> r[i] == UrlFor(FilenamePatterns[i], day)
  {
    [UrlFor(Compact, day), UrlFor(Dashed, day)]
  }

  /** `build_candidate_urls`: the loop over FILENAME_PATTERNS. */
  method BuildCandidateUrls(day: Date) returns (urls: seq<string>)
    requires ValidDate(day)
    ensures urls == CandidateUrls(day)
    ensures urls == [LibsynBase + "/CSH_" + Yyyy(day) + Mm(day) + Dd(day) + ".mp3",
                     LibsynBase + "/CSH-" + Yyyy(day) + "-" + Mm(day) + "-" + Dd(day) + ".mp3"]
  {
    urls := [];
    for i := 0 to |FilenamePatterns|
      invariant urls == CandidateUrls(day)[..i]
    {
      var fname := FileName(FilenamePatterns[i], day);
      urls := urls + [LibsynBase + "/" + fname];
    }
    assert CandidateUrls(day)[..2] == CandidateUrls(day);
    assert LibsynBase + "/" + FileName(Compact, day) == LibsynBase + "/CSH_" + Yyyy(day) + Mm(day) + Dd(day) + ".mp3";
    assert LibsynBase + "/" + FileName(Dashed, day)
        == LibsynBase + "/CSH-" + Yyyy(day) + "-" + Mm(day) + "-" + Dd(day) + ".mp3";
  }

  lemma SamePrefixSameRest(a: string, b: string, c: string)
    requires a + b == a + c
    ensures b == c
  {
    assert b == (a + b)[|a|..];
    assert c == (a + c)[|a|..];
  }

  /** Dates whose four fields read the same are the same date. */
  lemma FieldsDetermineDate(d1: Date, d2: Date)
    requires ValidDate(d1) && ValidDate(d2)
    requires Yyyy(d1) == Yyyy(d2) && Mm(d1) == Mm(d2) && Dd(d1) == Dd(d2)
    ensures d1 == d2
  {
    FieldsRead(d1);
    FieldsRead(d2);
  }

  /** A URL names its pattern and its day: no two candidates, of one day or
      of two, are the same URL. So an entry of "processed" stands for one
      episode file. */
  lemma {:induction false} UrlsAreDistinct(p1: Pattern, d1: Date, p2: Pattern, d2: Date)
    requires ValidDate(d1) && ValidDate(d2)
    requires UrlFor(p1, d1) == UrlFor(p2, d2)
    ensures p1 == p2 && d1 == d2
  {
    FieldsRead(d1);
    FieldsRead(d2);
    var f1, f2 := FileName(p1, d1), FileName(p2, d2);
    SamePrefixSameRest(LibsynBase + "/", f1, f2);
    assert p1 == p2;
    match p1
    case Compact =>
      assert f1[4..8] == Yyyy(d1) && f1[8..10] == Mm(d1) && f1[10..12] == Dd(d1);
      assert f2[4..8] == Yyyy(d2) && f2[8..10] == Mm(d2) && f2[10..12] == Dd(d2);
      FieldsDetermineDate(d1, d2);
    case Dashed =>
      assert f1[4..8] == Yyyy(d1) && f1[9..11] == Mm(d1) && f1[12..14] == Dd(d1);
      assert f2[4..8] == Yyyy(d2) && f2[9..11] == Mm(d2) && f2[12..14] == Dd(d2);
      FieldsDetermineDate(d1, d2);
  }

  // ----------------------------------------------------------------------
  // The first available candidate
  // ----------------------------------------------------------------------

  /** `url_exists`: whether the host answers 200 to a HEAD (or, after a
      405, to a GET); False when the request raises. */
  type Availability = string -> bool

  /** The first URL that is served, None when none is. */
  function FirstAvailable(urls: seq<string>, available: Availability): (r: Option<string>)
    ensures r.Some? ==> exists i :: 0 <= i < |urls| && urls[i] == r.value && available(urls[i]) &&
                                    forall j :: 0 <= j < i ==> !available(urls[j])
    ensures r.None? <==> forall i :: 0 <= i < |urls| ==> !available(urls[i])
    decreases |urls|
  {
    if urls == [] then None
    else if available(urls[0]) then Some(urls[0])
    else
      var r := FirstAvailable(urls[1..], available);
      assert forall i :: 1 <= i < |urls| ==> urls[i] == urls[1..][i - 1];
      if r.Some? then
        var i :| 0 <= i < |urls[1..]| && urls[1..][i] == r.value && available(urls[1..][i]) &&
                 forall j :: 0 <= j < i ==> !available(urls[1..][j]);
        assert urls[i + 1] == r.value && forall j :: 0 <= j < i + 1 ==> !available(urls[j]);
        r
      else r
  }

  /** What `choose_available_audio_url` answers for each day, given what
      the host serves: a day's first served candidate. */
  type Chooser = Date -> Option<string>

  function ChooserOf(available: Availability): Chooser {
    day => if ValidDate(day) then FirstAvailable(CandidateUrls(day), available) else None
  }

  /** `choose_available_audio_url(day)`. */
  method ChooseAvailableAudioUrl(day: Date, available: Availability) returns (r: Option<string>)
    requires ValidDate(day)
    ensures r == FirstAvailable(CandidateUrls(day), available)
    ensures r == ChooserOf(available)(day)
  {
    var urls := BuildCandidateUrls(day);
    var i := 0;
    while i < |urls|
      invariant 0 <= i <= |urls|
      invariant FirstAvailable(urls[i..], available) == FirstAvailable(urls, available)
    {
      assert urls[i..][1..] == urls[i + 1..];
      if available(urls[i]) {
        return Some(urls[i]);
      }
      i := i + 1;
    }
    return None;
  }

  // ----------------------------------------------------------------------
  // The state file
  // ----------------------------------------------------------------------

  /** What `load_state` returns: the parsed file, or `{"processed": {}}` when
      the file is missing or cannot be read and parsed (`loaded` is None). */
  function LoadState(loaded: Option<Json>): (state: Json)
    ensures loaded.None? ==> state == JObj(map["processed" := JObj(map[])])
    ensures loaded.Some? ==> state == loaded.value
  {
    if loaded.Some? then loaded.value else JObj(map["processed" := JObj(map[])])
  }

  /** `state.setdefault("processed", {})`: None when the state is not a dict
      (the call raises). */
  function WithProcessed(state: Json): (r: Option<map<string, Json>>)
    ensures r.Some? <==> state.JObj?
    ensures r.Some? ==> "processed" in r.value && r.value.Keys == state.fields.Keys + {"processed"}
    ensures r.Some? ==> forall k :: k in state.fields ==> r.value[k] == state.fields[k]
    ensures r.Some? && "processed" !in state.fields ==> r.value["processed"] == JObj(map[])
  {
    if !state.JObj? then None
    else if "processed" in state.fields then Some(state.fields)
    else Some(state.fields["processed" := JObj(map[])])
  }

  /** `processed.get(url)` as the scan's condition: None when `processed`
      is not a dict and has no `.get`. */
  function AlreadyProcessed(processed: Json, url: string): (r: Option<bool>)
    ensures r.None? <==> !processed.JObj?
    ensures r == Some(true) <==> processed.JObj? && url in processed.fields && Truthy(processed.fields[url])
  {
    if !processed.JObj? then None
    else Some(url in processed.fields && Truthy(processed.fields[url]))
  }

  // ----------------------------------------------------------------------
  // The day scan
  // ----------------------------------------------------------------------

  /** `today - timedelta(days=delta)`, with today given by its ordinal
      (`date.today().toordinal()`). */
  function DayBack(today: int, delta: int): Date
    requires 1 <= today <= MaxOrdinal() && 0 <= delta < today
  {
    FromOrdinal(today - delta)
  }

  /** What the `for delta` loop ends with: the chosen URL and the delta of
      its day, nothing new, or the AttributeError of `processed.get` on a
      "processed" value that is not a dict. */
  datatype Scan = Found(url: string, delta: int) | NothingNew | ScanCrash

  /** The answers of `choose_available_audio_url` for the days the loop
      visits, by delta: 0 to `days_back`. */
  function Offers(today: int, daysBack: int, choose: Chooser): (r: seq<Option<string>>)
    requires 1 <= today <= MaxOrdinal() && daysBack < today
    ensures |r| == if daysBack < 0 then 0 else daysBack + 1
    ensures forall k :: 0 <= k < |r| ==> r[k] == choose(DayBack(today, k))
  {
    if daysBack < 0 then []
    else seq(daysBack + 1, k requires 0 <= k <= daysBack => choose(DayBack(today, k)))
  }

  /** A day with this answer gives nothing new: no candidate is served, or
      the first one served is already processed. */
  predicate Skipped(offer: Option<string>, processed: Json) {
    offer.None? || AlreadyProcessed(processed, offer.value) == Some(true)
  }

  /** The loop from `delta` on, over the days' answers. */
  function ScanFrom(offers: seq<Option<string>>, processed: Json, delta: nat): Scan
    decreases |offers| - delta
  {
    if delta >= |offers| then NothingNew
    else
      match offers[delta]
      case None => ScanFrom(offers, processed, delta + 1)
      case Some(url) =>
        match AlreadyProcessed(processed, url)
        case None => ScanCrash
        case Some(done) =>
          if done then ScanFrom(offers, processed, delta + 1)
          else Found(url, delta)
  }

  /** The loop from `delta` picks the smallest delta whose answer is
      unprocessed, after skipping every day before it; it finds nothing new
      exactly when every day is skipped; and it raises exactly when
      "processed" is not a dict and some day has a served candidate. */
  lemma {:induction false} ScanFromChoice(offers: seq<Option<string>>, processed: Json, delta: nat)
    ensures var r := ScanFrom(offers, processed, delta);
      (r.Found? ==>
         delta <= r.delta < |offers| && offers[r.delta] == Some(r.url) &&
         AlreadyProcessed(processed, r.url) == Some(false) &&
         forall k :: delta <= k < r.delta ==> Skipped(offers[k], processed)) &&
      (r.NothingNew? <==> forall k :: delta <= k < |offers| ==> Skipped(offers[k], processed)) &&
      (r.ScanCrash? <==> !processed.JObj? && exists k :: delta <= k < |offers| && offers[k].Some?)
    decreases |offers| - delta
  {
    if delta < |offers| {
      ScanFromChoice(offers, processed, delta + 1);
      if offers[delta].Some? {
        assert !processed.JObj? ==> delta <= delta < |offers| && offers[delta].Some?;
        if processed.JObj? && AlreadyProcessed(processed, offers[delta].value) == Some(false) {
          assert !Skipped(offers[delta], processed);
        }
      }
    }
  }

  /** `main`'s scan over deltas 0 to `days_back` inclusive. */
  function ScanDays(today: int, daysBack: int, choose: Chooser, processed: Json): Scan
    requires 1 <= today <= MaxOrdinal() && daysBack < today
  {
    ScanFrom(Offers(today, daysBack, choose), processed, 0)
  }

  /** The chosen day lies in the window [today - days_back, today], the
      chosen URL is that day's answer and is not yet processed, and every
      later day in the window offered nothing new. */
  lemma FoundInWindow(today: int, daysBack: int, choose: Chooser, processed: Json)
    requires 1 <= today <= MaxOrdinal() && daysBack < today
    requires ScanDays(today, daysBack, choose, processed).Found?
    ensures var r := ScanDays(today, daysBack, choose, processed);
      0 <= r.delta <= daysBack &&
      today - daysBack <= DayNumber(DayBack(today, r.delta)) <= today &&
      choose(DayBack(today, r.delta)) == Some(r.url) &&
      processed.JObj? && !(r.url in processed.fields && Truthy(processed.fields[r.url])) &&
      forall k :: 0 <= k < r.delta ==> Skipped(choose(DayBack(today, k)), processed)
  {
    ScanFromChoice(Offers(today, daysBack, choose), processed, 0);
  }

  /** Nothing new is found exactly when every day in the window is skipped. */
  lemma NothingNewIffAllSkipped(today: int, daysBack: int, choose: Chooser, processed: Json)
    requires 1 <= today <= MaxOrdinal() && daysBack < today
    ensures ScanDays(today, daysBack, choose, processed).NothingNew? <==>
              forall k :: 0 <= k <= daysBack ==> Skipped(choose(DayBack(today, k)), processed)
  {
    var offers := Offers(today, daysBack, choose);
    ScanFromChoice(offers, processed, 0);
    if forall k :: 0 <= k <= daysBack ==> Skipped(choose(DayBack(today, k)), processed) {
      assert forall k :: 0 <= k < |offers| ==> Skipped(offers[k], processed);
    }
  }

  /** With the answers of `choose_available_audio_url` for what the host
      serves, the chosen URL is the first served candidate of its day. */
  lemma FoundIsFirstServed(today: int, daysBack: int, available: Availability, processed: Json)
    requires 1 <= today <= MaxOrdinal() && daysBack < today
    requires ScanDays(today, daysBack, ChooserOf(available), processed).Found?
    ensures var r := ScanDays(today, daysBack, ChooserOf(available), processed);
      0 <= r.delta <= daysBack &&
      FirstAvailable(CandidateUrls(DayBack(today, r.delta)), available) == Some(r.url) &&
      (r.url == UrlFor(Compact, DayBack(today, r.delta)) || r.url == UrlFor(Dashed, DayBack(today, r.delta)))
  {
    FoundInWindow(today, daysBack, ChooserOf(available), processed);
  }

  /** A processed first candidate skips its whole day: the day is not
      chosen even when its other candidate is served and unprocessed. */
  lemma ProcessedSkipsDay(today: int, daysBack: int, available: Availability, processed: Json, k: int)
    requires 1 <= today <= MaxOrdinal() && daysBack < today && 0 <= k < today
    requires available(UrlFor(Compact, DayBack(today, k)))
    requires AlreadyProcessed(processed, UrlFor(Compact, DayBack(today, k))) == Some(true)
    ensures var r := ScanDays(today, daysBack, ChooserOf(available), processed);
      r.Found? ==> 0 <= r.delta <= daysBack && r.delta != k
  {
    var r := ScanDays(today, daysBack, ChooserOf(available), processed);
    if r.Found? {
      FoundInWindow(today, daysBack, ChooserOf(available), processed);
      assert ChooserOf(available)(DayBack(today, k)) == Some(UrlFor(Compact, DayBack(today, k)));
    }
  }

  /** The `for delta` loop, with its `break` and `continue`; `choose` is
      `choose_available_audio_url`. */
  method FindNewEpisode(today: int, daysBack: int, choose: Chooser, processed: Json) returns (r: Scan)
    requires 1 <= today <= MaxOrdinal() && daysBack < today
    ensures r == ScanDays(today, daysBack, choose, processed)
  {
    ghost var offers := Offers(today, daysBack, choose);
    var delta := 0;
    while delta <= daysBack
      invariant 0 <= delta <= |offers|
      invariant ScanFrom(offers, processed, delta) == ScanFrom(offers, processed, 0)
      decreases daysBack - delta
    {
      var day := FromOrdinal(today - delta);
      var url := choose(day);
      assert url == offers[delta];
      if url.Some? {
        var done := AlreadyProcessed(processed, url.value);
        if done.None? {
          return ScanCrash;
        }
        if done.value {
          delta := delta + 1;
          continue;
        }
        return Found(url.value, delta);
      }
      delta := delta + 1;
    }
    return NothingNew;
  }

  // ----------------------------------------------------------------------
  // A run
  // ----------------------------------------------------------------------

  /** The options `main` reads: `--days-back`, `--outdir`, `--dry-run`. */
  datatype CisoArgs = CisoArgs(daysBack: int, outDir: string, dryRun: bool)

  /** `args.outdir / name`. */
  function InDir(dir: string, name: string): string {
    dir + "/" + name
  }

  /** The local file stem `f"CSH_{chosen_day.strftime('%Y%m%d')}"`. */
  function Stem(day: Date): string
    requires ValidDate(day)
  {
    "CSH_" + Yyyy(day) + Mm(day) + Dd(day)
  }

  /** The entry `processed[chosen_url]` receives. */
  function ProcessedEntry(day: Date, outDir: string, now: string): (r: Json)
    requires ValidDate(day)
    ensures r.JObj? && "date" in r.fields && Truthy(r)
  {
    JObj(map[
      "date" := JStr(IsoFormat(day)),
      "audio_path" := JStr(InDir(outDir, Stem(day) + ".mp3")),
      "transcript_path" := JStr(InDir(outDir, Stem(day) + ".transcript.txt")),
      "summary_path" := JStr(InDir(outDir, Stem(day) + ".summary.md")),
      "processed_at" := JStr(now)])
  }

  /** How a run ends: its exit status (an uncaught exception gives 1; every
      `return` of `main`, the `return 2` included, gives 0 because the
      script calls `main()` without passing its value to `sys.exit`), the
      state written back if any, and the episode URL the run began to
      download, transcribe and summarize, if any. */
  datatype CisoOutcome = CisoOutcome(status: int, saved: Option<map<string, Json>>, fetched: Option<string>)

  /** The state with `processed[url]` set to the entry. */
  function Record(state: map<string, Json>, url: string, entry: Json): (r: map<string, Json>)
    requires "processed" in state && state["processed"].JObj?
    ensures r.Keys == state.Keys
    ensures forall k :: k in state && k != "processed" ==> r[k] == state[k]
    ensures r["processed"].JObj? && r["processed"].fields.Keys == state["processed"].fields.Keys + {url}
    ensures r["processed"].fields[url] == entry
    ensures forall u :: u in state["processed"].fields && u != url ==>
              r["processed"].fields[u] == state["processed"].fields[u]
  {
    state["processed" := JObj(state["processed"].fields[url := entry])]
  }

  /** `main`, with the parsed state file, today's ordinal, the answers of
      `choose_available_audio_url`, whether OPENAI_API_KEY is set, whether
      the download, transcription and summary (with their file writes) all
      complete, and the local time of completion as inputs. */
  function CisoMain(args: CisoArgs, loaded: Option<Json>, today: int, choose: Chooser,
                    hasOpenAiKey: bool, completed: bool, now: string): (out: CisoOutcome)
    requires 1 <= today <= MaxOrdinal() && args.daysBack < today
    ensures out.status == 0 || out.status == 1
    ensures out.saved.Some? ==> out.status == 0 && out.fetched.Some? && "processed" in out.saved.value
  {
    match WithProcessed(LoadState(loaded))
    case None => CisoOutcome(1, None, None)
    case Some(state) =>
      match ScanDays(today, args.daysBack, choose, state["processed"])
      case ScanCrash => CisoOutcome(1, None, None)
      case NothingNew => CisoOutcome(0, None, None)
      case Found(url, delta) =>
        if args.dryRun || !hasOpenAiKey then CisoOutcome(0, None, None)
        else if !completed then CisoOutcome(1, None, Some(url))
        else
          ScanFromChoice(Offers(today, args.daysBack, choose), state["processed"], 0);
          var entry := ProcessedEntry(DayBack(today, delta), args.outDir, now);
          CisoOutcome(0, Some(Record(state, url, entry)), Some(url))
  }

  /** The state is written, with the chosen URL's entry, exactly when a new
      episode was found, the run is not a dry run, the key is set and the
      download, transcription and summary all completed; a dry run never
      fetches anything. */
  lemma RecordsOnlyCompletedEpisodes(args: CisoArgs, loaded: Option<Json>, today: int, choose: Chooser,
                                     hasOpenAiKey: bool, completed: bool, now: string)
    requires 1 <= today <= MaxOrdinal() && args.daysBack < today
    ensures var out := CisoMain(args, loaded, today, choose, hasOpenAiKey, completed, now);
      var state := WithProcessed(LoadState(loaded));
      (args.dryRun ==> out.saved.None? && out.fetched.None?) &&
      (out.saved.Some? <==>
         state.Some? && ScanDays(today, args.daysBack, choose, state.value["processed"]).Found? &&
         !args.dryRun && hasOpenAiKey && completed) &&
      (out.saved.Some? ==>
         var processed := state.value["processed"];
         var r := ScanDays(today, args.daysBack, choose, processed);
         r.Found? && 0 <= r.delta <= args.daysBack && processed.JObj? &&
         out.fetched == Some(r.url) &&
         out.saved.value == Record(state.value, r.url, ProcessedEntry(DayBack(today, r.delta), args.outDir, now)))
  {
    var state := WithProcessed(LoadState(loaded));
    if state.Some? {
      ScanFromChoice(Offers(today, args.daysBack, choose), state.value["processed"], 0);
    }
  }

  /** Recording an episode changes the processed status of no other
      episode file: a candidate URL of any other day reads as before. */
  lemma RecordingKeepsOtherDays(processed: map<string, Json>, day: Date, pat: Pattern, entry: Json,
                                other: Date, otherPat: Pattern)
    requires ValidDate(day) && ValidDate(other) && other != day
    ensures var url := UrlFor(otherPat, other);
      AlreadyProcessed(JObj(processed[UrlFor(pat, day) := entry]), url) == AlreadyProcessed(JObj(processed), url)
  {
    if UrlFor(otherPat, other) == UrlFor(pat, day) {
      UrlsAreDistinct(otherPat, other, pat, day);
    }
  }

  /** Once a run records an episode, a later run on the state it wrote
      never picks that episode again, whatever day it runs on and whatever
      is served then. */
  lemma NextRunSkipsRecorded(args: CisoArgs, loaded: Option<Json>, today: int, choose: Chooser,
                             hasOpenAiKey: bool, completed: bool, now: string,
                             args2: CisoArgs, today2: int, choose2: Chooser,
                             hasOpenAiKey2: bool, completed2: bool, now2: string)
    requires 1 <= today <= MaxOrdinal() && args.daysBack < today
    requires 1 <= today2 <= MaxOrdinal() && args2.daysBack < today2
    requires CisoMain(args, loaded, today, choose, hasOpenAiKey, completed, now).saved.Some?
    ensures var out := CisoMain(args, loaded, today, choose, hasOpenAiKey, completed, now);
      var out2 := CisoMain(args2, Some(JObj(out.saved.value)), today2, choose2, hasOpenAiKey2, completed2, now2);
      out2.fetched != out.fetched
  {
    var out := CisoMain(args, loaded, today, choose, hasOpenAiKey, completed, now);
    RecordsOnlyCompletedEpisodes(args, loaded, today, choose, hasOpenAiKey, completed, now);
    var state := WithProcessed(LoadState(loaded)).value;
    var r := ScanDays(today, args.daysBack, choose, state["processed"]);
    var saved := out.saved.value;
    var state2 := WithProcessed(LoadState(Some(JObj(saved)))).value;
    assert state2 == saved;
    assert AlreadyProcessed(state2["processed"], r.url) == Some(true);
    var r2 := ScanDays(today2, args2.daysBack, choose2, state2["processed"]);
    if r2.Found? {
      FoundInWindow(today2, args2.daysBack, choose2, state2["processed"]);
    }
  }

  /** `main`, statement by statement; `choose` is
      `choose_available_audio_url`. */
  method RunCiso(args: CisoArgs, loaded: Option<Json>, today: int, choose: Chooser,
                 hasOpenAiKey: bool, completed: bool, now: string) returns (out: CisoOutcome)
    requires 1 <= today <= MaxOrdinal() && args.daysBack < today
    ensures out == CisoMain(args, loaded, today, choose, hasOpenAiKey, completed, now)
  {
    var loadedState := LoadState(loaded);
    if !loadedState.JObj? {
      return CisoOutcome(1, None, None);
    }
    var state := loadedState.fields;
    if "processed" !in state {
      state := state["processed" := JObj(map[])];
    }
    var processed := state["processed"];
    var scan := FindNewEpisode(today, args.daysBack, choose, processed);
    if scan.ScanCrash? {
      return CisoOutcome(1, None, None);
    }
    if scan.NothingNew? {
      return CisoOutcome(0, None, None);
    }
    if args.dryRun || !hasOpenAiKey {
      return CisoOutcome(0, None, None);
    }
    if !completed {
      return CisoOutcome(1, None, Some(scan.url));
    }
    assert WithProcessed(LoadState(loaded)) == Some(state);
    ScanFromChoice(Offers(today, args.daysBack, choose), processed, 0);
    var chosenDay := FromOrdinal(today - scan.delta);
    assert chosenDay == DayBack(today, scan.delta);
    state := Record(state, scan.url, ProcessedEntry(chosenDay, args.outDir, now));
    return CisoOutcome(0, Some(state), Some(scan.url));
  }
}
