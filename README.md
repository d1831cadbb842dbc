# Feed-to-Slack alert scripts: a verified model of their decision core

Three Python scripts watch feeds and tell a Slack channel about new items:

- **MARADMIN.py** reads the USMC MARADMIN RSS feed. It finds the items not seen before and classifies each one. It picks a summary mode and bullet budget, has a model summarize the item, post-processes the bullets, builds one Slack message, cuts it into chunks and remembers the ids it handled.
- **News.py** handles two feeds. It posts the first episode of the CISO Series headlines feed when that episode is new. For the RealClearDefense feed, items pass a date window, a seen gate, a topic-interest gate and a cap. State is kept per feed in one JSON file.
- **cisoTranscriber.py** scans back from today, one day at a time, for the daily Cyber Security Headlines audio file. It builds two candidate URLs per day and takes the first one the host serves. It picks the most recent day whose file is not yet recorded as processed, and records the episode once it is downloaded, transcribed and summarized.

This project models the deterministic part of each script and proves what the scripts promise about it. Network calls, the OpenAI model, HTML parsing, the clock and the file system are inputs to the model.

## Layout

| file | module | models |
|---|---|---|
| wrappers.dfy | `Wrappers` | `Option` |
| text.dfy | `Text` | ASCII `str.lower`, `str.strip`, `in` on strings, `splitlines(True)`, `"sep".join`, `sorted` on a set of strings |
| json.dfy | `JsonValue` | JSON values as `json.load` returns them, Python truthiness |
| filter.dfy | `Filtering` | order-preserving filtering, used by both feed filters |
| chunks.dfy | `SlackChunks` | `chunk_for_slack` (both scripts carry the same copy) |
| maradmin_feed.dfy | `MaradminFeed` | `normalize_id`, `find_new_entries`, reading and writing the seen-id list |
| maradmin_extract.dfy | `MaradminExtract` | `looks_like_full_message`, `clean_rss_summary`, `extract_message_text` (after `get_text`) |
| maradmin_classify.dfy | `MaradminClassify` | `contains_any`, `extract_mos_codes`, `mos_relevance`, `classify_maradmin`, `choose_summary_mode` |
| maradmin_summary.dfy | `MaradminSummary` | `build_llm_instructions`, the bullet post-processing of `summarize_maradmin`, `entry_label`, `build_slack_message` |
| maradmin_run.dfy | `MaradminRun` | MARADMIN.py `main`: per-entry fallbacks, the seen-id set, the state written back |
| news_state.dfy | `NewsState` | `load_state`, `ensure_state_shape`, reading a feed's seen set |
| news_rcd.dfy | `NewsRcd` | `normalize_id`, `rcd_is_in_window`, `rcd_is_interesting`, `rcd_tags`, the candidate pipeline |
| news_run.dfy | `NewsRun` | the two summarizers' clamps and inputs, News.py `main` |
| calendar.dfy | `Calendar` | `date - timedelta`, `strftime` fields, `isoformat` |
| ciso.dfy | `CisoEpisodes` | cisoTranscriber.py: candidate URLs, availability choice, state, day scan, `main` |

Where the scripts loop or update a dict or set in place, the model has a `method` with a loop. Examples are `find_new_entries`, the bullet loop, `build_slack_message`, `chunk_for_slack`, `ensure_state_shape`, the RCD loop, `build_candidate_urls`, `choose_available_audio_url` and the `for delta` scan. Each such method is proved equal to a function. That function's properties are proved as lemmas.

Some behaviour of the code is reproduced as written and shown by a lemma:

- `looks_like_full_message` accepts any text containing "r " in any case (`MaradminExtract.AnyRSpaceLooksFull`).
- `chunk_for_slack` emits a chunk longer than the budget when one line is longer than the budget (`SlackChunks.OverlongLineIsOneOverBudgetChunk`).
- On the 403 fallback, the note is appended after the bullets were cut to the budget, so the list holds budget + 1 lines (`MaradminRun.BlockedFetchExceedsBudget`).
- The leading-glyph strip of the bullet loop removes one run of glyphs and the spaces after it. "- - x" therefore becomes "- x", which still starts with a glyph (`MaradminSummary.BulletGlyphCanSurvive`).
- cisoTranscriber.py's `main` returns 2 when OPENAI_API_KEY is missing. The script calls `main()` without `sys.exit`, so the process exits with status 0; `CisoMain` models it that way.
- A "processed" value that is not a dict makes `processed.get` raise, but only once some day has a served candidate (`CisoEpisodes.ScanFromChoice`).

## Model

| member | source | states |
|---|---|---|
| Text.Lower | MARADMIN.py:289-291 | ASCII lower-casing keeps the length and maps each character by itself |
| Text.LowerIdempotent | MARADMIN.py:308 | lower-casing twice is lower-casing once |
| Text.Strip | MARADMIN.py:188 | `strip()` is never longer than its input, is empty exactly for blank input, and otherwise begins and ends with a non-space |
| Text.StripIsInfix | MARADMIN.py:188 | `strip()` returns a slice of its input with only whitespace before and after it, so it removes whitespace from the two ends and nothing else |
| Text.NatToStringValue | MARADMIN.py:480 | `str(n)` reads back as `n` |
| Text.LinesConcat | MARADMIN.py:510 | the pieces of `splitlines(True)` concatenate back to the text |
| Text.LinesShape | MARADMIN.py:510 | each piece of `splitlines(True)` is one line, and every piece but the last ends with its newline |
| Text.SortedIds | MARADMIN.py:713 | `sorted(seen)` is strictly increasing in Python's string order and holds exactly the set's members |
| Text.SortedUnique | News.py:507 | there is only one strictly sorted list of a given set's members |
| SlackChunks.ChunkForSlack | MARADMIN.py:505-519 | the loop returns `[msg]` when it fits; otherwise non-empty chunks that concatenate to the message, each ending at a line break except the last, each within the budget unless it is a single line |
| SlackChunks.ChunksSpellMessage | News.py:167-180 | the chunks always concatenate back to the message |
| SlackChunks.OverlongLineIsOneOverBudgetChunk | MARADMIN.py:513-516 | a single line longer than the budget comes out as one chunk over the budget |
| MaradminFeed.NormalizeId | MARADMIN.py:187-188 | the id is empty exactly when the first truthy of guid, link, title is blank, and is otherwise stripped |
| MaradminFeed.FindNewEntries | MARADMIN.py:191-197 | the loop returns exactly the entries with a non-empty id not in the seen set |
| MaradminFeed.NewEntriesSubsequence | MARADMIN.py:191-197 | the new entries are a subsequence of the feed: at strictly increasing positions, in feed order |
| MaradminFeed.NewEntriesMembers | MARADMIN.py:194-196 | an entry is kept iff it is in the feed with a non-empty, unseen id |
| MaradminFeed.NewEntriesNone | MARADMIN.py:576 | a feed with no new entry gives an empty list |
| MaradminFeed.LoadState | MARADMIN.py:152-159 | a missing or unparseable file gives `{}`; otherwise whatever JSON value the file holds |
| MaradminFeed.FirstTruthyIsFirst | MARADMIN.py:564-570 | the `or` chain yields the value of the first key, in order, whose value is truthy, and `[]` exactly when no key holds a truthy value |
| MaradminFeed.LoadSeenIdsPrefersSeenIds | MARADMIN.py:564-571 | a non-empty "seen_ids" list wins; with none of the keys the seen set is empty |
| MaradminFeed.LoadAfterSave | MARADMIN.py:713 | reading back the written sorted list gives exactly its ids |
| MaradminExtract.AnyRSpaceLooksFull | MARADMIN.py:246 | any text with "r " (either case) anywhere is taken as a full message |
| MaradminExtract.HeadlineLooksFull | MARADMIN.py:246 | an ordinary headline such as "Your order" already passes |
| MaradminExtract.EmptyNeverLooksFull | MARADMIN.py:241-242 | empty text is never taken as a full message |
| MaradminExtract.CollapseKeepsText | MARADMIN.py:255 | every character other than "\n" survives, in order |
| MaradminExtract.CollapseKeepsShortRuns | MARADMIN.py:255 | a text without three adjacent newlines is left unchanged, so runs of one or two newlines are kept |
| MaradminExtract.CollapseRun | MARADMIN.py:255 | a run of k newlines between other text becomes exactly two when k ≥ 3 and stays as it is when k < 3 |
| MaradminExtract.CollapseNewlinesNoTriple | MARADMIN.py:255 | after `re.sub(r"\n{3,}", "\n\n")` no three newlines are adjacent |
| MaradminExtract.CleanRssSummary | MARADMIN.py:250-253 | an empty summary gives "" without parsing |
| MaradminExtract.FindMarker | MARADMIN.py:271-273 | `re.search` finds the leftmost match of one marker pattern, or reports there is none |
| MaradminExtract.ChosenStart | MARADMIN.py:270-275 | the start is the leftmost match of the first pattern in list order that matches anywhere |
| MaradminExtract.ChosenMarkerUnique | MARADMIN.py:270-275 | the chosen pattern and position are unique |
| MaradminExtract.MessageTextSlice | MARADMIN.py:277-282 | with no marker the result is the first 12000 characters; with one it is the stripped 20000-character window from the marker; never longer than 20000 |
| MaradminExtract.ExtractMessageText | MARADMIN.py:260-282 | the loop over the patterns with `break` computes that slice |
| MaradminClassify.ContainsAnyLowered | MARADMIN.py:289-291 | `contains_any` gives the same answer on lower-cased text |
| MaradminClassify.ExtractMosCodes | MARADMIN.py:294-295 | the codes are exactly the `\b1ddd\b` matches of the text |
| MaradminClassify.MosMatchesDisjoint | MARADMIN.py:140 | two MOS matches never overlap |
| MaradminClassify.HighMosListSorted | MARADMIN.py:69 | the HIGH_MOS list is strictly sorted and each member starts with "17" |
| MaradminClassify.FilterInSorted | MARADMIN.py:300 | keeping members of a set preserves strict sortedness |
| MaradminClassify.HighHits | MARADMIN.py:300 | `high_hits` is sorted and is exactly the extracted codes in HIGH_MOS |
| MaradminClassify.MosRelevance | MARADMIN.py:298-303 | the flag is true iff some code starts with "17" or is in HIGH_MOS; the hit list as above |
| MaradminClassify.HighHitsAre17xx | MARADMIN.py:300-303 | a high hit alone makes the text 17xx-relevant |
| MaradminClassify.MosAt17Relevant | MARADMIN.py:301-302 | any "17dd" token makes the text relevant |
| MaradminClassify.RelevantHasMos17 | MARADMIN.py:301-302 | the text is relevant only if it holds a `\b17dd\b` token |
| MaradminClassify.Classify | MARADMIN.py:306-322 | the category's rule fires and no earlier rule in the list fires: first match wins, every text gets one of the four |
| MaradminClassify.ClassifyTextLowered | MARADMIN.py:308 | the text classified is lower-case |
| MaradminClassify.PromotionKeywordHasPromot | MARADMIN.py:108-118 | every promotion-list keyword except "to the grade of" contains "promot" |
| MaradminClassify.PromotionKeywordSuffices | MARADMIN.py:311-312 | such a keyword alone gives PROMOTION_LIST_READ_ASAP |
| MaradminClassify.ScheduleKeywordHasBoardOrSelection | MARADMIN.py:128-137 | every board-schedule keyword except two contains "board" or "selection" |
| MaradminClassify.ScheduleKeywordSuffices | MARADMIN.py:315-316 | such a keyword alone gives a promotion or board-schedule category |
| MaradminClassify.ResultsNeverGeneral | MARADMIN.py:319-322 | a results keyword never leaves the item GENERAL |
| MaradminClassify.ClassifyIgnoresCase | MARADMIN.py:308 | classification ignores letter case |
| MaradminClassify.ModeTable | MARADMIN.py:332-342 | the fixed table: the category decides the mode outside GENERAL; inside it 17xx, then priority topic, then minimal; budget ≥ 1 |
| MaradminClassify.ChooseSummaryMode | MARADMIN.py:325-342 | the mode follows the table on the MOS relevance and priority-topic signals of title + "\n" + body |
| MaradminClassify.ModeByCategory | MARADMIN.py:332-337 | outside GENERAL the text is ignored; GENERAL is exactly the categories with a relevance-driven mode |
| MaradminSummary.InstructionPieces | MARADMIN.py:354-411 | every template starts with the base text, and places the bullet count and the mode's directive |
| MaradminSummary.BuildLlmInstructions | MARADMIN.py:354-411 | the instructions start with the base text, contain the mode's directive and, except for minimal, the bullet count |
| MaradminSummary.UserInput | MARADMIN.py:426-432 | the model input starts with the title line and ends with the message text |
| MaradminSummary.StripBulletPrefix | MARADMIN.py:448 | a line without a leading glyph is unchanged; otherwise the removed prefix is the whole leading glyph run followed only by whitespace, and the rest starts with a non-space, so nothing else is removed |
| MaradminSummary.CleanBullet | MARADMIN.py:445-449 | a kept line is stripped |
| MaradminSummary.UsableLines | MARADMIN.py:444-450 | the kept lines are non-blank and stripped, and never more than the input lines |
| MaradminSummary.UsableLinesFilter | MARADMIN.py:444-450 | the kept lines are the cleaned reply lines filtered to the non-empty ones, in reply order |
| MaradminSummary.UsableLinesMembers | MARADMIN.py:444-450 | a string is kept exactly when it is not empty and some reply line cleans to it |
| MaradminSummary.BulletLinesShape | MARADMIN.py:441-456 | 1 to max(1, bullets) stripped lines; the sentinel alone when nothing survives; otherwise a prefix of the kept lines |
| MaradminSummary.PostProcessBullets | MARADMIN.py:441-456 | the loop computes those lines |
| MaradminSummary.BulletGlyphCanSurvive | MARADMIN.py:448 | "- - x" keeps a leading "-" |
| MaradminSummary.EntryLabel | MARADMIN.py:463-475 | the label is the mode's prefix then the number or "MARADMIN", and the mode can be read back from it |
| MaradminSummary.EntryLabelInjective | MARADMIN.py:463-475 | different modes never share a label |
| MaradminSummary.BulletParts | MARADMIN.py:497-498 | one "• " part per bullet, in order |
| MaradminSummary.EntryBlocks | MARADMIN.py:484-500 | one block of parts per entry, in order |
| MaradminSummary.AppendEntryParts | MARADMIN.py:484-500 | the loop body appends exactly the entry's parts |
| MaradminSummary.BuildSlackMessage | MARADMIN.py:478-502 | the loop builds the message, which starts with the header and the entry count |
| MaradminSummary.SlackMessageStartsWithHeader | MARADMIN.py:480-502 | the joined, stripped message starts with the header |
| MaradminSummary.PartShown | MARADMIN.py:502 | any stripped part survives the join and strip |
| MaradminSummary.EntryPartShown | MARADMIN.py:484-502 | any stripped part of an entry is in the message |
| MaradminSummary.EveryEntryShown | MARADMIN.py:484-502 | every entry's headline with its label, and each of its bullets, appear in the message |
| MaradminRun.Source | MARADMIN.py:593-671 | the cleaned RSS summary when it looks full and is not empty; else the page's message text; else, after an HTTP error, the cleaned RSS summary when it is not empty; else nothing. The 403 note is set exactly on that fallback with status 403 |
| MaradminRun.SourceFetchesOnlyWhenNeeded | MARADMIN.py:593-603 | when the RSS summary does, the fetch's outcome changes nothing; there is nothing to summarize exactly when the fetch fails, or raises an HTTP error while the RSS summary cleans to nothing |
| MaradminRun.SummarizeBullets | MARADMIN.py:620-677 | a summary holds ≥ 1 bullet, within the budget without the note, and budget + 1 with the 403 note last |
| MaradminRun.ProcessEntryBullets | MARADMIN.py:585-700 | whatever the fetch and the model do, the stored bullets are non-empty and within the budget, except the 403 case at budget + 1 |
| MaradminRun.BlockedFetchExceedsBudget | MARADMIN.py:671-673 | when the model gives at least the budget of lines, the 403 path stores budget + 1 |
| MaradminRun.UnfetchableEntryOpensLink | MARADMIN.py:684-690 | with no usable RSS text and a failed fetch the entry gets the open-the-link summary |
| MaradminRun.Capped | MARADMIN.py:573 | the feed is cut to its first max(1, --max) entries |
| MaradminRun.IdsOfMembers | MARADMIN.py:638 | the ids added are exactly the ids of the batch |
| MaradminRun.StoredLastWins | MARADMIN.py:586-700 | the summary stored under an id is that of the last entry in the batch with that id |
| MaradminRun.StoredKeys | MARADMIN.py:586-700 | `summaries` has exactly the batch's ids as keys |
| MaradminRun.SummarizeBatch | MARADMIN.py:586-700 | the loop fills `summaries` and adds every handled id to the seen set, on every path |
| MaradminRun.SaveSeen | MARADMIN.py:713-715 | the state written holds the seen set sorted |
| MaradminRun.RunMaradmin | MARADMIN.py:544-716 | exit 2 on missing configuration; a state file that is not a JSON object, or a feed that `fetch_rss_entries` rejects, crashes the run (exit 1, nothing sent or saved); otherwise the batch's message chunks, the seen set grown by the batch and saved, except when a post fails |
| MaradminRun.PostBatch | MARADMIN.py:702-716 | chunks of the message; a failed post ends the run unsaved; otherwise the grown seen set is saved |
| MaradminRun.SavedSeenGrows | MARADMIN.py:713 | the saved seen set only grows and holds every handled entry's id |
| MaradminRun.SecondRunFindsNothing | MARADMIN.py:571-574 | a second run on the same feed over the saved state finds nothing new |
| NewsState.LoadState | News.py:131-138 | a missing or unparseable file gives `{}` |
| NewsState.EnsureStateShape | News.py:146-161 | the setdefault steps compute the shaped state, which has both feeds |
| NewsState.ShapeRaisesOnlyOnBadFeeds | News.py:151-161 | it raises exactly when "feeds" is not a dict; otherwise "ciso" and "rcd" exist |
| NewsState.ShapeKeepsExisting | News.py:151-160 | other top-level keys and existing feeds are left untouched |
| NewsState.ShapeMigratesSeenIds | News.py:154-159 | with no "ciso" feed a top-level list becomes its seen list; otherwise the feed starts empty |
| NewsState.ShapeIdempotent | News.py:146-161 | shaping twice equals shaping once |
| NewsState.SetOfStrings | News.py:405-406 | `set(...)` of a list of scalars keeps its strings; of a number raises |
| NewsState.SeenIn | News.py:405 | a feed without "seen_ids" has an empty seen set |
| NewsState.FeedSeen | News.py:405-406 | a non-dict feed state raises; one without the key reads as empty |
| NewsState.SeenInAfterWrite | News.py:447-448 | writing `sorted(seen)` reads back as `seen` |
| NewsState.SeenInOtherKey | News.py:424-426 | writing another key keeps the seen set |
| NewsState.EmptyFeedSeen | News.py:159-160 | a freshly installed feed has an empty seen set |
| NewsRcd.NormalizeId | News.py:241-242 | the id is empty exactly when the first truthy of id, link, title is blank |
| NewsRcd.WindowBounds | News.py:268-281 | future days are out, today is in, and with days_back ≤ 0 only today is in |
| NewsRcd.WindowWidens | News.py:281 | a wider window keeps every item a narrower one admits |
| NewsRcd.RcdTagsShape | News.py:262-265 | at most 3 tags, each a matching group, in declaration order; under 3 means every matching group is tagged |
| NewsRcd.InterestingIffTagged | News.py:255-265 | an item is interesting iff it has a tag |
| NewsRcd.MakeCandidates | News.py:484-487 | one candidate per item, in order |
| NewsRcd.SiftIsFilter | News.py:467-487 | the counters are the lengths of the window and seen filters; the picked items are the interest filter |
| NewsRcd.Admit | News.py:468-483 | one item's three gates |
| NewsRcd.SelectRcdCandidates | News.py:464-490 | the loop computes the capped candidates and the pipeline counts |
| NewsRcd.PipelineNarrows | News.py:464-490 | total ≥ in_window ≥ new_in_window ≥ interest_new_in_window ≥ selected |
| NewsRcd.CandidateIdStable | News.py:485 | a candidate's stored id is its normalized id |
| NewsRcd.CandidateAt | News.py:484-489 | the k-th candidate comes from the k-th item passing all gates |
| NewsRcd.CandidatesValid | News.py:468-489 | at most max(1, cap) candidates, each with a non-empty id, in window, interesting, and unseen unless --force |
| NewsRcd.CandidatesInOrder | News.py:467-489 | candidates keep feed order |
| NewsRcd.UnderCapKeepsAll | News.py:489 | under the cap every qualifying item is selected |
| NewsRun.AtLeastOne | News.py:294-295 | `max(1, n)` is ≥ 1 and leaves positive values alone |
| NewsRun.CisoInstructions | News.py:294-307 | the instructions state the clamped bullet limit and sentence count |
| NewsRun.CisoClampIsInvisible | News.py:294-295 | limits below one ask for the same as one |
| NewsRun.CisoUserInput | News.py:309-315 | the input starts with the episode title and ends with its text |
| NewsRun.CisoBullets | News.py:318-321 | the stripped reply, or the fallback bullet when blank; never empty |
| NewsRun.CisoSection | News.py:442-444 | the section starts with the headline and date and ends with the bullets |
| NewsRun.RcdBulletsClamp | News.py:330 | `max(5, min(b, 6))` lies in [5, 6] |
| NewsRun.RcdInstructions | News.py:330-339 | the instructions state the clamped per-article count |
| NewsRun.ArticleParts | News.py:341-349 | one part per selected article, in order |
| NewsRun.RcdUserInput | News.py:351 | the input starts with "ARTICLES:" |
| NewsRun.EveryCandidateSent | News.py:341-351 | every selected article is in the model input |
| NewsRun.RcdBullets | News.py:354-357 | the stripped reply, or the fallback line when blank |
| NewsRun.CandidateTags | News.py:486 | every candidate has a tag, and each tag names a topic group |
| NewsRun.TagLineOfTagged | News.py:507 | for tagged candidates the tag line is the sorted tag set joined by " / " |
| NewsRun.TagLineNamesGroups | News.py:507 | "Filtered" never shows for real candidates |
| NewsRun.RecordSeen | News.py:447-449 | the feed reads back the recorded seen set |
| NewsRun.NoteEpisode | News.py:424-426 | noting the episode keeps the seen set |
| NewsRun.CandidateIdsMembers | News.py:513-514 | the ids added are exactly the candidates' ids |
| NewsRun.NoteScan | News.py:492-494 | noting the scan keeps the seen set |
| NewsRun.CisoRunSeen | News.py:420-449 | a dry run or a failed call keeps the seen set; a real run adds the episode id when non-empty |
| NewsRun.CisoRunSection | News.py:428-444 | the episode is summarized iff there is one and it is unseen, forced or a dry run |
| NewsRun.RcdRunSeen | News.py:499-516 | a dry run keeps the seen set; a real run adds every candidate id; a section exists iff there are candidates |
| NewsRun.RcdNoRepost | News.py:470-472 | after a real run, a later run without --force never selects those candidates again |
| NewsRun.Prepared | News.py:401-403 | the prepared state has both feeds, `last_run_utc` set to the current time and `last_run_mode` set to "dry-run" or "post" |
| NewsRun.WithFeed | News.py:447-448 | writing a feed keeps both feeds present |
| NewsRun.Finish | News.py:520-530 | exit 0 saves the state and exit 1 saves nothing |
| NewsRun.NewsMain | News.py:384-530 | exit 2 iff the key is missing, or the webhook is missing outside a dry run; the state is saved iff the exit is 0 |
| NewsRun.WithFeedSeen | News.py:447-448 | writing one feed leaves the other feed's seen set alone |
| NewsRun.SavedSeenIds | News.py:446-516 | a successful run saves ciso ∪ episode id and rcd ∪ candidate ids, or both unchanged in a dry run |
| NewsRun.ReloadKeepsSeen | News.py:401-406 | the next run reads back exactly those seen sets |
| NewsRun.FinishSendsSections | News.py:521-527 | the chunks spell the sections joined by the rule and contain both sections |
| NewsRun.NextRunSkipsPosted | News.py:428-472 | a later run without --force does not repost the episode or any RCD candidate |
| NewsRun.CisoStep | News.py:420-449 | the CISO step as statements |
| NewsRun.AddCandidateIds | News.py:513-514 | the loop adds exactly the candidate ids |
| NewsRun.RcdStep | News.py:453-516 | the RCD step as statements |
| NewsRun.PrepareState | News.py:401-403 | the state preparation as statements |
| NewsRun.FinishRun | News.py:520-530 | the ending as statements |
| NewsRun.RunNews | News.py:384-530 | `main` as statements computes `NewsMain` |
| Calendar.FromOrdinal | cisoTranscriber.py:142 | `date.fromordinal`: a valid date whose ordinal is the input, which is how `today - timedelta(days=delta)` is computed |
| Calendar.Pad2Value | cisoTranscriber.py:42-43 | "%m"/"%d" are two digits reading back as the number |
| Calendar.Pad4Value | cisoTranscriber.py:41 | "%Y" is four digits reading back as the year |
| Calendar.FieldsRead | cisoTranscriber.py:40-43 | the three fields have their widths and read back as year, month and day |
| Calendar.IsoFormatReads | cisoTranscriber.py:186 | `isoformat()` is "YYYY-MM-DD" reading back as the date |
| CisoEpisodes.CandidateUrls | cisoTranscriber.py:45-49 | one URL per filename pattern, in pattern order |
| CisoEpisodes.BuildCandidateUrls | cisoTranscriber.py:39-49 | the loop gives LIBSYN_BASE/CSH_YYYYMMDD.mp3 then LIBSYN_BASE/CSH-YYYY-MM-DD.mp3 |
| CisoEpisodes.FieldsDetermineDate | cisoTranscriber.py:40-43 | equal fields mean equal dates |
| CisoEpisodes.UrlsAreDistinct | cisoTranscriber.py:27-32 | a URL determines its pattern and its day |
| CisoEpisodes.FirstAvailable | cisoTranscriber.py:64-68 | the first served candidate, or None iff none is served |
| CisoEpisodes.ChooseAvailableAudioUrl | cisoTranscriber.py:64-68 | the early-return loop returns the first served candidate of the day |
| CisoEpisodes.LoadState | cisoTranscriber.py:71-77 | a missing or unparseable file gives `{"processed": {}}` |
| CisoEpisodes.WithProcessed | cisoTranscriber.py:134 | `setdefault` keeps every key and guarantees "processed"; it raises on a non-dict state |
| CisoEpisodes.AlreadyProcessed | cisoTranscriber.py:146 | `processed.get(url)` is truthy iff the URL maps to a truthy entry; it raises on a non-dict |
| CisoEpisodes.Offers | cisoTranscriber.py:141-143 | one answer per delta 0..days_back, for the day `delta` days back |
| CisoEpisodes.ScanFromChoice | cisoTranscriber.py:141-150 | the smallest unprocessed offering delta is chosen, all before it skipped; nothing new iff all skipped; a raise iff "processed" is not a dict and some day offers a URL |
| CisoEpisodes.FoundInWindow | cisoTranscriber.py:141-150 | the chosen day is in [today − days_back, today], its URL is that day's answer and unprocessed, and later days were skipped |
| CisoEpisodes.NothingNewIffAllSkipped | cisoTranscriber.py:141-153 | nothing new iff every day in the window is skipped |
| CisoEpisodes.FoundIsFirstServed | cisoTranscriber.py:141-150 | with real availability, the chosen URL is the first served candidate of its day, and one of its two candidates |
| CisoEpisodes.ProcessedSkipsDay | cisoTranscriber.py:143-147 | a served and processed first candidate skips its day, even when the second is new |
| CisoEpisodes.FindNewEpisode | cisoTranscriber.py:139-150 | the `for delta` loop with `continue` and `break` computes the scan |
| CisoEpisodes.ProcessedEntry | cisoTranscriber.py:185-191 | the recorded entry is a non-empty dict with the date |
| CisoEpisodes.Record | cisoTranscriber.py:185 | only `processed[url]` changes |
| CisoEpisodes.CisoMain | cisoTranscriber.py:123-196 | exit status 0 or 1; a saved state has "processed" and follows a fetch |
| CisoEpisodes.RecordsOnlyCompletedEpisodes | cisoTranscriber.py:152-192 | a dry run fetches and saves nothing; the state is saved iff a new episode was found, not a dry run, the key is set and all three steps completed; it then records the chosen URL's entry |
| CisoEpisodes.RecordingKeepsOtherDays | cisoTranscriber.py:185-191 | recording one episode leaves every other day's candidates as they were |
| CisoEpisodes.NextRunSkipsRecorded | cisoTranscriber.py:146-147 | a later run on the saved state never fetches the recorded episode again |
| CisoEpisodes.RunCiso | cisoTranscriber.py:123-196 | `main` as statements computes `CisoMain` |

## Left out

- Network I/O is not modelled: feed fetches, `http_get`, `url_exists`, `download_audio`, `post_to_slack`. Their outcomes are inputs: entry lists (for MARADMIN.py, an optional list, None when `fetch_rss_entries` raises on a bozo feed), a `Fetch` value, an availability predicate, `completed`, `delivered`.
- RSS and RFC 2822/ISO 8601 parsing (`feedparser`, `parse_datetime_any`, `entry_local_date`) are not modelled; entries arrive already parsed.
- BeautifulSoup `get_text` is a foreign call. The model starts from the visible text it returns.
- OpenAI calls (`responses.create`, `transcribe_audio`, `summarize_transcript`) are not modelled. Their reply text, or a failure, is an input.
- The clock and time zone are inputs: `utc_now_iso_z`, `date.today()`, `local_today_date`, the message date stamp and `processed_at`.
- JSON file reading and writing are not modelled. Loading gives a parsed value or none, and a failing `save_state` is not modelled.
- argparse, the environment variables, `--model` and `load_dotenv` are not modelled: options are parameters, and each secret is a present/absent flag.
- Printing is not modelled: `--debug`, `--show-raw` output and dry-run printing. Only their effect on what is stored or sent is modelled.
- `MARADMIN_NUM_RE` is abstracted as a function parameter (`numberOf`) instead of being hand-coded.
- Strings are modelled with ASCII rules only:
  - lower-casing and `\w` cover ASCII only;
  - `\d` matches ASCII digits only;
  - whitespace is " \t\n\r\v\f";
  - only "\n" breaks lines, whereas Python's `splitlines` also breaks on "\r", "\x1c" and others.
- The RCD topic regexes are word-boundary alternations over lower-cased ASCII text.
- The bullet count that `int(decision["bullets"])` reads is the table's value, so no conversion failure is modelled.
- `FilenamePatterns` formatting is written out for the two patterns rather than as a general `str.format`.
- `Path` joining is modelled as directory + "/" + name.
- "%Y" is modelled as four zero-padded digits. CPython's output for years below 1000 depends on the platform.
- CisoEpisodes.CisoMain requires `days_back` to be less than today's ordinal. Python would raise OverflowError only when the scan reaches year 0; that case is not modelled.
- `url_exists` answers per URL, so `choose_available_audio_url` is a function of the day. The scan and `main` take that function (`Chooser`); `ChooserOf` links it to an availability predicate.
- The contents of the downloaded audio, transcript and summary files are not modelled; one `completed` flag stands for all three steps succeeding.
- MaradminFeed.LoadSeenIds: keeps only the string items of the seen-id list. Python's `set(seen_list)` keeps every hashable item, so numbers, booleans and null are dropped here. Two consequences are not modelled: `sorted(seen_ids)` raising TypeError when strings and numbers mix, and such items being written back. A list holding a list or a dict, which makes `set()` raise, is ignored here. The script itself only ever writes lists of strings.
- NewsState.SetOfStrings: likewise keeps only the strings of a list, so the TypeError that `sorted(ciso_seen)` or `sorted(rcd_seen)` raises on a mix of strings and numbers is not modelled (News.py:448 and 515).
- MaradminRun.RunMaradmin: inherits that drop. For a seen-id list mixing strings with numbers, it saves and exits 0 where Python raises after posting. For a list of numbers alone, it writes an empty list where Python writes the numbers back.
- MaradminSummary.PostProcessBullets: it does not promise that no bullet starts with "-", "•" or "*", because the code does not guarantee it ("- - x" keeps "- x"; see `BulletGlyphCanSurvive`).
- MaradminRun.ProcessEntryBullets: the bound is stated for runs without --show-raw. The show-raw bullets are a fixed three-line list.
- The project has no concurrency and no floating point.
