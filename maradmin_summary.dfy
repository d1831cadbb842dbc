/** MARADMIN.py, the summary side: the per-mode model instructions, the
    post-processing of the model's reply into bullet lines, the label of each
    entry and the Slack message that lists the new entries. The model call
    itself is outside: its reply is an input string. */
module MaradminSummary {
  import opened Wrappers
  import opened Text
  import opened MaradminFeed
  import opened MaradminClassify
  import opened Filtering

  // ----------------------------------------------------------------------
  // build_llm_instructions
  // ----------------------------------------------------------------------

  const BaseInstructions: string :=
    "You summarize USMC MARADMINS for a Cyberspace Officer.\n"
    + "Output ONLY bullet points (no headings, no intro).\n"
    + "Do NOT invent details; use only the provided text. If unknown, say 'Not stated'.\n"
    + "Keep bullets tight: 1 sentence where possible, max 2 sentences.\n"
    + "Prefer concrete dates/deadlines and required actions.\n"

  /** The sentence each mode's instructions hinge on. */
  function Directive(m: Mode): string {
    match m
    case ReadAsap => "READ ASAP \U{2014} name list inside."
    case DatesOnly => "key dates only"
    case BriefResults => "Tell the reader to open/read the MARADMIN for names."
    case FyiNot17xx => "Tag the first bullet with 'FYI\U{2014}Not 17XX'."
    case Minimal => "Provide exactly 1 bullet.\n"
    case Full17xx => "only include details relevant to 17XX / those MOSs."
  }

  // The fixed text around the budget and the directive, mode by mode.
  const ReadAsapMiddle: string :=
    " bullets MAX.\n"
    + "This is a PROMOTION/SELECTION LIST with names.\n"
    + "- Do NOT summarize or list names.\n"
    + "- MUST include '"
  const ReadAsapTail: string :=
    "'\n"
    + "Focus on: what rank(s), what population (Active/AR/Reserve), what month/timeframe, and any admin notes.\n"
  const DatesOnlyLead: string :=
    "This is a promotion selection board schedule / dates message.\n"
    + "- First bullet: a one-sentence summary.\n"
    + "- Remaining bullets: "
  const DatesOnlyMiddle: string :=
    " (board correspondence due dates and convening dates).\n"
    + "Provide up to "
  const DatesOnlyTail: string := " bullets total.\n" + "No extra commentary.\n"
  const BriefResultsMiddle: string :=
    " bullets MAX.\n"
    + "This is BOARD RESULTS.\n"
    + "- Do NOT summarize names.\n"
    + "- "
  const FyiTail: string := "\n" + "Focus on: what it is, who it applies to, and any deadline/timeline.\n"
  const Full17xxMiddle: string :=
    " bullets.\n"
    + "This MARADMIN is relevant to 17XX / MOS 1701/1702/1710/1720/1721.\n"
    + "If the MARADMIN lists multiple MOSs, "
  const Full17xxTail: string := "\n" + "Emphasize deadlines/timelines, eligibility, and required actions.\n"

  /** The instructions of each mode as six pieces; the bullet budget `n` and
      the mode's directive are the third and the fifth (for minimal, which
      names no budget, the directive is the third). */
  function InstructionPieces(mode: Mode, n: string): (r: (string, string, string, string, string, string))
    ensures r.0 == BaseInstructions
    ensures mode == DatesOnly ==> r.2 == Directive(mode) && r.4 == n
    ensures mode == Minimal ==> r.2 == Directive(mode)
    ensures mode != DatesOnly && mode != Minimal ==> r.2 == n && r.4 == Directive(mode)
  {
    var d := Directive(mode);
    match mode
    case ReadAsap => (BaseInstructions, "Provide 1\U{2013}", n, ReadAsapMiddle, d, ReadAsapTail)
    case DatesOnly => (BaseInstructions, DatesOnlyLead, d, DatesOnlyMiddle, n, DatesOnlyTail)
    case BriefResults => (BaseInstructions, "Provide 1\U{2013}", n, BriefResultsMiddle, d, "\n")
    case FyiNot17xx => (BaseInstructions, "Provide 1\U{2013}", n, " bullets MAX.\n", d, FyiTail)
    case Minimal => (BaseInstructions, [], d, [], [], [])
    case Full17xx => (BaseInstructions, "Provide 4\U{2013}", n, Full17xxMiddle, d, Full17xxTail)
  }

  /** `build_llm_instructions`. Every mode's instructions start with the
      base text; every mode but minimal names the bullet budget, and each
      mode carries its own directive. */
  function BuildLlmInstructions(mode: Mode, bullets: int): (r: string)
    ensures StartsWith(r, BaseInstructions)
    ensures mode != Minimal ==> Contains(r, IntToString(bullets))
    ensures Contains(r, Directive(mode))
  {
    var p := InstructionPieces(mode, IntToString(bullets));
    SixPieces(p.0, p.1, p.2, p.3, p.4, p.5);
    p.0 + p.1 + p.2 + p.3 + p.4 + p.5
  }

  /** The user input `summarize_maradmin` sends along with the instructions:
      it starts with the title line and ends with the message text. */
  function UserInput(title: string, link: string, published: string, text: string): (r: string)
    ensures StartsWith(r, "Title: " + title + "\n")
    ensures |text| <= |r| && r[|r| - |text|..] == text
  {
    var head := "Title: " + title + "\n" + "Link: " + link + "\n" + "Published: " + published + "\n\n"
      + "MARADMIN text:\n";
    assert (head + text)[..|"Title: " + title + "\n"|] == "Title: " + title + "\n";
    assert (head + text)[|head|..] == text;
    head + text
  }

  // ----------------------------------------------------------------------
  // Bullet post-processing (the tail of summarize_maradmin)
  // ----------------------------------------------------------------------

  // Written as two literals: the verifier reads the characters of a string
  // literal only when it is short, and BulletLinesShape needs the first and
  // the last one.
  const Sentinel: string := "No extractable summary produced " + "from the available text."

  /** The characters `^[\-•\*]+` removes. */
  predicate IsBulletGlyph(c: char) { c == '-' || c == '\U{2022}' || c == '*' }

  function GlyphRunEnd(s: string, i: nat): (j: nat)
    requires i <= |s|
    ensures i <= j <= |s|
    ensures forall k :: i <= k < j ==> IsBulletGlyph(s[k])
    ensures j < |s| ==> !IsBulletGlyph(s[j])
    decreases |s| - i
  {
    if i < |s| && IsBulletGlyph(s[i]) then GlyphRunEnd(s, i + 1) else i
  }

  /** `re.sub(r"^[\-•\*]+\s*", "", s)`: a leading run of glyphs and the
      whitespace after it are removed, and nothing else; a line without a
      leading glyph is kept. */
  function StripBulletPrefix(s: string): (r: string)
    ensures s == [] || !IsBulletGlyph(s[0]) ==> r == s
    ensures s != [] && IsBulletGlyph(s[0]) ==> |r| < |s| && r == s[|s| - |r|..]
    ensures s != [] && IsBulletGlyph(s[0]) ==>
      var g := GlyphRunEnd(s, 0);
      g <= |s| - |r| && (forall k :: g <= k < |s| - |r| ==> IsSpace(s[k]))
    ensures s != [] && IsBulletGlyph(s[0]) && r != [] ==> !IsSpace(r[0])
  {
    var g := GlyphRunEnd(s, 0);
    if g == 0 then s else s[SkipSpaces(s, g)..]
  }

  /** One reply line as the loop treats it: stripped, then unbulleted; empty
      when the loop drops it. A kept line has no surrounding whitespace. */
  function CleanBullet(line: string): (r: string)
    ensures r != [] ==> Trimmed(r)
  {
    var s := Strip(line);
    if s == [] then [] else StripBulletPrefix(s)
  }

  /** The lines the loop keeps, in reply order. */
  function UsableLines(lines: seq<string>): (r: seq<string>)
    ensures forall k :: 0 <= k < |r| ==> Trimmed(r[k])
    ensures |r| <= |lines|
    decreases |lines|
  {
    if lines == [] then []
    else
      var init := UsableLines(lines[..|lines| - 1]);
      var c := CleanBullet(lines[|lines| - 1]);
      if c != [] then init + [c] else init
  }

  /** What `summarize_maradmin` returns for the reply `out`. */
  function BulletLines(out: string, bullets: int): seq<string> {
    var kept := UsableLines(SplitLines(Strip(out)));
    var ls := if kept == [] then [Sentinel] else kept;
    ls[..Min(|ls|, Max(1, bullets))]
  }

  /** Taking one more reply line into account. */
  lemma UsableLinesStep(lines: seq<string>, i: int)
    requires 0 <= i < |lines|
    ensures UsableLines(lines[..i + 1]) ==
      if CleanBullet(lines[i]) != [] then UsableLines(lines[..i]) + [CleanBullet(lines[i])]
      else UsableLines(lines[..i])
  {
    assert lines[..i + 1][..i] == lines[..i];
  }

  /** Each reply line as the loop leaves it. */
  function CleanedLines(lines: seq<string>): (r: seq<string>)
    ensures |r| == |lines| && forall k :: 0 <= k < |lines| ==> r[k] == CleanBullet(lines[k])
  {
    seq(|lines|, k requires 0 <= k < |lines| => CleanBullet(lines[k]))
  }

  /** Not empty, the test `if s:` makes. */
  predicate NonEmpty(s: string) { s != [] }

  /** The kept lines are the cleaned reply lines that are not empty, in
      reply order. */
  lemma {:induction false} UsableLinesFilter(lines: seq<string>)
    ensures UsableLines(lines) == Filter(CleanedLines(lines), NonEmpty)
    decreases |lines|
  {
    if lines != [] {
      var c := CleanedLines(lines);
      var n := |lines| - 1;
      UsableLinesFilter(lines[..n]);
      assert c[..n] == CleanedLines(lines[..n]);
      assert c[n] == CleanBullet(lines[n]);
    }
  }

  /** Some reply line cleans to `x`. */
  predicate CleansTo(lines: seq<string>, x: string) {
    exists k :: 0 <= k < |lines| && CleanBullet(lines[k]) == x
  }

  /** A string is kept exactly when it is not empty and some reply line
      cleans to it. */
  lemma UsableLinesMembers(lines: seq<string>)
    ensures forall x :: x in UsableLines(lines) <==> x != [] && CleansTo(lines, x)
  {
    var c := CleanedLines(lines);
    UsableLinesFilter(lines);
    FilterMembers(c, NonEmpty);
    forall x
      ensures x in c <==> CleansTo(lines, x)
    {
      if x in c {
        var k :| 0 <= k < |c| && c[k] == x;
        assert CleanBullet(lines[k]) == x;
      }
      if CleansTo(lines, x) {
        var k :| 0 <= k < |lines| && CleanBullet(lines[k]) == x;
        assert c[k] == x;
      }
    }
  }

  /** The result is never empty and never longer than max(1, bullets); every
      line is non-empty with no surrounding whitespace; with no usable line it
      is exactly the sentinel, and otherwise it is a prefix of the usable
      lines. */
  lemma BulletLinesShape(out: string, bullets: int)
    ensures 1 <= |BulletLines(out, bullets)| <= Max(1, bullets)
    ensures forall k :: 0 <= k < |BulletLines(out, bullets)| ==> Trimmed(BulletLines(out, bullets)[k])
    ensures UsableLines(SplitLines(Strip(out))) == [] ==> BulletLines(out, bullets) == [Sentinel]
    ensures UsableLines(SplitLines(Strip(out))) != [] ==>
              BulletLines(out, bullets) == UsableLines(SplitLines(Strip(out)))[..|BulletLines(out, bullets)|]
  {
    var kept := UsableLines(SplitLines(Strip(out)));
    var ls := if kept == [] then [Sentinel] else kept;
    if kept == [] {
      assert Sentinel[0] == 'N' && Sentinel[|Sentinel| - 1] == '.';
    }
    assert forall k :: 0 <= k < |ls| ==> Trimmed(ls[k]);
    var r := ls[..Min(|ls|, Max(1, bullets))];
    assert forall k :: 0 <= k < |r| ==> r[k] == ls[k];
  }

  /** The post-processing loop of `summarize_maradmin`: strip each reply
      line, drop the empty ones, remove the bullet glyphs, fall back to the
      sentinel and cut to the budget. */
  method PostProcessBullets(out: string, bullets: int) returns (lines: seq<string>)
    ensures lines == BulletLines(out, bullets)
    ensures 1 <= |lines| <= Max(1, bullets)
    ensures forall k :: 0 <= k < |lines| ==> Trimmed(lines[k])
  {
    var raw := SplitLines(Strip(out));
    var kept: seq<string> := [];
    var i := 0;
    while i < |raw|
      invariant 0 <= i <= |raw|
      invariant kept == UsableLines(raw[..i])
    {
      UsableLinesStep(raw, i);
      var s := Strip(raw[i]);
      if s != [] {
        s := StripBulletPrefix(s);
        if s != [] {
          kept := kept + [s];
        }
      }
      i := i + 1;
    }
    assert raw[..|raw|] == raw;
    if kept == [] {
      kept := [Sentinel];
    }
    lines := kept[..Min(|kept|, Max(1, bullets))];
    BulletLinesShape(out, bullets);
  }

  /** The glyph strip is not repeated: a reply line "- - x" comes out as
      "- x", so a result line can still start with a bullet glyph. */
  lemma BulletGlyphCanSurvive()
    ensures BulletLines("- - x", 1) == ["- x"]
  {
    var out := "- - x";
    StripTrimmed(out);
    assert Strip(out) == out;
    assert LineEnd(out, 0) == |out|;
    SingleLineLines(out);
    assert SplitLines(out) == [out];
    assert GlyphRunEnd(out, 0) == 1;
    assert SkipSpaces(out, 1) == 2;
    assert CleanBullet(out) == "- x";
    assert [out][..0] == [];
    assert UsableLines([out]) == ["- x"];
  }

  // ----------------------------------------------------------------------
  // entry_label
  // ----------------------------------------------------------------------

  /** The label text before the number, per mode. */
  function LabelPrefix(m: Mode): string {
    match m
    case ReadAsap => "\U{1F6A8} [PROMOTION LIST \U{2014} READ ASAP] "
    case DatesOnly => "[BOARD SCHEDULE] "
    case BriefResults => "[RESULTS \U{2014} READ FOR NAMES] "
    case Full17xx => "[17XX] "
    case FyiNot17xx => "[FYI\U{2014}Not 17XX] "
    case Minimal => "[ADMIN/LOW RELEVANCE] "
  }

  /** `maradmin_number or "MARADMIN"`. */
  function LabelNumber(n: Option<string>): string {
    if n.Some? && n.value != [] then n.value else "MARADMIN"
  }

  /** Reads the mode back from the first two characters of a label. */
  function LabelMode(tag: string): Option<Mode> {
    if |tag| < 2 then None
    else if tag[0] == '\U{1F6A8}' then Some(ReadAsap)
    else if tag[0] != '[' then None
    else if tag[1] == 'B' then Some(DatesOnly)
    else if tag[1] == 'R' then Some(BriefResults)
    else if tag[1] == '1' then Some(Full17xx)
    else if tag[1] == 'F' then Some(FyiNot17xx)
    else if tag[1] == 'A' then Some(Minimal)
    else None
  }

  /** `entry_label`. The label names its mode (LabelMode reads it back) and
      ends with the number, "MARADMIN" when there is none. */
  function EntryLabel(mode: Mode, number: Option<string>): (r: string)
    ensures LabelMode(r) == Some(mode)
    ensures r == LabelPrefix(mode) + LabelNumber(number)
  {
    LabelPrefix(mode) + LabelNumber(number)
  }

  /** Different modes or numbers give different labels. */
  lemma EntryLabelInjective(m1: Mode, n1: Option<string>, m2: Mode, n2: Option<string>)
    requires EntryLabel(m1, n1) == EntryLabel(m2, n2)
    ensures m1 == m2 && LabelNumber(n1) == LabelNumber(n2)
  {
    assert LabelMode(EntryLabel(m1, n1)) == Some(m1);
    var l := EntryLabel(m1, n1);
    assert l[|LabelPrefix(m1)|..] == LabelNumber(n1);
    assert EntryLabel(m2, n2)[|LabelPrefix(m2)|..] == LabelNumber(n2);
  }

  // ----------------------------------------------------------------------
  // build_slack_message
  // ----------------------------------------------------------------------

  /** One entry of `summaries`: mode, MARADMIN number and bullet lines. */
  datatype Info = Info(mode: Mode, number: Option<string>, bullets: seq<string>)

  /** `summaries.get(nid, {})` with its defaults. */
  function InfoFor(e: Entry, summaries: map<string, Info>): Info {
    var nid := NormalizeId(e);
    if nid in summaries then summaries[nid] else Info(Minimal, None, [])
  }

  function HeaderPrefix(count: nat): string {
    "*New MARADMINS detected* (" + NatToString(count) + ")"
  }

  /** The first part: count of new entries and the date stamp. */
  function Header(count: nat, stamp: string): string {
    HeaderPrefix(count) + " \U{2014} " + stamp + "\n"
  }

  /** The link line of an entry, with its label on a second line. */
  function Headline(e: Entry, tag: string): string {
    "*<" + e.link + "|" + e.title + ">*  _(Published: " + e.published + ")_\n_" + tag + "_"
  }

  /** The bullet lines of one entry, each behind a bullet glyph. */
  function BulletParts(bs: seq<string>): (r: seq<string>)
    ensures |r| == |bs| && forall k :: 0 <= k < |bs| ==> r[k] == "\U{2022} " + bs[k]
    decreases |bs|
  {
    if bs == [] then [] else BulletParts(bs[..|bs| - 1]) + ["\U{2022} " + bs[|bs| - 1]]
  }

  /** The parts one entry contributes: headline, bullets, a spacer. */
  function EntryParts(e: Entry, summaries: map<string, Info>): seq<string> {
    var info := InfoFor(e, summaries);
    [Headline(e, EntryLabel(info.mode, info.number))] + BulletParts(info.bullets) + [""]
  }

  /** The parts of each entry, entry by entry. */
  function EntryBlocks(entries: seq<Entry>, summaries: map<string, Info>): (r: seq<seq<string>>)
    ensures |r| == |entries|
    ensures forall k :: 0 <= k < |entries| ==> r[k] == EntryParts(entries[k], summaries)
  {
    seq(|entries|, k requires 0 <= k < |entries| => EntryParts(entries[k], summaries))
  }

  function MessageParts(entries: seq<Entry>, summaries: map<string, Info>, stamp: string): seq<string> {
    [Header(|entries|, stamp)] + Flatten(EntryBlocks(entries, summaries))
  }

  /** What `build_slack_message` returns; the date stamp is a parameter. */
  function SlackMessage(entries: seq<Entry>, summaries: map<string, Info>, stamp: string): string {
    Strip(Join(MessageParts(entries, summaries, stamp), "\n"))
  }

  /** The body of `build_slack_message`'s loop for one entry: the link line
      with the label, one line per bullet, then the spacer. */
  method AppendEntryParts(parts: seq<string>, e: Entry, summaries: map<string, Info>) returns (r: seq<string>)
    ensures r == parts + EntryParts(e, summaries)
  {
    var info := InfoFor(e, summaries);
    var bs := info.bullets;
    var h := Headline(e, EntryLabel(info.mode, info.number));
    r := parts + [h];
    var j := 0;
    while j < |bs|
      invariant 0 <= j <= |bs|
      invariant r == parts + [h] + BulletParts(bs[..j])
    {
      assert bs[..j + 1][..j] == bs[..j];
      AppendAssoc(parts + [h], BulletParts(bs[..j]), ["\U{2022} " + bs[j]]);
      r := r + ["\U{2022} " + bs[j]];
      j := j + 1;
    }
    assert bs[..|bs|] == bs;
    r := r + [""];
    assert EntryParts(e, summaries) == [h] + BulletParts(bs) + [""];
    AppendAssoc(parts + [h], BulletParts(bs), [""]);
    AppendAssoc(parts, [h], BulletParts(bs) + [""]);
  }

  /** `build_slack_message`: the header, then each entry's parts, joined by
      newlines and stripped. */
  method BuildSlackMessage(entries: seq<Entry>, summaries: map<string, Info>, stamp: string) returns (msg: string)
    ensures msg == SlackMessage(entries, summaries, stamp)
    ensures StartsWith(msg, HeaderPrefix(|entries|))
  {
    ghost var blocks := EntryBlocks(entries, summaries);
    var parts := [Header(|entries|, stamp)];
    var i := 0;
    while i < |entries|
      invariant 0 <= i <= |entries|
      invariant parts == [Header(|entries|, stamp)] + Flatten(blocks[..i])
    {
      FlattenStep(blocks, i);
      AppendAssoc([Header(|entries|, stamp)], Flatten(blocks[..i]), blocks[i]);
      parts := AppendEntryParts(parts, entries[i], summaries);
      i := i + 1;
    }
    assert blocks[..|entries|] == blocks;
    msg := Strip(Join(parts, "\n"));
    SlackMessageStartsWithHeader(entries, summaries, stamp);
  }

  /** The message opens with the count of new entries. */
  lemma SlackMessageStartsWithHeader(entries: seq<Entry>, summaries: map<string, Info>, stamp: string)
    ensures StartsWith(SlackMessage(entries, summaries, stamp), HeaderPrefix(|entries|))
  {
    var parts := MessageParts(entries, summaries, stamp);
    var h := HeaderPrefix(|entries|);
    JoinStartsWith(parts, "\n");
    assert StartsWith(parts[0], h);
    assert StartsWith(Join(parts, "\n"), h);
    StripStartsWith(Join(parts, "\n"), h);
  }

  /** A part of the message that neither starts nor ends with whitespace
      survives the final strip. */
  lemma PartShown(entries: seq<Entry>, summaries: map<string, Info>, stamp: string, x: string)
    requires x in MessageParts(entries, summaries, stamp)
    requires Trimmed(x)
    ensures Contains(SlackMessage(entries, summaries, stamp), x)
  {
    var parts := MessageParts(entries, summaries, stamp);
    var k :| 0 <= k < |parts| && parts[k] == x;
    JoinContains(parts, "\n", k);
    StripContains(Join(parts, "\n"), x);
  }

  /** A part of an entry that neither starts nor ends with whitespace is in
      the message. */
  lemma EntryPartShown(entries: seq<Entry>, summaries: map<string, Info>, stamp: string, k: int, x: string)
    requires 0 <= k < |entries| && x in EntryParts(entries[k], summaries) && Trimmed(x)
    ensures Contains(SlackMessage(entries, summaries, stamp), x)
  {
    var blocks := EntryBlocks(entries, summaries);
    FlattenContains(blocks, k, x);
    PartShown(entries, summaries, stamp, x);
  }

  /** Every new entry is listed: its link line, with its label, is in the
      message; and so is each of its bullet lines that ends in a non-space. */
  lemma EveryEntryShown(entries: seq<Entry>, summaries: map<string, Info>, stamp: string, k: int)
    requires 0 <= k < |entries|
    ensures var info := InfoFor(entries[k], summaries);
      Contains(SlackMessage(entries, summaries, stamp), Headline(entries[k], EntryLabel(info.mode, info.number)))
    ensures var info := InfoFor(entries[k], summaries);
      forall b :: b in info.bullets && b != [] && !IsSpace(b[|b| - 1]) ==>
        Contains(SlackMessage(entries, summaries, stamp), "\U{2022} " + b)
  {
    var e := entries[k];
    var info := InfoFor(e, summaries);
    var h := Headline(e, EntryLabel(info.mode, info.number));
    assert h[0] == '*' && h[|h| - 1] == '_';
    EntryPartShown(entries, summaries, stamp, k, h);
    forall b | b in info.bullets && b != [] && !IsSpace(b[|b| - 1])
      ensures Contains(SlackMessage(entries, summaries, stamp), "\U{2022} " + b)
    {
      var j :| 0 <= j < |info.bullets| && info.bullets[j] == b;
      var x := "\U{2022} " + b;
      assert BulletParts(info.bullets)[j] == x;
      EntryPartShown(entries, summaries, stamp, k, x);
    }
  }
}
