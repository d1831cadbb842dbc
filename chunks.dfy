/** `chunk_for_slack`: the delivery splitter that MARADMIN.py and News.py
    both carry (the two copies are the same code). A message that fits is
    sent whole; a longer one is cut at line boundaries, packing lines
    greedily into chunks of at most `maxChars` characters. A single line
    longer than `maxChars` still becomes one chunk of its own. */
module SlackChunks {
  import opened Text

  /** SLACK_MAX_CHARS, the default budget in both scripts. */
  const SlackMaxChars: int := 35000

  /** The greedy loop of `chunk_for_slack`, with `buf` the lines taken so far. */
  function Pack(lines: seq<string>, maxChars: int, buf: string): seq<string>
    decreases |lines|
  {
    if lines == [] then
      (if buf != [] then [buf] else [])
    else if |buf| + |lines[0]| > maxChars && buf != [] then
      [buf] + Pack(lines[1..], maxChars, lines[0])
    else
      Pack(lines[1..], maxChars, buf + lines[0])
  }

  /** What `chunk_for_slack(msg, maxChars)` returns. */
  function Chunks(msg: string, maxChars: int): seq<string> {
    if |msg| <= maxChars then [msg] else Pack(Lines(msg), maxChars, [])
  }

  /** Packing loses and adds nothing: the chunks spell `buf` and then the lines. */
  lemma {:induction false} PackConcat(lines: seq<string>, maxChars: int, buf: string)
    ensures Concat(Pack(lines, maxChars, buf)) == buf + Concat(lines)
    decreases |lines|
  {
    if lines == [] {
      assert buf + [] == buf;
    } else {
      var rest := lines[1..];
      assert Concat(lines) == lines[0] + Concat(rest);
      if |buf| + |lines[0]| > maxChars && buf != [] {
        PackConcat(rest, maxChars, lines[0]);
        ConcatAppend([buf], Pack(rest, maxChars, lines[0]));
      } else {
        PackConcat(rest, maxChars, buf + lines[0]);
      }
    }
  }

  /** A non-empty buffer always ends up in some chunk. */
  lemma {:induction false} PackNotEmpty(lines: seq<string>, maxChars: int, buf: string)
    requires buf != []
    ensures Pack(lines, maxChars, buf) != []
    decreases |lines|
  {
    if lines != [] {
      if |buf| + |lines[0]| > maxChars && buf != [] {
      } else {
        PackNotEmpty(lines[1..], maxChars, buf + lines[0]);
      }
    }
  }

  /** Every chunk is non-empty, is cut after a '\n' unless it is the last,
      and is within budget unless it is a single line. */
  lemma {:induction false} PackShape(lines: seq<string>, maxChars: int, buf: string)
    requires forall k :: 0 <= k < |lines| ==> IsLine(lines[k])
    requires forall k :: 0 <= k < |lines| - 1 ==> EndsWithNewline(lines[k])
    requires buf != [] && lines != [] ==> EndsWithNewline(buf)
    requires buf == [] || |buf| <= maxChars || IsLine(buf)
    ensures forall i :: 0 <= i < |Pack(lines, maxChars, buf)| ==> Pack(lines, maxChars, buf)[i] != []
    ensures forall i :: 0 <= i < |Pack(lines, maxChars, buf)| - 1 ==> EndsWithNewline(Pack(lines, maxChars, buf)[i])
    ensures forall i :: 0 <= i < |Pack(lines, maxChars, buf)| ==>
              |Pack(lines, maxChars, buf)[i]| <= maxChars || IsLine(Pack(lines, maxChars, buf)[i])
    decreases |lines|
  {
    if lines != [] {
      var rest := lines[1..];
      var line := lines[0];
      assert IsLine(line);
      if |buf| + |line| > maxChars && buf != [] {
        PackShape(rest, maxChars, line);
        PackNotEmpty(rest, maxChars, line);
        assert Pack(lines, maxChars, buf) == [buf] + Pack(rest, maxChars, line);
      } else {
        var nb := buf + line;
        assert rest != [] ==> EndsWithNewline(line);
        assert rest != [] ==> nb[|nb| - 1] == line[|line| - 1];
        assert buf == [] ==> nb == line;
        PackShape(rest, maxChars, nb);
      }
    }
  }

  /** The source's over-long-line behaviour: one line longer than the budget
      is sent as a single chunk over the budget. */
  lemma OverlongLineIsOneOverBudgetChunk(msg: string, maxChars: int)
    requires IsLine(msg) && |msg| > maxChars
    ensures Chunks(msg, maxChars) == [msg]
    ensures |Chunks(msg, maxChars)[0]| > maxChars
  {
    SingleLineLines(msg);
    assert Pack([msg], maxChars, []) == Pack([], maxChars, [] + msg);
    assert [] + msg == msg;
  }

  /** Whatever the budget, the chunks spell the message again. */
  lemma ChunksSpellMessage(msg: string, maxChars: int)
    ensures Concat(Chunks(msg, maxChars)) == msg
  {
    if |msg| <= maxChars {
      assert Concat([msg]) == msg + Concat([]);
    } else {
      LinesConcat(msg);
      PackConcat(Lines(msg), maxChars, []);
    }
  }

  /** `chunk_for_slack`. A message within budget comes back whole; otherwise
      the chunks spell the message, each is non-empty, each but the last ends
      at a line break, and a chunk over budget is a single line. */
  method ChunkForSlack(msg: string, maxChars: int) returns (chunks: seq<string>)
    ensures chunks == Chunks(msg, maxChars)
    ensures |msg| <= maxChars ==> chunks == [msg]
    ensures Concat(chunks) == msg
    ensures |msg| > maxChars ==> forall i :: 0 <= i < |chunks| ==> chunks[i] != []
    ensures forall i :: 0 <= i < |chunks| - 1 ==> EndsWithNewline(chunks[i])
    ensures forall i :: 0 <= i < |chunks| ==> |chunks[i]| <= maxChars || IsLine(chunks[i])
  {
    if |msg| <= maxChars {
      assert Concat([msg]) == msg + Concat([]);
      return [msg];
    }
    var lines := Lines(msg);
    chunks := [];
    var buf := "";
    var i := 0;
    while i < |lines|
      invariant 0 <= i <= |lines|
      invariant chunks + Pack(lines[i..], maxChars, buf) == Pack(lines, maxChars, [])
    {
      var line := lines[i];
      assert lines[i..][1..] == lines[i + 1..];
      if |buf| + |line| > maxChars && buf != "" {
        assert Pack(lines[i..], maxChars, buf) == [buf] + Pack(lines[i + 1..], maxChars, line);
        assert "" + line == line;
        assert chunks + ([buf] + Pack(lines[i + 1..], maxChars, line))
            == (chunks + [buf]) + Pack(lines[i + 1..], maxChars, "" + line);
        chunks := chunks + [buf];
        buf := "";
      } else {
        assert Pack(lines[i..], maxChars, buf) == Pack(lines[i + 1..], maxChars, buf + line);
      }
      buf := buf + line;
      i := i + 1;
    }
    if buf != "" {
      chunks := chunks + [buf];
    }
    LinesConcat(msg);
    LinesShape(msg);
    PackConcat(lines, maxChars, []);
    PackShape(lines, maxChars, []);
  }
}
