/**
  The `[round:N]` text protocol of tool-history compaction: how rounds are framed in the
  summarizer's prompt, and how its answer is parsed back into a map from round id to summary.
 */
module SummaryProtocol {
  import opened Text
  import opened Wrappers

  type Summaries = map<int, string>

  /** The round id a header line carries: `None` when the line is no header, and
      `Some(None)` when it is one whose number does not parse. */
  function HeaderId(stripped: string): Option<Option<int>> {
    if StartsWith(stripped, "[round:") && EndsWith(stripped, "]") then
      assert stripped[6] == ':' && stripped[|stripped| - 1..][0] == ']';
      Some(ParseInt(stripped[7..|stripped| - 1]))
    else None
  }

  function Header(id: nat): string {
    "[round:" + Decimal(id) + "]"
  }

  /** Where the parser stands between two lines. */
  datatype Cursor = Cursor(summaries: Summaries, round: Option<int>, body: seq<string>)

  /** Files the lines collected so far under the open round. */
  function Close(c: Cursor): Summaries {
    if c.round.Some? then c.summaries[c.round.value := Strip(Join(" ", c.body))] else c.summaries
  }

  function Feed(c: Cursor, line: string): Cursor {
    var stripped := Strip(line);
    match HeaderId(stripped)
    case Some(id) => Cursor(Close(c), id, [])
    case None => if c.round.Some? then c.(body := c.body + [stripped]) else c
  }

  function FeedAll(c: Cursor, lines: seq<string>): Cursor
    decreases lines
  {
    if lines == [] then c else FeedAll(Feed(c, lines[0]), lines[1..])
  }

  function NonEmpty(m: Summaries): Summaries {
    map k | k in m && m[k] != "" :: m[k]
  }

  function ParsedLines(lines: seq<string>): Summaries {
    NonEmpty(Close(FeedAll(Cursor(map[], None, []), lines)))
  }

  lemma {:induction false} FeedAllSplit(c: Cursor, a: seq<string>, b: seq<string>)
    ensures FeedAll(c, a + b) == FeedAll(FeedAll(c, a), b)
    decreases a
  {
    if a == [] {
      assert a + b == b;
    } else {
      assert (a + b)[1..] == a[1..] + b;
      FeedAllSplit(Feed(c, a[0]), a[1..], b);
    }
  }

  /** The parser's loop over the lines of an answer. */
  method ParseTextProtocol(text: string) returns (summaries: Summaries)
    ensures summaries == ParsedLines(SplitLines(Strip(text)))
    ensures forall id :: id in summaries ==> summaries[id] != ""
  {
    var lines := SplitLines(Strip(text));
    summaries := map[];
    var currentRound: Option<int> := None;
    var currentLines: seq<string> := [];
    ghost var start := Cursor(map[], None, []);
    for i := 0 to |lines|
      invariant FeedAll(start, lines[..i]) == Cursor(summaries, currentRound, currentLines)
    {
      assert lines[..i + 1] == lines[..i] + [lines[i]];
      FeedAllSplit(start, lines[..i], [lines[i]]);
      var stripped := Strip(lines[i]);
      var header := HeaderId(stripped);
      if header.Some? {
        if currentRound.Some? {
          summaries := summaries[currentRound.value := Strip(Join(" ", currentLines))];
        }
        currentLines := [];
        currentRound := header.value;
      } else if currentRound.Some? {
        currentLines := currentLines + [stripped];
      }
    }
    assert lines[..|lines|] == lines;
    if currentRound.Some? {
      summaries := summaries[currentRound.value := Strip(Join(" ", currentLines))];
    }
    summaries := NonEmpty(summaries);
  }

  // ---- Round trip ----

  /** One answer block: the round's id, its summary, and the blank lines that follow it. */
  datatype Block = Block(id: nat, body: seq<string>)

  function Lines(blocks: seq<Block>): seq<string> {
    if blocks == [] then [] else [Header(blocks[0].id)] + blocks[0].body + Lines(blocks[1..])
  }

  predicate BodyLine(line: string) {
    HeaderId(Strip(line)).None?
  }

  predicate BodyLines(body: seq<string>) {
    forall i :: 0 <= i < |body| ==> BodyLine(body[i])
  }

  predicate Bodies(blocks: seq<Block>) {
    forall k :: 0 <= k < |blocks| ==> BodyLines(blocks[k].body)
  }

  function Stripped(lines: seq<string>): seq<string> {
    seq(|lines|, i requires 0 <= i < |lines| => Strip(lines[i]))
  }

  /** What a list of blocks says: each body's lines joined by blanks; a later block wins. */
  function Said(m: Summaries, blocks: seq<Block>): Summaries
    decreases blocks
  {
    if blocks == [] then m
    else Said(m[blocks[0].id := Strip(Join(" ", Stripped(blocks[0].body)))], blocks[1..])
  }

  lemma HeaderReads(id: nat)
    ensures Strip(Header(id)) == Header(id)
    ensures HeaderId(Header(id)) == Some(Some(id))
  {
    var h := Header(id);
    StripTrimmed(h);
    assert h[..7] == "[round:";
    assert h[|h| - 1..] == "]";
    assert h[7..|h| - 1] == Decimal(id);
    ParseIntOfDecimal(id);
  }

  lemma FeedHeader(c: Cursor, id: nat, rest: seq<string>)
    ensures FeedAll(c, [Header(id)] + rest) == FeedAll(Cursor(Close(c), Some(id), []), rest)
  {
    HeaderReads(id);
    assert ([Header(id)] + rest)[1..] == rest;
  }

  lemma {:induction false} FeedBody(c: Cursor, body: seq<string>)
    requires c.round.Some?
    requires BodyLines(body)
    ensures FeedAll(c, body) == c.(body := c.body + Stripped(body))
    decreases body
  {
    if body == [] {
      assert c.body + Stripped(body) == c.body;
    } else {
      FeedBody(Feed(c, body[0]), body[1..]);
      assert c.body + [Strip(body[0])] + Stripped(body[1..]) == c.body + Stripped(body);
    }
  }

  lemma {:induction false} FeedBlocks(c: Cursor, blocks: seq<Block>)
    requires Bodies(blocks)
    ensures Close(FeedAll(c, Lines(blocks))) == Said(Close(c), blocks)
    decreases blocks
  {
    if blocks != [] {
      var b, rest := blocks[0], Lines(blocks[1..]);
      var inBlock := Cursor(Close(c), Some(b.id), []);
      FeedHeader(c, b.id, b.body + rest);
      assert Lines(blocks) == [Header(b.id)] + (b.body + rest);
      FeedAllSplit(inBlock, b.body, rest);
      FeedBody(inBlock, b.body);
      assert [] + Stripped(b.body) == Stripped(b.body);
      FeedBlocks(FeedAll(inBlock, b.body), blocks[1..]);
    }
  }

  /** Bodies of any number of lines parse to their trimmed lines joined by blanks. */
  lemma ParseRenderedBlocks(blocks: seq<Block>)
    requires Bodies(blocks)
    ensures ParsedLines(Lines(blocks)) == NonEmpty(Said(map[], blocks))
  {
    FeedBlocks(Cursor(map[], None, []), blocks);
  }

  /** The last block of a round decides: its trimmed lines joined by blanks are the round's summary,
      and a blank one takes an earlier summary away. */
  lemma LastBlockDecides(blocks: seq<Block>, last: Block)
    requires Bodies(blocks) && BodyLines(last.body)
    ensures var parsed := ParsedLines(Lines(blocks + [last])); var text := Strip(Join(" ", Stripped(last.body)));
      (last.id in parsed <==> text != "") && (text != "" ==> parsed[last.id] == text)
  {
    assert Bodies(blocks + [last]);
    ParseRenderedBlocks(blocks + [last]);
    SaidLast(map[], blocks, last);
  }

  lemma {:induction false} SaidLast(m: Summaries, blocks: seq<Block>, last: Block)
    ensures Said(m, blocks + [last]) == Said(m, blocks)[last.id := Strip(Join(" ", Stripped(last.body)))]
    decreases blocks
  {
    if blocks == [] {
      assert [last][1..] == [] && blocks + [last] == [last];
    } else {
      assert (blocks + [last])[1..] == blocks[1..] + [last];
      SaidLast(m[blocks[0].id := Strip(Join(" ", Stripped(blocks[0].body)))], blocks[1..], last);
    }
  }

  /** Lines before the first header say nothing. */
  lemma {:induction false} PreambleIsIgnored(lines: seq<string>, rest: seq<string>)
    requires BodyLines(lines)
    ensures ParsedLines(lines + rest) == ParsedLines(rest)
    decreases lines
  {
    if lines == [] {
      assert lines + rest == rest;
    } else {
      assert (lines + rest)[1..] == lines[1..] + rest;
      PreambleIsIgnored(lines[1..], rest);
    }
  }

  lemma FeedMalformed(at: Cursor, header: string, body: seq<string>, rest: seq<Block>)
    requires BodyLines(body) && Bodies(rest) && HeaderId(Strip(header)) == Some(None)
    ensures Close(FeedAll(at, [header] + (body + Lines(rest)))) == Said(Close(at), rest)
  {
    var closed := Cursor(Close(at), None, []);
    assert ([header] + (body + Lines(rest)))[1..] == body + Lines(rest);
    assert Feed(at, header) == closed;
    FeedAllSplit(closed, body, Lines(rest));
    FeedIgnored(closed, body);
    FeedBlocks(closed, rest);
  }

  /** A header whose number does not parse ends the open round, and the lines under it say nothing. */
  lemma MalformedBlockIsIgnored(blocks: seq<Block>, header: string, body: seq<string>, rest: seq<Block>)
    requires Bodies(blocks) && BodyLines(body) && Bodies(rest) && HeaderId(Strip(header)) == Some(None)
    ensures ParsedLines(Lines(blocks) + ([header] + (body + Lines(rest)))) == ParsedLines(Lines(blocks + rest))
  {
    var start := Cursor(map[], None, []);
    var at := FeedAll(start, Lines(blocks));
    FeedAllSplit(start, Lines(blocks), [header] + (body + Lines(rest)));
    FeedMalformed(at, header, body, rest);
    LinesConcat(blocks, rest);
    FeedAllSplit(start, Lines(blocks), Lines(rest));
    FeedBlocks(at, rest);
  }

  lemma {:induction false} FeedIgnored(c: Cursor, lines: seq<string>)
    requires c.round.None? && BodyLines(lines)
    ensures FeedAll(c, lines) == c
    decreases lines
  {
    if lines != [] {
      FeedIgnored(c, lines[1..]);
    }
  }

  lemma {:induction false} LinesConcat(a: seq<Block>, b: seq<Block>)
    ensures Lines(a + b) == Lines(a) + Lines(b)
    decreases a
  {
    if a == [] {
      assert a + b == b;
    } else {
      assert (a + b)[1..] == a[1..] + b;
      LinesConcat(a[1..], b);
    }
  }

  /** A header is a trimmed line between the marks; what is between them is its number. */
  lemma HeaderMeans(inner: string)
    ensures HeaderId("[round:" + inner + "]") == Some(ParseInt(inner))
  {
    var h := "[round:" + inner + "]";
    assert h[..7] == "[round:" && h[|h| - 1..] == "]" && h[7..|h| - 1] == inner;
  }

  /** A summary the protocol carries faithfully: one trimmed non-blank line that is no header. */
  predicate Plain(summary: string) {
    summary != "" && SingleLine(summary) && Trimmed(summary) && HeaderId(summary).None?
  }

  function PlainBlocks(ids: seq<nat>, summaries: Summaries): seq<Block>
    requires forall id :: id in ids ==> id in summaries
  {
    seq(|ids|, i requires 0 <= i < |ids| => Block(ids[i], [summaries[ids[i]]]))
  }

  lemma OneMore(m: Summaries, ids: seq<nat>, summaries: Summaries)
    requires ids != [] && ids[0] in summaries
    ensures m[ids[0] := summaries[ids[0]]] + (map id: int | id in summaries && id >= 0 && id in ids[1..] :: summaries[id])
         == m + map id: int | id in summaries && id >= 0 && id in ids :: summaries[id]
  {
    assert forall id :: id in ids <==> id == ids[0] || id in ids[1..];
  }

  lemma {:induction false} SaidPlain(m: Summaries, ids: seq<nat>, summaries: Summaries)
    requires forall id :: id in ids ==> id in summaries && Plain(summaries[id])
    ensures Said(m, PlainBlocks(ids, summaries)) == m + map id: int | id in summaries && id >= 0 && id in ids :: summaries[id]
    decreases ids
  {
    var blocks := PlainBlocks(ids, summaries);
    if ids != [] {
      var s := summaries[ids[0]];
      StripTrimmed(s);
      assert Stripped(blocks[0].body) == [s];
      assert blocks[1..] == PlainBlocks(ids[1..], summaries);
      SaidPlain(m[ids[0] := s], ids[1..], summaries);
      OneMore(m, ids, summaries);
    }
  }

  lemma HeaderIsPlain(id: nat)
    ensures SingleLine(Header(id)) && Header(id) != "" && Trimmed(Header(id))
  {
    var h := Header(id);
    ParseDecimal(id);
    assert forall i :: 7 <= i < |h| - 1 ==> h[i] == Decimal(id)[i - 7];
  }

  lemma {:induction false} LinesPlain(ids: seq<nat>, summaries: Summaries)
    requires forall id :: id in ids ==> id in summaries && Plain(summaries[id])
    ensures var ls := Lines(PlainBlocks(ids, summaries));
      && |ls| == 2 * |ids|
      && (forall i :: 0 <= i < |ls| ==> SingleLine(ls[i]) && ls[i] != "" && Trimmed(ls[i]))
  {
    if ids != [] {
      var blocks := PlainBlocks(ids, summaries);
      assert blocks[1..] == PlainBlocks(ids[1..], summaries);
      LinesPlain(ids[1..], summaries);
      HeaderIsPlain(ids[0]);
      assert Lines(blocks) == [Header(ids[0]), summaries[ids[0]]] + Lines(blocks[1..]);
    }
  }

  lemma TextOfLines(lines: seq<string>)
    requires forall i :: 0 <= i < |lines| ==> SingleLine(lines[i]) && lines[i] != "" && Trimmed(lines[i])
    ensures SplitLines(Strip(Join("\n", lines))) == lines
  {
    if lines != [] {
      JoinEnds("\n", lines);
      StripTrimmed(Join("\n", lines));
    }
    SplitOfJoin(lines);
  }

  lemma BodiesPlain(ids: seq<nat>, summaries: Summaries)
    requires forall id :: id in ids ==> id in summaries && Plain(summaries[id])
    ensures Bodies(PlainBlocks(ids, summaries))
  {
    var blocks := PlainBlocks(ids, summaries);
    forall k | 0 <= k < |blocks| ensures BodyLines(blocks[k].body) {
      StripTrimmed(summaries[ids[k]]);
    }
  }

  lemma PlainSurvive(ids: seq<nat>, summaries: Summaries)
    requires forall id :: id in summaries <==> id >= 0 && id in ids
    requires forall id :: id in ids ==> Plain(summaries[id])
    ensures NonEmpty(Said(map[], PlainBlocks(ids, summaries))) == summaries
  {
    SaidPlain(map[], ids, summaries);
    var said := Said(map[], PlainBlocks(ids, summaries));
    assert forall id :: id in summaries ==> id in said && said[id] == summaries[id] && said[id] != "";
    assert said.Keys == summaries.Keys;
  }

  /** The text protocol loses nothing: whatever map of plain summaries an answer renders, in
      any order of its ids, parsing the answer's text gives back exactly that map. */
  lemma RoundTrip(ids: seq<nat>, summaries: Summaries)
    requires forall id :: id in summaries <==> id >= 0 && id in ids
    requires forall id :: id in ids ==> Plain(summaries[id])
    ensures ParsedLines(SplitLines(Strip(Join("\n", Lines(PlainBlocks(ids, summaries)))))) == summaries
  {
    var blocks := PlainBlocks(ids, summaries);
    assert SplitLines(Strip(Join("\n", Lines(blocks)))) == Lines(blocks) by {
      LinesPlain(ids, summaries);
      TextOfLines(Lines(blocks));
    }
    assert ParsedLines(Lines(blocks)) == NonEmpty(Said(map[], blocks)) by {
      BodiesPlain(ids, summaries);
      ParseRenderedBlocks(blocks);
    }
    PlainSurvive(ids, summaries);
    calc {
      ParsedLines(SplitLines(Strip(Join("\n", Lines(blocks)))));
      ParsedLines(Lines(blocks));
      NonEmpty(Said(map[], blocks));
      summaries;
    }
  }
}
