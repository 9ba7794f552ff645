/**
  Chat consolidation: an offset into the chat log, summary blocks built from whole chunks of a
  hundred entries, the oldest blocks compressed into an era, and two separate durable writes.
 */
module ChatConsolidation {
  import opened Text
  import opened Wrappers

  const BLOCK_SIZE: nat := 100
  const MAX_SUMMARY_BLOCKS: nat := 10
  const ERA_COMPRESS_COUNT: nat := 4

  /** `covers` names the chat entries the block stands for, by their index in the log. */
  datatype Block = Block(isEra: bool, messageCount: nat, content: string, covers: seq<nat>)

  /** The blocks file and the meta file's `last_consolidated_offset`. */
  datatype Memory = Memory(blocks: seq<Block>, offset: nat)

  /** What the model returns for the `i`-th chunk of a pass. */
  type Replies = nat -> string

  function Indices(from: nat, to: nat): (r: seq<nat>)
    requires from <= to
    ensures |r| == to - from && forall i :: 0 <= i < |r| ==> r[i] == from + i
  {
    seq(to - from, i requires 0 <= i < to - from => from + i)
  }

  function Covered(blocks: seq<Block>): seq<nat> {
    if blocks == [] then [] else Covered(blocks[..|blocks| - 1]) + blocks[|blocks| - 1].covers
  }

  function MessageSum(blocks: seq<Block>): nat {
    if blocks == [] then 0 else MessageSum(blocks[..|blocks| - 1]) + blocks[|blocks| - 1].messageCount
  }

  /** How many leading chunks got a summary; the first empty one ends the pass. */
  function Summarized(chunks: nat, replies: Replies, done: nat): (n: nat)
    requires done <= chunks
    ensures done <= n <= chunks
    decreases chunks - done
  {
    if done == chunks || Strip(replies(done)) == "" then done else Summarized(chunks, replies, done + 1)
  }

  function ChunkBlock(start: nat, replies: Replies, i: nat): Block {
    Block(false, BLOCK_SIZE, Strip(replies(i)), Indices(start + i * BLOCK_SIZE, start + (i + 1) * BLOCK_SIZE))
  }

  function ChunkBlocks(start: nat, replies: Replies, n: nat): seq<Block> {
    seq(n, i requires 0 <= i < n => ChunkBlock(start, replies, i))
  }

  /** Block `i` of a pass is the reply to its own chunk, and covers the hundred entries of that chunk. */
  lemma ChunkBlocksMean(start: nat, replies: Replies, n: nat)
    ensures |ChunkBlocks(start, replies, n)| == n
    ensures forall i :: 0 <= i < n ==>
      var block := ChunkBlocks(start, replies, n)[i];
      && block.content == Strip(replies(i)) && !block.isEra && block.messageCount == 100
      && block.covers == Indices(start + 100 * i, start + 100 * i + 100)
  {}

  function EraOf(blocks: seq<Block>, reply: string): Block {
    Block(true, MessageSum(blocks), Strip(reply), Covered(blocks))
  }

  /** Too many blocks: the oldest become one era, unless its summary comes back empty. */
  function Compressed(blocks: seq<Block>, eraReply: string): seq<Block> {
    if |blocks| <= MAX_SUMMARY_BLOCKS || Strip(eraReply) == "" then blocks
    else
      var count := if ERA_COMPRESS_COUNT < |blocks| - 1 then ERA_COMPRESS_COUNT else |blocks| - 1;
      [EraOf(blocks[..count], eraReply)] + blocks[count..]
  }

  /** A log shorter than the offset was rotated: start over. */
  function StartOffset(m: Memory, entries: nat): nat {
    if m.offset > entries then 0 else m.offset
  }

  /** How many chunks a pass turns into blocks. */
  function PassLength(m: Memory, entries: nat, replies: Replies): (n: nat)
    ensures StartOffset(m, entries) + n * BLOCK_SIZE <= entries
  {
    Summarized((entries - StartOffset(m, entries)) / BLOCK_SIZE, replies, 0)
  }

  /** One pass over a log of `entries` entries. A crash between the two writes leaves the new
      blocks with the old offset. */
  function Consolidated(m: Memory, entries: nat, replies: Replies, eraReply: string, crash: bool): Memory {
    var start := StartOffset(m, entries);
    var n := PassLength(m, entries, replies);
    if entries - start < BLOCK_SIZE then m
    else if n == 0 then m.(offset := start)
    else
      var blocks := Compressed(m.blocks + ChunkBlocks(start, replies, n), eraReply);
      Memory(blocks, if crash then m.offset else start + n * BLOCK_SIZE)
  }

  class ChatMemory {
    var blocks: seq<Block>
    var offset: nat

    ghost function Value(): Memory
      reads this
    {
      Memory(blocks, offset)
    }

    constructor ()
      ensures Value() == Memory([], 0)
    {
      blocks, offset := [], 0;
    }

    method CompressBlocksToEra(oldest: seq<Block>, reply: string) returns (era: Option<Block>)
      ensures era == if Strip(reply) == "" then None else Some(EraOf(oldest, reply))
    {
      if Strip(reply) == "" {
        return None;
      }
      var count := 0;
      for i := 0 to |oldest|
        invariant count == MessageSum(oldest[..i])
      {
        assert oldest[..i + 1][..i] == oldest[..i];
        count := count + oldest[i].messageCount;
      }
      assert oldest[..|oldest|] == oldest;
      return Some(Block(true, count, Strip(reply), Covered(oldest)));
    }

    /** The chunk loop: one block per chunk, up to the first empty summary. */
    static method SummarizeChunks(start: nat, chunks: nat, replies: Replies) returns (newBlocks: seq<Block>, processed: nat)
      ensures newBlocks == ChunkBlocks(start, replies, Summarized(chunks, replies, 0))
      ensures processed == |newBlocks| * BLOCK_SIZE
      ensures |newBlocks| <= chunks && (|newBlocks| < chunks ==> Strip(replies(|newBlocks|)) == "")
      ensures forall i :: 0 <= i < |newBlocks| ==>
        && Strip(replies(i)) != "" && newBlocks[i].content == Strip(replies(i))
        && !newBlocks[i].isEra && newBlocks[i].messageCount == 100
        && newBlocks[i].covers == Indices(start + 100 * i, start + 100 * i + 100)
    {
      newBlocks := [];
      processed := 0;
      var i := 0;
      while i < chunks
        invariant 0 <= i <= chunks
        invariant newBlocks == ChunkBlocks(start, replies, i)
        invariant processed == i * BLOCK_SIZE
        invariant Summarized(chunks, replies, 0) == Summarized(chunks, replies, i)
        invariant forall k :: 0 <= k < i ==> Strip(replies(k)) != ""
      {
        var content := Strip(replies(i));
        if content == "" {
          break;
        }
        newBlocks := newBlocks +
          [Block(false, BLOCK_SIZE, content, Indices(start + processed, start + processed + BLOCK_SIZE))];
        processed := processed + BLOCK_SIZE;
        i := i + 1;
      }
      ChunkBlocksMean(start, replies, |newBlocks|);
    }

    method RunBlockConsolidation(entries: nat, replies: Replies, eraReply: string, crash: bool)
      modifies this
      ensures Value() == Consolidated(old(Value()), entries, replies, eraReply, crash)
    {
      var start := offset;
      if start > entries {
        start := 0;
      }
      if entries - start < BLOCK_SIZE {
        return;
      }
      var chunks := (entries - start) / BLOCK_SIZE;
      var newBlocks, processed := SummarizeChunks(start, chunks, replies);
      if newBlocks == [] {
        offset := start + processed;
        return;
      }
      var allBlocks := blocks + newBlocks;
      if |allBlocks| > MAX_SUMMARY_BLOCKS {
        var count := if ERA_COMPRESS_COUNT < |allBlocks| - 1 then ERA_COMPRESS_COUNT else |allBlocks| - 1;
        var era := CompressBlocksToEra(allBlocks[..count], eraReply);
        if era.Some? {
          allBlocks := [era.value] + allBlocks[count..];
        }
      }
      blocks := allBlocks;
      if crash {
        return;
      }
      offset := start + processed;
    }
  }

  // ---- Coverage ----

  lemma {:induction false} CoveredConcat(a: seq<Block>, b: seq<Block>)
    ensures Covered(a + b) == Covered(a) + Covered(b)
    ensures MessageSum(a + b) == MessageSum(a) + MessageSum(b)
  {
    if b == [] {
      assert a + b == a;
    } else {
      assert (a + b)[..|a + b| - 1] == a + b[..|b| - 1];
      CoveredConcat(a, b[..|b| - 1]);
    }
  }

  /** Era compression and a failed compression alike cover what they covered, in order. */
  lemma CompressionKeepsCoverage(blocks: seq<Block>, eraReply: string)
    ensures Covered(Compressed(blocks, eraReply)) == Covered(blocks)
    ensures MessageSum(Compressed(blocks, eraReply)) == MessageSum(blocks)
  {
    if |blocks| > MAX_SUMMARY_BLOCKS && Strip(eraReply) != "" {
      var count := if ERA_COMPRESS_COUNT < |blocks| - 1 then ERA_COMPRESS_COUNT else |blocks| - 1;
      var era := EraOf(blocks[..count], eraReply);
      assert blocks[..count] + blocks[count..] == blocks;
      CoveredConcat(blocks[..count], blocks[count..]);
      CoveredConcat([era], blocks[count..]);
      assert [era][..0] == [];
      assert Covered([era]) == Covered(blocks[..count]) && MessageSum([era]) == MessageSum(blocks[..count]);
    }
  }

  /** More than ten blocks are compressed: the oldest four become one era with the reply as its text,
      and all others stay; a blank reply leaves every block as it is. */
  lemma OldestFourAreCompressed(blocks: seq<Block>, eraReply: string)
    ensures |blocks| > 10 && Strip(eraReply) != "" ==>
      var after := Compressed(blocks, eraReply);
      && |after| == |blocks| - 3 && after[1..] == blocks[4..]
      && after[0].isEra && after[0].content == Strip(eraReply) && after[0].covers == Covered(blocks[..4])
      && after[0].messageCount == MessageSum(blocks[..4])
    ensures |blocks| <= 10 || Strip(eraReply) == "" ==> Compressed(blocks, eraReply) == blocks
  {}

  /** Fewer than a hundred new entries wait for the next pass, untouched. */
  lemma ShortLogWaits(m: Memory, entries: nat, replies: Replies, eraReply: string, crash: bool)
    requires entries < 100 || m.offset <= entries < m.offset + 100
    ensures Consolidated(m, entries, replies, eraReply, crash) == m
  {}

  /** A log shorter than the offset was rotated: the pass starts over from its first entry. */
  lemma RotationRestarts(m: Memory, entries: nat, replies: Replies, eraReply: string)
    requires 100 <= entries < m.offset
    ensures Consolidated(m, entries, replies, eraReply, false) == Consolidated(m.(offset := 0), entries, replies, eraReply, false)
  {}

  lemma LastChunk(start: nat, replies: Replies, n: nat)
    requires n > 0
    ensures Covered(ChunkBlocks(start, replies, n))
         == Covered(ChunkBlocks(start, replies, n - 1)) + ChunkBlock(start, replies, n - 1).covers
    ensures MessageSum(ChunkBlocks(start, replies, n)) == MessageSum(ChunkBlocks(start, replies, n - 1)) + BLOCK_SIZE
  {
    var blocks := ChunkBlocks(start, replies, n);
    assert blocks[..n - 1] == ChunkBlocks(start, replies, n - 1);
    assert blocks[n - 1] == ChunkBlock(start, replies, n - 1);
  }

  lemma {:induction false} ChunksCover(start: nat, replies: Replies, n: nat)
    ensures Covered(ChunkBlocks(start, replies, n)) == Indices(start, start + n * BLOCK_SIZE)
    ensures MessageSum(ChunkBlocks(start, replies, n)) == n * BLOCK_SIZE
  {
    if n == 0 {
      assert Indices(start, start) == [];
    } else {
      LastChunk(start, replies, n);
      ChunksCover(start, replies, n - 1);
      IndicesConcat(start, start + (n - 1) * BLOCK_SIZE, start + n * BLOCK_SIZE);
    }
  }

  lemma IndicesConcat(from: nat, middle: nat, end: nat)
    requires from <= middle <= end
    ensures Indices(from, middle) + Indices(middle, end) == Indices(from, end)
  {}

  lemma AddedCovers(m: Memory, replies: Replies, n: nat, eraReply: string)
    ensures var blocks := Compressed(m.blocks + ChunkBlocks(m.offset, replies, n), eraReply);
      && Covered(blocks) == Covered(m.blocks) + Indices(m.offset, m.offset + n * BLOCK_SIZE)
      && MessageSum(blocks) == MessageSum(m.blocks) + n * BLOCK_SIZE
  {
    var added := ChunkBlocks(m.offset, replies, n);
    ChunksCover(m.offset, replies, n);
    CoveredConcat(m.blocks, added);
    CompressionKeepsCoverage(m.blocks + added, eraReply);
  }

  /** What a pass adds to the coverage: the entries of its chunks, in order, each once. */
  lemma PassCovers(m: Memory, entries: nat, replies: Replies, eraReply: string, crash: bool) returns (end: nat)
    requires m.offset <= entries
    ensures m.offset <= end <= entries
    ensures Covered(Consolidated(m, entries, replies, eraReply, crash).blocks) == Covered(m.blocks) + Indices(m.offset, end)
    ensures MessageSum(Consolidated(m, entries, replies, eraReply, crash).blocks) == MessageSum(m.blocks) + (end - m.offset)
    ensures Consolidated(m, entries, replies, eraReply, crash).offset == if crash then m.offset else end
  {
    var n := PassLength(m, entries, replies);
    if entries - m.offset < BLOCK_SIZE || n == 0 {
      end := m.offset;
      assert Indices(m.offset, end) == [];
    } else {
      end := m.offset + n * BLOCK_SIZE;
      AddedCovers(m, replies, n, eraReply);
    }
  }

  /** The chat log grows, or a pass runs, possibly cut off between its two writes. */
  datatype Step = Grow(more: nat) | Pass(replies: Replies, eraReply: string, crash: bool)

  datatype World = World(entries: nat, memory: Memory, crashes: nat)

  function Next(w: World, e: Step): World {
    match e
    case Grow(more) => w.(entries := w.entries + more)
    case Pass(replies, eraReply, crash) =>
      World(w.entries, Consolidated(w.memory, w.entries, replies, eraReply, crash), w.crashes + (if crash then 1 else 0))
  }

  function Run(w: World, steps: seq<Step>): World
    decreases steps
  {
    if steps == [] then w else Run(Next(w, steps[0]), steps[1..])
  }

  const EMPTY := World(0, Memory([], 0), 0)

  /** Blocks cover exactly the first `offset` entries, in order, and count them. */
  predicate Exact(w: World) {
    && w.memory.offset <= w.entries
    && Covered(w.memory.blocks) == Indices(0, w.memory.offset)
    && MessageSum(w.memory.blocks) == w.memory.offset
  }

  lemma PassStaysExact(w: World, e: Step)
    requires Exact(w) && e.Pass? && !e.crash
    ensures Exact(Next(w, e))
  {
    var end := PassCovers(w.memory, w.entries, e.replies, e.eraReply, false);
    IndicesConcat(0, w.memory.offset, end);
  }

  lemma {:induction false} RunsStayExact(w: World, steps: seq<Step>)
    requires Exact(w) && forall e :: e in steps && e.Pass? ==> !e.crash
    ensures Exact(Run(w, steps))
    decreases steps
  {
    if steps != [] {
      if steps[0].Pass? {
        PassStaysExact(w, steps[0]);
      }
      RunsStayExact(Next(w, steps[0]), steps[1..]);
    }
  }

  /** While the log only grows and no pass is cut off, the blocks stand for exactly the first
      `offset` entries in order, and their counts sum to it, through any pattern of empty
      summaries, era compressions and failed compressions. */
  lemma BlocksCoverExactly(steps: seq<Step>)
    requires forall e :: e in steps && e.Pass? ==> !e.crash
    ensures Exact(Run(EMPTY, steps))
  {
    RunsStayExact(EMPTY, steps);
  }

  /** With crashes between the writes: every entry below the offset is covered, and no entry
      more often than once plus the number of crashes. */
  ghost predicate Bounded(w: World) {
    && w.memory.offset <= w.entries
    && forall i: nat ::
         var times := multiset(Covered(w.memory.blocks))[i];
         && (i < w.memory.offset ==> times >= 1)
         && times <= w.crashes + (if i < w.memory.offset then 1 else 0)
  }

  lemma {:induction false} IndicesOnce(from: nat, end: nat, i: nat)
    requires from <= end
    ensures multiset(Indices(from, end))[i] == (if from <= i < end then 1 else 0)
    decreases end - from
  {
    if from < end {
      assert Indices(from, end) == Indices(from, end - 1) + [end - 1];
      IndicesOnce(from, end - 1, i);
    }
  }

  lemma PassStaysBounded(w: World, e: Step)
    requires Bounded(w) && e.Pass?
    ensures Bounded(Next(w, e))
  {
    var m, m' := w.memory, Next(w, e).memory;
    var end := PassCovers(m, w.entries, e.replies, e.eraReply, e.crash);
    forall i: nat
      ensures multiset(Covered(m'.blocks))[i] == multiset(Covered(m.blocks))[i] + (if m.offset <= i < end then 1 else 0)
    {
      IndicesOnce(m.offset, end, i);
    }
  }

  lemma {:induction false} RunsStayBounded(w: World, steps: seq<Step>)
    requires Bounded(w)
    ensures Bounded(Run(w, steps))
    decreases steps
  {
    if steps != [] {
      if steps[0].Pass? {
        PassStaysBounded(w, steps[0]);
      }
      RunsStayBounded(Next(w, steps[0]), steps[1..]);
    }
  }

  /** Whatever crashes fall between the two writes, no entry is ever skipped: some may be
      covered again, at most once more per crash. */
  lemma NeverSkipped(steps: seq<Step>)
    ensures Bounded(Run(EMPTY, steps))
  {
    RunsStayBounded(EMPTY, steps);
  }
}
