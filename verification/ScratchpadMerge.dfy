/**
  Scratchpad consolidation: a slow summary of the oldest blocks, then a locked merge that must
  keep whatever was appended meanwhile.
 */
module ScratchpadMerge {
  import opened Text

  const MAX_BLOCKS: nat := 10
  const THRESHOLD_CHARS: nat := 30000

  datatype Block = Block(ts: string, source: string, content: string)

  function Key(b: Block): (string, string) {
    (b.ts, b.source)
  }

  function Keys(blocks: seq<Block>): set<(string, string)> {
    set b | b in blocks :: Key(b)
  }

  /** How many of the oldest blocks a pass compresses. */
  function CompressCount(n: nat): nat {
    if n / 2 > 2 then n / 2 else 2
  }

  function Chars(blocks: seq<Block>): nat {
    if blocks == [] then 0 else Chars(blocks[..|blocks| - 1]) + |blocks[|blocks| - 1].content|
  }

  function LastTen(blocks: seq<Block>): seq<Block> {
    if |blocks| <= MAX_BLOCKS then blocks else blocks[|blocks| - MAX_BLOCKS..]
  }

  function Survivors(live: seq<Block>, compressed: set<(string, string)>): seq<Block> {
    if live == [] then []
    else
      var before := Survivors(live[..|live| - 1], compressed);
      if Key(live[|live| - 1]) in compressed then before else before + [live[|live| - 1]]
  }

  /** The store as appends by others leave it: each appends and evicts the oldest beyond ten. */
  function AppendAll(blocks: seq<Block>, appended: seq<Block>): seq<Block> {
    if appended == [] then blocks
    else LastTen(AppendAll(blocks, appended[..|appended| - 1]) + [appended[|appended| - 1]])
  }

  /** A pass calls the model. */
  predicate Called(snapshot: seq<Block>) {
    |snapshot| >= 3 && Chars(snapshot) > THRESHOLD_CHARS
  }

  function Window(snapshot: seq<Block>): seq<Block>
    requires |snapshot| >= 3
  {
    snapshot[..CompressCount(|snapshot|)]
  }

  function Rest(snapshot: seq<Block>): seq<Block>
    requires |snapshot| >= 3
  {
    snapshot[CompressCount(|snapshot|)..]
  }

  /** The store after a pass over `snapshot`, with `during` appended by others in the meantime. */
  function Consolidated(snapshot: seq<Block>, ts: string, text: string, during: seq<Block>): seq<Block> {
    if !Called(snapshot) then snapshot
    else if Strip(text) == "" then AppendAll(snapshot, during)
    else [Block(ts, "consolidation", Strip(text))] + Survivors(AppendAll(snapshot, during), Keys(Window(snapshot)))
  }

  class Scratchpad {
    var blocks: seq<Block>

    constructor (blocks: seq<Block>)
      ensures this.blocks == blocks
    {
      this.blocks := blocks;
    }

    method AppendBlock(b: Block)
      modifies this
      ensures blocks == LastTen(old(blocks) + [b])
    {
      blocks := blocks + [b];
      if |blocks| > MAX_BLOCKS {
        blocks := blocks[|blocks| - MAX_BLOCKS..];
      }
    }

    /** The merge, run under the store's lock on the blocks it finds there. */
    method MergeSurvivors(summary: Block, oldBlocks: seq<Block>)
      modifies this
      ensures blocks == [summary] + Survivors(old(blocks), Keys(oldBlocks))
    {
      var compressedKeys := set b | b in oldBlocks :: Key(b);
      var survivors: seq<Block> := [];
      for i := 0 to |blocks|
        invariant blocks == old(blocks)
        invariant survivors == Survivors(blocks[..i], compressedKeys)
      {
        assert blocks[..i + 1][..i] == blocks[..i];
        if Key(blocks[i]) !in compressedKeys {
          survivors := survivors + [blocks[i]];
        }
      }
      assert blocks[..|blocks|] == blocks;
      blocks := [summary] + survivors;
    }

    method TotalChars() returns (total: nat)
      ensures total == Chars(blocks)
    {
      total := 0;
      for i := 0 to |blocks|
        invariant total == Chars(blocks[..i])
      {
        assert blocks[..i + 1][..i] == blocks[..i];
        total := total + |blocks[i].content|;
      }
      assert blocks[..|blocks|] == blocks;
    }

    /** A pass: nothing to do for a small scratchpad; otherwise the summary call, during which
        others append, and the merge, unless the summary came back empty. */
    method ConsolidateBlocks(ts: string, text: string, during: seq<Block>) returns (merged: bool)
      modifies this
      ensures merged == (Called(old(blocks)) && Strip(text) != "")
      ensures blocks == Consolidated(old(blocks), ts, text, during)
    {
      var snapshot := blocks;
      var total := TotalChars();
      if |snapshot| < 3 || total <= THRESHOLD_CHARS {
        return false;
      }
      for i := 0 to |during|
        invariant blocks == AppendAll(snapshot, during[..i])
      {
        assert during[..i + 1][..i] == during[..i];
        AppendBlock(during[i]);
      }
      assert during[..|during|] == during;
      if Strip(text) == "" {
        return false;
      }
      MergeSurvivors(Block(ts, "consolidation", Strip(text)), snapshot[..CompressCount(|snapshot|)]);
      return true;
    }
  }

  lemma {:induction false} SurvivorsConcat(a: seq<Block>, b: seq<Block>, keys: set<(string, string)>)
    ensures Survivors(a + b, keys) == Survivors(a, keys) + Survivors(b, keys)
  {
    if b == [] {
      assert a + b == a;
    } else {
      assert (a + b)[..|a + b| - 1] == a + b[..|b| - 1];
      SurvivorsConcat(a, b[..|b| - 1], keys);
    }
  }

  lemma {:induction false} NoneSurvive(a: seq<Block>, keys: set<(string, string)>)
    requires forall i :: 0 <= i < |a| ==> Key(a[i]) in keys
    ensures Survivors(a, keys) == []
  {
    if a != [] {
      NoneSurvive(a[..|a| - 1], keys);
    }
  }

  lemma {:induction false} AllSurvive(a: seq<Block>, keys: set<(string, string)>)
    ensures |Survivors(a, keys)| <= |a|
    ensures Survivors(a, keys) == a <==> forall i :: 0 <= i < |a| ==> Key(a[i]) !in keys
  {
    if a != [] {
      var before, last := a[..|a| - 1], a[|a| - 1];
      AllSurvive(before, keys);
      assert a == before + [last];
      if Key(last) !in keys && Survivors(a, keys) == a {
        assert Survivors(before, keys) == before;
      }
      assert forall i :: 0 <= i < |before| ==> before[i] == a[i];
    }
  }

  lemma LastTenOnce(blocks: seq<Block>, b: Block)
    ensures LastTen(LastTen(blocks) + [b]) == LastTen(blocks + [b])
  {}

  /** What appends leave of a store: all of it when there are none, and otherwise the last ten. */
  function Kept(blocks: seq<Block>, appended: seq<Block>): seq<Block> {
    if appended == [] then blocks else LastTen(blocks + appended)
  }

  /** Evicting append by append keeps the last ten of everything, whatever the store held before. */
  lemma {:induction false} AppendsKeepLastTen(blocks: seq<Block>, appended: seq<Block>)
    ensures AppendAll(blocks, appended) == Kept(blocks, appended)
  {
    if appended != [] {
      var before, last := appended[..|appended| - 1], appended[|appended| - 1];
      AppendsKeepLastTen(blocks, before);
      assert blocks + appended == (blocks + before) + [last];
      if before == [] {
        assert blocks + before == blocks;
      } else {
        LastTenOnce(blocks + before, last);
      }
    }
  }

  lemma OnlyTheRestSurvives(gone: seq<Block>, rest: seq<Block>, keys: set<(string, string)>)
    requires forall i :: 0 <= i < |gone| ==> Key(gone[i]) in keys
    ensures Survivors(gone + rest, keys) == Survivors(rest, keys)
  {
    NoneSurvive(gone, keys);
    SurvivorsConcat(gone, rest, keys);
    assert [] + Survivors(rest, keys) == Survivors(rest, keys);
  }

  /** The last ten of a list are some of its front, and the last ten of its tail. */
  lemma TailOfLastTen(front: seq<Block>, tail: seq<Block>) returns (head: seq<Block>)
    ensures LastTen(front + tail) == head + LastTen(tail)
    ensures forall i :: 0 <= i < |head| ==> head[i] in front
  {
    if |tail| >= MAX_BLOCKS {
      head := [];
      assert [] + LastTen(tail) == LastTen(tail);
    } else if |front + tail| <= MAX_BLOCKS {
      head := front;
    } else {
      head := front[|front + tail| - MAX_BLOCKS..];
    }
  }

  /** The store at the merge: some compressed blocks, then what is kept of the others. */
  lemma LiveSplits(oldBlocks: seq<Block>, rest: seq<Block>, appended: seq<Block>) returns (head: seq<Block>)
    ensures AppendAll(oldBlocks + rest, appended) == head + Kept(rest, appended)
    ensures forall i :: 0 <= i < |head| ==> head[i] in oldBlocks
  {
    AppendsKeepLastTen(oldBlocks + rest, appended);
    if appended == [] {
      head := oldBlocks;
    } else {
      assert (oldBlocks + rest) + appended == oldBlocks + (rest + appended);
      head := TailOfLastTen(oldBlocks, rest + appended);
    }
  }

  /** Exactly what a merge can lose, for snapshots of any size. The store ends as the summary
      followed, in order, by what appends leave of the uncompressed blocks and the appended ones, if
      and only if none of those shares its time stamp and source with a compressed block. */
  lemma MergeKeepsTheRest(oldBlocks: seq<Block>, rest: seq<Block>, appended: seq<Block>)
    ensures var kept := Kept(rest, appended);
      Survivors(AppendAll(oldBlocks + rest, appended), Keys(oldBlocks)) == kept
      <==> forall i :: 0 <= i < |kept| ==> Key(kept[i]) !in Keys(oldBlocks)
  {
    var keys, kept := Keys(oldBlocks), Kept(rest, appended);
    var head := LiveSplits(oldBlocks, rest, appended);
    OnlyTheRestSurvives(head, kept, keys);
    AllSurvive(kept, keys);
  }

  /** The same of a whole pass. */
  lemma PassKeepsTheRest(snapshot: seq<Block>, ts: string, text: string, during: seq<Block>)
    requires Called(snapshot) && Strip(text) != ""
    ensures var kept := Kept(Rest(snapshot), during);
      Consolidated(snapshot, ts, text, during) == [Block(ts, "consolidation", Strip(text))] + kept
      <==> forall i :: 0 <= i < |kept| ==> Key(kept[i]) !in Keys(Window(snapshot))
  {
    assert snapshot == Window(snapshot) + Rest(snapshot);
    MergeKeepsTheRest(Window(snapshot), Rest(snapshot), during);
    var summary := Block(ts, "consolidation", Strip(text));
    var survivors := Survivors(AppendAll(snapshot, during), Keys(Window(snapshot)));
    SameTail(summary, survivors, Kept(Rest(snapshot), during));
  }

  lemma SameTail(head: Block, a: seq<Block>, b: seq<Block>)
    ensures [head] + a == [head] + b <==> a == b
  {
    assert ([head] + a)[1..] == a && ([head] + b)[1..] == b;
  }

  /** A scratchpad over the threshold. */
  const LONG := [Block("12:00:00", "task", seq(THRESHOLD_CHARS + 1, _ => 'x')), Block("12:01:00", "task", "plan"),
    Block("12:02:00", "task", "next step")]

  /** A pass compresses the older half of the blocks, at least two, and takes none of the others. */
  lemma WindowIsOlderHalf(snapshot: seq<Block>)
    requires |snapshot| >= 3
    ensures snapshot == Window(snapshot) + Rest(snapshot)
    ensures |Window(snapshot)| >= 2 && (|snapshot| >= 4 ==> |Rest(snapshot)| - 1 <= |Window(snapshot)| <= |Rest(snapshot)|)
  {}

  /** A scratchpad of fewer than three blocks, or of no more than 30000 characters, is left alone; a
      blank answer leaves what the appends leave. */
  lemma SmallScratchpadIsLeft(snapshot: seq<Block>, ts: string, text: string, during: seq<Block>)
    ensures Called(snapshot) <==> |snapshot| >= 3 && Chars(snapshot) > 30000
    ensures |snapshot| < 3 || Chars(snapshot) <= 30000 ==> Consolidated(snapshot, ts, text, during) == snapshot
    ensures Called(snapshot) && Strip(text) == "" ==> Consolidated(snapshot, ts, text, during) == Kept(snapshot, during)
  {
    AppendsKeepLastTen(snapshot, during);
  }

  lemma {:induction false} CharsConcat(a: seq<Block>, b: seq<Block>)
    ensures Chars(a + b) == Chars(a) + Chars(b)
    ensures forall c :: Chars([c]) == |c.content|
  {
    forall c: Block ensures Chars([c]) == |c.content| {
      assert [c][..0] == [];
    }
    if b == [] {
      assert a + b == a;
    } else {
      assert (a + b)[..|a + b| - 1] == a + b[..|b| - 1];
      CharsConcat(a, b[..|b| - 1]);
    }
  }

  lemma LongIsCalled()
    ensures Called(LONG)
  {
    assert LONG[..2][..1] == LONG[..1] && LONG[..1][..0] == [] && LONG[..|LONG|] == LONG;
    assert Chars(LONG[..1]) == THRESHOLD_CHARS + 1;
    assert Chars(LONG[..2]) >= Chars(LONG[..1]) && Chars(LONG) >= Chars(LONG[..2]);
  }

  lemma SurvivorsOfOne(b: Block, keys: set<(string, string)>)
    ensures Survivors([b], keys) == if Key(b) in keys then [] else [b]
  {
    assert [b][..0] == [];
  }

  /** Of three blocks, two are compressed and the third survives; an append that shares a compressed
      block's key does not. */
  lemma ThirdSurvives(a: Block, b: Block, c: Block, note: Block)
    requires Key(note) in Keys([a, b]) && Key(c) !in Keys([a, b])
    ensures Survivors(AppendAll([a, b, c], [note]), Keys([a, b])) == [c]
  {
    var keys := Keys([a, b]);
    AppendsKeepLastTen([a, b, c], [note]);
    assert [a, b, c] == [a, b] + [c];
    SurvivorsConcat([a, b, c], [note], keys);
    SurvivorsOfOne(note, keys);
    OnlyTheRestSurvives([a, b], [c], keys);
    SurvivorsOfOne(c, keys);
    assert [c] + [] == [c];
  }

  lemma KeysOfTwo(a: Block, b: Block)
    ensures Keys([a, b]) == {Key(a), Key(b)}
  {
    assert a in [a, b] && b in [a, b];
  }

  /** The loss, concretely: a pass over three blocks, during which another writer appends a block
      stamped like the first of them, leaves no trace of that block. */
  lemma SameKeyIsLost()
    ensures var note := Block("12:00:00", "task", "result");
      Called(LONG) && Consolidated(LONG, "12:03:00", "summary", [note])
        == [Block("12:03:00", "consolidation", "summary"), LONG[2]]
  {
    var note := Block("12:00:00", "task", "result");
    LongIsCalled();
    assert LONG == [LONG[0], LONG[1], LONG[2]] && Window(LONG) == [LONG[0], LONG[1]];
    KeysOfTwo(LONG[0], LONG[1]);
    assert "12:02:00"[4] != "12:00:00"[4] && "12:02:00"[4] != "12:01:00"[4];
    ThirdSurvives(LONG[0], LONG[1], LONG[2], note);
    StripTrimmed("summary");
  }

  /** A block appended during the call under a fresh key is never lost, whatever the others do,
      unless ten later blocks evict it. */
  lemma FreshAppendSurvives(oldBlocks: seq<Block>, rest: seq<Block>, appended: seq<Block>, i: nat)
    requires i < |appended| && |appended| - i <= MAX_BLOCKS
    requires Key(appended[i]) !in Keys(oldBlocks)
    ensures appended[i] in Survivors(AppendAll(oldBlocks + rest, appended), Keys(oldBlocks))
  {
    var before := oldBlocks + rest;
    AppendsKeepLastTen(before, appended);
    LastTenAt(before + appended, |before| + i);
    var live := LastTen(before + appended);
    SurvivorIn(live, Keys(oldBlocks), |live| - (|appended| - i));
  }

  // ---- How large a store grows ----

  datatype Step = Append(block: Block) | Pass(ts: string, text: string, during: seq<Block>)

  function Run(blocks: seq<Block>, steps: seq<Step>): seq<Block>
    decreases steps
  {
    if steps == [] then blocks
    else match steps[0]
      case Append(b) => Run(LastTen(blocks + [b]), steps[1..])
      case Pass(ts, text, during) => Run(Consolidated(blocks, ts, text, during), steps[1..])
  }

  /** A merge puts the summary before what it finds, so a store may hold one block more than appends
      leave; over any run of appends and passes it never holds two more. */
  lemma {:induction false} AtMostEleven(blocks: seq<Block>, steps: seq<Step>)
    requires |blocks| <= MAX_BLOCKS + 1
    ensures |Run(blocks, steps)| <= MAX_BLOCKS + 1
    decreases steps
  {
    if steps != [] {
      if steps[0].Pass? {
        PassStaysSmall(blocks, steps[0].ts, steps[0].text, steps[0].during);
        AtMostEleven(Consolidated(blocks, steps[0].ts, steps[0].text, steps[0].during), steps[1..]);
      } else {
        AtMostEleven(LastTen(blocks + [steps[0].block]), steps[1..]);
      }
    }
  }

  lemma PassStaysSmall(snapshot: seq<Block>, ts: string, text: string, during: seq<Block>)
    requires |snapshot| <= MAX_BLOCKS + 1
    ensures |Consolidated(snapshot, ts, text, during)| <= MAX_BLOCKS + 1
  {
    if Called(snapshot) {
      var keys := Keys(Window(snapshot));
      assert snapshot == Window(snapshot) + Rest(snapshot);
      var head := LiveSplits(Window(snapshot), Rest(snapshot), during);
      AppendsKeepLastTen(snapshot, during);
      OnlyTheRestSurvives(head, Kept(Rest(snapshot), during), keys);
      AllSurvive(Kept(Rest(snapshot), during), keys);
    }
  }

  /** The bound is reached: ten fresh appends during the call leave eleven blocks. */
  lemma TenAppendsLeaveEleven(snapshot: seq<Block>, ts: string, text: string, during: seq<Block>)
    requires Called(snapshot) && Strip(text) != "" && |during| == MAX_BLOCKS
    requires forall i :: 0 <= i < |during| ==> Key(during[i]) !in Keys(Window(snapshot))
    ensures Consolidated(snapshot, ts, text, during) == [Block(ts, "consolidation", Strip(text))] + during
  {
    assert Kept(Rest(snapshot), during) == during;
    PassKeepsTheRest(snapshot, ts, text, during);
  }

  lemma LastTenAt(blocks: seq<Block>, k: nat)
    requires k < |blocks| && |blocks| - k <= MAX_BLOCKS
    ensures |LastTen(blocks)| >= |blocks| - k
    ensures LastTen(blocks)[|LastTen(blocks)| - (|blocks| - k)] == blocks[k]
  {}

  lemma {:induction false} SurvivorIn(live: seq<Block>, keys: set<(string, string)>, k: nat)
    requires k < |live| && Key(live[k]) !in keys
    ensures live[k] in Survivors(live, keys)
  {
    if k < |live| - 1 {
      SurvivorIn(live[..|live| - 1], keys, k);
    }
  }
}
