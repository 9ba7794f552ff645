/**
  What one compaction pass keeps, and what a second one changes.
 */
module CompactionLaws {
  import opened Sequences
  import opened ToolHistory

  // ---- Which rounds get a summary ----

  /** Batch isolation: a round is summarized exactly when the answer to its own batch of
      eight holds a non-empty text under its own id. */
  lemma {:induction false} OwnBatchDecides(starts: seq<nat>, summarizer: Summarizer, n: nat, j: nat)
    requires j < n <= |starts| && Distinct(starts)
    ensures starts[j] in Collected(starts, summarizer, n) <==> AnswerFor(summarizer, j / BLOCKS_PER_BATCH, starts[j]) != ""
    ensures starts[j] in Collected(starts, summarizer, n) ==>
      Collected(starts, summarizer, n)[starts[j]] == AnswerFor(summarizer, j / BLOCKS_PER_BATCH, starts[j])
  {
    if j < n - 1 {
      OwnBatchDecides(starts, summarizer, n - 1, j);
    } else {
      CollectedKeys(starts[..n - 1], summarizer, n - 1);
      CollectedLocal(starts, summarizer, n - 1);
    }
  }

  lemma {:induction false} CollectedLocal(starts: seq<nat>, summarizer: Summarizer, n: nat)
    requires n <= |starts|
    ensures Collected(starts, summarizer, n) == Collected(starts[..n], summarizer, n)
    decreases n
  {
    if n > 0 {
      CollectedLocal(starts, summarizer, n - 1);
      CollectedLocal(starts[..n], summarizer, n - 1);
      assert starts[..n][..n - 1] == starts[..n - 1];
    }
  }

  // ---- What stays verbatim ----

  /** Segment `i` of a rewritten transcript. */
  function Segment(offset: nat, rounds: seq<seq<Message>>, summaries: map<nat, string>, i: nat): seq<Message>
    requires i < |rounds|
  {
    var start := Offsets(offset, rounds)[i];
    if start in summaries then [SummaryMessage(summaries[start])] else rounds[i]
  }

  /** The segments of a rewritten transcript, one per round. */
  function Segments(offset: nat, rounds: seq<seq<Message>>, summaries: map<nat, string>): seq<seq<Message>> {
    seq(|rounds|, i requires 0 <= i < |rounds| => Segment(offset, rounds, summaries, i))
  }

  lemma SegmentsTail(offset: nat, rounds: seq<seq<Message>>, summaries: map<nat, string>)
    requires rounds != []
    ensures Segments(offset, rounds, summaries)[0] == Segment(offset, rounds, summaries, 0)
    ensures Segments(offset, rounds, summaries)[1..] == Segments(offset + |rounds[0]|, rounds[1..], summaries)
  {
    var next := offset + |rounds[0]|;
    assert Offsets(offset, rounds) == [offset] + Offsets(next, rounds[1..]);
    forall i | 0 <= i < |rounds| - 1
      ensures Segment(offset, rounds, summaries, i + 1) == Segment(next, rounds[1..], summaries, i)
    {
      assert rounds[i + 1] == rounds[1..][i];
    }
  }

  lemma {:induction false} RewriteIsSegments(offset: nat, rounds: seq<seq<Message>>, summaries: map<nat, string>)
    ensures RewriteRounds(offset, rounds, summaries) == Flatten(Segments(offset, rounds, summaries))
    decreases rounds
  {
    if rounds != [] {
      RewriteIsSegments(offset + |rounds[0]|, rounds[1..], summaries);
      SegmentsTail(offset, rounds, summaries);
    }
  }

  lemma UnprotectedStartsFacts(ms: seq<Message>, older: nat)
    requires older <= |Split(ms).rounds|
    ensures var starts := UnprotectedStarts(|Split(ms).prefix|, Split(ms).rounds[..older]);
      && Increasing(starts)
      && forall i :: 0 <= i < |Split(ms).rounds| ==>
           (Offsets(|Split(ms).prefix|, Split(ms).rounds)[i] in starts <==> i < older && !Protected(Split(ms).rounds[i]))
  {
    var offset, rounds := |Split(ms).prefix|, Split(ms).rounds;
    var o, starts := Offsets(offset, rounds), UnprotectedStarts(offset, rounds[..older]);
    assert forall k :: 0 <= k < |rounds| ==> IsRound(rounds[k]);
    OffsetsPrefix(offset, rounds, older);
    OffsetsIncrease(offset, rounds);
    UnprotectedIncrease(offset, rounds[..older]);
    UnprotectedAreOffsets(offset, rounds[..older]);
    forall i | 0 <= i < |rounds| ensures o[i] in starts <==> i < older && !Protected(rounds[i]) {
      if i < older {
        UnprotectedAt(offset, rounds[..older], i);
      }
    }
  }

  /** What the fallback does to a round's first message: only its calls' arguments go through the
      shortener, and empty ones not even that. */
  predicate Shortened(m: Message, m': Message, shrink: Shrinker) {
    && m'.role == m.role && m'.content == m.content && m'.resultOf == m.resultOf && |m'.calls| == |m.calls|
    && forall c :: 0 <= c < |m.calls| ==>
         && m'.calls[c].id == m.calls[c].id && m'.calls[c].name == m.calls[c].name
         && m'.calls[c].arguments
              == if m.calls[c].arguments == "" then "" else shrink(m.calls[c].name, m.calls[c].arguments)
  }

  /** Where the `k`-th round from the front begins. */
  function RoundAt(ms: seq<Message>, k: nat): nat
    requires k < |Split(ms).rounds|
  {
    Offsets(|Split(ms).prefix|, Split(ms).rounds)[k]
  }

  predicate BeginsOlderRound(ms: seq<Message>, keepRecent: nat, i: nat) {
    exists k :: 0 <= k < |Split(ms).rounds| - keepRecent && RoundAt(ms, k) == i
  }

  /** `out` is `ms` with exactly the first messages of the rounds before the last `keepRecent`
      shortened; every other message, the prefix and the recent rounds among them, is as it was. */
  predicate OnlyOlderShortened(ms: seq<Message>, out: seq<Message>, keepRecent: nat, shrink: Shrinker) {
    && |out| == |ms|
    && forall i :: 0 <= i < |ms| ==>
         if BeginsOlderRound(ms, keepRecent, i) then Shortened(ms[i], out[i], shrink) else out[i] == ms[i]
  }

  lemma OlderStarts(ms: seq<Message>, keepRecent: nat, i: nat)
    requires 1 <= keepRecent < |Split(ms).rounds|
    ensures |RoundStarts(ms, 0)| == |Split(ms).rounds|
    ensures i in RoundStarts(ms, 0)[..OlderCount(|Split(ms).rounds|, keepRecent)] <==> BeginsOlderRound(ms, keepRecent, i)
  {
    assert ms[0..] == ms;
    StartsAreOffsets(ms, 0);
    var older := RoundStarts(ms, 0)[..OlderCount(|Split(ms).rounds|, keepRecent)];
    assert |older| == |Split(ms).rounds| - keepRecent;
    forall k | 0 <= k < |older| ensures older[k] == RoundAt(ms, k) {}
    if BeginsOlderRound(ms, keepRecent, i) {
      var k :| 0 <= k < |Split(ms).rounds| - keepRecent && RoundAt(ms, k) == i;
      assert older[k] == i;
    }
  }

  lemma ShrinkShortens(m: Message, shrink: Shrinker)
    ensures Shortened(m, ShrinkMessage(m, shrink), shrink)
  {}

  lemma FallbackMeans(ms: seq<Message>, keepRecent: nat, shrink: Shrinker)
    requires keepRecent >= 1
    ensures OnlyOlderShortened(ms, PayloadsShrunk(ms, keepRecent, shrink), keepRecent, shrink)
  {
    var n := |Split(ms).rounds|;
    assert |RoundStarts(ms, 0)| == n by {
      assert ms[0..] == ms;
      StartsAreOffsets(ms, 0);
    }
    forall i | 0 <= i < |ms|
      ensures var out := PayloadsShrunk(ms, keepRecent, shrink);
        |out| == |ms| &&
        if BeginsOlderRound(ms, keepRecent, i) then Shortened(ms[i], out[i], shrink) else out[i] == ms[i]
    {
      if n > keepRecent {
        OlderStarts(ms, keepRecent, i);
        ShrinkShortens(ms[i], shrink);
      }
    }
  }

  /** Before the first round, or not before the first of the last `keepRecent` rounds. */
  predicate OutsideOlder(ms: seq<Message>, keepRecent: nat, i: nat) {
    || i < |Split(ms).prefix|
    || |Split(ms).rounds| <= keepRecent
    || (keepRecent >= 1 && RoundAt(ms, |Split(ms).rounds| - keepRecent) <= i)
  }

  lemma OlderBeginBefore(ms: seq<Message>, keepRecent: nat, i: nat)
    requires keepRecent >= 1 && BeginsOlderRound(ms, keepRecent, i)
    ensures !OutsideOlder(ms, keepRecent, i)
  {
    assert forall k :: 0 <= k < |Split(ms).rounds| ==> IsRound(Split(ms).rounds[k]);
    OffsetsIncrease(|Split(ms).prefix|, Split(ms).rounds);
  }

  /** So the prefix, and everything from the first of the last `keepRecent` rounds on, stays verbatim. */
  lemma FallbackKeepsRecent(ms: seq<Message>, keepRecent: nat, shrink: Shrinker)
    requires keepRecent >= 1
    ensures var out := PayloadsShrunk(ms, keepRecent, shrink);
      && |out| == |ms|
      && (forall i :: 0 <= i < |ms| && OutsideOlder(ms, keepRecent, i) ==> out[i] == ms[i])
      && (|Split(ms).rounds| <= keepRecent ==> out == ms)
  {
    var out := PayloadsShrunk(ms, keepRecent, shrink);
    FallbackMeans(ms, keepRecent, shrink);
    forall i | 0 <= i < |ms| && OutsideOlder(ms, keepRecent, i) ensures out[i] == ms[i] {
      if BeginsOlderRound(ms, keepRecent, i) {
        OlderBeginBefore(ms, keepRecent, i);
      }
    }
    if |Split(ms).rounds| <= keepRecent {
      assert forall i :: 0 <= i < |ms| ==> OutsideOlder(ms, keepRecent, i);
    }
  }

  /** The segments of a transcript rewritten with `summaries`. */
  predicate AreSegments(segments: seq<seq<Message>>, ms: seq<Message>, summaries: map<nat, string>) {
    && |segments| == |Split(ms).rounds|
    && forall i :: 0 <= i < |segments| ==>
         segments[i] == if RoundAt(ms, i) in summaries
                        then [Message(Assistant, "[Compacted reasoning block]\n" + summaries[RoundAt(ms, i)], [], "")]
                        else Split(ms).rounds[i]
  }

  lemma AnsweredByBatch(starts: seq<nat>, summarizer: Summarizer)
    requires Increasing(starts)
    ensures var summaries := Collected(starts, summarizer, |starts|);
      forall j :: 0 <= j < |starts| ==>
        var answer := summarizer(j / 8);
        && (starts[j] in summaries <==> answer.Answered? && starts[j] in answer.byRound && answer.byRound[starts[j]] != "")
        && (starts[j] in summaries ==> summaries[starts[j]] == answer.byRound[starts[j]])
  {
    forall j | 0 <= j < |starts|
      ensures var summaries := Collected(starts, summarizer, |starts|);
        && (starts[j] in summaries <==> AnswerFor(summarizer, j / BLOCKS_PER_BATCH, starts[j]) != "")
        && (starts[j] in summaries ==> summaries[starts[j]] == AnswerFor(summarizer, j / BLOCKS_PER_BATCH, starts[j]))
    {
      OwnBatchDecides(starts, summarizer, |starts|, j);
    }
  }

  /** A pass that got any summary returns the prefix followed by one segment per round: the
      summary message of a round that got one, and otherwise the round itself. Exactly the
      older unprotected rounds that their own batch answered get one, so a protected round and
      each of the last `keepRecent` rounds stay verbatim. Without any summary only call
      arguments of older rounds are shortened. */
  lemma KeptVerbatim(ms: seq<Message>, keepRecent: nat, summarizer: Summarizer, shrink: Shrinker)
    returns (starts: seq<nat>, summaries: map<nat, string>, segments: seq<seq<Message>>)
    requires keepRecent >= 1
    ensures forall i :: 0 <= i < |Split(ms).rounds| ==>
      (RoundAt(ms, i) in starts <==> i < |Split(ms).rounds| - keepRecent && !Protected(Split(ms).rounds[i]))
    ensures AreSegments(segments, ms, summaries)
    ensures forall i :: 0 <= i < |segments| && (Protected(Split(ms).rounds[i]) || i >= |segments| - keepRecent) ==>
      segments[i] == Split(ms).rounds[i]
    ensures summaries != map[] ==> Compacted(ms, keepRecent, summarizer, shrink) == Split(ms).prefix + Flatten(segments)
    ensures starts == [] ==> Compacted(ms, keepRecent, summarizer, shrink) == ms
    ensures starts != [] && summaries == map[] ==>
      OnlyOlderShortened(ms, Compacted(ms, keepRecent, summarizer, shrink), keepRecent, shrink)
    ensures Increasing(starts) && forall s :: s in starts ==> s in Offsets(|Split(ms).prefix|, Split(ms).rounds)
    ensures forall s :: s in summaries ==> s in starts
    ensures forall j :: 0 <= j < |starts| ==>
      var answer := summarizer(j / 8);
      && (starts[j] in summaries <==> answer.Answered? && starts[j] in answer.byRound && answer.byRound[starts[j]] != "")
      && (starts[j] in summaries ==> summaries[starts[j]] == answer.byRound[starts[j]])
  {
    var h := Split(ms);
    var older := OlderCount(|h.rounds|, keepRecent);
    starts := UnprotectedStarts(|h.prefix|, h.rounds[..older]);
    summaries := Collected(starts, summarizer, |starts|);
    segments := Segments(|h.prefix|, h.rounds, summaries);
    UnprotectedStartsFacts(ms, older);
    UnprotectedAreOffsets(|h.prefix|, h.rounds[..older]);
    OffsetsPrefix(|h.prefix|, h.rounds, older);
    CollectedKeys(starts, summarizer, |starts|);
    AnsweredByBatch(starts, summarizer);
    RewriteIsSegments(|h.prefix|, h.rounds, summaries);
    FallbackMeans(ms, keepRecent, shrink);
  }

  // ---- The rounds of a rewritten transcript ----

  /** A summary is no round: it joins the tail of the round before it, or the prefix. */
  function Absorbed(offset: nat, rounds: seq<seq<Message>>, summaries: map<nat, string>): History
    decreases rounds
  {
    if rounds == [] then History([], [])
    else
      var rest := Absorbed(offset + |rounds[0]|, rounds[1..], summaries);
      if offset in summaries then History([SummaryMessage(summaries[offset])] + rest.prefix, rest.rounds)
      else History([], [rounds[0] + rest.prefix] + rest.rounds)
  }

  lemma {:induction false} SplitAfterPlain(plain: seq<Message>, tail: seq<Message>)
    requires forall j :: 0 <= j < |plain| ==> !IsRoundStart(plain[j])
    ensures Split(plain + tail) == History(plain + Split(tail).prefix, Split(tail).rounds)
  {
    if plain == [] {
      assert plain + tail == tail;
    } else {
      assert plain == [plain[0]] + plain[1..];
      ConsConcat(plain[0], plain[1..], tail);
      SplitCons(plain[0], plain[1..] + tail);
      SplitAfterPlain(plain[1..], tail);
      ConsConcat(plain[0], plain[1..], Split(tail).prefix);
    }
  }

  lemma SplitAfterRound(r: seq<Message>, tail: seq<Message>)
    requires IsRound(r)
    ensures Split(r + tail) == History([], [r + Split(tail).prefix] + Split(tail).rounds)
  {
    assert r == [r[0]] + r[1..];
    ConsConcat(r[0], r[1..], tail);
    SplitCons(r[0], r[1..] + tail);
    SplitAfterPlain(r[1..], tail);
    ConsConcat(r[0], r[1..], Split(tail).prefix);
  }

  lemma {:induction false} SplitOfRewrite(offset: nat, rounds: seq<seq<Message>>, summaries: map<nat, string>)
    requires forall i :: 0 <= i < |rounds| ==> IsRound(rounds[i])
    ensures Split(RewriteRounds(offset, rounds, summaries)) == Absorbed(offset, rounds, summaries)
    decreases rounds
  {
    if rounds != [] {
      var next := offset + |rounds[0]|;
      var tail := RewriteRounds(next, rounds[1..], summaries);
      SplitOfRewrite(next, rounds[1..], summaries);
      if offset in summaries {
        SplitAfterPlain([SummaryMessage(summaries[offset])], tail);
      } else {
        SplitAfterRound(rounds[0], tail);
      }
    }
  }

  lemma SplitOfCompacted(ms: seq<Message>, summaries: map<nat, string>)
    ensures var h := Split(ms); var a := Absorbed(|h.prefix|, h.rounds, summaries);
      Split(h.prefix + RewriteRounds(|h.prefix|, h.rounds, summaries)) == History(h.prefix + a.prefix, a.rounds)
  {
    var h := Split(ms);
    SplitOfRewrite(|h.prefix|, h.rounds, summaries);
    SplitAfterPlain(h.prefix, RewriteRounds(|h.prefix|, h.rounds, summaries));
  }

  // ---- Calls and results stay together ----

  predicate CallsId(m: Message, id: string) {
    exists c :: 0 <= c < |m.calls| && m.calls[c].id == id
  }

  predicate AnswersId(r: seq<Message>, id: string) {
    exists j :: 0 <= j < |r| && r[j].role.Tool? && r[j].resultOf == id
  }

  /** Every tool result of the round answers a call of the round's first message. */
  predicate ResultsOwned(r: seq<Message>) {
    r != [] && forall j :: 0 <= j < |r| && r[j].role.Tool? ==> CallsId(r[0], r[j].resultOf)
  }

  /** Every call of the round's first message has its result in the round. */
  predicate CallsAnswered(r: seq<Message>) {
    r != [] && forall c :: 0 <= c < |r[0].calls| ==> AnswersId(r, r[0].calls[c].id)
  }

  predicate NoTools(ms: seq<Message>) {
    forall j :: 0 <= j < |ms| ==> !ms[j].role.Tool?
  }

  predicate NoOrphanResults(h: History) {
    NoTools(h.prefix) && forall i :: 0 <= i < |h.rounds| ==> ResultsOwned(h.rounds[i])
  }

  predicate NoOrphanCalls(h: History) {
    forall i :: 0 <= i < |h.rounds| ==> CallsAnswered(h.rounds[i])
  }

  lemma TailKeepsPairing(r: seq<Message>, tail: seq<Message>)
    requires r != [] && NoTools(tail)
    ensures ResultsOwned(r) ==> ResultsOwned(r + tail)
    ensures CallsAnswered(r) ==> CallsAnswered(r + tail)
  {
    if CallsAnswered(r) {
      assert (r + tail)[0] == r[0];
      forall c | 0 <= c < |r[0].calls| ensures AnswersId(r + tail, r[0].calls[c].id) {
        assert AnswersId(r, r[0].calls[c].id);
        var j :| 0 <= j < |r| && r[j].role.Tool? && r[j].resultOf == r[0].calls[c].id;
        assert (r + tail)[j] == r[j];
      }
    }
  }

  lemma {:induction false} AbsorbedKeepsPairing(offset: nat, rounds: seq<seq<Message>>, summaries: map<nat, string>)
    requires forall i :: 0 <= i < |rounds| ==> rounds[i] != []
    ensures NoTools(Absorbed(offset, rounds, summaries).prefix)
    ensures (forall i :: 0 <= i < |rounds| ==> ResultsOwned(rounds[i])) ==>
      NoOrphanResults(Absorbed(offset, rounds, summaries))
    ensures (forall i :: 0 <= i < |rounds| ==> CallsAnswered(rounds[i])) ==>
      NoOrphanCalls(Absorbed(offset, rounds, summaries))
    decreases rounds
  {
    if rounds != [] {
      var next := offset + |rounds[0]|;
      AbsorbedKeepsPairing(next, rounds[1..], summaries);
      TailKeepsPairing(rounds[0], Absorbed(next, rounds[1..], summaries).prefix);
    }
  }

  /** Two transcripts with the same roles, call ids and result ids at every index. */
  predicate SameShape(a: seq<Message>, b: seq<Message>) {
    |a| == |b| && forall i :: 0 <= i < |a| ==> SameShapeMessage(a[i], b[i])
  }

  predicate SameShapeMessage(m: Message, m': Message) {
    && m.role == m'.role
    && m.resultOf == m'.resultOf
    && |m.calls| == |m'.calls|
    && forall c :: 0 <= c < |m.calls| ==> m.calls[c].id == m'.calls[c].id
  }

  lemma {:induction false} SplitSameShape(a: seq<Message>, b: seq<Message>)
    requires SameShape(a, b)
    ensures SameShape(Split(a).prefix, Split(b).prefix)
    ensures |Split(a).rounds| == |Split(b).rounds|
    ensures forall i :: 0 <= i < |Split(a).rounds| ==> SameShape(Split(a).rounds[i], Split(b).rounds[i])
  {
    if a != [] {
      SplitSameShape(a[1..], b[1..]);
      assert SameShapeMessage(a[0], b[0]);
      assert IsRoundStart(a[0]) <==> IsRoundStart(b[0]);
    }
  }

  lemma SameShapeOwns(r: seq<Message>, r': seq<Message>, j: nat)
    requires SameShape(r, r') && ResultsOwned(r) && j < |r'| && r'[j].role.Tool?
    ensures CallsId(r'[0], r'[j].resultOf)
  {
    assert SameShapeMessage(r[j], r'[j]) && SameShapeMessage(r[0], r'[0]);
    assert CallsId(r[0], r[j].resultOf);
    var c :| 0 <= c < |r[0].calls| && r[0].calls[c].id == r[j].resultOf;
    assert r'[0].calls[c].id == r'[j].resultOf;
  }

  lemma SameShapeAnswers(r: seq<Message>, r': seq<Message>, c: nat)
    requires SameShape(r, r') && CallsAnswered(r) && r' != [] && c < |r'[0].calls|
    ensures AnswersId(r', r'[0].calls[c].id)
  {
    assert SameShapeMessage(r[0], r'[0]);
    assert AnswersId(r, r[0].calls[c].id);
    var j :| 0 <= j < |r| && r[j].role.Tool? && r[j].resultOf == r[0].calls[c].id;
    assert SameShapeMessage(r[j], r'[j]);
  }

  lemma SameShapePairing(r: seq<Message>, r': seq<Message>)
    requires SameShape(r, r')
    ensures ResultsOwned(r) ==> ResultsOwned(r')
    ensures CallsAnswered(r) ==> CallsAnswered(r')
  {
    if ResultsOwned(r) {
      forall j | 0 <= j < |r'| && r'[j].role.Tool? ensures CallsId(r'[0], r'[j].resultOf) {
        SameShapeOwns(r, r', j);
      }
    }
    if CallsAnswered(r) {
      forall c | 0 <= c < |r'[0].calls| ensures AnswersId(r', r'[0].calls[c].id) {
        SameShapeAnswers(r, r', c);
      }
    }
  }

  lemma ShrinkKeepsPairing(ms: seq<Message>, keepRecent: int, shrink: Shrinker)
    ensures NoOrphanResults(Split(ms)) ==> NoOrphanResults(Split(PayloadsShrunk(ms, keepRecent, shrink)))
    ensures NoOrphanCalls(Split(ms)) ==> NoOrphanCalls(Split(PayloadsShrunk(ms, keepRecent, shrink)))
  {
    var out := PayloadsShrunk(ms, keepRecent, shrink);
    assert SameShape(ms, out);
    SplitSameShape(ms, out);
    var h, h' := Split(ms), Split(out);
    assert NoTools(h.prefix) ==> NoTools(h'.prefix) by {
      assert forall j :: 0 <= j < |h'.prefix| ==> SameShapeMessage(h.prefix[j], h'.prefix[j]);
    }
    forall i | 0 <= i < |h.rounds|
      ensures ResultsOwned(h.rounds[i]) ==> ResultsOwned(h'.rounds[i])
      ensures CallsAnswered(h.rounds[i]) ==> CallsAnswered(h'.rounds[i])
    {
      SameShapePairing(h.rounds[i], h'.rounds[i]);
    }
  }

  lemma RewriteKeepsPairing(ms: seq<Message>, summaries: map<nat, string>)
    ensures var h := Split(ms); var h' := Split(h.prefix + RewriteRounds(|h.prefix|, h.rounds, summaries));
      (NoOrphanResults(h) ==> NoOrphanResults(h')) && (NoOrphanCalls(h) ==> NoOrphanCalls(h'))
  {
    var h := Split(ms);
    assert forall i :: 0 <= i < |h.rounds| ==> IsRound(h.rounds[i]);
    SplitOfCompacted(ms, summaries);
    AbsorbedKeepsPairing(|h.prefix|, h.rounds, summaries);
  }

  /** If every tool result sat in its call's round before the pass, none is orphaned after it;
      and if every call had its result in its round, so has every call that is left. */
  lemma PairingKept(ms: seq<Message>, keepRecent: int, summarizer: Summarizer, shrink: Shrinker)
    ensures NoOrphanResults(Split(ms)) ==> NoOrphanResults(Split(Compacted(ms, keepRecent, summarizer, shrink)))
    ensures NoOrphanCalls(Split(ms)) ==> NoOrphanCalls(Split(Compacted(ms, keepRecent, summarizer, shrink)))
  {
    var h := Split(ms);
    var starts := UnprotectedStarts(|h.prefix|, h.rounds[..OlderCount(|h.rounds|, keepRecent)]);
    var summaries := Collected(starts, summarizer, |starts|);
    ShrinkKeepsPairing(ms, keepRecent, shrink);
    RewriteKeepsPairing(ms, summaries);
  }

  // ---- A second pass ----

  lemma {:induction false} NameBeforePrefix(r: seq<Message>, tail: seq<Message>, j: nat, id: string)
    requires j <= |r|
    ensures NameBefore(r + tail, j, id) == NameBefore(r, j, id)
  {
    if j > 0 {
      NameBeforePrefix(r, tail, j - 1, id);
    }
  }

  /** A protected round stays protected when summaries are swallowed into its span. */
  lemma ProtectedWithTail(r: seq<Message>, tail: seq<Message>)
    requires Protected(r)
    ensures Protected(r + tail)
  {
    var j :| 0 <= j < |r| && ProtectedResult(r, j);
    NameBeforePrefix(r, tail, j, r[j].resultOf);
    assert ProtectedResult(r + tail, j);
  }

  /** After a pass that summarized every older unprotected round, only protected rounds
      precede the last `recent` ones. */
  lemma {:induction false} OlderAreProtected(offset: nat, rounds: seq<seq<Message>>, summaries: map<nat, string>, recent: nat)
    requires recent <= |rounds|
    requires forall i :: 0 <= i < |rounds| ==>
      (Offsets(offset, rounds)[i] in summaries <==> i < |rounds| - recent && !Protected(rounds[i]))
    ensures |Absorbed(offset, rounds, summaries).rounds| >= recent
    ensures forall j :: 0 <= j < |Absorbed(offset, rounds, summaries).rounds| - recent ==>
      Protected(Absorbed(offset, rounds, summaries).rounds[j])
    ensures |rounds| == recent ==> |Absorbed(offset, rounds, summaries).rounds| == recent
    decreases rounds
  {
    if rounds != [] {
      var next := offset + |rounds[0]|;
      var rest := Absorbed(next, rounds[1..], summaries);
      assert Offsets(offset, rounds) == [offset] + Offsets(next, rounds[1..]);
      forall i | 0 <= i < |rounds[1..]|
        ensures Offsets(next, rounds[1..])[i] in summaries <==> i + 1 < |rounds| - recent && !Protected(rounds[i + 1])
      {
        assert Offsets(offset, rounds)[i + 1] == Offsets(next, rounds[1..])[i];
      }
      assert Offsets(offset, rounds)[0] == offset;
      if |rounds| == recent {
        OlderAreProtected(next, rounds[1..], summaries, recent - 1);
        assert Absorbed(offset, rounds, summaries).rounds == [rounds[0] + rest.prefix] + rest.rounds;
      } else {
        OlderAreProtected(next, rounds[1..], summaries, recent);
        if offset !in summaries {
          ProtectedWithTail(rounds[0], rest.prefix);
        }
      }
    }
  }

  lemma {:induction false} NoneUnprotected(offset: nat, rounds: seq<seq<Message>>)
    requires forall i :: 0 <= i < |rounds| ==> Protected(rounds[i])
    ensures UnprotectedStarts(offset, rounds) == []
    decreases rounds
  {
    if rounds != [] {
      NoneUnprotected(offset + |rounds[0]|, rounds[1..]);
    }
  }

  /** Every compactable round received a summary. */
  predicate AllAnswered(ms: seq<Message>, keepRecent: int, summarizer: Summarizer) {
    var h := Split(ms);
    var starts := UnprotectedStarts(|h.prefix|, h.rounds[..OlderCount(|h.rounds|, keepRecent)]);
    forall j :: 0 <= j < |starts| ==> AnswerFor(summarizer, j / BLOCKS_PER_BATCH, starts[j]) != ""
  }

  /** What a second pass finds in a transcript whose older unprotected rounds were all summarized. */
  lemma NothingLeft(ms: seq<Message>, keepRecent: nat, summaries: map<nat, string>)
    requires 1 <= keepRecent < |Split(ms).rounds|
    requires forall i :: 0 <= i < |Split(ms).rounds| ==>
      (Offsets(|Split(ms).prefix|, Split(ms).rounds)[i] in summaries
       <==> i < |Split(ms).rounds| - keepRecent && !Protected(Split(ms).rounds[i]))
    ensures var h := Split(Split(ms).prefix + RewriteRounds(|Split(ms).prefix|, Split(ms).rounds, summaries));
      UnprotectedStarts(|h.prefix|, h.rounds[..OlderCount(|h.rounds|, keepRecent)]) == []
  {
    var offset, rounds := |Split(ms).prefix|, Split(ms).rounds;
    var a := Absorbed(offset, rounds, summaries);
    SplitOfCompacted(ms, summaries);
    OlderAreProtected(offset, rounds, summaries, keepRecent);
    NoneUnprotected(|Split(ms).prefix + a.prefix|, a.rounds[..OlderCount(|a.rounds|, keepRecent)]);
  }

  lemma AllAnsweredMeansAllSummarized(starts: seq<nat>, summarizer: Summarizer)
    requires Increasing(starts)
    requires forall j :: 0 <= j < |starts| ==> AnswerFor(summarizer, j / BLOCKS_PER_BATCH, starts[j]) != ""
    ensures forall s :: s in Collected(starts, summarizer, |starts|) <==> s in starts
  {
    CollectedKeys(starts, summarizer, |starts|);
    forall j | 0 <= j < |starts| ensures starts[j] in Collected(starts, summarizer, |starts|) {
      OwnBatchDecides(starts, summarizer, |starts|, j);
    }
  }

  /** Compaction reaches a fixpoint: when every compactable round received a summary, a second
      pass with the same `keepRecent` changes nothing, whatever the summarizer then answers. */
  lemma Fixpoint(ms: seq<Message>, keepRecent: int, summarizer: Summarizer, shrink: Shrinker,
                 summarizer': Summarizer, shrink': Shrinker)
    requires keepRecent >= 1
    requires AllAnswered(ms, keepRecent, summarizer)
    ensures Compacted(Compacted(ms, keepRecent, summarizer, shrink), keepRecent, summarizer', shrink')
         == Compacted(ms, keepRecent, summarizer, shrink)
  {
    var h := Split(ms);
    var older := OlderCount(|h.rounds|, keepRecent);
    var starts := UnprotectedStarts(|h.prefix|, h.rounds[..older]);
    if |h.rounds| > keepRecent && starts != [] {
      var summaries := Collected(starts, summarizer, |starts|);
      UnprotectedStartsFacts(ms, older);
      AllAnsweredMeansAllSummarized(starts, summarizer);
      assert starts[0] in summaries;
      NothingLeft(ms, keepRecent, summaries);
    }
  }
}
