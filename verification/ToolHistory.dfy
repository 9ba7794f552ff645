/**
  Tool-history compaction: a transcript is cut into rounds (an assistant message with tool
  calls and everything up to the next such message), old unprotected rounds are replaced by
  one-message summaries, and everything else stays as it was.
 */
module ToolHistory {
  import opened Sequences
  import opened Text
  import opened Wrappers

  datatype Role = System | User | Assistant | Tool
  datatype Call = Call(id: string, name: string, arguments: string)

  /** `resultOf` is the `tool_call_id` of a tool message. */
  datatype Message = Message(role: Role, content: string, calls: seq<Call>, resultOf: string)

  /** A transcript cut into what precedes the first round, and the rounds. */
  datatype History = History(prefix: seq<Message>, rounds: seq<seq<Message>>)

  /** What the summarizer made of one batch of rounds. */
  datatype BatchAnswer = Failed | Answered(byRound: map<int, string>)

  type Summarizer = nat -> BatchAnswer
  type Shrinker = (string, string) -> string

  const PROTECTED_TOOLS := {
    "commit_reviewed", "vcs_commit_reviewed", "advisory_review", "task_acceptance_review",
    "skill_review", "review_status", "knowledge_read"
  }
  const BLOCKS_PER_BATCH: nat := 8
  const WARNING_MARK := "⚠️"
  const SHELL_EXIT_MARK := "⚠️ SHELL_EXIT_ERROR"
  const SUMMARY_TITLE := "[Compacted reasoning block]\n"

  predicate IsRoundStart(m: Message) {
    m.role.Assistant? && m.calls != []
  }

  predicate IsRound(r: seq<Message>) {
    r != [] && IsRoundStart(r[0]) && forall j :: 0 < j < |r| ==> !IsRoundStart(r[j])
  }

  lemma SameMessages(m: Message, rest: History)
    ensures [] + Flatten([[m] + rest.prefix] + rest.rounds) == [m] + (rest.prefix + Flatten(rest.rounds))
    ensures ([m] + rest.prefix) + Flatten(rest.rounds) == [m] + (rest.prefix + Flatten(rest.rounds))
  {
    ConsConcat(m, rest.prefix, Flatten(rest.rounds));
    FlattenFirst([m] + rest.prefix, rest.rounds);
  }

  function Split(ms: seq<Message>): (h: History)
    ensures h.prefix + Flatten(h.rounds) == ms
    ensures forall j :: 0 <= j < |h.prefix| ==> !IsRoundStart(h.prefix[j])
    ensures forall i :: 0 <= i < |h.rounds| ==> IsRound(h.rounds[i])
  {
    if ms == [] then History([], [])
    else
      var rest := Split(ms[1..]);
      SameMessages(ms[0], rest);
      if IsRoundStart(ms[0]) then History([], [[ms[0]] + rest.prefix] + rest.rounds)
      else History([ms[0]] + rest.prefix, rest.rounds)
  }

  lemma SplitCons(m: Message, rest: seq<Message>)
    ensures Split([m] + rest) ==
      if IsRoundStart(m) then History([], [[m] + Split(rest).prefix] + Split(rest).rounds)
      else History([m] + Split(rest).prefix, Split(rest).rounds)
  {
    assert ([m] + rest)[1..] == rest;
  }

  // ---- Rounds as index spans ----

  function RoundStarts(ms: seq<Message>, i: nat): seq<nat>
    requires i <= |ms|
    decreases |ms| - i
  {
    if i == |ms| then []
    else if IsRoundStart(ms[i]) then [i] + RoundStarts(ms, i + 1)
    else RoundStarts(ms, i + 1)
  }

  /** Where each round of a list begins, the first at `offset`. */
  function Offsets(offset: nat, rounds: seq<seq<Message>>): (o: seq<nat>)
    ensures |o| == |rounds|
    decreases rounds
  {
    if rounds == [] then [] else [offset] + Offsets(offset + |rounds[0]|, rounds[1..])
  }

  lemma {:induction false} StartsAreOffsets(ms: seq<Message>, i: nat)
    requires i <= |ms|
    ensures var h := Split(ms[i..]); RoundStarts(ms, i) == Offsets(i + |h.prefix|, h.rounds)
    decreases |ms| - i
  {
    if i == |ms| {
      assert ms[i..] == [];
    } else {
      var rest := Split(ms[i + 1..]);
      StartsAreOffsets(ms, i + 1);
      assert ms[i..] == [ms[i]] + ms[i + 1..];
      SplitCons(ms[i], ms[i + 1..]);
      if IsRoundStart(ms[i]) {
        OffsetsCons(i, [ms[i]] + rest.prefix, rest.rounds);
      }
    }
  }

  lemma OffsetsCons(offset: nat, round: seq<Message>, rounds: seq<seq<Message>>)
    ensures Offsets(offset, [round] + rounds) == [offset] + Offsets(offset + |round|, rounds)
  {
    assert ([round] + rounds)[1..] == rounds;
  }

  lemma {:induction false} OffsetsLocate(ms: seq<Message>, offset: nat, rounds: seq<seq<Message>>, i: nat)
    requires offset <= |ms| && ms[offset..] == Flatten(rounds)
    requires i < |rounds|
    ensures var o := Offsets(offset, rounds);
      && offset <= o[i] && o[i] + |rounds[i]| <= |ms|
      && ms[o[i]..o[i] + |rounds[i]|] == rounds[i]
      && o[i] + |rounds[i]| == (if i + 1 < |rounds| then o[i + 1] else |ms|)
    decreases rounds
  {
    var next := offset + |rounds[0]|;
    FirstRound(ms, offset, rounds);
    if i > 0 {
      OffsetsLocate(ms, next, rounds[1..], i - 1);
    } else if |rounds| > 1 {
      assert Offsets(offset, rounds)[1] == Offsets(next, rounds[1..])[0];
    } else {
      assert ms[next..] == [];
    }
  }

  lemma {:induction false} OffsetsIncrease(offset: nat, rounds: seq<seq<Message>>)
    requires forall i :: 0 <= i < |rounds| ==> rounds[i] != []
    ensures forall i :: 0 <= i < |rounds| ==> offset <= Offsets(offset, rounds)[i]
    ensures forall i, j :: 0 <= i < j < |rounds| ==> Offsets(offset, rounds)[i] < Offsets(offset, rounds)[j]
    decreases rounds
  {
    if rounds != [] {
      var next := offset + |rounds[0]|;
      OffsetsIncrease(next, rounds[1..]);
      assert Offsets(offset, rounds) == [offset] + Offsets(next, rounds[1..]);
    }
  }

  /** A round's first and last index. */
  predicate SpanOf(ms: seq<Message>, span: (nat, nat), start: nat, round: seq<Message>) {
    span.0 == start && span.0 <= span.1 < |ms| && ms[span.0..span.1 + 1] == round
  }

  ghost predicate SpansOf(ms: seq<Message>, spans: seq<(nat, nat)>) {
    var h := Split(ms);
    && |spans| == |h.rounds|
    && forall i :: 0 <= i < |spans| ==> SpanOf(ms, spans[i], Offsets(|h.prefix|, h.rounds)[i], h.rounds[i])
  }

  lemma SpanLocated(ms: seq<Message>, offset: nat, rounds: seq<seq<Message>>, i: nat, end: int)
    requires offset <= |ms| && ms[offset..] == Flatten(rounds)
    requires i < |rounds| && rounds[i] != []
    requires end == if i + 1 < |rounds| then Offsets(offset, rounds)[i + 1] - 1 else |ms| - 1
    ensures end >= 0 && SpanOf(ms, (Offsets(offset, rounds)[i], end), Offsets(offset, rounds)[i], rounds[i])
  {
    OffsetsLocate(ms, offset, rounds, i);
  }

  method ToolRoundSpans(ms: seq<Message>) returns (spans: seq<(nat, nat)>)
    ensures SpansOf(ms, spans)
  {
    var starts := RoundStarts(ms, 0);
    ghost var prefix, rounds := Split(ms).prefix, Split(ms).rounds;
    assert starts == Offsets(|prefix|, rounds) by {
      assert ms[0..] == ms;
      StartsAreOffsets(ms, 0);
    }
    assert ms[|prefix|..] == Flatten(rounds);
    spans := [];
    for idx := 0 to |starts|
      invariant |spans| == idx
      invariant forall i :: 0 <= i < idx ==> SpanOf(ms, spans[i], starts[i], rounds[i])
    {
      var end := if idx + 1 < |starts| then starts[idx + 1] - 1 else |ms| - 1;
      assert IsRound(rounds[idx]);
      SpanLocated(ms, |prefix|, rounds, idx, end);
      spans := spans + [(starts[idx], end)];
    }
  }

  // ---- Protected rounds ----

  function NameOfCall(calls: seq<Call>, id: string): Option<string> {
    if calls == [] then None
    else if calls[0].id == id then Some(calls[0].name)
    else NameOfCall(calls[1..], id)
  }

  /** The name the nearest assistant message before `j` gives call `id`, or "". */
  function NameBefore(ms: seq<Message>, j: nat, id: string): string
    requires j <= |ms|
  {
    if j == 0 then ""
    else if !ms[j - 1].role.Assistant? then NameBefore(ms, j - 1, id)
    else match NameOfCall(ms[j - 1].calls, id)
         case Some(name) => name
         case None => ""
  }

  /** The tool that produced the result at `idx`. */
  function ProducingTool(ms: seq<Message>, idx: nat): string
    requires idx < |ms|
  {
    if ms[idx].resultOf == "" then "" else NameBefore(ms, idx, ms[idx].resultOf)
  }

  method FindToolNameForResult(ms: seq<Message>, idx: nat) returns (name: string)
    requires idx < |ms|
    ensures name == ProducingTool(ms, idx)
  {
    var target := ms[idx].resultOf;
    if target == "" {
      return "";
    }
    var j := idx;
    while j > 0
      invariant j <= idx
      invariant NameBefore(ms, j, target) == NameBefore(ms, idx, target)
    {
      j := j - 1;
      if ms[j].role.Assistant? {
        var c := 0;
        while c < |ms[j].calls|
          invariant c <= |ms[j].calls|
          invariant NameOfCall(ms[j].calls, target) == NameOfCall(ms[j].calls[c..], target)
        {
          if ms[j].calls[c].id == target {
            return ms[j].calls[c].name;
          }
          assert ms[j].calls[c..][1..] == ms[j].calls[c + 1..];
          c := c + 1;
        }
        return "";
      }
    }
    return "";
  }

  predicate IsFirstCall(calls: seq<Call>, c: nat, id: string)
    requires c < |calls|
  {
    calls[c].id == id && forall b :: 0 <= b < c ==> calls[b].id != id
  }

  /** The nearest assistant message before a result decides its tool: by the first call with the
      result's id, and by no name at all when it has none. */
  lemma {:induction false} ToolIsNamedByNearest(ms: seq<Message>, idx: nat, j: nat)
    requires j < idx < |ms| && ms[j].role.Assistant? && forall k :: j < k < idx ==> !ms[k].role.Assistant?
    ensures forall c :: 0 <= c < |ms[j].calls| && ms[idx].resultOf != "" && IsFirstCall(ms[j].calls, c, ms[idx].resultOf) ==>
      ProducingTool(ms, idx) == ms[j].calls[c].name
    ensures ms[idx].resultOf == "" || (forall c :: 0 <= c < |ms[j].calls| ==> ms[j].calls[c].id != ms[idx].resultOf) ==>
      ProducingTool(ms, idx) == ""
  {
    var id := ms[idx].resultOf;
    NearestAssistant(ms, j, idx, id);
    forall c | 0 <= c < |ms[j].calls| && IsFirstCall(ms[j].calls, c, id)
      ensures NameOfCall(ms[j].calls, id) == Some(ms[j].calls[c].name)
    {
      FirstCallNames(ms[j].calls, id, c);
    }
    if forall c :: 0 <= c < |ms[j].calls| ==> ms[j].calls[c].id != id {
      NoCallNames(ms[j].calls, id);
    }
  }

  lemma {:induction false} NearestAssistant(ms: seq<Message>, j: nat, idx: nat, id: string)
    requires j < idx <= |ms| && ms[j].role.Assistant? && forall k :: j < k < idx ==> !ms[k].role.Assistant?
    ensures NameBefore(ms, idx, id) == NameBefore(ms, j + 1, id)
    decreases idx
  {
    if j + 1 < idx {
      NearestAssistant(ms, j, idx - 1, id);
    }
  }

  lemma {:induction false} FirstCallNames(calls: seq<Call>, id: string, c: nat)
    requires c < |calls| && IsFirstCall(calls, c, id)
    ensures NameOfCall(calls, id) == Some(calls[c].name)
    decreases calls
  {
    if c > 0 {
      assert calls[0].id != id;
      FirstCallNames(calls[1..], id, c - 1);
    }
  }

  lemma {:induction false} NoCallNames(calls: seq<Call>, id: string)
    requires forall c :: 0 <= c < |calls| ==> calls[c].id != id
    ensures NameOfCall(calls, id) == None
    decreases calls
  {
    if calls != [] {
      NoCallNames(calls[1..], id);
    }
  }

  lemma {:induction false} NoAssistantNoTool(ms: seq<Message>, idx: nat, id: string)
    requires idx <= |ms| && forall k :: 0 <= k < idx ==> !ms[k].role.Assistant?
    ensures NameBefore(ms, idx, id) == ""
  {
    if idx > 0 {
      NoAssistantNoTool(ms, idx - 1, id);
    }
  }

  function NonBlank(lines: seq<string>): seq<string> {
    if lines == [] then []
    else if Strip(lines[0]) == "" then NonBlank(lines[1..])
    else [Strip(lines[0])] + NonBlank(lines[1..])
  }

  /** The first warning line among the first two non-blank lines decides; a shell exit error
      does not protect. */
  predicate WarningAmong(lines: seq<string>, room: nat) {
    lines != [] && room > 0 &&
    if StartsWith(lines[0], WARNING_MARK) then !StartsWith(lines[0], SHELL_EXIT_MARK)
    else WarningAmong(lines[1..], room - 1)
  }

  predicate WarningInHead(content: string) {
    WarningAmong(NonBlank(SplitLines(content)), 2)
  }

  /** Line `i` is a warning that protects: no earlier line warns, at most one earlier line is not
      blank, and it is no shell exit error. */
  predicate ProtectsAt(lines: seq<string>, i: nat)
    requires i < |lines|
  {
    && StartsWith(Strip(lines[i]), "⚠️") && !StartsWith(Strip(lines[i]), "⚠️ SHELL_EXIT_ERROR")
    && (forall k :: 0 <= k < i ==> !StartsWith(Strip(lines[k]), "⚠️"))
    && (forall j, k :: 0 <= j < k < i ==> Strip(lines[j]) == "" || Strip(lines[k]) == "")
  }

  ghost predicate SomeProtects(lines: seq<string>) {
    exists i :: 0 <= i < |lines| && ProtectsAt(lines, i)
  }

  lemma WarningMeans(content: string)
    ensures WarningInHead(content) <==> SomeProtects(SplitLines(content))
  {
    var lines := SplitLines(content);
    if WarningAmong(NonBlank(lines), 2) {
      var i := WarningAt(lines, 2);
      assert ProtectsAt(lines, i);
    }
    if SomeProtects(lines) {
      var i :| 0 <= i < |lines| && ProtectsAt(lines, i);
      WarningFound(lines, i, 2);
    }
  }

  lemma {:induction false} WarningAt(lines: seq<string>, room: nat) returns (i: nat)
    requires room <= 2 && WarningAmong(NonBlank(lines), room)
    ensures i < |lines| && StartsWith(Strip(lines[i]), "⚠️") && !StartsWith(Strip(lines[i]), "⚠️ SHELL_EXIT_ERROR")
    ensures forall k :: 0 <= k < i ==> !StartsWith(Strip(lines[k]), "⚠️")
    ensures room <= 1 ==> forall k :: 0 <= k < i ==> Strip(lines[k]) == ""
    ensures forall j, k :: 0 <= j < k < i ==> Strip(lines[j]) == "" || Strip(lines[k]) == ""
  {
    var first := Strip(lines[0]);
    if first == "" {
      assert !StartsWith(first, "⚠️");
      var n := WarningAt(lines[1..], room);
      i := n + 1;
    } else {
      assert NonBlank(lines)[1..] == NonBlank(lines[1..]);
      if StartsWith(first, "⚠️") {
        i := 0;
      } else {
        var n := WarningAt(lines[1..], room - 1);
        i := n + 1;
      }
    }
    forall k | 0 < k < |lines| ensures lines[1..][k - 1] == lines[k] {}
  }

  lemma {:induction false} WarningFound(lines: seq<string>, i: nat, room: nat)
    requires i < |lines| && ProtectsAt(lines, i) && 1 <= room <= 2
    requires room == 1 ==> forall k :: 0 <= k < i ==> Strip(lines[k]) == ""
    ensures WarningAmong(NonBlank(lines), room)
    decreases lines
  {
    var first := Strip(lines[0]);
    if i == 0 {
      assert first != "";
    } else {
      forall k | 0 < k < |lines| ensures lines[1..][k - 1] == lines[k] {}
      assert !StartsWith(first, "⚠️");
      if first == "" {
        WarningFound(lines[1..], i - 1, room);
      } else {
        assert forall k :: 0 < k < i ==> Strip(lines[k]) == "";
        WarningFound(lines[1..], i - 1, 1);
        assert NonBlank(lines)[1..] == NonBlank(lines[1..]);
      }
    }
  }

  method ProtectedWarningInHead(content: string) returns (found: bool)
    ensures found == WarningInHead(content)
  {
    var lines := SplitLines(content);
    var seen := 0;
    for i := 0 to |lines|
      invariant 0 <= seen < 2
      invariant WarningInHead(content) == WarningAmong(NonBlank(lines[i..]), 2 - seen)
    {
      var line := Strip(lines[i]);
      assert lines[i..][1..] == lines[i + 1..];
      if line != "" {
        assert NonBlank(lines[i..])[1..] == NonBlank(lines[i + 1..]);
        if StartsWith(line, WARNING_MARK) {
          return !StartsWith(line, SHELL_EXIT_MARK);
        }
        seen := seen + 1;
        if seen >= 2 {
          return false;
        }
      }
    }
    return false;
  }

  predicate ProtectedResult(ms: seq<Message>, j: nat)
    requires j < |ms|
  {
    ms[j].role.Tool? && (ProducingTool(ms, j) in PROTECTED_TOOLS || WarningInHead(ms[j].content))
  }

  /** A round that holds a result of a protected tool or a protected warning. */
  predicate Protected(r: seq<Message>) {
    exists j :: 0 <= j < |r| && ProtectedResult(r, j)
  }

  lemma {:induction false} NameWithinRound(ms: seq<Message>, start: nat, end: nat, j: nat, id: string)
    requires start < j <= end <= |ms| && IsRound(ms[start..end])
    ensures NameBefore(ms, j, id) == NameBefore(ms[start..end], j - start, id)
    decreases j
  {
    assert ms[start..end][j - 1 - start] == ms[j - 1];
    if !ms[j - 1].role.Assistant? {
      assert IsRoundStart(ms[start..end][0]);
      NameWithinRound(ms, start, end, j - 1, id);
    }
  }

  lemma ResultWithinRound(ms: seq<Message>, start: nat, end: nat, idx: nat)
    requires start <= idx < end <= |ms| && IsRound(ms[start..end]) && ms[idx].role.Tool?
    ensures ProducingTool(ms, idx) == ProducingTool(ms[start..end], idx - start)
  {
    assert IsRoundStart(ms[start..end][0]) && ms[start..end][idx - start] == ms[idx];
    NameWithinRound(ms, start, end, idx, ms[idx].resultOf);
  }

  /** A result that protects its round, by the name of its tool or by a warning among its first lines. */
  ghost predicate Protects(r: seq<Message>, j: nat)
    requires j < |r|
  {
    r[j].role.Tool? && (ProducingTool(r, j) in {
        "commit_reviewed", "vcs_commit_reviewed", "advisory_review", "task_acceptance_review",
        "skill_review", "review_status", "knowledge_read" } || SomeProtects(SplitLines(r[j].content)))
  }

  /** What protects a round: a result of one of the protected tools, or one whose head warns. */
  lemma ProtectedMeans(r: seq<Message>)
    ensures Protected(r) <==> exists j :: 0 <= j < |r| && Protects(r, j)
  {
    forall j | 0 <= j < |r| ensures Protects(r, j) == ProtectedResult(r, j) {
      WarningMeans(r[j].content);
    }
  }

  method RoundHasProtectedContent(ms: seq<Message>, start: nat, end: nat) returns (found: bool)
    requires start <= end < |ms| && IsRound(ms[start..end + 1])
    ensures found == Protected(ms[start..end + 1])
  {
    ghost var r := ms[start..end + 1];
    for idx := start to end + 1
      invariant forall j :: 0 <= j < idx - start ==> !ProtectedResult(r, j)
    {
      assert ms[idx] == r[idx - start];
      if ms[idx].role.Tool? {
        var name := FindToolNameForResult(ms, idx);
        ResultWithinRound(ms, start, end + 1, idx);
        var warned := ProtectedWarningInHead(ms[idx].content);
        if name in PROTECTED_TOOLS || warned {
          assert ProtectedResult(r, idx - start);
          return true;
        }
      }
    }
    return false;
  }

  // ---- Which rounds are summarized, and how ----

  /** `len(spans[:-keep_recent])`: Python's slice, for every sign of `keep_recent`. */
  function OlderCount(rounds: nat, keepRecent: int): (n: nat)
    ensures n <= rounds
  {
    if keepRecent > 0 then (if rounds > keepRecent then rounds - keepRecent else 0)
    else if -keepRecent < rounds then -keepRecent
    else rounds
  }

  /** Python's `s[:-k]` of a list of `rounds` elements keeps an element exactly when `k` more follow
      it or, for `k <= 0`, when its index is below `-k`. */
  lemma SliceKeeps(rounds: nat, keepRecent: int, i: nat)
    requires i < rounds
    ensures i < OlderCount(rounds, keepRecent) <==> if keepRecent > 0 then i + keepRecent < rounds else i < -keepRecent
  {}

  function UnprotectedStarts(offset: nat, rounds: seq<seq<Message>>): seq<nat>
    decreases rounds
  {
    if rounds == [] then []
    else if Protected(rounds[0]) then UnprotectedStarts(offset + |rounds[0]|, rounds[1..])
    else [offset] + UnprotectedStarts(offset + |rounds[0]|, rounds[1..])
  }

  /** The text a batch's answer gives a round of that batch; "" leaves the round raw. */
  function AnswerFor(summarizer: Summarizer, batch: nat, start: nat): string {
    match summarizer(batch)
    case Failed => ""
    case Answered(byRound) => if start in byRound then byRound[start] else ""
  }

  /** The summaries of the first `n` compactable rounds; each asks its own batch only. */
  function Collected(starts: seq<nat>, summarizer: Summarizer, n: nat): map<nat, string>
    requires n <= |starts|
  {
    if n == 0 then map[]
    else
      var text := AnswerFor(summarizer, (n - 1) / BLOCKS_PER_BATCH, starts[n - 1]);
      var before := Collected(starts, summarizer, n - 1);
      if text != "" then before[starts[n - 1] := text] else before
  }

  lemma {:induction false} CollectedUnchanged(starts: seq<nat>, summarizer: Summarizer, n: nat, m: nat)
    requires n <= m <= |starts|
    requires forall j :: n <= j < m ==> summarizer(j / BLOCKS_PER_BATCH).Failed?
    ensures Collected(starts, summarizer, m) == Collected(starts, summarizer, n)
    decreases m
  {
    if n < m {
      assert summarizer((m - 1) / BLOCKS_PER_BATCH).Failed?;
      CollectedUnchanged(starts, summarizer, n, m - 1);
    }
  }

  /** The batch loop. */
  method SummarizeInBatches(starts: seq<nat>, summarizer: Summarizer) returns (summaries: map<nat, string>)
    ensures summaries == Collected(starts, summarizer, |starts|)
  {
    summaries := map[];
    var idx := 0;
    var batch := 0;
    while idx < |starts|
      invariant 0 <= idx <= |starts|
      invariant idx == batch * BLOCKS_PER_BATCH || idx == |starts|
      invariant summaries == Collected(starts, summarizer, idx)
    {
      var end := if idx + BLOCKS_PER_BATCH < |starts| then idx + BLOCKS_PER_BATCH else |starts|;
      var answer := summarizer(batch);
      assert forall j :: idx <= j < end ==> j / BLOCKS_PER_BATCH == batch;
      if answer.Failed? {
        CollectedUnchanged(starts, summarizer, idx, end);
      } else {
        for j := idx to end
          invariant summaries == Collected(starts, summarizer, j)
        {
          if starts[j] in answer.byRound && answer.byRound[starts[j]] != "" {
            summaries := summaries[starts[j] := answer.byRound[starts[j]]];
          }
        }
      }
      idx := end;
      batch := batch + 1;
    }
  }

  function SummaryMessage(text: string): Message {
    Message(Assistant, SUMMARY_TITLE + text, [], "")
  }

  /** Every round that has a summary becomes one message; every other stays verbatim. */
  function RewriteRounds(offset: nat, rounds: seq<seq<Message>>, summaries: map<nat, string>): seq<Message>
    decreases rounds
  {
    if rounds == [] then []
    else (if offset in summaries then [SummaryMessage(summaries[offset])] else rounds[0])
         + RewriteRounds(offset + |rounds[0]|, rounds[1..], summaries)
  }

  function ShrinkCall(c: Call, shrink: Shrinker): Call {
    if c.arguments == "" then c else c.(arguments := shrink(c.name, c.arguments))
  }

  function ShrinkMessage(m: Message, shrink: Shrinker): Message {
    m.(calls := seq(|m.calls|, i requires 0 <= i < |m.calls| => ShrinkCall(m.calls[i], shrink)))
  }

  /** The fallback: only the arguments of older rounds' calls are shortened. */
  function PayloadsShrunk(ms: seq<Message>, keepRecent: int, shrink: Shrinker): seq<Message> {
    var starts := RoundStarts(ms, 0);
    if |starts| <= keepRecent then ms
    else
      var older := starts[..OlderCount(|starts|, keepRecent)];
      seq(|ms|, i requires 0 <= i < |ms| => if i in older then ShrinkMessage(ms[i], shrink) else ms[i])
  }

  lemma SpanStarts(ms: seq<Message>, spans: seq<(nat, nat)>)
    requires SpansOf(ms, spans)
    ensures |RoundStarts(ms, 0)| == |spans|
    ensures forall i :: 0 <= i < |spans| ==> RoundStarts(ms, 0)[i] == spans[i].0
  {
    assert ms[0..] == ms;
    StartsAreOffsets(ms, 0);
    forall i | 0 <= i < |spans| ensures RoundStarts(ms, 0)[i] == spans[i].0 {
      assert SpanOf(ms, spans[i], Offsets(|Split(ms).prefix|, Split(ms).rounds)[i], Split(ms).rounds[i]);
    }
  }

  method ShrinkCalls(m: Message, shrink: Shrinker) returns (compacted: Message)
    ensures compacted == ShrinkMessage(m, shrink)
  {
    var calls: seq<Call> := [];
    for c := 0 to |m.calls|
      invariant |calls| == c
      invariant forall k :: 0 <= k < c ==> calls[k] == ShrinkCall(m.calls[k], shrink)
    {
      var call := m.calls[c];
      if call.arguments != "" {
        call := call.(arguments := shrink(call.name, call.arguments));
      }
      calls := calls + [call];
    }
    assert calls == ShrinkMessage(m, shrink).calls;
    return m.(calls := calls);
  }

  method CompactToolHistory(ms: seq<Message>, keepRecent: int, shrink: Shrinker) returns (result: seq<Message>)
    ensures result == PayloadsShrunk(ms, keepRecent, shrink)
  {
    var spans := ToolRoundSpans(ms);
    SpanStarts(ms, spans);
    if |spans| <= keepRecent {
      return ms;
    }
    var count := OlderCount(|spans|, keepRecent);
    var compactable := set i | 0 <= i < count :: spans[i].0;
    result := ShrinkMarked(ms, compactable, shrink);
    forall idx | 0 <= idx < |ms|
      ensures idx in compactable && IsRoundStart(ms[idx]) <==> idx in RoundStarts(ms, 0)[..count]
    {
      StartsAreStarts(ms, 0, idx);
    }
  }

  method ShrinkMarked(ms: seq<Message>, marked: set<nat>, shrink: Shrinker) returns (result: seq<Message>)
    ensures |result| == |ms|
    ensures forall i :: 0 <= i < |ms| ==>
      result[i] == if i in marked && IsRoundStart(ms[i]) then ShrinkMessage(ms[i], shrink) else ms[i]
  {
    result := [];
    for idx := 0 to |ms|
      invariant |result| == idx
      invariant forall i :: 0 <= i < idx ==>
        result[i] == if i in marked && IsRoundStart(ms[i]) then ShrinkMessage(ms[i], shrink) else ms[i]
    {
      var m := ms[idx];
      if idx in marked && m.role.Assistant? && m.calls != [] {
        m := ShrinkCalls(m, shrink);
      }
      result := result + [m];
    }
  }

  lemma {:induction false} StartsAreStarts(ms: seq<Message>, i: nat, k: nat)
    requires i <= |ms|
    ensures k in RoundStarts(ms, i) ==> i <= k < |ms| && IsRoundStart(ms[k])
    decreases |ms| - i
  {
    if i < |ms| {
      StartsAreStarts(ms, i + 1, k);
    }
  }

  /** What compaction promises, in terms of rounds instead of indices. */
  function Compacted(ms: seq<Message>, keepRecent: int, summarizer: Summarizer, shrink: Shrinker): seq<Message> {
    var h := Split(ms);
    var starts := UnprotectedStarts(|h.prefix|, h.rounds[..OlderCount(|h.rounds|, keepRecent)]);
    if |h.rounds| <= keepRecent || starts == [] then ms
    else
      var summaries := Collected(starts, summarizer, |starts|);
      if summaries == map[] then PayloadsShrunk(ms, keepRecent, shrink)
      else h.prefix + RewriteRounds(|h.prefix|, h.rounds, summaries)
  }

  // ---- The index-jumping rewrite ----

  /** What the copy loop appends from `idx` on. */
  function Jump(ms: seq<Message>, idx: nat, blocks: map<nat, (nat, string)>): seq<Message>
    requires forall k :: k in blocks ==> k <= blocks[k].0
    decreases |ms| - idx
  {
    if idx >= |ms| then []
    else if idx in blocks then [SummaryMessage(blocks[idx].1)] + Jump(ms, blocks[idx].0 + 1, blocks)
    else [ms[idx]] + Jump(ms, idx + 1, blocks)
  }

  lemma {:induction false} JumpCopies(ms: seq<Message>, idx: nat, to: nat, blocks: map<nat, (nat, string)>)
    requires forall k :: k in blocks ==> k <= blocks[k].0
    requires idx <= to <= |ms|
    requires forall k :: idx <= k < to ==> k !in blocks
    ensures Jump(ms, idx, blocks) == ms[idx..to] + Jump(ms, to, blocks)
    decreases |ms| - idx
  {
    if idx == to {
      assert ms[idx..to] == [] && [] + Jump(ms, to, blocks) == Jump(ms, to, blocks);
    } else {
      JumpCopies(ms, idx + 1, to, blocks);
      JumpCopied(ms, idx, blocks);
      ConsConcat(ms[idx], ms[idx + 1..to], Jump(ms, to, blocks));
      SliceHead(ms, idx, to);
    }
  }

  lemma JumpCopied(ms: seq<Message>, idx: nat, blocks: map<nat, (nat, string)>)
    requires forall k :: k in blocks ==> k <= blocks[k].0
    requires idx < |ms| && idx !in blocks
    ensures Jump(ms, idx, blocks) == [ms[idx]] + Jump(ms, idx + 1, blocks)
  {}

  /** `blocks` holds exactly the summarized rounds, each with its last index. */
  predicate BlocksAt(blocks: map<nat, (nat, string)>, offset: nat, o: seq<nat>, rounds: seq<seq<Message>>,
                     summaries: map<nat, string>)
    requires |o| == |rounds|
  {
    && (forall k :: k in blocks && k >= offset ==> k in o)
    && (forall i :: 0 <= i < |o| ==> (o[i] in blocks <==> o[i] in summaries))
    && (forall i :: 0 <= i < |o| && o[i] in blocks && o[i] in summaries ==>
          blocks[o[i]] == (o[i] + |rounds[i]| - 1, summaries[o[i]]))
  }

  predicate BlocksOf(blocks: map<nat, (nat, string)>, offset: nat, rounds: seq<seq<Message>>, summaries: map<nat, string>) {
    BlocksAt(blocks, offset, Offsets(offset, rounds), rounds, summaries)
  }

  /** What `blocks` says of one round: its start is in exactly when it is summarized, no other index of it. */
  predicate BlockAt(blocks: map<nat, (nat, string)>, start: nat, next: nat, summaries: map<nat, string>) {
    && start < next
    && (forall k :: start < k < next ==> k !in blocks)
    && (start in blocks <==> start in summaries)
    && (start in blocks ==> blocks[start] == (next - 1, summaries[start]))
  }

  lemma BlocksOfTail(blocks: map<nat, (nat, string)>, offset: nat, rounds: seq<seq<Message>>, summaries: map<nat, string>)
    requires rounds != [] && forall i :: 0 <= i < |rounds| ==> rounds[i] != []
    requires BlocksOf(blocks, offset, rounds, summaries)
    ensures BlocksOf(blocks, offset + |rounds[0]|, rounds[1..], summaries)
    ensures BlockAt(blocks, offset, offset + |rounds[0]|, summaries)
  {
    var next := offset + |rounds[0]|;
    OffsetsIncrease(next, rounds[1..]);
    BlocksAtTail(blocks, offset, Offsets(next, rounds[1..]), rounds, summaries);
  }

  lemma BlocksAtTail(blocks: map<nat, (nat, string)>, offset: nat, later: seq<nat>, rounds: seq<seq<Message>>,
                     summaries: map<nat, string>)
    requires rounds != [] && rounds[0] != [] && |later| == |rounds| - 1
    requires BlocksAt(blocks, offset, [offset] + later, rounds, summaries)
    requires forall i :: 0 <= i < |later| ==> later[i] >= offset + |rounds[0]|
    ensures BlocksAt(blocks, offset + |rounds[0]|, later, rounds[1..], summaries)
    ensures BlockAt(blocks, offset, offset + |rounds[0]|, summaries)
  {
    var o, next := [offset] + later, offset + |rounds[0]|;
    assert o[0] == offset;
    forall k | k in blocks && k >= offset && k != offset ensures k in later {
      var i :| 0 <= i < |o| && o[i] == k;
      assert later[i - 1] == k;
    }
    forall i | 0 <= i < |later|
      ensures later[i] in blocks <==> later[i] in summaries
      ensures later[i] in blocks && later[i] in summaries ==>
        blocks[later[i]] == (later[i] + |rounds[1..][i]| - 1, summaries[later[i]])
    {
      assert later[i] == o[i + 1] && rounds[1..][i] == rounds[i + 1];
    }
  }

  lemma FirstRound(ms: seq<Message>, offset: nat, rounds: seq<seq<Message>>)
    requires offset <= |ms| && rounds != [] && ms[offset..] == Flatten(rounds)
    ensures offset + |rounds[0]| <= |ms|
    ensures ms[offset..offset + |rounds[0]|] == rounds[0]
    ensures ms[offset + |rounds[0]|..] == Flatten(rounds[1..])
  {
    assert ms[offset..][..|rounds[0]|] == rounds[0];
    assert ms[offset..][|rounds[0]|..] == Flatten(rounds[1..]);
  }

  predicate BlocksAlong(blocks: map<nat, (nat, string)>, offset: nat, rounds: seq<seq<Message>>, summaries: map<nat, string>)
    decreases rounds
  {
    rounds != [] ==>
      && BlockAt(blocks, offset, offset + |rounds[0]|, summaries)
      && BlocksAlong(blocks, offset + |rounds[0]|, rounds[1..], summaries)
  }

  lemma {:induction false} BlocksOfAlong(blocks: map<nat, (nat, string)>, offset: nat, rounds: seq<seq<Message>>,
                                         summaries: map<nat, string>)
    requires forall i :: 0 <= i < |rounds| ==> rounds[i] != []
    requires BlocksOf(blocks, offset, rounds, summaries)
    ensures BlocksAlong(blocks, offset, rounds, summaries)
    decreases rounds
  {
    if rounds != [] {
      BlocksOfTail(blocks, offset, rounds, summaries);
      assert forall i :: 0 <= i < |rounds[1..]| ==> rounds[1..][i] == rounds[i + 1];
      BlocksOfAlong(blocks, offset + |rounds[0]|, rounds[1..], summaries);
    }
  }

  lemma {:induction false} JumpAlong(ms: seq<Message>, offset: nat, rounds: seq<seq<Message>>,
                                     blocks: map<nat, (nat, string)>, summaries: map<nat, string>)
    requires offset <= |ms| && ms[offset..] == Flatten(rounds)
    requires forall k :: k in blocks ==> k <= blocks[k].0
    requires BlocksAlong(blocks, offset, rounds, summaries)
    ensures Jump(ms, offset, blocks) == RewriteRounds(offset, rounds, summaries)
    decreases rounds
  {
    if rounds != [] {
      var next := offset + |rounds[0]|;
      FirstRound(ms, offset, rounds);
      JumpAlong(ms, next, rounds[1..], blocks, summaries);
      JumpOverRound(ms, offset, next, blocks, summaries);
      RewriteHead(offset, rounds, summaries);
    }
  }

  lemma JumpIsRewrite(
      ms: seq<Message>, offset: nat, rounds: seq<seq<Message>>,
      blocks: map<nat, (nat, string)>, summaries: map<nat, string>)
    requires offset <= |ms| && ms[offset..] == Flatten(rounds)
    requires forall i :: 0 <= i < |rounds| ==> rounds[i] != []
    requires forall k :: k in blocks ==> k <= blocks[k].0
    requires BlocksOf(blocks, offset, rounds, summaries)
    ensures Jump(ms, offset, blocks) == RewriteRounds(offset, rounds, summaries)
  {
    BlocksOfAlong(blocks, offset, rounds, summaries);
    JumpAlong(ms, offset, rounds, blocks, summaries);
  }

  lemma RewriteHead(offset: nat, rounds: seq<seq<Message>>, summaries: map<nat, string>)
    requires rounds != []
    ensures RewriteRounds(offset, rounds, summaries) ==
      (if offset in summaries then [SummaryMessage(summaries[offset])] else rounds[0])
      + RewriteRounds(offset + |rounds[0]|, rounds[1..], summaries)
  {}

  lemma JumpOverRound(ms: seq<Message>, offset: nat, next: nat, blocks: map<nat, (nat, string)>, summaries: map<nat, string>)
    requires forall k :: k in blocks ==> k <= blocks[k].0
    requires next <= |ms| && BlockAt(blocks, offset, next, summaries)
    ensures Jump(ms, offset, blocks) ==
      (if offset in summaries then [SummaryMessage(summaries[offset])] else ms[offset..next]) + Jump(ms, next, blocks)
  {
    if offset in summaries {
      JumpSummarized(ms, offset, next, blocks, summaries[offset]);
    } else {
      JumpCopies(ms, offset, next, blocks);
    }
  }

  lemma JumpSummarized(ms: seq<Message>, offset: nat, next: nat, blocks: map<nat, (nat, string)>, summary: string)
    requires forall k :: k in blocks ==> k <= blocks[k].0
    requires offset < next <= |ms| && offset in blocks && blocks[offset] == (next - 1, summary)
    ensures Jump(ms, offset, blocks) == [SummaryMessage(summary)] + Jump(ms, next, blocks)
  {}

  lemma {:induction false} UnprotectedAreOffsets(offset: nat, rounds: seq<seq<Message>>)
    ensures forall s :: s in UnprotectedStarts(offset, rounds) ==> s >= offset && s in Offsets(offset, rounds)
    decreases rounds
  {
    if rounds != [] {
      UnprotectedAreOffsets(offset + |rounds[0]|, rounds[1..]);
    }
  }

  lemma {:induction false} UnprotectedAt(offset: nat, rounds: seq<seq<Message>>, i: nat)
    requires forall k :: 0 <= k < |rounds| ==> rounds[k] != []
    requires i < |rounds|
    ensures Offsets(offset, rounds)[i] in UnprotectedStarts(offset, rounds) <==> !Protected(rounds[i])
    decreases rounds
  {
    var next := offset + |rounds[0]|;
    var o' := Offsets(next, rounds[1..]);
    assert Offsets(offset, rounds) == [offset] + o';
    OffsetsIncrease(next, rounds[1..]);
    UnprotectedAreOffsets(next, rounds[1..]);
    assert offset !in UnprotectedStarts(next, rounds[1..]);
    if i > 0 {
      UnprotectedAt(next, rounds[1..], i - 1);
      assert o'[i - 1] != offset;
      assert Offsets(offset, rounds)[i] == o'[i - 1];
    }
  }

  lemma {:induction false} CollectedKeys(starts: seq<nat>, summarizer: Summarizer, n: nat)
    requires n <= |starts|
    ensures forall s :: s in Collected(starts, summarizer, n) ==> s in starts
  {
    if n > 0 {
      CollectedKeys(starts, summarizer, n - 1);
    }
  }

  lemma {:induction false} OffsetsPrefix(offset: nat, rounds: seq<seq<Message>>, n: nat)
    requires n <= |rounds|
    ensures Offsets(offset, rounds[..n]) == Offsets(offset, rounds)[..n]
    decreases rounds
  {
    if n > 0 {
      assert rounds[..n][1..] == rounds[1..][..n - 1];
      OffsetsPrefix(offset + |rounds[0]|, rounds[1..], n - 1);
    }
  }

  lemma UnprotectedCons(offset: nat, round: seq<Message>, rounds: seq<seq<Message>>)
    ensures UnprotectedStarts(offset, [round] + rounds) ==
      if Protected(round) then UnprotectedStarts(offset + |round|, rounds)
      else [offset] + UnprotectedStarts(offset + |round|, rounds)
  {
    assert ([round] + rounds)[1..] == rounds;
  }

  lemma UnprotectedConsSnoc(offset: nat, first: seq<Message>, some: seq<seq<Message>>, last: seq<Message>, at: nat)
    requires UnprotectedStarts(offset + |first|, some + [last]) ==
      UnprotectedStarts(offset + |first|, some) + if Protected(last) then [] else [at]
    ensures UnprotectedStarts(offset, [first] + (some + [last])) ==
      UnprotectedStarts(offset, [first] + some) + if Protected(last) then [] else [at]
  {
    UnprotectedCons(offset, first, some + [last]);
    UnprotectedCons(offset, first, some);
    if !Protected(first) {
      ConsConcat(offset, UnprotectedStarts(offset + |first|, some), if Protected(last) then [] else [at]);
    }
  }

  lemma {:induction false} UnprotectedSnoc(offset: nat, rounds: seq<seq<Message>>, i: nat)
    requires i < |rounds|
    ensures UnprotectedStarts(offset, rounds[..i + 1]) ==
      UnprotectedStarts(offset, rounds[..i]) + if Protected(rounds[i]) then [] else [Offsets(offset, rounds)[i]]
    decreases rounds
  {
    var first, rest := rounds[0], rounds[1..];
    if i == 0 {
      assert rounds[..1] == [first] + [] && rounds[..0] == [];
      UnprotectedCons(offset, first, []);
    } else {
      var at := Offsets(offset + |first|, rest)[i - 1];
      UnprotectedSnoc(offset + |first|, rest, i - 1);
      PrefixSnoc(rest, i - 1);
      UnprotectedConsSnoc(offset, first, rest[..i - 1], rest[i - 1], at);
      PrefixCons(rounds, i);
      PrefixCons(rounds, i + 1);
      assert Offsets(offset, rounds)[i] == at;
    }
  }

  lemma {:induction false} UnprotectedIncrease(offset: nat, rounds: seq<seq<Message>>)
    requires forall i :: 0 <= i < |rounds| ==> rounds[i] != []
    ensures Increasing(UnprotectedStarts(offset, rounds))
    decreases rounds
  {
    if rounds != [] {
      var next := offset + |rounds[0]|;
      var u' := UnprotectedStarts(next, rounds[1..]);
      UnprotectedIncrease(next, rounds[1..]);
      UnprotectedAreOffsets(next, rounds[1..]);
      assert rounds[0] != [];
      forall i | 0 <= i < |u'| ensures offset < u'[i] {
        assert u'[i] in u';
      }
      var u := UnprotectedStarts(offset, rounds);
      if !Protected(rounds[0]) {
        assert u == [offset] + u';
      }
    }
  }

  /** The spans the loop picked: those of the rounds that begin at `starts`. */
  predicate Picked(picked: seq<(nat, nat)>, spans: seq<(nat, nat)>, starts: seq<nat>) {
    |picked| == |starts| && forall c :: 0 <= c < |picked| ==> picked[c].0 == starts[c] && picked[c] in spans
  }

  lemma SpanIsRound(ms: seq<Message>, spans: seq<(nat, nat)>, i: nat)
    requires SpansOf(ms, spans) && i < |spans|
    ensures spans[i].0 == Offsets(|Split(ms).prefix|, Split(ms).rounds)[i]
    ensures spans[i].0 <= spans[i].1 < |ms| && ms[spans[i].0..spans[i].1 + 1] == Split(ms).rounds[i]
    ensures IsRound(Split(ms).rounds[i])
  {
    assert SpanOf(ms, spans[i], Offsets(|Split(ms).prefix|, Split(ms).rounds)[i], Split(ms).rounds[i]);
  }

  method SpanIsProtected(ms: seq<Message>, spans: seq<(nat, nat)>, i: nat) returns (isProtected: bool)
    requires SpansOf(ms, spans) && i < |spans|
    ensures isProtected == Protected(Split(ms).rounds[i])
  {
    SpanIsRound(ms, spans, i);
    var (start, end) := spans[i];
    ghost var round := Split(ms).rounds[i];
    assert ms[start..end + 1] == round;
    isProtected := RoundHasProtectedContent(ms, start, end);
  }

  /** The spans picked among the first `n` rounds: the unprotected ones. */
  ghost predicate PickedAmong(ms: seq<Message>, spans: seq<(nat, nat)>, n: nat, picked: seq<(nat, nat)>)
    requires n <= |Split(ms).rounds|
  {
    Picked(picked, spans, UnprotectedStarts(|Split(ms).prefix|, Split(ms).rounds[..n]))
  }

  lemma PickStep(ms: seq<Message>, spans: seq<(nat, nat)>, i: nat, picked: seq<(nat, nat)>)
    requires SpansOf(ms, spans) && i < |spans| && PickedAmong(ms, spans, i, picked)
    ensures PickedAmong(ms, spans, i + 1, if Protected(Split(ms).rounds[i]) then picked else picked + [spans[i]])
  {
    var offset, rounds := |Split(ms).prefix|, Split(ms).rounds;
    SpanIsRound(ms, spans, i);
    UnprotectedSnoc(offset, rounds, i);
    PickedSnoc(picked, spans, UnprotectedStarts(offset, rounds[..i]), spans[i]);
  }

  method CompactableSpans(ms: seq<Message>, spans: seq<(nat, nat)>, older: nat) returns (picked: seq<(nat, nat)>)
    requires SpansOf(ms, spans) && older <= |spans|
    ensures PickedAmong(ms, spans, older, picked)
  {
    picked := [];
    for i := 0 to older
      invariant PickedAmong(ms, spans, i, picked)
    {
      var isProtected := SpanIsProtected(ms, spans, i);
      PickStep(ms, spans, i, picked);
      if !isProtected {
        picked := picked + [spans[i]];
      }
    }
  }

  lemma PickedSnoc(picked: seq<(nat, nat)>, spans: seq<(nat, nat)>, starts: seq<nat>, span: (nat, nat))
    requires Picked(picked, spans, starts) && span in spans
    ensures Picked(picked + [span], spans, starts + [span.0])
  {}

  method CompactedByStart(picked: seq<(nat, nat)>, summaries: map<nat, string>) returns (blocks: map<nat, (nat, string)>)
    requires forall i, j :: 0 <= i < j < |picked| ==> picked[i].0 < picked[j].0
    ensures BlocksFor(picked, summaries, blocks)
  {
    blocks := map[];
    for c := 0 to |picked|
      invariant forall k :: k in blocks ==> k in summaries && (k, blocks[k].0) in picked && blocks[k].1 == summaries[k]
      invariant forall d :: 0 <= d < c && picked[d].0 in summaries ==> picked[d].0 in blocks
    {
      var (start, end) := picked[c];
      if start in summaries {
        blocks := blocks[start := (end, summaries[start])];
      }
    }
  }

  /** Every summarized round, with its last index and its summary. */
  predicate BlocksFor(picked: seq<(nat, nat)>, summaries: map<nat, string>, blocks: map<nat, (nat, string)>) {
    && (forall k :: k in blocks ==> k in summaries && (k, blocks[k].0) in picked && blocks[k].1 == summaries[k])
    && (forall p :: p in picked && p.0 in summaries ==> p.0 in blocks)
  }

  lemma SpanEnds(ms: seq<Message>, spans: seq<(nat, nat)>)
    requires SpansOf(ms, spans)
    ensures forall i :: 0 <= i < |spans| ==>
      && Split(ms).rounds[i] != []
      && spans[i].0 == Offsets(|Split(ms).prefix|, Split(ms).rounds)[i]
      && spans[i].1 == spans[i].0 + |Split(ms).rounds[i]| - 1
  {
    var h := Split(ms);
    forall i | 0 <= i < |spans|
      ensures h.rounds[i] != [] && spans[i].0 == Offsets(|h.prefix|, h.rounds)[i]
      ensures spans[i].1 == spans[i].0 + |h.rounds[i]| - 1
    {
      SpanIsRound(ms, spans, i);
      assert |ms[spans[i].0..spans[i].1 + 1]| == |h.rounds[i]|;
    }
  }

  /** `spans` are the spans of rounds that begin at `o`. */
  predicate SpansFit(offset: nat, o: seq<nat>, rounds: seq<seq<Message>>, spans: seq<(nat, nat)>) {
    && |spans| == |rounds| == |o|
    && Increasing(o)
    && forall i :: 0 <= i < |o| ==> |rounds[i]| > 0 && offset <= o[i] && spans[i] == (o[i], o[i] + |rounds[i]| - 1)
  }

  lemma SpansFitRounds(ms: seq<Message>, spans: seq<(nat, nat)>)
    requires SpansOf(ms, spans)
    ensures SpansFit(|Split(ms).prefix|, Offsets(|Split(ms).prefix|, Split(ms).rounds), Split(ms).rounds, spans)
  {
    var offset, rounds := |Split(ms).prefix|, Split(ms).rounds;
    SpanEnds(ms, spans);
    OffsetsIncrease(offset, rounds);
    EndsFit(offset, Offsets(offset, rounds), rounds, spans);
  }

  lemma EndsFit(offset: nat, o: seq<nat>, rounds: seq<seq<Message>>, spans: seq<(nat, nat)>)
    requires |spans| == |rounds| == |o| && Increasing(o) && forall i :: 0 <= i < |o| ==> offset <= o[i]
    requires forall i :: 0 <= i < |o| ==>
      rounds[i] != [] && spans[i].0 == o[i] && spans[i].1 == o[i] + |rounds[i]| - 1
    ensures SpansFit(offset, o, rounds, spans)
  {}

  predicate FitsRound(offset: nat, o: seq<nat>, rounds: seq<seq<Message>>, start: nat, end: nat)
    requires |rounds| == |o|
  {
    && offset <= start <= end
    && start in o
    && forall i :: 0 <= i < |o| && o[i] == start ==> end == o[i] + |rounds[i]| - 1
  }

  lemma BlockFits(offset: nat, o: seq<nat>, rounds: seq<seq<Message>>, spans: seq<(nat, nat)>,
                  picked: seq<(nat, nat)>, starts: seq<nat>, start: nat, end: nat)
    requires SpansFit(offset, o, rounds, spans) && Picked(picked, spans, starts)
    requires (start, end) in picked
    ensures FitsRound(offset, o, rounds, start, end)
  {
    var c :| 0 <= c < |picked| && picked[c] == (start, end);
    var i :| 0 <= i < |spans| && spans[i] == picked[c];
    assert o[i] == start;
  }

  lemma SummaryHasBlock(picked: seq<(nat, nat)>, starts: seq<nat>, summaries: map<nat, string>,
                        blocks: map<nat, (nat, string)>, k: nat)
    requires |picked| == |starts| && forall c :: 0 <= c < |picked| ==> picked[c].0 == starts[c]
    requires k in starts && k in summaries
    requires BlocksFor(picked, summaries, blocks)
    ensures k in blocks
  {
    var c :| 0 <= c < |starts| && starts[c] == k;
    assert picked[c] in picked;
  }

  lemma BlocksAreRounds(offset: nat, o: seq<nat>, rounds: seq<seq<Message>>, spans: seq<(nat, nat)>,
                        picked: seq<(nat, nat)>, starts: seq<nat>, summaries: map<nat, string>,
                        blocks: map<nat, (nat, string)>)
    requires SpansFit(offset, o, rounds, spans)
    requires Picked(picked, spans, starts)
    requires forall k :: k in summaries ==> k in starts
    requires BlocksFor(picked, summaries, blocks)
    ensures forall k :: k in blocks ==> offset <= k <= blocks[k].0
    ensures BlocksAt(blocks, offset, o, rounds, summaries)
  {
    forall k | k in blocks ensures FitsRound(offset, o, rounds, k, blocks[k].0) {
      BlockFits(offset, o, rounds, spans, picked, starts, k, blocks[k].0);
    }
    forall k | k in summaries ensures k in blocks {
      SummaryHasBlock(picked, starts, summaries, blocks, k);
    }
    assert forall k :: k in blocks ==> k in summaries && blocks[k].1 == summaries[k];
    FittingBlocks(offset, o, rounds, summaries, blocks);
  }

  lemma FittingBlocks(offset: nat, o: seq<nat>, rounds: seq<seq<Message>>, summaries: map<nat, string>,
                      blocks: map<nat, (nat, string)>)
    requires |o| == |rounds|
    requires forall k :: k in blocks ==> FitsRound(offset, o, rounds, k, blocks[k].0)
    requires forall k :: k in blocks <==> k in summaries
    requires forall k :: k in blocks ==> blocks[k].1 == summaries[k]
    ensures forall k :: k in blocks ==> offset <= k <= blocks[k].0
    ensures BlocksAt(blocks, offset, o, rounds, summaries)
  {}

  /** The copy loop, which skips over every summarized round. */
  method RewriteTranscript(ms: seq<Message>, blocks: map<nat, (nat, string)>) returns (result: seq<Message>)
    requires forall k :: k in blocks ==> k <= blocks[k].0
    ensures result == Jump(ms, 0, blocks)
  {
    result := [];
    var idx := 0;
    while idx < |ms|
      invariant result + Jump(ms, idx, blocks) == Jump(ms, 0, blocks)
      decreases |ms| - idx
    {
      if idx in blocks {
        var (end, summary) := blocks[idx];
        MoveHead(result, SummaryMessage(summary), Jump(ms, end + 1, blocks));
        result := result + [SummaryMessage(summary)];
        idx := end + 1;
      } else {
        MoveHead(result, ms[idx], Jump(ms, idx + 1, blocks));
        result := result + [ms[idx]];
        idx := idx + 1;
      }
    }
    assert Jump(ms, idx, blocks) == [] && result + [] == result;
  }

  method RewriteSummarized(ms: seq<Message>, spans: seq<(nat, nat)>, picked: seq<(nat, nat)>, starts: seq<nat>,
                           older: nat, summaries: map<nat, string>) returns (result: seq<Message>)
    requires SpansOf(ms, spans) && Picked(picked, spans, starts) && older <= |spans|
    requires starts == UnprotectedStarts(|Split(ms).prefix|, Split(ms).rounds[..older])
    requires forall k :: k in summaries ==> k in starts
    ensures result == Split(ms).prefix + RewriteRounds(|Split(ms).prefix|, Split(ms).rounds, summaries)
  {
    ghost var offset, rounds := |Split(ms).prefix|, Split(ms).rounds;
    assert Increasing(starts) by {
      UnprotectedIncrease(offset, rounds[..older]);
    }
    var blocks := CompactedByStart(picked, summaries);
    SpansFitRounds(ms, spans);
    BlocksAreRounds(offset, Offsets(offset, rounds), rounds, spans, picked, starts, summaries, blocks);
    result := RewriteTranscript(ms, blocks);
    JumpIsCompacted(ms, blocks, summaries);
  }

  /** One compaction pass: the index arithmetic of the code computes the rewrite by rounds. */
  method CompactToolHistoryLlm(ms: seq<Message>, keepRecent: int, summarizer: Summarizer, shrink: Shrinker)
    returns (result: seq<Message>)
    ensures result == Compacted(ms, keepRecent, summarizer, shrink)
  {
    var spans := ToolRoundSpans(ms);
    if |spans| <= keepRecent {
      return ms;
    }
    ghost var offset, rounds := |Split(ms).prefix|, Split(ms).rounds;
    var older := OlderCount(|spans|, keepRecent);
    var picked := CompactableSpans(ms, spans, older);
    ghost var unprotected := UnprotectedStarts(offset, rounds[..older]);
    if picked == [] {
      return ms;
    }
    var starts := seq(|picked|, c requires 0 <= c < |picked| => picked[c].0);
    assert starts == unprotected;
    var summaries := SummarizeInBatches(starts, summarizer);
    if summaries == map[] {
      result := CompactToolHistory(ms, keepRecent, shrink);
      return;
    }
    CollectedKeys(starts, summarizer, |starts|);
    result := RewriteSummarized(ms, spans, picked, starts, older, summaries);
  }

  lemma JumpIsCompacted(ms: seq<Message>, blocks: map<nat, (nat, string)>, summaries: map<nat, string>)
    requires forall k :: k in blocks ==> |Split(ms).prefix| <= k <= blocks[k].0
    requires BlocksOf(blocks, |Split(ms).prefix|, Split(ms).rounds, summaries)
    ensures Jump(ms, 0, blocks) == Split(ms).prefix + RewriteRounds(|Split(ms).prefix|, Split(ms).rounds, summaries)
  {
    var prefix, rounds := Split(ms).prefix, Split(ms).rounds;
    assert forall i :: 0 <= i < |rounds| ==> IsRound(rounds[i]);
    assert ms[|prefix|..] == Flatten(rounds) && ms[0..|prefix|] == prefix;
    JumpCopies(ms, 0, |prefix|, blocks);
    JumpIsRewrite(ms, |prefix|, rounds, blocks, summaries);
  }
}
