/**
  The target of an owner follow-up: the addressable root tasks of a chat, and the rule that code
  delivers only when there is exactly one, leaving every choice to the agent.
 */
module FollowUpTarget {
  import opened Text
  import opened Wrappers

  /** A row of the running or pending table; `inChat` says that the task belongs to the chat. */
  datatype Row = Row(id: string, isDirectChat: bool, isSubagent: bool, inChat: bool)

  /** Snapshot of the direct turn, taken only while it is busy and accepting. */
  datatype DirectRoot = DirectRoot(id: string, inChat: bool)

  datatype Candidate = Candidate(id: string, direct: bool)

  predicate Eligible(row: Row) {
    Strip(row.id) != "" && !row.isDirectChat && !row.isSubagent && row.inChat
  }

  /** The roots in the queue's tables; several rows of one id are one root. */
  function QueueRoots(rows: seq<Row>): set<string> {
    set row | row in rows && Eligible(row) :: Strip(row.id)
  }

  function Roots(rows: seq<Row>, direct: Option<DirectRoot>): set<string> {
    QueueRoots(rows) + if direct.Some? && direct.value.inChat then {direct.value.id} else {}
  }

  /** The roots of a chat: tasks of the tables with an id that belong to it and are neither direct
      turns nor subagents, and the direct turn if it belongs to it. */
  lemma RootsMean(rows: seq<Row>, direct: Option<DirectRoot>, id: string)
    ensures id in Roots(rows, direct) <==>
      || (direct.Some? && direct.value.inChat && direct.value.id == id)
      || (id != "" && exists row :: row in rows && Strip(row.id) == id && row.inChat && !row.isDirectChat && !row.isSubagent)
  {
    forall row | row in rows && Strip(row.id) == id && row.inChat && !row.isDirectChat && !row.isSubagent && id != ""
      ensures id in QueueRoots(rows)
    {
      assert Eligible(row);
    }
  }

  function Ids(candidates: seq<Candidate>): set<string> {
    set c | c in candidates :: c.id
  }

  predicate DistinctIds(candidates: seq<Candidate>) {
    forall i, j :: 0 <= i < j < |candidates| ==> candidates[i].id != candidates[j].id
  }

  method QueueCandidates(rows: seq<Row>, given: seq<Candidate>, given': set<string>)
    returns (candidates: seq<Candidate>, seen: set<string>)
    requires DistinctIds(given) && Ids(given) == given' && forall c :: c in given ==> !c.direct
    ensures DistinctIds(candidates) && Ids(candidates) == seen == given' + QueueRoots(rows)
    ensures forall c :: c in candidates ==> !c.direct
  {
    candidates, seen := given, given';
    for i := 0 to |rows|
      invariant DistinctIds(candidates) && Ids(candidates) == seen == given' + QueueRoots(rows[..i])
      invariant forall c :: c in candidates ==> !c.direct
    {
      assert rows[..i + 1] == rows[..i] + [rows[i]];
      var id := Strip(rows[i].id);
      if id == "" || id in seen {
        continue;
      }
      if rows[i].isDirectChat || rows[i].isSubagent || !rows[i].inChat {
        continue;
      }
      assert forall c :: c in candidates ==> c.id in Ids(candidates);
      candidates := candidates + [Candidate(id, false)];
      seen := seen + {id};
    }
    assert rows[..|rows|] == rows;
  }

  /** Running rows, then pending rows, then the direct turn: each root once, the direct one only
      when no table lists it. */
  method AddressableRootTasks(running: seq<Row>, pending: seq<Row>, direct: Option<DirectRoot>)
    returns (candidates: seq<Candidate>)
    ensures DistinctIds(candidates) && Ids(candidates) == Roots(running + pending, direct)
    ensures forall c :: c in candidates ==> (c.direct <==> c.id !in QueueRoots(running + pending))
  {
    var seen: set<string>;
    candidates, seen := QueueCandidates(running, [], {});
    candidates, seen := QueueCandidates(pending, candidates, seen);
    assert seen == QueueRoots(running + pending);
    assert forall c :: c in candidates ==> c.id in Ids(candidates);
    if direct.Some? && direct.value.id !in seen && direct.value.inChat {
      candidates := candidates + [Candidate(direct.value.id, true)];
    }
  }

  /** Delivery is a transport only when the chat has one root: the target exists exactly then, and
      it goes through the direct lane exactly when the queue does not know it. */
  method SoleTarget(running: seq<Row>, pending: seq<Row>, direct: Option<DirectRoot>) returns (target: Option<Candidate>)
    ensures target.Some? <==> |Roots(running + pending, direct)| == 1
    ensures target.Some? ==> Roots(running + pending, direct) == {target.value.id}
    ensures target.Some? ==> (target.value.direct <==> target.value.id !in QueueRoots(running + pending))
  {
    var steerable := AddressableRootTasks(running, pending, direct);
    CountIds(steerable);
    if |steerable| != 1 {
      return None;
    }
    assert steerable == [steerable[0]];
    return Some(steerable[0]);
  }

  lemma {:induction false} CountIds(candidates: seq<Candidate>)
    requires DistinctIds(candidates)
    ensures |Ids(candidates)| == |candidates|
  {
    if candidates != [] {
      var before, last := candidates[..|candidates| - 1], candidates[|candidates| - 1];
      CountIds(before);
      assert candidates == before + [last];
      assert Ids(candidates) == Ids(before) + {last.id};
      assert last.id !in Ids(before);
    }
  }
}
