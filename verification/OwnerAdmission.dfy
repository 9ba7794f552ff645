/**
  Owner follow-ups to a running task. A router delivers to a direct turn under the agent's
  admission lock, or to a queued task under the queue lock; the turn closes admission and
  drains its mailbox under the same admission lock.
 */
module OwnerAdmission {
  import opened Wrappers

  /** One delivered follow-up. `root` is the task itself in the direct lane, and the root whose
      acceptance fence counts it in the queue lane. */
  datatype Entry = Entry(task: string, root: string, text: string)

  /** The messages of a log for one task, in delivery order. */
  function Box(log: seq<Entry>, task: string): seq<string> {
    if log == [] then []
    else Box(log[..|log| - 1], task) + (if log[|log| - 1].task == task then [log[|log| - 1].text] else [])
  }

  function CountFor(log: seq<Entry>, root: string): nat {
    if log == [] then 0
    else CountFor(log[..|log| - 1], root) + (if log[|log| - 1].root == root then 1 else 0)
  }

  lemma BoxSnoc(log: seq<Entry>, e: Entry)
    ensures forall task :: Box(log + [e], task) == Box(log, task) + (if e.task == task then [e.text] else [])
    ensures forall root :: CountFor(log + [e], root) == CountFor(log, root) + (if e.root == root then 1 else 0)
  {
    assert (log + [e])[..|log|] == log;
  }

  // ---- Lock-level steps ----

  datatype Holder = Free | Held(router: nat)

  /** Where a router stands: before its lane's lock, inside it (holding it, admitted, appended,
      count raised), or done. */
  datatype Stage = Arrived | Holding | Admitted | Appended | Raised | Delivered | Refused

  datatype Router = Router(direct: bool, entry: Entry, stage: Stage)

  predicate Inside(stage: Stage) {
    stage.Holding? || stage.Admitted? || stage.Appended? || stage.Raised?
  }

  /** The message is in the mailbox. */
  predicate Wrote(stage: Stage) {
    stage.Appended? || stage.Raised? || stage.Delivered?
  }

  /** The direct turn: none, running its loop, or past a close-and-drain. `again` says that the
      drain brought new directives, so the turn reopens admission. */
  datatype Turn = NoTurn | Live(task: string) | Closed(task: string, again: bool)

  /** The agent and its admission lock. `drained` counts what the current or last turn of a task
      has read of its mailbox, and `handed` holds what its drains returned, one after the other. */
  datatype Agent = Agent(
    lock: Holder, busy: bool, accepting: bool, current: string, generation: nat,
    turn: Turn, drained: map<string, nat>, handed: map<string, seq<string>>, log: seq<Entry>)

  /** `count` is the fence's owner-message generation; `since` is how many follow-ups its root
      had received when the fence was opened. */
  datatype Fence = Fence(isSealed: bool, count: nat, since: nat)

  /** The supervisor's queue and its lock. */
  datatype Pool = Pool(lock: Holder, queued: set<string>, fences: map<string, Fence>, log: seq<Entry>)

  datatype World = World(agent: Agent, pool: Pool, routers: map<nat, Router>)

  /** `Advance` takes a router one step further in its lane: to the lock if that is free, through
      the check, the append, the raise and the release. */
  datatype Step =
    | Arrive(r: nat, direct: bool, entry: Entry)
    | Advance(r: nat)
    | Fail(r: nat)
    | OpenTurn(task: string, direct: bool) | DrainRound | CloseAndDrain | Reopen | Resume | EndTurn
    | BeginFence(root: string) | EndFence(root: string, revision: bool, expected: Option<nat>) | ClearFence(root: string)
    | Enqueue(task: string) | Dequeue(task: string)

  function DrainedOf(a: Agent, task: string): nat {
    if task in a.drained then a.drained[task] else 0
  }

  function HandedOf(a: Agent, task: string): seq<string> {
    if task in a.handed then a.handed[task] else []
  }

  /** What a drain returns: the mailbox past what the turn has already seen. */
  function Unread(a: Agent, task: string): seq<string> {
    if DrainedOf(a, task) <= |Box(a.log, task)| then Box(a.log, task)[DrainedOf(a, task)..] else []
  }

  function Drained(a: Agent, task: string): Agent {
    a.(drained := a.drained[task := |Box(a.log, task)|], handed := a.handed[task := HandedOf(a, task) + Unread(a, task)])
  }

  predicate FenceSealed(p: Pool, root: string) {
    root in p.fences && p.fences[root].isSealed
  }

  /** The direct lane of `_route_project_chat_to_running_task`. */
  function AdvanceDirect(a: Agent, r: nat, router: Router): (Agent, Stage) {
    match router.stage
    case Arrived => if a.lock.Free? then (a.(lock := Held(r)), Holding) else (a, Arrived)
    case Holding =>
      if a.busy && a.accepting && a.current == router.entry.task then (a, Admitted)
      else (a.(lock := Free), Refused)
    case Admitted => (a.(log := a.log + [router.entry]), Appended)
    case Appended => (a.(generation := a.generation + 1), Raised)
    case Raised => (a.(lock := Free), Delivered)
    case _ => (a, router.stage)
  }

  function RaiseFence(p: Pool, root: string): Pool {
    if root in p.fences && !p.fences[root].isSealed then
      p.(fences := p.fences[root := p.fences[root].(count := p.fences[root].count + 1)])
    else p
  }

  /** The queue lane. */
  function AdvanceQueue(p: Pool, r: nat, router: Router): (Pool, Stage) {
    match router.stage
    case Arrived => if p.lock.Free? then (p.(lock := Held(r)), Holding) else (p, Arrived)
    case Holding =>
      if router.entry.task in p.queued && !FenceSealed(p, router.entry.root) then (p, Admitted)
      else (p.(lock := Free), Refused)
    case Admitted => (p.(log := p.log + [router.entry]), Appended)
    case Appended => (RaiseFence(p, router.entry.root), Raised)
    case Raised => (p.(lock := Free), Delivered)
    case _ => (p, router.stage)
  }

  /** Steps of the turn; each needs the admission lock except a drain between rounds. */
  function TurnStep(a: Agent, e: Step): Agent {
    match e
    case OpenTurn(task, direct) =>
      if a.turn.NoTurn? && a.lock.Free? then
        a.(turn := Live(task), busy := true, current := task, accepting := direct,
           drained := a.drained[task := 0], handed := a.handed[task := []])
      else a
    case DrainRound =>
      if a.turn.Live? then Drained(a, a.turn.task) else a
    case CloseAndDrain =>
      if a.turn.Live? && a.lock.Free? then
        Drained(a, a.turn.task).(accepting := false,
          turn := Closed(a.turn.task, |Box(a.log, a.turn.task)| > DrainedOf(a, a.turn.task)))
      else a
    case Reopen =>
      if a.turn.Closed? && a.turn.again && a.lock.Free? then
        a.(turn := Live(a.turn.task), accepting := a.busy && a.current == a.turn.task)
      else a
    case Resume =>
      // delivery evidence changed: another round, with admission left closed
      if a.turn.Closed? && !a.turn.again then a.(turn := Live(a.turn.task)) else a
    case EndTurn =>
      if !a.turn.NoTurn? && a.lock.Free? then a.(turn := NoTurn, busy := false, accepting := false, current := "")
      else a
    case _ => a
  }

  /** Steps of the supervisor, all under the queue lock. */
  function PoolStep(p: Pool, e: Step): Pool {
    if !p.lock.Free? then p
    else
      match e
      case BeginFence(root) =>
        if root in p.fences then p else p.(fences := p.fences[root := Fence(false, 0, CountFor(p.log, root))])
      case EndFence(root, revision, expected) =>
        if root !in p.fences then p
        else if revision || (expected.Some? && p.fences[root].count != expected.value) then p.(fences := p.fences - {root})
        else p.(fences := p.fences[root := p.fences[root].(isSealed := true)])
      case ClearFence(root) => p.(fences := p.fences - {root})
      case Enqueue(task) => p.(queued := p.queued + {task})
      case Dequeue(task) => p.(queued := p.queued - {task})
      case _ => p
  }

  function Next(w: World, e: Step): World {
    match e
    case Arrive(r, direct, entry) =>
      if r in w.routers then w else w.(routers := w.routers[r := Router(direct, entry, Arrived)])
    case Advance(r) =>
      if r !in w.routers then w
      else if w.routers[r].direct then
        var (a, stage) := AdvanceDirect(w.agent, r, w.routers[r]);
        World(a, w.pool, w.routers[r := w.routers[r].(stage := stage)])
      else
        var (p, stage) := AdvanceQueue(w.pool, r, w.routers[r]);
        World(w.agent, p, w.routers[r := w.routers[r].(stage := stage)])
    case Fail(r) =>
      // staging the attachments raised: the direct lane does that inside its lock
      if r in w.routers && w.routers[r].direct && w.routers[r].stage.Admitted? then
        World(w.agent.(lock := Free), w.pool, w.routers[r := w.routers[r].(stage := Refused)])
      else w
    case _ => World(TurnStep(w.agent, e), PoolStep(w.pool, e), w.routers)
  }

  function Run(w: World, steps: seq<Step>): World
    decreases steps
  {
    if steps == [] then w else Run(Next(w, steps[0]), steps[1..])
  }

  // ---- Invariant ----

  predicate DirectRouterOk(a: Agent, r: nat, router: Router) {
    && (router.direct && Inside(router.stage) <==> a.lock == Held(r))
    && (router.direct && Inside(router.stage) && !router.stage.Holding? ==>
          a.busy && a.accepting && a.current == router.entry.task)
    && (router.direct && Wrote(router.stage) ==> router.entry in a.log)
  }

  predicate QueueRouterOk(p: Pool, r: nat, router: Router) {
    && (!router.direct && Inside(router.stage) <==> p.lock == Held(r))
    && (!router.direct && Inside(router.stage) && !router.stage.Holding? ==>
          router.entry.task in p.queued && !FenceSealed(p, router.entry.root))
    && (!router.direct && Wrote(router.stage) ==> router.entry in p.log)
  }

  predicate RoutersOk(w: World) {
    && (forall r :: r in w.routers ==> DirectRouterOk(w.agent, r, w.routers[r]))
    && (forall r :: r in w.routers ==> QueueRouterOk(w.pool, r, w.routers[r]))
    && (w.agent.lock.Held? ==> w.agent.lock.router in w.routers)
    && (w.pool.lock.Held? ==> w.pool.lock.router in w.routers)
  }

  /** The holder of a lock has appended and not yet raised the count that goes with it. */
  predicate Pending(lock: Holder, routers: map<nat, Router>) {
    lock.Held? && lock.router in routers && routers[lock.router].stage.Appended?
  }

  predicate PendingFor(w: World, root: string) {
    Pending(w.pool.lock, w.routers) && w.routers[w.pool.lock.router].entry.root == root
  }

  predicate TurnOk(a: Agent) {
    match a.turn
    case NoTurn => !a.accepting && !a.busy
    case Live(task) => a.busy && a.current == task
    case Closed(task, _) => a.busy && a.current == task && !a.accepting && DrainedOf(a, task) == |Box(a.log, task)|
  }

  predicate FenceOk(w: World, root: string)
    requires root in w.pool.fences
  {
    w.pool.fences[root].since + w.pool.fences[root].count + (if PendingFor(w, root) then 1 else 0)
      == CountFor(w.pool.log, root)
  }

  predicate CountsOk(w: World) {
    && |w.agent.log| == w.agent.generation + (if Pending(w.agent.lock, w.routers) then 1 else 0)
    && forall root :: root in w.pool.fences ==> FenceOk(w, root)
  }

  predicate Inv(w: World) {
    RoutersOk(w) && TurnOk(w.agent) && CountsOk(w)
  }

  const START := World(
    Agent(Free, false, false, "", 0, NoTurn, map[], map[], []),
    Pool(Free, {}, map[], []),
    map[])

  predicate RouterOk(w: World, q: nat)
    requires q in w.routers
  {
    DirectRouterOk(w.agent, q, w.routers[q]) && QueueRouterOk(w.pool, q, w.routers[q])
  }

  lemma DirectRoutersKept(w: World, r: nat, q: nat)
    requires RoutersOk(w) && r in w.routers && w.routers[r].direct && q in w.routers
    ensures RouterOk(Next(w, Advance(r)), q)
  {
    assert RouterOk(w, r) && RouterOk(w, q);
  }

  lemma DirectTurnKept(w: World, r: nat)
    requires Inv(w) && r in w.routers && w.routers[r].direct
    ensures TurnOk(Next(w, Advance(r)).agent)
  {
    assert RouterOk(w, r);
    if w.routers[r].stage.Admitted? {
      BoxSnoc(w.agent.log, w.routers[r].entry);
    }
  }

  lemma DirectCountsKept(w: World, r: nat)
    requires Inv(w) && r in w.routers && w.routers[r].direct
    ensures CountsOk(Next(w, Advance(r)))
  {
    var w' := Next(w, Advance(r));
    assert RouterOk(w, r);
    assert w'.pool == w.pool;
    forall root | root in w.pool.fences ensures FenceOk(w', root) {
      assert FenceOk(w, root);
      assert w.pool.lock.Held? && w.pool.lock.router in w.routers ==> RouterOk(w, w.pool.lock.router);
      assert PendingFor(w', root) <==> PendingFor(w, root);
    }
  }

  lemma AdvanceDirectOk(w: World, r: nat)
    requires Inv(w) && r in w.routers && w.routers[r].direct
    ensures Inv(Next(w, Advance(r)))
  {
    var w' := Next(w, Advance(r));
    forall q | q in w'.routers ensures RouterOk(w', q) {
      DirectRoutersKept(w, r, q);
    }
    DirectTurnKept(w, r);
    DirectCountsKept(w, r);
  }

  lemma QueueRoutersKept(w: World, r: nat, q: nat)
    requires RoutersOk(w) && r in w.routers && !w.routers[r].direct && q in w.routers
    ensures RouterOk(Next(w, Advance(r)), q)
  {
    assert RouterOk(w, r) && RouterOk(w, q);
  }

  lemma QueueFenceKept(w: World, r: nat, root: string)
    requires Inv(w) && r in w.routers && !w.routers[r].direct && root in Next(w, Advance(r)).pool.fences
    ensures FenceOk(Next(w, Advance(r)), root)
  {
    assert RouterOk(w, r) && FenceOk(w, root);
    if w.routers[r].stage.Admitted? {
      QueueAppendCounts(w, r, root);
    } else if w.routers[r].stage.Appended? {
      QueueRaiseCounts(w, r, root);
    } else {
      var w' := Next(w, Advance(r));
      assert w'.pool.log == w.pool.log && w'.pool.fences == w.pool.fences;
      assert PendingFor(w', root) <==> PendingFor(w, root);
    }
  }

  lemma QueueAppendCounts(w: World, r: nat, root: string)
    requires Inv(w) && r in w.routers && !w.routers[r].direct && w.routers[r].stage.Admitted? && root in w.pool.fences
    ensures FenceOk(Next(w, Advance(r)), root)
  {
    assert RouterOk(w, r) && FenceOk(w, root);
    BoxSnoc(w.pool.log, w.routers[r].entry);
    assert !PendingFor(w, root);
    assert PendingFor(Next(w, Advance(r)), root) <==> w.routers[r].entry.root == root;
  }

  lemma QueueRaiseCounts(w: World, r: nat, root: string)
    requires Inv(w) && r in w.routers && !w.routers[r].direct && w.routers[r].stage.Appended? && root in w.pool.fences
    ensures root in Next(w, Advance(r)).pool.fences && FenceOk(Next(w, Advance(r)), root)
  {
    assert RouterOk(w, r) && FenceOk(w, root);
    assert PendingFor(w, root) <==> w.routers[r].entry.root == root;
    assert !PendingFor(Next(w, Advance(r)), root);
  }

  lemma QueuePendingKept(w: World, r: nat)
    requires RoutersOk(w) && r in w.routers && !w.routers[r].direct
    ensures Pending(Next(w, Advance(r)).agent.lock, Next(w, Advance(r)).routers) <==> Pending(w.agent.lock, w.routers)
  {
    assert RouterOk(w, r);
    assert w.agent.lock.Held? ==> RouterOk(w, w.agent.lock.router);
  }

  lemma AdvanceQueueOk(w: World, r: nat)
    requires Inv(w) && r in w.routers && !w.routers[r].direct
    ensures Inv(Next(w, Advance(r)))
  {
    var w' := Next(w, Advance(r));
    assert w'.agent == w.agent;
    forall q | q in w'.routers ensures RouterOk(w', q) {
      QueueRoutersKept(w, r, q);
    }
    forall root | root in w'.pool.fences ensures FenceOk(w', root) {
      QueueFenceKept(w, r, root);
    }
    QueuePendingKept(w, r);
    assert w'.pool.lock.Held? ==> w'.pool.lock.router in w'.routers;
  }

  lemma FailOk(w: World, r: nat)
    requires Inv(w)
    ensures Inv(Next(w, Fail(r)))
  {
    if r in w.routers && w.routers[r].direct && w.routers[r].stage.Admitted? {
      var w' := Next(w, Fail(r));
      assert DirectRouterOk(w.agent, r, w.routers[r]) && QueueRouterOk(w.pool, r, w.routers[r]);
      forall q | q in w'.routers
        ensures DirectRouterOk(w'.agent, q, w'.routers[q]) && QueueRouterOk(w.pool, q, w'.routers[q])
      {
        assert DirectRouterOk(w.agent, q, w.routers[q]) && QueueRouterOk(w.pool, q, w.routers[q]);
      }
      forall root | root in w.pool.fences ensures FenceOk(w', root) {
        assert FenceOk(w, root);
        assert PendingFor(w', root) <==> PendingFor(w, root);
      }
    }
  }

  lemma ArriveOk(w: World, r: nat, direct: bool, entry: Entry)
    requires Inv(w)
    ensures Inv(Next(w, Arrive(r, direct, entry)))
  {
    var w' := Next(w, Arrive(r, direct, entry));
    assert Pending(w'.agent.lock, w'.routers) <==> Pending(w.agent.lock, w.routers);
    forall root | root in w.pool.fences ensures FenceOk(w', root) {
      assert FenceOk(w, root);
      assert PendingFor(w', root) <==> PendingFor(w, root);
    }
  }

  predicate ByHost(e: Step) {
    !e.Arrive? && !e.Advance? && !e.Fail?
  }

  lemma HostRoutersKept(w: World, e: Step, q: nat)
    requires RoutersOk(w) && ByHost(e) && q in w.routers
    ensures RouterOk(Next(w, e), q)
  {
    assert RouterOk(w, q);
  }

  lemma HostTurnKept(a: Agent, e: Step)
    requires TurnOk(a) && ByHost(e)
    ensures TurnOk(TurnStep(a, e))
    ensures TurnStep(a, e).lock == a.lock && TurnStep(a, e).log == a.log && TurnStep(a, e).generation == a.generation
  {}

  lemma HostFenceKept(w: World, e: Step, root: string)
    requires Inv(w) && ByHost(e) && root in Next(w, e).pool.fences
    ensures FenceOk(Next(w, e), root)
  {
    assert root in w.pool.fences ==> FenceOk(w, root);
    assert Next(w, e).pool.log == w.pool.log && Next(w, e).pool.lock == w.pool.lock;
  }

  lemma HostStepOk(w: World, e: Step)
    requires Inv(w) && ByHost(e)
    ensures Inv(Next(w, e))
  {
    var w' := Next(w, e);
    HostTurnKept(w.agent, e);
    assert w'.pool.lock == w.pool.lock;
    forall q | q in w'.routers ensures RouterOk(w', q) {
      HostRoutersKept(w, e, q);
    }
    forall root | root in w'.pool.fences ensures FenceOk(w', root) {
      HostFenceKept(w, e, root);
    }
  }

  lemma StepKeepsInv(w: World, e: Step)
    requires Inv(w)
    ensures Inv(Next(w, e))
  {
    match e {
      case Arrive(r, direct, entry) => ArriveOk(w, r, direct, entry);
      case Advance(r) =>
        if r in w.routers {
          if w.routers[r].direct {
            AdvanceDirectOk(w, r);
          } else {
            AdvanceQueueOk(w, r);
          }
        }
      case Fail(r) => FailOk(w, r);
      case _ => HostStepOk(w, e);
    }
  }

  lemma {:induction false} RunKeepsInv(w: World, steps: seq<Step>)
    requires Inv(w)
    ensures Inv(Run(w, steps))
    decreases steps
  {
    if steps != [] {
      StepKeepsInv(w, steps[0]);
      RunKeepsInv(Next(w, steps[0]), steps[1..]);
    }
  }

  // ---- What admission promises ----

  /** In every reachable world: a follow-up is appended to a direct turn only while the router
      holds the admission lock and that same turn is accepting; the generation has risen once
      per delivered follow-up whenever the lock is free; a queued task's follow-up is appended
      only under the queue lock, to a live task behind no sealed fence; and no router ever holds
      the two locks together. */
  lemma AdmissionIsSafe(steps: seq<Step>, r: nat)
    ensures var w := Run(START, steps);
      && (w.agent.lock.Free? ==> w.agent.generation == |w.agent.log|)
      && !(w.agent.lock == Held(r) && w.pool.lock == Held(r))
      && (r in w.routers ==>
            && (Next(w, Advance(r)).agent.log != w.agent.log ==>
                  w.agent.lock == Held(r) && w.agent.accepting && w.agent.turn == Live(w.routers[r].entry.task))
            && (Next(w, Advance(r)).pool.log != w.pool.log ==>
                  && w.pool.lock == Held(r)
                  && w.routers[r].entry.task in w.pool.queued
                  && !FenceSealed(w.pool, w.routers[r].entry.root)))
  {
    var w := Run(START, steps);
    RunKeepsInv(START, steps);
    assert r in w.routers ==> DirectRouterOk(w.agent, r, w.routers[r]) && QueueRouterOk(w.pool, r, w.routers[r]);
  }

  /** A fence's generation is the number of follow-ups its root received since it was opened. */
  lemma FenceCountsFollowUps(steps: seq<Step>, root: string)
    ensures var p := Run(START, steps).pool;
      root in p.fences && p.lock.Free? ==> p.fences[root].since + p.fences[root].count == CountFor(p.log, root)
  {
    RunKeepsInv(START, steps);
    assert root in Run(START, steps).pool.fences ==> FenceOk(Run(START, steps), root);
  }

  /** While a fence stays sealed, its root receives nothing. */
  lemma SealedFenceIsQuiet(w: World, e: Step, root: string)
    requires Inv(w) && FenceSealed(w.pool, root)
    ensures CountFor(Next(w, e).pool.log, root) == CountFor(w.pool.log, root)
  {
    if e.Advance? && e.r in w.routers {
      assert QueueRouterOk(w.pool, e.r, w.routers[e.r]);
      BoxSnoc(w.pool.log, w.routers[e.r].entry);
    }
  }

  /** Opening, revising and ending fences, when the queue lock is free: a new fence is open, counts
      from zero, and leaves an existing one alone; a revision removes the fence. */
  lemma FenceSteps(w: World, root: string, expected: Option<nat>)
    requires w.pool.lock.Free?
    ensures var f := Next(w, BeginFence(root)).pool.fences;
      root in f && (if root in w.pool.fences then f == w.pool.fences else !f[root].isSealed && f[root].count == 0)
    ensures root !in Next(w, EndFence(root, true, expected)).pool.fences
    ensures root in w.pool.fences ==>
      root in Next(w, EndFence(root, false, None)).pool.fences && FenceSealed(Next(w, EndFence(root, false, None)).pool, root)
  {}

  /** The step takes a root's fence away: a revision, an end with another generation, or the end of
      the root itself. */
  predicate Releases(w: World, e: Step, root: string) {
    && w.pool.lock.Free? && root in w.pool.fences
    && match e
       case EndFence(r, revision, expected) =>
         r == root && (revision || (expected.Some? && w.pool.fences[root].count != expected.value))
       case ClearFence(r) => r == root
       case _ => false
  }

  predicate NeverReleases(w: World, steps: seq<Step>, root: string)
    decreases steps
  {
    steps != [] ==> !Releases(w, steps[0], root) && NeverReleases(Next(w, steps[0]), steps[1..], root)
  }

  lemma SealLasts(w: World, e: Step, root: string)
    requires FenceSealed(w.pool, root)
    ensures FenceSealed(Next(w, e).pool, root) <==> !Releases(w, e, root)
  {}

  lemma {:induction false} SealedRunIsQuiet(w: World, steps: seq<Step>, root: string)
    requires Inv(w) && FenceSealed(w.pool, root) && NeverReleases(w, steps, root)
    ensures FenceSealed(Run(w, steps).pool, root)
    ensures CountFor(Run(w, steps).pool.log, root) == CountFor(w.pool.log, root)
    decreases steps
  {
    if steps != [] {
      SealLasts(w, steps[0], root);
      SealedFenceIsQuiet(w, steps[0], root);
      StepKeepsInv(w, steps[0]);
      SealedRunIsQuiet(Next(w, steps[0]), steps[1..], root);
    }
  }

  /** Sealing with an inspected generation misses nothing. After any run, ending an open root's fence
      with the generation `g` seals it if and only if exactly `g` follow-ups came since the fence was
      opened; and from then on, over any further run that does not release it, none is added. */
  lemma SealMissesNone(steps: seq<Step>, root: string, g: nat, later: seq<Step>)
    requires root in Run(START, steps).pool.fences && Run(START, steps).pool.lock.Free?
    ensures var w := Run(START, steps); var w' := Next(w, EndFence(root, false, Some(g)));
      && (FenceSealed(w'.pool, root) <==> CountFor(w.pool.log, root) == w.pool.fences[root].since + g)
      && (FenceSealed(w'.pool, root) && NeverReleases(w', later, root) ==>
            CountFor(Run(w', later).pool.log, root) == w.pool.fences[root].since + g)
  {
    var w := Run(START, steps);
    var w' := Next(w, EndFence(root, false, Some(g)));
    RunKeepsInv(START, steps);
    assert FenceOk(w, root);
    if FenceSealed(w'.pool, root) && NeverReleases(w', later, root) {
      StepKeepsInv(w, EndFence(root, false, Some(g)));
      SealedRunIsQuiet(w', later, root);
    }
  }

  // ---- Nothing is stranded ----

  /** The task is running its loop, or everything delivered to it has been drained. */
  predicate Settled(a: Agent, task: string) {
    a.turn == Live(task) || DrainedOf(a, task) == |Box(a.log, task)|
  }

  /** The turn ends from its running loop, without the closing drain, over a mailbox that holds
      more than the loop has drained. */
  predicate Strands(w: World, e: Step) {
    && e.EndTurn? && w.agent.turn.Live? && w.agent.lock.Free?
    && DrainedOf(w.agent, w.agent.turn.task) != |Box(w.agent.log, w.agent.turn.task)|
  }

  lemma AdvanceSettles(w: World, r: nat, task: string)
    requires Inv(w) && Settled(w.agent, task)
    ensures Settled(Next(w, Advance(r)).agent, task)
  {
    if r in w.routers && w.routers[r].direct {
      assert RouterOk(w, r);
      BoxSnoc(w.agent.log, w.routers[r].entry);
    }
  }

  lemma TurnSettles(a: Agent, e: Step, task: string)
    requires TurnOk(a) && Settled(a, task) && ByHost(e)
    ensures Settled(TurnStep(a, e), task) <==>
      !(e.EndTurn? && a.turn == Live(task) && a.lock.Free? && DrainedOf(a, task) != |Box(a.log, task)|)
  {}

  /** A step strands a task exactly when it ends that task's turn in this way. */
  lemma StepSettles(w: World, e: Step, task: string)
    requires Inv(w) && Settled(w.agent, task)
    ensures Settled(Next(w, e).agent, task) <==> !(Strands(w, e) && w.agent.turn == Live(task))
  {
    if e.Advance? {
      AdvanceSettles(w, e.r, task);
    } else if ByHost(e) {
      TurnSettles(w.agent, e, task);
    }
  }

  predicate NeverStrands(w: World, steps: seq<Step>)
    decreases steps
  {
    steps != [] ==> !Strands(w, steps[0]) && NeverStrands(Next(w, steps[0]), steps[1..])
  }

  lemma {:induction false} RunSettles(w: World, steps: seq<Step>, task: string)
    requires Inv(w) && NeverStrands(w, steps) && Settled(w.agent, task)
    ensures Settled(Run(w, steps).agent, task)
    decreases steps
  {
    if steps != [] {
      StepSettles(w, steps[0], task);
      StepKeepsInv(w, steps[0]);
      RunSettles(Next(w, steps[0]), steps[1..], task);
    }
  }

  /** The other half over runs: a run that strands has, at that step, a task that was settled
      before and is not after, and whose turn is over. */
  lemma {:induction false} StrandingRun(w: World, steps: seq<Step>) returns (n: nat)
    requires Inv(w) && !NeverStrands(w, steps) && forall task :: Settled(w.agent, task)
    ensures n < |steps| && Strands(Run(w, steps[..n]), steps[n])
    ensures var before := Run(w, steps[..n]); var task := before.agent.turn.task;
      && Settled(before.agent, task)
      && !Settled(Next(before, steps[n]).agent, task) && Next(before, steps[n]).agent.turn.NoTurn?
    decreases steps
  {
    if Strands(w, steps[0]) {
      n := 0;
      assert steps[..0] == [];
      StepSettles(w, steps[0], w.agent.turn.task);
    } else {
      forall task ensures Settled(Next(w, steps[0]).agent, task) {
        StepSettles(w, steps[0], task);
      }
      StepKeepsInv(w, steps[0]);
      var m := StrandingRun(Next(w, steps[0]), steps[1..]);
      n := m + 1;
      assert steps[..n][1..] == steps[1..][..m];
    }
  }

  lemma {:induction false} InBox(log: seq<Entry>, e: Entry)
    requires e in log
    ensures e.text in Box(log, e.task)
  {
    if log[|log| - 1] != e {
      assert e in log[..|log| - 1];
      InBox(log[..|log| - 1], e);
    }
  }

  /** What the drains of a task's turn handed over is the mailbox as far as it was drained. */
  predicate HandedOk(a: Agent, task: string) {
    DrainedOf(a, task) <= |Box(a.log, task)| && HandedOf(a, task) == Box(a.log, task)[..DrainedOf(a, task)]
  }

  lemma DrainHands(a: Agent, task: string)
    requires HandedOk(a, task)
    ensures HandedOf(Drained(a, task), task) == Box(a.log, task) && HandedOk(Drained(a, task), task)
  {
    var box := Box(a.log, task);
    assert box[..DrainedOf(a, task)] + box[DrainedOf(a, task)..] == box && box[..|box|] == box;
  }

  lemma AppendKeepsHanded(a: Agent, e: Entry, task: string)
    requires HandedOk(a, task)
    ensures HandedOk(a.(log := a.log + [e]), task)
  {
    BoxSnoc(a.log, e);
    var a' := a.(log := a.log + [e]);
    assert DrainedOf(a', task) == DrainedOf(a, task) && HandedOf(a', task) == HandedOf(a, task);
    assert Box(a'.log, task)[..DrainedOf(a, task)] == Box(a.log, task)[..DrainedOf(a, task)];
  }

  lemma HandedDepends(a: Agent, a': Agent, task: string)
    requires HandedOk(a, task) && a'.log == a.log && a'.drained == a.drained && a'.handed == a.handed
    ensures HandedOk(a', task)
  {}

  lemma DrainKeepsHanded(a: Agent, of: string, task: string)
    requires HandedOk(a, task)
    ensures HandedOk(Drained(a, of), task)
  {
    if of == task {
      DrainHands(a, task);
    } else {
      assert DrainedOf(Drained(a, of), task) == DrainedOf(a, task) && HandedOf(Drained(a, of), task) == HandedOf(a, task);
    }
  }

  lemma OpenKeepsHanded(a: Agent, of: string, direct: bool, task: string)
    requires HandedOk(a, task)
    ensures HandedOk(TurnStep(a, OpenTurn(of, direct)), task)
  {
    assert Box(a.log, task)[..0] == [];
  }

  lemma TurnKeepsHanded(a: Agent, e: Step, task: string)
    requires HandedOk(a, task)
    ensures HandedOk(TurnStep(a, e), task)
  {
    if e.OpenTurn? {
      OpenKeepsHanded(a, e.task, e.direct, task);
    } else if TurnStep(a, e).drained == a.drained && TurnStep(a, e).handed == a.handed {
      HandedDepends(a, TurnStep(a, e), task);
    } else {
      DrainKeepsHanded(a, a.turn.task, task);
      HandedDepends(Drained(a, a.turn.task), TurnStep(a, e), task);
    }
  }

  lemma RouterKeepsRecord(a: Agent, r: nat, router: Router)
    ensures var a' := AdvanceDirect(a, r, router).0; a'.drained == a.drained && a'.handed == a.handed
  {}

  lemma RouterKeepsLog(a: Agent, r: nat, router: Router)
    ensures AdvanceDirect(a, r, router).0.log == if router.stage.Admitted? then a.log + [router.entry] else a.log
  {}

  lemma RouterKeepsHanded(a: Agent, r: nat, router: Router, task: string)
    requires HandedOk(a, task)
    ensures HandedOk(AdvanceDirect(a, r, router).0, task)
  {
    var a' := AdvanceDirect(a, r, router).0;
    RouterKeepsRecord(a, r, router);
    RouterKeepsLog(a, r, router);
    if !router.stage.Admitted? {
      HandedDepends(a, a', task);
    } else {
      AppendKeepsHanded(a, router.entry, task);
      HandedDepends(a.(log := a.log + [router.entry]), a', task);
    }
  }

  lemma StepKeepsHanded(w: World, e: Step, task: string)
    requires HandedOk(w.agent, task)
    ensures HandedOk(Next(w, e).agent, task)
  {
    if e.Advance? {
      if e.r in w.routers && w.routers[e.r].direct {
        RouterKeepsHanded(w.agent, e.r, w.routers[e.r], task);
      }
    } else if ByHost(e) {
      TurnKeepsHanded(w.agent, e, task);
    }
  }

  lemma {:induction false} RunKeepsHanded(w: World, steps: seq<Step>, task: string)
    requires HandedOk(w.agent, task)
    ensures HandedOk(Run(w, steps).agent, task)
    decreases steps
  {
    if steps != [] {
      StepKeepsHanded(w, steps[0], task);
      RunKeepsHanded(Next(w, steps[0]), steps[1..], task);
    }
  }

  lemma LogsGrow(w: World, r: nat)
    requires r in w.routers
    ensures var a, p := Next(w, Advance(r)).agent.log, Next(w, Advance(r)).pool.log; var more := [w.routers[r].entry];
      || (a == w.agent.log && p == w.pool.log)
      || (a == w.agent.log + more && p == w.pool.log)
      || (a == w.agent.log && p == w.pool.log + more)
  {}

  lemma LogsStay(w: World, e: Step)
    requires e.Advance? ==> e.r !in w.routers
    ensures Next(w, e).agent.log == w.agent.log && Next(w, e).pool.log == w.pool.log
  {}

  /** Mailboxes are append-only: a step leaves each as it was or puts one follow-up at its end. */
  lemma MailboxesGrow(w: World, e: Step, task: string)
    ensures Box(w.agent.log, task) <= Box(Next(w, e).agent.log, task)
    ensures Box(w.pool.log, task) <= Box(Next(w, e).pool.log, task)
    ensures |Box(Next(w, e).agent.log, task)| + |Box(Next(w, e).pool.log, task)|
         <= |Box(w.agent.log, task)| + |Box(w.pool.log, task)| + 1
  {
    if e.Advance? && e.r in w.routers {
      LogsGrow(w, e.r);
      BoxSnoc(w.agent.log, w.routers[e.r].entry);
      BoxSnoc(w.pool.log, w.routers[e.r].entry);
    } else {
      LogsStay(w, e);
    }
  }

  /** In every reachable world, what the drains of a task's turn returned, one after the other, is an
      initial part of its mailbox: no drain skips, repeats or reorders a follow-up. */
  lemma DrainsReadInOrder(steps: seq<Step>, task: string)
    ensures var a := Run(START, steps).agent;
      DrainedOf(a, task) <= |Box(a.log, task)| && HandedOf(a, task) == Box(a.log, task)[..DrainedOf(a, task)]
  {
    RunKeepsHanded(START, steps, task);
  }

  /** When no turn ends over an undrained mailbox, then in every reachable world a delivered
      follow-up is in its task's mailbox, and unless that task's loop is still running its drains
      have handed over exactly the whole mailbox, in order: never silently stranded. */
  lemma DeliveredIsDrained(steps: seq<Step>, r: nat)
    requires NeverStrands(START, steps)
    ensures var w := Run(START, steps);
      r in w.routers && w.routers[r].direct && w.routers[r].stage.Delivered? ==>
        var e := w.routers[r].entry;
        && e in w.agent.log && e.text in Box(w.agent.log, e.task)
        && (w.agent.turn != Live(e.task) ==> HandedOf(w.agent, e.task) == Box(w.agent.log, e.task))
  {
    var w := Run(START, steps);
    RunKeepsInv(START, steps);
    if r in w.routers && w.routers[r].direct && w.routers[r].stage.Delivered? {
      assert DirectRouterOk(w.agent, r, w.routers[r]);
      var task := w.routers[r].entry.task;
      RunSettles(START, steps, task);
      RunKeepsHanded(START, steps, task);
      InBox(w.agent.log, w.routers[r].entry);
      assert Box(w.agent.log, task)[..|Box(w.agent.log, task)|] == Box(w.agent.log, task);
    }
  }

  /** A turn that fails right after a delivery. */
  const STRANDING := [OpenTurn("t", true), Arrive(0, true, Entry("t", "t", "stop")),
    Advance(0), Advance(0), Advance(0), Advance(0), Advance(0), EndTurn]

  const STOP := Entry("t", "t", "stop")

  function StopArrives(): World {
    Next(Next(START, OpenTurn("t", true)), Arrive(0, true, STOP))
  }

  lemma StopIsDelivered()
    ensures var w := Alone(StopArrives(), 0, 5);
      && w.agent == Agent(Free, true, true, "t", 1, Live("t"), map["t" := 0], map["t" := []], [STOP])
      && 0 in w.routers && w.routers[0].stage.Delivered?
  {
    assert StopArrives().agent == Agent(Free, true, true, "t", 0, Live("t"), map["t" := 0], map["t" := []], []);
    RouteIsFiveSteps(StopArrives(), 0);
    assert [] + [STOP] == [STOP];
  }

  lemma StrandingRuns()
    ensures Run(START, STRANDING) == Next(Alone(StopArrives(), 0, 5), EndTurn)
  {
    var start := [OpenTurn("t", true), Arrive(0, true, STOP)];
    RunTwo(START, OpenTurn("t", true), Arrive(0, true, STOP));
    AloneIsRun(StopArrives(), 0, 5);
    RunConcat(START, start, Advances(0, 5));
    RunConcat(START, start + Advances(0, 5), [EndTurn]);
    assert Advances(0, 5) == [Advance(0), Advance(0), Advance(0), Advance(0), Advance(0)];
    assert STRANDING == start + Advances(0, 5) + [EndTurn];
    RunOne(Alone(StopArrives(), 0, 5), EndTurn);
  }

  /** The admission promise fails of the code: here a follow-up is delivered, the turn is over, and
      nobody has drained it. */
  lemma StrandedFollowUp()
    ensures var w := Run(START, STRANDING);
      && 0 in w.routers && w.routers[0].stage.Delivered?
      && w.agent.turn.NoTurn? && Box(w.agent.log, "t") == ["stop"] && DrainedOf(w.agent, "t") == 0
      && !Settled(w.agent, "t")
  {
    StrandingRuns();
    StopIsDelivered();
    BoxSnoc([], STOP);
    assert [] + [STOP] == [STOP] && Box([STOP], "t") == ["stop"];
  }

  lemma RunOne(w: World, e: Step)
    ensures Run(w, [e]) == Next(w, e)
  {
    assert [e][1..] == [];
  }

  function Advances(r: nat, n: nat): seq<Step> {
    seq(n, _ => Advance(r))
  }

  lemma {:induction false} AloneIsRun(w: World, r: nat, n: nat)
    ensures Run(w, Advances(r, n)) == Alone(w, r, n)
    decreases n
  {
    if n > 0 {
      assert Advances(r, n)[1..] == Advances(r, n - 1);
      AloneIsRun(Next(w, Advance(r)), r, n - 1);
    }
  }

  lemma RunTwo(w: World, a: Step, b: Step)
    ensures Run(w, [a, b]) == Next(Next(w, a), b)
  {
    assert [a, b][1..] == [b] && [b][1..] == [];
    assert Run(w, [a, b]) == Run(Next(w, a), [b]);
  }

  lemma {:induction false} RunConcat(w: World, a: seq<Step>, b: seq<Step>)
    ensures Run(w, a + b) == Run(Run(w, a), b)
    decreases a
  {
    if a == [] {
      assert a + b == b;
    } else {
      assert (a + b)[1..] == a[1..] + b;
      RunConcat(Next(w, a[0]), a[1..], b);
    }
  }

  /** A refused follow-up never reached a mailbox on its router's account: the router left its
      lane's lock before any append, and it stays refused. */
  lemma RefusedIsFinal(w: World, e: Step, r: nat)
    requires Inv(w) && r in w.routers
    ensures r in Next(w, e).routers
    ensures w.routers[r].stage.Refused? ==> Next(w, e).routers[r] == w.routers[r]
    ensures Next(w, e).routers[r].stage.Refused? && !w.routers[r].stage.Refused? ==>
      !Wrote(w.routers[r].stage) && Next(w, e).agent.log == w.agent.log && Next(w, e).pool.log == w.pool.log
  {}

  // ---- The critical sections as code ----

  /** What one undisturbed pass through the direct lane does to the agent. */
  function Routed(a: Agent, e: Entry): Agent {
    if a.busy && a.accepting && a.current == e.task then a.(log := a.log + [e], generation := a.generation + 1) else a
  }

  lemma ClosingSteps(a: Agent)
    requires a.lock.Free? && a.turn.Live? && TurnOk(a) && DrainedOf(a, a.turn.task) <= |Box(a.log, a.turn.task)|
    ensures var task := a.turn.task; var box := Box(a.log, task); var more := box[DrainedOf(a, task)..];
      var a' := a.(drained := a.drained[task := |box|], handed := a.handed[task := HandedOf(a, task) + more]);
      && TurnStep(a, CloseAndDrain) == a'.(accepting := false, turn := Closed(task, more != []))
      && (more != [] ==> TurnStep(TurnStep(a, CloseAndDrain), Reopen) == a'.(accepting := true, turn := Live(task)))
  {}

  /** The agent's fields between critical sections, when its admission lock is free. */
  class DirectAgent {
    var busy: bool
    var accepting: bool
    var current: string
    var generation: nat
    var turn: Turn
    var drained: map<string, nat>
    var handed: map<string, seq<string>>
    var log: seq<Entry>

    ghost function Value(): Agent
      reads this
    {
      Agent(Free, busy, accepting, current, generation, turn, drained, handed, log)
    }

    constructor ()
      ensures Value() == START.agent
    {
      busy, accepting, current, generation, turn := false, false, "", 0, NoTurn;
      drained, handed, log := map[], map[], [];
    }

    /** The router's section: check, append, raise the generation. */
    method RouteDirect(e: Entry) returns (delivered: bool)
      modifies this
      ensures delivered == (old(busy) && old(accepting) && old(current) == e.task)
      ensures Value() == Routed(old(Value()), e)
      ensures delivered ==> log == old(log) + [e] && generation == old(generation) + 1
      ensures !delivered ==> Value() == old(Value())
    {
      if !(busy && accepting && current == e.task) {
        return false;
      }
      log := log + [e];
      generation := generation + 1;
      return true;
    }

    method BeginTurn(task: string, direct: bool)
      requires turn.NoTurn?
      modifies this
      ensures Value() == TurnStep(old(Value()), OpenTurn(task, direct))
      ensures busy && current == task && accepting == direct && turn == Live(task) && HandedOf(Value(), task) == []
    {
      busy := true;
      current := task;
      accepting := direct;
      drained, handed := drained[task := 0], handed[task := []];
      turn := Live(task);
    }

    /** Closes admission and reads the mailbox past what the turn has already seen; when that
        brings anything, admission reopens for the same turn. */
    method CloseDrainReopen() returns (directives: seq<string>)
      requires turn.Live? && TurnOk(Value()) && DrainedOf(Value(), turn.task) <= |Box(log, turn.task)|
      modifies this
      ensures directives == old(Box(log, turn.task)[DrainedOf(Value(), turn.task)..])
      ensures HandedOf(Value(), old(turn.task)) == old(HandedOf(Value(), turn.task)) + directives
      ensures log == old(log)
      ensures directives == [] ==> Value() == TurnStep(old(Value()), CloseAndDrain) && !accepting
      ensures directives != [] ==> Value() == TurnStep(TurnStep(old(Value()), CloseAndDrain), Reopen) && accepting
    {
      ClosingSteps(Value());
      var task := turn.task;
      var seen := if task in drained then drained[task] else 0;
      accepting := false;
      var mailbox := Box(log, task);
      directives := mailbox[seen..];
      drained := drained[task := |mailbox|];
      handed := handed[task := (if task in handed then handed[task] else []) + directives];
      turn := Closed(task, |directives| > 0);
      if |directives| > 0 {
        if busy && current == task {
          accepting := true;
        }
        turn := Live(task);
      }
    }

    method FinishTurn()
      requires !turn.NoTurn?
      modifies this
      ensures Value() == TurnStep(old(Value()), EndTurn)
      ensures !busy && !accepting && current == "" && turn.NoTurn? && log == old(log)
    {
      accepting := false;
      busy := false;
      current := "";
      turn := NoTurn;
    }
  }

  /** `n` undisturbed steps of one router. */
  function Alone(w: World, r: nat, n: nat): World
    decreases n
  {
    if n == 0 then w else Alone(Next(w, Advance(r)), r, n - 1)
  }

  /** The router's section is what five undisturbed steps of its lane do. */
  lemma RouteIsFiveSteps(w: World, r: nat)
    requires r in w.routers && w.routers[r].direct && w.routers[r].stage.Arrived? && w.agent.lock.Free?
    ensures Alone(w, r, 5).agent == Routed(w.agent, w.routers[r].entry)
    ensures r in Alone(w, r, 5).routers
    ensures Alone(w, r, 5).routers[r].stage.Delivered? <==>
      w.agent.busy && w.agent.accepting && w.agent.current == w.routers[r].entry.task
  {
    var w1 := Next(w, Advance(r));
    var w2 := Next(w1, Advance(r));
    var w3 := Next(w2, Advance(r));
    var w4 := Next(w3, Advance(r));
    var w5 := Next(w4, Advance(r));
    assert Alone(w3, r, 2) == Alone(w4, r, 1) == w5;
    assert Alone(w, r, 5) == Alone(w1, r, 4) == Alone(w2, r, 3) == Alone(w3, r, 2);
  }
}
