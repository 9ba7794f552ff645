/**
  A restart requested while tasks run is deferred: the supervisor loop rechecks it at every
  tick and starts no new work until the restart has been attempted.
 */
module RestartDrain {
  import opened Wrappers

  const HEARTBEAT_STALE_SEC: real := 120.0
  const MAX_DRAIN_SEC: int := 1800

  /** Ids of running tasks, each with the time of its last heartbeat (0 when it has none). */
  type Heartbeats = map<string, real>

  function LiveTasks(running: Heartbeats, now: real): set<string> {
    set t | t in running && running[t] != 0.0 && now - running[t] < HEARTBEAT_STALE_SEC
  }

  /** A recorded deferral: when it was recorded, and until when it may wait. */
  datatype Deferral = Deferral(since: real, deadline: real)

  /** A restart request as handled: the clock and the running tasks at that moment, the
      configured longest wait, and whether a restart attempted there would go through. */
  datatype Request = Request(now: real, running: Heartbeats, maxWait: int, allowed: bool)

  /** One pass of the loop. A pass may raise anywhere: before it reaches the drain check or in the
      check itself (a crashed tick), in the restart it attempts (not `allowed`), or after the check
      and before tasks are assigned (not `assigns`). */
  datatype Tick =
    | Tick(requests: seq<Request>, now: real, running: Heartbeats, allowed: bool, assigns: bool)
    | CrashedTick(requests: seq<Request>)

  datatype State = State(pending: Option<Deferral>, exiting: bool, attempts: nat, assignments: nat)

  predicate Defers(q: Request) {
    q.maxWait > 0 && LiveTasks(q.running, q.now) != {}
  }

  function DeferralOf(q: Request): Deferral {
    Deferral(q.now, q.now + (if q.maxWait < MAX_DRAIN_SEC then q.maxWait else MAX_DRAIN_SEC) as real)
  }

  function Attempted(s: State, allowed: bool): State {
    s.(attempts := s.attempts + 1, exiting := s.exiting || allowed)
  }

  function Handled(s: State, q: Request): State {
    if Defers(q) then s.(pending := Some(DeferralOf(q))) else Attempted(s, q.allowed)
  }

  function AllHandled(s: State, requests: seq<Request>): State {
    if requests == [] then s else Handled(AllHandled(s, requests[..|requests| - 1]), requests[|requests| - 1])
  }

  /** The deferral is over: no live task, or past the deadline. */
  predicate Due(d: Deferral, now: real, running: Heartbeats) {
    LiveTasks(running, now) == {} || now >= d.deadline
  }

  /** What a pass does from its drain check on. */
  function Checked(s: State, now: real, running: Heartbeats, allowed: bool, assigns: bool): State {
    if s.pending.None? then (if assigns then s.(assignments := s.assignments + 1) else s)
    else if Due(s.pending.value, now, running) then Attempted(s.(pending := None), allowed)
    else s
  }

  function Ticked(s: State, t: Tick): State {
    if s.exiting then s
    else
      var after := AllHandled(s, t.requests);
      if t.CrashedTick? || after.exiting then after else Checked(after, t.now, t.running, t.allowed, t.assigns)
  }

  function Run(s: State, ticks: seq<Tick>): State
    decreases ticks
  {
    if ticks == [] then s else Run(Ticked(s, ticks[0]), ticks[1..])
  }

  class Supervisor {
    var pendingRestart: Option<Deferral>
    var restartRequested: bool
    var attempts: nat
    var assignments: nat

    ghost function Value(): State
      reads this
    {
      State(pendingRestart, restartRequested, attempts, assignments)
    }

    constructor ()
      ensures Value() == State(None, false, 0, 0)
    {
      pendingRestart, restartRequested, attempts, assignments := None, false, 0, 0;
    }

    method PerformRestart(allowed: bool)
      modifies this`attempts, this`restartRequested
      ensures Value() == Attempted(old(Value()), allowed)
    {
      attempts := attempts + 1;
      if !allowed {
        return;
      }
      restartRequested := true;
    }

    method HandleRestart(q: Request)
      modifies this
      ensures Value() == Handled(old(Value()), q)
    {
      var live := if q.maxWait > 0 then LiveTasks(q.running, q.now) else {};
      if live != {} {
        var wait := if q.maxWait < MAX_DRAIN_SEC then q.maxWait else MAX_DRAIN_SEC;
        pendingRestart := Some(Deferral(q.now, q.now + wait as real));
        return;
      }
      PerformRestart(q.allowed);
    }

    method CheckPendingRestartDrain(now: real, running: Heartbeats, allowed: bool) returns (draining: bool)
      modifies this
      ensures draining == old(pendingRestart).Some?
      ensures Value() == if draining then Checked(old(Value()), now, running, allowed, false) else old(Value())
    {
      if pendingRestart.None? {
        return false;
      }
      var live := LiveTasks(running, now);
      if live != {} && now < pendingRestart.value.deadline {
        return true;
      }
      pendingRestart := None;
      PerformRestart(allowed);
      return true;
    }

    /** One pass of the supervisor loop. */
    method LoopTick(t: Tick)
      modifies this
      ensures Value() == Ticked(old(Value()), t)
    {
      if restartRequested {
        return;
      }
      for i := 0 to |t.requests|
        invariant Value() == AllHandled(old(Value()), t.requests[..i])
      {
        assert t.requests[..i + 1][..i] == t.requests[..i];
        HandleRestart(t.requests[i]);
      }
      assert t.requests[..|t.requests|] == t.requests;
      if t.CrashedTick? || restartRequested {
        return;
      }
      var draining := CheckPendingRestartDrain(t.now, t.running, t.allowed);
      if !draining && t.assigns {
        assignments := assignments + 1;
      }
    }
  }

  // ---- What a request and a plain pass do ----

  /** A task is live while its last heartbeat is less than two minutes old. */
  predicate Alive(running: Heartbeats, now: real) {
    exists t :: t in running && running[t] != 0.0 && now - running[t] < 120.0
  }

  /** A request is deferred exactly when a wait is configured and a task is live; it may then wait as
      long as configured, but no longer than half an hour. Otherwise the restart is attempted at once,
      and the loop ends exactly when that succeeds. */
  lemma RequestDecides(s: State, q: Request)
    ensures q.maxWait > 0 && Alive(q.running, q.now) ==>
      var wait := if q.maxWait <= 1800 then q.maxWait as real else 1800.0;
      Handled(s, q) == s.(pending := Some(Deferral(q.now, q.now + wait)))
    ensures !(q.maxWait > 0 && Alive(q.running, q.now)) ==>
      Handled(s, q) == s.(attempts := s.attempts + 1, exiting := s.exiting || q.allowed)
  {
    if Alive(q.running, q.now) {
      var t :| t in q.running && q.running[t] != 0.0 && q.now - q.running[t] < 120.0;
      assert t in LiveTasks(q.running, q.now);
    } else {
      assert LiveTasks(q.running, q.now) == {};
    }
  }

  /** Without any deferral a pass that is not cut off assigns tasks, and attempts nothing. */
  lemma PlainPassAssigns(s: State, t: Tick)
    requires t.Tick? && !s.exiting && s.pending.None? && t.requests == [] && t.assigns
    ensures Ticked(s, t) == s.(assignments := s.assignments + 1)
  {}

  // ---- While a restart is deferred ----

  lemma {:induction false} HandlingAssignsNothing(s: State, requests: seq<Request>)
    ensures AllHandled(s, requests).assignments == s.assignments
    ensures AllHandled(s, requests).attempts >= s.attempts
    ensures s.pending.Some? || (exists i :: 0 <= i < |requests| && Defers(requests[i])) ==> AllHandled(s, requests).pending.Some?
    ensures s.exiting ==> AllHandled(s, requests).exiting
  {
    if requests != [] {
      HandlingAssignsNothing(s, requests[..|requests| - 1]);
      if i :| 0 <= i < |requests| && Defers(requests[i]) {
        if i < |requests| - 1 {
          assert Defers(requests[..|requests| - 1][i]);
        }
      }
    }
  }

  /** A tick that begins with a deferred restart, or defers one, assigns no task; and the
      deferral outlasts the tick unless a restart is attempted in it. */
  lemma DeferringTickAssignsNothing(s: State, t: Tick)
    requires !s.exiting
    requires s.pending.Some? || (exists i :: 0 <= i < |t.requests| && Defers(t.requests[i]))
    ensures Ticked(s, t).assignments == s.assignments
    ensures Ticked(s, t).attempts == s.attempts ==> Ticked(s, t).pending.Some? && !Ticked(s, t).exiting
  {
    HandlingAssignsNothing(s, t.requests);
    if Ticked(s, t).attempts == s.attempts {
      NoAttemptNoExit(s, t.requests);
    }
  }

  lemma {:induction false} NoAttemptNoExit(s: State, requests: seq<Request>)
    requires AllHandled(s, requests).attempts == s.attempts
    ensures AllHandled(s, requests).exiting == s.exiting
    ensures forall i :: 0 <= i < |requests| ==> Defers(requests[i])
  {
    if requests != [] {
      var before := requests[..|requests| - 1];
      HandlingAssignsNothing(s, before);
      NoAttemptNoExit(s, before);
      assert forall i :: 0 <= i < |before| ==> before[i] == requests[i];
    }
  }

  lemma {:induction false} AttemptsGrow(s: State, ticks: seq<Tick>)
    ensures Run(s, ticks).attempts >= s.attempts
    decreases ticks
  {
    if ticks != [] {
      HandlingAssignsNothing(s, ticks[0].requests);
      AttemptsGrow(Ticked(s, ticks[0]), ticks[1..]);
    }
  }

  /** From the tick that defers a restart until the restart is attempted, no task is assigned,
      however many ticks, requests and loop crashes there are. */
  lemma {:induction false} NoAssignmentWhileDeferred(s: State, ticks: seq<Tick>)
    requires !s.exiting && ticks != []
    requires s.pending.Some? || (exists i :: 0 <= i < |ticks[0].requests| && Defers(ticks[0].requests[i]))
    requires Run(s, ticks).attempts == s.attempts
    ensures Run(s, ticks).assignments == s.assignments
    ensures Run(s, ticks).pending.Some?
    decreases ticks
  {
    HandlingAssignsNothing(s, ticks[0].requests);
    AttemptsGrow(Ticked(s, ticks[0]), ticks[1..]);
    DeferringTickAssignsNothing(s, ticks[0]);
    if |ticks| > 1 {
      NoAssignmentWhileDeferred(Ticked(s, ticks[0]), ticks[1..]);
    }
  }

  // ---- When the attempt comes ----

  /** A pending deferral waits at most half an hour from the request that recorded it. */
  predicate Bounded(s: State) {
    s.pending.Some? ==> s.pending.value.since < s.pending.value.deadline <= s.pending.value.since + 1800.0
  }

  lemma {:induction false} HandlingKeepsBound(s: State, requests: seq<Request>)
    requires Bounded(s)
    ensures Bounded(AllHandled(s, requests))
  {
    if requests != [] {
      HandlingKeepsBound(s, requests[..|requests| - 1]);
    }
  }

  lemma {:induction false} RunKeepsBound(s: State, ticks: seq<Tick>)
    requires Bounded(s)
    ensures Bounded(Run(s, ticks))
    decreases ticks
  {
    if ticks != [] {
      HandlingKeepsBound(s, ticks[0].requests);
      RunKeepsBound(Ticked(s, ticks[0]), ticks[1..]);
    }
  }

  /** A tick that reaches its check with a restart deferred attempts it there exactly when no
      task is live or the deadline has passed, and then starts no work either. */
  lemma AttemptExactlyWhenDue(s: State, t: Tick)
    requires t.Tick? && !s.exiting && !AllHandled(s, t.requests).exiting && AllHandled(s, t.requests).pending.Some?
    ensures var d := AllHandled(s, t.requests).pending.value;
      && (Ticked(s, t).attempts > AllHandled(s, t.requests).attempts <==> Due(d, t.now, t.running))
      && (Ticked(s, t).pending.None? <==> Due(d, t.now, t.running))
      && Ticked(s, t).exiting == (Due(d, t.now, t.running) && t.allowed)
      && (Due(d, t.now, t.running) <==> !Alive(t.running, t.now) || t.now >= d.deadline)
      && Ticked(s, t).assignments == s.assignments
  {
    HandlingAssignsNothing(s, t.requests);
    if Alive(t.running, t.now) {
      var task :| task in t.running && t.running[task] != 0.0 && t.now - t.running[task] < 120.0;
      assert task in LiveTasks(t.running, t.now);
    } else {
      assert LiveTasks(t.running, t.now) == {};
    }
  }

  /** So a deferral that is still pending after a tick's check was recorded less than half an
      hour before that check: a newer request may extend the wait, nothing else does. */
  lemma DrainIsBounded(ticks: seq<Tick>, t: Tick)
    requires t.Tick?
    ensures var s := Run(State(None, false, 0, 0), ticks);
      !s.exiting && Ticked(s, t).pending.Some? && !Ticked(s, t).exiting ==>
        && t.now < Ticked(s, t).pending.value.since + 1800.0
        && LiveTasks(t.running, t.now) != {}
        && (t.requests == [] ==> Ticked(s, t).pending == s.pending)
  {
    var s := Run(State(None, false, 0, 0), ticks);
    RunKeepsBound(State(None, false, 0, 0), ticks);
    HandlingKeepsBound(s, t.requests);
  }
}
