/**
  The paid post-task synthesis of a root task: a durable phase marker per task, a set of
  syntheses in flight that dies with the process, and a recovery pass at startup.
 */
module RootSynthesis {
  import opened Sequences

  /** `root_phase_checkpoint["post_task_synthesis"]`; `Absent` when there is no marker. `Refresh` is
      the word a cost refresh writes when it finds none. */
  datatype Phase = Absent | PendingOnce | Running | Completed | Degraded | Refresh

  predicate Terminal(p: Phase) {
    p.Completed? || p.Degraded?
  }

  /** How far a marker says the synthesis has come: not begun, running, over. */
  function Progress(p: Phase): nat {
    if Terminal(p) then 2 else if p.Running? then 1 else 0
  }

  /** The marker a finalizer stores, given the marker it read when it began. */
  function StoredPhase(existing: Phase, incomingCheckpoint: bool): Phase {
    if Terminal(existing) then existing
    else if incomingCheckpoint || existing.Absent? then PendingOnce
    else existing
  }

  /** What a cost refresh writes back. */
  function Refreshed(saved: Phase): Phase {
    if saved.Absent? then Refresh else saved
  }

  function RecoveredPhase(p: Phase, dispatchable: bool): Phase {
    match p
    case Running => Degraded
    case PendingOnce => if dispatchable then Running else PendingOnce
    case _ => p
  }

  function PhaseIn(phases: map<string, Phase>, t: string): Phase {
    if t in phases then phases[t] else Absent
  }

  predicate Replays(phases: map<string, Phase>, inflight: set<string>, row: string) {
    PhaseIn(phases, row).PendingOnce? && row !in inflight
  }

  predicate Open(phases: map<string, Phase>, row: string) {
    PhaseIn(phases, row).PendingOnce? || PhaseIn(phases, row).Running?
  }

  /** Rows that recovery replays, in listing order. */
  function Replayed(phases: map<string, Phase>, inflight: set<string>, rows: seq<string>): seq<string> {
    if rows == [] then []
    else if Replays(phases, inflight, rows[0]) then [rows[0]] + Replayed(phases, inflight, rows[1..])
    else Replayed(phases, inflight, rows[1..])
  }

  function OpenRows(phases: map<string, Phase>, rows: seq<string>): nat {
    if rows == [] then 0 else (if Open(phases, rows[0]) then 1 else 0) + OpenRows(phases, rows[1..])
  }

  lemma {:induction false} ReplayedSnoc(phases: map<string, Phase>, inflight: set<string>, rows: seq<string>, row: string)
    ensures Replayed(phases, inflight, rows + [row]) ==
      Replayed(phases, inflight, rows) + (if Replays(phases, inflight, row) then [row] else [])
    ensures OpenRows(phases, rows + [row]) == OpenRows(phases, rows) + (if Open(phases, row) then 1 else 0)
  {
    if rows == [] {
      assert rows + [row] == [row] && [row][1..] == [];
    } else {
      assert (rows + [row])[1..] == rows[1..] + [row];
      ReplayedSnoc(phases, inflight, rows[1..], row);
    }
  }

  /** The replayed rows are exactly the `pending_once` rows not in flight, as often and in the order
      in which they are listed. */
  lemma {:induction false} ReplayedExactly(phases: map<string, Phase>, inflight: set<string>, rows: seq<string>)
    returns (at: seq<nat>)
    ensures SelectedAt(at, rows, Replayed(phases, inflight, rows),
                     row => row in phases && phases[row].PendingOnce? && row !in inflight)
  {
    if rows == [] {
      at := [];
    } else {
      var front, row := rows[..|rows| - 1], rows[|rows| - 1];
      at := ReplayedExactly(phases, inflight, front);
      ReplayedSnoc(phases, inflight, front, row);
      SelectedSnoc(at, front, Replayed(phases, inflight, front),
                 row => row in phases && phases[row].PendingOnce? && row !in inflight, row);
      assert front + [row] == rows;
      if Replays(phases, inflight, row) {
        at := at + [|front|];
      }
    }
  }

  /** The count of open rows is the number of rows with a `pending_once` or `running` marker. */
  lemma {:induction false} OpenRowsCount(phases: map<string, Phase>, rows: seq<string>)
    requires Distinct(rows)
    ensures OpenRows(phases, rows) == |set t | t in rows && t in phases && (phases[t].PendingOnce? || phases[t].Running?)|
  {
    if rows != [] {
      OpenRowsCount(phases, rows[1..]);
      OpenRowsFirst(phases, rows[0], rows[1..]);
      assert rows == [rows[0]] + rows[1..] && rows[0] !in rows[1..];
    }
  }

  lemma OpenRowsFirst(phases: map<string, Phase>, first: string, rest: seq<string>)
    ensures (set t | t in [first] + rest && t in phases && (phases[t].PendingOnce? || phases[t].Running?))
         == (set t | t in rest && t in phases && (phases[t].PendingOnce? || phases[t].Running?))
            + if Open(phases, first) then {first} else {}
  {}

  /** Durable markers and the process-local state of one server process. */
  class Pipeline {
    var phases: map<string, Phase>
    var inflight: set<string>
    var threads: seq<string>

    constructor (phases: map<string, Phase>)
      ensures this.phases == phases && inflight == {} && threads == []
    {
      this.phases, inflight, threads := phases, {}, [];
    }

    /** The write of a task result; `existing` is the marker read when the finalizer began, and
        anything may have been written since. */
    method StoreTaskResult(t: string, existing: Phase, incomingCheckpoint: bool)
      modifies this`phases
      ensures phases == old(phases)[t := StoredPhase(existing, incomingCheckpoint)]
      ensures existing.Completed? || existing.Degraded? ==> phases[t] == existing
      ensures existing.Absent? || (incomingCheckpoint && !existing.Completed? && !existing.Degraded?) ==> phases[t].PendingOnce?
      ensures !incomingCheckpoint && !existing.Absent? ==> phases[t] == existing
    {
      var checkpoint: Phase;
      if Terminal(existing) {
        checkpoint := existing;
      } else if incomingCheckpoint {
        checkpoint := PendingOnce;
      } else {
        checkpoint := existing;
      }
      if checkpoint.Absent? {
        checkpoint := PendingOnce;
      }
      phases := phases[t := checkpoint];
    }

    /** Claims the task, makes `running` durable, and only then starts the worker thread. */
    method RunPostTaskProcessing(t: string) returns (started: bool)
      modifies this
      ensures started == (t !in old(inflight))
      ensures started ==> inflight == old(inflight) + {t} && threads == old(threads) + [t] && phases == old(phases)[t := Running]
      ensures !started ==> inflight == old(inflight) && threads == old(threads) && phases == old(phases)
    {
      if t in inflight {
        return false;
      }
      inflight := inflight + {t};
      phases := phases[t := Running];
      threads := threads + [t];
      return true;
    }

    /** The worker's `finally`: the terminal marker first, then the release. */
    method FinishSynthesis(t: string, ok: bool)
      modifies this`phases, this`inflight
      ensures phases == old(phases)[t := if ok then Completed else Degraded]
      ensures inflight == old(inflight) - {t}
    {
      phases := phases[t := if ok then Completed else Degraded];
      inflight := inflight - {t};
    }

    /** The cost refresh after project naming, one section under the checkpoint lock. */
    method RefreshCheckpoint(t: string)
      modifies this`phases
      ensures phases == old(phases)[t := Refreshed(PhaseIn(old(phases), t))]
      ensures t in old(phases) && !old(phases)[t].Absent? ==> phases == old(phases)
      ensures t !in old(phases) ==> phases[t].Refresh?
    {
      var saved := PhaseIn(phases, t);
      phases := phases[t := if saved.Absent? then Refresh else saved];
    }

    /** The end of `emit_task_results` for a root task, undisturbed. */
    method EmitTaskResults(t: string, incomingCheckpoint: bool) returns (started: bool)
      modifies this
      ensures var stored := StoredPhase(PhaseIn(old(phases), t), incomingCheckpoint);
        && started == (!Terminal(stored) && t !in old(inflight))
        && phases == old(phases)[t := if started then Running else stored]
        && threads == old(threads) + (if started then [t] else [])
        && inflight == old(inflight) + (if started then {t} else {})
      ensures t in old(phases) && (old(phases)[t].Completed? || old(phases)[t].Degraded?) ==>
        !started && phases == old(phases) && threads == old(threads)
      ensures t in old(inflight) ==> !started && threads == old(threads)
      ensures t !in old(inflight) && (t !in old(phases) || old(phases)[t].PendingOnce?) ==>
        started && phases[t].Running? && threads == old(threads) + [t]
    {
      var existing := PhaseIn(phases, t);
      StoreTaskResult(t, existing, incomingCheckpoint);
      started := false;
      if !Terminal(PhaseIn(phases, t)) {
        started := RunPostTaskProcessing(t);
      }
    }

    /** The startup recovery loop: replays exactly the `pending_once` rows that are not in
        flight, in order, turns `running` rows into `degraded`, leaves every other marker alone,
        and counts the rows that were open. */
    method RecoverPending(rows: seq<string>) returns (recovered: nat)
      requires Distinct(rows)
      modifies this
      ensures recovered == OpenRows(old(phases), rows)
      ensures threads == old(threads) + Replayed(old(phases), old(inflight), rows)
      ensures phases.Keys == old(phases).Keys
      ensures forall t :: t in old(phases) ==>
        phases[t] == if t in rows then RecoveredPhase(old(phases)[t], t !in old(inflight)) else old(phases)[t]
      ensures forall t :: t in rows && t in old(phases) && old(phases)[t].Running? ==> phases[t].Degraded?
      ensures forall t :: t in rows && t in old(phases) && old(phases)[t].PendingOnce? ==>
        phases[t] == if t in old(inflight) then PendingOnce else Running
      ensures forall t :: t in old(phases) && !old(phases)[t].Running? && !old(phases)[t].PendingOnce? ==>
        phases[t] == old(phases)[t]
    {
      recovered := 0;
      for i := 0 to |rows|
        invariant recovered == OpenRows(old(phases), rows[..i])
        invariant threads == old(threads) + Replayed(old(phases), old(inflight), rows[..i])
        invariant phases.Keys == old(phases).Keys
        invariant forall t :: t in rows[i..] ==> (t in inflight <==> t in old(inflight))
        invariant forall t :: t in old(phases) ==>
          phases[t] == if t in rows[..i] then RecoveredPhase(old(phases)[t], t !in old(inflight)) else old(phases)[t]
      {
        var t := rows[i];
        assert rows[..i + 1] == rows[..i] + [t];
        assert t in rows[i..] && t !in rows[..i] && t !in rows[i + 1..];
        ReplayedSnoc(old(phases), old(inflight), rows[..i], t);
        var phase := PhaseIn(phases, t);
        if phase.Running? {
          phases := phases[t := Degraded];
          recovered := recovered + 1;
        } else if phase.PendingOnce? {
          var _ := RunPostTaskProcessing(t);
          recovered := recovered + 1;
        }
      }
      assert rows[..|rows|] == rows;
    }
  }

  // ---- Every run, with crashes ----

  /** How far a synthesis has come in this process: claimed in the in-flight set, `running`
      made durable, body (model calls) started, terminal marker written but not yet released. */
  datatype Stage = Idle | Claimed | Marked | Body | Settled

  /** `starts` counts the starts of the paid body over all processes. */
  datatype Task = Task(phase: Phase, stage: Stage, starts: nat)

  /** A finalizer: it has read the marker, stored its result, or been let through the gate. Any
      number of them may be at work on one task. */
  datatype View = Read(seen: Phase) | Stored | Cleared
  datatype Finalizer = Finalizer(task: string, view: View)

  /** A cost refresh between its read and its write, holding the checkpoint lock. */
  datatype Holder = Free | Refreshing(task: string, saved: Phase)

  datatype Mode = Down | Recovering(todo: seq<string>) | Up

  datatype State = State(tasks: map<string, Task>, finalizers: map<nat, Finalizer>, holder: Holder, mode: Mode)

  function At(s: State, t: string): Task {
    if t in s.tasks then s.tasks[t] else Task(Absent, Idle, 0)
  }

  function With(s: State, t: string, task: Task): State {
    s.(tasks := s.tasks[t := task])
  }

  datatype Step =
    | ReadResult(f: nat, task: string)
    | Store(f: nat, incomingCheckpoint: bool)
    | StoreDropped(f: nat)
    | Gate(f: nat)
    | Claim(f: nat)
    | MarkRunning(task: string)
    | StartBody(task: string)
    | LaunchFails(task: string)
    | Finish(task: string, ok: bool)
    | Release(task: string)
    | RefreshReads(task: string)
    | RefreshWrites
    | Crash
    | Boot(rows: seq<string>)
    | RecoverNext

  /** Finalizers and refreshes run only once startup recovery is over; recovery lists every stored
      task once; the writes of the checkpoint helper exclude each other. */
  predicate Enabled(s: State, e: Step) {
    match e
    case ReadResult(f, _) => s.mode.Up? && f !in s.finalizers
    case Store(f, _) => f in s.finalizers && s.finalizers[f].view.Read?
    case StoreDropped(f) => f in s.finalizers && s.finalizers[f].view.Read?
    case Gate(f) => f in s.finalizers && s.finalizers[f].view.Stored?
    case Claim(f) => f in s.finalizers && s.finalizers[f].view.Cleared?
    case MarkRunning(t) => At(s, t).stage.Claimed? && s.holder.Free?
    case StartBody(t) => At(s, t).stage.Marked?
    case LaunchFails(t) => At(s, t).stage.Marked? && s.holder.Free?
    case Finish(t, _) => At(s, t).stage.Body? && s.holder.Free?
    case Release(t) => At(s, t).stage.Settled?
    case RefreshReads(_) => s.mode.Up? && s.holder.Free?
    case RefreshWrites => s.holder.Refreshing?
    case Crash => true
    case Boot(rows) =>
      && s.mode.Down?
      && Distinct(rows)
      && (forall t :: t in s.tasks ==> t in rows)
      && (forall t :: t in rows ==> t in s.tasks)
    case RecoverNext => s.mode.Recovering?
  }

  function Seen(s: State, f: nat, view: View): State
    requires f in s.finalizers
  {
    s.(finalizers := s.finalizers[f := s.finalizers[f].(view := view)])
  }

  function Next(s: State, e: Step): State
    requires Enabled(s, e)
  {
    match e
    case ReadResult(f, t) => s.(finalizers := s.finalizers[f := Finalizer(t, Read(At(s, t).phase))])
    case Store(f, incoming) =>
      var t := s.finalizers[f].task;
      With(Seen(s, f, Stored), t, At(s, t).(phase := StoredPhase(s.finalizers[f].view.seen, incoming)))
    case StoreDropped(f) => Seen(s, f, Stored)
    case Gate(f) =>
      if Terminal(At(s, s.finalizers[f].task).phase) then s.(finalizers := s.finalizers - {f}) else Seen(s, f, Cleared)
    case Claim(f) =>
      var t := s.finalizers[f].task;
      With(s.(finalizers := s.finalizers - {f}), t,
           At(s, t).(stage := if At(s, t).stage.Idle? then Claimed else At(s, t).stage))
    case MarkRunning(t) => With(s, t, At(s, t).(phase := Running, stage := Marked))
    case StartBody(t) => With(s, t, At(s, t).(stage := Body, starts := At(s, t).starts + 1))
    case LaunchFails(t) => With(s, t, At(s, t).(phase := Degraded, stage := Settled))
    case Finish(t, ok) => With(s, t, At(s, t).(phase := if ok then Completed else Degraded, stage := Settled))
    case Release(t) => With(s, t, At(s, t).(stage := Idle))
    case RefreshReads(t) => s.(holder := Refreshing(t, At(s, t).phase))
    case RefreshWrites =>
      With(s.(holder := Free), s.holder.task, At(s, s.holder.task).(phase := Refreshed(s.holder.saved)))
    case Crash => State(map t | t in s.tasks :: s.tasks[t].(stage := Idle), map[], Free, Down)
    case Boot(rows) => s.(mode := Recovering(rows))
    case RecoverNext =>
      if s.mode.todo == [] then s.(mode := Up)
      else
        var t := s.mode.todo[0];
        var rest := s.(mode := Recovering(s.mode.todo[1..]));
        match At(s, t).phase
        case Running => With(rest, t, At(s, t).(phase := Degraded))
        case PendingOnce => With(rest, t, At(s, t).(stage := Claimed))
        case _ => rest
  }

  function Run(s: State, steps: seq<Step>): State
    decreases steps
  {
    if steps == [] then s
    else if Enabled(s, steps[0]) then Run(Next(s, steps[0]), steps[1..])
    else Run(s, steps[1..])
  }

  /** The task a finalizer's step is about. */
  function TaskOf(s: State, e: Step): string
    requires (e.Store? || e.Claim?) && Enabled(s, e)
  {
    s.finalizers[e.f].task
  }

  /** A finalizer's store would take the marker back: from over to running or not begun, or from
      running to not begun. */
  predicate MovesBack(s: State, e: Step)
    requires Enabled(s, e)
  {
    e.Store? && Progress(StoredPhase(s.finalizers[e.f].view.seen, e.incomingCheckpoint)) < Progress(At(s, TaskOf(s, e)).phase)
  }

  /** In terms of the markers alone: a store moves back when what it read was not over and now the
      task is over, or now it runs and either a checkpoint of its own comes along or it had read
      something else than `running`. */
  lemma MovesBackMeans(s: State, e: Step)
    requires Enabled(s, e) && e.Store?
    ensures var seen := s.finalizers[e.f].view.seen; var phase := At(s, s.finalizers[e.f].task).phase;
      MovesBack(s, e) <==>
        && !seen.Completed? && !seen.Degraded?
        && (phase.Completed? || phase.Degraded? || (phase.Running? && (e.incomingCheckpoint || !seen.Running?)))
  {}

  /** A finalizer would claim a task that is not in flight and whose marker says it is over. */
  predicate ClaimsSettled(s: State, e: Step)
    requires Enabled(s, e)
  {
    e.Claim? && At(s, TaskOf(s, e)).stage.Idle? && Terminal(At(s, TaskOf(s, e)).phase)
  }

  predicate Unsafe(s: State, e: Step) {
    Enabled(s, e) && (MovesBack(s, e) || ClaimsSettled(s, e))
  }

  predicate SafeRun(s: State, steps: seq<Step>)
    decreases steps
  {
    steps != [] ==>
      && !Unsafe(s, steps[0])
      && SafeRun(if Enabled(s, steps[0]) then Next(s, steps[0]) else s, steps[1..])
  }

  predicate InTodo(s: State, t: string) {
    s.mode.Recovering? && t in s.mode.todo
  }

  /** The marker as the holder of the checkpoint lock knows it. */
  function Known(s: State, t: string): Phase {
    if s.holder.Refreshing? && s.holder.task == t then s.holder.saved else At(s, t).phase
  }

  /** Enough for at most one start: a started task has a `running` marker only while its body
      runs or recovery has yet to see it, and otherwise a terminal one. */
  predicate OnceFor(s: State, t: string, phase: Phase) {
    var task := At(s, t);
    && task.starts <= 1
    && (task.starts == 1 ==> Progress(phase) > 0)
    && (task.starts == 1 && phase.Running? ==> task.stage.Body? || s.mode.Down? || InTodo(s, t))
    && (task.stage.Marked? ==> Progress(phase) > 0)
  }

  predicate StageOk(s: State, t: string) {
    var task := At(s, t);
    && (task.stage.Claimed? || task.stage.Marked? ==> task.starts == 0)
    && (task.stage.Body? ==> task.starts == 1)
    && (s.mode.Down? || InTodo(s, t) ==> task.stage.Idle?)
  }

  predicate OnceOk(s: State, t: string) {
    StageOk(s, t) && OnceFor(s, t, At(s, t).phase) && OnceFor(s, t, Known(s, t))
  }

  predicate Once(s: State) {
    && (forall t :: t in s.tasks ==> OnceOk(s, t))
    && (!s.mode.Up? ==> s.finalizers == map[] && s.holder.Free?)
    && (s.mode.Recovering? ==> Distinct(s.mode.todo) && forall t :: t in s.mode.todo ==> t in s.tasks)
  }

  /** What safe runs keep besides: the marker says how far the synthesis is, and no finalizer or
      refresh knows more than the marker. */
  predicate MarkerOk(s: State, t: string) {
    var task := At(s, t);
    && (task.phase.Running? ==> task.stage.Marked? || task.stage.Body? || s.mode.Down? || InTodo(s, t))
    && (task.stage.Marked? || task.stage.Body? ==> task.phase.Running?)
    && (task.stage.Settled? ==> Terminal(task.phase))
    && (task.stage.Claimed? ==> Progress(task.phase) == 0)
    && Progress(Known(s, t)) == Progress(task.phase)
  }

  predicate SeenOk(s: State, f: nat)
    requires f in s.finalizers
  {
    s.finalizers[f].view.Read? ==> Progress(s.finalizers[f].view.seen) <= Progress(At(s, s.finalizers[f].task).phase)
  }

  predicate Inv(s: State) {
    && Once(s)
    && (forall t :: t in s.tasks ==> MarkerOk(s, t))
    && (s.holder.Refreshing? ==> Progress(s.holder.saved) == Progress(At(s, s.holder.task).phase))
    && forall f :: f in s.finalizers ==> SeenOk(s, f)
  }

  lemma TodoFacts(s: State)
    requires s.mode.Recovering? && Distinct(s.mode.todo) && s.mode.todo != []
    ensures s.mode.todo[0] !in s.mode.todo[1..]
    ensures forall t :: t in s.mode.todo <==> t == s.mode.todo[0] || t in s.mode.todo[1..]
  {}

  predicate ByFinalizer(e: Step) {
    e.ReadResult? || e.Store? || e.StoreDropped? || e.Gate? || e.Claim?
  }

  predicate ByWorker(e: Step) {
    e.MarkRunning? || e.StartBody? || e.LaunchFails? || e.Finish? || e.Release?
  }

  lemma FinalizerKeepsOnce(s: State, e: Step, t: string)
    requires Once(s) && Enabled(s, e) && !Unsafe(s, e) && ByFinalizer(e) && t in Next(s, e).tasks
    ensures OnceOk(Next(s, e), t)
  {
    assert t in s.tasks ==> OnceOk(s, t);
  }

  lemma WorkerKeepsOnce(s: State, e: Step, t: string)
    requires Once(s) && Enabled(s, e) && !Unsafe(s, e) && ByWorker(e) && t in Next(s, e).tasks
    ensures OnceOk(Next(s, e), t)
  {
    assert t in s.tasks ==> OnceOk(s, t);
  }

  lemma RefreshKeepsOnce(s: State, e: Step, t: string)
    requires Once(s) && Enabled(s, e) && !Unsafe(s, e) && (e.RefreshReads? || e.RefreshWrites?) && t in Next(s, e).tasks
    ensures OnceOk(Next(s, e), t)
  {
    assert t in s.tasks ==> OnceOk(s, t);
  }

  lemma ProcessKeepsOnce(s: State, e: Step, t: string)
    requires Once(s) && Enabled(s, e) && !Unsafe(s, e) && (e.Crash? || e.Boot? || e.RecoverNext?) && t in Next(s, e).tasks
    ensures OnceOk(Next(s, e), t)
  {
    assert t in s.tasks ==> OnceOk(s, t);
    if e.RecoverNext? && s.mode.todo != [] {
      TodoFacts(s);
    }
  }

  lemma ServerKeepsOnce(s: State, e: Step, t: string)
    requires Once(s) && Enabled(s, e) && !Unsafe(s, e) && !ByFinalizer(e) && !ByWorker(e) && t in Next(s, e).tasks
    ensures OnceOk(Next(s, e), t)
  {
    if e.RefreshReads? || e.RefreshWrites? {
      RefreshKeepsOnce(s, e, t);
    } else {
      ProcessKeepsOnce(s, e, t);
    }
  }

  lemma StepKeepsOnce(s: State, e: Step)
    requires Once(s) && Enabled(s, e) && !Unsafe(s, e)
    ensures Once(Next(s, e))
  {
    var s' := Next(s, e);
    forall t | t in s'.tasks ensures OnceOk(s', t) {
      if ByFinalizer(e) {
        FinalizerKeepsOnce(s, e, t);
      } else if ByWorker(e) {
        WorkerKeepsOnce(s, e, t);
      } else {
        ServerKeepsOnce(s, e, t);
      }
    }
    if e.RecoverNext? && s.mode.todo != [] {
      TodoFacts(s);
    }
  }

  /** A safe step takes no marker back. */
  lemma MarkersMoveForward(s: State, e: Step, t: string)
    requires Inv(s) && Enabled(s, e) && !Unsafe(s, e)
    ensures Progress(At(Next(s, e), t).phase) >= Progress(At(s, t).phase)
  {
    assert t in s.tasks ==> MarkerOk(s, t) && StageOk(s, t);
  }

  lemma FinalizerKeepsMarker(s: State, e: Step, t: string)
    requires Inv(s) && Enabled(s, e) && !Unsafe(s, e) && ByFinalizer(e) && t in Next(s, e).tasks
    ensures MarkerOk(Next(s, e), t)
  {
    assert t in s.tasks ==> MarkerOk(s, t) && StageOk(s, t);
    if e.Store? {
      assert SeenOk(s, e.f);
    }
  }

  lemma WorkerKeepsMarker(s: State, e: Step, t: string)
    requires Inv(s) && Enabled(s, e) && !Unsafe(s, e) && ByWorker(e) && t in Next(s, e).tasks
    ensures MarkerOk(Next(s, e), t)
  {
    assert t in s.tasks ==> MarkerOk(s, t) && StageOk(s, t);
  }

  lemma RefreshKeepsMarker(s: State, e: Step, t: string)
    requires Inv(s) && Enabled(s, e) && !Unsafe(s, e) && (e.RefreshReads? || e.RefreshWrites?) && t in Next(s, e).tasks
    ensures MarkerOk(Next(s, e), t)
  {
    assert t in s.tasks ==> MarkerOk(s, t) && StageOk(s, t);
  }

  lemma ProcessKeepsMarker(s: State, e: Step, t: string)
    requires Inv(s) && Enabled(s, e) && !Unsafe(s, e) && (e.Crash? || e.Boot? || e.RecoverNext?) && t in Next(s, e).tasks
    ensures MarkerOk(Next(s, e), t)
  {
    assert t in s.tasks ==> MarkerOk(s, t) && StageOk(s, t);
    if e.RecoverNext? && s.mode.todo != [] {
      TodoFacts(s);
    }
  }

  lemma ServerKeepsMarker(s: State, e: Step, t: string)
    requires Inv(s) && Enabled(s, e) && !Unsafe(s, e) && !ByFinalizer(e) && !ByWorker(e) && t in Next(s, e).tasks
    ensures MarkerOk(Next(s, e), t)
  {
    if e.RefreshReads? || e.RefreshWrites? {
      RefreshKeepsMarker(s, e, t);
    } else {
      ProcessKeepsMarker(s, e, t);
    }
  }

  lemma MarkerKept(s: State, e: Step, t: string)
    requires Inv(s) && Enabled(s, e) && !Unsafe(s, e) && t in Next(s, e).tasks
    ensures MarkerOk(Next(s, e), t)
  {
    if ByFinalizer(e) {
      FinalizerKeepsMarker(s, e, t);
    } else if ByWorker(e) {
      WorkerKeepsMarker(s, e, t);
    } else {
      ServerKeepsMarker(s, e, t);
    }
  }

  lemma SeenKept(s: State, e: Step, f: nat)
    requires Inv(s) && Enabled(s, e) && !Unsafe(s, e) && f in Next(s, e).finalizers
    ensures SeenOk(Next(s, e), f)
  {
    assert f in s.finalizers ==> SeenOk(s, f);
    MarkersMoveForward(s, e, Next(s, e).finalizers[f].task);
  }

  lemma HolderKept(s: State, e: Step)
    requires Inv(s) && Enabled(s, e) && !Unsafe(s, e) && Next(s, e).holder.Refreshing?
    ensures Progress(Next(s, e).holder.saved) == Progress(At(Next(s, e), Next(s, e).holder.task).phase)
  {
    if e.Store? {
      assert SeenOk(s, e.f);
    }
  }

  lemma StepKeepsInv(s: State, e: Step)
    requires Inv(s) && Enabled(s, e) && !Unsafe(s, e)
    ensures Inv(Next(s, e))
  {
    StepKeepsOnce(s, e);
    var s' := Next(s, e);
    forall t | t in s'.tasks ensures MarkerOk(s', t) {
      MarkerKept(s, e, t);
    }
    forall f | f in s'.finalizers ensures SeenOk(s', f) {
      SeenKept(s, e, f);
    }
    if s'.holder.Refreshing? {
      HolderKept(s, e);
    }
  }

  lemma {:induction false} SafeRunKeepsOnce(s: State, steps: seq<Step>)
    requires Once(s) && SafeRun(s, steps)
    ensures Once(Run(s, steps))
    decreases steps
  {
    if steps != [] {
      if Enabled(s, steps[0]) {
        StepKeepsOnce(s, steps[0]);
        SafeRunKeepsOnce(Next(s, steps[0]), steps[1..]);
      } else {
        SafeRunKeepsOnce(s, steps[1..]);
      }
    }
  }

  lemma {:induction false} SafeRunKeepsInv(s: State, steps: seq<Step>)
    requires Inv(s) && SafeRun(s, steps)
    ensures Inv(Run(s, steps))
    decreases steps
  {
    if steps != [] {
      if Enabled(s, steps[0]) {
        StepKeepsInv(s, steps[0]);
        SafeRunKeepsInv(Next(s, steps[0]), steps[1..]);
      } else {
        SafeRunKeepsInv(s, steps[1..]);
      }
    }
  }

  /** A server that starts for the first time, over any stored markers. */
  predicate Fresh(s: State) {
    && s.mode.Down? && s.finalizers == map[] && s.holder.Free?
    && forall t :: t in s.tasks ==> s.tasks[t].stage.Idle? && s.tasks[t].starts == 0
  }

  /** Over every run of finalizers, refreshes, crashes and recoveries without an unsafe step, the
      paid body starts at most once per task, and never before `running` is durable. */
  lemma BodyStartsAtMostOnce(s: State, steps: seq<Step>, t: string)
    requires Fresh(s) && SafeRun(s, steps)
    ensures At(Run(s, steps), t).starts <= 1
    ensures Enabled(Run(s, steps), StartBody(t)) ==>
      At(Run(s, steps), t).phase.Running? && At(Run(s, steps), t).starts == 0
  {
    SafeRunKeepsInv(s, steps);
    assert t in Run(s, steps).tasks ==> MarkerOk(Run(s, steps), t) && StageOk(Run(s, steps), t);
  }

  // ---- The condition is exact ----

  predicate StartsTwice(s: State, steps: seq<Step>, t: string) {
    SafeRun(s, steps) && At(Run(s, steps), t).starts > 1
  }

  /** Some run without any unsafe step leads to a second start. */
  ghost predicate CanStartTwice(s: State) {
    exists steps, t :: StartsTwice(s, steps, t)
  }

  lemma OnceForever(s: State)
    requires Once(s)
    ensures !CanStartTwice(s)
  {
    forall steps, t ensures !StartsTwice(s, steps, t) {
      if SafeRun(s, steps) {
        SafeRunKeepsOnce(s, steps);
        assert t in Run(s, steps).tasks ==> OnceOk(Run(s, steps), t);
      }
    }
  }

  lemma AfterStep(s: State, e: Step)
    requires Enabled(s, e) && !Unsafe(s, e) && CanStartTwice(Next(s, e))
    ensures CanStartTwice(s)
  {
    var steps, t :| StartsTwice(Next(s, e), steps, t);
    assert ([e] + steps)[1..] == steps;
    assert StartsTwice(s, [e] + steps, t);
  }

  lemma ClaimedAgain(s: State, t: string)
    requires At(s, t).stage.Claimed? && At(s, t).starts > 0
    ensures CanStartTwice(s)
  {
    var free := if s.holder.Free? then s else Next(s, RefreshWrites);
    var marked := Next(free, MarkRunning(t));
    var started := Next(marked, StartBody(t));
    assert StartsTwice(started, [], t);
    AfterStep(marked, StartBody(t));
    AfterStep(free, MarkRunning(t));
    if s.holder.Refreshing? {
      AfterStep(s, RefreshWrites);
    }
  }

  lemma {:induction false} Listing(tasks: set<string>) returns (rows: seq<string>)
    ensures Distinct(rows) && forall t :: t in tasks <==> t in rows
  {
    if tasks == {} {
      rows := [];
    } else {
      var t :| t in tasks;
      var rest := Listing(tasks - {t});
      rows := [t] + rest;
    }
  }

  lemma ListingFrom(tasks: set<string>, first: string) returns (rows: seq<string>)
    requires first in tasks
    ensures rows != [] && rows[0] == first && Distinct(rows) && forall t :: t in tasks <==> t in rows
  {
    var rest := Listing(tasks - {first});
    rows := [first] + rest;
  }

  /** A `pending_once` marker over a started body: recovery replays it. */
  lemma PendingAgain(s: State, t: string)
    requires t in s.tasks && At(s, t).phase.PendingOnce? && At(s, t).starts > 0
    ensures CanStartTwice(s)
  {
    var rows := ListingFrom(s.tasks.Keys, t);
    var down := Next(s, Crash);
    var up := Next(down, Boot(rows));
    ClaimedAgain(Next(up, RecoverNext), t);
    AfterStep(up, RecoverNext);
    AfterStep(down, Boot(rows));
    AfterStep(s, Crash);
  }

  /** A finalizer that has stored its result over a started task of no process. */
  lemma FinalizedAgain(s: State, f: nat)
    requires f in s.finalizers && s.finalizers[f].view.Stored?
    requires var task := At(s, s.finalizers[f].task);
      !Terminal(task.phase) && task.starts > 0 && (task.stage.Idle? || task.stage.Settled?)
    ensures CanStartTwice(s)
  {
    var t := s.finalizers[f].task;
    var idle := if At(s, t).stage.Settled? then Next(s, Release(t)) else s;
    var cleared := Next(idle, Gate(f));
    ClaimedAgain(Next(cleared, Claim(f)), t);
    AfterStep(cleared, Claim(f));
    AfterStep(idle, Gate(f));
    if At(s, t).stage.Settled? {
      AfterStep(s, Release(t));
    }
  }

  /** A marker that recovery ignores: the next finalizer starts the body again. */
  lemma {:induction false} IgnoredAgain(s: State, t: string)
    requires s.mode.Recovering? && s.finalizers == map[]
    requires At(s, t).phase.Refresh? && At(s, t).stage.Idle? && At(s, t).starts > 0
    ensures CanStartTwice(s)
    decreases s.mode.todo
  {
    var s' := Next(s, RecoverNext);
    if s.mode.todo == [] {
      var seen := Next(s', ReadResult(0, t));
      FinalizedAgain(Next(seen, Store(0, false)), 0);
      AfterStep(seen, Store(0, false));
      AfterStep(s', ReadResult(0, t));
    } else {
      IgnoredAgain(s', t);
    }
    AfterStep(s, RecoverNext);
  }

  lemma RefreshAgain(s: State, t: string)
    requires t in s.tasks && At(s, t).phase.Refresh? && At(s, t).starts > 0
    ensures CanStartTwice(s)
  {
    var rows := ListingFrom(s.tasks.Keys, t);
    var down := Next(s, Crash);
    IgnoredAgain(Next(down, Boot(rows)), t);
    AfterStep(down, Boot(rows));
    AfterStep(s, Crash);
  }

  lemma NotBegunAgain(s: State, t: string)
    requires t in s.tasks && At(s, t).starts > 0 && (At(s, t).phase.PendingOnce? || At(s, t).phase.Refresh?)
    ensures CanStartTwice(s)
  {
    if At(s, t).phase.PendingOnce? {
      PendingAgain(s, t);
    } else {
      RefreshAgain(s, t);
    }
  }

  lemma MovedBackAgain(s: State, e: Step)
    requires Inv(s) && Enabled(s, e) && MovesBack(s, e) && !NeverBegun(s, e)
    ensures CanStartTwice(Next(s, e))
  {
    var t, s' := TaskOf(s, e), Next(s, e);
    assert t in s.tasks && MarkerOk(s, t) && StageOk(s, t) && OnceFor(s, t, At(s, t).phase);
    if At(s', t).phase.Running? {
      FinalizedAgain(s', e.f);
    } else if At(s, t).stage.Marked? {
      NotBegunAgain(Next(s', StartBody(t)), t);
      AfterStep(s', StartBody(t));
    } else {
      NotBegunAgain(s', t);
    }
  }

  /** The marker says the synthesis is over, yet its body was never started: the thread could not be
      launched, or a crash fell between the durable `running` and the body. */
  predicate NeverBegun(s: State, e: Step)
    requires (e.Store? || e.Claim?) && Enabled(s, e)
  {
    Terminal(At(s, TaskOf(s, e)).phase) && At(s, TaskOf(s, e)).starts == 0
  }

  lemma NeverBegunIsHarmless(s: State, e: Step)
    requires Inv(s) && Unsafe(s, e) && NeverBegun(s, e)
    ensures Once(Next(s, e))
  {
    var s' := Next(s, e);
    forall t | t in s'.tasks
      ensures OnceOk(s', t)
    {
      assert t in s.tasks ==> MarkerOk(s, t) && OnceOk(s, t);
    }
  }

  /** Exactly the unsafe steps make a second start possible: from every state that a safe run
      reaches, a step opens the way to one, by safe steps alone, if and only if it is unsafe and
      not about a task whose body was never started. */
  lemma ExactlyUnsafeStepsStartTwice(s: State, e: Step)
    requires Inv(s) && Enabled(s, e)
    ensures CanStartTwice(Next(s, e)) <==> Unsafe(s, e) && !NeverBegun(s, e)
  {
    if !Unsafe(s, e) {
      StepKeepsInv(s, e);
      OnceForever(Next(s, e));
    } else if NeverBegun(s, e) {
      NeverBegunIsHarmless(s, e);
      OnceForever(Next(s, e));
    } else if e.Store? {
      MovedBackAgain(s, e);
    } else {
      assert At(s, TaskOf(s, e)).starts > 0;
      ClaimedAgain(Next(s, e), TaskOf(s, e));
    }
  }

  lemma {:induction false} RunConcat(s: State, a: seq<Step>, b: seq<Step>)
    ensures Run(s, a + b) == Run(Run(s, a), b)
    decreases a
  {
    if a == [] {
      assert a + b == b;
    } else {
      assert (a + b)[1..] == a[1..] + b;
      RunConcat(if Enabled(s, a[0]) then Next(s, a[0]) else s, a[1..], b);
    }
  }

  lemma RunTwo(s: State, a: Step, b: Step)
    requires Enabled(s, a) && Enabled(Next(s, a), b)
    ensures Run(s, [a, b]) == Next(Next(s, a), b)
  {
    assert [a, b][1..] == [b] && [b][1..] == [];
    assert Run(s, [a, b]) == Run(Next(s, a), [b]);
  }

  // ---- Runs from an empty server ----

  const EMPTY := State(map[], map[], Free, Down)

  const UP := [Boot([]), RecoverNext]
  const SYNTHESIS := [MarkRunning("t"), StartBody("t")]
  const REPLAY := [Crash, Boot(["t"]), RecoverNext] + SYNTHESIS

  /** A finalizer from its read to its claim. */
  function Finalizes(f: nat): seq<Step> {
    [ReadResult(f, "t"), Store(f, false), Gate(f), Claim(f)]
  }

  /** Finalizer 0 reads no marker; finalizer 1 does all its work and the body starts; then 0
      stores `pending_once`, without any checkpoint of its own. */
  const STALE_STORE := UP + [ReadResult(0, "t")] + Finalizes(1) + SYNTHESIS + [Store(0, false)] + REPLAY

  /** Finalizer 1 reads `running` and stores the checkpoint it was given. */
  const CHECKPOINT_STORE := UP + Finalizes(0) + SYNTHESIS + [ReadResult(1, "t"), Store(1, true)] + REPLAY

  /** Finalizer 1 is through the gate before finalizer 0's synthesis is over, and claims after. */
  const STALE_CLAIM := GATED + ENDS + ([Claim(1)] + SYNTHESIS)
  const GATED := UP + [ReadResult(1, "t"), Store(1, false), Gate(1)]
  const ENDS := Finalizes(0) + SYNTHESIS + [Finish("t", true), Release("t")]

  lemma RunThree(s: State, a: Step, b: Step, c: Step)
    requires Enabled(s, a) && Enabled(Next(s, a), b) && Enabled(Next(Next(s, a), b), c)
    ensures Run(s, [a, b, c]) == Next(Next(Next(s, a), b), c)
  {
    assert [a, b, c][1..] == [b, c];
    assert Run(s, [a, b, c]) == Run(Next(s, a), [b, c]);
    RunTwo(Next(s, a), b, c);
  }

  lemma RunOne(s: State, e: Step)
    requires Enabled(s, e)
    ensures Run(s, [e]) == Next(s, e)
  {
    assert [e][1..] == [];
  }

  lemma UpRuns()
    ensures Run(EMPTY, UP) == State(map[], map[], Free, Up)
  {
    RunTwo(EMPTY, Boot([]), RecoverNext);
  }

  /** A finalizer that finds no synthesis claims one. */
  lemma FinalizesRuns(s: State, f: nat)
    requires s.mode.Up? && f !in s.finalizers && Progress(At(s, "t").phase) == 0 && At(s, "t").stage.Idle?
    ensures var s' := Run(s, Finalizes(f));
      s' == With(s, "t", Task(StoredPhase(At(s, "t").phase, false), Claimed, At(s, "t").starts))
  {
    var read := Next(s, ReadResult(f, "t"));
    RunTwo(s, ReadResult(f, "t"), Store(f, false));
    var stored := Next(read, Store(f, false));
    RunTwo(stored, Gate(f), Claim(f));
    RunConcat(s, [ReadResult(f, "t"), Store(f, false)], [Gate(f), Claim(f)]);
    assert Finalizes(f) == [ReadResult(f, "t"), Store(f, false)] + [Gate(f), Claim(f)];
    assert Next(Next(stored, Gate(f)), Claim(f)).finalizers == s.finalizers;
    assert Next(Next(stored, Gate(f)), Claim(f)).tasks
        == s.tasks["t" := Task(StoredPhase(At(s, "t").phase, false), Claimed, At(s, "t").starts)];
  }

  lemma SynthesisRuns(s: State)
    requires At(s, "t").stage.Claimed? && s.holder.Free?
    ensures Run(s, SYNTHESIS) == With(s, "t", Task(Running, Body, At(s, "t").starts + 1))
  {
    RunTwo(s, MarkRunning("t"), StartBody("t"));
    assert Next(Next(s, MarkRunning("t")), StartBody("t")).tasks == s.tasks["t" := Task(Running, Body, At(s, "t").starts + 1)];
  }

  /** A crash over a `pending_once` marker of the only task starts the body once more. */
  lemma ReplayRuns(s: State)
    requires s.tasks.Keys == {"t"} && At(s, "t").phase.PendingOnce?
    ensures At(Run(s, REPLAY), "t").starts == At(s, "t").starts + 1
  {
    RunThree(s, Crash, Boot(["t"]), RecoverNext);
    RunConcat(s, [Crash, Boot(["t"]), RecoverNext], SYNTHESIS);
    SynthesisRuns(Next(Next(Next(s, Crash), Boot(["t"])), RecoverNext));
  }

  lemma RunThrough(s: State, a: seq<Step>, mid: State, b: seq<Step>)
    requires Run(s, a) == mid
    ensures Run(s, a + b) == Run(mid, b)
  {
    RunConcat(s, a, b);
  }

  /** A finalizer's work up to the body, where no synthesis has begun. */
  lemma BodyRuns(s: State, f: nat)
    requires s.mode.Up? && s.holder.Free? && f !in s.finalizers
    requires Progress(At(s, "t").phase) == 0 && At(s, "t").stage.Idle?
    ensures Run(s, Finalizes(f) + SYNTHESIS) == With(s, "t", Task(Running, Body, At(s, "t").starts + 1))
  {
    var claimed := Run(s, Finalizes(f));
    FinalizesRuns(s, f);
    RunThrough(s, Finalizes(f), claimed, SYNTHESIS);
    SynthesisRuns(claimed);
    assert Run(claimed, SYNTHESIS).tasks == s.tasks["t" := Task(Running, Body, At(s, "t").starts + 1)];
  }

  /** Finalizer 0 has read no marker when finalizer 1's synthesis starts its body. */
  lemma LateReaderRuns()
    ensures Run(EMPTY, UP + [ReadResult(0, "t")] + (Finalizes(1) + SYNTHESIS))
         == With(State(map[], map[0 := Finalizer("t", Read(Absent))], Free, Up), "t", Task(Running, Body, 1))
  {
    var up := State(map[], map[], Free, Up);
    var read := State(map[], map[0 := Finalizer("t", Read(Absent))], Free, Up);
    UpRuns();
    RunOne(up, ReadResult(0, "t"));
    RunThrough(EMPTY, UP, up, [ReadResult(0, "t")]);
    BodyRuns(read, 1);
    RunThrough(EMPTY, UP + [ReadResult(0, "t")], read, Finalizes(1) + SYNTHESIS);
  }

  lemma StaleStoreStartsTwice()
    ensures Fresh(EMPTY) && At(Run(EMPTY, STALE_STORE), "t").starts == 2
  {
    var begun := UP + [ReadResult(0, "t")] + (Finalizes(1) + SYNTHESIS);
    var body := Run(EMPTY, begun);
    LateReaderRuns();
    RunOne(body, Store(0, false));
    RunThrough(EMPTY, begun, body, [Store(0, false)]);
    RunThrough(EMPTY, begun + [Store(0, false)], Next(body, Store(0, false)), REPLAY);
    ReplayRuns(Next(body, Store(0, false)));
    assert STALE_STORE == begun + [Store(0, false)] + REPLAY;
  }

  lemma LateCheckpointRuns(s: State)
    requires s.mode.Up? && 1 !in s.finalizers && s.tasks.Keys == {"t"} && At(s, "t").phase.Running?
    ensures At(Run(s, [ReadResult(1, "t"), Store(1, true)] + REPLAY), "t").starts == At(s, "t").starts + 1
  {
    var late := Next(Next(s, ReadResult(1, "t")), Store(1, true));
    RunTwo(s, ReadResult(1, "t"), Store(1, true));
    RunThrough(s, [ReadResult(1, "t"), Store(1, true)], late, REPLAY);
    ReplayRuns(late);
  }

  lemma CheckpointStoreStartsTwice()
    ensures At(Run(EMPTY, CHECKPOINT_STORE), "t").starts == 2
  {
    var up := State(map[], map[], Free, Up);
    var body := With(up, "t", Task(Running, Body, 1));
    var stores := [ReadResult(1, "t"), Store(1, true)];
    UpRuns();
    BodyRuns(up, 0);
    RunThrough(EMPTY, UP, up, Finalizes(0) + SYNTHESIS);
    LateCheckpointRuns(body);
    RunThrough(EMPTY, UP + (Finalizes(0) + SYNTHESIS), body, stores + REPLAY);
    assert CHECKPOINT_STORE == UP + (Finalizes(0) + SYNTHESIS) + (stores + REPLAY);
  }

  /** Finalizer 1 passes the gate, then finalizer 0 does all its work and the synthesis ends. */
  lemma GatedRuns()
    ensures Run(EMPTY, GATED) == State(map["t" := Task(PendingOnce, Idle, 0)], map[1 := Finalizer("t", Cleared)], Free, Up)
  {
    var up := State(map[], map[], Free, Up);
    UpRuns();
    RunThree(up, ReadResult(1, "t"), Store(1, false), Gate(1));
    RunThrough(EMPTY, UP, up, [ReadResult(1, "t"), Store(1, false), Gate(1)]);
  }

  /** The end of a synthesis: completed or degraded, and no longer in flight. */
  lemma EndRuns(s: State, t: string, ok: bool)
    requires At(s, t).stage.Body? && s.holder.Free?
    ensures Run(s, [Finish(t, ok), Release(t)]) == With(s, t, Task(if ok then Completed else Degraded, Idle, At(s, t).starts))
  {
    RunTwo(s, Finish(t, ok), Release(t));
    assert Next(Next(s, Finish(t, ok)), Release(t)).tasks
        == s.tasks[t := Task(if ok then Completed else Degraded, Idle, At(s, t).starts)];
  }

  /** A thread that cannot be launched leaves a degraded marker, the body unstarted. */
  lemma FailedLaunchRuns(s: State, t: string)
    requires At(s, t).stage.Marked? && s.holder.Free?
    ensures Run(s, [LaunchFails(t), Release(t)]) == With(s, t, Task(Degraded, Idle, At(s, t).starts))
  {
    RunTwo(s, LaunchFails(t), Release(t));
    assert Next(Next(s, LaunchFails(t)), Release(t)).tasks == s.tasks[t := Task(Degraded, Idle, At(s, t).starts)];
  }

  lemma OverRuns(s: State)
    requires s.mode.Up? && s.holder.Free? && 0 !in s.finalizers
    requires Progress(At(s, "t").phase) == 0 && At(s, "t").stage.Idle? && At(s, "t").starts == 0
    ensures var s' := Run(s, ENDS);
      At(s', "t") == Task(Completed, Idle, 1) && s'.finalizers == s.finalizers && s'.holder.Free? && s'.mode.Up?
  {
    BodyRuns(s, 0);
    EndRuns(With(s, "t", Task(Running, Body, 1)), "t", true);
    RunThrough(s, Finalizes(0) + SYNTHESIS, With(s, "t", Task(Running, Body, 1)), [Finish("t", true), Release("t")]);
  }

  lemma LateClaimRuns(s: State)
    requires s.holder.Free? && 1 in s.finalizers && s.finalizers[1] == Finalizer("t", Cleared) && At(s, "t").stage.Idle?
    ensures At(Run(s, [Claim(1)] + SYNTHESIS), "t").starts == At(s, "t").starts + 1
  {
    RunOne(s, Claim(1));
    RunThrough(s, [Claim(1)], Next(s, Claim(1)), SYNTHESIS);
    SynthesisRuns(Next(s, Claim(1)));
  }

  lemma StaleClaimStartsTwice()
    ensures At(Run(EMPTY, STALE_CLAIM), "t").starts == 2
  {
    var cleared := Run(EMPTY, GATED);
    GatedRuns();
    OverRuns(cleared);
    RunThrough(EMPTY, GATED, cleared, ENDS);
    LateClaimRuns(Run(cleared, ENDS));
    RunThrough(EMPTY, GATED + ENDS, Run(cleared, ENDS), [Claim(1)] + SYNTHESIS);
  }

  /** One step of recovery never reopens a terminal marker, never starts the body, and leaves no
      `running` marker of the previous process behind. */
  lemma RecoveryStep(s: State, t: string)
    requires Inv(s) && s.mode.Recovering? && t in s.tasks
    ensures var task, task' := At(s, t), At(Next(s, RecoverNext), t);
      && task'.starts == task.starts
      && (Terminal(task.phase) ==> task'.phase == task.phase)
      && (task'.stage != task.stage ==> task.phase.PendingOnce? && task'.stage.Claimed?)
      && (s.mode.todo == [] && task.phase.Running? ==> !task.stage.Idle?)
      && (s.mode.todo != [] && s.mode.todo[0] == t && task.phase.Running? ==> task'.phase.Degraded?)
      && (s.mode.todo != [] && s.mode.todo[0] == t && task.phase.PendingOnce? ==> task'.stage.Claimed?)
  {
    assert MarkerOk(s, t) && StageOk(s, t);
    if s.mode.todo != [] {
      assert s.mode.todo[0] in s.mode.todo;
      assert MarkerOk(s, s.mode.todo[0]) && StageOk(s, s.mode.todo[0]);
    }
  }

  // ---- The code's calls as steps ----

  /** From its stored result, what a finalizer still does undisturbed. */
  lemma StoredRuns(s: State, f: nat)
    requires f in s.finalizers && s.finalizers[f].view.Stored? && s.holder.Free?
    requires !At(s, s.finalizers[f].task).stage.Claimed?
    ensures var t := s.finalizers[f].task; var task := At(s, t);
      var s' := Run(s, [Gate(f), Claim(f), MarkRunning(t)]);
      && s'.finalizers == s.finalizers - {f}
      && (if !Terminal(task.phase) && task.stage.Idle? then s'.tasks == s.tasks[t := Task(Running, Marked, task.starts)]
          else forall u :: At(s', u) == At(s, u))
  {
    var t := s.finalizers[f].task;
    var gated := Next(s, Gate(f));
    var rest := [Claim(f), MarkRunning(t)];
    assert [Gate(f), Claim(f), MarkRunning(t)][1..] == rest && rest[1..] == [MarkRunning(t)] && [MarkRunning(t)][1..] == [];
    if Enabled(gated, Claim(f)) {
      var claimed := Next(gated, Claim(f));
      assert Run(s, [Gate(f), Claim(f), MarkRunning(t)]) == Run(claimed, [MarkRunning(t)]);
      assert claimed.finalizers == s.finalizers - {f};
      if At(s, t).stage.Idle? {
        RunOne(claimed, MarkRunning(t));
      } else {
        assert Run(claimed, [MarkRunning(t)]) == claimed;
      }
    } else {
      assert !Enabled(gated, MarkRunning(t)) && Run(gated, [MarkRunning(t)]) == gated;
      assert Run(gated, rest) == Run(gated, [MarkRunning(t)]);
    }
  }

  /** What `EmitTaskResults` does, undisturbed, is five steps of a finalizer that no other knows:
      the read, the stored marker, the gate, the claim and the durable `running`. */
  lemma EmitIsFiveSteps(s: State, f: nat, t: string, incomingCheckpoint: bool)
    requires s.mode.Up? && s.holder.Free? && f !in s.finalizers && !At(s, t).stage.Claimed?
    ensures var stored := StoredPhase(At(s, t).phase, incomingCheckpoint);
      var started := !Terminal(stored) && At(s, t).stage.Idle?;
      var s' := Run(s, [ReadResult(f, t), Store(f, incomingCheckpoint)] + [Gate(f), Claim(f), MarkRunning(t)]);
      && s'.finalizers == s.finalizers
      && At(s', t) == (if started then Task(Running, Marked, At(s, t).starts) else At(s, t).(phase := stored))
      && forall other :: other != t ==> At(s', other) == At(s, other)
  {
    var s2 := Next(Next(s, ReadResult(f, t)), Store(f, incomingCheckpoint));
    RunTwo(s, ReadResult(f, t), Store(f, incomingCheckpoint));
    StoredRuns(s2, f);
    RunConcat(s, [ReadResult(f, t), Store(f, incomingCheckpoint)], [Gate(f), Claim(f), MarkRunning(t)]);
    assert s2.finalizers - {f} == s.finalizers;
  }

  /** Recovery of the next row, undisturbed: a replayed row goes up to its durable `running`. */
  function RowSteps(s: State): seq<Step>
    requires s.mode.Recovering? && s.mode.todo != []
  {
    if At(Next(s, RecoverNext), s.mode.todo[0]).stage.Claimed? then [RecoverNext, MarkRunning(s.mode.todo[0])]
    else [RecoverNext]
  }

  lemma RecoverHead(s: State)
    requires Inv(s) && s.mode.Recovering? && s.mode.todo != []
    ensures var t, s' := s.mode.todo[0], Next(s, RecoverNext);
      && Inv(s') && s'.mode == Recovering(s.mode.todo[1..])
      && At(s', t).phase == (if At(s, t).phase.Running? then Degraded else At(s, t).phase)
      && (At(s', t).stage.Claimed? <==> At(s, t).phase.PendingOnce?)
      && At(s, t).stage.Idle? && s'.holder.Free?
      && forall other :: other != t ==> At(s', other) == At(s, other)
  {
    assert s.mode.todo[0] in s.mode.todo && StageOk(s, s.mode.todo[0]);
    StepKeepsInv(s, RecoverNext);
  }

  lemma RecoverRow(s: State)
    requires Inv(s) && s.mode.Recovering? && s.mode.todo != []
    ensures var t, s' := s.mode.todo[0], Run(s, RowSteps(s));
      && Inv(s') && s'.mode == Recovering(s.mode.todo[1..])
      && At(s', t).phase == RecoveredPhase(At(s, t).phase, At(s, t).stage.Idle?)
      && forall other :: other != t ==> At(s', other) == At(s, other)
  {
    var t, s1 := s.mode.todo[0], Next(s, RecoverNext);
    RecoverHead(s);
    if At(s1, t).stage.Claimed? {
      StepKeepsInv(s1, MarkRunning(t));
      RunTwo(s, RecoverNext, MarkRunning(t));
    } else {
      RunOne(s, RecoverNext);
    }
  }

  function PhaseAfterRecovery(s: State, t: string): Phase
    requires s.mode.Recovering?
  {
    if t in s.mode.todo then RecoveredPhase(At(s, t).phase, At(s, t).stage.Idle?) else At(s, t).phase
  }

  /** What `RecoverPending` does to the markers, the machine's recovery does too, row by row. */
  lemma {:induction false} RecoverIsItsSteps(s: State) returns (steps: seq<Step>)
    requires Inv(s) && s.mode.Recovering?
    ensures Run(s, steps).mode.Up?
    ensures forall t :: At(Run(s, steps), t).phase == PhaseAfterRecovery(s, t)
    decreases s.mode.todo
  {
    if s.mode.todo == [] {
      steps := [RecoverNext];
      assert steps[1..] == [];
      assert Run(s, steps) == Next(s, RecoverNext);
    } else {
      var t, s' := s.mode.todo[0], Run(s, RowSteps(s));
      RecoverRow(s);
      var rest := RecoverIsItsSteps(s');
      steps := RowSteps(s) + rest;
      RunConcat(s, RowSteps(s), rest);
      assert t !in s.mode.todo[1..] && forall u :: u in s.mode.todo <==> u == t || u in s.mode.todo[1..];
    }
  }
}
