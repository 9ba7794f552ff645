/**
  Restart verification of a self-evolution cycle. At boot many workers race to rename one
  pending claim. The winner marks the campaign without a lock, possibly from a stale read;
  the others reconcile it under a lock, at most once per server generation.
 */
module RestartVerification {
  import opened Wrappers

  const HISTORY_LIMIT: nat := 50

  /** `cycle_outcome`, as far as restart verification settles it. */
  datatype Outcome = Unsettled | Absorbed | Abandoned

  datatype Transaction = Transaction(
    id: string, commitSha: string, objectiveFp: string,
    restartRequired: bool, restartVerified: bool, absorbedCounted: bool, outcome: Outcome,
    verifiedBy: string, expectedSha: string, observedSha: string, mismatch: bool, noCommit: bool)

  datatype OwnerReport = OwnerReport(outcome: Outcome, commitSha: string)

  /** One version of the campaign file. */
  datatype Campaign = Campaign(
    active: Option<Transaction>, history: seq<Transaction>, absorbedCycles: nat,
    lastReconcileGen: string, backlogId: string,
    repeatCounts: map<string, nat>, dropped: set<string>, ownerReport: Option<OwnerReport>)

  /** `items[-50:]` */
  function LastFifty(items: seq<Transaction>): seq<Transaction> {
    if |items| <= HISTORY_LIMIT then items else items[|items| - HISTORY_LIMIT..]
  }

  predicate Listed(history: seq<Transaction>, id: string) {
    exists i :: 0 <= i < |history| && history[i].id == id
  }

  function WithUnique(history: seq<Transaction>, tx: Transaction): seq<Transaction> {
    LastFifty(if tx.id != "" && Listed(history, tx.id) then history else history + [tx])
  }

  predicate Reachable(commitSha: string, observedSha: string, gitSaysAncestor: bool) {
    (commitSha != "" && observedSha != "" && commitSha == observedSha) || gitSaysAncestor
  }

  /** The transaction leaves the campaign as absorbed. */
  function AbsorbInto(c: Campaign, tx: Transaction): Campaign {
    var counted := tx.(outcome := Absorbed, absorbedCounted := true);
    Campaign(None, WithUnique(c.history, counted),
             if tx.absorbedCounted then c.absorbedCycles else c.absorbedCycles + 1,
             c.lastReconcileGen, "",
             if tx.objectiveFp == "" then c.repeatCounts else c.repeatCounts - {tx.objectiveFp},
             if tx.objectiveFp == "" then c.dropped else c.dropped - {tx.objectiveFp},
             Some(OwnerReport(Absorbed, tx.commitSha)))
  }

  /** The transaction leaves the campaign without having been absorbed. */
  function DropFrom(c: Campaign, tx: Transaction): Campaign {
    var fp := tx.objectiveFp;
    var seen := if fp in c.repeatCounts then c.repeatCounts[fp] else 0;
    c.(active := None, history := WithUnique(c.history, tx), backlogId := "",
       repeatCounts := if fp == "" then c.repeatCounts else c.repeatCounts[fp := seen + 1],
       dropped := if fp == "" then c.dropped else c.dropped + {fp})
  }

  /** A reconciler's gate is open: this generation has not reconciled yet, or has no id. */
  predicate GateOpen(c: Campaign, gen: string) {
    gen == "" || c.lastReconcileGen != gen
  }

  predicate Dangling(c: Campaign) {
    c.active.Some? && c.active.value.commitSha != "" && !c.active.value.restartVerified
  }

  /** The file after one locked reconcile. */
  function Reconciled(c: Campaign, gen: string, observedSha: string, gitSaysAncestor: bool): Campaign {
    if !GateOpen(c, gen) then c
    else if !Dangling(c) then (if gen != "" then c.(lastReconcileGen := gen) else c)
    else
      var stamped := c.(lastReconcileGen := gen);
      var tx := c.active.value.(observedSha := observedSha, restartRequired := false);
      if Reachable(tx.commitSha, observedSha, gitSaysAncestor) then
        AbsorbInto(stamped, tx.(restartVerified := true, verifiedBy := "boot_reconciliation"))
      else
        DropFrom(stamped, tx.(restartVerified := false, outcome := Abandoned))
          .(ownerReport := Some(OwnerReport(Abandoned, tx.commitSha)))
  }

  predicate ShaOk(expectedSha: string, observedSha: string) {
    expectedSha != "" && expectedSha == observedSha
  }

  /** What the winner of the rename writes, given the version it read; `None`: it writes nothing. */
  function Marked(c: Campaign, expectedSha: string, observedSha: string): Option<Campaign> {
    if c.active.None? then None
    else
      var ok := ShaOk(expectedSha, observedSha);
      var tx := c.active.value.(expectedSha := expectedSha, observedSha := observedSha);
      if tx.commitSha != "" && tx.commitSha != expectedSha then
        Some(c.(active := Some(tx.(restartRequired := true, restartVerified := false, mismatch := true))))
      else
        var verified := tx.(restartRequired := !ok, restartVerified := ok);
        if ok && tx.commitSha != "" then Some(AbsorbInto(c, verified))
        else if ok then Some(DropFrom(c, verified.(noCommit := true)))
        else Some(c.(active := Some(verified)))
  }

  /** The campaign dictionary, which both writers change field by field. */
  class CampaignDoc {
    var active: Option<Transaction>
    var history: seq<Transaction>
    var absorbedCycles: nat
    var lastReconcileGen: string
    var backlogId: string
    var repeatCounts: map<string, nat>
    var dropped: set<string>
    var ownerReport: Option<OwnerReport>

    ghost function Value(): Campaign
      reads this
    {
      Campaign(active, history, absorbedCycles, lastReconcileGen, backlogId, repeatCounts, dropped, ownerReport)
    }

    /** A version of the file, as parsed. */
    constructor (c: Campaign)
      ensures Value() == c
    {
      active, history, absorbedCycles, lastReconcileGen :=
        c.active, c.history, c.absorbedCycles, c.lastReconcileGen;
      backlogId, repeatCounts, dropped, ownerReport := c.backlogId, c.repeatCounts, c.dropped, c.ownerReport;
    }

    method AppendUniqueTransaction(tx: Transaction)
      modifies this`history
      ensures history == WithUnique(old(history), tx)
    {
      if tx.id != "" {
        var i := 0;
        while i < |history|
          invariant 0 <= i <= |history|
          invariant history == old(history)
          invariant forall k :: 0 <= k < i ==> history[k].id != tx.id
        {
          if history[i].id == tx.id {
            history := LastFifty(history);
            return;
          }
          i := i + 1;
        }
      }
      history := LastFifty(history + [tx]);
    }

    method ClearRepeatCount(tx: Transaction)
      modifies this`repeatCounts, this`dropped
      ensures repeatCounts == if tx.objectiveFp == "" then old(repeatCounts) else old(repeatCounts) - {tx.objectiveFp}
      ensures dropped == if tx.objectiveFp == "" then old(dropped) else old(dropped) - {tx.objectiveFp}
    {
      if tx.objectiveFp == "" {
        return;
      }
      repeatCounts := repeatCounts - {tx.objectiveFp};
      dropped := dropped - {tx.objectiveFp};
    }

    method BumpRepeatCount(tx: Transaction)
      modifies this`repeatCounts, this`dropped
      ensures repeatCounts == if tx.objectiveFp == "" then old(repeatCounts)
        else old(repeatCounts)[tx.objectiveFp :=
          (if tx.objectiveFp in old(repeatCounts) then old(repeatCounts)[tx.objectiveFp] else 0) + 1]
      ensures dropped == if tx.objectiveFp == "" then old(dropped) else old(dropped) + {tx.objectiveFp}
    {
      if tx.objectiveFp == "" {
        return;
      }
      var seen := if tx.objectiveFp in repeatCounts then repeatCounts[tx.objectiveFp] else 0;
      repeatCounts := repeatCounts[tx.objectiveFp := seen + 1];
      dropped := dropped + {tx.objectiveFp};
    }

    /** The absorbing tail both writers share: count once, list, clear, report. */
    method Absorb(tx: Transaction)
      modifies this
      ensures Value() == AbsorbInto(old(Value()), tx)
    {
      var counted := tx.(outcome := Absorbed);
      if !counted.absorbedCounted {
        absorbedCycles := absorbedCycles + 1;
        counted := counted.(absorbedCounted := true);
      }
      AppendUniqueTransaction(counted);
      active := None;
      backlogId := "";
      ClearRepeatCount(counted);
      ownerReport := Some(OwnerReport(Absorbed, counted.commitSha));
    }

    /** The tail of a transaction that ends without being absorbed. */
    method Drop(tx: Transaction)
      modifies this
      ensures Value() == DropFrom(old(Value()), tx)
    {
      AppendUniqueTransaction(tx);
      active := None;
      backlogId := "";
      BumpRepeatCount(tx);
    }

    /** The mutator a reconciler runs under the campaign lock. */
    method Reconcile(gen: string, observed: string, gitSaysAncestor: bool) returns (write: bool)
      modifies this
      ensures Value() == Reconciled(old(Value()), gen, observed, gitSaysAncestor)
      ensures !write ==> Value() == old(Value())
    {
      if gen != "" && lastReconcileGen == gen {
        return false;
      }
      if active.None? || active.value.commitSha == "" || active.value.restartVerified {
        if gen != "" {
          lastReconcileGen := gen;
          return true;
        }
        return false;
      }
      var tx := active.value;
      lastReconcileGen := gen;
      tx := tx.(observedSha := observed, restartRequired := false);
      if Reachable(tx.commitSha, observed, gitSaysAncestor) {
        tx := tx.(restartVerified := true, verifiedBy := "boot_reconciliation");
        Absorb(tx);
      } else {
        tx := tx.(restartVerified := false, outcome := Abandoned);
        Drop(tx);
        ownerReport := Some(OwnerReport(Abandoned, tx.commitSha));
      }
      return true;
    }

    /** The winner's unlocked marker, run on the version it read. The verdict is what goes into
        the restart event. */
    method MarkRestartVerified(expected: string, observed: string) returns (write: bool, verdict: bool)
      modifies this
      ensures Marked(old(Value()), expected, observed) == if write then Some(Value()) else None
      ensures !write ==> Value() == old(Value())
      ensures verdict == (ShaOk(expected, observed) && !ClaimsOther(old(Value()), expected))
    {
      var ok := ShaOk(expected, observed);
      if active.None? {
        return false, ok;
      }
      var tx := active.value.(expectedSha := expected, observedSha := observed);
      if tx.commitSha != "" && tx.commitSha != expected {
        active := Some(tx.(restartRequired := true, restartVerified := false, mismatch := true));
        return true, false;
      }
      tx := tx.(restartRequired := !ok, restartVerified := ok);
      if ok && tx.commitSha != "" {
        Absorb(tx);
      } else if ok {
        Drop(tx.(noCommit := true));
      } else {
        active := Some(tx);
      }
      return true, ok;
    }
  }

  // ---- All interleavings of one boot ----

  /** The active transaction holds a reviewed commit other than the claimed one. */
  predicate ClaimsOther(c: Campaign, expectedSha: string) {
    c.active.Some? && c.active.value.commitSha != "" && c.active.value.commitSha != expectedSha
  }

  /** One write or read of the shared file. A winner reads and writes in two steps, so any
      number of other steps may fall between; a reconciler does both in one. */
  datatype Step =
    | Reconcile(gen: string, observedSha: string, gitSaysAncestor: bool)
    | WinnerReads(winner: nat)
    | WinnerWrites(winner: nat, expectedSha: string, claimObservedSha: string)

  datatype World = World(file: Campaign, readBy: map<nat, Campaign>)

  function Next(w: World, s: Step): World {
    match s
    case Reconcile(gen, observed, ancestor) => w.(file := Reconciled(w.file, gen, observed, ancestor))
    case WinnerReads(n) => w.(readBy := w.readBy[n := w.file])
    case WinnerWrites(n, expected, observed) =>
      if n !in w.readBy then w
      else
        match Marked(w.readBy[n], expected, observed)
        case None => w.(readBy := w.readBy - {n})
        case Some(c) => World(c, w.readBy - {n})
  }

  function Run(w: World, steps: seq<Step>): World
    decreases steps
  {
    if steps == [] then w else Run(Next(w, steps[0]), steps[1..])
  }

  lemma OneStep(w: World, s: Step)
    ensures Run(w, [s]) == Next(w, s)
  {
    assert [s][1..] == [];
  }

  lemma ThreeSteps(w: World, a: Step, b: Step, c: Step)
    ensures Run(w, [a, b]) == Next(Next(w, a), b)
    ensures Run(w, [a, b] + [c]) == Next(Next(Next(w, a), b), c)
  {
    assert [a, b][1..] == [b] && ([a, b] + [c])[1..] == [b, c] && [b, c][1..] == [c];
    OneStep(Next(w, a), b);
    OneStep(Next(Next(w, a), b), c);
    assert Run(Next(w, a), [b, c]) == Run(Next(Next(w, a), b), [c]);
  }

  /** A campaign at boot: one transaction in flight, not counted yet, its id not listed. */
  predicate Booting(c: Campaign) {
    && c.active.Some?
    && !c.active.value.absorbedCounted
    && c.active.value.outcome.Unsettled?
    && (c.active.value.id != "" ==> !Listed(c.history, c.active.value.id))
  }

  predicate SameTransaction(a: Transaction, b: Transaction) {
    a.id == b.id && a.commitSha == b.commitSha && a.objectiveFp == b.objectiveFp
  }

  /** Still in flight: nothing counted, nothing listed. */
  predicate InFlight(c0: Campaign, c: Campaign)
    requires Booting(c0)
  {
    && c.active.Some?
    && SameTransaction(c.active.value, c0.active.value)
    && !c.active.value.absorbedCounted
    && c.active.value.outcome.Unsettled?
    && c.history == c0.history
    && c.absorbedCycles == c0.absorbedCycles
  }

  /** Left the campaign as `tx`, listed once at the end of the history. */
  predicate LeftAs(c0: Campaign, c: Campaign, tx: Transaction, absorbed: bool)
    requires Booting(c0)
  {
    && c.active.None?
    && SameTransaction(tx, c0.active.value)
    && c.history == LastFifty(c0.history + [tx])
    && tx.outcome.Absorbed? == tx.absorbedCounted == absorbed
    && c.absorbedCycles == c0.absorbedCycles + (if absorbed then 1 else 0)
  }

  predicate Left(c0: Campaign, c: Campaign, absorbed: bool)
    requires Booting(c0)
  {
    c.history != [] && LeftAs(c0, c, c.history[|c.history| - 1], absorbed)
  }

  /** Every version of the file that a run can reach is one of three. */
  predicate Consistent(c0: Campaign, c: Campaign)
    requires Booting(c0)
  {
    InFlight(c0, c) || Left(c0, c, true) || Left(c0, c, false)
  }

  predicate AllConsistent(c0: Campaign, w: World)
    requires Booting(c0)
  {
    Consistent(c0, w.file) && forall n :: n in w.readBy ==> Consistent(c0, w.readBy[n])
  }

  lemma AbsorbLeaves(c0: Campaign, c: Campaign, tx: Transaction)
    requires Booting(c0) && InFlight(c0, c)
    requires SameTransaction(tx, c0.active.value) && !tx.absorbedCounted
    ensures Left(c0, AbsorbInto(c, tx), true)
  {
    var counted := tx.(outcome := Absorbed, absorbedCounted := true);
    assert WithUnique(c.history, counted) == LastFifty(c0.history + [counted]);
  }

  lemma DropLeaves(c0: Campaign, c: Campaign, tx: Transaction)
    requires Booting(c0) && InFlight(c0, c)
    requires SameTransaction(tx, c0.active.value) && !tx.absorbedCounted && !tx.outcome.Absorbed?
    ensures Left(c0, DropFrom(c, tx), false)
  {
    assert WithUnique(c.history, tx) == LastFifty(c0.history + [tx]);
  }

  lemma ReconcileConsistent(c0: Campaign, c: Campaign, gen: string, observedSha: string, gitSaysAncestor: bool)
    requires Booting(c0) && Consistent(c0, c)
    ensures Consistent(c0, Reconciled(c, gen, observedSha, gitSaysAncestor))
    ensures GateOpen(c, gen) && Dangling(c) ==>
      Left(c0, Reconciled(c, gen, observedSha, gitSaysAncestor), Reachable(c.active.value.commitSha, observedSha, gitSaysAncestor))
  {
    if GateOpen(c, gen) && Dangling(c) {
      var stamped := c.(lastReconcileGen := gen);
      var tx := c.active.value.(observedSha := observedSha, restartRequired := false);
      AbsorbLeaves(c0, stamped, tx.(restartVerified := true, verifiedBy := "boot_reconciliation"));
      DropLeaves(c0, stamped, tx.(restartVerified := false, outcome := Abandoned));
    }
  }

  lemma MarkConsistent(c0: Campaign, c: Campaign, expectedSha: string, observedSha: string)
    requires Booting(c0) && Consistent(c0, c)
    ensures Marked(c, expectedSha, observedSha).Some? ==> Consistent(c0, Marked(c, expectedSha, observedSha).value)
    ensures InFlight(c0, c) && c.active.value.commitSha == expectedSha == observedSha && observedSha != "" ==>
      Marked(c, expectedSha, observedSha).Some? && Left(c0, Marked(c, expectedSha, observedSha).value, true)
  {
    if c.active.Some? {
      assert InFlight(c0, c);
      var ok := ShaOk(expectedSha, observedSha);
      var tx := c.active.value.(expectedSha := expectedSha, observedSha := observedSha,
                                restartRequired := !ok, restartVerified := ok);
      if ok && tx.commitSha == expectedSha {
        AbsorbLeaves(c0, c, tx);
      } else if ok && tx.commitSha == "" {
        DropLeaves(c0, c, tx.(noCommit := true));
      }
    }
  }

  lemma StepConsistent(c0: Campaign, w: World, s: Step)
    requires Booting(c0) && AllConsistent(c0, w)
    ensures AllConsistent(c0, Next(w, s))
  {
    match s {
      case Reconcile(gen, observed, ancestor) => ReconcileConsistent(c0, w.file, gen, observed, ancestor);
      case WinnerReads(_) =>
      case WinnerWrites(n, expected, observed) =>
        if n in w.readBy {
          MarkConsistent(c0, w.readBy[n], expected, observed);
        }
    }
  }

  lemma {:induction false} RunsConsistent(c0: Campaign, w: World, steps: seq<Step>)
    requires Booting(c0) && AllConsistent(c0, w)
    ensures AllConsistent(c0, Run(w, steps))
    decreases steps
  {
    if steps != [] {
      StepConsistent(c0, w, steps[0]);
      RunsConsistent(c0, Next(w, steps[0]), steps[1..]);
    }
  }

  function TimesListed(history: seq<Transaction>, id: string): nat {
    if history == [] then 0
    else TimesListed(history[..|history| - 1], id) + (if history[|history| - 1].id == id then 1 else 0)
  }

  lemma {:induction false} NeverListed(history: seq<Transaction>, id: string)
    requires !Listed(history, id)
    ensures TimesListed(history, id) == 0
  {
    if history != [] {
      NeverListed(history[..|history| - 1], id);
    }
  }

  /** Whatever the interleaving of any number of stale winners and locked reconcilers, the
      file counts the transaction at most once, lists its id at most once, and shows it
      absorbed exactly when the counter has risen and it is no longer active. */
  lemma AbsorbedAtMostOnce(c0: Campaign, steps: seq<Step>)
    requires Booting(c0) && c0.active.value.id != ""
    ensures var c := Run(World(c0, map[]), steps).file; var id := c0.active.value.id;
      && c0.absorbedCycles <= c.absorbedCycles <= c0.absorbedCycles + 1
      && TimesListed(c.history, id) <= 1
      && (TimesListed(c.history, id) == 1 <==> c.active.None?)
      && ((exists i :: 0 <= i < |c.history| && c.history[i].id == id && c.history[i].outcome.Absorbed?)
          <==> c.absorbedCycles == c0.absorbedCycles + 1)
      && (c.absorbedCycles == c0.absorbedCycles + 1 ==> c.active.None?)
  {
    var c := Run(World(c0, map[]), steps).file;
    var id := c0.active.value.id;
    RunsConsistent(c0, World(c0, map[]), steps);
    if InFlight(c0, c) {
      NeverListed(c.history, id);
    } else {
      ListedLast(c0, c);
    }
  }

  lemma ListedLast(c0: Campaign, c: Campaign)
    requires Booting(c0) && c0.active.value.id != "" && (Left(c0, c, true) || Left(c0, c, false))
    ensures TimesListed(c.history, c0.active.value.id) == 1
    ensures forall i :: 0 <= i < |c.history| ==> (c.history[i].id == c0.active.value.id <==> i == |c.history| - 1)
  {
    var last, id := |c.history| - 1, c0.active.value.id;
    var before := c.history[..last];
    assert c.history[last].id == id;
    forall i | 0 <= i < last ensures before[i].id != id {
      assert before[i] == c.history[i] && c.history[i] in c0.history;
    }
    NeverListed(before, id);
  }

  // ---- Only a commit is absorbed ----

  /** The file shows the transaction absorbed only if it has a reviewed commit. */
  predicate CommitOk(c0: Campaign, c: Campaign)
    requires Booting(c0)
  {
    Left(c0, c, true) ==> c0.active.value.commitSha != ""
  }

  lemma StepNeedsCommit(c0: Campaign, w: World, s: Step)
    requires Booting(c0) && AllConsistent(c0, w)
    requires CommitOk(c0, w.file) && forall n :: n in w.readBy ==> CommitOk(c0, w.readBy[n])
    ensures CommitOk(c0, Next(w, s).file) && forall n :: n in Next(w, s).readBy ==> CommitOk(c0, Next(w, s).readBy[n])
  {
    match s {
      case Reconcile(gen, observed, ancestor) => ReconcileConsistent(c0, w.file, gen, observed, ancestor);
      case WinnerReads(_) =>
      case WinnerWrites(n, expected, observed) =>
        if n in w.readBy && c0.active.value.commitSha == "" {
          MarkWithoutCommit(c0, w.readBy[n], expected, observed);
        }
    }
  }

  /** What a marker does to a transaction without a commit: when claim and HEAD agree it leaves the
      campaign uncounted, and otherwise it stays in flight and blocks the next cycle. */
  lemma MarkWithoutCommit(c0: Campaign, c: Campaign, expectedSha: string, observedSha: string)
    requires Booting(c0) && c0.active.value.commitSha == "" && Consistent(c0, c)
    ensures InFlight(c0, c) <==> Marked(c, expectedSha, observedSha).Some?
    ensures InFlight(c0, c) ==>
      var c' := Marked(c, expectedSha, observedSha).value;
      && (Left(c0, c', false) <==> expectedSha != "" && expectedSha == observedSha)
      && (!Left(c0, c', false) ==> InFlight(c0, c') && c'.active.value.restartRequired)
      && !Left(c0, c', true)
      && c'.absorbedCycles == c.absorbedCycles
  {
    MarkConsistent(c0, c, expectedSha, observedSha);
  }

  lemma {:induction false} RunNeedsCommit(c0: Campaign, w: World, steps: seq<Step>)
    requires Booting(c0) && AllConsistent(c0, w)
    requires CommitOk(c0, w.file) && forall n :: n in w.readBy ==> CommitOk(c0, w.readBy[n])
    ensures CommitOk(c0, Run(w, steps).file)
    decreases steps
  {
    if steps != [] {
      StepNeedsCommit(c0, w, steps[0]);
      StepConsistent(c0, w, steps[0]);
      RunNeedsCommit(c0, Next(w, steps[0]), steps[1..]);
    }
  }

  /** Over any interleaving from a boot, a cycle is counted only for a reviewed commit. */
  lemma CountedHasCommit(c0: Campaign, steps: seq<Step>)
    requires Booting(c0)
    ensures Run(World(c0, map[]), steps).file.absorbedCycles == c0.absorbedCycles + 1 ==> c0.active.value.commitSha != ""
  {
    RunNeedsCommit(c0, World(c0, map[]), steps);
    RunsConsistent(c0, World(c0, map[]), steps);
  }

  // ---- What settling does to the rest of the campaign ----

  /** The objective's tally and dropped mark as an absorption leaves them: cleared, and only those. */
  predicate Cleared(c: Campaign, c': Campaign, fp: string) {
    c'.repeatCounts == (if fp == "" then c.repeatCounts else c.repeatCounts - {fp})
    && c'.dropped == (if fp == "" then c.dropped else c.dropped - {fp})
  }

  /** And as a cycle that absorbs nothing leaves them: one more, and marked dropped. */
  predicate Bumped(c: Campaign, c': Campaign, fp: string) {
    if fp == "" then c'.repeatCounts == c.repeatCounts && c'.dropped == c.dropped
    else
      && c'.repeatCounts == c.repeatCounts[fp := (if fp in c.repeatCounts then c.repeatCounts[fp] else 0) + 1]
      && c'.dropped == c.dropped + {fp}
  }

  /** An open gate over a dangling transaction: a reachable commit is counted, reported absorbed and
      clears the objective's tally; another is reported abandoned and adds to it. Either way the
      backlog link goes and the generation is stamped. */
  lemma ReconcileEffects(c: Campaign, gen: string, observedSha: string, gitSaysAncestor: bool)
    requires c.active.Some?
    requires c.active.value.commitSha != "" && !c.active.value.restartVerified && (gen == "" || c.lastReconcileGen != gen)
    ensures var tx := c.active.value; var c' := Reconciled(c, gen, observedSha, gitSaysAncestor);
      && c'.active.None? && c'.backlogId == "" && c'.lastReconcileGen == gen
      && if tx.commitSha == observedSha || gitSaysAncestor then
           && c'.absorbedCycles == (if tx.absorbedCounted then c.absorbedCycles else c.absorbedCycles + 1)
           && Cleared(c, c', tx.objectiveFp) && c'.ownerReport == Some(OwnerReport(Absorbed, tx.commitSha))
           && c'.history == WithUnique(c.history, tx.(observedSha := observedSha, restartRequired := false, restartVerified := true,
                verifiedBy := "boot_reconciliation", outcome := Absorbed, absorbedCounted := true))
         else
           && c'.absorbedCycles == c.absorbedCycles && Bumped(c, c', tx.objectiveFp)
           && c'.ownerReport == Some(OwnerReport(Abandoned, tx.commitSha))
           && c'.history == WithUnique(c.history, tx.(observedSha := observedSha, restartRequired := false,
                restartVerified := false, outcome := Abandoned))
  {
    var stamped := c.(lastReconcileGen := gen);
    var tx := c.active.value.(observedSha := observedSha, restartRequired := false);
    if tx.commitSha == observedSha || gitSaysAncestor {
      var verified := tx.(restartVerified := true, verifiedBy := "boot_reconciliation");
      assert Reconciled(c, gen, observedSha, gitSaysAncestor) == AbsorbInto(stamped, verified);
    } else {
      var abandoned := tx.(restartVerified := false, outcome := Abandoned);
      assert Reconciled(c, gen, observedSha, gitSaysAncestor)
          == DropFrom(stamped, abandoned).(ownerReport := Some(OwnerReport(Abandoned, tx.commitSha)));
    }
  }

  /** The marker's four outcomes. A claim for another commit blocks the cycle; so does a claim that
      HEAD does not match. A matching claim absorbs the reviewed commit, or, without one, lets the
      cycle go with one more on its objective's tally, uncounted and unreported. */
  lemma MarkEffects(c: Campaign, expectedSha: string, observedSha: string)
    requires c.active.Some?
    ensures Marked(c, expectedSha, observedSha).Some?
    ensures var tx := c.active.value; var c' := Marked(c, expectedSha, observedSha).value;
      && c'.lastReconcileGen == c.lastReconcileGen
      && if (tx.commitSha != "" && tx.commitSha != expectedSha) || expectedSha == "" || expectedSha != observedSha then
           && c'.active.Some? && c'.active.value.restartRequired && !c'.active.value.restartVerified
           && c'.active.value.mismatch == (tx.mismatch || (tx.commitSha != "" && tx.commitSha != expectedSha))
           && c'.(active := c.active) == c
         else if tx.commitSha != "" then
           && c'.active.None? && c'.backlogId == ""
           && c'.absorbedCycles == (if tx.absorbedCounted then c.absorbedCycles else c.absorbedCycles + 1)
           && Cleared(c, c', tx.objectiveFp) && c'.ownerReport == Some(OwnerReport(Absorbed, tx.commitSha))
           && c'.history == WithUnique(c.history, tx.(expectedSha := expectedSha, observedSha := observedSha,
                restartRequired := false, restartVerified := true, outcome := Absorbed, absorbedCounted := true))
         else
           && c'.active.None? && c'.backlogId == "" && c'.absorbedCycles == c.absorbedCycles
           && Bumped(c, c', tx.objectiveFp) && c'.ownerReport == c.ownerReport
           && c'.history == WithUnique(c.history, tx.(expectedSha := expectedSha, observedSha := observedSha,
                restartRequired := false, restartVerified := true, noCommit := true))
  {}

  /** The history keeps the fifty newest; an id that it lists already is not added again. */
  lemma HistoryKeepsNewest(history: seq<Transaction>, tx: Transaction)
    ensures var w := WithUnique(history, tx);
      && |w| <= 50
      && if tx.id != "" && Listed(history, tx.id) then
           (|history| <= 50 ==> w == history) && (|history| > 50 ==> w == history[|history| - 50..])
         else
           (|history| < 50 ==> w == history + [tx]) && (|history| >= 50 ==> w == history[|history| - 49..] + [tx])
  {
    if !(tx.id != "" && Listed(history, tx.id)) && |history| >= 50 {
      assert (history + [tx])[|history| + 1 - 50..] == history[|history| - 49..] + [tx];
    }
  }

  // ---- The reviewed commit is HEAD ----

  /** Every observation of the run is the reviewed commit, and so is every claim. */
  predicate AtHead(commitSha: string, s: Step) {
    match s
    case Reconcile(_, observed, _) => observed == commitSha
    case WinnerReads(_) => true
    case WinnerWrites(_, expected, observed) => expected == observed == commitSha
  }

  /** The step settles the transaction: a winner finishes, or a reconciler's gate is open. */
  predicate Decides(w: World, s: Step) {
    match s
    case Reconcile(gen, _, _) => GateOpen(w.file, gen)
    case WinnerReads(_) => false
    case WinnerWrites(n, _, _) => n in w.readBy
  }

  predicate SomeDecides(w: World, steps: seq<Step>)
    decreases steps
  {
    steps != [] && (Decides(w, steps[0]) || SomeDecides(Next(w, steps[0]), steps[1..]))
  }

  /** Unverified in flight, or absorbed; a version read while it was absorbed means the file is. */
  predicate HeadWorld(c0: Campaign, w: World)
    requires Booting(c0)
  {
    && AllConsistent(c0, w)
    && (InFlight(c0, w.file) ==> !w.file.active.value.restartVerified)
    && (InFlight(c0, w.file) || Left(c0, w.file, true))
    && forall n :: n in w.readBy ==>
         && (InFlight(c0, w.readBy[n]) || Left(c0, w.readBy[n], true))
         && (Left(c0, w.readBy[n], true) ==> Left(c0, w.file, true))
  }

  lemma HeadStep(c0: Campaign, w: World, s: Step)
    requires Booting(c0) && c0.active.value.commitSha != "" && HeadWorld(c0, w)
    requires AtHead(c0.active.value.commitSha, s)
    ensures HeadWorld(c0, Next(w, s))
    ensures Decides(w, s) || Left(c0, w.file, true) ==> Left(c0, Next(w, s).file, true)
  {
    match s {
      case Reconcile(gen, observed, ancestor) => ReconcileConsistent(c0, w.file, gen, observed, ancestor);
      case WinnerReads(_) =>
      case WinnerWrites(n, expected, observed) =>
        if n in w.readBy {
          MarkConsistent(c0, w.readBy[n], expected, observed);
        }
    }
  }

  lemma {:induction false} HeadRun(c0: Campaign, w: World, steps: seq<Step>)
    requires Booting(c0) && c0.active.value.commitSha != "" && HeadWorld(c0, w)
    requires forall s :: s in steps ==> AtHead(c0.active.value.commitSha, s)
    ensures SomeDecides(w, steps) || Left(c0, w.file, true) ==> Left(c0, Run(w, steps).file, true)
    decreases steps
  {
    if steps != [] {
      HeadStep(c0, w, steps[0]);
      HeadRun(c0, Next(w, steps[0]), steps[1..]);
    }
  }

  /** When the reviewed commit is HEAD and matches the claim, every interleaving in which
      anyone settles the transaction ends in the same outcome: absorbed, counted once. */
  lemma HeadAlwaysAbsorbs(c0: Campaign, steps: seq<Step>)
    requires Booting(c0) && c0.active.value.commitSha != "" && !c0.active.value.restartVerified
    requires forall s :: s in steps ==> AtHead(c0.active.value.commitSha, s)
    requires SomeDecides(World(c0, map[]), steps)
    ensures Left(c0, Run(World(c0, map[]), steps).file, true)
  {
    HeadRun(c0, World(c0, map[]), steps);
  }

  /** A marker that read the file in flight would write while claim, HEAD and reviewed commit are
      not one and the same. */
  predicate Undoes(c0: Campaign, w: World, s: Step)
    requires Booting(c0)
  {
    && s.WinnerWrites? && s.winner in w.readBy && InFlight(c0, w.readBy[s.winner])
    && !(c0.active.value.commitSha == s.expectedSha == s.claimObservedSha)
  }

  lemma MarkExactly(c0: Campaign, c: Campaign, expectedSha: string, observedSha: string)
    requires Booting(c0) && c0.active.value.commitSha != "" && Consistent(c0, c)
    ensures InFlight(c0, c) <==> Marked(c, expectedSha, observedSha).Some?
    ensures InFlight(c0, c) ==>
      var c' := Marked(c, expectedSha, observedSha).value;
      && (Left(c0, c', true) <==> c0.active.value.commitSha == expectedSha == observedSha)
      && (!Left(c0, c', true) ==> InFlight(c0, c') && c'.lastReconcileGen == c.lastReconcileGen)
  {
    MarkConsistent(c0, c, expectedSha, observedSha);
  }

  /** The known limitation, exactly: from any point of any run at which the transaction has been
      absorbed, a step undoes that if and only if it is the write of a marker that had read the
      file before and whose claim, observed HEAD and reviewed commit are not one and the same. The
      file is then as that marker read it, in flight and with the old generation stamp. */
  lemma StaleWinner(c0: Campaign, w: World, s: Step)
    requires Booting(c0) && c0.active.value.commitSha != ""
    requires AllConsistent(c0, w) && Left(c0, w.file, true)
    ensures Left(c0, Next(w, s).file, true) <==> !Undoes(c0, w, s)
    ensures Undoes(c0, w, s) ==>
      InFlight(c0, Next(w, s).file) && Next(w, s).file.lastReconcileGen == w.readBy[s.winner].lastReconcileGen
  {
    match s {
      case Reconcile(gen, observed, ancestor) => ReconcileConsistent(c0, w.file, gen, observed, ancestor);
      case WinnerReads(_) =>
      case WinnerWrites(n, expected, observed) =>
        if n in w.readBy {
          MarkExactly(c0, w.readBy[n], expected, observed);
          MarkConsistent(c0, w.readBy[n], expected, observed);
        }
    }
  }

  predicate StaysAbsorbed(c0: Campaign, w: World, steps: seq<Step>)
    requires Booting(c0)
    decreases steps
  {
    Left(c0, w.file, true) && (steps != [] ==> StaysAbsorbed(c0, Next(w, steps[0]), steps[1..]))
  }

  predicate NeverUndone(c0: Campaign, w: World, steps: seq<Step>)
    requires Booting(c0)
    decreases steps
  {
    steps != [] ==> !Undoes(c0, w, steps[0]) && NeverUndone(c0, Next(w, steps[0]), steps[1..])
  }

  /** Over a whole run: once absorbed, the transaction stays absorbed at every point if and only if
      no marker undoes it. */
  lemma {:induction false} AbsorptionLasts(c0: Campaign, w: World, steps: seq<Step>)
    requires Booting(c0) && c0.active.value.commitSha != ""
    requires AllConsistent(c0, w) && Left(c0, w.file, true)
    ensures StaysAbsorbed(c0, w, steps) <==> NeverUndone(c0, w, steps)
    decreases steps
  {
    if steps != [] {
      StaleWinner(c0, w, steps[0]);
      if !Undoes(c0, w, steps[0]) {
        StepConsistent(c0, w, steps[0]);
        AbsorptionLasts(c0, Next(w, steps[0]), steps[1..]);
      }
    }
  }

  /** The shortest such run from a boot: read, absorption, stale write. */
  lemma StaleWinnerRun(c0: Campaign, n: nat, gen: string, observedSha: string, expectedSha: string, claimObservedSha: string)
    requires Booting(c0) && c0.active.value.commitSha != "" && !c0.active.value.restartVerified
    requires GateOpen(c0, gen) && !(c0.active.value.commitSha == expectedSha == claimObservedSha)
    ensures var absorbing := [WinnerReads(n), Reconcile(gen, observedSha, true)];
      var w, w' := Run(World(c0, map[]), absorbing), Run(World(c0, map[]), absorbing + [WinnerWrites(n, expectedSha, claimObservedSha)]);
      && Left(c0, w.file, true)
      && InFlight(c0, w'.file)
      && w'.file.lastReconcileGen == c0.lastReconcileGen
  {
    ThreeSteps(World(c0, map[]), WinnerReads(n), Reconcile(gen, observedSha, true),
               WinnerWrites(n, expectedSha, claimObservedSha));
    ReconcileConsistent(c0, c0, gen, observedSha, true);
    MarkExactly(c0, c0, expectedSha, claimObservedSha);
  }

  // ---- One generation ----

  /** A boot or respawn of a worker that lost the rename, or a change made elsewhere (a
      reviewed commit landing, a new transaction), which never touches the generation stamp. */
  datatype GenStep = Boot(observedSha: string, gitSaysAncestor: bool) | Elsewhere(campaign: Campaign)

  function GenNext(c: Campaign, gen: string, s: GenStep): Campaign {
    match s
    case Boot(observed, ancestor) => Reconciled(c, gen, observed, ancestor)
    case Elsewhere(c') => c'.(lastReconcileGen := c.lastReconcileGen)
  }

  function GenRun(c: Campaign, gen: string, steps: seq<GenStep>): Campaign
    decreases steps
  {
    if steps == [] then c else GenRun(GenNext(c, gen, steps[0]), gen, steps[1..])
  }

  /** How many boots of the run settled a transaction. */
  function Decisions(c: Campaign, gen: string, steps: seq<GenStep>): nat
    decreases steps
  {
    if steps == [] then 0
    else (if steps[0].Boot? && GateOpen(c, gen) && Dangling(c) then 1 else 0)
         + Decisions(GenNext(c, gen, steps[0]), gen, steps[1..])
  }

  function WithoutBoots(steps: seq<GenStep>): seq<GenStep> {
    if steps == [] then []
    else if steps[0].Boot? then WithoutBoots(steps[1..])
    else [steps[0]] + WithoutBoots(steps[1..])
  }

  /** Once a worker has stamped the generation, later boots in it change nothing at all: a
      commit that lands afterwards waits for a new generation. */
  lemma {:induction false} StampedGenerationRests(c: Campaign, gen: string, steps: seq<GenStep>)
    requires gen != "" && c.lastReconcileGen == gen
    ensures Decisions(c, gen, steps) == 0
    ensures GenRun(c, gen, steps) == GenRun(c, gen, WithoutBoots(steps))
    decreases steps
  {
    if steps != [] {
      StampedGenerationRests(GenNext(c, gen, steps[0]), gen, steps[1..]);
      if steps[0].Elsewhere? {
        assert WithoutBoots(steps)[1..] == WithoutBoots(steps[1..]);
      }
    }
  }

  /** However many workers boot or respawn, a generation takes at most one decision; and the
      first boot stamps it, decision or not. */
  lemma {:induction false} OneDecisionPerGeneration(c: Campaign, gen: string, steps: seq<GenStep>)
    requires gen != ""
    ensures Decisions(c, gen, steps) <= 1
    ensures (exists i :: 0 <= i < |steps| && steps[i].Boot?) ==> GenRun(c, gen, steps).lastReconcileGen == gen
    decreases steps
  {
    if steps != [] {
      var c' := GenNext(c, gen, steps[0]);
      if steps[0].Boot? {
        StampedGenerationRests(c', gen, steps[1..]);
        StampKept(c', gen, steps[1..]);
      } else {
        OneDecisionPerGeneration(c', gen, steps[1..]);
        if i :| 0 <= i < |steps| && steps[i].Boot? {
          assert steps[1..][i - 1].Boot?;
        }
      }
    }
  }

  lemma {:induction false} StampKept(c: Campaign, gen: string, steps: seq<GenStep>)
    requires gen != "" && c.lastReconcileGen == gen
    ensures GenRun(c, gen, steps).lastReconcileGen == gen
    decreases steps
  {
    if steps != [] {
      StampKept(GenNext(c, gen, steps[0]), gen, steps[1..]);
    }
  }

  /** A reconciler absorbs only a commit that the observed HEAD contains, only through an open
      gate, and abandons exactly the dangling commits that HEAD does not contain. */
  lemma ReconcilerVerdict(c: Campaign, gen: string, observedSha: string, gitSaysAncestor: bool)
    requires c.active.Some? && !c.active.value.absorbedCounted
    ensures var c' := Reconciled(c, gen, observedSha, gitSaysAncestor); var tx := c.active.value;
      var due := (gen == "" || c.lastReconcileGen != gen) && tx.commitSha != "" && !tx.restartVerified;
      var reachable := (observedSha != "" && tx.commitSha == observedSha) || gitSaysAncestor;
      && (c'.absorbedCycles > c.absorbedCycles <==> due && reachable)
      && (c'.active.None? <==> due)
      && (!due ==> c'.(lastReconcileGen := c.lastReconcileGen) == c)
      && (c'.active.None? && !reachable ==> c'.ownerReport == Some(OwnerReport(Abandoned, c.active.value.commitSha)))
  {}
}
