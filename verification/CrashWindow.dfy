/**
  The launcher's lifecycle loop: it restarts the agent after every exit, and gives up when
  five crashes fall within two minutes.
 */
module CrashWindow {

  const MAX_CRASH_RESTARTS: nat := 5
  const CRASH_WINDOW_SEC: real := 120.0
  const RESTART_EXIT_CODE := 42
  const PANIC_EXIT_CODE := 99

  /** One exit of the agent: its code, whether a shutdown had been requested by then, the clock
      reading taken if it counts as a crash, and whether a shutdown is requested before the loop
      comes round to start the agent again. */
  datatype Exit = Exit(code: int, shutdown: bool, now: real, shutdownLater: bool)

  datatype Ending = StillRunning | ShutDown | Panicked | CrashLimit

  predicate IsCrash(e: Exit) {
    !e.shutdown && e.code != PANIC_EXIT_CODE && e.code != RESTART_EXIT_CODE
  }

  /** The times of all crashes, oldest first. */
  function Crashes(exits: seq<Exit>): seq<real> {
    if exits == [] then []
    else
      var before := Crashes(exits[..|exits| - 1]);
      if IsCrash(exits[|exits| - 1]) then before + [exits[|exits| - 1].now] else before
  }

  /** The stamps still inside the window that ends at `now`. */
  function InWindow(stamps: seq<real>, now: real): seq<real> {
    if stamps == [] then []
    else
      var before := InWindow(stamps[..|stamps| - 1], now);
      if now - stamps[|stamps| - 1] < CRASH_WINDOW_SEC then before + [stamps[|stamps| - 1]] else before
  }

  /** The list the loop keeps: appended to and pruned at every crash. */
  function Kept(exits: seq<Exit>): seq<real> {
    if exits == [] then []
    else
      var last, before := exits[|exits| - 1], Kept(exits[..|exits| - 1]);
      if IsCrash(last) then InWindow(before + [last.now], last.now) else before
  }

  function EndingAt(exits: seq<Exit>): Ending
    requires exits != []
  {
    var last := exits[|exits| - 1];
    if last.shutdown then ShutDown
    else if last.code == PANIC_EXIT_CODE then Panicked
    else if IsCrash(last) && |Kept(exits)| >= MAX_CRASH_RESTARTS then CrashLimit
    else if last.shutdownLater then ShutDown
    else StillRunning
  }

  /** What each exit leads to: a shutdown requested by then ends the loop whatever the code, the panic
      code panics, a requested restart never meets the crash limit, and any other code is a crash; an
      exit that ends nothing restarts the agent unless a shutdown is requested meanwhile. */
  lemma EndingMeans(exits: seq<Exit>, e: Exit)
    ensures e.shutdown ==> EndingAt(exits + [e]).ShutDown?
    ensures !e.shutdown && e.code == 99 ==> EndingAt(exits + [e]).Panicked?
    ensures !e.shutdown && e.code == 42 ==> EndingAt(exits + [e]) == if e.shutdownLater then ShutDown else StillRunning
    ensures !e.shutdown && e.code != 42 && e.code != 99 ==>
      EndingAt(exits + [e]).CrashLimit? || EndingAt(exits + [e]) == if e.shutdownLater then ShutDown else StillRunning
    ensures Crashes(exits + [e]) ==
      if !e.shutdown && e.code != 42 && e.code != 99 then Crashes(exits) + [e.now] else Crashes(exits)
  {
    assert (exits + [e])[..|exits|] == exits;
  }

  /** The loop got through the first `n` exits and wants to start the agent again. */
  predicate Continues(exits: seq<Exit>, n: nat)
    requires n <= |exits|
  {
    forall j :: 0 < j <= n ==> EndingAt(exits[..j]).StillRunning?
  }

  class Launcher {
    var crashTimes: seq<real>

    constructor ()
      ensures crashTimes == []
    {
      crashTimes := [];
    }

    method PruneTo(now: real)
      modifies this
      ensures crashTimes == InWindow(old(crashTimes), now)
    {
      var kept: seq<real> := [];
      for i := 0 to |crashTimes|
        invariant crashTimes == old(crashTimes)
        invariant kept == InWindow(crashTimes[..i], now)
      {
        assert crashTimes[..i + 1][..i] == crashTimes[..i];
        if now - crashTimes[i] < CRASH_WINDOW_SEC {
          kept := kept + [crashTimes[i]];
        }
      }
      assert crashTimes[..|crashTimes|] == crashTimes;
      crashTimes := kept;
    }

    /** The lifecycle loop over the agent's exits; `served` is how many of them it saw. */
    method LifecycleLoop(exits: seq<Exit>) returns (served: nat, ending: Ending)
      requires crashTimes == []
      modifies this
      ensures served <= |exits| && crashTimes == Kept(exits[..served])
      ensures ending.StillRunning? ==> served == |exits| && Continues(exits, served)
      ensures !ending.StillRunning? ==>
        served > 0 && ending == EndingAt(exits[..served]) && Continues(exits, served - 1)
    {
      served := 0;
      while served < |exits|
        invariant served <= |exits| && crashTimes == Kept(exits[..served]) && Continues(exits, served)
      {
        var e := exits[served];
        served := served + 1;
        assert exits[..served][..served - 1] == exits[..served - 1];
        if e.shutdown {
          return served, ShutDown;
        }
        if e.code == PANIC_EXIT_CODE {
          return served, Panicked;
        }
        if e.code != RESTART_EXIT_CODE {
          crashTimes := crashTimes + [e.now];
          PruneTo(e.now);
          if |crashTimes| >= MAX_CRASH_RESTARTS {
            return served, CrashLimit;
          }
        }
        if e.shutdownLater {
          return served, ShutDown;
        }
      }
      ending := StillRunning;
    }
  }

  // ---- What the pruned list means ----

  predicate NonDecreasing(stamps: seq<real>) {
    forall i, j :: 0 <= i < j < |stamps| ==> stamps[i] <= stamps[j]
  }

  lemma {:induction false} WindowSnoc(stamps: seq<real>, t: real, now: real)
    ensures InWindow(stamps + [t], now) ==
      if now - t < CRASH_WINDOW_SEC then InWindow(stamps, now) + [t] else InWindow(stamps, now)
  {
    assert (stamps + [t])[..|stamps|] == stamps;
  }

  /** A later window of an earlier window is the later window of everything. */
  lemma {:induction false} WindowOfWindow(stamps: seq<real>, earlier: real, now: real)
    requires earlier <= now
    ensures InWindow(InWindow(stamps, earlier), now) == InWindow(stamps, now)
  {
    if stamps != [] {
      var before, t := stamps[..|stamps| - 1], stamps[|stamps| - 1];
      WindowOfWindow(before, earlier, now);
      WindowSnoc(InWindow(before, earlier), t, now);
    }
  }

  lemma KeptAfterCrash(c: seq<real>, kept: seq<real>, now: real)
    requires NonDecreasing(c + [now])
    requires kept == if c == [] then [] else InWindow(c, c[|c| - 1])
    ensures InWindow(kept + [now], now) == InWindow(c + [now], now)
  {
    WindowSnoc(c, now, now);
    WindowSnoc(kept, now, now);
    if c != [] {
      assert (c + [now])[|c| - 1] <= (c + [now])[|c|];
      WindowOfWindow(c, c[|c| - 1], now);
    }
  }

  /** Nothing that pruning dropped would still count: the list equals the whole crash history
      cut to the two minutes before the last crash. */
  lemma {:induction false} KeptIsWindow(exits: seq<Exit>)
    requires NonDecreasing(Crashes(exits))
    ensures Crashes(exits) == [] ==> Kept(exits) == []
    ensures Crashes(exits) != [] ==> Kept(exits) == InWindow(Crashes(exits), Crashes(exits)[|Crashes(exits)| - 1])
  {
    if exits != [] {
      var before, last := exits[..|exits| - 1], exits[|exits| - 1];
      var c := Crashes(before);
      if IsCrash(last) {
        assert forall i :: 0 <= i < |c| ==> c[i] == Crashes(exits)[i];
        KeptIsWindow(before);
        KeptAfterCrash(c, Kept(before), last.now);
      } else {
        KeptIsWindow(before);
      }
    }
  }

  /** The window of a history in time order is a suffix of it, so it holds `k` stamps or more
      exactly when the `k`-th stamp from the end is inside. */
  lemma {:induction false} WindowCount(stamps: seq<real>, now: real, k: nat)
    requires NonDecreasing(stamps) && k > 0
    ensures |InWindow(stamps, now)| >= k <==> |stamps| >= k && now - stamps[|stamps| - k] < CRASH_WINDOW_SEC
  {
    if stamps != [] {
      var before := stamps[..|stamps| - 1];
      if k > 1 {
        WindowCount(before, now, k - 1);
        WindowCount(before, now, k);
        if |stamps| >= k {
          assert stamps[|stamps| - k] <= stamps[|stamps| - 1];
          assert before[|before| - (k - 1)] == stamps[|stamps| - k];
        }
      } else {
        WindowCount(before, now, 1);
        if |before| >= 1 {
          assert before[|before| - 1] <= stamps[|stamps| - 1];
        }
      }
    }
  }

  /** With a clock that never steps back, the launcher gives up at a crash exactly when that
      crash and the four before it lie within less than two minutes. */
  lemma StopsExactlyAtFiveInWindow(exits: seq<Exit>)
    requires exits != [] && IsCrash(exits[|exits| - 1]) && NonDecreasing(Crashes(exits))
    ensures var c := Crashes(exits);
      EndingAt(exits).CrashLimit? <==> |c| >= 5 && c[|c| - 1] - c[|c| - 5] < CRASH_WINDOW_SEC
  {
    KeptIsWindow(exits);
    var c := Crashes(exits);
    assert c != [];
    WindowCount(c, c[|c| - 1], MAX_CRASH_RESTARTS);
  }

  lemma {:induction false} CrashesPrefix(exits: seq<Exit>, n: nat)
    requires n <= |exits|
    ensures Crashes(exits[..n]) <= Crashes(exits)
  {
    if n == |exits| {
      assert exits[..n] == exits;
    } else {
      CrashesPrefix(exits[..|exits| - 1], n);
      assert exits[..|exits| - 1][..n] == exits[..n];
    }
  }

  /** While the launcher goes on, any five consecutive crashes are spread over two minutes or more. */
  lemma {:induction false} FiveCrashesAreSpread(exits: seq<Exit>, k: nat)
    requires NonDecreasing(Crashes(exits)) && Continues(exits, |exits|)
    requires k + 4 < |Crashes(exits)|
    ensures Crashes(exits)[k + 4] - Crashes(exits)[k] >= CRASH_WINDOW_SEC
  {
    var before := exits[..|exits| - 1];
    var c := Crashes(exits);
    CrashesPrefix(exits, |exits| - 1);
    if k + 4 < |Crashes(before)| {
      forall j | 0 < j <= |before| ensures EndingAt(before[..j]).StillRunning? {
        assert before[..j] == exits[..j];
      }
      FiveCrashesAreSpread(before, k);
    } else {
      assert exits[..|exits|] == exits;
      StopsExactlyAtFiveInWindow(exits);
    }
  }

  function WithoutRestarts(exits: seq<Exit>): seq<Exit> {
    if exits == [] then []
    else
      var before, last := WithoutRestarts(exits[..|exits| - 1]), exits[|exits| - 1];
      if !last.shutdown && last.code == RESTART_EXIT_CODE then before else before + [last]
  }

  /** Requested restarts neither count as crashes nor reset the window. */
  lemma {:induction false} RestartsDoNotCount(exits: seq<Exit>)
    ensures Kept(exits) == Kept(WithoutRestarts(exits))
    ensures Crashes(exits) == Crashes(WithoutRestarts(exits))
  {
    if exits != [] {
      var before := exits[..|exits| - 1];
      RestartsDoNotCount(before);
      var w := WithoutRestarts(exits);
      if w != WithoutRestarts(before) {
        assert w[..|w| - 1] == WithoutRestarts(before);
      }
    }
  }

  /** A clock that steps back breaks the equality: a stamp pruned at 200 s would be back inside
      the window that ends at 100 s. */
  lemma BackwardClockForgets()
    ensures var exits := [Exit(1, false, 0.0, false), Exit(1, false, 200.0, false), Exit(1, false, 100.0, false)];
      Kept(exits) == [200.0, 100.0] && InWindow(Crashes(exits), 100.0) == [0.0, 200.0, 100.0]
  {
    var a, b, c := Exit(1, false, 0.0, false), Exit(1, false, 200.0, false), Exit(1, false, 100.0, false);
    assert [a, b, c][..2] == [a, b] && [a, b][..1] == [a] && [a][..0] == [];
    WindowSnoc([], 0.0, 0.0);
    assert [] + [0.0] == [0.0];
    assert Kept([a]) == [0.0] && Crashes([a]) == [0.0];
    WindowSnoc([], 0.0, 200.0);
    WindowSnoc([0.0], 200.0, 200.0);
    assert [0.0] + [200.0] == [0.0, 200.0];
    assert Kept([a, b]) == [200.0] && Crashes([a, b]) == [0.0, 200.0];
    WindowSnoc([], 200.0, 100.0);
    WindowSnoc([200.0], 100.0, 100.0);
    assert [] + [200.0] == [200.0];
    WindowSnoc([], 0.0, 100.0);
    WindowSnoc([0.0], 200.0, 100.0);
    WindowSnoc([0.0, 200.0], 100.0, 100.0);
  }
}
