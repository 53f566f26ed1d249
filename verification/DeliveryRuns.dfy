/** Concrete runs of the delivery protocol that show what it does not promise. */
module DeliveryRuns {
  import opened Common
  import opened Delivery
  import R = Retry
  import D = Dispatch
  import S = Scheduler
  import CS = CursorStore

  // ----- the race -----

  lemma Extend(c: Config, trace: seq<State>, steps: seq<Step>, step: Step, s: State)
    returns (trace': seq<State>, steps': seq<Step>)
    requires Run(c, trace, steps) && Enabled(c, trace[|steps|], step) && Do(c, trace[|steps|], step) == s
    ensures trace' == trace + [s] && steps' == steps + [step]
    ensures Run(c, trace', steps') && trace'[|steps'|] == s
  {
    trace', steps' := trace + [s], steps + [step];
  }

  const E1 := Entry(1, "a", 0)
  const E2 := Entry(2, "a", 0)
  const OLD_SNAP := D.Snap(true, 1, false)

  /** Two events of key "a" on partition 0, DLQ configured. */
  function RaceConfig(): (c: Config) { Config("c", 0, k => 0, 1, true, false) }

  function Scene(cursor: nat, retry: R.RetryState, router: RouterPhase, retrier: RetryPhase,
                 store: CS.Store, delivered: set<nat>): (s: State) {
    State([E1, E2], D.View(false, cursor, None, retry), {}, 0, router, retrier, [], [], store, delivered, {}, {}, {})
  }

  const FRESH := CS.Store(map[], map[], map[])
  const BLOCKED1 := R.RetryState(map["a" := [R.Record(E1, 1)]], map[0 := 1])
  const BLOCKED2 := R.RetryState(map["a" := [R.Record(E2, 0)]], map[0 := 2])

  lemma RaceFails() returns (trace: seq<State>, steps: seq<Step>)
    ensures Run(RaceConfig(), trace, steps)
    ensures trace[|steps|] == Scene(1, R.EMPTY, Returned(0, 2, D.Snap(false, 1, false), true), Resting, FRESH, {})
  {
    var c, snap := RaceConfig(), D.Snap(false, 1, false);
    var s0 := Scene(1, R.EMPTY, Idle, Resting, FRESH, {});
    trace, steps := [s0.(log := [])], [];
    trace, steps := Extend(c, trace, steps, Append(E1), s0.(log := [E1]));
    assert [E1] + [E2] == [E1, E2];
    trace, steps := Extend(c, trace, steps, Append(E2), s0);
    assert FirstFrom([E1, E2], 1) == 0;
    trace, steps := Extend(c, trace, steps, StartBatch(1), s0.(router := AtEntry(0, 2)));
    trace, steps := Extend(c, trace, steps, CheckBlocked(false), s0.(router := Checked(0, 2, false)));
    trace, steps := Extend(c, trace, steps, Snapshot, s0.(router := Snapped(0, 2, snap)));
    trace, steps := Extend(c, trace, steps, Deliver(false), s0.(router := Returned(0, 2, snap, true)));
  }

  /** Delivery of "a" 1 fails and is queued; the poll loop snapshots the blocked group for "a" 2. */
  lemma RaceBegins() returns (trace: seq<State>, steps: seq<Step>)
    ensures Run(RaceConfig(), trace, steps)
    ensures trace[|steps|] == Scene(1, BLOCKED1, Snapped(1, 2, OLD_SNAP), Resting, FRESH, {})
  {
    var c := RaceConfig();
    trace, steps := RaceFails();
    var s1 := Scene(1, BLOCKED1, Saving(1, 2, None), Resting, FRESH, {});
    assert R.AddBlocked(R.EMPTY, "a", R.Record(E1, 1)) == BLOCKED1 by {
      assert [] + [R.Record(E1, 1)] == [R.Record(E1, 1)];
    }
    trace, steps := Extend(c, trace, steps, Apply, s1);
    trace, steps := Extend(c, trace, steps, Save, s1.(router := AtEntry(1, 2)));
    trace, steps := Extend(c, trace, steps, CheckBlocked(true), s1.(router := Checked(1, 2, true)));
    trace, steps := Extend(c, trace, steps, Snapshot, s1.(router := Snapped(1, 2, OLD_SNAP)));
  }

  /** The retry loop delivers and pops "a" 1; its callback is pending with no floor. */
  lemma RacePops() returns (trace: seq<State>, steps: seq<Step>)
    ensures Run(RaceConfig(), trace, steps)
    ensures trace[|steps|] == Scene(1, R.EMPTY, Snapped(1, 2, OLD_SNAP), Notifying(None), FRESH, {1})
  {
    var c, rec := RaceConfig(), R.Record(E1, 1);
    trace, steps := RaceBegins();
    var s := trace[|steps|];
    trace, steps := Extend(c, trace, steps, PickHead("a"), s.(retrier := Retrying("a", rec)));
    trace, steps := Extend(c, trace, steps, RetryDeliver(S.Ok), s.(retrier := Settled("a", rec), delivered := {1}));
    assert R.Popped(BLOCKED1.groups, "a") == map[];
    assert R.IsFloor(map[], 0, None);
    R.FloorUnique(map[], 0, None, R.Floor(map[], 0));
    assert R.PopHead(BLOCKED1, "a") == R.EMPTY;
    trace, steps := Extend(c, trace, steps, PopSettled,
                           Scene(1, R.EMPTY, Snapped(1, 2, OLD_SNAP), Notifying(None), FRESH, {1}));
  }

  /** The release is not atomic with the pop. The poll loop now queues "a" 2 on the strength
      of its older snapshot and moves its cursor to 3, and the callback, still holding the
      empty floor of the pop, saves 3. The durable cursor is then past an entry that is only
      in memory: the hypothesis of `NoLoss` cannot be dropped. */
  lemma FloorReleaseRaceLoses() returns (trace: seq<State>, steps: seq<Step>)
    ensures Run(RaceConfig(), trace, steps) && !RaceConfig().flusher
    ensures var s := trace[|steps|];
            && |s.log| == 2 && RaceConfig().start <= s.log[1].sn < Durable(RaceConfig(), s)
            && !Done(RaceConfig(), s, s.log[1].sn)
  {
    var c := RaceConfig();
    trace, steps := RacePops();
    var s := trace[|steps|];
    trace, steps := Extend(c, trace, steps, Deliver(true), s.(router := Returned(1, 2, OLD_SNAP, false)));
    assert R.AddBlocked(R.EMPTY, "a", R.Record(E2, 0)) == BLOCKED2 by {
      assert [] + [R.Record(E2, 0)] == [R.Record(E2, 0)];
    }
    s := Scene(3, BLOCKED2, Saving(2, 2, Some(2)), Notifying(None), FRESH, {1});
    trace, steps := Extend(c, trace, steps, Apply, s);
    var k := ("c", 0);
    s := s.(router := AtEntry(2, 2), store := CS.Store(map[k := 2], map[], map[]));
    trace, steps := Extend(c, trace, steps, Save, s);
    s := s.(retrier := Resting, store := CS.Store(map[k := 3], map[], map[]));
    trace, steps := Extend(c, trace, steps, Notify, s);
    s := s.(store := CS.Store(map[], map[k := 3], map[]));
    trace, steps := Extend(c, trace, steps, Persist(CS.BeginFlush), s);
    s := s.(store := CS.Store(map[], map[], map[k := 3]));
    assert map[] + map[k := 3] == map[k := 3];
    trace, steps := Extend(c, trace, steps, Persist(CS.Commit), s);
  }

  // ----- a pop that lowers the floor -----

  const STORE1 := CS.Store(map[("c", 0) := 1], map[], map[])
  const STORE2 := CS.Store(map[("c", 0) := 2], map[], map[])
  const BLOCKED2_FAILED := R.RetryState(map["a" := [R.Record(E2, 1)]], map[0 := 2])
  const BLOCKED21 := R.RetryState(map["a" := [R.Record(E2, 1), R.Record(E1, 0)]], map[0 := 2])

  /** "a" 1 fails, is retried and popped; its release saves the unmoved cursor. */
  lemma FirstIsRetried() returns (trace: seq<State>, steps: seq<Step>)
    ensures Run(RaceConfig(), trace, steps)
    ensures trace[|steps|] == Scene(1, R.EMPTY, AtEntry(1, 2), Resting, STORE1, {1})
  {
    var c, rec := RaceConfig(), R.Record(E1, 1);
    trace, steps := RaceFails();
    assert R.AddBlocked(R.EMPTY, "a", rec) == BLOCKED1 by {
      assert [] + [rec] == [rec];
    }
    var s := Scene(1, BLOCKED1, Saving(1, 2, None), Resting, FRESH, {});
    trace, steps := Extend(c, trace, steps, Apply, s);
    s := s.(router := AtEntry(1, 2));
    trace, steps := Extend(c, trace, steps, Save, s);
    trace, steps := Extend(c, trace, steps, PickHead("a"), s.(retrier := Retrying("a", rec)));
    trace, steps := Extend(c, trace, steps, RetryDeliver(S.Ok), s.(retrier := Settled("a", rec), delivered := {1}));
    assert R.Popped(BLOCKED1.groups, "a") == map[] && R.IsFloor(map[], 0, None);
    R.FloorUnique(map[], 0, None, R.Floor(map[], 0));
    assert R.PopHead(BLOCKED1, "a") == R.EMPTY;
    s := Scene(1, R.EMPTY, AtEntry(1, 2), Notifying(None), FRESH, {1});
    trace, steps := Extend(c, trace, steps, PopSettled, s);
    trace, steps := Extend(c, trace, steps, Notify, s.(retrier := Resting, store := STORE1));
  }

  /** "a" 2 fails and heads a new queue. */
  lemma SecondHeadsQueue() returns (trace: seq<State>, steps: seq<Step>)
    ensures Run(RaceConfig(), trace, steps)
    ensures trace[|steps|] == Scene(1, BLOCKED2_FAILED, Idle, Resting, STORE1, {1})
  {
    var c, snap := RaceConfig(), D.Snap(false, 1, false);
    trace, steps := FirstIsRetried();
    var s := trace[|steps|];
    trace, steps := Extend(c, trace, steps, CheckBlocked(false), s.(router := Checked(1, 2, false)));
    trace, steps := Extend(c, trace, steps, Snapshot, s.(router := Snapped(1, 2, snap)));
    trace, steps := Extend(c, trace, steps, Deliver(false), s.(router := Returned(1, 2, snap, true)));
    assert R.AddBlocked(R.EMPTY, "a", R.Record(E2, 1)) == BLOCKED2_FAILED by {
      assert [] + [R.Record(E2, 1)] == [R.Record(E2, 1)];
    }
    s := Scene(1, BLOCKED2_FAILED, Saving(2, 2, None), Resting, STORE1, {1});
    trace, steps := Extend(c, trace, steps, Apply, s);
    trace, steps := Extend(c, trace, steps, Save, s.(router := AtEntry(2, 2)));
    trace, steps := Extend(c, trace, steps, EndBatch, s.(router := Idle));
  }

  /** The next batch reads "a" 1 again and queues it behind "a" 2. */
  lemma FirstIsQueuedAgain() returns (trace: seq<State>, steps: seq<Step>)
    ensures Run(RaceConfig(), trace, steps)
    ensures trace[|steps|] == Scene(2, BLOCKED21, AtEntry(1, 2), Resting, STORE2, {1})
  {
    var c, snap := RaceConfig(), D.Snap(true, 1, false);
    trace, steps := SecondHeadsQueue();
    var s := trace[|steps|];
    assert FirstFrom([E1, E2], 1) == 0;
    trace, steps := Extend(c, trace, steps, StartBatch(1), s.(router := AtEntry(0, 2)));
    trace, steps := Extend(c, trace, steps, CheckBlocked(true), s.(router := Checked(0, 2, true)));
    trace, steps := Extend(c, trace, steps, Snapshot, s.(router := Snapped(0, 2, snap)));
    trace, steps := Extend(c, trace, steps, Deliver(true), s.(router := Returned(0, 2, snap, false)));
    assert R.AddBlocked(BLOCKED2_FAILED, "a", R.Record(E1, 0)) == BLOCKED21 by {
      assert [R.Record(E2, 1)] + [R.Record(E1, 0)] == [R.Record(E2, 1), R.Record(E1, 0)];
    }
    s := Scene(2, BLOCKED21, Saving(1, 2, Some(2)), Resting, STORE1, {1});
    trace, steps := Extend(c, trace, steps, Apply, s);
    trace, steps := Extend(c, trace, steps, Save, s.(router := AtEntry(1, 2), store := STORE2));
  }

  /** Popping "a" 2 then lowers the floor from 2 to 1. */
  lemma PopLowersFloor() returns (trace: seq<State>, steps: seq<Step>)
    ensures Run(RaceConfig(), trace, steps) && |steps| > 0 && steps[|steps| - 1] == PopSettled
    ensures FloorOf(RaceConfig(), trace[|steps| - 1]) == Some(2) && FloorOf(RaceConfig(), trace[|steps|]) == Some(1)
  {
    var c, rec := RaceConfig(), R.Record(E2, 1);
    trace, steps := FirstIsQueuedAgain();
    var s := trace[|steps|];
    trace, steps := Extend(c, trace, steps, PickHead("a"), s.(retrier := Retrying("a", rec)));
    s := s.(retrier := Settled("a", rec), delivered := {1, 2});
    trace, steps := Extend(c, trace, steps, RetryDeliver(S.Ok), s);
    var g: R.Groups := R.Popped(BLOCKED21.groups, "a");
    assert g == map["a" := [R.Record(E1, 0)]];
    assert R.HeadOn(g, "a", 0) && R.IsFloor(g, 0, Some(1));
    R.FloorUnique(g, 0, Some(1), R.Floor(g, 0));
    trace, steps := trace + [Do(c, s, PopSettled)], steps + [PopSettled];
  }
}
