/** Five runs in which a batch-flushing consumer loses an entry, one per way a step can fail
    its condition: a direct move past a buffered entry (a blocked follow-on, a skipped poison),
    a pop of an entry that the retry only buffered, a save past an entry queued behind a later
    one, and a promotion past an entry that a retry buffered while FlushBatch ran. */
module FlushLoss {
  import opened Common
  import opened Delivery
  import R = Retry
  import D = Dispatch
  import S = Scheduler
  import CS = CursorStore
  import opened DeliverySafety
  import opened DeliveryRuns
  import opened FlushGuard

  /** Events of keys "a" and "b" on one partition, a batch-flushing sink, DLQ configured. */
  const A1 := Entry(1, "a", 0)
  const A2 := Entry(2, "a", 0)
  const B2 := Entry(2, "b", 0)
  const B3 := Entry(3, "b", 0)

  function FlushConfig(): (c: Config) { Config("c", 0, k => 0, 1, true, true) }

  function Scene(log: seq<Entry>, v: D.View, router: RouterPhase, buffered: seq<nat>, delivered: set<nat>): (s: State) {
    State(log, v, {}, 0, router, Resting, buffered, [], FRESH, delivered, {}, {}, {})
  }

  function Flusher(cursor: nat, provisional: Option<nat>, retry: R.RetryState): (v: D.View) {
    D.View(true, cursor, provisional, retry)
  }

  const PLAIN := D.Snap(false, 1, false)

  /** The first entry of a batch is delivered, that is, buffered. */
  lemma BuffersFirst(log: seq<Entry>, trace0: seq<State>, steps0: seq<Step>)
    returns (trace: seq<State>, steps: seq<Step>)
    requires Run(FlushConfig(), trace0, steps0) && |log| in {2, 3} && log[0] == A1
    requires trace0[|steps0|] == trace0[|steps0|].(log := log, router := Idle, buffered := [])
    requires trace0[|steps0|].view == Flusher(1, None, R.EMPTY) && 1 !in trace0[|steps0|].skips
    ensures Run(FlushConfig(), trace, steps)
    ensures trace[|steps|] == trace0[|steps0|].(router := AtEntry(1, |log|), buffered := [1],
              view := Flusher(1, Some(2), R.EMPTY), delivered := trace0[|steps0|].delivered + {1})
  {
    var c, s, hi := FlushConfig(), trace0[|steps0|], |log|;
    assert FirstFrom(log, 1) == 0 by {
      assert log[0].sn >= 1;
    }
    trace, steps := Extend(c, trace0, steps0, StartBatch(1), s.(router := AtEntry(0, hi)));
    trace, steps := Extend(c, trace, steps, CheckBlocked(false), s.(router := Checked(0, hi, false)));
    trace, steps := Extend(c, trace, steps, Snapshot, s.(router := Snapped(0, hi, PLAIN)));
    s := s.(router := Returned(0, hi, PLAIN, false), buffered := [1], delivered := s.delivered + {1});
    assert [] + [1] == [1];
    trace, steps := Extend(c, trace, steps, Deliver(true), s);
    s := s.(router := Saving(1, hi, None), view := Flusher(1, Some(2), R.EMPTY));
    trace, steps := Extend(c, trace, steps, Apply, s);
    trace, steps := Extend(c, trace, steps, Save, s.(router := AtEntry(1, hi)));
  }

  lemma Appends(log: seq<Entry>) returns (trace: seq<State>, steps: seq<Step>)
    requires log in {[A1, B2], [A1, B2, B3], [A1, A2]}
    ensures AllSound(FlushConfig(), trace, steps) && Plain(FlushConfig(), trace, steps)
    ensures trace[|steps|] == Scene(log, Flusher(1, None, R.EMPTY), Idle, [], {})
  {
    var c, s := FlushConfig(), Scene([], Flusher(1, None, R.EMPTY), Idle, [], {});
    trace, steps := [s], [];
    assert [] + [A1] == [A1] && [A1] + [log[1]] == [A1, log[1]] && [A1, B2] + [B3] == [A1, B2, B3];
    trace, steps := Plainly(c, trace, steps, Append(A1), s.(log := [A1]));
    trace, steps := Plainly(c, trace, steps, Append(log[1]), s.(log := [A1, log[1]]));
    if log == [A1, B2, B3] {
      trace, steps := Plainly(c, trace, steps, Append(B3), s.(log := log));
    }
  }

  /** An entry below the durable and the in-memory cursor that no flush, DLQ or queue has. */
  ghost predicate Lost(c: Config, s: State, e: Entry) {
    e in s.log && c.start <= e.sn < Durable(c, s) && e.sn < s.view.cursor && !Kept(c, s, e) && e.sn !in InSink(s)
  }

  lemma Persists(c: Config, trace0: seq<State>, steps0: seq<Step>, v: nat) returns (trace: seq<State>, steps: seq<Step>)
    requires Run(c, trace0, steps0) && trace0[|steps0|].store == CS.Store(map[MyKey(c) := v], map[], map[])
    ensures Run(c, trace, steps)
    ensures trace0 <= trace && steps0 <= steps
    ensures trace[|steps|] == trace0[|steps0|].(store := CS.Store(map[], map[], map[MyKey(c) := v]))
    ensures Plain(c, trace0, steps0) ==> Plain(c, trace, steps)
  {
    var s := trace0[|steps0|];
    var began := s.(store := CS.Store(map[], s.store.dirty, map[]));
    trace, steps := Extend(c, trace0, steps0, Persist(CS.BeginFlush), began);
    assert map[] + map[MyKey(c) := v] == map[MyKey(c) := v];
    trace, steps := Extend(c, trace, steps, Persist(CS.Commit), s.(store := CS.Store(map[], map[], s.store.dirty)));
  }

  lemma IsLost(s: State)
    requires |s.log| > 0 && s.log[0] == A1 && "a" !in s.view.retry.groups && 1 !in InSink(s)
    requires 1 !in s.flushed && 1 !in s.deadLettered && 1 !in s.dropped && s.view.cursor > 1
    requires ("c", 0) in s.store.rows && s.store.rows[("c", 0)] > 1
    ensures Lost(FlushConfig(), s, A1)
  {
    assert A1 in s.log && MyKey(FlushConfig()) == ("c", 0);
  }

  /** A saved cursor past "a" 1 becomes durable, and a crash forgets the rest. */
  lemma CrashLoses(trace0: seq<State>, steps0: seq<Step>, v: nat) returns (trace: seq<State>, steps: seq<Step>)
    requires Run(FlushConfig(), trace0, steps0) && v > 1
    requires var s := trace0[|steps0|];
             && s.store == CS.Store(map[("c", 0) := v], map[], map[]) && |s.log| > 0 && s.log[0] == A1
             && 1 !in s.flushed && 1 !in s.deadLettered && 1 !in s.dropped
    ensures Run(FlushConfig(), trace, steps) && Lost(FlushConfig(), trace[|steps|], A1)
    ensures trace0 <= trace && steps0 <= steps
    ensures Plain(FlushConfig(), trace0, steps0) ==> Plain(FlushConfig(), trace, steps)
  {
    trace, steps := Persists(FlushConfig(), trace0, steps0, v);
    var s := DoCrash(FlushConfig(), trace[|steps|], false);
    IsLost(s);
    trace, steps := Extend(FlushConfig(), trace, steps, Crash(false), s);
  }

  /** The batch is over: the sink takes its buffer, and FlushBatch returns. */
  lemma Flushes(c: Config, trace0: seq<State>, steps0: seq<Step>, outcome: FlushOutcome, w: bool)
    returns (trace: seq<State>, steps: seq<Step>)
    requires Run(c, trace0, steps0) && Enabled(c, trace0[|steps0|], TakeBuffer)
    ensures Run(c, trace, steps)
    ensures trace[|steps|] == DoFlush(c, DoTake(trace0[|steps0|]), outcome, w)
    ensures Plain(c, trace0, steps0) ==> Plain(c, trace, steps)
  {
    var s := DoTake(trace0[|steps0|]);
    trace, steps := Extend(c, trace0, steps0, TakeBuffer, s);
    trace, steps := Extend(c, trace, steps, Flush(outcome, w), DoFlush(c, s, outcome, w));
  }

  const BLOCKED_B := R.RetryState(map["b" := [R.Record(B2, 1)]], map[0 := 2])
  const BLOCKED_BB := R.RetryState(map["b" := [R.Record(B2, 1), R.Record(B3, 0)]], map[0 := 2])

  lemma SecondFails() returns (trace: seq<State>, steps: seq<Step>)
    ensures Run(FlushConfig(), trace, steps)
    ensures trace[|steps|] == Scene([A1, B2, B3], Flusher(1, Some(2), BLOCKED_B), AtEntry(2, 3), [1], {1})
  {
    var c, log := FlushConfig(), [A1, B2, B3];
    trace, steps := Appends(log);
    trace, steps := BuffersFirst(log, trace, steps);
    var s := Scene(log, Flusher(1, Some(2), R.EMPTY), AtEntry(1, 3), [1], {1});
    assert trace[|steps|] == s;
    trace, steps := Extend(c, trace, steps, CheckBlocked(false), s.(router := Checked(1, 3, false)));
    trace, steps := Extend(c, trace, steps, Snapshot, s.(router := Snapped(1, 3, PLAIN)));
    trace, steps := Extend(c, trace, steps, Deliver(false), s.(router := Returned(1, 3, PLAIN, true)));
    assert R.AddBlocked(R.EMPTY, "b", R.Record(B2, 1)) == BLOCKED_B by {
      assert [] + [R.Record(B2, 1)] == [R.Record(B2, 1)];
    }
    s := s.(router := Saving(2, 3, None), view := Flusher(1, Some(2), BLOCKED_B));
    trace, steps := Extend(c, trace, steps, Apply, s);
    trace, steps := Extend(c, trace, steps, Save, s.(router := AtEntry(2, 3)));
  }

  /** "a" 1 is buffered, "b" 2 fails and blocks its group, and the follow-on "b" 3 moves the
      cursor to 4. When the flush then fails, "a" 1 is behind both cursors and nowhere else. */
  lemma BlockedFollowOnLoses() returns (trace: seq<State>, steps: seq<Step>)
    ensures Run(FlushConfig(), trace, steps) && Lost(FlushConfig(), trace[|steps|], A1)
  {
    trace, steps := SecondFails();
    trace, steps := FollowOnMoves(trace, steps);
    trace, steps := Flushes(FlushConfig(), trace, steps, FlushFails, true);
    trace, steps := Persists(FlushConfig(), trace, steps, 2);
    assert "a" != "b";
    IsLost(trace[|steps|]);
  }

  lemma FollowOnMoves(trace0: seq<State>, steps0: seq<Step>) returns (trace: seq<State>, steps: seq<Step>)
    requires Run(FlushConfig(), trace0, steps0)
    requires trace0[|steps0|] == Scene([A1, B2, B3], Flusher(1, Some(2), BLOCKED_B), AtEntry(2, 3), [1], {1})
    ensures Run(FlushConfig(), trace, steps)
    ensures trace[|steps|] == Scene([A1, B2, B3], Flusher(4, Some(2), BLOCKED_BB), AtEntry(3, 3), [1], {1})
                              .(store := CS.Store(map[("c", 0) := 2], map[], map[]))
  {
    var c, s, snap := FlushConfig(), trace0[|steps0|], D.Snap(true, 1, false);
    trace, steps := Extend(c, trace0, steps0, CheckBlocked(true), s.(router := Checked(2, 3, true)));
    trace, steps := Extend(c, trace, steps, Snapshot, s.(router := Snapped(2, 3, snap)));
    trace, steps := Extend(c, trace, steps, Deliver(true), s.(router := Returned(2, 3, snap, false)));
    assert R.AddBlocked(BLOCKED_B, "b", R.Record(B3, 0)) == BLOCKED_BB by {
      assert [R.Record(B2, 1)] + [R.Record(B3, 0)] == [R.Record(B2, 1), R.Record(B3, 0)];
    }
    s := s.(router := Saving(3, 3, Some(2)), view := Flusher(4, Some(2), BLOCKED_BB));
    trace, steps := Extend(c, trace, steps, Apply, s);
    s := s.(router := AtEntry(3, 3), store := CS.Store(map[("c", 0) := 2], map[], map[]));
    trace, steps := Extend(c, trace, steps, Save, s);
  }

  /** "b" 2 poisons a flush and is dead-lettered; on redelivery "a" 1 is buffered and the skip
      of "b" 2 moves the cursor to 3. When the next flush fails, "a" 1 is lost. */
  lemma SkippedPoisonLoses() returns (trace: seq<State>, steps: seq<Step>)
    ensures Run(FlushConfig(), trace, steps) && Lost(FlushConfig(), trace[|steps|], A1)
  {
    trace, steps := SkipMoves();
    trace, steps := Flushes(FlushConfig(), trace, steps, FlushFails, true);
    trace, steps := Persists(FlushConfig(), trace, steps, 3);
    IsLost(trace[|steps|]);
  }

  lemma SkipMoves() returns (trace: seq<State>, steps: seq<Step>)
    ensures Run(FlushConfig(), trace, steps)
    ensures trace[|steps|] == Scene([A1, B2], Flusher(3, Some(2), R.EMPTY), AtEntry(2, 2), [1], {1, 2})
              .(skips := {2}, streak := 1, deadLettered := {2}, store := CS.Store(map[("c", 0) := 3], map[], map[]))
  {
    var c, skip := FlushConfig(), D.Snap(false, 1, true);
    trace, steps := PoisonIsSkipped();
    trace, steps := BuffersFirst([A1, B2], trace, steps);
    var s := trace[|steps|];
    trace, steps := Extend(c, trace, steps, CheckBlocked(false), s.(router := Checked(1, 2, false)));
    trace, steps := Extend(c, trace, steps, Snapshot, s.(router := Snapped(1, 2, skip)));
    trace, steps := Extend(c, trace, steps, Deliver(true), s.(router := Returned(1, 2, skip, false)));
    s := s.(router := Saving(2, 2, Some(3)), view := Flusher(3, Some(2), R.EMPTY));
    trace, steps := Extend(c, trace, steps, Apply, s);
    s := s.(router := AtEntry(2, 2), store := CS.Store(map[("c", 0) := 3], map[], map[]));
    trace, steps := Extend(c, trace, steps, Save, s);
  }

  lemma BothBuffered() returns (trace: seq<State>, steps: seq<Step>)
    ensures Run(FlushConfig(), trace, steps)
    ensures trace[|steps|] == Scene([A1, B2], Flusher(1, Some(3), R.EMPTY), AtEntry(2, 2), [1, 2], {1, 2})
  {
    var c, log := FlushConfig(), [A1, B2];
    trace, steps := Appends(log);
    trace, steps := BuffersFirst(log, trace, steps);
    var s := trace[|steps|];
    trace, steps := Extend(c, trace, steps, CheckBlocked(false), s.(router := Checked(1, 2, false)));
    trace, steps := Extend(c, trace, steps, Snapshot, s.(router := Snapped(1, 2, PLAIN)));
    s := s.(router := Returned(1, 2, PLAIN, false), buffered := [1, 2], delivered := {1, 2});
    assert [1] + [2] == [1, 2];
    trace, steps := Extend(c, trace, steps, Deliver(true), s);
    s := s.(router := Saving(2, 2, None), view := Flusher(1, Some(3), R.EMPTY));
    trace, steps := Extend(c, trace, steps, Apply, s);
    s := s.(router := AtEntry(2, 2));
    trace, steps := Extend(c, trace, steps, Save, s);
  }

  lemma PoisonIsSkipped() returns (trace: seq<State>, steps: seq<Step>)
    ensures Run(FlushConfig(), trace, steps)
    ensures trace[|steps|] == Scene([A1, B2], Flusher(1, None, R.EMPTY), Idle, [], {1, 2})
                              .(skips := {2}, streak := 1, deadLettered := {2})
  {
    var c, log := FlushConfig(), [A1, B2];
    trace, steps := BothBuffered();
    var s := trace[|steps|];
    assert FirstFrom(log, 1) == 0 && InWindow(log, 1, 2) by {
      assert log[1].sn == 2;
    }
    trace, steps := Flushes(c, trace, steps, Poison(2), true);
  }

  // ----- a retried delivery is only buffered -----

  /** No direct move, and no raced release. */
  ghost predicate Plain(c: Config, trace: seq<State>, steps: seq<Step>) {
    && |trace| == |steps| + 1
    && forall n :: 0 <= n < |steps| ==>
         (steps[n].Apply? ==> !MovesDirectly(trace[n])) && (steps[n].Notify? ==> Unraced(c, trace[n]))
  }

  ghost predicate AllSound(c: Config, trace: seq<State>, steps: seq<Step>) {
    Run(c, trace, steps) && SoundBefore(c, trace, steps, |steps|)
  }

  lemma Plainly(c: Config, trace: seq<State>, steps: seq<Step>, step: Step, s: State)
    returns (trace': seq<State>, steps': seq<Step>)
    requires Run(c, trace, steps) && Enabled(c, trace[|steps|], step) && Do(c, trace[|steps|], step) == s
    requires Plain(c, trace, steps) && (step.Apply? ==> !MovesDirectly(trace[|steps|]))
    requires step.Notify? ==> Unraced(c, trace[|steps|])
    ensures Run(c, trace', steps') && trace'[|steps'|] == s && Plain(c, trace', steps')
    ensures trace <= trace' && steps <= steps' && |steps'| == |steps| + 1
    ensures AllSound(c, trace, steps) && Sound(c, trace[|steps|], step) ==> AllSound(c, trace', steps')
  {
    trace', steps' := Extend(c, trace, steps, step, s);
  }

  const BLOCKED_A := R.RetryState(map["a" := [R.Record(A1, 1)]], map[0 := 1])

  /** "a" 1 fails and is queued; "b" 2 is buffered. */
  lemma FirstFails() returns (trace: seq<State>, steps: seq<Step>)
    ensures AllSound(FlushConfig(), trace, steps) && Plain(FlushConfig(), trace, steps)
    ensures trace[|steps|] == Scene([A1, B2], Flusher(1, None, BLOCKED_A), AtEntry(1, 2), [], {})
  {
    var c, log := FlushConfig(), [A1, B2];
    trace, steps := Appends(log);
    var s := trace[|steps|];
    assert FirstFrom(log, 1) == 0;
    trace, steps := Plainly(c, trace, steps, StartBatch(1), s.(router := AtEntry(0, 2)));
    trace, steps := Plainly(c, trace, steps, CheckBlocked(false), s.(router := Checked(0, 2, false)));
    trace, steps := Plainly(c, trace, steps, Snapshot, s.(router := Snapped(0, 2, PLAIN)));
    trace, steps := Plainly(c, trace, steps, Deliver(false), s.(router := Returned(0, 2, PLAIN, true)));
    assert R.AddBlocked(R.EMPTY, "a", R.Record(A1, 1)) == BLOCKED_A by {
      assert [] + [R.Record(A1, 1)] == [R.Record(A1, 1)];
    }
    s := s.(router := Saving(1, 2, None), view := Flusher(1, None, BLOCKED_A));
    trace, steps := Plainly(c, trace, steps, Apply, s);
    trace, steps := Plainly(c, trace, steps, Save, s.(router := AtEntry(1, 2)));
  }

  lemma SecondIsBuffered() returns (trace: seq<State>, steps: seq<Step>)
    ensures AllSound(FlushConfig(), trace, steps) && Plain(FlushConfig(), trace, steps)
    ensures trace[|steps|] == Scene([A1, B2], Flusher(1, Some(3), BLOCKED_A), AtEntry(2, 2), [2], {2})
  {
    var c := FlushConfig();
    trace, steps := SecondIsDelivered();
    var s := trace[|steps|];
    s := s.(router := Saving(2, 2, None), view := Flusher(1, Some(3), BLOCKED_A));
    trace, steps := Plainly(c, trace, steps, Apply, s);
    trace, steps := Plainly(c, trace, steps, Save, s.(router := AtEntry(2, 2)));
  }

  lemma SecondIsDelivered() returns (trace: seq<State>, steps: seq<Step>)
    ensures AllSound(FlushConfig(), trace, steps) && Plain(FlushConfig(), trace, steps)
    ensures trace[|steps|] == Scene([A1, B2], Flusher(1, None, BLOCKED_A), Returned(1, 2, PLAIN, false), [2], {2})
  {
    var c := FlushConfig();
    trace, steps := FirstFails();
    var s := trace[|steps|];
    trace, steps := Plainly(c, trace, steps, CheckBlocked(true), s.(router := Checked(1, 2, true)));
    assert "b" != "a";
    trace, steps := Plainly(c, trace, steps, Snapshot, s.(router := Snapped(1, 2, PLAIN)));
    s := s.(router := Returned(1, 2, PLAIN, false), buffered := [2], delivered := {2});
    assert [] + [2] == [2];
    trace, steps := Plainly(c, trace, steps, Deliver(true), s);
  }

  /** The flush of "b" 2 succeeds and moves the memory cursor to 3; the save stays at the floor. */
  lemma SecondIsFlushed() returns (trace: seq<State>, steps: seq<Step>)
    ensures Run(FlushConfig(), trace, steps) && Plain(FlushConfig(), trace, steps)
    ensures trace[|steps|] == Scene([A1, B2], Flusher(3, None, BLOCKED_A), Idle, [], {2})
                              .(flushed := {2}, store := CS.Store(map[("c", 0) := 1], map[], map[]))
  {
    var c := FlushConfig();
    trace, steps := SecondIsBuffered();
    var s := Scene([A1, B2], Flusher(3, None, BLOCKED_A), Idle, [], {2})
         .(flushed := {2}, store := CS.Store(map[("c", 0) := 1], map[], map[]));
    assert (set x | x in [2]) == {2};
    trace, steps := Flushes(c, trace, steps, FlushOk, true);
    assert trace[|steps|] == s;
  }

  lemma PopsA()
    ensures R.PopHead(BLOCKED_A, "a") == R.EMPTY
  {
    assert R.Popped(BLOCKED_A.groups, "a") == map[] && R.IsFloor(map[], 0, None);
    R.FloorUnique(map[], 0, None, R.Floor(map[], 0));
  }

  lemma RetriedAndPopped() returns (trace: seq<State>, steps: seq<Step>)
    ensures Run(FlushConfig(), trace, steps) && Plain(FlushConfig(), trace, steps)
    ensures trace[|steps|] == Scene([A1, B2], Flusher(3, None, R.EMPTY), Idle, [1], {1, 2})
              .(flushed := {2}, store := CS.Store(map[("c", 0) := 1], map[], map[]), retrier := Notifying(None))
  {
    var c, rec := FlushConfig(), R.Record(A1, 1);
    trace, steps := SecondIsFlushed();
    var s := trace[|steps|];
    trace, steps := Plainly(c, trace, steps, PickHead("a"), s.(retrier := Retrying("a", rec)));
    s := s.(retrier := Settled("a", rec), delivered := {1, 2}, buffered := [1]);
    assert [] + [1] == [1];
    trace, steps := Plainly(c, trace, steps, RetryDeliver(S.Ok), s);
    PopsA();
    s := s.(retrier := Notifying(None), view := Flusher(3, None, R.EMPTY));
    trace, steps := Plainly(c, trace, steps, PopSettled, s);
  }

  lemma RetriedAndReleased() returns (trace: seq<State>, steps: seq<Step>)
    ensures Run(FlushConfig(), trace, steps) && Plain(FlushConfig(), trace, steps)
    ensures trace[|steps|] == Scene([A1, B2], Flusher(3, None, R.EMPTY), Idle, [1], {1, 2})
                              .(flushed := {2}, store := CS.Store(map[("c", 0) := 3], map[], map[]))
  {
    trace, steps := RetriedAndPopped();
    var s := trace[|steps|];
    s := s.(retrier := Resting, store := CS.Store(map[("c", 0) := 3], map[], map[]));
    trace, steps := Plainly(FlushConfig(), trace, steps, Notify, s);
  }

  /** The retry buffers "a" 1 and pops it, and the release saves 3: no direct move and no race.
      A crash before the next flush loses "a" 1. */
  lemma RetriedDeliveryLoses() returns (trace: seq<State>, steps: seq<Step>)
    ensures Run(FlushConfig(), trace, steps) && Lost(FlushConfig(), trace[|steps|], A1)
    ensures Plain(FlushConfig(), trace, steps)
  {
    trace, steps := RetriedAndReleased();
    trace, steps := CrashLoses(trace, steps, 3);
  }

  // ----- a follow-on queued behind a later record -----

  const BLOCKED_A2 := R.RetryState(map["a" := [R.Record(A2, 1)]], map[0 := 2])
  const BLOCKED_A21 := R.RetryState(map["a" := [R.Record(A2, 1), R.Record(A1, 0)]], map[0 := 2])

  /** "a" 1 is buffered, "a" 2 fails, and the flush fails. */
  lemma LaterIsQueued() returns (trace: seq<State>, steps: seq<Step>)
    ensures Run(FlushConfig(), trace, steps)
    ensures trace[|steps|] == Scene([A1, A2], Flusher(1, None, BLOCKED_A2), Idle, [], {1})
  {
    var c, log := FlushConfig(), [A1, A2];
    trace, steps := Appends(log);
    trace, steps := BuffersFirst(log, trace, steps);
    var s := trace[|steps|];
    trace, steps := Extend(c, trace, steps, CheckBlocked(false), s.(router := Checked(1, 2, false)));
    trace, steps := Extend(c, trace, steps, Snapshot, s.(router := Snapped(1, 2, PLAIN)));
    trace, steps := Extend(c, trace, steps, Deliver(false), s.(router := Returned(1, 2, PLAIN, true)));
    assert R.AddBlocked(R.EMPTY, "a", R.Record(A2, 1)) == BLOCKED_A2 by {
      assert [] + [R.Record(A2, 1)] == [R.Record(A2, 1)];
    }
    s := s.(router := Saving(2, 2, None), view := Flusher(1, Some(2), BLOCKED_A2));
    trace, steps := Extend(c, trace, steps, Apply, s);
    trace, steps := Extend(c, trace, steps, Save, s.(router := AtEntry(2, 2)));
    trace, steps := Flushes(c, trace, steps, FlushFails, true);
  }

  lemma QueuedBehind() returns (trace: seq<State>, steps: seq<Step>)
    ensures Run(FlushConfig(), trace, steps)
    ensures trace[|steps|] == Scene([A1, A2], Flusher(2, None, BLOCKED_A21), Saving(1, 2, Some(2)), [], {1})
  {
    var c, snap := FlushConfig(), D.Snap(true, 1, false);
    trace, steps := LaterIsQueued();
    var s := trace[|steps|];
    assert FirstFrom([A1, A2], 1) == 0;
    trace, steps := Extend(c, trace, steps, StartBatch(1), s.(router := AtEntry(0, 2)));
    trace, steps := Extend(c, trace, steps, CheckBlocked(true), s.(router := Checked(0, 2, true)));
    trace, steps := Extend(c, trace, steps, Snapshot, s.(router := Snapped(0, 2, snap)));
    trace, steps := Extend(c, trace, steps, Deliver(true), s.(router := Returned(0, 2, snap, false)));
    assert R.AddBlocked(BLOCKED_A2, "a", R.Record(A1, 0)) == BLOCKED_A21 by {
      assert [R.Record(A2, 1)] + [R.Record(A1, 0)] == [R.Record(A2, 1), R.Record(A1, 0)];
    }
    s := s.(router := Saving(1, 2, Some(2)), view := Flusher(2, None, BLOCKED_A21));
    trace, steps := Extend(c, trace, steps, Apply, s);
  }

  /** Read again, "a" 1 is queued behind "a" 2 and its own save, capped at floor 2, is past it.
      Nothing was buffered before it, and yet a crash loses it. */
  lemma FollowOnBehindLoses() returns (trace: seq<State>, steps: seq<Step>)
    ensures Run(FlushConfig(), trace, steps) && Lost(FlushConfig(), trace[|steps|], A1)
  {
    var c := FlushConfig();
    trace, steps := QueuedBehind();
    var s := trace[|steps|];
    s := s.(router := AtEntry(1, 2), store := CS.Store(map[("c", 0) := 2], map[], map[]));
    trace, steps := Extend(c, trace, steps, Save, s);
    trace, steps := CrashLoses(trace, steps, 2);
  }

  // ----- a retry during the flush -----

  /** The sink takes "b" 2; until FlushBatch returns, the retry buffers "a" 1 and pops it. */
  lemma RetriedDuringFlush() returns (trace: seq<State>, steps: seq<Step>)
    ensures AllSound(FlushConfig(), trace, steps) && Plain(FlushConfig(), trace, steps)
    ensures trace[|steps|] == Scene([A1, B2], Flusher(1, Some(3), R.EMPTY), Flushing(2, 2), [1], {1, 2})
              .(inflight := [2], retrier := Notifying(None))
  {
    var c, rec := FlushConfig(), R.Record(A1, 1);
    trace, steps := SecondIsBuffered();
    var s := trace[|steps|];
    s := s.(router := Flushing(2, 2), buffered := [], inflight := [2]);
    trace, steps := Plainly(c, trace, steps, TakeBuffer, s);
    trace, steps := Plainly(c, trace, steps, PickHead("a"), s.(retrier := Retrying("a", rec)));
    s := s.(retrier := Settled("a", rec), delivered := {1, 2}, buffered := [1]);
    assert [] + [1] == [1];
    trace, steps := Plainly(c, trace, steps, RetryDeliver(S.Ok), s);
    PopsA();
    s := s.(retrier := Notifying(None), view := Flusher(1, Some(3), R.EMPTY));
    trace, steps := Plainly(c, trace, steps, PopSettled, s);
  }

  lemma ReleasedDuringFlush() returns (trace: seq<State>, steps: seq<Step>)
    ensures AllSound(FlushConfig(), trace, steps)
    ensures trace[|steps|] == Scene([A1, B2], Flusher(1, Some(3), R.EMPTY), Flushing(2, 2), [1], {1, 2})
              .(inflight := [2], store := CS.Store(map[("c", 0) := 1], map[], map[]))
  {
    trace, steps := RetriedDuringFlush();
    var s := trace[|steps|];
    s := s.(retrier := Resting, store := CS.Store(map[("c", 0) := 1], map[], map[]));
    trace, steps := Plainly(FlushConfig(), trace, steps, Notify, s);
  }

  /** Only the promotion fails its condition: "a" 1 is nowhere but in the buffer. */
  lemma PromotionIsUnsound(s: State)
    requires s == Scene([A1, B2], Flusher(1, Some(3), R.EMPTY), Flushing(2, 2), [1], {1, 2})
                    .(inflight := [2], store := CS.Store(map[("c", 0) := 1], map[], map[]))
    ensures !Sound(FlushConfig(), s, Flush(FlushOk, true))
    ensures DoFlush(FlushConfig(), s, FlushOk, true) ==
            s.(router := Idle, inflight := [], flushed := {2}, view := Flusher(3, None, R.EMPTY),
               store := CS.Store(map[("c", 0) := 3], map[], map[]))
  {
    assert s.log[0] == A1 && !Kept(FlushConfig(), s, A1);
    assert !BufferKept(FlushConfig(), s, 3);
    assert (set x | x in [2]) == {2};
  }

  /** The promotion then moves the cursor to 3 and saves it: every step before it meets its
      condition, and a crash loses "a" 1. */
  lemma RetryDuringFlushLoses() returns (trace: seq<State>, steps: seq<Step>, n: nat)
    ensures Run(FlushConfig(), trace, steps) && Lost(FlushConfig(), trace[|steps|], A1)
    ensures n < |steps| && steps[n] == Flush(FlushOk, true)
    ensures SoundBefore(FlushConfig(), trace, steps, n) && !Sound(FlushConfig(), trace[n], steps[n])
  {
    var c := FlushConfig();
    trace, steps := ReleasedDuringFlush();
    n := |steps|;
    var s := trace[n];
    PromotionIsUnsound(s);
    trace, steps := Extend(c, trace, steps, Flush(FlushOk, true), DoFlush(c, s, FlushOk, true));
    trace, steps := CrashLoses(trace, steps, 3);
  }
}
