/** What the cursor store holds for a consumer that does not batch-flush: once the pending saves
    are through, its cursor as far as the floor lets it be saved, exactly when no save was
    overtaken. */
module SavedCursor {
  import opened Common
  import opened Delivery
  import R = Retry
  import D = Dispatch
  import S = Scheduler
  import CS = CursorStore
  import opened DeliverySafety
  import opened DeliveryRuns
  import opened DeliveryProgress

  /** The cursor capped at the floor: all that may be saved now. */
  function Target(c: Config, s: State): (v: nat) { Capped(s.view.cursor, FloorOf(c, s)) }

  /** The last value saved, durable or not. */
  function Latest(c: Config, s: State): (v: nat) { CS.Viewed(s.store, MyKey(c)) }

  /** The poll loop has left the router's lock and is about to save. */
  predicate SavePending(s: State) { s.router.Saving? && s.router.save.Some? }

  /** A save of the poll loop or a floor release is on its way. */
  predicate Settling(s: State) { SavePending(s) || s.retrier.Notifying? }

  predicate UpToDate(c: Config, s: State) { Latest(c, s) == Target(c, s) }

  /** The last save on its way carries what may be saved now, and a restart reads its cursor. */
  ghost predicate Fresh(c: Config, s: State, step: Step)
    requires Enabled(c, s, step)
  {
    match step
    case Save => SavePending(s) && !s.retrier.Notifying? ==> s.router.save.value == Target(c, s)
    case Notify => !SavePending(s) ==> Released(s) == Target(c, s)
    case Crash(loadFails) => loadFails ==> CS.Load(CS.Apply(s.store, CS.Crash), MyKey(c)) == 1
    case _ => true
  }

  predicate SnapFresh(s: State) {
    s.router.Snapped? || s.router.Returned? ==> s.router.snap.cursor == s.view.cursor && !s.router.snap.skipped
  }

  ghost predicate Fit(c: Config, s: State) {
    QueuesValid(c, s) && Kind(c, s) && SnapFresh(s) && (Settling(s) || UpToDate(c, s))
  }

  // ----- the steps -----

  lemma SaveIsLatest(c: Config, s: State, v: nat)
    ensures Latest(c, Saved(c, s, v)) == v
  {
  }

  lemma PersistKeepsLatest(c: Config, s: State, op: CS.Op)
    requires !op.Crash? && (op.Save? ==> op.key != MyKey(c))
    ensures CS.Viewed(CS.Apply(s.store, op), MyKey(c)) == Latest(c, s)
  {
    if !op.Save? {
      CS.FlushKeepsView(s.store, op);
    }
  }

  /** The floor depends on the partition's own groups only. */
  lemma SameFloor(c: Config, a: R.RetryState, b: R.RetryState)
    requires R.Valid(a, c.part) && R.Valid(b, c.part)
    requires forall k :: c.part(k) == c.partition ==> Lookup(a.groups, k) == Lookup(b.groups, k)
    ensures Lookup(a.floors, c.partition) == Lookup(b.floors, c.partition)
  {
    var p := c.partition;
    forall k ensures R.HeadOn(a.groups, k, p) ==> R.HeadOn(b.groups, k, p) && b.groups[k] == a.groups[k] {
      if R.HeadOn(a.groups, k, p) {
        assert a.groups[k][0].entry.partition == c.part(k);
        assert Lookup(a.groups, k) == Lookup(b.groups, k);
      }
    }
    forall k ensures R.HeadOn(b.groups, k, p) ==> R.HeadOn(a.groups, k, p) && a.groups[k] == b.groups[k] {
      if R.HeadOn(b.groups, k, p) {
        assert b.groups[k][0].entry.partition == c.part(k);
        assert Lookup(a.groups, k) == Lookup(b.groups, k);
      }
    }
    assert R.IsFloor(a.groups, p, Lookup(a.floors, p)) && R.IsFloor(b.groups, p, Lookup(b.floors, p));
    assert R.IsFloor(a.groups, p, Lookup(b.floors, p));
  }

  /** An entry that failed is at or above the cursor: queueing it caps nothing. */
  lemma FailureKeepsTarget(c: Config, s: State)
    requires Enabled(c, s, Apply) && LogOk(c, s.log) && Kind(c, s) && !c.flusher && SnapFresh(s)
    requires DoApply(s).router.save.None?
    ensures Target(c, DoApply(s)) == Target(c, s) && Latest(c, DoApply(s)) == Latest(c, s)
  {
    var r := s.router;
    D.UpdateTakes(s.view, r.snap, s.log[r.i], r.failed);
    assert s.log[r.i].partition == c.partition;
  }

  lemma QuietIsFit(c: Config, s: State, step: Step)
    requires Fit(c, s) && !c.flusher && Enabled(c, s, step) && Fresh(c, s, step)
    requires !step.Apply? && !step.Elsewhere? && !step.Persist? && !step.Save? && !step.Notify? && !step.Crash?
    requires !step.Flush? && !step.TakeBuffer?
    ensures Settling(Do(c, s, step)) || UpToDate(c, Do(c, s, step))
    ensures SnapFresh(Do(c, s, step))
  {
  }

  lemma StepKeepsSnap(c: Config, s: State, step: Step)
    requires Fit(c, s) && !c.flusher && Enabled(c, s, step) && !step.Flush?
    ensures SnapFresh(Do(c, s, step)) && Kind(c, Do(c, s, step))
  {
  }

  /** A step leaves the store up to date, or saves on their way, if and only if it is fresh. */
  lemma StepIsUpToDateExactlyWhen(c: Config, s: State, step: Step)
    requires Fit(c, s) && !c.flusher && Enabled(c, s, step) && !s.router.Flushing?
    ensures Settling(Do(c, s, step)) || UpToDate(c, Do(c, s, step)) <==> Fresh(c, s, step)
  {
    var t := Do(c, s, step);
    if step.Apply? {
      if t.router.save.None? { FailureKeepsTarget(c, s); }
    } else if step.Elsewhere? {
      SameFloor(c, s.view.retry, step.retry);
    } else if step.Persist? {
      PersistKeepsLatest(c, s, step.op);
    } else if step.Save? {
      SaveSettles(c, s);
    } else if step.Notify? {
      SaveIsLatest(c, s, Released(s));
    } else if step.Crash? {
      RestartReads(c, s, step.loadFails);
    } else {
      QuietIsFit(c, s, step);
    }
  }

  lemma SaveSettles(c: Config, s: State)
    requires Enabled(c, s, Save) && (Settling(s) || UpToDate(c, s))
    ensures Settling(DoSave(c, s)) || UpToDate(c, DoSave(c, s)) <==> Fresh(c, s, Save)
  {
    if SavePending(s) {
      SaveIsLatest(c, s, s.router.save.value);
    }
  }

  lemma RestartReads(c: Config, s: State, loadFails: bool)
    ensures var t := DoCrash(c, s, loadFails);
            && !Settling(t)
            && (UpToDate(c, t) <==> loadFails ==> CS.Load(CS.Apply(s.store, CS.Crash), MyKey(c)) == 1)
  {
    var store := CS.Apply(s.store, CS.Crash);
    assert CS.View(store) == store.rows;
  }

  // ----- whole runs -----

  ghost predicate FreshBefore(c: Config, trace: seq<State>, steps: seq<Step>, n: nat)
    requires Run(c, trace, steps) && n <= |steps|
  {
    forall i :: 0 <= i < n ==> Fresh(c, trace[i], steps[i])
  }

  /** In every state of every run whose last saves are fresh, with blocked groups, retries and
      restarts: unless a save is on its way, the store holds the cursor as far as the floor lets
      it be saved. */
  lemma {:induction false} SavedIsUpToDate(c: Config, trace: seq<State>, steps: seq<Step>, n: nat)
    requires Run(c, trace, steps) && !c.flusher && n <= |steps| && FreshBefore(c, trace, steps, n)
    ensures SnapFresh(trace[n]) && (Settling(trace[n]) || UpToDate(c, trace[n]))
  {
    if n > 0 {
      SavedIsUpToDate(c, trace, steps, n - 1);
      QueuesInvariant(c, trace, steps, n - 1);
      KindInvariant(c, trace, steps, n - 1);
      assert Enabled(c, trace[n - 1], steps[n - 1]) && trace[n] == Do(c, trace[n - 1], steps[n - 1]);
      StepKeepsSnap(c, trace[n - 1], steps[n - 1]);
      StepIsUpToDateExactlyWhen(c, trace[n - 1], steps[n - 1]);
    }
  }

  // ----- a save that is overtaken -----

  const BLOCKED12 := R.RetryState(map["a" := [R.Record(E1, 1), R.Record(E2, 0)]], map[0 := 1])

  /** "a" 1 is queued and "a" 2 behind it; the poll loop is about to save the floor, 1. */
  lemma SaveIsComputed() returns (trace: seq<State>, steps: seq<Step>)
    ensures Run(RaceConfig(), trace, steps)
    ensures trace[|steps|] == Scene(3, BLOCKED12, Saving(2, 2, Some(1)), Resting, FRESH, {})
  {
    var c := RaceConfig();
    trace, steps := RaceBegins();
    var s := trace[|steps|];
    trace, steps := Extend(c, trace, steps, Deliver(true), s.(router := Returned(1, 2, OLD_SNAP, false)));
    assert R.AddBlocked(BLOCKED1, "a", R.Record(E2, 0)) == BLOCKED12 by {
      assert [R.Record(E1, 1)] + [R.Record(E2, 0)] == [R.Record(E1, 1), R.Record(E2, 0)];
    }
    trace, steps := Extend(c, trace, steps, Apply, Scene(3, BLOCKED12, Saving(2, 2, Some(1)), Resting, FRESH, {}));
  }

  lemma PopFirst()
    ensures R.PopHead(BLOCKED12, "a") == BLOCKED2
  {
    var g: R.Groups := R.Popped(BLOCKED12.groups, "a");
    assert g == map["a" := [R.Record(E2, 0)]];
    assert R.HeadOn(g, "a", 0) && R.IsFloor(g, 0, Some(2));
    R.FloorUnique(g, 0, Some(2), R.Floor(g, 0));
  }

  lemma PopSecond()
    ensures R.PopHead(BLOCKED2, "a") == R.EMPTY
  {
    assert R.Popped(BLOCKED2.groups, "a") == map[] && R.IsFloor(map[], 0, None);
    R.FloorUnique(map[], 0, None, R.Floor(map[], 0));
  }

  /** The head of "a" is delivered, popped and released while that save is on its way. */
  lemma Retries(trace0: seq<State>, steps0: seq<Step>, s: State, rec: R.Record, next: R.RetryState, v: nat)
    returns (trace: seq<State>, steps: seq<Step>)
    requires Run(RaceConfig(), trace0, steps0) && trace0[|steps0|] == s && s.retrier.Resting?
    requires HeadIs(s, "a", rec) && rec.entry.partition == 0 && !s.view.flusher
    requires R.PopHead(s.view.retry, "a") == next && v == Capped(s.view.cursor, Lookup(next.floors, 0))
    ensures Run(RaceConfig(), trace, steps)
    ensures trace[|steps|] == s.(view := s.view.(retry := next), delivered := s.delivered + {rec.entry.sn},
              store := s.store.(dirty := s.store.dirty[("c", 0) := v]))
  {
    var c := RaceConfig();
    trace, steps := Extend(c, trace0, steps0, PickHead("a"), s.(retrier := Retrying("a", rec)));
    var t := s.(retrier := Settled("a", rec), delivered := s.delivered + {rec.entry.sn});
    trace, steps := Extend(c, trace, steps, RetryDeliver(S.Ok), t);
    t := t.(retrier := Notifying(Lookup(next.floors, 0)), view := s.view.(retry := next));
    trace, steps := Extend(c, trace, steps, PopSettled, t);
    t := t.(retrier := Resting, store := s.store.(dirty := s.store.dirty[("c", 0) := v]));
    trace, steps := Extend(c, trace, steps, Notify, t);
  }

  lemma BothRetried() returns (trace: seq<State>, steps: seq<Step>)
    ensures Run(RaceConfig(), trace, steps)
    ensures trace[|steps|] == Scene(3, R.EMPTY, Saving(2, 2, Some(1)), Resting,
                                    CS.Store(map[("c", 0) := 3], map[], map[]), {1, 2})
  {
    trace, steps := SaveIsComputed();
    PopFirst();
    trace, steps := Retries(trace, steps, trace[|steps|], R.Record(E1, 1), BLOCKED2, 2);
    PopSecond();
    trace, steps := Retries(trace, steps, trace[|steps|], R.Record(E2, 0), R.EMPTY, 3);
  }

  /** Both entries are delivered and both releases save, the last one 3. Then the save computed
      before them comes through: nothing is queued or pending, the cursor is 3, and the store says
      1 until the next event. */
  lemma OvertakenSavePins() returns (trace: seq<State>, steps: seq<Step>)
    ensures Run(RaceConfig(), trace, steps)
    ensures var s := trace[|steps|];
            && s.router.Idle? && s.retrier.Resting? && s.view.retry == R.EMPTY
            && s.log == [E1, E2] && s.delivered == {1, 2}
            && Target(RaceConfig(), s) == 3 && Latest(RaceConfig(), s) == 1
  {
    var c := RaceConfig();
    trace, steps := BothRetried();
    var s := trace[|steps|];
    s := s.(router := AtEntry(2, 2), store := CS.Store(map[("c", 0) := 1], map[], map[]));
    trace, steps := Extend(c, trace, steps, Save, s);
    trace, steps := Extend(c, trace, steps, EndBatch, s.(router := Idle));
  }

  // ----- one batch -----

  /** Nothing is queued on the partition, and the retry loop is at rest. */
  ghost predicate Undisturbed(c: Config, s: State) {
    s.retrier.Resting? && forall k :: k in s.view.retry.groups ==> c.part(k) != c.partition
  }

  /** Inside a batch with nothing queued, what was passed is saved or being saved. */
  ghost predicate Saves(c: Config, s: State, i0: nat, c0: nat) {
    && Inside(s, i0, c0)
    && (if SavePending(s) then s.router.save.value == s.view.cursor
        else s.view.cursor > c0 ==> Latest(c, s) == s.view.cursor)
  }

  lemma NoFloor(c: Config, s: State)
    requires QueuesValid(c, s) && Undisturbed(c, s)
    ensures FloorOf(c, s) == None
  {
    assert R.IsFloor(s.view.retry.groups, c.partition, Lookup(s.view.retry.floors, c.partition));
  }

  lemma ApplySaves(c: Config, s: State, i0: nat, c0: nat)
    requires Saves(c, s, i0, c0) && QueuesValid(c, s) && Undisturbed(c, s) && Kind(c, s) && !c.flusher
    requires Enabled(c, s, Apply) && Undisturbed(c, DoApply(s)) && QueuesValid(c, DoApply(s))
    ensures Saves(c, DoApply(s), i0, c0)
  {
    var r := s.router;
    NoFloor(c, s);
    NoFloor(c, DoApply(s));
    ApplyStaysInside(c, s, i0, c0);
    D.UpdateTakes(s.view, r.snap, s.log[r.i], r.failed);
    assert s.log[r.i].partition == c.partition;
  }

  lemma StepSaves(c: Config, s: State, step: Step, i0: nat, c0: nat)
    requires Saves(c, s, i0, c0) && QueuesValid(c, s) && Undisturbed(c, s) && Kind(c, s) && !c.flusher
    requires Enabled(c, s, step) && Undisturbed(c, Do(c, s, step)) && QueuesValid(c, Do(c, s, step))
    requires !step.EndBatch? && !step.Crash? && (step.Deliver? ==> step.ok)
    ensures Saves(c, Do(c, s, step), i0, c0)
  {
    StepStaysInside(c, s, step, i0, c0);
    if step.Apply? {
      ApplySaves(c, s, i0, c0);
    } else if step.Persist? {
      PersistKeepsLatest(c, s, step.op);
    } else if step.Save? && SavePending(s) {
      SaveIsLatest(c, s, s.router.save.value);
    }
  }

  lemma {:induction false} BatchSaves(c: Config, trace: seq<State>, steps: seq<Step>, a: nat, b: nat, n: nat)
    returns (i0: nat)
    requires Batch(c, trace, steps, a, b) && AllDelivered(steps, a, b) && !c.flusher && a < n <= b
    requires forall i :: a <= i <= b ==> Undisturbed(c, trace[i])
    ensures Saves(c, trace[n], i0, trace[a].view.cursor)
  {
    if n == a + 1 {
      BeginsInside(c, trace[a], steps[a].from);
      i0 := FirstFrom(trace[a].log, steps[a].from);
    } else {
      var m := n - 1;
      i0 := BatchSaves(c, trace, steps, a, b, m);
      SavesOn(c, trace, steps, a, b, m, i0, trace[a].view.cursor);
    }
  }

  lemma SavesOn(c: Config, trace: seq<State>, steps: seq<Step>, a: nat, b: nat, n: nat, i0: nat, c0: nat)
    requires Batch(c, trace, steps, a, b) && AllDelivered(steps, a, b) && !c.flusher && a < n < b
    requires Undisturbed(c, trace[n]) && Undisturbed(c, trace[n + 1]) && Saves(c, trace[n], i0, c0)
    ensures Saves(c, trace[n + 1], i0, c0)
  {
    KindInvariant(c, trace, steps, n);
    QueuesInvariant(c, trace, steps, n);
    QueuesInvariant(c, trace, steps, n + 1);
    assert Enabled(c, trace[n], steps[n]) && trace[n + 1] == Do(c, trace[n], steps[n]);
    StepSaves(c, trace[n], steps[n], i0, c0);
  }

  /** A batch whose Delivers all return nil, with nothing queued, ends with the cursor just after
      its last entry, and that is the last value saved; unless the cursor was further already. */
  lemma BatchIsSaved(c: Config, trace: seq<State>, steps: seq<Step>, a: nat, b: nat)
    requires Batch(c, trace, steps, a, b) && AllDelivered(steps, a, b) && !c.flusher
    requires forall i :: a <= i <= b ==> Undisturbed(c, trace[i])
    ensures LastEntry(trace[b]).Some?
    ensures var next := LastEntry(trace[b]).value.sn + 1;
            trace[a].view.cursor < next ==> trace[b].view.cursor == next && Latest(c, trace[b]) == next
  {
    BatchMovesCursor(c, trace, steps, a, b);
    var i0 := BatchSaves(c, trace, steps, a, b, b);
  }
}
