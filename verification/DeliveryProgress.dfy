/** What the cursors of a consumer get to: safety alone would hold of cursors that never move. */
module DeliveryProgress {
  import opened Common
  import opened Delivery
  import R = Retry
  import D = Dispatch
  import CS = CursorStore
  import opened DeliverySafety
  import F = FlushSafety

  // ----- one batch -----

  /** Steps `a` to `b` are one batch of the poll loop: read at `a`, at its end before step `b`. */
  ghost predicate Batch(c: Config, trace: seq<State>, steps: seq<Step>, a: nat, b: nat) {
    && Run(c, trace, steps) && a < b < |steps| && steps[a].StartBatch?
    && (steps[b].EndBatch? || steps[b].TakeBuffer?)
    && forall n :: a < n < b ==> !steps[n].EndBatch? && !steps[n].TakeBuffer? && !steps[n].Crash?
  }

  /** Every Deliver of the batch returned nil. */
  predicate AllDelivered(steps: seq<Step>, a: nat, b: nat)
    requires a < b < |steps|
  {
    forall n :: a < n < b && steps[n].Deliver? ==> steps[n].ok
  }

  /** The last entry of the batch that step `b` ends. */
  function LastEntry(s: State): (e: Option<Entry>) {
    if s.router.AtEntry? && 0 < s.router.hi <= |s.log| then Some(s.log[s.router.hi - 1]) else None
  }

  ghost predicate Kind(c: Config, s: State) {
    s.view.flusher == c.flusher && (!c.flusher ==> s.skips == {})
  }

  lemma {:induction false} KindInvariant(c: Config, trace: seq<State>, steps: seq<Step>, n: nat)
    requires Run(c, trace, steps) && n <= |steps|
    ensures Kind(c, trace[n]) && (!c.flusher ==> !trace[n].router.Flushing?)
  {
    if n > 0 {
      KindInvariant(c, trace, steps, n - 1);
      assert Enabled(c, trace[n - 1], steps[n - 1]) && trace[n] == Do(c, trace[n - 1], steps[n - 1]);
    }
  }

  /** The poll loop is inside the batch that began at index `i0` with cursor `c0`, and the cursor is
      just after the last entry passed, or where it was if that is further. */
  ghost predicate Inside(s: State, i0: nat, c0: nat) {
    var r := s.router;
    && !r.Idle? && !r.Flushing? && i0 <= r.i <= r.hi <= |s.log| && i0 < r.hi
    && s.view.cursor == (if r.i == i0 then c0 else Max(c0, s.log[r.i - 1].sn + 1))
    && (r.Checked? || r.Snapped? || r.Returned? ==> r.i < r.hi)
    && (r.Snapped? || r.Returned? ==> r.snap.cursor == s.view.cursor && !r.snap.skipped)
    && (r.Returned? ==> !r.failed)
  }

  lemma BeginsInside(c: Config, s: State, from: nat)
    requires Enabled(c, s, StartBatch(from))
    ensures Inside(Do(c, s, StartBatch(from)), FirstFrom(s.log, from), s.view.cursor)
  {
  }

  lemma ApplyStaysInside(c: Config, s: State, i0: nat, c0: nat)
    requires Inside(s, i0, c0) && LogOk(c, s.log) && !s.view.flusher && Enabled(c, s, Apply)
    ensures Inside(DoApply(s), i0, c0)
  {
    var r := s.router;
    var e := s.log[r.i];
    D.UpdateTakes(s.view, r.snap, e, r.failed);
    assert r.i > i0 ==> s.log[r.i - 1].sn < e.sn;
  }

  lemma StepStaysInside(c: Config, s: State, step: Step, i0: nat, c0: nat)
    requires Inside(s, i0, c0) && LogOk(c, s.log) && Kind(c, s) && !c.flusher && Enabled(c, s, step)
    requires !step.EndBatch? && !step.Crash? && (step.Deliver? ==> step.ok)
    ensures Inside(Do(c, s, step), i0, c0)
  {
    if step.Apply? {
      ApplyStaysInside(c, s, i0, c0);
    }
  }

  /** One step inside a batch. */
  lemma MovesInside(c: Config, trace: seq<State>, steps: seq<Step>, a: nat, b: nat, n: nat, i0: nat, c0: nat)
    requires Batch(c, trace, steps, a, b) && AllDelivered(steps, a, b) && !c.flusher && a < n < b
    requires Inside(trace[n], i0, c0)
    ensures Inside(trace[n + 1], i0, c0)
  {
    KindInvariant(c, trace, steps, n);
    QueuesInvariant(c, trace, steps, n);
    assert Enabled(c, trace[n], steps[n]) && trace[n + 1] == Do(c, trace[n], steps[n]);
    StepStaysInside(c, trace[n], steps[n], i0, c0);
  }

  lemma {:induction false} BatchIsInside(c: Config, trace: seq<State>, steps: seq<Step>, a: nat, b: nat, n: nat)
    returns (i0: nat)
    requires Batch(c, trace, steps, a, b) && AllDelivered(steps, a, b) && !c.flusher && a < n <= b
    ensures Inside(trace[n], i0, trace[a].view.cursor)
  {
    if n == a + 1 {
      BeginsInside(c, trace[a], steps[a].from);
      i0 := FirstFrom(trace[a].log, steps[a].from);
    } else {
      var m := n - 1;
      i0 := BatchIsInside(c, trace, steps, a, b, m);
      MovesInside(c, trace, steps, a, b, m, i0, trace[a].view.cursor);
    }
  }

  /** A batch whose Delivers all return nil ends with the cursor just after its last entry, or where
      it was if that is further, whatever groups are blocked and whatever the retry loop does. */
  lemma BatchMovesCursor(c: Config, trace: seq<State>, steps: seq<Step>, a: nat, b: nat)
    requires Batch(c, trace, steps, a, b) && AllDelivered(steps, a, b) && !c.flusher
    ensures LastEntry(trace[b]).Some?
    ensures trace[b].view.cursor == Max(trace[a].view.cursor, LastEntry(trace[b]).value.sn + 1)
  {
    var i0 := BatchIsInside(c, trace, steps, a, b, b);
    assert Enabled(c, trace[b], steps[b]);
  }

  // ----- a flush -----

  /** On a clean partition a flush that succeeds moves a flusher's cursor just after the batch and
      saves it, unless the cursor was further already; what lies in between is flushed. */
  lemma FlushMovesCursor(c: Config, trace: seq<State>, steps: seq<Step>, n: nat)
    requires Run(c, trace, steps) && c.flusher && n < |steps| && F.CleanTo(c, trace, n)
    requires steps[n].Flush? && steps[n].outcome.FlushOk?
    ensures var s, t := trace[n], trace[n + 1];
            && s.router.Flushing? && s.router.hi <= |s.log|
            && (s.router.hi > 0 && s.view.cursor <= s.log[s.router.hi - 1].sn ==>
                  var next := s.log[s.router.hi - 1].sn + 1;
                  t.view.cursor == next && CS.Viewed(t.store, MyKey(c)) == next)
            && (s.router.hi == 0 || s.view.cursor > s.log[s.router.hi - 1].sn ==> t.view.cursor == s.view.cursor)
            && forall j :: 0 <= j < s.router.hi && s.view.cursor <= s.log[j].sn ==> s.log[j].sn in t.flushed
  {
    var s := trace[n];
    var lo := F.WindowInvariant(c, trace, steps, n);
    QueuesInvariant(c, trace, steps, n);
    assert Enabled(c, s, steps[n]) && trace[n + 1] == Do(c, s, steps[n]);
    assert InSink(s) == s.inflight;
    FlushIs(c, s, lo, steps[n].dlqWrite);
  }

  lemma FlushIs(c: Config, s: State, lo: nat, w: bool)
    requires F.Inv(c, s, lo) && QueuesValid(c, s) && F.Clean(c, s) && s.router.Flushing? && InSink(s) == s.inflight
    ensures var t, hi := DoFlush(c, s, FlushOk, w), s.router.hi;
            && hi <= |s.log|
            && (hi > 0 && s.view.cursor <= s.log[hi - 1].sn ==>
                  t.view.cursor == s.log[hi - 1].sn + 1 && CS.Viewed(t.store, MyKey(c)) == s.log[hi - 1].sn + 1)
            && (hi == 0 || s.view.cursor > s.log[hi - 1].sn ==> t.view.cursor == s.view.cursor)
            && forall j :: 0 <= j < hi && s.view.cursor <= s.log[j].sn ==> s.log[j].sn in t.flushed
  {
    var hi := s.router.hi;
    assert R.IsFloor(s.view.retry.groups, c.partition, Lookup(s.view.retry.floors, c.partition));
    assert hi > 0 ==> (s.view.cursor <= s.log[hi - 1].sn <==> lo < hi);
    forall j | 0 <= j < hi && s.view.cursor <= s.log[j].sn ensures s.log[j].sn in s.inflight {
      assert lo <= j && s.inflight[j - lo] == s.log[j].sn;
    }
  }
}
