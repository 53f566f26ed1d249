/** Provisional cursors of batch-flushing consumers on a clean partition. */
module FlushSafety {
  import opened Common
  import opened Delivery
  import R = Retry
  import D = Dispatch
  import CS = CursorStore
  import opened DeliverySafety

  /** No blocked group on the partition and no skipped sequence number. */
  ghost predicate Clean(c: Config, s: State) {
    s.skips == {} && forall k :: k in s.view.retry.groups ==> c.part(k) != c.partition
  }

  ghost predicate CleanTo(c: Config, trace: seq<State>, n: nat)
    requires n < |trace|
  {
    forall i :: 0 <= i <= n ==> Clean(c, trace[i])
  }

  /** Every entry below `n` was in a batch whose FlushBatch returned nil. */
  ghost predicate FlushedBelow(c: Config, log: seq<Entry>, flushed: set<nat>, n: nat) {
    && (n <= c.start || (log != [] && n <= log[|log| - 1].sn + 1))
    && forall j :: 0 <= j < |log| && log[j].sn < n ==> log[j].sn < c.start || log[j].sn in flushed
  }

  ghost predicate AllFlushed(c: Config, log: seq<Entry>, flushed: set<nat>, m: CS.Cursors) {
    MyKey(c) in m ==> FlushedBelow(c, log, flushed, m[MyKey(c)])
  }

  ghost predicate StoreFlushed(c: Config, log: seq<Entry>, flushed: set<nat>, store: CS.Store) {
    && AllFlushed(c, log, flushed, store.dirty)
    && AllFlushed(c, log, flushed, store.inflight)
    && AllFlushed(c, log, flushed, store.rows)
  }

  /** What a flusher's window consists of. */
  datatype Window = Window(log: seq<Entry>, cursor: nat, provisional: Option<nat>, held: seq<nat>)

  function WindowOf(s: State): (w: Window) {
    Window(s.log, s.view.cursor, s.view.provisional, InSink(s))
  }

  /** `lo` is where the window starts in the log: the first entry not below the cursor. */
  ghost predicate Starts(w: Window, lo: nat) {
    && lo <= |w.log|
    && (forall j :: 0 <= j < lo ==> w.log[j].sn < w.cursor)
    && (lo < |w.log| ==> w.log[lo].sn >= w.cursor)
  }

  /** The sink holds exactly the log from `lo` up to index `i`, in log order. */
  ghost predicate BufferIs(w: Window, lo: nat, i: nat) {
    && i <= |w.log| && lo <= |w.log| && |w.held| == (if i <= lo then 0 else i - lo)
    && forall x :: 0 <= x < |w.held| ==> w.held[x] == w.log[lo + x].sn
  }

  /** The provisional cursor points just after index `i`. */
  ghost predicate ProvisionalIs(w: Window, lo: nat, i: nat) {
    i <= |w.log| && w.provisional == if i <= lo then None else Some(w.log[i - 1].sn + 1)
  }

  ghost predicate Holds(w: Window, lo: nat, i: nat) {
    BufferIs(w, lo, i) && ProvisionalIs(w, lo, i)
  }

  ghost predicate WindowOk(w: Window, lo: nat, r: RouterPhase) {
    match r
    case Idle => w.held == [] && w.provisional == None
    case AtEntry(i, hi) => i <= hi <= |w.log| && Holds(w, lo, i)
    case Checked(i, hi, _) => i < hi <= |w.log| && Holds(w, lo, i)
    case Snapped(i, hi, snap) => i < hi <= |w.log| && Holds(w, lo, i) && snap == D.Snap(false, w.cursor, false)
    case Returned(i, hi, snap, failed) =>
      && i < hi <= |w.log| && snap == D.Snap(false, w.cursor, false)
      && BufferIs(w, lo, if failed then i else i + 1) && ProvisionalIs(w, lo, i)
      && (failed ==> lo <= i)
    case Saving(i, hi, save) => i <= hi <= |w.log| && Holds(w, lo, i) && save == None
    case Flushing(i, hi) => i == hi <= |w.log| && Holds(w, lo, i)
  }

  ghost predicate CursorsOk(c: Config, s: State) {
    && LogOk(c, s.log) && s.view.flusher && s.retrier.Resting? && R.WellKeyed(s.view.retry.groups, c.part)
    && (if s.router.Flushing? then s.buffered == [] else s.inflight == [])
    && FlushedBelow(c, s.log, s.flushed, s.view.cursor)
    && StoreFlushed(c, s.log, s.flushed, s.store)
  }

  ghost predicate Inv(c: Config, s: State, lo: nat) {
    CursorsOk(c, s) && Starts(WindowOf(s), lo) && WindowOk(WindowOf(s), lo, s.router)
  }

  lemma FlushedMonotone(c: Config, log: seq<Entry>, log': seq<Entry>, flushed: set<nat>, flushed': set<nat>)
    requires log <= log' && LogOk(c, log') && flushed <= flushed'
    ensures forall n :: FlushedBelow(c, log, flushed, n) ==> FlushedBelow(c, log', flushed', n)
    ensures forall store :: StoreFlushed(c, log, flushed, store) ==> StoreFlushed(c, log', flushed', store)
  {
  }

  lemma WindowAppend(w: Window, lo: nat, r: RouterPhase, e: Entry) returns (lo': nat)
    requires Starts(w, lo) && WindowOk(w, lo, r)
    ensures Starts(w.(log := w.log + [e]), lo') && WindowOk(w.(log := w.log + [e]), lo', r)
  {
    var v := w.(log := w.log + [e]);
    lo' := if lo < |w.log| || e.sn >= w.cursor then lo else lo + 1;
    forall i | 0 <= i <= |w.log|
      ensures BufferIs(w, lo, i) ==> BufferIs(v, lo', i)
      ensures ProvisionalIs(w, lo, i) ==> ProvisionalIs(v, lo', i)
    {
    }
  }

  lemma AppendKeepsOrder(c: Config, log: seq<Entry>, e: Entry)
    requires LogOk(c, log) && Admissible(c, log, e)
    ensures LogOk(c, log + [e])
  {
  }

  lemma AppendKeepsWindow(c: Config, s: State, lo: nat, e: Entry) returns (lo': nat)
    requires Inv(c, s, lo) && Admissible(c, s.log, e)
    ensures Inv(c, s.(log := s.log + [e]), lo')
  {
    var t := s.(log := s.log + [e]);
    AppendKeepsOrder(c, s.log, e);
    FlushedMonotone(c, s.log, t.log, s.flushed, s.flushed);
    lo' := WindowAppend(WindowOf(s), lo, s.router, e);
  }

  lemma BufferGrows(w: Window, lo: nat, i: nat)
    requires lo <= i < |w.log| && BufferIs(w, lo, i)
    ensures BufferIs(w.(held := w.held + [w.log[i].sn]), lo, i + 1)
  {
  }

  lemma StartsAt(c: Config, w: Window, lo: nat, i: nat)
    requires LogOk(c, w.log) && Starts(w, lo) && i < |w.log|
    ensures w.log[i].sn < w.cursor <==> i < lo
  {
    assert lo < i ==> w.log[lo].sn < w.log[i].sn;
  }

  /** What an attempted delivery does to the window: the buffer grows by the entry, or nothing changes. */
  lemma WindowDelivered(c: Config, w: Window, lo: nat, i: nat, hi: nat, snap: D.Snap, ok: bool)
    requires LogOk(c, w.log) && Starts(w, lo) && WindowOk(w, lo, Snapped(i, hi, snap))
    requires ok || D.Attempts(snap, w.log[i])
    ensures var grown := w.(held := w.held + [w.log[i].sn]);
            WindowOk(if ok && D.Attempts(snap, w.log[i]) then grown else w, lo, Returned(i, hi, snap, !ok))
  {
    StartsAt(c, w, lo, i);
    if !ok {
      assert lo <= i && BufferIs(w, lo, i) && ProvisionalIs(w, lo, i);
    } else if lo <= i {
      BufferGrows(w, lo, i);
      assert D.Attempts(snap, w.log[i]);
    } else {
      assert BufferIs(w, lo, i + 1) && ProvisionalIs(w, lo, i);
    }
  }

  lemma DeliverKeepsWindow(c: Config, s: State, lo: nat, ok: bool)
    requires Inv(c, s, lo) && Enabled(c, s, Deliver(ok))
    ensures Inv(c, DoDeliver(s, ok), lo)
  {
    var t, r := DoDeliver(s, ok), s.router;
    WindowDelivered(c, WindowOf(s), lo, r.i, r.hi, r.snap, ok);
    assert InSink(t) == if ok && D.Attempts(r.snap, s.log[r.i]) then InSink(s) + [s.log[r.i].sn] else InSink(s);
  }

  /** Phase 3 without a failure: the provisional cursor follows the buffer, from the window's start on. */
  lemma WindowApplied(c: Config, w: Window, lo: nat, i: nat, hi: nat)
    requires LogOk(c, w.log) && Starts(w, lo) && WindowOk(w, lo, Returned(i, hi, D.Snap(false, w.cursor, false), false))
    ensures var n := w.log[i].sn + 1;
            var last := if w.provisional.Some? then Max(w.provisional.value, n) else n;
            WindowOk(if i < lo then w else w.(provisional := Some(last)), lo, Saving(i + 1, hi, None))
  {
    if lo < i {
      assert w.log[i - 1].sn < w.log[i].sn;
    }
    assert ProvisionalIs(if i < lo then w else w.(provisional := Some(w.log[i].sn + 1)), lo, i + 1);
  }

  function Advanced(v: D.View, n: nat): (v': D.View) {
    v.(provisional := Some(if v.provisional.Some? then Max(v.provisional.value, n) else n))
  }

  /** What phase 3 does for a flusher whose group is not blocked and whose entry is not skipped. */
  lemma PlainUpdate(v: D.View, e: Entry, failed: bool)
    requires v.flusher
    ensures var r, n := D.Update(v, D.Snap(false, v.cursor, false), e, failed), e.sn + 1;
            && r.1.None? && r.0.cursor == v.cursor
            && (e.sn < v.cursor ==> r.0 == v)
            && (e.sn >= v.cursor && failed ==> e.key in r.0.retry.groups)
            && (e.sn >= v.cursor && !failed ==> r.0 == Advanced(v, n))
  {
  }

  /** On a clean partition phase 3 only moves the provisional cursor. */
  lemma AppliedIs(c: Config, s: State, lo: nat)
    requires Inv(c, s, lo) && Enabled(c, s, Apply) && Clean(c, DoApply(s))
    ensures !s.router.failed
    ensures var r := s.router;
            var v := if r.i < lo then s.view else Advanced(s.view, s.log[r.i].sn + 1);
            DoApply(s) == s.(view := v, router := Saving(r.i + 1, r.hi, None))
  {
    var r, e := s.router, s.log[s.router.i];
    StartsAt(c, WindowOf(s), lo, r.i);
    PlainUpdate(s.view, e, r.failed);
    assert c.part(e.key) == c.partition;
  }

  lemma ApplyKeepsWindow(c: Config, s: State, lo: nat)
    requires Inv(c, s, lo) && Enabled(c, s, Apply) && Clean(c, DoApply(s))
    ensures Inv(c, DoApply(s), lo)
  {
    var t, w, r := DoApply(s), WindowOf(s), s.router;
    AppliedIs(c, s, lo);
    WindowApplied(c, w, lo, r.i, r.hi);
    assert WindowOf(t) == if r.i < lo then w else w.(provisional := Advanced(s.view, s.log[r.i].sn + 1).provisional);
    assert WindowOk(WindowOf(t), lo, t.router);
    assert CursorsOk(c, t);
  }

  /** Once the window up to index `i` is flushed, so is everything below its end. */
  lemma WindowFlushed(c: Config, w: Window, flushed: set<nat>, lo: nat, i: nat, n: nat)
    requires LogOk(c, w.log) && FlushedBelow(c, w.log, flushed, w.cursor) && Starts(w, lo) && BufferIs(w, lo, i)
    requires lo < i && n <= w.log[i - 1].sn + 1
    ensures FlushedBelow(c, w.log, flushed + (set x | x in w.held), n)
  {
    var log, last := w.log, |w.log| - 1;
    assert forall j :: i - 1 < j <= last ==> log[i - 1].sn < log[j].sn;
    forall j | 0 <= j < |log| && log[j].sn < n
        ensures log[j].sn < c.start || log[j].sn in flushed + (set x | x in w.held) {
      assert j < i;
      if j < lo {
        assert log[j].sn < w.cursor;
      } else {
        assert w.held[j - lo] == log[j].sn;
      }
    }
  }

  /** The next window starts where this one ends. */
  lemma WindowEnds(c: Config, w: Window, lo: nat, i: nat)
    requires LogOk(c, w.log) && Starts(w, lo) && lo < i <= |w.log|
    ensures w.cursor <= w.log[i - 1].sn
    ensures Starts(w.(cursor := w.log[i - 1].sn + 1, provisional := None, held := []), i)
  {
  }

  /** A successful flush: the whole window is flushed, and its end and any lower value may be
      saved. */
  lemma WindowPromoted(c: Config, w: Window, flushed: set<nat>, store: CS.Store, lo: nat, i: nat, v: nat)
    requires LogOk(c, w.log) && FlushedBelow(c, w.log, flushed, w.cursor) && StoreFlushed(c, w.log, flushed, store)
    requires Starts(w, lo) && Holds(w, lo, i) && w.provisional.Some? && v <= w.provisional.value
    ensures w.cursor <= w.provisional.value
    ensures Starts(w.(cursor := w.provisional.value, provisional := None, held := []), i)
    ensures var flushed' := flushed + (set x | x in w.held);
            && FlushedBelow(c, w.log, flushed', w.provisional.value)
            && StoreFlushed(c, w.log, flushed', CS.Apply(store, CS.Save(MyKey(c), v)))
  {
    FlushedMonotone(c, w.log, w.log, flushed, flushed + (set x | x in w.held));
    WindowEnds(c, w, lo, i);
    WindowFlushed(c, w, flushed, lo, i, w.provisional.value);
    WindowFlushed(c, w, flushed, lo, i, v);
  }

  lemma PromoteKeepsWindow(c: Config, s: State, lo: nat, w: bool)
    requires Inv(c, s, lo) && Enabled(c, s, Flush(FlushOk, w)) && s.view.provisional.Some?
    ensures Inv(c, DoFlush(c, s, FlushOk, w), s.router.i)
  {
    var t, n := DoFlush(c, s, FlushOk, w), s.view.provisional.value;
    assert InSink(s) == s.inflight;
    WindowPromoted(c, WindowOf(s), s.flushed, s.store, lo, s.router.i, Capped(n, FloorOf(c, s)));
    assert WindowOf(t) == WindowOf(s).(cursor := n, provisional := None, held := []);
  }

  /** A flush that moves no cursor: it failed, or there was nothing in the window. */
  lemma OtherFlushKeepsWindow(c: Config, s: State, lo: nat, outcome: FlushOutcome, w: bool)
    requires Inv(c, s, lo) && Enabled(c, s, Flush(outcome, w)) && (outcome.FlushOk? ==> s.view.provisional.None?)
    ensures Inv(c, DoFlush(c, s, outcome, w), lo)
  {
    var t := DoFlush(c, s, outcome, w);
    FlushedMonotone(c, s.log, s.log, s.flushed, t.flushed);
    assert WindowOf(t) == WindowOf(s).(provisional := None, held := []);
  }

  lemma TakeKeepsWindow(c: Config, s: State, lo: nat)
    requires Inv(c, s, lo) && Enabled(c, s, TakeBuffer)
    ensures Inv(c, DoTake(s), lo)
  {
    assert InSink(s) == s.buffered == InSink(DoTake(s));
  }

  lemma CrashKeepsWindow(c: Config, s: State, lo: nat, loadFails: bool) returns (lo': nat)
    requires Inv(c, s, lo) && c.flusher && c.start >= 1
    ensures Inv(c, DoCrash(c, s, loadFails), lo')
  {
    var t := DoCrash(c, s, loadFails);
    lo' := FirstFrom(t.log, t.view.cursor);
    assert FlushedBelow(c, t.log, t.flushed, t.view.cursor);
    assert Starts(WindowOf(t), lo');
  }

  lemma SnapshotKeepsWindow(c: Config, s: State, lo: nat)
    requires Inv(c, s, lo) && Enabled(c, s, Snapshot) && Clean(c, s)
    ensures Inv(c, Do(c, s, Snapshot), lo)
  {
    var t, e := Do(c, s, Snapshot), s.log[s.router.i];
    assert c.part(e.key) == c.partition;
    assert t.router.snap == D.Snap(false, s.view.cursor, false);
    assert WindowOf(t) == WindowOf(s);
  }

  /** Steps that touch neither the window nor what is flushed. */
  lemma QuietKeepsWindow(c: Config, s: State, lo: nat, step: Step)
    requires Inv(c, s, lo) && c.flusher && Enabled(c, s, step)
    requires step.CheckBlocked? || step.Save? || step.Elsewhere? || step.Persist?
    ensures Inv(c, Do(c, s, step), lo)
  {
    var t := Do(c, s, step);
    assert WindowOf(t) == WindowOf(s);
    assert StoreFlushed(c, t.log, t.flushed, t.store);
  }

  lemma StartKeepsWindow(c: Config, s: State, lo: nat, from: nat)
    requires Inv(c, s, lo) && Enabled(c, s, StartBatch(from))
    ensures Inv(c, Do(c, s, StartBatch(from)), lo)
  {
    var t := Do(c, s, StartBatch(from));
    assert WindowOf(t) == WindowOf(s) && t.router.i <= lo;
  }

  /** Without a blocked group there is nothing to retry. */
  lemma NothingToRetry(c: Config, s: State, lo: nat, step: Step)
    requires Inv(c, s, lo) && Clean(c, s) && Enabled(c, s, step)
    ensures !step.PickHead? && !step.RetryDeliver? && !step.WriteDLQ? && !step.PopSettled? && !step.DropCondemned?
    ensures !step.Notify?
  {
  }

  lemma StepKeepsWindow(c: Config, s: State, lo: nat, step: Step) returns (lo': nat)
    requires Inv(c, s, lo) && c.flusher && c.start >= 1 && Enabled(c, s, step)
    requires Clean(c, s) && Clean(c, Do(c, s, step))
    ensures Inv(c, Do(c, s, step), lo')
  {
    lo' := lo;
    NothingToRetry(c, s, lo, step);
    if step.Append? {
      lo' := AppendKeepsWindow(c, s, lo, step.e);
    } else if step.StartBatch? {
      StartKeepsWindow(c, s, lo, step.from);
    } else if step.Snapshot? {
      SnapshotKeepsWindow(c, s, lo);
    } else if step.Deliver? {
      DeliverKeepsWindow(c, s, lo, step.ok);
    } else if step.Apply? {
      ApplyKeepsWindow(c, s, lo);
    } else if step.TakeBuffer? {
      TakeKeepsWindow(c, s, lo);
    } else if step.Flush? {
      if step.outcome.FlushOk? && s.view.provisional.Some? {
        PromoteKeepsWindow(c, s, lo, step.dlqWrite);
        lo' := s.router.i;
      } else {
        OtherFlushKeepsWindow(c, s, lo, step.outcome, step.dlqWrite);
      }
    } else if step.Crash? {
      lo' := CrashKeepsWindow(c, s, lo, step.loadFails);
    } else {
      QuietKeepsWindow(c, s, lo, step);
    }
  }

  lemma {:induction false} WindowInvariant(c: Config, trace: seq<State>, steps: seq<Step>, n: nat) returns (lo: nat)
    requires Run(c, trace, steps) && c.flusher && n <= |steps| && CleanTo(c, trace, n)
    ensures Inv(c, trace[n], lo)
  {
    if n == 0 {
      lo := 0;
    } else {
      lo := WindowInvariant(c, trace, steps, n - 1);
      assert Enabled(c, trace[n - 1], steps[n - 1]) && trace[n] == Do(c, trace[n - 1], steps[n - 1]);
      lo := StepKeepsWindow(c, trace[n - 1], lo, steps[n - 1]);
    }
  }

  /** Under every pattern of flush failures and crashes, each entry below the in-memory and
      the durable cursor belonged to a batch whose FlushBatch returned nil. */
  lemma ProvisionalCursorIsSafe(c: Config, trace: seq<State>, steps: seq<Step>, n: nat)
    requires Run(c, trace, steps) && c.flusher && n <= |steps| && CleanTo(c, trace, n)
    ensures forall j :: 0 <= j < |trace[n].log| && c.start <= trace[n].log[j].sn
                        && (trace[n].log[j].sn < trace[n].view.cursor || trace[n].log[j].sn < Durable(c, trace[n])) ==>
      trace[n].log[j].sn in trace[n].flushed
  {
    var lo := WindowInvariant(c, trace, steps, n);
    assert forall j :: 0 <= j < |trace[n].log| ==> trace[n].log[j].sn >= 1;
  }

  lemma {:induction false} LogOnlyGrows(c: Config, trace: seq<State>, steps: seq<Step>, a: nat, b: nat)
    requires Run(c, trace, steps) && a <= b <= |steps|
    ensures trace[a].log <= trace[b].log
    decreases b - a
  {
    if a < b {
      LogOnlyGrows(c, trace, steps, a, b - 1);
      assert trace[b] == Do(c, trace[b - 1], steps[b - 1]);
    }
  }

  /** Neither a successful flush nor a crash. */
  predicate KeepsCursor(step: Step) { !step.Crash? && !(step.Flush? && step.outcome.FlushOk?) }

  lemma CursorStep(c: Config, s: State, lo: nat, step: Step)
    requires Inv(c, s, lo) && c.flusher && Clean(c, s) && Enabled(c, s, step) && KeepsCursor(step)
    ensures Do(c, s, step).view.cursor == s.view.cursor
  {
    if step.Apply? {
      PlainUpdate(s.view, s.log[s.router.i], s.router.failed);
    } else {
      CursorElsewhere(c, s, step);
    }
  }

  lemma CursorElsewhere(c: Config, s: State, step: Step)
    requires Enabled(c, s, step) && KeepsCursor(step) && !step.Apply?
    ensures Do(c, s, step).view.cursor == s.view.cursor
  {
  }

  /** On a clean partition nothing else moves a flusher's cursor. */
  lemma {:induction false} CursorStays(c: Config, trace: seq<State>, steps: seq<Step>, a: nat, b: nat)
    requires Run(c, trace, steps) && c.flusher && a <= b <= |steps| && CleanTo(c, trace, b)
    requires forall i :: a <= i < b ==> KeepsCursor(steps[i])
    ensures trace[a].view.cursor == trace[b].view.cursor
    decreases b - a
  {
    if a < b {
      CursorStays(c, trace, steps, a, b - 1);
      CursorStaysOnce(c, trace, steps, b - 1);
    }
  }

  lemma CursorStaysOnce(c: Config, trace: seq<State>, steps: seq<Step>, n: nat)
    requires Run(c, trace, steps) && c.flusher && n < |steps| && CleanTo(c, trace, n) && KeepsCursor(steps[n])
    ensures trace[n + 1].view.cursor == trace[n].view.cursor
  {
    var lo := WindowInvariant(c, trace, steps, n);
    assert Enabled(c, trace[n], steps[n]) && trace[n + 1] == Do(c, trace[n], steps[n]);
    CursorStep(c, trace[n], lo, steps[n]);
  }

  /** A window whose flush failed is delivered again from the same start in the same order: the
      next flush of this process has the same cursor, and what the two hold agrees as far as
      both go. */
  lemma FailedWindowIsRedelivered(c: Config, trace: seq<State>, steps: seq<Step>, a: nat, b: nat)
    requires Run(c, trace, steps) && c.flusher && a < b < |steps| && CleanTo(c, trace, b)
    requires steps[a].Flush? && steps[b].Flush? && forall i :: a <= i < b ==> KeepsCursor(steps[i])
    ensures trace[a].view.cursor == trace[b].view.cursor
    ensures forall i :: 0 <= i < |trace[a].inflight| && i < |trace[b].inflight| ==>
      trace[a].inflight[i] == trace[b].inflight[i]
  {
    var s, t := trace[a], trace[b];
    assert Enabled(c, s, steps[a]) && Enabled(c, t, steps[b]);
    assert CleanTo(c, trace, a);
    CursorStays(c, trace, steps, a, b);
    var lo := WindowInvariant(c, trace, steps, a);
    var lo' := WindowInvariant(c, trace, steps, b);
    LogOnlyGrows(c, trace, steps, a, b);
    assert InSink(s) == s.inflight && InSink(t) == t.inflight;
    SameWindows(WindowOf(s), WindowOf(t), lo, lo', s.router.i, t.router.i);
  }

  lemma SameWindows(w: Window, v: Window, lo: nat, lo': nat, i: nat, j: nat)
    requires w.log <= v.log && w.cursor == v.cursor && Starts(w, lo) && Starts(v, lo')
    requires forall a, b :: 0 <= a < b < |v.log| ==> v.log[a].sn < v.log[b].sn
    requires BufferIs(w, lo, i) && BufferIs(v, lo', j)
    ensures forall x :: 0 <= x < |w.held| && x < |v.held| ==> w.held[x] == v.held[x]
  {
  }
}
