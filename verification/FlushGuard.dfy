/** What a batch-flushing consumer keeps when groups block, poisons are skipped and retries
    deliver into its buffer: the exact condition on every step, and no loss over the runs
    whose steps all meet it. */
module FlushGuard {
  import opened Common
  import opened Delivery
  import R = Retry
  import D = Dispatch
  import S = Scheduler
  import CS = CursorStore
  import opened DeliverySafety

  /** For a flusher only a flush, the DLQ or the log of drops settles an entry, not Deliver.
      `Seen` on this core means flushed, dead-lettered, dropped or still queued. */
  function KeptCore(s: State): (m: Core) {
    Core(s.log, s.view.retry.groups, s.flushed + s.deadLettered + s.dropped)
  }

  ghost predicate Kept(c: Config, s: State, e: Entry) { Seen(c, KeptCore(s), e) }

  // ----- the condition -----

  /** Nothing queued below `v` is unsettled: a crash may forget the queues. */
  ghost predicate NothingWaits(c: Config, m: Core, v: nat) {
    forall k, i: nat :: Slot(c, m.groups, k, i) && m.groups[k][i].entry.sn < v ==> Over(c, m, m.groups[k][i].entry.sn)
  }

  /** Dispatch is about to move a flusher's cursor directly: past a skipped entry, or past an
      entry it queues behind a blocked group. */
  predicate MovesDirectly(s: State) {
    && s.router.Returned? && s.router.i < |s.log|
    && (s.router.snap.skipped || (s.router.snap.blocked && s.log[s.router.i].sn >= s.router.snap.cursor))
  }

  /** Every entry from the cursor up to this one is flushed, dead-lettered, dropped or queued;
      an entry that is only buffered is not. */
  ghost predicate WindowKept(c: Config, s: State, e: Entry) {
    forall j :: 0 <= j < |s.log| && s.view.cursor <= s.log[j].sn < e.sn ==> Kept(c, s, s.log[j])
  }

  /** Queued a second time behind its head position. */
  ghost predicate Behind(g: R.Groups, k: Key, sn: nat) {
    k in g && exists i :: 1 <= i < |g[k]| && g[k][i].entry.sn == sn
  }

  /** The head about to be popped is not needed: it will be read again, is settled, or is queued
      again. A retried Deliver does not settle it, it only buffers it. */
  ghost predicate PopKept(c: Config, s: State)
    requires s.retrier.Settled? || s.retrier.Condemned?
  {
    var sn := s.retrier.rec.entry.sn;
    sn >= s.view.cursor || Over(c, KeptCore(s), sn) || Behind(s.view.retry.groups, s.retrier.key, sn)
  }

  /** The promotion passes no entry that is only in the buffer behind the flushed batch. */
  ghost predicate BufferKept(c: Config, s: State, to: nat) {
    forall j :: 0 <= j < |s.log| && s.view.cursor <= s.log[j].sn < to && s.log[j].sn in s.buffered ==>
      Kept(c, s, s.log[j]) || s.log[j].sn in s.inflight
  }

  /** The condition a step must meet. */
  ghost predicate Sound(c: Config, s: State, step: Step)
    requires Enabled(c, s, step)
  {
    match step
    case Apply =>
      && (MovesDirectly(s) ==> WindowKept(c, s, s.log[s.router.i]))
      && (DoApply(s).router.save.Some? ==> NothingWaits(c, KeptCore(DoApply(s)), DoApply(s).router.save.value))
    case PopSettled => PopKept(c, s)
    case Notify => NothingWaits(c, KeptCore(s), Released(s))
    case Flush(outcome, w) =>
      outcome.FlushOk? && s.view.provisional.Some? ==>
        && BufferKept(c, s, s.view.provisional.value)
        && NothingWaits(c, KeptCore(DoFlush(c, s, outcome, w)),
                        Capped(Max(s.view.cursor, s.view.provisional.value), FloorOf(c, s)))
    case _ => true
  }

  ghost predicate SoundBefore(c: Config, trace: seq<State>, steps: seq<Step>, n: nat)
    requires Run(c, trace, steps) && n <= |steps|
  {
    forall i :: 0 <= i < n ==> Sound(c, trace[i], steps[i])
  }

  // ----- the invariant -----

  ghost predicate QueuesLogged(c: Config, m: Core) {
    forall k, i: nat :: Slot(c, m.groups, k, i) ==> m.groups[k][i].entry in m.log
  }

  /** What the poll loop has passed in this batch is kept or in the sink. */
  ghost predicate PassedTo(c: Config, m: Core, buffered: seq<nat>, i: nat) {
    i <= |m.log| && forall j :: 0 <= j < i ==> Seen(c, m, m.log[j]) || m.log[j].sn in buffered
  }

  predicate ProvisionalTo(m: Core, provisional: Option<nat>, i: nat) {
    i <= |m.log| && (provisional.Some? ==> i > 0 && provisional.value <= m.log[i - 1].sn + 1)
  }

  ghost predicate Passed(c: Config, m: Core, v: D.View, buffered: seq<nat>, i: nat, hi: nat) {
    i <= hi <= |m.log| && PassedTo(c, m, buffered, i) && ProvisionalTo(m, v.provisional, i)
  }

  ghost predicate SnapFine(c: Config, m: Core, v: D.View, e: Entry, snap: D.Snap) {
    && snap.cursor == v.cursor && (!snap.blocked ==> e.key !in m.groups)
    && (snap.skipped ==> Over(c, m, e.sn))
  }

  ghost predicate PollFine(c: Config, m: Core, v: D.View, buffered: seq<nat>, r: RouterPhase) {
    match r
    case Idle => v.provisional == None
    case AtEntry(i, hi) => Passed(c, m, v, buffered, i, hi)
    case Checked(i, hi, b) =>
      Passed(c, m, v, buffered, i, hi) && i < hi && (!b ==> forall k :: k in m.groups ==> c.part(k) != c.partition)
    case Snapped(i, hi, snap) => Passed(c, m, v, buffered, i, hi) && i < hi && SnapFine(c, m, v, m.log[i], snap)
    case Returned(i, hi, snap, failed) =>
      && Passed(c, m, v, buffered, i, hi) && i < hi && SnapFine(c, m, v, m.log[i], snap)
      && (if failed then D.Attempts(snap, m.log[i]) else D.Attempts(snap, m.log[i]) ==> m.log[i].sn in buffered)
    case Saving(i, hi, save) => Passed(c, m, v, buffered, i, hi) && (save.Some? ==> Safe(c, m, save.value))
    case Flushing(i, hi) => Passed(c, m, v, buffered, i, hi)
  }

  function PollIndex(r: RouterPhase): (i: nat) { if r.Idle? then 0 else r.i }

  /** A head about to be popped that this batch has passed without the cursor is settled, in the
      buffer, or queued again. */
  ghost predicate PopFine(c: Config, m: Core, cursor: nat, buffered: seq<nat>, i: nat, retrier: RetryPhase) {
    retrier.Settled? ==>
      var sn := retrier.rec.entry.sn;
      forall j :: 0 <= j < i && j < |m.log| && m.log[j].sn == sn && cursor <= sn ==>
        Over(c, m, sn) || sn in buffered || Behind(m.groups, retrier.key, sn)
  }

  /** What the consumer must not lose: everything below the cursor is kept, and everything below
      a saved or about to be saved cursor is settled. */
  ghost predicate NothingLost(c: Config, s: State) {
    && Covered(c, KeptCore(s), s.view.cursor)
    && StoreOk(c, KeptCore(s), s.store)
    && (s.router.Saving? && s.router.save.Some? ==> Safe(c, KeptCore(s), s.router.save.value))
  }

  ghost predicate Fine(c: Config, m: Core, v: D.View, buffered: seq<nat>, r: RouterPhase, retrier: RetryPhase,
                       store: CS.Store) {
    && QueuesLogged(c, m) && Covered(c, m, v.cursor) && StoreOk(c, m, store)
    && PollFine(c, m, v, buffered, r) && PopFine(c, m, v.cursor, buffered, PollIndex(r), retrier)
  }

  ghost predicate FlushInv(c: Config, s: State) {
    && s.view.flusher && s.skips <= s.deadLettered && (s.router.Flushing? || s.inflight == [])
    && Fine(c, KeptCore(s), s.view, InSink(s), s.router, s.retrier, s.store)
  }

  /** A covered value is safe to persist exactly when nothing waits below it. */
  lemma SafeExactlyWhen(c: Config, m: Core, n: nat, v: nat)
    requires LogOk(c, m.log) && QueuesLogged(c, m) && R.WellKeyed(m.groups, c.part) && Covered(c, m, n) && v <= n
    ensures Safe(c, m, v) <==> NothingWaits(c, m, v)
  {
    if Safe(c, m, v) {
      forall k, i: nat | Slot(c, m.groups, k, i) && m.groups[k][i].entry.sn < v
          ensures Over(c, m, m.groups[k][i].entry.sn) {
        assert m.groups[k][i].entry in m.log;
      }
    } else {
      var j :| 0 <= j < |m.log| && m.log[j].sn < v && !Over(c, m, m.log[j].sn);
      assert Queued(m, m.log[j]);
      var i :| 0 <= i < |m.groups[m.log[j].key]| && m.groups[m.log[j].key][i].entry.sn == m.log[j].sn;
      assert Slot(c, m.groups, m.log[j].key, i);
    }
  }

  // ----- what survives growth -----

  lemma PollGrows(c: Config, m: Core, n: Core, v: D.View, buffered: seq<nat>, buffered': seq<nat>, r: RouterPhase)
    requires Grows(c, m, n) && LogOk(c, m.log) && PollFine(c, m, v, buffered, r)
    requires forall k :: c.part(k) == c.partition && k in n.groups ==> k in m.groups
    requires forall x :: x in buffered ==> x in buffered'
    ensures PollFine(c, n, v, buffered', r)
  {
    if !r.Idle? {
      PassedGrows(c, m, n, v, buffered, buffered', r.i, r.hi);
    }
  }

  lemma PassedGrows(c: Config, m: Core, n: Core, v: D.View, buffered: seq<nat>, buffered': seq<nat>, i: nat, hi: nat)
    requires Grows(c, m, n) && Passed(c, m, v, buffered, i, hi) && forall x :: x in buffered ==> x in buffered'
    ensures Passed(c, n, v, buffered', i, hi)
  {
    assert forall j :: 0 <= j < |m.log| ==> n.log[j] == m.log[j];
  }

  lemma SameQueuesGrow(c: Config, m: Core, n: Core)
    requires m.log <= n.log && LogOk(c, n.log) && m.settled <= n.settled && m.groups == n.groups
    ensures Grows(c, m, n)
    ensures QueuesLogged(c, m) ==> QueuesLogged(c, n)
  {
    assert forall j :: 0 <= j < |m.log| ==> n.log[j] == m.log[j];
    forall j | 0 <= j < |m.log| && Seen(c, m, m.log[j]) ensures Seen(c, n, m.log[j]) {
      if Queued(m, m.log[j]) {
        assert Queued(n, m.log[j]);
      }
    }
    if QueuesLogged(c, m) {
      forall k, i: nat | Slot(c, n.groups, k, i) ensures n.groups[k][i].entry in n.log {
        var j :| 0 <= j < |m.log| && m.log[j] == m.groups[k][i].entry;
        assert n.log[j] == m.log[j];
      }
    }
  }

  /** Steps that only settle, buffer or append more. */
  lemma MoreKeeps(c: Config, s: State, t: State)
    requires FlushInv(c, s) && QueuesValid(c, s) && QueuesValid(c, t)
    requires t.view == s.view && t.router == s.router && t.store == s.store && s.log <= t.log
    requires KeptCore(s).settled <= KeptCore(t).settled && t.skips <= t.deadLettered
    requires t.inflight == s.inflight && forall x :: x in s.buffered ==> x in t.buffered
    requires t.retrier.Settled? ==> t.retrier == s.retrier || Over(c, KeptCore(t), t.retrier.rec.entry.sn)
                                    || t.retrier.rec.entry.sn in t.buffered
    ensures FlushInv(c, t)
  {
    var m, n := KeptCore(s), KeptCore(t);
    SameQueuesGrow(c, m, n);
    CoveredMonotone(c, m, n, s.view.cursor);
    StoreMonotone(c, m, n, s.store);
    PollGrows(c, m, n, s.view, InSink(s), InSink(t), s.router);
    assert forall j :: 0 <= j < |m.log| ==> n.log[j] == m.log[j];
  }

  // ----- the steps -----

  /** Queueing `e` behind its group forgets nothing. */
  lemma EnqueueGrows(c: Config, m: Core, e: Entry, rec: R.Record, n: Core)
    requires LogOk(c, m.log) && QueuesLogged(c, m) && e in m.log && rec.entry == e
    requires n == m.(groups := R.Enqueued(m.groups, e.key, rec))
    ensures Grows(c, m, n) && QueuesLogged(c, n) && Seen(c, n, e)
    ensures forall k, sn :: Behind(m.groups, k, sn) ==> Behind(n.groups, k, sn)
  {
    var q := if e.key in m.groups then m.groups[e.key] else [];
    var q' := n.groups[e.key];
    assert q' == q + [rec] && q'[|q|].entry.sn == e.sn;
    assert forall i :: 0 <= i < |q| ==> q'[i] == q[i];
    forall j | 0 <= j < |m.log| && Seen(c, m, m.log[j]) ensures Seen(c, n, m.log[j]) {
      if !Over(c, m, m.log[j].sn) && m.log[j].key == e.key {
        var i :| 0 <= i < |q| && q[i].entry.sn == m.log[j].sn;
        assert q'[i].entry.sn == m.log[j].sn;
      }
    }
    forall k, i: nat | Slot(c, n.groups, k, i) ensures n.groups[k][i].entry in n.log {
      if k != e.key || i < |q| {
        assert Slot(c, m.groups, k, i);
      }
    }
    forall k, sn | Behind(m.groups, k, sn) ensures Behind(n.groups, k, sn) {
      var i :| 1 <= i < |m.groups[k]| && m.groups[k][i].entry.sn == sn;
      assert n.groups[k][i].entry.sn == sn;
    }
  }

  /** The cursor moves past `e`, which is kept as is everything before it. */
  lemma CoversPast(c: Config, m: Core, cursor: nat, i: nat)
    requires LogOk(c, m.log) && i < |m.log| && Covered(c, m, cursor) && Seen(c, m, m.log[i])
    requires forall j :: 0 <= j < |m.log| && cursor <= m.log[j].sn < m.log[i].sn ==> Seen(c, m, m.log[j])
    ensures Covered(c, m, Max(cursor, m.log[i].sn + 1))
  {
    assert forall j :: i < j < |m.log| ==> m.log[i].sn < m.log[j].sn;
    assert m.log[i].sn <= m.log[|m.log| - 1].sn;
  }

  /** The poll loop passes one more entry. */
  lemma PassesOn(c: Config, m: Core, v: D.View, v': D.View, buffered: seq<nat>, i: nat, hi: nat)
    requires LogOk(c, m.log) && Passed(c, m, v, buffered, i, hi) && i < hi
    requires Seen(c, m, m.log[i]) || m.log[i].sn in buffered
    requires v'.provisional.Some? ==> v'.provisional == v.provisional || v'.provisional.value <= m.log[i].sn + 1
    ensures Passed(c, m, v', buffered, i + 1, hi)
  {
    assert i > 0 ==> m.log[i - 1].sn < m.log[i].sn;
  }

  lemma PopStaysFine(c: Config, m: Core, n: Core, cursor: nat, cursor': nat, buffered: seq<nat>, i: nat,
                     retrier: RetryPhase)
    requires PopFine(c, m, cursor, buffered, i, retrier) && cursor <= cursor' && i < |m.log|
    requires n.log == m.log && n.settled == m.settled
    requires forall k, sn :: Behind(m.groups, k, sn) ==> Behind(n.groups, k, sn)
    requires retrier.Settled? && retrier.rec.entry.sn == m.log[i].sn && m.log[i].sn >= cursor' ==>
      Over(c, n, m.log[i].sn) || m.log[i].sn in buffered
    ensures PopFine(c, n, cursor', buffered, i + 1, retrier)
  {
  }

  /** Past a skipped entry. */
  lemma SkipFine(c: Config, m: Core, v: D.View, v': D.View, buffered: seq<nat>, r: RouterPhase, retrier: RetryPhase,
                 store: CS.Store, save: nat)
    requires LogOk(c, m.log) && R.WellKeyed(m.groups, c.part) && Fine(c, m, v, buffered, r, retrier, store)
    requires r.Returned? && r.snap.skipped && v' == v.(cursor := Max(v.cursor, m.log[r.i].sn + 1)) && save <= v'.cursor
    requires forall j :: 0 <= j < |m.log| && v.cursor <= m.log[j].sn < m.log[r.i].sn ==> Seen(c, m, m.log[j])
    requires NothingWaits(c, m, save)
    ensures Fine(c, m, v', buffered, Saving(r.i + 1, r.hi, Some(save)), retrier, store)
  {
    assert Seen(c, m, m.log[r.i]);
    CoversPast(c, m, v.cursor, r.i);
    SafeExactlyWhen(c, m, v'.cursor, save);
    PassesOn(c, m, v, v', buffered, r.i, r.hi);
    PopStaysFine(c, m, m, v.cursor, v'.cursor, buffered, r.i, retrier);
  }

  lemma SkipKeeps(c: Config, s: State)
    requires FlushInv(c, s) && QueuesValid(c, s) && Enabled(c, s, Apply) && Sound(c, s, Apply) && s.router.snap.skipped
    ensures FlushInv(c, DoApply(s))
  {
    var t := DoApply(s);
    SkipFine(c, KeptCore(s), s.view, t.view, InSink(s), s.router, s.retrier, s.store, t.router.save.value);
  }

  /** Past an entry queued behind its blocked group. */
  lemma FollowOnGrows(c: Config, m: Core, n: Core, v: D.View, buffered: seq<nat>, i: nat, hi: nat, store: CS.Store)
    requires LogOk(c, m.log) && QueuesLogged(c, m) && Passed(c, m, v, buffered, i, hi) && i < hi
    requires n == m.(groups := R.Enqueued(m.groups, m.log[i].key, R.Record(m.log[i], 0)))
    requires Covered(c, m, v.cursor) && StoreOk(c, m, store)
    requires forall j :: 0 <= j < |m.log| && v.cursor <= m.log[j].sn < m.log[i].sn ==> Seen(c, m, m.log[j])
    ensures QueuesLogged(c, n) && Covered(c, n, Max(v.cursor, m.log[i].sn + 1)) && StoreOk(c, n, store)
    ensures Passed(c, n, v, buffered, i + 1, hi)
  {
    EnqueueGrows(c, m, m.log[i], R.Record(m.log[i], 0), n);
    CoveredMonotone(c, m, n, v.cursor);
    StoreMonotone(c, m, n, store);
    CoversPast(c, n, v.cursor, i);
    PassedGrows(c, m, n, v, buffered, buffered, i, hi);
    assert i > 0 ==> m.log[i - 1].sn < m.log[i].sn;
  }

  lemma FollowOnFine(c: Config, m: Core, n: Core, v: D.View, v': D.View, buffered: seq<nat>, r: RouterPhase,
                     retrier: RetryPhase, store: CS.Store, save: nat)
    requires LogOk(c, m.log) && R.WellKeyed(n.groups, c.part) && Fine(c, m, v, buffered, r, retrier, store)
    requires r.Returned? && n == m.(groups := R.Enqueued(m.groups, m.log[r.i].key, R.Record(m.log[r.i], 0)))
    requires v'.cursor == Max(v.cursor, m.log[r.i].sn + 1) && v'.provisional == v.provisional && save <= v'.cursor
    requires forall j :: 0 <= j < |m.log| && v.cursor <= m.log[j].sn < m.log[r.i].sn ==> Seen(c, m, m.log[j])
    requires NothingWaits(c, n, save) && (retrier.Settled? ==> IsHead(m.groups, retrier.key, retrier.rec))
    ensures Fine(c, n, v', buffered, Saving(r.i + 1, r.hi, Some(save)), retrier, store)
  {
    FollowOnGrows(c, m, n, v, buffered, r.i, r.hi, store);
    assert Passed(c, n, v', buffered, r.i + 1, r.hi);
    EnqueueGrows(c, m, m.log[r.i], R.Record(m.log[r.i], 0), n);
    SafeExactlyWhen(c, n, v'.cursor, save);
    PopStaysFine(c, m, n, v.cursor, v'.cursor, buffered, r.i, retrier);
  }

  lemma FollowOnKeeps(c: Config, s: State)
    requires FlushInv(c, s) && QueuesValid(c, s) && Enabled(c, s, Apply) && Sound(c, s, Apply)
    requires QueuesValid(c, DoApply(s)) && !s.router.snap.skipped && MovesDirectly(s)
    ensures FlushInv(c, DoApply(s))
  {
    var t := DoApply(s);
    assert InSink(t) == InSink(s) && t.retrier == s.retrier && t.store == s.store;
    FollowOnFine(c, KeptCore(s), KeptCore(t), s.view, t.view, InSink(s), s.router, s.retrier, s.store,
                 t.router.save.value);
  }

  /** A failed Deliver starts a new group. */
  lemma FailedFine(c: Config, m: Core, n: Core, v: D.View, v': D.View, buffered: seq<nat>, r: RouterPhase,
                   retrier: RetryPhase, store: CS.Store)
    requires LogOk(c, m.log) && Fine(c, m, v, buffered, r, retrier, store)
    requires r.Returned? && n == m.(groups := R.Enqueued(m.groups, m.log[r.i].key, R.Record(m.log[r.i], 1)))
    requires v'.cursor == v.cursor && v'.provisional == v.provisional
    requires retrier.Settled? ==> retrier.rec.entry.sn != m.log[r.i].sn
    ensures Fine(c, n, v', buffered, Saving(r.i + 1, r.hi, None), retrier, store)
  {
    var e := m.log[r.i];
    EnqueueGrows(c, m, e, R.Record(e, 1), n);
    CoveredMonotone(c, m, n, v.cursor);
    StoreMonotone(c, m, n, store);
    PassedGrows(c, m, n, v, buffered, buffered, r.i, r.hi);
    PassesOn(c, n, v, v', buffered, r.i, r.hi);
    PopStaysFine(c, m, n, v.cursor, v.cursor, buffered, r.i, retrier);
  }

  lemma FailedKeeps(c: Config, s: State)
    requires FlushInv(c, s) && QueuesValid(c, s) && Enabled(c, s, Apply) && !MovesDirectly(s)
    requires s.log[s.router.i].sn >= s.router.snap.cursor && s.router.failed
    ensures FlushInv(c, DoApply(s))
  {
    var t := DoApply(s);
    HeadIsElsewhere(c, s, s.log[s.router.i]);
    assert InSink(t) == InSink(s) && t.retrier == s.retrier && t.store == s.store;
    FailedFine(c, KeptCore(s), KeptCore(t), s.view, t.view, InSink(s), s.router, s.retrier, s.store);
  }

  /** A successful Deliver is in the buffer; an entry below the cursor was kept already. */
  lemma BufferedFine(c: Config, m: Core, v: D.View, v': D.View, buffered: seq<nat>, r: RouterPhase,
                     retrier: RetryPhase, store: CS.Store)
    requires LogOk(c, m.log) && Fine(c, m, v, buffered, r, retrier, store) && r.Returned?
    requires Seen(c, m, m.log[r.i]) || m.log[r.i].sn in buffered
    requires m.log[r.i].sn >= v.cursor ==> m.log[r.i].sn in buffered
    requires v'.cursor == v.cursor
    requires v'.provisional.Some? ==>
      v'.provisional == v.provisional || v'.provisional.value <= m.log[r.i].sn + 1
    ensures Fine(c, m, v', buffered, Saving(r.i + 1, r.hi, None), retrier, store)
  {
    PassesOn(c, m, v, v', buffered, r.i, r.hi);
    PopStaysFine(c, m, m, v.cursor, v.cursor, buffered, r.i, retrier);
  }

  lemma BufferedKeeps(c: Config, s: State)
    requires FlushInv(c, s) && QueuesValid(c, s) && Enabled(c, s, Apply) && !MovesDirectly(s)
    requires s.log[s.router.i].sn < s.router.snap.cursor || !s.router.failed
    ensures FlushInv(c, DoApply(s))
  {
    var t, i := DoApply(s), s.router.i;
    assert i > 0 ==> s.log[i - 1].sn < s.log[i].sn;
    assert KeptCore(t) == KeptCore(s) && InSink(t) == InSink(s) && t.retrier == s.retrier && t.store == s.store;
    BufferedFine(c, KeptCore(s), s.view, t.view, InSink(s), s.router, s.retrier, s.store);
  }

  /** A head being settled is not an entry whose group does not exist. */
  lemma HeadIsElsewhere(c: Config, s: State, e: Entry)
    requires FlushInv(c, s) && QueuesValid(c, s) && e in s.log && e.key !in s.view.retry.groups
    ensures s.retrier.Settled? ==> s.retrier.rec.entry.sn != e.sn
  {
    if s.retrier.Settled? {
      var k := s.retrier.key;
      assert Slot(c, s.view.retry.groups, k, 0);
      var x := s.view.retry.groups[k][0].entry;
      assert x in s.log && x.key == k;
      SameSnSameEntry(c, s.log, x, e);
    }
  }

  lemma SameSnSameEntry(c: Config, log: seq<Entry>, x: Entry, e: Entry)
    requires LogOk(c, log) && x in log && e in log
    ensures x.sn == e.sn ==> x == e
  {
    var i :| 0 <= i < |log| && log[i] == x;
    var j :| 0 <= j < |log| && log[j] == e;
    assert i < j ==> log[i].sn < log[j].sn;
    assert j < i ==> log[j].sn < log[i].sn;
  }

  lemma PopLeavesFine(c: Config, m: Core, n: Core, v: D.View, v': D.View, buffered: seq<nat>, r: RouterPhase,
                      retrier: RetryPhase,
                      floor: Option<nat>, store: CS.Store)
    requires LogOk(c, m.log) && R.WellKeyed(m.groups, c.part) && Fine(c, m, v, buffered, r, retrier, store)
    requires (retrier.Settled? || retrier.Condemned?) && IsHead(m.groups, retrier.key, retrier.rec)
    requires n == m.(groups := R.Popped(m.groups, retrier.key)) && v' == v.(retry := v'.retry)
    requires var sn := retrier.rec.entry.sn;
             && (sn >= v.cursor || Over(c, m, sn) || Behind(m.groups, retrier.key, sn))
             && (retrier.Condemned? ==> Over(c, m, sn))
    ensures Fine(c, n, v', buffered, r, Notifying(floor), store)
  {
    PopForgetsHead(c, m, n, retrier.key);
    PopCovers(c, m, n, retrier.key, v.cursor);
    PoppedIsBuffered(c, m, n, v.cursor, buffered, PollIndex(r), retrier);
    PollPops(c, m, n, v, v', buffered, r);
  }

  lemma PopKeepsFlush(c: Config, s: State)
    requires FlushInv(c, s) && QueuesValid(c, s)
    requires (s.retrier.Settled? || s.retrier.Condemned?) && HeadIs(s, s.retrier.key, s.retrier.rec)
    requires PopKept(c, s) && (s.retrier.Condemned? ==> Over(c, KeptCore(s), s.retrier.rec.entry.sn))
    ensures FlushInv(c, DoPop(c, s))
  {
    var t := DoPop(c, s);
    PopLeavesFine(c, KeptCore(s), KeptCore(t), s.view, t.view, InSink(s), s.router, s.retrier, t.retrier.floor,
                  s.store);
  }

  /** What a pop forgets and the batch has passed is in the buffer. */
  lemma PoppedIsBuffered(c: Config, m: Core, n: Core, cursor: nat, buffered: seq<nat>, i: nat, retrier: RetryPhase)
    requires retrier.Settled? || retrier.Condemned?
    requires var k, sn := retrier.key, retrier.rec.entry.sn;
             && k in m.groups && |m.groups[k]| > 0 && m.groups[k][0] == retrier.rec
             && (sn >= cursor || Over(c, m, sn) || Behind(m.groups, k, sn))
             && (retrier.Condemned? ==> Over(c, m, sn))
             && forall j :: 0 <= j < |m.log| && Seen(c, m, m.log[j]) && Survives(c, m, k, m.log[j].sn) ==>
                 Seen(c, n, m.log[j])
    requires PopFine(c, m, cursor, buffered, i, retrier)
    ensures forall j :: 0 <= j < i && j < |m.log| && Seen(c, m, m.log[j]) ==>
        Seen(c, n, m.log[j]) || m.log[j].sn in buffered
  {
    var k, sn := retrier.key, retrier.rec.entry.sn;
    forall j | 0 <= j < i && j < |m.log| && Seen(c, m, m.log[j])
      ensures Seen(c, n, m.log[j]) || m.log[j].sn in buffered
    {
      assert m.log[j].sn == sn && sn < cursor ==> Survives(c, m, k, sn);
    }
  }

  lemma PopCovers(c: Config, m: Core, n: Core, k: Key, cursor: nat)
    requires k in m.groups && |m.groups[k]| > 0 && n.log == m.log && Covered(c, m, cursor)
    requires m.groups[k][0].entry.sn >= cursor || Survives(c, m, k, m.groups[k][0].entry.sn)
    requires forall j :: 0 <= j < |m.log| && Seen(c, m, m.log[j]) && Survives(c, m, k, m.log[j].sn) ==>
        Seen(c, n, m.log[j])
    ensures Covered(c, n, cursor)
  {
  }

  /** Not the head of `k`, or settled, or queued again. */
  ghost predicate Survives(c: Config, m: Core, k: Key, sn: nat)
    requires k in m.groups && |m.groups[k]| > 0
  {
    sn != m.groups[k][0].entry.sn || Over(c, m, sn) || Behind(m.groups, k, sn)
  }

  /** A pop forgets at most its head. */
  lemma PopForgetsHead(c: Config, m: Core, n: Core, k: Key)
    requires LogOk(c, m.log) && QueuesLogged(c, m) && R.WellKeyed(m.groups, c.part) && k in m.groups
    requires n == m.(groups := R.Popped(m.groups, k))
    ensures QueuesLogged(c, n)
    ensures forall j :: 0 <= j < |m.log| && Seen(c, m, m.log[j]) && Survives(c, m, k, m.log[j].sn) ==>
        Seen(c, n, m.log[j])
  {
    var q := m.groups[k];
    forall j | 0 <= j < |m.log| && Queued(m, m.log[j]) && m.log[j].key == k
               && (m.log[j].sn != q[0].entry.sn || Behind(m.groups, k, q[0].entry.sn))
      ensures Queued(n, m.log[j])
    {
      var x :| 0 <= x < |q| && q[x].entry.sn == m.log[j].sn && (x > 0 || Behind(m.groups, k, q[0].entry.sn));
      if x == 0 {
        x :| 1 <= x < |q| && q[x].entry.sn == m.log[j].sn;
      }
      assert n.groups[k][x - 1] == q[x];
    }
    forall i: nat | Slot(c, n.groups, k, i) ensures n.groups[k][i].entry in n.log {
      assert Slot(c, m.groups, k, i + 1) && n.groups[k][i] == q[i + 1];
    }
    forall j, i: nat | j != k && Slot(c, n.groups, j, i) ensures n.groups[j][i].entry in n.log {
      assert Slot(c, m.groups, j, i);
    }
  }

  /** The poll loop's obligations when what is forgotten is in the buffer or not passed yet. */
  lemma PollPops(c: Config, m: Core, n: Core, v: D.View, v': D.View, buffered: seq<nat>, r: RouterPhase)
    requires v'.cursor == v.cursor && v'.provisional == v.provisional
    requires PollFine(c, m, v, buffered, r) && n.log == m.log && n.settled == m.settled
    requires forall k :: k in n.groups ==> k in m.groups
    requires forall j :: 0 <= j < PollIndex(r) && j < |m.log| && Seen(c, m, m.log[j]) ==>
      Seen(c, n, m.log[j]) || m.log[j].sn in buffered
    ensures PollFine(c, n, v', buffered, r)
  {
  }

  /** A successful flush settles what it took; with the rest of the window kept as well, the
      cursor may move to the end of the batch. */
  lemma PromotionIsCovered(c: Config, m: Core, n: Core, v: D.View, taken: seq<nat>, rest: seq<nat>, i: nat, hi: nat)
    requires Grows(c, m, n) && n.log == m.log && LogOk(c, m.log) && Covered(c, m, v.cursor)
    requires Passed(c, m, v, taken + rest, i, hi) && v.provisional.Some? && forall x :: x in taken ==> x in n.settled
    requires forall j :: 0 <= j < |m.log| && v.cursor <= m.log[j].sn < v.provisional.value && m.log[j].sn in rest ==>
      Seen(c, n, m.log[j])
    ensures Covered(c, n, Max(v.cursor, v.provisional.value))
  {
    CoveredMonotone(c, m, n, v.cursor);
    assert forall j :: i <= j < |m.log| ==> m.log[i - 1].sn < m.log[j].sn;
    assert m.log[i - 1].sn <= m.log[|m.log| - 1].sn;
  }

  lemma PromoteKeeps(c: Config, s: State, w: bool)
    requires FlushInv(c, s) && QueuesValid(c, s) && Enabled(c, s, Flush(FlushOk, w)) && Sound(c, s, Flush(FlushOk, w))
    requires s.view.provisional.Some?
    ensures FlushInv(c, DoFlush(c, s, FlushOk, w))
  {
    var t, m := DoFlush(c, s, FlushOk, w), KeptCore(s);
    var n, to := KeptCore(t), Max(s.view.cursor, s.view.provisional.value);
    SameQueuesGrow(c, m, n);
    StoreMonotone(c, m, n, s.store);
    PromotionIsCovered(c, m, n, s.view, s.inflight, s.buffered, s.router.i, s.router.hi);
    SafeExactlyWhen(c, n, to, Capped(to, FloorOf(c, s)));
    assert t.view.cursor == to;
    assert StoreOk(c, n, t.store);
  }

  /** A flush that moves no cursor: nothing provisional, or a failure. */
  lemma IdleFlushKeeps(c: Config, s: State, outcome: FlushOutcome, w: bool)
    requires FlushInv(c, s) && QueuesValid(c, s) && Enabled(c, s, Flush(outcome, w))
    requires outcome.FlushOk? ==> s.view.provisional.None?
    ensures FlushInv(c, DoFlush(c, s, outcome, w))
  {
    var t, m := DoFlush(c, s, outcome, w), KeptCore(s);
    SameQueuesGrow(c, m, KeptCore(t));
    CoveredMonotone(c, m, KeptCore(t), s.view.cursor);
    StoreMonotone(c, m, KeptCore(t), s.store);
  }

  ghost predicate SameQueue(g: R.Groups, g': R.Groups, k: Key) {
    && (k in g <==> k in g')
    && (k in g ==> |g[k]| == |g'[k]| && forall i :: 0 <= i < |g[k]| ==> g'[k][i].entry == g[k][i].entry)
  }

  /** Attempt counters and other partitions do not matter. */
  lemma SameQueuesFine(c: Config, m: Core, n: Core, v: D.View, v': D.View, buffered: seq<nat>, r: RouterPhase,
                       retrier: RetryPhase, retrier': RetryPhase, store: CS.Store)
    requires LogOk(c, m.log) && Fine(c, m, v, buffered, r, retrier, store)
    requires n == m.(groups := n.groups) && v' == v.(retry := v'.retry)
    requires forall k :: c.part(k) == c.partition ==> SameQueue(m.groups, n.groups, k)
    requires retrier'.Settled? ==> retrier' == retrier && c.part(retrier.key) == c.partition
    ensures Fine(c, n, v', buffered, r, retrier', store)
  {
    SameQueuesSeen(c, m, n);
    CoveredMonotone(c, m, n, v.cursor);
    StoreMonotone(c, m, n, store);
    PollGrows(c, m, n, v, buffered, buffered, r);
    if retrier'.Settled? && Behind(m.groups, retrier.key, retrier.rec.entry.sn) {
      var k := retrier.key;
      var i :| 1 <= i < |m.groups[k]| && m.groups[k][i].entry.sn == retrier.rec.entry.sn;
      assert n.groups[k][i].entry.sn == retrier.rec.entry.sn;
    }
  }

  lemma SameQueuesSeen(c: Config, m: Core, n: Core)
    requires LogOk(c, m.log) && QueuesLogged(c, m) && n == m.(groups := n.groups)
    requires forall k :: c.part(k) == c.partition ==> SameQueue(m.groups, n.groups, k)
    ensures Grows(c, m, n) && QueuesLogged(c, n)
  {
    forall j | 0 <= j < |m.log| && Queued(m, m.log[j]) ensures Queued(n, m.log[j]) {
      var k := m.log[j].key;
      var i :| 0 <= i < |m.groups[k]| && m.groups[k][i].entry.sn == m.log[j].sn;
      assert n.groups[k][i].entry.sn == m.log[j].sn;
    }
    forall k, i: nat | Slot(c, n.groups, k, i) ensures n.groups[k][i].entry in n.log {
      assert Slot(c, m.groups, k, i);
    }
  }

  lemma SameEntriesKeep(c: Config, s: State, t: State)
    requires FlushInv(c, s) && QueuesValid(c, s)
    requires t == s.(view := s.view.(retry := t.view.retry), retrier := t.retrier)
    requires t.retrier.Settled? ==> t.retrier == s.retrier
    requires forall k :: c.part(k) == c.partition ==> SameQueue(s.view.retry.groups, t.view.retry.groups, k)
    ensures FlushInv(c, t)
  {
    SameQueuesFine(c, KeptCore(s), KeptCore(t), s.view, t.view, InSink(s), s.router, s.retrier, t.retrier, s.store);
  }

  lemma RestartKeeps(c: Config, s: State, loadFails: bool)
    requires FlushInv(c, s) && QueuesValid(c, s) && c.flusher && c.start >= 1
    ensures FlushInv(c, DoCrash(c, s, loadFails))
  {
    var t, m := DoCrash(c, s, loadFails), KeptCore(s);
    var n := KeptCore(t);
    assert n == m.(groups := map[]);
    assert forall v :: Safe(c, m, v) ==> Safe(c, n, v) && Covered(c, n, v);
    assert forall j :: 0 <= j < |m.log| ==> m.log[j].sn >= 1;
  }

  /** The poll loop moves on within an entry, or starts a batch. */
  lemma PollMoves(c: Config, s: State, step: Step)
    requires FlushInv(c, s) && QueuesValid(c, s) && Enabled(c, s, step)
    requires step.StartBatch? || step.CheckBlocked? || step.Snapshot? || step.TakeBuffer?
    ensures FlushInv(c, Do(c, s, step))
  {
    var t := Do(c, s, step);
    assert KeptCore(t) == KeptCore(s) && t.view == s.view && InSink(t) == InSink(s);
    assert PollFine(c, KeptCore(s), t.view, InSink(t), t.router);
  }

  lemma SavedIsOk(c: Config, m: Core, store: CS.Store, v: nat)
    requires StoreOk(c, m, store) && Safe(c, m, v)
    ensures StoreOk(c, m, CS.Apply(store, CS.Save(MyKey(c), v)))
  {
  }

  lemma DeferredSaveKeeps(c: Config, s: State)
    requires FlushInv(c, s) && Enabled(c, s, Save)
    ensures FlushInv(c, DoSave(c, s))
  {
    if s.router.save.Some? {
      SavedIsOk(c, KeptCore(s), s.store, s.router.save.value);
    }
  }

  lemma ReleaseKeeps(c: Config, s: State)
    requires FlushInv(c, s) && QueuesValid(c, s) && Enabled(c, s, Notify) && Sound(c, s, Notify)
    ensures FlushInv(c, DoNotify(c, s))
  {
    SafeExactlyWhen(c, KeptCore(s), s.view.cursor, Released(s));
    SavedIsOk(c, KeptCore(s), s.store, Released(s));
  }

  lemma OtherSaveKeeps(c: Config, s: State, op: CS.Op)
    requires FlushInv(c, s) && Enabled(c, s, Persist(op))
    ensures FlushInv(c, s.(store := CS.Apply(s.store, op)))
  {
    PersistIsSafe(c, KeptCore(s), s.store, op);
  }

  lemma SoundStepKeeps(c: Config, s: State, step: Step)
    requires FlushInv(c, s) && QueuesValid(c, s) && c.flusher && c.start >= 1 && Enabled(c, s, step)
    requires Sound(c, s, step)
    ensures FlushInv(c, Do(c, s, step))
  {
    StepKeepsQueuesValid(c, s, step);
    if step.StartBatch? || step.CheckBlocked? || step.Snapshot? || step.TakeBuffer? {
      PollMoves(c, s, step);
    } else if step.Apply? {
      ApplyKeepsFlush(c, s);
    } else if step.Flush? {
      FlushKeeps(c, s, step.outcome, step.dlqWrite);
    } else if step.Save? || step.Notify? || step.Persist? {
      SaveKeeps(c, s, step);
    } else if step.Crash? {
      RestartKeeps(c, s, step.loadFails);
    } else if !step.PickHead? {
      RetrierKeepsFlush(c, s, step);
    }
  }

  lemma SaveKeeps(c: Config, s: State, step: Step)
    requires FlushInv(c, s) && QueuesValid(c, s) && Enabled(c, s, step) && Sound(c, s, step)
    requires step.Save? || step.Notify? || step.Persist?
    ensures FlushInv(c, Do(c, s, step))
  {
    match step
    case Save => DeferredSaveKeeps(c, s);
    case Notify => ReleaseKeeps(c, s);
    case Persist(op) => OtherSaveKeeps(c, s, op);
  }

  lemma FlushKeeps(c: Config, s: State, outcome: FlushOutcome, w: bool)
    requires FlushInv(c, s) && QueuesValid(c, s) && Enabled(c, s, Flush(outcome, w)) && Sound(c, s, Flush(outcome, w))
    ensures FlushInv(c, DoFlush(c, s, outcome, w))
  {
    if outcome.FlushOk? && s.view.provisional.Some? {
      PromoteKeeps(c, s, w);
    } else {
      IdleFlushKeeps(c, s, outcome, w);
    }
  }

  lemma ApplyKeepsFlush(c: Config, s: State)
    requires FlushInv(c, s) && QueuesValid(c, s) && Enabled(c, s, Apply) && Sound(c, s, Apply)
    requires QueuesValid(c, DoApply(s))
    ensures FlushInv(c, DoApply(s))
  {
    if s.router.snap.skipped {
      SkipKeeps(c, s);
    } else if MovesDirectly(s) {
      FollowOnKeeps(c, s);
    } else if s.log[s.router.i].sn >= s.router.snap.cursor && s.router.failed {
      FailedKeeps(c, s);
    } else {
      BufferedKeeps(c, s);
    }
  }

  lemma RetriedKeeps(c: Config, s: State, outcome: S.Outcome)
    requires FlushInv(c, s) && QueuesValid(c, s) && Enabled(c, s, RetryDeliver(outcome))
    requires QueuesValid(c, DoRetry(c, s, outcome))
    ensures FlushInv(c, DoRetry(c, s, outcome))
  {
    if outcome.Transient? {
      SameEntriesKeep(c, s, DoRetry(c, s, outcome));
    } else {
      MoreKeeps(c, s, DoRetry(c, s, outcome));
    }
  }

  lemma WrittenKeeps(c: Config, s: State, step: Step)
    requires FlushInv(c, s) && QueuesValid(c, s) && Enabled(c, s, step) && QueuesValid(c, Do(c, s, step))
    requires step.Append? || step.WriteDLQ?
    ensures FlushInv(c, Do(c, s, step))
  {
    MoreKeeps(c, s, Do(c, s, step));
  }

  lemma RetrierKeepsFlush(c: Config, s: State, step: Step)
    requires FlushInv(c, s) && QueuesValid(c, s) && Enabled(c, s, step) && Sound(c, s, step)
    requires QueuesValid(c, Do(c, s, step))
    requires step.Append? || step.Deliver? || step.RetryDeliver? || step.WriteDLQ? || step.PopSettled? ||
             step.DropCondemned? || step.Elsewhere?
    ensures FlushInv(c, Do(c, s, step))
  {
    if step.Deliver? {
      DeliveredKeeps(c, s, step.ok);
    } else if step.RetryDeliver? {
      RetriedKeeps(c, s, step.result);
    } else if step.PopSettled? {
      PopKeepsFlush(c, s);
    } else if step.DropCondemned? {
      DropKeepsFlush(c, s);
    } else if step.Elsewhere? {
      SameEntriesKeep(c, s, Do(c, s, step));
    } else {
      WrittenKeeps(c, s, step);
    }
  }

  lemma DeliveredKeeps(c: Config, s: State, ok: bool)
    requires FlushInv(c, s) && QueuesValid(c, s) && Enabled(c, s, Deliver(ok)) && QueuesValid(c, DoDeliver(s, ok))
    ensures FlushInv(c, DoDeliver(s, ok))
  {
    var t := DoDeliver(s, ok);
    var mid := t.(router := s.router);
    MoreKeeps(c, s, mid);
    assert KeptCore(mid) == KeptCore(t);
  }

  lemma DropKeepsFlush(c: Config, s: State)
    requires FlushInv(c, s) && QueuesValid(c, s) && Enabled(c, s, DropCondemned)
    requires QueuesValid(c, Do(c, s, DropCondemned))
    ensures FlushInv(c, Do(c, s, DropCondemned))
  {
    var mid := s.(dropped := s.dropped + {s.retrier.rec.entry.sn});
    MoreKeeps(c, s, mid);
    PopKeepsFlush(c, mid);
  }

  // ----- the condition is exact -----

  /** A pop that does not meet the condition forgets an entry below the cursor. */
  lemma UnsoundPopLoses(c: Config, s: State)
    requires FlushInv(c, s) && QueuesValid(c, s) && Enabled(c, s, PopSettled) && !PopKept(c, s)
    ensures !Covered(c, KeptCore(DoPop(c, s)), s.view.cursor)
  {
    var m, n, k := KeptCore(s), KeptCore(DoPop(c, s)), s.retrier.key;
    var q := m.groups[k];
    assert Slot(c, m.groups, k, 0);
    var j :| 0 <= j < |m.log| && m.log[j] == q[0].entry;
    assert m.log[j].key == k;
    assert k in n.groups ==> forall i :: 0 <= i < |n.groups[k]| ==> n.groups[k][i] == q[i + 1];
    assert !Seen(c, n, m.log[j]);
  }

  /** A direct move that does not meet the window condition passes an entry nobody has. */
  lemma UnsoundMoveLoses(c: Config, s: State)
    requires FlushInv(c, s) && QueuesValid(c, s) && Enabled(c, s, Apply) && MovesDirectly(s)
    requires !WindowKept(c, s, s.log[s.router.i])
    ensures !Covered(c, KeptCore(DoApply(s)), DoApply(s).view.cursor)
  {
    var t, m, e := DoApply(s), KeptCore(s), s.log[s.router.i];
    var n := KeptCore(t);
    var j :| 0 <= j < |m.log| && s.view.cursor <= m.log[j].sn < e.sn && !Seen(c, m, m.log[j]);
    if Queued(n, m.log[j]) {
      var k := m.log[j].key;
      var i :| 0 <= i < |n.groups[k]| && n.groups[k][i].entry.sn == m.log[j].sn;
      assert k in m.groups && i < |m.groups[k]| && m.groups[k][i] == n.groups[k][i];
      assert Queued(m, m.log[j]);
    }
  }

  /** A value saved while something below it waits is past an entry that a crash forgets. */
  lemma UnsoundSaveLoses(c: Config, m: Core, v: nat)
    requires QueuesLogged(c, m) && !NothingWaits(c, m, v)
    ensures !Safe(c, m, v)
  {
    var k, i: nat :| Slot(c, m.groups, k, i) && m.groups[k][i].entry.sn < v && !Over(c, m, m.groups[k][i].entry.sn);
    assert m.groups[k][i].entry in m.log;
  }

  lemma UnsoundApplyLoses(c: Config, s: State)
    requires FlushInv(c, s) && QueuesValid(c, s) && Enabled(c, s, Apply) && !Sound(c, s, Apply)
    ensures !NothingLost(c, DoApply(s))
  {
    var t, m := DoApply(s), KeptCore(s);
    if MovesDirectly(s) && !WindowKept(c, s, s.log[s.router.i]) {
      UnsoundMoveLoses(c, s);
    } else {
      if t.view.retry != s.view.retry {
        var e := s.log[s.router.i];
        EnqueueGrows(c, m, e, R.Record(e, if s.router.snap.blocked then 0 else 1), KeptCore(t));
      }
      UnsoundSaveLoses(c, KeptCore(t), t.router.save.value);
    }
  }

  lemma FlushSettlesTaken(c: Config, s: State, w: bool, e: Entry)
    requires Enabled(c, s, Flush(FlushOk, w))
    ensures Kept(c, DoFlush(c, s, FlushOk, w), e) <==> Kept(c, s, e) || e.sn in s.inflight
  {
    var m, n := KeptCore(s), KeptCore(DoFlush(c, s, FlushOk, w));
    assert n == m.(settled := n.settled);
    assert e.sn in n.settled <==> e.sn in m.settled || e.sn in s.inflight;
  }

  /** A promotion past an entry that is only in the buffer behind the flushed batch. */
  lemma UnsoundPromotionLoses(c: Config, s: State, w: bool)
    requires Enabled(c, s, Flush(FlushOk, w)) && s.view.provisional.Some?
    requires !BufferKept(c, s, s.view.provisional.value)
    ensures !Covered(c, KeptCore(DoFlush(c, s, FlushOk, w)), DoFlush(c, s, FlushOk, w).view.cursor)
  {
    var t := DoFlush(c, s, FlushOk, w);
    var j :| 0 <= j < |s.log| && s.log[j].sn < s.view.provisional.value && !Kept(c, s, s.log[j])
             && s.log[j].sn !in s.inflight;
    FlushSettlesTaken(c, s, w, s.log[j]);
    assert t.log == s.log && s.log[j].sn < t.view.cursor && !Kept(c, t, t.log[j]);
  }

  lemma UnsoundFlushLoses(c: Config, s: State, w: bool)
    requires FlushInv(c, s) && QueuesValid(c, s) && Enabled(c, s, Flush(FlushOk, w)) && !Sound(c, s, Flush(FlushOk, w))
    ensures !NothingLost(c, DoFlush(c, s, FlushOk, w))
  {
    var t := DoFlush(c, s, FlushOk, w);
    if !BufferKept(c, s, s.view.provisional.value) {
      UnsoundPromotionLoses(c, s, w);
    } else {
      var v := Capped(Max(s.view.cursor, s.view.provisional.value), FloorOf(c, s));
      SameQueuesGrow(c, KeptCore(s), KeptCore(t));
      UnsoundSaveLoses(c, KeptCore(t), v);
      assert t.store.dirty[MyKey(c)] == v;
    }
  }

  lemma UnsoundReleaseLoses(c: Config, s: State)
    requires FlushInv(c, s) && Enabled(c, s, Notify) && !Sound(c, s, Notify)
    ensures !NothingLost(c, DoNotify(c, s))
  {
    UnsoundSaveLoses(c, KeptCore(s), Released(s));
    assert DoNotify(c, s).store.dirty[MyKey(c)] == Released(s) && KeptCore(DoNotify(c, s)) == KeptCore(s);
  }

  lemma FineLosesNothing(c: Config, s: State)
    requires FlushInv(c, s)
    ensures NothingLost(c, s)
  {
  }

  /** Every step of a batch-flushing consumer keeps what must not be lost if and only if it
      meets its condition. Only direct moves, pops, releases and promotions have one. */
  lemma StepIsSafeExactlyWhen(c: Config, s: State, step: Step)
    requires FlushInv(c, s) && QueuesValid(c, s) && c.flusher && c.start >= 1 && Enabled(c, s, step)
    ensures NothingLost(c, Do(c, s, step)) <==> Sound(c, s, step)
  {
    if Sound(c, s, step) {
      SoundStepKeeps(c, s, step);
      FineLosesNothing(c, Do(c, s, step));
    } else if step.Apply? {
      UnsoundApplyLoses(c, s);
    } else if step.PopSettled? {
      UnsoundPopLoses(c, s);
    } else if step.Flush? {
      UnsoundFlushLoses(c, s, step.dlqWrite);
    } else {
      UnsoundReleaseLoses(c, s);
    }
  }

  // ----- whole runs -----

  lemma {:induction false} FlushInvariant(c: Config, trace: seq<State>, steps: seq<Step>, n: nat)
    requires Run(c, trace, steps) && c.flusher && n <= |steps| && SoundBefore(c, trace, steps, n)
    ensures FlushInv(c, trace[n])
  {
    if n > 0 {
      FlushInvariant(c, trace, steps, n - 1);
      QueuesInvariant(c, trace, steps, n - 1);
      assert Enabled(c, trace[n - 1], steps[n - 1]) && trace[n] == Do(c, trace[n - 1], steps[n - 1]);
      SoundStepKeeps(c, trace[n - 1], steps[n - 1]);
    }
  }

  /** No loss for a batch-flushing consumer, with blocked groups, skipped poisons, retries,
      raced releases and crashes: while every step meets its condition, each entry below the
      memory cursor is flushed, dead-lettered, dropped or queued, and each entry below the
      durable cursor is flushed, dead-lettered or dropped. */
  lemma FlusherLosesNothing(c: Config, trace: seq<State>, steps: seq<Step>, n: nat, j: nat)
    requires Run(c, trace, steps) && c.flusher && n <= |steps| && SoundBefore(c, trace, steps, n)
    requires j < |trace[n].log| && c.start <= trace[n].log[j].sn
    ensures trace[n].log[j].sn < trace[n].view.cursor ==> Kept(c, trace[n], trace[n].log[j])
    ensures trace[n].log[j].sn < Durable(c, trace[n]) ==>
            trace[n].log[j].sn in trace[n].flushed + trace[n].deadLettered + trace[n].dropped
  {
    FlushInvariant(c, trace, steps, n);
    QueuesInvariant(c, trace, steps, n);
    assert trace[n].log[j].sn >= 1;
  }
}
