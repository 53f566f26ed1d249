/** No loss and per-key order over whole runs, for a consumer that does not batch-flush. */
module DeliverySafety {
  import opened Common
  import opened Delivery
  import R = Retry
  import D = Dispatch
  import S = Scheduler
  import CS = CursorStore

  /** The part of a state the safety argument is about: the log, the queues, what is settled. */
  datatype Core = Core(log: seq<Entry>, groups: R.Groups, settled: set<nat>)

  function CoreOf(s: State): (k: Core) {
    Core(s.log, s.view.retry.groups, s.delivered + s.deadLettered + s.dropped)
  }

  predicate Over(c: Config, m: Core, sn: nat) {
    sn < c.start || sn in m.settled
  }

  // ----- the invariant -----

  ghost predicate LogOk(c: Config, log: seq<Entry>) {
    && (forall i :: 0 <= i < |log| ==>
        log[i].sn >= 1 && log[i].partition == c.partition && c.part(log[i].key) == c.partition)
    && (forall i, j :: 0 <= i < j < |log| ==> log[i].sn < log[j].sn)
  }

  /** `sn` is among the first `n` records of `q`. */
  ghost predicate Among(q: seq<R.Record>, n: nat, sn: nat) {
    exists i :: 0 <= i < n && i < |q| && q[i].entry.sn == sn
  }

  ghost predicate Queued(m: Core, e: Entry) {
    e.key in m.groups && Among(m.groups[e.key], |m.groups[e.key]|, e.sn)
  }

  ghost predicate Seen(c: Config, m: Core, e: Entry) {
    Over(c, m, e.sn) || Queued(m, e)
  }

  /** Group `k` of this partition has an `i`-th record. */
  predicate Slot(c: Config, g: R.Groups, k: Key, i: nat) {
    k in g && c.part(k) == c.partition && i < |g[k]|
  }

  /** Every earlier entry of the key of `q[i]` is settled or queued ahead of it. Queues need
      not be sorted: a settled entry may be queued again behind a later one. */
  ghost predicate Preceded(c: Config, m: Core, q: seq<R.Record>, i: nat)
    requires i < |q|
  {
    forall j :: 0 <= j < |m.log| && m.log[j].key == q[i].entry.key && m.log[j].sn < q[i].entry.sn ==>
      Over(c, m, m.log[j].sn) || Among(q, i, m.log[j].sn)
  }

  ghost predicate QueuesOk(c: Config, m: Core) {
    forall k, i: nat :: Slot(c, m.groups, k, i) ==>
      Preceded(c, m, m.groups[k], i) && m.groups[k][i].entry in m.log
  }

  /** `n` does not point past the end of the log (or is no further than the initial cursor). */
  predicate InReach(c: Config, m: Core, n: nat) {
    n <= c.start || (m.log != [] && n <= m.log[|m.log| - 1].sn + 1)
  }

  /** Everything below `n` is settled or waiting in memory. */
  ghost predicate Covered(c: Config, m: Core, n: nat) {
    InReach(c, m, n) && forall j :: 0 <= j < |m.log| && m.log[j].sn < n ==> Seen(c, m, m.log[j])
  }

  /** Everything below `n` is settled: `n` may be persisted. */
  ghost predicate Safe(c: Config, m: Core, n: nat) {
    InReach(c, m, n) && forall j :: 0 <= j < |m.log| && m.log[j].sn < n ==> Over(c, m, m.log[j].sn)
  }

  ghost predicate SeenTo(c: Config, m: Core, i: nat) {
    forall j :: 0 <= j < i && j < |m.log| ==> Seen(c, m, m.log[j])
  }

  /** A snapshot can be stale in one direction only: a group it saw may have drained since. */
  ghost predicate SnapOk(m: Core, cursor: nat, e: Entry, snap: D.Snap) {
    snap.cursor == cursor && !snap.skipped && (!snap.blocked ==> e.key !in m.groups)
  }

  ghost predicate RouterOk(c: Config, m: Core, cursor: nat, delivered: set<nat>, r: RouterPhase) {
    match r
    case Idle => true
    case AtEntry(i, hi) => i <= hi <= |m.log| && SeenTo(c, m, i)
    case Checked(i, hi, b) =>
      i < hi <= |m.log| && SeenTo(c, m, i) && (!b ==> forall k :: k in m.groups ==> c.part(k) != c.partition)
    case Snapped(i, hi, snap) => i < hi <= |m.log| && SeenTo(c, m, i) && SnapOk(m, cursor, m.log[i], snap)
    case Returned(i, hi, snap, failed) =>
      && i < hi <= |m.log| && SeenTo(c, m, i) && SnapOk(m, cursor, m.log[i], snap)
      && (if failed then D.Attempts(snap, m.log[i]) else D.Attempts(snap, m.log[i]) ==> m.log[i].sn in delivered)
    case Saving(i, hi, save) => i <= hi <= |m.log| && SeenTo(c, m, i) && (save.Some? ==> Safe(c, m, save.value))
    case Flushing(_, _) => false
  }

  predicate IsHead(g: R.Groups, k: Key, rec: R.Record) {
    k in g && |g[k]| > 0 && g[k][0] == rec
  }

  ghost predicate RetrierOk(c: Config, m: Core, r: RetryPhase) {
    match r
    case Resting => true
    case Notifying(_) => true
    case Retrying(k, rec) => IsHead(m.groups, k, rec) && c.part(k) == c.partition
    case Condemned(k, rec) => IsHead(m.groups, k, rec) && c.part(k) == c.partition
    case Settled(k, rec) => IsHead(m.groups, k, rec) && c.part(k) == c.partition && rec.entry.sn in m.settled
  }

  ghost predicate MemoryOk(c: Config, s: State) {
    var m := CoreOf(s);
    && !s.view.flusher && s.skips == {}
    && LogOk(c, s.log) && R.Valid(s.view.retry, c.part)
    && QueuesOk(c, m)
    && Covered(c, m, s.view.cursor)
    && RouterOk(c, m, s.view.cursor, s.delivered, s.router) && RetrierOk(c, m, s.retrier)
  }

  ghost predicate AllSafe(c: Config, m: Core, cursors: CS.Cursors) {
    MyKey(c) in cursors ==> Safe(c, m, cursors[MyKey(c)])
  }

  ghost predicate StoreOk(c: Config, m: Core, store: CS.Store) {
    AllSafe(c, m, store.dirty) && AllSafe(c, m, store.inflight) && AllSafe(c, m, store.rows)
  }

  // ----- what survives a change -----

  /** `n` has at least the log and the settlements of `m`, and forgets no queued entry. */
  ghost predicate Grows(c: Config, m: Core, n: Core) {
    && m.log <= n.log && LogOk(c, n.log) && m.settled <= n.settled
    && (forall j :: 0 <= j < |m.log| && Seen(c, m, m.log[j]) ==> Seen(c, n, m.log[j]))
  }

  /** Without the clause on queues, which a crash empties. */
  ghost predicate Extends(c: Config, m: Core, n: Core) {
    m.log <= n.log && LogOk(c, n.log) && m.settled <= n.settled
  }

  lemma CoveredMonotone(c: Config, m: Core, n: Core, v: nat)
    requires Grows(c, m, n) && Covered(c, m, v)
    ensures Covered(c, n, v)
  {
  }

  lemma StoreMonotone(c: Config, m: Core, n: Core, store: CS.Store)
    requires Extends(c, m, n) && StoreOk(c, m, store)
    ensures StoreOk(c, n, store)
  {
  }

  /** The poll loop's obligations when the core grows around it and its key's group, if it
      was absent, stays absent. */
  lemma RouterMonotone(c: Config, m: Core, n: Core, cursor: nat, d: set<nat>, d': set<nat>, r: RouterPhase)
    requires Grows(c, m, n) && RouterOk(c, m, cursor, d, r) && d <= d'
    requires forall k :: c.part(k) == c.partition && k in n.groups ==> k in m.groups
    requires LogOk(c, m.log)
    ensures RouterOk(c, n, cursor, d', r)
  {
  }

  /** A value below the floor, or any covered value without a floor, is safe to persist:
      an unsettled entry waits behind a head that is no later than itself. */
  lemma CappedIsSafe(c: Config, m: Core, retry: R.RetryState, n: nat, v: nat)
    requires LogOk(c, m.log) && R.Valid(retry, c.part) && QueuesOk(c, m) && m.groups == retry.groups
    requires Covered(c, m, n) && v <= n
    requires var f := Lookup(retry.floors, c.partition); f.Some? ==> v <= f.value
    ensures Safe(c, m, v)
  {
    forall j | 0 <= j < |m.log| && m.log[j].sn < v ensures Over(c, m, m.log[j].sn) {
      var e := m.log[j];
      assert Seen(c, m, e);
      if Queued(m, e) {
        assert R.IsFloor(m.groups, c.partition, Lookup(retry.floors, c.partition));
        assert m.groups[e.key][0].entry.partition == c.part(e.key);
        assert R.HeadOn(m.groups, e.key, c.partition);
        assert Slot(c, m.groups, e.key, 0);
        assert Preceded(c, m, m.groups[e.key], 0);
        assert !Among(m.groups[e.key], 0, e.sn);
        assert m.groups[e.key][0].entry.key == e.key;
      }
    }
  }

  /** The exact condition for a floor release to be safe, race or no race: nothing still
      queued below the released value is unsettled. */
  lemma ReleaseIsSafeExactlyWhen(c: Config, s: State)
    requires MemoryOk(c, s) && s.retrier.Notifying?
    ensures Safe(c, CoreOf(s), Released(s)) <==> ReleasesSettled(c, s)
  {
    var m, v := CoreOf(s), Released(s);
    if Safe(c, m, v) {
      forall k, i: nat | Slot(c, m.groups, k, i) && m.groups[k][i].entry.sn < v
          ensures Done(c, s, m.groups[k][i].entry.sn) {
        assert m.groups[k][i].entry in m.log;
      }
    } else {
      var j :| 0 <= j < |m.log| && m.log[j].sn < v && !Over(c, m, m.log[j].sn);
      assert Queued(m, m.log[j]);
    }
  }

  // ----- the steps -----

  /** `t` keeps the invariant, and everything settled or seen in `s`. */
  ghost predicate Keeps(c: Config, s: State, t: State) {
    MemoryOk(c, t) && Extends(c, CoreOf(s), CoreOf(t))
  }

  /** Steps that only settle more, or only extend the log. */
  lemma GrowKeeps(c: Config, s: State, t: State)
    requires MemoryOk(c, s) && Extends(c, CoreOf(s), CoreOf(t))
    requires t.view == s.view && t.skips == s.skips && s.delivered <= t.delivered && t.router == s.router
    requires RetrierOk(c, CoreOf(t), t.retrier)
    ensures MemoryOk(c, t)
  {
    var m, n := CoreOf(s), CoreOf(t);
    CoveredMonotone(c, m, n, s.view.cursor);
    RouterMonotone(c, m, n, s.view.cursor, s.delivered, t.delivered, s.router);
  }

  lemma AppendKeeps(c: Config, s: State, e: Entry)
    requires MemoryOk(c, s) && Admissible(c, s.log, e)
    ensures Keeps(c, s, s.(log := s.log + [e]))
  {
    var t := s.(log := s.log + [e]);
    assert forall j :: 0 <= j < |s.log| ==> t.log[j] == s.log[j];
    assert forall j :: 0 <= j < |s.log| ==> s.log[j].sn <= s.log[|s.log| - 1].sn;
    GrowKeeps(c, s, t);
  }

  lemma DeliverKeeps(c: Config, s: State, ok: bool)
    requires MemoryOk(c, s) && Enabled(c, s, Deliver(ok))
    ensures Keeps(c, s, DoDeliver(s, ok))
  {
    var t := DoDeliver(s, ok);
    var mid := t.(router := s.router);
    GrowKeeps(c, s, mid);
    assert CoreOf(mid) == CoreOf(t);
  }

  /** Queueing `e` behind its group, when everything before `e` has been seen. */
  lemma BlockKeeps(c: Config, m: Core, retry: R.RetryState, e: Entry, attempts: nat, n: Core)
    requires LogOk(c, m.log) && R.Valid(retry, c.part) && QueuesOk(c, m) && m.groups == retry.groups
    requires e in m.log && forall j :: 0 <= j < |m.log| && m.log[j].sn < e.sn ==> Seen(c, m, m.log[j])
    requires n == m.(groups := R.Enqueued(m.groups, e.key, R.Record(e, attempts)))
    ensures R.Valid(R.AddBlocked(retry, e.key, R.Record(e, attempts)), c.part)
    ensures QueuesOk(c, n) && Grows(c, m, n) && Seen(c, n, e)
  {
    var rec := R.Record(e, attempts);
    R.AddBlockedKeepsFloors(retry, e.key, rec, c.part);
    var q := if e.key in m.groups then m.groups[e.key] else [];
    var q' := n.groups[e.key];
    assert q' == q + [rec] && q'[|q|].entry.sn == e.sn;
    forall x: nat, sn | x <= |q| && Among(q, x, sn) ensures Among(q', x, sn) {
      var i :| 0 <= i < x && i < |q| && q[i].entry.sn == sn;
      assert q'[i].entry.sn == sn;
    }
    forall x: nat, sn | x <= |q| && Among(q, x, sn) ensures Among(q', |q'|, sn) {
      var i :| 0 <= i < x && i < |q| && q[i].entry.sn == sn;
      assert q'[i].entry.sn == sn;
    }
    forall j | 0 <= j < |m.log| && Seen(c, m, m.log[j]) ensures Seen(c, n, m.log[j]) {
      if !Over(c, m, m.log[j].sn) && m.log[j].key == e.key {
        assert Among(q, |q|, m.log[j].sn);
      }
    }
    forall k, i: nat | Slot(c, n.groups, k, i) ensures Preceded(c, n, n.groups[k], i) && n.groups[k][i].entry in n.log {
      if k != e.key || i < |q| {
        assert Slot(c, m.groups, k, i) && n.groups[k][i] == m.groups[k][i];
        assert Preceded(c, m, m.groups[k], i);
      } else {
        forall j | 0 <= j < |m.log| && m.log[j].key == e.key && m.log[j].sn < e.sn
          ensures Over(c, n, m.log[j].sn) || Among(q', i, m.log[j].sn)
        {
          assert Seen(c, m, m.log[j]);
        }
      }
    }
  }

  lemma AppendKeepsHead(c: Config, m: Core, n: Core, k: Key, rec: R.Record, r: RetryPhase)
    requires RetrierOk(c, m, r) && n == m.(groups := R.Enqueued(m.groups, k, rec))
    ensures RetrierOk(c, n, r)
  {
  }

  /** Everything seen up to an entry covers the cursor just after it. */
  lemma SeenCovers(c: Config, m: Core, i: nat)
    requires LogOk(c, m.log) && i < |m.log| && SeenTo(c, m, i + 1)
    ensures Covered(c, m, m.log[i].sn + 1)
  {
  }

  /** Dispatch queues the entry: its group was blocked at the snapshot, or Deliver failed. */
  lemma ApplyBlocks(c: Config, s: State)
    requires MemoryOk(c, s) && Enabled(c, s, Apply)
    requires s.log[s.router.i].sn >= s.router.snap.cursor && (s.router.snap.blocked || s.router.failed)
    ensures Keeps(c, s, DoApply(s))
  {
    var t, r, m := DoApply(s), s.router, CoreOf(s);
    var e, n, a := m.log[r.i], CoreOf(t), if r.snap.blocked then 0 else 1;
    assert forall j :: 0 <= j < |m.log| && m.log[j].sn < e.sn ==> j < r.i;
    BlockKeeps(c, m, s.view.retry, e, a, n);
    CoveredMonotone(c, m, n, s.view.cursor);
    AppendKeepsHead(c, m, n, e.key, R.Record(e, a), s.retrier);
    assert SeenTo(c, n, r.i + 1);
    if r.snap.blocked {
      SeenCovers(c, n, r.i);
      CappedIsSafe(c, n, t.view.retry, e.sn + 1, t.router.save.value);
    }
  }

  /** Dispatch moves the cursor past a delivered entry, or past nothing. */
  lemma ApplyAdvances(c: Config, s: State)
    requires MemoryOk(c, s) && Enabled(c, s, Apply)
    requires s.log[s.router.i].sn < s.router.snap.cursor || !(s.router.snap.blocked || s.router.failed)
    ensures Keeps(c, s, DoApply(s))
  {
    var t, r, m := DoApply(s), s.router, CoreOf(s);
    var e := m.log[r.i];
    assert CoreOf(t) == m && t.view.retry == s.view.retry;
    assert forall j :: 0 <= j < |m.log| && m.log[j].sn < e.sn + 1 ==> j <= r.i;
    if e.sn >= r.snap.cursor {
      assert e.sn in s.delivered && Seen(c, m, e);
      assert Covered(c, m, e.sn + 1);
      CappedIsSafe(c, m, s.view.retry, e.sn + 1, t.router.save.value);
    }
  }

  /** Only the entries of the queues matter, not the attempt counters. */
  lemma CountKeeps(c: Config, m: Core, n: Core, k: Key, rec: R.Record)
    requires QueuesOk(c, m) && LogOk(c, m.log) && k in m.groups && |m.groups[k]| > 0
    requires rec.entry == m.groups[k][0].entry
    requires n == m.(groups := m.groups[k := m.groups[k][0 := rec]])
    ensures QueuesOk(c, n) && Grows(c, m, n)
  {
    forall j, x: nat, sn | j in m.groups && Among(m.groups[j], x, sn) ensures Among(n.groups[j], x, sn) {
      var i :| 0 <= i < x && i < |m.groups[j]| && m.groups[j][i].entry.sn == sn;
      assert n.groups[j][i].entry.sn == sn;
    }
    forall j, i: nat | Slot(c, n.groups, j, i) ensures Preceded(c, n, n.groups[j], i) && n.groups[j][i].entry in n.log {
      assert Slot(c, m.groups, j, i) && n.groups[j][i].entry == m.groups[j][i].entry;
      assert Preceded(c, m, m.groups[j], i);
    }
  }

  /** A counted failure changes neither heads' entries nor floors. */
  lemma CountedIsValid(c: Config, retry: R.RetryState, k: Key, rec: R.Record)
    requires R.Valid(retry, c.part) && k in retry.groups && |retry.groups[k]| > 0
    requires rec.entry == retry.groups[k][0].entry
    ensures R.Valid(retry.(groups := retry.groups[k := retry.groups[k][0 := rec]]), c.part)
  {
    var g := retry.groups[k := retry.groups[k][0 := rec]];
    forall p: nat ensures R.IsFloor(g, p, Lookup(retry.floors, p)) {
      assert R.IsFloor(retry.groups, p, Lookup(retry.floors, p));
      S.SameHeadsSameFloor(retry.groups, g, p, Lookup(retry.floors, p));
    }
  }

  lemma RetryKeeps(c: Config, s: State, outcome: S.Outcome)
    requires MemoryOk(c, s) && Enabled(c, s, RetryDeliver(outcome))
    ensures Keeps(c, s, DoRetry(c, s, outcome))
  {
    var t, m := DoRetry(c, s, outcome), CoreOf(s);
    var n := CoreOf(t);
    if !outcome.Transient? {
      GrowKeeps(c, s, t);
    } else {
      var k := s.retrier.key;
      CountKeeps(c, m, n, k, n.groups[k][0]);
      CountedIsValid(c, s.view.retry, k, n.groups[k][0]);
      CoveredMonotone(c, m, n, s.view.cursor);
      RouterMonotone(c, m, n, s.view.cursor, s.delivered, s.delivered, s.router);
    }
  }

  lemma AmongTail(q: seq<R.Record>, n: nat, sn: nat)
    requires q != [] && 0 < n <= |q|
    ensures Among(q, n, sn) && q[0].entry.sn != sn ==> n > 1 && Among(q[1..], n - 1, sn)
  {
  }

  /** A settled head leaves its queue. */
  lemma PopKeepsQueues(c: Config, m: Core, n: Core, k: Key)
    requires QueuesOk(c, m) && LogOk(c, m.log) && k in m.groups && |m.groups[k]| > 0
    requires Over(c, m, m.groups[k][0].entry.sn) && n == m.(groups := R.Popped(m.groups, k))
    ensures QueuesOk(c, n) && Grows(c, m, n)
  {
    var q := m.groups[k];
    assert k in n.groups ==> n.groups[k] == q[1..];
    forall j, i: nat | Slot(c, n.groups, j, i) ensures Preceded(c, n, n.groups[j], i) && n.groups[j][i].entry in n.log {
      if j == k {
        assert n.groups[k][i] == q[i + 1] && Slot(c, m.groups, k, i + 1);
        assert Preceded(c, m, q, i + 1);
        forall x | 0 <= x < |m.log| && m.log[x].key == q[i + 1].entry.key && m.log[x].sn < q[i + 1].entry.sn
          ensures Over(c, n, m.log[x].sn) || Among(q[1..], i, m.log[x].sn)
        {
          AmongTail(q, i + 1, m.log[x].sn);
        }
      } else {
        assert Slot(c, m.groups, j, i);
        assert Preceded(c, m, m.groups[j], i);
      }
    }
    forall x | 0 <= x < |m.log| && Seen(c, m, m.log[x]) ensures Seen(c, n, m.log[x]) {
      if !Over(c, m, m.log[x].sn) && m.log[x].key == k {
        AmongTail(q, |q|, m.log[x].sn);
      }
    }
  }

  lemma PopKeeps(c: Config, s: State)
    requires MemoryOk(c, s) && (s.retrier.Settled? || s.retrier.Condemned?)
    requires HeadIs(s, s.retrier.key, s.retrier.rec) && Over(c, CoreOf(s), s.retrier.rec.entry.sn)
    ensures Keeps(c, s, DoPop(c, s))
  {
    var t, k, m := DoPop(c, s), s.retrier.key, CoreOf(s);
    var n := CoreOf(t);
    R.PopHeadKeepsFloors(s.view.retry, k, c.part);
    PopKeepsQueues(c, m, n, k);
    CoveredMonotone(c, m, n, s.view.cursor);
    RouterMonotone(c, m, n, s.view.cursor, s.delivered, s.delivered, s.router);
  }

  lemma ElsewhereKeepsQueues(c: Config, m: Core, n: Core)
    requires QueuesOk(c, m) && LogOk(c, m.log) && n == m.(groups := n.groups)
    requires forall k :: c.part(k) == c.partition ==> Lookup(n.groups, k) == Lookup(m.groups, k)
    ensures QueuesOk(c, n) && Grows(c, m, n)
    ensures forall k :: c.part(k) == c.partition ==> (k in n.groups <==> k in m.groups)
    ensures forall r :: RetrierOk(c, m, r) ==> RetrierOk(c, n, r)
  {
  }

  lemma ElsewhereKeeps(c: Config, s: State, retry: R.RetryState)
    requires MemoryOk(c, s) && Enabled(c, s, Elsewhere(retry))
    ensures MemoryOk(c, Do(c, s, Elsewhere(retry)))
    ensures Extends(c, CoreOf(s), CoreOf(Do(c, s, Elsewhere(retry))))
  {
    var t, m := Do(c, s, Elsewhere(retry)), CoreOf(s);
    var n := CoreOf(t);
    ElsewhereKeepsQueues(c, m, n);
    CoveredMonotone(c, m, n, s.view.cursor);
    RouterMonotone(c, m, n, s.view.cursor, s.delivered, s.delivered, s.router);
  }

  lemma CrashKeeps(c: Config, s: State, loadFails: bool)
    requires LogOk(c, s.log) && !c.flusher && c.start >= 1 && StoreOk(c, CoreOf(s), s.store)
    ensures MemoryOk(c, DoCrash(c, s, loadFails))
    ensures StoreOk(c, CoreOf(DoCrash(c, s, loadFails)), DoCrash(c, s, loadFails).store)
  {
  }

  lemma DropKeeps(c: Config, s: State)
    requires MemoryOk(c, s) && Enabled(c, s, DropCondemned)
    ensures Keeps(c, s, Do(c, s, DropCondemned))
  {
    var mid := s.(dropped := s.dropped + {s.retrier.rec.entry.sn});
    GrowKeeps(c, s, mid);
    PopKeeps(c, mid);
  }

  // ----- every step -----

  /** Steps that leave the core alone. */
  lemma QuietKeeps(c: Config, s: State, step: Step)
    requires MemoryOk(c, s) && !c.flusher && Enabled(c, s, step)
    requires Quiet(step)
    ensures MemoryOk(c, Do(c, s, step)) && CoreOf(Do(c, s, step)) == CoreOf(s)
  {
    var t := Do(c, s, step);
    assert CoreOf(t) == CoreOf(s) && t.view == s.view && t.delivered == s.delivered && t.skips == s.skips;
    if step.PickHead? {
      assert s.view.retry.groups[step.key][0].entry.partition == c.part(step.key);
    }
    assert RouterOk(c, CoreOf(t), t.view.cursor, t.delivered, t.router);
    assert RetrierOk(c, CoreOf(t), t.retrier);
  }

  predicate Quiet(step: Step) {
    step.CheckBlocked? || step.Snapshot? || step.Save? || step.EndBatch? || step.PickHead? || step.Notify? ||
        step.Persist?
  }

  lemma StartKeeps(c: Config, s: State, from: nat)
    requires MemoryOk(c, s) && Enabled(c, s, StartBatch(from))
    ensures Keeps(c, s, Do(c, s, StartBatch(from)))
  {
    assert SeenTo(c, CoreOf(s), FirstFrom(s.log, from));
  }

  lemma ApplyKeeps(c: Config, s: State)
    requires MemoryOk(c, s) && Enabled(c, s, Apply)
    ensures Keeps(c, s, DoApply(s))
  {
    if s.log[s.router.i].sn >= s.router.snap.cursor && (s.router.snap.blocked || s.router.failed) {
      ApplyBlocks(c, s);
    } else {
      ApplyAdvances(c, s);
    }
  }

  lemma StepKeepsMemory(c: Config, s: State, step: Step)
    requires MemoryOk(c, s) && !c.flusher && Enabled(c, s, step) && !step.Crash?
    ensures Keeps(c, s, Do(c, s, step))
  {
    if Quiet(step) {
      QuietKeeps(c, s, step);
    } else if step.Append? {
      AppendKeeps(c, s, step.e);
    } else if step.StartBatch? {
      StartKeeps(c, s, step.from);
    } else if step.Deliver? {
      DeliverKeeps(c, s, step.ok);
    } else if step.Apply? {
      ApplyKeeps(c, s);
    } else if step.Elsewhere? {
      ElsewhereKeeps(c, s, step.retry);
    } else {
      RetrierStepKeeps(c, s, step);
    }
  }

  lemma RetrierStepKeeps(c: Config, s: State, step: Step)
    requires MemoryOk(c, s) && Enabled(c, s, step)
    requires step.RetryDeliver? || step.WriteDLQ? || step.PopSettled? || step.DropCondemned?
    ensures Keeps(c, s, Do(c, s, step))
  {
    match step
    case RetryDeliver(result) => RetryKeeps(c, s, result);
    case WriteDLQ(_) => GrowKeeps(c, s, Do(c, s, step));
    case PopSettled => PopKeeps(c, s);
    case DropCondemned => DropKeeps(c, s);
  }

  lemma SaveIsSafe(c: Config, s: State, step: Step)
    requires MemoryOk(c, s) && StoreOk(c, CoreOf(s), s.store) && Enabled(c, s, step) && (step.Save? || step.Notify?)
    requires step.Notify? ==> ReleasesSettled(c, s)
    ensures StoreOk(c, CoreOf(s), Do(c, s, step).store)
  {
    if step.Notify? {
      ReleaseIsSafeExactlyWhen(c, s);
    }
  }

  /** Every value the cursor store holds for this consumer stays safe to resume from. */
  lemma StepKeepsStore(c: Config, s: State, step: Step)
    requires MemoryOk(c, s) && StoreOk(c, CoreOf(s), s.store) && !c.flusher && Enabled(c, s, step) && !step.Crash?
    requires step.Notify? ==> ReleasesSettled(c, s)
    ensures StoreOk(c, CoreOf(Do(c, s, step)), Do(c, s, step).store)
  {
    if step.Save? || step.Notify? {
      QuietKeeps(c, s, step);
      SaveIsSafe(c, s, step);
    } else if step.Persist? {
      PersistIsSafe(c, CoreOf(s), s.store, step.op);
    } else {
      StepKeepsMemory(c, s, step);
      StoreStays(c, s, step);
      StoreMonotone(c, CoreOf(s), CoreOf(Do(c, s, step)), s.store);
    }
  }

  lemma PersistIsSafe(c: Config, m: Core, store: CS.Store, op: CS.Op)
    requires StoreOk(c, m, store) && !op.Crash? && (op.Save? ==> op.key != MyKey(c))
    ensures StoreOk(c, m, CS.Apply(store, op))
  {
  }

  lemma StoreStays(c: Config, s: State, step: Step)
    requires Enabled(c, s, step) && !step.Save? && !step.Notify? && !step.Persist? && !step.Crash? && !step.Flush?
    ensures Do(c, s, step).store == s.store
  {
  }

  /** The invariant in every state of every run whose floor releases are safe. */
  lemma {:induction false} RunInvariant(c: Config, trace: seq<State>, steps: seq<Step>, n: nat)
    requires Run(c, trace, steps) && !c.flusher && n <= |steps| && ReleasesSettledBefore(c, trace, steps, n)
    ensures MemoryOk(c, trace[n]) && StoreOk(c, CoreOf(trace[n]), trace[n].store)
  {
    if n > 0 {
      RunInvariant(c, trace, steps, n - 1);
      var s, step := trace[n - 1], steps[n - 1];
      assert Enabled(c, s, step) && trace[n] == Do(c, s, step);
      if step.Crash? {
        CrashKeeps(c, s, step.loadFails);
      } else {
        StepKeepsMemory(c, s, step);
        StepKeepsStore(c, s, step);
      }
    }
  }

  /** A release that no lower group raced is safe: runs without a race are among those above. */
  lemma {:induction false} UnracedReleasesAreSafe(c: Config, trace: seq<State>, steps: seq<Step>, n: nat)
    requires Run(c, trace, steps) && !c.flusher && n <= |steps| && NoRaceBefore(c, trace, steps, n)
    ensures ReleasesSettledBefore(c, trace, steps, n)
  {
    if n > 0 {
      UnracedReleasesAreSafe(c, trace, steps, n - 1);
      if steps[n - 1].Notify? {
        var s := trace[n - 1];
        RunInvariant(c, trace, steps, n - 1);
        assert Enabled(c, s, steps[n - 1]);
        CappedIsSafe(c, CoreOf(s), s.view.retry, s.view.cursor, Released(s));
        ReleaseIsSafeExactlyWhen(c, s);
      }
    }
  }

  /** Until the first crash a raced release does no harm to what is in memory. */
  lemma {:induction false} MemoryInvariant(c: Config, trace: seq<State>, steps: seq<Step>, n: nat)
    requires Run(c, trace, steps) && !c.flusher && n <= |steps| && NoCrashBefore(steps, n)
    ensures MemoryOk(c, trace[n])
  {
    if n > 0 {
      MemoryInvariant(c, trace, steps, n - 1);
      assert Enabled(c, trace[n - 1], steps[n - 1]) && trace[n] == Do(c, trace[n - 1], steps[n - 1]);
      StepKeepsMemory(c, trace[n - 1], steps[n - 1]);
    }
  }

  /** With a DLQ configured nothing is ever logged and dropped. */
  lemma {:induction false} NothingDropped(c: Config, trace: seq<State>, steps: seq<Step>, n: nat)
    requires Run(c, trace, steps) && c.dlq && n <= |steps|
    ensures trace[n].dropped == {}
  {
    if n > 0 {
      NothingDropped(c, trace, steps, n - 1);
      assert Enabled(c, trace[n - 1], steps[n - 1]) && trace[n] == Do(c, trace[n - 1], steps[n - 1]);
    }
  }

  /** How an entry may be settled: with a DLQ configured, only by delivery or a DLQ write. */
  predicate SettledProperly(c: Config, s: State, sn: nat) {
    sn in s.delivered || sn in s.deadLettered || (!c.dlq && sn in s.dropped)
  }

  /** No loss across crashes. In every run, with any number of crashes and any failures of
      Deliver, the DLQ and the cursor store, every log entry from the initial cursor up to the
      durable cursor has been delivered, dead-lettered, or dropped for want of a DLQ. */
  lemma NoLoss(c: Config, trace: seq<State>, steps: seq<Step>, n: nat)
    requires Run(c, trace, steps) && !c.flusher && n <= |steps| && ReleasesSettledBefore(c, trace, steps, n)
    ensures forall j :: 0 <= j < |trace[n].log| && c.start <= trace[n].log[j].sn < Durable(c, trace[n]) ==>
      SettledProperly(c, trace[n], trace[n].log[j].sn)
  {
    RunInvariant(c, trace, steps, n);
    if c.dlq {
      NothingDropped(c, trace, steps, n);
    }
    var s := trace[n];
    forall j | 0 <= j < |s.log| && c.start <= s.log[j].sn < Durable(c, s)
      ensures SettledProperly(c, s, s.log[j].sn)
    {
      assert s.log[j].sn >= 1;
      assert Safe(c, CoreOf(s), Durable(c, s));
      assert Over(c, CoreOf(s), s.log[j].sn);
    }
  }

  /** Per-key order. Whenever the consumer receives an entry, by dispatch or by retry, every
      earlier entry of the same key has already been settled. */
  lemma PerKeyOrder(c: Config, trace: seq<State>, steps: seq<Step>, n: nat)
    requires Run(c, trace, steps) && !c.flusher && n < |steps|
    requires ReleasesSettledBefore(c, trace, steps, n) || NoCrashBefore(steps, n)
    requires HandedOver(trace[n], steps[n]).Some?
    ensures var e := HandedOver(trace[n], steps[n]).value;
            forall j :: 0 <= j < |trace[n].log| && trace[n].log[j].key == e.key
                        && c.start <= trace[n].log[j].sn < e.sn ==>
              SettledProperly(c, trace[n], trace[n].log[j].sn)
  {
    if NoCrashBefore(steps, n) {
      MemoryInvariant(c, trace, steps, n);
    } else {
      RunInvariant(c, trace, steps, n);
    }
    if c.dlq {
      NothingDropped(c, trace, steps, n);
    }
    var s, m, e := trace[n], CoreOf(trace[n]), HandedOver(trace[n], steps[n]).value;
    assert Enabled(c, s, steps[n]);
    forall j | 0 <= j < |s.log| && s.log[j].key == e.key && c.start <= s.log[j].sn < e.sn
      ensures SettledProperly(c, s, s.log[j].sn)
    {
      if steps[n].Deliver? {
        var i := s.router.i;
        assert j < i;
        assert Seen(c, m, m.log[j]);
        assert !Queued(m, m.log[j]);
      } else {
        var k := s.retrier.key;
        assert Slot(c, m.groups, k, 0);
        assert Preceded(c, m, m.groups[k], 0);
        assert !Among(m.groups[k], 0, m.log[j].sn);
      }
      assert Over(c, m, m.log[j].sn);
    }
  }

  // ----- the queues of every consumer -----

  /** What every run keeps, of batch-flushing consumers and with raced releases as well. */
  ghost predicate QueuesValid(c: Config, s: State) {
    LogOk(c, s.log) && R.Valid(s.view.retry, c.part) && RetrierOk(c, CoreOf(s), s.retrier)
  }

  lemma ApplyKeepsQueuesValid(c: Config, s: State)
    requires QueuesValid(c, s) && Enabled(c, s, Apply)
    ensures QueuesValid(c, DoApply(s))
  {
    var t, e := DoApply(s), s.log[s.router.i];
    if t.view.retry != s.view.retry {
      var rec := R.Record(e, if s.router.snap.blocked then 0 else 1);
      R.AddBlockedKeepsFloors(s.view.retry, e.key, rec, c.part);
      AppendKeepsHead(c, CoreOf(s), CoreOf(t), e.key, rec, s.retrier);
    }
  }

  lemma RetryKeepsQueuesValid(c: Config, s: State, outcome: S.Outcome)
    requires QueuesValid(c, s) && Enabled(c, s, RetryDeliver(outcome))
    ensures QueuesValid(c, DoRetry(c, s, outcome))
  {
    if outcome.Transient? {
      var k, rec := s.retrier.key, s.retrier.rec;
      CountedIsValid(c, s.view.retry, k, rec.(attempts := rec.attempts + 1));
    }
  }

  lemma PopKeepsQueuesValid(c: Config, s: State)
    requires QueuesValid(c, s) && (s.retrier.Settled? || s.retrier.Condemned?)
    requires HeadIs(s, s.retrier.key, s.retrier.rec)
    ensures QueuesValid(c, DoPop(c, s))
  {
    R.PopHeadKeepsFloors(s.view.retry, s.retrier.key, c.part);
  }

  /** Steps of the poll loop and the cursor store that leave queues and retry loop alone. */
  predicate LeavesQueues(step: Step) {
    || step.StartBatch? || step.CheckBlocked? || step.Snapshot? || step.Deliver? || step.Save? || step.EndBatch?
    || step.TakeBuffer? || step.Flush? || step.Persist?
  }

  lemma PollStepKeepsQueuesValid(c: Config, s: State, step: Step)
    requires QueuesValid(c, s) && Enabled(c, s, step) && LeavesQueues(step)
    ensures QueuesValid(c, Do(c, s, step))
  {
    var t := Do(c, s, step);
    assert t.log == s.log && t.view.retry == s.view.retry && t.retrier == s.retrier;
    assert CoreOf(s).settled <= CoreOf(t).settled;
  }

  lemma OtherStepKeepsQueuesValid(c: Config, s: State, step: Step)
    requires QueuesValid(c, s) && Enabled(c, s, step)
    requires step.Append? || step.PickHead? || step.WriteDLQ? || step.Notify? || step.Crash?
    ensures QueuesValid(c, Do(c, s, step))
  {
    if step.PickHead? {
      assert s.view.retry.groups[step.key][0].entry.partition == c.part(step.key);
    }
    assert RetrierOk(c, CoreOf(Do(c, s, step)), Do(c, s, step).retrier);
  }

  lemma ElsewhereKeepsQueuesValid(c: Config, s: State, retry: R.RetryState)
    requires QueuesValid(c, s) && Enabled(c, s, Elsewhere(retry))
    ensures QueuesValid(c, Do(c, s, Elsewhere(retry)))
  {
    assert s.retrier.Retrying? || s.retrier.Condemned? || s.retrier.Settled? ==>
      Lookup(retry.groups, s.retrier.key) == Lookup(s.view.retry.groups, s.retrier.key);
  }

  lemma StepKeepsQueuesValid(c: Config, s: State, step: Step)
    requires QueuesValid(c, s) && Enabled(c, s, step)
    ensures QueuesValid(c, Do(c, s, step))
  {
    if step.Apply? {
      ApplyKeepsQueuesValid(c, s);
    } else if step.RetryDeliver? {
      RetryKeepsQueuesValid(c, s, step.result);
    } else if step.PopSettled? {
      PopKeepsQueuesValid(c, s);
    } else if step.DropCondemned? {
      PopKeepsQueuesValid(c, s.(dropped := s.dropped + {s.retrier.rec.entry.sn}));
    } else if step.Elsewhere? {
      ElsewhereKeepsQueuesValid(c, s, step.retry);
    } else if LeavesQueues(step) {
      PollStepKeepsQueuesValid(c, s, step);
    } else {
      OtherStepKeepsQueuesValid(c, s, step);
    }
  }

  lemma {:induction false} QueuesInvariant(c: Config, trace: seq<State>, steps: seq<Step>, n: nat)
    requires Run(c, trace, steps) && n <= |steps|
    ensures QueuesValid(c, trace[n])
  {
    if n > 0 {
      QueuesInvariant(c, trace, steps, n - 1);
      assert Enabled(c, trace[n - 1], steps[n - 1]) && trace[n] == Do(c, trace[n - 1], steps[n - 1]);
      StepKeepsQueuesValid(c, trace[n - 1], steps[n - 1]);
    }
  }

  /** Every record of `q` keeps its place; more may follow, and attempts may be counted. */
  ghost predicate Lengthens(q: seq<R.Record>, q': seq<R.Record>) {
    |q| <= |q'| && forall i :: 0 <= i < |q| ==> q'[i].entry == q[i].entry
  }

  /** DLQ-01, of every consumer and every run: outside a crash a queue keeps its records in
      place, or loses exactly its head, and that head is settled, with a DLQ configured by
      Deliver or the DLQ write returning nil. */
  lemma LeavesOnlySettled(c: Config, trace: seq<State>, steps: seq<Step>, n: nat, k: Key)
    requires Run(c, trace, steps) && n < |steps| && !steps[n].Crash? && c.part(k) == c.partition
    ensures var q, q' := S.Queue(trace[n].view.retry.groups, k), S.Queue(trace[n + 1].view.retry.groups, k);
            Lengthens(q, q') || (q != [] && q' == q[1..] && SettledProperly(c, trace[n + 1], q[0].entry.sn))
  {
    QueuesInvariant(c, trace, steps, n);
    if c.dlq {
      NothingDropped(c, trace, steps, n + 1);
    }
    assert Enabled(c, trace[n], steps[n]) && trace[n + 1] == Do(c, trace[n], steps[n]);
    if steps[n].PopSettled? || steps[n].DropCondemned? {
      PoppedIsSettled(c, trace[n], steps[n], k);
    } else {
      StaysQueued(c, trace[n], steps[n], k);
    }
  }

  lemma PoppedIsSettled(c: Config, s: State, step: Step, k: Key)
    requires QueuesValid(c, s) && Enabled(c, s, step) && (step.PopSettled? || step.DropCondemned?)
    ensures var t := Do(c, s, step);
            var q, q' := S.Queue(s.view.retry.groups, k), S.Queue(t.view.retry.groups, k);
            q' == q || (q != [] && q' == q[1..] && q[0].entry.sn in CoreOf(t).settled)
  {
    var g := s.view.retry.groups;
    assert Do(c, s, step).view.retry.groups == R.Popped(g, s.retrier.key);
    assert k == s.retrier.key ==> g[k][0].entry.sn == s.retrier.rec.entry.sn;
  }

  lemma StaysQueued(c: Config, s: State, step: Step, k: Key)
    requires QueuesValid(c, s) && Enabled(c, s, step) && !step.Crash? && c.part(k) == c.partition
    requires !step.PopSettled? && !step.DropCondemned?
    ensures Lengthens(S.Queue(s.view.retry.groups, k), S.Queue(Do(c, s, step).view.retry.groups, k))
  {
    if step.Elsewhere? {
      assert Lookup(step.retry.groups, k) == Lookup(s.view.retry.groups, k);
    } else if !step.Apply? && !step.RetryDeliver? {
      assert Do(c, s, step).view.retry == s.view.retry;
    }
  }
}
