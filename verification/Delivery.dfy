/** The delivery protocol seen from one consumer and one partition: the partition's poll loop,
    the retry loop, the write-behind cursor store and crashes, as a state machine whose steps
    are the critical sections and calls of internal/router/router.go and
    internal/router/retry.go. Other consumers and partitions appear as `Elsewhere`, `Persist`,
    the choice of `from` in `StartBatch`, and the answer of `CheckBlocked`.

    A flush is two steps, because the sink takes its buffer under its own lock and the retry
    loop may deliver into the fresh one until FlushBatch returns: `TakeBuffer` and `Flush`.
    `Flush` merges the return with the promotion or discard that follows it in the same
    goroutine, which alone writes the cursor, the provisional cursor, the skips and the streak
    of its partition. `Apply` merges the queueing of an entry with the floor read after it,
    both under the router's lock: a pop may fall in between, and the value then saved is no
    higher than the one that the release of that pop saves. */
module Delivery {
  import opened Common
  import R = Retry
  import D = Dispatch
  import S = Scheduler
  import CS = CursorStore

  const READ_LIMIT: nat := 256
  const POISON_STREAK_LIMIT: nat := 25

  datatype Config = Config(
    id: string,
    partition: nat,
    part: Key -> nat,     // the partition of a grouping key
    start: nat,           // the cursor this history begins with
    dlq: bool,            // a dead-letter store is configured
    flusher: bool)        // the consumer implements BatchFlusher

  /** The partition's poll loop. `i` is the log index it is at, `hi` the end of its batch. */
  datatype RouterPhase =
    | Idle
    | AtEntry(i: nat, hi: nat)
    | Checked(i: nat, hi: nat, hasBlocked: bool)
    | Snapped(i: nat, hi: nat, snap: D.Snap)
    | Returned(i: nat, hi: nat, snap: D.Snap, failed: bool)
    | Saving(i: nat, hi: nat, save: Option<nat>)
    | Flushing(i: nat, hi: nat)             // FlushBatch in progress on what the sink took

  /** The retry loop, while it works on this consumer and partition. */
  datatype RetryPhase =
    | Resting
    | Retrying(key: Key, rec: R.Record)     // Deliver in progress, lock released
    | Condemned(key: Key, rec: R.Record)    // to be dead-lettered
    | Settled(key: Key, rec: R.Record)      // Deliver or the DLQ write returned nil; pop pending
    | Notifying(floor: Option<nat>)         // popped; the floor-release callback is pending

  datatype State = State(
    log: seq<Entry>,
    view: D.View,
    skips: set<nat>,
    streak: nat,
    router: RouterPhase,
    retrier: RetryPhase,
    buffered: seq<nat>,        // handed to a flusher since it last took its buffer
    inflight: seq<nat>,        // taken by the FlushBatch in progress
    store: CS.Store,
    delivered: set<nat>,       // Deliver returned nil
    flushed: set<nat>,         // taken by a FlushBatch that returned nil
    deadLettered: set<nat>,    // the DLQ write returned nil
    dropped: set<nat>)         // logged and dropped, no DLQ configured

  datatype FlushOutcome = FlushOk | FlushFails | Poison(sn: nat)

  datatype Step =
    | Append(e: Entry)
    | StartBatch(from: nat)
    | CheckBlocked(hasBlocked: bool)
    | Snapshot
    | Deliver(ok: bool)
    | Apply
    | Save
    | EndBatch
    | TakeBuffer
    | Flush(outcome: FlushOutcome, dlqWrite: bool)
    | PickHead(key: Key)
    | RetryDeliver(result: S.Outcome)
    | WriteDLQ(ok: bool)
    | PopSettled
    | DropCondemned
    | Notify
    | Elsewhere(retry: R.RetryState)
    | Persist(op: CS.Op)
    | Crash(loadFails: bool)

  // ----- reading the log -----

  /** The index of the first entry with sequence number at least `from`. */
  function FirstFrom(log: seq<Entry>, from: nat): (r: nat)
    ensures r <= |log|
    ensures forall j :: 0 <= j < r ==> log[j].sn < from
    ensures r < |log| ==> log[r].sn >= from
  {
    if log == [] then 0
    else
      var r := FirstFrom(log[..|log| - 1], from);
      if r < |log| - 1 then r
      else if log[|log| - 1].sn < from then |log| else |log| - 1
  }

  function BatchEnd(log: seq<Entry>, i: nat): (hi: nat)
    requires i <= |log|
    ensures i <= hi <= |log| && hi - i <= READ_LIMIT && (hi == |log| || hi - i == READ_LIMIT)
  {
    if i + READ_LIMIT < |log| then i + READ_LIMIT else |log|
  }

  /** The poisoned entry is found when the window is read again from the cursor. */
  ghost predicate InWindow(log: seq<Entry>, from: nat, sn: nat) {
    var i := FirstFrom(log, from);
    exists j :: i <= j < BatchEnd(log, i) && log[j].sn == sn
  }

  // ----- the machine -----

  function MyKey(c: Config): (k: CS.CursorKey) { (c.id, c.partition) }

  function FloorOf(c: Config, s: State): (f: Option<nat>) { Lookup(s.view.retry.floors, c.partition) }

  predicate Admissible(c: Config, log: seq<Entry>, e: Entry) {
    && e.sn >= 1 && e.partition == c.partition && c.part(e.key) == c.partition
    && (log != [] ==> log[|log| - 1].sn < e.sn)
  }

  ghost predicate Init(c: Config, s: State) {
    && c.start >= 1
    && s.log == []
    && s.view == D.View(c.flusher, c.start, None, R.EMPTY)
    && s.skips == {} && s.streak == 0
    && s.router == Idle && s.retrier == Resting && s.buffered == s.inflight == []
    && s.store.dirty == map[] && s.store.inflight == map[] && CS.Load(s.store, MyKey(c)) == c.start
    && s.delivered == s.flushed == s.deadLettered == s.dropped == {}
  }

  ghost predicate Enabled(c: Config, s: State, step: Step) {
    match step
    case Append(e) => Admissible(c, s.log, e)
    case StartBatch(from) => s.router.Idle? && from <= s.view.cursor && FirstFrom(s.log, from) < |s.log|
    case CheckBlocked(b) => s.router.AtEntry? && s.router.i < s.router.hi <= |s.log| &&
        (!b ==> s.view.retry.groups == map[])
    case Snapshot => s.router.Checked? && s.router.i < |s.log|
    case Deliver(ok) => s.router.Snapped? && s.router.i < |s.log| &&
        (!ok ==> D.Attempts(s.router.snap, s.log[s.router.i]))
    case Apply => s.router.Returned? && s.router.i < |s.log|
    case Save => s.router.Saving?
    case EndBatch => s.router.AtEntry? && s.router.i == s.router.hi && !c.flusher
    case TakeBuffer => s.router.AtEntry? && s.router.i == s.router.hi && c.flusher
    case Flush(_, _) => s.router.Flushing?
    case PickHead(k) => s.retrier.Resting? && R.HeadOn(s.view.retry.groups, k, c.partition)
    case RetryDeliver(_) => s.retrier.Retrying? && HeadIs(s, s.retrier.key, s.retrier.rec)
    case WriteDLQ(_) => s.retrier.Condemned? && c.dlq && HeadIs(s, s.retrier.key, s.retrier.rec)
    case DropCondemned => s.retrier.Condemned? && !c.dlq && HeadIs(s, s.retrier.key, s.retrier.rec)
    case PopSettled => s.retrier.Settled? && HeadIs(s, s.retrier.key, s.retrier.rec)
    case Notify => s.retrier.Notifying?
    case Elsewhere(retry) =>
      && R.Valid(retry, c.part)
      && forall k :: c.part(k) == c.partition ==> Lookup(retry.groups, k) == Lookup(s.view.retry.groups, k)
    case Persist(op) => !op.Crash? && (op.Save? ==> op.key != MyKey(c))
    case Crash(_) => true
  }

  predicate HeadIs(s: State, k: Key, rec: R.Record) {
    k in s.view.retry.groups && |s.view.retry.groups[k]| > 0 && s.view.retry.groups[k][0] == rec
  }

  ghost function Do(c: Config, s: State, step: Step): (s': State)
    requires Enabled(c, s, step)
  {
    match step
    case Append(e) => s.(log := s.log + [e])
    case StartBatch(from) =>
      var i := FirstFrom(s.log, from);
      s.(router := AtEntry(i, BatchEnd(s.log, i)))
    case CheckBlocked(b) => s.(router := Checked(s.router.i, s.router.hi, b))
    case Snapshot => s.(router := Snapped(s.router.i, s.router.hi, SnapOf(s, s.log[s.router.i], s.router.hasBlocked)))
    case Deliver(ok) => DoDeliver(s, ok)
    case Apply => DoApply(s)
    case Save => DoSave(c, s)
    case EndBatch => s.(router := Idle)
    case TakeBuffer => DoTake(s)
    case Flush(outcome, dlqWrite) => DoFlush(c, s, outcome, dlqWrite)
    case PickHead(k) => s.(retrier := Retrying(k, s.view.retry.groups[k][0]))
    case RetryDeliver(outcome) => DoRetry(c, s, outcome)
    case WriteDLQ(ok) =>
      if ok then s.(deadLettered := s.deadLettered + {s.retrier.rec.entry.sn},
          retrier := Settled(s.retrier.key, s.retrier.rec))
      else s.(retrier := Resting)
    case DropCondemned => DoPop(c, s.(dropped := s.dropped + {s.retrier.rec.entry.sn}))
    case PopSettled => DoPop(c, s)
    case Notify => DoNotify(c, s)
    case Elsewhere(retry) => s.(view := s.view.(retry := retry))
    case Persist(op) => s.(store := CS.Apply(s.store, op))
    case Crash(loadFails) => DoCrash(c, s, loadFails)
  }

  function SnapOf(s: State, e: Entry, hasBlocked: bool): (snap: D.Snap) {
    D.Snap(hasBlocked && e.key in s.view.retry.groups, s.view.cursor, e.sn in s.skips)
  }

  /** Phase 2 of dispatch: a flusher only buffers. */
  function DoDeliver(s: State, ok: bool): (s': State)
    requires s.router.Snapped? && s.router.i < |s.log|
  {
    var r := s.router;
    var e := s.log[r.i];
    var next := s.(router := Returned(r.i, r.hi, r.snap, !ok));
    if ok && D.Attempts(r.snap, e) then Received(next, e.sn) else next
  }

  /** A Deliver that returned nil. */
  function Received(s: State, sn: nat): (s': State) {
    s.(delivered := s.delivered + {sn}, buffered := if s.view.flusher then s.buffered + [sn] else s.buffered)
  }

  /** Phase 3 of dispatch, under the router's lock. */
  function DoApply(s: State): (s': State)
    requires s.router.Returned? && s.router.i < |s.log|
  {
    var r := s.router;
    var u := D.Update(s.view, r.snap, s.log[r.i], r.failed);
    s.(view := u.0, router := Saving(r.i + 1, r.hi, u.1))
  }

  function Saved(c: Config, s: State, v: nat): (s': State) {
    s.(store := CS.Apply(s.store, CS.Save(MyKey(c), v)))
  }

  /** The deferred save, after the lock is released. */
  function DoSave(c: Config, s: State): (s': State)
    requires s.router.Saving?
  {
    var next := s.(router := AtEntry(s.router.i, s.router.hi));
    if s.router.save.Some? then Saved(c, next, s.router.save.value) else next
  }

  /** After a batch the sink takes its buffer; Deliver goes on into a fresh one. */
  function DoTake(s: State): (s': State)
    requires s.router.AtEntry?
  {
    s.(router := Flushing(s.router.i, s.router.hi), inflight := s.buffered, buffered := [])
  }

  /** What the sink holds: the batch it is flushing and the buffer behind it. */
  function InSink(s: State): (sns: seq<nat>) { s.inflight + s.buffered }

  /** FlushBatch returned: only what it took is flushed, or dropped with the provisional
      advance. */
  ghost function DoFlush(c: Config, s: State, outcome: FlushOutcome, dlqWrite: bool): (s': State) {
    var after := s.(router := Idle, inflight := [], view := s.view.(provisional := None));
    match outcome
    case FlushOk => Promoted(c, after.(flushed := s.flushed + (set x | x in s.inflight), streak := 0),
        s.view.provisional)
    case FlushFails => after
    case Poison(sn) =>
      if TriesDLQ(c, s, sn) && dlqWrite then
        after.(deadLettered := s.deadLettered + {sn}, skips := s.skips + {sn}, streak := s.streak + 1)
      else after
  }

  /** Whether a poison flush gets as far as the DLQ write. */
  ghost predicate TriesDLQ(c: Config, s: State, sn: nat) {
    s.streak < POISON_STREAK_LIMIT && InWindow(s.log, s.view.cursor, sn) && c.dlq
  }

  function Promoted(c: Config, s: State, provisional: Option<nat>): (s': State) {
    if provisional.None? then s
    else
      var n := Max(s.view.cursor, provisional.value);
      Saved(c, s.(view := s.view.(cursor := n), skips := set x | x in s.skips && x > n), Capped(n, FloorOf(c, s)))
  }

  /** The retry loop's Deliver returned. */
  function DoRetry(c: Config, s: State, outcome: S.Outcome): (s': State)
    requires s.retrier.Retrying? && HeadIs(s, s.retrier.key, s.retrier.rec)
  {
    var k, rec := s.retrier.key, s.retrier.rec;
    match outcome
    case Ok => Received(s, rec.entry.sn).(retrier := Settled(k, rec))
    case Permanent => s.(retrier := Condemned(k, rec))
    case Transient =>
      var rec' := rec.(attempts := rec.attempts + 1);
      var g := s.view.retry.groups;
      s.(view := s.view.(retry := s.view.retry.(groups := g[k := g[k][0 := rec']])),
         retrier := if rec'.attempts >= R.MAX_RETRIES then Condemned(k, rec') else Resting)
  }

  /** The pop: the head leaves and the floor is recomputed, under the scheduler's lock. */
  ghost function DoPop(c: Config, s: State): (s': State)
    requires (s.retrier.Settled? || s.retrier.Condemned?) && HeadIs(s, s.retrier.key, s.retrier.rec)
  {
    var retry := R.PopHead(s.view.retry, s.retrier.key);
    s.(view := s.view.(retry := retry), retrier := Notifying(Lookup(retry.floors, c.partition)))
  }

  /** The floor-release callback: the current cursor, capped at the floor seen at the pop. */
  function DoNotify(c: Config, s: State): (s': State)
    requires s.retrier.Notifying?
  {
    Saved(c, s, Released(s)).(retrier := Resting)
  }

  function Released(s: State): (v: nat)
    requires s.retrier.Notifying?
  {
    Capped(s.view.cursor, s.retrier.floor)
  }

  /** Everything in memory is lost; the consumer registers again with its durable cursor. */
  function DoCrash(c: Config, s: State, loadFails: bool): (s': State) {
    var store := CS.Apply(s.store, CS.Crash);
    s.(store := store,
       view := D.View(c.flusher, if loadFails then 1 else CS.Load(store, MyKey(c)), None, R.EMPTY),
       skips := {}, streak := 0, router := Idle, retrier := Resting, buffered := [], inflight := [])
  }

  // ----- runs -----

  ghost predicate Run(c: Config, trace: seq<State>, steps: seq<Step>) {
    && |trace| == |steps| + 1
    && Init(c, trace[0])
    && forall i :: 0 <= i < |steps| ==> Enabled(c, trace[i], steps[i]) && trace[i + 1] == Do(c, trace[i], steps[i])
  }

  /** The exact condition on a floor release: nothing queued below the released value is
      unsettled. */
  ghost predicate ReleasesSettled(c: Config, s: State) {
    var g := s.view.retry.groups;
    s.retrier.Notifying? ==>
      forall k, i: nat :: k in g && c.part(k) == c.partition && i < |g[k]| && g[k][i].entry.sn < Released(s) ==>
        Done(c, s, g[k][i].entry.sn)
  }

  ghost predicate ReleasesSettledBefore(c: Config, trace: seq<State>, steps: seq<Step>, n: nat)
    requires |trace| == |steps| + 1 && n <= |steps|
  {
    forall i :: 0 <= i < n && steps[i].Notify? ==> ReleasesSettled(c, trace[i])
  }

  /** Between the pop and this callback no group with a lower head appeared on the partition. */
  predicate Unraced(c: Config, s: State) {
    s.retrier.Notifying? && FloorOf(c, s).Some? ==>
      s.retrier.floor.Some? && s.retrier.floor.value <= FloorOf(c, s).value
  }

  ghost predicate NoRaceBefore(c: Config, trace: seq<State>, steps: seq<Step>, n: nat)
    requires |trace| == |steps| + 1 && n <= |steps|
  {
    forall i :: 0 <= i < n && steps[i].Notify? ==> Unraced(c, trace[i])
  }

  ghost predicate NoCrashBefore(steps: seq<Step>, n: nat)
    requires n <= |steps|
  {
    forall i :: 0 <= i < n ==> !steps[i].Crash?
  }

  /** The entry a step hands over successfully, if any. */
  function HandedOver(s: State, step: Step): (e: Option<Entry>) {
    if step.Deliver? && step.ok && s.router.Snapped? && s.router.i < |s.log|
       && D.Attempts(s.router.snap, s.log[s.router.i]) then Some(s.log[s.router.i])
    else if step.RetryDeliver? && step.result.Ok? && s.retrier.Retrying? then Some(s.retrier.rec.entry)
    else None
  }

  /** Delivered, dead-lettered, or logged and dropped; what precedes `start` was settled before. */
  predicate Done(c: Config, s: State, sn: nat) {
    sn < c.start || sn in s.delivered || sn in s.deadLettered || sn in s.dropped
  }

  /** The cursor a restart would resume from. */
  function Durable(c: Config, s: State): (v: nat) {
    CS.Load(CS.Apply(s.store, CS.Crash), MyKey(c))
  }
}
