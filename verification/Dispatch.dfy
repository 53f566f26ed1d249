/** Per-entry cursor bookkeeping of the router (internal/router/router.go): what dispatching
    one log entry does to one consumer's state on the entry's partition. */
module Dispatch {
  import opened Common
  import R = Retry

  /** A consumer as seen from one partition. */
  datatype View = View(
    flusher: bool,               // implements BatchFlusher
    cursor: nat,                 // next sequence number, in memory
    provisional: Option<nat>,    // advance awaiting a successful FlushBatch
    retry: R.RetryState)

  /** What dispatch captures before it delivers. */
  datatype Snap = Snap(blocked: bool, cursor: nat, skipped: bool)

  /** Whether dispatch calls Deliver for this consumer. */
  predicate Attempts(snap: Snap, e: Entry) {
    !snap.blocked && snap.cursor <= e.sn && !snap.skipped
  }

  function Floor(v: View, p: nat): (f: Option<nat>) {
    Lookup(v.retry.floors, p)
  }

  /** Phase 3 of dispatch for one consumer: the new state and the cursor to save, if any. */
  function Update(v: View, snap: Snap, e: Entry, failed: bool): (r: (View, Option<nat>)) {
    var next := e.sn + 1;
    if snap.skipped then
      var c := Max(v.cursor, next);
      (v.(cursor := c), Some(Capped(c, Floor(v, e.partition))))
    else if e.sn < snap.cursor then
      (v, None)
    else if snap.blocked then
      var v' := v.(retry := R.AddBlocked(v.retry, e.key, R.Record(e, 0)), cursor := Max(v.cursor, next));
      (v', Some(Capped(next, Floor(v', e.partition))))
    else if failed then
      (v.(retry := R.AddBlocked(v.retry, e.key, R.Record(e, 1))), None)
    else if v.flusher then
      (v.(provisional := Some(if v.provisional.Some? then Max(v.provisional.value, next) else next)), None)
    else
      (v.(cursor := Max(v.cursor, next)), Some(Capped(next, Floor(v, e.partition))))
  }

  // ----- what phase 3 promises -----

  /** The cursor moves past the entry: it is skipped, queued behind its blocked group, or delivered
      to a consumer that does not batch-flush. */
  predicate Moves(v: View, snap: Snap, e: Entry, failed: bool) {
    snap.skipped || (snap.cursor <= e.sn && (snap.blocked || (!failed && !v.flusher)))
  }

  /** The entry is queued: its group is blocked, or it just failed. */
  predicate Queues(snap: Snap, e: Entry, failed: bool) {
    !snap.skipped && snap.cursor <= e.sn && (snap.blocked || failed)
  }

  /** The entry awaits the flush of the batch it was delivered with. */
  predicate Awaits(v: View, snap: Snap, e: Entry, failed: bool) {
    Attempts(snap, e) && !failed && v.flusher
  }

  function QueueOf(v: View, k: Key): (q: seq<R.Record>) {
    if k in v.retry.groups then v.retry.groups[k] else []
  }

  /** `x` is `n`, or the floor where that is lower. */
  predicate IsLower(x: nat, n: nat, floor: Option<nat>) {
    x <= n && (floor.Some? ==> x <= floor.value) && (x == n || floor == Some(x))
  }

  /** From `v` to `v'`, saving `save`: the whole effect of one entry on one consumer. */
  ghost predicate Takes(v: View, v': View, snap: Snap, e: Entry, failed: bool, save: Option<nat>) {
    && v'.flusher == v.flusher
    && v'.cursor == (if Moves(v, snap, e, failed) && v.cursor <= e.sn then e.sn + 1 else v.cursor)
    && (Awaits(v, snap, e, failed) ==>
          && v'.provisional.Some? && v'.provisional.value > e.sn
          && (v'.provisional.value == e.sn + 1 || v'.provisional == v.provisional)
          && (v.provisional.Some? ==> v.provisional.value <= v'.provisional.value))
    && (!Awaits(v, snap, e, failed) ==> v'.provisional == v.provisional)
    && (forall k :: k != e.key || !Queues(snap, e, failed) ==>
          Lookup(v'.retry.groups, k) == Lookup(v.retry.groups, k))
    && (Queues(snap, e, failed) ==>
          QueueOf(v', e.key) == QueueOf(v, e.key) + [R.Record(e, if snap.blocked then 0 else 1)])
    && (!Queues(snap, e, failed) ==> v'.retry == v.retry)
    && (save.Some? <==> Moves(v, snap, e, failed))
    && (save.Some? ==>
          IsLower(save.value, if snap.skipped then v'.cursor else e.sn + 1, Floor(v', e.partition)))
  }

  lemma UpdateTakes(v: View, snap: Snap, e: Entry, failed: bool)
    ensures var r := Update(v, snap, e, failed); Takes(v, r.0, snap, e, failed, r.1)
  {
  }

  /** A registered consumer; `live` is false once it is unregistered. */
  datatype Slot = Slot(
    id: string,
    live: bool,
    flusher: bool,
    cursors: map<nat, nat>,
    provisionals: map<nat, nat>,
    skips: map<nat, set<nat>>)

  /** A deferred SaveCursor call. */
  datatype CursorSave = CursorSave(id: string, partition: nat, value: nat)

  function RetryOf(retry: map<string, R.RetryState>, id: string): (s: R.RetryState) {
    if id in retry then retry[id] else R.EMPTY
  }

  function ViewOf(c: Slot, retry: map<string, R.RetryState>, p: nat): (v: View) {
    View(c.flusher, if p in c.cursors then c.cursors[p] else 0, Lookup(c.provisionals, p), RetryOf(retry, c.id))
  }

  /** A consumer's view after phase 3: its own update if it is live and was snapshotted. */
  function Updated(c: Slot, retry: map<string, R.RetryState>, snap: Option<Snap>, e: Entry, failed: bool): (v: View) {
    var v := ViewOf(c, retry, e.partition);
    if c.live && snap.Some? then Update(v, snap.value, e, failed).0 else v
  }

  /** `c'` differs from `c` at most in what it holds for partition `p`. */
  ghost predicate SameElsewhere(c': Slot, c: Slot, p: nat) {
    c' == c.(cursors := c'.cursors, provisionals := c'.provisionals)
    && (forall q :: q != p ==> Lookup(c'.cursors, q) == Lookup(c.cursors, q))
    && (forall q :: q != p ==> Lookup(c'.provisionals, q) == Lookup(c.provisionals, q))
  }

  /** `c'` with retry state `r'` is `c` after phase 3, changed on the entry's partition only. */
  ghost predicate Took(c': Slot, r': R.RetryState, c: Slot, retry: map<string, R.RetryState>,
                       snap: Option<Snap>, e: Entry, failed: bool) {
    && SameElsewhere(c', c, e.partition)
    && View(c'.flusher, if e.partition in c'.cursors then c'.cursors[e.partition] else 0,
            Lookup(c'.provisionals, e.partition), r') == Updated(c, retry, snap, e, failed)
  }

  /** The save a consumer owes after phase 3, if any. */
  function SaveOwed(c: Slot, retry: map<string, R.RetryState>, snap: Option<Snap>, e: Entry,
                    failed: bool): (out: seq<CursorSave>) {
    if !c.live || snap.None? then []
    else
      var save := Update(ViewOf(c, retry, e.partition), snap.value, e, failed).1;
      if save.None? then [] else [CursorSave(c.id, e.partition, save.value)]
  }

  /** The saves owed for the first `n` consumers, in registration order. */
  function SavesOwed(cs: seq<Slot>, retry: map<string, R.RetryState>, snaps: seq<Option<Snap>>, errs: seq<bool>,
                     e: Entry, n: nat): (out: seq<CursorSave>)
    requires n <= |cs| && |snaps| == |errs| == |cs|
  {
    if n == 0 then []
    else SavesOwed(cs, retry, snaps, errs, e, n - 1) + SaveOwed(cs[n - 1], retry, snaps[n - 1], e, errs[n - 1])
  }

  /** A live consumer that was snapshotted takes its update and owes that update's save; any other
      is left as it is and owes nothing. */
  lemma TookTakes(c': Slot, retry': map<string, R.RetryState>, c: Slot, retry: map<string, R.RetryState>,
                  snap: Option<Snap>, e: Entry, failed: bool) returns (save: Option<nat>)
    requires Took(c', RetryOf(retry', c'.id), c, retry, snap, e, failed)
    ensures SaveOwed(c, retry, snap, e, failed) ==
            if save.None? then [] else [CursorSave(c.id, e.partition, save.value)]
    ensures var v, v' := ViewOf(c, retry, e.partition), ViewOf(c', retry', e.partition);
            if c.live && snap.Some? then Takes(v, v', snap.value, e, failed, save) else v' == v && save.None?
  {
    if c.live && snap.Some? {
      UpdateTakes(ViewOf(c, retry, e.partition), snap.value, e, failed);
      save := Update(ViewOf(c, retry, e.partition), snap.value, e, failed).1;
    } else {
      save := None;
    }
  }

  /** Each save is one consumer's, each consumer that owes one is there, in registration order. */
  ghost predicate OwedBy(cs: seq<Slot>, retry: map<string, R.RetryState>, snaps: seq<Option<Snap>>, errs: seq<bool>,
                         e: Entry, n: nat, saves: seq<CursorSave>, at: seq<nat>)
    requires n <= |cs| && |snaps| == |errs| == |cs|
  {
    && |at| == |saves| && (forall x, y :: 0 <= x < y < |at| ==> at[x] < at[y])
    && (forall x :: 0 <= x < |at| ==>
          at[x] < n && SaveOwed(cs[at[x]], retry, snaps[at[x]], e, errs[at[x]]) == [saves[x]])
    && (forall i :: 0 <= i < n && i !in at ==> SaveOwed(cs[i], retry, snaps[i], e, errs[i]) == [])
  }

  lemma OwedNext(cs: seq<Slot>, retry: map<string, R.RetryState>, snaps: seq<Option<Snap>>, errs: seq<bool>,
                 e: Entry, n: nat, saves: seq<CursorSave>, at: seq<nat>, save: CursorSave)
    requires n < |cs| && |snaps| == |errs| == |cs| && OwedBy(cs, retry, snaps, errs, e, n, saves, at)
    requires SaveOwed(cs[n], retry, snaps[n], e, errs[n]) == [save]
    ensures OwedBy(cs, retry, snaps, errs, e, n + 1, saves + [save], at + [n])
  {
    var at' := at + [n];
    assert at'[|at|] == n;
    forall i | 0 <= i < n + 1 && i !in at' ensures SaveOwed(cs[i], retry, snaps[i], e, errs[i]) == [] {
      assert i !in at;
    }
  }

  lemma {:induction false} OwedInOrder(cs: seq<Slot>, retry: map<string, R.RetryState>, snaps: seq<Option<Snap>>,
                                       errs: seq<bool>, e: Entry, n: nat) returns (at: seq<nat>)
    requires n <= |cs| && |snaps| == |errs| == |cs|
    ensures OwedBy(cs, retry, snaps, errs, e, n, SavesOwed(cs, retry, snaps, errs, e, n), at)
  {
    if n == 0 {
      at := [];
    } else {
      at := OwedInOrder(cs, retry, snaps, errs, e, n - 1);
      var before := SavesOwed(cs, retry, snaps, errs, e, n - 1);
      var owed := SaveOwed(cs[n - 1], retry, snaps[n - 1], e, errs[n - 1]);
      if owed == [] {
        assert before + owed == before;
      } else {
        OwedNext(cs, retry, snaps, errs, e, n - 1, before, at, owed[0]);
        at := at + [n - 1];
      }
    }
  }

  predicate DistinctIds(cs: seq<Slot>) {
    forall i, j :: 0 <= i < j < |cs| ==> cs[i].id != cs[j].id
  }

  /** Phase 3 is over for the first `n` consumers and has not touched the others. */
  ghost predicate AppliedTo(cs: seq<Slot>, retry: map<string, R.RetryState>, cs0: seq<Slot>,
                            retry0: map<string, R.RetryState>, snaps: seq<Option<Snap>>, errs: seq<bool>,
                            e: Entry, n: nat) {
    && n <= |cs| == |cs0| == |snaps| == |errs|
    && (forall i :: 0 <= i < |cs| ==> cs[i].id == cs0[i].id)
    && (forall i :: n <= i < |cs| ==> cs[i] == cs0[i] && RetryOf(retry, cs0[i].id) == RetryOf(retry0, cs0[i].id))
    && (forall i :: 0 <= i < n ==> Took(cs[i], RetryOf(retry, cs[i].id), cs0[i], retry0, snaps[i], e, errs[i]))
  }

  /** Only the id's own state counts. */
  lemma TookAgrees(c': Slot, r': R.RetryState, c: Slot, retry: map<string, R.RetryState>,
                   retry0: map<string, R.RetryState>, snap: Option<Snap>, e: Entry, failed: bool)
    requires Took(c', r', c, retry, snap, e, failed) && RetryOf(retry, c.id) == RetryOf(retry0, c.id)
    ensures Took(c', r', c, retry0, snap, e, failed)
    ensures SaveOwed(c, retry, snap, e, failed) == SaveOwed(c, retry0, snap, e, failed)
  {
  }

  lemma AppliesNext(cs': seq<Slot>, retry': map<string, R.RetryState>, cs: seq<Slot>, retry: map<string, R.RetryState>,
                    cs0: seq<Slot>, retry0: map<string, R.RetryState>, snaps: seq<Option<Snap>>, errs: seq<bool>,
                    e: Entry, n: nat)
    requires AppliedTo(cs, retry, cs0, retry0, snaps, errs, e, n) && n < |cs| && DistinctIds(cs0)
    requires |cs'| == |cs| && cs' == cs[n := cs'[n]] && cs'[n].id == cs[n].id
    requires forall id :: id != cs[n].id ==> RetryOf(retry', id) == RetryOf(retry, id)
    requires Took(cs'[n], RetryOf(retry', cs'[n].id), cs[n], retry, snaps[n], e, errs[n])
    ensures AppliedTo(cs', retry', cs0, retry0, snaps, errs, e, n + 1)
    ensures SaveOwed(cs[n], retry, snaps[n], e, errs[n]) == SaveOwed(cs0[n], retry0, snaps[n], e, errs[n])
  {
    TookAgrees(cs'[n], RetryOf(retry', cs'[n].id), cs[n], retry, retry0, snaps[n], e, errs[n]);
    forall i | 0 <= i < |cs| && i != n
      ensures cs'[i] == cs[i] && RetryOf(retry', cs0[i].id) == RetryOf(retry, cs0[i].id)
    {
      assert i < n ==> cs0[i].id != cs0[n].id;
      assert n < i ==> cs0[n].id != cs0[i].id;
    }
  }

  class Router {
    var consumers: seq<Slot>
    var retry: map<string, R.RetryState>

    /** Consumer ids are unique among the registered consumers. */
    ghost predicate Valid()
      reads this
    {
      DistinctIds(consumers)
    }

    function At(i: nat, p: nat): (v: View)
      requires i < |consumers|
      reads this
    {
      ViewOf(consumers[i], retry, p)
    }

    constructor ()
      ensures Valid() && consumers == [] && retry == map[]
    {
      consumers, retry := [], map[];
    }

    /** The read window never starts beyond a live consumer's own cursor, and starts at
        one of them (or at 1 when there is none). */
    method MinCursorForPartition(p: nat) returns (low: nat)
      requires forall i :: 0 <= i < |consumers| && consumers[i].live ==> At(i, p).cursor >= 1
      ensures low >= 1
      ensures forall i :: 0 <= i < |consumers| && consumers[i].live ==> low <= At(i, p).cursor
      ensures (exists i :: 0 <= i < |consumers| && consumers[i].live) ==>
              exists i :: 0 <= i < |consumers| && consumers[i].live && low == At(i, p).cursor
      ensures (forall i :: 0 <= i < |consumers| ==> !consumers[i].live) ==> low == 1
    {
      low := 0;
      for n := 0 to |consumers|
        invariant low == 0 <==> forall i :: 0 <= i < n ==> !consumers[i].live
        invariant forall i :: 0 <= i < n && consumers[i].live ==> low <= At(i, p).cursor
        invariant low != 0 ==> exists i :: 0 <= i < n && consumers[i].live && low == At(i, p).cursor
      {
        if consumers[n].live {
          var cur := At(n, p).cursor;
          if low == 0 || cur < low {
            low := cur;
          }
        }
      }
      if low == 0 {
        low := 1;
      }
    }

    /** False only when no consumer has a blocked group. */
    method HasBlocked() returns (any: bool)
      ensures any <==> exists id :: id in retry && retry[id].groups != map[]
    {
      var rest := retry.Keys;
      any := false;
      while rest != {}
        invariant rest <= retry.Keys
        invariant forall id :: id in retry && id !in rest ==> retry[id].groups == map[]
      {
        var id :| id in rest;
        if retry[id].groups != map[] {
          any := true;
          return;
        }
        rest := rest - {id};
      }
    }

    /** Phase 1: one snapshot per live consumer. A group is reported blocked exactly when it
        is, provided `hasBlocked` was not stale for that consumer. */
    method SnapshotConsumers(e: Entry, hasBlocked: bool) returns (snaps: seq<Option<Snap>>)
      ensures |snaps| == |consumers|
      ensures forall i :: 0 <= i < |snaps| ==> (snaps[i].Some? <==> consumers[i].live)
      ensures forall i :: 0 <= i < |snaps| && consumers[i].live ==>
        && snaps[i].value.cursor == At(i, e.partition).cursor
        && (snaps[i].value.blocked <==> hasBlocked && e.key in At(i, e.partition).retry.groups)
        && (snaps[i].value.skipped <==>
            e.partition in consumers[i].skips && e.sn in consumers[i].skips[e.partition])
    {
      snaps := [];
      for n := 0 to |consumers|
        invariant |snaps| == n
        invariant forall i :: 0 <= i < n ==> (snaps[i].Some? <==> consumers[i].live)
        invariant forall i :: 0 <= i < n && consumers[i].live ==>
          && snaps[i].value.cursor == At(i, e.partition).cursor
          && (snaps[i].value.blocked <==> hasBlocked && e.key in At(i, e.partition).retry.groups)
          && (snaps[i].value.skipped <==>
              e.partition in consumers[i].skips && e.sn in consumers[i].skips[e.partition])
      {
        var c := consumers[n];
        if c.live {
          var blocked := hasBlocked && e.key in RetryOf(retry, c.id).groups;
          var skipped := e.partition in c.skips && e.sn in c.skips[e.partition];
          snaps := snaps + [Some(Snap(blocked, At(n, e.partition).cursor, skipped))];
        } else {
          snaps := snaps + [None];
        }
      }
    }

    /** Phase 3: every live consumer takes exactly its own update and no other, and the
        deferred saves are those updates' saves in registration order. */
    method ApplyDispatchCursors(e: Entry, snaps: seq<Option<Snap>>, errs: seq<bool>) returns (saves: seq<CursorSave>)
      requires Valid() && |snaps| == |errs| == |consumers|
      modifies this
      ensures Valid() && |consumers| == |old(consumers)|
      ensures forall i :: 0 <= i < |consumers| ==>
        Took(consumers[i], RetryOf(retry, consumers[i].id), old(consumers)[i], old(retry), snaps[i], e, errs[i])
      ensures saves == SavesOwed(old(consumers), old(retry), snaps, errs, e, |old(consumers)|)
    {
      saves := [];
      for n := 0 to |consumers|
        invariant AppliedTo(consumers, retry, old(consumers), old(retry), snaps, errs, e, n)
        invariant saves == SavesOwed(old(consumers), old(retry), snaps, errs, e, n)
      {
        ghost var cs, states := consumers, retry;
        var owed := ApplyOne(n, snaps[n], e, errs[n]);
        AppliesNext(consumers, retry, cs, states, old(consumers), old(retry), snaps, errs, e, n);
        saves := saves + owed;
      }
    }

    /** Phase 3 for consumer `n`; a removed or unsnapshotted consumer is left alone. */
    method ApplyOne(n: nat, snap: Option<Snap>, e: Entry, failed: bool) returns (owed: seq<CursorSave>)
      requires n < |consumers|
      modifies this
      ensures |consumers| == |old(consumers)| && consumers == old(consumers)[n := consumers[n]]
      ensures consumers[n].id == old(consumers)[n].id
      ensures forall id :: id != old(consumers)[n].id ==> RetryOf(retry, id) == RetryOf(old(retry), id)
      ensures Took(consumers[n], RetryOf(retry, consumers[n].id), old(consumers)[n], old(retry), snap, e, failed)
      ensures owed == SaveOwed(old(consumers)[n], old(retry), snap, e, failed)
    {
      owed := [];
      if consumers[n].live && snap.Some? {
        var save := DispatchUpdateCursor(n, snap.value, e, failed);
        if save.Some? {
          owed := [CursorSave(consumers[n].id, e.partition, save.value)];
        }
      }
    }

    /** The update of consumer `n`, in place. */
    method DispatchUpdateCursor(n: nat, snap: Snap, e: Entry, failed: bool) returns (save: Option<nat>)
      requires n < |consumers|
      modifies this
      ensures |consumers| == |old(consumers)|
      ensures consumers == old(consumers)[n := consumers[n]]
      ensures consumers[n].id == old(consumers)[n].id && SameElsewhere(consumers[n], old(consumers)[n], e.partition)
      ensures forall id :: id != old(consumers)[n].id ==> RetryOf(retry, id) == RetryOf(old(retry), id)
      ensures At(n, e.partition) == Update(old(At(n, e.partition)), snap, e, failed).0
      ensures save == Update(old(At(n, e.partition)), snap, e, failed).1
      ensures Takes(old(At(n, e.partition)), At(n, e.partition), snap, e, failed, save)
    {
      UpdateTakes(At(n, e.partition), snap, e, failed);
      var p, next := e.partition, e.sn + 1;
      save := None;
      if snap.skipped {
        AdvanceCursor(n, p, next);
        save := PersistCursor(n, p, At(n, p).cursor);
        return;
      }
      if e.sn < snap.cursor {
        return;
      }
      if snap.blocked {
        Block(n, R.Record(e, 0));
        AdvanceCursor(n, p, next);
        save := PersistCursor(n, p, next);
      } else if failed {
        Block(n, R.Record(e, 1));
      } else if consumers[n].flusher {
        var c := consumers[n];
        if p !in c.provisionals || next > c.provisionals[p] {
          consumers := consumers[n := c.(provisionals := c.provisionals[p := next])];
        }
      } else {
        AdvanceCursor(n, p, next);
        save := PersistCursor(n, p, next);
      }
    }

    method AdvanceCursor(n: nat, p: nat, next: nat)
      requires n < |consumers|
      modifies this`consumers
      ensures |consumers| == |old(consumers)| && consumers == old(consumers)[n := consumers[n]]
      ensures At(n, p) == old(At(n, p)).(cursor := Max(old(At(n, p)).cursor, next))
      ensures consumers[n].id == old(consumers)[n].id && SameElsewhere(consumers[n], old(consumers)[n], p)
    {
      var c := consumers[n];
      if At(n, p).cursor < next {
        consumers := consumers[n := c.(cursors := c.cursors[p := next])];
      }
    }

    method Block(n: nat, rec: R.Record)
      requires n < |consumers|
      modifies this`retry
      ensures forall id :: id != consumers[n].id ==> RetryOf(retry, id) == RetryOf(old(retry), id)
      ensures RetryOf(retry, consumers[n].id) ==
              R.AddBlocked(RetryOf(old(retry), consumers[n].id), rec.entry.key, rec)
    {
      var id := consumers[n].id;
      retry := retry[id := R.AddBlocked(RetryOf(retry, id), rec.entry.key, rec)];
    }

    /** The value of a deferred save: `n`'s cursor, capped at its floor. */
    method PersistCursor(n: nat, p: nat, value: nat) returns (save: Option<nat>)
      requires n < |consumers|
      ensures save == Some(Capped(value, Floor(At(n, p), p)))
    {
      var f := Lookup(RetryOf(retry, consumers[n].id).floors, p);
      save := Some(if f.Some? && f.value < value then f.value else value);
    }
  }
}
