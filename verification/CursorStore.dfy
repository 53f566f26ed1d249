/** The write-behind cursor store (internal/checkpoint/cursor_store.go). Saves land in a dirty
    map; a flush moves that map in flight, writes it in one transaction, and merges it back
    when the transaction fails. */
module CursorStore {
  import opened Common

  /** (consumer id, partition). */
  type CursorKey = (string, nat)
  type Cursors = map<CursorKey, nat>

  /** `rows` is the durable table; the other two maps are lost in a crash. */
  datatype Store = Store(dirty: Cursors, inflight: Cursors, rows: Cursors)

  datatype Op =
    | Save(key: CursorKey, value: nat)
    | BeginFlush
    | Commit
    | Fail(applied: bool)   // the transaction failed, or its commit reported an error after taking effect
    | Crash

  function Apply(s: Store, op: Op): (s': Store) {
    match op
    case Save(k, v) => s.(dirty := s.dirty[k := v])
    case BeginFlush => if s.inflight == map[] then Store(map[], s.dirty, s.rows) else s
    case Commit => Store(s.dirty, map[], s.rows + s.inflight)
    case Fail(applied) => Store(s.inflight + s.dirty, map[], if applied then s.rows + s.inflight else s.rows)
    case Crash => Store(map[], map[], s.rows)
  }

  /** What the store stands for: dirty over in-flight over durable. */
  function View(s: Store): (v: Cursors) {
    s.rows + s.inflight + s.dirty
  }

  /** LoadCursor: the dirty map, then the durable rows, then 1. */
  function Load(s: Store, k: CursorKey): (v: nat) {
    if k in s.dirty then s.dirty[k] else if k in s.rows then s.rows[k] else 1
  }

  function Viewed(s: Store, k: CursorKey): (v: nat) {
    if k in View(s) then View(s)[k] else 1
  }

  /** The last value saved per key, starting from `c`. */
  function Latest(c: Cursors, ops: seq<Op>): (c': Cursors) {
    if ops == [] then c
    else
      var before := Latest(c, ops[..|ops| - 1]);
      match ops[|ops| - 1]
      case Save(k, v) => before[k := v]
      case _ => before
  }

  ghost predicate History(trace: seq<Store>, ops: seq<Op>) {
    && |trace| == |ops| + 1
    && trace[0].dirty == map[] && trace[0].inflight == map[]
    && forall i :: 0 <= i < |ops| ==> trace[i + 1] == Apply(trace[i], ops[i])
  }

  /** A flush, whatever its outcome, does not change what the store stands for; in
      particular a restore never overwrites a value saved meanwhile. */
  lemma FlushKeepsView(s: Store, op: Op)
    requires !op.Save? && !op.Crash?
    ensures View(Apply(s, op)) == View(s)
    ensures op.Fail? ==> forall k :: k in s.dirty ==> Lookup(Apply(s, op).dirty, k) == Some(s.dirty[k])
  {
    assert op.Fail? ==> View(Apply(s, op)) == View(s);
    assert op.Commit? ==> View(Apply(s, op)) == View(s);
    assert op.BeginFlush? ==> View(Apply(s, op)) == View(s);
  }

  /** While the process is up, the store stands for exactly the last saved value of every key,
      at every step of every interleaving of saves and flushes. */
  lemma {:induction false} NothingSavedIsLost(trace: seq<Store>, ops: seq<Op>, n: nat)
    requires History(trace, ops) && n <= |ops|
    requires forall i :: 0 <= i < n ==> !ops[i].Crash?
    ensures View(trace[n]) == Latest(trace[0].rows, ops[..n])
  {
    if n == 0 {
      assert View(trace[0]) == trace[0].rows;
    } else {
      NothingSavedIsLost(trace, ops, n - 1);
      assert ops[..n][..n - 1] == ops[..n - 1];
      assert trace[n] == Apply(trace[n - 1], ops[n - 1]);
      if ops[n - 1].Save? {
        assert View(trace[n]) == View(trace[n - 1])[ops[n - 1].key := ops[n - 1].value];
      } else {
        FlushKeepsView(trace[n - 1], ops[n - 1]);
      }
    }
  }

  ghost predicate WasSaved(rows0: Cursors, ops: seq<Op>, k: CursorKey, v: nat) {
    || (k in rows0 && rows0[k] == v)
    || (exists i :: 0 <= i < |ops| && ops[i] == Save(k, v))
  }

  ghost predicate AllSaved(m: Cursors, rows0: Cursors, ops: seq<Op>) {
    forall k :: k in m ==> WasSaved(rows0, ops, k, m[k])
  }

  /** With crashes as well: every value the store holds anywhere was saved at some point. */
  lemma {:induction false} EveryValueWasSaved(trace: seq<Store>, ops: seq<Op>, n: nat)
    requires History(trace, ops) && n <= |ops|
    ensures AllSaved(trace[n].dirty, trace[0].rows, ops[..n])
    ensures AllSaved(trace[n].inflight, trace[0].rows, ops[..n])
    ensures AllSaved(trace[n].rows, trace[0].rows, ops[..n])
  {
    if n > 0 {
      EveryValueWasSaved(trace, ops, n - 1);
      var s, op, r0 := trace[n - 1], ops[n - 1], trace[0].rows;
      assert trace[n] == Apply(s, op);
      forall k, v | WasSaved(r0, ops[..n - 1], k, v) ensures WasSaved(r0, ops[..n], k, v) {
        if !(k in r0 && r0[k] == v) {
          var i :| 0 <= i < |ops[..n - 1]| && ops[..n - 1][i] == Save(k, v);
          assert ops[..n][i] == Save(k, v);
        }
      }
      if op.Save? {
        assert ops[..n][n - 1] == Save(op.key, op.value);
        assert WasSaved(r0, ops[..n], op.key, op.value);
      }
    }
  }

  /** LoadCursor consults neither the in-flight map nor the view: it answers with the last
      saved value exactly when the flush in progress holds no newer value than the rows. */
  lemma LoadIsLatestExactlyWhen(s: Store, k: CursorKey)
    ensures Load(s, k) == Viewed(s, k) <==>
            (k in s.dirty || k !in s.inflight || s.inflight[k] == (if k in s.rows then s.rows[k] else 1))
  {
  }

  /** It happens: a save, then a load while its flush is in progress. */
  lemma LoadDuringFlushIsStale(k: CursorKey) returns (trace: seq<Store>, ops: seq<Op>)
    ensures History(trace, ops) && ops == [Save(k, 5), BeginFlush]
    ensures Load(trace[2], k) == 1 && Viewed(trace[2], k) == 5
  {
    trace := [Store(map[], map[], map[]), Store(map[k := 5], map[], map[]), Store(map[], map[k := 5], map[])];
    ops := [Save(k, 5), BeginFlush];
    assert trace[1] == Apply(trace[0], ops[0]) && trace[2] == Apply(trace[1], ops[1]);
  }

  function Saves(c: Cursors, xs: seq<(CursorKey, nat)>): (c': Cursors) {
    if xs == [] then c else Saves(c, xs[..|xs| - 1])[xs[|xs| - 1].0 := xs[|xs| - 1].1]
  }

  lemma {:induction false} SavesOverride(a: Cursors, b: Cursors, xs: seq<(CursorKey, nat)>)
    ensures a + Saves(b, xs) == Saves(a + b, xs)
  {
    if xs != [] {
      var x := xs[|xs| - 1];
      SavesOverride(a, b, xs[..|xs| - 1]);
      assert a + Saves(b, xs[..|xs| - 1])[x.0 := x.1] == (a + Saves(b, xs[..|xs| - 1]))[x.0 := x.1];
    }
  }

  lemma RestoredView(rows: Cursors, snapshot: Cursors, xs: seq<(CursorKey, nat)>)
    ensures rows + (snapshot + Saves(map[], xs)) == Saves(rows + snapshot, xs)
    ensures rows + snapshot + Saves(map[], xs) == Saves(rows + snapshot, xs)
    ensures rows + snapshot + (snapshot + Saves(map[], xs)) == Saves(rows + snapshot, xs)
  {
    var d := Saves(map[], xs);
    SavesOverride(rows + snapshot, map[], xs);
    assert rows + snapshot + map[] == rows + snapshot;
    OverlayAbsorbs(rows, snapshot, d);
  }

  lemma OverlayAbsorbs(a: Cursors, b: Cursors, d: Cursors)
    ensures a + b + (b + d) == a + b + d
  {
  }

  /** Where a flush can fail. */
  datatype Fault = NoFault | AtBegin | AtUpsert(after: nat) | AtCommit(applied: bool)

  class SQLiteCursorStore {
    var dirty: Cursors
    var rows: Cursors

    constructor (rows: Cursors)
      ensures dirty == map[] && this.rows == rows
    {
      this.dirty, this.rows := map[], rows;
    }

    method SaveCursor(k: CursorKey, v: nat)
      modifies this`dirty
      ensures Store(dirty, map[], rows) == Apply(Store(old(dirty), map[], rows), Save(k, v))
    {
      dirty := dirty[k := v];
    }

    method LoadCursor(k: CursorKey) returns (v: nat)
      ensures v == Load(Store(dirty, map[], rows), k)
    {
      v := if k in dirty then dirty[k] else if k in rows then rows[k] else 1;
    }

    /** One flush; `during` are the saves that arrive while the lock is released. Whatever
        the fault, the store still stands for every saved value, and the durable rows are
        either untouched or hold the whole snapshot. */
    method Flush(during: seq<(CursorKey, nat)>, fault: Fault)
      modifies this
      ensures rows + dirty == Saves(old(rows + dirty), during)
      ensures rows == old(rows) || rows == old(rows) + old(dirty)
      ensures fault.NoFault? ==> rows == old(rows) + old(dirty) && dirty == Saves(map[], during)
    {
      var snapshot := dirty;
      dirty := map[];
      SaveAll(during);
      RestoredView(rows, snapshot, during);
      if fault.AtBegin? {
        Restore(snapshot);
        return;
      }
      var ok, tx := Upserts(snapshot, fault);
      if ok && (!fault.AtCommit? || fault.applied) {
        rows := tx;
      }
      if !ok || fault.AtCommit? {
        Restore(snapshot);
      }
    }

    method SaveAll(xs: seq<(CursorKey, nat)>)
      modifies this`dirty
      ensures dirty == Saves(old(dirty), xs)
    {
      for i := 0 to |xs|
        invariant dirty == Saves(old(dirty), xs[..i])
      {
        SaveCursor(xs[i].0, xs[i].1);
        assert xs[..i + 1][..i] == xs[..i];
      }
      assert xs[..|xs|] == xs;
    }

    /** The upserts of one transaction, rolled back at the faulty one. */
    method Upserts(snapshot: Cursors, fault: Fault) returns (ok: bool, tx: Cursors)
      ensures ok ==> tx == rows + snapshot
      ensures !ok ==> fault.AtUpsert?
    {
      var rest, done := snapshot.Keys, 0;
      ok, tx := true, rows;
      while rest != {}
        invariant rest <= snapshot.Keys
        invariant tx == rows + (snapshot - rest)
      {
        if fault == AtUpsert(done) {
          ok := false;
          return;
        }
        var k :| k in rest;
        tx, rest, done := tx[k := snapshot[k]], rest - {k}, done + 1;
      }
      assert snapshot - {} == snapshot;
    }

    /** Merges a failed snapshot back under whatever was saved meanwhile. */
    method Restore(snapshot: Cursors)
      modifies this`dirty
      ensures dirty == snapshot + old(dirty)
    {
      var rest := snapshot.Keys;
      while rest != {}
        modifies this`dirty
        invariant rest <= snapshot.Keys
        invariant dirty == (snapshot - rest) + old(dirty)
      {
        var k :| k in rest;
        rest := rest - {k};
        if k !in dirty {
          dirty := dirty[k := snapshot[k]];
        }
      }
      assert snapshot - {} == snapshot;
    }
  }
}
