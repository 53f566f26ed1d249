/** The crash-resumable table snapshot (internal/backfill/backfill.go). The saved state and the
    log are durable fields; everything else lives in one attempt and dies with it. */
module Backfill {
  import opened Common
  import opened Keyset

  /** `canon` is the canonical JSON of a primary key. */
  datatype Config = Config(source: string, schema: string, table: string, canon: PK -> string)

  /** A snapshot is named by the digits of the nanosecond its ID was made in. */
  datatype Event = Read(pk: PK, row: string, id: string) | SnapshotComplete(id: string)

  datatype Status = Pending | Running | Completed

  /** The persisted state; `id == ""` before the first attempt. */
  datatype Saved = Saved(status: Status, cursor: Option<PK>, id: string, lsn: nat)

  function IdOf(saved: Option<Saved>): (id: string) { if saved.Some? then saved.value.id else "" }

  /** The saved LSN; 0 before one was taken. */
  function LsnOf(saved: Option<Saved>): (lsn: nat) { if saved.Some? then saved.value.lsn else 0 }

  /** A row dropped because the log held a WAL event for it above the snapshot's LSN. */
  datatype Skip = Skip(pk: PK, id: string, lsn: nat, wal: nat)

  /** How a save ends: durable and acknowledged, not durable, or durable though reported as
      failed. */
  datatype SaveOutcome = Stored | Refused | Unacknowledged

  /** What one page meets: the table as the query sees it, the highest WAL LSN the watermark
      knows per key, how many events the log takes before an append fails, the end-of-page
      save, and the time taken. */
  datatype Turn = Turn(table: Table, newest: map<PK, nat>, budget: Option<nat>, save: SaveOutcome, ms: nat)

  /** What one attempt meets; it dies when its turns run out. */
  datatype Attempt = Attempt(nanos: string, start: SaveOutcome, flushLsn: Option<nat>, turns: seq<Turn>,
                             announces: bool, finish: SaveOutcome)

  /** The LSN an attempt runs with: the saved one, or else the flush LSN if it could be read. */
  function AttemptLsn(saved: Option<Saved>, a: Attempt): (lsn: nat) {
    if LsnOf(saved) != 0 then LsnOf(saved) else FlushOf(a)
  }

  function FlushOf(a: Attempt): (lsn: nat) { if a.flushLsn.Some? then a.flushLsn.value else 0 }

  const BUFFER: nat := 256

  // ----- idempotency keys -----

  predicate Digits(s: string) { forall i :: 0 <= i < |s| ==> '0' <= s[i] <= '9' }

  predicate IsId(id: string) { id != "" && Digits(id) }

  function SnapshotPrefix(cfg: Config): (s: string) { cfg.source + "_" + cfg.table + "_" }

  function IdempotencyKey(cfg: Config, ev: Event): (key: string) {
    match ev
    case Read(pk, _, id) =>
      var qualified := if cfg.schema != "" then cfg.schema + "." + cfg.table else cfg.table;
      cfg.source + ":" + qualified + ":" + cfg.canon(pk) + ":read:" + SnapshotPrefix(cfg) + id
    case SnapshotComplete(id) =>
      cfg.source + ":" + cfg.table + ":control:snapshot_complete:" + SnapshotPrefix(cfg) + id
  }

  ghost predicate InjectiveCanon(cfg: Config) {
    forall a, b :: cfg.canon(a) == cfg.canon(b) ==> a == b
  }

  lemma {:induction false} DigitsAreSeparable(a: string, d: string, b: string, e: string)
    requires a != "" && a[|a| - 1] == '_' && b != "" && b[|b| - 1] == '_'
    requires Digits(d) && Digits(e) && a + d == b + e
    ensures a == b && d == e
  {
    var x := a + d;
    assert x[|x| - 1] == if d == "" then '_' else d[|d| - 1];
    assert x[|x| - 1] == if e == "" then '_' else e[|e| - 1];
    if d == "" {
      assert a + d == a && b + e == b;
    } else {
      var d', e' := d[..|d| - 1], e[..|e| - 1];
      assert a + d' == x[..|x| - 1] && b + e' == x[..|x| - 1];
      DigitsAreSeparable(a, d', b, e');
      assert d == d' + [d[|d| - 1]] && e == e' + [e[|e| - 1]];
    }
  }

  lemma CancelRight(a: string, b: string, tail: string)
    requires a + tail == b + tail
    ensures a == b
  {
    assert |a| == |b|;
    assert a == (a + tail)[..|a|] && b == (b + tail)[..|b|];
  }

  lemma CancelLeft(head: string, a: string, b: string)
    requires head + a == head + b
    ensures a == b
  {
    assert a == (head + a)[|head|..] && b == (head + b)[|head|..];
  }

  /** A read key names its primary key and its snapshot, and is never the key of a control
      event: whatever the source, table and key are made of, nothing is dropped as a duplicate
      of something else. */
  lemma KeysIdentifyEvents(cfg: Config, x: Event, y: Event)
    requires InjectiveCanon(cfg) && Digits(x.id) && Digits(y.id)
    requires IdempotencyKey(cfg, x) == IdempotencyKey(cfg, y)
    ensures x.id == y.id && x.Read? == y.Read? && (x.Read? ==> x.pk == y.pk)
  {
    var prefix := SnapshotPrefix(cfg);
    var a, b := Head(cfg, x), Head(cfg, y);
    DigitsAreSeparable(a + prefix, x.id, b + prefix, y.id);
    CancelRight(a, b, prefix);
    HeadIdentifies(cfg, x, y);
  }

  /** The key up to the snapshot ID. */
  function Head(cfg: Config, ev: Event): (s: string) {
    match ev
    case Read(pk, _, id) =>
      var qualified := if cfg.schema != "" then cfg.schema + "." + cfg.table else cfg.table;
      (cfg.source + ":" + qualified + ":") + cfg.canon(pk) + ":read:"
    case SnapshotComplete(id) => cfg.source + ":" + cfg.table + ":control:snapshot_complete:"
  }

  lemma HeadIdentifies(cfg: Config, x: Event, y: Event)
    requires InjectiveCanon(cfg) && Head(cfg, x) == Head(cfg, y)
    ensures x.Read? == y.Read? && (x.Read? ==> x.pk == y.pk)
  {
    HeadEnd(cfg, x);
    HeadEnd(cfg, y);
    if x.Read? && y.Read? {
      var qualified := if cfg.schema != "" then cfg.schema + "." + cfg.table else cfg.table;
      var front := cfg.source + ":" + qualified + ":";
      CancelRight(front + cfg.canon(x.pk), front + cfg.canon(y.pk), ":read:");
      CancelLeft(front, cfg.canon(x.pk), cfg.canon(y.pk));
    }
  }

  lemma HeadEnd(cfg: Config, ev: Event)
    ensures var h := Head(cfg, ev); |h| >= 2 && (h[|h| - 2] == 'd' <==> ev.Read?)
  {
  }

  // ----- the log, as the snapshot sees it -----

  function Keys(cfg: Config, log: seq<Event>): (keys: set<string>) {
    set ev | ev in log :: IdempotencyKey(cfg, ev)
  }

  /** An append: a known idempotency key is a duplicate and changes nothing. */
  function Appended(cfg: Config, log: seq<Event>, ev: Event): (log': seq<Event>)
    ensures log <= log'
  {
    if IdempotencyKey(cfg, ev) in Keys(cfg, log) then log else log + [ev]
  }

  function AppendedAll(cfg: Config, log: seq<Event>, evs: seq<Event>): (log': seq<Event>)
    ensures log <= log'
  {
    if evs == [] then log else Appended(cfg, AppendedAll(cfg, log, evs[..|evs| - 1]), evs[|evs| - 1])
  }

  ghost predicate LogOk(cfg: Config, log: seq<Event>) {
    && (forall i :: 0 <= i < |log| ==> IsId(log[i].id))
    && (forall i, j :: 0 <= i < j < |log| ==> IdempotencyKey(cfg, log[i]) != IdempotencyKey(cfg, log[j]))
  }

  /** The rows a snapshot needs no more: read into the log, or skipped. */
  function Covered(log: seq<Event>, skipped: set<Skip>, id: string): (pks: set<PK>) {
    (set ev | ev in log && ev.Read? && ev.id == id :: ev.pk) + (set k | k in skipped && k.id == id :: k.pk)
  }

  lemma CoveredGrows(log: seq<Event>, log': seq<Event>, skipped: set<Skip>, skipped': set<Skip>, id: string)
    requires log <= log' && skipped <= skipped'
    ensures Covered(log, skipped, id) <= Covered(log', skipped', id)
  {
  }

  lemma {:induction false} AppendsLand(cfg: Config, log: seq<Event>, evs: seq<Event>, i: nat)
    requires i < |evs|
    ensures IdempotencyKey(cfg, evs[i]) in Keys(cfg, AppendedAll(cfg, log, evs))
  {
    var n := |evs| - 1;
    var before := AppendedAll(cfg, log, evs[..n]);
    var after := AppendedAll(cfg, log, evs);
    if i < n {
      AppendsLand(cfg, log, evs[..n], i);
      var ev :| ev in before && IdempotencyKey(cfg, ev) == IdempotencyKey(cfg, evs[i]);
      var k :| 0 <= k < |before| && before[k] == ev;
      assert after[k] == ev;
    } else {
      assert after == before || after[|before|] == evs[n];
    }
  }

  lemma {:induction false} AppendsKeepLog(cfg: Config, log: seq<Event>, evs: seq<Event>, id: string)
    requires LogOk(cfg, log) && IsId(id) && forall i :: 0 <= i < |evs| ==> evs[i].id == id
    ensures LogOk(cfg, AppendedAll(cfg, log, evs))
    ensures forall i :: |log| <= i < |AppendedAll(cfg, log, evs)| ==> AppendedAll(cfg, log, evs)[i] in evs
  {
    if evs != [] {
      AppendsKeepLog(cfg, log, evs[..|evs| - 1], id);
      AppendKeepsLog(cfg, AppendedAll(cfg, log, evs[..|evs| - 1]), evs[|evs| - 1]);
    }
  }

  lemma AppendKeepsLog(cfg: Config, log: seq<Event>, ev: Event)
    requires LogOk(cfg, log) && IsId(ev.id)
    ensures LogOk(cfg, Appended(cfg, log, ev))
  {
  }

  /** An append that lands covers its row, be it new or a duplicate of an earlier attempt's. */
  lemma ReadCovers(cfg: Config, log: seq<Event>, skipped: set<Skip>, ev: Event)
    requires InjectiveCanon(cfg) && LogOk(cfg, log) && ev.Read? && IsId(ev.id)
    requires IdempotencyKey(cfg, ev) in Keys(cfg, log)
    ensures ev.pk in Covered(log, skipped, ev.id)
  {
    var x :| x in log && IdempotencyKey(cfg, x) == IdempotencyKey(cfg, ev);
    var i :| 0 <= i < |log| && log[i] == x;
    KeysIdentifyEvents(cfg, x, ev);
  }

  lemma CompletionLands(cfg: Config, log: seq<Event>, id: string)
    requires InjectiveCanon(cfg) && LogOk(cfg, log) && IsId(id)
    ensures var log' := Appended(cfg, log, SnapshotComplete(id));
            exists i :: 0 <= i < |log'| && log'[i] == SnapshotComplete(id)
  {
    var ev := SnapshotComplete(id);
    if IdempotencyKey(cfg, ev) in Keys(cfg, log) {
      var x :| x in log && IdempotencyKey(cfg, x) == IdempotencyKey(cfg, ev);
      var i :| 0 <= i < |log| && log[i] == x;
      KeysIdentifyEvents(cfg, x, ev);
    } else {
      var log' := Appended(cfg, log, ev);
      assert log' == log + [ev] && log'[|log|] == ev;
    }
  }

  /** One read event per primary key and snapshot, one completion per snapshot. */
  lemma OneEventPerKey(cfg: Config, log: seq<Event>, i: nat, j: nat)
    requires LogOk(cfg, log) && i < |log| && j < |log| && log[i].id == log[j].id
    requires (log[i].Read? && log[j].Read? && log[i].pk == log[j].pk) ||
        (log[i].SnapshotComplete? && log[j].SnapshotComplete?)
    ensures i == j
  {
  }

  // ----- the invariant -----

  ghost predicate SkipsOk(skipped: set<Skip>) {
    forall k :: k in skipped ==> k.wal > k.lsn
  }

  /** No cursor is beyond a row neither read nor skipped, and a completed snapshot has covered
      every row that was there throughout and has announced itself. */
  ghost predicate StateOk(seen: seq<Table>, log: seq<Event>, skipped: set<Skip>, st: Saved) {
    && (st.id == "" ==> st.cursor.None? && st.status != Completed)
    && (st.id != "" ==> IsId(st.id))
    && CoveredUpTo(seen, st.cursor, Covered(log, skipped, st.id))
    && (st.status == Completed ==>
          AllCovered(seen, Covered(log, skipped, st.id)) &&
          exists i :: 0 <= i < |log| && log[i] == SnapshotComplete(st.id))
  }

  lemma StateStays(seen: seq<Table>, log: seq<Event>, log': seq<Event>, skipped: set<Skip>, skipped': set<Skip>,
                   st: Saved)
    requires StateOk(seen, log, skipped, st) && log <= log' && skipped <= skipped'
    ensures StateOk(seen, log', skipped', st)
  {
  }

  // ----- the engine -----

  class Engine {
    const cfg: Config
    var saved: Option<Saved>
    var log: seq<Event>
    /** History: the table versions read under the current snapshot, and the rows skipped. */
    ghost var seen: seq<Table>
    ghost var skipped: set<Skip>

    ghost predicate Valid()
      reads this
    {
      && InjectiveCanon(cfg) && LogOk(cfg, log) && SkipsOk(skipped)
      && (saved.None? ==> seen == [])
      && (saved.Some? ==> StateOk(seen, log, skipped, saved.value))
    }

    constructor (cfg: Config)
      requires InjectiveCanon(cfg)
      ensures Valid() && saved.None? && log == [] && this.cfg == cfg
    {
      this.cfg, saved, log, seen, skipped := cfg, None, [], [], {};
    }

    /** Whatever becomes of a save, a resumed attempt finds a state whose cursor has passed
        nothing uncovered: this one, or the one before. */
    method SaveState(st: Saved, outcome: SaveOutcome) returns (ok: bool)
      requires Valid() && StateOk(seen, log, skipped, st)
      modifies this`saved
      ensures Valid() && (ok <==> outcome == Stored)
      ensures saved == if outcome == Refused then old(saved) else Some(st)
    {
      if outcome != Refused {
        saved := Some(st);
      }
      ok := outcome == Stored;
    }

    /** Appends the buffered events; only the in-memory cursor moves, and only when all of
        them landed. */
    method FlushEventBuf(buf: seq<Event>, st: Saved, left: Option<nat>)
      returns (ok: bool, st': Saved, left': Option<nat>)
      requires InjectiveCanon(cfg) && LogOk(cfg, log) && IsId(st.id) && |buf| <= BUFFER
      requires forall i :: 0 <= i < |buf| ==> buf[i].Read? && buf[i].id == st.id
      modifies this`log
      ensures LogOk(cfg, log) && old(log) <= log
      ensures forall i :: |old(log)| <= i < |log| ==> log[i] in buf
      ensures ok <==> left.Some? ==> |buf| <= left.value
      ensures ok ==> forall i :: 0 <= i < |buf| ==> buf[i].pk in Covered(log, skipped, st.id)
      ensures st' == if ok && buf != [] then st.(cursor := Some(buf[|buf| - 1].pk)) else st
      ensures left' == if ok && left.Some? then Some(left.value - |buf|) else left
    {
      var m := if left.Some? && left.value < |buf| then left.value else |buf|;
      ok, st', left' := m == |buf|, st, left;
      AppendsKeepLog(cfg, log, buf[..m], st.id);
      ghost var was := log;
      log := AppendedAll(cfg, log, buf[..m]);
      if ok {
        assert buf[..m] == buf;
        forall i | 0 <= i < |buf| ensures buf[i].pk in Covered(log, skipped, st.id) {
          AppendsLand(cfg, was, buf, i);
          ReadCovers(cfg, log, skipped, buf[i]);
        }
        if left.Some? {
          left' := Some(left.value - |buf|);
        }
        if buf != [] {
          st' := st.(cursor := Some(buf[|buf| - 1].pk));
        }
      }
    }

    /** The rows of one page, buffered 256 at a time. */
    method EmitPage(page: seq<PK>, turn: Turn, st: Saved) returns (ok: bool, st': Saved)
      requires InjectiveCanon(cfg) && LogOk(cfg, log) && SkipsOk(skipped) && IsId(st.id)
      requires forall i :: 0 <= i < |page| ==> page[i] in turn.table
      modifies this`log, this`skipped
      ensures LogOk(cfg, log) && SkipsOk(skipped) && old(log) <= log && old(skipped) <= skipped
      ensures forall i :: |old(log)| <= i < |log| ==> FromPage(log[i], turn, st)
      ensures forall k :: k in skipped && k !in old(skipped) ==> OnPage(k, turn, st)
      ensures ok ==> forall pk :: pk in page ==> pk in Covered(log, skipped, st.id)
      ensures ok <== turn.budget.None?
      ensures ok ==> st' == if page == [] then st else st.(cursor := Some(page[|page| - 1]))
    {
      st' := st;
      var buf: seq<Event>, left := [], turn.budget;
      for i := 0 to |page|
        invariant LogOk(cfg, log) && SkipsOk(skipped) && old(log) <= log && old(skipped) <= skipped
        invariant forall k :: |old(log)| <= k < |log| ==> FromPage(log[k], turn, st)
        invariant forall k :: 0 <= k < |buf| ==> FromPage(buf[k], turn, st)
        invariant forall k :: k in skipped && k !in old(skipped) ==> OnPage(k, turn, st)
        invariant forall k :: 0 <= k < i ==> page[k] in Covered(log, skipped, st.id) || Buffered(buf, page[k])
        invariant st'.(cursor := st.cursor) == st
        invariant turn.budget.None? ==> left.None?
        invariant |buf| < BUFFER && (i == 0 ==> st' == st && buf == [])
      {
        var pk := page[i];
        ghost var log0, skipped0 := log, skipped;
        if pk in turn.newest && turn.newest[pk] > st.lsn {
          skipped := skipped + {Skip(pk, st.id, st.lsn, turn.newest[pk])};
          assert Skip(pk, st.id, st.lsn, turn.newest[pk]) in skipped;
        } else {
          ghost var buf0 := buf;
          buf := buf + [Read(pk, turn.table[pk], st.id)];
          BufferedGrows(buf0, Read(pk, turn.table[pk], st.id));
          if |buf| >= BUFFER {
            ok, st', left := FlushEventBuf(buf, st', left);
            if !ok {
              return;
            }
            BufferCovered(buf, Covered(log, skipped, st.id));
            buf := [];
          }
        }
        CoveredGrows(log0, log, skipped0, skipped, st.id);
      }
      ghost var log1 := log;
      ok, st', left := FlushEventBuf(buf, st', left);
      if !ok {
        return;
      }
      BufferCovered(buf, Covered(log, skipped, st.id));
      CoveredGrows(log1, log, skipped, skipped, st.id);
      st' := if page == [] then st' else st'.(cursor := Some(page[|page| - 1]));
    }

    /** One page: read, emitted, and the cursor after it saved. `count` is its size. */
    method TakePage(st: Saved, turn: Turn, limit: nat) returns (ok: bool, count: nat, st': Saved)
      requires Valid() && saved.Some? && saved.value.(lsn := st.lsn) == st && st.status == Running && IsId(st.id)
      modifies this
      ensures Valid() && saved.Some? && saved.value.id == st.id && saved.value.status == Running
      ensures saved.value.lsn in {old(saved).value.lsn, st.lsn}
      ensures seen == old(seen) + [turn.table] && old(skipped) <= skipped && old(log) <= log
      ensures forall i :: |old(log)| <= i < |log| ==> FromPage(log[i], turn, st)
      ensures forall k :: k in skipped && k !in old(skipped) ==> OnPage(k, turn, st)
      ensures st' == st.(cursor := st'.cursor) && count <= limit
      ensures ok ==> saved.value.(lsn := st'.lsn) == st' && StateOk(seen, log, skipped, st')
      ensures ok && count < limit ==> AllCovered(seen, Covered(log, skipped, st.id))
      ensures ok && count > 0 ==> |Rest(turn.table, st'.cursor)| + count <= |Rest(turn.table, st.cursor)|
      ensures turn.budget.None? && turn.save == Stored ==> ok
    {
      var page := SelectPage(turn.table, st.cursor, limit);
      count, st' := |page|, st;
      ghost var seen0, log0, skipped0 := seen, log, skipped;
      seen := seen + [turn.table];
      ok, st' := EmitPage(page, turn, st);
      StateStays(seen, log0, log, skipped0, skipped, st);
      if !ok {
        st' := st;
        return;
      }
      CoveredGrows(log0, log, skipped0, skipped, st.id);
      PageKeepsState(seen0, st, log, skipped, turn.table, limit, page);
      ok := SaveState(st', turn.save);
      if |page| < limit {
        LastPageCovers(seen0, st.cursor, Covered(log, skipped, st.id), turn.table, limit, page);
      }
      if page != [] {
        FullPageShrinks(turn.table, st.cursor, limit, page);
      }
    }

    /** The page loop: true when it met a page that was not full. It read `n` pages; what it
        adds comes from them. */
    method SnapshotTable(st: Saved, turns: seq<Turn>) returns (done: bool, st': Saved, n: nat)
      requires Valid() && saved.Some? && saved.value.(lsn := st.lsn) == st && st.status == Running && IsId(st.id)
      modifies this
      ensures Valid() && saved.Some? && saved.value.id == st.id && saved.value.status == Running
      ensures saved.value.lsn in {old(saved).value.lsn, st.lsn}
      ensures n <= |turns| && seen == old(seen) + Tables(turns, n)
      ensures Gathers(old(log), log, old(skipped), skipped, turns, st)
      ensures st' == st.(cursor := st'.cursor)
      ensures done ==> StateOk(seen, log, skipped, st') && AllCovered(seen, Covered(log, skipped, st.id))
      ensures Quiet(turns) && |turns| * MIN_BATCH > |turns[0].table| ==> done
    {
      st', done, n := st, false, 0;
      assert old(seen) + [] == old(seen);
      var optimizer := new BatchOptimizer();
      if turns != [] {
        SubsetSize(Rest(turns[0].table, st.cursor), turns[0].table.Keys);
      }
      while n < |turns|
        invariant n <= |turns| && Valid() && optimizer.Valid() && fresh(optimizer) && !done
        invariant saved.Some? && saved.value.(lsn := st'.lsn) == st' && st' == st.(cursor := st'.cursor)
        invariant saved.value.lsn in {old(saved).value.lsn, st.lsn}
        invariant seen == old(seen) + Tables(turns, n)
        invariant Gathers(old(log), log, old(skipped), skipped, turns, st)
        invariant Quiet(turns) ==> |Rest(turns[0].table, st'.cursor)| + n * MIN_BATCH <= |turns[0].table|
      {
        var limit := optimizer.current;
        var ok, count;
        ghost var log0, skipped0, was := log, skipped, st';
        ok, count, st' := TakePage(st', turns[n], limit);
        PageAdds(turns, n, st, was, old(log), log0, log, old(skipped), skipped0, skipped);
        n := n + 1;
        if !ok {
          return;
        }
        optimizer.Adjust(turns[n - 1].ms);
        if count < limit {
          done := true;
          return;
        }
      }
    }

    /** The state an attempt runs with: the ID is durable before any row is read, the LSN is
        taken on the first start only. */
    method Begin(a: Attempt) returns (ok: bool, st: Saved)
      requires Valid() && IsId(a.nanos) && (saved.Some? ==> saved.value.status != Completed)
      modifies this`saved
      ensures Valid() && (ok <==> a.start == Stored)
      ensures IdOf(old(saved)) != "" ==> IdOf(saved) == IdOf(old(saved))
      ensures saved.Some? ==> saved.value.lsn == if old(saved).Some? then old(saved).value.lsn else 0
      ensures old(saved).Some? ==> saved.Some?
      ensures ok ==> saved.Some? && saved.value.(lsn := st.lsn) == st && st.status == Running && IsId(st.id)
      ensures ok && LsnOf(old(saved)) != 0 ==> st.lsn == LsnOf(old(saved))
      ensures ok && LsnOf(old(saved)) == 0 ==> st.lsn == if a.flushLsn.Some? then a.flushLsn.value else 0
    {
      st := if saved.None? then Saved(Pending, None, "", 0) else saved.value;
      st := st.(status := Running, id := if st.id == "" then a.nanos else st.id);
      ok := SaveState(st, a.start);
      if st.lsn == 0 && a.flushLsn.Some? {
        st := st.(lsn := a.flushLsn.value);
      }
    }

    /** One attempt, from the saved state to wherever it dies. It read `n` pages; what it adds
        comes from them, and completed means that every row in all pages read under this
        snapshot is covered. */
    method RunOne(a: Attempt) returns (done: bool, n: nat)
      requires Valid() && IsId(a.nanos)
      modifies this
      ensures Valid() && (Succeeds(a) ==> done)
      ensures done ==> saved.Some? && saved.value.status == Completed
      ensures done ==> AllCovered(seen, Covered(log, skipped, saved.value.id))
      ensures IdOf(old(saved)) != "" ==> IdOf(saved) == IdOf(old(saved))
      ensures old(saved).Some? && old(saved).value.lsn != 0 ==> saved.Some? && saved.value.lsn == old(saved).value.lsn
      ensures LsnOf(saved) in {LsnOf(old(saved)), AttemptLsn(old(saved), a)}
      ensures n <= |a.turns| && seen == old(seen) + Tables(a.turns, n) && old(skipped) <= skipped && old(log) <= log
      ensures forall i :: |old(log)| <= i < |log| ==>
        log[i].id == IdOf(saved) && Shown(log[i], a.turns, AttemptLsn(old(saved), a))
      ensures forall k :: k in skipped && k !in old(skipped) ==>
        IsId(k.id) && k.id == IdOf(saved) && Superseded(k, a.turns, AttemptLsn(old(saved), a))
    {
      n := 0;
      assert old(seen) + [] == old(seen);
      if saved.Some? && saved.value.status == Completed {
        return true, 0;
      }
      var ok, st := Begin(a);
      if !ok {
        return false, 0;
      }
      ghost var st0 := st;
      done, st, n := SnapshotTable(st, a.turns);
      GatheredIsShown(old(log), log, old(skipped), skipped, a.turns, st0, st);
      if !done || !a.announces {
        return false, n;
      }
      done := Announce(st, a.finish);
    }

    /** The completion event first, the completed status after it. */
    method Announce(st: Saved, finish: SaveOutcome) returns (done: bool)
      requires Valid() && saved.Some? && saved.value.id == st.id && IsId(st.id)
      requires StateOk(seen, log, skipped, st) && AllCovered(seen, Covered(log, skipped, st.id))
      modifies this`saved, this`log
      ensures Valid() && saved.Some? && saved.value.id == st.id && saved.value.lsn in {old(saved).value.lsn, st.lsn}
      ensures log == Appended(cfg, old(log), SnapshotComplete(st.id))
      ensures done ==> saved.value.status == Completed
      ensures done <==> finish == Stored
    {
      ghost var log0 := log;
      AppendKeepsLog(cfg, log, SnapshotComplete(st.id));
      log := Appended(cfg, log, SnapshotComplete(st.id));
      CompletionLands(cfg, log0, st.id);
      StateStays(seen, log0, log, skipped, skipped, saved.value);
      StateStays(seen, log0, log, skipped, skipped, st);
      CoveredGrows(log0, log, skipped, skipped, st.id);
      done := SaveState(st.(status := Completed), finish);
    }

    /** A lost replication slot starts over: first page, new ID, the given LSN. */
    method ResetForSlotLoss(nanos: string, lsn: nat, outcome: SaveOutcome) returns (ok: bool)
      requires Valid() && IsId(nanos)
      modifies this
      ensures Valid() && log == old(log) && (ok <==> outcome == Stored)
      ensures outcome == Refused ==> saved == old(saved) && seen == old(seen)
      ensures outcome != Refused ==> saved == Some(Saved(Pending, None, nanos, lsn)) && seen == []
    {
      ok := SaveState(Saved(Pending, None, nanos, lsn), outcome);
      if outcome != Refused {
        seen := [];
      }
    }

    /** Any number of attempts, each dying anywhere: one snapshot ID for all the events they
        add, each with the content of a row as one of their pages showed it, with no newer WAL event
        than the LSN of the attempt; skips only for rows that one of their pages found superseded
        at that LSN; and once an attempt completes, every row
        that was there on all pages is read into the log or skipped. */
    method RunUntilDone(attempts: seq<Attempt>) returns (done: bool, ghost lsns: seq<nat>)
      requires Valid() && forall n :: 0 <= n < |attempts| ==> IsId(attempts[n].nanos)
      modifies this
      ensures Valid() && old(log) <= log && old(skipped) <= skipped
      ensures IdOf(old(saved)) != "" ==> IdOf(saved) == IdOf(old(saved))
      ensures LsnsOk(LsnOf(old(saved)), attempts, lsns)
      ensures forall i :: |old(log)| <= i < |log| ==> log[i].id == IdOf(saved) && ShownIn(log[i], attempts, lsns)
      ensures forall k :: k in skipped && k !in old(skipped) ==>
        k.id == IdOf(saved) && SupersededIn(k, attempts, lsns)
      ensures done ==> saved.Some? && forall pk :: Stable(old(seen), pk) && Throughout(attempts, pk) ==>
        pk in Covered(log, skipped, saved.value.id)
      ensures done && old(saved).None? ==> forall pk :: Throughout(attempts, pk) ==>
        pk in Covered(log, skipped, saved.value.id)
      ensures done ==> exists i :: 0 <= i < |log| && log[i] == SnapshotComplete(saved.value.id)
      ensures (exists a :: 0 <= a < |attempts| && Succeeds(attempts[a])) ==> done
    {
      lsns := [];
      for n := 0 to |attempts|
        invariant forall a :: 0 <= a < n ==> !Succeeds(attempts[a])
        invariant |lsns| == n && LsnsOk(LsnOf(old(saved)), attempts, lsns)
        invariant LsnOf(saved) == LsnOf(old(saved)) || LsnOf(saved) in lsns
        invariant Valid() && old(log) <= log && old(skipped) <= skipped
        invariant IdOf(old(saved)) != "" ==> IdOf(saved) == IdOf(old(saved))
        invariant Adds(old(log), log, old(skipped), skipped, IdOf(saved), attempts, lsns)
        invariant forall pk :: Stable(old(seen), pk) && Throughout(attempts, pk) ==> Stable(seen, pk)
      {
        ghost var log0, skipped0, id0, seen0, lsn := log, skipped, IdOf(saved), seen, AttemptLsn(saved, attempts[n]);
        var pages;
        done, pages := RunOne(attempts[n]);
        AttemptAdds(old(log), log0, log, old(skipped), skipped0, skipped, id0, IdOf(saved), attempts, lsns, lsn);
        LsnTaken(LsnOf(old(saved)), attempts, lsns, lsn);
        lsns := lsns + [lsn];
        AttemptShows(old(seen), seen0, attempts, n, pages);
        if done {
          return;
        }
      }
      done := false;
    }
  }

  /** A read event of this snapshot with the row's content, for a row nothing supersedes. */
  predicate FromPage(ev: Event, turn: Turn, st: Saved) {
    && ev.Read? && ev.id == st.id && ev.pk in turn.table && ev.row == turn.table[ev.pk]
    && (ev.pk in turn.newest ==> turn.newest[ev.pk] <= st.lsn)
  }

  /** A skip the watermark asked for, at the snapshot's LSN. */
  predicate OnPage(k: Skip, turn: Turn, st: Saved) {
    k.id == st.id && k.lsn == st.lsn && SkippedOn(k, turn)
  }

  predicate SkippedOn(k: Skip, turn: Turn) {
    k.pk in turn.table && k.pk in turn.newest && k.wal == turn.newest[k.pk] && k.wal > k.lsn
  }

  /** The table versions that the first `n` pages read. */
  function Tables(turns: seq<Turn>, n: nat): (tables: seq<Table>)
    requires n <= |turns|
  {
    if n == 0 then [] else Tables(turns, n - 1) + [turns[n - 1].table]
  }

  ghost predicate FromPages(ev: Event, turns: seq<Turn>, st: Saved) {
    exists n :: 0 <= n < |turns| && FromPage(ev, turns[n], st)
  }

  ghost predicate OnPages(k: Skip, turns: seq<Turn>, st: Saved) {
    exists n :: 0 <= n < |turns| && OnPage(k, turns[n], st)
  }

  /** Every event added is of some page, and so is every skip. */
  ghost predicate Gathers(log: seq<Event>, log': seq<Event>, skipped: set<Skip>, skipped': set<Skip>,
                          turns: seq<Turn>, st: Saved) {
    && log <= log' && skipped <= skipped'
    && (forall i :: |log| <= i < |log'| ==> FromPages(log'[i], turns, st))
    && (forall k :: k in skipped' && k !in skipped ==> OnPages(k, turns, st))
  }

  lemma PageAdds(turns: seq<Turn>, n: nat, st: Saved, st': Saved, log: seq<Event>, log0: seq<Event>, log1: seq<Event>,
                 skipped: set<Skip>, skipped0: set<Skip>, skipped1: set<Skip>)
    requires n < |turns| && st' == st.(cursor := st'.cursor) && log0 <= log1 && skipped0 <= skipped1
    requires Gathers(log, log0, skipped, skipped0, turns, st)
    requires forall i :: |log0| <= i < |log1| ==> FromPage(log1[i], turns[n], st')
    requires forall k :: k in skipped1 && k !in skipped0 ==> OnPage(k, turns[n], st')
    ensures Gathers(log, log1, skipped, skipped1, turns, st)
  {
    assert log1[..|log|] == log0[..|log|] == log;
    forall i | |log| <= i < |log1| ensures FromPages(log1[i], turns, st) {
      if i < |log0| {
        assert log1[i] == log0[i];
      } else {
        assert FromPage(log1[i], turns[n], st);
      }
    }
    forall k | k in skipped1 && k !in skipped ensures OnPages(k, turns, st) {
      if k !in skipped0 {
        assert OnPage(k, turns[n], st);
      }
    }
  }

  ghost predicate Buffered(buf: seq<Event>, pk: PK) {
    exists k :: 0 <= k < |buf| && buf[k].Read? && buf[k].pk == pk
  }

  lemma BufferedGrows(buf: seq<Event>, ev: Event)
    requires ev.Read?
    ensures Buffered(buf + [ev], ev.pk) && forall pk :: Buffered(buf, pk) ==> Buffered(buf + [ev], pk)
  {
    assert (buf + [ev])[|buf|] == ev;
    forall pk | Buffered(buf, pk) ensures Buffered(buf + [ev], pk) {
      var k :| 0 <= k < |buf| && buf[k].Read? && buf[k].pk == pk;
      assert (buf + [ev])[k] == buf[k];
    }
  }

  lemma BufferCovered(buf: seq<Event>, covered: set<PK>)
    requires forall i :: 0 <= i < |buf| && buf[i].Read? ==> buf[i].pk in covered
    ensures forall pk :: Buffered(buf, pk) ==> pk in covered
  {
  }

  lemma PageKeepsState(seen: seq<Table>, st: Saved, log: seq<Event>, skipped: set<Skip>, table: Table, limit: nat,
                       page: seq<PK>)
    requires StateOk(seen + [table], log, skipped, st) && CoveredUpTo(seen, st.cursor, Covered(log, skipped, st.id))
    requires st.status == Running && IsId(st.id)
    requires IsPage(table, st.cursor, limit, page) && forall pk :: pk in page ==> pk in Covered(log, skipped, st.id)
    ensures StateOk(seen + [table], log, skipped, if page == [] then st else st.(cursor := Some(page[|page| - 1])))
  {
  }

  /** An attempt that meets no failure, with turns enough for its table. */
  ghost predicate Succeeds(a: Attempt) {
    && a.start == Stored && a.announces && a.finish == Stored
    && Quiet(a.turns) && |a.turns| * MIN_BATCH > |a.turns[0].table|
  }

  /** Nothing fails and the table stands still. */
  ghost predicate Quiet(turns: seq<Turn>) {
    turns != [] && forall n :: 0 <= n < |turns| ==>
      turns[n].budget.None? && turns[n].save == Stored && turns[n].table == turns[0].table
  }

  // ----- what attempts add -----

  /** A read event shows a row as one of the pages had it, with no WAL event above `lsn`. */
  ghost predicate Shown(ev: Event, turns: seq<Turn>, lsn: nat) {
    ev.Read? ==> exists n :: 0 <= n < |turns| && ev.pk in turns[n].table && ev.row == turns[n].table[ev.pk]
                             && (ev.pk in turns[n].newest ==> turns[n].newest[ev.pk] <= lsn)
  }

  ghost predicate Superseded(k: Skip, turns: seq<Turn>, lsn: nat) {
    k.lsn == lsn && exists n :: 0 <= n < |turns| && SkippedOn(k, turns[n])
  }

  lemma GatheredIsShown(log: seq<Event>, log': seq<Event>, skipped: set<Skip>, skipped': set<Skip>,
                        turns: seq<Turn>, st: Saved, st': Saved)
    requires Gathers(log, log', skipped, skipped', turns, st) && st' == st.(cursor := st'.cursor)
    ensures forall i :: |log| <= i < |log'| ==> log'[i].id == st'.id && Shown(log'[i], turns, st'.lsn)
    ensures forall k :: k in skipped' && k !in skipped ==> k.id == st'.id && Superseded(k, turns, st'.lsn)
  {
  }

  /** Of the attempt made with LSN `lsns[a]`, for some `a`. */
  ghost predicate ShownIn(ev: Event, attempts: seq<Attempt>, lsns: seq<nat>) {
    exists a :: 0 <= a < |attempts| && a < |lsns| && Shown(ev, attempts[a].turns, lsns[a])
  }

  ghost predicate SupersededIn(k: Skip, attempts: seq<Attempt>, lsns: seq<nat>) {
    exists a :: 0 <= a < |attempts| && a < |lsns| && Superseded(k, attempts[a].turns, lsns[a])
  }

  /** The LSNs attempts run with: the one saved at first, if any; else each attempt's own flush LSN,
      or the one an earlier attempt took and saved. */
  ghost predicate LsnsOk(saved: nat, attempts: seq<Attempt>, lsns: seq<nat>) {
    && |lsns| <= |attempts|
    && forall a :: 0 <= a < |lsns| ==>
         if saved != 0 then lsns[a] == saved else lsns[a] == FlushOf(attempts[a]) || lsns[a] in lsns[..a]
  }

  lemma LsnTaken(saved: nat, attempts: seq<Attempt>, lsns: seq<nat>, lsn: nat)
    requires LsnsOk(saved, attempts, lsns) && |lsns| < |attempts|
    requires if saved != 0 then lsn == saved else lsn == FlushOf(attempts[|lsns|]) || lsn in lsns
    ensures LsnsOk(saved, attempts, lsns + [lsn])
  {
    var more := lsns + [lsn];
    forall a | 0 <= a < |more|
      ensures if saved != 0 then more[a] == saved else more[a] == FlushOf(attempts[a]) || more[a] in more[..a]
    {
      assert more[..a] == lsns[..a];
      assert lsns[..|lsns|] == lsns;
    }
  }

  /** In the table on every page of every attempt. */
  ghost predicate Throughout(attempts: seq<Attempt>, pk: PK) {
    forall a, n :: 0 <= a < |attempts| && 0 <= n < |attempts[a].turns| ==> pk in attempts[a].turns[n].table
  }

  ghost predicate Adds(log: seq<Event>, log': seq<Event>, skipped: set<Skip>, skipped': set<Skip>, id: string,
                       attempts: seq<Attempt>, lsns: seq<nat>) {
    && (forall i :: |log| <= i < |log'| ==> IsId(log'[i].id) && log'[i].id == id && ShownIn(log'[i], attempts, lsns))
    && (forall k :: k in skipped' && k !in skipped ==> IsId(k.id) && k.id == id && SupersededIn(k, attempts, lsns))
  }

  lemma AttemptAdds(log: seq<Event>, log0: seq<Event>, log1: seq<Event>, skipped: set<Skip>, skipped0: set<Skip>,
                    skipped1: set<Skip>, id0: string, id1: string, attempts: seq<Attempt>, lsns: seq<nat>, lsn: nat)
    requires |lsns| < |attempts| && Adds(log, log0, skipped, skipped0, id0, attempts, lsns) && log0 <= log1
    requires id0 != "" ==> id1 == id0
    requires forall i :: |log0| <= i < |log1| ==>
      IsId(log1[i].id) && log1[i].id == id1 && Shown(log1[i], attempts[|lsns|].turns, lsn)
    requires forall k :: k in skipped1 && k !in skipped0 ==>
      IsId(k.id) && k.id == id1 && Superseded(k, attempts[|lsns|].turns, lsn)
    ensures Adds(log, log1, skipped, skipped1, id1, attempts, lsns + [lsn])
  {
    var a, more := |lsns|, lsns + [lsn];
    assert more[a] == lsn && forall x :: 0 <= x < a ==> more[x] == lsns[x];
    forall i | |log| <= i < |log1|
      ensures IsId(log1[i].id) && log1[i].id == id1 && ShownIn(log1[i], attempts, more)
    {
      if i < |log0| {
        assert log1[i] == log0[i] && ShownIn(log0[i], attempts, lsns);
        var x :| 0 <= x < |attempts| && x < |lsns| && Shown(log0[i], attempts[x].turns, lsns[x]);
        assert Shown(log1[i], attempts[x].turns, more[x]);
      } else {
        assert Shown(log1[i], attempts[a].turns, more[a]);
      }
    }
    forall k | k in skipped1 && k !in skipped
      ensures IsId(k.id) && k.id == id1 && SupersededIn(k, attempts, more)
    {
      if k in skipped0 {
        var x :| 0 <= x < |attempts| && x < |lsns| && Superseded(k, attempts[x].turns, lsns[x]);
        assert Superseded(k, attempts[x].turns, more[x]);
      } else {
        assert Superseded(k, attempts[a].turns, more[a]);
      }
    }
  }

  lemma {:induction false} TablesShow(turns: seq<Turn>, n: nat, pk: PK)
    requires n <= |turns| && forall j :: 0 <= j < n ==> pk in turns[j].table
    ensures Stable(Tables(turns, n), pk)
  {
    if n > 0 {
      TablesShow(turns, n - 1, pk);
    }
  }

  lemma AttemptShows(seen: seq<Table>, seen0: seq<Table>, attempts: seq<Attempt>, a: nat, n: nat)
    requires a < |attempts| && n <= |attempts[a].turns|
    requires forall pk :: Stable(seen, pk) && Throughout(attempts, pk) ==> Stable(seen0, pk)
    ensures forall pk :: Stable(seen, pk) && Throughout(attempts, pk) ==>
      Stable(seen0 + Tables(attempts[a].turns, n), pk)
  {
    forall pk | Stable(seen, pk) && Throughout(attempts, pk)
      ensures Stable(seen0 + Tables(attempts[a].turns, n), pk)
    {
      TablesShow(attempts[a].turns, n, pk);
    }
  }
}
