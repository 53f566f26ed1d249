/** The backfill watermark (internal/backfill/watermark.go): is a snapshot row superseded by a
    log event with a higher LSN? Answered by a paged scan, or by an index that is built while
    appends keep arriving. */
module Watermark {
  import opened Common

  /** A log event; `lsn` is None when its metadata holds no parsable LSN. */
  datatype Change = Change(table: string, key: Key, lsn: Option<nat>)

  datatype Row = Row(sn: nat, ev: Change)

  type Rows = seq<Row>
  type Parts = seq<Rows>

  predicate Sorted(rows: Rows) {
    forall i, j :: 0 <= i < j < |rows| ==> rows[i].sn < rows[j].sn
  }

  predicate Relevant(ev: Change, table: string, snapshot: nat) {
    ev.table == table && ev.lsn.Some? && ev.lsn.value > snapshot
  }

  predicate Supersedes(ev: Change, table: string, key: Key, snapshot: nat) {
    Relevant(ev, table, snapshot) && ev.key == key
  }

  /** The full scan: some partition holds a superseding event. */
  ghost predicate Superseded(parts: Parts, table: string, key: Key, snapshot: nat) {
    exists p, i :: 0 <= p < |parts| && 0 <= i < |parts[p]| && Supersedes(parts[p][i].ev, table, key, snapshot)
  }

  // ----- pages -----

  function Skip(rows: Rows, from: nat): (n: nat)
    ensures n <= |rows|
    ensures forall i :: 0 <= i < n ==> rows[i].sn < from
    ensures n < |rows| ==> rows[n].sn >= from
  {
    if rows == [] || rows[0].sn >= from then 0 else 1 + Skip(rows[1..], from)
  }

  /** ReadPartition: the first `size` rows from `from` on. */
  function Page(rows: Rows, from: nat, size: nat): (page: Rows)
    ensures |page| <= size
  {
    var n := Skip(rows, from);
    if n + size < |rows| then rows[n..n + size] else rows[n..]
  }

  /** A row at or after `from` is on the page, or the page is full and ends before it. */
  lemma PageCovers(rows: Rows, from: nat, size: nat, i: nat)
    requires Sorted(rows) && i < |rows| && rows[i].sn >= from
    ensures rows[i] in Page(rows, from, size) ||
            (|Page(rows, from, size)| == size && (size > 0 ==> Page(rows, from, size)[size - 1].sn < rows[i].sn))
  {
  }

  // ----- the paged scan -----

  ghost predicate Keyed(parts: Parts, part: Key -> nat) {
    forall p, i :: 0 <= p < |parts| && 0 <= i < |parts[p]| ==> part(parts[p][i].ev.key) == p
  }

  /** The log's contents at successive reads: partitions only grow at the end. */
  ghost predicate Growing(versions: seq<Parts>) {
    && (forall v, p :: 0 <= v < |versions| && 0 <= p < |versions[v]| ==> Sorted(versions[v][p]))
    && (forall v, p :: 0 <= v < |versions| && 0 <= p < |versions[0]| ==>
        p < |versions[v]| && versions[0][p] <= versions[v][p])
  }

  /** Pages through the key's own partition while other appends go on; `versions[n]` is what
      the n-th read sees, and the scan is cut short when they run out. True means no partition
      held a superseding event when the scan began, false means one is in the log. */
  method ShouldEmitScan(versions: seq<Parts>, table: string, key: Key, snapshot: nat, size: nat, part: Key -> nat)
    returns (emit: Option<bool>)
    requires size > 0 && Growing(versions) && (forall v :: 0 <= v < |versions| ==> Keyed(versions[v], part))
    requires versions != [] ==> part(key) < |versions[0]|
    ensures emit == Some(true) ==> versions != [] && !Superseded(versions[0], table, key, snapshot)
    ensures emit == Some(false) ==> exists v :: 0 <= v < |versions| && Superseded(versions[v], table, key, snapshot)
    ensures emit.None? ==> forall v :: 0 <= v < |versions| ==>
        part(key) < |versions[v]| && |versions[v][part(key)]| >= size
  {
    var p: nat, from: nat := part(key), 0;
    for v := 0 to |versions|
      invariant v > 0 ==> forall i :: 0 <= i < |versions[0][p]| && versions[0][p][i].sn < from ==>
        !Supersedes(versions[0][p][i].ev, table, key, snapshot)
      invariant v == 0 ==> from == 0
      invariant forall u :: 0 <= u < v ==> p < |versions[u]| && |versions[u][p]| >= size
    {
      var rows := versions[v][p];
      var page := Page(rows, from, size);
      var hit := ScanPage(page, table, key, snapshot);
      if hit {
        return Some(false);
      }
      ScannedUpTo(versions[0][p], rows, from, size, table, key, snapshot);
      if |page| < size {
        return Some(true);
      }
      from := page[size - 1].sn + 1;
    }
    emit := None;
  }

  method ScanPage(page: Rows, table: string, key: Key, snapshot: nat) returns (hit: bool)
    ensures hit <==> exists i :: 0 <= i < |page| && Supersedes(page[i].ev, table, key, snapshot)
  {
    for i := 0 to |page|
      invariant forall j :: 0 <= j < i ==> !Supersedes(page[j].ev, table, key, snapshot)
    {
      if Supersedes(page[i].ev, table, key, snapshot) {
        return true;
      }
    }
    hit := false;
  }

  lemma ScannedUpTo(first: Rows, rows: Rows, from: nat, size: nat, table: string, key: Key, snapshot: nat)
    requires size > 0 && first <= rows && Sorted(rows)
    requires forall i :: 0 <= i < |first| && first[i].sn < from ==> !Supersedes(first[i].ev, table, key, snapshot)
    requires forall i :: 0 <= i < |Page(rows, from, size)| ==>
        !Supersedes(Page(rows, from, size)[i].ev, table, key, snapshot)
    ensures var page := Page(rows, from, size);
            forall i :: 0 <= i < |first| && (|page| < size || first[i].sn <= page[size - 1].sn) ==>
              !Supersedes(first[i].ev, table, key, snapshot)
  {
    var page := Page(rows, from, size);
    forall i | 0 <= i < |first| && (|page| < size || first[i].sn <= page[size - 1].sn)
      ensures !Supersedes(first[i].ev, table, key, snapshot)
    {
      assert rows[i] == first[i];
      if first[i].sn >= from {
        PageCovers(rows, from, size, i);
        assert rows[i] in page;
      }
    }
  }

  // ----- the index -----

  /** The index of one table: per key the highest LSN above `snapshot`, given up once it
      would exceed its cap. */
  datatype Index = Index(snapshot: nat, keys: map<Key, nat>, overCap: bool)

  function Empty(snapshot: nat): (ix: Index) { Index(snapshot, map[], false) }

  function Merge(ix: Index, cap: nat, table: string, ev: Change): (ix': Index)
    ensures ix'.snapshot == ix.snapshot
  {
    if ix.overCap || !Relevant(ev, table, ix.snapshot) then ix
    else if ev.key in ix.keys then
      if ev.lsn.value > ix.keys[ev.key] then ix.(keys := ix.keys[ev.key := ev.lsn.value]) else ix
    else if |ix.keys| >= cap then Index(ix.snapshot, map[], true)
    else ix.(keys := ix.keys[ev.key := ev.lsn.value])
  }

  function MergeAll(ix: Index, cap: nat, table: string, evs: seq<Change>): (ix': Index)
    ensures ix'.snapshot == ix.snapshot
  {
    if evs == [] then ix else Merge(MergeAll(ix, cap, table, evs[..|evs| - 1]), cap, table, evs[|evs| - 1])
  }

  function RelevantKeys(evs: set<Change>, table: string, snapshot: nat): (ks: set<Key>) {
    set ev | ev in evs && Relevant(ev, table, snapshot) :: ev.key
  }

  /** `m` is the highest LSN above `snapshot` that `evs` has for `k`. */
  ghost predicate IsHighest(m: nat, k: Key, table: string, snapshot: nat, evs: set<Change>) {
    && m > snapshot && Change(table, k, Some(m)) in evs
    && forall ev :: ev in evs && Supersedes(ev, table, k, snapshot) ==> ev.lsn.value <= m
  }

  ghost predicate AllHighest(keys: map<Key, nat>, table: string, snapshot: nat, evs: set<Change>) {
    forall k :: k in keys ==> IsHighest(keys[k], k, table, snapshot, evs)
  }

  /** The keys an index of relevant keys `ks` holds, and when it gave up. */
  ghost predicate Holds(ix: Index, cap: nat, ks: set<Key>) {
    && (ix.overCap <==> |ks| > cap)
    && ix.keys.Keys == if ix.overCap then {} else ks
  }

  /** What an index of the events `evs` must be, whatever the order they came in. */
  ghost predicate IsIndexOf(ix: Index, cap: nat, table: string, evs: set<Change>) {
    Holds(ix, cap, RelevantKeys(evs, table, ix.snapshot)) && AllHighest(ix.keys, table, ix.snapshot, evs)
  }

  lemma MergeHolds(ix: Index, cap: nat, table: string, ks: set<Key>, ev: Change)
    requires Holds(ix, cap, ks) && Relevant(ev, table, ix.snapshot)
    ensures Holds(Merge(ix, cap, table, ev), cap, ks + {ev.key})
  {
    assert |ix.keys| == |ix.keys.Keys|;
    if ev.key in ks {
      assert ks + {ev.key} == ks;
    } else {
      assert |ks + {ev.key}| == |ks| + 1;
    }
  }

  lemma MergeIrrelevant(ix: Index, cap: nat, table: string, evs: set<Change>, ev: Change)
    requires IsIndexOf(ix, cap, table, evs) && !Relevant(ev, table, ix.snapshot)
    ensures IsIndexOf(ix, cap, table, evs + {ev})
  {
    assert RelevantKeys(evs + {ev}, table, ix.snapshot) == RelevantKeys(evs, table, ix.snapshot);
  }

  lemma KeysGrow(table: string, snapshot: nat, evs: set<Change>, ev: Change)
    requires Relevant(ev, table, snapshot)
    ensures RelevantKeys(evs + {ev}, table, snapshot) == RelevantKeys(evs, table, snapshot) + {ev.key}
  {
  }

  lemma MergeHighest(ix: Index, cap: nat, table: string, evs: set<Change>, ev: Change)
    requires AllHighest(ix.keys, table, ix.snapshot, evs) && Relevant(ev, table, ix.snapshot)
    requires ix.overCap || ix.keys.Keys == RelevantKeys(evs, table, ix.snapshot)
    requires ix.overCap ==> ix.keys == map[]
    ensures AllHighest(Merge(ix, cap, table, ev).keys, table, ix.snapshot, evs + {ev})
  {
  }

  lemma MergeIndexes(ix: Index, cap: nat, table: string, evs: set<Change>, ev: Change)
    requires IsIndexOf(ix, cap, table, evs)
    ensures IsIndexOf(Merge(ix, cap, table, ev), cap, table, evs + {ev})
  {
    var ks := RelevantKeys(evs, table, ix.snapshot);
    if Relevant(ev, table, ix.snapshot) {
      KeysGrow(table, ix.snapshot, evs, ev);
      MergeHolds(ix, cap, table, ks, ev);
      MergeHighest(ix, cap, table, evs, ev);
    } else {
      MergeIrrelevant(ix, cap, table, evs, ev);
    }
  }

  lemma {:induction false} MergeAllIndexes(cap: nat, table: string, snapshot: nat, evs: seq<Change>)
    ensures IsIndexOf(MergeAll(Empty(snapshot), cap, table, evs), cap, table, set ev | ev in evs)
  {
    if evs == [] {
      assert RelevantKeys({}, table, snapshot) == {};
      assert (set ev | ev in evs) == {};
    } else {
      var init, last := evs[..|evs| - 1], evs[|evs| - 1];
      MergeAllIndexes(cap, table, snapshot, init);
      MergeIndexes(MergeAll(Empty(snapshot), cap, table, init), cap, table, (set ev | ev in init), last);
      assert evs == init + [last];
      assert (set ev | ev in evs) == (set ev | ev in init) + {last};
    }
  }

  /** Merge order and double merging do not matter: two feeds of the same events build the
      same index, and give up on the same cap. */
  lemma MergeOrderDoesNotMatter(cap: nat, table: string, snapshot: nat, a: seq<Change>, b: seq<Change>)
    requires (set ev | ev in a) == (set ev | ev in b)
    ensures MergeAll(Empty(snapshot), cap, table, a) == MergeAll(Empty(snapshot), cap, table, b)
  {
    MergeAllIndexes(cap, table, snapshot, a);
    MergeAllIndexes(cap, table, snapshot, b);
    IndexIsUnique(MergeAll(Empty(snapshot), cap, table, a), MergeAll(Empty(snapshot), cap, table, b), cap, table,
                  set ev | ev in a);
  }

  lemma IndexIsUnique(x: Index, y: Index, cap: nat, table: string, evs: set<Change>)
    requires IsIndexOf(x, cap, table, evs) && IsIndexOf(y, cap, table, evs) && x.snapshot == y.snapshot
    ensures x == y
  {
    forall k | k in x.keys && k in y.keys ensures x.keys[k] == y.keys[k] {
      assert IsHighest(x.keys[k], k, table, x.snapshot, evs) && IsHighest(y.keys[k], k, table, x.snapshot, evs);
      HighestIsUnique(x.keys[k], y.keys[k], k, table, x.snapshot, evs);
    }
    assert x.keys.Keys == y.keys.Keys;
  }

  lemma HighestIsUnique(m: nat, n: nat, k: Key, table: string, snapshot: nat, evs: set<Change>)
    requires IsHighest(m, k, table, snapshot, evs) && IsHighest(n, k, table, snapshot, evs)
    ensures m == n
  {
    assert Supersedes(Change(table, k, Some(m)), table, k, snapshot);
    assert Supersedes(Change(table, k, Some(n)), table, k, snapshot);
  }

  /** The checker's tables, updated in place by the observer and by the build. */
  class WatermarkChecker {
    var tables: map<string, Index>
    var cap: nat

    constructor (cap: nat)
      ensures tables == map[] && this.cap == cap
    {
      tables, this.cap := map[], cap;
    }

    method Register(table: string, snapshot: nat)
      modifies this`tables
      ensures tables == old(tables)[table := Empty(snapshot)]
    {
      tables := tables[table := Empty(snapshot)];
    }

    /** Every event goes to the index of its own table and to no other. */
    method ObserveAppend(evs: seq<Change>)
      modifies this`tables
      ensures tables.Keys == old(tables.Keys)
      ensures forall t :: t in tables ==> tables[t] == MergeAll(old(tables)[t], cap, t, evs)
    {
      for i := 0 to |evs|
        invariant tables.Keys == old(tables.Keys)
        invariant forall t :: t in tables ==> tables[t] == MergeAll(old(tables)[t], cap, t, evs[..i])
      {
        assert evs[..i + 1][..i] == evs[..i];
        var ev := evs[i];
        if ev.table in tables && !tables[ev.table].overCap {
          tables := tables[ev.table := Merge(tables[ev.table], cap, ev.table, ev)];
        }
      }
      assert evs[..|evs|] == evs;
    }

    /** A page read from the log, merged under the lock. */
    method MergeEntries(table: string, page: Rows)
      modifies this`tables
      ensures table !in old(tables) ==> tables == old(tables)
      ensures table in old(tables) ==>
        tables == old(tables)[table := MergeAll(old(tables)[table], cap, table, Changes(page))]
    {
      if table !in tables {
        return;
      }
      var ix := tables[table];
      for i := 0 to |page|
        invariant ix == MergeAll(old(tables)[table], cap, table, Changes(page[..i]))
      {
        assert Changes(page[..i + 1]) == Changes(page[..i]) + [page[i].ev];
        ix := Merge(ix, cap, table, page[i].ev);
      }
      assert page[..|page|] == page;
      tables := tables[table := ix];
    }
  }

  function Changes(rows: Rows): (evs: seq<Change>)
    ensures |evs| == |rows|
  {
    seq(|rows|, i requires 0 <= i < |rows| => rows[i].ev)
  }
}
