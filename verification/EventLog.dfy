/** The durable, deduplicated, partitioned log (internal/eventlog/badger.go) as a
    transactional key-value store plus one sequence counter per partition. */
module EventLog {
  import opened LogKeys

  datatype Event = Event(idem: Bytes, key: Bytes, body: Bytes)

  datatype Stored = Whole(ev: Event) | Location(partition: nat, sn: nat)

  /** The two hash functions, as given functions. */
  datatype Hashes = Hashes(fnv: Bytes -> nat, sha: Bytes -> Bytes)

  /** `next[p]` is the sequence number partition `p` hands out next. */
  datatype Log = Log(kv: map<Bytes, Stored>, next: seq<nat>)

  function PartitionOf(h: Hashes, key: Bytes, n: nat): (p: nat)
    requires n > 0
    ensures p < n && exists q :: h.fnv(key) == n * q + p
  {
    assert h.fnv(key) == n * (h.fnv(key) / n) + h.fnv(key) % n;
    h.fnv(key) % n
  }

  /** An event prepared outside the transaction. */
  datatype Item = Item(ev: Event, partition: nat, dedup: Bytes, sn: nat)

  // ----- one transaction step -----

  /** Writes both entries of an item unless its idempotency key is already indexed; the
      result is the item's sequence number, or 0 for a duplicate. */
  function Written(kv: map<Bytes, Stored>, it: Item): (r: (map<Bytes, Stored>, nat)) {
    if it.dedup in kv then (kv, 0)
    else (kv[PartKey(it.partition, it.sn) := Whole(it.ev)][it.dedup := Location(it.partition, it.sn)], it.sn)
  }

  function WrittenAll(kv: map<Bytes, Stored>, items: seq<Item>): (r: (map<Bytes, Stored>, seq<nat>))
    ensures |r.1| == |items|
  {
    if items == [] then (kv, [])
    else
      var before := WrittenAll(kv, items[..|items| - 1]);
      var last := Written(before.0, items[|items| - 1]);
      (last.0, before.1 + [last.1])
  }

  function Prepared(h: Hashes, next: seq<nat>, ev: Event): (it: Item)
    requires next != []
    ensures it.partition < |next|
  {
    var p := PartitionOf(h, ev.key, |next|);
    Item(ev, p, DedupKey(ev.idem, h.sha), next[p])
  }

  /** Phase 1: sequence numbers for a whole batch. */
  function PreparedAll(h: Hashes, next: seq<nat>, evs: seq<Event>): (r: (seq<Item>, seq<nat>))
    requires next != []
    ensures |r.0| == |evs| && |r.1| == |next|
  {
    if evs == [] then ([], next)
    else
      var before := PreparedAll(h, next, evs[..|evs| - 1]);
      var it := Prepared(h, before.1, evs[|evs| - 1]);
      (before.0 + [it], before.1[it.partition := it.sn + 1])
  }

  // ----- appending one by one -----

  function Appended(h: Hashes, log: Log, ev: Event): (r: (Log, nat))
    requires log.next != []
    ensures |r.0.next| == |log.next|
  {
    var it := Prepared(h, log.next, ev);
    var w := Written(log.kv, it);
    (Log(w.0, log.next[it.partition := it.sn + 1]), w.1)
  }

  function AppendedAll(h: Hashes, log: Log, evs: seq<Event>): (r: (Log, seq<nat>))
    requires log.next != []
    ensures |r.0.next| == |log.next| && |r.1| == |evs|
  {
    if evs == [] then (log, [])
    else
      var before := AppendedAll(h, log, evs[..|evs| - 1]);
      var last := Appended(h, before.0, evs[|evs| - 1]);
      (last.0, before.1 + [last.1])
  }

  /** Allocating every sequence number first and writing afterwards is the same as appending
      one by one, duplicates inside the batch included. */
  lemma {:induction false} BatchIsSequential(h: Hashes, log: Log, evs: seq<Event>)
    requires log.next != []
    ensures var (items, next) := PreparedAll(h, log.next, evs);
            var (kv, sns) := WrittenAll(log.kv, items);
            AppendedAll(h, log, evs) == (Log(kv, next), sns)
  {
    if evs != [] {
      var init := evs[..|evs| - 1];
      BatchIsSequential(h, log, init);
      var items := PreparedAll(h, log.next, evs).0;
      assert items[..|items| - 1] == PreparedAll(h, log.next, init).0;
    }
  }

  lemma {:induction false} PreparedPrefix(h: Hashes, next: seq<nat>, evs: seq<Event>, m: nat)
    requires next != [] && m <= |evs|
    ensures PreparedAll(h, next, evs).0[..m] == PreparedAll(h, next, evs[..m]).0
    decreases |evs| - m
  {
    if m < |evs| {
      PreparedPrefix(h, next, evs, m + 1);
      assert evs[..m + 1][..m] == evs[..m];
      assert PreparedAll(h, next, evs).0[..m] == PreparedAll(h, next, evs).0[..m + 1][..m];
    } else {
      assert evs[..m] == evs;
    }
  }

  /** After writing only the first `m` items the store is that of appending the first `m` events. */
  lemma PrefixIsSequential(h: Hashes, log: Log, evs: seq<Event>, m: nat)
    requires log.next != [] && m <= |evs|
    ensures WrittenAll(log.kv, PreparedAll(h, log.next, evs).0[..m]).0 == AppendedAll(h, log, evs[..m]).0.kv
  {
    PreparedPrefix(h, log.next, evs, m);
    BatchIsSequential(h, log, evs[..m]);
  }

  lemma {:induction false} WrittenSplits(kv: map<Bytes, Stored>, a: seq<Item>, b: seq<Item>)
    ensures var (k1, s1) := WrittenAll(kv, a);
            var (k2, s2) := WrittenAll(k1, b);
            WrittenAll(kv, a + b) == (k2, s1 + s2)
  {
    if b == [] {
      assert a + b == a && WrittenAll(kv, a).1 + [] == WrittenAll(kv, a).1;
    } else {
      var init := b[..|b| - 1];
      WrittenSplits(kv, a, init);
      assert (a + b)[..|a + b| - 1] == a + init && (a + b)[|a + b| - 1] == b[|b| - 1];
      var k1 := WrittenAll(kv, a);
      var last := Written(WrittenAll(k1.0, init).0, b[|b| - 1]);
      assert k1.1 + WrittenAll(k1.0, init).1 + [last.1] == k1.1 + (WrittenAll(k1.0, init).1 + [last.1]);
    }
  }

  // ----- chunking -----

  /** [start, end) of the prepared items. */
  lemma NextChunk(kv: map<Bytes, Stored>, items: seq<Item>, start: nat, end: nat)
    requires start <= end <= |items|
    ensures var (k1, s1) := WrittenAll(kv, items[..start]);
            var (k2, s2) := WrittenAll(k1, items[start..end]);
            WrittenAll(kv, items[..end]) == (k2, s1 + s2)
  {
    WrittenSplits(kv, items[..start], items[start..end]);
    assert items[..start] + items[start..end] == items[..end];
  }

  datatype Chunk = Chunk(start: nat, end: nat)

  function ItemSize(it: Item): (n: nat) {
    |it.ev.body| + |it.dedup| + 14 + 12
  }

  /** The size of items `start` to `end`. */
  function TotalSize(items: seq<Item>, start: nat, end: nat): (n: nat)
    requires start <= end <= |items|
  {
    if start == end then 0 else TotalSize(items, start, end - 1) + ItemSize(items[end - 1])
  }

  /** Consecutive non-empty chunks from 0 to `n`. */
  ghost predicate Tiles(chunks: seq<Chunk>, n: nat) {
    && (forall i :: 0 <= i < |chunks| ==> chunks[i].start < chunks[i].end)
    && (forall i :: 0 < i < |chunks| ==> chunks[i].start == chunks[i - 1].end)
    && (if chunks == [] then n == 0 else chunks[0].start == 0 && chunks[|chunks| - 1].end == n)
  }

  /** A chunk respects both budgets unless it is a single oversized item. */
  ghost predicate Fitting(items: seq<Item>, c: Chunk, maxSize: nat, maxCount: nat) {
    c.start < c.end <= |items| &&
    (c.end == c.start + 1 || (TotalSize(items, c.start, c.end) <= maxSize && 2 * (c.end - c.start) <= maxCount))
  }

  /** One more item would not fit. */
  ghost predicate Full(items: seq<Item>, c: Chunk, maxSize: nat, maxCount: nat) {
    c.start < c.end < |items| &&
    (TotalSize(items, c.start, c.end + 1) > maxSize || 2 * (c.end + 1 - c.start) > maxCount)
  }

  ghost predicate AllFull(items: seq<Item>, chunks: seq<Chunk>, maxSize: nat, maxCount: nat) {
    forall i :: 0 <= i < |chunks| ==> Fitting(items, chunks[i], maxSize, maxCount)
                                      && Full(items, chunks[i], maxSize, maxCount)
  }

  lemma FullExtend(items: seq<Item>, chunks: seq<Chunk>, c: Chunk, maxSize: nat, maxCount: nat)
    requires AllFull(items, chunks, maxSize, maxCount)
    requires Fitting(items, c, maxSize, maxCount) && Full(items, c, maxSize, maxCount)
    ensures AllFull(items, chunks + [c], maxSize, maxCount)
  {
  }

  ghost predicate Chunked(items: seq<Item>, chunks: seq<Chunk>, batchSize: nat, batchCount: nat) {
    && Tiles(chunks, |items|)
    && forall i :: 0 <= i < |chunks| ==> Fitting(items, chunks[i], Half(batchSize), Half(batchCount))
  }

  /** Chunk `ci` has no I/O failure and no item above the hard limit. */
  ghost predicate Commits(items: seq<Item>, chunks: seq<Chunk>, ci: nat, hardMax: nat, broken: set<nat>)
    requires ci < |chunks|
  {
    ci !in broken && forall i :: chunks[ci].start <= i < chunks[ci].end && i < |items| ==> ItemSize(items[i]) <= hardMax
  }

  ghost predicate FailsFirst(items: seq<Item>, chunks: seq<Chunk>, f: nat, hardMax: nat, broken: set<nat>) {
    && f < |chunks| && !Commits(items, chunks, f, hardMax, broken)
    && forall ci :: 0 <= ci < f ==> Commits(items, chunks, ci, hardMax, broken)
  }

  lemma TilesExtend(chunks: seq<Chunk>, start: nat, end: nat)
    requires Tiles(chunks, start) && start < end
    ensures Tiles(chunks + [Chunk(start, end)], end)
  {
  }

  /** Half of a budget, at least 1: the other half is headroom. */
  function Half(n: nat): (r: nat)
    ensures r >= 1 && (n >= 2 ==> 2 * r <= n < 2 * r + 2)
  {
    if n / 2 == 0 then 1 else n / 2
  }

  /** One more item in the chunk that starts at `start`. */
  lemma ItemFits(items: seq<Item>, start: nat, i: nat, maxSize: nat, maxCount: nat)
    requires start <= i < |items|
    requires i == start ||
             (TotalSize(items, start, i) + ItemSize(items[i]) <= maxSize && 2 * (i - start) + 2 <= maxCount)
    ensures TotalSize(items, start, i + 1) == TotalSize(items, start, i) + ItemSize(items[i])
    ensures Fitting(items, Chunk(start, i + 1), maxSize, maxCount)
  {
  }

  /** The chunk that starts at `start` cannot take item `i`. */
  lemma ItemOverflows(items: seq<Item>, start: nat, i: nat, maxSize: nat, maxCount: nat)
    requires start < i < |items|
    requires TotalSize(items, start, i) + ItemSize(items[i]) > maxSize || 2 * (i - start) + 2 > maxCount
    ensures Full(items, Chunk(start, i), maxSize, maxCount)
  {
  }

  method ChunkRanges(items: seq<Item>, batchSize: nat, batchCount: nat) returns (chunks: seq<Chunk>)
    ensures Tiles(chunks, |items|)
    ensures forall i :: 0 <= i < |chunks| ==> Fitting(items, chunks[i], Half(batchSize), Half(batchCount))
    ensures forall i :: 0 <= i < |chunks| - 1 ==> Full(items, chunks[i], Half(batchSize), Half(batchCount))
  {
    chunks := [];
    var maxSize, maxCount := Half(batchSize), Half(batchCount);
    var start, size, count := 0, 0, 0;
    for i := 0 to |items|
      invariant start <= i && (i > 0 ==> start < i)
      invariant size == TotalSize(items, start, i) && count == 2 * (i - start)
      invariant Tiles(chunks, start)
      invariant i > start ==> Fitting(items, Chunk(start, i), maxSize, maxCount)
      invariant AllFull(items, chunks, maxSize, maxCount)
    {
      var itemSize := ItemSize(items[i]);
      if i > start && (size + itemSize > maxSize || count + 2 > maxCount) {
        TilesExtend(chunks, start, i);
        ItemOverflows(items, start, i, maxSize, maxCount);
        FullExtend(items, chunks, Chunk(start, i), maxSize, maxCount);
        chunks := chunks + [Chunk(start, i)];
        start, size, count := i, 0, 0;
      }
      ItemFits(items, start, i, maxSize, maxCount);
      size, count := size + itemSize, count + 2;
    }
    if start < |items| {
      TilesExtend(chunks, start, |items|);
      chunks := chunks + [Chunk(start, |items|)];
    }
  }

  // ----- the log, updated in place -----

  class BadgerEventLog {
    var kv: map<Bytes, Stored>
    var next: seq<nat>

    ghost function State(): (log: Log)
      reads this
    {
      Log(kv, next)
    }

    constructor (partitions: nat)
      requires partitions > 0
      ensures State() == Log(map[], seq(partitions, _ => 1))
    {
      kv, next := map[], seq(partitions, _ => 1);
    }

    method Append(h: Hashes, ev: Event) returns (sn: nat)
      requires next != []
      modifies this
      ensures (State(), sn) == Appended(h, old(State()), ev)
    {
      var it := Prepared(h, next, ev);
      next := next[it.partition := it.sn + 1];
      if it.dedup in kv {
        return 0;
      }
      kv := kv[PartKey(it.partition, it.sn) := Whole(ev)][it.dedup := Location(it.partition, it.sn)];
      sn := it.sn;
    }

    /** One transaction: all of its items, or nothing. `broken` is an I/O failure at commit. */
    method CommitChunk(items: seq<Item>, c: Chunk, hardMax: nat, broken: bool) returns (ok: bool, sns: seq<nat>)
      requires c.start <= c.end <= |items|
      modifies this`kv
      ensures ok ==> (kv, sns) == WrittenAll(old(kv), items[c.start..c.end])
      ensures !ok ==> kv == old(kv)
      ensures ok <==> !broken && forall i :: c.start <= i < c.end ==> ItemSize(items[i]) <= hardMax
    {
      var txn := kv;
      sns := [];
      ok := true;
      for i := c.start to c.end
        invariant (txn, sns) == WrittenAll(old(kv), items[c.start..i])
        invariant forall j :: c.start <= j < i ==> ItemSize(items[j]) <= hardMax
      {
        assert items[c.start..i + 1][..i - c.start] == items[c.start..i];
        if ItemSize(items[i]) > hardMax {
          ok := false;
          return;
        }
        var it := items[i];
        if it.dedup in txn {
          sns := sns + [0];
        } else {
          txn := txn[PartKey(it.partition, it.sn) := Whole(it.ev)][it.dedup := Location(it.partition, it.sn)];
          sns := sns + [it.sn];
        }
      }
      if broken {
        ok := false;
        return;
      }
      kv := txn;
    }

    /** A successful batch is the same as appending one by one, for any chunk budgets. When a
        chunk fails, the store is that of a prefix of the batch, every sequence number of the
        batch is used up, and nothing is reported to observers, committed or not. */
    method AppendBatch(h: Hashes, evs: seq<Event>, batchSize: nat, batchCount: nat, broken: set<nat>)
      returns (ok: bool, sns: seq<nat>, observed: seq<Event>, ghost items: seq<Item>, ghost chunks: seq<Chunk>,
          ghost f: nat)
      requires next != []
      modifies this
      ensures items == PreparedAll(h, old(next), evs).0 && Chunked(items, chunks, batchSize, batchCount)
      ensures ok <==> forall ci :: 0 <= ci < |chunks| ==> Commits(items, chunks, ci, batchSize, broken)
      ensures ok ==> (State(), sns) == AppendedAll(h, old(State()), evs)
      ensures ok ==> |sns| == |evs| && Observes(evs, sns, observed)
      ensures !ok ==> observed == [] && next == AppendedAll(h, old(State()), evs).0.next
      ensures !ok ==> FailsFirst(items, chunks, f, batchSize, broken)
      ensures !ok ==> chunks[f].start < |evs| && kv == AppendedAll(h, old(State()), evs[..chunks[f].start]).0.kv
    {
      BatchIsSequential(h, State(), evs);
      var prepared := Prepare(h, evs);
      var cs := ChunkRanges(prepared, batchSize, batchCount);
      items, chunks := prepared, cs;
      ok, sns, f := CommitAll(prepared, cs, batchSize, broken);
      observed := [];
      if ok {
        observed := Observed(evs, sns);
      } else {
        ChunkInside(cs, |items|, f);
        PrefixIsSequential(h, old(State()), evs, cs[f].start);
        sns := [];
      }
    }

    /** Phase 2: chunk after chunk, until one fails. */
    method CommitAll(items: seq<Item>, chunks: seq<Chunk>, hardMax: nat, broken: set<nat>)
      returns (ok: bool, sns: seq<nat>, ghost f: nat)
      requires Tiles(chunks, |items|)
      modifies this`kv
      ensures ok <==> forall ci :: 0 <= ci < |chunks| ==> Commits(items, chunks, ci, hardMax, broken)
      ensures ok ==> (kv, sns) == WrittenAll(old(kv), items)
      ensures !ok ==> FailsFirst(items, chunks, f, hardMax, broken) && chunks[f].start < |items|
      ensures !ok ==> kv == WrittenAll(old(kv), items[..chunks[f].start]).0
    {
      ok, sns, f := true, [], 0;
      ghost var done := 0;
      for ci := 0 to |chunks|
        invariant done == (if ci == 0 then 0 else chunks[ci - 1].end) && done <= |items|
        invariant (kv, sns) == WrittenAll(old(kv), items[..done])
        invariant forall x :: 0 <= x < ci ==> Commits(items, chunks, x, hardMax, broken)
      {
        ChunkInside(chunks, |items|, ci);
        var c := chunks[ci];
        var committed, part := CommitChunk(items, c, hardMax, ci in broken);
        if !committed {
          assert !Commits(items, chunks, ci, hardMax, broken);
          ok, f := false, ci;
          return;
        }
        NextChunk(old(kv), items, done, c.end);
        sns := sns + part;
        done := c.end;
      }
      assert items[..done] == items;
    }

    method Prepare(h: Hashes, evs: seq<Event>) returns (items: seq<Item>)
      requires next != []
      modifies this`next
      ensures (items, next) == PreparedAll(h, old(next), evs)
    {
      items := [];
      for i := 0 to |evs|
        invariant |next| == |old(next)|
        invariant (items, next) == PreparedAll(h, old(next), evs[..i])
      {
        assert evs[..i + 1][..i] == evs[..i];
        var it := Prepared(h, next, evs[i]);
        items, next := items + [it], next[it.partition := it.sn + 1];
      }
      assert evs[..|evs|] == evs;
    }
  }

  /** Every chunk of a tiling lies inside it and starts where the previous one ended. */
  lemma {:induction false} ChunkInside(chunks: seq<Chunk>, n: nat, i: nat)
    requires Tiles(chunks, n) && i < |chunks|
    ensures chunks[i].start == (if i == 0 then 0 else chunks[i - 1].end) && chunks[i].start < chunks[i].end <= n
    decreases |chunks| - i
  {
    if i + 1 < |chunks| { ChunkInside(chunks, n, i + 1); }
  }

  /** `out` is the events at the indices `at`: those with a sequence number, in batch order. */
  ghost predicate SelectedAt(evs: seq<Event>, sns: seq<nat>, out: seq<Event>, at: seq<nat>)
    requires |sns| == |evs|
  {
    && |at| == |out|
    && (forall k :: 0 <= k < |at| ==> at[k] < |evs| && sns[at[k]] != 0 && out[k] == evs[at[k]])
    && (forall k, l :: 0 <= k < l < |at| ==> at[k] < at[l])
    && (forall i :: 0 <= i < |evs| && sns[i] != 0 ==> i in at)
  }

  /** What observers are told of a batch: each event that was written, once, in order. */
  ghost predicate Observes(evs: seq<Event>, sns: seq<nat>, out: seq<Event>)
    requires |sns| == |evs|
  {
    exists at :: SelectedAt(evs, sns, out, at)
  }

  method Observed(evs: seq<Event>, sns: seq<nat>) returns (out: seq<Event>)
    requires |sns| == |evs|
    ensures Observes(evs, sns, out)
  {
    out := [];
    ghost var at: seq<nat> := [];
    for i := 0 to |evs|
      invariant forall k :: 0 <= k < |at| ==> at[k] < i
      invariant SelectedAt(evs[..i], sns[..i], out, at)
    {
      if sns[i] != 0 {
        out := out + [evs[i]];
        assert (at + [i])[|at|] == i;
        at := at + [i];
      }
    }
    assert evs[..|evs|] == evs && sns[..|sns|] == sns;
  }
}
