/** What the log keeps: every idempotency key at most once, and the order of a batch across any
    number of failed attempts. */
module EventLogSafety {
  import opened Common
  import opened LogKeys
  import opened EventLog

  ghost predicate Injective(sha: Bytes -> Bytes) {
    forall x, y :: sha(x) == sha(y) ==> x == y
  }

  /** Partition numbers and sequence numbers fit their fixed-width fields. */
  ghost predicate Room(next: seq<nat>, extra: nat) {
    0 < |next| <= Pow256(4) && forall p :: 0 <= p < |next| ==> 1 <= next[p] && next[p] + extra <= Pow256(8)
  }

  /** A part entry holds an event of its partition, and the dedup index points back at it. */
  ghost predicate EntryOk(h: Hashes, log: Log, p: nat, s: nat)
    requires PartKey(p, s) in log.kv
  {
    var x := log.kv[PartKey(p, s)];
    && p < |log.next| && 1 <= s < log.next[p]
    && x.Whole? && PartitionOf(h, x.ev.key, |log.next|) == p
    && Lookup(log.kv, DedupKey(x.ev.idem, h.sha)) == Some(Location(p, s))
  }

  /** A dedup entry points at an event with that idempotency key. */
  ghost predicate IndexOk(h: Hashes, kv: map<Bytes, Stored>, id: Bytes)
    requires DedupKey(id, h.sha) in kv
  {
    var x := kv[DedupKey(id, h.sha)];
    && x.Location? && Fits(x.partition, x.sn) && PartKey(x.partition, x.sn) in kv
    && kv[PartKey(x.partition, x.sn)].Whole? && kv[PartKey(x.partition, x.sn)].ev.idem == id
  }

  ghost predicate Consistent(h: Hashes, log: Log) {
    && log.next != [] && KeysOk(log.kv)
    && (forall p, s :: Fits(p, s) && PartKey(p, s) in log.kv ==> EntryOk(h, log, p, s))
    && (forall id :: DedupKey(id, h.sha) in log.kv ==> IndexOk(h, log.kv, id))
  }

  /** No idempotency key is in the log twice. */
  lemma AtMostOnce(h: Hashes, log: Log, p: nat, s: nat, q: nat, t: nat)
    requires Consistent(h, log) && Fits(p, s) && Fits(q, t)
    requires PartKey(p, s) in log.kv && PartKey(q, t) in log.kv
    requires log.kv[PartKey(p, s)].Whole? && log.kv[PartKey(q, t)].Whole?
    requires log.kv[PartKey(p, s)].ev.idem == log.kv[PartKey(q, t)].ev.idem
    ensures p == q && s == t
  {
  }

  lemma AppendKeepsConsistent(h: Hashes, log: Log, ev: Event)
    requires Consistent(h, log) && Injective(h.sha) && Room(log.next, 1)
    ensures Consistent(h, Appended(h, log, ev).0)
    ensures DedupKey(ev.idem, h.sha) in Appended(h, log, ev).0.kv
  {
    var it, after := Prepared(h, log.next, ev), Appended(h, log, ev).0;
    var key := PartKey(it.partition, it.sn);
    if it.dedup !in log.kv {
      assert key !in log.kv;
      assert key != it.dedup by { DedupKeysAreDistinct(ev.idem, ev.idem, h.sha, it.partition, it.sn); }
      DecodeInvertsEncode(it.partition, it.sn);
      assert after.kv == log.kv[key := Whole(ev)][it.dedup := Location(it.partition, it.sn)];
    }
    forall p, s | Fits(p, s) && PartKey(p, s) in after.kv ensures EntryOk(h, after, p, s) {
      PartKeyOrder(p, s, it.partition, it.sn);
      DedupKeysAreDistinct(ev.idem, ev.idem, h.sha, p, s);
      if PartKey(p, s) in log.kv {
        assert EntryOk(h, log, p, s);
        DedupKeysAreDistinct(log.kv[PartKey(p, s)].ev.idem, ev.idem, h.sha, it.partition, it.sn);
      }
    }
    forall id | DedupKey(id, h.sha) in after.kv ensures IndexOk(h, after.kv, id) {
      DedupKeysAreDistinct(id, ev.idem, h.sha, it.partition, it.sn);
      if DedupKey(id, h.sha) in log.kv {
        assert IndexOk(h, log.kv, id);
        var x := log.kv[DedupKey(id, h.sha)];
        DedupKeysAreDistinct(ev.idem, ev.idem, h.sha, x.partition, x.sn);
      }
    }
  }

  lemma {:induction false} CountersBounded(h: Hashes, log: Log, evs: seq<Event>)
    requires log.next != []
    ensures forall p :: 0 <= p < |log.next| ==> log.next[p] <= AppendedAll(h, log, evs).0.next[p] <= log.next[p] + |evs|
  {
    if evs != [] {
      CountersBounded(h, log, evs[..|evs| - 1]);
    }
  }

  lemma {:induction false} AppendsKeepConsistent(h: Hashes, log: Log, evs: seq<Event>)
    requires Consistent(h, log) && Injective(h.sha) && Room(log.next, |evs|)
    ensures Consistent(h, AppendedAll(h, log, evs).0)
  {
    if evs != [] {
      var init := evs[..|evs| - 1];
      AppendsKeepConsistent(h, log, init);
      CountersBounded(h, log, init);
      AppendKeepsConsistent(h, AppendedAll(h, log, init).0, evs[|evs| - 1]);
    }
  }

  /** Every appended idempotency key is in the log. */
  lemma {:induction false} AppendsAreIndexed(h: Hashes, log: Log, evs: seq<Event>, i: nat)
    requires log.next != [] && i < |evs|
    ensures DedupKey(evs[i].idem, h.sha) in AppendedAll(h, log, evs).0.kv
  {
    if i < |evs| - 1 {
      AppendsAreIndexed(h, log, evs[..|evs| - 1], i);
    }
  }

  /** The log after a batch of which only the first `m` events were committed. */
  function Failed(h: Hashes, log: Log, evs: seq<Event>, m: nat): (r: Log)
    requires log.next != [] && m <= |evs|
    ensures |r.next| == |log.next|
  {
    Log(AppendedAll(h, log, evs[..m]).0.kv, AppendedAll(h, log, evs).0.next)
  }

  lemma {:induction false} CountersOnlyGrow(h: Hashes, log: Log, evs: seq<Event>, m: nat)
    requires log.next != [] && m <= |evs|
    ensures forall p :: 0 <= p < |log.next| ==>
        AppendedAll(h, log, evs[..m]).0.next[p] <= AppendedAll(h, log, evs).0.next[p]
    decreases |evs| - m
  {
    if m < |evs| {
      CountersOnlyGrow(h, log, evs, m + 1);
      assert evs[..m + 1][..m] == evs[..m];
    } else {
      assert evs[..m] == evs;
    }
  }

  // ----- any number of failed attempts -----

  /** What happens to the log while one batch is being retried: an attempt that commits its
      first `m` events (all of them when it succeeds), or somebody else's appends. */
  datatype Happening = Attempt(m: nat) | Others(evs: seq<Event>)

  predicate Possible(evs: seq<Event>, hs: seq<Happening>) {
    forall i :: 0 <= i < |hs| && hs[i].Attempt? ==> hs[i].m <= |evs|
  }

  function Happened(h: Hashes, log: Log, evs: seq<Event>, x: Happening): (r: Log)
    requires log.next != [] && (x.Attempt? ==> x.m <= |evs|)
    ensures |r.next| == |log.next|
  {
    if x.Attempt? then Failed(h, log, evs, x.m) else AppendedAll(h, log, x.evs).0
  }

  function After(h: Hashes, log: Log, evs: seq<Event>, hs: seq<Happening>): (r: Log)
    requires log.next != [] && Possible(evs, hs)
    ensures |r.next| == |log.next|
  {
    if hs == [] then log else Happened(h, After(h, log, evs, hs[..|hs| - 1]), evs, hs[|hs| - 1])
  }

  /** How many sequence numbers that can use up on a partition. */
  function Demand(evs: seq<Event>, hs: seq<Happening>): (n: nat) {
    if hs == [] then 0
    else
      var last := hs[|hs| - 1];
      Demand(evs, hs[..|hs| - 1]) + if last.Attempt? then |evs| else |last.evs|
  }

  lemma FailedKeepsConsistent(h: Hashes, log: Log, evs: seq<Event>, m: nat)
    requires Consistent(h, log) && Injective(h.sha) && Room(log.next, |evs|) && m <= |evs|
    ensures Consistent(h, Failed(h, log, evs, m))
  {
    AppendsKeepConsistent(h, log, evs[..m]);
    CountersOnlyGrow(h, log, evs, m);
    var failed, part := Failed(h, log, evs, m), AppendedAll(h, log, evs[..m]).0;
    forall p, s | Fits(p, s) && PartKey(p, s) in failed.kv ensures EntryOk(h, failed, p, s) {
      assert EntryOk(h, part, p, s);
    }
  }

  lemma {:induction false} AfterKeepsConsistent(h: Hashes, log: Log, evs: seq<Event>, hs: seq<Happening>)
    requires Consistent(h, log) && Injective(h.sha) && Possible(evs, hs) && Room(log.next, Demand(evs, hs))
    ensures Consistent(h, After(h, log, evs, hs))
    ensures forall p :: 0 <= p < |log.next| ==>
        log.next[p] <= After(h, log, evs, hs).next[p] <= log.next[p] + Demand(evs, hs)
  {
    if hs != [] {
      var init, last := hs[..|hs| - 1], hs[|hs| - 1];
      AfterKeepsConsistent(h, log, evs, init);
      var before := After(h, log, evs, init);
      if last.Attempt? {
        FailedKeepsConsistent(h, before, evs, last.m);
        CountersBounded(h, before, evs);
      } else {
        AppendsKeepConsistent(h, before, last.evs);
        CountersBounded(h, before, last.evs);
      }
    }
  }

  /** However often a batch failed, at whatever chunks, and whatever others appended meanwhile:
      once an attempt succeeds, each of its idempotency keys is in the log exactly once. */
  lemma RetryLeavesEachOnce(h: Hashes, log: Log, evs: seq<Event>, hs: seq<Happening>)
    requires Consistent(h, log) && Injective(h.sha) && Possible(evs, hs) && Room(log.next, Demand(evs, hs))
    requires hs != [] && hs[|hs| - 1] == Attempt(|evs|)
    ensures Consistent(h, After(h, log, evs, hs))
    ensures forall i :: 0 <= i < |evs| ==> DedupKey(evs[i].idem, h.sha) in After(h, log, evs, hs).kv
  {
    AfterKeepsConsistent(h, log, evs, hs);
    var before := After(h, log, evs, hs[..|hs| - 1]);
    assert evs[..|evs|] == evs;
    forall i | 0 <= i < |evs| ensures DedupKey(evs[i].idem, h.sha) in After(h, log, evs, hs).kv {
      AppendsAreIndexed(h, before, evs, i);
    }
  }

  // ----- order -----

  /** How many of `evs` go to partition `p` of `n`. */
  function CountOn(h: Hashes, evs: seq<Event>, n: nat, p: nat): (c: nat)
    requires n > 0
    ensures c <= |evs|
  {
    if evs == [] then 0
    else CountOn(h, evs[..|evs| - 1], n, p) + if PartitionOf(h, evs[|evs| - 1].key, n) == p then 1 else 0
  }

  lemma {:induction false} CountMonotone(h: Hashes, evs: seq<Event>, n: nat, p: nat, i: nat, j: nat)
    requires n > 0 && i <= j <= |evs|
    ensures CountOn(h, evs[..i], n, p) <= CountOn(h, evs[..j], n, p)
    ensures i < j && PartitionOf(h, evs[i].key, n) == p ==> CountOn(h, evs[..i], n, p) < CountOn(h, evs[..j], n, p)
    decreases j - i
  {
    if i < j {
      CountMonotone(h, evs, n, p, i + 1, j);
      assert evs[..i + 1][..i] == evs[..i];
    }
  }

  lemma {:induction false} CounterAfter(h: Hashes, next: seq<nat>, evs: seq<Event>, p: nat)
    requires p < |next|
    ensures PreparedAll(h, next, evs).1[p] == next[p] + CountOn(h, evs, |next|, p)
  {
    if evs != [] {
      CounterAfter(h, next, evs[..|evs| - 1], p);
    }
  }

  /** The item an event of a batch becomes: its sequence number is the counter plus its rank
      on its partition. */
  function ItemAt(h: Hashes, next: seq<nat>, evs: seq<Event>, i: nat): (it: Item)
    requires next != [] && i < |evs|
  {
    var p := PartitionOf(h, evs[i].key, |next|);
    Item(evs[i], p, DedupKey(evs[i].idem, h.sha), next[p] + CountOn(h, evs[..i], |next|, p))
  }

  lemma SequenceNumber(h: Hashes, next: seq<nat>, evs: seq<Event>, i: nat)
    requires next != [] && i < |evs|
    ensures PreparedAll(h, next, evs).0[i] == ItemAt(h, next, evs, i)
  {
    PreparedPrefix(h, next, evs, i + 1);
    assert evs[..i + 1][..i] == evs[..i];
    CounterAfter(h, next, evs[..i], PartitionOf(h, evs[i].key, |next|));
    assert PreparedAll(h, next, evs).0[i] == PreparedAll(h, next, evs).0[..i + 1][i];
  }

  lemma SequenceNumbers(h: Hashes, next: seq<nat>, evs: seq<Event>)
    requires next != []
    ensures forall i :: 0 <= i < |evs| ==> PreparedAll(h, next, evs).0[i] == ItemAt(h, next, evs, i)
    ensures DedupKeyed(PreparedAll(h, next, evs).0)
  {
    forall i | 0 <= i < |evs| ensures PreparedAll(h, next, evs).0[i] == ItemAt(h, next, evs, i) {
      SequenceNumber(h, next, evs, i);
    }
  }

  ghost predicate DedupKeyed(items: seq<Item>) {
    forall i :: 0 <= i < |items| ==> items[i].dedup != [] && items[i].dedup[0] != PREFIX_PART
  }

  lemma {:induction false} WrittenKeeps(kv: map<Bytes, Stored>, items: seq<Item>, d: Bytes)
    requires DedupKeyed(items) && d != [] && d[0] != PREFIX_PART && d in kv
    ensures Lookup(WrittenAll(kv, items).0, d) == Some(kv[d])
  {
    if items != [] {
      WrittenKeeps(kv, items[..|items| - 1], d);
      var it := items[|items| - 1];
      assert PartKey(it.partition, it.sn)[0] == PREFIX_PART;
    }
  }

  lemma {:induction false} WrittenOnly(kv: map<Bytes, Stored>, items: seq<Item>, d: Bytes)
    requires DedupKeyed(items) && d != [] && d[0] != PREFIX_PART && d !in kv
    requires forall i :: 0 <= i < |items| ==> items[i].dedup != d
    ensures d !in WrittenAll(kv, items).0
  {
    if items != [] {
      WrittenOnly(kv, items[..|items| - 1], d);
      var it := items[|items| - 1];
      assert PartKey(it.partition, it.sn)[0] == PREFIX_PART;
    }
  }

  /** The first occurrence of a new key is the one that is written. */
  lemma WrittenFirst(kv: map<Bytes, Stored>, items: seq<Item>, i: nat)
    requires DedupKeyed(items) && i < |items| && items[i].dedup !in kv
    requires forall x :: 0 <= x < i ==> items[x].dedup != items[i].dedup
    ensures Lookup(WrittenAll(kv, items).0, items[i].dedup) == Some(Location(items[i].partition, items[i].sn))
  {
    var it, before := items[i], items[..i];
    WrittenOnly(kv, before, it.dedup);
    assert items == items[..i + 1] + items[i + 1..] && items[..i + 1][..i] == before;
    WrittenSplits(kv, items[..i + 1], items[i + 1..]);
    var mid := WrittenAll(kv, items[..i + 1]).0;
    assert PartKey(it.partition, it.sn)[0] == PREFIX_PART;
    assert mid[it.dedup] == Location(it.partition, it.sn);
    WrittenKeeps(mid, items[i + 1..], it.dedup);
  }

  /** `evs[i]` repeats no earlier key of the batch. */
  ghost predicate FirstOfKey(h: Hashes, evs: seq<Event>, i: nat)
    requires i < |evs|
  {
    forall x :: 0 <= x < i ==> DedupKey(evs[x].idem, h.sha) != DedupKey(evs[i].idem, h.sha)
  }

  /** `evs[i]` is new to the log and not repeated earlier in the batch. */
  ghost predicate IsNew(h: Hashes, log: Log, evs: seq<Event>, i: nat)
    requires i < |evs|
  {
    DedupKey(evs[i].idem, h.sha) !in log.kv && FirstOfKey(h, evs, i)
  }

  /** Where the index has an event. */
  function At(h: Hashes, log: Log, ev: Event): (r: Option<Stored>) { Lookup(log.kv, DedupKey(ev.idem, h.sha)) }

  lemma LandsIn(kv: map<Bytes, Stored>, items: seq<Item>, m: nat, i: nat)
    requires DedupKeyed(items) && i < |items| && m <= |items|
    requires forall x :: 0 <= x < i ==> items[x].dedup != items[i].dedup
    ensures Lookup(WrittenAll(kv, items[..m]).0, items[i].dedup) ==
            if items[i].dedup in kv then Lookup(kv, items[i].dedup)
            else if i < m then Some(Location(items[i].partition, items[i].sn))
            else Lookup(WrittenAll(kv, items[..m]).0, items[i].dedup)
    ensures i >= m && items[i].dedup !in kv ==> items[i].dedup !in WrittenAll(kv, items[..m]).0
  {
    if items[i].dedup in kv {
      WrittenKeeps(kv, items[..m], items[i].dedup);
    } else if i < m {
      WrittenFirst(kv, items[..m], i);
    } else {
      WrittenOnly(kv, items[..m], items[i].dedup);
    }
  }

  /** Where an attempt that commits `m` events leaves the first event of a key: where it was,
      where this attempt puts it, or nowhere yet. */
  lemma AttemptPlaces(h: Hashes, log: Log, evs: seq<Event>, m: nat, i: nat)
    requires log.next != [] && m <= |evs| && i < |evs| && FirstOfKey(h, evs, i)
    ensures var it := ItemAt(h, log.next, evs, i);
            At(h, Failed(h, log, evs, m), evs[i]) ==
              if it.dedup in log.kv then At(h, log, evs[i])
              else if i < m then Some(Location(it.partition, it.sn))
              else None
  {
    var items := PreparedAll(h, log.next, evs).0;
    SequenceNumbers(h, log.next, evs);
    PrefixIsSequential(h, log, evs, m);
    LandsIn(log.kv, items, m, i);
  }

  /** A new event whose chunk was committed stays where that attempt put it. */
  lemma CommittedStays(h: Hashes, log: Log, evs: seq<Event>, m: nat, i: nat)
    requires log.next != [] && i < m <= |evs| && IsNew(h, log, evs, i)
    ensures var it := ItemAt(h, log.next, evs, i);
            At(h, Failed(h, Failed(h, log, evs, m), evs, |evs|), evs[i]) == Some(Location(it.partition, it.sn))
  {
    AttemptPlaces(h, log, evs, m, i);
    AttemptPlaces(h, Failed(h, log, evs, m), evs, |evs|, i);
  }

  /** A new event beyond the failure is where the retry puts it. */
  lemma UncommittedMoves(h: Hashes, log: Log, evs: seq<Event>, m: nat, i: nat)
    requires log.next != [] && m <= i < |evs| && IsNew(h, log, evs, i)
    ensures var it := ItemAt(h, Failed(h, log, evs, m).next, evs, i);
            At(h, Failed(h, Failed(h, log, evs, m), evs, |evs|), evs[i]) == Some(Location(it.partition, it.sn))
  {
    AttemptPlaces(h, log, evs, m, i);
    AttemptPlaces(h, Failed(h, log, evs, m), evs, |evs|, i);
  }

  /** The later of two events is in the log only if the earlier one is, with a lower number;
      both numbers are used up. */
  ghost predicate InOrder(h: Hashes, log: Log, evs: seq<Event>, p: nat, i: nat, j: nat)
    requires i < |evs| && j < |evs| && p < |log.next|
  {
    var a, b := At(h, log, evs[i]), At(h, log, evs[j]);
    && (a.Some? ==> a.value.Location? && a.value.partition == p && a.value.sn < log.next[p])
    && (b.Some? ==> b.value.Location? && b.value.partition == p && b.value.sn < log.next[p])
    && (b.Some? ==> a.Some? && a.value.sn < b.value.sn)
  }

  lemma AttemptKeepsOrder(h: Hashes, log: Log, evs: seq<Event>, m: nat, p: nat, i: nat, j: nat)
    requires p < |log.next| && m <= |evs| && i < j < |evs| && FirstOfKey(h, evs, i) && FirstOfKey(h, evs, j)
    requires PartitionOf(h, evs[i].key, |log.next|) == p == PartitionOf(h, evs[j].key, |log.next|)
    requires InOrder(h, log, evs, p, i, j)
    ensures InOrder(h, Failed(h, log, evs, m), evs, p, i, j)
  {
    AttemptPlaces(h, log, evs, m, i);
    AttemptPlaces(h, log, evs, m, j);
    CountMonotone(h, evs, |log.next|, p, i, j);
    CountMonotone(h, evs, |log.next|, p, j, |evs|);
    assert evs[..|evs|] == evs;
    BatchIsSequential(h, log, evs);
    CounterAfter(h, log.next, evs, p);
  }

  /** Appends of other keys move nothing of ours. */
  lemma OthersKeepOrder(h: Hashes, log: Log, evs: seq<Event>, others: seq<Event>, p: nat, i: nat, j: nat)
    requires p < |log.next| && i < |evs| && j < |evs| && InOrder(h, log, evs, p, i, j)
    requires forall x :: 0 <= x < |others| ==>
      DedupKey(others[x].idem, h.sha) != DedupKey(evs[i].idem, h.sha) &&
          DedupKey(others[x].idem, h.sha) != DedupKey(evs[j].idem, h.sha)
    ensures InOrder(h, AppendedAll(h, log, others).0, evs, p, i, j)
  {
    OthersKeep(h, log, others, evs[i]);
    OthersKeep(h, log, others, evs[j]);
    CountersBounded(h, log, others);
  }

  lemma OthersKeep(h: Hashes, log: Log, others: seq<Event>, ev: Event)
    requires log.next != []
    requires forall x :: 0 <= x < |others| ==> DedupKey(others[x].idem, h.sha) != DedupKey(ev.idem, h.sha)
    ensures At(h, AppendedAll(h, log, others).0, ev) == At(h, log, ev)
  {
    var items, d := PreparedAll(h, log.next, others).0, DedupKey(ev.idem, h.sha);
    SequenceNumbers(h, log.next, others);
    BatchIsSequential(h, log, others);
    if d in log.kv {
      WrittenKeeps(log.kv, items, d);
    } else {
      forall x | 0 <= x < |items| ensures items[x].dedup != d {
        assert items[x] == ItemAt(h, log.next, others, x);
      }
      WrittenOnly(log.kv, items, d);
    }
  }

  /** Nobody else appends the two keys. */
  ghost predicate Undisturbed(h: Hashes, evs: seq<Event>, hs: seq<Happening>, i: nat, j: nat)
    requires i < |evs| && j < |evs|
  {
    forall y, x :: 0 <= y < |hs| && hs[y].Others? && 0 <= x < |hs[y].evs| ==>
      && DedupKey(hs[y].evs[x].idem, h.sha) != DedupKey(evs[i].idem, h.sha)
      && DedupKey(hs[y].evs[x].idem, h.sha) != DedupKey(evs[j].idem, h.sha)
  }

  lemma {:induction false} AfterInOrder(h: Hashes, log: Log, evs: seq<Event>, hs: seq<Happening>, p: nat, i: nat,
                                        j: nat)
    requires p < |log.next| && Possible(evs, hs) && i < j < |evs| && FirstOfKey(h, evs, i) && FirstOfKey(h, evs, j)
    requires PartitionOf(h, evs[i].key, |log.next|) == p == PartitionOf(h, evs[j].key, |log.next|)
    requires InOrder(h, log, evs, p, i, j) && Undisturbed(h, evs, hs, i, j)
    ensures InOrder(h, After(h, log, evs, hs), evs, p, i, j)
  {
    if hs != [] {
      var init, last := hs[..|hs| - 1], hs[|hs| - 1];
      AfterInOrder(h, log, evs, init, p, i, j);
      var before := After(h, log, evs, init);
      if last.Attempt? {
        AttemptKeepsOrder(h, before, evs, last.m, p, i, j);
      } else {
        OthersKeepOrder(h, before, evs, last.evs, p, i, j);
      }
    }
  }

  /** And retries keep the batch's order on every partition: of two new events on the same
      partition, the earlier one has the lower sequence number, wherever and however often the
      batch broke, and whatever else was appended meanwhile. */
  lemma RetryKeepsOrder(h: Hashes, log: Log, evs: seq<Event>, hs: seq<Happening>, i: nat, j: nat)
    requires log.next != [] && Possible(evs, hs) && hs != [] && hs[|hs| - 1] == Attempt(|evs|) && i < j < |evs|
    requires IsNew(h, log, evs, i) && IsNew(h, log, evs, j) && Undisturbed(h, evs, hs, i, j)
    requires PartitionOf(h, evs[i].key, |log.next|) == PartitionOf(h, evs[j].key, |log.next|)
    ensures var a, b := At(h, After(h, log, evs, hs), evs[i]), At(h, After(h, log, evs, hs), evs[j]);
            && a.Some? && b.Some? && a.value.Location? && b.value.Location?
            && a.value.partition == b.value.partition && a.value.sn < b.value.sn
  {
    AfterInOrder(h, log, evs, hs, PartitionOf(h, evs[i].key, |log.next|), i, j);
    var before := After(h, log, evs, hs[..|hs| - 1]);
    AttemptPlaces(h, before, evs, |evs|, j);
  }

  // ----- observers -----

  /** A batch gives an event a sequence number, and so tells observers of it, exactly when it is
      new to the log and to the batch. */
  lemma {:induction false} ObservesExactlyTheNew(h: Hashes, log: Log, evs: seq<Event>, i: nat)
    requires log.next != [] && i < |evs| && forall p :: 0 <= p < |log.next| ==> log.next[p] >= 1
    ensures AppendedAll(h, log, evs).1[i] != 0 <==> IsNew(h, log, evs, i)
  {
    var items := PreparedAll(h, log.next, evs).0;
    BatchIsSequential(h, log, evs);
    SequenceNumbers(h, log.next, evs);
    NumberedWhenNew(log.kv, items, i);
    SameKeys(h, log.next, evs, items, i);
  }

  lemma SameKeys(h: Hashes, next: seq<nat>, evs: seq<Event>, items: seq<Item>, i: nat)
    requires next != [] && i < |evs| == |items| && forall p :: 0 <= p < |next| ==> next[p] >= 1
    requires forall x :: 0 <= x < |evs| ==> items[x] == ItemAt(h, next, evs, x)
    ensures items[i].dedup == DedupKey(evs[i].idem, h.sha) && items[i].sn >= 1
    ensures (exists x :: 0 <= x < i && items[x].dedup == items[i].dedup) <==> !FirstOfKey(h, evs, i)
  {
    assert forall x :: 0 <= x < |evs| ==> items[x].dedup == DedupKey(evs[x].idem, h.sha);
  }

  lemma {:induction false} NumberedWhenNew(kv: map<Bytes, Stored>, items: seq<Item>, i: nat)
    requires DedupKeyed(items) && i < |items|
    ensures WrittenAll(kv, items).1[i] ==
            if items[i].dedup in kv || (exists x :: 0 <= x < i && items[x].dedup == items[i].dedup) then 0
            else items[i].sn
  {
    var n := |items| - 1;
    if i < n {
      NumberedWhenNew(kv, items[..n], i);
    } else {
      var d := items[i].dedup;
      if d in kv {
        WrittenKeeps(kv, items[..n], d);
      } else if x :| 0 <= x < i && items[x].dedup == d {
        WrittenIndexes(kv, items[..n], x);
      } else {
        WrittenOnly(kv, items[..n], d);
      }
    }
  }

  lemma {:induction false} WrittenIndexes(kv: map<Bytes, Stored>, items: seq<Item>, x: nat)
    requires DedupKeyed(items) && x < |items|
    ensures items[x].dedup in WrittenAll(kv, items).0
  {
    if x < |items| - 1 {
      WrittenIndexes(kv, items[..|items| - 1], x);
    }
  }
}
