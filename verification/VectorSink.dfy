/** The vector sink itself (internal/output/vector/consumer.go): buffering, runs, chunks,
    embedding reuse, isolation of a rejected call, and acknowledgement. */
module VectorSink {
  import opened Common
  import opened VectorModel

  /** How an embedder or store call ends; a failed store call may have written any of its
      records in any order. */
  datatype Verdict = Fine | Transient | Poison
  datatype Reply = Reply(verdict: Verdict, strays: seq<nat>)

  datatype Outcome = Flushed | Failed | Poisoned(sn: nat)

  datatype Run = Run(remove: bool, items: seq<Item>)

  // ----- runs -----

  function Flatten(runs: seq<Run>): (items: seq<Item>) {
    if runs == [] then [] else Flatten(runs[..|runs| - 1]) + runs[|runs| - 1].items
  }

  ghost predicate IsRun(r: Run) {
    r.items != [] && forall i :: 0 <= i < |r.items| ==> r.items[i].remove == r.remove
  }

  /** Maximal runs: neighbours differ in kind. */
  ghost predicate AreRuns(runs: seq<Run>) {
    && (forall r :: 0 <= r < |runs| ==> IsRun(runs[r]))
    && (forall r :: 0 < r < |runs| ==> runs[r].remove != runs[r - 1].remove)
  }

  /** One call takes a whole run of deletes, or upserts up to the batch limit and the embedder's cap,
      and no fewer than that but at the end. */
  predicate IsChunk(c: Config, run: Run, start: nat, end: nat) {
    var n := end - start;
    start < end <= |run.items| &&
    if run.remove then start == 0 && end == |run.items|
    else
      && n <= Max(1, c.batchMax) && (c.cap > 0 ==> n <= c.cap)
      && (end == |run.items| || n == Max(1, c.batchMax) || n == c.cap)
  }

  /** Maximal runs of upserts and of deletes, in the order of the batch. */
  method SplitRuns(batch: seq<Item>) returns (runs: seq<Run>)
    ensures AreRuns(runs) && Flatten(runs) == batch
  {
    runs := [];
    for i := 0 to |batch|
      invariant AreRuns(runs) && Flatten(runs) == batch[..i]
    {
      var it, n := batch[i], |runs| - 1;
      if runs == [] || runs[n].remove != it.remove {
        NewRun(runs, it);
        runs := runs + [Run(it.remove, [it])];
      } else {
        runs := runs[n := Run(it.remove, runs[n].items + [it])];
      }
      assert batch[..i + 1] == batch[..i] + [it];
    }
    assert batch[..|batch|] == batch;
  }

  lemma {:induction false} NewRun(runs: seq<Run>, it: Item)
    requires AreRuns(runs) && (runs == [] || runs[|runs| - 1].remove != it.remove)
    ensures AreRuns(runs + [Run(it.remove, [it])])
    ensures Flatten(runs + [Run(it.remove, [it])]) == Flatten(runs) + [it]
  {
    assert (runs + [Run(it.remove, [it])])[..|runs|] == runs;
  }

  lemma {:induction false} FlattenPrefix(runs: seq<Run>, r: nat)
    requires r < |runs|
    ensures var a := |Flatten(runs[..r])|;
            && a + |runs[r].items| <= |Flatten(runs)|
            && Flatten(runs)[a..a + |runs[r].items|] == runs[r].items
            && Flatten(runs[..r + 1]) == Flatten(runs[..r]) + runs[r].items
  {
    var n := |runs| - 1;
    assert runs[..r + 1][..r] == runs[..r];
    if r < n {
      FlattenPrefix(runs[..n], r);
      assert runs[..n][..r] == runs[..r] && runs[..n][..r + 1] == runs[..r + 1];
    }
  }

  // ----- embeddings kept during one flush -----

  function EmbedKey(c: Config, id: Id, text: string): (key: string) { id + "\0" + c.hash(text) }

  ghost predicate VectorsOk(c: Config, vectors: map<string, seq<real>>) {
    forall id, text :: text in c.texts && EmbedKey(c, id, text) in vectors ==>
        vectors[EmbedKey(c, id, text)] == c.embed(text)
  }

  /** Ids may hold anything, the separator included: hashes have a fixed length. */
  lemma EmbedKeyIsInjective(c: Config, id: Id, text: string, id': Id, text': string)
    requires HashOk(c) && text in c.texts && text' in c.texts && EmbedKey(c, id, text) == EmbedKey(c, id', text')
    ensures id == id' && text == text'
  {
    var k := EmbedKey(c, id, text);
    assert k[|k| - 32..] == c.hash(text) && k[|k| - 32..] == c.hash(text');
    assert k[..|k| - 33] == id && k[..|k| - 33] == id';
  }

  lemma VectorAdded(c: Config, vectors: map<string, seq<real>>, it: Item)
    requires HashOk(c) && VectorsOk(c, vectors) && it.text in c.texts
    ensures VectorsOk(c, vectors[EmbedKey(c, it.id, it.text) := c.embed(it.text)])
  {
    var vectors' := vectors[EmbedKey(c, it.id, it.text) := c.embed(it.text)];
    forall id, text | text in c.texts && EmbedKey(c, id, text) in vectors'
        ensures vectors'[EmbedKey(c, id, text)] == c.embed(text) {
      if EmbedKey(c, id, text) == EmbedKey(c, it.id, it.text) {
        EmbedKeyIsInjective(c, id, text, it.id, it.text);
      }
    }
  }

  // ----- the answers of the embedder and the store -----

  /** `now` is what is left of the answers `was`. */
  ghost predicate Left(was: seq<Reply>, now: seq<Reply>) {
    |now| <= |was| && now == was[|was| - |now|..]
  }

  /** Answers were used up from `was` to `now`, and unless `fine` one of them was a failure or
      there was none any more. */
  ghost predicate Heard(was: seq<Reply>, now: seq<Reply>, fine: bool) {
    && Left(was, now)
    && (fine || now == [] || exists i :: 0 <= i < |was| - |now| && was[i].verdict != Fine)
  }

  lemma HeardBefore(was: seq<Reply>, mid: seq<Reply>, now: seq<Reply>, fine: bool)
    requires Left(was, mid) && Heard(mid, now, fine)
    ensures Heard(was, now, fine)
  {
    var d := |was| - |mid|;
    assert forall i :: 0 <= i < |mid| ==> mid[i] == was[d + i];
    if !fine && now != [] {
      var i :| 0 <= i < |mid| - |now| && mid[i].verdict != Fine;
      assert was[d + i].verdict != Fine;
    }
  }

  lemma HeardAfter(was: seq<Reply>, mid: seq<Reply>, now: seq<Reply>, fine: bool)
    requires Heard(was, mid, fine) && Left(mid, now)
    ensures Heard(was, now, fine)
  {
    HeardBefore(was, mid, now, true);
  }

  lemma HeardMore(was: seq<Reply>, mid: seq<Reply>, now: seq<Reply>, oks: seq<bool>, ok: bool)
    requires Heard(was, mid, false !in oks) && Heard(mid, now, ok)
    ensures Heard(was, now, false !in oks + [ok])
  {
    HeardBefore(was, mid, now, ok);
    HeardAfter(was, mid, now, false !in oks);
  }

  // ----- the sink -----

  class VectorSinkConsumer {
    const c: Config
    var pending: map<nat, seq<Item>>
    var pendingIds: map<nat, set<Id>>
    var store: Store
    var cache: Cache
    /** What the coming embedder and store calls will answer. */
    var replies: seq<Reply>

    ghost predicate Valid()
      reads this
    {
      && HashOk(c) && RecordsOk(c, store)
      && pendingIds.Keys == pending.Keys
      && (forall p :: p in pending ==> Known(c, pending[p]))
      && forall p :: p in pending ==> pendingIds[p] == set it | it in pending[p] :: it.id
    }

    constructor (c: Config, store: Store, cache: Cache, replies: seq<Reply>)
      requires HashOk(c) && RecordsOk(c, store)
      ensures Valid() && this.c == c && pending == map[]
      ensures this.store == store && this.cache == cache && this.replies == replies
    {
      this.c, pending, pendingIds := c, map[], map[];
      this.store, this.cache, this.replies := store, cache, replies;
    }

    function Buffer(p: nat): (items: seq<Item>)
      reads this
    {
      if p in pending then pending[p] else []
    }

    /** Buffers the event's change, or skips it: no embedding, no store call. */
    method Deliver(p: nat, ev: Event)
      requires Valid() && Known(c, ItemOf(ev))
      modifies this`pending, this`pendingIds
      ensures Valid()
      ensures ItemOf(ev) == [] ==> pending == old(pending)
      ensures ItemOf(ev) != [] ==> Buffer(p) == Delivered(c, cache, old(Buffer(p)), ItemOf(ev)[0])
      ensures forall q :: q != p ==> Buffer(q) == old(Buffer(q))
    {
      if ev.Control? || (ev.Upsert? && ev.text == "") {
        return;
      }
      var it := if ev.Remove? then Item(ev.sn, ev.id, "", true) else Item(ev.sn, ev.id, ev.text, false);
      var hasPending := p in pendingIds && it.id in pendingIds[p];
      LastIsMentioned(Buffer(p), it.id);
      if ev.Upsert? && it.id in cache && cache[it.id] == c.hash(it.text) && !hasPending {
        return;
      }
      Enqueue(p, it);
    }

    method Enqueue(p: nat, it: Item)
      requires Valid() && Known(c, [it])
      modifies this`pending, this`pendingIds
      ensures Valid() && Buffer(p) == old(Buffer(p)) + [it]
      ensures forall q :: q != p ==> Buffer(q) == old(Buffer(q))
    {
      var ids := if p in pendingIds then pendingIds[p] else {};
      pendingIds := pendingIds[p := ids + {it.id}];
      pending := pending[p := Buffer(p) + [it]];
    }

    /** Delivers a window in order. */
    method DeliverAll(p: nat, window: seq<Event>)
      requires Valid() && Buffer(p) == [] && forall i :: 0 <= i < |window| ==> Known(c, ItemOf(window[i]))
      modifies this`pending, this`pendingIds
      ensures Valid() && Buffer(p) == DeliveredAll(c, cache, ItemsOf(window))
      ensures forall q :: q != p ==> Buffer(q) == old(Buffer(q))
    {
      for i := 0 to |window|
        invariant Valid() && Buffer(p) == DeliveredAll(c, cache, ItemsOf(window[..i]))
        invariant forall q :: q != p ==> Buffer(q) == old(Buffer(q))
      {
        DeliverStep(c, cache, window, i);
        Deliver(p, window[i]);
      }
      assert window[..|window|] == window;
    }

    method Next() returns (r: Reply)
      modifies this`replies
      ensures Heard(old(replies), replies, r.verdict == Fine)
    {
      if replies == [] {
        return Reply(Transient, []);
      }
      r, replies := replies[0], replies[1..];
    }

    /** One store call; the cache learns of it only when it succeeded. */
    method Send(items: seq<Item>, ws: seq<Write>) returns (v: Verdict, ghost strays: seq<nat>)
      modifies this`store, this`cache, this`replies
      ensures store == if v == Fine then WrittenAll(old(store), ws) else Stray(old(store), ws, strays)
      ensures cache == if v == Fine then Acked(c, old(cache), items) else old(cache)
      ensures Heard(old(replies), replies, v == Fine)
    {
      var r := Next();
      v, strays := r.verdict, r.strays;
      if v == Fine {
        store := WrittenAll(store, ws);
        Ack(items);
      } else {
        store := Stray(store, ws, r.strays);
      }
    }

    method Ack(items: seq<Item>)
      modifies this`cache
      ensures cache == Acked(c, old(cache), items)
    {
      for i := 0 to |items|
        invariant cache == Acked(c, old(cache), items[..i])
      {
        assert items[..i + 1][..i] == items[..i];
        cache := if items[i].remove then cache - {items[i].id} else cache[items[i].id := c.hash(items[i].text)];
      }
      assert items[..|items|] == items;
    }

    method Unembedded(items: seq<Item>, vectors: map<string, seq<real>>) returns (need: seq<Item>)
      ensures forall k :: 0 <= k < |need| ==>
        need[k] in items && EmbedKey(c, need[k].id, need[k].text) !in vectors
      ensures forall k :: 0 <= k < |items| ==> EmbedKey(c, items[k].id, items[k].text) in vectors || items[k] in need
    {
      need := [];
      for i := 0 to |items|
        invariant forall k :: 0 <= k < |need| ==>
          need[k] in items && EmbedKey(c, need[k].id, need[k].text) !in vectors
        invariant forall k :: 0 <= k < i ==> EmbedKey(c, items[k].id, items[k].text) in vectors || items[k] in need
      {
        if EmbedKey(c, items[i].id, items[i].text) !in vectors {
          need := need + [items[i]];
        }
      }
    }

    /** Embeds what this flush has not embedded yet. */
    method EnsureEmbedded(items: seq<Item>, vectors: map<string, seq<real>>)
      returns (v: Verdict, vectors': map<string, seq<real>>)
      requires HashOk(c) && VectorsOk(c, vectors) && forall i :: 0 <= i < |items| ==> items[i].text in c.texts
      modifies this`replies
      ensures VectorsOk(c, vectors') && Heard(old(replies), replies, v == Fine)
      ensures v == Fine ==> forall i :: 0 <= i < |items| ==> EmbedKey(c, items[i].id, items[i].text) in vectors'
    {
      assert Left(replies, replies);
      vectors' := vectors;
      var need := Unembedded(items, vectors);
      if need == [] {
        return Fine, vectors;
      }
      var r := Next();
      v := r.verdict;
      if v != Fine {
        return;
      }
      for i := 0 to |need|
        invariant VectorsOk(c, vectors') && vectors.Keys <= vectors'.Keys && Left(old(replies), replies)
        invariant forall k :: 0 <= k < i ==> EmbedKey(c, need[k].id, need[k].text) in vectors'
      {
        VectorAdded(c, vectors', need[i]);
        vectors' := vectors'[EmbedKey(c, need[i].id, need[i].text) := c.embed(need[i].text)];
      }
    }

    /** The store calls of `items`: records made from the kept vectors, or removals. */
    method Records(items: seq<Item>, vectors: map<string, seq<real>>) returns (ws: seq<Write>)
      requires VectorsOk(c, vectors) && Known(c, items)
      requires forall i :: 0 <= i < |items| && !items[i].remove ==> EmbedKey(c, items[i].id, items[i].text) in vectors
      ensures ws == Writes(c, items)
    {
      ws := [];
      for i := 0 to |items|
        invariant ws == Writes(c, items[..i])
      {
        var it := items[i];
        ws := ws + [Write(it.id,
          if it.remove then None else Some(Record(it.text, vectors[EmbedKey(c, it.id, it.text)])))];
        assert items[..i + 1] == items[..i] + [it];
      }
      assert items[..|items|] == items;
    }

    method Prepare(items: seq<Item>, vectors: map<string, seq<real>>)
      returns (v: Verdict, vectors': map<string, seq<real>>, ws: seq<Write>)
      requires HashOk(c) && VectorsOk(c, vectors) && Known(c, items)
      modifies this`replies
      ensures VectorsOk(c, vectors') && (v == Fine ==> ws == Writes(c, items))
      ensures Heard(old(replies), replies, v == Fine)
    {
      ws := [];
      var upserts := UpsertsOf(items);
      v, vectors' := EnsureEmbedded(upserts, vectors);
      if v == Fine {
        forall i | 0 <= i < |items| && !items[i].remove ensures EmbedKey(c, items[i].id, items[i].text) in vectors' {
          assert items[i] in upserts;
        }
        ws := Records(items, vectors');
      }
    }

    /** One store call for `batch[a..e]`, acknowledged when the store takes it. */
    method SendPart(items: seq<Item>, ws: seq<Write>,
                    ghost batch: seq<Item>, ghost a: nat, ghost m: nat, ghost store0: Store, ghost cache0: Cache)
      returns (v: Verdict)
      requires HashOk(c) && ws == Writes(c, items) && Progress(c, batch, a, m, store0, cache0, store, cache)
      requires a + |items| <= |batch| && items == batch[a..a + |items|]
      modifies this`store, this`cache, this`replies
      ensures var e := a + |items|;
              Progress(c, batch, if v == Fine then e else a, Max(m, e), store0, cache0, store, cache)
      ensures Heard(old(replies), replies, v == Fine)
    {
      ghost var strays;
      v, strays := Send(items, ws);
      if v == Fine {
        CallSucceeded(c, batch, a, m, items, store0, cache0, old(store), old(cache));
      } else {
        CallFailed(c, batch, a, m, items, store0, cache0, old(store), old(cache), strays);
      }
    }

    /** Embeds and sends `batch[a..e]`. */
    method Attempt(items: seq<Item>, vectors: map<string, seq<real>>,
                   ghost batch: seq<Item>, ghost a: nat, ghost m: nat, ghost store0: Store, ghost cache0: Cache)
      returns (v: Verdict, vectors': map<string, seq<real>>, ghost a': nat, ghost m': nat)
      requires HashOk(c) && VectorsOk(c, vectors) && Progress(c, batch, a, m, store0, cache0, store, cache)
      requires a + |items| <= |batch| && items == batch[a..a + |items|]
      modifies this`store, this`cache, this`replies
      ensures VectorsOk(c, vectors') && Progress(c, batch, a', m', store0, cache0, store, cache)
      ensures a' == if v == Fine then a + |items| else a
      ensures v == Fine ==> m' == Max(m, a + |items|)
      ensures m <= m' <= Max(m, a + |items|)
      ensures Heard(old(replies), replies, v == Fine)
    {
      a', m', vectors' := a, m, vectors;
      var ws;
      v, vectors', ws := Prepare(items, vectors);
      if v == Fine {
        ghost var heard := replies;
        v := SendPart(items, ws, batch, a, m, store0, cache0);
        HeardBefore(old(replies), heard, replies, v == Fine);
        a', m' := if v == Fine then a + |items| else a, Max(m, a + |items|);
      }
    }

    /** One event at a time, after a call for all of them was rejected. */
    method Isolate(items: seq<Item>, vectors: map<string, seq<real>>,
                   ghost batch: seq<Item>, ghost a: nat, ghost m: nat, ghost store0: Store, ghost cache0: Cache)
      returns (out: Outcome, vectors': map<string, seq<real>>, ghost a': nat, ghost m': nat)
      requires HashOk(c) && VectorsOk(c, vectors) && Progress(c, batch, a, m, store0, cache0, store, cache)
      requires a + |items| <= |batch| && items == batch[a..a + |items|] && m <= a + |items|
      modifies this`store, this`cache, this`replies
      ensures VectorsOk(c, vectors') && Progress(c, batch, a', m', store0, cache0, store, cache)
      ensures out == Flushed ==> a' == m' == a + |items|
      ensures out.Poisoned? ==> a' < |batch| && out.sn == batch[a'].sn
      ensures Heard(old(replies), replies, out == Flushed)
    {
      vectors', a', m' := vectors, a, m;
      for i := 0 to |items|
        invariant VectorsOk(c, vectors') && Progress(c, batch, a', m', store0, cache0, store, cache)
        invariant a' == a + i && m' <= a + |items| && Left(old(replies), replies)
      {
        var v;
        assert [items[i]] == batch[a'..a' + 1];
        ghost var heard := replies;
        v, vectors', a', m' := Attempt([items[i]], vectors', batch, a', m', store0, cache0);
        HeardBefore(old(replies), heard, replies, v == Fine);
        if v == Poison {
          return Poisoned(items[i].sn), vectors', a', m';
        } else if v == Transient {
          return Failed, vectors', a', m';
        }
      }
      out := Flushed;
    }

    /** A delete run, or a chunk of an upsert run. */
    method FlushChunk(items: seq<Item>, vectors: map<string, seq<real>>, ghost run: Run, ghost i: nat,
                      ghost batch: seq<Item>, ghost a: nat, ghost store0: Store, ghost cache0: Cache)
      returns (out: Outcome, vectors': map<string, seq<real>>, ghost a': nat, ghost m': nat)
      requires HashOk(c) && VectorsOk(c, vectors) && Progress(c, batch, a, a, store0, cache0, store, cache)
      requires IsChunk(c, run, i, i + |items|) && items == run.items[i..i + |items|]
      requires a + |items| <= |batch| && items == batch[a..a + |items|]
      modifies this`store, this`cache, this`replies
      ensures VectorsOk(c, vectors') && Progress(c, batch, a', m', store0, cache0, store, cache)
      ensures out == Flushed ==> a' == m' == a + |items|
      ensures out.Poisoned? ==> a' < |batch| && out.sn == batch[a'].sn
      ensures Heard(old(replies), replies, out == Flushed)
    {
      var v;
      v, vectors', a', m' := Attempt(items, vectors, batch, a, a, store0, cache0);
      if v == Fine {
        out := Flushed;
      } else if v == Transient {
        out := Failed;
      } else if |items| > 1 {
        ghost var heard := replies;
        out, vectors', a', m' := Isolate(items, vectors', batch, a', m', store0, cache0);
        HeardBefore(old(replies), heard, replies, out == Flushed);
      } else {
        out := Poisoned(items[0].sn);
      }
    }

    /** Deletes go in one call, upserts in chunks of at most the batch limit and the
        embedder's cap. */
    method FlushRun(run: Run, vectors: map<string, seq<real>>,
                    ghost batch: seq<Item>, ghost a: nat, ghost store0: Store, ghost cache0: Cache)
      returns (out: Outcome, vectors': map<string, seq<real>>, ghost a': nat, ghost m': nat)
      requires HashOk(c) && VectorsOk(c, vectors) && Progress(c, batch, a, a, store0, cache0, store, cache)
      requires IsRun(run) && a + |run.items| <= |batch| && run.items == batch[a..a + |run.items|]
      modifies this`store, this`cache, this`replies
      ensures VectorsOk(c, vectors') && Progress(c, batch, a', m', store0, cache0, store, cache)
      ensures out == Flushed ==> a' == m' == a + |run.items|
      ensures out.Poisoned? ==> a' < |batch| && out.sn == batch[a'].sn
      ensures Heard(old(replies), replies, out == Flushed)
    {
      var items, i := run.items, 0;
      var size := if run.remove then |items| else if 0 < c.cap < c.batchMax then c.cap else c.batchMax;
      if size < 1 {
        size := 1;
      }
      out, vectors', a', m' := Flushed, vectors, a, a;
      while i < |items|
        invariant 0 <= i <= |items| && a' == m' == a + i && (run.remove && i > 0 ==> i == |items|)
        invariant VectorsOk(c, vectors') && Progress(c, batch, a', m', store0, cache0, store, cache)
        invariant out == Flushed && Left(old(replies), replies)
      {
        ghost var heard := replies;
        var end := if i + size < |items| then i + size else |items|;
        SliceOfSlice(batch, a, |items|, i, end);
        out, vectors', a', m' := FlushChunk(items[i..end], vectors', run, i, batch, a', store0, cache0);
        HeardBefore(old(replies), heard, replies, out == Flushed);
        if out != Flushed {
          return;
        }
        i := end;
      }
    }

    /** Run by run, up to the first failure. */
    method FlushRuns(batch: seq<Item>) returns (out: Outcome, ghost a: nat, ghost m: nat)
      requires HashOk(c) && RecordsOk(c, store) && Known(c, batch)
      modifies this`store, this`cache, this`replies
      ensures Progress(c, batch, a, m, old(store), old(cache), store, cache)
      ensures out == Flushed ==> a == m == |batch|
      ensures out.Poisoned? ==> a < |batch| && out.sn == batch[a].sn
      ensures Heard(old(replies), replies, out == Flushed)
    {
      a, m, out := 0, 0, Flushed;
      var runs := SplitRuns(batch);
      var vectors: map<string, seq<real>> := map[];
      for r := 0 to |runs|
        invariant a == m == |Flatten(runs[..r])| && out == Flushed && Left(old(replies), replies)
        invariant VectorsOk(c, vectors) && Progress(c, batch, a, m, old(store), old(cache), store, cache)
      {
        FlattenPrefix(runs, r);
        ghost var heard := replies;
        out, vectors, a, m := FlushRun(runs[r], vectors, batch, a, old(store), old(cache));
        HeardBefore(old(replies), heard, replies, out == Flushed);
        if out != Flushed {
          return;
        }
      }
      assert runs[..|runs|] == runs;
    }

    /** Empties the buffer of one partition and writes it out. */
    method FlushBatch(p: nat) returns (out: Outcome, ghost a: nat, ghost m: nat)
      requires Valid()
      modifies this
      ensures Valid() && Buffer(p) == [] && forall q :: q != p ==> Buffer(q) == old(Buffer(q))
      ensures Progress(c, old(Buffer(p)), a, m, old(store), old(cache), store, cache)
      ensures out == Flushed ==> a == m == |old(Buffer(p))|
      ensures out.Poisoned? ==> a < |old(Buffer(p))| && out.sn == old(Buffer(p))[a].sn
      ensures Heard(old(replies), replies, out == Flushed)
    {
      var batch := Buffer(p);
      pending, pendingIds := pending - {p}, pendingIds - {p};
      out, a, m := FlushRuns(batch);
    }

    /** One attempt at the events of `window`, which start `ahead`. It fails only when a call
        does. */
    method TryWindow(p: nat, window: seq<Event>, ghost first: Store, ghost done: seq<Item>, ghost rest: seq<Item>)
      returns (ok: bool)
      requires Valid() && Buffer(p) == [] && KnownEvents(c, window)
      requires Tracked(c, first, done, ItemsOf(window) + rest, store, cache)
      modifies this
      ensures Valid() && Buffer(p) == [] && Heard(old(replies), replies, ok)
      ensures ok ==> Tracked(c, first, done + ItemsOf(window), rest, store, cache)
      ensures !ok ==> Tracked(c, first, done, ItemsOf(window) + rest, store, cache)
    {
      ghost var items, store0, cache0 := ItemsOf(window), store, cache;
      ItemsKnown(c, window);
      DeliverAll(p, window);
      var out;
      ghost var a, m;
      out, a, m := FlushBatch(p);
      ok := out == Flushed;
      if ok {
        FlushTracked(c, first, done, items, rest, store0, cache0, store, cache);
      } else {
        FailureTracked(c, first, done, items, rest, a, m, store0, cache0, store, cache);
      }
    }

    /** An attempt at part of a stream. */
    method TryPart(p: nat, stream: seq<Event>, from: nat, end: nat, ghost first: Store, ghost at: Place)
      returns (ok: bool)
      requires Valid() && Buffer(p) == [] && KnownEvents(c, stream) && from <= at.pos && from <= end <= |stream|
      requires OnStream(c, stream, first, at, store, cache)
      modifies this
      ensures Valid() && Buffer(p) == [] && Heard(old(replies), replies, ok)
      ensures OnStream(c, stream, first, Place(if ok then end else from, Max(at.hi, end)), store, cache)
    {
      ghost var hi := Max(at.hi, end);
      Reaches(c, stream, from, at.pos, at.hi, end, first, store, cache);
      var window := stream[from..end];
      KnownPart(c, stream, from, end);
      ok := TryWindow(p, window, first, ItemsOf(stream[..from]), ItemsOf(stream[end..hi]));
      Tried(c, stream, from, end, hi, first, store, cache, ok);
    }

    /** The next attempt, from `pos` or further back. */
    method TryNext(p: nat, stream: seq<Event>, w: Window, pos: nat, ghost first: Store, ghost at: Place)
      returns (ok: bool, pos': nat)
      requires Valid() && Buffer(p) == [] && KnownEvents(c, stream) && pos == at.pos
      requires OnStream(c, stream, first, at, store, cache)
      modifies this
      ensures Valid() && Buffer(p) == [] && Heard(old(replies), replies, ok)
      ensures pos' == Moved(at, w, ok, |stream|).pos
      ensures OnStream(c, stream, first, Moved(at, w, ok, |stream|), store, cache)
    {
      var from, end := From(w, pos), End(w, pos, |stream|);
      ok := TryPart(p, stream, from, end, first, at);
      pos' := if ok then end else from;
    }

    /** Any attempts at a stream of events, each from where the last successful one ended or, after
        a restart, from further back, and each as far as it likes. Their outcomes say how far the
        stream is flushed and how far any attempt reached; where the two meet, every id holds what
        applying the stream up to there one event at a time gives. An attempt fails only when a
        call does. */
    method DeliverStream(p: nat, stream: seq<Event>, tries: seq<Window>) returns (pos: nat, oks: seq<bool>)
      requires Valid() && Buffer(p) == [] && KnownEvents(c, stream) && forall id :: Healthy(c, store, cache, id)
      modifies this
      ensures Valid() && Buffer(p) == [] && |oks| == |tries| && Heard(old(replies), replies, false !in oks)
      ensures pos == PlaceAfter(tries, oks, |stream|, |tries|).pos
      ensures OnStream(c, stream, old(store), PlaceAfter(tries, oks, |stream|, |tries|), store, cache)
      ensures pos == PlaceAfter(tries, oks, |stream|, |tries|).hi ==>
        store == Sequential(c, old(store), stream[..pos]) && forall id :: Healthy(c, store, cache, id)
      ensures pos == PlaceAfter(tries, oks, |stream|, |tries|).hi ==>
        forall id :: LastWord(c, old(store), stream[..pos], id, Lookup(store, id))
    {
      pos, oks := 0, [];
      ghost var at := Place(0, 0);
      StartsTracked(c, stream, store, cache);
      for n := 0 to |tries|
        invariant |oks| == n && at == PlaceAfter(tries, oks, |stream|, n) && pos == at.pos
        invariant Valid() && Buffer(p) == [] && OnStream(c, stream, old(store), at, store, cache)
        invariant Heard(old(replies), replies, false !in oks)
      {
        ghost var heard := replies;
        var ok;
        ok, pos := TryNext(p, stream, tries[n], pos, old(store), at);
        HeardMore(old(replies), heard, replies, oks, ok);
        PlaceStays(tries, oks, oks + [ok], |stream|, n);
        at, oks := Moved(at, tries[n], ok, |stream|), oks + [ok];
      }
      WhereTheyMeet(c, stream, old(store), at, store, cache);
    }
  }

  lemma WhereTheyMeet(c: Config, stream: seq<Event>, first: Store, at: Place, store: Store, cache: Cache)
    requires OnStream(c, stream, first, at, store, cache)
    ensures at.pos == at.hi ==>
      store == Sequential(c, first, stream[..at.pos]) && forall id :: Healthy(c, store, cache, id)
    ensures at.pos == at.hi ==> forall id :: LastWord(c, first, stream[..at.pos], id, Lookup(store, id))
  {
    if at.pos == at.hi {
      assert stream[at.pos..at.hi] == [];
      CaughtUp(c, first, ItemsOf(stream[..at.pos]), store, cache);
      forall id ensures LastWord(c, first, stream[..at.pos], id, Lookup(store, id)) {
        SequentialSays(c, first, stream[..at.pos], id);
      }
    }
  }

  /** Flushed up to `pos`; attempts reached to `hi`. */
  datatype Place = Place(pos: nat, hi: nat)

  function From(w: Window, pos: nat): (from: nat)
    ensures from <= pos
  {
    if w.from < pos then w.from else pos
  }

  function End(w: Window, pos: nat, len: nat): (end: nat)
    requires pos <= len
    ensures From(w, pos) <= end <= len
  {
    if w.end < From(w, pos) then From(w, pos) else if w.end > len then len else w.end
  }

  function Moved(at: Place, w: Window, ok: bool, len: nat): (at': Place)
    requires at.pos <= at.hi <= len
    ensures at'.pos <= at'.hi <= len
  {
    var from, end := From(w, at.pos), End(w, at.pos, len);
    Place(if ok then end else from, Max(at.hi, end))
  }

  /** Where the first `n` attempts leave the stream, given their outcomes. */
  function PlaceAfter(tries: seq<Window>, oks: seq<bool>, len: nat, n: nat): (at: Place)
    requires n <= |tries| && n <= |oks|
    ensures at.pos <= at.hi <= len
  {
    if n == 0 then Place(0, 0)
    else
      Moved(PlaceAfter(tries, oks, len, n - 1), tries[n - 1], oks[n - 1], len)
  }

  lemma {:induction false} PlaceStays(tries: seq<Window>, oks: seq<bool>, more: seq<bool>, len: nat, n: nat)
    requires n <= |tries| && n <= |oks| && oks <= more
    ensures PlaceAfter(tries, more, len, n) == PlaceAfter(tries, oks, len, n)
  {
    if n > 0 {
      PlaceStays(tries, oks, more, len, n - 1);
    }
  }

  ghost predicate KnownEvents(c: Config, stream: seq<Event>) {
    forall i :: 0 <= i < |stream| ==> Known(c, ItemOf(stream[i]))
  }

  ghost predicate OnStream(c: Config, stream: seq<Event>, first: Store, at: Place, store: Store, cache: Cache) {
    && at.pos <= at.hi <= |stream|
    && Tracked(c, first, ItemsOf(stream[..at.pos]), ItemsOf(stream[at.pos..at.hi]), store, cache)
  }

  /** Where an attempt starts, if that is further back than the last one ended, and ends. */
  datatype Window = Window(from: nat, end: nat)

  lemma StartsTracked(c: Config, stream: seq<Event>, store: Store, cache: Cache)
    requires forall id :: Healthy(c, store, cache, id)
    ensures Tracked(c, store, ItemsOf(stream[..0]), ItemsOf(stream[0..0]), store, cache)
  {
  }

  lemma KnownPart(c: Config, stream: seq<Event>, from: nat, end: nat)
    requires KnownEvents(c, stream) && from <= end <= |stream|
    ensures KnownEvents(c, stream[from..end])
  {
    assert forall i :: 0 <= i < end - from ==> stream[from..end][i] == stream[from + i];
  }

  /** Where the stream stands after an attempt. */
  lemma {:induction false} Tried(c: Config, stream: seq<Event>, from: nat, end: nat, hi: nat, first: Store,
                                 store: Store, cache: Cache, ok: bool)
    requires from <= end <= hi <= |stream|
    requires var done, here, rest := ItemsOf(stream[..from]), ItemsOf(stream[from..end]), ItemsOf(stream[end..hi]);
             if ok then Tracked(c, first, done + here, rest, store, cache)
             else Tracked(c, first, done, here + rest, store, cache)
    ensures OnStream(c, stream, first, Place(if ok then end else from, hi), store, cache)
  {
    JoinWindows(stream, from, end, hi);
  }

  lemma SlicesJoin(stream: seq<Event>, x: nat, y: nat, z: nat)
    requires x <= y <= z <= |stream|
    ensures stream[x..y] + stream[y..z] == stream[x..z]
  {
  }

  lemma {:induction false} JoinItems(stream: seq<Event>, x: nat, y: nat, z: nat)
    requires x <= y <= z <= |stream|
    ensures ItemsOf(stream[x..y]) + ItemsOf(stream[y..z]) == ItemsOf(stream[x..z])
  {
    SlicesJoin(stream, x, y, z);
    ItemsOfConcat(stream[x..y], stream[y..z]);
  }

  /** Items before, inside and after a window. */
  lemma {:induction false} JoinWindows(stream: seq<Event>, from: nat, end: nat, hi: nat)
    requires from <= end <= hi <= |stream|
    ensures ItemsOf(stream[..from]) + ItemsOf(stream[from..end]) == ItemsOf(stream[..end])
    ensures ItemsOf(stream[from..end]) + ItemsOf(stream[end..hi]) == ItemsOf(stream[from..hi])
  {
    assert stream[0..from] == stream[..from] && stream[0..end] == stream[..end];
    JoinItems(stream, 0, from, end);
    JoinItems(stream, from, end, hi);
  }

  /** An attempt from `from` to `end` is about what is ahead of `from`. */
  lemma Reaches(c: Config, stream: seq<Event>, from: nat, pos: nat, hi: nat, end: nat, first: Store, store: Store,
                cache: Cache)
    requires from <= pos <= hi <= |stream| && from <= end <= |stream|
    requires Tracked(c, first, ItemsOf(stream[..pos]), ItemsOf(stream[pos..hi]), store, cache)
    ensures Tracked(c, first, ItemsOf(stream[..from]), ItemsOf(stream[from..end]) + ItemsOf(stream[end..Max(hi, end)]),
        store, cache)
  {
    var hi' := Max(hi, end);
    JoinWindows(stream, from, pos, hi);
    JoinWindows(stream, from, hi, hi');
    JoinWindows(stream, from, end, hi');
    TrackedWiden(c, first, ItemsOf(stream[..from]), ItemsOf(stream[from..pos]), ItemsOf(stream[pos..hi]),
                 ItemsOf(stream[hi..hi']), store, cache);
  }

  lemma CaughtUp(c: Config, first: Store, done: seq<Item>, store: Store, cache: Cache)
    requires Tracked(c, first, done, [], store, cache)
    ensures store == WrittenAll(first, Writes(c, done)) && forall id :: Healthy(c, store, cache, id)
  {
    forall id ensures Lookup(store, id) == Lookup(WrittenAll(first, Writes(c, done)), id) &&
        Healthy(c, store, cache, id) {
      assert Ready(c, store, cache, [], id) && !Mentions([], id);
      WrittenValue(c, first, done, id);
    }
    SameLookups(store, WrittenAll(first, Writes(c, done)));
  }

  lemma {:induction false} DeliverStep(c: Config, cache: Cache, window: seq<Event>, i: nat)
    requires i < |window|
    ensures var before, after := DeliveredAll(c, cache, ItemsOf(window[..i])), DeliveredAll(c, cache,
                                              ItemsOf(window[..i + 1]));
            after == if ItemOf(window[i]) == [] then before else Delivered(c, cache, before, ItemOf(window[i])[0])
  {
    var items, more := ItemsOf(window[..i]), ItemOf(window[i]);
    ItemsStep(window, i);
    if more == [] {
      assert items + more == items;
    } else {
      assert more == [more[0]];
    }
  }

  lemma {:induction false} ItemsStep(window: seq<Event>, i: nat)
    requires i < |window|
    ensures ItemsOf(window[..i + 1]) == ItemsOf(window[..i]) + ItemOf(window[i])
  {
    assert window[..i + 1][..i] == window[..i];
  }

  lemma SliceOfSlice(batch: seq<Item>, a: nat, n: nat, i: nat, end: nat)
    requires i <= end <= n && a + n <= |batch|
    ensures batch[a..a + n][i..end] == batch[a + i..a + end]
  {
    var x, y := batch[a..a + n][i..end], batch[a + i..a + end];
    forall k | 0 <= k < end - i ensures x[k] == y[k] {
      assert x[k] == batch[a..a + n][i + k];
    }
  }

  method UpsertsOf(items: seq<Item>) returns (ups: seq<Item>)
    ensures forall it :: it in ups <==> it in items && !it.remove
  {
    ups := [];
    for i := 0 to |items|
      invariant forall it :: it in ups <==> it in items[..i] && !it.remove
    {
      if !items[i].remove {
        ups := ups + [items[i]];
      }
    }
  }

  lemma {:induction false} ItemsKnown(c: Config, window: seq<Event>)
    requires forall i :: 0 <= i < |window| ==> Known(c, ItemOf(window[i]))
    ensures Known(c, ItemsOf(window))
  {
    if window != [] {
      ItemsKnown(c, window[..|window| - 1]);
    }
  }

  lemma SameLookups(x: Store, y: Store)
    requires forall id :: Lookup(x, id) == Lookup(y, id)
    ensures x == y
  {
    assert forall id :: id in x <==> Lookup(x, id).Some?;
    assert forall id :: id in y <==> Lookup(y, id).Some?;
    assert x.Keys == y.Keys;
    forall id | id in x ensures x[id] == y[id] {
      assert Lookup(x, id) == Lookup(y, id);
    }
  }
}
