/** What a vector sink's buffer, store and hash cache mean (internal/output/vector/consumer.go):
    which events are buffered, what a flush that got so far has done, and why skipping a text
    whose hash is cached is harmless. */
module VectorModel {
  import opened Common

  type Id = string

  datatype Record = Record(text: string, vector: seq<real>)

  /** The text hash, the embedder, the two limits on a chunk (`cap == 0`: no limit), and the
      texts that occur. */
  datatype Config = Config(hash: string -> string, embed: string -> seq<real>, batchMax: nat, cap: nat,
                           texts: set<string>)

  /** A delivered change; a control event has no id, and a text may be empty. */
  datatype Event = Upsert(sn: nat, id: Id, text: string) | Remove(sn: nat, id: Id) | Control(sn: nat)

  datatype Item = Item(sn: nat, id: Id, text: string, remove: bool)

  type Store = map<Id, Record>
  type Cache = map<Id, string>

  /** Hashes have one length, and no two texts that occur collide. */
  ghost predicate HashOk(c: Config) {
    && (forall a :: |c.hash(a)| == 32)
    && (forall a, b :: a in c.texts && b in c.texts && c.hash(a) == c.hash(b) ==> a == b)
  }

  /** Every stored vector is the embedding of the text stored with it. */
  ghost predicate RecordsOk(c: Config, store: Store) {
    forall id :: id in store ==> store[id].text in c.texts && store[id].vector == c.embed(store[id].text)
  }

  ghost predicate Known(c: Config, items: seq<Item>) {
    forall i :: 0 <= i < |items| && !items[i].remove ==> items[i].text in c.texts
  }

  // ----- one event at a time: the reference -----

  function Effect(c: Config, it: Item): (r: Option<Record>) {
    if it.remove then None else Some(Record(it.text, c.embed(it.text)))
  }

  /** The change an event asks for: nothing for control events and empty texts. */
  function ItemOf(ev: Event): (items: seq<Item>) {
    match ev
    case Upsert(sn, id, text) => if text == "" then [] else [Item(sn, id, text, false)]
    case Remove(sn, id) => [Item(sn, id, "", true)]
    case Control(_) => []
  }

  function ItemsOf(window: seq<Event>): (items: seq<Item>) {
    if window == [] then [] else ItemsOf(window[..|window| - 1]) + ItemOf(window[|window| - 1])
  }

  datatype Write = Write(id: Id, value: Option<Record>)

  function Written(store: Store, w: Write): (store': Store) {
    if w.value.Some? then store[w.id := w.value.value] else store - {w.id}
  }

  function WrittenAll(store: Store, ws: seq<Write>): (store': Store) {
    if ws == [] then store else Written(WrittenAll(store, ws[..|ws| - 1]), ws[|ws| - 1])
  }

  function Writes(c: Config, items: seq<Item>): (ws: seq<Write>)
    ensures |ws| == |items|
  {
    seq(|items|, i requires 0 <= i < |items| => Write(items[i].id, Effect(c, items[i])))
  }

  /** Applying all events of a window in log order, one at a time. */
  function Sequential(c: Config, store: Store, window: seq<Event>): (store': Store) {
    WrittenAll(store, Writes(c, ItemsOf(window)))
  }

  // ----- per id, only the last change counts -----

  function LastOf(items: seq<Item>, id: Id): (r: Option<Item>) {
    if items == [] then None
    else if items[|items| - 1].id == id then Some(items[|items| - 1])
    else LastOf(items[..|items| - 1], id)
  }

  ghost predicate Mentions(items: seq<Item>, id: Id) {
    exists j :: 0 <= j < |items| && items[j].id == id
  }

  function ValueAfter(c: Config, store: Store, items: seq<Item>, id: Id): (r: Option<Record>) {
    var last := LastOf(items, id);
    if last.None? then Lookup(store, id) else Effect(c, last.value)
  }

  function HashAfter(c: Config, cache: Cache, items: seq<Item>, id: Id): (r: Option<string>) {
    var last := LastOf(items, id);
    if last.None? then Lookup(cache, id) else if last.value.remove then None else Some(c.hash(last.value.text))
  }

  lemma {:induction false} LastIsMentioned(items: seq<Item>, id: Id)
    ensures LastOf(items, id).Some? <==> Mentions(items, id)
    ensures LastOf(items, id).Some? ==> LastOf(items, id).value in items && LastOf(items, id).value.id == id
  {
    if items != [] && items[|items| - 1].id != id {
      var init := items[..|items| - 1];
      LastIsMentioned(init, id);
      if Mentions(items, id) {
        var j :| 0 <= j < |items| && items[j].id == id;
        assert init[j].id == id;
      }
    }
  }

  lemma {:induction false} LastOfConcat(a: seq<Item>, b: seq<Item>, id: Id)
    ensures LastOf(a + b, id) == if LastOf(b, id).Some? then LastOf(b, id) else LastOf(a, id)
  {
    if b == [] {
      assert a + b == a;
    } else {
      assert (a + b)[..|a + b| - 1] == a + b[..|b| - 1];
      LastOfConcat(a, b[..|b| - 1], id);
    }
  }

  lemma {:induction false} WrittenValue(c: Config, store: Store, items: seq<Item>, id: Id)
    ensures Lookup(WrittenAll(store, Writes(c, items)), id) == ValueAfter(c, store, items, id)
  {
    if items != [] {
      var n := |items| - 1;
      assert Writes(c, items)[..n] == Writes(c, items[..n]);
      WrittenValue(c, store, items[..n], id);
    }
  }

  // ----- what the events themselves say -----

  /** The event changes `id`; an upsert without text does not. */
  predicate Names(ev: Event, id: Id) {
    (ev.Remove? && ev.id == id) || (ev.Upsert? && ev.id == id && ev.text != "")
  }

  predicate NamedLast(events: seq<Event>, j: nat, id: Id) {
    j < |events| && Names(events[j], id) && forall i :: j < i < |events| ==> !Names(events[i], id)
  }

  /** `v` is what the last event that changes `id` says: nothing after a delete, else its text with
      that text's embedding; without such an event, what was there at first. */
  ghost predicate LastWord(c: Config, first: Store, events: seq<Event>, id: Id, v: Option<Record>) {
    && (forall j: nat :: NamedLast(events, j, id) && events[j].Remove? ==> v == None)
    && (forall j: nat :: NamedLast(events, j, id) && events[j].Upsert? ==>
          v == Some(Record(events[j].text, c.embed(events[j].text))))
    && ((forall j :: 0 <= j < |events| ==> !Names(events[j], id)) ==> v == Lookup(first, id))
  }

  lemma LastWordNext(c: Config, first: Store, events: seq<Event>, ev: Event, id: Id, v: Option<Record>)
    requires LastWord(c, first, events, id, v)
    ensures !Names(ev, id) ==> LastWord(c, first, events + [ev], id, v)
    ensures Names(ev, id) && ev.Remove? ==> LastWord(c, first, events + [ev], id, None)
    ensures Names(ev, id) && ev.Upsert? ==>
      LastWord(c, first, events + [ev], id, Some(Record(ev.text, c.embed(ev.text))))
  {
    var n, more := |events|, events + [ev];
    assert more[n] == ev;
    forall j: nat | NamedLast(more, j, id) ensures if Names(ev, id) then j == n else NamedLast(events, j, id) {
      assert j < n ==> forall i :: j < i < n ==> more[i] == events[i];
    }
    assert forall j :: 0 <= j < n ==> more[j] == events[j];
  }

  lemma {:induction false} SequentialSays(c: Config, first: Store, events: seq<Event>, id: Id)
    ensures LastWord(c, first, events, id, Lookup(Sequential(c, first, events), id))
  {
    WrittenValue(c, first, ItemsOf(events), id);
    ValueSays(c, first, events, id);
  }

  lemma {:induction false} ValueSays(c: Config, first: Store, events: seq<Event>, id: Id)
    ensures LastWord(c, first, events, id, ValueAfter(c, first, ItemsOf(events), id))
  {
    if events != [] {
      var n := |events| - 1;
      var before, last := ItemsOf(events[..n]), ItemOf(events[n]);
      assert events == events[..n] + [events[n]];
      ValueSays(c, first, events[..n], id);
      LastWordNext(c, first, events[..n], events[n], id, ValueAfter(c, first, before, id));
      ValueNext(c, first, before, events[n], id);
    }
  }

  lemma ValueNext(c: Config, first: Store, before: seq<Item>, ev: Event, id: Id)
    ensures ValueAfter(c, first, before + ItemOf(ev), id) ==
            if !Names(ev, id) then ValueAfter(c, first, before, id)
            else if ev.Remove? then None
            else Some(Record(ev.text, c.embed(ev.text)))
  {
    LastOfConcat(before, ItemOf(ev), id);
    assert LastOf([], id) == None;
  }

  /** An item is one event's change, under that event's sequence number. */
  predicate IsChangeOf(it: Item, ev: Event) {
    it.sn == ev.sn && Names(ev, it.id) && it.remove == ev.Remove? && (ev.Upsert? ==> it.text == ev.text)
  }

  /** The items of a window are the changes its events ask for, each once and in order. */
  ghost predicate ChangesAt(events: seq<Event>, items: seq<Item>, at: seq<nat>) {
    && |at| == |items| && (forall x, y :: 0 <= x < y < |at| ==> at[x] < at[y])
    && (forall x :: 0 <= x < |at| ==> at[x] < |events| && IsChangeOf(items[x], events[at[x]]))
    && (forall j :: 0 <= j < |events| && j !in at ==> forall id :: !Names(events[j], id))
  }

  lemma {:induction false} ItemsAreChanges(events: seq<Event>) returns (at: seq<nat>)
    ensures ChangesAt(events, ItemsOf(events), at)
  {
    at := [];
    if events != [] {
      var n := |events| - 1;
      at := ItemsAreChanges(events[..n]);
      ChangesNext(events, ItemsOf(events[..n]), at);
      at := if ItemOf(events[n]) == [] then at else at + [n];
    }
  }

  lemma ChangesNext(events: seq<Event>, items: seq<Item>, at: seq<nat>)
    requires events != [] && ChangesAt(events[..|events| - 1], items, at)
    ensures var n := |events| - 1;
            var more := ItemOf(events[n]);
            ChangesAt(events, items + more, if more == [] then at else at + [n])
  {
    var n := |events| - 1;
    var more := ItemOf(events[n]);
    var at' := if more == [] then at else at + [n];
    assert forall x :: 0 <= x < |at| ==> events[..n][at[x]] == events[at[x]];
    assert more != [] ==> at'[|at|] == n && IsChangeOf(more[0], events[n]);
    forall j | 0 <= j < |events| && j !in at' ensures forall id :: !Names(events[j], id) {
      if j < n {
        assert events[..n][j] == events[j] && j !in at;
      }
    }
  }

  // ----- buffering -----

  /** Deliver's test: an unchanged text is skipped unless its id is already buffered. */
  predicate Skips(c: Config, cache: Cache, pending: seq<Item>, it: Item) {
    !it.remove && Lookup(cache, it.id) == Some(c.hash(it.text)) && LastOf(pending, it.id).None?
  }

  function Delivered(c: Config, cache: Cache, pending: seq<Item>, it: Item): (pending': seq<Item>) {
    if Skips(c, cache, pending, it) then pending else pending + [it]
  }

  function DeliveredAll(c: Config, cache: Cache, items: seq<Item>): (pending: seq<Item>) {
    if items == [] then []
    else Delivered(c, cache, DeliveredAll(c, cache, items[..|items| - 1]), items[|items| - 1])
  }

  /** Some change to `id` differs from what the cache says is stored. */
  ghost predicate Differs(c: Config, cache: Cache, items: seq<Item>, id: Id) {
    exists j :: 0 <= j < |items| && items[j].id == id &&
        (items[j].remove || Lookup(cache, id) != Some(c.hash(items[j].text)))
  }

  /** An id is buffered exactly when some change to it differs from the cache, and then its
      last change is. */
  lemma {:induction false} BufferedWhenDifferent(c: Config, cache: Cache, items: seq<Item>, id: Id)
    ensures LastOf(DeliveredAll(c, cache, items), id).Some? <==> Differs(c, cache, items, id)
    ensures Differs(c, cache, items, id) ==> LastOf(DeliveredAll(c, cache, items), id) == LastOf(items, id)
  {
    if items != [] {
      var init, it := items[..|items| - 1], items[|items| - 1];
      BufferedWhenDifferent(c, cache, init, id);
      DiffersStep(c, cache, items, id);
      var q := DeliveredAll(c, cache, init);
      assert (q + [it])[..|q|] == q;
    }
  }

  lemma DiffersStep(c: Config, cache: Cache, items: seq<Item>, id: Id)
    requires items != []
    ensures var it := items[|items| - 1];
            Differs(c, cache, items, id) <==>
              Differs(c, cache, items[..|items| - 1], id) ||
                  (it.id == id && (it.remove || Lookup(cache, id) != Some(c.hash(it.text))))
  {
    var init := items[..|items| - 1];
    if Differs(c, cache, init, id) {
      var j :| 0 <= j < |init| && init[j].id == id &&
          (init[j].remove || Lookup(cache, id) != Some(c.hash(init[j].text)));
      assert items[j] == init[j];
    }
    if Differs(c, cache, items, id) {
      var j :| 0 <= j < |items| && items[j].id == id &&
          (items[j].remove || Lookup(cache, id) != Some(c.hash(items[j].text)));
      assert j < |init| ==> init[j] == items[j];
    }
  }

  // ----- cache and store -----

  /** The cached hash, if any, is that of the stored text. */
  ghost predicate Healthy(c: Config, store: Store, cache: Cache, id: Id) {
    id in cache ==> id in store && cache[id] == c.hash(store[id].text)
  }

  /** Delivering these changes repairs `id`: it is healthy, or one of them is bound to be
      buffered. */
  ghost predicate Ready(c: Config, store: Store, cache: Cache, items: seq<Item>, id: Id) {
    Healthy(c, store, cache, id) || Differs(c, cache, items, id)
  }

  /** Skipping loses nothing: for a ready id the buffered changes and all changes have the
      same effect, and flushing them leaves the id healthy. */
  lemma SkippingIsHarmless(c: Config, store: Store, cache: Cache, items: seq<Item>, id: Id)
    requires HashOk(c) && Known(c, items) && RecordsOk(c, store) && Ready(c, store, cache, items, id)
    ensures var pending := DeliveredAll(c, cache, items);
            && ValueAfter(c, store, pending, id) == ValueAfter(c, store, items, id)
            && HashAfter(c, cache, pending, id) ==
                 (if Mentions(items, id) then HashAfter(c, cache, items, id) else Lookup(cache, id))
            && (ValueAfter(c, store, pending, id).None? ==> HashAfter(c, cache, pending, id).None?)
            && (HashAfter(c, cache, pending, id).Some? ==>
                  HashAfter(c, cache, pending, id).value == c.hash(ValueAfter(c, store, pending, id).value.text))
  {
    BufferedWhenDifferent(c, cache, items, id);
    LastIsMentioned(items, id);
    if !Differs(c, cache, items, id) && Mentions(items, id) {
      var last := LastOf(items, id).value;
      var j :| 0 <= j < |items| && items[j] == last;
      assert c.hash(last.text) == c.hash(store[id].text);
    }
  }

  /** Readiness is exactly what skipping needs: any other id the window mentions is skipped
      and keeps a text that is not the last one. */
  lemma HarmlessExactlyWhenReady(c: Config, store: Store, cache: Cache, items: seq<Item>, id: Id)
    requires HashOk(c) && Known(c, items) && RecordsOk(c, store) && Mentions(items, id)
    ensures ValueAfter(c, store, DeliveredAll(c, cache, items), id) == ValueAfter(c, store, items, id) <==>
            Ready(c, store, cache, items, id)
  {
    if Ready(c, store, cache, items, id) {
      SkippingIsHarmless(c, store, cache, items, id);
    } else {
      BufferedWhenDifferent(c, cache, items, id);
      LastIsMentioned(items, id);
      var last := LastOf(items, id).value;
      var j :| 0 <= j < |items| && items[j] == last;
      assert cache[id] == c.hash(last.text);
    }
  }

  // ----- a flush in progress -----

  ghost predicate Touched(c: Config, items: seq<Item>, id: Id, v: Option<Record>) {
    exists j :: 0 <= j < |items| && items[j].id == id && v == Effect(c, items[j])
  }

  /** The flush of `batch` has completed and acknowledged its first `a` changes; calls that
      failed may have left traces of the changes up to `m`. */
  ghost predicate Progress(c: Config, batch: seq<Item>, a: nat, m: nat, store0: Store, cache0: Cache, store: Store,
                           cache: Cache) {
    && a <= m <= |batch|
    && Known(c, batch) && RecordsOk(c, store)
    && (forall id :: Lookup(cache, id) == HashAfter(c, cache0, batch[..a], id))
    && (forall id ::
          Lookup(store, id) == ValueAfter(c, store0, batch[..a], id) ||
          Touched(c, batch[a..m], id, Lookup(store, id)))
  }

  lemma TouchedWiden(c: Config, batch: seq<Item>, a: nat, m: nat, b: nat, n: nat, id: Id, v: Option<Record>)
    requires b <= a <= m <= n <= |batch| && Touched(c, batch[a..m], id, v)
    ensures Touched(c, batch[b..n], id, v)
  {
    var j :| 0 <= j < m - a && batch[a..m][j].id == id && v == Effect(c, batch[a..m][j]);
    assert batch[b..n][j + a - b] == batch[a..m][j];
  }

  lemma TouchedNarrow(c: Config, batch: seq<Item>, a: nat, e: nat, m: nat, id: Id, v: Option<Record>)
    requires a <= e <= |batch| && a <= m <= |batch| && Touched(c, batch[a..m], id, v)
    ensures Mentions(batch[a..e], id) || Touched(c, batch[e..Max(m, e)], id, v)
  {
    var j :| 0 <= j < m - a && batch[a..m][j].id == id && v == Effect(c, batch[a..m][j]);
    if j < e - a {
      assert batch[a..e][j] == batch[a..m][j];
    } else {
      assert batch[e..m][j - (e - a)] == batch[a..m][j];
    }
  }

  lemma {:induction false} WrittenRecordsOk(c: Config, store: Store, items: seq<Item>)
    requires Known(c, items) && RecordsOk(c, store)
    ensures RecordsOk(c, WrittenAll(store, Writes(c, items)))
  {
    if items != [] {
      var n := |items| - 1;
      assert Writes(c, items)[..n] == Writes(c, items[..n]);
      WrittenRecordsOk(c, store, items[..n]);
    }
  }

  /** A failed call: any of its writes, in any order, may have reached the store. */
  function Stray(store: Store, ws: seq<Write>, order: seq<nat>): (store': Store) {
    if order == [] then store
    else
      var before := Stray(store, ws, order[..|order| - 1]);
      var n := order[|order| - 1];
      if n < |ws| then Written(before, ws[n]) else before
  }

  lemma {:induction false} StrayTouches(c: Config, store: Store, items: seq<Item>, order: seq<nat>)
    requires Known(c, items) && RecordsOk(c, store)
    ensures RecordsOk(c, Stray(store, Writes(c, items), order))
    ensures forall id :: Lookup(Stray(store, Writes(c, items), order), id) == Lookup(store, id) ||
                         Touched(c, items, id, Lookup(Stray(store, Writes(c, items), order), id))
  {
    if order != [] {
      StrayTouches(c, store, items, order[..|order| - 1]);
    }
  }

  lemma CallFailed(c: Config, batch: seq<Item>, a: nat, m: nat, call: seq<Item>, store0: Store, cache0: Cache,
                   store: Store, cache: Cache, order: seq<nat>)
    requires Progress(c, batch, a, m, store0, cache0, store, cache)
    requires a + |call| <= |batch| && call == batch[a..a + |call|]
    ensures Progress(c, batch, a, Max(m, a + |call|), store0, cache0, Stray(store, Writes(c, call), order), cache)
  {
    var e := a + |call|;
    var n := Max(m, e);
    var store' := Stray(store, Writes(c, call), order);
    StrayTouches(c, store, call, order);
    forall id ensures Lookup(store', id) == ValueAfter(c, store0, batch[..a], id) ||
        Touched(c, batch[a..n], id, Lookup(store', id)) {
      if Touched(c, batch[a..e], id, Lookup(store', id)) {
        TouchedWiden(c, batch, a, e, a, n, id, Lookup(store', id));
      } else if Touched(c, batch[a..m], id, Lookup(store, id)) {
        TouchedWiden(c, batch, a, m, a, n, id, Lookup(store, id));
      }
    }
  }

  /** The cache after acknowledging `items` in order. */
  function Acked(c: Config, cache: Cache, items: seq<Item>): (cache': Cache) {
    if items == [] then cache
    else
      var it := items[|items| - 1];
      var before := Acked(c, cache, items[..|items| - 1]);
      if it.remove then before - {it.id} else before[it.id := c.hash(it.text)]
  }

  lemma {:induction false} AckedValue(c: Config, cache: Cache, items: seq<Item>, id: Id)
    ensures Lookup(Acked(c, cache, items), id) == HashAfter(c, cache, items, id)
  {
    if items != [] {
      AckedValue(c, cache, items[..|items| - 1], id);
    }
  }

  lemma CallSucceeded(c: Config, batch: seq<Item>, a: nat, m: nat, call: seq<Item>, store0: Store, cache0: Cache,
                      store: Store, cache: Cache)
    requires Progress(c, batch, a, m, store0, cache0, store, cache)
    requires a + |call| <= |batch| && call == batch[a..a + |call|]
    ensures Progress(c, batch, a + |call|, Max(m, a + |call|), store0, cache0,
                     WrittenAll(store, Writes(c, call)), Acked(c, cache, call))
  {
    var e := a + |call|;
    var n := Max(m, e);
    var store', cache' := WrittenAll(store, Writes(c, call)), Acked(c, cache, call);
    WrittenRecordsOk(c, store, call);
    assert batch[..e] == batch[..a] + call;
    forall id ensures Lookup(cache', id) == HashAfter(c, cache0, batch[..e], id) {
      AckedValue(c, cache, call, id);
      LastOfConcat(batch[..a], call, id);
    }
    forall id ensures Lookup(store', id) == ValueAfter(c, store0, batch[..e], id) ||
        Touched(c, batch[e..n], id, Lookup(store', id)) {
      WrittenValue(c, store, call, id);
      LastOfConcat(batch[..a], call, id);
      LastIsMentioned(call, id);
      if LastOf(call, id).None? && Touched(c, batch[a..m], id, Lookup(store, id)) {
        TouchedNarrow(c, batch, a, e, m, id, Lookup(store, id));
      }
    }
  }

  // ----- failed attempts -----

  /** Wherever a flush of `items` fails, every id that was ready for a window `more` that starts
      with them is ready for it again. */
  lemma FailureKeepsReady(c: Config, items: seq<Item>, more: seq<Item>, a: nat, m: nat, store0: Store, cache0: Cache,
                          store: Store, cache: Cache, id: Id)
    requires items <= more && Ready(c, store0, cache0, more, id)
    requires Progress(c, DeliveredAll(c, cache0, items), a, m, store0, cache0, store, cache)
    ensures Ready(c, store, cache, more, id)
  {
    var batch := DeliveredAll(c, cache0, items);
    assert Lookup(cache, id) == HashAfter(c, cache0, batch[..a], id);
    if Touched(c, batch[a..m], id, Lookup(store, id)) {
      var j :| 0 <= j < m - a && batch[a..m][j].id == id && Lookup(store, id) == Effect(c, batch[a..m][j]);
      BufferedIsDelivered(c, cache0, items, batch[a + j]);
      var k :| 0 <= k < |items| && items[k] == batch[a + j];
      assert more[k] == items[k];
      TouchedIsReady(c, more, store, cache, batch[a + j]);
    } else {
      CleanIsReady(c, more, LastOf(batch[..a], id), store0, cache0, store, cache, id);
    }
  }

  /** A trace of a change in the window: the cache agrees with it, or differs from it. */
  lemma TouchedIsReady(c: Config, items: seq<Item>, store: Store, cache: Cache, it: Item)
    requires it in items && Lookup(store, it.id) == Effect(c, it)
    ensures Ready(c, store, cache, items, it.id)
  {
    var k :| 0 <= k < |items| && items[k] == it;
  }

  lemma CleanIsReady(c: Config, items: seq<Item>, last: Option<Item>, store0: Store, cache0: Cache, store: Store,
                     cache: Cache, id: Id)
    requires Ready(c, store0, cache0, items, id)
    requires last.None? ==> Lookup(store, id) == Lookup(store0, id) && Lookup(cache, id) == Lookup(cache0, id)
    requires last.Some? ==> Lookup(store, id) == Effect(c, last.value)
    requires last.Some? ==> Lookup(cache, id) == if last.value.remove then None else Some(c.hash(last.value.text))
    ensures Ready(c, store, cache, items, id)
  {
    if last.None? && Differs(c, cache0, items, id) {
      var j :| 0 <= j < |items| && items[j].id == id &&
          (items[j].remove || Lookup(cache0, id) != Some(c.hash(items[j].text)));
    }
  }

  lemma {:induction false} BufferedIsDelivered(c: Config, cache: Cache, items: seq<Item>, it: Item)
    requires it in DeliveredAll(c, cache, items)
    ensures it in items
  {
    if items != [] && it != items[|items| - 1] {
      BufferedIsDelivered(c, cache, items[..|items| - 1], it);
    }
  }

  lemma {:induction false} ItemsOfConcat(a: seq<Event>, b: seq<Event>)
    ensures ItemsOf(a + b) == ItemsOf(a) + ItemsOf(b)
  {
    if b == [] {
      assert a + b == a;
    } else {
      assert (a + b)[..|a + b| - 1] == a + b[..|b| - 1];
      ItemsOfConcat(a, b[..|b| - 1]);
    }
  }

  /** An id a failed attempt left changed is one its window mentions. */
  lemma OnlyMentionedChange(c: Config, items: seq<Item>, a: nat, m: nat, store0: Store, cache0: Cache, store: Store,
                            cache: Cache, id: Id)
    requires Progress(c, DeliveredAll(c, cache0, items), a, m, store0, cache0, store, cache) && !Mentions(items, id)
    ensures Lookup(store, id) == Lookup(store0, id) && Lookup(cache, id) == Lookup(cache0, id)
  {
    var batch := DeliveredAll(c, cache0, items);
    LastIsMentioned(batch[..a], id);
    forall j | 0 <= j < |batch| ensures batch[j].id != id {
      BufferedIsDelivered(c, cache0, items, batch[j]);
      var k :| 0 <= k < |items| && items[k] == batch[j];
    }
  }

  // ----- a stream of attempts -----

  /** Attempts have flushed `done` and reached into `ahead`: every id holds what applying `done`
      one change at a time to the first store gives, or `ahead` mentions it; and delivering
      `ahead` repairs whatever failed attempts left of it. */
  ghost predicate Tracked(c: Config, first: Store, done: seq<Item>, ahead: seq<Item>, store: Store, cache: Cache) {
    forall id :: Ready(c, store, cache, ahead, id) &&
        (Lookup(store, id) == ValueAfter(c, first, done, id) || Mentions(ahead, id))
  }

  lemma DiffersInPart(c: Config, cache: Cache, a: seq<Item>, b: seq<Item>, id: Id)
    ensures Differs(c, cache, a + b, id) <==> Differs(c, cache, a, id) || Differs(c, cache, b, id)
    ensures Mentions(a + b, id) <==> Mentions(a, id) || Mentions(b, id)
  {
    assert forall j :: 0 <= j < |a| ==> (a + b)[j] == a[j];
    assert forall j :: 0 <= j < |b| ==> (a + b)[|a| + j] == b[j];
    assert forall j :: |a| <= j < |a + b| ==> (a + b)[j] == b[j - |a|];
  }

  /** Reaching further ahead, or starting again further back, keeps track. */
  lemma TrackedWiden(c: Config, first: Store, done: seq<Item>, back: seq<Item>, ahead: seq<Item>, more: seq<Item>,
                     store: Store, cache: Cache)
    requires Tracked(c, first, done + back, ahead, store, cache)
    ensures Tracked(c, first, done, back + ahead + more, store, cache)
  {
    forall id ensures Ready(c, store, cache, back + ahead + more, id)
              && (Lookup(store, id) == ValueAfter(c, first, done, id) || Mentions(back + ahead + more, id))
    {
      assert Ready(c, store, cache, ahead, id);
      DiffersInPart(c, cache, back, ahead, id);
      DiffersInPart(c, cache, back + ahead, more, id);
      LastOfConcat(done, back, id);
      LastIsMentioned(back, id);
    }
  }

  /** A failed attempt at the first part of `ahead` keeps track. */
  lemma FailureTracked(c: Config, first: Store, done: seq<Item>, items: seq<Item>, rest: seq<Item>, a: nat, m: nat,
                       store0: Store, cache0: Cache, store: Store, cache: Cache)
    requires Tracked(c, first, done, items + rest, store0, cache0)
    requires Progress(c, DeliveredAll(c, cache0, items), a, m, store0, cache0, store, cache)
    ensures Tracked(c, first, done, items + rest, store, cache)
  {
    forall id ensures Ready(c, store, cache, items + rest, id)
              && (Lookup(store, id) == ValueAfter(c, first, done, id) || Mentions(items + rest, id))
    {
      FailureKeepsReady(c, items, items + rest, a, m, store0, cache0, store, cache, id);
      DiffersInPart(c, cache, items, rest, id);
      if !Mentions(items, id) {
        OnlyMentionedChange(c, items, a, m, store0, cache0, store, cache, id);
      }
    }
  }

  /** A successful attempt at the first part of `ahead` moves it to what is done. */
  lemma FlushTracked(c: Config, first: Store, done: seq<Item>, items: seq<Item>, rest: seq<Item>,
                     store0: Store, cache0: Cache, store: Store, cache: Cache)
    requires HashOk(c) && Known(c, items) && RecordsOk(c, store0)
    requires Tracked(c, first, done, items + rest, store0, cache0)
    requires var batch := DeliveredAll(c, cache0, items);
             Progress(c, batch, |batch|, |batch|, store0, cache0, store, cache)
    ensures Tracked(c, first, done + items, rest, store, cache)
  {
    var batch := DeliveredAll(c, cache0, items);
    assert batch[..|batch|] == batch;
    forall id ensures Ready(c, store, cache, rest, id)
              && (Lookup(store, id) == ValueAfter(c, first, done + items, id) || Mentions(rest, id))
    {
      assert Lookup(cache, id) == HashAfter(c, cache0, batch, id);
      assert Lookup(store, id) == ValueAfter(c, store0, batch, id);
      if Differs(c, cache0, items, id) {
        BufferedTracked(c, first, done, items, store0, cache0, store, cache, id);
      } else {
        BufferedWhenDifferent(c, cache0, items, id);
        UnbufferedTracked(c, first, done, items, rest, store0, cache0, store, cache, id);
      }
    }
  }

  /** An id some change to which was buffered: its last change is, and decides. */
  lemma BufferedTracked(c: Config, first: Store, done: seq<Item>, items: seq<Item>, store0: Store, cache0: Cache,
                        store: Store, cache: Cache, id: Id)
    requires HashOk(c) && Differs(c, cache0, items, id)
    requires Lookup(cache, id) == HashAfter(c, cache0, DeliveredAll(c, cache0, items), id)
    requires Lookup(store, id) == ValueAfter(c, store0, DeliveredAll(c, cache0, items), id)
    ensures Healthy(c, store, cache, id) && Lookup(store, id) == ValueAfter(c, first, done + items, id)
  {
    BufferedWhenDifferent(c, cache0, items, id);
    LastOfConcat(done, items, id);
  }

  /** An id none of whose changes was buffered. */
  lemma UnbufferedTracked(c: Config, first: Store, done: seq<Item>, items: seq<Item>, rest: seq<Item>,
                          store0: Store, cache0: Cache, store: Store, cache: Cache, id: Id)
    requires HashOk(c) && Known(c, items) && RecordsOk(c, store0) && !Differs(c, cache0, items, id)
    requires Ready(c, store0, cache0, items + rest, id)
    requires Lookup(store0, id) == ValueAfter(c, first, done, id) || Mentions(items + rest, id)
    requires Lookup(store, id) == Lookup(store0, id) && Lookup(cache, id) == Lookup(cache0, id)
    ensures Ready(c, store, cache, rest, id)
    ensures Lookup(store, id) == ValueAfter(c, first, done + items, id) || Mentions(rest, id)
  {
    DiffersInPart(c, cache0, items, rest, id);
    DiffersInPart(c, cache, items, rest, id);
    LastOfConcat(done, items, id);
    LastIsMentioned(items, id);
    if Mentions(items, id) && !Differs(c, cache0, rest, id) {
      var last := LastOf(items, id).value;
      var j :| 0 <= j < |items| && items[j] == last;
      assert c.hash(last.text) == c.hash(store0[id].text);
    }
  }

  // ----- a reachable id that is not ready -----

  function Blank(n: nat, x: char): (s: string)
    ensures |s| == n && (n > 0 ==> s[0] == x)
  {
    seq(n, _ => x)
  }

  /** The texts "x" and "y", and chunks of one. */
  function TwoTexts(): (c: Config) {
    Config(t => if t == "x" then Blank(32, 'x') else Blank(32, 'y'), t => [], 1, 0, {"x", "y"})
  }

  const TO_Y := Item(1, "k", "y", false)
  const TO_X := Item(2, "k", "x", false)
  const HOLDS_X: Store := map["k" := Record("x", [])]

  /** Nothing is skipped of a window that changes "k" to "y" and back. */
  lemma BothDelivered(cache: Cache)
    requires cache == map["k" := TwoTexts().hash("x")]
    ensures DeliveredAll(TwoTexts(), cache, [TO_Y, TO_X]) == [TO_Y, TO_X]
  {
    var c := TwoTexts();
    assert c.hash("x")[0] != c.hash("y")[0];
    OneMore(c, cache, [], TO_Y);
    LastIsMentioned([TO_Y], "k");
    assert [TO_Y][0].id == "k" && Mentions([TO_Y], "k");
    OneMore(c, cache, [TO_Y], TO_X);
    assert [] + [TO_Y] == [TO_Y] && [TO_Y] + [TO_X] == [TO_Y, TO_X];
  }

  lemma OneMore(c: Config, cache: Cache, items: seq<Item>, it: Item)
    ensures DeliveredAll(c, cache, items + [it]) == Delivered(c, cache, DeliveredAll(c, cache, items), it)
  {
    assert (items + [it])[..|items|] == items;
  }

  /** The call for "y" is acknowledged, the one for "x" fails after its record got through. */
  lemma SecondCallFails(cache0: Cache, cache: Cache)
    requires cache0 == map["k" := TwoTexts().hash("x")] && cache == map["k" := TwoTexts().hash("y")]
    ensures Progress(TwoTexts(), [TO_Y, TO_X], 1, 2, HOLDS_X, cache0, HOLDS_X, cache)
  {
    var c, items := TwoTexts(), [TO_Y, TO_X];
    assert items[..1] == [TO_Y] && items[1..2] == [TO_X];
    assert items[1..2][0] == TO_X && Touched(c, items[1..2], "k", Lookup(HOLDS_X, "k"));
    forall id ensures LastOf(items[..1], id) == if id == "k" then Some(TO_Y) else None {
      assert LastOf([TO_Y][..0], id) == None;
    }
  }

  lemma ChangeIsSkipped(cache: Cache)
    requires cache == map["k" := TwoTexts().hash("y")]
    ensures HashOk(TwoTexts()) && !Ready(TwoTexts(), HOLDS_X, cache, [TO_Y], "k")
    ensures ValueAfter(TwoTexts(), HOLDS_X, DeliveredAll(TwoTexts(), cache, [TO_Y]), "k") !=
            ValueAfter(TwoTexts(), HOLDS_X, [TO_Y], "k")
  {
    var c := TwoTexts();
    assert c.hash("x")[0] != c.hash("y")[0];
    assert [TO_Y][0] == TO_Y;
    HarmlessExactlyWhenReady(c, HOLDS_X, cache, [TO_Y], "k");
  }

  /** "k" holds "x". The window changes it to "y" and back: the first call is acknowledged, the
      second fails after its record reached the store. If the next window is only the change to
      "y", it is skipped, and "k" keeps "x" though its flush succeeds. */
  lemma ShorterWindowIsSkipped()
    returns (items: seq<Item>, short: seq<Item>, store0: Store, cache0: Cache, store: Store, cache: Cache)
    ensures HashOk(TwoTexts()) && short <= items && Mentions(short, "k")
    ensures forall id :: Healthy(TwoTexts(), store0, cache0, id)
    ensures Progress(TwoTexts(), DeliveredAll(TwoTexts(), cache0, items), 1, 2, store0, cache0, store, cache)
    ensures !Ready(TwoTexts(), store, cache, short, "k")
    ensures ValueAfter(TwoTexts(), store, DeliveredAll(TwoTexts(), cache, short), "k") !=
        ValueAfter(TwoTexts(), store, short, "k")
  {
    items, short := [TO_Y, TO_X], [TO_Y];
    store0, cache0 := HOLDS_X, map["k" := TwoTexts().hash("x")];
    store, cache := HOLDS_X, map["k" := TwoTexts().hash("y")];
    assert short[0].id == "k";
    BothDelivered(cache0);
    SecondCallFails(cache0, cache);
    ChangeIsSkipped(cache);
  }
}
