/** A batch append that fails at its second chunk, and what the watermark index makes of it
    (internal/eventlog/badger.go, internal/backfill/watermark.go). */
module UnobservedBatch {
  import opened LogKeys
  import opened EventLog
  import opened EventLogSafety
  import W = Watermark
  import B = WatermarkBuild

  /** With room for one item per chunk, chunk `i` is item `i`. */
  lemma {:induction false} OneByOne(chunks: seq<Chunk>, n: nat, i: nat)
    requires Tiles(chunks, n) && forall x :: 0 <= x < |chunks| ==> chunks[x].end == chunks[x].start + 1
    requires i < |chunks|
    ensures chunks[i].start == i && (i + 1 == |chunks| ==> n == |chunks|)
  {
    if i > 0 {
      OneByOne(chunks, n, i - 1);
    }
  }

  lemma TwoChunks(items: seq<Item>, chunks: seq<Chunk>, batchSize: nat)
    requires |items| == 2 && Chunked(items, chunks, batchSize, 4)
    ensures chunks == [Chunk(0, 1), Chunk(1, 2)]
  {
    assert forall x :: 0 <= x < |chunks| ==> Fitting(items, chunks[x], Half(batchSize), Half(4));
    OneByOne(chunks, 2, |chunks| - 1);
    OneByOne(chunks, 2, 0);
  }

  lemma SecondFails(items: seq<Item>, chunks: seq<Chunk>, hardMax: nat, f: nat)
    requires |items| == 2 && chunks == [Chunk(0, 1), Chunk(1, 2)] && ItemSize(items[0]) <= hardMax
    requires FailsFirst(items, chunks, f, hardMax, {1})
    ensures f == 1
  {
    assert Commits(items, chunks, 0, hardMax, {1});
  }

  /** Two events in two transactions, the second of which breaks: the batch fails, the first
      event is in the log, and no observer hears of either. */
  method BreakSecondChunk(log: BadgerEventLog, h: Hashes, evs: seq<Event>, batchSize: nat)
    returns (ok: bool, observed: seq<Event>)
    requires log.next != [] && |evs| == 2
    requires forall i :: 0 <= i < 2 ==> ItemSize(PreparedAll(h, log.next, evs).0[i]) <= batchSize
    modifies log
    ensures !ok && observed == [] && log.kv == AppendedAll(h, old(log.State()), evs[..1]).0.kv
    ensures DedupKey(evs[0].idem, h.sha) in log.kv
  {
    ghost var before := log.State();
    var sns;
    ghost var items, chunks, f;
    ok, sns, observed, items, chunks, f := log.AppendBatch(h, evs, batchSize, 4, {1});
    TwoChunks(items, chunks, batchSize);
    assert !Commits(items, chunks, 1, batchSize, {1});
    SecondFails(items, chunks, batchSize, f);
    AppendsAreIndexed(h, before, evs[..1], 0);
  }

  /** The row stands for the stored event at its partition and number. */
  ghost predicate Stands(kv: map<Bytes, Stored>, p: nat, row: W.Row, view: Event -> W.Change) {
    && PartKey(p, row.sn) in kv && kv[PartKey(p, row.sn)].Whole?
    && view(kv[PartKey(p, row.sn)].ev) == row.ev
  }

  /** `parts` is the log as the checker reads it from the store: its rows, at their partitions and
      sequence numbers, and no others. */
  ghost predicate Mirrors(parts: W.Parts, kv: map<Bytes, Stored>, view: Event -> W.Change) {
    && (forall p, i :: 0 <= p < |parts| && 0 <= i < |parts[p]| ==> Stands(kv, p, parts[p][i], view))
    && (forall p: nat, s: nat :: Fits(p, s) && PartKey(p, s) in kv ==>
          p < |parts| && exists i :: 0 <= i < |parts[p]| && parts[p][i].sn == s)
  }

  /** What one append leaves in a new log. */
  lemma FirstAppend(h: Hashes, log: Log, ev: Event, view: Event -> W.Change)
    requires log.kv == map[] && Room(log.next, 1)
    ensures var it := Prepared(h, log.next, ev);
            var parts: W.Parts := B.Blank(|log.next|)[it.partition := [W.Row(it.sn, view(ev))]];
            Mirrors(parts, AppendedAll(h, log, [ev]).0.kv, view)
  {
    var it := Prepared(h, log.next, ev);
    var kv := AppendedAll(h, log, [ev]).0.kv;
    assert [ev][..0] == [] && AppendedAll(h, log, []).0 == log;
    assert kv == map[PartKey(it.partition, it.sn) := Whole(ev)][it.dedup := Location(it.partition, it.sn)];
    assert PartKey(it.partition, it.sn)[0] == PREFIX_PART;
    var parts: W.Parts := B.Blank(|log.next|)[it.partition := [W.Row(it.sn, view(ev))]];
    assert parts[it.partition][0].sn == it.sn;
    forall p: nat, s: nat | Fits(p, s) && PartKey(p, s) in kv ensures p == it.partition && s == it.sn {
      assert PartKey(p, s)[0] == PREFIX_PART;
      PartKeyOrder(p, s, it.partition, it.sn);
    }
  }

  /** A new log with any number of partitions, and an index built before that batch: the
      committed event supersedes its row in the log as it is stored, and the index emits the
      row. `view` is how the checker reads events. */
  method FailedBatchIsMissed(log: BadgerEventLog, h: Hashes, evs: seq<Event>, batchSize: nat, view: Event -> W.Change)
    returns (ok: bool, observed: seq<Event>, ghost c: B.Config, ghost trace: seq<B.State>, ghost steps: seq<B.Step>)
    requires log.kv == map[] && Room(log.next, 1) && |evs| == 2
    requires view(evs[0]).lsn.Some? && view(evs[0]).lsn.value > 0
    requires forall i :: 0 <= i < 2 ==> ItemSize(PreparedAll(h, log.next, evs).0[i]) <= batchSize
    modifies log
    ensures !ok && observed == [] && DedupKey(evs[0].idem, h.sha) in log.kv
    ensures B.Run(c, trace, steps) && B.Observations(steps) == |observed|
    ensures B.Last(trace).phase == B.Built && !B.Last(trace).ix.overCap
    ensures Mirrors(B.Last(trace).parts, log.kv, view)
    ensures var ev := view(evs[0]);
            W.Superseded(B.Last(trace).parts, ev.table, ev.key, 0) && B.ShouldEmit(B.Last(trace), ev.key)
  {
    ghost var it, n := Prepared(h, log.next, evs[0]), |log.next|;
    assert evs[..1] == [evs[0]];
    FirstAppend(h, log.State(), evs[0], view);
    ok, observed := BreakSecondChunk(log, h, evs, batchSize);
    c, trace, steps := B.UnobservedCommitIsMissed(view(evs[0]), n, it.partition, it.sn);
  }
}
