/** The snapshot asks the watermark index: a row is skipped because the log supersedes it
    (internal/backfill/backfill.go, internal/backfill/watermark.go). */
module BackfillWatermark {
  import opened Common
  import opened Keyset
  import F = Backfill
  import W = Watermark
  import B = WatermarkBuild

  /** What the index knows of the rows of a table. */
  function Newest(cfg: F.Config, ix: W.Index, table: Table): (newest: map<PK, nat>) {
    map pk | pk in table && cfg.canon(pk) in ix.keys :: ix.keys[cfg.canon(pk)]
  }

  /** At every point of every build, a row skipped on the index's word is one for which the log
      holds a superseding event, at the LSN the skip records. */
  lemma SkippedIsSuperseded(cfg: F.Config, turn: F.Turn, st: F.Saved, k: F.Skip,
                            c: B.Config, trace: seq<B.State>, steps: seq<B.Step>)
    requires B.Run(c, trace, steps) && c.table == cfg.table && c.snapshot == st.lsn
    requires turn.newest == Newest(cfg, B.Last(trace).ix, turn.table) && F.OnPage(k, turn, st)
    ensures W.Change(c.table, cfg.canon(k.pk), Some(k.wal)) in B.Committed(B.Last(trace).parts)
    ensures W.Superseded(B.Last(trace).parts, c.table, cfg.canon(k.pk), st.lsn)
  {
    B.IndexIsSound(c, trace, steps, cfg.canon(k.pk));
  }

  /** With every commit observed, the rows of a page that count as superseded are exactly those
      the log supersedes: none of them is emitted, and no other row is skipped. */
  lemma SkipsExactlyTheSuperseded(cfg: F.Config, turn: F.Turn, st: F.Saved, pk: PK,
                                  c: B.Config, trace: seq<B.State>, steps: seq<B.Step>)
    requires B.Run(c, trace, steps) && c.table == cfg.table && c.snapshot == st.lsn && pk in turn.table
    requires B.Last(trace).phase == B.Built && B.AllObserved(B.Last(trace)) && !B.Last(trace).ix.overCap
    requires turn.newest == Newest(cfg, B.Last(trace).ix, turn.table)
    ensures (pk in turn.newest && turn.newest[pk] > st.lsn) <==>
            W.Superseded(B.Last(trace).parts, c.table, cfg.canon(pk), st.lsn)
  {
    B.IndexAgreesWithScan(c, trace, steps, cfg.canon(pk));
    if pk in turn.newest {
      B.IndexIsSound(c, trace, steps, cfg.canon(pk));
    }
  }
}
