/** Building the watermark index while appends go on (StartTable, internal/backfill/watermark.go):
    the page reads of the build, the page merges, the commits of the log and the observer's
    calls after each commit are separate steps in any order. */
module WatermarkBuild {
  import opened Common
  import opened Watermark

  datatype Config = Config(table: string, snapshot: nat, cap: nat, size: nat)

  datatype Phase =
    | Absent
    | Reading(p: nat, from: nat)
    | Merging(p: nat, page: Rows)
    | Built

  /** `observed` holds the places (partition, index) the observer was told of; `merged` is the
      history of what went into the index since it was registered. */
  datatype State = State(parts: Parts, observed: set<(nat, nat)>, ix: Index, merged: set<Change>, phase: Phase)

  datatype Step =
    | Commit(p: nat, row: Row)
    | Observe(p: nat, i: nat)
    | Start
    | ReadPage
    | MergePage
    | Fail
    | Finish

  ghost predicate Init(c: Config, s: State) {
    && c.size > 0 && (forall p :: 0 <= p < |s.parts| ==> Sorted(s.parts[p]))
    && s.ix == Empty(c.snapshot) && s.merged == {} && s.phase == Absent
    && forall p, i :: (p, i) in s.observed ==> p < |s.parts| && i < |s.parts[p]|
  }

  predicate Enabled(s: State, step: Step) {
    match step
    case Commit(p, row) => p < |s.parts| && (s.parts[p] == [] || s.parts[p][|s.parts[p]| - 1].sn < row.sn)
    case Observe(p, i) => p < |s.parts| && i < |s.parts[p]|
    case Start => s.phase in {Absent, Built}
    case ReadPage => s.phase.Reading?
    case MergePage => s.phase.Merging?
    case Fail => s.phase.Reading?
    case Finish => s.phase == Built
  }

  function AfterPartition(s: State, p: nat): (phase: Phase) {
    if p + 1 < |s.parts| then Reading(p + 1, 0) else Built
  }

  function AfterPage(c: Config, s: State, overCap: bool, p: nat, page: Rows): (phase: Phase) {
    if overCap then Built
    else if |page| < c.size || page == [] then AfterPartition(s, p)
    else Reading(p, page[|page| - 1].sn + 1)
  }

  function Do(c: Config, s: State, step: Step): (s': State)
    requires Enabled(s, step)
  {
    match step
    case Commit(p, row) => s.(parts := s.parts[p := s.parts[p] + [row]])
    case Observe(p, i) =>
      var t := s.(observed := s.observed + {(p, i)});
      if s.phase == Absent then t
      else t.(ix := Merge(s.ix, c.cap, c.table, s.parts[p][i].ev), merged := s.merged + {s.parts[p][i].ev})
    case Start =>
      s.(ix := Empty(c.snapshot), merged := {}, phase := if s.parts == [] then Built else Reading(0, 0))
    case ReadPage =>
      var page := if s.phase.p < |s.parts| then Page(s.parts[s.phase.p], s.phase.from, c.size) else [];
      s.(phase := Merging(s.phase.p, page))
    case MergePage =>
      var ix := MergeAll(s.ix, c.cap, c.table, Changes(s.phase.page));
      s.(ix := ix, merged := s.merged + Events(s.phase.page),
          phase := AfterPage(c, s, ix.overCap, s.phase.p, s.phase.page))
    case Fail => s.(phase := Absent)
    case Finish => s.(phase := Absent)
  }

  function Events(rows: Rows): (evs: set<Change>) { set row | row in rows :: row.ev }

  ghost predicate Run(c: Config, trace: seq<State>, steps: seq<Step>) {
    && |trace| == |steps| + 1 && Init(c, trace[0])
    && forall n :: 0 <= n < |steps| ==> Enabled(trace[n], steps[n]) && trace[n + 1] == Do(c, trace[n], steps[n])
  }

  function Last(trace: seq<State>): (s: State) requires trace != [] { trace[|trace| - 1] }

  /** Every event of the log. */
  function Committed(parts: Parts): (evs: set<Change>) {
    set p, i | 0 <= p < |parts| && 0 <= i < |parts[p]| :: parts[p][i].ev
  }

  ghost predicate AllObserved(s: State) {
    forall p, i :: 0 <= p < |s.parts| && 0 <= i < |s.parts[p]| ==> (p, i) in s.observed
  }

  // ----- the invariant -----

  /** The build has yet to merge this row. */
  ghost predicate Pending(c: Config, phase: Phase, p: nat, row: Row) {
    match phase
    case Absent => true
    case Reading(q, from) => p > q || (p == q && row.sn >= from)
    case Merging(q, page) => p > q ||
        (p == q && (row in page || (|page| >= c.size && (page == [] || row.sn > page[|page| - 1].sn))))
    case Built => false
  }

  /** Seen by the observer only before it was registered, or by no one yet: still to be read. */
  ghost predicate Accounted(c: Config, s: State, p: nat, row: Row, observed: bool) {
    row.ev in s.merged || !observed || Pending(c, s.phase, p, row)
  }

  ghost predicate LogOk(s: State) {
    && (forall p :: 0 <= p < |s.parts| ==> Sorted(s.parts[p]))
    && (forall p, i :: (p, i) in s.observed ==> p < |s.parts| && i < |s.parts[p]|)
    && (s.phase.Merging? ==> s.phase.p < |s.parts| && forall row :: row in s.phase.page ==> row in s.parts[s.phase.p])
    && (s.phase.Reading? ==> s.phase.p < |s.parts|)
  }

  ghost predicate IndexOk(c: Config, s: State) {
    && s.ix.snapshot == c.snapshot
    && IsIndexOf(s.ix, c.cap, c.table, s.merged)
    && s.merged <= Committed(s.parts)
  }

  ghost predicate Complete(c: Config, s: State) {
    !s.ix.overCap ==> forall p, i :: 0 <= p < |s.parts| && 0 <= i < |s.parts[p]| ==>
        Accounted(c, s, p, s.parts[p][i], (p, i) in s.observed)
  }

  ghost predicate Inv(c: Config, s: State) {
    c.size > 0 && LogOk(s) && IndexOk(c, s) && Complete(c, s)
  }

  lemma EmptyIndex(c: Config)
    ensures IsIndexOf(Empty(c.snapshot), c.cap, c.table, {})
  {
    assert RelevantKeys({}, c.table, c.snapshot) == {};
  }

  lemma CommitGrows(parts: Parts, p: nat, row: Row)
    requires p < |parts|
    ensures Committed(parts) <= Committed(parts[p := parts[p] + [row]])
  {
    var parts' := parts[p := parts[p] + [row]];
    forall q, i | 0 <= q < |parts| && 0 <= i < |parts[q]| ensures parts[q][i].ev in Committed(parts') {
      assert parts'[q][i] == parts[q][i];
    }
  }

  lemma CommitKeeps(c: Config, s: State, p: nat, row: Row)
    requires Inv(c, s) && Enabled(s, Commit(p, row))
    ensures Inv(c, Do(c, s, Commit(p, row)))
  {
    var s' := Do(c, s, Commit(p, row));
    CommitGrows(s.parts, p, row);
    forall q, i | 0 <= q < |s'.parts| && 0 <= i < |s'.parts[q]| && !s'.ix.overCap
      ensures Accounted(c, s', q, s'.parts[q][i], (q, i) in s'.observed)
    {
      if q == p && i == |s.parts[p]| {
        assert (q, i) !in s.observed;
      } else {
        assert Accounted(c, s, q, s.parts[q][i], (q, i) in s.observed);
      }
    }
  }

  lemma ObserveKeeps(c: Config, s: State, p: nat, i: nat)
    requires Inv(c, s) && Enabled(s, Observe(p, i))
    ensures Inv(c, Do(c, s, Observe(p, i)))
  {
    var s' := Do(c, s, Observe(p, i));
    MergeIndexes(s.ix, c.cap, c.table, s.merged, s.parts[p][i].ev);
    forall q, j | 0 <= q < |s'.parts| && 0 <= j < |s'.parts[q]| && !s'.ix.overCap
      ensures Accounted(c, s', q, s'.parts[q][j], (q, j) in s'.observed)
    {
      assert Accounted(c, s, q, s.parts[q][j], (q, j) in s.observed);
    }
  }

  lemma ReadKeeps(c: Config, s: State)
    requires Inv(c, s) && Enabled(s, ReadPage)
    ensures Inv(c, Do(c, s, ReadPage))
  {
    var s' := Do(c, s, ReadPage);
    forall p, i | 0 <= p < |s'.parts| && 0 <= i < |s'.parts[p]| && !s'.ix.overCap
      ensures Accounted(c, s', p, s'.parts[p][i], (p, i) in s'.observed)
    {
      assert Accounted(c, s, p, s.parts[p][i], (p, i) in s.observed);
      if Pending(c, s.phase, p, s.parts[p][i]) {
        ReadLeavesPending(c, s.parts, s.phase.p, s.phase.from, p, i);
      }
    }
    assert forall row :: row in s'.phase.page ==> row in s.parts[s.phase.p];
  }

  lemma ReadLeavesPending(c: Config, parts: Parts, q: nat, from: nat, p: nat, i: nat)
    requires c.size > 0 && q < |parts| && Sorted(parts[q]) && p < |parts| && i < |parts[p]|
    requires Pending(c, Reading(q, from), p, parts[p][i])
    ensures Pending(c, Merging(q, Page(parts[q], from, c.size)), p, parts[p][i])
  {
    if p == q {
      PageCovers(parts[q], from, c.size, i);
    }
  }

  lemma {:induction false} PageIndexes(ix: Index, cap: nat, table: string, evs: set<Change>, page: Rows)
    requires IsIndexOf(ix, cap, table, evs)
    ensures IsIndexOf(MergeAll(ix, cap, table, Changes(page)), cap, table, evs + Events(page))
  {
    if page == [] {
      assert evs + Events(page) == evs;
    } else {
      var n := |page| - 1;
      PageIndexes(ix, cap, table, evs, page[..n]);
      MergeIndexes(MergeAll(ix, cap, table, Changes(page[..n])), cap, table, evs + Events(page[..n]), page[n].ev);
      assert Changes(page)[..n] == Changes(page[..n]);
      EventsSplit(evs, page);
    }
  }

  lemma EventsSplit(evs: set<Change>, page: Rows)
    requires page != []
    ensures var n := |page| - 1; evs + Events(page) == evs + Events(page[..n]) + {page[n].ev}
  {
    assert page == page[..|page| - 1] + [page[|page| - 1]];
  }

  lemma {:induction false} OverCapStays(ix: Index, cap: nat, table: string, evs: seq<Change>)
    requires ix.overCap
    ensures MergeAll(ix, cap, table, evs) == ix
  {
    if evs != [] {
      OverCapStays(ix, cap, table, evs[..|evs| - 1]);
    }
  }

  lemma MergePageKeeps(c: Config, s: State)
    requires Inv(c, s) && Enabled(s, MergePage)
    ensures Inv(c, Do(c, s, MergePage))
  {
    var s' := Do(c, s, MergePage);
    var q, page := s.phase.p, s.phase.page;
    PageIndexes(s.ix, c.cap, c.table, s.merged, page);
    PageIsCommitted(s.parts, q, page);
    if s.ix.overCap {
      OverCapStays(s.ix, c.cap, c.table, Changes(page));
    }
    forall p, i | 0 <= p < |s'.parts| && 0 <= i < |s'.parts[p]| && !s'.ix.overCap
      ensures Accounted(c, s', p, s'.parts[p][i], (p, i) in s'.observed)
    {
      assert Accounted(c, s, p, s.parts[p][i], (p, i) in s.observed);
    }
  }

  lemma PageIsCommitted(parts: Parts, p: nat, page: Rows)
    requires p < |parts| && forall row :: row in page ==> row in parts[p]
    ensures Events(page) <= Committed(parts)
  {
    forall row | row in page ensures row.ev in Committed(parts) {
      assert row in parts[p];
      var i :| 0 <= i < |parts[p]| && parts[p][i] == row;
    }
  }

  lemma StepKeeps(c: Config, s: State, step: Step)
    requires Inv(c, s) && Enabled(s, step)
    ensures Inv(c, Do(c, s, step))
  {
    match step
    case Commit(p, row) => CommitKeeps(c, s, p, row);
    case Observe(p, i) => ObserveKeeps(c, s, p, i);
    case Start => EmptyIndex(c);
    case ReadPage => ReadKeeps(c, s);
    case MergePage => MergePageKeeps(c, s);
    case Fail =>
    case Finish =>
  }

  lemma {:induction false} RunInvariant(c: Config, trace: seq<State>, steps: seq<Step>, n: nat)
    requires Run(c, trace, steps) && n < |trace|
    ensures Inv(c, trace[n])
  {
    if n == 0 {
      EmptyIndex(c);
    } else {
      RunInvariant(c, trace, steps, n - 1);
      StepKeeps(c, trace[n - 1], steps[n - 1]);
    }
  }

  // ----- what the index promises -----

  /** ShouldEmit on the index path. */
  function ShouldEmit(s: State, key: Key): (emit: bool) { key !in s.ix.keys }

  /** The index never invents: at every point of every run a key it holds, with the LSN it
      holds for it, is that of a committed event above the snapshot. */
  lemma IndexIsSound(c: Config, trace: seq<State>, steps: seq<Step>, key: Key)
    requires Run(c, trace, steps) && key in Last(trace).ix.keys
    ensures Last(trace).ix.keys[key] > c.snapshot
    ensures Change(c.table, key, Some(Last(trace).ix.keys[key])) in Committed(Last(trace).parts)
    ensures Superseded(Last(trace).parts, c.table, key, c.snapshot)
  {
    RunInvariant(c, trace, steps, |trace| - 1);
    var s := Last(trace);
    assert IsHighest(s.ix.keys[key], key, c.table, c.snapshot, s.merged);
    CommittedSupersedes(s.parts, c.table, key, c.snapshot, Change(c.table, key, Some(s.ix.keys[key])));
  }

  lemma CommittedSupersedes(parts: Parts, table: string, key: Key, snapshot: nat, ev: Change)
    requires ev in Committed(parts) && Supersedes(ev, table, key, snapshot)
    ensures Superseded(parts, table, key, snapshot)
  {
    var p, i :| 0 <= p < |parts| && 0 <= i < |parts[p]| && parts[p][i].ev == ev;
    assert Supersedes(parts[p][i].ev, table, key, snapshot);
  }

  /** Once the build has ended, an event whose append was observed (before the build, during
      it or after it) is always reported, at its LSN or a higher one. */
  lemma IndexIsComplete(c: Config, trace: seq<State>, steps: seq<Step>, p: nat, i: nat)
    requires Run(c, trace, steps) && Last(trace).phase == Built && !Last(trace).ix.overCap
    requires p < |Last(trace).parts| && i < |Last(trace).parts[p]| && (p, i) in Last(trace).observed
    requires Relevant(Last(trace).parts[p][i].ev, c.table, c.snapshot)
    ensures var ev := Last(trace).parts[p][i].ev;
            && !ShouldEmit(Last(trace), ev.key)
            && Last(trace).ix.keys[ev.key] >= ev.lsn.value
  {
    RunInvariant(c, trace, steps, |trace| - 1);
    var s := Last(trace);
    var ev := s.parts[p][i].ev;
    assert Accounted(c, s, p, s.parts[p][i], true);
    assert ev.key in RelevantKeys(s.merged, c.table, c.snapshot);
    assert IsHighest(s.ix.keys[ev.key], ev.key, c.table, c.snapshot, s.merged);
  }

  /** A build that ended, with every commit observed, is the index of the whole log: the same
      keys, the same highest LSNs, and over its cap exactly when the log is. */
  lemma BuildIsTheIndexOfTheLog(c: Config, trace: seq<State>, steps: seq<Step>)
    requires Run(c, trace, steps) && Last(trace).phase == Built && AllObserved(Last(trace))
    ensures IsIndexOf(Last(trace).ix, c.cap, c.table, Committed(Last(trace).parts))
  {
    RunInvariant(c, trace, steps, |trace| - 1);
    var s := Last(trace);
    if s.ix.overCap {
      MoreKeys(s.merged, Committed(s.parts), c.table, c.snapshot);
    } else {
      forall p, i | 0 <= p < |s.parts| && 0 <= i < |s.parts[p]| ensures s.parts[p][i].ev in s.merged {
        assert Accounted(c, s, p, s.parts[p][i], true);
      }
      assert s.merged == Committed(s.parts);
    }
  }

  lemma MoreKeys(few: set<Change>, many: set<Change>, table: string, snapshot: nat)
    requires few <= many
    ensures |RelevantKeys(few, table, snapshot)| <= |RelevantKeys(many, table, snapshot)|
  {
    SubsetSize(RelevantKeys(few, table, snapshot), RelevantKeys(many, table, snapshot));
  }

  /** The index path and the scan give the same answer for every key. */
  lemma IndexAgreesWithScan(c: Config, trace: seq<State>, steps: seq<Step>, key: Key)
    requires Run(c, trace, steps) && Last(trace).phase == Built && AllObserved(Last(trace)) && !Last(trace).ix.overCap
    ensures ShouldEmit(Last(trace), key) <==> !Superseded(Last(trace).parts, c.table, key, c.snapshot)
  {
    var s := Last(trace);
    if key in s.ix.keys {
      IndexIsSound(c, trace, steps, key);
    } else if Superseded(s.parts, c.table, key, c.snapshot) {
      var p, i :| 0 <= p < |s.parts| && 0 <= i < |s.parts[p]| && Supersedes(s.parts[p][i].ev, c.table, key, c.snapshot);
      IndexIsComplete(c, trace, steps, p, i);
    }
  }

  /** Without that hypothesis: a finished build answers for a key as the scan does if and only
      if the log does not supersede it or some superseding event was observed or read. */
  lemma IndexAgreesExactlyWhen(c: Config, trace: seq<State>, steps: seq<Step>, key: Key)
    requires Run(c, trace, steps) && Last(trace).phase == Built && !Last(trace).ix.overCap
    ensures (ShouldEmit(Last(trace), key) <==> !Superseded(Last(trace).parts, c.table, key, c.snapshot)) <==>
            (!Superseded(Last(trace).parts, c.table, key, c.snapshot) ||
             exists ev :: ev in Last(trace).merged && Supersedes(ev, c.table, key, c.snapshot))
  {
    RunInvariant(c, trace, steps, |trace| - 1);
    var s := Last(trace);
    if key in s.ix.keys {
      IndexIsSound(c, trace, steps, key);
      assert key in RelevantKeys(s.merged, c.table, c.snapshot);
    }
    if ev :| ev in s.merged && Supersedes(ev, c.table, key, c.snapshot) {
      assert key in RelevantKeys(s.merged, c.table, c.snapshot);
    }
  }

  /** How often the observer was called. */
  function Observations(steps: seq<Step>): (n: nat) {
    if steps == [] then 0 else Observations(steps[..|steps| - 1]) + if steps[|steps| - 1].Observe? then 1 else 0
  }

  /** `n` partitions without a row. */
  function Blank(n: nat): (parts: Parts)
    ensures |parts| == n && forall p :: 0 <= p < n ==> parts[p] == []
  {
    seq(n, _ => [])
  }

  lemma Extend(c: Config, trace: seq<State>, steps: seq<Step>, step: Step)
    returns (trace': seq<State>, steps': seq<Step>)
    requires Run(c, trace, steps) && Enabled(Last(trace), step) && !step.Observe?
    ensures Run(c, trace', steps') && Last(trace') == Do(c, Last(trace), step)
    ensures Observations(steps') == Observations(steps)
  {
    trace', steps' := trace + [Do(c, Last(trace), step)], steps + [step];
    assert steps'[..|steps|] == steps;
  }

  /** The build of an empty log, as far as partition `k`. */
  lemma {:induction false} EmptyBuild(c: Config, n: nat, k: nat) returns (trace: seq<State>, steps: seq<Step>)
    requires c.size > 0 && k <= n && n > 0
    ensures Run(c, trace, steps) && Observations(steps) == 0
    ensures Last(trace) == State(Blank(n), {}, Empty(c.snapshot), {}, if k < n then Reading(k, 0) else Built)
  {
    if k == 0 {
      trace, steps := [State(Blank(n), {}, Empty(c.snapshot), {}, Absent)], [];
      trace, steps := Extend(c, trace, steps, Start);
    } else {
      trace, steps := EmptyBuild(c, n, k - 1);
      trace, steps := Extend(c, trace, steps, ReadPage);
      assert Changes([]) == [] && Events([]) == {};
      trace, steps := Extend(c, trace, steps, MergePage);
    }
  }

  /** An event committed behind the build and never observed is superseding, and the index
      emits its row. */
  lemma UnobservedCommitIsMissed(ev: Change, n: nat, p: nat, sn: nat)
    returns (c: Config, trace: seq<State>, steps: seq<Step>)
    requires ev.lsn.Some? && ev.lsn.value > 0 && p < n
    ensures c.table == ev.table && c.snapshot == 0 && Run(c, trace, steps) && Observations(steps) == 0
    ensures Last(trace).phase == Built && !Last(trace).ix.overCap
    ensures Last(trace).parts == Blank(n)[p := [Row(sn, ev)]]
    ensures Superseded(Last(trace).parts, ev.table, ev.key, 0) && ShouldEmit(Last(trace), ev.key)
  {
    c := Config(ev.table, 0, 10, 1);
    trace, steps := EmptyBuild(c, n, n);
    trace, steps := Extend(c, trace, steps, Commit(p, Row(sn, ev)));
    assert [] + [Row(sn, ev)] == [Row(sn, ev)];
    assert Supersedes(Last(trace).parts[p][0].ev, ev.table, ev.key, 0);
  }
}
