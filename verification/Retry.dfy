/** Blocked message groups and the per-partition cursor floor of one consumer
    (internal/router/retry.go). */
module Retry {
  import opened Common

  const MAX_RETRIES: nat := 15

  /** A queued delivery. Retry times are not modelled: a record may be due at any moment. */
  datatype Record = Record(entry: Entry, attempts: nat)

  type Groups = map<Key, seq<Record>>

  datatype RetryState = RetryState(groups: Groups, floors: map<nat, nat>)

  const EMPTY := RetryState(map[], map[])

  /** Group `k` exists and its head lives on partition `p`. */
  predicate HeadOn(g: Groups, k: Key, p: nat) {
    k in g && |g[k]| > 0 && g[k][0].entry.partition == p
  }

  /** `f` is the minimum head sequence number over the groups on `p`, or None when there are none. */
  ghost predicate IsFloor(g: Groups, p: nat, f: Option<nat>) {
    match f
    case None => forall k :: !HeadOn(g, k, p)
    case Some(m) =>
      && (exists k :: HeadOn(g, k, p) && g[k][0].entry.sn == m)
      && (forall k :: HeadOn(g, k, p) ==> m <= g[k][0].entry.sn)
  }

  /** Queues are never empty, and a key determines the partition of its records. */
  ghost predicate WellKeyed(g: Groups, part: Key -> nat) {
    forall k :: k in g ==>
      |g[k]| > 0 && forall i :: 0 <= i < |g[k]| ==> g[k][i].entry.key == k && g[k][i].entry.partition == part(k)
  }

  ghost predicate FloorsExact(s: RetryState) {
    forall p: nat :: IsFloor(s.groups, p, Lookup(s.floors, p))
  }

  ghost predicate Valid(s: RetryState, part: Key -> nat) {
    WellKeyed(s.groups, part) && FloorsExact(s)
  }

  // ----- the two ways the queues change -----

  function Enqueued(g: Groups, k: Key, rec: Record): (g': Groups)
  {
    g[k := (if k in g then g[k] else []) + [rec]]
  }

  function Lowered(floors: map<nat, nat>, p: nat, sn: nat): (f: map<nat, nat>)
  {
    if p !in floors || sn < floors[p] then floors[p := sn] else floors
  }

  /** AddBlocked: the floor moves only when `rec` starts a new group. */
  function AddBlocked(s: RetryState, k: Key, rec: Record): (s': RetryState)
  {
    RetryState(
      Enqueued(s.groups, k, rec),
      if k in s.groups then s.floors else Lowered(s.floors, rec.entry.partition, rec.entry.sn))
  }

  function Popped(g: Groups, k: Key): (g': Groups)
    requires k in g && |g[k]| > 0
  {
    if |g[k]| == 1 then g - {k} else g[k := g[k][1..]]
  }

  function WithFloor(floors: map<nat, nat>, p: nat, f: Option<nat>): (floors': map<nat, nat>)
    ensures Lookup(floors', p) == f
    ensures forall q :: q != p ==> Lookup(floors', q) == Lookup(floors, q)
  {
    match f
    case None => floors - {p}
    case Some(m) => floors[p := m]
  }

  /** A floor exists for every partition: the head minimum over a finite map. */
  lemma FloorExists(g: Groups, p: nat)
    ensures exists f :: IsFloor(g, p, f)
    decreases |g|
  {
    if k :| HeadOn(g, k, p) {
      var rest := g - {k};
      assert g.Keys == rest.Keys + {k};
      assert |rest.Keys| < |g.Keys|;
      FloorExists(rest, p);
      var f :| IsFloor(rest, p, f);
      var m := g[k][0].entry.sn;
      assert forall j :: HeadOn(g, j, p) && j != k ==> HeadOn(rest, j, p) && rest[j] == g[j];
      assert forall j :: HeadOn(rest, j, p) ==> HeadOn(g, j, p) && rest[j] == g[j];
      if f.None? || m <= f.value {
        assert IsFloor(g, p, Some(m));
      } else {
        assert IsFloor(g, p, f);
      }
    } else {
      assert IsFloor(g, p, None);
    }
  }

  lemma FloorUnique(g: Groups, p: nat, a: Option<nat>, b: Option<nat>)
    requires IsFloor(g, p, a) && IsFloor(g, p, b)
    ensures a == b
  {
  }

  ghost function Floor(g: Groups, p: nat): (f: Option<nat>)
    ensures IsFloor(g, p, f)
  {
    FloorExists(g, p);
    var f :| IsFloor(g, p, f);
    f
  }

  /** Pop of the head of `k`, with the floor of its partition recomputed from scratch. */
  ghost function PopHead(s: RetryState, k: Key): (s': RetryState)
    requires k in s.groups && |s.groups[k]| > 0
  {
    var g' := Popped(s.groups, k);
    var p := s.groups[k][0].entry.partition;
    RetryState(g', WithFloor(s.floors, p, Floor(g', p)))
  }

  // ----- both keep the floor exact -----

  lemma AddBlockedKeepsFloors(s: RetryState, k: Key, rec: Record, part: Key -> nat)
    requires Valid(s, part)
    requires rec.entry.key == k && rec.entry.partition == part(k)
    ensures Valid(AddBlocked(s, k, rec), part)
  {
    var s' := AddBlocked(s, k, rec);
    forall p: nat ensures IsFloor(s'.groups, p, Lookup(s'.floors, p)) {
      assert IsFloor(s.groups, p, Lookup(s.floors, p));
      assert forall j :: j != k ==> (HeadOn(s'.groups, j, p) <==> HeadOn(s.groups, j, p));
      assert forall j :: j != k && HeadOn(s.groups, j, p) ==> s'.groups[j] == s.groups[j];
      if k in s.groups {
        assert s'.groups[k][0] == s.groups[k][0];
        assert forall j :: HeadOn(s'.groups, j, p) <==> HeadOn(s.groups, j, p);
      } else {
        assert s'.groups[k] == [rec];
        assert HeadOn(s'.groups, k, p) <==> p == rec.entry.partition;
      }
    }
  }

  lemma PopHeadKeepsFloors(s: RetryState, k: Key, part: Key -> nat)
    requires Valid(s, part) && k in s.groups
    ensures |s.groups[k]| > 0 && Valid(PopHead(s, k), part)
  {
    var s' := PopHead(s, k);
    var p0 := s.groups[k][0].entry.partition;
    forall p: nat ensures IsFloor(s'.groups, p, Lookup(s'.floors, p)) {
      if p != p0 {
        assert IsFloor(s.groups, p, Lookup(s.floors, p));
        assert forall j :: j != k ==> (HeadOn(s'.groups, j, p) <==> HeadOn(s.groups, j, p));
        assert forall j :: j != k && HeadOn(s.groups, j, p) ==> s'.groups[j] == s.groups[j];
        assert !HeadOn(s'.groups, k, p) && !HeadOn(s.groups, k, p);
      }
    }
  }

  /** A pop lowers the floor exactly when the next record of its queue is below the old floor;
      queues are not sorted, so it can be. Otherwise the floor rises, stays or is cleared. */
  lemma PopLowersFloorExactlyWhen(s: RetryState, k: Key, part: Key -> nat)
    requires Valid(s, part) && k in s.groups
    ensures part(k) in s.floors && |s.groups[k]| > 0
    ensures var q, floor := s.groups[k], s.floors[part(k)];
            var floor' := Lookup(PopHead(s, k).floors, part(k));
            (floor'.Some? && floor'.value < floor) <==> (|q| > 1 && q[1].entry.sn < floor)
  {
    var p, g' := part(k), Popped(s.groups, k);
    assert HeadOn(s.groups, k, p);
    assert IsFloor(s.groups, p, Lookup(s.floors, p));
    PopHeadKeepsFloors(s, k, part);
    assert IsFloor(g', p, Lookup(PopHead(s, k).floors, p));
    assert forall j :: j != k ==> (HeadOn(g', j, p) <==> HeadOn(s.groups, j, p));
    assert forall j :: j != k && HeadOn(s.groups, j, p) ==> g'[j] == s.groups[j];
    if |s.groups[k]| > 1 {
      assert HeadOn(g', k, p) && g'[k][0] == s.groups[k][1];
    }
  }

  // ----- and so does every sequence of changes -----

  datatype QueueOp = Block(key: Key, rec: Record) | Pop(key: Key)

  predicate Legal(s: RetryState, op: QueueOp, part: Key -> nat) {
    match op
    case Block(k, rec) => rec.entry.key == k && rec.entry.partition == part(k)
    case Pop(k) => k in s.groups && |s.groups[k]| > 0
  }

  ghost function Changed(s: RetryState, op: QueueOp, part: Key -> nat): (s': RetryState)
    requires Legal(s, op, part)
  {
    match op
    case Block(k, rec) => AddBlocked(s, k, rec)
    case Pop(k) => PopHead(s, k)
  }

  ghost predicate History(trace: seq<RetryState>, ops: seq<QueueOp>, part: Key -> nat) {
    && |trace| == |ops| + 1
    && trace[0] == EMPTY
    && forall i :: 0 <= i < |ops| ==> Legal(trace[i], ops[i], part) && trace[i + 1] == Changed(trace[i], ops[i], part)
  }

  /** The incrementally kept floor equals the from-scratch minimum after any history. */
  lemma {:induction false} FloorIsAlwaysTheHeadMinimum(trace: seq<RetryState>, ops: seq<QueueOp>, part: Key -> nat,
                                                       n: nat)
    requires History(trace, ops, part) && n < |trace|
    ensures Valid(trace[n], part)
  {
    if n > 0 {
      FloorIsAlwaysTheHeadMinimum(trace, ops, part, n - 1);
      match ops[n - 1]
      case Block(k, rec) => AddBlockedKeepsFloors(trace[n - 1], k, rec, part);
      case Pop(k) => PopHeadKeepsFloors(trace[n - 1], k, part);
    }
  }
}
