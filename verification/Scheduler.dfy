/** The retry scheduler's state for one consumer, updated in place
    (internal/router/retry.go). */
module Scheduler {
  import opened Common
  import R = Retry

  datatype Outcome = Ok | Transient | Permanent

  /** What one pass of the drain loop meets: the records the router queues while the lock is
      free (appends never touch a head, so they may as well come first), the clock, `Deliver`,
      and the DLQ write. */
  datatype Attempt = Attempt(arrivals: seq<R.Record>, due: bool, delivery: Outcome, dlqWrite: bool)

  /** How a record left its queue. */
  datatype Settlement =
    | Delivered(entry: Entry)
    | DeadLettered(entry: Entry, attempts: nat, permanent: bool)
    | Dropped(entry: Entry, attempts: nat, permanent: bool)

  /** Attempt `t` entitles the scheduler to settle a record as `x`. */
  predicate Justifies(t: Attempt, x: Settlement, dlq: bool) {
    match x
    case Delivered(_) => t.delivery.Ok?
    case DeadLettered(_, n, permanent) => dlq && t.dlqWrite && GivesUp(t, n, permanent)
    case Dropped(_, n, permanent) => !dlq && GivesUp(t, n, permanent)
  }

  predicate GivesUp(t: Attempt, n: nat, permanent: bool) {
    if permanent then t.delivery.Permanent? else t.delivery.Transient? && n >= R.MAX_RETRIES
  }

  /** Each settlement has an attempt of its own among the first `n`, in order. */
  ghost predicate Justified(xs: seq<Settlement>, tries: seq<Attempt>, n: nat, dlq: bool, pops: seq<Pop>) {
    && n <= |tries| && |pops| == |xs|
    && (forall i :: 0 <= i < |xs| ==> pops[i].attempt < n && Justifies(tries[pops[i].attempt], xs[i], dlq))
    && (forall i, j :: 0 <= i < j < |pops| ==> pops[i].attempt < pops[j].attempt)
  }

  /** What an attempt on the head of `q` comes to: a nil Deliver settles it; a transient failure
      below the limit is counted and ends the pass; any other failure goes to the DLQ, and the head
      leaves unless the DLQ write fails. */
  predicate Answered(q: seq<R.Record>, t: Attempt, dlq: bool, stop: bool, v: Option<Settlement>, q': seq<R.Record>)
    requires q != []
  {
    var failures := q[0].attempts + if t.delivery.Transient? then 1 else 0;
    if t.delivery.Ok? then
      !stop && v == Some(Delivered(q[0].entry)) && q' == q[1..]
    else if t.delivery.Transient? && failures < R.MAX_RETRIES then
      stop && v == None && q' == [R.Record(q[0].entry, failures)] + q[1..]
    else if !dlq then
      !stop && v == Some(Dropped(q[0].entry, failures, t.delivery.Permanent?)) && q' == q[1..]
    else if t.dlqWrite then
      !stop && v == Some(DeadLettered(q[0].entry, failures, t.delivery.Permanent?)) && q' == q[1..]
    else
      !stop && v == None && q' == [R.Record(q[0].entry, failures)] + q[1..]
  }

  function Entries(q: seq<R.Record>): (es: seq<Entry>)
    ensures |es| == |q|
  {
    seq(|q|, i requires 0 <= i < |q| => q[i].entry)
  }

  function Settled(xs: seq<Settlement>): (es: seq<Entry>)
    ensures |es| == |xs|
  {
    seq(|xs|, i requires 0 <= i < |xs| => xs[i].entry)
  }

  function Queue(g: R.Groups, k: Key): (q: seq<R.Record>) {
    if k in g then g[k] else []
  }

  /** The entries that arrived for group `k`, in order. */
  function Arrived(xs: seq<R.Record>, k: Key): (es: seq<Entry>) {
    if xs == [] then []
    else
      var last := xs[|xs| - 1];
      Arrived(xs[..|xs| - 1], k) + if last.entry.key == k then [last.entry] else []
  }

  /** The groups once the first `n` of the records `xs` have been queued. */
  function AllQueued(g: R.Groups, xs: seq<R.Record>, n: nat): (g': R.Groups)
    requires n <= |xs|
  {
    if n == 0 then g else R.Enqueued(AllQueued(g, xs, n - 1), xs[n - 1].entry.key, xs[n - 1])
  }

  /** One pass over a group: whether the drain ends with it, how the head left, if it did, and the
      groups afterwards. */
  datatype Pass = Pass(stop: bool, v: Option<Settlement>, after: R.Groups)

  /** One pass over group `k`. */
  function Step(g: R.Groups, t: Attempt, k: Key, dlq: bool): (x: Pass) {
    if Queue(g, k) == [] || !t.due then Pass(true, None, g)
    else
      var rec := if t.delivery.Transient? then g[k][0].(attempts := g[k][0].attempts + 1) else g[k][0];
      var counted := if t.delivery.Transient? then g[k := g[k][0 := rec]] else g;
      if t.delivery.Transient? && rec.attempts < R.MAX_RETRIES then Pass(true, None, counted)
      else
        var v := Verdict(t, rec, dlq);
        Pass(false, v, if v.Some? then R.Popped(counted, k) else counted)
  }

  /** A pass answers the attempt on the head, and leaves every other group as it is; without a head,
      or before it is due, it does nothing and ends the drain. */
  lemma StepAnswers(g: R.Groups, t: Attempt, k: Key, dlq: bool)
    ensures var x := Step(g, t, k, dlq);
            && (if Queue(g, k) != [] && t.due then Answered(Queue(g, k), t, dlq, x.stop, x.v, Queue(x.after, k))
                else x.stop && x.v == None && x.after == g)
            && forall j :: j != k ==> Lookup(x.after, j) == Lookup(g, j)
  {
  }

  /** A pop: the attempt that led to it, and the groups as it left them. */
  datatype Pop = Pop(attempt: nat, groups: R.Groups)

  /** Where a drain stands: the groups, whether it has ended, how heads were settled, and the floors
      released at their pops. */
  datatype Drained = Drained(groups: R.Groups, stop: bool, settled: seq<Settlement>, released: seq<Option<nat>>,
                             pops: seq<Pop>)

  /** Attempt `i`, after what arrived before it. */
  ghost function Next(d: Drained, t: Attempt, k: Key, dlq: bool, p: nat, i: nat): (d': Drained) {
    var x := Step(AllQueued(d.groups, t.arrivals, |t.arrivals|), t, k, dlq);
    if x.v.None? then Drained(x.after, x.stop, d.settled, d.released, d.pops)
    else
      Drained(x.after, x.stop, d.settled + [x.v.value], d.released + [R.Floor(x.after, p)],
              d.pops + [Pop(i, x.after)])
  }

  ghost predicate Linked(trail: seq<Drained>, tries: seq<Attempt>, k: Key, dlq: bool, p: nat, i: nat) {
    i < |tries| && i + 1 < |trail| && trail[i + 1] == Next(trail[i], tries[i], k, dlq, p, i)
  }

  /** The drain of group `k`, attempt by attempt. */
  ghost predicate Trail(g: R.Groups, trail: seq<Drained>, tries: seq<Attempt>, k: Key, dlq: bool, p: nat) {
    && 0 < |trail| <= |tries| + 1 && trail[0] == Drained(g, false, [], [], [])
    && forall i :: 0 <= i < |trail| - 1 ==> Linked(trail, tries, k, dlq, p, i)
  }

  /** Only the last attempt made may end the drain, and it ends early only so. */
  ghost predicate EndsWhenStopped(trail: seq<Drained>, tries: seq<Attempt>) {
    && trail != [] && (forall i :: 0 <= i < |trail| - 1 ==> !trail[i].stop)
    && (|trail| - 1 < |tries| ==> trail[|trail| - 1].stop)
  }

  lemma TrailGrows(g: R.Groups, trail: seq<Drained>, tries: seq<Attempt>, k: Key, dlq: bool, p: nat, d: Drained)
    requires Trail(g, trail, tries, k, dlq, p) && |trail| <= |tries|
    requires var n := |trail| - 1; d == Next(trail[n], tries[n], k, dlq, p, n)
    ensures Trail(g, trail + [d], tries, k, dlq, p)
  {
    var more := trail + [d];
    forall i | 0 <= i < |more| - 1 ensures Linked(more, tries, k, dlq, p, i) {
      if i < |trail| - 1 {
        assert Linked(trail, tries, k, dlq, p, i);
      }
    }
  }

  /** What arrived during the first `n` attempts. */
  function AllArrivals(tries: seq<Attempt>, n: nat): (xs: seq<R.Record>)
    requires n <= |tries|
  {
    if n == 0 then [] else AllArrivals(tries, n - 1) + tries[n - 1].arrivals
  }

  /** A key determines the partition of what arrives for it. */
  ghost predicate Placed(xs: seq<R.Record>, part: Key -> nat) {
    forall i :: 0 <= i < |xs| ==> xs[i].entry.partition == part(xs[i].entry.key)
  }

  /** A floor looks only at the entries in head position. */
  lemma SameHeadsSameFloor(a: R.Groups, b: R.Groups, p: nat, f: Option<nat>)
    requires R.IsFloor(a, p, f)
    requires a.Keys == b.Keys
    requires forall j :: j in a ==> |a[j]| == |b[j]| && (|a[j]| > 0 ==> a[j][0].entry == b[j][0].entry)
    ensures R.IsFloor(b, p, f)
  {
    assert forall j :: R.HeadOn(a, j, p) <==> R.HeadOn(b, j, p);
  }

  class ConsumerRetry {
    var groups: R.Groups
    var floors: map<nat, nat>

    ghost function State(): (s: R.RetryState)
      reads this
    {
      R.RetryState(groups, floors)
    }

    constructor ()
      ensures State() == R.EMPTY
    {
      groups, floors := map[], map[];
    }

    method AddBlocked(k: Key, rec: R.Record)
      modifies this
      ensures State() == R.AddBlocked(old(State()), k, rec)
    {
      var existed := k in groups;
      groups := groups[k := (if existed then groups[k] else []) + [rec]];
      if !existed {
        var p, sn := rec.entry.partition, rec.entry.sn;
        if p !in floors || sn < floors[p] {
          floors := floors[p := sn];
        }
      }
    }

    /** Scans every blocked group for the lowest head on `p`. */
    method RecomputeFloor(p: nat)
      modifies this`floors
      ensures floors == R.WithFloor(old(floors), p, R.Floor(groups, p))
    {
      var found: Option<nat> := None;
      var rest := groups.Keys;
      while rest != {}
        invariant rest <= groups.Keys
        invariant forall k :: k in groups && k !in rest && R.HeadOn(groups, k, p) ==>
          found.Some? && found.value <= groups[k][0].entry.sn
        invariant found.Some? ==> exists k :: R.HeadOn(groups, k, p) && groups[k][0].entry.sn == found.value
      {
        var k :| k in rest;
        rest := rest - {k};
        if |groups[k]| > 0 && groups[k][0].entry.partition == p {
          assert R.HeadOn(groups, k, p);
          if found.None? || groups[k][0].entry.sn < found.value {
            found := Some(groups[k][0].entry.sn);
          }
        }
      }
      assert R.IsFloor(groups, p, found);
      R.FloorUnique(groups, p, found, R.Floor(groups, p));
      match found {
        case None => floors := floors - {p};
        case Some(m) => floors := floors[p := m];
      }
    }

    /** Pops the head of `k` and returns the floor handed to the floor-release callback. */
    method PopHead(k: Key) returns (released: Option<nat>)
      requires k in groups && |groups[k]| > 0
      modifies this
      ensures State() == R.PopHead(old(State()), k)
      ensures released == Lookup(floors, old(groups[k][0].entry.partition))
    {
      var p := groups[k][0].entry.partition;
      groups := if |groups[k]| == 1 then groups - {k} else groups[k := groups[k][1..]];
      RecomputeFloor(p);
      released := Lookup(floors, p);
    }

    /** Delivers `k` head-first until a record fails, the queue is empty, or the tries run out,
        while the router keeps queueing. Every attempt made is answered, and the drain goes on until
        one of them ends it. Nothing is lost on the way: what was queued and what arrived is what
        was settled followed by what is still queued, and each settlement is entitled by an attempt
        of its own: its `Deliver` or DLQ write returned nil (or the DLQ is disabled). Each release
        reports the exact floor at its pop. `n` attempts were made. */
    method DrainGroup(k: Key, dlq: bool, tries: seq<Attempt>, ghost part: Key -> nat)
      returns (settled: seq<Settlement>, released: seq<Option<nat>>, n: nat, ghost trail: seq<Drained>)
      requires R.Valid(State(), part) && forall i :: 0 <= i < |tries| ==> Placed(tries[i].arrivals, part)
      modifies this
      ensures R.Valid(State(), part) && n == |trail| - 1
      ensures Trail(old(groups), trail, tries, k, dlq, part(k)) && EndsWhenStopped(trail, tries)
      ensures groups == trail[n].groups && settled == trail[n].settled && released == trail[n].released
      ensures Drain(old(groups), tries, n, groups, k, dlq, part(k), settled, released, trail[n].pops)
    {
      settled, released, n := [], [], 0;
      ghost var d := Drained(groups, false, [], [], []);
      trail := [d];
      var stop := false;
      while n < |tries| && !stop
        invariant n == |trail| - 1 <= |tries| && R.Valid(State(), part) && d == trail[n]
        invariant Trail(old(groups), trail, tries, k, dlq, part(k))
        invariant d == Drained(groups, stop, settled, released, d.pops)
        invariant forall i :: 0 <= i < n ==> !trail[i].stop
      {
        var v, f;
        stop, v, f, d := DrainPass(k, dlq, tries[n], part, d, n);
        if v.Some? {
          settled, released := settled + [v.value], released + [f];
        }
        TrailGrows(old(groups), trail, tries, k, dlq, part(k), d);
        n, trail := n + 1, trail + [d];
      }
      DrainHolds(old(groups), trail, tries, k, dlq, part(k), n);
    }

    /** What arrives while the lock is free, and one pass. */
    method DrainPass(k: Key, dlq: bool, t: Attempt, ghost part: Key -> nat, ghost d: Drained, ghost i: nat)
      returns (stop: bool, v: Option<Settlement>, f: Option<nat>, ghost d': Drained)
      requires R.Valid(State(), part) && Placed(t.arrivals, part) && d.groups == groups
      modifies this
      ensures R.Valid(State(), part) && d' == Next(d, t, k, dlq, part(k), i)
      ensures d'.groups == groups && d'.stop == stop
      ensures d'.settled == (if v.Some? then d.settled + [v.value] else d.settled)
      ensures d'.released == (if v.Some? then d.released + [f] else d.released)
    {
      Arrive(t.arrivals, part);
      stop, v, f := TryHead(k, dlq, t, part);
      d' := Next(d, t, k, dlq, part(k), i);
    }

    /** The router queues records while the lock is free. */
    method Arrive(xs: seq<R.Record>, ghost part: Key -> nat)
      requires R.Valid(State(), part) && Placed(xs, part)
      modifies this
      ensures R.Valid(State(), part) && groups == AllQueued(old(groups), xs, |xs|)
    {
      for i := 0 to |xs|
        invariant R.Valid(State(), part) && groups == AllQueued(old(groups), xs, i)
      {
        R.AddBlockedKeepsFloors(State(), xs[i].entry.key, xs[i], part);
        AddBlocked(xs[i].entry.key, xs[i]);
      }
    }

    /** One pass of the drain loop over the head of `k`. */
    method TryHead(k: Key, dlq: bool, t: Attempt, ghost part: Key -> nat)
      returns (stop: bool, v: Option<Settlement>, f: Option<nat>)
      requires R.Valid(State(), part)
      modifies this
      ensures R.Valid(State(), part) && Pass(stop, v, groups) == Step(old(groups), t, k, dlq)
      ensures k in old(groups) && t.due ==> Answered(old(groups)[k], t, dlq, stop, v, Queue(groups, k))
      ensures k !in old(groups) || !t.due ==> stop && v == None && State() == old(State())
      ensures v.Some? ==> f == R.Floor(groups, part(k))
      ensures v.None? ==> floors == old(floors)
    {
      StepAnswers(groups, t, k, dlq);
      stop, v, f := true, None, None;
      if k !in groups || !t.due {
        return;
      }
      if t.delivery.Transient? {
        CountFailure(k, part);
        if groups[k][0].attempts < R.MAX_RETRIES {
          return;
        }
      }
      stop := false;
      v, f := Settle(k, dlq, t, part);
    }

    /** The head leaves when its verdict says so. */
    method Settle(k: Key, dlq: bool, t: Attempt, ghost part: Key -> nat) returns (v: Option<Settlement>, f: Option<nat>)
      requires R.Valid(State(), part) && k in groups
      requires t.delivery.Transient? ==> groups[k][0].attempts >= R.MAX_RETRIES
      modifies this
      ensures R.Valid(State(), part) && v == Verdict(t, old(groups)[k][0], dlq)
      ensures groups == if v.Some? then R.Popped(old(groups), k) else old(groups)
      ensures v.Some? ==> f == R.Floor(groups, part(k))
      ensures v.None? ==> floors == old(floors)
    {
      v, f := Verdict(t, groups[k][0], dlq), None;
      if v.Some? {
        R.PopHeadKeepsFloors(State(), k, part);
        f := PopHead(k);
        R.FloorUnique(groups, part(k), f, R.Floor(groups, part(k)));
      }
    }

    /** Counts a failed attempt on the head; queue contents and floors do not change. */
    method CountFailure(k: Key, ghost part: Key -> nat)
      requires R.Valid(State(), part) && k in groups
      modifies this`groups
      ensures R.Valid(State(), part)
      ensures k in groups && |old(groups)[k]| > 0
      ensures groups == old(groups)[k := old(groups)[k][0 := groups[k][0]]]
      ensures groups[k][0] == old(groups)[k][0].(attempts := old(groups)[k][0].attempts + 1)
      ensures Entries(groups[k]) == Entries(old(groups)[k])
    {
      var rec := groups[k][0];
      groups := groups[k := groups[k][0 := rec.(attempts := rec.attempts + 1)]];
      forall p: nat ensures R.IsFloor(groups, p, Lookup(floors, p)) {
        SameHeadsSameFloor(old(groups), groups, p, Lookup(floors, p));
      }
    }
  }

  /** What happens to the head once the attempt counter is up to date. */
  function Verdict(t: Attempt, rec: R.Record, dlq: bool): (v: Option<Settlement>)
    requires t.delivery.Transient? ==> rec.attempts >= R.MAX_RETRIES
    ensures v.Some? ==> Justifies(t, v.value, dlq) && v.value.entry == rec.entry
    ensures v.None? <==> !t.delivery.Ok? && dlq && !t.dlqWrite
  {
    if t.delivery.Ok? then Some(Delivered(rec.entry))
    else if !dlq then Some(Dropped(rec.entry, rec.attempts, t.delivery.Permanent?))
    else if t.dlqWrite then Some(DeadLettered(rec.entry, rec.attempts, t.delivery.Permanent?))
    else None
  }

  /** What was queued and what arrived is what was settled, of `k` only, and what is queued now. */
  ghost predicate Conserved(g0: R.Groups, came: seq<R.Record>, g: R.Groups, k: Key, settled: seq<Settlement>) {
    forall j :: Entries(Queue(g0, j)) + Arrived(came, j)
        == (if j == k then Settled(settled) else []) + Entries(Queue(g, j))
  }

  /** `f` is the floor right after the pop, which conserves what had come by then. */
  ghost predicate PoppedExactly(g0: R.Groups, tries: seq<Attempt>, pop: Pop, k: Key, settled: seq<Settlement>,
                                p: nat, f: Option<nat>) {
    && pop.attempt < |tries| && R.IsFloor(pop.groups, p, f)
    && Conserved(g0, AllArrivals(tries, pop.attempt + 1), pop.groups, k, settled)
  }

  /** A pass leaves every queue alone, or takes its settlement off the head of `k`. */
  ghost predicate Tried(g: R.Groups, g': R.Groups, k: Key, v: Option<Settlement>) {
    && Entries(Queue(g, k)) == (if v.Some? then [v.value.entry] else []) + Entries(Queue(g', k))
    && (forall j :: j != k ==> Lookup(g', j) == Lookup(g, j))
  }

  ghost predicate ReleasesExactly(g0: R.Groups, tries: seq<Attempt>, k: Key, p: nat, settled: seq<Settlement>,
                                  released: seq<Option<nat>>, pops: seq<Pop>) {
    && |released| == |settled| == |pops|
    && forall i :: 0 <= i < |pops| ==> PoppedExactly(g0, tries, pops[i], k, settled[..i + 1], p, released[i])
  }

  /** What a drain promises about the queues, the settlements and the reported floors. */
  ghost predicate Drain(g0: R.Groups, tries: seq<Attempt>, n: nat, g: R.Groups, k: Key, dlq: bool, p: nat,
                        settled: seq<Settlement>, released: seq<Option<nat>>, pops: seq<Pop>) {
    && n <= |tries| && Conserved(g0, AllArrivals(tries, n), g, k, settled)
    && Justified(settled, tries, n, dlq, pops)
    && ReleasesExactly(g0, tries, k, p, settled, released, pops)
  }

  lemma ReleasesOneMore(g0: R.Groups, tries: seq<Attempt>, k: Key, p: nat, settled: seq<Settlement>,
                        released: seq<Option<nat>>, pops: seq<Pop>, x: Settlement, f: Option<nat>, pop: Pop)
    requires ReleasesExactly(g0, tries, k, p, settled, released, pops)
    requires PoppedExactly(g0, tries, pop, k, settled + [x], p, f)
    ensures ReleasesExactly(g0, tries, k, p, settled + [x], released + [f], pops + [pop])
  {
    var settled', released', pops' := settled + [x], released + [f], pops + [pop];
    forall i | 0 <= i < |pops'| ensures PoppedExactly(g0, tries, pops'[i], k, settled'[..i + 1], p, released'[i]) {
      if i < |pops| {
        assert settled'[..i + 1] == settled[..i + 1];
        assert PoppedExactly(g0, tries, pops[i], k, settled[..i + 1], p, released[i]);
      } else {
        assert settled'[..i + 1] == settled';
      }
    }
  }

  lemma JustifiesOneMore(xs: seq<Settlement>, tries: seq<Attempt>, n: nat, dlq: bool, pops: seq<Pop>, x: Settlement,
                         pop: Pop)
    requires 0 < n <= |tries| && Justified(xs, tries, n - 1, dlq, pops)
    requires pop.attempt == n - 1 && Justifies(tries[n - 1], x, dlq)
    ensures Justified(xs + [x], tries, n, dlq, pops + [pop])
  {
  }

  /** One pass, by attempt `n - 1`. */
  lemma DrainStep(g0: R.Groups, tries: seq<Attempt>, n: nat, g': R.Groups, k: Key, dlq: bool, p: nat,
                  settled: seq<Settlement>, released: seq<Option<nat>>, pops: seq<Pop>, v: Option<Settlement>,
                  f: Option<nat>)
    requires 0 < n <= |tries|
    requires Conserved(g0, AllArrivals(tries, n), g', k, if v.Some? then settled + [v.value] else settled)
    requires Justified(settled, tries, n - 1, dlq, pops) && ReleasesExactly(g0, tries, k, p, settled, released, pops)
    requires v.Some? ==> Justifies(tries[n - 1], v.value, dlq) && R.IsFloor(g', p, f)
    ensures v.None? ==> Drain(g0, tries, n, g', k, dlq, p, settled, released, pops)
    ensures v.Some? ==>
      Drain(g0, tries, n, g', k, dlq, p, settled + [v.value], released + [f], pops + [Pop(n - 1, g')])
  {
    if v.Some? {
      JustifiesOneMore(settled, tries, n, dlq, pops, v.value, Pop(n - 1, g'));
      assert PoppedExactly(g0, tries, Pop(n - 1, g'), k, settled + [v.value], p, f);
      ReleasesOneMore(g0, tries, k, p, settled, released, pops, v.value, f, Pop(n - 1, g'));
    }
  }

  lemma StartsConserved(g: R.Groups, k: Key)
    ensures Conserved(g, [], g, k, [])
  {
    assert forall j :: Entries(Queue(g, j)) + [] == Entries(Queue(g, j)) == [] + Entries(Queue(g, j));
    assert Settled([]) == [];
  }

  lemma ArrivalConserved(g0: R.Groups, came: seq<R.Record>, g: R.Groups, k: Key, settled: seq<Settlement>,
                         rec: R.Record)
    requires Conserved(g0, came, g, k, settled)
    ensures Conserved(g0, came + [rec], R.Enqueued(g, rec.entry.key, rec), k, settled)
  {
    var g' := R.Enqueued(g, rec.entry.key, rec);
    forall j ensures Entries(Queue(g0, j)) + Arrived(came + [rec], j) ==
                     (if j == k then Settled(settled) else []) + Entries(Queue(g', j))
    {
      assert (came + [rec])[..|came|] == came;
      var front, tail := if j == k then Settled(settled) else [], if rec.entry.key == j then [rec.entry] else [];
      assert Entries(Queue(g', j)) == Entries(Queue(g, j)) + tail;
      assert Entries(Queue(g0, j)) + Arrived(came, j) == front + Entries(Queue(g, j));
      Associates(Entries(Queue(g0, j)), Arrived(came, j), tail);
      Associates(front, Entries(Queue(g, j)), tail);
      assert Entries(Queue(g0, j)) + (Arrived(came, j) + tail) == front + (Entries(Queue(g, j)) + tail);
    }
  }

  lemma Associates(a: seq<Entry>, b: seq<Entry>, d: seq<Entry>)
    ensures a + (b + d) == a + b + d
  {
  }

  lemma TrySteps(g0: R.Groups, came: seq<R.Record>, g: R.Groups, g': R.Groups, k: Key, settled: seq<Settlement>,
                 v: Option<Settlement>)
    requires Conserved(g0, came, g, k, settled) && Tried(g, g', k, v)
    ensures Conserved(g0, came, g', k, if v.Some? then settled + [v.value] else settled)
  {
    var settled' := if v.Some? then settled + [v.value] else settled;
    forall j ensures Entries(Queue(g0, j)) + Arrived(came, j)
        == (if j == k then Settled(settled') else []) + Entries(Queue(g', j)) {
      if j == k {
        var x := if v.Some? then [v.value.entry] else [];
        assert Settled(settled') == Settled(settled) + x;
        Associates(Settled(settled), x, Entries(Queue(g', k)));
      } else {
        assert Lookup(g', j) == Lookup(g, j);
      }
    }
  }

  /** A pass takes its settlement off the head of `k`, if it has one, and is entitled to it. */
  lemma PassTried(g: R.Groups, t: Attempt, k: Key, dlq: bool)
    ensures var x := Step(g, t, k, dlq); Tried(g, x.after, k, x.v) && (x.v.Some? ==> Justifies(t, x.v.value, dlq))
  {
    StepAnswers(g, t, k, dlq);
  }

  lemma {:induction false} ArrivalsConserved(g0: R.Groups, came: seq<R.Record>, g: R.Groups, k: Key,
                                             settled: seq<Settlement>, xs: seq<R.Record>, n: nat)
    requires n <= |xs| && Conserved(g0, came, g, k, settled)
    ensures Conserved(g0, came + xs[..n], AllQueued(g, xs, n), k, settled)
  {
    if n == 0 {
      assert came + xs[..0] == came;
    } else {
      var before, after := came + xs[..n - 1], came + xs[..n];
      assert after == before + [xs[n - 1]];
      ArrivalsConserved(g0, came, g, k, settled, xs, n - 1);
      ArrivalConserved(g0, before, AllQueued(g, xs, n - 1), k, settled, xs[n - 1]);
    }
  }

  ghost predicate Holds(g: R.Groups, tries: seq<Attempt>, n: nat, k: Key, dlq: bool, p: nat, d: Drained) {
    Drain(g, tries, n, d.groups, k, dlq, p, d.settled, d.released, d.pops)
  }

  /** What the passes of a drain come to. */
  lemma {:induction false} DrainHolds(g: R.Groups, trail: seq<Drained>, tries: seq<Attempt>, k: Key, dlq: bool,
                                      p: nat, n: nat)
    requires Trail(g, trail, tries, k, dlq, p) && n < |trail|
    ensures Holds(g, tries, n, k, dlq, p, trail[n])
  {
    if n == 0 {
      StartsConserved(g, k);
    } else {
      DrainHolds(g, trail, tries, k, dlq, p, n - 1);
      assert Linked(trail, tries, k, dlq, p, n - 1);
      DrainGoesOn(g, tries, k, dlq, p, trail[n - 1], n);
    }
  }

  lemma DrainGoesOn(g: R.Groups, tries: seq<Attempt>, k: Key, dlq: bool, p: nat, d: Drained, n: nat)
    requires 0 < n <= |tries| && Holds(g, tries, n - 1, k, dlq, p, d)
    ensures Holds(g, tries, n, k, dlq, p, Next(d, tries[n - 1], k, dlq, p, n - 1))
  {
    var t := tries[n - 1];
    var g1 := AllQueued(d.groups, t.arrivals, |t.arrivals|);
    var x := Step(g1, t, k, dlq);
    ArrivalsConserved(g, AllArrivals(tries, n - 1), d.groups, k, d.settled, t.arrivals, |t.arrivals|);
    assert t.arrivals[..|t.arrivals|] == t.arrivals;
    PassTried(g1, t, k, dlq);
    TrySteps(g, AllArrivals(tries, n), g1, x.after, k, d.settled, x.v);
    DrainStep(g, tries, n, x.after, k, dlq, p, d.settled, d.released, d.pops, x.v, R.Floor(x.after, p));
  }

  // ----- a drain that meets no failure -----

  predicate Steady(tries: seq<Attempt>) {
    forall i :: 0 <= i < |tries| ==> tries[i].due && tries[i].delivery.Ok? && tries[i].arrivals == []
  }

  function Shorter(a: nat, b: nat): (r: nat) { if a < b then a else b }

  /** The deliveries of the first `d` records. */
  function Deliveries(q: seq<R.Record>, d: nat): (xs: seq<Settlement>)
    requires d <= |q|
  {
    if d == 0 then [] else Deliveries(q, d - 1) + [Delivered(q[d - 1].entry)]
  }

  /** After `n` attempts of a steady drain the first `n` records are delivered, or all of them. */
  lemma {:induction false} SteadyPasses(g: R.Groups, trail: seq<Drained>, tries: seq<Attempt>, k: Key, dlq: bool,
                                        p: nat, n: nat)
    requires Trail(g, trail, tries, k, dlq, p) && n < |trail| && Steady(tries)
    ensures var q := Queue(g, k);
            var m := Shorter(n, |q|);
            && Queue(trail[n].groups, k) == q[m..] && trail[n].settled == Deliveries(q, m)
            && (trail[n].stop <==> n > |q|)
  {
    if n > 0 {
      SteadyPasses(g, trail, tries, k, dlq, p, n - 1);
      assert Linked(trail, tries, k, dlq, p, n - 1);
      SteadyNext(trail[n - 1], tries[n - 1], k, dlq, p, n - 1);
    }
  }

  lemma SteadyStep(g: R.Groups, t: Attempt, k: Key, dlq: bool)
    requires t.due && t.delivery.Ok?
    ensures var q, x := Queue(g, k), Step(g, t, k, dlq);
            if q == [] then x == Pass(true, None, g)
            else !x.stop && x.v == Some(Delivered(q[0].entry)) && Queue(x.after, k) == q[1..]
  {
    StepAnswers(g, t, k, dlq);
  }

  lemma SteadyNext(d: Drained, t: Attempt, k: Key, dlq: bool, p: nat, n: nat)
    requires t.due && t.delivery.Ok? && t.arrivals == []
    ensures var q, d' := Queue(d.groups, k), Next(d, t, k, dlq, p, n);
            if q == [] then d'.stop && d'.groups == d.groups && d'.settled == d.settled
            else !d'.stop && d'.settled == d.settled + [Delivered(q[0].entry)] && Queue(d'.groups, k) == q[1..]
  {
    assert AllQueued(d.groups, t.arrivals, |t.arrivals|) == d.groups;
    SteadyStep(d.groups, t, k, dlq);
  }

  /** When every attempt is due and Deliver returns nil, a drain delivers as many records from the
      head as it has attempts for, or all. */
  lemma SteadyDrains(g: R.Groups, trail: seq<Drained>, tries: seq<Attempt>, k: Key, dlq: bool, p: nat)
    requires Trail(g, trail, tries, k, dlq, p) && EndsWhenStopped(trail, tries) && Steady(tries)
    ensures var d, m := trail[|trail| - 1], Shorter(|tries|, |Queue(g, k)|);
            Queue(d.groups, k) == Queue(g, k)[m..] && d.settled == Deliveries(Queue(g, k), m)
  {
    SteadyPasses(g, trail, tries, k, dlq, p, |trail| - 1);
  }
}
