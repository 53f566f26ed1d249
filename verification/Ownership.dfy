/** Partition ownership in a cluster (internal/cluster/partitions.go, partition_manager.go):
    rows of one table changed by atomic statements, and what each node remembers of them. */
module Ownership {
  import opened Common

  type Node = nat

  datatype Row = Row(owner: Option<Node>, epoch: nat)

  /** `epochs` is the store's map, `owned` the manager's; `replies` are rows a statement
      returned that the node has not read yet, `claimed` those the current call has read. */
  datatype Local = Local(epochs: map<nat, nat>, owned: map<nat, nat>, claimed: map<nat, nat>, replies: map<nat, nat>)

  datatype Grant = Grant(node: Node, partition: nat, epoch: nat)

  /** `grants` is the history of every epoch a statement handed out. */
  datatype State = State(table: seq<Row>, nodes: seq<Local>, grants: set<Grant>)

  datatype Step =
    | Claim(n: Node, p: nat)
    | Steal(n: Node, stale: Node)
    | Record(n: Node, p: nat)
    | Finish(n: Node)
    | Fail(n: Node)
    | Release(n: Node)
    | ClearEpochs(n: Node)
    | ClearOwned(n: Node)
    | Crash(n: Node)

  const NOTHING: Local := Local(map[], map[], map[], map[])

  predicate Enabled(s: State, step: Step) {
    && step.n < |s.nodes|
    && match step
       case Claim(n, p) => p < |s.table| && s.table[p].owner == None && s.nodes[n].replies == map[]
       case Steal(n, stale) => n != stale && s.nodes[n].replies == map[]
       case Record(n, p) => p in s.nodes[n].replies
       case Finish(n) => s.nodes[n].replies == map[]
       case _ => true
  }

  /** The rows one node takes over from another. */
  function Stolen(table: seq<Row>, stale: Node): (claims: map<nat, nat>)
    ensures forall p: nat :: p in claims <==> p < |table| && table[p].owner == Some(stale)
    ensures forall p :: p in claims ==> claims[p] == table[p].epoch + 1
  {
    map p: nat | p < |table| && table[p].owner == Some(stale) :: table[p].epoch + 1
  }

  function Taken(table: seq<Row>, n: Node, claims: map<nat, nat>): (table': seq<Row>)
    ensures |table'| == |table|
    ensures forall p :: 0 <= p < |table| ==> table'[p] == if p in claims then Row(Some(n), claims[p]) else table[p]
  {
    seq(|table|, p requires 0 <= p < |table| => if p in claims then Row(Some(n), claims[p]) else table[p])
  }

  function Released(table: seq<Row>, n: Node): (table': seq<Row>)
    ensures |table'| == |table|
    ensures forall p :: 0 <= p < |table| ==>
        table'[p] == if table[p].owner == Some(n) then Row(None, table[p].epoch) else table[p]
  {
    seq(|table|, p requires 0 <= p < |table| =>
      if table[p].owner == Some(n) then Row(None, table[p].epoch) else table[p])
  }

  function Grants(n: Node, claims: map<nat, nat>): (gs: set<Grant>) {
    set p | p in claims :: Grant(n, p, claims[p])
  }

  /** A statement that hands `claims` to `n`. */
  function Take(s: State, n: Node, claims: map<nat, nat>): (s': State)
    requires n < |s.nodes|
  {
    State(Taken(s.table, n, claims), s.nodes[n := s.nodes[n].(replies := claims)], s.grants + Grants(n, claims))
  }

  function Do(s: State, step: Step): (s': State)
    requires Enabled(s, step)
    ensures |s'.table| == |s.table| && |s'.nodes| == |s.nodes|
  {
    var n := step.n;
    var x := s.nodes[n];
    match step
    case Claim(_, p) => Take(s, n, map[p := s.table[p].epoch + 1])
    case Steal(_, stale) => Take(s, n, Stolen(s.table, stale))
    case Record(_, p) =>
      s.(nodes := s.nodes[n := x.(epochs := x.epochs[p := x.replies[p]], claimed := x.claimed[p := x.replies[p]],
          replies := x.replies - {p})])
    case Finish(_) => s.(nodes := s.nodes[n := x.(owned := x.owned + x.claimed, claimed := map[])])
    case Fail(_) => s.(nodes := s.nodes[n := x.(claimed := map[], replies := map[])])
    case Release(_) => s.(table := Released(s.table, n))
    case ClearEpochs(_) => s.(nodes := s.nodes[n := x.(epochs := map[])])
    case ClearOwned(_) => s.(nodes := s.nodes[n := x.(owned := map[])])
    case Crash(_) => s.(nodes := s.nodes[n := NOTHING])
  }

  ghost predicate Init(s: State) {
    && (forall p :: 0 <= p < |s.table| ==> s.table[p] == Row(None, 0))
    && (forall n :: 0 <= n < |s.nodes| ==> s.nodes[n] == NOTHING)
    && s.grants == {}
  }

  ghost predicate Run(trace: seq<State>, steps: seq<Step>) {
    && |trace| == |steps| + 1 && Init(trace[0])
    && forall i :: 0 <= i < |steps| ==> Enabled(trace[i], steps[i]) && trace[i + 1] == Do(trace[i], steps[i])
  }

  // ----- the invariant -----

  /** Every epoch of a partition is granted once, none above the table's; the table's own
      epoch belongs to the recorded owner, or to the one who has just released it. */
  ghost predicate GrantsOk(table: seq<Row>, grants: set<Grant>) {
    && (forall g :: g in grants ==> g.partition < |table| && g.epoch <= table[g.partition].epoch)
    && (forall g, h :: g in grants && h in grants && g.partition == h.partition && g.epoch == h.epoch ==> g == h)
    && (forall g :: g in grants && g.epoch == table[g.partition].epoch ==>
        table[g.partition].owner in {None, Some(g.node)})
    && (forall p :: 0 <= p < |table| && table[p].owner.Some? ==>
        Grant(table[p].owner.value, p, table[p].epoch) in grants)
  }

  ghost predicate Held(m: map<nat, nat>, n: Node, grants: set<Grant>) {
    forall p :: p in m ==> Grant(n, p, m[p]) in grants
  }

  /** A node remembers only what it was granted. */
  ghost predicate LocalOk(x: Local, n: Node, grants: set<Grant>) {
    Held(x.epochs, n, grants) && Held(x.owned, n, grants) && Held(x.claimed, n, grants) && Held(x.replies, n, grants)
  }

  ghost predicate Inv(s: State) {
    && GrantsOk(s.table, s.grants)
    && forall n :: 0 <= n < |s.nodes| ==> LocalOk(s.nodes[n], n, s.grants)
  }

  lemma HeldStays(x: Local, n: Node, grants: set<Grant>, more: set<Grant>)
    requires LocalOk(x, n, grants)
    ensures LocalOk(x, n, grants + more)
  {
  }

  lemma TakeKeeps(s: State, n: Node, claims: map<nat, nat>)
    requires Inv(s) && n < |s.nodes|
    requires forall p :: p in claims ==> p < |s.table| && claims[p] == s.table[p].epoch + 1
    ensures Inv(Take(s, n, claims))
  {
    var s' := Take(s, n, claims);
    forall m | 0 <= m < |s'.nodes| ensures LocalOk(s'.nodes[m], m, s'.grants) {
      HeldStays(s.nodes[m], m, s.grants, Grants(n, claims));
    }
  }

  lemma LocalKeeps(s: State, n: Node, x: Local)
    requires Inv(s) && n < |s.nodes| && LocalOk(x, n, s.grants)
    ensures Inv(s.(nodes := s.nodes[n := x]))
  {
  }

  lemma ReleaseKeeps(s: State, n: Node)
    requires Inv(s)
    ensures Inv(s.(table := Released(s.table, n)))
  {
  }

  lemma StepKeeps(s: State, step: Step)
    requires Inv(s) && Enabled(s, step)
    ensures Inv(Do(s, step))
  {
    match step
    case Claim(n, p) => TakeKeeps(s, n, map[p := s.table[p].epoch + 1]);
    case Steal(n, stale) => TakeKeeps(s, n, Stolen(s.table, stale));
    case Release(n) => ReleaseKeeps(s, n);
    case _ =>
      assert LocalOk(s.nodes[step.n], step.n, s.grants);
      LocalKeeps(s, step.n, Do(s, step).nodes[step.n]);
  }

  lemma {:induction false} RunInvariant(trace: seq<State>, steps: seq<Step>, i: nat)
    requires Run(trace, steps) && i < |trace|
    ensures Inv(trace[i])
  {
    if i > 0 {
      RunInvariant(trace, steps, i - 1);
      StepKeeps(trace[i - 1], steps[i - 1]);
    }
  }

  // ----- epochs are fencing tokens -----

  /** In either of its maps, or as an answer on its way, the node has this epoch. */
  ghost predicate Holds(s: State, n: Node, p: nat, e: nat)
    requires n < |s.nodes|
  {
    var x := s.nodes[n];
    Some(e) in {Lookup(x.epochs, p), Lookup(x.owned, p), Lookup(x.claimed, p), Lookup(x.replies, p)}
  }

  /** No node ever holds an epoch above the table's, and no two nodes ever hold the same one,
      whenever each of them got it. */
  lemma EpochsAreExclusive(trace: seq<State>, steps: seq<Step>, i: nat, j: nat, n: Node, m: Node, p: nat, e: nat)
    requires Run(trace, steps) && i <= j < |trace| && n < |trace[i].nodes| && m < |trace[j].nodes|
    requires Holds(trace[i], n, p, e) && Holds(trace[j], m, p, e)
    ensures n == m && p < |trace[i].table| && e <= trace[i].table[p].epoch
  {
    RunInvariant(trace, steps, i);
    RunInvariant(trace, steps, j);
    GrantsStay(trace, steps, i, j);
    assert LocalOk(trace[i].nodes[n], n, trace[i].grants) && LocalOk(trace[j].nodes[m], m, trace[j].grants);
    assert Grant(n, p, e) in trace[i].grants && Grant(m, p, e) in trace[j].grants;
  }

  lemma {:induction false} GrantsStay(trace: seq<State>, steps: seq<Step>, i: nat, j: nat)
    requires Run(trace, steps) && i <= j < |trace|
    ensures trace[i].grants <= trace[j].grants
  {
    if i < j {
      GrantsStay(trace, steps, i, j - 1);
    }
  }

  /** Who holds the table's epoch of a partition is its recorded owner, or has released it;
      so a node that still holds an epoch it lost is told apart by comparing epochs. */
  lemma CurrentEpochIsTheOwners(trace: seq<State>, steps: seq<Step>, i: nat, n: Node, p: nat)
    requires Run(trace, steps) && i < |trace| && n < |trace[i].nodes| && p < |trace[i].table|
    requires Holds(trace[i], n, p, trace[i].table[p].epoch)
    ensures trace[i].table[p].owner in {None, Some(n)}
    ensures forall m :: 0 <= m < |trace[i].nodes| && m != n ==> !Holds(trace[i], m, p, trace[i].table[p].epoch)
  {
    RunInvariant(trace, steps, i);
    assert LocalOk(trace[i].nodes[n], n, trace[i].grants);
    var e := trace[i].table[p].epoch;
    assert Grant(n, p, e) in trace[i].grants;
    forall m | 0 <= m < |trace[i].nodes| && m != n ensures !Holds(trace[i], m, p, e) {
      if Holds(trace[i], m, p, e) {
        EpochsAreExclusive(trace, steps, i, i, n, m, p, e);
      }
    }
  }

  // ----- a failed call -----

  /** Owned in the table by a node whose manager does not know it. */
  ghost predicate Orphaned(s: State, n: Node, p: nat) {
    && n < |s.nodes| && p < |s.table| && s.table[p].owner == Some(n)
    && p !in s.nodes[n].owned && p !in s.nodes[n].claimed && p !in s.nodes[n].replies
  }

  /** A call that fails after a row was taken orphans that row, unless the manager already
      had it. */
  lemma FailedCallOrphans(s: State, n: Node, p: nat)
    requires n < |s.nodes| && p < |s.table| && s.table[p].owner == Some(n)
    ensures Orphaned(Do(s, Fail(n)), n, p) <==> p !in s.nodes[n].owned
  {
  }

  /** Nothing but the node's own release, or another node declaring it stale, ends that: the
      row is neither claimable nor served, whatever else the cluster does. */
  lemma OrphanStays(s: State, step: Step, n: Node, p: nat)
    requires Orphaned(s, n, p) && Enabled(s, step)
    ensures Orphaned(Do(s, step), n, p) <==> step != Release(n) && !(step.Steal? && step.stale == n)
  {
  }

  lemma {:induction false} OrphanStaysForever(trace: seq<State>, steps: seq<Step>, i: nat, j: nat, n: Node, p: nat)
    requires Run(trace, steps) && i <= j < |trace| && Orphaned(trace[i], n, p)
    requires forall k :: i <= k < j ==> steps[k] != Release(n) && !(steps[k].Steal? && steps[k].stale == n)
    ensures Orphaned(trace[j], n, p)
  {
    if i < j {
      OrphanStaysForever(trace, steps, i, j - 1, n, p);
      OrphanStays(trace[j - 1], steps[j - 1], n, p);
    }
  }

  /** What makes a row an orphan: a call that fails after taking it, the manager forgetting a row it
      does not release, or a crash. */
  lemma OrphanArisesExactlyWhen(s: State, step: Step, n: Node, p: nat)
    requires Enabled(s, step) && n < |s.nodes| && p < |s.table| && !Orphaned(s, n, p)
    ensures var x := s.nodes[n];
            Orphaned(Do(s, step), n, p) <==>
            s.table[p].owner == Some(n) &&
            ((step == Fail(n) && p !in x.owned)
             || (step == ClearOwned(n) && p !in x.claimed && p !in x.replies)
             || step == Crash(n))
  {
  }

  // ----- a call that succeeds -----

  /** The call that node `n` began at step `i` ends at step `j`, reading its rows in between. */
  ghost predicate Call(trace: seq<State>, steps: seq<Step>, n: Node, i: nat, j: nat) {
    && Run(trace, steps) && i < j < |steps| && steps[j] == Finish(n)
    && steps[i].n == n && (steps[i].Claim? || steps[i].Steal?)
    && forall k :: i < k < j && steps[k].n == n ==> steps[k].Record?
  }

  /** The rows that the statement at step `i` takes, with their epochs raised. */
  function TakenBy(s: State, step: Step): (claims: map<nat, nat>)
    requires Enabled(s, step) && (step.Claim? || step.Steal?)
  {
    if step.Claim? then map[step.p := s.table[step.p].epoch + 1] else Stolen(s.table, step.stale)
  }

  ghost predicate Carries(x: Local, claims: map<nat, nat>) {
    forall p :: p in claims ==>
      if p in x.replies then x.replies[p] == claims[p]
      else p in x.claimed && p in x.epochs && x.claimed[p] == x.epochs[p] == claims[p]
  }

  lemma {:induction false} CallCarries(trace: seq<State>, steps: seq<Step>, n: Node, i: nat, j: nat, k: nat)
    requires Call(trace, steps, n, i, j) && i < k <= j
    ensures n < |trace[i].nodes| && n < |trace[k].nodes| && Enabled(trace[i], steps[i])
    ensures Carries(trace[k].nodes[n], TakenBy(trace[i], steps[i]))
  {
    if k > i + 1 {
      CallCarries(trace, steps, n, i, j, k - 1);
      assert Enabled(trace[k - 1], steps[k - 1]) && trace[k] == Do(trace[k - 1], steps[k - 1]);
    }
  }

  /** When the call ends, every row it took is with the manager and the store, at the epoch it was
      taken with, which is one above the row's epoch before. */
  lemma FinishedCallServes(trace: seq<State>, steps: seq<Step>, n: Node, i: nat, j: nat, p: nat)
    requires Call(trace, steps, n, i, j) && p < |trace[i].table|
    requires steps[i] == Claim(n, p) || (steps[i].Steal? && trace[i].table[p].owner == Some(steps[i].stale))
    ensures n < |trace[j + 1].nodes|
    ensures var x, e := trace[j + 1].nodes[n], trace[i].table[p].epoch + 1;
            p in x.owned && x.owned[p] == e && p in x.epochs && x.epochs[p] == e
    ensures trace[i + 1].table[p] == Row(Some(n), trace[i].table[p].epoch + 1)
  {
    CallCarries(trace, steps, n, i, j, j);
    assert Enabled(trace[i], steps[i]) && trace[i + 1] == Do(trace[i], steps[i]);
    assert Enabled(trace[j], steps[j]) && trace[j + 1] == Do(trace[j], steps[j]);
    assert p in TakenBy(trace[i], steps[i]);
  }

  /** It happens: one row won, then an error on the next. */
  lemma OrphanIsReachable()
    ensures exists trace: seq<State>, steps: seq<Step> :: Run(trace, steps) && Orphaned(trace[|trace| - 1], 0, 0)
  {
    var s0 := State([Row(None, 0)], [NOTHING], {});
    var s1 := Do(s0, Claim(0, 0));
    var s2 := Do(s1, Record(0, 0));
    var s3 := Do(s2, Fail(0));
    assert s1.nodes[0].replies == map[0 := 1] && s1.table[0] == Row(Some(0), 1);
    assert s3.table == s1.table && s3.nodes[0].owned == map[];
    FailedCallOrphans(s2, 0, 0);
    var trace, steps := [s0, s1, s2, s3], [Claim(0, 0), Record(0, 0), Fail(0)];
    assert Run(trace, steps);
    assert trace[|trace| - 1] == s3;
  }

  // ----- one node's calls -----

  /** What one UPDATE came back with. */
  datatype Reply = Won(partition: nat, epoch: nat) | NoRow | Error

  /** The rows read before the first error. */
  function WonBy(replies: seq<Reply>): (won: map<nat, nat>) {
    if replies == [] then map[]
    else
      var last := replies[|replies| - 1];
      var before := WonBy(replies[..|replies| - 1]);
      if last.Won? && Error !in replies then before[last.partition := last.epoch] else before
  }

  /** Reply `i` came before any error. */
  predicate Counts(replies: seq<Reply>, i: nat) { i < |replies| && Error !in replies[..i + 1] }

  /** `won` holds, for each partition some counted reply won, the epoch of the last one. */
  ghost predicate LastWins(replies: seq<Reply>, won: map<nat, nat>) {
    && (forall i: nat :: Counts(replies, i) && replies[i].Won? ==> replies[i].partition in won)
    && (forall p :: p in won ==> exists i: nat :: WonAt(replies, i, p, won[p]))
  }

  predicate WonAt(replies: seq<Reply>, i: nat, p: nat, e: nat) {
    && Counts(replies, i) && replies[i] == Won(p, e)
    && forall j :: i < j < |replies| && Counts(replies, j) && replies[j].Won? ==> replies[j].partition != p
  }

  lemma {:induction false} WonByIsLast(replies: seq<Reply>)
    ensures LastWins(replies, WonBy(replies))
  {
    if replies != [] {
      var n := |replies| - 1;
      var init := replies[..n];
      WonByIsLast(init);
      forall i: nat | i < n ensures Counts(replies, i) <==> Counts(init, i) {
        assert replies[..i + 1] == init[..i + 1];
      }
      assert Counts(replies, n) <==> Error !in replies by {
        assert replies[..n + 1] == replies;
      }
      forall p | p in WonBy(replies) ensures exists i: nat :: WonAt(replies, i, p, WonBy(replies)[p]) {
        if Error !in replies && replies[n].Won? && replies[n].partition == p {
          assert WonAt(replies, n, p, WonBy(replies)[p]);
        } else {
          var i: nat :| WonAt(init, i, p, WonBy(init)[p]);
          assert WonAt(replies, i, p, WonBy(replies)[p]);
        }
      }
    }
  }

  class PartitionStore {
    var epochs: map<nat, nat>

    constructor ()
      ensures epochs == map[]
    {
      epochs := map[];
    }

    /** The claims of one call, or None after an error: what was won until then stays in
        `epochs` and is not handed to the caller. */
    method ReadClaims(replies: seq<Reply>) returns (claims: Option<map<nat, nat>>)
      modifies this
      ensures epochs == old(epochs) + WonBy(replies)
      ensures claims == if Error in replies then None else Some(WonBy(replies))
    {
      var claimed: map<nat, nat> := map[];
      for i := 0 to |replies|
        invariant Error !in replies[..i] && claimed == WonBy(replies[..i])
        invariant epochs == old(epochs) + claimed
      {
        assert replies[..i + 1][..i] == replies[..i];
        match replies[i]
        case Error =>
          WonUntilError(replies, i);
          return None;
        case NoRow =>
        case Won(p, e) =>
          epochs := epochs[p := e];
          claimed := claimed[p := e];
      }
      assert replies[..|replies|] == replies;
      claims := Some(claimed);
    }

    method ReleaseAll(ok: bool)
      modifies this
      ensures epochs == if ok then map[] else old(epochs)
    {
      if ok {
        epochs := map[];
      }
    }
  }

  class PartitionManager {
    const store: PartitionStore
    var owned: map<nat, nat>

    constructor (store: PartitionStore)
      ensures this.store == store && owned == map[]
    {
      this.store, owned := store, map[];
    }

    /** Claiming, and stealing, which differ only in the statement. */
    method ClaimAndApply(replies: seq<Reply>) returns (ok: bool)
      modifies this, store
      ensures ok <==> Error !in replies
      ensures store.epochs == old(store.epochs) + WonBy(replies)
      ensures owned == if ok then old(owned) + WonBy(replies) else old(owned)
    {
      var claims := store.ReadClaims(replies);
      ok := claims.Some?;
      if ok {
        owned := owned + claims.value;
      }
    }

    /** The manager forgets everything even when the release did not reach the table. */
    method ReleaseAll(ok: bool)
      modifies this, store
      ensures owned == map[] && store.epochs == if ok then map[] else old(store.epochs)
    {
      store.ReleaseAll(ok);
      owned := map[];
    }
  }

  lemma {:induction false} WonUntilError(replies: seq<Reply>, i: nat)
    requires i < |replies| && replies[i] == Error && Error !in replies[..i]
    ensures WonBy(replies) == WonBy(replies[..i])
  {
    var n := |replies| - 1;
    assert Error in replies;
    if i < n {
      assert replies[..n][i] == Error && replies[..n][..i] == replies[..i];
      WonUntilError(replies[..n], i);
    }
  }
}
