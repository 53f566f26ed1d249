/** What a retried Deliver comes to, and how often a head is tried before it is condemned
    (internal/router/retry.go). */
module RetryCounts {
  import opened Common
  import opened Delivery
  import R = Retry
  import S = Scheduler
  import opened DeliverySafety

  /** A nil Deliver settles the head, a permanent failure condemns it, and a transient one is
      counted and condemns it at the limit; the queues keep their entries. */
  lemma OutcomeDecides(c: Config, s: State, outcome: S.Outcome)
    requires Enabled(c, s, RetryDeliver(outcome))
    ensures var t, k, rec := DoRetry(c, s, outcome), s.retrier.key, s.retrier.rec;
            && (outcome.Ok? ==> t.retrier == Settled(k, rec) && rec.entry.sn in t.delivered)
            && (outcome.Permanent? ==> t.retrier == Condemned(k, rec))
            && (outcome.Transient? ==>
                  && k in t.view.retry.groups && t.view.retry.groups[k] != []
                  && t.view.retry.groups[k][0] == R.Record(rec.entry, rec.attempts + 1)
                  && t.retrier == if rec.attempts + 1 >= R.MAX_RETRIES then Condemned(k, t.view.retry.groups[k][0])
                                  else Resting)
            && (!outcome.Transient? ==> t.view == s.view)
            && t.view.retry.floors == s.view.retry.floors
            && forall j :: Lengthens(S.Queue(s.view.retry.groups, j), S.Queue(t.view.retry.groups, j))
  {
  }

  predicate HasHead(s: State, k: Key) { k in s.view.retry.groups && s.view.retry.groups[k] != [] }

  function HeadOf(s: State, k: Key): (rec: R.Record)
    requires HasHead(s, k)
  {
    s.view.retry.groups[k][0]
  }

  /** This step is a transient failure of the head of `k`. */
  predicate FailsOn(s: State, step: Step, k: Key) {
    step.RetryDeliver? && step.result.Transient? && s.retrier.Retrying? && s.retrier.key == k
  }

  predicate PopsOf(s: State, step: Step, k: Key) {
    (step.PopSettled? || step.DropCondemned?) && (s.retrier.Settled? || s.retrier.Condemned?) && s.retrier.key == k
  }

  /** The transient failures of the head of `k` in steps `a` to `b`. */
  function Fails(trace: seq<State>, steps: seq<Step>, k: Key, a: nat, b: nat): (n: nat)
    requires a <= b <= |steps| && |steps| < |trace|
    decreases b - a
  {
    if a == b then 0 else Fails(trace, steps, k, a, b - 1) + if FailsOn(trace[b - 1], steps[b - 1], k) then 1 else 0
  }

  /** Outside a crash or a pop of `k`, its head stays, and only its failures are counted. */
  lemma HeadCounts(c: Config, s: State, step: Step, k: Key)
    requires QueuesValid(c, s) && Enabled(c, s, step) && c.part(k) == c.partition && HasHead(s, k)
    requires !step.Crash? && !PopsOf(s, step, k)
    ensures HasHead(Do(c, s, step), k) && HeadOf(Do(c, s, step), k).entry == HeadOf(s, k).entry
    ensures HeadOf(Do(c, s, step), k).attempts == HeadOf(s, k).attempts + if FailsOn(s, step, k) then 1 else 0
  {
    if step.Elsewhere? {
      assert Lookup(step.retry.groups, k) == Lookup(s.view.retry.groups, k);
    } else if !step.Apply? && !step.RetryDeliver? && !step.PopSettled? && !step.DropCondemned? {
      assert Do(c, s, step).view.retry == s.view.retry;
    }
  }

  /** No crash, and no pop of `k`. */
  predicate Stays(trace: seq<State>, steps: seq<Step>, k: Key, a: nat, b: nat)
    requires b <= |steps| && |steps| < |trace|
  {
    forall i :: a <= i < b ==> !steps[i].Crash? && !PopsOf(trace[i], steps[i], k)
  }

  /** Step `n` keeps the head of `k` and counts its failure, if it is one. */
  predicate Counted(trace: seq<State>, steps: seq<Step>, k: Key, n: nat)
    requires n < |steps| && |steps| < |trace|
  {
    HasHead(trace[n], k) ==>
      && HasHead(trace[n + 1], k) && HeadOf(trace[n + 1], k).entry == HeadOf(trace[n], k).entry
      && HeadOf(trace[n + 1], k).attempts ==
           HeadOf(trace[n], k).attempts + if FailsOn(trace[n], steps[n], k) then 1 else 0
  }

  lemma CountsOn(c: Config, trace: seq<State>, steps: seq<Step>, k: Key, n: nat)
    requires Run(c, trace, steps) && n < |steps| && Stays(trace, steps, k, n, n + 1) && c.part(k) == c.partition
    ensures Counted(trace, steps, k, n)
  {
    QueuesInvariant(c, trace, steps, n);
    assert Enabled(c, trace[n], steps[n]) && trace[n + 1] == Do(c, trace[n], steps[n]);
    if HasHead(trace[n], k) {
      HeadCounts(c, trace[n], steps[n], k);
    }
  }

  lemma {:induction false} CountsAdd(trace: seq<State>, steps: seq<Step>, k: Key, a: nat, b: nat)
    requires a <= b <= |steps| && |steps| < |trace| && HasHead(trace[a], k)
    requires forall n: nat :: a <= n < b ==> Counted(trace, steps, k, n)
    ensures HasHead(trace[b], k) && HeadOf(trace[b], k).entry == HeadOf(trace[a], k).entry
    ensures HeadOf(trace[b], k).attempts == HeadOf(trace[a], k).attempts + Fails(trace, steps, k, a, b)
    decreases b - a
  {
    if a < b {
      CountsAdd(trace, steps, k, a, b - 1);
      assert Counted(trace, steps, k, b - 1);
    }
  }

  /** As long as it stays, a head has been tried in vain as often as its counter says it has since. */
  lemma FailuresAreCounted(c: Config, trace: seq<State>, steps: seq<Step>, k: Key, a: nat, b: nat)
    requires Run(c, trace, steps) && a <= b <= |steps| && Stays(trace, steps, k, a, b)
    requires c.part(k) == c.partition && HasHead(trace[a], k)
    ensures HasHead(trace[b], k) && HeadOf(trace[b], k).entry == HeadOf(trace[a], k).entry
    ensures HeadOf(trace[b], k).attempts == HeadOf(trace[a], k).attempts + Fails(trace, steps, k, a, b)
  {
    forall n: nat | a <= n < b ensures Counted(trace, steps, k, n) {
      CountsOn(c, trace, steps, k, n);
    }
    CountsAdd(trace, steps, k, a, b);
  }

  /** A transient failure condemns a head exactly when, with those it was queued with, it is the
      fifteenth or a later one. */
  lemma CondemnedAfterFifteen(c: Config, trace: seq<State>, steps: seq<Step>, k: Key, a: nat, b: nat)
    requires Run(c, trace, steps) && a <= b < |steps| && Stays(trace, steps, k, a, b)
    requires c.part(k) == c.partition && HasHead(trace[a], k) && FailsOn(trace[b], steps[b], k)
    ensures trace[b + 1].retrier.Condemned? <==>
            HeadOf(trace[a], k).attempts + Fails(trace, steps, k, a, b + 1) >= 15
    ensures trace[b + 1].retrier.Condemned? || trace[b + 1].retrier.Resting?
  {
    FailuresAreCounted(c, trace, steps, k, a, b);
    assert Enabled(c, trace[b], steps[b]) && trace[b + 1] == Do(c, trace[b], steps[b]);
    OutcomeDecides(c, trace[b], S.Transient);
  }
}
