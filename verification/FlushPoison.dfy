/** The poison path of batch-flushing consumers: an entry that FlushBatch rejects for good is
    dead-lettered and skipped, behind a guard that counts in memory. */
module FlushPoison {
  import opened Common
  import opened Delivery
  import R = Retry
  import D = Dispatch
  import CS = CursorStore
  import opened DeliverySafety
  import opened DeliveryRuns

  /** Entries are skipped only after their DLQ write returned nil, in every run. */
  lemma {:induction false} SkippedIsDeadLettered(c: Config, trace: seq<State>, steps: seq<Step>, n: nat)
    requires Run(c, trace, steps) && n <= |steps|
    ensures trace[n].skips <= trace[n].deadLettered
    ensures !c.dlq ==> trace[n].skips == {}
  {
    if n > 0 {
      SkippedIsDeadLettered(c, trace, steps, n - 1);
      assert Enabled(c, trace[n - 1], steps[n - 1]) && trace[n] == Do(c, trace[n - 1], steps[n - 1]);
    }
  }

  /** What a flush does to skips and streak: success ends the streak and, if the cursor is promoted,
      forgets the skips up to it; a poison that reaches the DLQ is skipped and counted; nothing else
      changes them, and no failed flush moves a cursor. */
  lemma FlushDecides(c: Config, s: State, outcome: FlushOutcome, w: bool)
    ensures var t := DoFlush(c, s, outcome, w);
            && t.router == Idle && t.inflight == [] && t.view.provisional == None && t.buffered == s.buffered
            && (outcome.FlushOk? ==>
                  && t.streak == 0 && t.deadLettered == s.deadLettered
                  && forall x :: x in t.skips <==> x in s.skips && (s.view.provisional.None? || x > t.view.cursor))
            && (!outcome.FlushOk? ==> t.view.cursor == s.view.cursor && t.store == s.store && t.flushed == s.flushed)
            && (outcome.Poison? && w && TriesDLQ(c, s, outcome.sn) ==>
                  && t.streak == s.streak + 1 && t.skips == s.skips + {outcome.sn}
                  && t.deadLettered == s.deadLettered + {outcome.sn})
            && (outcome.FlushFails? || (outcome.Poison? && !(w && TriesDLQ(c, s, outcome.sn))) ==>
                  t.streak == s.streak && t.skips == s.skips && t.deadLettered == s.deadLettered)
  {
  }

  // ----- counting over a run -----

  /** This step's flush dead-letters a poison. */
  ghost predicate DeadLettersPoison(c: Config, s: State, step: Step) {
    step.Flush? && step.outcome.Poison? && step.dlqWrite && TriesDLQ(c, s, step.outcome.sn)
  }

  /** How many poisons steps `a` to `b` dead-letter. */
  ghost function Poisons(c: Config, trace: seq<State>, steps: seq<Step>, a: nat, b: nat): (n: nat)
    requires a <= b <= |steps| && |steps| < |trace|
    decreases b - a
  {
    if a == b then 0
    else Poisons(c, trace, steps, a, b - 1) + if DeadLettersPoison(c, trace[b - 1], steps[b - 1]) then 1 else 0
  }

  function Crashes(steps: seq<Step>, a: nat, b: nat): (n: nat)
    requires a <= b <= |steps|
    decreases b - a
  {
    if a == b then 0 else Crashes(steps, a, b - 1) + if steps[b - 1].Crash? then 1 else 0
  }

  predicate FlushesOk(step: Step) { step.Flush? && step.outcome.FlushOk? }

  lemma {:induction false} StreakIsBounded(c: Config, trace: seq<State>, steps: seq<Step>, n: nat)
    requires Run(c, trace, steps) && n <= |steps|
    ensures trace[n].streak <= POISON_STREAK_LIMIT
  {
    if n > 0 {
      StreakIsBounded(c, trace, steps, n - 1);
      assert Enabled(c, trace[n - 1], steps[n - 1]) && trace[n] == Do(c, trace[n - 1], steps[n - 1]);
    }
  }

  lemma {:induction false} StreakCounts(c: Config, trace: seq<State>, steps: seq<Step>, a: nat, b: nat)
    requires Run(c, trace, steps) && a <= b <= |steps| && forall i :: a <= i < b ==> !FlushesOk(steps[i])
    ensures Poisons(c, trace, steps, a, b) <= POISON_STREAK_LIMIT * Crashes(steps, a, b) + trace[b].streak
    decreases b - a
  {
    if a < b {
      StreakCounts(c, trace, steps, a, b - 1);
      StreakIsBounded(c, trace, steps, b - 1);
      var s, step := trace[b - 1], steps[b - 1];
      assert Enabled(c, s, step) && trace[b] == Do(c, s, step);
      assert !step.Crash? ==> trace[b].streak == s.streak + if DeadLettersPoison(c, s, step) then 1 else 0;
    }
  }

  /** Over any stretch of any run without a successful flush, at most 25 poisons are
      dead-lettered per process that lived in it. */
  lemma PoisonIsGuarded(c: Config, trace: seq<State>, steps: seq<Step>, a: nat, b: nat)
    requires Run(c, trace, steps) && a <= b <= |steps| && forall i :: a <= i < b ==> !FlushesOk(steps[i])
    ensures Poisons(c, trace, steps, a, b) <= POISON_STREAK_LIMIT * (Crashes(steps, a, b) + 1)
  {
    StreakCounts(c, trace, steps, a, b);
    StreakIsBounded(c, trace, steps, b);
  }

  // ----- restarts exceed the guard -----

  /** The run so far dead-lettered `p` poisons over `k` crashes without a successful flush. */
  ghost predicate Tally(c: Config, trace: seq<State>, steps: seq<Step>, p: nat, k: nat) {
    && |trace| == |steps| + 1
    && Poisons(c, trace, steps, 0, |steps|) == p && Crashes(steps, 0, |steps|) == k
    && forall i :: 0 <= i < |steps| ==> !FlushesOk(steps[i])
  }

  lemma {:induction false} PrefixCounts(c: Config, trace: seq<State>, steps: seq<Step>, step: Step, s: State, b: nat)
    requires |trace| == |steps| + 1 && b <= |steps|
    ensures Poisons(c, trace + [s], steps + [step], 0, b) == Poisons(c, trace, steps, 0, b)
    ensures Crashes(steps + [step], 0, b) == Crashes(steps, 0, b)
  {
    if b > 0 {
      PrefixCounts(c, trace, steps, step, s, b - 1);
    }
  }

  /** A counted run that ends in `s`. */
  ghost predicate Reaches(trace: seq<State>, steps: seq<Step>, s: State, p: nat, k: nat) {
    Run(PoisonConfig(), trace, steps) && Tally(PoisonConfig(), trace, steps, p, k) && trace[|steps|] == s
  }

  /** One more step, counted. */
  lemma Count(trace: seq<State>, steps: seq<Step>, s: State, step: Step, t: State, p: nat, k: nat)
    returns (trace': seq<State>, steps': seq<Step>)
    requires Reaches(trace, steps, s, p, k) && Enabled(PoisonConfig(), s, step) && Do(PoisonConfig(), s, step) == t
    requires !FlushesOk(step)
    ensures Reaches(trace', steps', t, p + (if DeadLettersPoison(PoisonConfig(), s, step) then 1 else 0),
                    k + if step.Crash? then 1 else 0)
  {
    trace', steps' := Extend(PoisonConfig(), trace, steps, step, t);
    PrefixCounts(PoisonConfig(), trace, steps, step, t, |steps|);
  }

  function PoisonConfig(): (c: Config) { Config("c", 0, k => 0, 1, true, true) }

  /** Entries 1 to `n`, all of one key. */
  ghost predicate Entries(log: seq<Entry>, n: nat) {
    |log| == n && forall i :: 0 <= i < n ==> log[i] == Entry(i + 1, "a", 0)
  }

  /** The process stands at entry `n`, the last of the log. */
  ghost predicate AtLast(s: State, n: nat) {
    && n > 0 && Entries(s.log, n) && s.view == D.View(true, n, None, R.EMPTY) && s.router.Idle?
    && s.buffered == s.inflight == [] && s.store.inflight == map[]
  }

  /** It has dead-lettered `r` poisons, the latest of them entry `n`, and saved its cursor. */
  ghost predicate Round(s: State, n: nat, r: nat) {
    && AtLast(s, n) && s.streak == r && n in s.skips && (forall x :: x in s.skips ==> x <= n)
    && (r > 1 ==> Lookup(s.store.dirty, MyKey(PoisonConfig())) == Some(n))
  }

  /** It has just started. */
  ghost predicate Started(s: State, n: nat) {
    AtLast(s, n) && s.streak == 0 && s.skips == {}
  }

  /** What dispatching the entry at `i` to a flusher without blocked groups comes to. */
  function Dispatched(s: State, i: nat, hi: nat, skipped: bool): (t: State)
    requires i < |s.log|
  {
    var sn := s.log[i].sn;
    var next := s.(router := AtEntry(i + 1, hi));
    if skipped then
      Saved(PoisonConfig(), next.(view := s.view.(cursor := sn + 1)), sn + 1)
    else
      next.(view := s.view.(provisional := Some(sn + 1)), buffered := s.buffered + [sn],
            delivered := s.delivered + {sn})
  }

  ghost predicate Plain(s: State, i: nat, hi: nat) {
    && s.router == AtEntry(i, hi) && i < hi <= |s.log| && s.view == D.View(true, s.log[i].sn, None, R.EMPTY)
  }

  lemma Dispatches(trace0: seq<State>, steps0: seq<Step>, s: State, i: nat, hi: nat, p: nat, k: nat)
    returns (trace: seq<State>, steps: seq<Step>)
    requires Reaches(trace0, steps0, s, p, k) && Plain(s, i, hi)
    ensures Reaches(trace, steps, Dispatched(s, i, hi, s.log[i].sn in s.skips), p, k)
  {
    var sn := s.log[i].sn;
    var t := s.(router := Checked(i, hi, false));
    trace, steps := Count(trace0, steps0, s, CheckBlocked(false), t, p, k);
    var u := s.(router := Snapped(i, hi, D.Snap(false, sn, sn in s.skips)));
    trace, steps := Count(trace, steps, t, Snapshot, u, p, k);
    DispatchedIs(s, i, hi);
    trace, steps := Applies(trace, steps, u, p, k);
  }

  lemma Applies(trace0: seq<State>, steps0: seq<Step>, s: State, p: nat, k: nat)
    returns (trace: seq<State>, steps: seq<Step>)
    requires Reaches(trace0, steps0, s, p, k) && s.router.Snapped? && s.router.i < |s.log|
    ensures Reaches(trace, steps, DoSave(PoisonConfig(), DoApply(DoDeliver(s, true))), p, k)
  {
    var t, u := DoDeliver(s, true), DoApply(DoDeliver(s, true));
    trace, steps := Count(trace0, steps0, s, Deliver(true), t, p, k);
    trace, steps := Count(trace, steps, t, Apply, u, p, k);
    trace, steps := Count(trace, steps, u, Save, DoSave(PoisonConfig(), u), p, k);
  }

  lemma DispatchedIs(s: State, i: nat, hi: nat)
    requires Plain(s, i, hi)
    ensures var sn := s.log[i].sn;
            var t := s.(router := Snapped(i, hi, D.Snap(false, sn, sn in s.skips)));
            DoSave(PoisonConfig(), DoApply(DoDeliver(t, true))) == Dispatched(s, i, hi, sn in s.skips)
  {
  }

  /** The batch ends in a poison, and the DLQ takes it. */
  function Skipped(s: State, sn: nat): (t: State) {
    s.(router := Idle, buffered := [], inflight := [], view := s.view.(provisional := None),
       deadLettered := s.deadLettered + {sn}, skips := s.skips + {sn}, streak := s.streak + 1)
  }

  lemma Poisoned(trace0: seq<State>, steps0: seq<Step>, s: State, sn: nat, p: nat, k: nat)
    returns (trace: seq<State>, steps: seq<Step>)
    requires Reaches(trace0, steps0, s, p, k) && s.router.AtEntry? && s.router.i == s.router.hi
    requires TriesDLQ(PoisonConfig(), s, sn)
    ensures Reaches(trace, steps, Skipped(s, sn), p + 1, k)
  {
    var t := DoTake(s);
    trace, steps := Count(trace0, steps0, s, TakeBuffer, t, p, k);
    trace, steps := Count(trace, steps, t, Flush(Poison(sn), true), Skipped(s, sn), p, k);
  }

  lemma FirstOf(log: seq<Entry>, n: nat, from: nat)
    requires Entries(log, n) && 1 <= from <= n
    ensures FirstFrom(log, from) == from - 1 && (from == n ==> InWindow(log, n, n))
  {
    var i := FirstFrom(log, from);
    assert log[from - 1].sn == from;
    assert i < n ==> log[i].sn == i + 1;
  }

  lemma FirstState(s: State, n: nat)
    requires Started(s, n)
    ensures Plain(s.(router := AtEntry(n - 1, n)), n - 1, n) && s.log[n - 1].sn == n
    ensures var u := Dispatched(s.(router := AtEntry(n - 1, n)), n - 1, n, false);
            TriesDLQ(PoisonConfig(), u, n) && u.router == AtEntry(n, n) && Round(Skipped(u, n), n, 1)
  {
    FirstOf(s.log, n, n);
  }

  /** A fresh process reads the last entry, which poisons its flush. */
  lemma FirstRound(trace0: seq<State>, steps0: seq<Step>, s: State, n: nat, p: nat, k: nat)
    returns (trace: seq<State>, steps: seq<Step>, t: State)
    requires Reaches(trace0, steps0, s, p, k) && Started(s, n)
    ensures Reaches(trace, steps, t, p + 1, k) && Round(t, n, 1)
  {
    FirstOf(s.log, n, n);
    FirstState(s, n);
    t := s.(router := AtEntry(n - 1, n));
    trace, steps := Count(trace0, steps0, s, StartBatch(n), t, p, k);
    trace, steps := Dispatches(trace, steps, t, n - 1, n, p, k);
    t := Dispatched(t, n - 1, n, false);
    trace, steps := Poisoned(trace, steps, t, n, p, k);
    t := Skipped(t, n);
  }

  /** The next entry arrives, and a batch starts at the latest poison. */
  function Arrived(s: State, n: nat): (t: State)
    requires n > 0
  {
    s.(log := s.log + [Entry(n + 1, "a", 0)], router := AtEntry(n - 1, n + 1))
  }

  lemma NextArrives(trace0: seq<State>, steps0: seq<Step>, s: State, n: nat, p: nat, k: nat)
    returns (trace: seq<State>, steps: seq<Step>)
    requires Reaches(trace0, steps0, s, p, k) && AtLast(s, n)
    ensures Reaches(trace, steps, Arrived(s, n), p, k)
  {
    var e := Entry(n + 1, "a", 0);
    var t := s.(log := s.log + [e]);
    assert s.log[n - 1].sn == n;
    trace, steps := Count(trace0, steps0, s, Append(e), t, p, k);
    FirstOf(t.log, n + 1, n);
    trace, steps := Count(trace, steps, t, StartBatch(n), Arrived(s, n), p, k);
  }

  /** The latest poison is skipped, which moves the cursor, and the new entry is buffered. */
  lemma NextState(s: State, n: nat, r: nat)
    requires Round(s, n, r)
    ensures var t := Arrived(s, n);
            && Plain(t, n - 1, n + 1) && t.log[n - 1].sn == n && n in t.skips
            && var u := Dispatched(t, n - 1, n + 1, true);
               Plain(u, n, n + 1) && u.log[n].sn == n + 1 && n + 1 !in u.skips
  {
  }

  lemma NextPoison(s: State, n: nat, r: nat)
    requires 0 < r < POISON_STREAK_LIMIT && Round(s, n, r)
    ensures var u := Dispatched(Dispatched(Arrived(s, n), n - 1, n + 1, true), n, n + 1, false);
            && TriesDLQ(PoisonConfig(), u, n + 1) && u.router == AtEntry(n + 1, n + 1)
            && Round(Skipped(u, n + 1), n + 1, r + 1)
  {
    FirstOf(Arrived(s, n).log, n + 1, n + 1);
  }

  lemma NextBatch(trace0: seq<State>, steps0: seq<Step>, s: State, n: nat, r: nat, p: nat, k: nat)
    returns (trace: seq<State>, steps: seq<Step>, t: State)
    requires Reaches(trace0, steps0, s, p, k) && Round(s, n, r)
    ensures t == Dispatched(Dispatched(Arrived(s, n), n - 1, n + 1, true), n, n + 1, false)
    ensures Reaches(trace, steps, t, p, k)
  {
    NextState(s, n, r);
    trace, steps := NextArrives(trace0, steps0, s, n, p, k);
    var u := Arrived(s, n);
    trace, steps := Dispatches(trace, steps, u, n - 1, n + 1, p, k);
    var v := Dispatched(u, n - 1, n + 1, true);
    trace, steps := Dispatches(trace, steps, v, n, n + 1, p, k);
    t := Dispatched(v, n, n + 1, false);
  }

  lemma NextRound(trace0: seq<State>, steps0: seq<Step>, s: State, n: nat, r: nat, p: nat, k: nat)
    returns (trace: seq<State>, steps: seq<Step>, t: State)
    requires 0 < r < POISON_STREAK_LIMIT && Reaches(trace0, steps0, s, p, k) && Round(s, n, r)
    ensures Reaches(trace, steps, t, p + 1, k) && Round(t, n + 1, r + 1)
  {
    var u;
    trace, steps, u := NextBatch(trace0, steps0, s, n, r, p, k);
    NextPoison(s, n, r);
    trace, steps := Poisoned(trace, steps, u, n + 1, p, k);
    t := Skipped(u, n + 1);
  }

  /** The process goes on until the guard closes. */
  lemma {:induction false} Rounds(trace0: seq<State>, steps0: seq<Step>, s: State, n: nat, r: nat, p: nat, k: nat)
    returns (trace: seq<State>, steps: seq<Step>, t: State, m: nat, q: nat)
    requires 0 < r <= POISON_STREAK_LIMIT && Reaches(trace0, steps0, s, p, k) && Round(s, n, r)
    ensures q == p + POISON_STREAK_LIMIT - r && Reaches(trace, steps, t, q, k) && Round(t, m, POISON_STREAK_LIMIT)
    decreases POISON_STREAK_LIMIT - r
  {
    if r == POISON_STREAK_LIMIT {
      trace, steps, t, m, q := trace0, steps0, s, n, p;
    } else {
      var trace1, steps1, u := NextRound(trace0, steps0, s, n, r, p, k);
      trace, steps, t, m, q := Rounds(trace1, steps1, u, n + 1, r + 1, p + 1, k);
    }
  }

  /** A fresh process dead-letters 25 poisons in a row. */
  lemma WholeProcess(trace0: seq<State>, steps0: seq<Step>, s: State, n: nat, p: nat, k: nat)
    returns (trace: seq<State>, steps: seq<Step>, t: State, m: nat, q: nat)
    requires Reaches(trace0, steps0, s, p, k) && Started(s, n)
    ensures q == p + POISON_STREAK_LIMIT && Reaches(trace, steps, t, q, k) && Round(t, m, POISON_STREAK_LIMIT)
  {
    var trace1, steps1, u := FirstRound(trace0, steps0, s, n, p, k);
    trace, steps, t, m, q := Rounds(trace1, steps1, u, n, 1, p + 1, k);
  }

  lemma SavedIsDurable(s: State, n: nat)
    requires AtLast(s, n) && Lookup(s.store.dirty, MyKey(PoisonConfig())) == Some(n)
    ensures var store := CS.Apply(CS.Apply(s.store, CS.BeginFlush), CS.Commit);
            Started(DoCrash(PoisonConfig(), s.(store := store), false), n)
  {
  }

  /** The cursor becomes durable, and the process dies. */
  lemma Restarts(trace0: seq<State>, steps0: seq<Step>, s: State, n: nat, r: nat, p: nat, k: nat)
    returns (trace: seq<State>, steps: seq<Step>, t: State)
    requires Reaches(trace0, steps0, s, p, k) && Round(s, n, r) && r > 1
    ensures Reaches(trace, steps, t, p, k + 1) && Started(t, n)
  {
    var u := s.(store := CS.Apply(s.store, CS.BeginFlush));
    trace, steps := Count(trace0, steps0, s, Persist(CS.BeginFlush), u, p, k);
    var v := u.(store := CS.Apply(u.store, CS.Commit));
    trace, steps := Count(trace, steps, u, Persist(CS.Commit), v, p, k);
    SavedIsDurable(s, n);
    t := DoCrash(PoisonConfig(), v, false);
    trace, steps := Count(trace, steps, v, Crash(false), t, p, k);
  }

  const NEW := State([], D.View(true, 1, None, R.EMPTY), {}, 0, Idle, Resting, [], [], CS.Store(map[], map[], map[]),
                     {}, {}, {}, {})

  lemma Starts() returns (trace: seq<State>, steps: seq<Step>, t: State)
    ensures Reaches(trace, steps, t, 0, 0) && Started(t, 1)
  {
    var e := Entry(1, "a", 0);
    t := NEW.(log := [] + [e]);
    trace, steps := Count([NEW], [], NEW, Append(e), t, 0, 0);
  }

  /** `k` restarts, each after the guard has closed. */
  lemma {:induction false} Processes(k: nat)
    returns (trace: seq<State>, steps: seq<Step>, t: State, n: nat, p: nat)
    ensures p == POISON_STREAK_LIMIT * (k + 1) && Reaches(trace, steps, t, p, k) && Round(t, n, POISON_STREAK_LIMIT)
  {
    if k == 0 {
      var trace1, steps1, u := Starts();
      trace, steps, t, n, p := WholeProcess(trace1, steps1, u, 1, 0, 0);
    } else {
      var trace1, steps1, s, m, q := Processes(k - 1);
      var trace2, steps2, u := Restarts(trace1, steps1, s, m, POISON_STREAK_LIMIT, q, k - 1);
      trace, steps, t, n, p := WholeProcess(trace2, steps2, u, m, q, k);
    }
  }

  /** The guard counts in memory, so the bound of `PoisonIsGuarded` is attained: for every
      number of restarts there is a run that dead-letters 25 poisons in each process, though no
      flush succeeds in between. */
  lemma RestartsExceedTheGuard(k: nat) returns (trace: seq<State>, steps: seq<Step>)
    ensures Run(PoisonConfig(), trace, steps) && forall i :: 0 <= i < |steps| ==> !FlushesOk(steps[i])
    ensures Crashes(steps, 0, |steps|) == k
    ensures Poisons(PoisonConfig(), trace, steps, 0, |steps|) == POISON_STREAK_LIMIT * (k + 1)
  {
    var t, n, p;
    trace, steps, t, n, p := Processes(k);
  }
}
