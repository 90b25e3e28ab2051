/** Safety, progress and termination of the buffer threads over every schedule. */
module BufferProperties {
  import opened Options
  import opened Sums
  import opened BufferThreads
  import opened BufferInvariant

  // ---------------------------------------------------------------- starting a phase

  /** A ring at rest: nobody inside, the outstanding slots hold their index, the others 0. */
  ghost predicate RingAtRest(size: nat, r: Ring, l: Ledger) {
    size > 0 && RingAt(size, r, l, Producer, Loop)
  }

  function OriginOf(size: nat, s: State): Origin {
    Origin(size, |s.ledger.puts|, |s.ledger.takes|)
  }

  /** What the roster adds to the ring once all quotas are used up. */
  function Surplus(s: State): int {
    Sum(s.threads, ProduceQuota) - Sum(s.threads, ConsumeQuota)
  }

  /** Items in the ring when the phase started. */
  function Stock(o: Origin): int { o.puts - o.takes }

  /** Everything the roster will do fits: no thread is left with an item it cannot move. */
  predicate Balanced(o: Origin, s: State) {
    0 <= Stock(o) + Surplus(s) <= o.size
  }

  lemma {:induction false} SpawnedSums(threads: seq<Thread>)
    requires forall i | 0 <= i < |threads| :: threads[i].pc == Loop && threads[i].done == 0
    ensures Sum(threads, Stored) == 0 && Sum(threads, Cleared) == 0
    ensures Sum(threads, SleepsOnMore) == 0 && Sum(threads, SleepsOnLess) == 0
  {
    if threads != [] {
      assert forall i | 0 <= i < |threads| - 1 :: threads[1..][i] == threads[i + 1];
      SpawnedSums(threads[1..]);
    }
  }

  lemma SpawnedInv(size: nat, s: State)
    requires Spawned(s) && RingAtRest(size, s.ring, s.ledger)
    ensures Inv(OriginOf(size, s), s)
  {
    SpawnedSums(s.threads);
  }

  lemma StepKeepsQuotas(size: nat, s: State, step: Step)
    requires size > 0 && Enabled(s, step)
    ensures Sum(Exec(size, s, step).threads, ProduceQuota) == Sum(s.threads, ProduceQuota)
    ensures Sum(Exec(size, s, step).threads, ConsumeQuota) == Sum(s.threads, ConsumeQuota)
  {
    SumStep(size, s, step, ProduceQuota);
    SumStep(size, s, step, ConsumeQuota);
  }

  // ---------------------------------------------------------------- every run

  /** The invariant holds after every schedule, and no schedule changes a quota. */
  lemma {:induction false} RunKeepsInv(o: Origin, s: State, steps: seq<Step>)
    requires Inv(o, s) && CanRun(o.size, s, steps)
    ensures Inv(o, After(o.size, s, steps))
    ensures Surplus(After(o.size, s, steps)) == Surplus(s)
    decreases |steps|
  {
    if steps != [] {
      StepKeepsInv(o, s, steps[0]);
      StepKeepsQuotas(o.size, s, steps[0]);
      RunKeepsInv(o, Exec(o.size, s, steps[0]), steps[1..]);
    }
  }

  // ---------------------------------------------------------------- the ring is a bounded queue

  /** One move of a queue of capacity `size`: append a slot that is not in it, or remove the oldest. */
  ghost predicate QueueMove(size: nat, q: seq<int>, q': seq<int>) {
    || q' == q
    || (|q| < size && q' != [] && q' == q + [q'[|q'| - 1]] && q'[|q'| - 1] !in q)
    || (q != [] && q' == q[1..])
  }

  /** Each statement of each thread leaves the queue alone, appends the slot it stores to, or clears the head. */
  lemma StepRefinesQueue(o: Origin, s: State, step: Step)
    requires Inv(o, s) && Enabled(s, step)
    ensures var q, q' := Queue(s.ledger), Queue(Exec(o.size, s, step).ledger);
            QueueMove(o.size, q, q')
    ensures var t, q, q' := s.threads[step.thread], Queue(s.ledger), Queue(Exec(o.size, s, step).ledger);
            if step.Spurious? || t.pc != Write then q' == q
            else if t.role.Producer? then |q| < o.size && s.ring.nextin !in q && q' == q + [s.ring.nextin]
            else q == [s.ring.nextout] + q'
  {
    if step.Run? && s.threads[step.thread].pc == Write {
      StepInside(o.size, s, step);
      if s.threads[step.thread].role.Producer? {
        StoreKeepsRing(o.size, s, step);
      } else {
        ClearKeepsRing(o.size, s, step);
      }
    }
  }

  /** In every run the slots are cleared in the order in which they were stored, at most `size` are
      outstanding, and no access leaves the buffer. */
  lemma {:induction false} RunIsFifo(o: Origin, s: State, steps: seq<Step>)
    requires Inv(o, s) && CanRun(o.size, s, steps)
    ensures var e := After(o.size, s, steps);
            !e.fault && e.ledger.takes <= e.ledger.puts && |e.ledger.puts| - |e.ledger.takes| <= o.size
  {
    RunKeepsInv(o, s, steps);
  }

  /** Whenever the mutex is free the ring is exactly its history: counts, indices and contents. */
  lemma {:induction false} RingWhenFree(o: Origin, s: State, steps: seq<Step>)
    requires Inv(o, s) && CanRun(o.size, s, steps)
    requires After(o.size, s, steps).owner == None
    ensures var e := After(o.size, s, steps);
            var q := Queue(e.ledger);
            && e.ring.occupied == |e.ledger.puts| - |e.ledger.takes| == |q|
            && 0 <= e.ring.occupied <= o.size
            && e.ring.nextin == |e.ledger.puts| % o.size
            && e.ring.nextout == |e.ledger.takes| % o.size
            && |e.ring.buf| == o.size
            && forall j | 0 <= j < o.size :: e.ring.buf[j] == if j in q then j else 0
  {
    RunKeepsInv(o, s, steps);
    var l := After(o.size, s, steps).ledger;
    SlotIsRemainder(|l.puts|, o.size);
    SlotIsRemainder(|l.takes|, o.size);
  }

  // ---------------------------------------------------------------- no deadlock

  /** With the mutex held, its owner can go on. */
  lemma OwnerRuns(o: Origin, s: State)
    requires Inv(o, s) && s.owner.Some?
    ensures !Stuck(s)
  {
    var i := s.owner.value;
    var t := s.threads[i];
    assert Critical(t.pc);
    if t.pc == Signal && HasWaiter(s.threads, Other(t.role)) {
      var w :| 0 <= w < |s.threads| && IsWaiter(s.threads[w], Other(t.role));
      assert Enabled(s, Run(i, w));
    } else {
      assert Enabled(s, Run(i, 0));
    }
  }

  /** In a stuck state every thread is finished or sleeps, and no wake-up is on its way. */
  lemma StuckThreads(o: Origin, s: State)
    requires Inv(o, s) && Stuck(s)
    ensures s.owner == None
    ensures forall i | 0 <= i < |s.threads| :: s.threads[i].pc in {Done, Waiting}
    ensures Sum(s.threads, MoreToken) == 0 && Sum(s.threads, LessToken) == 0
  {
    if s.owner.Some? { OwnerRuns(o, s); }
    forall i | 0 <= i < |s.threads| ensures s.threads[i].pc in {Done, Waiting} {
      assert !Enabled(s, Run(i, 0));
    }
    NoSleepers(s.threads);
    if Sum(s.threads, MoreToken) > 0 { var i := SumWitness(s.threads, MoreToken); }
    if Sum(s.threads, LessToken) > 0 { var i := SumWitness(s.threads, LessToken); }
  }

  /** Work done never exceeds the quotas. */
  lemma WithinQuota(s: State)
    requires Shaped(s)
    ensures Sum(s.threads, Stored) <= Sum(s.threads, ProduceQuota)
    ensures Sum(s.threads, Cleared) <= Sum(s.threads, ConsumeQuota)
  {
    SumMonotone(s.threads, Stored, ProduceQuota);
    SumMonotone(s.threads, Cleared, ConsumeQuota);
  }

  /** If no consumer sleeps in a stuck state, all clears are done; dually for producers. */
  lemma AwakeMeansFinished(o: Origin, s: State)
    requires Inv(o, s) && Stuck(s)
    ensures !HasWaiter(s.threads, Consumer) ==> Sum(s.threads, Cleared) == Sum(s.threads, ConsumeQuota)
    ensures !HasWaiter(s.threads, Producer) ==> Sum(s.threads, Stored) == Sum(s.threads, ProduceQuota)
    ensures HasWaiter(s.threads, Consumer) ==> Sum(s.threads, Cleared) < Sum(s.threads, ConsumeQuota)
    ensures HasWaiter(s.threads, Producer) ==> Sum(s.threads, Stored) < Sum(s.threads, ProduceQuota)
  {
    StuckThreads(o, s);
    WithinQuota(s);
    if !HasWaiter(s.threads, Consumer) {
      SumMonotone(s.threads, ConsumeQuota, Cleared);
    } else if Sum(s.threads, Cleared) == Sum(s.threads, ConsumeQuota) {
      SumTight(s.threads, Cleared, ConsumeQuota);
    }
    if !HasWaiter(s.threads, Producer) {
      SumMonotone(s.threads, ProduceQuota, Stored);
    } else if Sum(s.threads, Stored) == Sum(s.threads, ProduceQuota) {
      SumTight(s.threads, Stored, ProduceQuota);
    }
  }

  /** A stuck state in which not all threads are done shows an unbalanced roster. */
  lemma StuckIsDone(o: Origin, s: State)
    requires Inv(o, s) && Stuck(s)
    ensures AllDone(s) <==> Balanced(o, s)
    ensures AllDone(s) ==> s.ring.occupied == Stock(o) + Surplus(s)
  {
    StuckThreads(o, s);
    AwakeMeansFinished(o, s);
    NoSleepers(s.threads);
    WithinQuota(s);
    if HasWaiter(s.threads, Consumer) {
      assert s.ring.occupied <= 0;
      var i :| 0 <= i < |s.threads| && IsWaiter(s.threads[i], Consumer);
      assert s.threads[i].pc == Waiting;
    } else if HasWaiter(s.threads, Producer) {
      assert o.size <= s.ring.occupied;
      var i :| 0 <= i < |s.threads| && IsWaiter(s.threads[i], Producer);
      assert s.threads[i].pc == Waiting;
    } else {
      forall i | 0 <= i < |s.threads| ensures s.threads[i].pc == Done {
        assert !IsWaiter(s.threads[i], Consumer) && !IsWaiter(s.threads[i], Producer);
      }
    }
  }

  // ---------------------------------------------------------------- termination

  /** Statements left in the current iteration, a wait counted once; `Signal` pays for the thread it wakes. */
  function Distance(pc: Pc): int {
    match pc
    case Lock => 12 case Woken => 11 case Guard => 10 case Wait => 9 case Waiting => 8
    case Write => 9 case Bump => 8 case Wrap => 7 case Count => 6 case Signal => 5 case Unlock => 1
    case Loop => 13 case Done => 0
  }

  function Cost(t: Thread): int {
    match t.pc
    case Done => 0
    case Loop => (t.quota - t.done) * 13 + 1
    case _ => (t.quota - t.done - 1) * 13 + 1 + Distance(t.pc)
  }

  function Quota(t: Thread): int { t.quota }

  function SpuriousCount(steps: seq<Step>): nat {
    if steps == [] then 0 else (if steps[0].Spurious? then 1 else 0) + SpuriousCount(steps[1..])
  }

  /** Every statement uses up cost; a spurious wake-up adds three. */
  lemma StepCost(o: Origin, s: State, step: Step)
    requires Inv(o, s) && Enabled(s, step)
    ensures Sum(Exec(o.size, s, step).threads, Cost) <= Sum(s.threads, Cost) + (if step.Spurious? then 3 else -1)
  {
    SumStep(o.size, s, step, Cost);
    OwnCost(o.size, s, step);
    var t := s.threads[step.thread];
    if step.Run? && t.pc == Signal && HasWaiter(s.threads, Other(t.role)) {
      assert s.threads[step.woken].pc == Waiting;
    }
  }

  lemma OwnCost(size: nat, s: State, step: Step)
    requires size > 0 && Shaped(s) && Enabled(s, step)
    ensures Cost(Exec(size, s, step).threads[step.thread]) - Cost(s.threads[step.thread])
            <= if step.Spurious? then 3 else if s.threads[step.thread].pc == Signal then -4 else -1
  {
    assert ShapedThread(s.threads[step.thread]);
  }

  lemma CostNonNegative(s: State)
    requires Shaped(s)
    ensures Sum(s.threads, Cost) >= 0
  {
    forall i | 0 <= i < |s.threads| ensures Cost(s.threads[i]) >= 0 {
      assert ShapedThread(s.threads[i]);
    }
    SumBounds(s.threads, Cost);
  }

  lemma {:induction false} RunCost(o: Origin, s: State, steps: seq<Step>)
    requires Inv(o, s) && CanRun(o.size, s, steps)
    ensures |steps| + Sum(After(o.size, s, steps).threads, Cost)
            <= Sum(s.threads, Cost) + 4 * SpuriousCount(steps)
    decreases |steps|
  {
    if steps != [] {
      StepKeepsInv(o, s, steps[0]);
      StepCost(o, s, steps[0]);
      RunCost(o, Exec(o.size, s, steps[0]), steps[1..]);
    }
  }

  lemma {:induction false} SpawnedCost(threads: seq<Thread>)
    requires forall i | 0 <= i < |threads| :: threads[i].pc == Loop && threads[i].done == 0
    ensures Sum(threads, Cost) == 13 * Sum(threads, Quota) + |threads|
  {
    if threads != [] {
      assert forall i | 0 <= i < |threads| - 1 :: threads[1..][i] == threads[i + 1];
      SpawnedCost(threads[1..]);
    }
  }

  /** No fairness is needed: a run has at most 13 steps for each loop iteration in the roster, one for each
      thread, and four for each spurious wake-up. */
  lemma {:induction false} RunIsBounded(size: nat, s: State, steps: seq<Step>)
    requires Spawned(s) && RingAtRest(size, s.ring, s.ledger) && CanRun(size, s, steps)
    ensures |steps| <= 13 * Sum(s.threads, Quota) + |s.threads| + 4 * SpuriousCount(steps)
  {
    SpawnedInv(size, s);
    RunCost(OriginOf(size, s), s, steps);
    RunKeepsInv(OriginOf(size, s), s, steps);
    CostNonNegative(After(size, s, steps));
    SpawnedCost(s.threads);
  }

  /** Every state can be driven to one where nothing can run. */
  lemma {:induction false} DriveToStuck(o: Origin, s: State) returns (steps: seq<Step>)
    requires Inv(o, s)
    ensures CanRun(o.size, s, steps) && Stuck(After(o.size, s, steps)) && SpuriousCount(steps) == 0
    decreases Sum(s.threads, Cost)
  {
    CostNonNegative(s);
    if Stuck(s) {
      steps := [];
    } else {
      var i: nat, w: nat :| Enabled(s, Run(i, w));
      var next := Exec(o.size, s, Run(i, w));
      StepKeepsInv(o, s, Run(i, w));
      StepCost(o, s, Run(i, w));
      CostNonNegative(next);
      var rest := DriveToStuck(o, next);
      steps := [Run(i, w)] + rest;
      assert steps[1..] == rest;
    }
  }

  // ---------------------------------------------------------------- the main results

  ghost predicate NeverDeadlocks(size: nat, s: State)
    requires size > 0
  {
    forall steps | CanRun(size, s, steps) && Stuck(After(size, s, steps)) :: AllDone(After(size, s, steps))
  }

  /** Single signals suffice exactly when the quotas balance: with any number of producers and consumers and
      any quotas, no schedule of a phase deadlocks if and only if stock plus surplus fits the ring. */
  lemma DeadlockFreeIffBalanced(size: nat, s: State)
    requires Spawned(s) && RingAtRest(size, s.ring, s.ledger)
    ensures NeverDeadlocks(size, s) <==> Balanced(OriginOf(size, s), s)
  {
    var o := OriginOf(size, s);
    SpawnedInv(size, s);
    forall steps | CanRun(size, s, steps) && Stuck(After(size, s, steps))
      ensures AllDone(After(size, s, steps)) <==> Balanced(o, s)
    {
      RunKeepsInv(o, s, steps);
      StuckIsDone(o, After(size, s, steps));
    }
    var steps := DriveToStuck(o, s);
  }

  /** What a thread is spawned for: its role and its number of iterations. */
  datatype Job = Job(role: Role, quota: nat)

  function Adds(job: Job): int { if job.role.Producer? then job.quota else 0 - job.quota }

  function Spawn(jobs: seq<Job>): (threads: seq<Thread>)
    ensures |threads| == |jobs|
    ensures forall i | 0 <= i < |jobs| :: threads[i] == Thread(jobs[i].role, jobs[i].quota, 0, Loop)
  {
    if jobs == [] then [] else [Thread(jobs[0].role, jobs[0].quota, 0, Loop)] + Spawn(jobs[1..])
  }

  lemma {:induction false} SpawnSurplus(jobs: seq<Job>)
    ensures Sum(Spawn(jobs), ProduceQuota) - Sum(Spawn(jobs), ConsumeQuota) == Sum(jobs, Adds)
  {
    if jobs != [] {
      assert Spawn(jobs)[1..] == Spawn(jobs[1..]);
      SpawnSurplus(jobs[1..]);
    }
  }

  /** The same for the jobs themselves: whatever mix of producers and consumers is spawned on a ring at rest. */
  lemma {:induction false} AnyJobs(size: nat, ring: Ring, ledger: Ledger, jobs: seq<Job>)
    requires RingAtRest(size, ring, ledger)
    ensures NeverDeadlocks(size, State(ring, ledger, None, Spawn(jobs), false)) <==>
            0 <= ring.occupied + Sum(jobs, Adds) <= size
  {
    SpawnSurplus(jobs);
    DeadlockFreeIffBalanced(size, State(ring, ledger, None, Spawn(jobs), false));
  }

  /** A run of a balanced roster that cannot go on has finished every thread, and leaves a ring at rest
      that holds exactly the stock plus the surplus. */
  lemma {:induction false} MaximalRunFinishes(size: nat, s: State, steps: seq<Step>)
    requires Spawned(s) && RingAtRest(size, s.ring, s.ledger) && Balanced(OriginOf(size, s), s)
    requires CanRun(size, s, steps) && Stuck(After(size, s, steps))
    ensures var e := After(size, s, steps);
            && AllDone(e) && e.owner == None && !e.fault
            && RingAtRest(size, e.ring, e.ledger)
            && e.ring.occupied == s.ring.occupied + Surplus(s)
            && |e.ledger.puts| == |s.ledger.puts| + Sum(s.threads, ProduceQuota)
            && |e.ledger.takes| == |s.ledger.takes| + Sum(s.threads, ConsumeQuota)
  {
    var o, e := OriginOf(size, s), After(size, s, steps);
    SpawnedInv(size, s);
    RunKeepsInv(o, s, steps);
    RunKeepsQuotas(o, s, steps);
    StuckIsDone(o, e);
    StuckThreads(o, e);
    AwakeMeansFinished(o, e);
  }

  lemma {:induction false} RunKeepsQuotas(o: Origin, s: State, steps: seq<Step>)
    requires o.size > 0 && CanRun(o.size, s, steps)
    ensures Sum(After(o.size, s, steps).threads, ProduceQuota) == Sum(s.threads, ProduceQuota)
    ensures Sum(After(o.size, s, steps).threads, ConsumeQuota) == Sum(s.threads, ConsumeQuota)
    decreases |steps|
  {
    if steps != [] {
      StepKeepsQuotas(o.size, s, steps[0]);
      RunKeepsQuotas(o, Exec(o.size, s, steps[0]), steps[1..]);
    }
  }
}
