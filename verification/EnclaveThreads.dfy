/** The buffer phase of the enclave as it updates its static buffer in place. */
module EnclaveThreads {
  import opened Options
  import opened Sums
  import opened BufferThreads
  import opened BufferInvariant
  import opened BufferProperties

  /** `cond_buffer_t` without its lock and condition variables; `ledger` is the history of the slots. */
  class CondBuffer {
    const size: nat
    const buf: array<int>
    var occupied: int
    var nextin: int
    var nextout: int
    ghost var ledger: Ledger

    ghost predicate Valid()
      reads this
    {
      size > 0 && buf.Length == size
    }

    ghost function View(): Ring
      reads this, buf
    {
      Ring(buf[..], occupied, nextin, nextout)
    }

    constructor (size: nat)
      requires size > 0
      ensures Valid() && fresh(buf) && this.size == size
      ensures ledger == Ledger([], []) && RingAtRest(size, View(), ledger)
    {
      this.size := size;
      buf := new int[size](_ => 0);
      occupied, nextin, nextout := 0, 0, 0;
      ledger := Ledger([], []);
    }

    /** The statements between the guard and the signal, one by one. */
    method Execute(role: Role, pc: Pc)
      requires Valid() && pc in {Write, Bump, Wrap, Count}
      requires pc == Bump ==> role == Producer
      requires pc == Write ==> 0 <= (if role.Producer? then nextin else nextout) < size
      modifies this, buf
      ensures Valid()
      ensures pc == Write && role == Producer ==>
        && View() == old(View()).(buf := old(buf[..])[old(nextin) := old(nextin)])
        && ledger == old(ledger).(puts := old(ledger.puts) + [old(nextin)])
      ensures pc == Write && role == Consumer ==>
        && View() == old(View()).(buf := old(buf[..])[old(nextout) := 0], nextout := old(nextout) + 1)
        && ledger == old(ledger).(takes := old(ledger.takes) + [old(nextout)])
      ensures pc == Bump ==> View() == old(View()).(nextin := old(nextin) + 1)
      ensures pc == Wrap ==> View() == WrapIndex(size, old(View()), role)
      ensures pc == Count ==> View() == Recount(old(View()), role)
      ensures pc != Write ==> ledger == old(ledger)
    {
      if role == Producer {
        match pc
        case Write =>
          buf[nextin] := nextin;
          ledger := ledger.(puts := ledger.puts + [nextin]);
        case Bump => nextin := nextin + 1;
        case Wrap => nextin := nextin % size;
        case Count => occupied := occupied + 1;
      } else {
        match pc
        case Write =>
          buf[nextout] := 0;
          ledger := ledger.(takes := ledger.takes + [nextout]);
          nextout := nextout + 1;
        case Wrap => nextout := nextout % size;
        case Count => occupied := occupied - 1;
      }
    }
  }

  ghost function Snapshot(b: CondBuffer, owner: Option<nat>, threads: seq<Thread>): State
    reads b, b.buf
  {
    State(b.View(), b.ledger, owner, threads, false)
  }

  /** The statements that move a thread or the mutex but do not write the buffer. */
  method ExecuteControl(size: nat, occupied: int, owner: Option<nat>, threads: seq<Thread>, i: nat, woken: nat,
                        ghost s: State)
    returns (owner': Option<nat>, threads': seq<Thread>)
    requires size > 0 && s.owner == owner && s.threads == threads && s.ring.occupied == occupied
    requires Enabled(s, Run(i, woken)) && threads[i].pc !in {Write, Bump, Wrap, Count}
    ensures s.(owner := owner', threads := threads') == Exec(size, s, Run(i, woken))
  {
    var t := threads[i];
    owner', threads' := owner, threads;
    match t.pc
    case Loop => threads' := threads[i := t.(pc := if t.done < t.quota then Lock else Done)];
    case Lock => owner', threads' := Some(i), threads[i := t.(pc := Guard)];
    case Woken => owner', threads' := Some(i), threads[i := t.(pc := Guard)];
    case Guard =>
      var blocked := if t.role == Producer then occupied >= size else occupied <= 0;
      threads' := threads[i := t.(pc := if blocked then Wait else Write)];
    case Wait => owner', threads' := None, threads[i := t.(pc := Waiting)];
    case Signal =>
      if HasWaiter(threads, Other(t.role)) {
        threads' := threads[woken := threads[woken].(pc := Woken)];
      }
      threads' := threads'[i := t.(pc := Unlock)];
    case Unlock => owner', threads' := None, threads[i := t.(done := t.done + 1, pc := Loop)];
  }

  /** One statement of one thread, executed on the shared buffer. */
  method ExecuteStatement(b: CondBuffer, owner: Option<nat>, threads: seq<Thread>, i: nat, woken: nat, ghost o: Origin)
    returns (owner': Option<nat>, threads': seq<Thread>)
    requires b.Valid() && o.size == b.size && Inv(o, Snapshot(b, owner, threads))
    requires Enabled(Snapshot(b, owner, threads), Run(i, woken))
    modifies b, b.buf
    ensures b.Valid()
    ensures Snapshot(b, owner', threads') == Exec(b.size, old(Snapshot(b, owner, threads)), Run(i, woken))
  {
    var t := threads[i];
    if t.pc in {Write, Bump, Wrap, Count} {
      assert Insider(Snapshot(b, owner, threads)) == t;
      assert ShapedThread(t);
      b.Execute(t.role, t.pc);
      var next := if t.pc == Write && t.role == Producer then Bump
                  else if t.pc == Write || t.pc == Bump then Wrap
                  else if t.pc == Wrap then Count
                  else Signal;
      owner', threads' := owner, threads[i := t.(pc := next)];
    } else {
      owner', threads' := ExecuteControl(b.size, b.occupied, owner, threads, i, woken, Snapshot(b, owner, threads));
    }
  }

  /** Runs a phase under an arbitrary scheduler: as long as some thread can go on, any such thread goes on.
      This always ends, and it ends with every thread finished exactly when the roster is balanced; then the
      ring is at rest again. */
  method RunPhase(b: CondBuffer, roster: seq<Thread>) returns (threads: seq<Thread>)
    requires b.Valid() && RingAtRest(b.size, b.View(), b.ledger)
    requires Spawned(Snapshot(b, None, roster))
    modifies b, b.buf
    ensures b.Valid() && |threads| == |roster| && RingAtRest(b.size, b.View(), b.ledger)
    ensures (forall i | 0 <= i < |threads| :: threads[i].pc == Done)
            <==> old(Balanced(OriginOf(b.size, Snapshot(b, None, roster)), Snapshot(b, None, roster)))
    ensures (forall i | 0 <= i < |threads| :: threads[i].pc == Done) ==>
      && b.occupied == old(b.occupied) + old(Surplus(Snapshot(b, None, roster)))
      && |b.ledger.puts| == |old(b.ledger.puts)| + Sum(roster, ProduceQuota)
      && |b.ledger.takes| == |old(b.ledger.takes)| + Sum(roster, ConsumeQuota)
      && forall i | 0 <= i < |threads| :: threads[i] == roster[i].(done := roster[i].quota, pc := Done)
  {
    ghost var start := Snapshot(b, None, roster);
    ghost var o := OriginOf(b.size, start);
    SpawnedInv(b.size, start);
    assert b.occupied == |b.ledger.puts| - |b.ledger.takes|;
    hide Exec, Enabled, Inv, RingAt, Sum, Cost, CanGo;
    var owner;
    owner, threads := Schedule(b, roster, o);
    SameQuotas(threads, roster);
    PhaseEnds(o, Snapshot(b, owner, threads));
  }

  /** The scheduler: as long as some thread can go on, any such thread does. */
  method Schedule(b: CondBuffer, roster: seq<Thread>, ghost o: Origin)
    returns (owner: Option<nat>, threads: seq<Thread>)
    requires b.Valid() && o.size == b.size && Inv(o, Snapshot(b, None, roster))
    modifies b, b.buf
    ensures b.Valid() && Inv(o, Snapshot(b, owner, threads)) && SameJobs(threads, roster)
    ensures forall i: nat, w: nat | i < |threads| && w < |threads| :: !CanGo(owner, threads, i, w)
  {
    hide Exec, Enabled, Inv, RingAt, Sum, Cost;
    owner, threads := None, roster;
    while exists i: nat, w: nat | i < |threads| && w < |threads| :: CanGo(owner, threads, i, w)
      invariant b.Valid() && Inv(o, Snapshot(b, owner, threads)) && SameJobs(threads, roster)
      decreases Sum(threads, Cost)
    {
      var i: nat, w: nat :| i < |threads| && w < |threads| && CanGo(owner, threads, i, w);
      PhaseGoesOn(o, Snapshot(b, owner, threads), i, w);
      owner, threads := ExecuteStatement(b, owner, threads, i, w, o);
    }
  }

  /** The threads are those of the roster, wherever they stand. */
  ghost predicate SameJobs(threads: seq<Thread>, roster: seq<Thread>) {
    |threads| == |roster| && forall i | 0 <= i < |roster| :: threads[i].role == roster[i].role
                                                           && threads[i].quota == roster[i].quota
  }

  lemma {:induction false} SameQuotas(threads: seq<Thread>, roster: seq<Thread>)
    requires SameJobs(threads, roster)
    ensures Sum(threads, ProduceQuota) == Sum(roster, ProduceQuota)
    ensures Sum(threads, ConsumeQuota) == Sum(roster, ConsumeQuota)
  {
    SumSame(threads, roster, ProduceQuota);
    SumSame(threads, roster, ConsumeQuota);
  }

  lemma PhaseGoesOn(o: Origin, s: State, i: nat, w: nat)
    requires Inv(o, s) && CanGo(s.owner, s.threads, i, w)
    ensures Enabled(s, Run(i, w)) && Inv(o, Exec(o.size, s, Run(i, w)))
    ensures SameJobs(Exec(o.size, s, Run(i, w)).threads, s.threads)
    ensures 0 <= Sum(Exec(o.size, s, Run(i, w)).threads, Cost) < Sum(s.threads, Cost)
  {
    assert Enabled(s, Run(i, w));
    StepKeepsInv(o, s, Run(i, w));
    StepEffect(o.size, s, Run(i, w));
    StepCost(o, s, Run(i, w));
    CostNonNegative(Exec(o.size, s, Run(i, w)));
  }

  /** When nobody has to be woken, any waiter will do. */
  lemma EnabledCanGo(e: State, i: nat, w: nat)
    ensures Enabled(e, Run(i, w)) ==> i < |e.threads| && CanGo(e.owner, e.threads, i, if w < |e.threads| then w else i)
  {
  }

  lemma PhaseEnds(o: Origin, e: State)
    requires Inv(o, e)
    requires forall i: nat, w: nat | i < |e.threads| && w < |e.threads| :: !CanGo(e.owner, e.threads, i, w)
    ensures AllDone(e) <==> Balanced(o, e)
    ensures RingAtRest(o.size, e.ring, e.ledger)
    ensures AllDone(e) ==>
      && e.ring.occupied == Stock(o) + Surplus(e)
      && |e.ledger.puts| == o.puts + Sum(e.threads, ProduceQuota)
      && |e.ledger.takes| == o.takes + Sum(e.threads, ConsumeQuota)
      && forall i | 0 <= i < |e.threads| :: e.threads[i].done == e.threads[i].quota
  {
    forall i: nat, w: nat ensures !Enabled(e, Run(i, w)) {
      EnabledCanGo(e, i, w);
    }
    StuckIsDone(o, e);
    StuckThreads(o, e);
    AwakeMeansFinished(o, e);
    forall i | 0 <= i < |e.threads| ensures ShapedThread(e.threads[i]) {}
  }

  /** `Enabled` without the buffer, which it does not read. */
  predicate CanGo(owner: Option<nat>, threads: seq<Thread>, i: nat, w: nat) {
    Enabled(State(Ring([], 0, 0, 0), Ledger([], []), owner, threads, false), Run(i, w))
  }

  // ---------------------------------------------------------------- the roster of the application

  /** One producer with `n * loops` items and `n` consumers with `loops` each. */
  function Roster(n: nat, loops: nat): seq<Thread> {
    [Thread(Producer, n * loops, 0, Loop)] + seq(n, _ => Thread(Consumer, loops, 0, Loop))
  }

  lemma RosterSpelled(n: nat, loops: nat)
    ensures |Roster(n, loops)| == n + 1 && Roster(n, loops)[0] == Thread(Producer, n * loops, 0, Loop)
    ensures forall i | 1 <= i <= n :: Roster(n, loops)[i] == Thread(Consumer, loops, 0, Loop)
  {
  }

  lemma RosterSums(n: nat, loops: nat)
    ensures Sum(Roster(n, loops), ProduceQuota) == n * loops
    ensures Sum(Roster(n, loops), ConsumeQuota) == n * loops
    ensures Sum(Roster(n, loops), Quota) == 2 * (n * loops)
  {
    var p, c := Thread(Producer, n * loops, 0, Loop), Thread(Consumer, loops, 0, Loop);
    RosterSum(n, p, c, ProduceQuota);
    RosterSum(n, p, c, ConsumeQuota);
    RosterSum(n, p, c, Quota);
    assert n * ProduceQuota(c) == 0;
  }

  lemma RosterSum(n: nat, p: Thread, c: Thread, weight: Thread -> int)
    ensures Sum([p] + seq(n, _ => c), weight) == weight(p) + n * weight(c)
  {
    SumConcat([p], seq(n, _ => c), weight);
    SumCopies(n, c, weight);
    assert [p][1..] == [];
  }

  lemma {:induction false} RosterPermuted(n: nat, loops: nat, threads: seq<Thread>)
    requires multiset(threads) == multiset(Roster(n, loops))
    ensures |threads| == n + 1 && Sum(threads, Quota) == 2 * (n * loops)
    ensures Sum(threads, ProduceQuota) == Sum(threads, ConsumeQuota) == n * loops
  {
    RosterSums(n, loops);
    SumPermuted(threads, Roster(n, loops), ProduceQuota);
    SumPermuted(threads, Roster(n, loops), ConsumeQuota);
    SumPermuted(threads, Roster(n, loops), Quota);
    assert |threads| == |multiset(threads)|;
  }

  /** An empty ring at rest has level indices and cleared slots, and everything stored was cleared. */
  lemma EmptyAtRest(size: nat, r: Ring, l: Ledger)
    requires RingAtRest(size, r, l) && r.occupied == 0
    ensures r.nextin == r.nextout && l.takes == l.puts
    ensures |r.buf| == size && forall j | 0 <= j < size :: r.buf[j] == 0
  {
    hide SlotOf;
    assert Queue(l) == [];
  }

  /** The phase of the application, for every number of consumers, of loops and of slots, every order in which
      the threads are spawned, and every schedule:
      it is bounded, it cannot deadlock, and from an empty ring it ends with an empty, cleared ring. */
  lemma {:induction false} ApplicationPhase(size: nat, n: nat, loops: nat, s: State, steps: seq<Step>)
    requires Spawned(s) && RingAtRest(size, s.ring, s.ledger) && s.ring.occupied == 0
    requires multiset(s.threads) == multiset(Roster(n, loops)) && CanRun(size, s, steps)
    ensures |steps| <= 26 * (n * loops) + n + 1 + 4 * SpuriousCount(steps)
    ensures var e := After(size, s, steps);
            Stuck(e) ==>
              && AllDone(e) && e.ring.occupied == 0 && e.ring.nextin == e.ring.nextout
              && RingAtRest(size, e.ring, e.ledger)
              && (forall j | 0 <= j < size :: e.ring.buf[j] == 0)
              && e.ledger.takes == e.ledger.puts && |e.ledger.puts| == |s.ledger.puts| + n * loops
  {
    RosterPermuted(n, loops, s.threads);
    assert Balanced(OriginOf(size, s), s);
    hide RingAt, Balanced, After, CanRun, Stuck, Spawned, Roster;
    RunIsBounded(size, s, steps);
    var e := After(size, s, steps);
    if Stuck(e) {
      MaximalRunFinishes(size, s, steps);
      EmptyAtRest(size, e.ring, e.ledger);
    }
  }

  /** In every state of every run with the mutex free: if a consumer is left asleep, at most as many items
      are present as consumers have been woken and not yet run; dually for a producer and free slots. */
  lemma {:induction false} NoWakeupIsLost(o: Origin, s: State, steps: seq<Step>)
    requires Inv(o, s) && CanRun(o.size, s, steps)
    requires After(o.size, s, steps).owner == None
    ensures var e := After(o.size, s, steps);
            && (HasWaiter(e.threads, Consumer) ==> e.ring.occupied <= Sum(e.threads, WokenConsumer))
            && (HasWaiter(e.threads, Producer) ==> o.size - e.ring.occupied <= Sum(e.threads, WokenProducer))
  {
    RunKeepsInv(o, s, steps);
    var e := After(o.size, s, steps);
    NoSleepers(e.threads);
    forall i | 0 <= i < |e.threads| ensures !Critical(e.threads[i].pc) {}
    SumMonotone(e.threads, MoreToken, WokenConsumer);
    SumMonotone(e.threads, LessToken, WokenProducer);
  }

  function WokenConsumer(t: Thread): int { Flag(t.role == Consumer && t.pc == Woken) }
  function WokenProducer(t: Thread): int { Flag(t.role == Producer && t.pc == Woken) }
}
