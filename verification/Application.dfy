/** Successive calls of `ecall_thread_functions`: the adders are spawned and joined, the application checks
    its counter, then the producer and the consumers are spawned and joined. The counters and the buffer are
    statics, so each round starts where the last one ended. */
module Application {
  import opened Options
  import opened Sums
  import B = BufferThreads
  import P = BufferProperties
  import E = EnclaveThreads
  import C = CounterThreads

  /** `adders` threads add and as many consume; each makes `loops` iterations; `threshold` is the value the
      enclave reports and the application asserts; `size` is the capacity of the buffer. */
  datatype Setup = Setup(adders: nat, loops: nat, threshold: nat, size: nat)

  /** The statics between two rounds; `total` and `ledger` are history. */
  datatype Statics = Statics(counter: nat, global: nat, total: nat, ring: B.Ring, ledger: B.Ledger)

  /** How the scheduler interleaves the two phases of a round. */
  datatype Schedule = Schedule(adds: seq<nat>, moves: seq<B.Step>)

  predicate Sound(u: Setup) {
    u.size > 0 && u.threshold < C.WORD
  }

  function Adding(u: Setup): C.Config {
    C.Config(u.loops, u.threshold)
  }

  function SpawnAdders(u: Setup, p: Statics): C.State {
    C.State(p.global, None, seq(u.adders, _ => C.Adder(0, 0, 0, C.Loop)), p.counter, p.total)
  }

  function SpawnBuffer(u: Setup, p: Statics): B.State {
    B.State(p.ring, p.ledger, None, E.Roster(u.adders, u.loops), false)
  }

  ghost predicate AddersJoined(u: Setup, p: Statics, adds: seq<nat>) {
    C.CanRun(Adding(u), SpawnAdders(u, p), adds) && C.Stuck(C.After(Adding(u), SpawnAdders(u, p), adds))
  }

  /** The threads of a phase are joined when its schedule cannot be extended. */
  ghost predicate Joined(u: Setup, p: Statics, h: Schedule)
    requires Sound(u)
  {
    && AddersJoined(u, p, h.adds)
    && B.CanRun(u.size, SpawnBuffer(u, p), h.moves) && B.Stuck(B.After(u.size, SpawnBuffer(u, p), h.moves))
  }

  ghost function AfterRound(u: Setup, p: Statics, h: Schedule): Statics
    requires Sound(u) && Joined(u, p, h)
  {
    var a := C.After(Adding(u), SpawnAdders(u, p), h.adds);
    var b := B.After(u.size, SpawnBuffer(u, p), h.moves);
    Statics(a.counter, a.global, a.total, b.ring, b.ledger)
  }

  /** Any number of rounds, each joined before the next begins. */
  ghost predicate Rounds(u: Setup, p: Statics, hs: seq<Schedule>)
    requires Sound(u)
    decreases |hs|
  {
    hs == [] || (Joined(u, p, hs[0]) && Rounds(u, AfterRound(u, p, hs[0]), hs[1..]))
  }

  ghost function AfterRounds(u: Setup, p: Statics, hs: seq<Schedule>): Statics
    requires Sound(u) && Rounds(u, p, hs)
    decreases |hs|
  {
    if hs == [] then p else AfterRounds(u, AfterRound(u, p, hs[0]), hs[1..])
  }

  /** The assertion between the phases holds in each round. */
  ghost predicate Asserted(u: Setup, p: Statics, hs: seq<Schedule>)
    requires Sound(u) && Rounds(u, p, hs)
    decreases |hs|
  {
    hs == [] || (AfterRound(u, p, hs[0]).counter == u.threshold && Asserted(u, AfterRound(u, p, hs[0]), hs[1..]))
  }

  /** The statics as the program loads them. */
  function Loaded(u: Setup): Statics {
    Statics(0, 0, 0, B.Ring(seq(u.size, _ => 0), 0, 0, 0), B.Ledger([], []))
  }

  /** What holds between rounds: an empty ring at rest and a current counter. */
  ghost predicate Settled(u: Setup, p: Statics) {
    && p.global == p.total % C.WORD
    && P.RingAtRest(u.size, p.ring, p.ledger) && p.ring.occupied == 0
  }

  /** Increments, stores and clears of one round. */
  function Work(u: Setup): nat {
    u.adders * u.loops
  }

  lemma {:induction false} AddersSettle(u: Setup, p: Statics, adds: seq<nat>)
    requires Sound(u) && p.global == p.total % C.WORD && AddersJoined(u, p, adds)
    ensures var a := C.After(Adding(u), SpawnAdders(u, p), adds);
            && a.total == p.total + Work(u) && a.global == a.total % C.WORD
            && C.Reports(Adding(u), C.Passes(u.threshold, p.total, a.total), Sum(a.adders, C.Returning))
            && a.counter == (if u.threshold > 0 && C.Passes(u.threshold, p.total, a.total) > 0 then u.threshold
                             else p.counter)
  {
    var s := SpawnAdders(u, p);
    assert |s.adders| == u.adders && |s.adders| * Adding(u).loops == Work(u) && C.Spawned(s);
    C.PhaseResult(Adding(u), s, adds);
  }

  lemma BufferSettles(u: Setup, p: Statics, h: Schedule)
    requires Sound(u) && Settled(u, p) && Joined(u, p, h)
    ensures var b := B.After(u.size, SpawnBuffer(u, p), h.moves);
            && P.RingAtRest(u.size, b.ring, b.ledger) && b.ring.occupied == 0 && b.ring.nextin == b.ring.nextout
            && b.ledger.puts == b.ledger.takes && |b.ledger.puts| == |p.ledger.puts| + Work(u)
  {
    E.ApplicationPhase(u.size, u.adders, u.loops, SpawnBuffer(u, p), h.moves);
  }

  /** One round on settled statics. */
  lemma RoundSettles(u: Setup, p: Statics, h: Schedule)
    requires Sound(u) && Settled(u, p) && Joined(u, p, h)
    ensures var q := AfterRound(u, p, h);
            && Settled(u, q)
            && q.total == p.total + Work(u)
            && q.ledger.puts == q.ledger.takes && |q.ledger.puts| == |p.ledger.puts| + Work(u)
            && q.counter == (if u.threshold > 0 && C.Passes(u.threshold, p.total, q.total) > 0 then u.threshold
                             else p.counter)
  {
    AddersSettle(u, p, h.adds);
    BufferSettles(u, p, h);
  }

  /** Once the counter has passed the threshold it never leaves it, however often it wraps. */
  lemma {:induction false} CounterStays(u: Setup, p: Statics, hs: seq<Schedule>)
    requires Sound(u) && Settled(u, p) && Rounds(u, p, hs) && p.counter == u.threshold
    ensures Asserted(u, p, hs)
    decreases |hs|
  {
    if hs != [] {
      RoundSettles(u, p, hs[0]);
      CounterStays(u, AfterRound(u, p, hs[0]), hs[1..]);
    }
  }

  /** In every sequence of rounds, under every interleaving, the assertion of each round holds exactly when
      the adders of one round reach the threshold. */
  lemma {:induction false} AssertionsHold(u: Setup, hs: seq<Schedule>)
    requires u.size > 0 && u.threshold < 0x1_0000_0000_0000_0000 && Rounds(u, Loaded(u), hs) && hs != []
    ensures Asserted(u, Loaded(u), hs) <==> u.threshold <= Work(u)
  {
    var p := Loaded(u);
    LoadedSettled(u);
    RoundSettles(u, p, hs[0]);
    var q := AfterRound(u, p, hs[0]);
    C.PassesCount(u.threshold, 0, q.total);
    if u.threshold <= q.total {
      CounterStays(u, q, hs[1..]);
    }
  }

  lemma LoadedSettled(u: Setup)
    requires Sound(u)
    ensures Settled(u, Loaded(u))
  {
  }

  function Times(n: nat, work: nat): nat {
    if n == 0 then 0 else Times(n - 1, work) + work
  }

  /** However many rounds run, they end settled. */
  lemma {:induction false} RoundsStaySettled(u: Setup, p: Statics, hs: seq<Schedule>)
    requires Sound(u) && Settled(u, p) && Rounds(u, p, hs)
    ensures Settled(u, AfterRounds(u, p, hs))
    decreases |hs|
  {
    if hs != [] {
      RoundSettles(u, p, hs[0]);
      RoundsStaySettled(u, AfterRound(u, p, hs[0]), hs[1..]);
    }
  }

  /** Every iteration of every thread of every round is accounted for. */
  lemma {:induction false} RoundsAddUp(u: Setup, p: Statics, hs: seq<Schedule>)
    requires Sound(u) && Settled(u, p) && Rounds(u, p, hs)
    ensures AfterRounds(u, p, hs).total == p.total + Times(|hs|, Work(u))
    ensures |AfterRounds(u, p, hs).ledger.puts| == |p.ledger.puts| + Times(|hs|, Work(u))
    decreases |hs|
  {
    if hs != [] {
      RoundSettles(u, p, hs[0]);
      RoundsAddUp(u, AfterRound(u, p, hs[0]), hs[1..]);
    }
  }

  /** After any number of rounds from the load: the ring is empty with its indices level, every slot was
      cleared in the order of the stores, and the counter is the number of iterations modulo the word. */
  lemma {:induction false} RoundsBalance(u: Setup, hs: seq<Schedule>)
    requires Sound(u) && Rounds(u, Loaded(u), hs)
    ensures var q := AfterRounds(u, Loaded(u), hs);
            && q.ring.occupied == 0 && q.ring.nextin == q.ring.nextout
            && q.ring.buf == seq(u.size, _ => 0)
            && q.ledger.puts == q.ledger.takes && |q.ledger.puts| == Times(|hs|, Work(u))
            && q.global == Times(|hs|, Work(u)) % C.WORD
  {
    LoadedSettled(u);
    RoundsStaySettled(u, Loaded(u), hs);
    RoundsAddUp(u, Loaded(u), hs);
  }

  /** Every pair of schedules that cannot be extended makes a round, and every round can follow. */
  lemma {:induction false} RoundsExtend(u: Setup, p: Statics, hs: seq<Schedule>, h: Schedule)
    requires Sound(u) && Rounds(u, p, hs)
    requires var q := AfterRounds(u, p, hs);
             && C.CanRun(Adding(u), SpawnAdders(u, q), h.adds) && C.Stuck(C.After(Adding(u), SpawnAdders(u, q), h.adds))
             && B.CanRun(u.size, SpawnBuffer(u, q), h.moves) && B.Stuck(B.After(u.size, SpawnBuffer(u, q), h.moves))
    ensures Joined(u, AfterRounds(u, p, hs), h)
    ensures Rounds(u, p, hs + [h]) && AfterRounds(u, p, hs + [h]) == AfterRound(u, AfterRounds(u, p, hs), h)
    decreases |hs|
  {
    if hs == [] {
      assert hs + [h] == [h] && [h][1..] == [];
      assert AfterRounds(u, AfterRound(u, p, h), []) == AfterRound(u, p, h);
    } else {
      assert (hs + [h])[1..] == hs[1..] + [h];
      RoundsExtend(u, AfterRound(u, p, hs[0]), hs[1..], h);
    }
  }

  /** Any number of rounds can be run and joined. */
  lemma {:induction false} RoundsExist(u: Setup, p: Statics, n: nat) returns (hs: seq<Schedule>)
    requires Sound(u) && Settled(u, p)
    ensures |hs| == n && Rounds(u, p, hs)
    decreases n
  {
    hs := [];
    if n > 0 {
      var h := RoundExists(u, p);
      RoundSettles(u, p, h);
      var rest := RoundsExist(u, AfterRound(u, p, h), n - 1);
      hs := [h] + rest;
      assert hs[1..] == rest;
    }
  }

  lemma RoundExists(u: Setup, p: Statics) returns (h: Schedule)
    requires Sound(u) && Settled(u, p)
    ensures Joined(u, p, h)
  {
    var a, b := SpawnAdders(u, p), SpawnBuffer(u, p);
    C.SpawnedInv(Adding(u), a);
    P.SpawnedInv(u.size, b);
    var adds := C.DriveToStuck(C.Origin(a.total, a.counter), Adding(u), a);
    var moves := P.DriveToStuck(P.OriginOf(u.size, b), b);
    h := Schedule(adds, moves);
  }

  /** How many calls into the enclave return nonzero, and so write the application's counter, over all rounds. */
  ghost function Returns(u: Setup, p: Statics, hs: seq<Schedule>): int
    requires Sound(u) && Rounds(u, p, hs)
    decreases |hs|
  {
    if hs == [] then 0
    else Sum(C.After(Adding(u), SpawnAdders(u, p), hs[0].adds).adders, C.Returning)
         + Returns(u, AfterRound(u, p, hs[0]), hs[1..])
  }

  /** The threshold is reported over all rounds as often as the counter passes it, provided that no single
      round laps the word; and in any case at most that often. */
  lemma {:induction false} ReturnsArePasses(u: Setup, p: Statics, hs: seq<Schedule>)
    requires Sound(u) && Settled(u, p) && Rounds(u, p, hs)
    ensures p.total <= AfterRounds(u, p, hs).total
    ensures var passes := C.Passes(u.threshold, p.total, AfterRounds(u, p, hs).total);
            && C.Reports(Adding(u), passes, Returns(u, p, hs))
            && (u.threshold > 0 && (passes <= 1 || Work(u) <= C.WORD) ==> Returns(u, p, hs) == passes)
    decreases |hs|
  {
    if hs != [] {
      var q := AfterRound(u, p, hs[0]);
      AddersSettle(u, p, hs[0].adds);
      RoundSettles(u, p, hs[0]);
      ReturnsArePasses(u, q, hs[1..]);
      C.PassesCount(u.threshold, p.total, q.total);
      C.PassesCount(u.threshold, q.total, AfterRounds(u, p, hs).total);
      C.PassesCount(u.threshold, p.total, AfterRounds(u, p, hs).total);
    }
  }

  /** From the load on, in closed form: one report for every time the count of all iterations so far reaches
      the threshold plus a multiple of the word. In particular there is at most one writer, ever, until the
      count comes round to the threshold again. */
  lemma {:induction false} ReportsFromLoad(u: Setup, hs: seq<Schedule>)
    requires Sound(u) && Rounds(u, Loaded(u), hs)
    ensures u.threshold == 0 ==> Returns(u, Loaded(u), hs) == 0
    ensures u.threshold > 0 && (Work(u) <= C.WORD || Times(|hs|, Work(u)) < u.threshold + C.WORD) ==>
              Returns(u, Loaded(u), hs) == C.Reached(u.threshold, Times(|hs|, Work(u)))
    ensures Times(|hs|, Work(u)) < u.threshold + C.WORD ==>
              Returns(u, Loaded(u), hs) == if 0 < u.threshold <= Times(|hs|, Work(u)) then 1 else 0
  {
    hide Rounds, AfterRounds, Returns, Settled, Times, C.Passes;
    LoadedSettled(u);
    RoundsAddUp(u, Loaded(u), hs);
    ReturnsArePasses(u, Loaded(u), hs);
    C.PassesCount(u.threshold, 0, Times(|hs|, Work(u)));
  }

  // ---------------------------------------------------------------- in place

  /** The statics of the enclave and of the application, as the threads update them. */
  class Process {
    var globalCounter: nat
    var counter: nat
    const buffer: E.CondBuffer
    ghost var total: nat

    constructor (u: Setup)
      requires Sound(u)
      ensures Valid(u) && fresh(buffer) && fresh(buffer.buf) && counter == 0 && total == 0
    {
      globalCounter, counter, total := 0, 0, 0;
      buffer := new E.CondBuffer(u.size);
    }

    ghost function View(): Statics
      reads this, buffer, buffer.buf
    {
      Statics(counter, globalCounter, total, buffer.View(), buffer.ledger)
    }

    ghost predicate Valid(u: Setup)
      reads this, buffer, buffer.buf
    {
      buffer.Valid() && buffer.size == u.size && Settled(u, View())
    }

    ghost function Snapshot(owner: Option<nat>, adders: seq<C.Adder>): C.State
      reads this
    {
      C.State(globalCounter, owner, adders, counter, total)
    }

    /** One statement of one adder, executed on the statics. */
    method ExecuteAdder(c: C.Config, owner: Option<nat>, adders: seq<C.Adder>, i: nat)
      returns (owner': Option<nat>, adders': seq<C.Adder>)
      requires C.Enabled(Snapshot(owner, adders), i)
      modifies this
      ensures Snapshot(owner', adders') == C.Exec(c, old(Snapshot(owner, adders)), i)
    {
      var a := adders[i];
      owner', adders' := owner, adders;
      match a.pc
      case Loop => adders' := adders[i := a.(pc := if a.done < c.loops then C.Lock else C.Publish)];
      case Lock => owner', adders' := Some(i), adders[i := a.(pc := C.Read)];
      case Read => adders' := adders[i := a.(tmp := globalCounter, pc := C.Write)];
      case Write =>
        var next := (a.tmp + 1) % C.WORD;
        globalCounter := next;
        total := total + 1;
        adders' := adders[i := a.(tmp := next, pc := C.Test)];
      case Test =>
        var ret := if c.threshold == globalCounter then globalCounter else a.ret;
        adders' := adders[i := a.(ret := ret, pc := C.Unlock)];
      case Unlock => owner', adders' := None, adders[i := a.(done := a.done + 1, pc := C.Loop)];
      case Publish =>
        if a.ret != 0 { counter := a.ret; }
        adders' := adders[i := a.(pc := C.Done)];
    }

    /** Spawns the adders, lets any scheduler interleave them, and joins them. */
    method RunAdders(u: Setup) returns (adders: seq<C.Adder>)
      requires Sound(u) && globalCounter == total % C.WORD
      modifies this
      ensures total == old(total) + Work(u) && globalCounter == total % C.WORD
      ensures counter == if u.threshold > 0 && C.Passes(u.threshold, old(total), total) > 0 then u.threshold
                         else old(counter)
      ensures |adders| == u.adders
      ensures forall i | 0 <= i < u.adders :: adders[i].done == u.loops && adders[i].pc == C.Done
      ensures C.Reports(Adding(u), C.Passes(u.threshold, old(total), total), Sum(adders, C.Returning))
    {
      var c := Adding(u);
      adders := seq(u.adders, _ => C.Adder(0, 0, 0, C.Loop));
      var owner: Option<nat> := None;
      ghost var start := Snapshot(owner, adders);
      ghost var o := C.Origin(total, counter);
      C.SpawnedInv(c, start);
      while exists i: nat | i < |adders| :: CanGo(owner, adders, i)
        invariant |adders| == u.adders && C.Inv(o, c, Snapshot(owner, adders))
        decreases Sum(adders, C.Leftover(c))
      {
        var i: nat :| i < |adders| && CanGo(owner, adders, i);
        C.StepLeft(o, c, Snapshot(owner, adders), i);
        C.StepKeepsInv(o, c, Snapshot(owner, adders), i);
        owner, adders := ExecuteAdder(c, owner, adders, i);
      }
      ghost var e := Snapshot(owner, adders);
      forall i: nat ensures !C.Enabled(e, i) {
        assert i < |adders| ==> !CanGo(owner, adders, i);
      }
      C.JoinedResult(o, c, e);
    }

    predicate CanGo(owner: Option<nat>, adders: seq<C.Adder>, i: nat) {
      C.Enabled(C.State(0, owner, adders, 0, 0), i)
    }

    /** One call of `ecall_thread_functions`; `asserted` is whether the check between the phases passes, and
        the program goes no further when it does not. */
    method ThreadFunctions(u: Setup) returns (asserted: bool, threads: seq<B.Thread>)
      requires Sound(u) && Valid(u)
      modifies this, buffer, buffer.buf
      ensures total == old(total) + Work(u) && globalCounter == total % C.WORD
      ensures asserted <==> (old(counter) == u.threshold
                             || (u.threshold > 0 && C.Passes(u.threshold, old(total), total) > 0))
      ensures asserted ==>
        && Valid(u) && counter == u.threshold
        && buffer.ledger.puts == buffer.ledger.takes
        && |buffer.ledger.puts| == |old(buffer.ledger.puts)| + Work(u)
        && |threads| == u.adders + 1
        && threads[0] == B.Thread(B.Producer, Work(u), Work(u), B.Done)
        && forall i | 1 <= i <= u.adders :: threads[i] == B.Thread(B.Consumer, u.loops, u.loops, B.Done)
      ensures !asserted ==> buffer.View() == old(buffer.View()) && buffer.ledger == old(buffer.ledger)
    {
      threads := [];
      var adders := RunAdders(u);
      asserted := counter == u.threshold;
      if asserted {
        var roster := E.Roster(u.adders, u.loops);
        E.RosterSums(u.adders, u.loops);
        E.RosterSpelled(u.adders, u.loops);
        threads := E.RunPhase(buffer, roster);
        E.EmptyAtRest(u.size, buffer.View(), buffer.ledger);
      }
    }
  }
}
