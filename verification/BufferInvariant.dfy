/** What every step of the buffer threads keeps: mutual exclusion, the ring, the accounts and the wake-up tokens. */
module BufferInvariant {
  import opened Options
  import opened Sums
  import opened BufferThreads

  /** The buffer a phase starts on: its capacity and how much was ever stored and cleared before. */
  datatype Origin = Origin(size: nat, puts: nat, takes: nat)

  // ---------------------------------------------------------------- weights of a single thread

  function Stored(t: Thread): int {
    if t.role.Producer? then t.done + Flag(t.pc in {Bump, Wrap, Count, Signal, Unlock}) else 0
  }

  function Cleared(t: Thread): int {
    if t.role.Consumer? then t.done + Flag(t.pc in {Wrap, Count, Signal, Unlock}) else 0
  }

  function ProduceQuota(t: Thread): int { if t.role.Producer? then t.quota else 0 }
  function ConsumeQuota(t: Thread): int { if t.role.Consumer? then t.quota else 0 }

  function Sleeping(t: Thread, role: Role): int { Flag(IsWaiter(t, role)) }
  function SleepsOnMore(t: Thread): int { Sleeping(t, Consumer) }
  function SleepsOnLess(t: Thread): int { Sleeping(t, Producer) }

  /** A token stands for a wake-up still on its way to a waiter of `role`: a thread of that role that is
      awake and has not finished its count, or a thread of the other role about to signal. */
  function Token(t: Thread, role: Role): int {
    Flag(if t.role == role then t.pc in {Woken, Guard, Write, Bump, Wrap, Count} else t.pc == Signal)
  }
  function MoreToken(t: Thread): int { Token(t, Consumer) }
  function LessToken(t: Thread): int { Token(t, Producer) }

  // ---------------------------------------------------------------- the invariant

  predicate Critical(pc: Pc) {
    pc in {Guard, Wait, Write, Bump, Wrap, Count, Signal, Unlock}
  }

  ghost predicate Shaped(s: State) {
    forall i | 0 <= i < |s.threads| :: ShapedThread(s.threads[i])
  }

  predicate ShapedThread(t: Thread) {
    && t.done <= t.quota
    && (t.pc !in {Loop, Done} ==> t.done < t.quota)
    && (t.pc == Done ==> t.done == t.quota)
    && (t.pc == Bump ==> t.role == Producer)
  }

  /** Exactly the owner of the mutex is between lock and unlock. */
  ghost predicate Exclusive(s: State) {
    && (s.owner.Some? ==> s.owner.value < |s.threads|)
    && forall i | 0 <= i < |s.threads| :: Critical(s.threads[i].pc) <==> s.owner == Some(i)
  }

  /** The thread inside the critical section, or one at rest when the mutex is free. */
  function Insider(s: State): Thread {
    if s.owner.Some? && s.owner.value < |s.threads| then s.threads[s.owner.value] else Thread(Producer, 0, 0, Loop)
  }

  /** Slots stored and not yet cleared, oldest first. */
  function Queue(l: Ledger): seq<int> {
    if |l.takes| <= |l.puts| then l.puts[|l.takes|..] else []
  }

  /** The slot of the k-th store or clear, counting round the ring. */
  function SlotOf(k: nat, size: nat): (slot: nat)
    requires size > 0
    ensures slot < size
  {
    if k == 0 then 0
    else
      var previous := SlotOf(k - 1, size);
      if previous + 1 == size then 0 else previous + 1
  }

  ghost predicate CountsUp(slots: seq<int>, size: nat)
    requires size > 0
  {
    forall k | 0 <= k < |slots| :: slots[k] == SlotOf(k, size)
  }

  /** The ring while `role` stands at `pc` inside the critical section. */
  ghost predicate RingAt(size: nat, r: Ring, l: Ledger, role: Role, pc: Pc)
    requires size > 0
  {
    var puts, takes := |l.puts|, |l.takes|;
    && |r.buf| == size
    && CountsUp(l.puts, size)
    && CountsUp(l.takes, size)
    && takes <= puts <= takes + size
    && (role.Producer? && pc in {Bump, Wrap, Count} ==> puts > takes)
    && (role.Consumer? && pc in {Wrap, Count} ==> takes > 0 && puts - takes < size)
    && r.nextin == (if role.Producer? && pc == Bump then SlotOf(puts - 1, size)
                    else if role.Producer? && pc == Wrap then SlotOf(puts - 1, size) + 1
                    else SlotOf(puts, size))
    && r.nextout == (if role.Consumer? && pc == Wrap then SlotOf(takes - 1, size) + 1 else SlotOf(takes, size))
    && r.occupied == puts - takes
                     - Flag(role.Producer? && pc in {Bump, Wrap, Count})
                     + Flag(role.Consumer? && pc in {Wrap, Count})
    && (pc == Write ==> !Blocked(size, r, role))
    && (pc == Wait ==> Blocked(size, r, role))
    && forall j | 0 <= j < size :: r.buf[j] == if j in Queue(l) then j else 0
  }

  ghost predicate RingOk(size: nat, s: State)
    requires size > 0
  {
    !s.fault && RingAt(size, s.ring, s.ledger, Insider(s).role, Insider(s).pc)
  }

  /** Every store and every clear of this phase is one thread's doing. */
  ghost predicate Accounted(o: Origin, s: State) {
    && |s.ledger.puts| == o.puts + Sum(s.threads, Stored)
    && |s.ledger.takes| == o.takes + Sum(s.threads, Cleared)
  }

  /** If a consumer sleeps, no more items are present than wake-ups on their way; dually for producers. */
  ghost predicate NoLostWakeup(size: nat, s: State) {
    && (Sum(s.threads, SleepsOnMore) > 0 ==> s.ring.occupied <= Sum(s.threads, MoreToken))
    && (Sum(s.threads, SleepsOnLess) > 0 ==> size - s.ring.occupied <= Sum(s.threads, LessToken))
  }

  ghost predicate Inv(o: Origin, s: State) {
    o.size > 0 && Shaped(s) && Exclusive(s) && RingOk(o.size, s) && Accounted(o, s) && NoLostWakeup(o.size, s)
  }

  // ---------------------------------------------------------------- one step keeps each part

  lemma StepShaped(size: nat, s: State, step: Step)
    requires size > 0 && Enabled(s, step) && Shaped(s)
    ensures Shaped(Exec(size, s, step))
  {
  }

  lemma StepExclusive(size: nat, s: State, step: Step)
    requires size > 0 && Enabled(s, step) && Exclusive(s)
    ensures Exclusive(Exec(size, s, step))
  {
  }

  /** `SlotOf` is the remainder the wrap-around computes. */
  lemma {:induction false} SlotIsRemainder(k: nat, size: nat)
    requires size > 0
    ensures SlotOf(k, size) == k % size
  {
    var q := SlotQuotient(k, size);
    RemainderUnique(k, size, q, SlotOf(k, size));
  }

  lemma {:induction false} SlotQuotient(k: nat, size: nat) returns (q: nat)
    requires size > 0
    ensures k == q * size + SlotOf(k, size)
  {
    if k == 0 {
      q := 0;
    } else {
      var p := SlotQuotient(k - 1, size);
      q := if SlotOf(k, size) == 0 then p + 1 else p;
    }
  }

  lemma RemainderUnique(x: nat, size: nat, q: nat, r: nat)
    requires size > 0 && r < size && x == q * size + r
    ensures x % size == r
  {
    var d, e := x / size, x % size;
    assert x == d * size + e && (d - q) * size == r - e;
    if d > q { Multiple(d - q, size); }
    if d < q { Multiple(q - d, size); }
  }

  lemma Multiple(n: int, size: nat)
    requires n >= 1
    ensures n * size >= size
  {
  }

  /** Within `size` of each other, slots differ by the distance or by the distance less one turn. */
  lemma {:induction false} SlotDistance(a: nat, b: nat, size: nat)
    requires size > 0 && a <= b < a + size
    ensures var d := SlotOf(b, size) - SlotOf(a, size); d == b - a || d == b - a - size
  {
    if a < b { SlotDistance(a, b - 1, size); }
  }

  /** A slot index of the window recurs nowhere else in it. */
  lemma {:induction false} QueueSlot(size: nat, l: Ledger, k: nat)
    requires size > 0 && CountsUp(l.puts, size)
    requires |l.takes| <= k <= |l.puts| <= |l.takes| + size && k < |l.takes| + size
    ensures forall j | |l.takes| <= j < |l.puts| && j != k :: l.puts[j] != SlotOf(k, size)
  {
    forall j | |l.takes| <= j < |l.puts| && j != k ensures l.puts[j] != SlotOf(k, size) {
      if j < k { SlotDistance(j, k, size); } else { SlotDistance(k, j, size); }
    }
  }

  lemma WrapsTo(size: nat, k: nat)
    requires size > 0
    ensures (SlotOf(k, size) + 1) % size == SlotOf(k + 1, size)
  {
    RemainderUnique(SlotOf(k, size) + 1, size, if SlotOf(k, size) + 1 == size then 1 else 0, SlotOf(k + 1, size));
  }

  predicate Quiet(pc: Pc) {
    pc !in {Bump, Wrap, Count, Write, Wait}
  }

  /** The ring does not care where a thread stands that is not working on it. */
  lemma RingQuiet(size: nat, r: Ring, l: Ledger, from: Thread, to: Thread)
    requires size > 0 && RingAt(size, r, l, from.role, from.pc) && Quiet(from.pc)
    requires to.pc == Write ==> !Blocked(size, r, to.role)
    requires to.pc == Wait ==> Blocked(size, r, to.role)
    requires to.pc !in {Bump, Wrap, Count}
    ensures RingAt(size, r, l, to.role, to.pc)
  {
  }

  /** A step from outside the critical section leaves whoever is inside, or lets the stepper in. */
  lemma StepOutside(size: nat, s: State, step: Step)
    requires size > 0 && Enabled(s, step) && Exclusive(s) && !Critical(s.threads[step.thread].pc)
    ensures var s' := Exec(size, s, step);
            Insider(s') == Insider(s) || (Quiet(Insider(s).pc) && Insider(s').pc == Guard)
  {
  }

  lemma StepInside(size: nat, s: State, step: Step)
    requires size > 0 && Enabled(s, step) && Exclusive(s) && Critical(s.threads[step.thread].pc)
    ensures Insider(s) == s.threads[step.thread] && step.Run?
    ensures var s' := Exec(size, s, step);
            Insider(s') == s'.threads[step.thread] || Insider(s') == Thread(Producer, 0, 0, Loop)
    ensures var s' := Exec(size, s, step);
            s.threads[step.thread].pc !in {Wait, Unlock} ==> Insider(s') == s'.threads[step.thread]
  {
  }

  lemma StepRing(size: nat, s: State, step: Step)
    requires size > 0 && Enabled(s, step) && Shaped(s) && Exclusive(s) && RingOk(size, s)
    ensures RingOk(size, Exec(size, s, step))
  {
    var s', t := Exec(size, s, step), s.threads[step.thread];
    if !Critical(t.pc) {
      StepOutside(size, s, step);
      assert s'.ring == s.ring && s'.ledger == s.ledger;
    } else {
      StepInside(size, s, step);
      if t.pc == Write {
        if t.role.Producer? { StoreKeepsRing(size, s, step); } else { ClearKeepsRing(size, s, step); }
      } else if t.pc in {Bump, Wrap, Count} {
        IndexKeepsRing(size, s, step);
      } else {
        assert s'.ring == s.ring && s'.ledger == s.ledger;
        var rest := t.(pc := Signal);
        assert RingAt(size, s.ring, s.ledger, rest.role, rest.pc);
        RingQuiet(size, s.ring, s.ledger, rest, Insider(s'));
      }
    }
  }

  /** The index and the count follow the store or clear, one statement at a time. */
  lemma BumpRing(size: nat, r: Ring, l: Ledger)
    requires size > 0 && RingAt(size, r, l, Producer, Bump)
    ensures RingAt(size, r.(nextin := r.nextin + 1), l, Producer, Wrap)
  {
  }

  lemma WrapRing(size: nat, r: Ring, l: Ledger, role: Role)
    requires size > 0 && RingAt(size, r, l, role, Wrap)
    ensures RingAt(size, WrapIndex(size, r, role), l, role, Count)
  {
    WrapsTo(size, if role.Producer? then |l.puts| - 1 else |l.takes| - 1);
  }

  lemma CountRing(size: nat, r: Ring, l: Ledger, role: Role)
    requires size > 0 && RingAt(size, r, l, role, Count)
    ensures RingAt(size, Recount(r, role), l, role, Signal)
  {
  }

  lemma IndexKeepsRing(size: nat, s: State, step: Step)
    requires size > 0 && Enabled(s, step) && Shaped(s) && Exclusive(s) && RingOk(size, s)
    requires step.Run? && s.threads[step.thread].pc in {Bump, Wrap, Count}
    ensures RingOk(size, Exec(size, s, step))
  {
    var t := s.threads[step.thread];
    StepInside(size, s, step);
    assert ShapedThread(t);
    if t.pc == Bump {
      BumpRing(size, s.ring, s.ledger);
    } else if t.pc == Wrap {
      WrapRing(size, s.ring, s.ledger, t.role);
    } else {
      CountRing(size, s.ring, s.ledger, t.role);
    }
  }

  lemma StoreRing(size: nat, r: Ring, l: Ledger)
    requires size > 0 && RingAt(size, r, l, Producer, Write)
    ensures 0 <= r.nextin < |r.buf| && r.nextin !in Queue(l)
    ensures var stored := l.(puts := l.puts + [r.nextin]);
            && Queue(stored) == Queue(l) + [r.nextin]
            && RingAt(size, r.(buf := r.buf[r.nextin := r.nextin]), stored, Producer, Bump)
  {
    QueueSlot(size, l, |l.puts|);
    hide SlotOf;
    var stored := l.(puts := l.puts + [r.nextin]);
    assert CountsUp(stored.puts, size);
    hide CountsUp;
    assert Queue(stored) == Queue(l) + [r.nextin];
    FillsSlot(r.buf, Queue(l), r.nextin);
  }

  lemma FillsSlot(buf: seq<int>, queue: seq<int>, slot: int)
    requires 0 <= slot < |buf| && forall j | 0 <= j < |buf| :: buf[j] == if j in queue then j else 0
    ensures forall j | 0 <= j < |buf| :: buf[slot := slot][j] == if j in queue + [slot] then j else 0
  {
  }

  lemma StoreKeepsRing(size: nat, s: State, step: Step)
    requires size > 0 && Enabled(s, step) && Exclusive(s) && RingOk(size, s)
    requires step.Run? && s.threads[step.thread].pc == Write && s.threads[step.thread].role.Producer?
    ensures RingOk(size, Exec(size, s, step))
    ensures Queue(Exec(size, s, step).ledger) == Queue(s.ledger) + [s.ring.nextin]
    ensures s.ring.nextin !in Queue(s.ledger)
  {
    assert Insider(s) == s.threads[step.thread];
    StoreRing(size, s.ring, s.ledger);
  }

  lemma ClearKeepsRing(size: nat, s: State, step: Step)
    requires size > 0 && Enabled(s, step) && Exclusive(s) && RingOk(size, s)
    requires step.Run? && s.threads[step.thread].pc == Write && s.threads[step.thread].role.Consumer?
    ensures RingOk(size, Exec(size, s, step))
    ensures Queue(s.ledger) == [s.ring.nextout] + Queue(Exec(size, s, step).ledger)
    ensures s.ring.nextout !in Queue(Exec(size, s, step).ledger)
  {
    var l, s' := s.ledger, Exec(size, s, step);
    assert Insider(s) == s.threads[step.thread];
    QueueSlot(size, l, |l.takes|);
    assert Queue(l) == [s.ring.nextout] + Queue(s'.ledger);
  }

  // ---------------------------------------------------------------- counting across a step

  /** A step changes the threads at one index, or at two when it wakes a waiter. */
  lemma SumStep(size: nat, s: State, step: Step, weight: Thread -> int)
    requires size > 0 && Enabled(s, step)
    ensures Sum(Exec(size, s, step).threads, weight) == Sum(s.threads, weight) + StepGain(size, s, step, weight)
  {
    var s', i := Exec(size, s, step), step.thread;
    var t := s.threads[i];
    if step.Run? && t.pc == Signal && HasWaiter(s.threads, Other(t.role)) {
      var w := step.woken;
      var mid := s.threads[w := s.threads[w].(pc := Woken)];
      assert s'.threads == mid[i := t.(pc := Unlock)];
      SumUpdate(s.threads, w, s.threads[w].(pc := Woken), weight);
      SumUpdate(mid, i, t.(pc := Unlock), weight);
    } else {
      assert s'.threads == s.threads[i := s'.threads[i]];
      SumUpdate(s.threads, i, s'.threads[i], weight);
    }
  }

  function StepGain(size: nat, s: State, step: Step, weight: Thread -> int): int
    requires size > 0 && Enabled(s, step)
  {
    var t := s.threads[step.thread];
    weight(Exec(size, s, step).threads[step.thread]) - weight(t)
    + if step.Run? && t.pc == Signal && HasWaiter(s.threads, Other(t.role))
      then var w := s.threads[step.woken]; weight(w.(pc := Woken)) - weight(w) else 0
  }

  lemma StepAccounted(o: Origin, s: State, step: Step)
    requires o.size > 0 && Enabled(s, step) && Inv(o, s)
    ensures Accounted(o, Exec(o.size, s, step))
  {
    assert Critical(s.threads[step.thread].pc) ==> Insider(s) == s.threads[step.thread];
    StepStores(o.size, s, step);
    StepClears(o.size, s, step);
  }

  /** A step stores as many slots as its thread accounts for. */
  lemma StepStores(size: nat, s: State, step: Step)
    requires size > 0 && Enabled(s, step) && Exclusive(s) && RingOk(size, s)
    ensures var e := Exec(size, s, step);
            |e.ledger.puts| - |s.ledger.puts| == Sum(e.threads, Stored) - Sum(s.threads, Stored)
  {
    SumStep(size, s, step, Stored);
    assert Critical(s.threads[step.thread].pc) ==> Insider(s) == s.threads[step.thread];
  }

  lemma StepClears(size: nat, s: State, step: Step)
    requires size > 0 && Enabled(s, step) && Shaped(s) && Exclusive(s) && RingOk(size, s)
    ensures var e := Exec(size, s, step);
            |e.ledger.takes| - |s.ledger.takes| == Sum(e.threads, Cleared) - Sum(s.threads, Cleared)
  {
    SumStep(size, s, step, Cleared);
    assert ShapedThread(s.threads[step.thread]);
    assert Critical(s.threads[step.thread].pc) ==> Insider(s) == s.threads[step.thread];
  }

  lemma {:induction false} NoSleepers(threads: seq<Thread>)
    ensures HasWaiter(threads, Consumer) <==> Sum(threads, SleepsOnMore) > 0
    ensures HasWaiter(threads, Producer) <==> Sum(threads, SleepsOnLess) > 0
    ensures Sum(threads, SleepsOnMore) >= 0 && Sum(threads, SleepsOnLess) >= 0
    ensures Sum(threads, MoreToken) >= 0 && Sum(threads, LessToken) >= 0
  {
    SumBounds(threads, SleepsOnMore);
    SumBounds(threads, SleepsOnLess);
    SumBounds(threads, MoreToken);
    SumBounds(threads, LessToken);
    if Sum(threads, SleepsOnMore) > 0 { var i := SumWitness(threads, SleepsOnMore); }
    if Sum(threads, SleepsOnLess) > 0 { var i := SumWitness(threads, SleepsOnLess); }
    if HasWaiter(threads, Consumer) {
      var i :| 0 <= i < |threads| && IsWaiter(threads[i], Consumer);
      assert SleepsOnMore(threads[i]) == 1;
    }
    if HasWaiter(threads, Producer) {
      var i :| 0 <= i < |threads| && IsWaiter(threads[i], Producer);
      assert SleepsOnLess(threads[i]) == 1;
    }
  }

  lemma StepWakeups(o: Origin, s: State, step: Step)
    requires o.size > 0 && Enabled(s, step) && Inv(o, s)
    ensures NoLostWakeup(o.size, Exec(o.size, s, step))
  {
    NoSleepers(s.threads);
    NoSleepers(Exec(o.size, s, step).threads);
    assert Critical(s.threads[step.thread].pc) ==> Insider(s) == s.threads[step.thread];
    StepConsumerWakeups(o, s, step);
    StepProducerWakeups(o, s, step);
  }

  lemma StepConsumerWakeups(o: Origin, s: State, step: Step)
    requires o.size > 0 && Enabled(s, step) && NoLostWakeup(o.size, s)
    requires HasWaiter(s.threads, Consumer) <==> Sum(s.threads, SleepsOnMore) > 0
    requires Sum(s.threads, SleepsOnMore) >= 0 && Sum(Exec(o.size, s, step).threads, MoreToken) >= 0
    requires s.threads[step.thread].pc == Wait ==> Blocked(o.size, s.ring, s.threads[step.thread].role)
    ensures var e := Exec(o.size, s, step);
            Sum(e.threads, SleepsOnMore) > 0 ==> e.ring.occupied <= Sum(e.threads, MoreToken)
  {
    SumStep(o.size, s, step, SleepsOnMore);
    SumStep(o.size, s, step, MoreToken);
  }

  lemma StepProducerWakeups(o: Origin, s: State, step: Step)
    requires o.size > 0 && Enabled(s, step) && NoLostWakeup(o.size, s)
    requires HasWaiter(s.threads, Producer) <==> Sum(s.threads, SleepsOnLess) > 0
    requires Sum(s.threads, SleepsOnLess) >= 0 && Sum(Exec(o.size, s, step).threads, LessToken) >= 0
    requires s.threads[step.thread].pc == Wait ==> Blocked(o.size, s.ring, s.threads[step.thread].role)
    ensures var e := Exec(o.size, s, step);
            Sum(e.threads, SleepsOnLess) > 0 ==> o.size - e.ring.occupied <= Sum(e.threads, LessToken)
  {
    SumStep(o.size, s, step, SleepsOnLess);
    SumStep(o.size, s, step, LessToken);
  }

  /** Every step of every thread, spurious wake-ups included, keeps the invariant. */
  lemma StepKeepsInv(o: Origin, s: State, step: Step)
    requires Inv(o, s) && Enabled(s, step)
    ensures Inv(o, Exec(o.size, s, step))
  {
    StepShaped(o.size, s, step);
    StepExclusive(o.size, s, step);
    StepRing(o.size, s, step);
    StepAccounted(o, s, step);
    StepWakeups(o, s, step);
  }
}
