/** The producer and consumer threads of the enclave, as an interleaving of single statements.

    Any roster of producers and consumers shares one ring, one mutex and the two condition variables
    `more` (consumers wait on it) and `less` (producers wait on it). A step is one statement of one
    thread; the scheduler, and the waiter that a signal wakes, are chosen by an adversary. */
module BufferThreads {

  import opened Options

  datatype Role = Producer | Consumer

  /** Where a thread stands. `Write` is the slot store (for a consumer it also advances `nextout`);
      `Waiting` is asleep on the thread's condition variable, `Woken` has been signalled but does not
      hold the mutex again. */
  datatype Pc = Loop | Lock | Guard | Wait | Waiting | Woken | Write | Bump | Wrap | Count | Signal | Unlock | Done

  datatype Thread = Thread(role: Role, quota: nat, done: nat, pc: Pc)

  /** The fields of `cond_buffer_t` that are data. */
  datatype Ring = Ring(buf: seq<int>, occupied: int, nextin: int, nextout: int)

  /** History: the slot index of every store and of every clear, oldest first. */
  datatype Ledger = Ledger(puts: seq<int>, takes: seq<int>)

  /** `fault` records an access outside `buf`. */
  datatype State = State(ring: Ring, ledger: Ledger, owner: Option<nat>, threads: seq<Thread>, fault: bool)

  /** `Run` executes the current statement of a thread; `woken` matters only when that statement signals.
      `Spurious` wakes a waiting thread without a signal. */
  datatype Step = Run(thread: nat, woken: nat) | Spurious(thread: nat)

  function Other(role: Role): Role {
    if role.Producer? then Consumer else Producer
  }

  /** The loop guard around the condition wait. */
  predicate Blocked(size: nat, ring: Ring, role: Role) {
    match role
    case Producer => ring.occupied >= size
    case Consumer => ring.occupied <= 0
  }

  predicate IsWaiter(t: Thread, role: Role) {
    t.role == role && t.pc == Waiting
  }

  predicate HasWaiter(threads: seq<Thread>, role: Role) {
    exists i | 0 <= i < |threads| :: IsWaiter(threads[i], role)
  }

  predicate Enabled(s: State, step: Step) {
    step.thread < |s.threads| &&
    var t := s.threads[step.thread];
    match step
    case Spurious(_) => t.pc == Waiting
    case Run(_, woken) =>
      match t.pc
      case Done => false
      case Waiting => false
      case Lock => s.owner.None?
      case Woken => s.owner.None?
      case Signal =>
        HasWaiter(s.threads, Other(t.role)) ==>
          woken < |s.threads| && IsWaiter(s.threads[woken], Other(t.role))
      case _ => true
  }

  function Goto(s: State, i: nat, pc: Pc): State
    requires i < |s.threads|
  {
    s.(threads := s.threads[i := s.threads[i].(pc := pc)])
  }

  function StoreSlot(s: State): State {
    var r := s.ring;
    if 0 <= r.nextin < |r.buf| then
      s.(ring := r.(buf := r.buf[r.nextin := r.nextin]),
         ledger := s.ledger.(puts := s.ledger.puts + [r.nextin]))
    else
      s.(fault := true)
  }

  function ClearSlot(s: State): State {
    var r := s.ring;
    if 0 <= r.nextout < |r.buf| then
      s.(ring := r.(buf := r.buf[r.nextout := 0], nextout := r.nextout + 1),
         ledger := s.ledger.(takes := s.ledger.takes + [r.nextout]))
    else
      s.(fault := true)
  }

  function WrapIndex(size: nat, ring: Ring, role: Role): Ring
    requires size > 0
  {
    match role
    case Producer => ring.(nextin := ring.nextin % size)
    case Consumer => ring.(nextout := ring.nextout % size)
  }

  function Recount(ring: Ring, role: Role): Ring {
    match role
    case Producer => ring.(occupied := ring.occupied + 1)
    case Consumer => ring.(occupied := ring.occupied - 1)
  }

  function Wake(s: State, role: Role, woken: nat): State {
    if HasWaiter(s.threads, role) && woken < |s.threads| then Goto(s, woken, Woken) else s
  }

  function Exec(size: nat, s: State, step: Step): (s': State)
    requires size > 0 && Enabled(s, step)
    ensures |s'.threads| == |s.threads|
  {
    var i := step.thread;
    var t := s.threads[i];
    if step.Spurious? then
      Goto(s, i, Woken)
    else
      match t.pc
      case Loop => Goto(s, i, if t.done < t.quota then Lock else Done)
      case Lock => Goto(s.(owner := Some(i)), i, Guard)
      case Woken => Goto(s.(owner := Some(i)), i, Guard)
      case Guard => Goto(s, i, if Blocked(size, s.ring, t.role) then Wait else Write)
      case Wait => Goto(s.(owner := None), i, Waiting)
      case Write => if t.role.Producer? then Goto(StoreSlot(s), i, Bump) else Goto(ClearSlot(s), i, Wrap)
      case Bump => Goto(s.(ring := s.ring.(nextin := s.ring.nextin + 1)), i, Wrap)
      case Wrap => Goto(s.(ring := WrapIndex(size, s.ring, t.role)), i, Count)
      case Count => Goto(s.(ring := Recount(s.ring, t.role)), i, Signal)
      case Signal => Goto(Wake(s, Other(t.role), step.woken), i, Unlock)
      case Unlock => s.(owner := None, threads := s.threads[i := t.(done := t.done + 1, pc := Loop)])
      case _ => s
  }

  /** Nothing else holds a thread up: it can go on unless it has finished, sleeps, or needs a mutex that is held.
      In particular a thread that comes to the mutex may overtake one that has been woken. A signal may wake
      any sleeper of the other role, and every sleeper may wake spuriously. */
  lemma RunnableIff(s: State, i: nat)
    ensures (exists w: nat :: Enabled(s, Run(i, w))) <==>
              && i < |s.threads| && s.threads[i].pc != Done && s.threads[i].pc != Waiting
              && (s.threads[i].pc == Lock || s.threads[i].pc == Woken ==> s.owner == None)
    ensures forall w: nat |
              && i < |s.threads| && s.threads[i].pc == Signal
              && w < |s.threads| && s.threads[w].pc == Waiting && s.threads[w].role != s.threads[i].role ::
              Enabled(s, Run(i, w))
    ensures i < |s.threads| && s.threads[i].pc == Waiting ==> Enabled(s, Spurious(i))
  {
    if i < |s.threads| {
      var t := s.threads[i];
      if t.pc == Signal && HasWaiter(s.threads, Other(t.role)) {
        var w :| 0 <= w < |s.threads| && IsWaiter(s.threads[w], Other(t.role));
        assert Enabled(s, Run(i, w));
      } else if t.pc != Done && t.pc != Waiting && (t.pc == Lock || t.pc == Woken ==> s.owner == None) {
        assert Enabled(s, Run(i, 0));
      }
    }
  }

  /** What a step does to the mutex and to the threads: one statement of one thread in program order, and a
      signal wakes exactly one sleeper of the other role if there is one. Only the statements on the buffer
      touch the ring and its history. */
  lemma StepEffect(size: nat, s: State, step: Step)
    requires size > 0 && Enabled(s, step)
    ensures var s', i := Exec(size, s, step), step.thread;
            var t, t' := s.threads[i], s'.threads[i];
            && t'.role == t.role && t'.quota == t.quota
            && t'.done == (if step.Run? && t.pc == Unlock then t.done + 1 else t.done)
            && (step.Spurious? ==> t'.pc == Woken)
            && (step.Run? ==> t'.pc == (match t.pc
                                        case Loop => if t.done < t.quota then Lock else Done
                                        case Lock => Guard
                                        case Woken => Guard
                                        case Guard => if (if t.role.Producer? then s.ring.occupied >= size
                                                          else s.ring.occupied <= 0) then Wait else Write
                                        case Wait => Waiting
                                        case Write => if t.role.Producer? then Bump else Wrap
                                        case Bump => Wrap
                                        case Wrap => Count
                                        case Count => Signal
                                        case Signal => Unlock
                                        case Unlock => Loop
                                        case _ => t.pc))
    ensures var s', i := Exec(size, s, step), step.thread;
            var pc := s.threads[i].pc;
            s'.owner == if step.Run? && (pc == Lock || pc == Woken) then Some(i)
                        else if step.Run? && (pc == Wait || pc == Unlock) then None
                        else s.owner
    ensures var s', i := Exec(size, s, step), step.thread;
            forall j | 0 <= j < |s.threads| && j != i ::
              s'.threads[j] == if step.Run? && s.threads[i].pc == Signal && j == step.woken
                                  && s.threads[j].pc == Waiting && s.threads[j].role != s.threads[i].role
                               then s.threads[j].(pc := Woken) else s.threads[j]
    ensures var s' := Exec(size, s, step);
            step.Spurious? || s.threads[step.thread].pc !in {Write, Bump, Wrap, Count} ==>
              s'.ring == s.ring && s'.ledger == s.ledger && s'.fault == s.fault
  {
    var i := step.thread;
    if step.Run? && s.threads[i].pc == Signal && !HasWaiter(s.threads, Other(s.threads[i].role)) {
      forall j | 0 <= j < |s.threads| ensures !IsWaiter(s.threads[j], Other(s.threads[i].role)) {}
    }
  }

  /** A schedule is a sequence of steps; it can be run when each step is enabled where it is taken. */
  predicate CanRun(size: nat, s: State, steps: seq<Step>)
    requires size > 0
    decreases |steps|
  {
    steps == [] || (Enabled(s, steps[0]) && CanRun(size, Exec(size, s, steps[0]), steps[1..]))
  }

  function After(size: nat, s: State, steps: seq<Step>): State
    requires size > 0 && CanRun(size, s, steps)
    decreases |steps|
  {
    if steps == [] then s else After(size, Exec(size, s, steps[0]), steps[1..])
  }

  /** Every schedule can be followed by every step that is enabled where it ends. */
  lemma {:induction false} ScheduleExtends(size: nat, s: State, steps: seq<Step>, step: Step)
    requires size > 0 && CanRun(size, s, steps) && Enabled(After(size, s, steps), step)
    ensures CanRun(size, s, steps + [step])
    ensures After(size, s, steps + [step]) == Exec(size, After(size, s, steps), step)
    decreases |steps|
  {
    if steps == [] {
      assert steps + [step] == [step] && [step][1..] == [];
      assert After(size, Exec(size, s, step), []) == Exec(size, s, step);
    } else {
      assert (steps + [step])[1..] == steps[1..] + [step];
      ScheduleExtends(size, Exec(size, s, steps[0]), steps[1..], step);
    }
  }

  /** No thread can execute its current statement. */
  ghost predicate Stuck(s: State) {
    forall i: nat, woken: nat :: !Enabled(s, Run(i, woken))
  }

  predicate AllDone(s: State) {
    forall i | 0 <= i < |s.threads| :: s.threads[i].pc == Done
  }

  /** Freshly spawned threads on a buffer. */
  predicate Spawned(s: State) {
    s.owner == None && !s.fault && forall i | 0 <= i < |s.threads| :: s.threads[i].pc == Loop && s.threads[i].done == 0
  }
}
