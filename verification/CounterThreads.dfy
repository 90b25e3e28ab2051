/** The adder threads: a shared counter read and written in separate statements under one mutex, and the
    unprotected counter of the application that each returning call may write. */
module CounterThreads {
  import opened Sums
  import opened Options

  /** `size_t` counts modulo this. */
  const WORD: nat := 0x1_0000_0000_0000_0000

  datatype Pc = Loop | Lock | Read | Write | Test | Unlock | Publish | Done

  /** One `increase_counter` thread; `tmp` and `ret` are the locals of its enclave call. */
  datatype Adder = Adder(done: nat, tmp: nat, ret: nat, pc: Pc)

  /** `total` is history: how often the counter was ever incremented, without wrap-around. */
  datatype State = State(global: nat, owner: Option<nat>, adders: seq<Adder>, counter: nat, total: nat)

  datatype Config = Config(loops: nat, threshold: nat)

  predicate Enabled(s: State, i: nat) {
    i < |s.adders| && s.adders[i].pc != Done && (s.adders[i].pc == Lock ==> s.owner == None)
  }

  function Exec(c: Config, s: State, i: nat): (s': State)
    requires Enabled(s, i)
    ensures |s'.adders| == |s.adders|
  {
    var a := s.adders[i];
    match a.pc
    case Loop => s.(adders := s.adders[i := a.(pc := if a.done < c.loops then Lock else Publish)])
    case Lock => s.(owner := Some(i), adders := s.adders[i := a.(pc := Read)])
    case Read => s.(adders := s.adders[i := a.(tmp := s.global, pc := Write)])
    case Write =>
      var next := (a.tmp + 1) % WORD;
      s.(global := next, total := s.total + 1, adders := s.adders[i := a.(tmp := next, pc := Test)])
    case Test =>
      s.(adders := s.adders[i := a.(ret := if c.threshold == s.global then s.global else a.ret, pc := Unlock)])
    case Unlock => s.(owner := None, adders := s.adders[i := a.(done := a.done + 1, pc := Loop)])
    case Publish =>
      s.(counter := if a.ret != 0 then a.ret else s.counter, adders := s.adders[i := a.(pc := Done)])
    case Done => s
  }

  predicate CanRun(c: Config, s: State, steps: seq<nat>)
    decreases |steps|
  {
    steps == [] || (Enabled(s, steps[0]) && CanRun(c, Exec(c, s, steps[0]), steps[1..]))
  }

  function After(c: Config, s: State, steps: seq<nat>): State
    requires CanRun(c, s, steps)
    decreases |steps|
  {
    if steps == [] then s else After(c, Exec(c, s, steps[0]), steps[1..])
  }

  /** Every schedule can be followed by every step that is enabled where it ends. */
  lemma {:induction false} ScheduleExtends(c: Config, s: State, steps: seq<nat>, i: nat)
    requires CanRun(c, s, steps) && Enabled(After(c, s, steps), i)
    ensures CanRun(c, s, steps + [i]) && After(c, s, steps + [i]) == Exec(c, After(c, s, steps), i)
    decreases |steps|
  {
    if steps == [] {
      assert steps + [i] == [i] && [i][1..] == [];
      assert After(c, Exec(c, s, i), []) == Exec(c, s, i);
    } else {
      assert (steps + [i])[1..] == steps[1..] + [i];
      ScheduleExtends(c, Exec(c, s, steps[0]), steps[1..], i);
    }
  }

  ghost predicate Stuck(s: State) {
    forall i: nat :: !Enabled(s, i)
  }

  predicate Spawned(s: State) {
    && s.owner == None && s.global == s.total % WORD
    && forall i | 0 <= i < |s.adders| :: s.adders[i] == Adder(0, 0, 0, Loop)
  }

  // ---------------------------------------------------------------- passing the threshold

  /** How many of the counts `lo + 1, ..., hi` show the threshold after wrap-around. */
  function Passes(threshold: nat, lo: nat, hi: nat): (n: nat)
    decreases hi
  {
    if hi <= lo then 0 else Passes(threshold, lo, hi - 1) + (if hi % WORD == threshold then 1 else 0)
  }

  function Reached(threshold: nat, count: nat): nat {
    if count < threshold then 0 else (count - threshold) / WORD + 1
  }

  lemma {:induction false} PassesCount(threshold: nat, lo: nat, hi: nat)
    requires threshold < WORD && lo <= hi
    ensures Passes(threshold, lo, hi) == Reached(threshold, hi) - Reached(threshold, lo)
    decreases hi
  {
    if hi > lo {
      PassesCount(threshold, lo, hi - 1);
    }
  }

  // ---------------------------------------------------------------- the invariant

  function Added(a: Adder): int { a.done + Flag(a.pc in {Test, Unlock}) }
  function Returning(a: Adder): int { Flag(a.ret != 0) }
  function Published(a: Adder): int { Flag(a.ret != 0 && a.pc == Done) }
  function Testing(a: Adder): int { Flag(a.pc == Test) }

  predicate Critical(pc: Pc) { pc in {Read, Write, Test, Unlock} }

  /** Where a phase starts: earlier increments and the application's counter. */
  datatype Origin = Origin(total: nat, counter: nat)

  predicate ShapedAdder(c: Config, a: Adder) {
    && a.done <= c.loops
    && (a.pc !in {Loop, Publish, Done} ==> a.done < c.loops)
    && (a.pc in {Publish, Done} ==> a.done == c.loops)
    && a.ret in {0, c.threshold}
  }

  /** Mutual exclusion, and the local copy is current while it matters. */
  ghost predicate Exclusive(s: State) {
    && (s.owner.Some? ==> s.owner.value < |s.adders|)
    && (forall i | 0 <= i < |s.adders| :: Critical(s.adders[i].pc) <==> s.owner == Some(i))
    && (forall i | 0 <= i < |s.adders| && s.adders[i].pc == Write :: s.adders[i].tmp == s.global)
  }

  ghost predicate Counted(o: Origin, s: State) {
    s.total == o.total + Sum(s.adders, Added) && s.global == s.total % WORD
  }

  /** Increments whose test has been made. */
  ghost function Tested(s: State): int { s.total - Sum(s.adders, Testing) }

  ghost predicate ReturnsPasses(o: Origin, c: Config, s: State) {
    && o.total <= Tested(s)
    && 0 <= Sum(s.adders, Returning) <= Passes(c.threshold, o.total, Tested(s))
    && (c.threshold > 0 && Passes(c.threshold, o.total, Tested(s)) > 0 ==> Sum(s.adders, Returning) > 0)
    && s.counter == if Sum(s.adders, Published) > 0 then c.threshold else o.counter
  }

  ghost predicate Inv(o: Origin, c: Config, s: State) {
    && c.threshold < WORD
    && (forall i | 0 <= i < |s.adders| :: ShapedAdder(c, s.adders[i]))
    && Exclusive(s) && Counted(o, s) && ReturnsPasses(o, c, s)
  }

  lemma {:induction false} SpawnedSums(adders: seq<Adder>)
    requires forall i | 0 <= i < |adders| :: adders[i] == Adder(0, 0, 0, Loop)
    ensures Sum(adders, Added) == 0 && Sum(adders, Returning) == 0
    ensures Sum(adders, Published) == 0 && Sum(adders, Testing) == 0
  {
    if adders != [] {
      assert forall i | 0 <= i < |adders| - 1 :: adders[1..][i] == adders[i + 1];
      SpawnedSums(adders[1..]);
    }
  }

  lemma SpawnedInv(c: Config, s: State)
    requires Spawned(s) && c.threshold < WORD
    ensures Inv(Origin(s.total, s.counter), c, s)
  {
    SpawnedSums(s.adders);
  }

  lemma SumStep(c: Config, s: State, i: nat, weight: Adder -> int)
    requires Enabled(s, i)
    ensures var s' := Exec(c, s, i);
            Sum(s'.adders, weight) == Sum(s.adders, weight) - weight(s.adders[i]) + weight(s'.adders[i])
  {
    var s' := Exec(c, s, i);
    assert s'.adders == s.adders[i := s'.adders[i]];
    SumUpdate(s.adders, i, s'.adders[i], weight);
  }

  /** At most one adder is between its increment and its test. */
  lemma OneTester(s: State)
    requires Exclusive(s)
    ensures Sum(s.adders, Testing) == Flag(s.owner.Some? && s.adders[s.owner.value].pc == Test)
  {
    if s.owner.Some? {
      var i := s.owner.value;
      var rest := s.adders[i := Adder(0, 0, 0, Loop)];
      SumUpdate(s.adders, i, Adder(0, 0, 0, Loop), Testing);
      SumBounds(rest, Testing);
      if Sum(rest, Testing) > 0 { var j := SumWitness(rest, Testing); }
    } else {
      SumBounds(s.adders, Testing);
      if Sum(s.adders, Testing) > 0 { var j := SumWitness(s.adders, Testing); }
    }
  }

  /** Only the mutex ever holds an adder up: it can go on unless it has returned, or comes to the mutex while
      another adder is inside, and that one can go on. */
  lemma RunnableIff(s: State, i: nat)
    requires Exclusive(s) && i < |s.adders|
    ensures Enabled(s, i) <==>
              && s.adders[i].pc != Done
              && (s.adders[i].pc == Lock ==>
                    forall j | 0 <= j < |s.adders| :: s.adders[j].pc !in {Read, Write, Test, Unlock})
    ensures forall j | 0 <= j < |s.adders| && s.adders[j].pc in {Read, Write, Test, Unlock} :: Enabled(s, j)
  {
    forall j | 0 <= j < |s.adders| ensures Critical(s.adders[j].pc) <==> s.owner == Some(j) {}
  }

  /** One statement of one adder in program order: the shared counter changes at `Write` only, the application's
      at `Publish` only and only by a nonzero result, and all other adders are left alone. */
  lemma StepEffect(c: Config, s: State, i: nat)
    requires Enabled(s, i)
    ensures var s' := Exec(c, s, i);
            var a, a' := s.adders[i], s'.adders[i];
            && (forall j | 0 <= j < |s.adders| && j != i :: s'.adders[j] == s.adders[j])
            && s'.global == (if a.pc == Write then (a.tmp + 1) % 0x1_0000_0000_0000_0000 else s.global)
            && s'.total == (if a.pc == Write then s.total + 1 else s.total)
            && s'.counter == (if a.pc == Publish && a.ret != 0 then a.ret else s.counter)
            && s'.owner == (if a.pc == Lock then Some(i) else if a.pc == Unlock then None else s.owner)
            && a'.done == (if a.pc == Unlock then a.done + 1 else a.done)
            && a'.tmp == (if a.pc == Read then s.global else if a.pc == Write then s'.global else a.tmp)
            && a'.ret == (if a.pc == Test && s.global == c.threshold then s.global else a.ret)
            && a'.pc == (match a.pc
                         case Loop => if a.done < c.loops then Lock else Publish
                         case Lock => Read
                         case Read => Write
                         case Write => Test
                         case Test => Unlock
                         case Unlock => Loop
                         case _ => Done)
  {
  }

  lemma StepExclusive(c: Config, s: State, i: nat)
    requires Enabled(s, i) && Exclusive(s)
    ensures Exclusive(Exec(c, s, i))
  {
  }

  lemma StepReturns(o: Origin, c: Config, s: State, i: nat)
    requires Inv(o, c, s) && Enabled(s, i)
    ensures ReturnsPasses(o, c, Exec(c, s, i))
  {
    hide Sum;
    var s' := Exec(c, s, i);
    assert ShapedAdder(c, s.adders[i]);
    StepExclusive(c, s, i);
    OneTester(s);
    OneTester(s');
    SumStep(c, s, i, Testing);
    SumStep(c, s, i, Returning);
    SumStep(c, s, i, Published);
    SumBounds(s.adders, Returning);
    SumBounds(s.adders, Published);
    SumBounds(s'.adders, Returning);
    SumBounds(s'.adders, Published);
  }

  lemma StepShaped(c: Config, s: State, i: nat)
    requires Enabled(s, i) && forall j | 0 <= j < |s.adders| :: ShapedAdder(c, s.adders[j])
    ensures forall j | 0 <= j < |s.adders| :: ShapedAdder(c, Exec(c, s, i).adders[j])
  {
    assert ShapedAdder(c, s.adders[i]);
    assert ShapedAdder(c, Exec(c, s, i).adders[i]);
  }

  lemma StepCounted(o: Origin, c: Config, s: State, i: nat)
    requires Enabled(s, i) && Exclusive(s) && Counted(o, s)
    ensures Counted(o, Exec(c, s, i))
  {
    SumStep(c, s, i, Added);
  }

  lemma StepKeepsInv(o: Origin, c: Config, s: State, i: nat)
    requires Inv(o, c, s) && Enabled(s, i)
    ensures Inv(o, c, Exec(c, s, i))
  {
    StepShaped(c, s, i);
    StepExclusive(c, s, i);
    StepCounted(o, c, s, i);
    StepReturns(o, c, s, i);
  }

  lemma {:induction false} RunKeepsInv(o: Origin, c: Config, s: State, steps: seq<nat>)
    requires Inv(o, c, s) && CanRun(c, s, steps)
    ensures Inv(o, c, After(c, s, steps))
    ensures |After(c, s, steps).adders| == |s.adders|
    decreases |steps|
  {
    if steps != [] {
      StepKeepsInv(o, c, s, steps[0]);
      RunKeepsInv(o, c, Exec(c, s, steps[0]), steps[1..]);
    }
  }

  // ---------------------------------------------------------------- results

  function Completed(a: Adder): int { a.done }

  /** No update is lost: with the mutex free the counter is the number of completed iterations, modulo the word. */
  lemma {:induction false} NoLostUpdate(c: Config, s: State, steps: seq<nat>)
    requires Spawned(s) && c.threshold < WORD && CanRun(c, s, steps)
    requires After(c, s, steps).owner == None
    ensures var e := After(c, s, steps);
            e.global == (s.total + Sum(e.adders, Completed)) % WORD
  {
    SpawnedInv(c, s);
    RunKeepsInv(Origin(s.total, s.counter), c, s, steps);
    var e := After(c, s, steps);
    forall i | 0 <= i < |e.adders| ensures !Critical(e.adders[i].pc) {}
    SumMonotone(e.adders, Added, Completed);
    SumMonotone(e.adders, Completed, Added);
  }

  /** The application's counter has at most one writer as long as the increments of the phase fit in a word. */
  lemma {:induction false} AtMostOneReturns(c: Config, s: State, steps: seq<nat>)
    requires Spawned(s) && c.threshold < WORD && CanRun(c, s, steps)
    requires |s.adders| * c.loops <= WORD
    ensures Sum(After(c, s, steps).adders, Returning) <= 1
  {
    var o, e := Origin(s.total, s.counter), After(c, s, steps);
    SpawnedInv(c, s);
    RunKeepsInv(o, c, s, steps);
    SumBounds(e.adders, Testing);
    AddedAtMost(c, e.adders);
    PassesCount(c.threshold, o.total, Tested(e));
  }

  lemma {:induction false} AddedAtMost(c: Config, adders: seq<Adder>)
    requires forall i | 0 <= i < |adders| :: ShapedAdder(c, adders[i])
    ensures Sum(adders, Added) <= |adders| * c.loops
    ensures (forall i | 0 <= i < |adders| :: adders[i].pc == Done) ==> Sum(adders, Added) == |adders| * c.loops
  {
    if adders != [] {
      assert ShapedAdder(c, adders[0]);
      assert forall i | 0 <= i < |adders| - 1 :: adders[1..][i] == adders[i + 1];
      AddedAtMost(c, adders[1..]);
      assert |adders| * c.loops == |adders[1..]| * c.loops + c.loops;
    }
  }

  /** The adders never block each other for good. */
  lemma StuckIsDone(o: Origin, c: Config, s: State)
    requires Inv(o, c, s) && Stuck(s)
    ensures s.owner == None && forall i | 0 <= i < |s.adders| :: s.adders[i].pc == Done
  {
    if s.owner.Some? {
      assert Critical(s.adders[s.owner.value].pc);
      assert Enabled(s, s.owner.value);
    }
    forall i | 0 <= i < |s.adders| ensures s.adders[i].pc == Done {
      assert !Enabled(s, i);
    }
  }

  /** A zero threshold is never reported; another at most as often as it is passed, and at least once if it is
      passed at all. */
  predicate Reports(c: Config, passes: nat, reports: int) {
    if c.threshold == 0 then reports == 0 else 0 <= reports <= passes && (passes > 0 ==> reports > 0)
  }

  /** Once all adders have returned, the application holds the threshold if it is not zero and the counter
      passed it, and otherwise what it held before. */
  lemma {:induction false} PhaseResult(c: Config, s: State, steps: seq<nat>)
    requires Spawned(s) && c.threshold < WORD && CanRun(c, s, steps)
    requires Stuck(After(c, s, steps))
    ensures var e := After(c, s, steps);
            var passes := Passes(c.threshold, s.total, s.total + |s.adders| * c.loops);
            && e.total == s.total + |s.adders| * c.loops && e.global == e.total % WORD
            && e.counter == (if c.threshold > 0 && passes > 0 then c.threshold else s.counter)
            && Reports(c, passes, Sum(e.adders, Returning))
  {
    var o, e := Origin(s.total, s.counter), After(c, s, steps);
    SpawnedInv(c, s);
    RunKeepsInv(o, c, s, steps);
    JoinedResult(o, c, e);
  }

  lemma JoinedResult(o: Origin, c: Config, e: State)
    requires Inv(o, c, e) && Stuck(e)
    ensures var passes := Passes(c.threshold, o.total, o.total + |e.adders| * c.loops);
            && e.total == o.total + |e.adders| * c.loops
            && e.counter == (if c.threshold > 0 && passes > 0 then c.threshold else o.counter)
            && Reports(c, passes, Sum(e.adders, Returning))
    ensures forall i | 0 <= i < |e.adders| :: e.adders[i].done == c.loops && e.adders[i].pc == Done
  {
    StuckIsDone(o, c, e);
    forall i | 0 <= i < |e.adders| ensures ShapedAdder(c, e.adders[i]) {}
    AddedAtMost(c, e.adders);
    OneTester(e);
    if c.threshold == 0 {
      forall i | 0 <= i < |e.adders| ensures Returning(e.adders[i]) <= Testing(e.adders[i]) {
        assert ShapedAdder(c, e.adders[i]);
      }
      SumMonotone(e.adders, Returning, Testing);
    }
    SumMonotone(e.adders, Returning, Published);
    SumMonotone(e.adders, Published, Returning);
  }

  // ---------------------------------------------------------------- termination

  function Left(c: Config, a: Adder): int {
    match a.pc
    case Done => 0
    case Publish => 1
    case Loop => 6 * (c.loops - a.done) + 2
    case Lock => 6 * (c.loops - a.done) + 1
    case Read => 6 * (c.loops - a.done)
    case Write => 6 * (c.loops - a.done) - 1
    case Test => 6 * (c.loops - a.done) - 2
    case Unlock => 6 * (c.loops - a.done) - 3
  }

  function Leftover(c: Config): Adder -> int {
    (a: Adder) => Left(c, a)
  }

  lemma {:induction false} LeftBounds(c: Config, adders: seq<Adder>)
    requires forall i | 0 <= i < |adders| :: ShapedAdder(c, adders[i])
    ensures 0 <= Sum(adders, Leftover(c)) <= |adders| * (6 * c.loops + 2)
  {
    forall i | 0 <= i < |adders| ensures 0 <= Left(c, adders[i]) <= 6 * c.loops + 2 {
      assert ShapedAdder(c, adders[i]);
    }
    SumBounds(adders, Leftover(c));
    SumAtMost(adders, Leftover(c), 6 * c.loops + 2);
  }

  lemma StepLeft(o: Origin, c: Config, s: State, i: nat)
    requires Inv(o, c, s) && Enabled(s, i)
    ensures 0 <= Sum(Exec(c, s, i).adders, Leftover(c)) < Sum(s.adders, Leftover(c))
  {
    var s' := Exec(c, s, i);
    assert ShapedAdder(c, s.adders[i]);
    SumStep(c, s, i, Leftover(c));
    StepShaped(c, s, i);
    LeftBounds(c, s'.adders);
  }

  lemma {:induction false} RunLeft(o: Origin, c: Config, s: State, steps: seq<nat>)
    requires Inv(o, c, s) && CanRun(c, s, steps)
    ensures |steps| + Sum(After(c, s, steps).adders, Leftover(c)) <= Sum(s.adders, Leftover(c))
    decreases |steps|
  {
    if steps != [] {
      StepLeft(o, c, s, steps[0]);
      StepKeepsInv(o, c, s, steps[0]);
      RunLeft(o, c, Exec(c, s, steps[0]), steps[1..]);
    }
  }

  /** From every reachable state some schedule goes on until all adders have returned. */
  lemma {:induction false} DriveToStuck(o: Origin, c: Config, s: State) returns (steps: seq<nat>)
    requires Inv(o, c, s)
    ensures CanRun(c, s, steps) && Stuck(After(c, s, steps))
    decreases Sum(s.adders, Leftover(c))
  {
    if Stuck(s) {
      steps := [];
    } else {
      var i: nat :| Enabled(s, i);
      StepLeft(o, c, s, i);
      StepKeepsInv(o, c, s, i);
      var rest := DriveToStuck(o, c, Exec(c, s, i));
      steps := [i] + rest;
      assert steps[1..] == rest;
    }
  }

  /** Six statements an iteration and two to return: no schedule of the adders is longer. */
  lemma {:induction false} RunIsBounded(c: Config, s: State, steps: seq<nat>)
    requires Spawned(s) && c.threshold < WORD && CanRun(c, s, steps)
    ensures |steps| <= |s.adders| * (6 * c.loops + 2)
  {
    var o := Origin(s.total, s.counter);
    SpawnedInv(c, s);
    RunLeft(o, c, s, steps);
    RunKeepsInv(o, c, s, steps);
    LeftBounds(c, s.adders);
    LeftBounds(c, After(c, s, steps).adders);
  }
}
