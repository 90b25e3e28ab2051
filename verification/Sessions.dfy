/** Properties of every history of requests to the service provider. */
module Sessions {
  import opened Bytes
  import opened Crypto
  import opened KeyDerivation
  import opened Options
  import opened Protocol
  import opened Samples
  import opened ServiceProviders

  ghost predicate ValidCalls(calls: seq<Call>) {
    forall i | 0 <= i < |calls| :: ValidCall(calls[i])
  }

  ghost function Play(cfg: Config, st: SpState, calls: seq<Call>): SpState
    requires ValidCalls(calls)
  {
    if calls == [] then st else Next(cfg, Play(cfg, st, calls[..|calls| - 1]), calls[|calls| - 1])
  }

  lemma {:induction false} PlayConcat(cfg: Config, st: SpState, xs: seq<Call>, ys: seq<Call>)
    requires ValidCalls(xs) && ValidCalls(ys)
    ensures ValidCalls(xs + ys) && Play(cfg, st, xs + ys) == Play(cfg, Play(cfg, st, xs), ys)
  {
    if ys == [] {
      assert xs + ys == xs;
    } else {
      var n := |ys| - 1;
      assert (xs + ys)[..|xs + ys| - 1] == xs + ys[..n];
      PlayConcat(cfg, st, xs, ys[..n]);
    }
  }

  lemma {:induction false} PlayTwo(cfg: Config, st: SpState, one: Call, two: Call)
    requires ValidCall(one) && ValidCall(two)
    ensures ValidCalls([one, two]) && Play(cfg, st, [one, two]) == Next(cfg, Next(cfg, st, one), two)
  {
    assert [one, two][..1] == [one] && [one][..0] == [];
    assert Play(cfg, st, []) == st;
    assert Play(cfg, st, [one]) == Next(cfg, st, one);
  }

  // ---------------------------------------------------------------- registration

  /** The state stays safe: whatever fails, a registered provider can follow its group pointer. */
  lemma {:induction false} RegistrationIsSafe(cfg: Config, calls: seq<Call>)
    requires WellFormed(cfg) && ValidCalls(calls)
    ensures Safe(cfg, Play(cfg, LOADED, calls))
  {
    if calls != [] {
      RegistrationIsSafe(cfg, calls[..|calls| - 1]);
    }
  }

  /** A request that names a supported group and whose enrolment succeeds. */
  ghost predicate Enrols(cfg: Config, call: Call) {
    ValidCall(call) && call.Call0? && WellFormedCall(call)
    && Find(cfg.groups, ReadU32(call.msg.value)).Some? && !call.f.enroll
  }

  /** The provider is registered exactly if some earlier message 0 named a supported group and was enrolled. */
  lemma {:induction false} RegisteredIffEnrolled(cfg: Config, calls: seq<Call>)
    requires ValidCalls(calls)
    ensures Play(cfg, LOADED, calls).registered <==> exists i | 0 <= i < |calls| :: Enrols(cfg, calls[i])
  {
    if calls != [] {
      var n := |calls| - 1;
      RegisteredIffEnrolled(cfg, calls[..n]);
      if exists i | 0 <= i < n :: Enrols(cfg, calls[i]) {
        var i :| 0 <= i < n && Enrols(cfg, calls[i]);
        assert Enrols(cfg, calls[..n][i]);
      }
    }
  }

  /** Message 1 succeeds only after an enrolment, and exactly if none of its own calls fails. */
  lemma {:induction false} Message1NeedsEnrolment(cfg: Config, calls: seq<Call>, call: Call)
    requires ValidCalls(calls) && ValidCall(call) && call.Call1?
    ensures Code(cfg, Play(cfg, LOADED, calls), call) == SP_OK <==>
            && WellFormedCall(call)
            && (exists i | 0 <= i < |calls| :: Enrols(cfg, calls[i]))
            && (forall f | f in call.env.fails :: !Reachable(cfg.build, f))
  {
    RegisteredIffEnrolled(cfg, calls);
    CodeIsFirstFailure(cfg, call.env);
  }

  /** What is refused, with which code, and that it changes nothing: bad arguments, and a message 1 before any
      enrolment. */
  lemma Refused(cfg: Config, st: SpState, call: Call)
    requires ValidCall(call)
    ensures var bad := call.msg == None || !call.hasOut || call.size != if call.Call0? then 4 else 68;
            && (bad ==> Code(cfg, st, call) == -1 && Next(cfg, st, call) == st)
            && (!bad && call.Call1? && !st.registered ==> Code(cfg, st, call) == 1 && Next(cfg, st, call) == st)
            && (Accepted(st, call) <==> !bad && (call.Call1? ==> st.registered))
  {
  }

  /** Message 0 case by case, for the group whose id the four bytes are: a provider registered for that group does
      nothing; for a group not in the table it does nothing either; otherwise it moves its group pointer and,
      unless the enrolment fails, takes the SPID. The key ids are sent unless the enrolment or an allocation
      fails. */
  lemma Message0Cases(cfg: Config, st: SpState, call: Call)
    requires Safe(cfg, st) && ValidCall(call) && call.Call0? && WellFormedCall(call)
    ensures var m := call.msg.value;
            var id := m[0] as int + 0x100 * m[1] as int + 0x1_0000 * m[2] as int + 0x100_0000 * m[3] as int;
            var enrols := !RegisteredFor(cfg, st, id) && Find(cfg.groups, id).Some?;
            var sent := if call.f.allocate then 5 else 0;
            if !enrols then
              Next(cfg, st, call) == st && Code(cfg, st, call) == sent
            else
              var k := Find(cfg.groups, id).value;
              if call.f.enroll then
                Next(cfg, st, call) == st.(group := Some(k)) && Code(cfg, st, call) == 4
              else
                && Next(cfg, st, call) == st.(group := Some(k), spid := cfg.groups[k].spid, registered := true)
                && Code(cfg, st, call) == sent
  {
  }

  /** Message 1 of a registered provider: nothing but the session changes, field by field as far as the request
      comes. */
  lemma Message1Cases(cfg: Config, st: SpState, call: Call)
    requires ValidCall(call) && call.Call1? && Accepted(st, call)
    ensures var n, gA, before := First(cfg.build, call.env.fails), call.msg.value[..64], st.db;
            var after := Next(cfg, st, call).db;
            && Next(cfg, st, call) == st.(db := after)
            && after.gA == (if n > 0 then gA else before.gA)
            && after.b == (if n > 3 then call.env.key else before.b)
            && after.gB == (if n > 4 then cfg.suite.publicOf(call.env.key) else before.gB)
            && var keys := SessionKeys(cfg, cfg.suite.shared(call.env.key, gA));
               after.keys == if cfg.build == SuppliedKdf then
                               Keys(smk := if n >= 12 then keys.smk else before.keys.smk,
                                    sk := if n >= 12 then keys.sk else before.keys.sk,
                                    mk := if n >= 17 then keys.mk else before.keys.mk,
                                    vk := if n >= 17 then keys.vk else before.keys.vk)
                             else
                               Keys(smk := if n >= 10 then keys.smk else before.keys.smk,
                                    mk := if n >= 15 then keys.mk else before.keys.mk,
                                    sk := if n >= 20 then keys.sk else before.keys.sk,
                                    vk := if n >= 25 then keys.vk else before.keys.vk)
    ensures Code(cfg, st, call) == Msg1Code(cfg, call.env)
  {
    KeysByPosition(cfg.build, call.env.fails, SessionKeys(cfg, cfg.suite.shared(call.env.key, call.msg.value[..64])),
                   st.db.keys);
  }

  /** The provider is registered for the group that the message names. */
  predicate RegisteredFor(cfg: Config, st: SpState, id: nat) {
    st.registered && st.group.Some? && st.group.value < |cfg.groups| && cfg.groups[st.group.value].id == id
  }

  /** A successful reply to message 0 does not mean that the provider is registered for the group it asks for:
      it is so exactly if the group is supported; for any other group the reply still says `SP_OK`. */
  lemma ReplyIsNotRegistration(cfg: Config, st: SpState, call: Call)
    requires Safe(cfg, st) && ValidCall(call) && call.Call0? && Code(cfg, st, call) == SP_OK
    ensures var id := ReadU32(call.msg.value);
            RegisteredFor(cfg, Next(cfg, st, call), id) <==> Find(cfg.groups, id).Some?
  {
  }

  /** After every history, a reply `SP_OK` to a message 0 for this group means being registered for it. */
  ghost predicate ReplyPromises(cfg: Config, id: nat) {
    forall calls, call |
        && ValidCalls(calls) && ValidCall(call) && call.Call0?
        && Code(cfg, Play(cfg, LOADED, calls), call) == SP_OK && ReadU32(call.msg.value) == id ::
      RegisteredFor(cfg, Next(cfg, Play(cfg, LOADED, calls), call), id)
  }

  /** A message 0 for the group, without a failure. */
  function AskFor(id: nat): Call {
    Call0(Some(U32(id)), MSG0_SIZE, true, Msg0Faults(false, false))
  }

  lemma ReplyPromisesIff(cfg: Config, id: nat)
    requires WellFormed(cfg) && id < 0x1_0000_0000
    ensures ReplyPromises(cfg, id) <==> Find(cfg.groups, id).Some?
  {
    if Find(cfg.groups, id).Some? {
      forall calls, call |
          && ValidCalls(calls) && ValidCall(call) && call.Call0?
          && Code(cfg, Play(cfg, LOADED, calls), call) == SP_OK && ReadU32(call.msg.value) == id
        ensures RegisteredFor(cfg, Next(cfg, Play(cfg, LOADED, calls), call), id)
      {
        RegistrationIsSafe(cfg, calls);
        ReplyIsNotRegistration(cfg, Play(cfg, LOADED, calls), call);
      }
    } else {
      ReadU32OfU32(id);
      assert Play(cfg, LOADED, []) == LOADED;
      assert Code(cfg, Play(cfg, LOADED, []), AskFor(id)) == SP_OK;
    }
  }

  /** One input at which it fails: a table with group 0 only, freshly loaded and asked for group 1. */
  lemma GroupOneIsAnsweredOk(build: Build)
    ensures var cfg := ToyConfig(build);
            && WellFormed(cfg) && Safe(cfg, LOADED) && ValidCall(AskFor(1))
            && Code(cfg, LOADED, AskFor(1)) == SP_OK && !Next(cfg, LOADED, AskFor(1)).registered
  {
    ToyIsSuite();
    ReadU32OfU32(1);
  }

  /** With a one-entry table, once registered, neither the group pointer nor the SPID ever changes. */
  lemma {:induction false} RegistrationIsFinal(cfg: Config, calls: seq<Call>, later: seq<Call>)
    requires |cfg.groups| == 1 && ValidCalls(calls) && ValidCalls(later)
    requires Play(cfg, LOADED, calls).registered
    ensures ValidCalls(calls + later)
    ensures var now, after := Play(cfg, LOADED, calls), Play(cfg, LOADED, calls + later);
            && after.registered && after.group == now.group == Some(0)
            && after.spid == now.spid == cfg.groups[0].spid
  {
    OneEntry(cfg, calls);
    OneEntry(cfg, calls + later);
    if later != [] {
      var n := |later| - 1;
      assert (calls + later)[..|calls + later| - 1] == calls + later[..n];
      RegistrationIsFinal(cfg, calls, later[..n]);
    } else {
      assert calls + later == calls;
    }
  }

  lemma {:induction false} OneEntry(cfg: Config, calls: seq<Call>)
    requires |cfg.groups| == 1 && ValidCalls(calls)
    ensures var st := Play(cfg, LOADED, calls);
            && (st.group.Some? ==> st.group == Some(0))
            && (st.registered ==> st.group.Some? && st.spid == cfg.groups[0].spid)
  {
    if calls != [] { OneEntry(cfg, calls[..|calls| - 1]); }
  }

  ghost predicate HandsOut(cfg: Config, call: Call, spid: seq<byte>) {
    Enrols(cfg, call) && spid == cfg.groups[Find(cfg.groups, ReadU32(call.msg.value)).value].spid
  }

  lemma {:induction false} SpidWasHandedOut(cfg: Config, calls: seq<Call>)
    requires ValidCalls(calls)
    ensures var st := Play(cfg, LOADED, calls);
            st.registered ==> exists i | 0 <= i < |calls| :: HandsOut(cfg, calls[i], st.spid)
  {
    if calls != [] {
      var n := |calls| - 1;
      var before, after := Play(cfg, LOADED, calls[..n]), Play(cfg, LOADED, calls);
      SpidWasHandedOut(cfg, calls[..n]);
      if before.registered && after.spid == before.spid {
        var i :| 0 <= i < n && HandsOut(cfg, calls[..n][i], before.spid);
        assert HandsOut(cfg, calls[i], after.spid);
      } else if after.registered {
        assert HandsOut(cfg, calls[n], after.spid);
      }
    }
  }

  /** The SPID in message 2 was handed out by an earlier enrolment; with a one-entry table it is that entry's. */
  lemma {:induction false} Message2CarriesEnrolledSpid(cfg: Config, calls: seq<Call>, call: Call,
                                                       sigRl: seq<byte>, m: Msg2)
    requires ValidCalls(calls) && ValidCall(call) && call.Call1?
    requires Code(cfg, Play(cfg, LOADED, calls), call) == SP_OK
    requires Consistent(cfg, Next(cfg, Play(cfg, LOADED, calls), call), sigRl, m)
    ensures exists i | 0 <= i < |calls| :: HandsOut(cfg, calls[i], m.spid)
    ensures |cfg.groups| == 1 ==> m.spid == cfg.groups[0].spid
  {
    SpidWasHandedOut(cfg, calls);
  }

  /** A registered provider presents the SPID of the group it points at. */
  ghost predicate SpidFollowsGroup(cfg: Config) {
    forall calls | ValidCalls(calls) :: Faithful(cfg, Play(cfg, LOADED, calls))
  }

  ghost predicate Faithful(cfg: Config, st: SpState) {
    st.registered ==> st.group.Some? && st.group.value < |cfg.groups| && st.spid == cfg.groups[st.group.value].spid
  }

  ghost predicate WordIds(cfg: Config) {
    forall i | 0 <= i < |cfg.groups| :: cfg.groups[i].id < 0x1_0000_0000
  }

  /** The entry can be found: no earlier one has its id. */
  predicate Live(cfg: Config, i: nat) {
    i < |cfg.groups| && Find(cfg.groups, cfg.groups[i].id) == Some(i)
  }

  ghost predicate SameSpids(cfg: Config) {
    forall i: nat, j: nat | Live(cfg, i) && Live(cfg, j) :: cfg.groups[i].spid == cfg.groups[j].spid
  }

  function Named(cfg: Config, i: nat, enrollFails: bool): Call
    requires i < |cfg.groups|
  {
    Call0(Some(U32(cfg.groups[i].id)), MSG0_SIZE, true, Msg0Faults(enrollFails, false))
  }

  /** In a larger table the pointer moves before the enrolment is known to succeed: the SPID always belongs to
      the group pointed at exactly if all entries that can be found hand out the same SPID. */
  lemma SpidFollowsGroupIff(cfg: Config)
    requires WordIds(cfg)
    ensures SpidFollowsGroup(cfg) <==> SameSpids(cfg)
  {
    if SameSpids(cfg) {
      forall calls | ValidCalls(calls) ensures Faithful(cfg, Play(cfg, LOADED, calls)) {
        EqualSpids(cfg, calls);
      }
    } else {
      var i: nat, j: nat :| Live(cfg, i) && Live(cfg, j) && cfg.groups[i].spid != cfg.groups[j].spid;
      StaleSpid(cfg, i, j);
    }
  }

  lemma {:induction false} EqualSpids(cfg: Config, calls: seq<Call>)
    requires ValidCalls(calls) && SameSpids(cfg)
    ensures var st := Play(cfg, LOADED, calls);
            Faithful(cfg, st) && (st.group.Some? ==> Live(cfg, st.group.value))
  {
    if calls != [] { EqualSpids(cfg, calls[..|calls| - 1]); }
  }

  /** Enrolled under one group, then asked for another whose enrolment fails. */
  lemma StaleSpid(cfg: Config, i: nat, j: nat)
    requires WordIds(cfg) && Live(cfg, i) && Live(cfg, j) && cfg.groups[i].spid != cfg.groups[j].spid
    ensures !SpidFollowsGroup(cfg)
  {
    var one, two := Named(cfg, i, false), Named(cfg, j, true);
    ReadU32OfU32(cfg.groups[i].id);
    ReadU32OfU32(cfg.groups[j].id);
    var s1 := Next(cfg, LOADED, one);
    assert s1.registered && s1.group == Some(i) && s1.spid == cfg.groups[i].spid;
    var s2 := Next(cfg, s1, two);
    assert s2.registered && s2.group == Some(j) && s2.spid == cfg.groups[i].spid;
    PlayTwo(cfg, LOADED, one, two);
    assert !Faithful(cfg, Play(cfg, LOADED, [one, two]));
  }

  // ---------------------------------------------------------------- sessions

  /** An accepted message 1 that comes as far as the last key, whatever fails after that. */
  ghost predicate Establishes(cfg: Config, st: SpState, call: Call) {
    ValidCall(call) && call.Call1? && Accepted(st, call) && First(cfg.build, call.env.fails) >= 27
  }

  lemma SuccessEstablishes(cfg: Config, st: SpState, call: Call)
    requires ValidCall(call) && call.Call1? && Code(cfg, st, call) == SP_OK
    ensures Establishes(cfg, st, call)
  {
    CodeByPosition(cfg, call.env);
  }

  /** Any request but a message 1 that gets as far as storing its `g_a`. */
  ghost predicate Quiet(cfg: Config, call: Call) {
    ValidCall(call) && (call.Call1? ==> !WellFormedCall(call) || First(cfg.build, call.env.fails) == 0)
  }

  lemma QuietKeeps(cfg: Config, st: SpState, call: Call)
    requires Quiet(cfg, call)
    ensures Next(cfg, st, call).db == st.db
  {
  }

  /** From a message 1 that derives its keys until the next one that stores anything, the stored keys, key pair
      and `g_a` belong to that one session, whatever other requests come in between. */
  lemma {:induction false} KeysOutliveRequests(cfg: Config, st: SpState, call: Call, later: seq<Call>)
    requires Establishes(cfg, st, call) && ValidCalls(later)
    requires forall i | 0 <= i < |later| :: Quiet(cfg, later[i])
    ensures var db := Play(cfg, Next(cfg, st, call), later).db;
            && KeysMatch(cfg, db) && db.gA == call.msg.value[..64] && db.b == call.env.key
  {
    if later == [] {
      EstablishedMatches(cfg, st.db, call.msg.value[..64], call.env);
    } else {
      var n := |later| - 1;
      KeysOutliveRequests(cfg, st, call, later[..n]);
      QuietKeeps(cfg, Play(cfg, Next(cfg, st, call), later[..n]), later[n]);
    }
  }

  /** Over a whole history: if the last message 1 that stored anything derived its keys, the stored state is
      that one session. */
  lemma {:induction false} LastSuccessOwnsState(cfg: Config, calls: seq<Call>, k: nat)
    requires ValidCalls(calls) && k < |calls| && Establishes(cfg, Play(cfg, LOADED, calls[..k]), calls[k])
    requires forall i | k < i < |calls| :: Quiet(cfg, calls[i])
    ensures var db := Play(cfg, LOADED, calls).db;
            KeysMatch(cfg, db) && db.gA == calls[k].msg.value[..64] && db.b == calls[k].env.key
  {
    var past, later := calls[..k + 1], calls[k + 1..];
    assert calls == past + later && past[..k] == calls[..k];
    PlayConcat(cfg, LOADED, past, later);
    KeysOutliveRequests(cfg, Play(cfg, LOADED, calls[..k]), calls[k], later);
  }

  /** In particular, while nothing has been stored since a message 1 that was answered `SP_OK`. */
  lemma {:induction false} LastOkOwnsState(cfg: Config, calls: seq<Call>, k: nat)
    requires ValidCalls(calls) && k < |calls| && calls[k].Call1?
    requires Code(cfg, Play(cfg, LOADED, calls[..k]), calls[k]) == SP_OK
    requires forall i | k < i < |calls| :: Quiet(cfg, calls[i])
    ensures var db := Play(cfg, LOADED, calls).db;
            KeysMatch(cfg, db) && db.gA == calls[k].msg.value[..64] && db.b == calls[k].env.key
  {
    SuccessEstablishes(cfg, Play(cfg, LOADED, calls[..k]), calls[k]);
    LastSuccessOwnsState(cfg, calls, k);
  }

  /** What must hold for the stored session to survive a message 1 that stops at position `n`: it wrote nothing,
      or it wrote a whole session, or what it wrote happens to agree with what it left. */
  ghost predicate Survives(cfg: Config, db: Db, gA: seq<byte>, env: Msg1Env) {
    var n, keys := First(cfg.build, env.fails), SessionKeys(cfg, cfg.suite.shared(env.key, gA));
    || n == 0
    || (1 <= n <= 3 && SessionKeys(cfg, cfg.suite.shared(db.b, gA)) == db.keys)
    || (n == 4 && cfg.suite.publicOf(env.key) == db.gB && keys == db.keys)
    || (5 <= n < 27 && KeysAt(cfg.build, env.fails, keys, db.keys) == keys)
    || n >= 27
  }

  /** A message 1 that fails keeps the writes it made, and this is exactly when they do not mix two sessions. */
  lemma SessionSurvivesIff(cfg: Config, st: SpState, call: Call)
    requires ValidCall(call) && call.Call1? && Accepted(st, call) && KeysMatch(cfg, st.db)
    ensures KeysMatch(cfg, Next(cfg, st, call).db) <==> Survives(cfg, st.db, call.msg.value[..64], call.env)
  {
    if First(cfg.build, call.env.fails) >= 27 {
      EstablishedMatches(cfg, st.db, call.msg.value[..64], call.env);
    }
  }

  /** Whatever the primitives, the table and the history, a message 1 whose calls fail like this leaves a stored
      session intact. */
  ghost predicate KeepsSessions(build: Build, fails: set<Site>) {
    forall cfg, calls, call |
        && WellFormed(cfg) && Agreeing(cfg.suite) && cfg.build == build
        && ValidCalls(calls) && ValidCall(call) && call.Call1? && call.env.fails == fails
        && Accepted(Play(cfg, LOADED, calls), call) && KeysMatch(cfg, Play(cfg, LOADED, calls).db) ::
      KeysMatch(cfg, Next(cfg, Play(cfg, LOADED, calls), call).db)
  }

  /** A message 1 is safe for the stored session exactly if it fails before its first write or after its last. */
  lemma KeepsSessionsIff(build: Build, fails: set<Site>)
    ensures KeepsSessions(build, fails) <==> First(build, fails) == 0 || First(build, fails) >= 27
  {
    if 0 < First(build, fails) < 27 {
      FailureLeavesMixture(build, fails);
    } else {
      forall cfg, calls, call |
          && WellFormed(cfg) && Agreeing(cfg.suite) && cfg.build == build
          && ValidCalls(calls) && ValidCall(call) && call.Call1? && call.env.fails == fails
          && Accepted(Play(cfg, LOADED, calls), call) && KeysMatch(cfg, Play(cfg, LOADED, calls).db)
        ensures KeysMatch(cfg, Next(cfg, Play(cfg, LOADED, calls), call).db)
      {
        SessionSurvivesIff(cfg, Play(cfg, LOADED, calls), call);
      }
    }
  }

  /** One enrolment and one successful message 1. */
  function OneSession(): seq<Call> {
    [AskFor(0), Offer(0, {})]
  }

  /** Any failure in between mixes two sessions: after one session of the toy suite, a second message 1 that
      fails like this leaves keys that do not belong to the stored key pair and `g_a`. */
  lemma FailureLeavesMixture(build: Build, fails: set<Site>)
    requires 0 < First(build, fails) < 27
    ensures ValidCalls(OneSession()) && ValidCall(Offer(1, fails))
    ensures var cfg := ToyConfig(build);
            var st := Play(cfg, LOADED, OneSession());
            && WellFormed(cfg) && Agreeing(cfg.suite) && Accepted(st, Offer(1, fails))
            && KeysMatch(cfg, st.db) && !KeysMatch(cfg, Next(cfg, st, Offer(1, fails)).db)
            && Code(cfg, st, Offer(1, fails)) != SP_OK
  {
    hide KeysMatch, Survives, Play, Next, Msg1Code, First, Sized, Agreeing;
    ToyIsSuite();
    var st := PlayOneSession(build);
    var call := Offer(1, fails);
    OfferIsValid(1, fails);
    SecondOfferMixes(build, st.db, call.env);
    SessionSurvivesIff(ToyConfig(build), st, call);
    CodeByPosition(ToyConfig(build), call.env);
  }

  /** Beside the first session's keys neither of the two secrets of a second one fits, nor does its `g_b`. */
  lemma SecondOfferMixes(build: Build, db: Db, env: Msg1Env)
    requires KeysMatch(ToyConfig(build), db) && db.gA == Fill(64, 0) && db.b == Fill(32, 0)
    requires 0 < First(build, env.fails) < 27 && env.key == Fill(32, 1)
    ensures !Survives(ToyConfig(build), db, Fill(64, 1), env)
  {
    VkIsLast(build, env.fails);
    ToySecrets();
    ToyKeys(build, 0);
    ToyKeys(build, 1);
    ToyKeys(build, 2);
    assert db.keys.vk[0] != SessionKeys(ToyConfig(build), Fill(32, 1)).vk[0];
    assert db.keys.vk[0] != SessionKeys(ToyConfig(build), Fill(32, 2)).vk[0];
    assert db.gB[0] != TOY.publicOf(env.key)[0];
  }

  /** The last call that the keys depend on is the one that yields VK. */
  lemma VkIsLast(build: Build, fails: set<Site>)
    requires First(build, fails) < 27
    ensures !Passed(build, fails, KeySite(build, 3))
  {
    var f := FirstIsReachable(build, fails);
  }

  lemma PlayOneSession(build: Build) returns (st: SpState)
    ensures ValidCalls(OneSession()) && st == Play(ToyConfig(build), LOADED, OneSession())
    ensures st.registered && KeysMatch(ToyConfig(build), st.db)
    ensures st.db.gA == Fill(64, 0) && st.db.b == Fill(32, 0)
  {
    var cfg, first := ToyConfig(build), Offer(0, {});
    ReadU32OfU32(0);
    OfferIsValid(0, {});
    PlayTwo(cfg, LOADED, AskFor(0), first);
    var s1 := Next(cfg, LOADED, AskFor(0));
    assert s1.registered;
    st := Next(cfg, s1, first);
    EstablishedMatches(cfg, s1.db, Fill(64, 0), first.env);
  }

  // ---------------------------------------------------------------- key agreement

  /** Both sides of a session hold the same four keys in the same roles, and the derivation id in message 2 is
      the one the enclave accepts: for every private key `a` of the enclave and whatever key pair the provider
      created. */
  lemma KeysAgree(cfg: Config, st: SpState, sigRl: seq<byte>, m: Msg2, a: seq<byte>)
    requires Agreeing(cfg.suite) && cfg.build == SuppliedKdf
    requires Consistent(cfg, st, sigRl, m) && st.db.gA == cfg.suite.publicOf(a)
    ensures m.kdfId == ISV_KDF_ID
    ensures SuppliedKeys(cfg.suite, cfg.suite.shared(a, m.gB)) == st.db.keys
  {
    assert cfg.suite.shared(a, cfg.suite.publicOf(st.db.b)) == cfg.suite.shared(st.db.b, cfg.suite.publicOf(a));
  }

  lemma AnsweredIff(cfg: Config, st: SpState, call: Call)
    requires ValidCall(call) && call.Call1? && WellFormedCall(call)
    ensures Code(cfg, st, call) == SP_OK <==>
            st.registered && forall f | f in call.env.fails :: !Reachable(cfg.build, f)
  {
    CodeIsFirstFailure(cfg, call.env);
  }

  /** The exchange end to end: the enclave's public key in message 1, the provider's handler, then the
      enclave's derivation on message 2. If both return success, both hold the same keys. */
  method Handshake(sp: ServiceProvider, a: seq<byte>, gid: seq<byte>, env: Msg1Env, f: ShaFaults, g: ShaFaults)
    returns (ret: int, status: SgxStatus, keys: Keys)
    requires sp.Valid() && sp.cfg.build == SuppliedKdf && Agreeing(sp.cfg.suite) && |gid| == 4
    requires MSG2_SIZE + |env.sigRl| < 0x1_0000_0000
    modifies sp, sp.lib
    ensures sp.Valid()
    ensures ret == SP_OK ==> (status == SgxSuccess <==> !f.Any() && !g.Any())
    ensures ret == SP_OK && status == SgxSuccess ==> keys == sp.View().db.keys
    ensures ret == SP_OK <==> old(sp.registered) && forall f | f in env.fails :: !Reachable(SuppliedKdf, f)
  {
    hide Consistent, Next, Code, Reachable;
    var msg1 := sp.cfg.suite.publicOf(a) + gid;
    assert msg1[..64] == sp.cfg.suite.publicOf(a);
    AnsweredIff(sp.cfg, sp.View(), Call1(Some(msg1), MSG1_SIZE, true, env));
    var out;
    ret, out := sp.ProcMsg1(Some(msg1), MSG1_SIZE, true, env);
    status, keys := Unexpected, Keys([], [], [], []);
    if ret == SP_OK {
      var m := out.response.msg2;
      KeysAgree(sp.cfg, sp.View(), env.sigRl, m, a);
      var secret := sp.cfg.suite.shared(a, m.gB);
      var dhKey := ToArray(secret);
      status, keys := EnclaveKeyDerivation(sp.lib, dhKey, m.kdfId, f, g);
    }
  }
}
