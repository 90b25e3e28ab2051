/** The dispatcher that stands for the network, and the client that drives an attestation through it. */
module Client {
  import opened Bytes
  import opened Crypto
  import opened Options
  import opened Protocol
  import opened Samples
  import opened ServiceProviders
  import opened Sums

  /** A request header with its body. */
  datatype Request = Request(kind: nat, size: nat, body: seq<byte>)

  datatype Buffer = Buffer(block: nat, response: Response)

  /** `ra_network_send_receive`. The caller's response pointer, `before`, is overwritten only on success. */
  method SendReceive(sp: ServiceProvider, url: bool, req: Option<Request>, hasResp: bool, before: Option<Buffer>,
                     f: Msg0Faults, env: Msg1Env)
    returns (ret: int, resp: Option<Buffer>)
    requires sp.Valid() && (req.Some? ==> |req.value.body| == req.value.size)
    requires MSG2_SIZE + |env.sigRl| < 0x1_0000_0000
    modifies sp, sp.lib
    ensures sp.Valid() && sp.lib.ecc == old(sp.lib.ecc) && sp.lib.sha == old(sp.lib.sha)
    ensures var sent := url && req.Some? && hasResp;
            if sent && (req.value.kind == 0 || req.value.kind == 1) then
              var call := if req.value.kind == 0 then Call0(Some(req.value.body), req.value.size, true, f)
                          else Call1(Some(req.value.body), req.value.size, true, env);
              && ret == Code(sp.cfg, old(sp.View()), call)
              && sp.View() == Next(sp.cfg, old(sp.View()), call)
            else
              ret == -1 && sp.View() == old(sp.View())
    ensures if ret == SP_OK
            then resp.Some? && resp.value.block !in old(sp.lib.blocks)
                 && sp.lib.blocks == old(sp.lib.blocks) + {resp.value.block}
            else resp == before && sp.lib.blocks == old(sp.lib.blocks)
    ensures ret == SP_OK && req.value.kind == TYPE_RA_MSG0 ==>
      resp.value.response == KeyIdList(TYPE_RA_MSG0, |sp.cfg.keyIds|, sp.cfg.keyIds)
    ensures ret == SP_OK && req.value.kind == TYPE_RA_MSG1 ==>
      && resp.value.response.Message2?
      && resp.value.response.kind == TYPE_RA_MSG2
      && resp.value.response.size == |Encode(resp.value.response.msg2)|
      && Consistent(sp.cfg, sp.View(), env.sigRl, resp.value.response.msg2)
      && sp.registered && sp.gA == req.value.body[..64]
  {
    resp := before;
    if !url || req.None? || !hasResp { return -1, resp; }
    var r := req.value;
    ret := -1;
    var out;
    if r.kind == TYPE_RA_MSG0 {
      ret, out := sp.ProcMsg0(Some(r.body), r.size, true, f);
      if ret == SP_OK { resp := Some(Buffer(out.block, out.response)); }
    } else if r.kind == TYPE_RA_MSG1 {
      ret, out := sp.ProcMsg1(Some(r.body), r.size, true, env);
      if ret == SP_OK { resp := Some(Buffer(out.block, out.response)); }
    }
  }

  function CallOf(r: Request, f: Msg0Faults, env: Msg1Env): Call {
    if r.kind == TYPE_RA_MSG0 then Call0(Some(r.body), r.size, true, f) else Call1(Some(r.body), r.size, true, env)
  }

  // ---------------------------------------------------------------- the client's environment

  datatype Status = Success | Busy | EnclaveLost | OtherError

  /** `enclave_init_ra`: the call's and the enclave's status, and whether a context was handed out. */
  datatype InitResult = InitResult(ret: Status, status: Status, context: bool)

  /** Outcomes of everything the client calls; functions give the outcome of each attempt. `msg3` is whether an
      attempt to process message 2 stores a message 3 into the client's pointer. */
  datatype Sdk = Sdk(
    allocate0: bool, faults0: Msg0Faults, select: Status,
    create: nat -> Status, init: nat -> InitResult,
    allocate1: bool, getMsg1: nat -> Status, msg1: seq<byte>, env: Msg1Env,
    procMsg2: nat -> Status, msg3: nat -> bool)

  predicate ValidSdk(sdk: Sdk) {
    |sdk.msg1| == MSG1_SIZE && MSG2_SIZE + |sdk.env.sigRl| < 0x1_0000_0000
  }

  /** The outcome of an attempt. */
  function Nth<T>(outcome: nat -> T, k: nat): T { outcome(k) }

  /** The attempt at which a loop that retries while busy ends: the first that is not busy, or the last allowed. */
  function LastTry(outcome: nat -> Status, k: nat, retries: nat): nat
    decreases retries
  {
    if Nth(outcome, k) == Busy && retries > 0 then LastTry(outcome, k + 1, retries - 1) else k
  }

  lemma {:induction false} LastTryBounds(outcome: nat -> Status, k: nat, retries: nat)
    ensures k <= LastTry(outcome, k, retries) <= k + retries
    decreases retries
  {
    if Nth(outcome, k) == Busy && retries > 0 { LastTryBounds(outcome, k + 1, retries - 1); }
  }

  /** How many attempts such a loop makes. */
  function Tries(outcome: nat -> Status, retries: nat): (n: nat)
    ensures 0 < n <= retries + 1
  {
    LastTryBounds(outcome, 0, retries);
    LastTry(outcome, 0, retries) + 1
  }

  /** The attempt at which the enclave loop ends: at most one retry, when the enclave was lost. */
  function LastEnclave(sdk: Sdk): nat {
    if Nth(sdk.create, 0) == Success && Nth(sdk.init, 0).ret == EnclaveLost then 1 else 0
  }

  predicate EnclaveUp(sdk: Sdk) {
    var k := LastEnclave(sdk);
    Nth(sdk.create, k) == Success && Nth(sdk.init, k).ret == Success && Nth(sdk.init, k).status == Success
  }

  function ContextAt(sdk: Sdk, k: nat): nat { Flag(Nth(sdk.create, k) == Success && Nth(sdk.init, k).context) }

  /** How many contexts the attempts hand out. Each one overwrites the handle of the one before. */
  function Contexts(sdk: Sdk): (n: nat)
    ensures n <= LastEnclave(sdk) + 1
  {
    ContextAt(sdk, 0) + if LastEnclave(sdk) == 1 then ContextAt(sdk, 1) else 0
  }

  /** Creates the enclave and its attestation context. */
  method StartEnclave(sdk: Sdk) returns (ok: bool, creates: nat, contexts: nat)
    ensures ok == EnclaveUp(sdk)
    ensures creates == LastEnclave(sdk) + 1 <= 2
    ensures contexts == Contexts(sdk)
  {
    var lostRetries, again := 1, true;
    var result := InitResult(OtherError, Success, false);
    creates, contexts := 0, 0;
    while again
      invariant again ==> creates == 1 - lostRetries && 0 <= lostRetries <= 1
      invariant again && creates == 1 ==> Nth(sdk.create, 0) == Success && Nth(sdk.init, 0).ret == EnclaveLost
      invariant again ==> contexts == if creates == 1 then ContextAt(sdk, 0) else 0
      invariant !again ==> creates == LastEnclave(sdk) + 1 <= 2 && Nth(sdk.create, creates - 1) == Success
                           && result == Nth(sdk.init, creates - 1) && contexts == Contexts(sdk)
      decreases if again then lostRetries + 1 else 0
    {
      var ret := Nth(sdk.create, creates);
      creates := creates + 1;
      if ret != Success { return false, creates, contexts; }
      result := Nth(sdk.init, creates - 1);
      if result.context { contexts := contexts + 1; }
      again := result.ret == EnclaveLost && lostRetries != 0;
      if result.ret == EnclaveLost { lostRetries := lostRetries - 1; }
    }
    ok := result.ret == Success && result.status == Success;
  }

  /** A do-while loop that repeats an SDK call while it is busy and retries are left. */
  method RetryWhileBusy(outcome: nat -> Status, retries: nat) returns (ret: Status, tries: nat)
    ensures tries == Tries(outcome, retries)
    ensures ret == Nth(outcome, tries - 1)
    ensures forall k | 0 <= k < tries - 1 :: Nth(outcome, k) == Busy
  {
    var left: int := retries;
    ret := Nth(outcome, 0);
    tries := 1;
    while ret == Busy && left != 0
      invariant 0 <= left && tries == retries - left + 1
      invariant ret == Nth(outcome, tries - 1)
      invariant forall k | 0 <= k < tries - 1 :: Nth(outcome, k) == Busy
      invariant LastTry(outcome, 0, retries) == LastTry(outcome, tries - 1, left)
      decreases left
    {
      left := left - 1;
      ret := Nth(outcome, tries);
      tries := tries + 1;
    }
  }

  // ---------------------------------------------------------------- the client

  /** How often a run tried what, and how many contexts it was given. */
  datatype Progress = Progress(creates: nat, contexts: nat, asks: nat, procs: nat)

  /** What a run did, what it handed to `sgx_ra_proc_msg2_ex`, and how it ended. */
  datatype Outcome = Outcome(finished: bool, progress: Progress, handed: Option<Msg2>, wrongType: bool,
                             closes: nat, kept: set<nat>)

  /** The two requests the client sends. */
  function Request0(): Request { Request(TYPE_RA_MSG0, MSG0_SIZE, U32(0)) }

  function Request1(sdk: Sdk): Request { Request(TYPE_RA_MSG1, MSG1_SIZE, sdk.msg1) }

  /** Message 0 is answered and an attestation key is chosen. */
  ghost predicate PassesMessage0(cfg: Config, st: SpState, sdk: Sdk)
    requires ValidSdk(sdk)
  {
    !sdk.allocate0 && Code(cfg, st, CallOf(Request0(), sdk.faults0, sdk.env)) == SP_OK && sdk.select == Success
  }

  /** The provider once the client has sent message 0, if it could. */
  ghost function AfterRegister(cfg: Config, st: SpState, sdk: Sdk): SpState
    requires ValidSdk(sdk)
  {
    if sdk.allocate0 then st else Next(cfg, st, CallOf(Request0(), sdk.faults0, sdk.env))
  }

  /** The provider once the client has sent message 1, if it could. */
  ghost function AfterRequest(cfg: Config, st: SpState, sdk: Sdk): SpState
    requires ValidSdk(sdk)
  {
    if sdk.allocate1 || Nth(sdk.getMsg1, Tries(sdk.getMsg1, 4) - 1) != Success then st
    else Next(cfg, st, CallOf(Request1(sdk), sdk.faults0, sdk.env))
  }

  /** The provider after a run. */
  ghost function AfterRun(cfg: Config, st: SpState, sdk: Sdk): SpState
    requires ValidSdk(sdk)
  {
    var after := AfterRegister(cfg, st, sdk);
    if PassesMessage0(cfg, st, sdk) && EnclaveUp(sdk) then AfterRequest(cfg, after, sdk) else after
  }

  /** Message 1 is produced within the retries and answered with message 2. */
  ghost predicate ObtainsMessage2(cfg: Config, st: SpState, sdk: Sdk)
    requires ValidSdk(sdk)
  {
    && !sdk.allocate1 && Nth(sdk.getMsg1, Tries(sdk.getMsg1, 4) - 1) == Success
    && Code(cfg, st, CallOf(Request1(sdk), sdk.faults0, sdk.env)) == SP_OK
  }

  /** How many of the first `n` attempts at message 2 store a message 3. */
  function Stores(msg3: nat -> bool, n: nat): nat {
    if n == 0 then 0 else Stores(msg3, n - 1) + if Nth(msg3, n - 1) then 1 else 0
  }

  /** Message 2 is processed within the retries, and one of the attempts has yielded a message 3. */
  predicate ProcessesMessage2(sdk: Sdk, retries: nat) {
    var n := Tries(sdk.procMsg2, retries);
    Nth(sdk.procMsg2, n - 1) == Success && Stores(sdk.msg3, n) > 0
  }

  /** Everything up to message 2 goes right. */
  ghost predicate Reaches(cfg: Config, st: SpState, sdk: Sdk)
    requires ValidSdk(sdk)
  {
    PassesMessage0(cfg, st, sdk) && EnclaveUp(sdk) && ObtainsMessage2(cfg, AfterRegister(cfg, st, sdk), sdk)
  }

  /** Everything that has to go right. */
  ghost predicate Succeeds(cfg: Config, st: SpState, sdk: Sdk)
    requires ValidSdk(sdk)
  {
    Reaches(cfg, st, sdk) && ProcessesMessage2(sdk, 2)
  }

  /** What a run tries, stage by stage. */
  ghost function Tally(cfg: Config, st: SpState, sdk: Sdk): (p: Progress)
    requires ValidSdk(sdk)
    ensures p.contexts <= p.creates <= 2 && p.asks <= 5 && p.procs <= 3
    ensures p.procs > 0 ==> p.asks > 0
    ensures p.asks > 0 ==> p.creates > 0
  {
    var passes := PassesMessage0(cfg, st, sdk);
    Progress(if passes then LastEnclave(sdk) + 1 else 0,
             if passes then Contexts(sdk) else 0,
             if passes && EnclaveUp(sdk) && !sdk.allocate1 then Tries(sdk.getMsg1, 4) else 0,
             if Reaches(cfg, st, sdk) then Tries(sdk.procMsg2, 2) else 0)
  }

  /** A run that leaves nothing behind: it fails, was handed at most one context, and at most one message 3. */
  ghost predicate LeavesNothing(cfg: Config, st: SpState, sdk: Sdk)
    requires ValidSdk(sdk)
  {
    && !Succeeds(cfg, st, sdk)
    && (PassesMessage0(cfg, st, sdk) ==> Contexts(sdk) <= 1)
    && (Reaches(cfg, st, sdk) ==> Stores(sdk.msg3, Tries(sdk.procMsg2, 2)) <= 1)
  }

  /** A loop that repeats a call while it is busy stops at the first attempt that is not, or when it is out of
      retries. */
  lemma {:induction false} TriesExactly(outcome: nat -> Status, retries: nat)
    ensures var n := Tries(outcome, retries);
            && (forall k: nat | k < n - 1 :: outcome(k) == Busy)
            && (outcome(n - 1) == Busy ==> n == retries + 1)
  {
    TriesFrom(outcome, 0, retries);
  }

  lemma {:induction false} TriesFrom(outcome: nat -> Status, k: nat, retries: nat)
    ensures var last := LastTry(outcome, k, retries);
            && k <= last
            && (forall i: nat | k <= i < last :: outcome(i) == Busy)
            && (outcome(last) == Busy ==> last == k + retries)
    decreases retries
  {
    if Nth(outcome, k) == Busy && retries > 0 { TriesFrom(outcome, k + 1, retries - 1); }
  }

  /** As many as the attempts that store one. */
  lemma {:induction false} StoresCounts(msg3: nat -> bool, n: nat)
    ensures Stores(msg3, n) == |set k: nat | k < n && msg3(k)|
  {
    if n == 0 {
      assert (set k: nat | k < n && msg3(k)) == {};
    } else {
      StoresCounts(msg3, n - 1);
      var rest := set k: nat | k < n - 1 && msg3(k);
      assert (set k: nat | k < n && msg3(k)) == if msg3(n - 1) then rest + {n - 1} else rest;
    }
  }

  lemma {:induction false} StoresSome(msg3: nat -> bool, n: nat)
    ensures Stores(msg3, n) > 0 <==> exists k: nat :: k < n && msg3(k)
  {
    StoresCounts(msg3, n);
    var all := set k: nat | k < n && msg3(k);
    if k: nat :| k < n && msg3(k) { assert k in all; }
  }

  /** What it takes to finish, call by call: both messages are allocated and answered with success, and the last
      attempt at every call to the SDK succeeds; some attempt at message 2 stores a message 3. */
  lemma SucceedsIff(cfg: Config, st: SpState, sdk: Sdk)
    requires ValidSdk(sdk)
    ensures var p := Tally(cfg, st, sdk);
            var ask0 := Call0(Some([0, 0, 0, 0]), 4, true, sdk.faults0);
            var ask1 := Call1(Some(sdk.msg1), 68, true, sdk.env);
            Succeeds(cfg, st, sdk) <==>
              && !sdk.allocate0 && Code(cfg, st, ask0) == 0 && sdk.select == Success
              && p.creates > 0 && sdk.create(p.creates - 1) == Success
              && sdk.init(p.creates - 1).ret == Success && sdk.init(p.creates - 1).status == Success
              && !sdk.allocate1 && p.asks > 0 && sdk.getMsg1(p.asks - 1) == Success
              && Code(cfg, Next(cfg, st, ask0), ask1) == 0
              && p.procs > 0 && sdk.procMsg2(p.procs - 1) == Success
              && exists k: nat :: k < p.procs && sdk.msg3(k)
  {
    assert U32(0) == [0, 0, 0, 0];
    hide Code, Next, Tries, U32;
    StoresSome(sdk.msg3, Tries(sdk.procMsg2, 2));
  }

  /** Which requests the provider has seen after a run: message 0 unless it could not be allocated, and then
      message 1 if it could be made. */
  lemma AfterRunIs(cfg: Config, st: SpState, sdk: Sdk)
    requires ValidSdk(sdk)
    ensures var ask0 := Call0(Some([0, 0, 0, 0]), 4, true, sdk.faults0);
            var ask1 := Call1(Some(sdk.msg1), 68, true, sdk.env);
            var p := Tally(cfg, st, sdk);
            AfterRun(cfg, st, sdk)
            == if sdk.allocate0 then st
               else if p.asks > 0 && sdk.getMsg1(p.asks - 1) == Success then Next(cfg, Next(cfg, st, ask0), ask1)
               else Next(cfg, st, ask0)
  {
    assert U32(0) == [0, 0, 0, 0];
    hide Code, Next, Tries, U32;
  }

  /** How far a run comes and how often it tries, call by call: the enclave is created once more exactly if the
      first one is lost on initialisation, a busy SDK is asked for message 1 at most five and with message 2 at
      most three times, and otherwise until it is no longer busy. */
  lemma TallyExactly(cfg: Config, st: SpState, sdk: Sdk)
    requires ValidSdk(sdk)
    ensures var p := Tally(cfg, st, sdk);
            var ask0 := Call0(Some([0, 0, 0, 0]), 4, true, sdk.faults0);
            var ask1 := Call1(Some(sdk.msg1), 68, true, sdk.env);
            && (p.creates > 0 <==> !sdk.allocate0 && Code(cfg, st, ask0) == 0 && sdk.select == Success)
            && (p.creates > 1 <==> p.creates > 0 && sdk.create(0) == Success && sdk.init(0).ret == EnclaveLost)
            && (p.asks > 0 <==>
                  && p.creates > 0 && sdk.create(p.creates - 1) == Success
                  && sdk.init(p.creates - 1).ret == Success && sdk.init(p.creates - 1).status == Success
                  && !sdk.allocate1)
            && (p.procs > 0 <==>
                  && p.asks > 0 && sdk.getMsg1(p.asks - 1) == Success
                  && Code(cfg, Next(cfg, st, ask0), ask1) == 0)
            && (forall k: nat | k < p.asks - 1 :: sdk.getMsg1(k) == Busy)
            && (p.asks > 0 && sdk.getMsg1(p.asks - 1) == Busy ==> p.asks == 5)
            && (forall k: nat | k < p.procs - 1 :: sdk.procMsg2(k) == Busy)
            && (p.procs > 0 && sdk.procMsg2(p.procs - 1) == Busy ==> p.procs == 3)
            && p.contexts == |set k: nat | k < p.creates && sdk.create(k) == Success && sdk.init(k).context|
  {
    assert U32(0) == [0, 0, 0, 0];
    hide Code, Next, Tries, U32;
    TriesExactly(sdk.getMsg1, 4);
    TriesExactly(sdk.procMsg2, 2);
    ContextsCount(sdk, Tally(cfg, st, sdk));
  }

  lemma ContextsCount(sdk: Sdk, p: Progress)
    requires (p.creates == 0 && p.contexts == 0)
             || (p.creates == LastEnclave(sdk) + 1 && p.contexts == Contexts(sdk))
    ensures p.contexts == |set k: nat | k < p.creates && sdk.create(k) == Success && sdk.init(k).context|
  {
    var all := set k: nat | k < p.creates && sdk.create(k) == Success && sdk.init(k).context;
    var first := if p.creates > 0 && sdk.create(0) == Success && sdk.init(0).context then {0} else {};
    var second := if p.creates > 1 && sdk.create(1) == Success && sdk.init(1).context then {1} else {};
    assert all == first + second;
    assert p.contexts == |first| + |second|;
  }

  // ---------------------------------------------------------------- what the client holds

  /** The buffers of a request and its response. */
  datatype Exchange = Exchange(request: Option<nat>, response: Option<Buffer>)

  /** The message 3 pointed at, and those that were overwritten. */
  datatype Message3 = Message3(held: Option<nat>, lost: set<nat>)

  function Held(p: Option<nat>): set<nat> { if p.Some? then {p.value} else {} }

  function HeldBlock(p: Option<Buffer>): set<nat> { if p.Some? then {p.value.block} else {} }

  function Owned(x: Exchange): set<nat> { Held(x.request) + HeldBlock(x.response) }

  /** The live blocks have grown by those of an exchange. */
  ghost predicate Took(x: Exchange, before: set<nat>, now: set<nat>) {
    Held(x.request) !! HeldBlock(x.response) && Owned(x) !! before && now == before + Owned(x)
  }

  predicate Full(x: Exchange) { x.request.Some? && x.response.Some? }

  /** The live blocks have grown by `n` messages 3, all but the last out of reach. */
  ghost predicate Stored(m: Message3, n: nat, before: set<nat>, now: set<nat>) {
    && m.lost !! Held(m.held) && (m.lost + Held(m.held)) !! before && now == before + m.lost + Held(m.held)
    && (m.held.Some? <==> n > 0) && |m.lost| == if n > 0 then n - 1 else 0
  }

  /** The message is for the client's own `g_a`, and consistent with the registered provider. */
  ghost predicate Genuine(cfg: Config, st: SpState, sdk: Sdk, m: Msg2)
    requires ValidSdk(sdk)
  {
    st.registered && st.db.gA == sdk.msg1[..64] && Consistent(cfg, st, sdk.env.sigRl, m)
  }

  /** The response to message 1 is a genuine message 2. */
  ghost predicate Received(cfg: Config, st: SpState, sdk: Sdk, x: Exchange)
    requires ValidSdk(sdk)
  {
    Full(x) && x.response.value.response.Message2? && Genuine(cfg, st, sdk, x.response.value.response.msg2)
  }

  // ---------------------------------------------------------------- the stages

  /** The exchange of message 0 and the choice of an attestation key. */
  method Register(sp: ServiceProvider, sdk: Sdk) returns (ok: bool, x: Exchange)
    requires sp.Valid() && ValidSdk(sdk)
    modifies sp, sp.lib
    ensures sp.Valid() && sp.lib.ecc == old(sp.lib.ecc) && sp.lib.sha == old(sp.lib.sha)
    ensures ok == PassesMessage0(sp.cfg, old(sp.View()), sdk)
    ensures ok ==> Full(x)
    ensures sp.View() == AfterRegister(sp.cfg, old(sp.View()), sdk)
    ensures Took(x, old(sp.lib.blocks), sp.lib.blocks)
  {
    ok, x := false, Exchange(None, None);
    var request := sp.lib.Malloc(sdk.allocate0);
    if request.None? { return; }
    var ret, response := SendReceive(sp, true, Some(Request0()), true, None, sdk.faults0, sdk.env);
    ok, x := ret == SP_OK && sdk.select == Success, Exchange(request, response);
  }

  /** The exchange of message 1 for message 2. */
  method RequestMessage2(sp: ServiceProvider, sdk: Sdk) returns (ok: bool, x: Exchange, asks: nat, wrongType: bool)
    requires sp.Valid() && ValidSdk(sdk)
    modifies sp, sp.lib
    ensures sp.Valid() && sp.lib.ecc == old(sp.lib.ecc) && sp.lib.sha == old(sp.lib.sha)
    ensures ok == ObtainsMessage2(sp.cfg, old(sp.View()), sdk)
    ensures asks == if sdk.allocate1 then 0 else Tries(sdk.getMsg1, 4)
    ensures sp.View() == AfterRequest(sp.cfg, old(sp.View()), sdk)
    ensures !wrongType && (ok ==> Received(sp.cfg, sp.View(), sdk, x))
    ensures Took(x, old(sp.lib.blocks), sp.lib.blocks)
  {
    hide Consistent, Next, Code, LastTry;
    ok, x, asks, wrongType := false, Exchange(None, None), 0, false;
    var request := sp.lib.Malloc(sdk.allocate1);
    if request.None? { return; }
    x := x.(request := request);
    var status;
    status, asks := RetryWhileBusy(sdk.getMsg1, 4);
    if status != Success { return; }
    var ret, response := SendReceive(sp, true, Some(Request1(sdk)), true, None, sdk.faults0, sdk.env);
    x := x.(response := response);
    if ret != SP_OK || response.None? { return; }
    if response.value.response.kind != TYPE_RA_MSG2 {
      wrongType := true;
      return;
    }
    ok := true;
  }

  /** The calls of `sgx_ra_proc_msg2_ex`, each with the same message. The pointer to message 3 survives a busy
      attempt; a later one may overwrite it, and the block it pointed at is then out of reach. */
  method ProcessMessage2(lib: Library, sdk: Sdk, msg2: Msg2, retries: nat)
    returns (ok: bool, procs: nat, m: Message3)
    requires lib.Valid()
    modifies lib
    ensures lib.Valid() && lib.ecc == old(lib.ecc) && lib.sha == old(lib.sha)
    ensures ok == ProcessesMessage2(sdk, retries) && procs == Tries(sdk.procMsg2, retries) && (ok ==> m.held.Some?)
    ensures Stored(m, Stores(sdk.msg3, procs), old(lib.blocks), lib.blocks)
  {
    assert Stores(sdk.msg3, 0) == 0;
    hide *;
    var left, ret, again := retries, Busy, true;
    procs, m := 0, Message3(None, {});
    HoldsNothing(lib.blocks);
    while again
      invariant Tried(sdk.procMsg2, retries, procs, left, ret, again)
      invariant lib.Valid() && lib.ecc == old(lib.ecc) && lib.sha == old(lib.sha)
      invariant Stored(m, Stores(sdk.msg3, procs), old(lib.blocks), lib.blocks)
      decreases if again then left + 1 else 0
    {
      ret, m := ProcessOnce(lib, sdk, msg2, procs, m, old(lib.blocks));
      TryOnce(sdk.procMsg2, retries, procs, left);
      procs := procs + 1;
      again := ret == Busy && left != 0;
      if again { left := left - 1; }
    }
    StoredHeld(m, Stores(sdk.msg3, procs), old(lib.blocks), lib.blocks);
    TriesEnded(sdk, retries, procs, left, ret);
    ok := m.held.Some? && ret == Success;
  }

  /** Where a loop that retries while busy stands after `tries` attempts. */
  predicate Tried(outcome: nat -> Status, retries: nat, tries: nat, left: nat, ret: Status, again: bool) {
    if again then
      LastTry(outcome, 0, retries) == LastTry(outcome, tries, left)
    else
      tries == Tries(outcome, retries) && ret == Nth(outcome, tries - 1)
  }

  lemma TryOnce(outcome: nat -> Status, retries: nat, tries: nat, left: nat)
    requires Tried(outcome, retries, tries, left, Busy, true)
    ensures var ret := Nth(outcome, tries);
            var again := ret == Busy && left != 0;
            Tried(outcome, retries, tries + 1, if again then left - 1 else left, ret, again)
  {
  }

  lemma {:induction false} TriesEnded(sdk: Sdk, retries: nat, procs: nat, left: nat, ret: Status)
    requires Tried(sdk.procMsg2, retries, procs, left, ret, false)
    ensures procs == Tries(sdk.procMsg2, retries)
    ensures ProcessesMessage2(sdk, retries) <==> ret == Success && Stores(sdk.msg3, procs) > 0
  {
  }

  /** One call with message 2, which may store a freshly allocated message 3. */
  method ProcessOnce(lib: Library, sdk: Sdk, msg2: Msg2, k: nat, m: Message3, ghost before: set<nat>)
    returns (ret: Status, m': Message3)
    requires lib.Valid() && Stored(m, Stores(sdk.msg3, k), before, lib.blocks)
    modifies lib
    ensures lib.Valid() && lib.ecc == old(lib.ecc) && lib.sha == old(lib.sha)
    ensures ret == Nth(sdk.procMsg2, k) && Stored(m', Stores(sdk.msg3, k + 1), before, lib.blocks)
  {
    ret, m' := Nth(sdk.procMsg2, k), m;
    if Nth(sdk.msg3, k) {
      StoresOneMore(m, Stores(sdk.msg3, k), before, lib.blocks);
      var p := lib.Malloc(false);
      m' := Message3(p, m.lost + Held(m.held));
    }
  }

  lemma HoldsNothing(s: set<nat>)
    ensures Took(Exchange(None, None), s, s) && Stored(Message3(None, {}), 0, s, s)
  {
  }

  lemma StoredHeld(m: Message3, n: nat, before: set<nat>, now: set<nat>)
    requires Stored(m, n, before, now)
    ensures m.held.Some? <==> n > 0
  {
  }

  /** A fresh message 3 pushes the one held before out of reach. */
  lemma StoresOneMore(m: Message3, n: nat, before: set<nat>, now: set<nat>)
    requires Stored(m, n, before, now)
    ensures forall p | p !in now :: Stored(Message3(Some(p), m.lost + Held(m.held)), n + 1, before, now + {p})
  {
  }

  /** Registration, then the enclave. */
  method Prepare(sp: ServiceProvider, sdk: Sdk) returns (ok: bool, x: Exchange, creates: nat, contexts: nat)
    requires sp.Valid() && ValidSdk(sdk)
    modifies sp, sp.lib
    ensures sp.Valid() && sp.lib.ecc == old(sp.lib.ecc) && sp.lib.sha == old(sp.lib.sha)
    ensures ok == (PassesMessage0(sp.cfg, old(sp.View()), sdk) && EnclaveUp(sdk))
    ensures ok ==> Full(x)
    ensures sp.View() == AfterRegister(sp.cfg, old(sp.View()), sdk)
    ensures Took(x, old(sp.lib.blocks), sp.lib.blocks)
    ensures var passes := PassesMessage0(sp.cfg, old(sp.View()), sdk);
            && creates == (if passes then LastEnclave(sdk) + 1 else 0)
            && contexts == if passes then Contexts(sdk) else 0
  {
    creates, contexts := 0, 0;
    ok, x := Register(sp, sdk);
    if ok {
      ok, creates, contexts := StartEnclave(sdk);
    }
  }

  /** The processing of message 2, if there is one. */
  method Process(sp: ServiceProvider, sdk: Sdk, msg2: Option<Msg2>) returns (ok: bool, procs: nat, m: Message3)
    requires sp.Valid()
    modifies sp.lib
    ensures sp.Valid() && sp.View() == old(sp.View()) && sp.lib.ecc == old(sp.lib.ecc) && sp.lib.sha == old(sp.lib.sha)
    ensures ok == (msg2.Some? && ProcessesMessage2(sdk, 2)) && (ok ==> m.held.Some?)
    ensures procs == if msg2.Some? then Tries(sdk.procMsg2, 2) else 0
    ensures Stored(m, Stores(sdk.msg3, procs), old(sp.lib.blocks), sp.lib.blocks)
  {
    ok, procs, m := false, 0, Message3(None, {});
    if msg2.Some? {
      ok, procs, m := ProcessMessage2(sp.lib, sdk, msg2.value, 2);
    }
  }

  /** Message 1, message 2, and its processing. */
  method Conclude(sp: ServiceProvider, sdk: Sdk)
    returns (ok: bool, x: Exchange, asks: nat, msg2: Option<Msg2>, procs: nat, wrongType: bool, m: Message3,
             ghost blocks: set<nat>)
    requires sp.Valid() && ValidSdk(sdk)
    modifies sp, sp.lib
    ensures sp.Valid() && sp.lib.ecc == old(sp.lib.ecc) && sp.lib.sha == old(sp.lib.sha)
    ensures msg2.Some? == ObtainsMessage2(sp.cfg, old(sp.View()), sdk)
    ensures ok == (msg2.Some? && ProcessesMessage2(sdk, 2)) && (ok ==> m.held.Some?)
    ensures procs == if msg2.Some? then Tries(sdk.procMsg2, 2) else 0
    ensures asks == if sdk.allocate1 then 0 else Tries(sdk.getMsg1, 4)
    ensures sp.View() == AfterRequest(sp.cfg, old(sp.View()), sdk)
    ensures !wrongType && (msg2.Some? ==> Full(x) && Genuine(sp.cfg, sp.View(), sdk, msg2.value))
    ensures Took(x, old(sp.lib.blocks), blocks) && Stored(m, Stores(sdk.msg3, procs), blocks, sp.lib.blocks)
  {
    hide Consistent, Took, Stored, ObtainsMessage2, AfterRequest;
    ok, x, asks, wrongType := RequestMessage2(sp, sdk);
    blocks := sp.lib.blocks;
    msg2 := if ok then Some(x.response.value.response.msg2) else None;
    ok, procs, m := Process(sp, sdk, msg2);
  }

  // ---------------------------------------------------------------- the whole run

  /** Everything the client still holds, oldest first. */
  datatype Holdings = Holdings(x0: Exchange, x1: Exchange, m: Message3)

  function AllHeld(h: Holdings): set<nat> { Owned(h.x0) + Owned(h.x1) + Held(h.m.held) }

  ghost predicate Apart(h: Holdings) {
    && Held(h.x0.request) !! HeldBlock(h.x0.response) && Held(h.x1.request) !! HeldBlock(h.x1.response)
    && Owned(h.x0) !! Owned(h.x1) !! Held(h.m.held) !! h.m.lost
  }

  ghost predicate Holds(h: Holdings, n: nat, before: set<nat>, now: set<nat>) {
    && Apart(h) && AllHeld(h) !! before && h.m.lost !! before && now == before + AllHeld(h) + h.m.lost
    && (h.m.held.Some? <==> n > 0) && |h.m.lost| == if n > 0 then n - 1 else 0
  }

  /** Blocks taken one after the other are all distinct. */
  lemma HoldsAll(h: Holdings, n: nat, s0: set<nat>, s1: set<nat>, s2: set<nat>, s3: set<nat>)
    requires Took(h.x0, s0, s1) && Took(h.x1, s1, s2) && Stored(h.m, n, s2, s3)
    ensures Holds(h, n, s0, s3)
  {
    Pile(Owned(h.x0), Owned(h.x1), Held(h.m.held), h.m.lost, s0);
  }

  lemma Pile(a: set<nat>, b: set<nat>, c: set<nat>, d: set<nat>, s: set<nat>)
    requires a !! s && b !! s + a && d !! c && (d + c) !! s + a + b
    ensures a !! b !! c !! d && (a + b + c) !! s && d !! s
    ensures s + a + b + d + c == s + (a + b + c) + d
    ensures s + (a + b + c) + d - (a + b + c) == s + d
  {
  }

  /** What is kept when nothing is freed. */
  lemma KeepsAll(h: Holdings, n: nat, before: set<nat>, now: set<nat>)
    requires Holds(h, n, before, now) && Full(h.x0) && Full(h.x1) && n > 0
    ensures var kept := AllHeld(h) + h.m.lost;
            |kept| == 4 + n && kept !! before && now == before + kept
  {
    assert |Owned(h.x0)| == 2 && |Owned(h.x1)| == 2;
    assert |Owned(h.x0) + Owned(h.x1)| == 4;
    assert |AllHeld(h)| == 5;
  }

  /** What is kept when everything held is freed. */
  lemma KeepsLost(h: Holdings, n: nat, before: set<nat>, now: set<nat>)
    requires Holds(h, n, before, now)
    ensures AllHeld(h) <= now && now - AllHeld(h) == before + h.m.lost
  {
  }

  /** All stages, up to the point where the client returns or cleans up. */
  method Stages(sp: ServiceProvider, sdk: Sdk)
    returns (ok: bool, p: Progress, msg2: Option<Msg2>, wrongType: bool, h: Holdings)
    requires sp.Valid() && ValidSdk(sdk)
    modifies sp, sp.lib
    ensures sp.Valid() && sp.lib.ecc == old(sp.lib.ecc) && sp.lib.sha == old(sp.lib.sha)
    ensures ok <==> Succeeds(sp.cfg, old(sp.View()), sdk)
    ensures p == Tally(sp.cfg, old(sp.View()), sdk) && !wrongType
    ensures msg2.Some? == Reaches(sp.cfg, old(sp.View()), sdk)
    ensures msg2.Some? ==> Genuine(sp.cfg, sp.View(), sdk, msg2.value)
    ensures sp.View() == AfterRun(sp.cfg, old(sp.View()), sdk)
    ensures ok ==> Full(h.x0) && Full(h.x1) && h.m.held.Some?
    ensures Holds(h, Stores(sdk.msg3, p.procs), old(sp.lib.blocks), sp.lib.blocks)
  {
    hide Consistent, Took, Stored, Holds, PassesMessage0, ObtainsMessage2, ProcessesMessage2, Tries, Contexts;
    hide AfterRegister, AfterRequest;
    var x1, asks, procs, m := Exchange(None, None), 0, 0, Message3(None, {});
    msg2, wrongType := None, false;
    var x0, creates, contexts;
    ok, x0, creates, contexts := Prepare(sp, sdk);
    ghost var s1 := sp.lib.blocks;
    ghost var s2 := s1;
    HoldsNothing(s1);
    if ok {
      ok, x1, asks, msg2, procs, wrongType, m, s2 := Conclude(sp, sdk);
    }
    h, p := Holdings(x0, x1, m), Progress(creates, contexts, asks, procs);
    HoldsAll(h, Stores(sdk.msg3, procs), old(sp.lib.blocks), s1, s2, sp.lib.blocks);
  }

  /** The client. When something goes wrong it releases what it holds and closes its last context if it has one;
      a message 3 overwritten by a later attempt stays allocated, an earlier context is never closed. A finished
      run returns with its four buffers and every message 3 still allocated, and closes nothing. */
  method Attest(sp: ServiceProvider, sdk: Sdk) returns (o: Outcome)
    requires sp.Valid() && |sdk.msg1| == 68 && 168 + |sdk.env.sigRl| < 0x1_0000_0000
    modifies sp, sp.lib
    ensures sp.Valid() && sp.lib.ecc == old(sp.lib.ecc) && sp.lib.sha == old(sp.lib.sha)
    ensures o.finished <==> Succeeds(sp.cfg, old(sp.View()), sdk)
    ensures o.progress == Tally(sp.cfg, old(sp.View()), sdk) && !o.wrongType
    ensures o.finished ==> LastCallsSucceeded(sdk, o.progress)
    ensures o.handed.Some? == Reaches(sp.cfg, old(sp.View()), sdk)
    ensures o.handed.Some? ==>
      && sp.registered && sp.gA == sdk.msg1[..64]
      && Consistent(sp.cfg, sp.View(), sdk.env.sigRl, o.handed.value)
    ensures sp.View() == AfterRun(sp.cfg, old(sp.View()), sdk)
    ensures o.closes == if !o.finished && o.progress.contexts > 0 then 1 else 0
    ensures o.kept !! old(sp.lib.blocks) && sp.lib.blocks == old(sp.lib.blocks) + o.kept
    ensures var stored := Stores(sdk.msg3, o.progress.procs);
            |o.kept| == if o.finished then 4 + stored else if stored > 0 then stored - 1 else 0
    ensures o.kept == {} && o.closes == o.progress.contexts <==> LeavesNothing(sp.cfg, old(sp.View()), sdk)
  {
    FinishedStages(sp.cfg, sp.View(), sdk);
    NothingLeftIff(sp.cfg, sp.View(), sdk);
    hide Consistent, Holds, Succeeds, Reaches, Tally, LeavesNothing, Stores, LastCallsSucceeded, AfterRun;
    var ok, p, msg2, wrongType, h := Stages(sp, sdk);
    ghost var st := sp.View();
    var kept := Finish(sp.lib, ok, h, Stores(sdk.msg3, p.procs), old(sp.lib.blocks));
    assert sp.View() == st;
    o := Outcome(ok, p, msg2, wrongType, if p.contexts > 0 && !ok then 1 else 0, kept);
  }

  /** The last attempt at every call to the SDK succeeded. */
  predicate LastCallsSucceeded(sdk: Sdk, p: Progress) {
    && p.creates > 0 && p.asks > 0 && p.procs > 0
    && sdk.select == sdk.create(p.creates - 1) == sdk.getMsg1(p.asks - 1) == sdk.procMsg2(p.procs - 1) == Success
    && sdk.init(p.creates - 1).ret == sdk.init(p.creates - 1).status == Success
  }

  lemma FinishedStages(cfg: Config, st: SpState, sdk: Sdk)
    requires ValidSdk(sdk)
    ensures Succeeds(cfg, st, sdk) ==> LastCallsSucceeded(sdk, Tally(cfg, st, sdk))
  {
    SucceedsIff(cfg, st, sdk);
  }

  lemma NothingLeftIff(cfg: Config, st: SpState, sdk: Sdk)
    requires ValidSdk(sdk)
    ensures var finished, p := Succeeds(cfg, st, sdk), Tally(cfg, st, sdk);
            && Leftovers(finished, Stores(sdk.msg3, p.procs)) == 0
            && (if !finished && p.contexts > 0 then 1 else 0) == p.contexts
            <==> LeavesNothing(cfg, st, sdk)
  {
    hide PassesMessage0, ObtainsMessage2, EnclaveUp, ProcessesMessage2, Contexts, Tries;
  }

  /** How many blocks stay allocated when `n` messages 3 were stored. */
  function Leftovers(finished: bool, n: nat): nat {
    if finished then 4 + n else if n > 0 then n - 1 else 0
  }

  /** Returns with everything still allocated, or frees what is held. */
  method Finish(lib: Library, ok: bool, h: Holdings, ghost n: nat, ghost before: set<nat>) returns (kept: set<nat>)
    requires lib.Valid() && Holds(h, n, before, lib.blocks)
    requires ok ==> Full(h.x0) && Full(h.x1) && h.m.held.Some?
    modifies lib
    ensures lib.Valid() && lib.ecc == old(lib.ecc) && lib.sha == old(lib.sha)
    ensures |kept| == Leftovers(ok, n)
    ensures kept !! before && lib.blocks == before + kept
  {
    if ok {
      KeepsAll(h, n, before, lib.blocks);
      kept := AllHeld(h) + h.m.lost;
    } else {
      KeepsLost(h, n, before, lib.blocks);
      Cleanup(lib, h);
      kept := h.m.lost;
    }
  }

  /** Frees whatever the client holds. */
  method Cleanup(lib: Library, h: Holdings)
    requires lib.Valid() && AllHeld(h) <= lib.blocks && Apart(h)
    modifies lib
    ensures lib.Valid() && lib.ecc == old(lib.ecc) && lib.sha == old(lib.sha)
    ensures lib.blocks == old(lib.blocks) - AllHeld(h)
  {
    lib.Free(if h.x0.response.Some? then Some(h.x0.response.value.block) else None);
    lib.Free(if h.x1.response.Some? then Some(h.x1.response.value.block) else None);
    lib.Free(h.m.held);
    lib.Free(h.x1.request);
    lib.Free(h.x0.request);
  }

  // ---------------------------------------------------------------- when a run can finish

  /** Everything outside the provider succeeds at its first attempt. */
  function Smooth(): Sdk {
    Sdk(false, Msg0Faults(false, false), Success,
        (k: nat) => Success, (k: nat) => InitResult(Success, Success, true),
        false, (k: nat) => Success, Fill(68, 0), Msg1Env({}, Fill(32, 0), []),
        (k: nat) => Success, (k: nat) => true)
  }

  /** The first enclave is lost after handing out a context; message 2 is processed once busily and once in vain,
      and each time a message 3 is stored. */
  function Rough(): Sdk {
    Smooth().(init := (k: nat) => InitResult(if k == 0 then EnclaveLost else Success, Success, true),
              procMsg2 := (k: nat) => if k == 0 then Busy else OtherError)
  }

  lemma SmoothObtains(cfg: Config, st: SpState, sdk: Sdk)
    requires Safe(cfg, st) && (st.registered || Find(cfg.groups, 0).Some?)
    requires sdk == Smooth() || sdk == Rough()
    ensures ValidSdk(sdk) && PassesMessage0(cfg, st, sdk) && ObtainsMessage2(cfg, AfterRegister(cfg, st, sdk), sdk)
  {
    ReadU32OfU32(0);
    CodeByPosition(cfg, sdk.env);
    assert Tries(sdk.getMsg1, 4) == 1;
  }

  lemma SmoothSucceeds(cfg: Config, st: SpState)
    requires Safe(cfg, st) && (st.registered || Find(cfg.groups, 0).Some?)
    ensures ValidSdk(Smooth()) && Succeeds(cfg, st, Smooth())
    ensures var p := Tally(cfg, st, Smooth()); p.contexts == 1 && Stores(Smooth().msg3, p.procs) == 1
  {
    SmoothTries();
    hide PassesMessage0, ObtainsMessage2, ProcessesMessage2;
    hide EnclaveUp, Contexts, Tries, Stores, LastEnclave, Safe, Find;
    SmoothObtains(cfg, st, Smooth());
  }

  lemma SmoothTries()
    ensures EnclaveUp(Smooth()) && Contexts(Smooth()) == 1
    ensures ProcessesMessage2(Smooth(), 2) && Tries(Smooth().procMsg2, 2) == 1 && Stores(Smooth().msg3, 1) == 1
  {
    assert Stores(Smooth().msg3, 0) == 0;
  }

  lemma RoughFails(cfg: Config, st: SpState)
    requires Safe(cfg, st) && (st.registered || Find(cfg.groups, 0).Some?)
    ensures ValidSdk(Rough()) && Reaches(cfg, st, Rough()) && !Succeeds(cfg, st, Rough())
    ensures var p := Tally(cfg, st, Rough()); p.contexts == 2 && Stores(Rough().msg3, p.procs) == 2
  {
    RoughTries();
    hide PassesMessage0, ObtainsMessage2, ProcessesMessage2;
    hide EnclaveUp, Contexts, Tries, Stores, LastEnclave, Safe, Find;
    SmoothObtains(cfg, st, Rough());
  }

  lemma RoughTries()
    ensures EnclaveUp(Rough()) && Contexts(Rough()) == 2
    ensures !ProcessesMessage2(Rough(), 2) && Tries(Rough().procMsg2, 2) == 2 && Stores(Rough().msg3, 2) == 2
  {
    assert LastTry(Rough().procMsg2, 1, 1) == 1;
    assert Stores(Rough().msg3, 0) == 0 && Stores(Rough().msg3, 1) == 1;
  }

  /** From any safe state, the client can finish exactly if the provider is registered already, for whatever
      group, or supports group 0, the one the client always names. */
  lemma CanFinishIff(cfg: Config, st: SpState)
    requires Safe(cfg, st)
    ensures (exists sdk | ValidSdk(sdk) :: Succeeds(cfg, st, sdk)) <==> st.registered || Find(cfg.groups, 0).Some?
  {
    ReadU32OfU32(0);
    if st.registered || Find(cfg.groups, 0).Some? {
      SmoothSucceeds(cfg, st);
    }
  }

  method LoadProvider(build: Build) returns (sp: ServiceProvider)
    ensures fresh(sp) && fresh(sp.lib) && sp.Valid() && sp.cfg == ToyConfig(build)
    ensures sp.View() == LOADED && sp.lib.blocks == {}
    ensures Safe(sp.cfg, sp.View()) && Find(sp.cfg.groups, 0).Some?
  {
    ToyIsSuite();
    var lib := new Library(TOY);
    sp := new ServiceProvider(ToyConfig(build), lib);
  }

  /** A run that finishes, and so keeps five blocks and its context: the program's own table, freshly loaded. */
  method FinishAndKeep(build: Build) returns (sp: ServiceProvider, o: Outcome)
    ensures fresh(sp) && fresh(sp.lib) && sp.cfg == ToyConfig(build)
    ensures o.finished && o.progress.contexts == 1 && o.closes == 0 && |o.kept| == 5 && sp.lib.blocks == o.kept
  {
    assert Leftovers(true, 1) == 5;
    sp := LoadProvider(build);
    hide *;
    SmoothSucceeds(sp.cfg, sp.View());
    o := Attest(sp, Smooth());
  }

  /** A run that fails and still leaves something: one of two contexts unclosed, one of two messages 3 allocated. */
  method FailAndKeep(build: Build) returns (sp: ServiceProvider, o: Outcome)
    ensures fresh(sp) && fresh(sp.lib) && sp.cfg == ToyConfig(build)
    ensures !o.finished && o.progress.contexts == 2 && o.closes == 1 && |o.kept| == 1 && sp.lib.blocks == o.kept
  {
    assert Leftovers(false, 2) == 1;
    sp := LoadProvider(build);
    hide *;
    RoughFails(sp.cfg, sp.View());
    o := Attest(sp, Rough());
  }
}
