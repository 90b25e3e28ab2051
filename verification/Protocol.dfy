/** Messages, fallible calls and state of the service provider, and what each request does to it. */
module Protocol {
  import opened Bytes
  import opened Crypto
  import opened KeyDerivation
  import opened Options

  // ---------------------------------------------------------------- constants

  const SP_OK := 0
  const SP_UNSUPPORTED_EXTENDED_EPID_GROUP := 1
  const SP_IAS_FAILED := 4
  const SP_INTERNAL_ERROR := 5
  const TYPE_RA_MSG0 := 0
  const TYPE_RA_MSG1 := 1
  const TYPE_RA_MSG2 := 2
  const MSG0_SIZE := 4
  const MSG1_SIZE := 68
  const MSG2_SIZE := 168
  const SAMPLE_QUOTE_LINKABLE_SIGNATURE := 1

  // ---------------------------------------------------------------- messages

  function U16(n: nat): seq<byte> { [n % 0x100, n / 0x100 % 0x100] }

  function U32(n: nat): seq<byte> { U16(n % 0x1_0000) + U16(n / 0x1_0000) }

  function ReadU32(s: seq<byte>): nat
    requires |s| >= 4
  {
    (s[0] as int) + 0x100 * (s[1] as int) + 0x1_0000 * (s[2] as int) + 0x100_0000 * (s[3] as int)
  }

  lemma ReadU32OfU32(n: nat)
    requires n < 0x1_0000_0000
    ensures ReadU32(U32(n)) == n
  {
  }

  /** Message 2; `sigRl` is the trailing revocation list. */
  datatype Msg2 = Msg2(gB: seq<byte>, spid: seq<byte>, quoteType: nat, kdfId: nat,
                       signature: seq<byte>, mac: seq<byte>, sigRl: seq<byte>)

  /** The bytes of message 2 in memory order. */
  function Encode(m: Msg2): seq<byte> {
    m.gB + m.spid + U16(m.quoteType) + U16(m.kdfId) + m.signature + m.mac + U32(|m.sigRl|) + m.sigRl
  }

  datatype Response = KeyIdList(kind: nat, size: nat, ids: seq<byte>) | Message2(kind: nat, size: nat, msg2: Msg2)

  /** What became of the caller's out pointer. */
  datatype Out = Untouched | Null | Reply(block: nat, response: Response)

  // ---------------------------------------------------------------- state

  /** An entry of the table of groups; its enrolment hands out `spid`. */
  datatype Group = Group(id: nat, spid: seq<byte>)

  datatype Build = SuppliedKdf | DefaultKdf

  datatype Config = Config(suite: Suite, build: Build, groups: seq<Group>, signKey: seq<byte>, keyIds: seq<byte>)

  ghost predicate WellFormed(cfg: Config) {
    Sized(cfg.suite) && forall i | 0 <= i < |cfg.groups| :: |cfg.groups[i].spid| == 16
  }

  /** The fields of `g_sp_db` that are ever written. */
  datatype Db = Db(gA: seq<byte>, gB: seq<byte>, keys: Keys, b: seq<byte>)

  datatype SpState = SpState(registered: bool, group: Option<nat>, spid: seq<byte>, db: Db)

  const LOADED := SpState(false, None, ZERO_KEY, Db([], [], Keys([], [], [], []), []))

  // ---------------------------------------------------------------- message 0

  datatype Msg0Faults = Msg0Faults(enroll: bool, allocate: bool)

  /** The first entry of the table with this id. */
  function Find(groups: seq<Group>, id: nat): (k: Option<nat>)
    ensures k.Some? ==> k.value < |groups| && groups[k.value].id == id
    ensures k.Some? ==> forall i | 0 <= i < k.value :: groups[i].id != id
    ensures k.None? ==> forall i | 0 <= i < |groups| :: groups[i].id != id
  {
    FindFrom(groups, id, 0)
  }

  function FindFrom(groups: seq<Group>, id: nat, from: nat): (k: Option<nat>)
    requires from <= |groups|
    ensures k.Some? ==> from <= k.value < |groups| && groups[k.value].id == id
    ensures k.Some? ==> forall i | from <= i < k.value :: groups[i].id != id
    ensures k.None? ==> forall i | from <= i < |groups| :: groups[i].id != id
    decreases |groups| - from
  {
    if from == |groups| then None
    else if groups[from].id == id then Some(from)
    else FindFrom(groups, id, from + 1)
  }

  /** Whether this request looks for a group at all. */
  predicate Registers(cfg: Config, st: SpState, id: nat) {
    !st.registered || (st.group.Some? && st.group.value < |cfg.groups| && cfg.groups[st.group.value].id != id)
  }

  function Msg0Next(cfg: Config, st: SpState, id: nat, f: Msg0Faults): SpState {
    if !Registers(cfg, st, id) then st
    else
      match Find(cfg.groups, id)
      case None => st
      case Some(k) =>
        if f.enroll then st.(group := Some(k))
        else st.(group := Some(k), spid := cfg.groups[k].spid, registered := true)
  }

  function Msg0Code(cfg: Config, st: SpState, id: nat, f: Msg0Faults): int {
    if Registers(cfg, st, id) && Find(cfg.groups, id).Some? && f.enroll then SP_IAS_FAILED
    else if f.allocate then SP_INTERNAL_ERROR
    else SP_OK
  }

  // ---------------------------------------------------------------- message 1

  /** One past the last position. */
  const END: nat := 36

  /** The calls that can fail while message 2 is built; `Derive(call, step)` lies inside a key derivation. */
  datatype Site =
    | CopyGa | OpenEcc | CreateKeyPair | CopyB | CopyGb | SharedKey | FetchSigRl | Derive(call: nat, step: nat)
    | Allocate | CopyMsgGb | CopySpid | CopyPairGb | CopyPairGa | SignPair | Mac | CopyMac | CopySigRl

  /** The order in which they are reached. */
  function Order(site: Site): nat {
    match site
    case CopyGa => 0
    case OpenEcc => 1
    case CreateKeyPair => 2
    case CopyB => 3
    case CopyGb => 4
    case SharedKey => 5
    case FetchSigRl => 6
    case Derive(call, step) => 7 + 5 * call + step
    case Allocate => 27
    case CopyMsgGb => 28
    case CopySpid => 29
    case CopyPairGb => 30
    case CopyPairGa => 31
    case SignPair => 32
    case Mac => 33
    case CopyMac => 34
    case CopySigRl => 35
  }

  /** Two derivations of five SHA-256 calls, or four of an extraction, an allocation and an expansion. */
  predicate Reachable(build: Build, site: Site) {
    match site
    case Derive(call, step) => if build.SuppliedKdf? then call < 2 && step < 5 else call < 4 && step < 3
    case _ => true
  }

  function CodeOf(site: Site): int {
    match site
    case OpenEcc => -1
    case FetchSigRl => SP_IAS_FAILED
    case _ => SP_INTERNAL_ERROR
  }

  /** Outcome of the calls: those that fail, the fresh private key and the fetched revocation list. */
  datatype Msg1Env = Msg1Env(fails: set<Site>, key: seq<byte>, sigRl: seq<byte>)

  /** Some reachable call at position `p` fails. */
  ghost predicate Hit(build: Build, fails: set<Site>, p: nat) {
    exists f | f in fails :: Reachable(build, f) && Order(f) == p
  }

  ghost function FirstFrom(build: Build, fails: set<Site>, p: nat): (first: nat)
    requires p <= END
    ensures p <= first <= END && (first < END ==> Hit(build, fails, first))
    ensures forall q: nat | p <= q < first :: !Hit(build, fails, q)
    decreases END - p
  {
    if p == END || Hit(build, fails, p) then p else FirstFrom(build, fails, p + 1)
  }

  /** Position of the first call that fails, `END` if none does. */
  ghost function First(build: Build, fails: set<Site>): nat {
    FirstFrom(build, fails, 0)
  }

  /** The call at `site` and all before it succeed. */
  ghost predicate Passed(build: Build, fails: set<Site>, site: Site) {
    Order(site) < First(build, fails)
  }

  /** Having come as far as `site`, its outcome decides whether the run stops here. */
  lemma Attempt(build: Build, fails: set<Site>, site: Site)
    requires Reachable(build, site)
    ensures Order(site) <= First(build, fails) ==> (site in fails <==> First(build, fails) == Order(site))
  {
    var n := First(build, fails);
    if site in fails {
      assert Hit(build, fails, Order(site));
    } else if n == Order(site) {
      var f :| f in fails && Reachable(build, f) && Order(f) == n;
      assert f != site;
      OrderInjective(build, f, site);
    }
  }

  lemma OrderInjective(build: Build, f: Site, g: Site)
    requires Reachable(build, f) && Reachable(build, g) && f != g
    ensures Order(f) != Order(g)
  {
  }

  lemma FirstIsReachable(build: Build, fails: set<Site>) returns (f: Site)
    requires First(build, fails) < END
    ensures f in fails && Reachable(build, f) && Order(f) == First(build, fails)
  {
    f :| f in fails && Reachable(build, f) && Order(f) == First(build, fails);
  }

  /** The last fallible call of each of the four keys: SMK, SK, MK, VK. */
  function KeySite(build: Build, key: nat): Site
    requires key < 4
  {
    if build.SuppliedKdf? then Derive(if key < 2 then 0 else 1, 4)
    else Derive(if key == 0 then 0 else if key == 1 then 2 else if key == 2 then 1 else 3, 2)
  }

  function SessionKeys(cfg: Config, shared: seq<byte>): Keys {
    if cfg.build.SuppliedKdf? then SuppliedKeys(cfg.suite, shared) else DefaultKeys(cfg.suite, shared)
  }

  /** What a session derives from its shared secret, in full, for either build. */
  lemma SessionKeysSpelled(cfg: Config, shared: seq<byte>)
    requires Sized(cfg.suite)
    ensures var keys, c := SessionKeys(cfg, shared), cfg.suite;
            var rest := Reverse(shared) + [0, 0, 0, 0] + Ascii("SGXRAENCLAVE") + [0] + Ascii("SGXRASERVER") + [0];
            cfg.build == SuppliedKdf ==>
              && |keys.smk| == |keys.sk| == |keys.mk| == |keys.vk| == 16
              && keys.smk + keys.sk == c.sha256([0, 0, 0, 0] + rest)
              && keys.mk + keys.vk == c.sha256([0, 0, 0, 1] + rest)
    ensures var keys, c := SessionKeys(cfg, shared), cfg.suite;
            var key := c.cmac([0, 0, 0, 0, 0, 0, 0, 0, 0, 0, 0, 0, 0, 0, 0, 0], shared);
            cfg.build == DefaultKdf ==>
              && keys.smk == c.cmac(key, [1, 83, 77, 75, 0, 0x80, 0])
              && keys.sk == c.cmac(key, [1, 83, 75, 0, 0x80, 0])
              && keys.mk == c.cmac(key, [1, 77, 75, 0, 0x80, 0])
              && keys.vk == c.cmac(key, [1, 86, 75, 0, 0x80, 0])
  {
    if cfg.build == SuppliedKdf {
      SuppliedKeysSpelled(cfg.suite, shared);
    } else {
      DefaultKeysSpelled(cfg.suite, shared);
    }
  }

  function KdfId(build: Build): nat {
    if build.SuppliedKdf? then ISV_KDF_ID else AES_CMAC_KDF_ID
  }

  /** The keys that are stored before the first failure replace the old ones. */
  ghost function KeysAt(build: Build, fails: set<Site>, keys: Keys, before: Keys): Keys {
    Keys(if Passed(build, fails, KeySite(build, 0)) then keys.smk else before.smk,
         if Passed(build, fails, KeySite(build, 1)) then keys.sk else before.sk,
         if Passed(build, fails, KeySite(build, 2)) then keys.mk else before.mk,
         if Passed(build, fails, KeySite(build, 3)) then keys.vk else before.vk)
  }

  /** A failed request keeps every write made before its failure. */
  ghost function Msg1Db(cfg: Config, db: Db, gA: seq<byte>, env: Msg1Env): Db {
    var fails := env.fails;
    Db(if Passed(cfg.build, fails, CopyGa) then gA else db.gA,
       if Passed(cfg.build, fails, CopyGb) then cfg.suite.publicOf(env.key) else db.gB,
       KeysAt(cfg.build, fails, SessionKeys(cfg, cfg.suite.shared(env.key, gA)), db.keys),
       if Passed(cfg.build, fails, CopyB) then env.key else db.b)
  }

  ghost function Msg1Code(cfg: Config, env: Msg1Env): int {
    if Passed(cfg.build, env.fails, CopySigRl) then SP_OK
    else if Passed(cfg.build, env.fails, CopyGa) && !Passed(cfg.build, env.fails, OpenEcc) then -1
    else if Passed(cfg.build, env.fails, SharedKey) && !Passed(cfg.build, env.fails, FetchSigRl) then SP_IAS_FAILED
    else SP_INTERNAL_ERROR
  }

  /** The result of a request is the code of the first call that fails, and success if none does. */
  lemma CodeIsFirstFailure(cfg: Config, env: Msg1Env)
    ensures (forall f | f in env.fails :: !Reachable(cfg.build, f)) <==> Msg1Code(cfg, env) == SP_OK
    ensures forall f | f in env.fails && Reachable(cfg.build, f)
                       && (forall g | g in env.fails && Reachable(cfg.build, g) :: Order(f) <= Order(g)) ::
              Msg1Code(cfg, env) == CodeOf(f) == if f.OpenEcc? then -1 else if f.FetchSigRl? then 4 else 5
  {
    var n := First(cfg.build, env.fails);
    if n < END {
      var f := FirstIsReachable(cfg.build, env.fails);
    }
    forall f | f in env.fails && Reachable(cfg.build, f) ensures n <= Order(f) < END {
      assert Hit(cfg.build, env.fails, Order(f));
    }
  }

  /** Keys, message and state belong to one session: the keys derive from the stored key pair and the stored
      `g_a`, the message carries the stored `g_b` and SPID, the signature is over `g_b` and `g_a`,
      and the MAC under the stored SMK covers exactly the bytes before it. */
  ghost predicate Consistent(cfg: Config, st: SpState, sigRl: seq<byte>, m: Msg2) {
    && KeysMatch(cfg, st.db)
    && m.gB == st.db.gB && m.spid == st.spid && m.sigRl == sigRl
    && m.quoteType == SAMPLE_QUOTE_LINKABLE_SIGNATURE && m.kdfId == KdfId(cfg.build)
    && m.signature == cfg.suite.sign(cfg.signKey, st.db.gB + st.db.gA)
    && |Encode(m)| == MSG2_SIZE + |sigRl|
    && Encode(m)[148..164] == m.mac == cfg.suite.cmac(st.db.keys.smk, Encode(m)[..148])
    && (|sigRl| < 0x1_0000_0000 ==> ReadU32(Encode(m)[164..168]) == |sigRl|) && Encode(m)[168..] == sigRl
  }

  /** Message 2 byte by byte, as the client reads it. */
  lemma WireFormat(cfg: Config, st: SpState, sigRl: seq<byte>, m: Msg2)
    requires WellFormed(cfg) && |st.spid| == 16 && |sigRl| < 0x1_0000_0000 && Consistent(cfg, st, sigRl, m)
    ensures var e, db := Encode(m), st.db;
            && |e| == 168 + |sigRl|
            && e[..64] == db.gB == cfg.suite.publicOf(db.b)
            && db.keys == SessionKeys(cfg, cfg.suite.shared(db.b, db.gA))
            && e[64..80] == st.spid
            && e[80..82] == [1, 0]
            && e[82..84] == [if cfg.build == SuppliedKdf then 2 else 1, 0]
            && e[84..148] == cfg.suite.sign(cfg.signKey, db.gB + db.gA)
            && e[148..164] == cfg.suite.cmac(db.keys.smk, e[..148])
            && e[164] as int + 0x100 * e[165] as int + 0x1_0000 * e[166] as int + 0x100_0000 * e[167] as int == |sigRl|
            && e[168..] == sigRl
  {
    EncodedParts(m);
    U32Bytes(|sigRl|);
    hide U32, Encode;
  }

  lemma U32Bytes(n: nat)
    requires n < 0x1_0000_0000
    ensures var b := U32(n);
            b[0] as int + 0x100 * b[1] as int + 0x1_0000 * b[2] as int + 0x100_0000 * b[3] as int == n
  {
  }

  lemma EncodedParts(m: Msg2)
    requires |m.gB| == 64 && |m.spid| == 16 && |m.signature| == 64 && |m.mac| == 16
    ensures var e := Encode(m);
            && |e| == 168 + |m.sigRl|
            && e[..64] == m.gB && e[64..80] == m.spid
            && e[80..82] == U16(m.quoteType) && e[82..84] == U16(m.kdfId)
            && e[84..148] == m.signature && e[148..164] == m.mac
            && e[164..168] == U32(|m.sigRl|) && e[168..] == m.sigRl
  {
    assert |U16(m.quoteType)| == |U16(m.kdfId)| == 2 && |U32(|m.sigRl|)| == 4;
    hide U16, U32;
    assert Encode(m)[..164] == m.gB + m.spid + U16(m.quoteType) + U16(m.kdfId) + m.signature + m.mac;
  }

  ghost predicate KeysMatch(cfg: Config, db: Db) {
    && db.gB == cfg.suite.publicOf(db.b)
    && db.keys == SessionKeys(cfg, cfg.suite.shared(db.b, db.gA))
  }

  // ---------------------------------------------------------------- requests

  /** A call of one of the two handlers: the message (or a null pointer), its claimed size, whether the out
      pointer is usable, and the outcome of the fallible calls inside. */
  datatype Call =
    | Call0(msg: Option<seq<byte>>, size: nat, hasOut: bool, f: Msg0Faults)
    | Call1(msg: Option<seq<byte>>, size: nat, hasOut: bool, env: Msg1Env)

  /** The claimed size is the extent of the message. */
  predicate ValidCall(call: Call) {
    && (call.msg.Some? ==> |call.msg.value| == call.size)
    && (call.Call1? ==> MSG2_SIZE + |call.env.sigRl| < 0x1_0000_0000)
  }

  /** The arguments get past the checks at the head of the handler. */
  predicate WellFormedCall(call: Call)
    requires ValidCall(call)
  {
    call.msg.Some? && call.hasOut && call.size == if call.Call0? then MSG0_SIZE else MSG1_SIZE
  }

  /** The handler gets as far as touching its state. */
  predicate Accepted(st: SpState, call: Call)
    requires ValidCall(call)
  {
    WellFormedCall(call) && (call.Call1? ==> st.registered)
  }

  ghost function Next(cfg: Config, st: SpState, call: Call): SpState
    requires ValidCall(call)
  {
    if !Accepted(st, call) then st
    else
      match call
      case Call0(msg, _, _, f) => Msg0Next(cfg, st, ReadU32(msg.value), f)
      case Call1(msg, _, _, env) => st.(db := Msg1Db(cfg, st.db, msg.value[..64], env))
  }

  ghost function Code(cfg: Config, st: SpState, call: Call): int
    requires ValidCall(call)
  {
    if !WellFormedCall(call) then -1
    else
      match call
      case Call0(msg, _, _, f) => Msg0Code(cfg, st, ReadU32(msg.value), f)
      case Call1(msg, _, _, env) =>
        if !st.registered then SP_UNSUPPORTED_EXTENDED_EPID_GROUP else Msg1Code(cfg, env)
  }

  /** The response of a request goes to the caller exactly on success; otherwise nothing stays allocated. */
  ghost predicate HandedOver(accepted: bool, ret: int, out: Out, before: set<nat>, after: set<nat>) {
    if !accepted then ret != SP_OK && out == Untouched && after == before
    else if ret == SP_OK then out.Reply? && out.block !in before && after == before + {out.block}
    else out == Null && after == before
  }
}
