/** The service provider: its globals and the handlers of messages 0 and 1, in place. */
module ServiceProviders {
  import opened Bytes
  import opened Crypto
  import opened KeyDerivation
  import opened Options
  import opened Protocol

  /** A registered provider has a group in its table, so following the group pointer is safe. */
  predicate Safe(cfg: Config, st: SpState) {
    && (st.group.Some? ==> st.group.value < |cfg.groups|)
    && (st.registered ==> st.group.Some?)
    && |st.spid| == 16
  }

  function ShaFaultsAt(fails: set<Site>, call: nat): ShaFaults {
    ShaFaults(Derive(call, 0) in fails, Derive(call, 1) in fails, Derive(call, 2) in fails,
              Derive(call, 3) in fails, Derive(call, 4) in fails)
  }

  function CmacFaultsAt(fails: set<Site>, call: nat): CmacFaults {
    CmacFaults(Derive(call, 0) in fails, Derive(call, 1) in fails, Derive(call, 2) in fails)
  }

  class ServiceProvider {
    const cfg: Config
    const lib: Library
    var registered: bool
    var group: Option<nat>
    var spid: seq<byte>
    var gA: seq<byte>
    var gB: seq<byte>
    var b: seq<byte>
    var smk: seq<byte>
    var sk: seq<byte>
    var mk: seq<byte>
    var vk: seq<byte>

    ghost function StoredKeys(): Keys
      reads this
    {
      Keys(smk, sk, mk, vk)
    }

    ghost function View(): SpState
      reads this
    {
      SpState(registered, group, spid, Db(gA, gB, StoredKeys(), b))
    }

    ghost predicate Valid()
      reads this, lib
    {
      WellFormed(cfg) && lib.Valid() && lib.suite == cfg.suite && Safe(cfg, View())
    }

    constructor (cfg: Config, lib: Library)
      requires WellFormed(cfg) && lib.Valid() && lib.suite == cfg.suite
      ensures Valid() && this.cfg == cfg && this.lib == lib && View() == LOADED
    {
      this.cfg, this.lib := cfg, lib;
      registered, group, spid := false, None, ZERO_KEY;
      gA, gB, b, smk, sk, mk, vk := [], [], [], [], [], [], [];
    }

    /** `sp_ra_proc_msg0_req`. */
    method ProcMsg0(msg: Option<seq<byte>>, size: nat, hasOut: bool, f: Msg0Faults) returns (ret: int, out: Out)
      requires Valid() && (msg.Some? ==> |msg.value| == size)
      modifies this, lib
      ensures Valid() && lib.ecc == old(lib.ecc) && lib.sha == old(lib.sha)
      ensures var call := Call0(msg, size, hasOut, f);
              && View() == Next(cfg, old(View()), call) && ret == Code(cfg, old(View()), call)
              && (ret != SP_OK ==> lib.blocks == old(lib.blocks)
                                   && out == if Accepted(old(View()), call) then Null else Untouched)
      ensures ret == SP_OK ==>
        out.Reply? && out.block !in old(lib.blocks) && lib.blocks == old(lib.blocks) + {out.block}
      ensures ret == SP_OK ==> out.response == KeyIdList(TYPE_RA_MSG0, |cfg.keyIds|, cfg.keyIds)
    {
      ret := -1;
      if msg.None? || !hasOut || size != MSG0_SIZE {
        return -1, Untouched;
      }
      var id := ReadU32(msg.value);
      var response: Option<nat> := None;
      label Body: {
        if !registered || (group.Some? && cfg.groups[group.value].id != id) {
          ret := SP_UNSUPPORTED_EXTENDED_EPID_GROUP;
          var i := 0;
          while i < |cfg.groups|
            invariant 0 <= i <= |cfg.groups|
            invariant FindFrom(cfg.groups, id, i) == Find(cfg.groups, id)
            invariant View() == old(View()) && Valid() && lib.blocks == old(lib.blocks)
            invariant lib.ecc == old(lib.ecc) && lib.sha == old(lib.sha)
          {
            if cfg.groups[i].id == id {
              group := Some(i);
              ret := if f.enroll then 1 else 0;
              if ret != 0 {
                ret := SP_IAS_FAILED;
                break Body;
              }
              spid := cfg.groups[i].spid;
              registered := true;
              break;
            }
            i := i + 1;
          }
        }
        response := lib.Malloc(f.allocate);
        ret := if response.None? then SP_INTERNAL_ERROR else SP_OK;
      }
      if ret != SP_OK {
        out := Null;
        lib.Free(response);
      } else {
        out := Reply(response.value, KeyIdList(TYPE_RA_MSG0, |cfg.keyIds|, cfg.keyIds));
      }
    }

    /** The derivations of the supplied build; each pair of keys is stored as soon as it is known. */
    method DeriveSupplied(dhKey: array<byte>, fails: set<Site>) returns (ok: bool)
      requires Valid() && dhKey.Length == 32 && cfg.build == SuppliedKdf && First(cfg.build, fails) >= 7
      modifies this`smk, this`sk, this`mk, this`vk, lib
      ensures Valid() && lib.ecc == old(lib.ecc) && lib.sha == old(lib.sha) && lib.blocks == old(lib.blocks)
      ensures ok == (First(cfg.build, fails) >= 27)
      ensures StoredKeys()
              == SuppliedPrefix(First(cfg.build, fails), SuppliedKeys(cfg.suite, dhKey[..]), old(StoredKeys()))
    {
      SuppliedCalls(fails);
      hide First, FirstKey, SecondKey, ShaFaultsAt;
      var first, second;
      ok, first, second := DeriveKeyServer(lib, dhKey, 0, ShaFaultsAt(fails, 0));
      if !ok { return; }
      smk, sk := first, second;
      ok, first, second := DeriveKeyServer(lib, dhKey, 1, ShaFaultsAt(fails, 1));
      if !ok { return; }
      mk, vk := first, second;
    }

    /** The derivations of the default build, in its order SMK, MK, SK, VK. */
    method DeriveDefault(dhKey: array<byte>, fails: set<Site>) returns (ok: bool)
      requires Valid() && dhKey.Length == 32 && cfg.build == DefaultKdf && First(cfg.build, fails) >= 7
      modifies this`smk, this`sk, this`mk, this`vk, lib
      ensures Valid() && lib.ecc == old(lib.ecc) && lib.sha == old(lib.sha) && lib.blocks == old(lib.blocks)
      ensures ok == (First(cfg.build, fails) >= 27)
      ensures StoredKeys()
              == DefaultPrefix(First(cfg.build, fails), DefaultKeys(cfg.suite, dhKey[..]), old(StoredKeys()))
    {
      DefaultCalls(fails);
      hide First, DefaultKey, CmacFaultsAt;
      var key;
      ok, key := DeriveKeyDefault(lib, dhKey, 0, CmacFaultsAt(fails, 0));
      if !ok { return; }
      smk := key;
      ok, key := DeriveKeyDefault(lib, dhKey, 2, CmacFaultsAt(fails, 1));
      if !ok { return; }
      mk := key;
      ok, key := DeriveKeyDefault(lib, dhKey, 1, CmacFaultsAt(fails, 2));
      if !ok { return; }
      sk := key;
      ok, key := DeriveKeyDefault(lib, dhKey, 3, CmacFaultsAt(fails, 3));
      if !ok { return; }
      vk := key;
    }

    method DeriveKeys(secret: seq<byte>, fails: set<Site>) returns (ok: bool)
      requires Valid() && |secret| == 32 && First(cfg.build, fails) >= 7
      modifies this`smk, this`sk, this`mk, this`vk, lib
      ensures Valid() && lib.ecc == old(lib.ecc) && lib.sha == old(lib.sha) && lib.blocks == old(lib.blocks)
      ensures ok == (First(cfg.build, fails) >= 27)
      ensures StoredKeys() == KeysAt(cfg.build, fails, SessionKeys(cfg, secret), old(StoredKeys()))
    {
      var dhKey := ToArray(secret);
      ghost var keys, before := SessionKeys(cfg, secret), StoredKeys();
      if cfg.build.SuppliedKdf? {
        PrefixesSupplied(fails, keys, before);
        ok := DeriveSupplied(dhKey, fails);
      } else {
        PrefixesDefault(fails, keys, before);
        ok := DeriveDefault(dhKey, fails);
      }
    }

    /** Stores `g_a` and a fresh key pair, computes the shared secret and fetches the revocation list. The ECC
        context stays open for the caller. */
    method ExchangeKeys(msgGa: seq<byte>, env: Msg1Env) returns (ret: int, ecc: Option<nat>, dhKey: seq<byte>)
      requires Valid() && registered
      modifies this`gA, this`gB, this`b, lib
      ensures Valid() && lib.sha == old(lib.sha) && lib.blocks == old(lib.blocks)
      ensures lib.ecc == if ecc.Some? then old(lib.ecc) + {ecc.value} else old(lib.ecc)
      ensures ecc.Some? ==> ecc.value !in old(lib.ecc)
      ensures var n := First(cfg.build, env.fails);
              && gA == (if n > 0 then msgGa else old(gA))
              && b == (if n > 3 then env.key else old(b))
              && gB == (if n > 4 then cfg.suite.publicOf(env.key) else old(gB))
              && (ret == SP_OK <==> n >= 7)
              && (ret != SP_OK ==> ret == if n == 1 then -1 else if n == 6 then SP_IAS_FAILED else SP_INTERNAL_ERROR)
      ensures ret == SP_OK ==> dhKey == cfg.suite.shared(env.key, msgGa)
    {
      var fails := env.fails;
      AttemptEstablishing(cfg.build, fails);
      ecc, dhKey := None, [];
      ret := SP_INTERNAL_ERROR;
      if CopyGa in fails { return; }
      gA := msgGa;
      ecc := lib.EccOpen(OpenEcc in fails);
      if ecc.None? { return -1, ecc, dhKey; }
      if CreateKeyPair in fails { return; }
      if CopyB in fails { return; }
      b := env.key;
      if CopyGb in fails { return; }
      gB := cfg.suite.publicOf(env.key);
      if SharedKey in fails { return; }
      dhKey := cfg.suite.shared(env.key, msgGa);
      var entry := cfg.groups[group.value];
      if FetchSigRl in fails { return SP_IAS_FAILED, ecc, dhKey; }
      ret := SP_OK;
    }

    /** The first half of message 1: everything up to the session keys. */
    method Establish(msgGa: seq<byte>, env: Msg1Env) returns (ret: int, ecc: Option<nat>)
      requires Valid() && registered
      modifies this`gA, this`gB, this`b, this`smk, this`sk, this`mk, this`vk, lib
      ensures Valid() && lib.sha == old(lib.sha) && lib.blocks == old(lib.blocks)
      ensures lib.ecc == if ecc.Some? then old(lib.ecc) + {ecc.value} else old(lib.ecc)
      ensures ecc.Some? ==> ecc.value !in old(lib.ecc)
      ensures View().db == Msg1Db(cfg, old(View()).db, msgGa, env)
      ensures ret == SP_OK <==> First(cfg.build, env.fails) >= 27
      ensures ret != SP_OK ==> ret == Msg1Code(cfg, env)
    {
      var dhKey;
      ret, ecc, dhKey := ExchangeKeys(msgGa, env);
      if ret == SP_OK {
        var derived := DeriveKeys(dhKey, env.fails);
        if !derived { ret := SP_INTERNAL_ERROR; }
      }
      CodeByPosition(cfg, env);
      DbByPosition(cfg, old(View()).db, msgGa, env, View().db);
    }

    /** Fills message 2 from the state. */
    method FillMsg2(env: Msg1Env) returns (ret: int, msg2: Msg2)
      requires Valid() && First(cfg.build, env.fails) >= 28 && KeysMatch(cfg, View().db)
      ensures ret == if First(cfg.build, env.fails) == END then SP_OK else SP_INTERNAL_ERROR
      ensures ret == SP_OK ==> Consistent(cfg, View(), env.sigRl, msg2)
    {
      var fails := env.fails;
      AttemptComposing(cfg.build, fails);
      ret := SP_INTERNAL_ERROR;
      msg2 := Msg2([], [], 0, 0, [], [], []);
      if CopyMsgGb in fails || CopySpid in fails { return; }
      msg2 := msg2.(gB := gB, spid := spid, quoteType := SAMPLE_QUOTE_LINKABLE_SIGNATURE);
      msg2 := msg2.(kdfId := if cfg.build.SuppliedKdf? then ISV_KDF_ID else AES_CMAC_KDF_ID);
      if CopyPairGb in fails || CopyPairGa in fails { return; }
      var pair := gB + gA;
      if SignPair in fails { return; }
      msg2 := msg2.(signature := cfg.suite.sign(cfg.signKey, pair));
      if Mac in fails { return; }
      var covered := msg2.gB + msg2.spid + U16(msg2.quoteType) + U16(msg2.kdfId) + msg2.signature;
      var mac := cfg.suite.cmac(smk, covered);
      if CopyMac in fails { return; }
      msg2 := msg2.(mac := mac);
      if CopySigRl in fails { return; }
      msg2 := msg2.(sigRl := env.sigRl);
      Sealed(cfg, View(), env.sigRl, msg2);
      ret := SP_OK;
    }

    /** The second half of message 1: allocates and fills message 2. */
    method Compose(env: Msg1Env) returns (ret: int, response: Option<nat>, msg2: Msg2)
      requires Valid() && First(cfg.build, env.fails) >= 27 && KeysMatch(cfg, View().db)
      modifies lib
      ensures Valid() && lib.sha == old(lib.sha) && lib.ecc == old(lib.ecc)
      ensures lib.blocks == if response.Some? then old(lib.blocks) + {response.value} else old(lib.blocks)
      ensures response.Some? ==> response.value !in old(lib.blocks)
      ensures ret == Msg1Code(cfg, env)
      ensures ret == SP_OK ==> response.Some? && Consistent(cfg, View(), env.sigRl, msg2)
    {
      AttemptComposing(cfg.build, env.fails);
      CodeByPosition(cfg, env);
      msg2 := Msg2([], [], 0, 0, [], [], []);
      response := lib.Malloc(Allocate in env.fails);
      if response.None? {
        ret := SP_INTERNAL_ERROR;
      } else {
        ret, msg2 := FillMsg2(env);
      }
    }

    /** `sp_ra_proc_msg1_req`. */
    method ProcMsg1(msg: Option<seq<byte>>, size: nat, hasOut: bool, env: Msg1Env) returns (ret: int, out: Out)
      requires Valid() && (msg.Some? ==> |msg.value| == size) && 168 + |env.sigRl| < 0x1_0000_0000
      modifies this, lib
      ensures Valid() && lib.ecc == old(lib.ecc) && lib.sha == old(lib.sha)
      ensures var call := Call1(msg, size, hasOut, env);
              && View() == Next(cfg, old(View()), call) && ret == Code(cfg, old(View()), call)
              && (ret != SP_OK ==> lib.blocks == old(lib.blocks)
                                   && out == if Accepted(old(View()), call) then Null else Untouched)
      ensures ret == SP_OK ==>
        out.Reply? && out.block !in old(lib.blocks) && lib.blocks == old(lib.blocks) + {out.block}
      ensures ret == SP_OK ==>
        && gA == msg.value[..64]
        && out.response.Message2?
        && out.response.kind == TYPE_RA_MSG2
        && out.response.size == |Encode(out.response.msg2)|
        && Consistent(cfg, View(), env.sigRl, out.response.msg2)
    {
      if msg.None? || !hasOut || size != MSG1_SIZE {
        return -1, Untouched;
      }
      if !registered {
        return SP_UNSUPPORTED_EXTENDED_EPID_GROUP, Untouched;
      }
      ret, out := BuildMessage2(msg.value[..64], env);
    }

    /** The body of message 1 once its arguments are checked, with its clean-up. */
    method BuildMessage2(msgGa: seq<byte>, env: Msg1Env) returns (ret: int, out: Out)
      requires Valid() && registered
      modifies this`gA, this`gB, this`b, this`smk, this`sk, this`mk, this`vk, lib
      ensures Valid() && lib.ecc == old(lib.ecc) && lib.sha == old(lib.sha)
      ensures View().db == Msg1Db(cfg, old(View()).db, msgGa, env) && ret == Msg1Code(cfg, env)
      ensures HandedOver(true, ret, out, old(lib.blocks), lib.blocks)
      ensures ret == SP_OK ==>
        && gA == msgGa
        && out.response.Message2?
        && out.response.kind == TYPE_RA_MSG2
        && out.response.size == |Encode(out.response.msg2)|
        && Consistent(cfg, View(), env.sigRl, out.response.msg2)
    {
      var ecc;
      var response: Option<nat> := None;
      var msg2 := Msg2([], [], 0, 0, [], [], []);
      ret, ecc := Establish(msgGa, env);
      if ret == SP_OK {
        EstablishedMatches(cfg, old(View()).db, msgGa, env);
        ret, response, msg2 := Compose(env);
      }
      if ret != SP_OK {
        out := Null;
        lib.Free(response);
      } else {
        out := Reply(response.value, Message2(TYPE_RA_MSG2, MSG2_SIZE + |env.sigRl|, msg2));
      }
      if ecc.Some? {
        lib.EccClose(ecc.value);
      }
    }
  }

  /** The keys stored when a supplied build stops at position `n`. */
  function SuppliedPrefix(n: nat, keys: Keys, before: Keys): Keys {
    if n >= 27 then keys else if n >= 12 then before.(smk := keys.smk, sk := keys.sk) else before
  }

  /** The keys stored when a default build stops at position `n`. */
  function DefaultPrefix(n: nat, keys: Keys, before: Keys): Keys {
    if n >= 27 then keys
    else if n >= 22 then keys.(vk := before.vk)
    else if n >= 17 then before.(smk := keys.smk, mk := keys.mk)
    else if n >= 12 then before.(smk := keys.smk)
    else before
  }

  lemma PrefixesSupplied(fails: set<Site>, keys: Keys, before: Keys)
    requires First(SuppliedKdf, fails) >= 7
    ensures SuppliedPrefix(First(SuppliedKdf, fails), keys, before) == KeysAt(SuppliedKdf, fails, keys, before)
  {
    SuppliedCalls(fails);
  }

  lemma PrefixesDefault(fails: set<Site>, keys: Keys, before: Keys)
    requires First(DefaultKdf, fails) >= 7
    ensures DefaultPrefix(First(DefaultKdf, fails), keys, before) == KeysAt(DefaultKdf, fails, keys, before)
  {
    DefaultCalls(fails);
  }

  /** Which of the stored keys a request that stops at position `n` replaces, in the order of the derivations. */
  lemma KeysByPosition(build: Build, fails: set<Site>, keys: Keys, before: Keys)
    ensures var n := First(build, fails);
            KeysAt(build, fails, keys, before)
            == if build == SuppliedKdf then
                 Keys(smk := if n >= 12 then keys.smk else before.smk, sk := if n >= 12 then keys.sk else before.sk,
                      mk := if n >= 17 then keys.mk else before.mk, vk := if n >= 17 then keys.vk else before.vk)
               else
                 Keys(smk := if n >= 10 then keys.smk else before.smk, mk := if n >= 15 then keys.mk else before.mk,
                      sk := if n >= 20 then keys.sk else before.sk, vk := if n >= 25 then keys.vk else before.vk)
  {
    if First(build, fails) < END { var f := FirstIsReachable(build, fails); }
  }

  /** Once the keys are derived, the state belongs to one session. */
  lemma EstablishedMatches(cfg: Config, db: Db, gA: seq<byte>, env: Msg1Env)
    requires First(cfg.build, env.fails) >= 27
    ensures var after := Msg1Db(cfg, db, gA, env);
            KeysMatch(cfg, after) && after.gA == gA && after.b == env.key
  {
  }

  /** The result of a request by the position at which it stops. */
  lemma CodeByPosition(cfg: Config, env: Msg1Env)
    ensures var n := First(cfg.build, env.fails);
            Msg1Code(cfg, env) == if n == END then SP_OK else if n == 1 then -1
                                  else if n == 6 then SP_IAS_FAILED else SP_INTERNAL_ERROR
  {
  }

  /** The stored session by the position at which the request stops. */
  lemma DbByPosition(cfg: Config, before: Db, gA: seq<byte>, env: Msg1Env, after: Db)
    requires var n := First(cfg.build, env.fails);
             && after.gA == (if n > 0 then gA else before.gA)
             && after.b == (if n > 3 then env.key else before.b)
             && after.gB == (if n > 4 then cfg.suite.publicOf(env.key) else before.gB)
             && (n < 7 ==> after.keys == before.keys)
             && (n >= 7 ==>
                   var keys := SessionKeys(cfg, cfg.suite.shared(env.key, gA));
                   after.keys == KeysAt(cfg.build, env.fails, keys, before.keys))
    ensures after == Msg1Db(cfg, before, gA, env)
  {
  }

  /** A message assembled field by field is consistent with the state it was taken from. */
  lemma Sealed(cfg: Config, st: SpState, sigRl: seq<byte>, m: Msg2)
    requires WellFormed(cfg) && KeysMatch(cfg, st.db) && |st.spid| == 16
    requires m.gB == st.db.gB && m.spid == st.spid && m.sigRl == sigRl
    requires m.quoteType == SAMPLE_QUOTE_LINKABLE_SIGNATURE && m.kdfId == KdfId(cfg.build)
    requires m.signature == cfg.suite.sign(cfg.signKey, st.db.gB + st.db.gA)
    requires m.mac == cfg.suite.cmac(st.db.keys.smk, m.gB + m.spid + U16(m.quoteType) + U16(m.kdfId) + m.signature)
    ensures Consistent(cfg, st, sigRl, m)
  {
    var covered := m.gB + m.spid + U16(m.quoteType) + U16(m.kdfId) + m.signature;
    assert |covered| == 148;
    assert Encode(m) == covered + m.mac + (U32(|m.sigRl|) + m.sigRl);
    assert Encode(m)[..148] == covered;
    assert Encode(m)[148..164] == m.mac;
    assert Encode(m) == (covered + m.mac) + U32(|m.sigRl|) + m.sigRl;
    assert Encode(m)[164..168] == U32(|m.sigRl|);
    if |sigRl| < 0x1_0000_0000 { ReadU32OfU32(|sigRl|); }
  }

  method ToArray(s: seq<byte>) returns (a: array<byte>)
    ensures fresh(a) && a[..] == s
  {
    a := new byte[|s|](i requires 0 <= i < |s| => s[i]);
  }

  /** How far the calls before the derivations come. */
  lemma AttemptEstablishing(build: Build, fails: set<Site>)
    ensures var n := First(build, fails);
            && (CopyGa in fails <==> n == 0)
            && (n >= 1 ==> (OpenEcc in fails <==> n == 1))
            && (n >= 2 ==> (CreateKeyPair in fails <==> n == 2))
            && (n >= 3 ==> (CopyB in fails <==> n == 3))
            && (n >= 4 ==> (CopyGb in fails <==> n == 4))
            && (n >= 5 ==> (SharedKey in fails <==> n == 5))
            && (n >= 6 ==> (FetchSigRl in fails <==> n == 6))
  {
    Attempt(build, fails, CopyGa);
    Attempt(build, fails, OpenEcc);
    Attempt(build, fails, CreateKeyPair);
    Attempt(build, fails, CopyB);
    Attempt(build, fails, CopyGb);
    Attempt(build, fails, SharedKey);
    Attempt(build, fails, FetchSigRl);
  }

  /** How far the calls after the derivations come. */
  lemma AttemptComposing(build: Build, fails: set<Site>)
    requires First(build, fails) >= 27
    ensures var n := First(build, fails);
            && (Allocate in fails <==> n == 27)
            && (n >= 28 ==> (CopyMsgGb in fails || CopySpid in fails <==> n <= 29))
            && (n >= 30 ==> (CopyPairGb in fails || CopyPairGa in fails <==> n <= 31))
            && (n >= 32 ==> (SignPair in fails <==> n == 32))
            && (n >= 33 ==> (Mac in fails <==> n == 33))
            && (n >= 34 ==> (CopyMac in fails <==> n == 34))
            && (n >= 35 ==> (CopySigRl in fails <==> n == 35))
  {
    Attempt(build, fails, Allocate);
    Attempt(build, fails, CopyMsgGb);
    Attempt(build, fails, CopySpid);
    Attempt(build, fails, CopyPairGb);
    Attempt(build, fails, CopyPairGa);
    Attempt(build, fails, SignPair);
    Attempt(build, fails, Mac);
    Attempt(build, fails, CopyMac);
    Attempt(build, fails, CopySigRl);
  }

  lemma SuppliedCalls(fails: set<Site>)
    requires First(SuppliedKdf, fails) >= 7
    ensures var n := First(SuppliedKdf, fails);
            && (n >= 12 <==> !ShaFaultsAt(fails, 0).Any())
            && (n >= 12 ==> (n >= 17 <==> !ShaFaultsAt(fails, 1).Any()))
            && (n >= 17 ==> n >= 27)
  {
    SuppliedCall(fails, 0);
    SuppliedCall(fails, 1);
    if First(SuppliedKdf, fails) < END { var f := FirstIsReachable(SuppliedKdf, fails); }
  }

  lemma SuppliedCall(fails: set<Site>, call: nat)
    requires call < 2
    ensures var n := First(SuppliedKdf, fails);
            n >= 7 + 5 * call ==> (n >= 12 + 5 * call <==> !ShaFaultsAt(fails, call).Any())
  {
    Attempt(SuppliedKdf, fails, Derive(call, 0));
    Attempt(SuppliedKdf, fails, Derive(call, 1));
    Attempt(SuppliedKdf, fails, Derive(call, 2));
    Attempt(SuppliedKdf, fails, Derive(call, 3));
    Attempt(SuppliedKdf, fails, Derive(call, 4));
  }

  lemma DefaultCalls(fails: set<Site>)
    requires First(DefaultKdf, fails) >= 7
    ensures var n := First(DefaultKdf, fails);
            && (n >= 12 <==> !CmacFaultsAt(fails, 0).Any())
            && (n >= 12 ==> (n >= 17 <==> !CmacFaultsAt(fails, 1).Any()))
            && (n >= 17 ==> (n >= 22 <==> !CmacFaultsAt(fails, 2).Any()))
            && (n >= 22 ==> (n >= 27 <==> !CmacFaultsAt(fails, 3).Any()))
            && n !in {10, 11, 15, 16, 20, 21, 25, 26}
  {
    if First(DefaultKdf, fails) < END { var f := FirstIsReachable(DefaultKdf, fails); }
    DefaultCall(fails, 0);
    DefaultCall(fails, 1);
    DefaultCall(fails, 2);
    DefaultCall(fails, 3);
  }

  lemma DefaultCall(fails: set<Site>, call: nat)
    requires call < 4
    ensures var n := First(DefaultKdf, fails);
            n >= 7 + 5 * call ==> (n >= 10 + 5 * call <==> !CmacFaultsAt(fails, call).Any())
  {
    Attempt(DefaultKdf, fails, Derive(call, 0));
    Attempt(DefaultKdf, fails, Derive(call, 1));
    Attempt(DefaultKdf, fails, Derive(call, 2));
  }
}
