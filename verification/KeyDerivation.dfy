/** The two builds of the key derivation: the supplied one, written once for the service provider and once
    for the enclave, and the default one of the service provider. */
module KeyDerivation {
  import opened Bytes
  import opened Crypto
  import opened Options

  // ---------------------------------------------------------------- supplied derivation

  /** "SGXRAENCLAVE" and "SGXRASERVER" with their terminators. */
  const ID_U: seq<byte> := [83, 71, 88, 82, 65, 69, 78, 67, 76, 65, 86, 69, 0]
  const ID_V: seq<byte> := [83, 71, 88, 82, 65, 83, 69, 82, 86, 69, 82, 0]

  const ISV_KDF_ID: nat := 2
  const AES_CMAC_KDF_ID: nat := 1

  /** Everything hashed for one pair of keys: counter, big-endian secret, algorithm id and both parties. */
  function HashInput(shared: seq<byte>, keyId: byte): seq<byte> {
    [0, 0, 0, keyId] + Reverse(shared) + [0, 0, 0, 0] + ID_U + ID_V
  }

  function FirstKey(c: Suite, shared: seq<byte>, keyId: byte): seq<byte> {
    var h := c.sha256(HashInput(shared, keyId));
    if |h| >= 16 then h[..16] else h
  }

  function SecondKey(c: Suite, shared: seq<byte>, keyId: byte): seq<byte> {
    var h := c.sha256(HashInput(shared, keyId));
    if |h| >= 32 then h[16..32] else []
  }

  /** The hashed string determines the secret and the key id. */
  lemma HashInputInjective(s: seq<byte>, i: byte, t: seq<byte>, j: byte)
    requires |s| == 32 && |t| == 32 && HashInput(s, i) == HashInput(t, j)
    ensures s == t && i == j
  {
    assert HashInput(s, i)[3] == i && HashInput(t, j)[3] == j;
    assert HashInput(s, i)[4..36] == Reverse(s) && HashInput(t, j)[4..36] == Reverse(t);
    ReverseTwice(s);
    ReverseTwice(t);
  }

  /** Which of the five fallible SHA-256 calls of a derivation fail. */
  datatype ShaFaults = ShaFaults(init: bool, buffer: bool, idU: bool, idV: bool, hash: bool) {
    predicate Any() { init || buffer || idU || idV || hash }
  }

  /** The service provider's hash buffer, filled in place byte by byte. */
  method FillHashBuffer(shared: array<byte>, keyId: byte) returns (bytes: seq<byte>)
    requires shared.Length == 32
    ensures bytes == [0, 0, 0, keyId] + Reverse(shared[..]) + [0, 0, 0, 0]
  {
    var hashBuffer := new byte[40](_ => 0);
    hashBuffer[3] := keyId;
    var i := 0;
    while i < 32
      invariant 0 <= i <= 32
      invariant hashBuffer[0] == hashBuffer[1] == hashBuffer[2] == 0 && hashBuffer[3] == keyId
      invariant forall k | 4 <= k < 4 + i :: hashBuffer[k] == shared[35 - k]
      invariant forall k | 36 <= k < 40 :: hashBuffer[k] == 0
    {
      hashBuffer[4 + i] := shared[shared.Length - 1 - i];
      i := i + 1;
    }
    bytes := hashBuffer[..];
  }

  /** Feeds the buffer and the identities of both parties to a context. */
  method HashParties(lib: Library, h: nat, buffer: seq<byte>, f: ShaFaults) returns (done: bool)
    requires lib.Valid() && h in lib.sha && lib.sha[h] == []
    modifies lib
    ensures lib.Valid() && lib.ecc == old(lib.ecc) && lib.blocks == old(lib.blocks)
    ensures h in lib.sha && lib.sha - {h} == old(lib.sha) - {h}
    ensures done == !(f.buffer || f.idU || f.idV)
    ensures done ==> lib.sha[h] == buffer + ID_U + ID_V
  {
    done := lib.ShaUpdate(h, buffer, f.buffer);
    if done { done := lib.ShaUpdate(h, ID_U, f.idU); }
    if done { done := lib.ShaUpdate(h, ID_V, f.idV); }
  }

  /** `derive_key` of the service provider. */
  method DeriveKeyServer(lib: Library, shared: array<byte>, keyId: byte, f: ShaFaults)
    returns (ok: bool, first: seq<byte>, second: seq<byte>)
    requires lib.Valid() && shared.Length == 32
    modifies lib
    ensures lib.Valid() && lib.sha == old(lib.sha) && lib.ecc == old(lib.ecc) && lib.blocks == old(lib.blocks)
    ensures ok == !f.Any()
    ensures ok ==> first == FirstKey(lib.suite, shared[..], keyId) && second == SecondKey(lib.suite, shared[..], keyId)
  {
    ok, first, second := false, [], [];
    var hashBuffer := FillHashBuffer(shared, keyId);
    var context := lib.ShaInit(f.init);
    if context == None { return; }
    var h := context.value;
    var done := HashParties(lib, h, hashBuffer, f);
    if !done {
      lib.ShaClose(h);
      return;
    }
    var material := lib.ShaHash(h, f.hash);
    if material == None {
      lib.ShaClose(h);
      return;
    }
    lib.ShaClose(h);
    first, second := material.value[..16], material.value[16..32];
    ok := true;
  }

  /** The enclave's hash buffer, whose secret is reversed into place byte by byte. */
  method FillEnclaveBuffer(shared: array<byte>, keyId: byte) returns (bytes: seq<byte>)
    requires shared.Length == 32
    ensures bytes == [0, 0, 0, keyId] + Reverse(shared[..]) + [0, 0, 0, 0]
  {
    var secret := new byte[32](_ => 0);
    var i := 0;
    while i < 32
      invariant 0 <= i <= 32
      invariant forall k | 0 <= k < i :: secret[k] == shared[31 - k]
    {
      secret[i] := shared[shared.Length - 1 - i];
      i := i + 1;
    }
    assert secret[..] == Reverse(shared[..]);
    bytes := [0, 0, 0, keyId] + secret[..] + [0, 0, 0, 0];
  }

  /** `derive_key` of the enclave. */
  method DeriveKeyEnclave(lib: Library, shared: array<byte>, keyId: byte, f: ShaFaults)
    returns (ok: bool, first: seq<byte>, second: seq<byte>)
    requires lib.Valid() && shared.Length == 32
    modifies lib
    ensures lib.Valid() && lib.sha == old(lib.sha) && lib.ecc == old(lib.ecc) && lib.blocks == old(lib.blocks)
    ensures ok == !f.Any()
    ensures ok ==> first == FirstKey(lib.suite, shared[..], keyId) && second == SecondKey(lib.suite, shared[..], keyId)
  {
    ok, first, second := false, [], [];
    var hashBuffer := FillEnclaveBuffer(shared, keyId);
    var context := lib.ShaInit(f.init);
    if context == None { return; }
    var h := context.value;
    var done := HashParties(lib, h, hashBuffer, f);
    if !done {
      lib.ShaClose(h);
      return;
    }
    var material := lib.ShaHash(h, f.hash);
    lib.ShaClose(h);
    if material == None { return; }
    first, second := material.value[..16], material.value[16..32];
    ok := true;
  }

  datatype Keys = Keys(smk: seq<byte>, sk: seq<byte>, mk: seq<byte>, vk: seq<byte>)

  /** The four keys of a session: one derivation yields SMK and SK, another MK and VK. */
  function SuppliedKeys(c: Suite, shared: seq<byte>): Keys {
    Keys(FirstKey(c, shared, 0), SecondKey(c, shared, 0), FirstKey(c, shared, 1), SecondKey(c, shared, 1))
  }

  /** What the four keys are, in full: the halves of two hashes, each over the counter, the secret in the opposite
      byte order, four zeros and the names of both parties with their terminators. */
  lemma SuppliedKeysSpelled(c: Suite, shared: seq<byte>)
    requires Sized(c)
    ensures var keys := SuppliedKeys(c, shared);
            var rest := Reverse(shared) + [0, 0, 0, 0] + Ascii("SGXRAENCLAVE") + [0] + Ascii("SGXRASERVER") + [0];
            && |keys.smk| == |keys.sk| == |keys.mk| == |keys.vk| == 16
            && keys.smk + keys.sk == c.sha256([0, 0, 0, 0] + rest)
            && keys.mk + keys.vk == c.sha256([0, 0, 0, 1] + rest)
  {
    var rest := Reverse(shared) + [0, 0, 0, 0] + Ascii("SGXRAENCLAVE") + [0] + Ascii("SGXRASERVER") + [0];
    PartyNames();
    hide Ascii, Reverse;
    assert HashInput(shared, 0) == [0, 0, 0, 0] + rest && HashInput(shared, 1) == [0, 0, 0, 1] + rest;
  }

  lemma PartyNames()
    ensures ID_U == Ascii("SGXRAENCLAVE") + [0] && ID_V == Ascii("SGXRASERVER") + [0]
  {
  }

  datatype SgxStatus = SgxSuccess | InvalidParameter | KdfMismatch | Unexpected

  /** `key_derivation` of the enclave; a null secret and a foreign derivation id are refused. */
  method EnclaveKeyDerivation(lib: Library, shared: array?<byte>, kdfId: nat, f: ShaFaults, g: ShaFaults)
    returns (status: SgxStatus, keys: Keys)
    requires lib.Valid() && (shared != null ==> shared.Length == 32)
    modifies lib
    ensures lib.Valid() && lib.sha == old(lib.sha) && lib.ecc == old(lib.ecc) && lib.blocks == old(lib.blocks)
    ensures status == (if shared == null then InvalidParameter
                       else if kdfId != ISV_KDF_ID then KdfMismatch
                       else if f.Any() || g.Any() then Unexpected
                       else SgxSuccess)
    ensures status == SgxSuccess ==> keys == SuppliedKeys(lib.suite, shared[..])
  {
    keys := Keys([], [], [], []);
    if shared == null { return InvalidParameter, keys; }
    if ISV_KDF_ID != kdfId { return KdfMismatch, keys; }
    var ok, smk, sk := DeriveKeyEnclave(lib, shared, 0, f);
    if !ok { return Unexpected, keys; }
    var mk, vk;
    ok, mk, vk := DeriveKeyEnclave(lib, shared, 1, g);
    if !ok { return Unexpected, keys; }
    return SgxSuccess, Keys(smk, sk, mk, vk);
  }

  // ---------------------------------------------------------------- default derivation

  /** "SMK", "SK", "MK" and "VK", by key id. */
  function LabelOf(keyId: byte): Option<seq<byte>> {
    match keyId
    case 0 => Some([83, 77, 75])
    case 1 => Some([83, 75])
    case 2 => Some([77, 75])
    case 3 => Some([86, 75])
    case _ => None
  }

  /** Counter 1, label, separator, and the key length 0x0080 in the machine's little-endian order. */
  function DerivationBuffer(text: seq<byte>): seq<byte> {
    [1] + text + [0] + [0x80, 0]
  }

  /** Reads a label back out of a derivation buffer. */
  function DecodeLabel(buffer: seq<byte>): Option<seq<byte>> {
    if |buffer| >= 4 && buffer[0] == 1 && buffer[|buffer| - 3..] == [0, 0x80, 0]
    then Some(buffer[1..|buffer| - 3]) else None
  }

  /** The decoder accepts exactly the encoded buffers, and returns their label. */
  lemma DerivationBufferDecodes(buffer: seq<byte>, text: seq<byte>)
    ensures DecodeLabel(buffer) == Some(text) <==> buffer == DerivationBuffer(text)
  {
    if buffer == DerivationBuffer(text) {
      assert buffer[1..|buffer| - 3] == text;
    }
  }

  /** Different key ids are derived from different buffers. */
  lemma KeyIdsSeparated(i: byte, j: byte)
    requires LabelOf(i).Some? && LabelOf(j).Some? && i != j
    ensures DerivationBuffer(LabelOf(i).value) != DerivationBuffer(LabelOf(j).value)
  {
    DerivationBufferDecodes(DerivationBuffer(LabelOf(i).value), LabelOf(i).value);
    DerivationBufferDecodes(DerivationBuffer(LabelOf(j).value), LabelOf(j).value);
    assert LabelOf(i).value != LabelOf(j).value by {
      if |LabelOf(i).value| == |LabelOf(j).value| {
        assert LabelOf(i).value[0] != LabelOf(j).value[0];
      }
    }
  }

  const ZERO_KEY: seq<byte> := [0, 0, 0, 0, 0, 0, 0, 0, 0, 0, 0, 0, 0, 0, 0, 0]

  function DefaultKey(c: Suite, shared: seq<byte>, keyId: byte): seq<byte> {
    match LabelOf(keyId)
    case None => []
    case Some(text) => c.cmac(c.cmac(ZERO_KEY, shared), DerivationBuffer(text))
  }

  function DefaultKeys(c: Suite, shared: seq<byte>): Keys {
    Keys(DefaultKey(c, shared, 0), DefaultKey(c, shared, 1), DefaultKey(c, shared, 2), DefaultKey(c, shared, 3))
  }

  /** What the four keys are, in full: one tag each, under a key extracted from the secret, over the counter 1, the
      label "SMK", "SK", "MK" or "VK", a separator and the bytes 0x80, 0x00. */
  lemma DefaultKeysSpelled(c: Suite, shared: seq<byte>)
    ensures var key := c.cmac([0, 0, 0, 0, 0, 0, 0, 0, 0, 0, 0, 0, 0, 0, 0, 0], shared);
            DefaultKeys(c, shared) == Keys(smk := c.cmac(key, [1, 83, 77, 75, 0, 0x80, 0]),
                                           sk := c.cmac(key, [1, 83, 75, 0, 0x80, 0]),
                                           mk := c.cmac(key, [1, 77, 75, 0, 0x80, 0]),
                                           vk := c.cmac(key, [1, 86, 75, 0, 0x80, 0]))
    ensures forall id: byte :: LabelOf(id).Some? <==> id < 4
  {
    assert DerivationBuffer([83, 77, 75]) == [1, 83, 77, 75, 0, 0x80, 0];
    assert DerivationBuffer([83, 75]) == [1, 83, 75, 0, 0x80, 0];
    assert DerivationBuffer([77, 75]) == [1, 77, 75, 0, 0x80, 0];
    assert DerivationBuffer([86, 75]) == [1, 86, 75, 0, 0x80, 0];
  }

  /** Which of the extraction, the allocation and the expansion fail. */
  datatype CmacFaults = CmacFaults(extract: bool, allocate: bool, expand: bool) {
    predicate Any() { extract || allocate || expand }
  }

  /** Fills the derivation buffer in place. */
  method FillDerivationBuffer(buffer: array<byte>, text: seq<byte>)
    requires buffer.Length == |text| + 4
    modifies buffer
    ensures buffer[..] == DerivationBuffer(text)
  {
    forall k | 0 <= k < buffer.Length { buffer[k] := 0; }
    buffer[0] := 1;
    var i := 0;
    while i < |text|
      invariant 0 <= i <= |text|
      invariant buffer[0] == 1
      invariant forall k | 0 <= k < i :: buffer[1 + k] == text[k]
      invariant forall k | i < k < buffer.Length && k > 0 :: buffer[k] == 0
    {
      buffer[1 + i] := text[i];
      i := i + 1;
    }
    buffer[buffer.Length - 2] := 0x80;
    buffer[buffer.Length - 1] := 0;
  }

  /** `derive_key` of the default build. */
  method DeriveKeyDefault(lib: Library, shared: array<byte>, keyId: byte, f: CmacFaults)
    returns (ok: bool, key: seq<byte>)
    requires lib.Valid() && shared.Length == 32
    modifies lib
    ensures lib.Valid() && lib.sha == old(lib.sha) && lib.ecc == old(lib.ecc) && lib.blocks == old(lib.blocks)
    ensures ok == (LabelOf(keyId).Some? && !f.Any())
    ensures ok ==> key == DefaultKey(lib.suite, shared[..], keyId) && |key| == 16
  {
    ok, key := false, [];
    if f.extract { return; }
    var deriveKey := lib.suite.cmac(ZERO_KEY, shared[..]);
    var text := LabelOf(keyId);
    if text == None { return; }
    var block := lib.Malloc(f.allocate);
    if block == None { return; }
    var buffer := new byte[|text.value| + 4];
    FillDerivationBuffer(buffer, text.value);
    if !f.expand {
      key := lib.suite.cmac(deriveKey, buffer[..]);
      ok := true;
    }
    lib.Free(block);
  }
}
