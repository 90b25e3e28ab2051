/** The word-wise byte swap of 32-byte numbers in memory, and the report whose signature it turns round. */
module Endian {
  import opened Crypto
  import opened Options

  /** `SWAP_ENDIAN_DW`. */
  function SwapWord(dw: bv32): bv32 {
    ((dw & 0x0000_00ff) << 24) | ((dw & 0x0000_ff00) << 8) | ((dw & 0x00ff_0000) >> 8) | ((dw & 0xff00_0000) >> 24)
  }

  /** The little-endian word that four bytes of memory hold. */
  function Load(b0: bv8, b1: bv8, b2: bv8, b3: bv8): bv32 {
    (b0 as bv32) | ((b1 as bv32) << 8) | ((b2 as bv32) << 16) | ((b3 as bv32) << 24)
  }

  function Byte0(dw: bv32): bv8 { (dw & 0xff) as bv8 }
  function Byte1(dw: bv32): bv8 { ((dw >> 8) & 0xff) as bv8 }
  function Byte2(dw: bv32): bv8 { ((dw >> 16) & 0xff) as bv8 }
  function Byte3(dw: bv32): bv8 { ((dw >> 24) & 0xff) as bv8 }

  /** Swapping a word reverses its four bytes. */
  lemma SwapReverses(b0: bv8, b1: bv8, b2: bv8, b3: bv8)
    ensures var dw := SwapWord(Load(b0, b1, b2, b3));
            Byte0(dw) == b3 && Byte1(dw) == b2 && Byte2(dw) == b1 && Byte3(dw) == b0
  {
  }

  method LoadWord(mem: array<bv8>, at: nat) returns (dw: bv32)
    requires at + 4 <= mem.Length
    ensures dw == Load(mem[at], mem[at + 1], mem[at + 2], mem[at + 3])
  {
    dw := Load(mem[at], mem[at + 1], mem[at + 2], mem[at + 3]);
  }

  method StoreWord(mem: array<bv8>, at: nat, dw: bv32)
    requires at + 4 <= mem.Length
    modifies mem
    ensures mem[at] == Byte0(dw) && mem[at + 1] == Byte1(dw) && mem[at + 2] == Byte2(dw) && mem[at + 3] == Byte3(dw)
    ensures forall k | 0 <= k < mem.Length && !(at <= k < at + 4) :: mem[k] == old(mem[k])
  {
    mem[at], mem[at + 1], mem[at + 2], mem[at + 3] := Byte0(dw), Byte1(dw), Byte2(dw), Byte3(dw);
  }

  /** The outermost `n` words at either end of the 32 bytes at `at` are exchanged and reversed. */
  ghost predicate PartlyTurned(before: seq<bv8>, after: seq<bv8>, at: nat, n: nat) {
    && |after| == |before| && at + 32 <= |before| && n <= 4
    && (forall k | at <= k < at + 4 * n || at + 32 - 4 * n <= k < at + 32 :: after[k] == before[2 * at + 31 - k])
    && (forall k | 0 <= k < at || at + 4 * n <= k < at + 32 - 4 * n || at + 32 <= k < |before| :: after[k] == before[k])
  }

  /** The 32 bytes at `at` in the opposite order, everything else as before. */
  ghost predicate Turned(before: seq<bv8>, after: seq<bv8>, at: nat) {
    && |after| == |before| && at + 32 <= |before|
    && (forall k | at <= k < at + 32 :: after[k] == before[2 * at + 31 - k])
    && (forall k | 0 <= k < |before| && !(at <= k < at + 32) :: after[k] == before[k])
  }

  /** Words `i` and `7 - i` exchanged, each with its bytes reversed. */
  ghost predicate Exchanged(before: seq<bv8>, after: seq<bv8>, at: nat, i: nat)
    requires |after| == |before| && at + 32 <= |before| && i < 4
  {
    var lo, hi := at + 4 * i, at + 28 - 4 * i;
    && after[lo] == before[hi + 3] && after[lo + 1] == before[hi + 2]
    && after[lo + 2] == before[hi + 1] && after[lo + 3] == before[hi]
    && after[hi] == before[lo + 3] && after[hi + 1] == before[lo + 2]
    && after[hi + 2] == before[lo + 1] && after[hi + 3] == before[lo]
    && forall k | 0 <= k < lo || lo + 4 <= k < hi || hi + 4 <= k < |before| :: after[k] == before[k]
  }

  lemma ExchangeTurns(start: seq<bv8>, before: seq<bv8>, after: seq<bv8>, at: nat, i: nat)
    requires i < 4 && PartlyTurned(start, before, at, i) && |after| == |before| && Exchanged(before, after, at, i)
    ensures PartlyTurned(start, after, at, i + 1)
  {
  }

  /** One exchange of the macro: words `i` and `7 - i`, each swapped. */
  method SwapPair(mem: array<bv8>, at: nat, i: nat)
    requires at + 32 <= mem.Length && i < 4
    modifies mem
    ensures Exchanged(old(mem[..]), mem[..], at, i)
  {
    var lo, hi := at + 4 * i, at + 28 - 4 * i;
    SwapReverses(mem[lo], mem[lo + 1], mem[lo + 2], mem[lo + 3]);
    SwapReverses(mem[hi], mem[hi + 1], mem[hi + 2], mem[hi + 3]);
    var word := LoadWord(mem, lo);
    var temp := SwapWord(word);
    word := LoadWord(mem, hi);
    StoreWord(mem, lo, SwapWord(word));
    StoreWord(mem, hi, temp);
  }

  /** `SWAP_ENDIAN_32B`: eight word swaps in four exchanges reverse the 32 bytes. */
  method SwapEndian32B(mem: array<bv8>, at: nat)
    requires at + 32 <= mem.Length
    modifies mem
    ensures Turned(old(mem[..]), mem[..], at)
  {
    ghost var start := mem[..];
    SwapPair(mem, at, 0);
    ghost var once := mem[..];
    SwapPair(mem, at, 1);
    ghost var twice := mem[..];
    SwapPair(mem, at, 2);
    ghost var thrice := mem[..];
    SwapPair(mem, at, 3);
    ExchangeTurns(start, start, once, at, 0);
    ExchangeTurns(start, once, twice, at, 1);
    ExchangeTurns(start, twice, thrice, at, 2);
    ExchangeTurns(start, thrice, mem[..], at, 3);
  }

  /** The swap is its own inverse. */
  lemma TurnedTwice(before: seq<bv8>, once: seq<bv8>, twice: seq<bv8>, at: nat)
    requires Turned(before, once, at) && Turned(once, twice, at)
    ensures twice == before
  {
  }

  // ---------------------------------------------------------------- the verification report

  /** Bytes of the platform info blob before its signature, and with it. */
  const SIGNED_SIZE: nat := 33
  const BLOB_SIZE: nat := 97

  /** The attestation report; `blob` is the packed platform info blob with the signature's x and y at its end. */
  class Report {
    var id: nat
    var status: nat
    var revocationReason: nat
    var pseStatus: nat
    var policyReportSize: nat
    const blob: array<bv8>

    constructor ()
      ensures fresh(blob) && blob.Length == BLOB_SIZE
    {
      id, status, revocationReason, pseStatus, policyReportSize := 0, 0, 0, 0, 0;
      blob := new bv8[BLOB_SIZE](_ => 0);
    }
  }

  /** Writes a signature behind the signed bytes and reverses the bytes of its two halves. */
  method PlaceSignature(blob: array<bv8>, signature: seq<bv8>)
    requires blob.Length == BLOB_SIZE && |signature| == 64
    modifies blob
    ensures forall k | 0 <= k < 33 :: blob[k] == old(blob[k])
    ensures forall k | 33 <= k < 97 :: blob[k] == signature[if k < 65 then 64 - k else 128 - k]
  {
    forall k | 33 <= k < 97 { blob[k] := signature[k - 33]; }
    SwapEndian32B(blob, 33);
    SwapEndian32B(blob, 65);
  }

  /** `ias_verify_attestation_evidence`. `sign` yields the signature of the bytes it is given, or nothing when it
      fails. On success the blob holds the signed bytes, all zero, then x and y with their bytes reversed. */
  method VerifyAttestationEvidence(lib: Library, quote: bool, report: Report?, openFails: bool,
                                   sign: seq<bv8> -> Option<seq<bv8>>)
    returns (ret: int)
    requires lib.Valid() && (report != null ==> report.blob.Length == BLOB_SIZE)
    requires forall m :: sign(m).Some? ==> |sign(m).value| == 64
    modifies lib
    modifies if report == null then {} else {report, report.blob}
    ensures lib.Valid() && lib.ecc == old(lib.ecc) && lib.sha == old(lib.sha) && lib.blocks == old(lib.blocks)
    ensures !quote || report == null ==> ret == -1 && (report != null ==> unchanged(report) && unchanged(report.blob))
    ensures quote && report != null ==>
      var zeros := seq(33, _ => 0 as bv8);
      && report.id == 0x12345678 && report.status == 0 && report.revocationReason == 0
      && report.pseStatus == 0 && report.policyReportSize == 0
      && report.blob[..33] == zeros
      && ret == (if openFails then -1 else if sign(zeros).None? then 5 else 0)
      && (ret != 0 ==> report.blob[33..] == old(report.blob[33..]))
      && (ret == 0 ==> forall k | 33 <= k < 97 ::
            report.blob[k] == sign(zeros).value[if k < 65 then 64 - k else 128 - k])
  {
    if !quote || report == null { return -1; }
    var blob := report.blob;
    report.id, report.status, report.revocationReason := 0x12345678, 0, 0;
    forall k | 0 <= k < SIGNED_SIZE { blob[k] := 0; }
    ghost var zeros := seq(33, _ => 0 as bv8);
    assert blob[..SIGNED_SIZE] == zeros;
    assert blob[33..] == old(report.blob[33..]);
    ret := 0;
    var ecc := lib.EccOpen(openFails);
    if ecc.None? {
      ret := -1;
    } else {
      var signature := sign(blob[..SIGNED_SIZE]);
      if signature.None? {
        ret := 5;
      } else {
        PlaceSignature(blob, signature.value);
      }
      lib.EccClose(ecc.value);
    }
    report.pseStatus := 0;
    report.policyReportSize := 0;
  }
}
