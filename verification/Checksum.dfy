/** The checksum over a copied user buffer: signed little-endian 16-bit words, plus a signed odd byte. */
module Checksum {
  import opened Bytes
  import opened Options

  const INT32_MIN: int := -0x8000_0000
  const INT32_MAX: int := 0x7fff_ffff

  predicate InInt32(x: int) {
    INT32_MIN <= x <= INT32_MAX
  }

  function Signed8(b: byte): int { if b < 0x80 then b else b - 0x100 }

  function Signed16(low: byte, high: byte): int {
    var u := low + 0x100 * high;
    if u < 0x8000 then u else u - 0x1_0000
  }

  /** The two's complement reading: in range, and congruent to the unsigned one. */
  lemma SignedReadings(low: byte, high: byte)
    ensures -0x80 <= Signed8(low) < 0x80 && (low - Signed8(low)) % 0x100 == 0
    ensures -0x8000 <= Signed16(low, high) < 0x8000
    ensures (low as int + 0x100 * high as int - Signed16(low, high)) % 0x1_0000 == 0
  {
  }

  /** The sum that the pointer walk accumulates. */
  function WordSum(s: seq<byte>): int {
    if |s| >= 2 then Signed16(s[0], s[1]) + WordSum(s[2..])
    else if |s| == 1 then Signed8(s[0])
    else 0
  }

  /** Bitwise complement of a 32-bit two's complement number. */
  function Complement(x: int): int { -x - 1 }

  /** The accumulator leaves `int32_t` at some point of the walk. */
  ghost predicate Overflows(s: seq<byte>) {
    !InInt32(WordSum(s)) || OverflowsWithin(s, |s|)
  }

  /** It does so in the first `n` bytes, after some whole word. */
  ghost predicate OverflowsWithin(s: seq<byte>, n: nat)
    requires n <= |s|
  {
    exists k: nat :: 2 * k <= n && !InInt32(WordSum(s[..2 * k]))
  }

  lemma {:induction false} WordSumSplits(s: seq<byte>, t: seq<byte>)
    requires |s| % 2 == 0
    ensures WordSum(s + t) == WordSum(s) + WordSum(t)
  {
    if s == [] {
      assert s + t == t;
    } else {
      assert (s + t)[2..] == s[2..] + t;
      WordSumSplits(s[2..], t);
    }
  }

  lemma {:induction false} WordSumBounds(s: seq<byte>)
    ensures -0x8000 * (|s| / 2) - 0x80 * (|s| % 2) <= WordSum(s) <= 0x7fff * (|s| / 2) + 0x7f * (|s| % 2)
  {
    if |s| >= 2 { WordSumBounds(s[2..]); }
  }

  /** `words` equal words, then the odd byte if there is one. */
  function Uniform(words: nat, low: byte, high: byte, odd: seq<byte>): seq<byte> {
    if words == 0 then odd else [low, high] + Uniform(words - 1, low, high, odd)
  }

  lemma {:induction false} UniformSum(words: nat, low: byte, high: byte, odd: seq<byte>)
    ensures var s := Uniform(words, low, high, odd);
            |s| == 2 * words + |odd| && WordSum(s) == Signed16(low, high) * words + WordSum(odd)
  {
    if words > 0 {
      var rest, word := Uniform(words - 1, low, high, odd), Signed16(low, high);
      UniformSum(words - 1, low, high, odd);
      assert ([low, high] + rest)[2..] == rest;
      assert word * words == word * (words - 1) + word;
    }
  }

  function Lowest(count: nat): seq<byte> { Uniform(count / 2, 0, 0x80, if count % 2 == 1 then [0x80] else []) }

  function Highest(count: nat): seq<byte> { Uniform(count / 2, 0xff, 0x7f, if count % 2 == 1 then [0x7f] else []) }

  /** For every length some buffer attains the lower bound and some buffer the upper one. */
  lemma BoundsAttained(count: nat)
    ensures |Lowest(count)| == |Highest(count)| == count
    ensures WordSum(Lowest(count)) == -0x8000 * (count / 2) - 0x80 * (count % 2)
    ensures WordSum(Highest(count)) == 0x7fff * (count / 2) + 0x7f * (count % 2)
  {
    UniformSum(count / 2, 0, 0x80, if count % 2 == 1 then [0x80] else []);
    UniformSum(count / 2, 0xff, 0x7f, if count % 2 == 1 then [0x7f] else []);
  }

  /** The signed accumulator is safe on every buffer of a length exactly when the length is at most 131072. */
  lemma SafeIffShort(count: nat)
    ensures (forall s: seq<byte> | |s| == count :: !Overflows(s)) <==> count <= 0x2_0000
  {
    if count > 0x2_0000 {
      BoundsAttained(count);
      assert Overflows(Lowest(count));
    } else {
      forall s: seq<byte> | |s| == count ensures !Overflows(s) {
        WordSumBounds(s);
        forall k: nat | 2 * k <= |s| ensures InInt32(WordSum(s[..2 * k])) {
          WordSumBounds(s[..2 * k]);
        }
      }
    }
  }

  /** One word further. */
  lemma NextWord(s: seq<byte>, n: nat)
    requires n % 2 == 0 && n + 2 <= |s|
    ensures WordSum(s[..n + 2]) == WordSum(s[..n]) + Signed16(s[n], s[n + 1])
    ensures OverflowsWithin(s, n + 2) <==> OverflowsWithin(s, n) || !InInt32(WordSum(s[..n + 2]))
  {
    assert s[..n + 2] == s[..n] + s[n..n + 2] && s[n..n + 2][2..] == [];
    WordSumSplits(s[..n], s[n..n + 2]);
    hide WordSum;
    assert forall k: nat :: 2 * k <= n + 2 && 2 * k > n ==> k == n / 2 + 1;
    assert n + 2 == 2 * (n / 2 + 1);
  }

  /** The end of the walk, with at most one byte left. */
  lemma {:induction false} LastByte(s: seq<byte>, n: nat)
    requires n % 2 == 0 && n <= |s| <= n + 1
    ensures WordSum(s) == WordSum(s[..n]) + if n < |s| then Signed8(s[n]) else 0
    ensures Overflows(s) <==> OverflowsWithin(s, n) || (n < |s| && !InInt32(WordSum(s)))
  {
    assert s == s[..n] + s[n..];
    WordSumSplits(s[..n], s[n..]);
    assert n < |s| ==> s[n..] == [s[n]];
    hide WordSum;
    WholeWords(s, n);
  }

  /** An odd byte adds no whole word. */
  lemma {:induction false} WholeWords(s: seq<byte>, n: nat)
    requires n % 2 == 0 && n <= |s| <= n + 1
    ensures OverflowsWithin(s, |s|) <==> OverflowsWithin(s, n)
    ensures n == |s| && !InInt32(WordSum(s)) ==> OverflowsWithin(s, n)
  {
    hide WordSum, InInt32;
    assert forall k: nat :: 2 * k <= |s| ==> 2 * k <= n;
    if n == |s| { assert s == s[..2 * (n / 2)]; }
  }

  /** `checksum_internal`; `overflowed` is whether the accumulator ever left 32 bits. */
  method ChecksumInternal(buf: array<byte>, count: nat) returns (sum: int, overflowed: bool)
    requires count <= buf.Length
    ensures sum == Complement(WordSum(buf[..count])) && sum + WordSum(buf[..count]) == -1
    ensures overflowed <==> Overflows(buf[..count])
  {
    ghost var s := buf[..count];
    var acc, ptr, left := 0, 0, count;
    overflowed := false;
    assert WordSum(s[..0]) == 0 && !OverflowsWithin(s, 0);
    hide WordSum, OverflowsWithin;
    while left > 1
      invariant 0 <= left && ptr + left == count && ptr % 2 == 0
      invariant acc == WordSum(s[..ptr])
      invariant overflowed <==> OverflowsWithin(s, ptr)
      decreases left
    {
      NextWord(s, ptr);
      acc := acc + Signed16(buf[ptr], buf[ptr + 1]);
      overflowed := overflowed || !InInt32(acc);
      ptr := ptr + 2;
      left := left - 2;
    }
    LastByte(s, ptr);
    if left > 0 {
      acc := acc + Signed8(buf[ptr]);
      overflowed := overflowed || !InInt32(acc);
    }
    sum := Complement(acc);
  }

  /** "SGX_SUCCESS" with its terminator. */
  const SUCCESS: seq<byte> := [83, 71, 88, 95, 83, 85, 67, 67, 69, 83, 83, 0]

  lemma SuccessText()
    ensures SUCCESS == Ascii("SGX_SUCCESS") + [0]
  {
  }

  function Min(a: nat, b: nat): nat { if a < b then a else b }

  /** `ecall_pointer_user_check`: aborts (None) unless the buffer lies outside the enclave; otherwise sums at
      most 100 bytes, without overflow, and overwrites the start of the caller's buffer. */
  method PointerUserCheck(val: array<byte>, sz: nat, outside: bool) returns (len: Option<nat>, sum: int)
    requires val.Length == sz
    modifies val
    ensures !outside ==> len == None && val[..] == old(val[..])
    ensures outside ==>
      && len == Some(Min(sz, 100))
      && !Overflows(old(val[..Min(sz, 100)]))
      && sum == Complement(WordSum(old(val[..Min(sz, 100)])))
      && sum + WordSum(old(val[..Min(sz, 100)])) == -1
      && val[..] == SUCCESS[..Min(sz, 12)] + old(val[Min(sz, 12)..])
  {
    if !outside {
      return None, 0;
    }
    var tmp := new byte[100](_ => 0);
    var n := if sz > 100 then 100 else sz;
    forall i | 0 <= i < n { tmp[i] := val[i]; }
    assert tmp[..n] == old(val[..Min(sz, 100)]);
    var overflowed;
    sum, overflowed := ChecksumInternal(tmp, n);
    SafeIffShort(n);
    forall i | 0 <= i < (if n > 12 then 12 else n) { val[i] := SUCCESS[i]; }
    len := Some(n);
  }
}
