/** Concrete inputs: a suite of primitives, a table and requests at which a property is known to fail. */
module Samples {
  import opened Bytes
  import opened Crypto
  import opened KeyDerivation
  import opened Options
  import opened Protocol

  function Fill(n: nat, x: byte): (s: seq<byte>)
    ensures |s| == n && forall i | 0 <= i < n :: s[i] == x
  {
    seq(n, _ => x)
  }

  function At(s: seq<byte>, i: nat): byte {
    if i < |s| then s[i] else 0
  }

  function Digest(m: seq<byte>): seq<byte> { Fill(32, At(m, 4)) }

  function Tag(k: seq<byte>, m: seq<byte>): seq<byte> { Fill(16, (At(k, 0) + At(m, 0)) % 0x100) }

  function Public(a: seq<byte>): seq<byte> { Fill(64, At(a, 0)) }

  function Secret(a: seq<byte>, p: seq<byte>): seq<byte> { Fill(32, (At(a, 0) + At(p, 0)) % 0x100) }

  function Signature(k: seq<byte>, m: seq<byte>): seq<byte> { Fill(64, 0) }

  /** A toy suite: public keys repeat the first byte of the private key, secrets add the first bytes of both
      sides, and the hash and the tag repeat bytes in which the secret shows. */
  const TOY := Suite(Digest, Tag, Public, Secret, Signature)

  lemma ToyIsSuite()
    ensures Sized(TOY) && Agreeing(TOY)
  {
    forall a, b ensures Secret(a, Public(b)) == Secret(b, Public(a)) {
      assert At(Public(b), 0) == At(b, 0) && At(Public(a), 0) == At(a, 0);
    }
  }

  lemma ToySecrets()
    ensures TOY.publicOf(Fill(32, 0)) == Fill(64, 0) && TOY.publicOf(Fill(32, 1)) == Fill(64, 1)
    ensures TOY.shared(Fill(32, 0), Fill(64, 0)) == Fill(32, 0)
    ensures TOY.shared(Fill(32, 0), Fill(64, 1)) == Fill(32, 1)
    ensures TOY.shared(Fill(32, 1), Fill(64, 1)) == Fill(32, 2)
  {
    assert Secret(Fill(32, 0), Fill(64, 0)) == Fill(32, 0);
    assert Secret(Fill(32, 0), Fill(64, 1)) == Fill(32, 1);
    assert Secret(Fill(32, 1), Fill(64, 1)) == Fill(32, 2);
    assert Public(Fill(32, 0)) == Fill(64, 0) && Public(Fill(32, 1)) == Fill(64, 1);
  }

  /** The toy suite with the table of the program: one entry, for group 0. */
  function ToyConfig(build: Build): Config {
    Config(TOY, build, [Group(0, ZERO_KEY)], [], [])
  }

  /** Message 1 with a `g_a` of bytes `x`, answered with a private key of bytes `x`. */
  function Offer(x: byte, fails: set<Site>): Call {
    Call1(Some(Fill(64, x) + Fill(4, 0)), MSG1_SIZE, true, Msg1Env(fails, Fill(32, x), []))
  }

  lemma OfferIsValid(x: byte, fails: set<Site>)
    ensures ValidCall(Offer(x, fails)) && WellFormedCall(Offer(x, fails))
    ensures Offer(x, fails).msg.value[..64] == Fill(64, x)
  {
  }

  /** Secrets with different first bytes give different keys, in both builds. */
  lemma ToyKeys(build: Build, x: byte)
    ensures SessionKeys(ToyConfig(build), Fill(32, x)).vk == Fill(16, if build.SuppliedKdf? then x else (x + 1) % 0x100)
  {
    var s := Fill(32, x);
    if build.SuppliedKdf? {
      assert HashInput(s, 1)[4] == x;
      assert TOY.sha256(HashInput(s, 1)) == Digest(HashInput(s, 1)) == Fill(32, x);
      assert Fill(32, x)[16..32] == Fill(16, x);
    } else {
      assert TOY.cmac(ZERO_KEY, s) == Tag(ZERO_KEY, s) == Fill(16, x);
    }
  }
}
