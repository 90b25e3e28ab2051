/** The cryptographic library and the allocator as the service provider and the enclave see them. */
module Crypto {
  import opened Bytes
  import opened Options

  /** The primitives, of which nothing is known but what `Sized` and `Agreeing` say. */
  datatype Suite = Suite(
    sha256: seq<byte> -> seq<byte>,
    cmac: (seq<byte>, seq<byte>) -> seq<byte>,
    publicOf: seq<byte> -> seq<byte>,
    shared: (seq<byte>, seq<byte>) -> seq<byte>,
    sign: (seq<byte>, seq<byte>) -> seq<byte>)

  /** Output lengths: hash 32, tag 16, public key 64, shared secret 32, signature 64. */
  ghost predicate Sized(c: Suite) {
    && (forall m :: |c.sha256(m)| == 32)
    && (forall k, m :: |c.cmac(k, m)| == 16)
    && (forall a :: |c.publicOf(a)| == 64)
    && (forall a, p :: |c.shared(a, p)| == 32)
    && (forall k, m :: |c.sign(k, m)| == 64)
  }

  /** Diffie-Hellman: both sides compute the same secret. */
  ghost predicate Agreeing(c: Suite) {
    forall a, b :: c.shared(a, c.publicOf(b)) == c.shared(b, c.publicOf(a))
  }

  /** Open contexts and live blocks. A handle can only be closed, and a block only freed, while it is live;
      `fails` is the outcome of a fallible call. */
  class Library {
    const suite: Suite
    var next: nat
    var ecc: set<nat>
    var sha: map<nat, seq<byte>>
    var blocks: set<nat>

    ghost predicate Valid()
      reads this
    {
      && Sized(suite)
      && (forall h | h in ecc :: h < next)
      && (forall h | h in sha :: h < next)
      && (forall h | h in blocks :: h < next)
    }

    constructor (suite: Suite)
      requires Sized(suite)
      ensures Valid() && this.suite == suite && ecc == {} && sha == map[] && blocks == {}
    {
      this.suite := suite;
      next, ecc, sha, blocks := 0, {}, map[], {};
    }

    method EccOpen(fails: bool) returns (h: Option<nat>)
      requires Valid()
      modifies this
      ensures Valid() && sha == old(sha) && blocks == old(blocks)
      ensures if fails then h == None && ecc == old(ecc)
              else h.Some? && h.value !in old(ecc) && ecc == old(ecc) + {h.value}
    {
      h := None;
      if !fails {
        h := Some(next);
        ecc, next := ecc + {next}, next + 1;
      }
    }

    method EccClose(h: nat)
      requires Valid() && h in ecc
      modifies this
      ensures Valid() && sha == old(sha) && blocks == old(blocks) && ecc == old(ecc) - {h}
    {
      ecc := ecc - {h};
    }

    method ShaInit(fails: bool) returns (h: Option<nat>)
      requires Valid()
      modifies this
      ensures Valid() && ecc == old(ecc) && blocks == old(blocks)
      ensures if fails then h == None && sha == old(sha)
              else h.Some? && h.value !in old(sha) && sha == old(sha)[h.value := []]
    {
      h := None;
      if !fails {
        h := Some(next);
        sha, next := sha[next := []], next + 1;
      }
    }

    method ShaUpdate(h: nat, data: seq<byte>, fails: bool) returns (ok: bool)
      requires Valid() && h in sha
      modifies this
      ensures Valid() && ecc == old(ecc) && blocks == old(blocks) && ok == !fails
      ensures sha == if fails then old(sha) else old(sha)[h := old(sha)[h] + data]
    {
      ok := !fails;
      if ok { sha := sha[h := sha[h] + data]; }
    }

    /** The hash of everything fed to the context so far. */
    method ShaHash(h: nat, fails: bool) returns (hash: Option<seq<byte>>)
      requires Valid() && h in sha
      ensures hash == if fails then None else Some(suite.sha256(sha[h]))
    {
      hash := if fails then None else Some(suite.sha256(sha[h]));
    }

    method ShaClose(h: nat)
      requires Valid() && h in sha
      modifies this
      ensures Valid() && ecc == old(ecc) && blocks == old(blocks) && sha == old(sha) - {h}
    {
      sha := sha - {h};
    }

    method Malloc(fails: bool) returns (p: Option<nat>)
      requires Valid()
      modifies this
      ensures Valid() && sha == old(sha) && ecc == old(ecc)
      ensures if fails then p == None && blocks == old(blocks)
              else p.Some? && p.value !in old(blocks) && blocks == old(blocks) + {p.value}
    {
      p := None;
      if !fails {
        p := Some(next);
        blocks, next := blocks + {next}, next + 1;
      }
    }

    /** `free`, which accepts a null pointer. */
    method Free(p: Option<nat>)
      requires Valid() && (p.Some? ==> p.value in blocks)
      modifies this
      ensures Valid() && sha == old(sha) && ecc == old(ecc)
      ensures blocks == if p.Some? then old(blocks) - {p.value} else old(blocks)
    {
      if p.Some? { blocks := blocks - {p.value}; }
    }
  }
}
