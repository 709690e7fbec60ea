/** The FNV-1a 64-bit hasher behind the interner's hash map
    (ch21/src/lox/fnv.rs), with the offset basis and prime of section 2 of
    the IETF draft "The FNV Non-Cryptographic Hash Algorithm"
    (draft-eastlake-fnv). The state is a `bv64`, whose `*` wraps modulo
    2^64 as Rust's `wrapping_mul` does. */
module CloxFnv {

  /** The 64-bit FNV offset basis. */
  const OffsetBasis: bv64 := 0xcbf2_9ce4_8422_2325

  /** The 64-bit FNV prime, 2^40 + 2^8 + 0xb3. */
  const Prime: bv64 := 0x0000_0100_0000_01b3

  datatype FnvHasher = FnvHasher(state: bv64)

  /** `FnvHasher::default`: the state starts at the offset basis. */
  function Default(): (h: FnvHasher)
    ensures h.state == OffsetBasis
  {
    FnvHasher(OffsetBasis)
  }

  /** One round of FNV-1a: xor the byte in, then multiply. */
  function Round(hash: bv64, byte: bv8): bv64 {
    (hash ^ (byte as bv64)) * Prime
  }

  /** The state after absorbing `bytes` in order, starting from `hash`. */
  function Absorb(hash: bv64, bytes: seq<bv8>): bv64
    decreases |bytes|
  {
    if |bytes| == 0 then hash else Absorb(Round(hash, bytes[0]), bytes[1..])
  }

  /** `finish`: the state, unchanged. */
  function Finish(h: FnvHasher): (r: bv64)
    ensures r == h.state
  {
    h.state
  }

  /** `write`: the loop over the bytes. */
  method Write(h: FnvHasher, bytes: seq<bv8>) returns (r: FnvHasher)
    ensures r.state == Absorb(h.state, bytes)
    ensures |bytes| == 0 ==> r == h
  {
    var hash := h.state;
    var i := 0;
    while i < |bytes|
      invariant 0 <= i <= |bytes|
      invariant Absorb(hash, bytes[i..]) == Absorb(h.state, bytes)
    {
      assert bytes[i..][1..] == bytes[i + 1..];
      hash := Round(hash, bytes[i]);
      i := i + 1;
    }
    assert bytes[i..] == [];
    r := FnvHasher(hash);
  }

  /** Writing `a` then `b` gives the state writing `a + b` gives. */
  lemma {:induction false} AbsorbAppend(hash: bv64, a: seq<bv8>, b: seq<bv8>)
    ensures Absorb(Absorb(hash, a), b) == Absorb(hash, a + b)
    decreases |a|
  {
    if |a| == 0 {
      assert a + b == b;
    } else {
      assert (a + b)[0] == a[0] && (a + b)[1..] == a[1..] + b;
      AbsorbAppend(Round(hash, a[0]), a[1..], b);
    }
  }

  /** The two test vectors: "hello" and "hello world". */
  lemma TestVectors()
    ensures Absorb(OffsetBasis, [0x68, 0x65, 0x6c, 0x6c, 0x6f]) == 0xa430_d846_80aa_bd0b
    ensures Absorb(OffsetBasis, [0x68, 0x65, 0x6c, 0x6c, 0x6f, 0x20, 0x77, 0x6f, 0x72, 0x6c, 0x64]) == 0x779a_65e7_023c_d2e7
  {
  }
}
