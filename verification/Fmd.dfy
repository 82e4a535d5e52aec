/**
 Fuzzy message detection (decaf377-fmd/src). The group of prime order `q` is
 written additively as the integers modulo `q`, with basepoint 1, so that a scalar
 times an element is their product modulo `q`. Encodings and hashes are parameters.
 */
module Fmd {
  import opened Prelude
  import opened Modular

  type Byte = x: int | 0 <= x < 256
  type Bytes = seq<Byte>

  /** Clues carry their ciphertext bits in three bytes. */
  const MAX_PRECISION: nat := 24

  datatype FmdError = PrecisionTooLarge | InvalidAddress | ZeroScalar | PrecisionOutOfBounds

  datatype Params = Params(
    q: nat,
    compress: nat -> Bytes,
    decompress: Bytes -> Option<nat>,
    scalarToBytes: nat -> Bytes,
    scalarFromBytes: Bytes -> Option<nat>,
    hashChild: (Bytes, nat) -> nat,
    hashBit: (Bytes, Bytes, Bytes) -> bool,
    hashScalar: (Bytes, nat, Bytes) -> nat)
  {
    /**
     The group has prime order, and encodings of elements and scalars are 32 bytes that decode to
     what was encoded.
     */
    ghost predicate Valid() {
      && Prime(q)
      && (forall e: nat :: e < q ==> |compress(e)| == 32 && decompress(compress(e)) == Some(e))
      && (forall s: nat :: s < q ==> |scalarToBytes(s)| == 32 && scalarFromBytes(scalarToBytes(s)) == Some(s))
      && (forall b, e :: decompress(b) == Some(e) ==> e < q)
    }

    function Mul(s: nat, e: nat): (r: nat)
      requires q > 0
    {
      s * e % q
    }

    function Base(s: nat): nat
      requires q > 0
    {
      Mul(s, 1)
    }

    lemma BaseIsSmall(s: nat)
      requires s < q
      ensures Base(s) == s
    {
      SmallMod(s, q);
    }

    // Child keys (hkd.rs)

    function DerivePublic(rootPub: nat, rootPubEnc: Bytes, index: nat): nat
      requires q > 0
    {
      (rootPub + Base(hashChild(rootPubEnc, index) % q)) % q
    }

    function DerivePrivate(rootPriv: nat, rootPubEnc: Bytes, index: nat): nat
      requires q > 0
    {
      (rootPriv + hashChild(rootPubEnc, index) % q) % q
    }

    /** Child keys derived in public and in private are a key pair. */
    lemma ChildrenMatch(dtk: nat, enc: Bytes, index: nat)
      requires q > 0 && dtk < q
      ensures DerivePublic(Base(dtk), enc, index) == Base(DerivePrivate(dtk, enc, index))
    {
      var h := hashChild(enc, index) % q;
      assert Base(dtk) == dtk && Base(h) == h by { SmallMod(dtk, q); SmallMod(h, q); }
      SmallMod(DerivePrivate(dtk, enc, index), q);
    }
  }

  // ---------------------------------------------------------------------------------------------
  // Bits in bytes, least significant first
  // ---------------------------------------------------------------------------------------------

  function ToNat(bits: seq<bool>): nat {
    if bits == [] then 0 else (if bits[0] then 1 else 0) + 2 * ToNat(bits[1..])
  }

  lemma {:induction false} ToNatBound(bits: seq<bool>)
    ensures ToNat(bits) < Pow2(|bits|)
  {
    if bits != [] {
      ToNatBound(bits[1..]);
    }
  }

  function ToByte(bits: seq<bool>): (b: Byte)
    requires |bits| == 8
  {
    ToNatBound(bits);
    assert Pow2(8) == 256 by { assert Pow2(4) == 16; }
    ToNat(bits)
  }

  /** Three bytes holding 24 bits. */
  function Pack(bits: seq<bool>): (bytes: Bytes)
    requires |bits| == MAX_PRECISION
    ensures |bytes| == 3
  {
    [ToByte(bits[..8]), ToByte(bits[8..16]), ToByte(bits[16..])]
  }

  function Bit(b: nat, i: nat): bool {
    if i == 0 then b % 2 == 1 else Bit(b / 2, i - 1)
  }

  function BitAt(bytes: Bytes, i: nat): bool
    requires i < 8 * |bytes|
  {
    Bit(bytes[i / 8], i % 8)
  }

  lemma {:induction false} BitOfNat(bits: seq<bool>, i: nat)
    requires i < |bits|
    ensures Bit(ToNat(bits), i) == bits[i]
  {
    if i > 0 {
      assert ToNat(bits) / 2 == ToNat(bits[1..]);
      BitOfNat(bits[1..], i - 1);
    }
  }

  /** Packing keeps every bit in its place. */
  lemma PackKeepsBits(bits: seq<bool>, i: nat)
    requires |bits| == MAX_PRECISION && i < MAX_PRECISION
    ensures BitAt(Pack(bits), i) == bits[i]
  {
    var j := i / 8;
    var part := if j == 0 then bits[..8] else if j == 1 then bits[8..16] else bits[16..];
    assert Pack(bits)[j] == ToByte(part);
    BitOfNat(part, i % 8);
  }

  // ---------------------------------------------------------------------------------------------
  // Specification of clues and their detection
  // ---------------------------------------------------------------------------------------------

  datatype DetectionKey = DetectionKey(dtk: nat, xs: seq<nat>)

  function FromField(p: Params, dtk: nat): (k: DetectionKey)
    requires p.q > 0
    ensures |k.xs| == MAX_PRECISION
  {
    var enc := p.compress(p.Base(dtk));
    DetectionKey(dtk, seq(MAX_PRECISION, i requires 0 <= i < MAX_PRECISION => p.DerivePrivate(dtk, enc, i)))
  }

  function ClueKey(p: Params, k: DetectionKey): Bytes
    requires p.q > 0
  {
    p.compress(p.Base(k.dtk))
  }

  /** The ciphertext bits of a clue: complements of the key bits below the precision, zero above. */
  function Ciphertexts(p: Params, rootPub: nat, rootPubEnc: Bytes, precision: nat, r: nat, z: nat): (bits: seq<bool>)
    requires p.q > 0
    ensures |bits| == MAX_PRECISION
  {
    seq(MAX_PRECISION, i requires 0 <= i < MAX_PRECISION =>
      i < precision && !p.hashBit(p.compress(p.Base(r)), p.compress(p.Mul(r, p.DerivePublic(rootPub, rootPubEnc, i))),
          p.compress(p.Base(z))))
  }

  /** The hash that ties the clue to its point, precision and ciphertext. */
  function Binding(p: Params, rootPub: nat, rootPubEnc: Bytes, precision: nat, r: nat, z: nat): (m: nat)
    requires p.q > 0
    ensures m < p.q
  {
    p.hashScalar(p.compress(p.Base(r)), precision, Pack(Ciphertexts(p, rootPub, rootPubEnc, precision, r, z))) % p.q
  }

  function Response(p: Params, m: nat, r: nat, z: nat): (y: nat)
    requires p.q > 0
    ensures y < p.q
  {
    (z - m) * Inverse(r, p.q) % p.q
  }

  /** The clue for a clue key, made with the scalars `r` and `z`; no cache appears in it. */
  function ClueFor(p: Params, rootPub: nat, rootPubEnc: Bytes, precision: nat, r: nat, z: nat): Bytes
    requires p.q > 0 && precision < MAX_PRECISION
  {
    p.compress(p.Base(r))
    + p.scalarToBytes(Response(p, Binding(p, rootPub, rootPubEnc, precision, r, z), r, z))
    + [precision]
    + Pack(Ciphertexts(p, rootPub, rootPubEnc, precision, r, z))
  }

  /** The point and the scalar of a clue, if both decode and neither is zero. */
  function Header(p: Params, clue: Bytes): Option<(nat, nat)>
    requires |clue| == 68
  {
    match (p.decompress(clue[..32]), p.scalarFromBytes(clue[32..64]))
    case (Some(point), Some(y)) => if point == 0 || y == 0 then None else Some((point, y))
    case _ => None
  }

  /** The commitment a clue's header and hash reconstruct. */
  function Reconstructed(p: Params, clue: Bytes, point: nat, y: nat): nat
    requires p.q > 0 && |clue| == 68
  {
    var m := p.hashScalar(clue[..32], clue[64], clue[65..]) % p.q;
    (p.Mul(y, point) + p.Base(m)) % p.q
  }

  /** Bit `i` of the clue decrypts to one under child key `i`. */
  predicate BitMatches(p: Params, k: DetectionKey, clue: Bytes, point: nat, y: nat, i: nat)
    requires p.q > 0 && |clue| == 68 && i < MAX_PRECISION && |k.xs| == MAX_PRECISION
  {
    BitAt(clue[65..], i) != p.hashBit(clue[..32], p.compress(p.Mul(point, k.xs[i])),
        p.compress(Reconstructed(p, clue, point, y)))
  }

  /** The first `n` bits of a clue with a good header decrypt to one. */
  ghost predicate MatchesTo(p: Params, k: DetectionKey, clue: Bytes, n: nat)
    requires p.q > 0 && |clue| == 68 && n <= MAX_PRECISION && |k.xs| == MAX_PRECISION
  {
    var h := Header(p, clue);
    h.Some? && forall i :: 0 <= i < n ==> BitMatches(p, k, clue, h.value.0, h.value.1, i)
  }

  /** The detection key recognizes the clue. */
  ghost predicate Matches(p: Params, k: DetectionKey, clue: Bytes)
    requires p.q > 0 && |clue| == 68 && |k.xs| == MAX_PRECISION
  {
    clue[64] <= MAX_PRECISION && MatchesTo(p, k, clue, clue[64])
  }

  // ---------------------------------------------------------------------------------------------
  // No false negatives
  // ---------------------------------------------------------------------------------------------

  /** The commitment reconstructed from a clue is the one its maker chose. */
  lemma ResponseOpens(p: Params, m: nat, r: nat, z: nat)
    requires Prime(p.q) && 0 < r < p.q && z < p.q && m < p.q
    ensures (p.Mul(Response(p, m, r, z), p.Base(r)) + p.Base(m)) % p.q == p.Base(z)
    ensures Response(p, m, r, z) == 0 <==> z == m
  {
    var q, inv := p.q, Inverse(r, p.q);
    InverseInverts(r, q);
    hide Inverse, Prime;
    p.BaseIsSmall(r);
    p.BaseIsSmall(m);
    p.BaseIsSmall(z);
    hide Params.Base;
    Opens(z, m, r, inv, q);
  }

  lemma Opens(z: nat, m: nat, r: nat, inv: nat, q: nat)
    requires q > 1 && z < q && m < q && r * inv % q == 1
    ensures ((z - m) * inv % q * r % q + m) % q == z
    ensures (z - m) * inv % q == 0 <==> z == m
  {
    Cancel(z - m, r, inv, q);
    CancelZero(z - m, r, inv, q);
    Restore(z, m, q);
  }

  lemma ClueParts(p: Params, rootPub: nat, rootPubEnc: Bytes, precision: nat, r: nat, z: nat)
    requires p.Valid() && precision < MAX_PRECISION
    ensures var clue := ClueFor(p, rootPub, rootPubEnc, precision, r, z);
            && |clue| == 68 && clue[..32] == p.compress(p.Base(r)) && clue[64] == precision
            && clue[32..64] == p.scalarToBytes(Response(p, Binding(p, rootPub, rootPubEnc, precision, r, z), r, z))
            && clue[65..] == Pack(Ciphertexts(p, rootPub, rootPubEnc, precision, r, z))
  {
    hide Ciphertexts, Response, Binding, Pack;
    var y := p.scalarToBytes(Response(p, Binding(p, rootPub, rootPubEnc, precision, r, z), r, z));
    var point := p.compress(p.Base(r));
    assert |point| == 32 && |y| == 32;
    var clue := ClueFor(p, rootPub, rootPubEnc, precision, r, z);
    assert clue[..32] == point;
    assert clue[32..64] == y;
    assert clue[65..] == Pack(Ciphertexts(p, rootPub, rootPubEnc, precision, r, z));
  }

  /** The key bit that the maker of a clue hides at place `i`: a hash of the point shared with child key `i`. */
  function HiddenBit(p: Params, rootPub: nat, rootPubEnc: Bytes, r: nat, z: nat, i: nat): bool
    requires p.q > 0
  {
    var child := p.DerivePublic(rootPub, rootPubEnc, i);
    p.hashBit(p.compress(p.Base(r)), p.compress(p.Mul(r, child)), p.compress(p.Base(z)))
  }

  /** The key bit that a detection key computes at place `i` from the clue's point and its own child key. */
  function SharedBit(p: Params, dtk: nat, r: nat, z: nat, i: nat): bool
    requires p.q > 0
  {
    var child := p.DerivePrivate(dtk, p.compress(p.Base(dtk)), i);
    p.hashBit(p.compress(p.Base(r)), p.compress(p.Mul(p.Base(r), child)), p.compress(p.Base(z)))
  }

  /**
   Any detection key recognizes a clue made for any key if and only if the maker's scalar
   differs from the hash in the clue and all key bits below the precision agree.
   */
  lemma DetectsIff(p: Params, rootPub: nat, rootPubEnc: Bytes, dtk: nat, precision: nat, r: nat, z: nat)
    requires p.Valid() && dtk < p.q && precision < MAX_PRECISION && 0 < r < p.q && z < p.q
    ensures var clue := ClueFor(p, rootPub, rootPubEnc, precision, r, z);
            && |clue| == 68
            && (Matches(p, FromField(p, dtk), clue) <==>
                && z != p.hashScalar(p.compress(p.Base(r)), precision, clue[65..]) % p.q
                && forall i :: 0 <= i < precision ==>
                     SharedBit(p, dtk, r, z, i) == HiddenBit(p, rootPub, rootPubEnc, r, z, i))
  {
    hide Ciphertexts, Response, Pack, ClueFor, FromField, Prime, SharedBit, HiddenBit, BitMatches;
    var m := Binding(p, rootPub, rootPubEnc, precision, r, z);
    var clue := ClueFor(p, rootPub, rootPubEnc, precision, r, z);
    ClueParts(p, rootPub, rootPubEnc, precision, r, z);
    ResponseOpens(p, m, r, z);
    SmallMod(r, p.q);
    assert Header(p, clue) == if z == m then None else Some((r, Response(p, m, r, z)));
    if z != m {
      forall i | 0 <= i < precision
        ensures BitMatches(p, FromField(p, dtk), clue, r, Response(p, m, r, z), i) <==>
                SharedBit(p, dtk, r, z, i) == HiddenBit(p, rootPub, rootPubEnc, r, z, i)
      {
        BitOpens(p, rootPub, rootPubEnc, dtk, precision, r, z, i);
      }
    }
  }

  /**
   The matching detection key recognizes every clue, at every precision, except when
   the maker's scalar `z` happens to equal the hash in the clue; then the response is
   zero, which detection refuses.
   */
  lemma NoFalseNegatives(p: Params, dtk: nat, precision: nat, r: nat, z: nat)
    requires p.Valid() && dtk < p.q && precision < MAX_PRECISION && 0 < r < p.q && z < p.q
    ensures var root := p.Base(dtk);
            var clue := ClueFor(p, root, p.compress(root), precision, r, z);
            && |clue| == 68
            && (Matches(p, FromField(p, dtk), clue) <==> z != Binding(p, root, p.compress(root), precision, r, z))
  {
    hide Ciphertexts, Pack, ClueFor, FromField, Prime, SharedBit, HiddenBit, Matches;
    var root := p.Base(dtk);
    var enc := p.compress(root);
    DetectsIff(p, root, enc, dtk, precision, r, z);
    ClueParts(p, root, enc, precision, r, z);
    forall i | 0 <= i < precision
      ensures SharedBit(p, dtk, r, z, i) == HiddenBit(p, root, enc, r, z, i)
    {
      OwnBits(p, dtk, r, z, i);
    }
  }

  /** A key's own bits agree. */
  lemma OwnBits(p: Params, dtk: nat, r: nat, z: nat, i: nat)
    requires p.q > 0 && dtk < p.q && r < p.q
    ensures SharedBit(p, dtk, r, z, i) == HiddenBit(p, p.Base(dtk), p.compress(p.Base(dtk)), r, z, i)
  {
    p.ChildrenMatch(dtk, p.compress(p.Base(dtk)), i);
    SmallMod(p.DerivePrivate(dtk, p.compress(p.Base(dtk)), i), p.q);
    SmallMod(r, p.q);
  }

  /** A clue whose point or response does not decode, or is zero, is recognized by no key. */
  lemma MalformedIsRefused(p: Params, k: DetectionKey, clue: Bytes)
    requires p.q > 0 && |clue| == 68 && |k.xs| == MAX_PRECISION
    requires (forall point :: 0 < point < p.q ==> p.decompress(clue[..32]) != Some(point))
             || (forall y :: 0 < y ==> p.scalarFromBytes(clue[32..64]) != Some(y))
    requires p.Valid()
    ensures !Matches(p, k, clue)
  {
    hide BitMatches, Prime;
  }

  /** At precision 0 the hash does not depend on `z`, so for every key and every `r` there is a `z` that is missed. */
  lemma ZeroPrecisionMiss(p: Params, dtk: nat, r: nat) returns (z: nat)
    requires p.Valid() && dtk < p.q && 0 < r < p.q
    ensures z < p.q
    ensures var root := p.Base(dtk);
            var clue := ClueFor(p, root, p.compress(root), 0, r, z);
            |clue| == 68 && !Matches(p, FromField(p, dtk), clue)
  {
    var root := p.Base(dtk);
    var enc := p.compress(root);
    z := Binding(p, root, enc, 0, r, 0);
    assert Ciphertexts(p, root, enc, 0, r, z) == Ciphertexts(p, root, enc, 0, r, 0);
    hide Matches, ClueFor, Ciphertexts;
    NoFalseNegatives(p, dtk, 0, r, z);
  }

  lemma OpensTo(p: Params, rootPub: nat, rootPubEnc: Bytes, precision: nat, r: nat, z: nat)
    requires p.Valid() && precision < MAX_PRECISION && 0 < r < p.q && z < p.q
    ensures var clue := ClueFor(p, rootPub, rootPubEnc, precision, r, z);
            var m := Binding(p, rootPub, rootPubEnc, precision, r, z);
            |clue| == 68 && Reconstructed(p, clue, r, Response(p, m, r, z)) == p.Base(z)
  {
    hide Ciphertexts, Response, Pack, ClueFor, Prime;
    ClueParts(p, rootPub, rootPubEnc, precision, r, z);
    ResponseOpens(p, Binding(p, rootPub, rootPubEnc, precision, r, z), r, z);
    SmallMod(r, p.q);
  }

  lemma BitOpens(p: Params, rootPub: nat, rootPubEnc: Bytes, dtk: nat, precision: nat, r: nat, z: nat, i: nat)
    requires p.Valid() && dtk < p.q && precision < MAX_PRECISION && 0 < r < p.q && z < p.q && i < precision
    ensures var clue := ClueFor(p, rootPub, rootPubEnc, precision, r, z);
            && |clue| == 68
            && (BitMatches(p, FromField(p, dtk), clue, r,
                  Response(p, Binding(p, rootPub, rootPubEnc, precision, r, z), r, z), i) <==>
                SharedBit(p, dtk, r, z, i) == HiddenBit(p, rootPub, rootPubEnc, r, z, i))
  {
    hide Response, Binding, Pack, ClueFor, Prime, BitAt, Reconstructed;
    ClueParts(p, rootPub, rootPubEnc, precision, r, z);
    OpensTo(p, rootPub, rootPubEnc, precision, r, z);
    PackKeepsBits(Ciphertexts(p, rootPub, rootPubEnc, precision, r, z), i);
    SmallMod(r, p.q);
  }
}
