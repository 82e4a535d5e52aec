/** Making and examining clues step by step (decaf377-fmd/src/clue_key.rs, detection.rs). */
module FmdKeys {
  import opened Prelude
  import opened Fmd
  import opened Modular

  /** A clue key with a cache of the child keys derived so far. */
  class ExpandedClueKey {
    const params: Params
    const rootPub: nat
    const rootPubEnc: Bytes
    var subkeys: seq<nat>

    /** The cache is a prefix of the child keys, of any length. */
    ghost predicate Valid()
      reads this
    {
      && params.Valid() && |subkeys| <= MAX_PRECISION
      && forall i :: 0 <= i < |subkeys| ==> subkeys[i] == params.DerivePublic(rootPub, rootPubEnc, i)
    }

    constructor (params: Params, rootPub: nat, rootPubEnc: Bytes)
      requires params.Valid()
      ensures Valid() && subkeys == [] && this.params == params && this.rootPub == rootPub
              && this.rootPubEnc == rootPubEnc
    {
      this.params, this.rootPub, this.rootPubEnc, subkeys := params, rootPub, rootPubEnc, [];
    }

    /** Validate and expand an encoded clue key. */
    static method Expand(params: Params, clueKey: Bytes) returns (r: Result<ExpandedClueKey, FmdError>)
      requires params.Valid()
      ensures r.Ok? <==> params.decompress(clueKey).Some?
      ensures r.Ok? ==>
                && fresh(r.value) && r.value.Valid() && r.value.params == params
                && r.value.rootPubEnc == clueKey && Some(r.value.rootPub) == params.decompress(clueKey)
      ensures r.Err? ==> r.error == InvalidAddress
    {
      var root := params.decompress(clueKey);
      if root.None? {
        return Err(InvalidAddress);
      }
      var key := new ExpandedClueKey(params, root.value, clueKey);
      return Ok(key);
    }

    /** Grow the cache to at least `precision` child keys. */
    method EnsureAtLeast(precision: nat) returns (r: Result<(), FmdError>)
      requires Valid()
      modifies this`subkeys
      ensures Valid() && old(subkeys) <= subkeys
      ensures r.Ok? <==> precision <= MAX_PRECISION
      ensures r.Ok? ==> |subkeys| == if precision <= |old(subkeys)| then |old(subkeys)| else precision
      ensures r.Err? ==> r.error == PrecisionTooLarge && subkeys == old(subkeys)
    {
      if precision > MAX_PRECISION {
        return Err(PrecisionTooLarge);
      }
      var current := |subkeys|;
      if precision <= current {
        return Ok(());
      }
      var expanded: seq<nat> := [];
      for i := current to precision
        invariant |expanded| == i - current
        invariant forall j :: 0 <= j < |expanded| ==>
                  expanded[j] == params.DerivePublic(rootPub, rootPubEnc, current + j)
      {
        expanded := expanded + [params.DerivePublic(rootPub, rootPubEnc, i)];
      }
      subkeys := subkeys + expanded;
      return Ok(());
    }

    /** The clue does not depend on what was cached before. */
    method CreateClue(precision: nat, r: nat, z: nat) returns (clue: Result<Bytes, FmdError>)
      requires Valid() && r < params.q && z < params.q
      modifies this`subkeys
      ensures Valid() && old(subkeys) <= subkeys
      ensures clue.Ok? <==> precision < MAX_PRECISION && r != 0
      ensures clue.Ok? ==> clue.value == ClueFor(params, rootPub, rootPubEnc, precision, r, z)
      ensures precision >= MAX_PRECISION ==> clue == Err(PrecisionTooLarge)
    {
      hide Pack, Inverse;
      if precision >= MAX_PRECISION {
        return Err(PrecisionTooLarge);
      }
      var _ := EnsureAtLeast(precision);
      var pointEncoding := params.compress(params.Base(r));
      var commitEncoding := params.compress(params.Base(z));
      var ctxts := seq(MAX_PRECISION, i => false);
      for i := 0 to precision
        invariant |ctxts| == MAX_PRECISION
        invariant forall j :: 0 <= j < MAX_PRECISION ==>
                    ctxts[j] == (j < i && Ciphertexts(params, rootPub, rootPubEnc, precision, r, z)[j])
      {
        var shared := params.compress(params.Mul(r, subkeys[i]));
        var key := params.hashBit(pointEncoding, shared, commitEncoding);
        ctxts := ctxts[i := !key];
      }
      assert ctxts == Ciphertexts(params, rootPub, rootPubEnc, precision, r, z);
      var m := params.hashScalar(pointEncoding, precision, Pack(ctxts)) % params.q;
      if r == 0 {
        return Err(ZeroScalar);
      }
      var y := (z - m) * Inverse(r, params.q) % params.q;
      return Ok(pointEncoding + params.scalarToBytes(y) + [precision] + Pack(ctxts));
    }
  }

  /**
   Examine a clue, bit by bit, giving up at the first bit that does not match. A clue
   that claims more than 24 bits and matches on all of them has no answer: the next
   child key does not exist.
   */
  method Examine(p: Params, k: DetectionKey, clue: Bytes) returns (r: Result<bool, FmdError>)
    requires p.Valid() && |clue| == 68 && |k.xs| == MAX_PRECISION
    ensures r == Ok(true) <==> Matches(p, k, clue)
    ensures r.Err? <==> clue[64] > MAX_PRECISION && MatchesTo(p, k, clue, MAX_PRECISION)
  {
    var point := p.decompress(clue[..32]);
    if point.None? {
      return Ok(false);
    }
    var y := p.scalarFromBytes(clue[32..64]);
    if y.None? {
      return Ok(false);
    }
    if point.value == 0 || y.value == 0 {
      return Ok(false);
    }
    var commit := p.compress(Reconstructed(p, clue, point.value, y.value));
    for i := 0 to clue[64]
      invariant i <= MAX_PRECISION && MatchesTo(p, k, clue, i)
    {
      if i >= MAX_PRECISION {
        return Err(PrecisionOutOfBounds);
      }
      var shared := p.compress(p.Mul(point.value, k.xs[i]));
      var key := p.hashBit(clue[..32], shared, commit);
      if BitAt(clue[65..], i) == key {
        assert !BitMatches(p, k, clue, point.value, y.value, i);
        return Ok(false);
      }
    }
    return Ok(true);
  }

  lemma KeyOf(p: Params, dtk: nat)
    requires p.Valid()
    ensures FromField(p, dtk).dtk == dtk
  {}

  lemma BaseDecodes(p: Params, s: nat)
    requires p.Valid()
    ensures p.decompress(p.compress(p.Base(s))) == Some(p.Base(s))
  {}

  /**
   From key to clue to detection, whatever the cache held before: a clue made for the clue key of
   `maker` is found by the detection key of `reader` if and only if its scalar `z` differs from
   its hash and the key bits agree, as they all do for the maker itself.
   */
  method MakeAndExamine(
    p: Params, maker: nat, reader: nat, warm: nat, precision: nat, r: nat, z: nat)
    returns (clue: Bytes, found: Result<bool, FmdError>)
    requires p.Valid() && maker < p.q && reader < p.q && warm <= MAX_PRECISION && precision < MAX_PRECISION
    requires 0 < r < p.q && z < p.q
    ensures found.Ok? && |clue| == 68 && clue == ClueFor(p, p.Base(maker), p.compress(p.Base(maker)), precision, r, z)
    ensures var root := p.Base(maker);
            found.value <==>
            && z != p.hashScalar(p.compress(p.Base(r)), precision, clue[65..]) % p.q
            && forall i :: 0 <= i < precision ==>
                 SharedBit(p, reader, r, z, i) == HiddenBit(p, root, p.compress(root), r, z, i)
    ensures reader == maker ==>
              found.value == (z != p.hashScalar(p.compress(p.Base(r)), precision, clue[65..]) % p.q)
  {
    hide Matches, MatchesTo, ClueFor, FromField, Params.Valid, Params.DerivePublic, Ciphertexts,
         Response, Pack, SharedBit, HiddenBit;
    BaseDecodes(p, maker);
    var k := FromField(p, maker);
    assert k.dtk == maker by { KeyOf(p, maker); }
    var expanded := ExpandedClueKey.Expand(p, ClueKey(p, k));
    var key := expanded.value;
    var _ := key.EnsureAtLeast(warm);
    var made := key.CreateClue(precision, r, z);
    clue := made.value;
    DetectsIff(p, p.Base(maker), p.compress(p.Base(maker)), reader, precision, r, z);
    ClueParts(p, p.Base(maker), p.compress(p.Base(maker)), precision, r, z);
    found := Examine(p, FromField(p, reader), clue);
    assert clue[64] == precision;
    assert found.Ok?;
    assert found.value <==> found == Ok(true);
    if reader == maker {
      NoFalseNegatives(p, maker, precision, r, z);
    }
  }
}
