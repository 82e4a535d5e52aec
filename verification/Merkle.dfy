/**
 The note commitment tree and the path check of the transparent spend proof
 (crypto/src/merkle.rs, crypto/src/proofs/transparent.rs:95-123). The tree is
 its leaf sequence, padded with the empty leaf; the hash is a parameter.
 */
module Merkle {
  import opened Transactions
  import opened Modular

  const DEPTH: nat := 32

  const EMPTY_LEAF: Fq := 0

  /** `combine(level, left, right)`. */
  type Combine = (nat, Fq, Fq) -> Fq

  function LeafAt(leaves: seq<Fq>, index: nat): Fq {
    if index < |leaves| then leaves[index] else EMPTY_LEAF
  }

  /** Root of the `index`-th subtree of height `level`. */
  ghost function SubRoot(h: Combine, leaves: seq<Fq>, level: nat, index: nat): Fq {
    if level == 0 then LeafAt(leaves, index)
    else h(level - 1, SubRoot(h, leaves, level - 1, 2 * index), SubRoot(h, leaves, level - 1, 2 * index + 1))
  }

  ghost function Root(h: Combine, leaves: seq<Fq>): Fq {
    SubRoot(h, leaves, DEPTH, 0)
  }

  /** `n` shifted right by `i` bits. */
  function Shift(n: nat, i: nat): nat {
    if i == 0 then n else Shift(n / 2, i - 1)
  }

  ghost function Sibling(index: nat): nat {
    if index % 2 == 1 then index - 1 else index + 1
  }

  /** Sibling roots on the way up from subtree `index` of height `level`, `n` levels. */
  ghost function PathFrom(h: Combine, leaves: seq<Fq>, level: nat, index: nat, n: nat): seq<Fq>
    decreases n
  {
    if n == 0 then []
    else [SubRoot(h, leaves, level, Sibling(index))] + PathFrom(h, leaves, level + 1, index / 2, n - 1)
  }

  /** The genuine authentication path of a position. */
  ghost function AuthPath(h: Combine, leaves: seq<Fq>, position: nat): seq<Fq> {
    PathFrom(h, leaves, 0, position, DEPTH)
  }

  function Climb(h: Combine, cur: Fq, position: nat, path: seq<Fq>, level: nat): Fq
    decreases |path|
  {
    if path == [] then cur
    else
      var up := if position % 2 == 1 then h(level, path[0], cur) else h(level, cur, path[0]);
      Climb(h, up, position / 2, path[1..], level + 1)
  }

  predicate PathVerifies(h: Combine, anchor: Fq, commitment: Fq, position: nat, path: seq<Fq>) {
    |path| == DEPTH && Climb(h, commitment, position, path, 0) == anchor
  }

  lemma {:induction false} ShiftStep(n: nat, i: nat)
    ensures Shift(n, i + 1) == Shift(n, i) / 2
  {
    if i > 0 {
      ShiftStep(n / 2, i - 1);
    }
  }

  lemma {:induction false} ShiftOut(n: nat, i: nat)
    requires n < Pow2(i)
    ensures Shift(n, i) == 0
  {
    if i > 0 {
      ShiftOut(n / 2, i - 1);
    }
  }

  lemma {:induction false} ClimbStep(h: Combine, cur: Fq, position: nat, path: seq<Fq>, level: nat)
    requires path != []
    ensures var n := |path| - 1;
            var below := Climb(h, cur, position, path[..n], level);
            Climb(h, cur, position, path, level) ==
            if Shift(position, n) % 2 == 1 then h(level + n, path[n], below) else h(level + n, below, path[n])
    decreases |path|
  {
    if |path| > 1 {
      var up := if position % 2 == 1 then h(level, path[0], cur) else h(level, cur, path[0]);
      ClimbStep(h, up, position / 2, path[1..], level + 1);
      assert path[1..][..|path| - 2] == path[..|path| - 1][1..];
    }
  }

  /** The loop of the check: each bit of the position says on which side the sibling stands. */
  method VerifyPath(h: Combine, anchor: Fq, commitment: Fq, position: nat, path: seq<Fq>) returns (ok: bool)
    ensures ok <==> PathVerifies(h, anchor, commitment, position, path)
  {
    if |path| != DEPTH {
      return false;
    }
    var cur := commitment;
    var level := 0;
    for i := 0 to |path|
      invariant level == i && cur == Climb(h, commitment, position, path[..i], 0)
    {
      ClimbStep(h, commitment, position, path[..i + 1], 0);
      assert path[..i + 1][..i] == path[..i];
      if Shift(position, i) % 2 == 1 {
        cur := h(level, path[i], cur);
      } else {
        cur := h(level, cur, path[i]);
      }
      level := level + 1;
    }
    assert path[..|path|] == path;
    return cur == anchor;
  }

  // ---------------------------------------------------------------------------------------------

  /** A subtree's parent combines it with its sibling, on the side the index says. */
  lemma ParentRoot(h: Combine, leaves: seq<Fq>, level: nat, index: nat)
    ensures var node, sibling := SubRoot(h, leaves, level, index), SubRoot(h, leaves, level, Sibling(index));
            SubRoot(h, leaves, level + 1, index / 2) == if index % 2 == 1 then h(level, sibling, node)
                else h(level, node, sibling)
  {
    var parent := index / 2;
    assert SubRoot(h, leaves, level + 1, parent)
        == h(level, SubRoot(h, leaves, level, 2 * parent), SubRoot(h, leaves, level, 2 * parent + 1));
  }

  lemma {:induction false} ClimbReachesRoot(h: Combine, leaves: seq<Fq>, level: nat, index: nat, n: nat)
    ensures |PathFrom(h, leaves, level, index, n)| == n
    ensures Climb(h, SubRoot(h, leaves, level, index), index, PathFrom(h, leaves, level, index, n), level)
            == SubRoot(h, leaves, level + n, Shift(index, n))
    decreases n
  {
    hide SubRoot;
    if n > 0 {
      ParentRoot(h, leaves, level, index);
      ClimbReachesRoot(h, leaves, level + 1, index / 2, n - 1);
      var path := PathFrom(h, leaves, level, index, n);
      assert path[1..] == PathFrom(h, leaves, level + 1, index / 2, n - 1);
    }
  }

  ghost predicate Binding(h: Combine) {
    forall level, a, b, c, d :: h(level, a, b) == h(level, c, d) ==> a == c && b == d
  }

  lemma {:induction false} ClimbBinds(h: Combine, leaves: seq<Fq>, cur: Fq, level: nat, index: nat, path: seq<Fq>)
    requires Binding(h)
    requires Climb(h, cur, index, path, level) == SubRoot(h, leaves, level + |path|, Shift(index, |path|))
    ensures cur == SubRoot(h, leaves, level, index) && path == PathFrom(h, leaves, level, index, |path|)
    decreases |path|
  {
    hide SubRoot;
    if path != [] {
      var up := if index % 2 == 1 then h(level, path[0], cur) else h(level, cur, path[0]);
      ClimbBinds(h, leaves, up, level + 1, index / 2, path[1..]);
      ParentRoot(h, leaves, level, index);
      assert path == [path[0]] + path[1..];
    }
  }

  /** The leaf a position names: the check reads its low bits alone. */
  function Low(position: nat): (leaf: nat)
    ensures leaf < Pow2(DEPTH)
    ensures position < Pow2(DEPTH) ==> leaf == position
  {
    Pow2Positive(DEPTH);
    Residue(position, Pow2(DEPTH))
  }

  /** Climbing a path of `n` siblings reads the low `n` bits of the position. */
  lemma {:induction false} ClimbReadsLowBits(h: Combine, cur: Fq, position: nat, path: seq<Fq>, level: nat)
    requires Pow2(|path|) > 0
    ensures Climb(h, cur, position, path, level) == Climb(h, cur, position % Pow2(|path|), path, level)
    decreases |path|
  {
    if path != [] {
      var n := |path| - 1;
      Pow2Positive(n);
      HalfRemainder(position, Pow2(n));
      var up := if position % 2 == 1 then h(level, path[0], cur) else h(level, cur, path[0]);
      ClimbReadsLowBits(h, up, position / 2, path[1..], level + 1);
    }
  }

  /** Positions that agree modulo 2^32 are the same to the check. */
  lemma LowIsEnough(h: Combine, anchor: Fq, commitment: Fq, position: nat, path: seq<Fq>)
    ensures PathVerifies(h, anchor, commitment, position, path) <==>
            PathVerifies(h, anchor, commitment, Low(position), path)
  {
    hide Pow2, Climb;
    if |path| == DEPTH {
      Pow2Positive(DEPTH);
      ClimbReadsLowBits(h, commitment, position, path, 0);
    }
  }

  lemma BottomIsLeaf(h: Combine, leaves: seq<Fq>, index: nat)
    ensures SubRoot(h, leaves, 0, index) == LeafAt(leaves, index)
  {}

  /** Completeness: the genuine path of any leaf of any tree is accepted against its root. */
  lemma GenuinePathVerifies(h: Combine, leaves: seq<Fq>, position: nat)
    ensures var p := Low(position);
            PathVerifies(h, Root(h, leaves), LeafAt(leaves, p), position, AuthPath(h, leaves, p))
  {
    hide PathFrom, Climb, Shift, Pow2, SubRoot, PathVerifies;
    var p := Low(position);
    LowIsEnough(h, Root(h, leaves), LeafAt(leaves, p), position, AuthPath(h, leaves, p));
    GenuineLeafVerifies(h, leaves, p);
  }

  lemma GenuineLeafVerifies(h: Combine, leaves: seq<Fq>, p: nat)
    requires p < Pow2(DEPTH)
    ensures PathVerifies(h, Root(h, leaves), LeafAt(leaves, p), p, AuthPath(h, leaves, p))
  {
    hide PathFrom, Climb, Shift, Pow2, SubRoot;
    BottomIsLeaf(h, leaves, p);
    ClimbReachesRoot(h, leaves, 0, p, DEPTH);
    ShiftOut(p, DEPTH);
  }

  /**
   With a binding hash, a path is accepted against a tree's root exactly for the leaf that
   the position names modulo 2^32, and its genuine path.
   */
  lemma PathVerifiesIff(h: Combine, leaves: seq<Fq>, commitment: Fq, position: nat, path: seq<Fq>)
    requires Binding(h)
    ensures PathVerifies(h, Root(h, leaves), commitment, position, path) <==>
            commitment == LeafAt(leaves, Low(position)) && path == AuthPath(h, leaves, Low(position))
  {
    hide PathFrom, Climb, Shift, Pow2, SubRoot, PathVerifies;
    var p := Low(position);
    LowIsEnough(h, Root(h, leaves), commitment, position, path);
    GenuineLeafVerifies(h, leaves, p);
    if PathVerifies(h, Root(h, leaves), commitment, p, path) {
      LeafBinds(h, leaves, commitment, p, path);
    }
  }

  lemma LeafBinds(h: Combine, leaves: seq<Fq>, commitment: Fq, p: nat, path: seq<Fq>)
    requires Binding(h) && p < Pow2(DEPTH) && PathVerifies(h, Root(h, leaves), commitment, p, path)
    ensures commitment == LeafAt(leaves, p) && path == AuthPath(h, leaves, p)
  {
    hide PathFrom, Climb, Shift, Pow2, SubRoot;
    BottomIsLeaf(h, leaves, p);
    ShiftOut(p, DEPTH);
    ClimbBinds(h, leaves, commitment, 0, p, path);
  }
}
