/** A published nullifier belongs to a note that was already in the tree when its block began. */
module PoolSpends {
  import opened Transactions
  import opened Merkle
  import opened PoolSpec

  /** The stored root is the root of the tree, and the tree hash has no collisions. */
  ghost predicate SoundTree(crypto: Crypto) {
    && Binding(crypto.combine)
    && forall leaves :: crypto.root(leaves) == Root(crypto.combine, leaves)
  }

  /** Nullifiers of different keys, positions or commitments differ. */
  ghost predicate NullifiersBind(crypto: Crypto) {
    forall key, p, c, key', p', c' ::
        crypto.nullify(key, p, c) == crypto.nullify(key', p', c') ==> key == key' && p == p' && c == c'
  }

  /** The commitment is a leaf where the position points, or the empty leaf. */
  ghost predicate IsLeaf(leaves: seq<Fq>, position: nat, commitment: Fq) {
    commitment == EMPTY_LEAF || (Low(position) < |leaves| && leaves[Low(position)] == commitment)
  }

  /** The nullifier belongs to a leaf, at one of the positions that name it. */
  ghost predicate Existing(crypto: Crypto, leaves: seq<Fq>, nullifier: Fq) {
    exists key, position, c :: IsLeaf(leaves, position, c) && nullifier == crypto.nullify(key, position, c)
  }

  /** Every nullifier of block `j` belongs to a leaf of the tree as block `j - 1` left it. */
  ghost predicate Timely(crypto: Crypto, blocks: seq<CompactBlock>) {
    forall j, i :: 0 <= j < |blocks| && 0 <= i < |blocks[j].nullifiers| ==>
      Existing(crypto, LeavesAfter(blocks, j), blocks[j].nullifiers[i])
  }

  lemma {:induction false} NullifierHasSpend(actions: seq<Action>, n: Fq)
    requires n in SpentNullifiers(actions)
    ensures exists i :: 0 <= i < |actions| && actions[i].Spend? && actions[i].spend.nullifier == n
  {
    var last := |actions| - 1;
    if actions[last].Spend? && actions[last].spend.nullifier == n {
    } else {
      NullifierHasSpend(actions[..last], n);
      var i :| 0 <= i < last && actions[..last][i].Spend? && actions[..last][i].spend.nullifier == n;
      assert actions[i].Spend? && actions[i].spend.nullifier == n;
    }
  }

  lemma {:induction false} OutputsGrow(blocks: seq<CompactBlock>, n: nat)
    requires n <= |blocks|
    ensures AllOutputs(blocks[..n]) <= AllOutputs(blocks)
    decreases |blocks| - n
  {
    if n < |blocks| {
      var init := blocks[..|blocks| - 1];
      OutputsGrowInit(blocks, n);
    } else {
      assert blocks[..n] == blocks;
    }
  }

  lemma {:induction false} OutputsGrowInit(blocks: seq<CompactBlock>, n: nat)
    requires n < |blocks|
    ensures AllOutputs(blocks[..n]) <= AllOutputs(blocks)
  {
    var init := blocks[..|blocks| - 1];
    assert init[..n] == blocks[..n];
    if n < |init| {
      OutputsGrowInit(init, n);
    } else {
      assert init[..n] == init;
    }
  }

  /** A verified spend against the root of `leaves` opens the leaf its position names. */
  lemma VerifiedSpendOpens(crypto: Crypto, leaves: seq<Fq>, spend: SpendBody)
    requires SoundTree(crypto) && SpendOk(crypto, crypto.root(leaves), spend)
    ensures IsLeaf(leaves, spend.proof.position, spend.proof.noteCommitment)
    ensures Existing(crypto, leaves, spend.nullifier)
  {
    hide PathVerifies, Root, AuthPath, Binding, Low;
    var proof := spend.proof;
    PathVerifiesIff(crypto.combine, leaves, proof.noteCommitment, proof.position, proof.path);
  }

  lemma CommitmentsGrow(a: seq<OutputBody>, b: seq<OutputBody>)
    requires a <= b
    ensures Commitments(a) <= Commitments(b)
  {
    assert forall i :: 0 <= i < |a| ==> a[i] == b[i];
  }

  lemma ExistingGrows(crypto: Crypto, blocks: seq<CompactBlock>, m: nat, n: Fq)
    requires m <= |blocks| && Existing(crypto, LeavesAfter(blocks, m), n)
    ensures Existing(crypto, LeavesAfter(blocks, |blocks|), n)
  {
    var past, now := LeavesAfter(blocks, m), LeavesAfter(blocks, |blocks|);
    OutputsGrow(blocks, m);
    assert blocks[..|blocks|] == blocks;
    assert past <= now by { CommitmentsGrow(AllOutputs(blocks[..m]), AllOutputs(blocks)); }
    var key, position, c :| IsLeaf(past, position, c) && n == crypto.nullify(key, position, c);
    assert IsLeaf(now, position, c);
  }

  /** An accepted spend opens a leaf of the tree that some earlier block ended with. */
  lemma AcceptedSpendExists(crypto: Crypto, s: PoolState, tx: Transaction, blocks: seq<CompactBlock>, n: Fq)
    requires SoundTree(crypto) && Anchored(crypto, s, blocks)
    requires StatelessOk(crypto, tx) && StatefulOk(s, tx) && n in SpentNullifiers(tx.actions)
    ensures Existing(crypto, LeavesAfter(blocks, |blocks|), n)
  {
    hide SpentNullifiers, SoundTree, SpendOk, Existing, IsLeaf, LeavesAfter;
    NullifierHasSpend(tx.actions, n);
    var i :| 0 <= i < |tx.actions| && tx.actions[i].Spend? && tx.actions[i].spend.nullifier == n;
    assert ActionOk(crypto, tx.merkleRoot, tx.actions[i]);
    var m :| 0 < m <= |blocks| && tx.merkleRoot == crypto.root(LeavesAfter(blocks, m));
    VerifiedSpendOpens(crypto, LeavesAfter(blocks, m), tx.actions[i].spend);
    ExistingGrows(crypto, blocks, m, n);
  }

  ghost predicate PendingTimely(crypto: Crypto, p: Pool, blocks: seq<CompactBlock>) {
    forall i :: 0 <= i < |p.block.nullifiers| ==> Existing(crypto, LeavesAfter(blocks, |blocks|), p.block.nullifiers[i])
  }

  lemma {:induction false} DeliverAllTimely(crypto: Crypto, p: Pool, txs: seq<Transaction>, blocks: seq<CompactBlock>)
    requires SoundTree(crypto) && Anchored(crypto, p.state, blocks) && Accounted(p, blocks)
             && PendingTimely(crypto, p, blocks)
    ensures PendingTimely(crypto, DeliverAll(crypto, p, txs), blocks)
  {
    hide SoundTree, Anchored, Accounted, StatelessOk, StatefulOk, AddNotes, SpendNullifiers, Existing, SpentNullifiers,
         OutputBodies, LeavesAfter, Published;
    if txs != [] {
      var tx, init := txs[|txs| - 1], txs[..|txs| - 1];
      DeliverAllTimely(crypto, p, init, blocks);
      DeliverAllAccounted(crypto, p, init, blocks);
      var q := DeliverAll(crypto, p, init);
      if StatelessOk(crypto, tx) && StatefulOk(q.state, tx) {
        AnchorsFrame(crypto, p.state, q.state, blocks);
        var source := FromTransaction(tx.id);
        AddNotesEffect(q, OutputBodies(tx.actions), source);
        SpendNullifiersEffect(AddNotes(q, OutputBodies(tx.actions), source), SpentNullifiers(tx.actions), source);
        forall n | n in SpentNullifiers(tx.actions)
          ensures Existing(crypto, LeavesAfter(blocks, |blocks|), n)
        {
          AcceptedSpendExists(crypto, q.state, tx, blocks, n);
        }
      }
    }
  }

  lemma AnchorsFrame(crypto: Crypto, s: PoolState, t: PoolState, blocks: seq<CompactBlock>)
    requires Anchored(crypto, s, blocks) && t.validAnchors == s.validAnchors
    ensures Anchored(crypto, t, blocks)
  {}

  lemma TimelyAppend(crypto: Crypto, blocks: seq<CompactBlock>, b: CompactBlock)
    requires Timely(crypto, blocks)
    requires forall i :: 0 <= i < |b.nullifiers| ==> Existing(crypto, LeavesAfter(blocks, |blocks|), b.nullifiers[i])
    ensures Timely(crypto, blocks + [b])
  {
    hide Existing, Commitments;
    var next := blocks + [b];
    forall j | 0 <= j <= |blocks|
      ensures LeavesAfter(next, j) == LeavesAfter(blocks, j)
    {
      assert next[..j] == blocks[..j];
    }
  }

  /**
   Over every run, nullifiers are published only for notes that earlier blocks put into the
   tree, at one of the positions that name them.
   */
  lemma {:induction false} RunsAreTimely(crypto: Crypto, genesis: seq<OutputBody>, bs: seq<PoolBlock>)
    requires SoundTree(crypto)
    ensures Timely(crypto, BlocksOf(crypto, genesis, bs))
  {
    hide SoundTree, Timely, AddNotes, DeliverAll, Existing, RunPool, LeavesAfter, Anchored, Accounted,
         Published;
    if bs == [] {
      AddNotesEffect(Pool(EMPTY_STATE, [], EMPTY_BLOCK), genesis, FromGenesis);
      GenesisTimely(crypto, AddNotes(Pool(EMPTY_STATE, [], EMPTY_BLOCK), genesis, FromGenesis).block);
    } else {
      var b := bs[|bs| - 1];
      RunsAreTimely(crypto, genesis, bs[..|bs| - 1]);
      RunsArePublished(crypto, genesis, bs[..|bs| - 1]);
      var before, blocks := RunPool(crypto, genesis, bs[..|bs| - 1]), BlocksOf(crypto, genesis, bs[..|bs| - 1]);
      DeliverAllTimely(crypto, before, b.txs, blocks);
      var p := DeliverAll(crypto, before, b.txs);
      AddNotesEffect(p.(block := p.block.(height := |bs|)), b.minted, b.source);
      TimelyAppend(crypto, blocks, AddNotes(p.(block := p.block.(height := |bs|)), b.minted, b.source).block);
    }
  }

  lemma GenesisTimely(crypto: Crypto, b: CompactBlock)
    requires b.nullifiers == []
    ensures Timely(crypto, [b])
  {}
}
