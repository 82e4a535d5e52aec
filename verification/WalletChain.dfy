/**
 The wallet and the chain together: a wallet that scans the published blocks knows the chain's
 tree and which of its notes are spent.
 */
module WalletChain {
  import opened Prelude
  import opened Transactions
  import opened Modular
  import opened Merkle
  import opened ValueBalance
  import opened PoolSpec
  import opened PoolSpends
  import opened WalletSpec

  /** The wallet derives nullifiers with its own nullifier key. */
  ghost predicate UsesKey(k: Keys, crypto: Crypto, nk: Fq) {
    forall p: nat, c :: k.nullify(p, c) == crypto.nullify(nk, p, c)
  }

  lemma KeysSeparate(k: Keys, crypto: Crypto, nk: Fq)
    requires UsesKey(k, crypto, nk) && NullifiersBind(crypto)
    ensures Separate(k)
  {
    forall p: nat, c, q: nat, d | k.nullify(p, c) == k.nullify(q, d)
      ensures p == q && c == d
    {
      assert crypto.nullify(nk, p, c) == crypto.nullify(nk, q, d);
    }
  }

  /** What a wallet whose books are those of the first `n` blocks shares with the chain. */
  ghost predicate Follows(crypto: Crypto, s: PoolState, blocks: seq<CompactBlock>, k: Keys, nk: Fq, w: Wallet, n: nat)
    requires n <= |blocks|
  {
    && w.nct <= s.nct
    && w.nct == LeavesAfter(blocks, n)
    && crypto.root(w.nct) in s.validAnchors
    && forall p :: Owned(k, AllOutputs(blocks[..n]), p) ==>
         && p < |s.nct|
         && crypto.nullify(nk, p, s.nct[p]) in w.nullifierMap
         && w.nullifierMap[crypto.nullify(nk, p, s.nct[p])] == s.nct[p]
  }

  lemma OkWalletFollows(
    crypto: Crypto, genesis: seq<OutputBody>, bs: seq<PoolBlock>, k: Keys, nk: Fq, w: Wallet, n: nat)
    requires UsesKey(k, crypto, nk) && 0 < n <= |BlocksOf(crypto, genesis, bs)|
    requires WalletOk(k, w, BlocksOf(crypto, genesis, bs)[..n])
    ensures Follows(crypto, RunPool(crypto, genesis, bs).state, BlocksOf(crypto, genesis, bs), k, nk, w, n)
  {
    hide RunPool, BlocksOf, UsesKey, WalletOk, AllOutputs, Commitments, PoolOk;
    var blocks, s := BlocksOf(crypto, genesis, bs), RunPool(crypto, genesis, bs).state;
    RunsArePublished(crypto, genesis, bs);
    TreeIsPublished(crypto, RunPool(crypto, genesis, bs), blocks);
    TreeOfOk(k, w, blocks[..n]);
    TreePrefix(blocks, n);
    AnchorIsValid(crypto, RunPool(crypto, genesis, bs), blocks, n);
    forall p | Owned(k, AllOutputs(blocks[..n]), p)
      ensures p < |s.nct| && crypto.nullify(nk, p, s.nct[p]) in w.nullifierMap
      ensures w.nullifierMap[crypto.nullify(nk, p, s.nct[p])] == s.nct[p]
    {
      NullifierIsTrue(crypto, k, nk, w, blocks[..n], p);
    }
  }

  lemma TreeOfOk(k: Keys, w: Wallet, blocks: seq<CompactBlock>)
    requires WalletOk(k, w, blocks)
    ensures w.nct == Commitments(AllOutputs(blocks))
  {}

  /** The commitments of a prefix of the blocks are a prefix of the commitments. */
  lemma TreePrefix(blocks: seq<CompactBlock>, n: nat)
    requires n <= |blocks|
    ensures Commitments(AllOutputs(blocks[..n])) <= Commitments(AllOutputs(blocks))
  {
    hide AllOutputs;
    OutputsGrow(blocks, n);
    var a, b := AllOutputs(blocks[..n]), AllOutputs(blocks);
    assert forall i :: 0 <= i < |a| ==> a[i] == b[i];
  }

  lemma AnchorIsValid(crypto: Crypto, p: Pool, blocks: seq<CompactBlock>, n: nat)
    requires PoolOk(crypto, p, blocks) && 0 < n <= |blocks|
    ensures crypto.root(LeavesAfter(blocks, n)) in p.state.validAnchors
  {
    hide LeavesAfter;
    AnchorOfBlock(crypto, p.state, blocks, n);
  }

  lemma NullifierIsTrue(crypto: Crypto, k: Keys, nk: Fq, w: Wallet, blocks: seq<CompactBlock>, p: int)
    requires UsesKey(k, crypto, nk) && WalletOk(k, w, blocks) && Owned(k, AllOutputs(blocks), p)
    ensures p < |w.nct| && crypto.nullify(nk, p, w.nct[p]) in w.nullifierMap
    ensures w.nullifierMap[crypto.nullify(nk, p, w.nct[p])] == w.nct[p]
  {
    hide UsesKey, AllOutputs, SpentOutputs;
    var outs := AllOutputs(blocks);
    assert HeldAt(k, w, outs, SpentOutputs(k, blocks), p);
    TrueNullifier(k, crypto, nk, outs, p);
    assert w.nct[p] == outs[p].noteCommitment;
  }

  /**
   A wallet that accepted the first `n` published blocks, whatever else it did,
   holds the tree the chain had after them; its root passes the chain's anchor
   check; and it files each of its notes under the nullifier of the note's true
   position in the chain's tree.
   */
  lemma WalletFollowsChain(
    crypto: Crypto, genesis: seq<OutputBody>, bs: seq<PoolBlock>, k: Keys, nk: Fq, ops: seq<Op>, n: nat)
    requires UsesKey(k, crypto, nk) && NullifiersBind(crypto) && AllEnabled(k, ops)
    requires 0 < n <= |BlocksOf(crypto, genesis, bs)| && Scanned(k, ops) == BlocksOf(crypto, genesis, bs)[..n]
    requires UniqueCommitments(BlocksOf(crypto, genesis, bs)[..n])
    ensures Follows(crypto, RunPool(crypto, genesis, bs).state, BlocksOf(crypto, genesis, bs), k, nk, Run(k, ops), n)
  {
    hide RunPool, BlocksOf, Run, Scanned, AllEnabled, UniqueCommitments, UsesKey, NullifiersBind, WalletOk, Follows;
    KeysSeparate(k, crypto, nk);
    RunsKeepBooks(k, ops);
    OkWalletFollows(crypto, genesis, bs, k, nk, Run(k, ops), n);
  }

  lemma TrueNullifier(k: Keys, crypto: Crypto, nk: Fq, outs: seq<OutputBody>, p: int)
    requires UsesKey(k, crypto, nk) && 0 <= p < |outs|
    ensures NullifierAt(k, outs, p) == crypto.nullify(nk, p, outs[p].noteCommitment)
  {}

  lemma TreeIsPublished(crypto: Crypto, p: Pool, blocks: seq<CompactBlock>)
    requires PoolOk(crypto, p, blocks) && p.block == EMPTY_BLOCK && p.nct == p.state.nct
    ensures p.state.nct == Commitments(AllOutputs(blocks))
    ensures forall n :: n in p.state.spentNullifiers <==> n in AllNullifiers(blocks)
  {
    assert AllOutputs(blocks) + [] == AllOutputs(blocks);
    assert AllNullifiers(blocks) + [] == AllNullifiers(blocks);
  }

  lemma AnchorOfBlock(crypto: Crypto, s: PoolState, blocks: seq<CompactBlock>, n: nat)
    requires Anchored(crypto, s, blocks) && 0 < n <= |blocks|
    ensures crypto.root(LeavesAfter(blocks, n)) in s.validAnchors
  {}

  // ---------------------------------------------------------------------------------------------
  // A synchronised wallet
  // ---------------------------------------------------------------------------------------------

  /**
   When nullifiers are published only for existing notes, the wallet counts a note as spent
   exactly when the nullifier of its position is published. Other positions that name the
   same leaf do not matter.
   */
  lemma {:induction false} SpentIffPublished(crypto: Crypto, k: Keys, nk: Fq, blocks: seq<CompactBlock>, p: int)
    requires UsesKey(k, crypto, nk) && NullifiersBind(crypto) && Timely(crypto, blocks)
    requires Owned(k, AllOutputs(blocks), p) && p < Pow2(DEPTH) && AllOutputs(blocks)[p].noteCommitment != EMPTY_LEAF
    ensures p in SpentOutputs(k, blocks) <==> NullifierAt(k, AllOutputs(blocks), p) in AllNullifiers(blocks)
  {
    var init, last := blocks[..|blocks| - 1], blocks[|blocks| - 1];
    var outs, before := AllOutputs(blocks), AllOutputs(init);
    var n := NullifierAt(k, outs, p);
    TimelyPrefix(crypto, blocks);
    TrueNullifier(k, crypto, nk, outs, p);
    hide UsesKey, Timely, Pow2;
    assert p in SpentBy(k, outs, last.nullifiers) <==> n in last.nullifiers;
    if p < |before| {
      assert before[p] == outs[p];
      SpentIffPublished(crypto, k, nk, init, p);
    } else {
      SpentInRange(k, init);
      if n in AllNullifiers(init) {
        NotYetPublished(crypto, init, nk, p, outs[p].noteCommitment);
        assert false;
      }
    }
  }

  lemma TimelyPrefix(crypto: Crypto, blocks: seq<CompactBlock>)
    requires blocks != [] && Timely(crypto, blocks)
    ensures Timely(crypto, blocks[..|blocks| - 1])
  {
    hide Existing, Commitments;
    var init := blocks[..|blocks| - 1];
    forall j | 0 <= j <= |init|
      ensures LeavesAfter(init, j) == LeavesAfter(blocks, j)
    {
      assert init[..j] == blocks[..j];
    }
  }

  /** A nullifier for a position beyond the tree has not been published. */
  lemma {:induction false} NotYetPublished(crypto: Crypto, blocks: seq<CompactBlock>, nk: Fq, p: nat, c: Fq)
    requires NullifiersBind(crypto) && Timely(crypto, blocks)
    requires |AllOutputs(blocks)| <= p < Pow2(DEPTH) && c != EMPTY_LEAF
    ensures crypto.nullify(nk, p, c) !in AllNullifiers(blocks)
  {
    hide Low;
    if blocks != [] {
      var init, j := blocks[..|blocks| - 1], |blocks| - 1;
      TimelyPrefix(crypto, blocks);
      NotYetPublished(crypto, init, nk, p, c);
      var n := crypto.nullify(nk, p, c);
      forall i | 0 <= i < |blocks[j].nullifiers|
        ensures blocks[j].nullifiers[i] != n
      {
        assert Existing(crypto, LeavesAfter(blocks, j), blocks[j].nullifiers[i]);
        var key, q, d :| IsLeaf(LeavesAfter(blocks, j), q, d) && blocks[j].nullifiers[i] == crypto.nullify(key, q, d);
        assert q == p && d == c ==> Low(q) == p;
      }
    }
  }

  /** A spend of the wallet's note at position `p`, built from the wallet's tree. */
  ghost predicate GenuineSpend(crypto: Crypto, w: Wallet, nk: Fq, spend: SpendBody) {
    var proof := spend.proof;
    && spend.valid
    && proof.position < |w.nct| && proof.noteCommitment == w.nct[proof.position] && proof.noteCommitment in w.unspent
    && proof.nullifierKey == nk
    && proof.path == AuthPath(crypto.combine, w.nct, proof.position)
    && spend.nullifier == crypto.nullify(nk, proof.position, proof.noteCommitment)
  }

  /** A transaction that spends different ready notes of the wallet against the wallet's root. */
  ghost predicate WalletTransaction(crypto: Crypto, w: Wallet, nk: Fq, tx: Transaction) {
    && tx.bindingSigned && PureBlinding(tx) && tx.merkleRoot == crypto.root(w.nct)
    && (forall i :: 0 <= i < |tx.actions| ==>
          match tx.actions[i]
          case Spend(spend) => GenuineSpend(crypto, w, nk, spend)
          case Output(_, _, valid) => valid
          case IbcAction => false
          case _ => true)
    && (forall i, j :: 0 <= i < j < |tx.actions| && tx.actions[i].Spend? && tx.actions[j].Spend? ==>
          tx.actions[i].spend.proof.position != tx.actions[j].spend.proof.position)
  }

  /** A ready note of a synchronised wallet is unspent on the chain. */
  lemma ReadyIsUnspent(crypto: Crypto, k: Keys, nk: Fq, w: Wallet, blocks: seq<CompactBlock>, c: Fq, p: nat)
    requires UsesKey(k, crypto, nk) && NullifiersBind(crypto) && Timely(crypto, blocks)
    requires WalletOk(k, w, blocks) && UniqueCommitments(blocks) && c in w.unspent && p < |w.nct| && w.nct[p] == c
    requires p < Pow2(DEPTH) && c != EMPTY_LEAF
    ensures crypto.nullify(nk, p, c) !in AllNullifiers(blocks)
  {
    var outs := AllOutputs(blocks);
    assert IsOwned(k, outs, c);
    var q :| Owned(k, outs, q) && outs[q].noteCommitment == c;
    assert w.nct[p] == outs[p].noteCommitment;
    UniqueOwner(outs, p, q);
    assert HeldAt(k, w, outs, SpentOutputs(k, blocks), q);
    hide Books, HeldAt, Separate, Timely, NullifiersBind, Pow2;
    SpentIffPublished(crypto, k, nk, blocks, q);
    TrueNullifier(k, crypto, nk, outs, q);
  }

  lemma SpendsDiffer(crypto: Crypto, w: Wallet, nk: Fq, tx: Transaction, i: nat, j: nat)
    requires NullifiersBind(crypto) && WalletTransaction(crypto, w, nk, tx)
    requires i < j < |tx.actions| && tx.actions[i].Spend? && tx.actions[j].Spend?
    ensures tx.actions[i].spend.nullifier != tx.actions[j].spend.nullifier
  {
    assert GenuineSpend(crypto, w, nk, tx.actions[i].spend) && GenuineSpend(crypto, w, nk, tx.actions[j].spend);
  }

  lemma {:induction false} NullifiersFrom(crypto: Crypto, w: Wallet, nk: Fq, tx: Transaction, m: nat)
    requires NullifiersBind(crypto) && WalletTransaction(crypto, w, nk, tx) && m <= |tx.actions|
    ensures Distinct(SpentNullifiers(tx.actions[..m]))
    ensures forall x :: x in SpentNullifiers(tx.actions[..m]) ==>
              exists i :: 0 <= i < m && tx.actions[i].Spend? && tx.actions[i].spend.nullifier == x
  {
    hide NullifiersBind, WalletTransaction;
    if m > 0 {
      NullifiersFrom(crypto, w, nk, tx, m - 1);
      assert tx.actions[..m][..m - 1] == tx.actions[..m - 1];
      var a, before := tx.actions[m - 1], SpentNullifiers(tx.actions[..m - 1]);
      if a.Spend? {
        forall x | x in before
          ensures x != a.spend.nullifier
        {
          var i :| 0 <= i < m - 1 && tx.actions[i].Spend? && tx.actions[i].spend.nullifier == x;
          SpendsDiffer(crypto, w, nk, tx, i, m - 1);
        }
        DistinctAppend(before, [a.spend.nullifier]);
      }
    }
  }

  lemma WalletActionsVerify(crypto: Crypto, w: Wallet, nk: Fq, tx: Transaction, i: nat)
    requires SoundTree(crypto) && |w.nct| <= Pow2(DEPTH) && WalletTransaction(crypto, w, nk, tx) && i < |tx.actions|
    ensures ActionOk(crypto, tx.merkleRoot, tx.actions[i])
  {
    hide PathVerifies, Pow2, Root, AuthPath, Binding;
    if tx.actions[i].Spend? {
      assert GenuineSpend(crypto, w, nk, tx.actions[i].spend);
      GenuinePathVerifies(crypto.combine, w.nct, tx.actions[i].spend.proof.position);
    }
  }

  /**
   A synchronised wallet can spend what it believes it can spend: any transaction
   spending different ready notes with the wallet's own tree passes the chain's
   stateless and stateful checks.
   */
  lemma ReadyNotesAreSpendable(
    crypto: Crypto, genesis: seq<OutputBody>, bs: seq<PoolBlock>, k: Keys, nk: Fq, ops: seq<Op>, tx: Transaction)
    requires SoundTree(crypto) && UsesKey(k, crypto, nk) && NullifiersBind(crypto) && AllEnabled(k, ops)
    requires Scanned(k, ops) == BlocksOf(crypto, genesis, bs) && UniqueCommitments(BlocksOf(crypto, genesis, bs))
    requires |Run(k, ops).nct| <= Pow2(DEPTH) && EMPTY_LEAF !in Run(k, ops).unspent
    requires WalletTransaction(crypto, Run(k, ops), nk, tx)
    ensures StatelessOk(crypto, tx) && StatefulOk(RunPool(crypto, genesis, bs).state, tx)
  {
    hide RunPool, BlocksOf, Run, Scanned, AllEnabled, UsesKey, NullifiersBind, SoundTree, Pow2;
    hide UniqueCommitments, WalletTransaction, WalletOk, StatelessOk, StatefulOk;
    KeysSeparate(k, crypto, nk);
    RunsKeepBooks(k, ops);
    OkWalletCanSpend(crypto, genesis, bs, k, nk, Run(k, ops), tx);
  }

  /** The same for any wallet whose books are those of all published blocks. */
  lemma OkWalletCanSpend(
    crypto: Crypto, genesis: seq<OutputBody>, bs: seq<PoolBlock>, k: Keys, nk: Fq, w: Wallet, tx: Transaction)
    requires SoundTree(crypto) && UsesKey(k, crypto, nk) && NullifiersBind(crypto)
    requires WalletOk(k, w, BlocksOf(crypto, genesis, bs)) && UniqueCommitments(BlocksOf(crypto, genesis, bs))
    requires |w.nct| <= Pow2(DEPTH) && EMPTY_LEAF !in w.unspent && WalletTransaction(crypto, w, nk, tx)
    ensures StatelessOk(crypto, tx) && StatefulOk(RunPool(crypto, genesis, bs).state, tx)
  {
    hide RunPool, BlocksOf, UsesKey, NullifiersBind, SoundTree, Pow2, Timely, UniqueCommitments;
    hide ActionOk, GenuineSpend;
    var blocks, pool := BlocksOf(crypto, genesis, bs), RunPool(crypto, genesis, bs);
    RunsArePublished(crypto, genesis, bs);
    TreeIsPublished(crypto, pool, blocks);
    RunsAreTimely(crypto, genesis, bs);
    assert blocks[..|blocks|] == blocks;
    OkWalletFollows(crypto, genesis, bs, k, nk, w, |blocks|);
    hide PoolOk, WalletOk, Distinct, SpentNullifiers;
    assert tx.actions[..|tx.actions|] == tx.actions;
    NullifiersFrom(crypto, w, nk, tx, |tx.actions|);
    forall i | 0 <= i < |tx.actions|
      ensures ActionOk(crypto, tx.merkleRoot, tx.actions[i])
    {
      WalletActionsVerify(crypto, w, nk, tx, i);
    }
    forall x | x in SpentNullifiers(tx.actions)
      ensures x !in pool.state.spentNullifiers
    {
      var i :| 0 <= i < |tx.actions| && tx.actions[i].Spend? && tx.actions[i].spend.nullifier == x;
      SpendIsFresh(crypto, k, nk, w, blocks, tx.actions[i].spend);
    }
  }

  lemma SpendIsFresh(crypto: Crypto, k: Keys, nk: Fq, w: Wallet, blocks: seq<CompactBlock>, spend: SpendBody)
    requires UsesKey(k, crypto, nk) && NullifiersBind(crypto) && Timely(crypto, blocks)
    requires WalletOk(k, w, blocks) && UniqueCommitments(blocks) && GenuineSpend(crypto, w, nk, spend)
    requires |w.nct| <= Pow2(DEPTH) && EMPTY_LEAF !in w.unspent
    ensures spend.nullifier !in AllNullifiers(blocks)
  {
    hide UsesKey, NullifiersBind, Timely, WalletOk, UniqueCommitments, Pow2;
    ReadyIsUnspent(crypto, k, nk, w, blocks, spend.proof.noteCommitment, spend.proof.position);
  }
}
