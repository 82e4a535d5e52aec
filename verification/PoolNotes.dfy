/**
 How often a note can be spent. The path check reads a position modulo 2^32 and the
 nullifier all of it, so a leaf is spent at most once exactly if positions are kept below
 2^32, which nothing checks.
 */
module PoolNotes {
  import opened Transactions
  import opened Modular
  import opened Merkle
  import opened ValueBalance
  import opened PoolSpec
  import opened PoolSpends

  // ---------------------------------------------------------------------------------------------
  // The accepted spends of a run
  // ---------------------------------------------------------------------------------------------

  /** The transactions of a block that pass both checks, in order. */
  ghost function Delivered(crypto: Crypto, p: Pool, txs: seq<Transaction>): seq<Transaction> {
    if txs == [] then []
    else
      var init, tx := txs[..|txs| - 1], txs[|txs| - 1];
      Delivered(crypto, p, init)
      + (if StatelessOk(crypto, tx) && StatefulOk(DeliverAll(crypto, p, init).state, tx) then [tx] else [])
  }

  /** All accepted transactions of a run, oldest first. */
  ghost function Accepted(crypto: Crypto, genesis: seq<OutputBody>, bs: seq<PoolBlock>): seq<Transaction> {
    if bs == [] then []
    else
      var init := bs[..|bs| - 1];
      Accepted(crypto, genesis, init) + Delivered(crypto, RunPool(crypto, genesis, init), bs[|bs| - 1].txs)
  }

  ghost function SpendsIn(h: seq<Transaction>): seq<SpendBody> {
    if h == [] then [] else SpendsIn(h[..|h| - 1]) + SpendsOf(h[|h| - 1].actions)
  }

  lemma SpendsInNext(h: seq<Transaction>, tx: Transaction)
    ensures SpendsIn(h + [tx]) == SpendsIn(h) + SpendsOf(tx.actions)
  {
    assert (h + [tx])[..|h|] == h;
  }

  lemma {:induction false} SpendsInAppend(a: seq<Transaction>, b: seq<Transaction>)
    ensures SpendsIn(a + b) == SpendsIn(a) + SpendsIn(b)
  {
    if b == [] {
      NoSpends();
      assert a + b == a && SpendsIn(a) + [] == SpendsIn(a);
    } else {
      var init, last := b[..|b| - 1], b[|b| - 1];
      SpendsInAppend(a, init);
      hide SpendsIn, SpendsOf;
      JoinLast(a, init, last);
      SpendsInNext(init, last);
      assert init + [last] == b;
    }
  }

  lemma JoinLast(a: seq<Transaction>, init: seq<Transaction>, last: Transaction)
    requires SpendsIn(a + init) == SpendsIn(a) + SpendsIn(init)
    ensures SpendsIn(a + (init + [last])) == SpendsIn(a) + (SpendsIn(init) + SpendsOf(last.actions))
  {
    hide SpendsIn, SpendsOf;
    assert a + (init + [last]) == a + init + [last];
    SpendsInNext(a + init, last);
    Associate(SpendsIn(a), SpendsIn(init), SpendsOf(last.actions));
  }

  lemma Associate(x: seq<SpendBody>, y: seq<SpendBody>, z: seq<SpendBody>)
    ensures x + y + z == x + (y + z)
  {}

  /** The nullifiers a transaction publishes are those of its spends, in order. */
  lemma {:induction false} NullifiersOfSpends(actions: seq<Action>)
    ensures |SpentNullifiers(actions)| == |SpendsOf(actions)|
    ensures forall i :: 0 <= i < |SpendsOf(actions)| ==> SpentNullifiers(actions)[i] == SpendsOf(actions)[i].nullifier
  {
    if actions != [] {
      NullifiersOfSpends(actions[..|actions| - 1]);
    }
  }

  lemma {:induction false} SpendIsAction(actions: seq<Action>, i: nat)
    requires i < |SpendsOf(actions)|
    ensures exists j :: 0 <= j < |actions| && actions[j].Spend? && actions[j].spend == SpendsOf(actions)[i]
  {
    var n := |actions| - 1;
    var before := SpendsOf(actions[..n]);
    if i < |before| {
      SpendIsAction(actions[..n], i);
      var j :| 0 <= j < n && actions[..n][j].Spend? && actions[..n][j].spend == before[i];
      assert actions[j].Spend? && actions[j].spend == SpendsOf(actions)[i];
    } else {
      assert actions[n].Spend? && actions[n].spend == SpendsOf(actions)[i];
    }
  }

  // ---------------------------------------------------------------------------------------------
  // What is known of them
  // ---------------------------------------------------------------------------------------------

  /** The spend opens a leaf of the tree under the nullifier of its key and position. */
  ghost predicate Proper(crypto: Crypto, leaves: seq<Fq>, spend: SpendBody) {
    var proof := spend.proof;
    && IsLeaf(leaves, proof.position, proof.noteCommitment)
    && spend.nullifier == crypto.nullify(proof.nullifierKey, proof.position, proof.noteCommitment)
  }

  ghost predicate Unrepeated(ss: seq<SpendBody>) {
    forall i, j :: 0 <= i < j < |ss| ==> ss[i].nullifier != ss[j].nullifier
  }

  ghost predicate Noted(crypto: Crypto, p: Pool, ss: seq<SpendBody>) {
    && Unrepeated(ss)
    && forall i :: 0 <= i < |ss| ==> Proper(crypto, p.nct, ss[i]) && ss[i].nullifier in p.state.spentNullifiers
  }

  lemma ProperGrows(crypto: Crypto, a: seq<Fq>, b: seq<Fq>, spend: SpendBody)
    requires Proper(crypto, a, spend) && a <= b
    ensures Proper(crypto, b, spend)
  {}

  lemma NotedGrows(crypto: Crypto, p: Pool, q: Pool, ss: seq<SpendBody>)
    requires Noted(crypto, p, ss) && p.nct <= q.nct
    requires forall n :: n in p.state.spentNullifiers ==> n in q.state.spentNullifiers
    ensures Noted(crypto, q, ss)
  {
    forall i | 0 <= i < |ss|
      ensures Proper(crypto, q.nct, ss[i])
    {
      ProperGrows(crypto, p.nct, q.nct, ss[i]);
    }
  }

  /** The leaves published so far are a prefix of the pool's tree. */
  lemma PublishedLeaves(p: Pool, blocks: seq<CompactBlock>, m: nat)
    requires Accounted(p, blocks) && m <= |blocks|
    ensures LeavesAfter(blocks, m) <= p.nct
  {
    OutputsGrow(blocks, m);
    CommitmentsGrow(AllOutputs(blocks[..m]), AllOutputs(blocks) + p.block.outputs);
  }

  /** Every spend of an accepted transaction is proper. */
  lemma AcceptedIsProper(crypto: Crypto, p: Pool, tx: Transaction, blocks: seq<CompactBlock>, i: nat)
    requires SoundTree(crypto) && Anchored(crypto, p.state, blocks) && Accounted(p, blocks)
    requires StatelessOk(crypto, tx) && StatefulOk(p.state, tx) && i < |SpendsOf(tx.actions)|
    ensures Proper(crypto, p.nct, SpendsOf(tx.actions)[i])
  {
    hide SoundTree, Accounted, IsLeaf, LeavesAfter, PureBlinding, Low, PathVerifies;
    SpendIsAction(tx.actions, i);
    var spend := SpendsOf(tx.actions)[i];
    hide SpendsOf;
    var j :| 0 <= j < |tx.actions| && tx.actions[j].Spend? && tx.actions[j].spend == spend;
    assert ActionOk(crypto, tx.merkleRoot, tx.actions[j]);
    var m :| 0 < m <= |blocks| && tx.merkleRoot == crypto.root(LeavesAfter(blocks, m));
    VerifiedSpendOpens(crypto, LeavesAfter(blocks, m), spend);
    PublishedLeaves(p, blocks, m);
    ProperGrows(crypto, LeavesAfter(blocks, m), p.nct, spend);
  }

  lemma ExecuteGrows(p: Pool, tx: Transaction)
    ensures var q := ExecuteTx(p, tx);
            && q.nct == p.nct + Commitments(OutputBodies(tx.actions))
            && forall n :: n in q.state.spentNullifiers <==>
                 n in p.state.spentNullifiers || n in SpentNullifiers(tx.actions)
  {
    hide AddNotes, SpendNullifiers, OutputBodies, SpentNullifiers, Commitments;
    var source := FromTransaction(tx.id);
    AddNotesEffect(p, OutputBodies(tx.actions), source);
    SpendNullifiersEffect(AddNotes(p, OutputBodies(tx.actions), source), SpentNullifiers(tx.actions), source);
  }

  lemma ExecuteNoted(crypto: Crypto, p: Pool, tx: Transaction, blocks: seq<CompactBlock>, ss: seq<SpendBody>)
    requires SoundTree(crypto) && Anchored(crypto, p.state, blocks) && Accounted(p, blocks) && Noted(crypto, p, ss)
    requires StatelessOk(crypto, tx) && StatefulOk(p.state, tx)
    ensures Noted(crypto, ExecuteTx(p, tx), ss + SpendsOf(tx.actions))
  {
    hide SoundTree, Anchored, Accounted, Proper, SpentNullifiers, SpendsOf, OutputBodies, ActionOk, PureBlinding;
    var q, more := ExecuteTx(p, tx), SpendsOf(tx.actions);
    ExecuteGrows(p, tx);
    hide ExecuteTx;
    NullifiersOfSpends(tx.actions);
    NotedGrows(crypto, p, q, ss);
    forall i | 0 <= i < |more|
      ensures Proper(crypto, q.nct, more[i]) && more[i].nullifier in q.state.spentNullifiers
      ensures more[i].nullifier !in p.state.spentNullifiers
    {
      AcceptedIsProper(crypto, p, tx, blocks, i);
      ProperGrows(crypto, p.nct, q.nct, more[i]);
    }
    forall i, j | 0 <= i < j < |ss + more|
      ensures (ss + more)[i].nullifier != (ss + more)[j].nullifier
    {
      if i >= |ss| {
        assert SpentNullifiers(tx.actions)[i - |ss|] != SpentNullifiers(tx.actions)[j - |ss|];
      }
    }
  }

  lemma {:induction false} DeliverNoted(
    crypto: Crypto, p: Pool, txs: seq<Transaction>, blocks: seq<CompactBlock>, ss: seq<SpendBody>)
    requires SoundTree(crypto) && Anchored(crypto, p.state, blocks) && Accounted(p, blocks) && Noted(crypto, p, ss)
    ensures Noted(crypto, DeliverAll(crypto, p, txs), ss + SpendsIn(Delivered(crypto, p, txs)))
  {
    hide SoundTree, Anchored, Accounted, Noted, StatelessOk, StatefulOk, ExecuteTx, SpendsIn;
    if txs == [] {
      assert SpendsIn([]) == [] by { NoSpends(); }
      assert ss + [] == ss;
    } else {
      var init, tx := txs[..|txs| - 1], txs[|txs| - 1];
      DeliverNoted(crypto, p, init, blocks, ss);
      DeliverAllAccounted(crypto, p, init, blocks);
      var q, before := DeliverAll(crypto, p, init), SpendsIn(Delivered(crypto, p, init));
      if StatelessOk(crypto, tx) && StatefulOk(q.state, tx) {
        AnchorsFrame(crypto, p.state, q.state, blocks);
        ExecuteNoted(crypto, q, tx, blocks, ss + before);
        SpendsInNext(Delivered(crypto, p, init), tx);
        assert ss + (before + SpendsOf(tx.actions)) == ss + before + SpendsOf(tx.actions);
      } else {
        assert Delivered(crypto, p, txs) == Delivered(crypto, p, init);
      }
    }
  }

  lemma NoSpends()
    ensures SpendsIn([]) == []
  {}

  lemma {:induction false} RunsAreNoted(crypto: Crypto, genesis: seq<OutputBody>, bs: seq<PoolBlock>)
    requires SoundTree(crypto)
    ensures Noted(crypto, RunPool(crypto, genesis, bs), SpendsIn(Accepted(crypto, genesis, bs)))
  {
    hide SoundTree, Noted, DeliverAll, Delivered, AddNotes, SpendsIn, PoolOk;
    if bs == [] {
      NoSpends();
      NothingNoted(crypto, RunPool(crypto, genesis, bs));
    } else {
      var init, b := bs[..|bs| - 1], bs[|bs| - 1];
      RunsAreNoted(crypto, genesis, init);
      RunsArePublished(crypto, genesis, init);
      var before, blocks := RunPool(crypto, genesis, init), BlocksOf(crypto, genesis, init);
      OkParts(crypto, before, blocks);
      DeliverNoted(crypto, before, b.txs, blocks, SpendsIn(Accepted(crypto, genesis, init)));
      SpendsInAppend(Accepted(crypto, genesis, init), Delivered(crypto, before, b.txs));
      var p := DeliverAll(crypto, before, b.txs);
      AddNotesEffect(p.(block := p.block.(height := |bs|)), b.minted, b.source);
      NotedGrows(crypto, p, RunPool(crypto, genesis, bs), SpendsIn(Accepted(crypto, genesis, bs)));
    }
  }

  lemma OkParts(crypto: Crypto, p: Pool, blocks: seq<CompactBlock>)
    requires PoolOk(crypto, p, blocks)
    ensures Accounted(p, blocks) && Anchored(crypto, p.state, blocks)
  {}

  lemma NothingNoted(crypto: Crypto, p: Pool)
    ensures Noted(crypto, p, [])
  {}

  // ---------------------------------------------------------------------------------------------
  // How often a leaf is spent
  // ---------------------------------------------------------------------------------------------

  /**
   Note commitments bind: every spend's commitment is that of a note, which has one
   nullifier key and one value.
   */
  ghost predicate Opens(keyOf: Fq -> Fq, valueOf: Fq -> Value, ss: seq<SpendBody>) {
    forall i :: 0 <= i < |ss| ==>
      var proof := ss[i].proof;
      && proof.noteCommitment != EMPTY_LEAF && proof.nullifierKey == keyOf(proof.noteCommitment)
      && ss[i].committed.value == valueOf(proof.noteCommitment)
  }

  ghost predicate Guarded(bound: nat, ss: seq<SpendBody>) {
    forall i :: 0 <= i < |ss| ==> ss[i].proof.position < bound
  }

  /** No leaf is spent twice. */
  ghost predicate SpentOnce(ss: seq<SpendBody>) {
    forall i, j :: 0 <= i < j < |ss| ==> Low(ss[i].proof.position) != Low(ss[j].proof.position)
  }

  /**
   Two accepted spends of one leaf open the same note, at different positions that agree
   modulo 2^32.
   */
  lemma SameLeafOtherPosition(
    crypto: Crypto, genesis: seq<OutputBody>, bs: seq<PoolBlock>, keyOf: Fq -> Fq, valueOf: Fq -> Value, i: nat, j: nat)
    requires SoundTree(crypto) && i < j < |SpendsIn(Accepted(crypto, genesis, bs))|
    requires Opens(keyOf, valueOf, SpendsIn(Accepted(crypto, genesis, bs)))
    requires var ss := SpendsIn(Accepted(crypto, genesis, bs));
             Low(ss[i].proof.position) == Low(ss[j].proof.position)
    ensures var ss := SpendsIn(Accepted(crypto, genesis, bs));
            && ss[i].proof.noteCommitment == ss[j].proof.noteCommitment
            && ss[i].committed.value == ss[j].committed.value
            && ss[i].proof.position != ss[j].proof.position
  {
    hide RunPool, Accepted, SpendsIn, SoundTree, Low;
    RunsAreNoted(crypto, genesis, bs);
    var p, ss := RunPool(crypto, genesis, bs), SpendsIn(Accepted(crypto, genesis, bs));
    assert Proper(crypto, p.nct, ss[i]) && Proper(crypto, p.nct, ss[j]);
  }

  /** With positions below 2^32 every leaf is spent at most once. */
  lemma GuardSuffices(
    crypto: Crypto, genesis: seq<OutputBody>, bs: seq<PoolBlock>, keyOf: Fq -> Fq, valueOf: Fq -> Value)
    requires SoundTree(crypto) && Opens(keyOf, valueOf, SpendsIn(Accepted(crypto, genesis, bs)))
    requires Guarded(Pow2(DEPTH), SpendsIn(Accepted(crypto, genesis, bs)))
    ensures SpentOnce(SpendsIn(Accepted(crypto, genesis, bs)))
  {
    hide Accepted, SpendsIn, SoundTree, Opens, Pow2;
    var ss := SpendsIn(Accepted(crypto, genesis, bs));
    forall i, j | 0 <= i < j < |ss|
      ensures Low(ss[i].proof.position) != Low(ss[j].proof.position)
    {
      if Low(ss[i].proof.position) == Low(ss[j].proof.position) {
        SameLeafOtherPosition(crypto, genesis, bs, keyOf, valueOf, i, j);
      }
    }
  }

  // ---------------------------------------------------------------------------------------------
  // The guard is needed
  // ---------------------------------------------------------------------------------------------

  const NOTE: Fq := 1

  const GENESIS_NOTE := OutputBody(NOTE, 0, 0)

  /** A spend of the one genesis note at a position that names its leaf, with an output of the same value. */
  ghost function SpendAt(crypto: Crypto, keyOf: Fq -> Fq, valueOf: Fq -> Value, position: nat): Transaction {
    var output := Output(OutputBody(2, 0, 0), Committed(valueOf(NOTE), 0), true);
    Transaction(position, [Spend(SpendOf(crypto, keyOf, valueOf, position)), output], crypto.root([NOTE]), 0, true)
  }

  ghost function SpendOf(crypto: Crypto, keyOf: Fq -> Fq, valueOf: Fq -> Value, position: nat): SpendBody {
    var proof := SpendProof(AuthPath(crypto.combine, [NOTE], 0), position, NOTE, keyOf(NOTE));
    SpendBody(crypto.nullify(keyOf(NOTE), position, NOTE), proof, Committed(valueOf(NOTE), 0), true)
  }

  lemma SpendAtLists(crypto: Crypto, keyOf: Fq -> Fq, valueOf: Fq -> Value, position: nat)
    ensures var tx := SpendAt(crypto, keyOf, valueOf, position);
            && SpendsOf(tx.actions) == [SpendOf(crypto, keyOf, valueOf, position)]
            && SpentNullifiers(tx.actions) == [crypto.nullify(keyOf(NOTE), position, NOTE)]
            && PureBlinding(tx)
  {
    var tx := SpendAt(crypto, keyOf, valueOf, position);
    var first := tx.actions[..1];
    assert first[..0] == [] && first == [tx.actions[0]];
    assert SpendsOf(first) == SpendsOf([]) + [tx.actions[0].spend];
    assert SpentNullifiers(first) == SpentNullifiers([]) + [tx.actions[0].spend.nullifier];
    forall asset
      ensures KeyValue(tx, asset) == 0
    {
      assert NetValue(first, asset) == NetValue([], asset) + Contribution(tx.actions[0], asset);
    }
  }

  lemma SpendAtIsStateless(crypto: Crypto, keyOf: Fq -> Fq, valueOf: Fq -> Value, position: nat)
    requires SoundTree(crypto) && Low(position) == 0
    ensures StatelessOk(crypto, SpendAt(crypto, keyOf, valueOf, position))
  {
    SpendAtLists(crypto, keyOf, valueOf, position);
    hide PureBlinding, PathVerifies, Root, AuthPath, Low, SpentNullifiers, SpendsOf;
    GenuinePathVerifies(crypto.combine, [NOTE], position);
    var tx := SpendAt(crypto, keyOf, valueOf, position);
    assert ActionOk(crypto, tx.merkleRoot, tx.actions[0]) && ActionOk(crypto, tx.merkleRoot, tx.actions[1]);
  }

  ghost function TwiceBlock(crypto: Crypto, keyOf: Fq -> Fq, valueOf: Fq -> Value): PoolBlock {
    PoolBlock([SpendAt(crypto, keyOf, valueOf, 0), SpendAt(crypto, keyOf, valueOf, Pow2(DEPTH))], [], FromReward(0))
  }

  lemma GenesisPool(crypto: Crypto)
    ensures var p := RunPool(crypto, [GENESIS_NOTE], []);
            crypto.root([NOTE]) in p.state.validAnchors && p.state.spentNullifiers == map[]
  {
    AddNotesEffect(Pool(EMPTY_STATE, [], EMPTY_BLOCK), [GENESIS_NOTE], FromGenesis);
    assert [] + Commitments([GENESIS_NOTE]) == [NOTE];
  }

  /**
   One note spent twice: both transactions balance and pass both checks, the second in the
   state the first left.
   */
  lemma SpentTwice(crypto: Crypto, keyOf: Fq -> Fq, valueOf: Fq -> Value)
    requires SoundTree(crypto) && NullifiersBind(crypto)
    ensures var h := Accepted(crypto, [GENESIS_NOTE], [TwiceBlock(crypto, keyOf, valueOf)]);
            && h == TwiceBlock(crypto, keyOf, valueOf).txs
            && |SpendsIn(h)| == 2 && !SpentOnce(SpendsIn(h))
            && Opens(keyOf, valueOf, SpendsIn(h)) && Guarded(Pow2(DEPTH) + 1, SpendsIn(h))
  {
    hide Pow2, SpendAt, Accepted, SpendsIn, SpentOnce, Opens, Guarded;
    var tx, ty := SpendAt(crypto, keyOf, valueOf, 0), SpendAt(crypto, keyOf, valueOf, Pow2(DEPTH));
    BothAccepted(crypto, keyOf, valueOf);
    TwoTransactions(tx, ty);
    TwiceShape(crypto, keyOf, valueOf);
  }

  lemma TwiceShape(crypto: Crypto, keyOf: Fq -> Fq, valueOf: Fq -> Value)
    ensures var tx, ty := SpendAt(crypto, keyOf, valueOf, 0), SpendAt(crypto, keyOf, valueOf, Pow2(DEPTH));
            var ss := SpendsOf(tx.actions) + SpendsOf(ty.actions);
            |ss| == 2 && !SpentOnce(ss) && Opens(keyOf, valueOf, ss) && Guarded(Pow2(DEPTH) + 1, ss)
  {
    hide Pow2, Low, PureBlinding, SpendsOf, SpentNullifiers, SpentOnce, Opens, Guarded, SpendAt;
    TwiceNamesLeaf();
    SpendAtLists(crypto, keyOf, valueOf, 0);
    SpendAtLists(crypto, keyOf, valueOf, Pow2(DEPTH));
    SameLeafTwice(crypto, keyOf, valueOf, SpendOf(crypto, keyOf, valueOf, 0),
        SpendOf(crypto, keyOf, valueOf, Pow2(DEPTH)));
  }

  lemma SameLeafTwice(crypto: Crypto, keyOf: Fq -> Fq, valueOf: Fq -> Value, x: SpendBody, y: SpendBody)
    requires x == SpendOf(crypto, keyOf, valueOf, 0) && y == SpendOf(crypto, keyOf, valueOf, Pow2(DEPTH))
    requires Low(x.proof.position) == Low(y.proof.position)
    ensures !SpentOnce([x] + [y]) && Opens(keyOf, valueOf, [x] + [y]) && Guarded(Pow2(DEPTH) + 1, [x] + [y])
  {
    hide Pow2, Low;
    var ss := [x] + [y];
    assert ss[0] == x && ss[1] == y;
  }

  lemma TwoTransactions(tx: Transaction, ty: Transaction)
    ensures SpendsIn([tx, ty]) == SpendsOf(tx.actions) + SpendsOf(ty.actions)
  {
    NoSpends();
    SpendsInNext([], tx);
    SpendsInNext([tx], ty);
    assert [] + [tx] == [tx] && [tx] + [ty] == [tx, ty];
  }

  lemma BothAccepted(crypto: Crypto, keyOf: Fq -> Fq, valueOf: Fq -> Value)
    requires SoundTree(crypto) && NullifiersBind(crypto)
    ensures var b := TwiceBlock(crypto, keyOf, valueOf); Accepted(crypto, [GENESIS_NOTE], [b]) == b.txs
  {
    var p, b := RunPool(crypto, [GENESIS_NOTE], []), TwiceBlock(crypto, keyOf, valueOf);
    TwiceNamesLeaf();
    GenesisPool(crypto);
    hide Pow2, Low, SoundTree, RunPool, SpendAt, StatelessOk, StatefulOk, DeliverAll, Delivered;
    SpendAtIsStateless(crypto, keyOf, valueOf, 0);
    SpendAtIsStateless(crypto, keyOf, valueOf, Pow2(DEPTH));
    BothAreStateful(crypto, p, keyOf, valueOf);
    BothDelivered(crypto, p, b.txs[0], b.txs[1]);
    assert b.txs == [b.txs[0], b.txs[1]] && [b][..0] == [];
    assert Accepted(crypto, [GENESIS_NOTE], []) == [];
    assert Accepted(crypto, [GENESIS_NOTE], [b]) == [] + Delivered(crypto, p, b.txs);
  }

  lemma TwiceNamesLeaf()
    ensures Low(0) == 0 && Low(Pow2(DEPTH)) == 0 && Pow2(DEPTH) != 0
  {
    Pow2Positive(DEPTH);
    hide Pow2;
    ModUnique(Pow2(DEPTH), Pow2(DEPTH), 1, 0);
  }

  lemma BothAreStateful(crypto: Crypto, p: Pool, keyOf: Fq -> Fq, valueOf: Fq -> Value)
    requires NullifiersBind(crypto) && Pow2(DEPTH) != 0
    requires crypto.root([NOTE]) in p.state.validAnchors && p.state.spentNullifiers == map[]
    ensures var tx, ty := SpendAt(crypto, keyOf, valueOf, 0), SpendAt(crypto, keyOf, valueOf, Pow2(DEPTH));
            StatefulOk(p.state, tx) && StatefulOk(ExecuteTx(p, tx).state, ty)
  {
    hide Pow2;
    var tx, ty := SpendAt(crypto, keyOf, valueOf, 0), SpendAt(crypto, keyOf, valueOf, Pow2(DEPTH));
    SpendAtLists(crypto, keyOf, valueOf, 0);
    SpendAtLists(crypto, keyOf, valueOf, Pow2(DEPTH));
    hide SpentNullifiers, PureBlinding, ExecuteTx;
    ExecuteGrows(p, tx);
    ExecuteKeepsAnchors(p, tx);
  }

  lemma BothDelivered(crypto: Crypto, p: Pool, tx: Transaction, ty: Transaction)
    requires StatelessOk(crypto, tx) && StatefulOk(p.state, tx)
    requires StatelessOk(crypto, ty) && StatefulOk(ExecuteTx(p, tx).state, ty)
    ensures Delivered(crypto, p, [tx, ty]) == [tx, ty]
  {
    hide StatelessOk, StatefulOk, ExecuteTx;
    assert [tx, ty][..1] == [tx] && [tx][..0] == [];
    assert DeliverAll(crypto, p, []) == p && Delivered(crypto, p, []) == [];
    assert DeliverAll(crypto, p, [tx]) == ExecuteTx(p, tx) && Delivered(crypto, p, [tx]) == [tx];
  }

  lemma ExecuteKeepsAnchors(p: Pool, tx: Transaction)
    ensures ExecuteTx(p, tx).state.validAnchors == p.state.validAnchors
  {
    var source := FromTransaction(tx.id);
    AddNotesEffect(p, OutputBodies(tx.actions), source);
    SpendNullifiersEffect(AddNotes(p, OutputBodies(tx.actions), source), SpentNullifiers(tx.actions), source);
  }

  /** In this run, spends of notes at positions below the bound spend no leaf twice. */
  ghost predicate BoundHolds(
    crypto: Crypto, keyOf: Fq -> Fq, valueOf: Fq -> Value, bound: nat, genesis: seq<OutputBody>, bs: seq<PoolBlock>)
  {
    var ss := SpendsIn(Accepted(crypto, genesis, bs));
    Opens(keyOf, valueOf, ss) && Guarded(bound, ss) ==> SpentOnce(ss)
  }

  /**
   The missing guard: a bound on positions keeps leaves from being spent twice, in every
   run, if and only if it is at most 2^32.
   */
  lemma GuardIsExact(crypto: Crypto, keyOf: Fq -> Fq, valueOf: Fq -> Value, bound: nat)
    requires SoundTree(crypto) && NullifiersBind(crypto)
    ensures (forall genesis, bs :: BoundHolds(crypto, keyOf, valueOf, bound, genesis, bs)) <==> bound <= Pow2(DEPTH)
  {
    hide BoundHolds, SoundTree, NullifiersBind, Pow2;
    if bound <= Pow2(DEPTH) {
      forall genesis, bs
        ensures BoundHolds(crypto, keyOf, valueOf, bound, genesis, bs)
      {
        SmallBoundHolds(crypto, keyOf, valueOf, bound, genesis, bs);
      }
    } else {
      LargeBoundFails(crypto, keyOf, valueOf, bound);
    }
  }

  lemma SmallBoundHolds(
    crypto: Crypto, keyOf: Fq -> Fq, valueOf: Fq -> Value, bound: nat, genesis: seq<OutputBody>, bs: seq<PoolBlock>)
    requires SoundTree(crypto) && bound <= Pow2(DEPTH)
    ensures BoundHolds(crypto, keyOf, valueOf, bound, genesis, bs)
  {
    hide SoundTree, Accepted, SpendsIn, Opens, SpentOnce, Pow2;
    var ss := SpendsIn(Accepted(crypto, genesis, bs));
    if Opens(keyOf, valueOf, ss) && Guarded(bound, ss) {
      GuardSuffices(crypto, genesis, bs, keyOf, valueOf);
    }
  }

  lemma LargeBoundFails(crypto: Crypto, keyOf: Fq -> Fq, valueOf: Fq -> Value, bound: nat)
    requires SoundTree(crypto) && NullifiersBind(crypto) && bound > Pow2(DEPTH)
    ensures !BoundHolds(crypto, keyOf, valueOf, bound, [GENESIS_NOTE], [TwiceBlock(crypto, keyOf, valueOf)])
  {
    hide SoundTree, NullifiersBind, Accepted, SpendsIn, Opens, SpentOnce, Pow2, TwiceBlock;
    SpentTwice(crypto, keyOf, valueOf);
  }
}
