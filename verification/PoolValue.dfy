/**
 Conservation of value in the shielded pool: what the unspent notes of an asset are worth is
 what was minted, plus what delegations and undelegations turned into it, less the fees, plus
 what spending leaves again took out a second time.
 */
module PoolValue {
  import opened Transactions
  import opened Modular
  import opened Merkle
  import opened ValueBalance
  import opened PoolSpec
  import opened PoolSpends
  import opened PoolNotes

  // ---------------------------------------------------------------------------------------------
  // Sums
  // ---------------------------------------------------------------------------------------------

  /** Value of the leaves that are not in `spent`. */
  ghost function LeafValue(valueOf: Fq -> Value, leaves: seq<Fq>, spent: set<nat>, asset: AssetId): nat {
    if leaves == [] then 0
    else
      var n := |leaves| - 1;
      LeafValue(valueOf, leaves[..n], spent, asset) + (if n in spent then 0 else Of(valueOf(leaves[n]), asset))
  }

  ghost function SpentLeaves(ss: seq<SpendBody>): set<nat> {
    set spend | spend in ss :: Low(spend.proof.position)
  }

  ghost function SpendValue(ss: seq<SpendBody>, asset: AssetId): nat {
    if ss == [] then 0 else SpendValue(ss[..|ss| - 1], asset) + Of(ss[|ss| - 1].committed.value, asset)
  }

  /** Value of the spends of leaves that an earlier spend had already taken. */
  ghost function Excess(ss: seq<SpendBody>, asset: AssetId): nat {
    if ss == [] then 0
    else
      var init, last := ss[..|ss| - 1], ss[|ss| - 1];
      Excess(init, asset) + (if Low(last.proof.position) in SpentLeaves(init)
          then Of(last.committed.value, asset) else 0)
  }

  /** Value of notes by their commitments. */
  ghost function NoteValue(valueOf: Fq -> Value, bodies: seq<OutputBody>, asset: AssetId): nat {
    if bodies == [] then 0
    else NoteValue(valueOf, bodies[..|bodies| - 1], asset) + Of(valueOf(bodies[|bodies| - 1].noteCommitment), asset)
  }

  /** What delegations and undelegations turn into the asset, less what they take of it. */
  ghost function Converted(actions: seq<Action>, asset: AssetId): int {
    if actions == [] then 0
    else
      var a := actions[|actions| - 1];
      Converted(actions[..|actions| - 1], asset)
          + (if a.Delegation? || a.Undelegation? then Contribution(a, asset) else 0)
  }

  /** Converted value less fees, over all transactions. */
  ghost function Inflow(h: seq<Transaction>, asset: AssetId): int {
    if h == [] then 0
    else
      var tx := h[|h| - 1];
      Inflow(h[..|h| - 1], asset) + Converted(tx.actions, asset) - Of(Value(tx.fee, STAKING_ASSET), asset)
  }

  /** All notes minted at genesis and for commissions. */
  ghost function Minted(genesis: seq<OutputBody>, bs: seq<PoolBlock>): seq<OutputBody> {
    if bs == [] then genesis else Minted(genesis, bs[..|bs| - 1]) + bs[|bs| - 1].minted
  }

  /** The outputs' commitments are those of notes of the committed values. */
  ghost predicate OutputsOpen(valueOf: Fq -> Value, actions: seq<Action>) {
    forall i :: 0 <= i < |actions| && actions[i].Output? ==>
      actions[i].committed.value == valueOf(actions[i].body.noteCommitment)
  }

  // ---------------------------------------------------------------------------------------------
  // One transaction
  // ---------------------------------------------------------------------------------------------

  lemma NetLast(actions: seq<Action>, asset: AssetId)
    requires actions != []
    ensures NetValue(actions, asset)
            == NetValue(actions[..|actions| - 1], asset) + Contribution(actions[|actions| - 1], asset)
  {}

  /** A transaction's balance, sorted by kind of action. */
  lemma {:induction false} NetByKind(valueOf: Fq -> Value, actions: seq<Action>, asset: AssetId)
    requires OutputsOpen(valueOf, actions)
    ensures NetValue(actions, asset)
            == SpendValue(SpendsOf(actions), asset) - NoteValue(valueOf, OutputBodies(actions), asset)
               + Converted(actions, asset)
  {
    if actions != [] {
      var init, a := actions[..|actions| - 1], actions[|actions| - 1];
      NetByKind(valueOf, init, asset);
      assert SpendsOf(actions) == SpendsOf(init) + (if a.Spend? then [a.spend] else []);
      assert OutputBodies(actions) == OutputBodies(init) + (if a.Output? then [a.body] else []);
      hide SpendsOf, OutputBodies, NetValue;
      assert NetValue(actions, asset) == NetValue(init, asset) + Contribution(a, asset) by { NetLast(actions, asset); }
      if a.Spend? {
        assert SpendsOf(actions)[..|SpendsOf(init)|] == SpendsOf(init);
        assert OutputBodies(init) + [] == OutputBodies(init);
      } else if a.Output? {
        assert OutputBodies(actions)[..|OutputBodies(init)|] == OutputBodies(init);
        assert SpendsOf(init) + [] == SpendsOf(init);
      } else {
        assert SpendsOf(init) + [] == SpendsOf(init) && OutputBodies(init) + [] == OutputBodies(init);
      }
    }
  }

  lemma {:induction false} LeavesAppend(
    valueOf: Fq -> Value, leaves: seq<Fq>, bodies: seq<OutputBody>, spent: set<nat>, asset: AssetId)
    requires forall p :: p in spent ==> p < |leaves|
    ensures LeafValue(valueOf, leaves + Commitments(bodies), spent, asset)
            == LeafValue(valueOf, leaves, spent, asset) + NoteValue(valueOf, bodies, asset)
  {
    if bodies == [] {
      assert leaves + Commitments(bodies) == leaves;
    } else {
      var init, last := bodies[..|bodies| - 1], bodies[|bodies| - 1];
      LeavesAppend(valueOf, leaves, init, spent, asset);
      var all := leaves + Commitments(bodies);
      assert all[..|all| - 1] == leaves + Commitments(init);
      assert all[|all| - 1] == last.noteCommitment;
    }
  }

  lemma {:induction false} LeafSpent(
    valueOf: Fq -> Value, leaves: seq<Fq>, spent: set<nat>, p: nat, asset: AssetId)
    requires p < |leaves| && p !in spent
    ensures LeafValue(valueOf, leaves, spent + {p}, asset)
            == LeafValue(valueOf, leaves, spent, asset) - Of(valueOf(leaves[p]), asset)
  {
    var n := |leaves| - 1;
    if p < n {
      LeafSpent(valueOf, leaves[..n], spent, p, asset);
    } else {
      LeafSpentElsewhere(valueOf, leaves[..n], spent, p, asset);
    }
  }

  lemma {:induction false} LeafSpentElsewhere(
    valueOf: Fq -> Value, leaves: seq<Fq>, spent: set<nat>, p: nat, asset: AssetId)
    requires |leaves| <= p
    ensures LeafValue(valueOf, leaves, spent + {p}, asset) == LeafValue(valueOf, leaves, spent, asset)
  {
    if leaves != [] {
      LeafSpentElsewhere(valueOf, leaves[..|leaves| - 1], spent, p, asset);
    }
  }

  /** The spend opens a leaf of the tree for the leaf's value. */
  ghost predicate Takes(valueOf: Fq -> Value, leaves: seq<Fq>, spend: SpendBody) {
    var p := Low(spend.proof.position);
    p < |leaves| && spend.committed.value == valueOf(leaves[p])
  }

  /** Spending leaves takes their values from the unspent ones, except where they were spent before. */
  lemma {:induction false} LeavesSpent(
    valueOf: Fq -> Value, leaves: seq<Fq>, ss: seq<SpendBody>, more: seq<SpendBody>, asset: AssetId)
    requires forall i :: 0 <= i < |more| ==> Takes(valueOf, leaves, more[i])
    ensures LeafValue(valueOf, leaves, SpentLeaves(ss + more), asset) + SpendValue(more, asset)
            == LeafValue(valueOf, leaves, SpentLeaves(ss), asset) + Excess(ss + more, asset) - Excess(ss, asset)
    decreases |more|
  {
    if more == [] {
      assert ss + more == ss;
    } else {
      var init, last := more[..|more| - 1], more[|more| - 1];
      assert ss + more == ss + init + [last];
      hide Low, LeafValue, SpentLeaves, Takes, Excess;
      LeavesSpent(valueOf, leaves, ss, init, asset);
      assert Takes(valueOf, leaves, last);
      OneLeafSpent(valueOf, leaves, ss + init, last, asset);
    }
  }

  lemma OneLeafSpent(valueOf: Fq -> Value, leaves: seq<Fq>, ss: seq<SpendBody>, last: SpendBody, asset: AssetId)
    requires Takes(valueOf, leaves, last)
    ensures LeafValue(valueOf, leaves, SpentLeaves(ss + [last]), asset) + Of(last.committed.value, asset)
            == LeafValue(valueOf, leaves, SpentLeaves(ss), asset) + Excess(ss + [last], asset) - Excess(ss, asset)
  {
    hide Low, LeafValue;
    var p := Low(last.proof.position);
    assert (ss + [last])[..|ss|] == ss;
    assert SpentLeaves(ss + [last]) == SpentLeaves(ss) + {p};
    if p in SpentLeaves(ss) {
      assert SpentLeaves(ss) + {p} == SpentLeaves(ss);
    } else {
      LeafSpent(valueOf, leaves, SpentLeaves(ss), p, asset);
    }
  }

  // ---------------------------------------------------------------------------------------------
  // Runs
  // ---------------------------------------------------------------------------------------------

  /** Unspent leaves are worth what was minted, what flowed in, and what was taken a second time. */
  ghost predicate Solvent(
    valueOf: Fq -> Value, leaves: seq<Fq>, h: seq<Transaction>, minted: seq<OutputBody>, asset: AssetId)
  {
    && (forall p :: p in SpentLeaves(SpendsIn(h)) ==> p < |leaves|)
    && LeafValue(valueOf, leaves, SpentLeaves(SpendsIn(h)), asset)
       == NoteValue(valueOf, minted, asset) + Inflow(h, asset) + Excess(SpendsIn(h), asset)
  }

  ghost predicate AllOpen(valueOf: Fq -> Value, h: seq<Transaction>) {
    forall i :: 0 <= i < |h| ==> OutputsOpen(valueOf, h[i].actions)
  }

  lemma InflowNext(h: seq<Transaction>, tx: Transaction, asset: AssetId)
    ensures Inflow(h + [tx], asset)
            == Inflow(h, asset) + Converted(tx.actions, asset) - Of(Value(tx.fee, STAKING_ASSET), asset)
  {
    assert (h + [tx])[..|h|] == h;
  }

  lemma LeavesInTree(valueOf: Fq -> Value, leaves: seq<Fq>, ss: seq<SpendBody>, more: seq<SpendBody>)
    requires (forall p :: p in SpentLeaves(ss) ==> p < |leaves|)
    requires forall i :: 0 <= i < |more| ==> Takes(valueOf, leaves, more[i])
    ensures forall p :: p in SpentLeaves(ss + more) ==> p < |leaves|
  {
    hide Low;
    forall spend | spend in ss + more
      ensures Low(spend.proof.position) < |leaves|
    {
      if spend in ss {
        assert Low(spend.proof.position) in SpentLeaves(ss);
      }
    }
  }

  /** A balanced transaction keeps the pool solvent in every asset. */
  lemma TransactionKeepsSolvent(
    valueOf: Fq -> Value, leaves: seq<Fq>, h: seq<Transaction>, tx: Transaction, minted: seq<OutputBody>,
        asset: AssetId)
    requires Solvent(valueOf, leaves, h, minted, asset) && PureBlinding(tx) && OutputsOpen(valueOf, tx.actions)
    requires forall i :: 0 <= i < |SpendsOf(tx.actions)| ==> Takes(valueOf, leaves, SpendsOf(tx.actions)[i])
    ensures Solvent(valueOf, leaves + Commitments(OutputBodies(tx.actions)), h + [tx], minted, asset)
  {
    hide Low, LeafValue, SpentLeaves, SpendsIn, SpendsOf, Excess, Takes, NetValue, NoteValue, Converted, Inflow;
    hide SpendValue, Commitments, OutputBodies, OutputsOpen;
    var ss, more := SpendsIn(h), SpendsOf(tx.actions);
    SpendsInNext(h, tx);
    LeavesSpent(valueOf, leaves, ss, more, asset);
    LeavesInTree(valueOf, leaves, ss, more);
    LeavesAppend(valueOf, leaves, OutputBodies(tx.actions), SpentLeaves(ss + more), asset);
    NetByKind(valueOf, tx.actions, asset);
    InflowNext(h, tx, asset);
    assert KeyValue(tx, asset) == 0;
  }

  lemma MintKeepsSolvent(
    valueOf: Fq -> Value, leaves: seq<Fq>, h: seq<Transaction>, minted: seq<OutputBody>, more: seq<OutputBody>,
    asset: AssetId)
    requires Solvent(valueOf, leaves, h, minted, asset)
    ensures Solvent(valueOf, leaves + Commitments(more), h, minted + more, asset)
  {
    hide LeafValue, SpentLeaves, NoteValue, Inflow, Excess, Commitments;
    LeavesAppend(valueOf, leaves, more, SpentLeaves(SpendsIn(h)), asset);
    NotesAppend(valueOf, minted, more, asset);
    assert |leaves| <= |leaves + Commitments(more)|;
  }

  lemma {:induction false} NotesAppend(valueOf: Fq -> Value, a: seq<OutputBody>, b: seq<OutputBody>, asset: AssetId)
    ensures NoteValue(valueOf, a + b, asset) == NoteValue(valueOf, a, asset) + NoteValue(valueOf, b, asset)
  {
    if b == [] {
      assert a + b == a;
    } else {
      assert (a + b)[..|a + b| - 1] == a + b[..|b| - 1];
      NotesAppend(valueOf, a, b[..|b| - 1], asset);
    }
  }

  /** A proper spend of a note takes the value of its leaf. */
  lemma ProperTakes(crypto: Crypto, leaves: seq<Fq>, spend: SpendBody, keyOf: Fq -> Fq, valueOf: Fq -> Value)
    requires Proper(crypto, leaves, spend) && Opens(keyOf, valueOf, [spend])
    ensures Takes(valueOf, leaves, spend)
  {
    hide Low;
    assert [spend][0] == spend;
  }

  lemma OpensParts(keyOf: Fq -> Fq, valueOf: Fq -> Value, ss: seq<SpendBody>, more: seq<SpendBody>)
    requires Opens(keyOf, valueOf, ss + more)
    ensures Opens(keyOf, valueOf, ss) && Opens(keyOf, valueOf, more)
  {
    assert forall i :: 0 <= i < |ss| ==> (ss + more)[i] == ss[i];
    assert forall i :: 0 <= i < |more| ==> (ss + more)[|ss| + i] == more[i];
  }

  /** Note commitments bind, in the spends and in the outputs of all transactions. */
  ghost predicate Sound(keyOf: Fq -> Fq, valueOf: Fq -> Value, h: seq<Transaction>) {
    Opens(keyOf, valueOf, SpendsIn(h)) && AllOpen(valueOf, h)
  }

  lemma SoundPrefix(keyOf: Fq -> Fq, valueOf: Fq -> Value, h: seq<Transaction>, more: seq<Transaction>)
    requires Sound(keyOf, valueOf, h + more)
    ensures Sound(keyOf, valueOf, h)
  {
    hide Opens, OutputsOpen;
    SpendsInAppend(h, more);
    OpensParts(keyOf, valueOf, SpendsIn(h), SpendsIn(more));
    assert forall i :: 0 <= i < |h| ==> (h + more)[i] == h[i];
  }

  lemma ExecuteKeepsSolvent(
    crypto: Crypto, p: Pool, h: seq<Transaction>, tx: Transaction, blocks: seq<CompactBlock>,
    keyOf: Fq -> Fq, valueOf: Fq -> Value, minted: seq<OutputBody>, asset: AssetId)
    requires SoundTree(crypto) && Anchored(crypto, p.state, blocks) && Accounted(p, blocks)
    requires StatelessOk(crypto, tx) && StatefulOk(p.state, tx)
    requires Solvent(valueOf, p.nct, h, minted, asset) && Sound(keyOf, valueOf, h + [tx])
    ensures Solvent(valueOf, ExecuteTx(p, tx).nct, h + [tx], minted, asset)
  {
    hide SoundTree, Anchored, Accounted, Solvent, OutputsOpen, Opens, StatefulOk, ActionOk, Proper, Takes;
    hide SpendsIn, SpendsOf, OutputBodies, Commitments, ExecuteTx, PureBlinding, SpentNullifiers;
    ExecuteGrows(p, tx);
    var more := SpendsOf(tx.actions);
    SpendsInNext(h, tx);
    OpensParts(keyOf, valueOf, SpendsIn(h), more);
    forall i | 0 <= i < |more|
      ensures Takes(valueOf, p.nct, more[i])
    {
      AcceptedIsProper(crypto, p, tx, blocks, i);
      OpensOne(keyOf, valueOf, more, i);
      ProperTakes(crypto, p.nct, more[i], keyOf, valueOf);
    }
    assert (h + [tx])[|h|] == tx;
    TransactionKeepsSolvent(valueOf, p.nct, h, tx, minted, asset);
  }

  lemma OpensOne(keyOf: Fq -> Fq, valueOf: Fq -> Value, ss: seq<SpendBody>, i: nat)
    requires Opens(keyOf, valueOf, ss) && i < |ss|
    ensures Opens(keyOf, valueOf, [ss[i]])
  {}

  lemma {:induction false} DeliverKeepsSolvent(
    crypto: Crypto, p: Pool, h: seq<Transaction>, txs: seq<Transaction>, blocks: seq<CompactBlock>,
    keyOf: Fq -> Fq, valueOf: Fq -> Value, minted: seq<OutputBody>, asset: AssetId)
    requires SoundTree(crypto) && Anchored(crypto, p.state, blocks) && Accounted(p, blocks)
    requires Solvent(valueOf, p.nct, h, minted, asset) && Sound(keyOf, valueOf, h + Delivered(crypto, p, txs))
    ensures Solvent(valueOf, DeliverAll(crypto, p, txs).nct, h + Delivered(crypto, p, txs), minted, asset)
  {
    hide SoundTree, Anchored, Accounted, Solvent, Sound, StatelessOk, StatefulOk, ExecuteTx;
    if txs == [] {
      assert h + [] == h;
    } else {
      var init, tx := txs[..|txs| - 1], txs[|txs| - 1];
      var q, done := DeliverAll(crypto, p, init), h + Delivered(crypto, p, init);
      DeliverAllAccounted(crypto, p, init, blocks);
      if StatelessOk(crypto, tx) && StatefulOk(q.state, tx) {
        assert h + Delivered(crypto, p, txs) == done + [tx];
        SoundPrefix(keyOf, valueOf, done, [tx]);
        DeliverKeepsSolvent(crypto, p, h, init, blocks, keyOf, valueOf, minted, asset);
        AnchorsFrame(crypto, p.state, q.state, blocks);
        ExecuteKeepsSolvent(crypto, q, done, tx, blocks, keyOf, valueOf, minted, asset);
      } else {
        assert Delivered(crypto, p, txs) == Delivered(crypto, p, init);
        DeliverKeepsSolvent(crypto, p, h, init, blocks, keyOf, valueOf, minted, asset);
      }
    }
  }

  lemma GenesisIsSolvent(valueOf: Fq -> Value, genesis: seq<OutputBody>, asset: AssetId)
    ensures Solvent(valueOf, Commitments(genesis), [], genesis, asset)
  {
    NoSpends();
    var none: seq<OutputBody> := [];
    assert Solvent(valueOf, [], [], none, asset);
    MintKeepsSolvent(valueOf, [], [], none, genesis, asset);
    assert [] + Commitments(genesis) == Commitments(genesis) && none + genesis == genesis;
  }

  lemma {:induction false} RunsAreSolvent(
    crypto: Crypto, genesis: seq<OutputBody>, bs: seq<PoolBlock>, keyOf: Fq -> Fq, valueOf: Fq -> Value, asset: AssetId)
    requires SoundTree(crypto) && Sound(keyOf, valueOf, Accepted(crypto, genesis, bs))
    ensures Solvent(valueOf, RunPool(crypto, genesis, bs).nct, Accepted(crypto, genesis, bs),
            Minted(genesis, bs), asset)
  {
    hide SoundTree, Solvent, Sound, DeliverAll, Delivered, AddNotes, PoolOk;
    if bs == [] {
      AddNotesEffect(Pool(EMPTY_STATE, [], EMPTY_BLOCK), genesis, FromGenesis);
      assert [] + Commitments(genesis) == Commitments(genesis);
      GenesisIsSolvent(valueOf, genesis, asset);
    } else {
      var init, b := bs[..|bs| - 1], bs[|bs| - 1];
      var before, blocks := RunPool(crypto, genesis, init), BlocksOf(crypto, genesis, init);
      var h := Accepted(crypto, genesis, init);
      SoundPrefix(keyOf, valueOf, h, Delivered(crypto, before, b.txs));
      RunsAreSolvent(crypto, genesis, init, keyOf, valueOf, asset);
      RunsArePublished(crypto, genesis, init);
      OkParts(crypto, before, blocks);
      DeliverKeepsSolvent(crypto, before, h, b.txs, blocks, keyOf, valueOf, Minted(genesis, init), asset);
      var p := DeliverAll(crypto, before, b.txs);
      AddNotesEffect(p.(block := p.block.(height := |bs|)), b.minted, b.source);
      MintKeepsSolvent(valueOf, p.nct, Accepted(crypto, genesis, bs), Minted(genesis, init), b.minted, asset);
    }
  }

  /**
   The account of every run: the unspent leaves are worth, in every asset, what was minted,
   plus what delegations and undelegations of accepted transactions turned into it, less
   their fees, plus what spends of spent leaves took. So value is conserved if and only if
   those spends took nothing.
   */
  lemma ValueAccounted(
    crypto: Crypto, genesis: seq<OutputBody>, bs: seq<PoolBlock>, keyOf: Fq -> Fq, valueOf: Fq -> Value, asset: AssetId)
    requires SoundTree(crypto) && Sound(keyOf, valueOf, Accepted(crypto, genesis, bs))
    ensures var h := Accepted(crypto, genesis, bs);
            LeafValue(valueOf, RunPool(crypto, genesis, bs).nct, SpentLeaves(SpendsIn(h)), asset)
            == NoteValue(valueOf, Minted(genesis, bs), asset) + Inflow(h, asset) + Excess(SpendsIn(h), asset)
  {
    hide SoundTree, Sound, RunPool, Accepted, SpendsIn, LeafValue, NoteValue, Inflow, SpentLeaves, Excess;
    RunsAreSolvent(crypto, genesis, bs, keyOf, valueOf, asset);
  }

  lemma {:induction false} OnceIsNoExcess(ss: seq<SpendBody>, asset: AssetId)
    requires SpentOnce(ss)
    ensures Excess(ss, asset) == 0
  {
    if ss != [] {
      hide Low;
      var init, last := ss[..|ss| - 1], ss[|ss| - 1];
      assert forall i :: 0 <= i < |init| ==> init[i] == ss[i];
      OnceIsNoExcess(init, asset);
      assert forall spend :: spend in init ==> Low(spend.proof.position) != Low(last.proof.position);
    }
  }

  /** With positions below 2^32 value is conserved in every run. */
  lemma ValueConserved(
    crypto: Crypto, genesis: seq<OutputBody>, bs: seq<PoolBlock>, keyOf: Fq -> Fq, valueOf: Fq -> Value, asset: AssetId)
    requires SoundTree(crypto) && Sound(keyOf, valueOf, Accepted(crypto, genesis, bs))
    requires Guarded(Pow2(DEPTH), SpendsIn(Accepted(crypto, genesis, bs)))
    ensures var h := Accepted(crypto, genesis, bs);
            LeafValue(valueOf, RunPool(crypto, genesis, bs).nct, SpentLeaves(SpendsIn(h)), asset)
            == NoteValue(valueOf, Minted(genesis, bs), asset) + Inflow(h, asset)
  {
    hide SoundTree, AllOpen, Opens, Guarded, Pow2, RunPool, Accepted, SpendsIn, LeafValue, NoteValue, Inflow;
    hide SpentLeaves, Excess, SpentOnce;
    GuardSuffices(crypto, genesis, bs, keyOf, valueOf);
    OnceIsNoExcess(SpendsIn(Accepted(crypto, genesis, bs)), asset);
    hide Sound;
    ValueAccounted(crypto, genesis, bs, keyOf, valueOf, asset);
  }
}
