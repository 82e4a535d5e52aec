/**
 What becomes of a built transaction: signed and listed as finalization does it
 (transaction/src/transaction/builder.rs), it passes the checks of the shielded pool and
 of the staking component.
 */
module BuiltTransactions {
  import opened Prelude
  import opened Rates
  import opened Delegations
  import opened Transactions
  import opened Modular
  import opened Merkle
  import opened ValueBalance
  import opened PoolSpec
  import opened PoolSpends
  import opened WalletSpec
  import opened WalletChain
  import opened NoteSelection
  import opened TxBuilder
  import opened BuilderSpec
  import opened Shuffles

  // ---------------------------------------------------------------------------------------------
  // From a body to a transaction
  // ---------------------------------------------------------------------------------------------

  /** What finalization adds: the encrypted outputs, the blindings of the value commitments, and the id. */
  datatype Seal = Seal(encrypted: nat -> OutputBody, blinding: nat -> int, id: nat)

  /** The note has a leaf in the wallet's tree. */
  ghost predicate HasLeaf(k: Keys, w: Wallet, note: Note) {
    exists p :: 0 <= p < |w.nct| && w.nct[p] == k.commit(note)
  }

  /** The spend of a note, with the path and the nullifier of its position in the wallet's tree. */
  ghost function SpendAction(crypto: Crypto, k: Keys, nk: Fq, w: Wallet, note: Note, blinding: int): (a: Action)
    requires HasLeaf(k, w, note)
    ensures a.Spend? && a.spend.committed == Committed(Value(note.amount, note.asset), blinding)
  {
    var p :| 0 <= p < |w.nct| && w.nct[p] == k.commit(note);
    var c := k.commit(note);
    var proof := SpendProof(AuthPath(crypto.combine, w.nct, p), p, c, nk);
    Action.Spend(SpendBody(crypto.nullify(nk, p, c), proof, Committed(Value(note.amount, note.asset), blinding), true))
  }

  ghost function SpendActions(
    crypto: Crypto, k: Keys, nk: Fq, w: Wallet, notes: seq<Note>, seal: Seal): (r: seq<Action>)
    requires forall note :: note in notes ==> HasLeaf(k, w, note)
    ensures |r| == |notes|
    ensures forall i :: 0 <= i < |r| ==> r[i] == SpendAction(crypto, k, nk, w, notes[i], seal.blinding(i))
  {
    seq(|notes|, i requires 0 <= i < |notes| => SpendAction(crypto, k, nk, w, notes[i], seal.blinding(i)))
  }

  ghost function OutputActions(body: TxBody, seal: Seal): (r: seq<Action>)
    ensures |r| == |body.outputs| && forall i :: 0 <= i < |r| ==> r[i].Output? && r[i].valid
  {
    seq(|body.outputs|, i requires 0 <= i < |body.outputs| =>
      Output(seal.encrypted(i), Committed(body.outputs[i].value, seal.blinding(|body.spends| + i)), true))
  }

  /** Delegations, undelegations and definitions, in this order. */
  ghost function StakingActions(body: TxBody): (r: seq<Action>)
    ensures forall i :: 0 <= i < |r| ==> r[i].Delegation? || r[i].Undelegation? || r[i].ValidatorDefinition?
  {
    seq(|body.delegations|, i requires 0 <= i < |body.delegations| => Delegation(body.delegations[i]))
    + seq(|body.undelegations|, i requires 0 <= i < |body.undelegations| => Undelegation(body.undelegations[i]))
    + seq(|body.definitions|, i requires 0 <= i < |body.definitions| => ValidatorDefinition(body.definitions[i]))
  }

  /** The transaction made from a body in the wallet state `w`, signed with the sum of its blindings. */
  ghost function Finalized(crypto: Crypto, k: Keys, nk: Fq, w: Wallet, body: TxBody, seal: Seal): Transaction
    requires forall note :: note in body.spends ==> HasLeaf(k, w, note)
  {
    var actions := SpendActions(crypto, k, nk, w, body.spends, seal) + OutputActions(body, seal) + StakingActions(body);
    Transaction(seal.id, actions, crypto.root(w.nct), body.fee, true)
  }

  // ---------------------------------------------------------------------------------------------
  // The binding key
  // ---------------------------------------------------------------------------------------------

  lemma {:induction false} SpendsNet(xs: seq<Action>, notes: seq<Note>, asset: AssetId)
    requires |xs| == |notes|
    requires forall i :: 0 <= i < |xs| ==>
               xs[i].Spend? && xs[i].spend.committed.value == Value(notes[i].amount, notes[i].asset)
    ensures NetValue(xs, asset) == SpendTotal(notes, asset)
  {
    if xs != [] {
      SpendsNet(xs[..|xs| - 1], notes[..|notes| - 1], asset);
    }
  }

  lemma {:induction false} OutputsNet(xs: seq<Action>, outputs: seq<TxOutput>, asset: AssetId)
    requires |xs| == |outputs|
    requires forall i :: 0 <= i < |xs| ==> xs[i].Output? && xs[i].committed.value == outputs[i].value
    ensures NetValue(xs, asset) == 0 - OutputTotal(outputs, asset)
  {
    if xs != [] {
      OutputsNet(xs[..|xs| - 1], outputs[..|outputs| - 1], asset);
    }
  }

  lemma {:induction false} DelegationsNet(xs: seq<Action>, ds: seq<Delegate>, asset: AssetId)
    requires |xs| == |ds| && forall i :: 0 <= i < |xs| ==> xs[i] == Delegation(ds[i])
    ensures NetValue(xs, asset) == DelegationBalance(ds, asset)
  {
    if xs != [] {
      DelegationsNet(xs[..|xs| - 1], ds[..|ds| - 1], asset);
    }
  }

  lemma {:induction false} UndelegationsNet(xs: seq<Action>, us: seq<Undelegate>, asset: AssetId)
    requires |xs| == |us| && forall i :: 0 <= i < |xs| ==> xs[i] == Undelegation(us[i])
    ensures NetValue(xs, asset) == UndelegationBalance(us, asset)
  {
    if xs != [] {
      UndelegationsNet(xs[..|xs| - 1], us[..|us| - 1], asset);
    }
  }

  lemma {:induction false} DefinitionsNet(xs: seq<Action>, asset: AssetId)
    requires forall i :: 0 <= i < |xs| ==> xs[i].ValidatorDefinition?
    ensures NetValue(xs, asset) == 0
  {
    if xs != [] {
      DefinitionsNet(xs[..|xs| - 1], asset);
    }
  }

  lemma StakingNet(body: TxBody, asset: AssetId)
    ensures NetValue(StakingActions(body), asset)
            == DelegationBalance(body.delegations, asset) + UndelegationBalance(body.undelegations, asset)
  {
    hide NetValue, DelegationBalance, UndelegationBalance;
    var ds := seq(|body.delegations|, i requires 0 <= i < |body.delegations| => Delegation(body.delegations[i]));
    var us := seq(|body.undelegations|,
        i requires 0 <= i < |body.undelegations| => Undelegation(body.undelegations[i]));
    var vs := seq(|body.definitions|,
        i requires 0 <= i < |body.definitions| => ValidatorDefinition(body.definitions[i]));
    NetValueAppend(ds + us, vs, asset);
    NetValueAppend(ds, us, asset);
    DelegationsNet(ds, body.delegations, asset);
    UndelegationsNet(us, body.undelegations, asset);
    DefinitionsNet(vs, asset);
  }

  /** The key of a finalized transaction has the body's balance along every asset. */
  lemma KeyIsBalance(crypto: Crypto, k: Keys, nk: Fq, w: Wallet, body: TxBody, seal: Seal, asset: AssetId)
    requires forall note :: note in body.spends ==> HasLeaf(k, w, note)
    ensures KeyValue(Finalized(crypto, k, nk, w, body, seal), asset) == Balance(body, asset)
  {
    hide NetValue, SpendTotal, OutputTotal, DelegationBalance, UndelegationBalance, HasLeaf, SpendAction, SpendActions;
    var spends, outputs := SpendActions(crypto, k, nk, w, body.spends, seal), OutputActions(body, seal);
    NetValueAppend(spends + outputs, StakingActions(body), asset);
    NetValueAppend(spends, outputs, asset);
    SpendsNet(spends, body.spends, asset);
    OutputsNet(outputs, body.outputs, asset);
    StakingNet(body, asset);
  }

  /**
   The binding key is pure blinding if and only if the body balances, in whatever order the
   actions are listed.
   */
  lemma PureIffBalanced(
    crypto: Crypto, k: Keys, nk: Fq, w: Wallet, body: TxBody, seal: Seal, actions: seq<Action>)
    requires forall note :: note in body.spends ==> HasLeaf(k, w, note)
    requires multiset(actions) == multiset(Finalized(crypto, k, nk, w, body, seal).actions)
    ensures PureBlinding(Finalized(crypto, k, nk, w, body, seal).(actions := actions)) <==> Balanced(body)
  {
    hide NetValue, HasLeaf, Balance;
    var tx := Finalized(crypto, k, nk, w, body, seal);
    hide Finalized;
    forall asset
      ensures KeyValue(tx.(actions := actions), asset) == Balance(body, asset)
    {
      KeyIsBalance(crypto, k, nk, w, body, seal, asset);
      ShufflesBalanceAlike(actions, tx.actions, asset);
    }
  }

  // ---------------------------------------------------------------------------------------------
  // The pool's checks
  // ---------------------------------------------------------------------------------------------

  /** A wallet whose books are in order has a leaf for every ready note. */
  lemma ReadyHaveLeaves(k: Keys, w: Wallet, outs: seq<OutputBody>, spent: set<int>, note: Note)
    requires Books(k, w, outs, spent) && k.commit(note) in w.unspent
    ensures HasLeaf(k, w, note)
  {
    assert IsOwned(k, outs, k.commit(note));
    var p :| Owned(k, outs, p) && outs[p].noteCommitment == k.commit(note);
    assert w.nct[p] == k.commit(note);
  }

  lemma SpendIsGenuine(crypto: Crypto, k: Keys, nk: Fq, w: Wallet, note: Note, blinding: int)
    requires HasLeaf(k, w, note) && k.commit(note) in w.unspent
    ensures GenuineSpend(crypto, w, nk, SpendAction(crypto, k, nk, w, note, blinding).spend)
    ensures SpendAction(crypto, k, nk, w, note, blinding).spend.proof.noteCommitment == k.commit(note)
  {}

  /** Booked notes make a transaction of the wallet. */
  lemma BookedIsWalletTransaction(
    crypto: Crypto, k: Keys, nk: Fq, v: Wallet, w: Wallet, body: TxBody, seal: Seal,
    blinding: AssetId -> Fq, now: nat)
    requires Balanced(body) && Booked(k, v, w, body.spends, body.outputs, blinding, now)
    requires forall note :: note in body.spends ==> HasLeaf(k, v, note)
    ensures WalletTransaction(crypto, v, nk, Finalized(crypto, k, nk, v, body, seal))
  {
    hide HasLeaf, Balanced, PureBlinding, GenuineSpend, Finalized;
    var tx, n := Finalized(crypto, k, nk, v, body, seal), |body.spends|;
    PureIffBalanced(crypto, k, nk, v, body, seal, tx.actions);
    assert tx.(actions := tx.actions) == tx;
    FinalizedShape(crypto, k, nk, v, body, seal);
    hide Booked;
    forall i, j | 0 <= i < j < |tx.actions| && tx.actions[i].Spend? && tx.actions[j].Spend?
      ensures tx.actions[i].spend.proof.position != tx.actions[j].spend.proof.position
    {
      LeafOfSpend(crypto, v, nk, tx.actions[i].spend);
      LeafOfSpend(crypto, v, nk, tx.actions[j].spend);
      BookedDiffer(k, v, w, body.spends, body.outputs, blinding, now, i, j);
    }
  }

  lemma BookedDiffer(
    k: Keys, v: Wallet, w: Wallet, spends: seq<Note>, outputs: seq<TxOutput>, blinding: AssetId -> Fq, now: nat,
    i: nat, j: nat)
    requires Booked(k, v, w, spends, outputs, blinding, now) && i < j < |spends|
    ensures k.commit(spends[i]) != k.commit(spends[j])
  {}

  /** Genuine spends of the notes, then actions that are valid outputs or none of the pool's business. */
  lemma FinalizedShape(crypto: Crypto, k: Keys, nk: Fq, w: Wallet, body: TxBody, seal: Seal)
    requires forall note :: note in body.spends ==> HasLeaf(k, w, note) && k.commit(note) in w.unspent
    ensures var (tx, n) := (Finalized(crypto, k, nk, w, body, seal), |body.spends|);
            && n <= |tx.actions| && tx.merkleRoot == crypto.root(w.nct) && tx.bindingSigned
            && (forall i :: 0 <= i < n ==>
                  && tx.actions[i].Spend? && GenuineSpend(crypto, w, nk, tx.actions[i].spend)
                  && tx.actions[i].spend.proof.noteCommitment == k.commit(body.spends[i]))
            && (forall i :: n <= i < |tx.actions| ==>
                  && !tx.actions[i].Spend? && !tx.actions[i].IbcAction?
                  && (tx.actions[i].Output? ==> tx.actions[i].valid))
  {
    hide HasLeaf, SpendAction, SpendActions, OutputActions, StakingActions, GenuineSpend;
    var tx, n := Finalized(crypto, k, nk, w, body, seal), |body.spends|;
    forall i | 0 <= i < n
      ensures tx.actions[i].Spend? && GenuineSpend(crypto, w, nk, tx.actions[i].spend)
      ensures tx.actions[i].spend.proof.noteCommitment == k.commit(body.spends[i])
    {
      assert body.spends[i] in body.spends;
      SpendIsGenuine(crypto, k, nk, w, body.spends[i], seal.blinding(i));
    }
    var rest := OutputActions(body, seal) + StakingActions(body);
    forall i | n <= i < |tx.actions|
      ensures tx.actions[i] == rest[i - n]
    {}
  }

  lemma LeafOfSpend(crypto: Crypto, w: Wallet, nk: Fq, spend: SpendBody)
    requires GenuineSpend(crypto, w, nk, spend)
    ensures spend.proof.position < |w.nct| && w.nct[spend.proof.position] == spend.proof.noteCommitment
  {}

  /** Everything a synchronised wallet builds passes the checks of the pool. */
  lemma BuiltPassesPool(
    crypto: Crypto, genesis: seq<OutputBody>, bs: seq<PoolBlock>, k: Keys, nk: Fq, v: Wallet, w: Wallet,
    body: TxBody, seal: Seal, blinding: AssetId -> Fq, now: nat)
    requires SoundTree(crypto) && UsesKey(k, crypto, nk) && NullifiersBind(crypto)
    requires WalletOk(k, v, BlocksOf(crypto, genesis, bs)) && UniqueCommitments(BlocksOf(crypto, genesis, bs))
    requires |v.nct| <= Pow2(DEPTH) && EMPTY_LEAF !in v.unspent
    requires Balanced(body) && Booked(k, v, w, body.spends, body.outputs, blinding, now)
    ensures forall note :: note in body.spends ==> HasLeaf(k, v, note)
    ensures var tx := Finalized(crypto, k, nk, v, body, seal);
            PoolSpec.StatelessOk(crypto, tx) && PoolSpec.StatefulOk(RunPool(crypto, genesis, bs).state, tx)
  {
    hide HasLeaf, Books, Finalized, Balanced, SoundTree, UsesKey, NullifiersBind, UniqueCommitments, Pow2;
    hide RunPool, PoolSpec.StatelessOk, PoolSpec.StatefulOk, WalletTransaction, BlocksOf;
    var blocks := BlocksOf(crypto, genesis, bs);
    forall note | note in body.spends
      ensures HasLeaf(k, v, note)
    {
      ReadyHaveLeaves(k, v, AllOutputs(blocks), SpentOutputs(k, blocks), note);
    }
    BookedIsWalletTransaction(crypto, k, nk, v, w, body, seal, blinding, now);
    hide Booked;
    OkWalletCanSpend(crypto, genesis, bs, k, nk, v, Finalized(crypto, k, nk, v, body, seal));
  }

  // ---------------------------------------------------------------------------------------------
  // The staking component's checks
  // ---------------------------------------------------------------------------------------------

  /** Spends and outputs are none of the staking component's business. */
  lemma {:induction false} FiltersSkip(xs: seq<Action>)
    requires forall i :: 0 <= i < |xs| ==> xs[i].Spend? || xs[i].Output?
    ensures DelegationsOf(xs) == [] && UndelegationsOf(xs) == [] && DefinitionsOf(xs) == []
  {
    if xs != [] {
      FiltersSkip(xs[..|xs| - 1]);
    }
  }

  /** A body with at most one delegation, undelegation or definition in all. */
  ghost predicate AtMostOne(body: TxBody) {
    |body.delegations| + |body.undelegations| + |body.definitions| <= 1
  }

  lemma StakingPart(body: TxBody)
    requires AtMostOne(body)
    ensures var r := StakingActions(body);
            && (body.delegations != [] ==> r == [Delegation(body.delegations[0])])
            && (body.undelegations != [] ==> r == [Undelegation(body.undelegations[0])])
            && (body.definitions != [] ==> r == [ValidatorDefinition(body.definitions[0])])
            && (body.delegations == [] && body.undelegations == [] && body.definitions == [] ==> r == [])
  {}

  lemma FilterOne(a: Action)
    ensures DelegationsOf([a]) == if a.Delegation? then [a.delegate] else []
    ensures UndelegationsOf([a]) == if a.Undelegation? then [a.undelegate] else []
    ensures DefinitionsOf([a]) == if a.ValidatorDefinition? then [a.definition] else []
  {
    assert [a][..0] == [];
    assert DelegationsOf([]) == [] && UndelegationsOf([]) == [] && DefinitionsOf([]) == [];
  }

  /** What the staking component finds in the transaction is what the body lists. */
  lemma FinalizedLists(
    crypto: Crypto, k: Keys, nk: Fq, w: Wallet, body: TxBody, seal: Seal)
    requires AtMostOne(body) && forall note :: note in body.spends ==> HasLeaf(k, w, note)
    ensures var actions := Finalized(crypto, k, nk, w, body, seal).actions;
            && DelegationsOf(actions) == body.delegations
            && UndelegationsOf(actions) == body.undelegations
            && DefinitionsOf(actions) == body.definitions
            && (body.definitions == [] ==> forall i :: 0 <= i < |actions| ==>
                  actions[i].Undelegation? || actions[i].Delegation? || actions[i].Spend? || actions[i].Output?)
  {
    hide HasLeaf, SpendActions, OutputActions, StakingActions;
    var plain := SpendActions(crypto, k, nk, w, body.spends, seal) + OutputActions(body, seal);
    StakingPart(body);
    PlainThenOne(body, plain, StakingActions(body));
  }

  /** The staking actions of the body, after spends and outputs. */
  lemma PlainThenOne(body: TxBody, plain: seq<Action>, last: seq<Action>)
    requires AtMostOne(body) && forall i :: 0 <= i < |plain| ==> plain[i].Spend? || plain[i].Output?
    requires body.delegations != [] ==> last == [Delegation(body.delegations[0])]
    requires body.undelegations != [] ==> last == [Undelegation(body.undelegations[0])]
    requires body.definitions != [] ==> last == [ValidatorDefinition(body.definitions[0])]
    requires body.delegations == [] && body.undelegations == [] && body.definitions == [] ==> last == []
    ensures DelegationsOf(plain + last) == body.delegations
    ensures UndelegationsOf(plain + last) == body.undelegations
    ensures DefinitionsOf(plain + last) == body.definitions
    ensures body.definitions == [] ==> forall i :: 0 <= i < |plain + last| ==>
              var a := (plain + last)[i]; a.Undelegation? || a.Delegation? || a.Spend? || a.Output?
  {
    hide DelegationsOf, UndelegationsOf, DefinitionsOf, SpentNullifiers;
    FiltersAppend(plain, last);
    FiltersSkip(plain);
    if last == [] {
      FiltersSkip(last);
    } else {
      FilterOne(last[0]);
      assert last == [last[0]];
    }
  }

  /**
   A delegation built at the validator's own next rate passes the staking checks if and
   only if the validator is not Slashed and the tokens received fit 63 bits.
   */
  lemma DelegatePassesStakingIff(
    s: StakingSpec.State, rate: RateData, unbonded: nat, fee: nat, index: nat, notes: seq<Note>,
    crypto: Crypto, k: Keys, nk: Fq, w: Wallet, seal: Seal)
    requires rate.identityKey in s.entries && rate == s.entries[rate.identityKey].next
    requires rate.DelegationAmount(unbonded).Ok? && unbonded + fee <= Amounts(notes)
    requires forall note :: note in notes ==> HasLeaf(k, w, note)
    ensures var tx := Finalized(crypto, k, nk, w, DelegateBody(rate, unbonded, fee, index, notes), seal);
            && StakingSpec.StatelessOk(tx)
            && (StakingSpec.StatefulOk(s, tx) <==>
                !s.entries[rate.identityKey].state.Slashed? && rate.DelegationAmount(unbonded).value < I64)
  {
    hide HasLeaf, Finalized, Amounts, Receipts;
    var body := DelegateBody(rate, unbonded, fee, index, notes);
    FinalizedLists(crypto, k, nk, w, body, seal);
    hide StakingSpec.TallyFits;
    var d := body.delegations[0];
    if d.delegationAmount < I64 {
      StakingSpec.OneDelegationTallies(d);
    }
    assert StakingSpec.DelegationOk(s, d) <==> !s.entries[rate.identityKey].state.Slashed? && d.delegationAmount < I64;
  }

  /** An undelegation built at the validator's own next rate passes if and only if its tokens fit 63 bits. */
  lemma UndelegatePassesStakingIff(
    s: StakingSpec.State, rate: RateData, delegated: nat, fee: nat, index: nat, notes: seq<Note>,
    crypto: Crypto, k: Keys, nk: Fq, w: Wallet, seal: Seal)
    requires rate.identityKey in s.entries && rate == s.entries[rate.identityKey].next
    requires rate.UnbondedAmount(delegated).Ok? && fee <= rate.UnbondedAmount(delegated).value
             && delegated <= Amounts(notes)
    requires forall note :: note in notes ==> HasLeaf(k, w, note)
    ensures var tx := Finalized(crypto, k, nk, w, UndelegateBody(rate, delegated, fee, index, notes), seal);
            StakingSpec.StatelessOk(tx) && (StakingSpec.StatefulOk(s, tx) <==> delegated < I64)
  {
    hide HasLeaf, Finalized, Amounts, Receipts;
    var body := UndelegateBody(rate, delegated, fee, index, notes);
    FinalizedLists(crypto, k, nk, w, body, seal);
    hide StakingSpec.TallyFits;
    var u := body.undelegations[0];
    if u.delegationAmount < I64 {
      StakingSpec.OneUndelegationTallies(u);
    }
    assert StakingSpec.UndelegationOk(s, u) <==> delegated < I64;
  }

  /** A payment passes the staking checks in every state. */
  lemma SendPassesStaking(
    s: StakingSpec.State, body: TxBody,
    crypto: Crypto, k: Keys, nk: Fq, w: Wallet, seal: Seal)
    requires body.delegations == [] && body.undelegations == [] && body.definitions == []
    requires forall note :: note in body.spends ==> HasLeaf(k, w, note)
    ensures var tx := Finalized(crypto, k, nk, w, body, seal);
            StakingSpec.StatelessOk(tx) && StakingSpec.StatefulOk(s, tx)
  {
    hide HasLeaf, Finalized;
    FinalizedLists(crypto, k, nk, w, body, seal);
  }

  /** A definition passes if and only if it is signed, takes at most 100%, and is newer than the stored one. */
  lemma DefinitionPassesStakingIff(
    s: StakingSpec.State, body: TxBody, d: Definition,
    crypto: Crypto, k: Keys, nk: Fq, w: Wallet, seal: Seal)
    requires body.delegations == [] && body.undelegations == [] && body.definitions == [d]
    requires forall note :: note in body.spends ==> HasLeaf(k, w, note)
    ensures var tx := Finalized(crypto, k, nk, w, body, seal);
            && (StakingSpec.StatelessOk(tx) <==> d.signed && CommissionBps(d.validator.fundingStreams) <= BPS)
            && (StakingSpec.StatefulOk(s, tx) <==>
                d.validator.identityKey in s.entries ==>
                  s.entries[d.validator.identityKey].definition.sequenceNumber < d.validator.sequenceNumber)
  {
    hide HasLeaf, Finalized, CommissionBps;
    FinalizedLists(crypto, k, nk, w, body, seal);
    assert body.definitions[0] == d;
  }

  // ---------------------------------------------------------------------------------------------
  // The application's checks, all together
  // ---------------------------------------------------------------------------------------------

  /** A chain's pool, and a wallet that has scanned all its blocks. */
  datatype Pair = Pair(crypto: Crypto, genesis: seq<OutputBody>, blocks: seq<PoolBlock>, keys: Keys, nk: Fq,
      wallet: Wallet)

  ghost predicate Synchronised(p: Pair) {
    && SoundTree(p.crypto) && UsesKey(p.keys, p.crypto, p.nk) && NullifiersBind(p.crypto)
    && WalletOk(p.keys, p.wallet, BlocksOf(p.crypto, p.genesis, p.blocks))
    && UniqueCommitments(BlocksOf(p.crypto, p.genesis, p.blocks))
    && |p.wallet.nct| <= Pow2(DEPTH) && EMPTY_LEAF !in p.wallet.unspent
  }

  /** The wallet built `body`: it balances, and its notes were booked. */
  ghost predicate Built(p: Pair, after: Wallet, body: TxBody, blinding: AssetId -> Fq, now: nat) {
    Balanced(body) && Booked(p.keys, p.wallet, after, body.spends, body.outputs, blinding, now)
  }

  ghost function TransactionOf(p: Pair, body: TxBody, seal: Seal): Transaction
    requires forall note :: note in body.spends ==> HasLeaf(p.keys, p.wallet, note)
  {
    Finalized(p.crypto, p.keys, p.nk, p.wallet, body, seal)
  }

  /** The application accepts a transaction that passes both checks of both components. */
  ghost predicate Accepts(p: Pair, s: StakingSpec.State, tx: Transaction) {
    && StakingSpec.StatelessOk(tx) && PoolSpec.StatelessOk(p.crypto, tx)
    && StakingSpec.StatefulOk(s, tx) && PoolSpec.StatefulOk(RunPool(p.crypto, p.genesis, p.blocks).state, tx)
  }

  /** Whether a transaction is accepted does not depend on the order that the builder's shuffle chose. */
  lemma ShufflesAreAcceptedAlike(p: Pair, s: StakingSpec.State, tx: Transaction, actions: seq<Action>)
    requires multiset(actions) == multiset(tx.actions)
    ensures Accepts(p, s, tx.(actions := actions)) <==> Accepts(p, s, tx)
  {
    hide RunPool, PoolSpec.StatelessOk, PoolSpec.StatefulOk, StakingSpec.StatelessOk, StakingSpec.StatefulOk;
    ShufflesPassPoolAlike(p.crypto, RunPool(p.crypto, p.genesis, p.blocks).state, tx, actions);
    ShufflesPassStakingAlike(s, tx, actions);
  }

  lemma BuiltIsPoolOk(
    p: Pair, after: Wallet, body: TxBody, seal: Seal, blinding: AssetId -> Fq, now: nat)
    requires Synchronised(p) && Built(p, after, body, blinding, now)
    ensures forall note :: note in body.spends ==> HasLeaf(p.keys, p.wallet, note)
    ensures var tx := TransactionOf(p, body, seal);
            && PoolSpec.StatelessOk(p.crypto, tx)
            && PoolSpec.StatefulOk(RunPool(p.crypto, p.genesis, p.blocks).state, tx)
  {
    hide HasLeaf, Booked, Balanced, WalletOk, UniqueCommitments, PoolSpec.StatelessOk, PoolSpec.StatefulOk, Finalized;
    hide SoundTree, UsesKey, NullifiersBind, Pow2, RunPool, BlocksOf;
    BuiltPassesPool(p.crypto, p.genesis, p.blocks, p.keys, p.nk, p.wallet, after, body, seal, blinding, now);
  }

  /** A delegation built at the chain's next rate is accepted, but for a Slashed validator or 2^63 tokens. */
  lemma DelegateIsAcceptedIff(
    p: Pair, after: Wallet, s: StakingSpec.State, rate: RateData, unbonded: nat, fee: nat, index: nat, notes: seq<Note>,
    seal: Seal, blinding: AssetId -> Fq, now: nat)
    requires Synchronised(p) && rate.identityKey in s.entries && rate == s.entries[rate.identityKey].next
    requires rate.DelegationAmount(unbonded).Ok? && unbonded + fee <= Amounts(notes)
    requires Built(p, after, DelegateBody(rate, unbonded, fee, index, notes), blinding, now)
    ensures forall note :: note in notes ==> HasLeaf(p.keys, p.wallet, note)
    ensures Accepts(p, s, TransactionOf(p, DelegateBody(rate, unbonded, fee, index, notes), seal)) <==>
            !s.entries[rate.identityKey].state.Slashed? && rate.DelegationAmount(unbonded).value < I64
  {
    hide Synchronised, Built, HasLeaf, Finalized, RunPool, Amounts, Receipts;
    hide PoolSpec.StatelessOk, PoolSpec.StatefulOk, StakingSpec.StatelessOk, StakingSpec.StatefulOk;
    BuiltIsPoolOk(p, after, DelegateBody(rate, unbonded, fee, index, notes), seal, blinding, now);
    DelegatePassesStakingIff(s, rate, unbonded, fee, index, notes, p.crypto, p.keys, p.nk, p.wallet, seal);
  }

  /** An undelegation built at the chain's next rate is accepted below 2^63 tokens. */
  lemma UndelegateIsAcceptedIff(
    p: Pair, after: Wallet, s: StakingSpec.State, rate: RateData, delegated: nat, fee: nat, index: nat,
    notes: seq<Note>, seal: Seal, blinding: AssetId -> Fq, now: nat)
    requires Synchronised(p) && rate.identityKey in s.entries && rate == s.entries[rate.identityKey].next
    requires rate.UnbondedAmount(delegated).Ok? && fee <= rate.UnbondedAmount(delegated).value
             && delegated <= Amounts(notes)
    requires Built(p, after, UndelegateBody(rate, delegated, fee, index, notes), blinding, now)
    ensures forall note :: note in notes ==> HasLeaf(p.keys, p.wallet, note)
    ensures Accepts(p, s, TransactionOf(p, UndelegateBody(rate, delegated, fee, index, notes), seal)) <==>
            delegated < I64
  {
    hide Synchronised, Built, HasLeaf, Finalized, RunPool, Amounts, Receipts;
    hide PoolSpec.StatelessOk, PoolSpec.StatefulOk, StakingSpec.StatelessOk, StakingSpec.StatefulOk;
    BuiltIsPoolOk(p, after, UndelegateBody(rate, delegated, fee, index, notes), seal, blinding, now);
    UndelegatePassesStakingIff(s, rate, delegated, fee, index, notes, p.crypto, p.keys, p.nk, p.wallet, seal);
  }

  /** A payment is accepted. */
  lemma SendIsAccepted(
    p: Pair, after: Wallet, s: StakingSpec.State, body: TxBody,
    seal: Seal, blinding: AssetId -> Fq, now: nat)
    requires Synchronised(p) && body == TxBody(body.spends, body.outputs, [], [], [], body.fee)
    requires Built(p, after, body, blinding, now)
    ensures forall note :: note in body.spends ==> HasLeaf(p.keys, p.wallet, note)
    ensures Accepts(p, s, TransactionOf(p, body, seal))
  {
    hide Synchronised, Built, HasLeaf, Finalized, RunPool;
    hide PoolSpec.StatelessOk, PoolSpec.StatefulOk, StakingSpec.StatelessOk, StakingSpec.StatefulOk;
    BuiltIsPoolOk(p, after, body, seal, blinding, now);
    SendPassesStaking(s, body, p.crypto, p.keys, p.nk, p.wallet, seal);
  }

  /** A definition is accepted if it is signed, takes at most 100%, and is newer than the stored one. */
  lemma DefinitionIsAcceptedIff(
    p: Pair, after: Wallet, s: StakingSpec.State, body: TxBody, d: Definition,
    seal: Seal, blinding: AssetId -> Fq, now: nat)
    requires Synchronised(p) && body == TxBody(body.spends, body.outputs, [], [], [d], body.fee)
    requires Built(p, after, body, blinding, now)
    ensures forall note :: note in body.spends ==> HasLeaf(p.keys, p.wallet, note)
    ensures Accepts(p, s, TransactionOf(p, body, seal)) <==>
            && d.signed && CommissionBps(d.validator.fundingStreams) <= BPS
            && (d.validator.identityKey in s.entries ==>
                  s.entries[d.validator.identityKey].definition.sequenceNumber < d.validator.sequenceNumber)
  {
    hide Synchronised, Built, HasLeaf, Finalized, RunPool, CommissionBps;
    hide PoolSpec.StatelessOk, PoolSpec.StatefulOk, StakingSpec.StatelessOk, StakingSpec.StatefulOk;
    BuiltIsPoolOk(p, after, body, seal, blinding, now);
    DefinitionPassesStakingIff(s, body, d, p.crypto, p.keys, p.nk, p.wallet, seal);
  }
}
