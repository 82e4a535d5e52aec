/** The shielded pool as the object it is: a tree and a pending compact block, changed in place, over stored state. */
module PoolComponent {
  import opened Prelude
  import opened Transactions
  import opened Merkle
  import opened ValueBalance
  import opened PoolSpec

  class ShieldedPool {
    const crypto: Crypto
    var state: PoolState
    var noteCommitmentTree: seq<Fq>
    var compactBlock: CompactBlock

    ghost function Value(): Pool
      reads this
    {
      Pool(state, noteCommitmentTree, compactBlock)
    }

    constructor (crypto: Crypto, state: PoolState)
      ensures this.crypto == crypto && Value() == Pool(state, state.nct, EMPTY_BLOCK)
    {
      this.crypto := crypto;
      this.state := state;
      noteCommitmentTree := state.nct;
      compactBlock := EMPTY_BLOCK;
    }

    /** Mint the genesis allocations, none of which may be empty, and write the first block. */
    method InitChain(allocations: seq<Mint>) returns (ok: bool)
      requires Value() == Pool(EMPTY_STATE, [], EMPTY_BLOCK)
      modifies this
      ensures ok <==> forall a :: a in allocations ==> a.value.amount != 0
      ensures ok ==> Value() == PoolSpec.InitChain(crypto, MintBodies(crypto, [], allocations))
    {
      MintNone(crypto, Value(), FromGenesis);
      hide AddNotes, MintBodies;
      for i := 0 to |allocations|
        invariant forall j :: 0 <= j < i ==> allocations[j].value.amount != 0
        invariant Value() == AddNotes(old(Value()), MintBodies(crypto, [], allocations[..i]), FromGenesis)
      {
        if allocations[i].value.amount == 0 {
          return false;
        }
        MintStep(crypto, old(Value()), [], allocations, i, FromGenesis);
        AddNote(crypto.mint(allocations[i], noteCommitmentTree), FromGenesis);
      }
      assert allocations[..|allocations|] == allocations;
      compactBlock := compactBlock.(height := 0);
      WriteCompactBlockAndNct();
      return true;
    }

    /** The next note is minted on top of the tree that holds the earlier ones. */
    static lemma MintStep(crypto: Crypto, p: Pool, nct: seq<Fq>, mints: seq<Mint>, i: nat, source: NoteSource)
      requires i < |mints| && p.nct == nct
      ensures var q := AddNotes(p, MintBodies(crypto, nct, mints[..i]), source);
              AddNotes(p, MintBodies(crypto, nct, mints[..i + 1]), source)
              == PoolSpec.AddNote(q, crypto.mint(mints[i], q.nct), source)
    {
      hide AddNotes;
      var before := MintBodies(crypto, nct, mints[..i]);
      assert mints[..i + 1][..i] == mints[..i];
      AddNotesEffect(p, before, source);
      var body := crypto.mint(mints[i], nct + Commitments(before));
      assert MintBodies(crypto, nct, mints[..i + 1]) == before + [body];
      AddNotesLast(p, before, body, source);
    }

    static lemma MintNone(crypto: Crypto, p: Pool, source: NoteSource)
      ensures AddNotes(p, MintBodies(crypto, p.nct, []), source) == p
    {}

    static lemma AddNotesLast(p: Pool, bodies: seq<OutputBody>, body: OutputBody, source: NoteSource)
      ensures AddNotes(p, bodies + [body], source) == PoolSpec.AddNote(AddNotes(p, bodies, source), body, source)
    {
      assert (bodies + [body])[..|bodies|] == bodies;
    }

    /** Every spend and output verifies and no nullifier appears twice. */
    method CheckTxStateless(tx: Transaction) returns (ok: bool)
      ensures ok <==> PoolSpec.StatelessOk(crypto, tx)
    {
      hide PureBlinding;
      var bound := CheckBinding(tx);
      if !bound {
        return false;
      }
      var spent: set<Fq> := {};
      for i := 0 to |tx.actions|
        invariant forall j :: 0 <= j < i ==> ActionOk(crypto, tx.merkleRoot, tx.actions[j])
        invariant Distinct(SpentNullifiers(tx.actions[..i]))
        invariant forall n :: n in spent <==> n in SpentNullifiers(tx.actions[..i])
      {
        assert tx.actions[..i + 1][..i] == tx.actions[..i];
        match tx.actions[i] {
          case Output(_, _, valid) =>
            if !valid { return false; }
          case Spend(spend) =>
            var proof := spend.proof;
            var genuine := VerifyPath(crypto.combine, tx.merkleRoot, proof.noteCommitment, proof.position, proof.path);
            if !spend.valid || !genuine || spend.nullifier != crypto.nullify(proof.nullifierKey, proof.position,
                proof.noteCommitment) {
              assert !ActionOk(crypto, tx.merkleRoot, tx.actions[i]);
              return false;
            }
            if spend.nullifier in spent {
              RepeatedNullifier(tx.actions, i);
              return false;
            }
            spent := spent + {spend.nullifier};
          case Delegation(_) =>
          case Undelegation(_) =>
          case ValidatorDefinition(_) =>
          case IbcAction =>
            assert !ActionOk(crypto, tx.merkleRoot, tx.actions[i]);
            return false;
        }
      }
      assert tx.actions[..|tx.actions|] == tx.actions;
      return true;
    }

    /** The binding signature verifies under the binding key. */
    static method CheckBinding(tx: Transaction) returns (ok: bool)
      ensures ok <==> tx.bindingSigned && PureBlinding(tx)
    {
      var values, _ := BindingVerificationKey(tx);
      if a :| a in values && values[a] != 0 {
        assert KeyValue(tx, a) != 0;
        return false;
      }
      assert forall a :: At(values, a) == 0;
      return tx.bindingSigned;
    }

    static lemma {:induction false} PrefixNullifiers(actions: seq<Action>, n: nat)
      requires n <= |actions|
      ensures SpentNullifiers(actions[..n]) <= SpentNullifiers(actions)
      decreases |actions| - n
    {
      if n == |actions| {
        assert actions[..n] == actions;
      } else {
        PrefixNullifiers(actions, n + 1);
        assert actions[..n + 1][..n] == actions[..n];
      }
    }

    static lemma RepeatedNullifier(actions: seq<Action>, i: nat)
      requires i < |actions| && actions[i].Spend? && actions[i].spend.nullifier in SpentNullifiers(actions[..i])
      ensures !Distinct(SpentNullifiers(actions))
    {
      assert actions[..i + 1][..i] == actions[..i];
      PrefixNullifiers(actions, i + 1);
      var before, all := SpentNullifiers(actions[..i]), SpentNullifiers(actions);
      var k :| 0 <= k < |before| && before[k] == actions[i].spend.nullifier;
      assert all[k] == all[|before|];
    }

    /** The anchor is a stored root and no nullifier is recorded as spent. */
    method CheckTxStateful(tx: Transaction) returns (ok: bool)
      ensures ok <==> PoolSpec.StatefulOk(state, tx)
    {
      if tx.merkleRoot !in state.validAnchors {
        return false;
      }
      var nullifiers := SpentNullifiers(tx.actions);
      for i := 0 to |nullifiers|
        invariant forall j :: 0 <= j < i ==> nullifiers[j] !in state.spentNullifiers
      {
        if nullifiers[i] in state.spentNullifiers {
          return false;
        }
      }
      return true;
    }

    method ExecuteTx(tx: Transaction)
      modifies this
      ensures Value() == PoolSpec.ExecuteTx(old(Value()), tx)
    {
      var source := FromTransaction(tx.id);
      AddAll(OutputBodies(tx.actions), source);
      ghost var added := Value();
      var nullifiers := SpentNullifiers(tx.actions);
      for i := 0 to |nullifiers|
        invariant Value() == SpendNullifiers(added, nullifiers[..i], source)
      {
        assert nullifiers[..i + 1][..i] == nullifiers[..i];
        state := state.(spentNullifiers := state.spentNullifiers[nullifiers[i] := source]);
        compactBlock := compactBlock.(nullifiers := compactBlock.nullifiers + [nullifiers[i]]);
      }
      assert nullifiers[..|nullifiers|] == nullifiers;
    }

    /** Set the height, mint the commissions left for it, and write block and tree. */
    method EndBlock(height: nat, commissions: seq<Mint>, epochIndex: nat)
      modifies this
      ensures Value() == PoolSpec.EndBlock(crypto, old(Value()), height,
                           MintBodies(crypto, old(noteCommitmentTree), commissions), FromReward(epochIndex))
    {
      compactBlock := compactBlock.(height := height);
      ghost var p := Value();
      var source := FromReward(epochIndex);
      MintNone(crypto, p, source);
      hide AddNotes, MintBodies;
      for i := 0 to |commissions|
        invariant Value() == AddNotes(p, MintBodies(crypto, p.nct, commissions[..i]), source)
      {
        MintStep(crypto, p, p.nct, commissions, i, source);
        AddNote(crypto.mint(commissions[i], noteCommitmentTree), source);
      }
      assert commissions[..|commissions|] == commissions;
      WriteCompactBlockAndNct();
    }

    method AddAll(bodies: seq<OutputBody>, source: NoteSource)
      modifies this
      ensures Value() == AddNotes(old(Value()), bodies, source)
    {
      for i := 0 to |bodies|
        invariant Value() == AddNotes(old(Value()), bodies[..i], source)
      {
        assert bodies[..i + 1][..i] == bodies[..i];
        AddNote(bodies[i], source);
      }
      assert bodies[..|bodies|] == bodies;
    }

    method AddNote(body: OutputBody, source: NoteSource)
      modifies this
      ensures Value() == PoolSpec.AddNote(old(Value()), body, source)
    {
      noteCommitmentTree := noteCommitmentTree + [body.noteCommitment];
      state := state.(noteSources := state.noteSources[body.noteCommitment := source]);
      compactBlock := compactBlock.(outputs := compactBlock.outputs + [body]);
    }

    method WriteCompactBlockAndNct()
      modifies this
      ensures Value() == WriteBlock(crypto, old(Value()))
    {
      var block := compactBlock;
      compactBlock := EMPTY_BLOCK;
      state := state.(compactBlocks := state.compactBlocks[block.height := block]);
      var anchor := crypto.root(noteCommitmentTree);
      state := state.(nctAnchors := state.nctAnchors[compactBlock.height := anchor],
                      validAnchors := state.validAnchors[anchor := compactBlock.height]);
      state := state.(nct := noteCommitmentTree);
    }
  }
}
