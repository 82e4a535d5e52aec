/**
 What each step of the shielded pool does (shielded-pool/src/component.rs), as
 functions on its state, and the invariant of its runs: the published compact
 blocks tell the whole story of commitments and nullifiers.
 */
module PoolSpec {
  import opened Prelude
  import opened Rates
  import opened Transactions
  import opened Merkle
  import opened ValueBalance

  /** A note to be minted. */
  datatype Mint = Mint(value: Value, address: Address)

  /**
   Hashes are parameters: tree hash, tree root, nullifier of a key, position and commitment,
   and the body of a note minted on top of a tree.
   */
  datatype Crypto = Crypto(
    combine: Combine,
    root: seq<Fq> -> Fq,
    nullify: (Fq, nat, Fq) -> Fq,
    mint: (Mint, seq<Fq>) -> OutputBody)

  datatype NoteSource = FromGenesis | FromTransaction(id: nat) | FromReward(epochIndex: nat)

  datatype CompactBlock = CompactBlock(height: nat, outputs: seq<OutputBody>, nullifiers: seq<Fq>)

  const EMPTY_BLOCK := CompactBlock(0, [], [])

  datatype PoolState = PoolState(
    nct: seq<Fq>,
    compactBlocks: map<nat, CompactBlock>,
    nctAnchors: map<nat, Fq>,
    validAnchors: map<Fq, nat>,
    spentNullifiers: map<Fq, NoteSource>,
    noteSources: map<Fq, NoteSource>)

  const EMPTY_STATE := PoolState([], map[], map[], map[], map[], map[])

  datatype Pool = Pool(state: PoolState, nct: seq<Fq>, block: CompactBlock)

  // ---------------------------------------------------------------------------------------------
  // Steps
  // ---------------------------------------------------------------------------------------------

  function AddNote(p: Pool, body: OutputBody, source: NoteSource): Pool {
    Pool(p.state.(noteSources := p.state.noteSources[body.noteCommitment := source]),
         p.nct + [body.noteCommitment],
         p.block.(outputs := p.block.outputs + [body]))
  }

  function AddNotes(p: Pool, bodies: seq<OutputBody>, source: NoteSource): Pool {
    if bodies == [] then p else AddNote(AddNotes(p, bodies[..|bodies| - 1], source), bodies[|bodies| - 1], source)
  }

  function SpendNullifier(p: Pool, nullifier: Fq, source: NoteSource): Pool {
    p.(state := p.state.(spentNullifiers := p.state.spentNullifiers[nullifier := source]),
       block := p.block.(nullifiers := p.block.nullifiers + [nullifier]))
  }

  function SpendNullifiers(p: Pool, nullifiers: seq<Fq>, source: NoteSource): Pool {
    if nullifiers == [] then p
    else SpendNullifier(SpendNullifiers(p, nullifiers[..|nullifiers| - 1], source),
        nullifiers[|nullifiers| - 1], source)
  }

  predicate SpendOk(crypto: Crypto, anchor: Fq, spend: SpendBody) {
    && spend.valid
    && PathVerifies(crypto.combine, anchor, spend.proof.noteCommitment, spend.proof.position, spend.proof.path)
    && spend.nullifier == crypto.nullify(spend.proof.nullifierKey, spend.proof.position, spend.proof.noteCommitment)
  }

  predicate ActionOk(crypto: Crypto, anchor: Fq, a: Action) {
    match a
    case Output(_, _, valid) => valid
    case Spend(spend) => SpendOk(crypto, anchor, spend)
    case Delegation(_) => true
    case Undelegation(_) => true
    case ValidatorDefinition(_) => true
    case IbcAction => false
  }

  ghost predicate StatelessOk(crypto: Crypto, tx: Transaction) {
    && tx.bindingSigned && PureBlinding(tx)
    && (forall i :: 0 <= i < |tx.actions| ==> ActionOk(crypto, tx.merkleRoot, tx.actions[i]))
    && Distinct(SpentNullifiers(tx.actions))
  }

  predicate StatefulOk(s: PoolState, tx: Transaction) {
    && tx.merkleRoot in s.validAnchors
    && forall i :: 0 <= i < |SpentNullifiers(tx.actions)| ==> SpentNullifiers(tx.actions)[i] !in s.spentNullifiers
  }

  function ExecuteTx(p: Pool, tx: Transaction): Pool {
    var source := FromTransaction(tx.id);
    SpendNullifiers(AddNotes(p, OutputBodies(tx.actions), source), SpentNullifiers(tx.actions), source)
  }

  /** Write the block and the tree. The pending block is taken first, so the anchor is filed under height 0. */
  function WriteBlock(crypto: Crypto, p: Pool): Pool {
    var anchor := crypto.root(p.nct);
    Pool(p.state.(compactBlocks := p.state.compactBlocks[p.block.height := p.block],
                  nctAnchors := p.state.nctAnchors[EMPTY_BLOCK.height := anchor],
                  validAnchors := p.state.validAnchors[anchor := EMPTY_BLOCK.height],
                  nct := p.nct),
         p.nct,
         EMPTY_BLOCK)
  }

  /** Bodies of notes minted one after another, each on top of the tree the last one left. */
  function MintBodies(crypto: Crypto, nct: seq<Fq>, mints: seq<Mint>): (r: seq<OutputBody>)
    ensures |r| == |mints|
  {
    if mints == [] then []
    else
      var init := MintBodies(crypto, nct, mints[..|mints| - 1]);
      init + [crypto.mint(mints[|mints| - 1], nct + Commitments(init))]
  }

  /** `minted` are the bodies of the notes minted for funding streams. */
  function EndBlock(crypto: Crypto, p: Pool, height: nat, minted: seq<OutputBody>, source: NoteSource): Pool {
    WriteBlock(crypto, AddNotes(p.(block := p.block.(height := height)), minted, source))
  }

  function InitChain(crypto: Crypto, minted: seq<OutputBody>): Pool {
    var p := AddNotes(Pool(EMPTY_STATE, [], EMPTY_BLOCK), minted, FromGenesis);
    WriteBlock(crypto, p.(block := p.block.(height := 0)))
  }

  // ---------------------------------------------------------------------------------------------
  // Runs
  // ---------------------------------------------------------------------------------------------

  datatype PoolBlock = PoolBlock(txs: seq<Transaction>, minted: seq<OutputBody>, source: NoteSource)

  ghost function DeliverTx(crypto: Crypto, p: Pool, tx: Transaction): Pool {
    if StatelessOk(crypto, tx) && StatefulOk(p.state, tx) then ExecuteTx(p, tx) else p
  }

  ghost function DeliverAll(crypto: Crypto, p: Pool, txs: seq<Transaction>): Pool {
    if txs == [] then p else DeliverTx(crypto, DeliverAll(crypto, p, txs[..|txs| - 1]), txs[|txs| - 1])
  }

  ghost function RunPool(crypto: Crypto, genesis: seq<OutputBody>, bs: seq<PoolBlock>): Pool {
    if bs == [] then InitChain(crypto, genesis)
    else
      var b := bs[|bs| - 1];
      var p := DeliverAll(crypto, RunPool(crypto, genesis, bs[..|bs| - 1]), b.txs);
      EndBlock(crypto, p, |bs|, b.minted, b.source)
  }

  // ---------------------------------------------------------------------------------------------
  // Published blocks
  // ---------------------------------------------------------------------------------------------

  function Commitments(outputs: seq<OutputBody>): (r: seq<Fq>)
    ensures |r| == |outputs|
  {
    seq(|outputs|, i requires 0 <= i < |outputs| => outputs[i].noteCommitment)
  }

  lemma CommitmentsAppend(a: seq<OutputBody>, b: seq<OutputBody>)
    ensures Commitments(a + b) == Commitments(a) + Commitments(b)
  {}

  ghost function AllOutputs(blocks: seq<CompactBlock>): seq<OutputBody> {
    if blocks == [] then [] else AllOutputs(blocks[..|blocks| - 1]) + blocks[|blocks| - 1].outputs
  }

  ghost function AllNullifiers(blocks: seq<CompactBlock>): seq<Fq> {
    if blocks == [] then [] else AllNullifiers(blocks[..|blocks| - 1]) + blocks[|blocks| - 1].nullifiers
  }

  /** Tree leaves after the first `n` blocks. */
  ghost function LeavesAfter(blocks: seq<CompactBlock>, n: nat): seq<Fq>
    requires n <= |blocks|
  {
    Commitments(AllOutputs(blocks[..n]))
  }

  /** Between blocks: `blocks` are the compact blocks stored for heights 0, 1, 2, … */
  ghost predicate Published(s: PoolState, blocks: seq<CompactBlock>) {
    && (forall h :: h in s.compactBlocks <==> 0 <= h < |blocks|)
    && (forall h :: 0 <= h < |blocks| ==> s.compactBlocks[h] == blocks[h] && blocks[h].height == h)
  }

  /** The tree holds all published commitments and the pending ones; the spent set, all nullifiers, none twice. */
  ghost predicate Accounted(p: Pool, blocks: seq<CompactBlock>) {
    && p.nct == Commitments(AllOutputs(blocks) + p.block.outputs)
    && Distinct(AllNullifiers(blocks) + p.block.nullifiers)
    && (forall n :: n in p.state.spentNullifiers <==> n in AllNullifiers(blocks) + p.block.nullifiers)
  }

  /** The valid anchors are the roots after each block, and only those. */
  ghost predicate Anchored(crypto: Crypto, s: PoolState, blocks: seq<CompactBlock>) {
    && (forall n :: 0 < n <= |blocks| ==> crypto.root(LeavesAfter(blocks, n)) in s.validAnchors)
    && (forall a :: a in s.validAnchors ==> exists n :: 0 < n <= |blocks| && a == crypto.root(LeavesAfter(blocks, n)))
  }

  ghost predicate PoolOk(crypto: Crypto, p: Pool, blocks: seq<CompactBlock>) {
    Published(p.state, blocks) && Accounted(p, blocks) && Anchored(crypto, p.state, blocks)
  }

  lemma {:induction false} AddNotesEffect(p: Pool, bodies: seq<OutputBody>, source: NoteSource)
    ensures var q := AddNotes(p, bodies, source);
            && q == Pool(p.state.(noteSources := q.state.noteSources), p.nct + Commitments(bodies),
               p.block.(outputs := p.block.outputs + bodies))
  {
    if bodies != [] {
      AddNotesEffect(p, bodies[..|bodies| - 1], source);
      assert bodies == bodies[..|bodies| - 1] + [bodies[|bodies| - 1]];
      CommitmentsAppend(bodies[..|bodies| - 1], [bodies[|bodies| - 1]]);
      assert p.nct + Commitments(bodies)
          == p.nct + Commitments(bodies[..|bodies| - 1]) + [bodies[|bodies| - 1].noteCommitment];
      assert p.block.outputs + bodies == p.block.outputs + bodies[..|bodies| - 1] + [bodies[|bodies| - 1]];
    } else {
      assert p.nct + Commitments([]) == p.nct && p.block.outputs + [] == p.block.outputs;
    }
  }

  lemma {:induction false} SpendNullifiersEffect(p: Pool, nullifiers: seq<Fq>, source: NoteSource)
    ensures var q := SpendNullifiers(p, nullifiers, source);
            && q == Pool(p.state.(spentNullifiers := q.state.spentNullifiers), p.nct,
               p.block.(nullifiers := p.block.nullifiers + nullifiers))
            && forall n :: n in q.state.spentNullifiers <==> n in p.state.spentNullifiers || n in nullifiers
  {
    if nullifiers != [] {
      SpendNullifiersEffect(p, nullifiers[..|nullifiers| - 1], source);
      assert nullifiers == nullifiers[..|nullifiers| - 1] + [nullifiers[|nullifiers| - 1]];
      assert p.block.nullifiers + nullifiers
          == p.block.nullifiers + nullifiers[..|nullifiers| - 1] + [nullifiers[|nullifiers| - 1]];
    } else {
      assert p.block.nullifiers + [] == p.block.nullifiers;
    }
  }

  lemma AddNotesAccounted(p: Pool, bodies: seq<OutputBody>, source: NoteSource, blocks: seq<CompactBlock>)
    requires Accounted(p, blocks)
    ensures Accounted(AddNotes(p, bodies, source), blocks)
  {
    AddNotesEffect(p, bodies, source);
    CommitmentsAppend(AllOutputs(blocks) + p.block.outputs, bodies);
    assert AllOutputs(blocks) + (p.block.outputs + bodies) == AllOutputs(blocks) + p.block.outputs + bodies;
  }

  lemma DistinctAppend(a: seq<Fq>, b: seq<Fq>)
    requires Distinct(a) && Distinct(b) && forall i :: 0 <= i < |b| ==> b[i] !in a
    ensures Distinct(a + b)
  {}

  /** Recording new and distinct nullifiers keeps the books. */
  lemma SpendAccounted(p: Pool, ns: seq<Fq>, source: NoteSource, blocks: seq<CompactBlock>)
    requires Accounted(p, blocks) && Distinct(ns)
    requires forall i :: 0 <= i < |ns| ==> ns[i] !in p.state.spentNullifiers
    ensures Accounted(SpendNullifiers(p, ns, source), blocks)
  {
    SpendNullifiersEffect(p, ns, source);
    hide SpendNullifiers, AllNullifiers, AllOutputs, Commitments, Distinct;
    var seen := AllNullifiers(blocks) + p.block.nullifiers;
    assert Distinct(seen + ns) by { DistinctAppend(seen, ns); }
    assert AllNullifiers(blocks) + (p.block.nullifiers + ns) == seen + ns;
  }

  /** An accepted transaction keeps the books: its nullifiers are new and distinct. */
  lemma ExecuteAccounted(crypto: Crypto, p: Pool, tx: Transaction, blocks: seq<CompactBlock>)
    requires Accounted(p, blocks) && StatelessOk(crypto, tx) && StatefulOk(p.state, tx)
    ensures Accounted(ExecuteTx(p, tx), blocks)
  {
    hide AddNotes, SpendNullifiers, SpentNullifiers, OutputBodies, ActionOk, Accounted, Distinct;
    var source := FromTransaction(tx.id);
    AddNotesEffect(p, OutputBodies(tx.actions), source);
    AddNotesAccounted(p, OutputBodies(tx.actions), source, blocks);
    SpendAccounted(AddNotes(p, OutputBodies(tx.actions), source), SpentNullifiers(tx.actions), source, blocks);
  }

  lemma {:induction false} DeliverAllAccounted(
    crypto: Crypto, p: Pool, txs: seq<Transaction>, blocks: seq<CompactBlock>)
    requires Accounted(p, blocks)
    ensures var q := DeliverAll(crypto, p, txs);
            && Accounted(q, blocks)
            && q.state == p.state.(spentNullifiers := q.state.spentNullifiers, noteSources := q.state.noteSources)
  {
    hide Accounted, StatelessOk, StatefulOk, AddNotes, SpendNullifiers;
    if txs != [] {
      var tx := txs[|txs| - 1];
      DeliverAllAccounted(crypto, p, txs[..|txs| - 1], blocks);
      var q := DeliverAll(crypto, p, txs[..|txs| - 1]);
      if StatelessOk(crypto, tx) && StatefulOk(q.state, tx) {
        ExecuteAccounted(crypto, q, tx, blocks);
        AddNotesEffect(q, OutputBodies(tx.actions), FromTransaction(tx.id));
        SpendNullifiersEffect(AddNotes(q, OutputBodies(tx.actions), FromTransaction(tx.id)),
            SpentNullifiers(tx.actions), FromTransaction(tx.id));
      }
    }
  }

  /** Writing the pending block publishes it as the next one. */
  lemma WriteBlockOk(crypto: Crypto, p: Pool, blocks: seq<CompactBlock>)
    requires Published(p.state, blocks) && Accounted(p, blocks) && Anchored(crypto, p.state, blocks)
             && p.block.height == |blocks|
    ensures PoolOk(crypto, WriteBlock(crypto, p), blocks + [p.block])
    ensures WriteBlock(crypto, p).block == EMPTY_BLOCK && WriteBlock(crypto, p).nct == WriteBlock(crypto, p).state.nct
  {
    var next, q := blocks + [p.block], WriteBlock(crypto, p);
    assert next[..|blocks|] == blocks;
    assert AllOutputs(next) + [] == AllOutputs(blocks) + p.block.outputs;
    assert AllNullifiers(next) + [] == AllNullifiers(blocks) + p.block.nullifiers;
    assert Accounted(q, next);
    WriteAnchors(crypto, p, blocks);
  }

  lemma WriteAnchors(crypto: Crypto, p: Pool, blocks: seq<CompactBlock>)
    requires Accounted(p, blocks) && Anchored(crypto, p.state, blocks)
    ensures Anchored(crypto, WriteBlock(crypto, p).state, blocks + [p.block])
  {
    hide Accounted, LeavesAfter;
    var next, s := blocks + [p.block], WriteBlock(crypto, p).state;
    NewestLeaves(p, blocks);
    OlderLeaves(blocks, p.block);
    forall a | a in s.validAnchors
      ensures exists n :: 0 < n <= |next| && a == crypto.root(LeavesAfter(next, n))
    {
      if a == crypto.root(p.nct) {
        assert a == crypto.root(LeavesAfter(next, |next|));
      } else {
        var n :| 0 < n <= |blocks| && a == crypto.root(LeavesAfter(blocks, n));
        assert a == crypto.root(LeavesAfter(next, n));
      }
    }
  }

  lemma OlderLeaves(blocks: seq<CompactBlock>, b: CompactBlock)
    ensures forall n :: 0 <= n <= |blocks| ==> LeavesAfter(blocks + [b], n) == LeavesAfter(blocks, n)
  {
    hide Commitments, AllOutputs;
    forall n | 0 <= n <= |blocks|
      ensures (blocks + [b])[..n] == blocks[..n]
    {}
  }

  lemma NewestLeaves(p: Pool, blocks: seq<CompactBlock>)
    requires Accounted(p, blocks)
    ensures LeavesAfter(blocks + [p.block], |blocks| + 1) == p.nct
  {
    var next := blocks + [p.block];
    assert next[..|next|] == next && next[..|blocks|] == blocks;
  }

  /** The compact blocks a run publishes, oldest first. */
  ghost function BlocksOf(crypto: Crypto, genesis: seq<OutputBody>, bs: seq<PoolBlock>): seq<CompactBlock> {
    if bs == [] then [AddNotes(Pool(EMPTY_STATE, [], EMPTY_BLOCK), genesis, FromGenesis).block]
    else
      var b := bs[|bs| - 1];
      var p := DeliverAll(crypto, RunPool(crypto, genesis, bs[..|bs| - 1]), b.txs);
      BlocksOf(crypto, genesis, bs[..|bs| - 1])
          + [AddNotes(p.(block := p.block.(height := |bs|)), b.minted, b.source).block]
  }

  lemma {:induction false} RunsArePublished(crypto: Crypto, genesis: seq<OutputBody>, bs: seq<PoolBlock>)
    ensures var (p, blocks) := (RunPool(crypto, genesis, bs), BlocksOf(crypto, genesis, bs));
            && |blocks| == |bs| + 1
            && PoolOk(crypto, p, blocks)
            && p.block == EMPTY_BLOCK && p.nct == p.state.nct
  {
    hide AddNotes, DeliverAll, Accounted, Anchored, Published;
    if bs == [] {
      var p := Pool(EMPTY_STATE, [], EMPTY_BLOCK);
      NothingYet(crypto);
      AddNotesEffect(p, genesis, FromGenesis);
      AddNotesAccounted(p, genesis, FromGenesis, []);
      PublishedFrame(crypto, p.state, AddNotes(p, genesis, FromGenesis).state, []);
      WriteBlockOk(crypto, AddNotes(p, genesis, FromGenesis), []);
      assert [] + [AddNotes(p, genesis, FromGenesis).block] == [AddNotes(p, genesis, FromGenesis).block];
    } else {
      var b := bs[|bs| - 1];
      RunsArePublished(crypto, genesis, bs[..|bs| - 1]);
      var before, blocks := RunPool(crypto, genesis, bs[..|bs| - 1]), BlocksOf(crypto, genesis, bs[..|bs| - 1]);
      DeliverAllAccounted(crypto, before, b.txs, blocks);
      var p := DeliverAll(crypto, before, b.txs);
      var q := p.(block := p.block.(height := |bs|));
      HeightAccounted(p, |bs|, blocks);
      AddNotesEffect(q, b.minted, b.source);
      AddNotesAccounted(q, b.minted, b.source, blocks);
      PublishedFrame(crypto, before.state, AddNotes(q, b.minted, b.source).state, blocks);
      WriteBlockOk(crypto, AddNotes(q, b.minted, b.source), blocks);
    }
  }

  lemma NothingYet(crypto: Crypto)
    ensures PoolOk(crypto, Pool(EMPTY_STATE, [], EMPTY_BLOCK), [])
  {}

  lemma PublishedFrame(crypto: Crypto, s: PoolState, t: PoolState, blocks: seq<CompactBlock>)
    requires Published(s, blocks) && Anchored(crypto, s, blocks)
    requires t.compactBlocks == s.compactBlocks && t.validAnchors == s.validAnchors
    ensures Published(t, blocks) && Anchored(crypto, t, blocks)
  {}

  lemma HeightAccounted(p: Pool, height: nat, blocks: seq<CompactBlock>)
    requires Accounted(p, blocks)
    ensures Accounted(p.(block := p.block.(height := height)), blocks)
  {}

  // ---------------------------------------------------------------------------------------------
  // Theorems
  // ---------------------------------------------------------------------------------------------

  /** No double spend: over every run the published nullifiers are distinct and are exactly the recorded ones. */
  lemma NoDoubleSpend(crypto: Crypto, genesis: seq<OutputBody>, bs: seq<PoolBlock>)
    ensures var (s, blocks) := (RunPool(crypto, genesis, bs).state, BlocksOf(crypto, genesis, bs));
            && |blocks| == |bs| + 1 && (forall h ::
               0 <= h <= |bs| ==> h in s.compactBlocks && s.compactBlocks[h] == blocks[h])
            && Distinct(AllNullifiers(blocks))
            && forall n :: n in s.spentNullifiers <==> n in AllNullifiers(blocks)
  {
    hide RunPool, BlocksOf;
    RunsArePublished(crypto, genesis, bs);
    assert AllNullifiers(BlocksOf(crypto, genesis, bs)) + [] == AllNullifiers(BlocksOf(crypto, genesis, bs));
  }

  /** A transaction is accepted against exactly the roots that some block ended with. */
  lemma AnchorAcceptedIff(crypto: Crypto, genesis: seq<OutputBody>, bs: seq<PoolBlock>, anchor: Fq)
    ensures var (s, blocks) := (RunPool(crypto, genesis, bs).state, BlocksOf(crypto, genesis, bs));
            anchor in s.validAnchors <==> exists n :: 0 < n <= |blocks| && anchor == crypto.root(LeavesAfter(blocks, n))
  {
    hide RunPool, BlocksOf;
    RunsArePublished(crypto, genesis, bs);
  }

  /** Because the pending block is taken before its height is read, every anchor is filed under height 0. */
  lemma {:induction false} AnchorsFiledAtZero(crypto: Crypto, genesis: seq<OutputBody>, bs: seq<PoolBlock>)
    ensures var s := RunPool(crypto, genesis, bs).state;
            && s.nctAnchors.Keys == {0} && s.nctAnchors[0] == crypto.root(s.nct)
            && forall a :: a in s.validAnchors ==> s.validAnchors[a] == 0
  {
    if bs == [] {
      AddNotesEffect(Pool(EMPTY_STATE, [], EMPTY_BLOCK), genesis, FromGenesis);
    } else {
      var b := bs[|bs| - 1];
      AnchorsFiledAtZero(crypto, genesis, bs[..|bs| - 1]);
      RunsArePublished(crypto, genesis, bs[..|bs| - 1]);
      var before := RunPool(crypto, genesis, bs[..|bs| - 1]);
      DeliverAllAccounted(crypto, before, b.txs, BlocksOf(crypto, genesis, bs[..|bs| - 1]));
      var p := DeliverAll(crypto, before, b.txs);
      AddNotesEffect(p.(block := p.block.(height := |bs|)), b.minted, b.source);
    }
  }
}
