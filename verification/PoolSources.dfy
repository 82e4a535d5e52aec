/** Where notes and nullifiers came from: what the pool files beside each of them, over every run. */
module PoolSources {
  import opened Transactions
  import opened PoolSpec
  import opened PoolNotes

  /** Something filed under a key, with its source. */
  datatype Filing = Filing(key: Fq, source: NoteSource)

  /** The map holds, for every key filed, the source it was last filed with, and nothing else. */
  ghost predicate Files(m: map<Fq, NoteSource>, fs: seq<Filing>) {
    forall c ::
      && (c in m ==> exists i :: LastFiled(fs, i, c) && fs[i].source == m[c])
      && (c !in m ==> forall i :: 0 <= i < |fs| ==> fs[i].key != c)
  }

  ghost predicate LastFiled(fs: seq<Filing>, i: int, c: Fq) {
    0 <= i < |fs| && fs[i].key == c && forall j :: i < j < |fs| ==> fs[j].key != c
  }

  lemma FilesNext(m: map<Fq, NoteSource>, fs: seq<Filing>, f: Filing)
    requires Files(m, fs)
    ensures Files(m[f.key := f.source], fs + [f])
  {
    var next, n := fs + [f], m[f.key := f.source];
    forall c
      ensures c in n ==> exists i :: LastFiled(next, i, c) && next[i].source == n[c]
      ensures c !in n ==> forall i :: 0 <= i < |next| ==> next[i].key != c
    {
      if c == f.key {
        assert LastFiled(next, |fs|, c) && next[|fs|].source == n[c];
      } else if c in m {
        var i :| LastFiled(fs, i, c) && fs[i].source == m[c];
        assert LastFiled(next, i, c) && next[i].source == n[c];
      }
    }
  }

  function FilingsOf(keys: seq<Fq>, source: NoteSource): seq<Filing> {
    seq(|keys|, i requires 0 <= i < |keys| => Filing(keys[i], source))
  }

  lemma FilingsLast(keys: seq<Fq>, source: NoteSource)
    requires keys != []
    ensures FilingsOf(keys, source)
            == FilingsOf(keys[..|keys| - 1], source) + [Filing(keys[|keys| - 1], source)]
  {}

  lemma {:induction false} AddNotesFiles(p: Pool, bodies: seq<OutputBody>, source: NoteSource, fs: seq<Filing>)
    requires Files(p.state.noteSources, fs)
    ensures var q := AddNotes(p, bodies, source);
            && Files(q.state.noteSources, fs + FilingsOf(Commitments(bodies), source))
            && q.state.spentNullifiers == p.state.spentNullifiers
  {
    hide Files;
    if bodies == [] {
      assert fs + FilingsOf(Commitments(bodies), source) == fs;
    } else {
      var init, last := bodies[..|bodies| - 1], bodies[|bodies| - 1];
      AddNotesFiles(p, init, source, fs);
      var done := fs + FilingsOf(Commitments(init), source);
      FilesNext(AddNotes(p, init, source).state.noteSources, done, Filing(last.noteCommitment, source));
      FilingsLast(Commitments(bodies), source);
      assert Commitments(bodies)[..|bodies| - 1] == Commitments(init);
      assert fs + FilingsOf(Commitments(bodies), source) == done + [Filing(last.noteCommitment, source)];
    }
  }

  lemma {:induction false} SpendsFile(p: Pool, ns: seq<Fq>, source: NoteSource, fs: seq<Filing>)
    requires Files(p.state.spentNullifiers, fs)
    ensures var q := SpendNullifiers(p, ns, source);
            && Files(q.state.spentNullifiers, fs + FilingsOf(ns, source))
            && q.state.noteSources == p.state.noteSources
  {
    hide Files;
    if ns == [] {
      assert fs + FilingsOf(ns, source) == fs;
    } else {
      var init, last := ns[..|ns| - 1], ns[|ns| - 1];
      SpendsFile(p, init, source, fs);
      var done := fs + FilingsOf(init, source);
      FilesNext(SpendNullifiers(p, init, source).state.spentNullifiers, done, Filing(last, source));
      FilingsLast(ns, source);
      assert fs + FilingsOf(ns, source) == done + [Filing(last, source)];
    }
  }

  // ---------------------------------------------------------------------------------------------
  // Runs
  // ---------------------------------------------------------------------------------------------

  /** Notes that transactions create, each with its transaction. */
  ghost function NotesOf(h: seq<Transaction>): seq<Filing> {
    if h == [] then []
    else
      var tx := h[|h| - 1];
      NotesOf(h[..|h| - 1]) + FilingsOf(Commitments(OutputBodies(tx.actions)), FromTransaction(tx.id))
  }

  /** Nullifiers that transactions publish, each with its transaction. */
  ghost function NullifiersOf(h: seq<Transaction>): seq<Filing> {
    if h == [] then []
    else
      var tx := h[|h| - 1];
      NullifiersOf(h[..|h| - 1]) + FilingsOf(SpentNullifiers(tx.actions), FromTransaction(tx.id))
  }

  lemma {:induction false} DeliverFiles(
    crypto: Crypto, p: Pool, txs: seq<Transaction>, notes: seq<Filing>, nullifiers: seq<Filing>)
    requires Files(p.state.noteSources, notes) && Files(p.state.spentNullifiers, nullifiers)
    ensures var (q, h) := (DeliverAll(crypto, p, txs), Delivered(crypto, p, txs));
            && Files(q.state.noteSources, notes + NotesOf(h))
            && Files(q.state.spentNullifiers, nullifiers + NullifiersOf(h))
  {
    hide Files, StatelessOk, StatefulOk, AddNotes, SpendNullifiers, Commitments, OutputBodies, SpentNullifiers;
    if txs == [] {
      assert notes + NotesOf([]) == notes && nullifiers + NullifiersOf([]) == nullifiers;
    } else {
      var init, tx := txs[..|txs| - 1], txs[|txs| - 1];
      var q, h := DeliverAll(crypto, p, init), Delivered(crypto, p, init);
      DeliverFiles(crypto, p, init, notes, nullifiers);
      if StatelessOk(crypto, tx) && StatefulOk(q.state, tx) {
        var source := FromTransaction(tx.id);
        AddNotesFiles(q, OutputBodies(tx.actions), source, notes + NotesOf(h));
        SpendsFile(AddNotes(q, OutputBodies(tx.actions), source), SpentNullifiers(tx.actions), source,
            nullifiers + NullifiersOf(h));
        assert (h + [tx])[..|h|] == h;
        assert notes + NotesOf(h + [tx])
            == notes + NotesOf(h) + FilingsOf(Commitments(OutputBodies(tx.actions)), source);
        assert nullifiers + NullifiersOf(h + [tx])
            == nullifiers + NullifiersOf(h) + FilingsOf(SpentNullifiers(tx.actions), source);
      } else {
        assert Delivered(crypto, p, txs) == h;
      }
    }
  }

  /** All notes of a run: those of genesis, of accepted transactions and of the commissions of each block. */
  ghost function AllNotes(crypto: Crypto, genesis: seq<OutputBody>, bs: seq<PoolBlock>): seq<Filing> {
    if bs == [] then FilingsOf(Commitments(genesis), FromGenesis)
    else
      var (init, b) := (bs[..|bs| - 1], bs[|bs| - 1]);
      AllNotes(crypto, genesis, init) + NotesOf(Delivered(crypto, RunPool(crypto, genesis, init), b.txs))
          + FilingsOf(Commitments(b.minted), b.source)
  }

  ghost function AllSpends(crypto: Crypto, genesis: seq<OutputBody>, bs: seq<PoolBlock>): seq<Filing> {
    if bs == [] then []
    else
      var (init, b) := (bs[..|bs| - 1], bs[|bs| - 1]);
      AllSpends(crypto, genesis, init) + NullifiersOf(Delivered(crypto, RunPool(crypto, genesis, init), b.txs))
  }

  /**
   After every run each commitment is filed with genesis, the transaction or the reward that
   created it last, each nullifier with the transaction that published it, and nothing else is.
   */
  lemma {:induction false} RunsFileSources(crypto: Crypto, genesis: seq<OutputBody>, bs: seq<PoolBlock>)
    ensures var s := RunPool(crypto, genesis, bs).state;
            && Files(s.noteSources, AllNotes(crypto, genesis, bs))
            && Files(s.spentNullifiers, AllSpends(crypto, genesis, bs))
  {
    hide Files, AddNotes, DeliverAll, Delivered, Commitments, NotesOf, NullifiersOf;
    if bs == [] {
      NothingFiled();
      AddNotesFiles(Pool(EMPTY_STATE, [], EMPTY_BLOCK), genesis, FromGenesis, []);
      var fs := FilingsOf(Commitments(genesis), FromGenesis);
      assert [] + fs == fs;
    } else {
      var init, b := bs[..|bs| - 1], bs[|bs| - 1];
      var before := RunPool(crypto, genesis, init);
      RunsFileSources(crypto, genesis, init);
      DeliverFiles(crypto, before, b.txs, AllNotes(crypto, genesis, init), AllSpends(crypto, genesis, init));
      var p := DeliverAll(crypto, before, b.txs);
      AddNotesFiles(p.(block := p.block.(height := |bs|)), b.minted, b.source,
          AllNotes(crypto, genesis, init) + NotesOf(Delivered(crypto, before, b.txs)));
    }
  }

  lemma NothingFiled()
    ensures Files(map[], [])
  {}

  // ---------------------------------------------------------------------------------------------
  // Order
  // ---------------------------------------------------------------------------------------------

  function KeysOf(fs: seq<Filing>): (r: seq<Fq>)
    ensures |r| == |fs|
  {
    seq(|fs|, i requires 0 <= i < |fs| => fs[i].key)
  }

  lemma KeysAppend(a: seq<Filing>, b: seq<Filing>)
    ensures KeysOf(a + b) == KeysOf(a) + KeysOf(b)
  {}

  lemma KeysOfFilings(keys: seq<Fq>, source: NoteSource)
    ensures KeysOf(FilingsOf(keys, source)) == keys
  {}

  /** The outputs of joined actions are joined: each output body once, in the order of the actions. */
  lemma {:induction false} OutputsAppend(xs: seq<Action>, ys: seq<Action>)
    ensures OutputBodies(xs + ys) == OutputBodies(xs) + OutputBodies(ys)
    decreases |ys|
  {
    if ys == [] {
      assert xs + ys == xs;
    } else {
      assert (xs + ys)[..|xs + ys| - 1] == xs + ys[..|ys| - 1];
      OutputsAppend(xs, ys[..|ys| - 1]);
    }
  }

  lemma OutputOne(a: Action)
    ensures OutputBodies([a]) == if a.Output? then [a.body] else []
  {
    assert [a][..0] == [];
  }

  lemma {:induction false} DeliverLists(crypto: Crypto, p: Pool, txs: seq<Transaction>)
    ensures var (q, h) := (DeliverAll(crypto, p, txs), Delivered(crypto, p, txs));
            && q.nct == p.nct + KeysOf(NotesOf(h))
            && q.block.nullifiers == p.block.nullifiers + KeysOf(NullifiersOf(h))
  {
    hide StatelessOk, StatefulOk, AddNotes, SpendNullifiers, Commitments, OutputBodies, SpentNullifiers, KeysOf;
    if txs == [] {
      KeysOfFilings([], FromGenesis);
      assert FilingsOf([], FromGenesis) == [];
    } else {
      var init, tx := txs[..|txs| - 1], txs[|txs| - 1];
      var q, h := DeliverAll(crypto, p, init), Delivered(crypto, p, init);
      DeliverLists(crypto, p, init);
      if StatelessOk(crypto, tx) && StatefulOk(q.state, tx) {
        var source, ns := FromTransaction(tx.id), SpentNullifiers(tx.actions);
        var cs := Commitments(OutputBodies(tx.actions));
        AddNotesEffect(q, OutputBodies(tx.actions), source);
        SpendNullifiersEffect(AddNotes(q, OutputBodies(tx.actions), source), ns, source);
        assert (h + [tx])[..|h|] == h;
        KeysAppend(NotesOf(h), FilingsOf(cs, source));
        KeysAppend(NullifiersOf(h), FilingsOf(ns, source));
        KeysOfFilings(cs, source);
        KeysOfFilings(ns, source);
      } else {
        assert Delivered(crypto, p, txs) == h;
      }
    }
  }

  /**
   After every run the tree holds the notes of genesis, of accepted transactions and of
   commissions in the order in which they came, and the published nullifiers are in theirs.
   */
  lemma {:induction false} RunsListInOrder(crypto: Crypto, genesis: seq<OutputBody>, bs: seq<PoolBlock>)
    ensures RunPool(crypto, genesis, bs).nct == KeysOf(AllNotes(crypto, genesis, bs))
    ensures AllNullifiers(BlocksOf(crypto, genesis, bs)) == KeysOf(AllSpends(crypto, genesis, bs))
  {
    hide AddNotes, DeliverAll, Delivered, Commitments, NotesOf, NullifiersOf, KeysOf, PoolOk;
    if bs == [] {
      var p := Pool(EMPTY_STATE, [], EMPTY_BLOCK);
      AddNotesEffect(p, genesis, FromGenesis);
      KeysOfFilings(Commitments(genesis), FromGenesis);
      KeysOfFilings([], FromGenesis);
      assert FilingsOf([], FromGenesis) == [];
      assert [AddNotes(p, genesis, FromGenesis).block][..0] == [];
    } else {
      var init, b := bs[..|bs| - 1], bs[|bs| - 1];
      var before, blocks := RunPool(crypto, genesis, init), BlocksOf(crypto, genesis, init);
      RunsListInOrder(crypto, genesis, init);
      RunsArePublished(crypto, genesis, init);
      DeliverLists(crypto, before, b.txs);
      var p, h := DeliverAll(crypto, before, b.txs), Delivered(crypto, before, b.txs);
      var q := p.(block := p.block.(height := |bs|));
      AddNotesEffect(q, b.minted, b.source);
      KeysAppend(AllNotes(crypto, genesis, init) + NotesOf(h), FilingsOf(Commitments(b.minted), b.source));
      KeysAppend(AllNotes(crypto, genesis, init), NotesOf(h));
      KeysOfFilings(Commitments(b.minted), b.source);
      KeysAppend(AllSpends(crypto, genesis, init), NullifiersOf(h));
      assert (blocks + [AddNotes(q, b.minted, b.source).block])[..|blocks|] == blocks;
    }
  }

  // ---------------------------------------------------------------------------------------------
  // Checks
  // ---------------------------------------------------------------------------------------------

  /** The binding signature and every proof verify, and there is no action of another kind. */
  ghost predicate Proven(tx: Transaction) {
    && tx.bindingSigned
    && forall i :: 0 <= i < |tx.actions| ==>
         var a := tx.actions[i];
         !a.IbcAction? && (a.Output? ==> a.valid) && (a.Spend? ==> a.spend.valid)
  }

  lemma {:induction false} DeliveredAreProven(crypto: Crypto, p: Pool, txs: seq<Transaction>, tx: Transaction)
    requires tx in Delivered(crypto, p, txs)
    ensures tx in txs && Proven(tx)
  {
    var last := txs[|txs| - 1];
    if tx != last || tx in Delivered(crypto, p, txs[..|txs| - 1]) {
      hide StatelessOk, StatefulOk;
      DeliveredAreProven(crypto, p, txs[..|txs| - 1], tx);
    } else {
      hide StatefulOk;
      assert StatelessOk(crypto, tx);
      assert forall i :: 0 <= i < |tx.actions| ==> ActionOk(crypto, tx.merkleRoot, tx.actions[i]);
    }
  }

  /** In every run each accepted transaction is signed and its proofs verify. */
  lemma {:induction false} AcceptedAreProven(
    crypto: Crypto, genesis: seq<OutputBody>, bs: seq<PoolBlock>, tx: Transaction)
    requires tx in Accepted(crypto, genesis, bs)
    ensures Proven(tx)
  {
    hide Proven, RunPool, Delivered;
    var init := bs[..|bs| - 1];
    if tx in Accepted(crypto, genesis, init) {
      AcceptedAreProven(crypto, genesis, init, tx);
    } else {
      DeliveredAreProven(crypto, RunPool(crypto, genesis, init), bs[|bs| - 1].txs, tx);
    }
  }
}
