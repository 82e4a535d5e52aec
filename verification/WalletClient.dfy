/**
 The wallet as the object it is (wallet/src/state.rs): note sets and a tree changed in place, and
 the transaction builders.
 */
module WalletClient {
  import opened Prelude
  import opened Rates
  import opened Delegations
  import opened Transactions
  import opened PoolSpec
  import opened WalletSpec
  import opened NoteSelection
  import opened TxBuilder
  import opened BuilderSpec

  class ClientState {
    const keys: Keys
    var lastBlockHeight: Option<nat>
    var noteCommitmentTree: seq<Fq>
    var witnessed: set<Fq>
    var nullifierMap: map<Fq, Fq>
    var unspentSet: map<Fq, Note>
    var submittedSpendSet: map<Fq, Submitted>
    var submittedChangeSet: map<Fq, Submitted>
    var spentSet: map<Fq, Note>
    var assetCache: set<AssetId>
    var chainIdKnown: bool
    var addressLabels: nat

    ghost function Value(): Wallet
      reads this
    {
      Wallet(lastBlockHeight, noteCommitmentTree, witnessed, nullifierMap, unspentSet, submittedSpendSet,
          submittedChangeSet, spentSet)
    }

    constructor (keys: Keys, labels: nat)
      ensures this.keys == keys && Value() == NEW_WALLET && assetCache == {} && !chainIdKnown && addressLabels == labels
    {
      this.keys := keys;
      lastBlockHeight, noteCommitmentTree, witnessed, nullifierMap := None, [], {}, map[];
      unspentSet, submittedSpendSet, submittedChangeSet, spentSet := map[], map[], map[], map[];
      assetCache, chainIdKnown, addressLabels := {}, false, labels;
    }

    // -------------------------------------------------------------------------------------------
    // Scanning
    // -------------------------------------------------------------------------------------------

    method ScanBlock(b: CompactBlock) returns (ok: bool)
      modifies this
      ensures ok <==> Expects(old(Value()), b.height)
      ensures Value() == WalletSpec.ScanBlock(keys, old(Value()), b)
      ensures assetCache == old(assetCache) && chainIdKnown == old(chainIdKnown)
    {
      match lastBlockHeight {
        case None =>
          if b.height != 0 { return false; }
        case Some(last) =>
          if b.height != last + 1 { return false; }
      }
      for i := 0 to |b.outputs|
        invariant Value() == ScanOutputs(keys, old(Value()), b.outputs[..i])
        invariant assetCache == old(assetCache) && chainIdKnown == old(chainIdKnown)
      {
        assert b.outputs[..i + 1][..i] == b.outputs[..i];
        ScanOutput(b.outputs[i]);
      }
      assert b.outputs[..|b.outputs|] == b.outputs;
      ghost var scanned := Value();
      for i := 0 to |b.nullifiers|
        invariant Value() == ScanNullifiers(scanned, b.nullifiers[..i])
        invariant assetCache == old(assetCache) && chainIdKnown == old(chainIdKnown)
      {
        assert b.nullifiers[..i + 1][..i] == b.nullifiers[..i];
        ScanNullifier(b.nullifiers[i]);
      }
      assert b.nullifiers[..|b.nullifiers|] == b.nullifiers;
      lastBlockHeight := Some(b.height);
      return true;
    }

    method ScanOutput(body: OutputBody)
      modifies this`noteCommitmentTree, this`witnessed, this`nullifierMap, this`submittedChangeSet, this`unspentSet
      ensures Value() == WalletSpec.ScanOutput(keys, old(Value()), body)
    {
      var c := body.noteCommitment;
      noteCommitmentTree := noteCommitmentTree + [c];
      var decrypted := keys.decrypt(body);
      if decrypted.Some? {
        witnessed := witnessed + {c};
        var position := |noteCommitmentTree| - 1;
        nullifierMap := nullifierMap[keys.nullify(position, c) := c];
        submittedChangeSet := submittedChangeSet - {c};
        unspentSet := unspentSet[c := decrypted.value];
      }
    }

    method ScanNullifier(n: Fq)
      modifies this`unspentSet, this`submittedSpendSet, this`submittedChangeSet, this`spentSet, this`witnessed
      ensures Value() == WalletSpec.ScanNullifier(old(Value()), n)
    {
      if n in nullifierMap {
        var c := nullifierMap[n];
        if c in unspentSet {
          spentSet := spentSet[c := unspentSet[c]];
          unspentSet := unspentSet - {c};
          witnessed := witnessed - {c};
        } else if c in submittedSpendSet {
          spentSet := spentSet[c := submittedSpendSet[c].note];
          submittedSpendSet := submittedSpendSet - {c};
          witnessed := witnessed - {c};
        } else if c in submittedChangeSet {
          spentSet := spentSet[c := submittedChangeSet[c].note];
          submittedChangeSet := submittedChangeSet - {c};
          witnessed := witnessed - {c};
        }
      }
    }

    // -------------------------------------------------------------------------------------------
    // Speculative moves
    // -------------------------------------------------------------------------------------------

    method RegisterChange(note: Note, now: nat)
      modifies this`submittedChangeSet
      ensures Value() == WalletSpec.RegisterChange(keys, old(Value()), note, now)
    {
      submittedChangeSet := submittedChangeSet[keys.commit(note) := Submitted(now + TIMEOUT, note)];
    }

    method RegisterSpend(note: Note, now: nat)
      requires keys.commit(note) in unspentSet
      modifies this`unspentSet, this`submittedSpendSet
      ensures Value() == WalletSpec.RegisterSpend(old(Value()), keys.commit(note), now)
    {
      var c := keys.commit(note);
      var removed := unspentSet[c];
      unspentSet := unspentSet - {c};
      submittedSpendSet := submittedSpendSet[c := Submitted(now + TIMEOUT, removed)];
    }

    /** Return expired spends to the ready notes and drop expired change. */
    method PruneTimeouts(now: nat)
      modifies this`unspentSet, this`submittedSpendSet, this`submittedChangeSet
      ensures Value() == WalletSpec.PruneTimeouts(old(Value()), now)
      ensures forall c :: Pruned(old(Value()), Value(), c, now)
    {
      PruneOutcome(Value(), now);
      hide Pruned, Pending, Recovered;
      var spends, changes := submittedSpendSet, submittedChangeSet;
      submittedSpendSet, submittedChangeSet := map[], map[];
      PruneSpends(spends, now);
      PruneChanges(changes, now);
    }

    method PruneSpends(spends: map<Fq, Submitted>, now: nat)
      requires submittedSpendSet == map[]
      modifies this`unspentSet, this`submittedSpendSet
      ensures submittedSpendSet == Pending(spends, now)
      ensures unspentSet == old(unspentSet) + Recovered(spends, spentSet, now)
    {
      hide Pending, Recovered;
      var todo := spends.Keys;
      ghost var done: map<Fq, Submitted> := map[];
      PruneNone(spentSet, now);
      while todo != {}
        invariant todo <= spends.Keys && done == spends - todo
        invariant submittedSpendSet == Pending(done, now)
        invariant unspentSet == old(unspentSet) + Recovered(done, spentSet, now)
      {
        var c :| c in todo;
        PendingNext(done, c, spends[c], now);
        RecoveredNext(done, c, spends[c], spentSet, now);
        if now > spends[c].timeout {
          if c !in spentSet {
            unspentSet := unspentSet[c := spends[c].note];
          }
        } else {
          submittedSpendSet := submittedSpendSet[c := spends[c]];
        }
        todo := todo - {c};
        done := done[c := spends[c]];
      }
      assert done == spends;
    }

    method PruneChanges(changes: map<Fq, Submitted>, now: nat)
      requires submittedChangeSet == map[]
      modifies this`submittedChangeSet
      ensures submittedChangeSet == Pending(changes, now)
    {
      var todo := changes.Keys;
      while todo != {}
        invariant todo <= changes.Keys
        invariant forall c :: c in submittedChangeSet <==> c in changes && c !in todo && !(now > changes[c].timeout)
        invariant forall c :: c in submittedChangeSet ==> submittedChangeSet[c] == changes[c]
      {
        var c :| c in todo;
        if !(now > changes[c].timeout) {
          submittedChangeSet := submittedChangeSet[c := changes[c]];
        }
        todo := todo - {c};
      }
    }

    // -------------------------------------------------------------------------------------------
    // Note selection
    // -------------------------------------------------------------------------------------------

    /**
     Draw ready notes in any order until they cover `amount`, and register them as
     spent. This succeeds exactly when all denominations are known and the eligible
     ready notes are worth the amount; on failure nothing changes.
     */
    method NotesToSpend(amount: nat, asset: AssetId, source: Option<nat>, now: nat)
      returns (r: Result<seq<Note>, WalletError>)
      requires Filed(keys, Value())
      modifies this`unspentSet, this`submittedSpendSet
      ensures Filed(keys, Value())
      ensures r.Ok? <==> Cached(old(Value()), assetCache) && Funded(old(Value()), amount, asset, source)
      ensures r.Err? ==> Value() == old(Value()) && NoSelection(r.error)
      ensures r.Ok? ==> Selection(keys, old(Value()), r.value, amount, asset, source) && Cached(Value(), assetCache)
      ensures r.Ok? ==>
                && CommitSet(keys, r.value) <= old(unspentSet).Keys
                && Value() == Submit(old(Value()), CommitSet(keys, r.value), now)
    {
      hide Known, Worth, Candidates, Cached;
      var cached := AllCached();
      if !cached {
        return Err(UncachedAsset);
      }
      var anyKnown := KnownNotes(asset, source);
      if !anyKnown {
        return Err(NoNotesOfDenom);
      }
      var notes := SelectNotes(amount, asset, source);
      if notes.Err? {
        return Err(notes.error);
      }
      SubmitKeepsCached(Value(), CommitSet(keys, notes.value), now, assetCache);
      RegisterAll(notes.value, now);
      return Ok(notes.value);
    }

    method AllCached() returns (cached: bool)
      ensures cached <==> Cached(Value(), assetCache)
    {
      if c :| c in unspentSet && unspentSet[c].asset !in assetCache {
        return false;
      }
      if c :| c in submittedSpendSet && submittedSpendSet[c].note.asset !in assetCache {
        return false;
      }
      if c :| c in submittedChangeSet && submittedChangeSet[c].note.asset !in assetCache {
        return false;
      }
      return true;
    }

    method KnownNotes(asset: AssetId, source: Option<nat>) returns (known: bool)
      ensures known <==> Known(Value(), asset, source)
    {
      if c :| c in unspentSet && Eligible(unspentSet[c], asset, source) {
        return true;
      }
      if c :| c in submittedSpendSet && Eligible(submittedSpendSet[c].note, asset, source) {
        return true;
      }
      if c :| c in submittedChangeSet && Eligible(submittedChangeSet[c].note, asset, source) {
        return true;
      }
      return false;
    }

    method SelectNotes(amount: nat, asset: AssetId, source: Option<nat>) returns (r: Result<seq<Note>, WalletError>)
      requires Filed(keys, Value())
      ensures r.Ok? <==> amount <= Worth(Value(), Candidates(Value(), asset, source))
      ensures r.Ok? ==> Selection(keys, Value(), r.value, amount, asset, source)
      ensures r.Err? ==> r.error == NotEnoughNotes
    {
      hide Worth, Drawn, Selection, Amounts, Candidates;
      var notes: seq<Note> := [];
      var total := 0;
      var todo := set c | c in unspentSet && Eligible(unspentSet[c], asset, source);
      ghost var w, all := Value(), todo;
      assert all == Candidates(w, asset, source) by { CandidatesAre(w, asset, source); }
      DrawNone(keys, w, all);
      while todo != {}
        invariant todo <= all
        invariant total == Amounts(notes)
        invariant Worth(w, all) == total + Worth(w, todo)
        invariant Drawn(keys, w, notes, all - todo)
        invariant notes == [] || total < amount
        decreases todo
      {
        var c :| c in todo;
        WorthRemove(w, todo, c);
        DrawNext(keys, w, notes, all - todo, c);
        assert all - todo + {c} == all - (todo - {c});
        todo := todo - {c};
        notes := notes + [unspentSet[c]];
        total := total + unspentSet[c].amount;
        if total >= amount {
          DrawnIsSelection(keys, w, notes, all - todo, amount, asset, source);
          return Ok(notes);
        }
      }
      if total >= amount {
        DrawnIsSelection(keys, w, notes, all - todo, amount, asset, source);
        return Ok(notes);
      }
      assert todo == {};
      return Err(NotEnoughNotes);
    }

    method RegisterAll(notes: seq<Note>, now: nat)
      requires Filed(keys, Value()) && DistinctNotes(keys, notes) && CommitSet(keys, notes) <= unspentSet.Keys
      modifies this`unspentSet, this`submittedSpendSet
      ensures Filed(keys, Value()) && Value() == Submit(old(Value()), CommitSet(keys, notes), now)
    {
      hide Stamped;
      ghost var w := Value();
      assert CommitSet(keys, notes[..0]) == {} && Submit(w, {}, now) == w by { SubmitNone(w, now); }
      for i := 0 to |notes|
        invariant CommitSet(keys, notes[..i]) <= w.unspent.Keys
        invariant Value() == Submit(w, CommitSet(keys, notes[..i]), now)
      {
        ghost var c := keys.commit(notes[i]);
        CommitSetNext(keys, notes, i);
        assert c in CommitSet(keys, notes);
        SubmitOne(Value(), c, now);
        SubmitTwice(w, CommitSet(keys, notes[..i]), {c}, now);
        RegisterSpend(notes[i], now);
      }
      assert notes[..|notes|] == notes;
    }

    // -------------------------------------------------------------------------------------------
    // Building transactions
    // -------------------------------------------------------------------------------------------

    /** A builder with fee and chain id set. */
    static method StartBuilder(fee: nat) returns (b: Builder)
      ensures fresh(b) && b.Valid() && b.Body() == EMPTY_BODY.(fee := fee) && b.Settings() == (Some(fee), true, fee)
    {
      b := new Builder();
      b.SetFee(fee);
      b.SetChainId();
    }

    /** Add spends of the notes, each of which needs a path in the wallet's tree. */
    method AddSpends(b: Builder, notes: seq<Note>) returns (ok: bool)
      requires b.Valid()
      modifies b
      ensures b.Valid() && b.Settings() == old(b.Settings())
      ensures ok <==> forall note :: note in notes ==> keys.commit(note) in witnessed
      ensures ok ==> b.Body() == old(b.Body()).(spends := old(b.spends) + notes)
    {
      assert old(b.spends) + notes[..0] == old(b.spends);
      for i := 0 to |notes|
        invariant b.Valid() && b.Settings() == old(b.Settings())
        invariant b.Body() == old(b.Body()).(spends := old(b.spends) + notes[..i])
        invariant forall j :: 0 <= j < i ==> keys.commit(notes[j]) in witnessed
      {
        assert old(b.spends) + notes[..i] + [notes[i]] == old(b.spends) + notes[..i + 1];
        ok := b.AddSpend(keys, witnessed, notes[i]);
        if !ok {
          return;
        }
      }
      assert notes[..|notes|] == notes;
      return true;
    }

    /** Send value to the wallet's own address `index`, and expect the note as change. */
    method RegisterSelf(
      b: Builder, value: Value, index: nat, blinding: AssetId -> Fq, now: nat,
      ghost v: Wallet, ghost notes: seq<Note>, ghost os: seq<TxOutput>)
      requires b.Valid() && Booked(keys, v, this.Value(), notes, os, blinding, now)
      modifies this`submittedChangeSet, b
      ensures b.Valid() && b.Settings() == old(b.Settings())
      ensures b.Body() == old(b.Body()).(outputs := old(b.outputs) + [ToSelf(value, index)])
      ensures Booked(keys, v, this.Value(), notes, os + [ToSelf(value, index)], blinding, now)
      ensures old(Cached(this.Value(), assetCache)) && value.asset in assetCache ==> Cached(this.Value(), assetCache)
    {
      BookedChange(keys, v, this.Value(), notes, os, ToSelf(value, index), blinding, now);
      b.AddOutput(ToSelf(value, index));
      RegisterChange(Note(index, value.asset, value.amount, blinding(value.asset)), now);
    }

    /** Spend notes worth `amount` and take the rest back as change. */
    method FundAsset(
      b: Builder, amount: nat, asset: AssetId, source: Option<nat>, blinding: AssetId -> Fq, now: nat)
      returns (error: Option<WalletError>, ghost notes: seq<Note>)
      requires amount > 0 && Filed(keys, Value()) && b.Valid()
      modifies this`unspentSet, this`submittedSpendSet, this`submittedChangeSet, b
      ensures Filed(keys, Value()) && b.Valid() && b.Settings() == old(b.Settings())
      ensures SomeBooking(keys, old(Value()), Value(), blinding, now)
      ensures error == None || NoSelection(error.value) || error.value == UnknownAddress
      ensures error == None || error.value == UnknownAddress ==>
                && Cached(old(Value()), assetCache) && Cached(Value(), assetCache)
                && Funded(old(Value()), amount, asset, source)
      ensures error == None && source.Some? ==> source.value < addressLabels
      ensures && Cached(old(Value()), assetCache) && Funded(old(Value()), amount, asset, source)
              && Labelled(old(Value()), asset, source, addressLabels)
              ==> error == None
      ensures error == None ==> notes != [] && Selection(keys, old(Value()), notes, amount, asset, source)
      ensures error == None ==>
                && Booked(keys, old(Value()), Value(), notes, ChangeOutputs(notes, amount, asset), blinding, now)
                && b.Body() == old(b.Body()).(spends := old(b.spends) + notes,
                                              outputs := old(b.outputs) + ChangeOutputs(notes, amount, asset))
    {
      hide Funded, Amounts, Booked, Selection, Filed, Cached, Labelled, CommitSet, Submit, Builder.Valid;
      ghost var v := Value();
      notes := [];
      var chosen := NotesToSpend(amount, asset, source, now);
      if chosen.Err? {
        NoBooking(keys, v, blinding, now);
        return Some(chosen.error), [];
      }
      notes := chosen.value;
      SelectionIsFiled(keys, v, notes, amount, asset, source, addressLabels);
      SelectionIsCached(keys, v, notes, amount, asset, source, assetCache);
      BookedSelection(keys, v, notes, amount, asset, source, blinding, now);
      var index := chosen.value[|chosen.value| - 1].addressIndex;
      if index >= addressLabels {
        return Some(UnknownAddress), notes;
      }
      var ok := AddSpends(b, chosen.value);
      assert ok;
      TakeChange(b, chosen.value, amount, asset, blinding, now, v);
      BookedStaysFiled(keys, v, Value(), notes, ChangeOutputs(notes, amount, asset), blinding, now);
      error := None;
    }

    /** Find out how much change there is and whether to add a change output. */
    method TakeChange(
      b: Builder, notes: seq<Note>, amount: nat, asset: AssetId, blinding: AssetId -> Fq, now: nat, ghost v: Wallet)
      requires b.Valid() && notes != [] && amount <= Amounts(notes)
      requires Booked(keys, v, Value(), notes, [], blinding, now)
      modifies this`submittedChangeSet, b
      ensures b.Valid() && b.Settings() == old(b.Settings())
      ensures b.Body() == old(b.Body()).(outputs := old(b.outputs) + ChangeOutputs(notes, amount, asset))
      ensures Booked(keys, v, Value(), notes, ChangeOutputs(notes, amount, asset), blinding, now)
      ensures old(Cached(Value(), assetCache)) && asset in assetCache ==> Cached(Value(), assetCache)
    {
      hide Booked, Amounts;
      var index := notes[|notes| - 1].addressIndex;
      var total := SumAmounts(notes);
      if total > amount {
        var change := Transactions.Value.Value(total - amount, asset);
        RegisterSelf(b, change, index, blinding, now, v, notes, []);
        assert ChangeOutputs(notes, amount, asset) == [] + [ToSelf(change, index)];
      } else {
        assert ChangeOutputs(notes, amount, asset) == [] && b.outputs + [] == b.outputs;
      }
    }

    /** Fund every amount needed, in any order. */
    method FundAll(b: Builder, need: map<AssetId, nat>, source: Option<nat>, blinding: AssetId -> Fq, now: nat)
      returns (error: Option<WalletError>)
      requires Filed(keys, Value()) && b.Valid() && b.spends == [] && (forall o :: o in b.outputs ==> o.Payment?)
      requires b.fee == Some(b.charged)
      requires forall a :: Balance(b.Body(), a) + (if a in need then need[a] else 0) == 0
      modifies this`unspentSet, this`submittedSpendSet, this`submittedChangeSet, b
      ensures Filed(keys, Value()) && b.Valid() && b.Settings() == old(b.Settings())
      ensures SomeBooking(keys, old(Value()), Value(), blinding, now)
      ensures error == None || NoSelection(error.value) || error.value == UnknownAddress
      ensures error == None ==> WasPayable(old(Value()), assetCache, addressLabels, need, source)
      ensures Payable(old(Value()), assetCache, addressLabels, need, source) ==> error == None
      ensures error == None ==>
                && Extends(old(b.Body()), b.Body()) && Balanced(b.Body()) && FromSource(b.Body(), source)
                && Booked(keys, old(Value()), Value(), b.spends, b.outputs, blinding, now)
    {
      hide Funded, Booked, Owes, Extends, Affordable, Balance, Balanced, Filed, Cached, Labelled, ChangeOutputs;
      hide FromSource, Selection, Builder.Valid;
      ghost var v, start, settings := Value(), b.Body(), b.Settings();
      ghost var paid := false;
      var todo := need.Keys;
      OwesAll(v, start, need, source);
      BookedNone(keys, v, b.outputs, blinding, now);
      ExtendsItself(start);
      FromSourceNone(start, source);
      while todo != {}
        invariant b.Valid() && b.Settings() == settings && Filed(keys, Value())
        invariant Cached(v, assetCache) <==> Cached(Value(), assetCache)
        invariant Booked(keys, v, Value(), b.spends, b.outputs, blinding, now)
        invariant Owes(v, Value(), b.Body(), need, todo, source) && todo <= need.Keys
        invariant Extends(start, b.Body()) && FromSource(b.Body(), source)
        invariant forall a :: a in need && a !in todo && need[a] > 0 ==> paid
        invariant paid ==> Cached(v, assetCache) && (source.Some? ==> source.value < addressLabels)
        decreases todo
      {
        var a :| a in todo;
        ghost var w, body := Value(), b.Body();
        if need[a] == 0 {
          OwesSkip(v, w, body, need, todo, source, a);
          todo := todo - {a};
          continue;
        }
        ghost var notes;
        error, notes := FundAsset(b, need[a], a, source, blinding, now);
        if error != None {
          BookedAfter(keys, v, w, Value(), body.spends, body.outputs, blinding, now);
          NotPayable(v, w, body, need, todo, source, a, assetCache, addressLabels);
          return;
        }
        OwesNext(keys, v, w, Value(), body, need, todo, source, a, notes, blinding, now);
        SelectionCovers(keys, w, notes, need[a], a, source);
        ExtendsFurther(start, body, notes, need[a], a);
        FromSourceNext(keys, w, body, notes, need[a], a, source);
        BookedTwice(keys, v, w, Value(), body.spends, notes, body.outputs, ChangeOutputs(notes, need[a], a),
            blinding, now);
        BookedStaysFiled(keys, w, Value(), notes, ChangeOutputs(notes, need[a], a), blinding, now);
        paid := true;
        todo := todo - {a};
      }
      OwesNothing(v, Value(), b.Body(), need, source);
      error := None;
    }

    /** Pay every asset requested to `dest`, in any order. */
    method AddPayments(b: Builder, wanted: map<AssetId, nat>, dest: Address)
      requires b.Valid() && b.outputs == []
      modifies b
      ensures b.Valid() && b.Body() == old(b.Body()).(outputs := b.outputs) && b.Settings() == old(b.Settings())
      ensures Paid(b.outputs, wanted, dest) && PaymentsIn(b.outputs) == b.outputs
      ensures forall o :: o in b.outputs ==> o.Payment?
      ensures forall a :: Balance(b.Body(), a) + (if a in wanted then wanted[a] else 0) == Balance(old(b.Body()), a)
    {
      hide Balance, Paid, PaymentsIn;
      var todo := wanted.Keys;
      ghost var done: map<AssetId, nat> := map[];
      PaidNone(dest);
      while todo != {}
        invariant todo <= wanted.Keys && done == wanted - todo
        invariant b.Valid() && b.Body() == old(b.Body()).(outputs := b.outputs) && b.Settings() == old(b.Settings())
        invariant Paid(b.outputs, done, dest) && PaymentsIn(b.outputs) == b.outputs
        invariant forall a :: Balance(b.Body(), a) + (if a in done then wanted[a] else 0) == Balance(old(b.Body()), a)
        decreases todo
      {
        var a :| a in todo;
        var payment := Payment(Transactions.Value.Value(wanted[a], a), dest);
        PaidNext(b.outputs, done, dest, a, wanted[a]);
        PaymentsAppend(b.outputs, payment);
        BalanceWithOutput(b.Body(), payment);
        b.AddOutput(payment);
        todo := todo - {a};
        done := done[a := wanted[a]];
      }
      assert done == wanted;
      PaidArePayments(b.outputs, wanted, dest);
    }

    /** The amounts requested by asset, unless some asset is unknown. */
    method Wanted(values: seq<Value>) returns (r: Result<map<AssetId, nat>, WalletError>)
      ensures r.Ok? <==> forall x :: x in values ==> x.asset in assetCache
      ensures r.Ok? ==> r.value == Requested(values)
      ensures r.Err? ==> r.error == UnknownDenom
    {
      var wanted: map<AssetId, nat> := map[];
      for i := 0 to |values|
        invariant forall j :: 0 <= j < i ==> values[j].asset in assetCache
        invariant wanted == Requested(values[..i])
      {
        if values[i].asset !in assetCache {
          return Err(UnknownDenom);
        }
        assert values[..i + 1][..i] == values[..i];
        wanted := wanted[values[i].asset := values[i].amount];
      }
      assert values[..|values|] == values;
      return Ok(wanted);
    }

    /** The chain and the assets are known. */
    ghost predicate Prepared(values: seq<Value>)
      reads this`chainIdKnown, this`assetCache
    {
      chainIdKnown && forall x :: x in values ==> x.asset in assetCache
    }

    /**
     Pay `values` to `dest`. The transaction balances in every asset, pays what was
     requested last of each, and spends distinct ready notes. It is built whenever the
     notes suffice: finalization never finds a balance that is not zero.
     */
    method BuildSend(
      values: seq<Value>, fee: nat, dest: Address, source: Option<nat>, blinding: AssetId -> Fq, now: nat)
      returns (r: Result<TxBody, WalletError>)
      requires Filed(keys, Value())
      modifies this`unspentSet, this`submittedSpendSet, this`submittedChangeSet
      ensures Filed(keys, Value()) && SomeBooking(keys, old(Value()), Value(), blinding, now)
      ensures r.Ok? ==>
                && Balanced(r.value) && r.value == TxBody(r.value.spends, r.value.outputs, [], [], [], fee)
                && FromSource(r.value, source)
                && Paid(PaymentsIn(r.value.outputs), Requested(values), dest)
                && Booked(keys, old(Value()), Value(), r.value.spends, r.value.outputs, blinding, now)
      ensures r.Ok? ==>
                && Prepared(values)
                && WasPayable(old(Value()), assetCache, addressLabels, WithFee(Requested(values), fee), source)
      ensures && Prepared(values)
              && Payable(old(Value()), assetCache, addressLabels, WithFee(Requested(values), fee), source)
              ==> r.Ok?
      ensures r.Err? ==>
                || r.error.MissingChainId? || r.error.UnknownDenom? || r.error.UnknownAddress?
                || NoSelection(r.error)
    {
      hide Booked, Balance, Balanced, Paid, Requested, WithFee, WasPayable, Payable, Filed, PaymentsIn, SomeBooking;
      hide Builder.Valid, Extends, FromSource;
      NoBooking(keys, Value(), blinding, now);
      if !chainIdKnown {
        return Err(MissingChainId);
      }
      var b := StartBuilder(fee);
      var wanted := Wanted(values);
      if wanted.Err? {
        return Err(wanted.error);
      }
      AddPayments(b, wanted.value, dest);
      BalanceOfPayments(b.Body(), wanted.value, fee);
      ghost var start := b.Body();
      var error := FundAll(b, WithFee(wanted.value, fee), source, blinding, now);
      if error != None {
        return Err(error.value);
      }
      PaymentsExtended(start, b.Body());
      r := b.Finalize();
    }

    /** Publish a validator definition, paying the fee. */
    method BuildValidatorDefinition(
      definition: Definition, fee: nat, source: Option<nat>, blinding: AssetId -> Fq, now: nat)
      returns (r: Result<TxBody, WalletError>)
      requires Filed(keys, Value())
      modifies this`unspentSet, this`submittedSpendSet, this`submittedChangeSet
      ensures Filed(keys, Value()) && SomeBooking(keys, old(Value()), Value(), blinding, now)
      ensures r.Ok? ==>
                && Balanced(r.value) && r.value == TxBody(r.value.spends, r.value.outputs, [], [], [definition], fee)
                && FromSource(r.value, source)
                && PaymentsIn(r.value.outputs) == []
                && Booked(keys, old(Value()), Value(), r.value.spends, r.value.outputs, blinding, now)
      ensures r.Ok? ==>
                && chainIdKnown && definition.signed
                && WasPayable(old(Value()), assetCache, addressLabels, WithFee(map[], fee), source)
      ensures && chainIdKnown && definition.signed
              && Payable(old(Value()), assetCache, addressLabels, WithFee(map[], fee), source)
              ==> r.Ok?
      ensures r.Err? ==>
                || r.error.MissingChainId? || r.error.UnknownAddress? || r.error.UnsignedDefinition?
                || NoSelection(r.error)
    {
      hide Booked, Balance, Balanced, WithFee, WasPayable, Payable, Filed, PaymentsIn, SomeBooking, Builder.Valid;
      hide Extends, FromSource;
      NoBooking(keys, Value(), blinding, now);
      if !chainIdKnown {
        return Err(MissingChainId);
      }
      var b := StartBuilder(fee);
      b.AddValidatorDefinition(definition);
      ghost var start := b.Body();
      assert start.definitions == [definition];
      BalanceOfDefinition(definition, fee);
      var error := FundAll(b, WithFee(map[], fee), source, blinding, now);
      if error != None {
        return Err(error.value);
      }
      DefinitionExtended(start, b.Body());
      r := b.Finalize();
    }

    /** Select notes worth `amount` and add their spends. */
    method SpendNotes(
      b: Builder, amount: nat, asset: AssetId, source: Option<nat>, blinding: AssetId -> Fq, now: nat)
      returns (r: Result<seq<Note>, WalletError>)
      requires Filed(keys, Value()) && b.Valid() && b.spends == []
      modifies this`unspentSet, this`submittedSpendSet, b
      ensures Filed(keys, Value()) && b.Valid() && b.Settings() == old(b.Settings())
      ensures r.Ok? <==> Cached(old(Value()), assetCache) && Funded(old(Value()), amount, asset, source)
      ensures r.Err? ==> NoSelection(r.error) && Value() == old(Value())
      ensures r.Ok? ==>
                && Selection(keys, old(Value()), r.value, amount, asset, source)
                && b.Body() == old(b.Body()).(spends := r.value)
                && Booked(keys, old(Value()), Value(), r.value, [], blinding, now)
    {
      hide Funded, Amounts, Booked, Selection, Filed, Cached, CommitSet, Submit;
      ghost var v := Value();
      r := NotesToSpend(amount, asset, source, now);
      if r.Ok? {
        SelectionIsFiled(keys, v, r.value, amount, asset, source, addressLabels);
        BookedSelection(keys, v, r.value, amount, asset, source, blinding, now);
        var ok := AddSpends(b, r.value);
        assert ok;
      }
    }

    /** Spend notes worth `amount`, and send `received` and the change to the wallet's own address `index`. */
    method Exchange(
      b: Builder, amount: nat, asset: AssetId, source: Option<nat>, received: Value, index: nat,
      blinding: AssetId -> Fq, now: nat)
      returns (error: Option<WalletError>, ghost notes: seq<Note>)
      requires Filed(keys, this.Value()) && b.Valid() && b.spends == [] && b.outputs == []
      modifies this`unspentSet, this`submittedSpendSet, this`submittedChangeSet, b
      ensures Filed(keys, this.Value()) && b.Valid() && b.Settings() == old(b.Settings())
      ensures SomeBooking(keys, old(this.Value()), this.Value(), blinding, now)
      ensures error == None <==>
              Cached(old(this.Value()), assetCache) && Funded(old(this.Value()), amount, asset, source)
      ensures error == None || NoSelection(error.value)
      ensures error == None ==> Selection(keys, old(this.Value()), notes, amount, asset, source)
      ensures error == None ==>
                && b.Body() == old(b.Body()).(spends := notes,
                                              outputs := Receipts(notes, amount, asset, received, index))
                && Booked(keys, old(this.Value()), this.Value(), b.spends, b.outputs, blinding, now)
    {
      hide Funded, Amounts, Booked, Selection, Filed, Cached, Receipts, Builder.Valid;
      ghost var v := this.Value();
      notes := [];
      var chosen := SpendNotes(b, amount, asset, source, blinding, now);
      if chosen.Err? {
        NoBooking(keys, v, blinding, now);
        return Some(chosen.error), [];
      }
      notes := chosen.value;
      SelectionCovers(keys, v, notes, amount, asset, source);
      TakeReceipts(b, chosen.value, amount, asset, received, index, blinding, now, v);
      BookedStaysFiled(keys, v, this.Value(), notes, b.outputs, blinding, now);
      error := None;
    }

    /** Add the outputs for what is received and for the change; expect the change note first. */
    method TakeReceipts(
      b: Builder, notes: seq<Note>, amount: nat, asset: AssetId, received: Value, index: nat,
      blinding: AssetId -> Fq, now: nat, ghost v: Wallet)
      requires b.Valid() && b.outputs == [] && amount <= Amounts(notes)
      requires Booked(keys, v, this.Value(), notes, [], blinding, now)
      modifies this`submittedChangeSet, b
      ensures b.Valid() && b.Settings() == old(b.Settings())
      ensures b.Body() == old(b.Body()).(outputs := Receipts(notes, amount, asset, received, index))
      ensures Booked(keys, v, this.Value(), notes, b.outputs, blinding, now)
    {
      hide Booked, Amounts, Builder.Valid;
      var total := SumAmounts(notes);
      b.AddOutput(ToSelf(received, index));
      ghost var os: seq<TxOutput> := [];
      if total > amount {
        RegisterSelf(b, Transactions.Value.Value(total - amount, asset), index, blinding, now, v, notes, os);
        os := os + [ToSelf(Transactions.Value.Value(total - amount, asset), index)];
      }
      BookedChange(keys, v, this.Value(), notes, os, ToSelf(received, index), blinding, now);
      RegisterChange(Note(index, received.asset, received.amount, blinding(received.asset)), now);
      BookedSwap(keys, v, this.Value(), notes, os, ToSelf(received, index), blinding, now);
      assert b.outputs == [ToSelf(received, index)] + os;
    }

    /**
     Delegate `unbonded` staking tokens at the given rate, for delegation tokens sent
     to the wallet itself.
     */
    method BuildDelegate(
      rate: RateData, unbonded: nat, fee: nat, source: Option<nat>, blinding: AssetId -> Fq, now: nat)
      returns (r: Result<TxBody, WalletError>, ghost notes: seq<Note>)
      requires Filed(keys, Value())
      modifies this`unspentSet, this`submittedSpendSet, this`submittedChangeSet
      ensures Filed(keys, Value()) && SomeBooking(keys, old(Value()), Value(), blinding, now)
      ensures r.Ok? <==>
              && Index(source) < addressLabels && chainIdKnown && rate.DelegationAmount(unbonded).Ok?
              && Cached(old(Value()), assetCache) && Funded(old(Value()), unbonded + fee, STAKING_ASSET, source)
      ensures r.Ok? ==>
                && Balanced(r.value)
                && Selection(keys, old(Value()), notes, unbonded + fee, STAKING_ASSET, source)
                && r.value == DelegateBody(rate, unbonded, fee, Index(source), notes)
                && Booked(keys, old(Value()), Value(), r.value.spends, r.value.outputs, blinding, now)
      ensures r.Ok? ==>
                && (forall note :: note in r.value.spends ==>
                      note.asset == STAKING_ASSET && (source.Some? ==> note.addressIndex == source.value))
                && (forall o :: o in r.value.outputs ==>
                      o.ToSelf? && o.addressIndex == (if source.Some? then source.value else 0))
      ensures r.Err? ==>
                || r.error.UnknownAddress? || r.error.MissingChainId? || r.error.RateOverflow?
                || NoSelection(r.error)
    {
      hide Booked, Balance, Balanced, Filed, Funded, Cached, Selection, Receipts, Amounts, SomeBooking, Builder.Valid;
      NoBooking(keys, Value(), blinding, now);
      notes := [];
      if Index(source) >= addressLabels {
        return Err(UnknownAddress), [];
      }
      if !chainIdKnown {
        return Err(MissingChainId), [];
      }
      var received := rate.DelegationAmount(unbonded);
      if received.Err? {
        return Err(RateOverflow), [];
      }
      var b := StartBuilder(fee);
      var d := Delegate(rate.identityKey, rate.epochIndex, unbonded, received.value);
      b.AddDelegation(d);
      ghost var start := b.Body();
      var error;
      var value := Transactions.Value.Value(received.value, DelegationAsset(rate.identityKey));
      error, notes := Exchange(b, unbonded + fee, STAKING_ASSET, source, value, Index(source), blinding, now);
      if error != None {
        return Err(error.value), [];
      }
      SelectionCovers(keys, old(Value()), notes, unbonded + fee, STAKING_ASSET, source);
      SelectionComesFrom(keys, old(Value()), notes, unbonded + fee, STAKING_ASSET, source);
      ReceiptsGoTo(notes, unbonded + fee, STAKING_ASSET, value, Index(source));
      BalanceWithReceipts(start, notes, unbonded + fee, STAKING_ASSET, value, Index(source));
      DelegationBalances(b.Body(), start, d, fee);
      r := b.Finalize();
    }

    /** Undelegate; the fee is paid out of what is unbonded. */
    method BuildUndelegate(
      rate: RateData, delegated: nat, fee: nat, source: Option<nat>, blinding: AssetId -> Fq, now: nat)
      returns (r: Result<TxBody, WalletError>, ghost notes: seq<Note>)
      requires Filed(keys, Value())
      modifies this`unspentSet, this`submittedSpendSet, this`submittedChangeSet
      ensures Filed(keys, Value()) && SomeBooking(keys, old(Value()), Value(), blinding, now)
      ensures r.Ok? <==>
              && Index(source) < addressLabels && chainIdKnown
              && rate.UnbondedAmount(delegated).Ok? && fee <= rate.UnbondedAmount(delegated).value
              && Cached(old(Value()), assetCache)
              && Funded(old(Value()), delegated, DelegationAsset(rate.identityKey), source)
      ensures r.Ok? ==>
                && Balanced(r.value)
                && Selection(keys, old(Value()), notes, delegated, DelegationAsset(rate.identityKey), source)
                && r.value == UndelegateBody(rate, delegated, fee, Index(source), notes)
                && Booked(keys, old(Value()), Value(), r.value.spends, r.value.outputs, blinding, now)
      ensures r.Ok? ==>
                && (forall note :: note in r.value.spends ==>
                      && note.asset == DelegationAsset(rate.identityKey)
                      && (source.Some? ==> note.addressIndex == source.value))
                && (forall o :: o in r.value.outputs ==>
                      o.ToSelf? && o.addressIndex == (if source.Some? then source.value else 0))
      ensures r.Err? ==>
                || r.error.UnknownAddress? || r.error.MissingChainId? || r.error.RateOverflow?
                || r.error.FeesExceedAmount? || NoSelection(r.error)
    {
      hide Booked, Balance, Balanced, Filed, Funded, Cached, Selection, Receipts, Amounts, SomeBooking, Builder.Valid;
      NoBooking(keys, Value(), blinding, now);
      notes := [];
      if Index(source) >= addressLabels {
        return Err(UnknownAddress), [];
      }
      if !chainIdKnown {
        return Err(MissingChainId), [];
      }
      var unbonded := rate.UnbondedAmount(delegated);
      if unbonded.Err? {
        return Err(RateOverflow), [];
      }
      var b := StartBuilder(fee);
      var u := Undelegate(rate.identityKey, rate.epochIndex, unbonded.value, delegated);
      b.AddUndelegation(u);
      ghost var start := b.Body();
      if unbonded.value < fee {
        return Err(FeesExceedAmount), [];
      }
      var error;
      var asset, value := DelegationAsset(rate.identityKey),
          Transactions.Value.Value(unbonded.value - fee, STAKING_ASSET);
      error, notes := Exchange(b, delegated, asset, source, value, Index(source), blinding, now);
      if error != None {
        return Err(error.value), [];
      }
      SelectionCovers(keys, old(Value()), notes, delegated, asset, source);
      SelectionComesFrom(keys, old(Value()), notes, delegated, asset, source);
      ReceiptsGoTo(notes, delegated, asset, value, Index(source));
      BalanceWithReceipts(start, notes, delegated, asset, value, Index(source));
      UndelegationBalances(b.Body(), start, u, fee);
      r := b.Finalize();
    }
  }
}
