/**
 What the wallet's transaction builders produce (wallet/src/state.rs, build_*):
 the value requested, the notes booked for it, and why the result balances.
 */
module BuilderSpec {
  import opened Prelude
  import opened Rates
  import opened Delegations
  import opened Transactions
  import opened WalletSpec
  import opened NoteSelection
  import opened TxBuilder

  /** Requested amounts by asset; of several for one asset the last one counts. */
  function Requested(values: seq<Value>): map<AssetId, nat> {
    if values == [] then map[]
    else Requested(values[..|values| - 1])[values[|values| - 1].asset := values[|values| - 1].amount]
  }

  /** All that is requested of one asset. */
  function TotalOf(values: seq<Value>, a: AssetId): nat {
    if values == [] then 0 else TotalOf(values[..|values| - 1], a) + Of(values[|values| - 1], a)
  }

  lemma {:induction false} TotalIsZeroIff(values: seq<Value>, a: AssetId)
    ensures TotalOf(values, a) == 0 <==> forall i :: 0 <= i < |values| && values[i].asset == a ==> values[i].amount == 0
  {
    if values != [] {
      var init := values[..|values| - 1];
      TotalIsZeroIff(init, a);
      assert forall i :: 0 <= i < |init| ==> init[i] == values[i];
    }
  }

  /**
   The amount paid of an asset is all that was requested of it if and only if every
   request for it but the last one is zero.
   */
  lemma {:induction false} RequestedIsTotalIff(values: seq<Value>, a: AssetId)
    ensures (if a in Requested(values) then Requested(values)[a] else 0) == TotalOf(values, a) <==>
            forall i, j :: 0 <= i < j < |values| && values[i].asset == a && values[j].asset == a ==>
                values[i].amount == 0
  {
    if values != [] {
      var n := |values| - 1;
      var init := values[..n];
      RequestedIsTotalIff(init, a);
      TotalIsZeroIff(init, a);
      assert forall i :: 0 <= i < n ==> init[i] == values[i];
    }
  }

  /** Two payments of one token in one call: only the second is made. */
  lemma RequestedTwice(a: AssetId)
    ensures var values := [Value(1, a), Value(1, a)]; Requested(values) == map[a := 1] && TotalOf(values, a) == 2
  {
    var x := Value(1, a);
    assert [x, x][..1] == [x] && [x][..0] == [];
    assert Requested([x]) == map[a := 1] && TotalOf([x], a) == 1;
  }

  /** The value to spend: what is requested, plus the fee. */
  function WithFee(wanted: map<AssetId, nat>, fee: nat): map<AssetId, nat> {
    if fee == 0 then wanted
    else wanted[STAKING_ASSET := (if STAKING_ASSET in wanted then wanted[STAKING_ASSET] else 0) + fee]
  }

  /** The ready notes cover every amount needed. */
  ghost predicate Affordable(w: Wallet, need: map<AssetId, nat>, source: Option<nat>) {
    forall a :: a in need && need[a] > 0 ==> Funded(w, need[a], a, source)
  }

  /** Every ready note of the asset came to an address that has a label. */
  ghost predicate Labelled(w: Wallet, a: AssetId, source: Option<nat>, labels: nat) {
    forall c :: c in Candidates(w, a, source) ==> w.unspent[c].addressIndex < labels
  }

  /** The amounts needed can be paid whichever notes are drawn. */
  ghost predicate Payable(
    w: Wallet, cache: set<AssetId>, labels: nat, need: map<AssetId, nat>, source: Option<nat>)
  {
    && Affordable(w, need, source)
    && forall a :: a in need && need[a] > 0 ==> Cached(w, cache) && Labelled(w, a, source, labels)
  }

  /** What having paid them shows: a given source address must have been labelled. */
  ghost predicate WasPayable(
    w: Wallet, cache: set<AssetId>, labels: nat, need: map<AssetId, nat>, source: Option<nat>)
  {
    && Affordable(w, need, source)
    && forall a :: a in need && need[a] > 0 ==> Cached(w, cache) && (source.Some? ==> source.value < labels)
  }

  /** For a given source address the two are the same. */
  lemma PayableFromSource(w: Wallet, cache: set<AssetId>, labels: nat, need: map<AssetId, nat>, i: nat)
    ensures WasPayable(w, cache, labels, need, Some(i)) ==> Payable(w, cache, labels, need, Some(i))
  {}

  /** The note behind an output to the wallet itself. */
  function SelfNote(o: TxOutput, blinding: AssetId -> Fq): Note
    requires o.ToSelf?
  {
    Note(o.addressIndex, o.value.asset, o.value.amount, blinding(o.value.asset))
  }

  function SelfCommits(k: Keys, outputs: seq<TxOutput>, blinding: AssetId -> Fq): set<Fq> {
    set o | o in outputs && o.ToSelf? :: k.commit(SelfNote(o, blinding))
  }

  /** Change goes to the address of the last note spent. */
  function ChangeOutputs(notes: seq<Note>, amount: nat, asset: AssetId): seq<TxOutput>
    requires notes != [] && amount <= Amounts(notes)
  {
    if Amounts(notes) > amount
    then [ToSelf(Value(Amounts(notes) - amount, asset), notes[|notes| - 1].addressIndex)]
    else []
  }

  /** The wallet's own address to use: that of the source, or the first one. */
  function Index(source: Option<nat>): nat {
    if source.Some? then source.value else 0
  }

  /** What a delegation or undelegation sends back to the wallet: the tokens received, then any change. */
  function Receipts(notes: seq<Note>, amount: nat, asset: AssetId, received: Value, index: nat): seq<TxOutput>
    requires amount <= Amounts(notes)
  {
    [ToSelf(received, index)]
    + (if Amounts(notes) > amount then [ToSelf(Value(Amounts(notes) - amount, asset), index)] else [])
  }

  lemma ReceiptsGoTo(notes: seq<Note>, amount: nat, asset: AssetId, received: Value, index: nat)
    requires amount <= Amounts(notes)
    ensures forall o :: o in Receipts(notes, amount, asset, received, index) ==> o.ToSelf? && o.addressIndex == index
  {}

  lemma SelectionComesFrom(
    k: Keys, w: Wallet, notes: seq<Note>, amount: nat, asset: AssetId, source: Option<nat>)
    requires Selection(k, w, notes, amount, asset, source)
    ensures forall note :: note in notes ==>
              note.asset == asset && (source.Some? ==> note.addressIndex == source.value)
  {}

  /** The delegation transaction that spends `notes`. */
  ghost function DelegateBody(rate: RateData, unbonded: nat, fee: nat, index: nat, notes: seq<Note>): TxBody
    requires rate.DelegationAmount(unbonded).Ok? && unbonded + fee <= Amounts(notes)
  {
    var received := rate.DelegationAmount(unbonded).value;
    TxBody(
      notes,
      Receipts(notes, unbonded + fee, STAKING_ASSET, Value(received, DelegationAsset(rate.identityKey)), index),
      [Delegate(rate.identityKey, rate.epochIndex, unbonded, received)], [], [], fee)
  }

  /** The undelegation transaction that spends `notes`. */
  ghost function UndelegateBody(rate: RateData, delegated: nat, fee: nat, index: nat, notes: seq<Note>): TxBody
    requires rate.UnbondedAmount(delegated).Ok? && fee <= rate.UnbondedAmount(delegated).value
             && delegated <= Amounts(notes)
  {
    var unbonded := rate.UnbondedAmount(delegated).value;
    TxBody(
      notes,
      Receipts(notes, delegated, DelegationAsset(rate.identityKey), Value(unbonded - fee, STAKING_ASSET), index),
      [], [Undelegate(rate.identityKey, rate.epochIndex, unbonded, delegated)], [], fee)
  }

  function PaymentsIn(outputs: seq<TxOutput>): seq<TxOutput> {
    if outputs == [] then []
    else
      var last := outputs[|outputs| - 1];
      PaymentsIn(outputs[..|outputs| - 1]) + (if last.Payment? then [last] else [])
  }

  /** One payment per asset requested, of the amount requested, to `dest`. */
  ghost predicate Paid(payments: seq<TxOutput>, wanted: map<AssetId, nat>, dest: Address) {
    && Distinct(payments)
    && forall o :: o in payments <==>
         && o.Payment? && o.dest == dest
         && o.value.asset in wanted && o.value.amount == wanted[o.value.asset]
  }

  /**
   What building a transaction does to the wallet: the notes it spends were ready,
   are all different, and are now submitted; the notes it sends back to the wallet
   are expected as change; nothing else is touched.
   */
  ghost predicate Booked(
    k: Keys, v: Wallet, w: Wallet, spends: seq<Note>, outputs: seq<TxOutput>, blinding: AssetId -> Fq, now: nat) {
    && DistinctNotes(k, spends)
    && (forall note :: note in spends ==> k.commit(note) in v.unspent && v.unspent[k.commit(note)] == note)
    && CommitSet(k, spends) <= v.unspent.Keys
    && w == Submit(v, CommitSet(k, spends), now).(submittedChange := w.submittedChange)
    && w.submittedChange.Keys == v.submittedChange.Keys + SelfCommits(k, outputs, blinding)
    && Expected(k, v.submittedChange, w.submittedChange, SelfCommits(k, outputs, blinding), now)
  }

  /** Change `cs` was filed at time `now`, each note under its commitment, and no other entry moved. */
  ghost predicate Expected(k: Keys, m: map<Fq, Submitted>, n: map<Fq, Submitted>, cs: set<Fq>, now: nat) {
    forall c :: c in n ==>
      if c in cs then n[c].timeout == now + TIMEOUT && k.commit(n[c].note) == c else c in m && n[c] == m[c]
  }

  /** The wallet `w` came from `v` by booking some notes and some change. */
  ghost predicate SomeBooking(k: Keys, v: Wallet, w: Wallet, blinding: AssetId -> Fq, now: nat) {
    exists spends, outputs :: Booked(k, v, w, spends, outputs, blinding, now)
  }

  lemma NoBooking(k: Keys, v: Wallet, blinding: AssetId -> Fq, now: nat)
    ensures SomeBooking(k, v, v, blinding, now)
  {
    BookedNone(k, v, [], blinding, now);
  }

  // ---------------------------------------------------------------------------------------------
  // Balance
  // ---------------------------------------------------------------------------------------------

  lemma {:induction false} SpendTotalOfAsset(notes: seq<Note>, asset: AssetId, a: AssetId)
    requires forall note :: note in notes ==> note.asset == asset
    ensures SpendTotal(notes, a) == if a == asset then Amounts(notes) else 0
  {
    if notes != [] {
      SpendTotalOfAsset(notes[..|notes| - 1], asset, a);
    }
  }

  /** Spending notes of one asset raises the balance of that asset alone. */
  lemma BalanceWithSpends(b: TxBody, notes: seq<Note>, asset: AssetId)
    requires forall note :: note in notes ==> note.asset == asset
    ensures forall a ::
              Balance(b.(spends := b.spends + notes), a) == Balance(b, a) + (if a == asset then Amounts(notes) else 0)
  {
    forall a
      ensures Balance(b.(spends := b.spends + notes), a) == Balance(b, a) + (if a == asset then Amounts(notes) else 0)
    {
      SpendTotalAppend(b.spends, notes, a);
      SpendTotalOfAsset(notes, asset, a);
    }
  }

  /** Notes and their change together contribute exactly the amount asked for. */
  lemma BalanceWithFunding(b: TxBody, notes: seq<Note>, amount: nat, asset: AssetId)
    requires notes != [] && amount <= Amounts(notes) && forall note :: note in notes ==> note.asset == asset
    ensures forall a :: Balance(b.(spends := b.spends + notes,
            outputs := b.outputs + ChangeOutputs(notes, amount, asset)), a)
                        == Balance(b, a) + (if a == asset then amount else 0)
  {
    hide Balance, Amounts;
    BalanceWithSpends(b, notes, asset);
    var c := b.(spends := b.spends + notes);
    if Amounts(notes) > amount {
      BalanceWithOutput(c, ToSelf(Value(Amounts(notes) - amount, asset), notes[|notes| - 1].addressIndex));
    } else {
      assert b.outputs + ChangeOutputs(notes, amount, asset) == b.outputs;
    }
  }

  /** Spending notes for `received` and change costs the amount and pays out `received`. */
  lemma BalanceWithReceipts(b: TxBody, notes: seq<Note>, amount: nat, asset: AssetId, received: Value, index: nat)
    requires b.spends == [] && b.outputs == [] && amount <= Amounts(notes)
             && forall note :: note in notes ==> note.asset == asset
    ensures forall a :: Balance(b.(spends := notes, outputs := Receipts(notes, amount, asset, received, index)), a)
                        == Balance(b, a) + (if a == asset then amount else 0) - Of(received, a)
  {
    hide Balance, Amounts;
    BalanceWithSpends(b, notes, asset);
    assert b.spends + notes == notes;
    var c := b.(spends := notes);
    BalanceWithOutput(c, ToSelf(received, index));
    var d := c.(outputs := [] + [ToSelf(received, index)]);
    assert d.outputs == [ToSelf(received, index)];
    if Amounts(notes) > amount {
      var change := ToSelf(Value(Amounts(notes) - amount, asset), index);
      BalanceWithOutput(d, change);
      assert d.outputs + [change] == Receipts(notes, amount, asset, received, index);
    } else {
      assert d.outputs == Receipts(notes, amount, asset, received, index);
    }
  }

  /** Selected notes have paths in the tree, and labelled addresses if all ready notes do. */
  lemma SelectionIsFiled(
    k: Keys, w: Wallet, notes: seq<Note>, amount: nat, asset: AssetId, source: Option<nat>, labels: nat)
    requires Filed(k, w) && Selection(k, w, notes, amount, asset, source)
    ensures amount <= Amounts(notes) && (amount > 0 ==> notes != [])
    ensures forall note :: note in notes ==> k.commit(note) in w.witnessed && k.commit(note) in w.unspent
    ensures forall note :: note in notes ==>
              && (Labelled(w, asset, source, labels) ==> note.addressIndex < labels)
              && (source.Some? ==> note.addressIndex == source.value)
  {
    forall note | note in notes
      ensures k.commit(note) in Candidates(w, asset, source)
    {}
  }

  lemma SelectionIsCached(
    k: Keys, w: Wallet, notes: seq<Note>, amount: nat, asset: AssetId, source: Option<nat>, cache: set<AssetId>)
    requires Cached(w, cache) && Selection(k, w, notes, amount, asset, source) && notes != []
    ensures asset in cache
  {
    assert notes[0] in notes;
  }

  lemma SelectionCovers(k: Keys, w: Wallet, notes: seq<Note>, amount: nat, asset: AssetId, source: Option<nat>)
    requires Selection(k, w, notes, amount, asset, source)
    ensures amount <= Amounts(notes) && forall note :: note in notes ==> note.asset == asset
  {}

  lemma DelegationBalances(body: TxBody, start: TxBody, d: Delegate, fee: nat)
    requires start == EMPTY_BODY.(fee := fee, delegations := [d])
    requires forall a ::
               Balance(body, a) == Balance(start, a) + (if a == STAKING_ASSET then d.unbondedAmount + fee else 0)
                                   - Of(Value(d.delegationAmount, DelegationAsset(d.validatorIdentity)), a)
    ensures Balanced(body)
  {
    forall a
      ensures Balance(start, a) == Of(Value(d.delegationAmount, DelegationAsset(d.validatorIdentity)), a)
                                   - Of(Value(d.unbondedAmount, STAKING_ASSET), a) - Of(Value(fee, STAKING_ASSET), a)
    {
      assert [d][..|[d]| - 1] == [] && DelegationBalance([], a) == 0;
    }
    hide Balance;
  }

  lemma UndelegationBalances(body: TxBody, start: TxBody, u: Undelegate, fee: nat)
    requires start == EMPTY_BODY.(fee := fee, undelegations := [u]) && fee <= u.unbondedAmount
    requires forall a ::
               var asset := DelegationAsset(u.validatorIdentity);
               Balance(body, a) == Balance(start, a) + (if a == asset then u.delegationAmount else 0)
                                   - Of(Value(u.unbondedAmount - fee, STAKING_ASSET), a)
    ensures Balanced(body)
  {
    forall a
      ensures Balance(start, a) == Of(Value(u.unbondedAmount, STAKING_ASSET), a)
                                   - Of(Value(u.delegationAmount, DelegationAsset(u.validatorIdentity)), a)
                                   - Of(Value(fee, STAKING_ASSET), a)
    {
      assert [u][..|[u]| - 1] == [] && UndelegationBalance([], a) == 0;
    }
    hide Balance;
  }

  /** Before anything is spent a definition owes the fee. */
  lemma BalanceOfDefinition(d: Definition, fee: nat)
    ensures var need := WithFee(map[], fee);
            forall a :: Balance(EMPTY_BODY.(fee := fee, definitions := [d]), a)
                + (if a in need then need[a] else 0) == 0
  {}

  /** Before anything is spent the body owes the payments and the fee. */
  lemma BalanceOfPayments(body: TxBody, wanted: map<AssetId, nat>, fee: nat)
    requires body == EMPTY_BODY.(fee := fee, outputs := body.outputs)
    requires forall a ::
               Balance(body, a) + (if a in wanted then wanted[a] else 0) == Balance(EMPTY_BODY.(fee := fee), a)
    ensures forall a :: Balance(body, a) + (if a in WithFee(wanted, fee) then WithFee(wanted, fee)[a] else 0) == 0
  {
    assert forall a :: Balance(EMPTY_BODY.(fee := fee), a) == 0 - (if a == STAKING_ASSET then fee else 0);
    hide Balance;
  }

  // ---------------------------------------------------------------------------------------------
  // Payments
  // ---------------------------------------------------------------------------------------------

  lemma PaidNone(dest: Address)
    ensures Paid([], map[], dest) && PaymentsIn([]) == []
  {}

  /** What funding leaves of a definition transaction. */
  lemma DefinitionExtended(start: TxBody, body: TxBody)
    requires start == EMPTY_BODY.(fee := start.fee, definitions := start.definitions) && Extends(start, body)
    ensures body == TxBody(body.spends, body.outputs, [], [], start.definitions, start.fee)
            && PaymentsIn(body.outputs) == []
  {}

  /** What funding leaves of a payment transaction. */
  lemma PaymentsExtended(start: TxBody, body: TxBody)
    requires start == EMPTY_BODY.(fee := start.fee, outputs := start.outputs) && Extends(start, body)
    ensures body == TxBody(body.spends, body.outputs, [], [], [], start.fee)
    ensures PaymentsIn(body.outputs) == PaymentsIn(start.outputs)
  {}

  lemma PaidArePayments(payments: seq<TxOutput>, wanted: map<AssetId, nat>, dest: Address)
    requires Paid(payments, wanted, dest)
    ensures forall o :: o in payments ==> o.Payment?
  {}

  lemma PaidNext(payments: seq<TxOutput>, wanted: map<AssetId, nat>, dest: Address, a: AssetId, amount: nat)
    requires Paid(payments, wanted, dest) && a !in wanted
    ensures Paid(payments + [Payment(Value(amount, a), dest)], wanted[a := amount], dest)
  {
    var more := payments + [Payment(Value(amount, a), dest)];
    assert Payment(Value(amount, a), dest) !in payments;
    assert Distinct(more);
  }

  lemma PaymentsAppend(outputs: seq<TxOutput>, o: TxOutput)
    ensures PaymentsIn(outputs + [o]) == PaymentsIn(outputs) + (if o.Payment? then [o] else [])
  {
    assert (outputs + [o])[..|outputs|] == outputs;
  }

  lemma PaymentsWithChange(outputs: seq<TxOutput>, notes: seq<Note>, amount: nat, asset: AssetId)
    requires notes != [] && amount <= Amounts(notes)
    ensures PaymentsIn(outputs + ChangeOutputs(notes, amount, asset)) == PaymentsIn(outputs)
  {
    if Amounts(notes) > amount {
      PaymentsAppend(outputs, ToSelf(Value(Amounts(notes) - amount, asset), notes[|notes| - 1].addressIndex));
    } else {
      assert outputs + ChangeOutputs(notes, amount, asset) == outputs;
    }
  }

  // ---------------------------------------------------------------------------------------------
  // Booking
  // ---------------------------------------------------------------------------------------------

  lemma BookedNone(k: Keys, v: Wallet, outputs: seq<TxOutput>, blinding: AssetId -> Fq, now: nat)
    requires forall o :: o in outputs ==> o.Payment?
    ensures Booked(k, v, v, [], outputs, blinding, now)
  {
    SubmitNone(v, now);
    assert SelfCommits(k, outputs, blinding) == {};
    assert CommitSet(k, []) == {};
  }

  lemma CommitSetAppend(k: Keys, xs: seq<Note>, ys: seq<Note>)
    ensures CommitSet(k, xs + ys) == CommitSet(k, xs) + CommitSet(k, ys)
  {}

  lemma SelfCommitsAppend(k: Keys, xs: seq<TxOutput>, ys: seq<TxOutput>, blinding: AssetId -> Fq)
    ensures SelfCommits(k, xs + ys, blinding) == SelfCommits(k, xs, blinding) + SelfCommits(k, ys, blinding)
  {}

  lemma DistinctAppend(k: Keys, xs: seq<Note>, ys: seq<Note>)
    requires DistinctNotes(k, xs) && DistinctNotes(k, ys) && CommitSet(k, xs) !! CommitSet(k, ys)
    ensures DistinctNotes(k, xs + ys)
  {
    forall i, j | 0 <= i < |xs| && 0 <= j < |ys|
      ensures k.commit(xs[i]) != k.commit(ys[j])
    {
      assert k.commit(xs[i]) in CommitSet(k, xs) && k.commit(ys[j]) in CommitSet(k, ys);
    }
  }

  /** Two bookings in a row are one. */
  lemma BookedTwice(
    k: Keys, v: Wallet, w: Wallet, u: Wallet, xs: seq<Note>, ys: seq<Note>, os: seq<TxOutput>, ps: seq<TxOutput>,
    blinding: AssetId -> Fq, now: nat)
    requires Booked(k, v, w, xs, os, blinding, now) && Booked(k, w, u, ys, ps, blinding, now)
    ensures Booked(k, v, u, xs + ys, os + ps, blinding, now)
  {
    hide CommitSet, SelfCommits, DistinctNotes;
    CommitSetAppend(k, xs, ys);
    SelfCommitsAppend(k, os, ps, blinding);
    DistinctAppend(k, xs, ys);
    var cs, ds := CommitSet(k, xs), CommitSet(k, ys);
    SubmitTwice(v, cs, ds, now);
    hide Stamped;
    assert w.unspent == v.unspent - cs;
    assert u.unspent == v.unspent - (cs + ds);
  }

  // ---------------------------------------------------------------------------------------------
  // Funding one asset leaves the others as they were
  // ---------------------------------------------------------------------------------------------

  /** Both wallets have the same ready notes of asset `a`. */
  ghost predicate SameFor(v: Wallet, w: Wallet, a: AssetId, source: Option<nat>) {
    && Candidates(v, a, source) == Candidates(w, a, source)
    && forall c :: c in Candidates(v, a, source) ==> v.unspent[c] == w.unspent[c]
  }

  lemma {:induction false} WorthAgrees(v: Wallet, w: Wallet, cs: set<Fq>)
    requires forall c :: c in cs ==> c in v.unspent && c in w.unspent && v.unspent[c] == w.unspent[c]
    ensures Worth(v, cs) == Worth(w, cs)
  {
    if cs != {} {
      var c :| c in cs;
      WorthRemove(v, cs, c);
      WorthRemove(w, cs, c);
      WorthAgrees(v, w, cs - {c});
    }
  }

  lemma FundedSame(v: Wallet, w: Wallet, amount: nat, a: AssetId, source: Option<nat>)
    requires SameFor(v, w, a, source) && amount > 0
    ensures Funded(v, amount, a, source) <==> Funded(w, amount, a, source)
  {
    FundedPositive(v, amount, a, source);
    FundedPositive(w, amount, a, source);
    WorthAgrees(v, w, Candidates(v, a, source));
  }

  /** Notes worth a positive amount are known. */
  lemma FundedPositive(w: Wallet, amount: nat, a: AssetId, source: Option<nat>)
    requires amount > 0
    ensures Funded(w, amount, a, source) <==> amount <= Worth(w, Candidates(w, a, source))
  {
    if Candidates(w, a, source) == {} {
      WorthNone(w);
    } else {
      var c :| c in Candidates(w, a, source);
      assert c in w.unspent && Eligible(w.unspent[c], a, source);
    }
  }

  lemma BookedOthers(
    k: Keys, v: Wallet, w: Wallet, notes: seq<Note>, os: seq<TxOutput>, blinding: AssetId -> Fq, now: nat,
    asset: AssetId, a: AssetId, source: Option<nat>)
    requires Booked(k, v, w, notes, os, blinding, now) && a != asset
             && forall note :: note in notes ==> note.asset == asset
    ensures SameFor(v, w, a, source)
  {
    var cs := CommitSet(k, notes);
    assert w.unspent == v.unspent - cs;
    forall c | c in Candidates(v, a, source)
      ensures c !in cs
    {
      assert forall note :: note in notes && k.commit(note) == c ==> v.unspent[c] == note;
    }
  }

  /** A note sent back to the wallet and registered as change. */
  lemma BookedChange(
    k: Keys, v: Wallet, w: Wallet, notes: seq<Note>, os: seq<TxOutput>, o: TxOutput, blinding: AssetId -> Fq, now: nat)
    requires Booked(k, v, w, notes, os, blinding, now) && o.ToSelf?
    ensures Booked(k, v, RegisterChange(k, w, SelfNote(o, blinding), now), notes, os + [o], blinding, now)
  {
    SelfCommitsAppend(k, os, [o], blinding);
    hide SelfCommits;
    assert SelfCommits(k, [o], blinding) == {k.commit(SelfNote(o, blinding))} by { SelfCommitsOne(k, o, blinding); }
    hide Submit;
    var u := RegisterChange(k, w, SelfNote(o, blinding), now);
    assert u.submittedChange.Keys == w.submittedChange.Keys + {k.commit(SelfNote(o, blinding))};
  }

  /** The order in which change is registered does not matter. */
  lemma BookedSwap(
    k: Keys, v: Wallet, w: Wallet, notes: seq<Note>, os: seq<TxOutput>, o: TxOutput, blinding: AssetId -> Fq, now: nat)
    requires Booked(k, v, w, notes, os + [o], blinding, now)
    ensures Booked(k, v, w, notes, [o] + os, blinding, now)
  {
    SelfCommitsAppend(k, os, [o], blinding);
    SelfCommitsAppend(k, [o], os, blinding);
    hide SelfCommits;
    assert SelfCommits(k, os + [o], blinding) == SelfCommits(k, [o] + os, blinding);
  }

  lemma SelfCommitsOne(k: Keys, o: TxOutput, blinding: AssetId -> Fq)
    requires o.ToSelf?
    ensures SelfCommits(k, [o], blinding) == {k.commit(SelfNote(o, blinding))}
  {}

  /** Selected and registered notes are booked. */
  lemma BookedSelection(
    k: Keys, v: Wallet, notes: seq<Note>, amount: nat, asset: AssetId, source: Option<nat>,
    blinding: AssetId -> Fq, now: nat)
    requires Selection(k, v, notes, amount, asset, source) && CommitSet(k, notes) <= v.unspent.Keys
    ensures Booked(k, v, Submit(v, CommitSet(k, notes), now), notes, [], blinding, now)
  {
    assert SelfCommits(k, [], blinding) == {};
  }

  /** Booking keeps the ready notes filed. */
  lemma BookedStaysFiled(
    k: Keys, v: Wallet, w: Wallet, notes: seq<Note>, os: seq<TxOutput>, blinding: AssetId -> Fq, now: nat)
    requires Booked(k, v, w, notes, os, blinding, now) && Filed(k, v)
    ensures Filed(k, w)
  {
    assert w.unspent == v.unspent - CommitSet(k, notes);
  }

  // ---------------------------------------------------------------------------------------------
  // Funding several assets in turn
  // ---------------------------------------------------------------------------------------------

  /** `body` grew out of `start` by spends and change alone. */
  ghost predicate Extends(start: TxBody, body: TxBody) {
    && body == start.(spends := body.spends, outputs := body.outputs)
    && PaymentsIn(body.outputs) == PaymentsIn(start.outputs)
  }

  /** With a source address given, all notes spent come from it and all change returns to it. */
  ghost predicate FromSource(body: TxBody, source: Option<nat>) {
    source.Some? ==>
      && (forall note :: note in body.spends ==> note.addressIndex == source.value)
      && (forall o :: o in body.outputs && o.ToSelf? ==> o.addressIndex == source.value)
  }

  lemma FromSourceNone(body: TxBody, source: Option<nat>)
    requires body.spends == [] && forall o :: o in body.outputs ==> o.Payment?
    ensures FromSource(body, source)
  {}

  lemma FromSourceNext(
    k: Keys, w: Wallet, body: TxBody, notes: seq<Note>, amount: nat, asset: AssetId, source: Option<nat>)
    requires FromSource(body, source) && Selection(k, w, notes, amount, asset, source) && notes != []
    ensures FromSource(body.(spends := body.spends + notes,
                             outputs := body.outputs + ChangeOutputs(notes, amount, asset)), source)
  {
    SelectionComesFrom(k, w, notes, amount, asset, source);
    hide Selection, Amounts;
    assert notes[|notes| - 1] in notes;
  }

  lemma ExtendsItself(body: TxBody)
    ensures Extends(body, body)
  {}

  lemma ExtendsFurther(start: TxBody, body: TxBody, notes: seq<Note>, amount: nat, asset: AssetId)
    requires Extends(start, body) && notes != [] && amount <= Amounts(notes)
    ensures Extends(start, body.(spends := body.spends + notes,
            outputs := body.outputs + ChangeOutputs(notes, amount, asset)))
  {
    PaymentsWithChange(body.outputs, notes, amount, asset);
  }

  /** The assets still to be funded are those the body owes, and their notes are untouched. */
  ghost predicate Owes(
    v: Wallet, w: Wallet, body: TxBody, need: map<AssetId, nat>, todo: set<AssetId>, source: Option<nat>) {
    && todo <= need.Keys
    && (forall a :: Balance(body, a) + (if a in todo then need[a] else 0) == 0)
    && (forall a :: a in todo ==> SameFor(v, w, a, source))
    && (forall a :: a in need && a !in todo && need[a] > 0 ==> Funded(v, need[a], a, source))
  }

  lemma OwesAll(v: Wallet, body: TxBody, need: map<AssetId, nat>, source: Option<nat>)
    requires forall a :: Balance(body, a) + (if a in need then need[a] else 0) == 0
    ensures Owes(v, v, body, need, need.Keys, source)
  {}

  lemma OwesSkip(
    v: Wallet, w: Wallet, body: TxBody, need: map<AssetId, nat>, todo: set<AssetId>, source: Option<nat>, a: AssetId)
    requires Owes(v, w, body, need, todo, source) && a in todo && need[a] == 0
    ensures Owes(v, w, body, need, todo - {a}, source)
  {
    hide SameFor, Balance, Funded;
  }

  /** Funding asset `a` settles it and leaves what is owed of the others. */
  lemma OwesNext(
    k: Keys, v: Wallet, w: Wallet, u: Wallet, body: TxBody, need: map<AssetId, nat>, todo: set<AssetId>,
    source: Option<nat>, a: AssetId, notes: seq<Note>, blinding: AssetId -> Fq, now: nat)
    requires Owes(v, w, body, need, todo, source) && a in todo && need[a] > 0 && Funded(w, need[a], a, source)
    requires notes != [] && Selection(k, w, notes, need[a], a, source)
    requires Booked(k, w, u, notes, ChangeOutputs(notes, need[a], a), blinding, now)
    ensures Owes(v, u, body.(spends := body.spends + notes, outputs := body.outputs + ChangeOutputs(notes, need[a], a)),
            need, todo - {a}, source)
  {
    hide SameFor, Balance, Funded, Booked, ChangeOutputs;
    FundedSame(v, w, need[a], a, source);
    BalanceWithFunding(body, notes, need[a], a);
    forall x | x in todo - {a}
      ensures SameFor(v, u, x, source)
    {
      BookedOthers(k, w, u, notes, ChangeOutputs(notes, need[a], a), blinding, now, a, x, source);
      SameTransitive(v, w, u, x, source);
    }
  }

  lemma LabelledSame(v: Wallet, w: Wallet, a: AssetId, source: Option<nat>, labels: nat)
    requires SameFor(v, w, a, source)
    ensures Labelled(v, a, source, labels) <==> Labelled(w, a, source, labels)
  {}

  lemma SameTransitive(v: Wallet, w: Wallet, u: Wallet, a: AssetId, source: Option<nat>)
    requires SameFor(v, w, a, source) && SameFor(w, u, a, source)
    ensures SameFor(v, u, a, source)
  {}

  lemma OwesNothing(v: Wallet, w: Wallet, body: TxBody, need: map<AssetId, nat>, source: Option<nat>)
    requires Owes(v, w, body, need, {}, source)
    ensures Balanced(body) && Affordable(v, need, source)
  {}

  lemma OwedIsSame(
    v: Wallet, w: Wallet, body: TxBody, need: map<AssetId, nat>, todo: set<AssetId>, source: Option<nat>, a: AssetId)
    requires Owes(v, w, body, need, todo, source) && a in todo
    ensures SameFor(v, w, a, source)
  {}

  /** What was booked before a failure, with what was booked in failing. */
  lemma BookedAfter(
    k: Keys, v: Wallet, w: Wallet, u: Wallet, xs: seq<Note>, os: seq<TxOutput>, blinding: AssetId -> Fq, now: nat)
    requires Booked(k, v, w, xs, os, blinding, now) && SomeBooking(k, w, u, blinding, now)
    ensures SomeBooking(k, v, u, blinding, now)
  {
    var ys, ps :| Booked(k, w, u, ys, ps, blinding, now);
    BookedTwice(k, v, w, u, xs, ys, os, ps, blinding, now);
  }

  /** An asset that could not be funded, whichever notes were drawn, makes the whole not payable. */
  lemma NotPayable(
    v: Wallet, w: Wallet, body: TxBody, need: map<AssetId, nat>, todo: set<AssetId>, source: Option<nat>, a: AssetId,
    cache: set<AssetId>, labels: nat)
    requires Owes(v, w, body, need, todo, source) && a in todo && need[a] > 0
    requires Cached(v, cache) <==> Cached(w, cache)
    requires !(Cached(w, cache) && Funded(w, need[a], a, source) && Labelled(w, a, source, labels))
    ensures !Payable(v, cache, labels, need, source)
  {
    hide SameFor, Balance, Funded, Cached, Labelled;
    OwedIsSame(v, w, body, need, todo, source, a);
    LabelledSame(v, w, a, source, labels);
    if !Funded(w, need[a], a, source) {
      Unaffordable(v, w, body, need, todo, source, a);
    }
  }

  /** An asset that could not be funded could not have been funded at the start either. */
  lemma Unaffordable(
    v: Wallet, w: Wallet, body: TxBody, need: map<AssetId, nat>, todo: set<AssetId>, source: Option<nat>, a: AssetId)
    requires Owes(v, w, body, need, todo, source) && a in todo && need[a] > 0 && !Funded(w, need[a], a, source)
    ensures !Affordable(v, need, source)
  {
    hide SameFor, Balance, Funded;
    FundedSame(v, w, need[a], a, source);
  }
}
