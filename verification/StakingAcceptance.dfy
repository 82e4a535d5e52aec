/** Which staking transactions a run accepts, and what the definitions among them leave behind. */
module StakingAcceptance {
  import opened Prelude
  import opened Rates
  import opened Delegations
  import opened Transactions
  import opened Epochs
  import opened StakingSpec
  import opened StakingRuns
  import opened StakingInvariant
  import opened StakingSafety

  // ---------------------------------------------------------------------------------------------
  // Prices
  // ---------------------------------------------------------------------------------------------

  /** At this rate that many staking tokens buy exactly so many delegation tokens, rounded down. */
  ghost predicate Buys(rate: nat, unbonded: nat, delegated: nat) {
    delegated * rate <= unbonded * SCALE < (delegated + 1) * rate
  }

  /** At this rate that many delegation tokens yield exactly so many staking tokens, rounded down. */
  ghost predicate Yields(rate: nat, delegated: nat, unbonded: nat) {
    unbonded * SCALE <= delegated * rate < (unbonded + 1) * SCALE
  }

  /** A quotient is the only number between the bounds. */
  lemma QuotientIff(x: nat, d: nat, q: nat)
    requires d > 0
    ensures x / d == q <==> q * d <= x < (q + 1) * d
  {
    assert x / d * d <= x < (x / d + 1) * d;
    if q * d <= x < (q + 1) * d {
      if q < x / d {
        MulMono(q + 1, x / d, d);
      } else if x / d < q {
        MulMono(x / d + 1, q, d);
      }
    }
  }

  lemma DelegationAmountIff(rate: RateData, unbonded: nat, delegated: nat)
    ensures rate.DelegationAmount(unbonded) == Ok(delegated) <==>
            delegated < U64 && Buys(rate.exchangeRate, unbonded, delegated)
  {
    if rate.exchangeRate > 0 {
      QuotientIff(unbonded * SCALE, rate.exchangeRate, delegated);
    }
  }

  lemma UnbondedAmountIff(rate: RateData, delegated: nat, unbonded: nat)
    ensures rate.UnbondedAmount(delegated) == Ok(unbonded) <==>
            unbonded < U64 && Yields(rate.exchangeRate, delegated, unbonded)
  {
    QuotientIff(delegated * rate.exchangeRate, SCALE, unbonded);
  }

  // ---------------------------------------------------------------------------------------------
  // The stateless check
  // ---------------------------------------------------------------------------------------------

  lemma {:induction false} UndelegationIsAction(actions: seq<Action>, u: Undelegate)
    ensures u in UndelegationsOf(actions) <==> Undelegation(u) in actions
  {
    if actions != [] {
      var init, last := actions[..|actions| - 1], actions[|actions| - 1];
      UndelegationIsAction(init, u);
      assert actions == init + [last];
    }
  }

  lemma {:induction false} DefinitionIsAction(actions: seq<Action>, d: Definition)
    ensures d in DefinitionsOf(actions) <==> ValidatorDefinition(d) in actions
  {
    if actions != [] {
      var init, last := actions[..|actions| - 1], actions[|actions| - 1];
      DefinitionIsAction(init, d);
      assert actions == init + [last];
    }
  }

  /**
   A transaction passes the stateless check if and only if all its undelegations are from one
   validator, an undelegation is accompanied by spends, outputs and delegations alone, and every
   definition is signed and takes at most 100%.
   */
  lemma StatelessIff(tx: Transaction)
    ensures StatelessOk(tx) <==>
            && (forall a, b :: a in tx.actions && b in tx.actions && a.Undelegation? && b.Undelegation? ==>
                  a.undelegate.validatorIdentity == b.undelegate.validatorIdentity)
            && (forall a, b :: a in tx.actions && b in tx.actions && a.Undelegation? ==>
                  !b.ValidatorDefinition? && !b.IbcAction?)
            && (forall a :: a in tx.actions && a.ValidatorDefinition? ==>
                  a.definition.signed && CommissionBps(a.definition.validator.fundingStreams) <= BPS)
  {
    hide UndelegationsOf, DefinitionsOf, CommissionBps;
    var us, defs := UndelegationsOf(tx.actions), DefinitionsOf(tx.actions);
    forall u
      ensures u in us <==> Undelegation(u) in tx.actions
    {
      UndelegationIsAction(tx.actions, u);
    }
    forall d
      ensures d in defs <==> ValidatorDefinition(d) in tx.actions
    {
      DefinitionIsAction(tx.actions, d);
    }
    SameTargets(tx.actions, us);
    Companions(tx.actions, us);
    SoundDefinitions(tx.actions, defs);
  }

  lemma SameTargets(actions: seq<Action>, us: seq<Undelegate>)
    requires forall u :: u in us <==> Undelegation(u) in actions
    ensures (forall i, j :: 0 <= i < |us| && 0 <= j < |us| ==> us[i].validatorIdentity == us[j].validatorIdentity) <==>
            (forall a, b :: a in actions && b in actions && a.Undelegation? && b.Undelegation? ==>
               a.undelegate.validatorIdentity == b.undelegate.validatorIdentity)
  {
    if forall a, b :: a in actions && b in actions && a.Undelegation? && b.Undelegation? ==>
        a.undelegate.validatorIdentity == b.undelegate.validatorIdentity {
      forall i, j | 0 <= i < |us| && 0 <= j < |us|
        ensures us[i].validatorIdentity == us[j].validatorIdentity
      {
        assert Undelegation(us[i]) in actions && Undelegation(us[j]) in actions;
      }
    }
    if forall i, j :: 0 <= i < |us| && 0 <= j < |us| ==> us[i].validatorIdentity == us[j].validatorIdentity {
      forall a, b | a in actions && b in actions && a.Undelegation? && b.Undelegation?
        ensures a.undelegate.validatorIdentity == b.undelegate.validatorIdentity
      {
        assert Undelegation(a.undelegate) == a && Undelegation(b.undelegate) == b;
        assert a.undelegate in us && b.undelegate in us;
      }
    }
  }

  lemma Companions(actions: seq<Action>, us: seq<Undelegate>)
    requires forall u :: u in us <==> Undelegation(u) in actions
    ensures (us != [] ==> forall i :: 0 <= i < |actions| ==>
               var a := actions[i]; a.Undelegation? || a.Delegation? || a.Spend? || a.Output?) <==>
            (forall a, b :: a in actions && b in actions && a.Undelegation? ==>
               !b.ValidatorDefinition? && !b.IbcAction?)
  {
    if us != [] {
      assert Undelegation(us[0]) in actions;
    } else {
      assert forall a: Action :: a.Undelegation? ==> Undelegation(a.undelegate) == a;
    }
  }

  lemma SoundDefinitions(actions: seq<Action>, defs: seq<Definition>)
    requires forall d :: d in defs <==> ValidatorDefinition(d) in actions
    ensures (forall i :: 0 <= i < |defs| ==>
               var d := defs[i]; d.signed && CommissionBps(d.validator.fundingStreams) <= BPS) <==>
            (forall a :: a in actions && a.ValidatorDefinition? ==>
               a.definition.signed && CommissionBps(a.definition.validator.fundingStreams) <= BPS)
  {
    hide CommissionBps;
    forall i | 0 <= i < |defs|
      ensures ValidatorDefinition(defs[i]) in actions
    {}
    forall a | a in actions && a.ValidatorDefinition?
      ensures a.definition in defs
    {
      assert ValidatorDefinition(a.definition) == a;
    }
  }

  // ---------------------------------------------------------------------------------------------
  // The stateful check
  // ---------------------------------------------------------------------------------------------

  /** A delegation for the next epoch, at that epoch's rate, to a validator that is not Slashed. */
  ghost predicate GoodDelegation(s: State, d: Delegate, epoch: nat) {
    && d.validatorIdentity in s.entries
    && var e := s.entries[d.validatorIdentity];
       && d.epochIndex == epoch && !e.state.Slashed? && d.delegationAmount < I64
       && Buys(e.next.exchangeRate, d.unbondedAmount, d.delegationAmount)
  }

  /** An undelegation for the next epoch, at that epoch's rate. */
  ghost predicate GoodUndelegation(s: State, u: Undelegate, epoch: nat) {
    && u.validatorIdentity in s.entries
    && var e := s.entries[u.validatorIdentity];
       && u.epochIndex == epoch && u.delegationAmount < I64 && u.unbondedAmount < U64
       && Yields(e.next.exchangeRate, u.delegationAmount, u.unbondedAmount)
  }

  ghost predicate GoodTransaction(s: State, tx: Transaction, epoch: nat) {
    var ds, us, defs := DelegationsOf(tx.actions), UndelegationsOf(tx.actions), DefinitionsOf(tx.actions);
    && (forall i :: 0 <= i < |ds| ==> GoodDelegation(s, ds[i], epoch))
    && (forall i :: 0 <= i < |us| ==> GoodUndelegation(s, us[i], epoch))
    && (forall v :: v in Named(ds, us) ==> Delegated(ds, v) < I64 && -I64 <= Delegated(ds, v) - Undelegated(us, v))
    && (forall i :: 0 <= i < |defs| ==>
          var d := defs[i].validator;
          d.identityKey in s.entries ==> s.entries[d.identityKey].definition.sequenceNumber < d.sequenceNumber)
  }

  lemma GoodDelegationIff(s: State, d: Delegate, k: nat)
    requires StateOk(s, k)
    ensures DelegationOk(s, d) <==> GoodDelegation(s, d, k + 1)
  {
    if d.validatorIdentity in s.entries {
      DelegationAmountIff(s.entries[d.validatorIdentity].next, d.unbondedAmount, d.delegationAmount);
    }
  }

  lemma GoodUndelegationIff(s: State, u: Undelegate, k: nat)
    requires StateOk(s, k)
    ensures UndelegationOk(s, u) <==> GoodUndelegation(s, u, k + 1)
  {
    if u.validatorIdentity in s.entries {
      UnbondedAmountIff(s.entries[u.validatorIdentity].next, u.delegationAmount, u.unbondedAmount);
    }
  }

  lemma GoodTransactionIff(s: State, tx: Transaction, k: nat)
    requires StateOk(s, k)
    ensures StatefulOk(s, tx) <==> GoodTransaction(s, tx, k + 1)
  {
    hide StateOk, DelegationOk, UndelegationOk, GoodDelegation, GoodUndelegation, TallyFits, Named, Delegated,
         Undelegated, DelegationsOf, UndelegationsOf, DefinitionsOf;
    var ds, us := DelegationsOf(tx.actions), UndelegationsOf(tx.actions);
    TallyFitsIff(ds, us);
    forall i | 0 <= i < |ds|
      ensures DelegationOk(s, ds[i]) <==> GoodDelegation(s, ds[i], k + 1)
    {
      GoodDelegationIff(s, ds[i], k);
    }
    forall i | 0 <= i < |us|
      ensures UndelegationOk(s, us[i]) <==> GoodUndelegation(s, us[i], k + 1)
    {
      GoodUndelegationIff(s, us[i], k);
    }
  }

  /**
   In any block of any run, after any of its transactions, the next one passes the stateful check
   if and only if its changes are for the epoch after the current one, at that epoch's rates, to
   validators that are not Slashed, with totals in range and newer definitions.
   */
  lemma AcceptedIff(g: Genesis, bs: seq<Block>, b: Block, tx: Transaction)
    requires GenesisOk(g) && Start(g).Ok? && RunBlocks(Start(g).value, bs).Ok?
    requires BeforeEnd(RunBlocks(Start(g).value, bs).value, b).Ok?
    ensures var (s, k) := (BeforeEnd(RunBlocks(Start(g).value, bs).value, b).value.state,
                           FromHeight(|bs| + 1, g.params.epochDuration).index);
            StatefulOk(s, tx) <==> GoodTransaction(s, tx, k + 1)
  {
    hide RunBlocks, Start, BeforeEnd, StateOk, UptimesAt, Later, StatefulOk, GoodTransaction;
    RunsAreSafe(g, bs);
    RunsKeepParams(g, bs);
    var ch := RunBlocks(Start(g).value, bs).value;
    BeforeEndOk(ch, b);
    GoodTransactionIff(BeforeEnd(ch, b).value.state, tx, NextEpoch(ch.component.state));
  }

  // ---------------------------------------------------------------------------------------------
  // Definitions
  // ---------------------------------------------------------------------------------------------

  ghost predicate Defines(defs: seq<Definition>, v: IdentityKey) {
    exists i :: 0 <= i < |defs| && defs[i].validator.identityKey == v
  }

  /** `d` is the last definition of the validator. */
  ghost predicate DefinesLast(defs: seq<Definition>, v: IdentityKey, d: Validator) {
    exists i :: 0 <= i < |defs| && defs[i].validator == d && d.identityKey == v
      && forall j :: i < j < |defs| ==> defs[j].validator.identityKey != v
  }

  /** Inactive, without power or tracker, and at a rate of one for this epoch and the next. */
  ghost predicate Newcomer(e: Entry, v: IdentityKey, epoch: nat) {
    && e.state.Inactive? && e.power == 0 && e.uptime.None?
    && e.cur == RateData(v, epoch, 0, SCALE) && e.next == RateData(v, epoch + 1, 0, SCALE)
  }

  /** What definitions leave of a validator: the last one naming it, and nothing else of a known one is touched. */
  ghost predicate Stored(s: State, t: State, defs: seq<Definition>, v: IdentityKey, epoch: nat) {
    && (v in t.entries <==> v in s.entries || Defines(defs, v))
    && (v in t.entries && Defines(defs, v) ==> DefinesLast(defs, v, t.entries[v].definition))
    && (v in s.entries ==> v in t.entries && t.entries[v] == s.entries[v].(definition := t.entries[v].definition))
    && (v in s.entries && !Defines(defs, v) ==> t.entries[v].definition == s.entries[v].definition)
    && (v in t.entries && v !in s.entries ==> Newcomer(t.entries[v], v, epoch))
  }

  lemma DefinesCons(defs: seq<Definition>, v: IdentityKey)
    requires defs != []
    ensures var (init, d) := (defs[..|defs| - 1], defs[|defs| - 1].validator);
            && (Defines(defs, v) <==> Defines(init, v) || d.identityKey == v)
            && (d.identityKey == v ==> DefinesLast(defs, v, d))
            && (d.identityKey != v ==> forall e :: DefinesLast(init, v, e) ==> DefinesLast(defs, v, e))
  {
    var n := |defs| - 1;
    var init, d := defs[..n], defs[n].validator;
    assert forall i :: 0 <= i < n ==> init[i] == defs[i];
    if Defines(init, v) {
      var i :| 0 <= i < n && init[i].validator.identityKey == v;
      assert defs[i].validator.identityKey == v;
    }
    if d.identityKey != v {
      forall e | DefinesLast(init, v, e)
        ensures DefinesLast(defs, v, e)
      {
        var i :| 0 <= i < n && init[i].validator == e && e.identityKey == v
          && forall j :: i < j < n ==> init[j].validator.identityKey != v;
        assert defs[i].validator == e;
      }
    }
  }

  lemma {:induction false} DefinitionsStored(s: State, defs: seq<Definition>, v: IdentityKey)
    requires s.params.epochDuration > 0
    ensures var t := DefineAll(s, defs);
            && t == s.(list := t.list, entries := t.entries)
            && Stored(s, t, defs, v, FromHeight(s.height, s.params.epochDuration).index)
  {
    if defs != [] {
      DefinitionsStored(s, defs[..|defs| - 1], v);
      DefinesCons(defs, v);
      hide Defines, DefinesLast;
    }
  }

  /** A validator that the transactions of a block bring in is a newcomer when the block ends. */
  lemma {:induction false} Newcomers(c: Component, txs: seq<Transaction>, v: IdentityKey)
    requires c.state.params.epochDuration > 0 && v !in c.state.entries
    ensures var t := DeliverAll(c, txs).state;
            && t == c.state.(list := t.list, entries := t.entries)
            && (v in t.entries ==> Newcomer(t.entries[v], v, FromHeight(t.height, t.params.epochDuration).index))
  {
    hide StatelessOk, StatefulOk, Defines, DefinesLast, DefineAll;
    if txs != [] {
      var init, tx := txs[..|txs| - 1], txs[|txs| - 1];
      Newcomers(c, init, v);
      DefinitionsStored(DeliverAll(c, init).state, DefinitionsOf(tx.actions), v);
    }
  }

  /** In every run a validator first defined in a block starts Inactive, without power, at a rate of one. */
  lemma RunNewcomers(g: Genesis, bs: seq<Block>, b: Block, v: IdentityKey)
    requires GenesisOk(g) && Start(g).Ok? && RunBlocks(Start(g).value, bs).Ok?
    requires var ch := RunBlocks(Start(g).value, bs).value;
             && BeforeEnd(ch, b).Ok? && v in BeforeEnd(ch, b).value.state.entries
             && v !in ch.component.state.entries
    ensures var t := BeforeEnd(RunBlocks(Start(g).value, bs).value, b).value.state;
            Newcomer(t.entries[v], v, FromHeight(|bs| + 1, g.params.epochDuration).index)
  {
    hide RunBlocks, Start, BeginBlock, DeliverAll, StateOk, UptimesAt, Later, Tracking, Newcomer;
    RunsAreSafe(g, bs);
    RunsKeepParams(g, bs);
    var ch := RunBlocks(Start(g).value, bs).value;
    var c := Advanced(ch);
    var k := NextEpoch(ch.component.state);
    BookkeepingKeepsOk(ch.component.state, c.state, k, ch.component.state.height);
    BeginBlockKeepsOk(c, b.evidence, b.votes, k);
    Newcomers(BeginBlock(c, b.evidence, b.votes).value, b.txs, v);
  }

  // ---------------------------------------------------------------------------------------------
  // Genesis
  // ---------------------------------------------------------------------------------------------

  lemma {:induction false} InitStores(g: Genesis, n: nat, i: nat)
    requires GenesisListOk(g) && i < n <= |g.validators|
    requires InitValidators(Component(EmptyState(g.params), NO_CHANGES, []), g.validators[..n], g.allocations).Ok?
    ensures var c := InitValidators(Component(EmptyState(g.params), NO_CHANGES, []), g.validators[..n], g.allocations);
            var v := g.validators[i].identityKey;
            v in c.value.state.entries && c.value.state.entries[v].definition == g.validators[i]
  {
    assert g.validators[..n][..n - 1] == g.validators[..n - 1];
    if i < n - 1 {
      InitStores(g, n - 1, i);
    }
  }

  /**
   Genesis: every validator is Active from the start, under the definition given, at a rate of one
   for both epochs, with the power of its allocation; the base rates are one too.
   */
  lemma GenesisAtPar(g: Genesis, i: nat)
    requires GenesisListOk(g) && Start(g).Ok? && i < |g.validators|
    ensures var (s, d) := (Start(g).value.component.state, g.validators[i]);
            && s.curBase.exchangeRate == SCALE && s.nextBase.exchangeRate == SCALE
            && d.identityKey in s.entries
            && var e := s.entries[d.identityKey];
               && e.definition == d && e.state.Active?
               && e.cur.exchangeRate == SCALE && e.next.exchangeRate == SCALE
               && e.power == Allocated(g.allocations, DelegationToken(d.identityKey))
  {
    hide InitValidators, MintAll, Allocated;
    assert g.validators[..|g.validators|] == g.validators;
    InitStores(g, |g.validators|, i);
    InitValidatorsSteps(g, |g.validators|);
    MintAllSteps(InitChain(g).value.state, g.allocations);
  }
}
