/**
 Runs that show where the staking component departs from what its description
 promises: each is a run from genesis of a chain with one validator, at constant rates.
 */
module StakingExamples {
  import opened Prelude
  import opened Rates
  import opened Delegations
  import opened Transactions
  import opened Uptimes
  import opened Epochs
  import opened ActiveSet
  import opened StakingSpec
  import opened StakingRuns
  import opened EpochTransitions
  import opened StakingSafety
  import opened StakingConservation
  import opened ValueBalance

  /**
   One Active slot, no rewards, one epoch of unbonding, misbehaviour that costs all, a window
   never missed too often.
   */
  function Params(duration: nat): ChainParams {
    ChainParams(duration, 1, 1, 0, BPS, 0, 1, 10)
  }

  const ALICE := Validator(0, 0, [], 0)

  function GenesisWith(duration: nat, allocations: seq<Allocation>): Genesis {
    Genesis(Params(duration), [ALICE], allocations)
  }

  const QUIET := Block([], [], [])

  function Rate(k: nat): RateData { RateData(0, k, 0, SCALE) }

  /** A state whose one validator has the entry `e`, at epoch `k`. */
  ghost predicate Lone(s: State, height: nat, k: nat, e: Entry) {
    && s.height == height && s.list == [0] && s.entries == map[0 := e]
    && s.curBase == BaseRateData(k, 0, SCALE) && s.nextBase == BaseRateData(k + 1, 0, SCALE)
    && e.definition.identityKey == 0 && e.definition.fundingStreams == []
    && e.cur == Rate(k) && e.next == Rate(k + 1)
  }

  /** Delegation tokens `x` and staking tokens `y` exist. */
  ghost predicate Supplied(s: State, x: nat, y: nat) {
    SupplyOf(s, DelegationToken(0)) == x && SupplyOf(s, StakingToken) == y
  }

  // ---------------------------------------------------------------------------------------------
  // Steps of such a chain
  // ---------------------------------------------------------------------------------------------

  /** The largest amount one delegation or allocation may have. */
  const MOST: nat := I64 - 1

  /** Genesis allocations of `x` delegation tokens and `y` staking tokens, the latter in two parts if they are many. */
  function Endowment(x: nat, y: nat): seq<Allocation> {
    if y == 0 then Tokens(x)
    else if y <= MOST then Tokens(x) + [Allocation(StakingToken, y)]
    else Tokens(x) + [Allocation(StakingToken, MOST)] + [Allocation(StakingToken, y - MOST)]
  }

  function Tokens(x: nat): seq<Allocation> {
    if x == 0 then [] else [] + [Allocation(DelegationToken(0), x)]
  }

  lemma AllocatedNext(allocations: seq<Allocation>, a: Allocation, asset: Asset)
    ensures Allocated(allocations + [a], asset)
            == Allocated(allocations, asset) + (if a.asset == asset then a.amount else 0)
  {
    assert (allocations + [a])[..|allocations|] == allocations;
  }

  lemma TokensTotal(x: nat, asset: Asset)
    ensures Allocated(Tokens(x), asset) == if asset == DelegationToken(0) then x else 0
  {
    assert Allocated([], asset) == 0;
    if x > 0 {
      AllocatedNext([], Allocation(DelegationToken(0), x), asset);
    }
  }

  lemma EndowmentTotals(x: nat, y: nat)
    ensures Allocated(Endowment(x, y), DelegationToken(0)) == x
    ensures Allocated(Endowment(x, y), StakingToken) == y
  {
    hide Allocated, Tokens;
    TotalOfAsset(x, y, DelegationToken(0));
    TotalOfAsset(x, y, StakingToken);
  }

  lemma TotalOfAsset(x: nat, y: nat, asset: Asset)
    ensures Allocated(Endowment(x, y), asset)
            == (if asset == DelegationToken(0) then x else 0) + (if asset == StakingToken then y else 0)
  {
    hide Allocated, Tokens;
    TokensTotal(x, asset);
    if 0 < y <= MOST {
      AllocatedNext(Tokens(x), Allocation(StakingToken, y), asset);
    } else if y > MOST {
      AllocatedNext(Tokens(x), Allocation(StakingToken, MOST), asset);
      AllocatedNext(Tokens(x) + [Allocation(StakingToken, MOST)], Allocation(StakingToken, y - MOST), asset);
    }
  }

  lemma MintNext(s: State, allocations: seq<Allocation>, a: Allocation)
    requires MintAll(s, allocations).Ok? && a.amount > 0
    ensures MintAll(s, allocations + [a]) == UpdateTokenSupply(MintAll(s, allocations).value, a.asset, AsI64(a.amount))
  {
    hide UpdateTokenSupply;
    assert (allocations + [a])[..|allocations|] == allocations;
  }

  lemma SupplyMoves(s: State, asset: Asset, change: int)
    requires 0 <= SupplyOf(s, asset) + change < U64
    ensures var r := UpdateTokenSupply(s, asset, change);
            && r.Ok? && r.value == s.(supply := r.value.supply)
            && SupplyOf(r.value, asset) == SupplyOf(s, asset) + change
            && forall a :: a != asset ==> SupplyOf(r.value, a) == SupplyOf(s, a)
  {}

  lemma MintStaking(s: State, allocations: seq<Allocation>, amount: nat, x: nat, y: nat)
    requires MintAll(s, allocations).Ok? && 0 < amount < I64 && y + amount < U64
    requires var t := MintAll(s, allocations).value; t == s.(supply := t.supply) && Supplied(t, x, y)
    ensures var r := MintAll(s, allocations + [Allocation(StakingToken, amount)]);
            r.Ok? && r.value == s.(supply := r.value.supply) && Supplied(r.value, x, y + amount)
  {
    hide MintAll, UpdateTokenSupply, SupplyOf;
    MintNext(s, allocations, Allocation(StakingToken, amount));
    SupplyMoves(MintAll(s, allocations).value, StakingToken, amount);
  }

  lemma MintTokens(s: State, x: nat)
    requires s.supply == map[] && x < I64
    ensures var r := MintAll(s, Tokens(x)); r.Ok? && r.value == s.(supply := r.value.supply) && Supplied(r.value, x, 0)
  {
    var none: seq<Allocation> := [];
    assert MintAll(s, none) == Ok(s);
    EmptySupply(s);
    hide MintAll, UpdateTokenSupply, SupplyOf, Same64;
    if x > 0 {
      MintNext(s, none, Allocation(DelegationToken(0), x));
      SupplyMoves(s, DelegationToken(0), x);
      assert Tokens(x) == none + [Allocation(DelegationToken(0), x)];
    }
  }

  lemma EndowmentMints(s: State, x: nat, y: nat)
    requires s.supply == map[] && x < I64 && y <= 2 * MOST
    ensures var r := MintAll(s, Endowment(x, y));
            r.Ok? && r.value == s.(supply := r.value.supply) && Supplied(r.value, x, y)
  {
    hide MintAll, Supplied, Tokens;
    MintTokens(s, x);
    if 0 < y <= MOST {
      MintStaking(s, Tokens(x), y, x, 0);
    } else if y > MOST {
      MintStaking(s, Tokens(x), MOST, x, 0);
      MintStaking(s, Tokens(x) + [Allocation(StakingToken, MOST)], y - MOST, x, MOST);
    }
  }

  lemma LoneInit(duration: nat, x: nat, y: nat)
    requires x <= MAX_VOTING_POWER
    ensures var r := InitChain(GenesisWith(duration, Endowment(x, y)));
            && r.Ok? && Lone(r.value.state, 0, 0, GenesisEntry(ALICE, x, 1))
            && r.value.state.params == Params(duration) && r.value.state.changes == map[0 := NO_CHANGES]
            && r.value.state.commissions == map[] && r.value.state.supply == map[]
            && r.value.pending == NO_CHANGES && r.value.updates == [ValidatorUpdate(0, x)]
  {
    EndowmentTotals(x, y);
    hide Allocated, Endowment;
    var g := GenesisWith(duration, Endowment(x, y));
    assert g.validators[..0] == [];
    assert x * SCALE / SCALE == x;
    var c := Component(EmptyState(g.params), NO_CHANGES, []);
    assert InitValidators(c, g.validators, g.allocations) == InitValidator(c, ALICE, g.allocations);
  }

  lemma LoneStarts(duration: nat, x: nat, y: nat)
    requires x <= MAX_VOTING_POWER && y <= 2 * MOST
    ensures var r := Start(GenesisWith(duration, Endowment(x, y)));
            && r.Ok?
            && Lone(r.value.component.state, 0, 0, GenesisEntry(ALICE, x, 1)) && Supplied(r.value.component.state, x, y)
            && r.value.component.state.params == Params(duration)
            && r.value.component.state.changes == map[0 := NO_CHANGES] && r.value.component.state.commissions == map[]
            && r.value.component.pending == NO_CHANGES && r.value.component.updates == []
            && r.value.tendermint == if x == 0 then map[] else map[0 := x]
  {
    hide InitChain, MintAll, Endowment;
    LoneInit(duration, x, y);
    var c := InitChain(GenesisWith(duration, Endowment(x, y))).value;
    EndowmentMints(c.state, x, y);
    var tm: map<PubKey, nat> := map[];
    assert c.updates[1..] == [];
    assert ApplyUpdates(tm, c.updates) == ApplyUpdates(ApplyUpdate(tm, c.updates[0]), []);
  }

  /** Begin_block without evidence: an Active validator's tracker records a miss. */
  lemma LoneBegins(c: Component, height: nat, k: nat, e: Entry)
    requires Lone(c.state, height, k, e) && c.state.params.missedBlocksMaximum == 10
    requires e.state.Active? ==>
               e.uptime.Some? && e.uptime.value.asOfBlockHeight + 1 == height && |e.uptime.value.signatures| == 1
    ensures var r := BeginBlock(c, [], []);
            && r.Ok?
            && r.value == c.(state := c.state.(entries := r.value.state.entries))
            && Lone(r.value.state, height, k,
               if e.state.Active? then e.(uptime := Some(UptimeData(height, [false]))) else e)
  {
    var c1 := TrackOne(c, 0, []);
    if e.state.Active? {
      var u := e.uptime.value.Mark(height, false).value;
      assert u.signatures == [false];
      assert Unsigned([false]) == 1 by { assert [false][..0] == []; }
      assert c1.Ok?;
      assert c1.value.state.entries == map[0 := e.(uptime := Some(u))];
    }
    assert [0][1..] == [];
    assert TrackUptime(c, [0], []) == TrackUptime(c1.value, [], []);
  }

  ghost predicate Chooses(s: State, power: nat) { power > 0 && s.params.activeValidatorLimit > 0 }

  lemma LoneIsChosen(s: State, height: nat, k: nat, e: Entry)
    requires Lone(s, height, k, e) && e.power <= MAX_VOTING_POWER
    ensures Listing(s) && (Chosen(s, 0) <==> Chooses(s, e.power))
  {
    assert |PowerList(s)| == 1;
    assert s.list[0] == 0 && Rank(PowerList(s), 0) == CountOutranking(PowerList(s), 0, 0);
  }

  /** The roll-over at constant rates moves `delta` tokens from one supply to the other. */
  lemma LoneRolls(s: State, height: nat, k: nat, e: Entry, x: nat, y: nat, ctx: EpochContext, delta: int)
    requires Lone(s, height, k, e) && Supplied(s, x, y)
    requires ctx.index == k && ctx.curBase == BaseRateData(k + 1, 0, SCALE)
             && ctx.nextBase == BaseRateData(k + 2, 0, SCALE)
    requires NetDelta(ctx, 0) == Ok(delta) && 0 <= x + delta <= MAX_VOTING_POWER && 0 <= y - delta < U64
             && -I64 < delta < I64
    ensures var r := RollOver(s, ctx);
            && r.Ok? && r.value.1 == []
            && r.value.0 == s.(curBase := ctx.curBase, nextBase := ctx.nextBase, entries := r.value.0.entries,
               supply := r.value.0.supply)
            && Lone(r.value.0, height, k + 1, e.(cur := Rate(k + 1), next := Rate(k + 2), power := x + delta))
            && Supplied(r.value.0, x + delta, y - delta)
  {
    hide ProcessValidator;
    var start := s.(curBase := ctx.curBase, nextBase := ctx.nextBase);
    LoneProcess(start, e, x, y, k, ctx, delta);
    var r := ProcessValidator(start, 0, ctx);
    assert [0][1..] == [];
    assert ProcessAll(r.value.0, [], ctx) == Ok((r.value.0, []));
    assert ProcessAll(start, [0], ctx) == Ok((r.value.0, [] + []));
  }

  lemma LoneProcess(s: State, e: Entry, x: nat, y: nat, k: nat, ctx: EpochContext, delta: int)
    requires s.entries == map[0 := e] && e.next == Rate(k + 1) && e.definition.fundingStreams == [] && Supplied(s, x, y)
    requires ctx.index == k && ctx.curBase == BaseRateData(k + 1, 0, SCALE)
             && ctx.nextBase == BaseRateData(k + 2, 0, SCALE)
    requires NetDelta(ctx, 0) == Ok(delta) && 0 <= x + delta <= MAX_VOTING_POWER && 0 <= y - delta < U64
             && -I64 < delta < I64
    ensures var r := ProcessValidator(s, 0, ctx);
            && r.Ok? && r.value.1 == []
            && r.value.0 == s.(entries := map[0 := e.(cur := Rate(k + 1), next := Rate(k + 2), power := x + delta)],
               supply := r.value.0.supply)
            && Supplied(r.value.0, x + delta, y - delta)
  {
    ConstantRate(k, ctx.nextBase, e.state);
    ConstantBurn(k, delta);
    ConstantPower(k, x + delta, ctx.curBase);
    NoCommissions(e, x + delta, ctx);
    hide CommissionsOf, StakingDelta, CommissionBps, Delegated, Undelegated, DelegationDelta, RateData.Next,
         RateData.VotingPower, UpdateTokenSupply, SupplyOf;
    SupplyMoves(s, DelegationToken(0), delta);
    var s1 := UpdateTokenSupply(s, DelegationToken(0), delta).value;
    SupplyMoves(s1, StakingToken, -delta);
    var r := ProcessValidator(s, 0, ctx);
    assert r.value.0.entries == map[0 := e.(cur := Rate(k + 1), next := Rate(k + 2), power := x + delta)];
    SameSupply(UpdateTokenSupply(s1, StakingToken, -delta).value, r.value.0);
  }

  lemma ConstantRate(k: nat, base: BaseRateData, state: ValidatorState)
    requires base.rewardRate == 0
    ensures Rate(k + 1).Next(base, [], state) == Ok(Rate(k + 2))
  {
    assert SCALE * 0 == 0 && SCALE * SCALE / SCALE == SCALE;
  }

  lemma ConstantBurn(k: nat, delta: int)
    requires -I64 < delta < I64
    ensures StakingDelta(Rate(k + 1), delta) == Ok(-delta)
  {
    var n := if delta >= 0 then delta else -delta;
    assert n * SCALE / SCALE == n;
  }

  lemma ConstantPower(k: nat, tokens: nat, base: BaseRateData)
    requires base.exchangeRate == SCALE && tokens < U64
    ensures Rate(k + 1).VotingPower(tokens, base) == Ok(tokens)
  {
    assert tokens * SCALE / SCALE == tokens;
  }

  lemma NoCommissions(e: Entry, tokens: nat, ctx: EpochContext)
    requires e.definition.fundingStreams == []
    ensures CommissionsOf(e, tokens, ctx) == Ok([])
  {
    assert Rewards([], tokens, ctx.nextBase, ctx.curBase) == Ok([]);
    assert Commissions([], []) == [];
  }

  /** The boundary: it fails exactly if the validator is expired and gains power. */
  lemma LoneEndsEpoch(c: Component, height: nat, k: nat, e: Entry, x: nat, y: nat, q: DelegationChanges, delta: int)
    requires Lone(c.state, height, k, e) && Supplied(c.state, x, y)
    requires c.state.params.epochDuration > 0 && c.state.params.baseRewardRate == 0
    requires var epoch := Epoch(k, c.state.params.epochDuration);
             && HasAll(c.state.changes, epoch.StartHeight(), epoch.EndHeight() + 1)
             && Collect(c.state.changes, epoch.StartHeight(), epoch.EndHeight() + 1) == q
    requires DelegationDelta(Delegated(q.delegations, 0), Undelegated(q.undelegations, 0)) == Ok(delta)
    requires 0 <= x + delta <= MAX_VOTING_POWER && 0 <= y - delta < U64 && -I64 < delta < I64
    ensures var r := EndEpoch(c, Epoch(k, c.state.params.epochDuration));
            var chosen := Chooses(c.state, x + delta);
            if Expired(e.state, k) && chosen then r == Err(BadTransition)
            else
              && r.Ok? && r.value.pending == NO_CHANGES && 0 in r.value.state.entries
              && var t := r.value.state;
                 && Lone(t, height, k + 1, t.entries[0]) && Supplied(t, x + delta, y - delta)
                 && t.entries[0].state == NextState(e.state, chosen, k, t.params.unbondingEpochs)
                 && t.params == c.state.params && t.changes == c.state.changes
                 && t.commissions == c.state.commissions[height := []]
  {
    hide RollOver, ProcessEpochTransitions, Chosen, Delegated, Undelegated;
    var s, epoch := c.state, Epoch(k, c.state.params.epochDuration);
    assert SCALE * (0 + SCALE) / SCALE == SCALE;
    var ctx := EpochContext(k, q, BaseRateData(k + 1, 0, SCALE), BaseRateData(k + 2, 0, SCALE));
    assert ContextAt(s, epoch) == Ok(ctx);
    LoneRolls(s, height, k, e, x, y, ctx, delta);
    var rolled := RollOver(s, ctx).value.0;
    var f := e.(cur := Rate(k + 1), next := Rate(k + 2), power := x + delta);
    LoneIsChosen(rolled, height, k + 1, f);
    BoundaryOutcome(c.(state := rolled), k);
    assert 0 in rolled.entries && rolled.entries[0] == f;
    if ProcessEpochTransitions(c.(state := rolled), k).Ok? {
      LoneAfter(c.(state := rolled), height, k, f);
    }
  }

  lemma LoneAfter(c: Component, height: nat, k: nat, f: Entry)
    requires Lone(c.state, height, k + 1, f) && Listing(c.state) && ProcessEpochTransitions(c, k).Ok?
    ensures var t := ProcessEpochTransitions(c, k).value.state;
            && t == c.state.(entries := t.entries) && 0 in t.entries && Lone(t, height, k + 1, t.entries[0])
            && t.entries[0].state == NextState(f.state, Chosen(c.state, 0), k, c.state.params.unbondingEpochs)
  {
    hide ProcessEpochTransitions, Chosen;
    BoundaryOutcome(c, k);
    var t := ProcessEpochTransitions(c, k).value.state;
    assert 0 in c.state.entries;
    assert t.entries == map[0 := t.entries[0]];
  }

  // ---------------------------------------------------------------------------------------------
  // Transactions
  // ---------------------------------------------------------------------------------------------

  /** A delegation that pays with a note of as many staking tokens, for a note of the delegation tokens. */
  function DelegateTx(epoch: nat, amount: nat): Transaction {
    var paid := Committed(Value(amount, STAKING_ASSET), 0);
    var received := Committed(Value(amount, DelegationAsset(0)), 0);
    Transaction(
      0,
      [ Spend(SpendBody(0, SpendProof([], 0, 1, 0), paid, true)),
        Output(OutputBody(2, 0, 0), received, true),
        Delegation(Delegate(0, epoch, amount, amount)) ],
      0, 0, true)
  }

  lemma DelegateTxLists(epoch: nat, amount: nat)
    ensures var tx := DelegateTx(epoch, amount);
            && DelegationsOf(tx.actions) == [Delegate(0, epoch, amount, amount)]
            && UndelegationsOf(tx.actions) == [] && DefinitionsOf(tx.actions) == []
            && PureBlinding(tx)
  {
    var tx := DelegateTx(epoch, amount);
    var one, two := tx.actions[..1], tx.actions[..2];
    assert one[..0] == [] && two[..1] == one;
    assert DelegationsOf(one) == DelegationsOf([]) + [] && DelegationsOf(two) == DelegationsOf(one) + [];
    assert UndelegationsOf(one) == UndelegationsOf([]) + [] && UndelegationsOf(two) == UndelegationsOf(one) + [];
    assert DefinitionsOf(one) == DefinitionsOf([]) + [] && DefinitionsOf(two) == DefinitionsOf(one) + [];
    forall asset
      ensures KeyValue(tx, asset) == 0
    {
      assert NetValue(one, asset) == NetValue([], asset) + Contribution(tx.actions[0], asset);
      assert NetValue(two, asset) == NetValue(one, asset) + Contribution(tx.actions[1], asset);
    }
  }

  /** A delegation at the next epoch's rate is accepted and queued. */
  lemma LoneDelegates(c: Component, height: nat, k: nat, e: Entry, amount: nat)
    requires Lone(c.state, height, k, e) && !e.state.Slashed? && amount < I64 && c.state.params.epochDuration > 0
    ensures var d := Delegate(0, k + 1, amount, amount);
            DeliverTx(c, DelegateTx(k + 1, amount)) == c.(pending := Append(c.pending, DelegationChanges([d], [])))
  {
    var tx, d := DelegateTx(k + 1, amount), Delegate(0, k + 1, amount, amount);
    DelegateTxLists(k + 1, amount);
    hide DelegationsOf, UndelegationsOf, DefinitionsOf, PureBlinding;
    assert amount * SCALE / SCALE == amount;
    assert DelegationOk(c.state, d);
    assert TallyFits([d], []) by { OneDelegationTallies(d); }
  }

  // ---------------------------------------------------------------------------------------------
  // The runs
  // ---------------------------------------------------------------------------------------------

  /** Begin_block and transactions of a block without evidence or votes. */
  lemma LoneBefore(ch: Chain, txs: seq<Transaction>, height: nat, k: nat, e: Entry)
    requires Lone(ch.component.state, height, k, e) && ch.component.state.params.missedBlocksMaximum == 10
    requires ch.component.state.params.epochDuration > 0
    requires e.state.Active? ==>
               e.uptime.Some? && e.uptime.value.asOfBlockHeight == height && |e.uptime.value.signatures| == 1
    ensures var f := if e.state.Active? then e.(uptime := Some(UptimeData(height + 1, [false]))) else e;
            var s := ch.component.state.(height := height + 1, entries := map[0 := f]);
            && Lone(s, height + 1, k, f)
            && BeforeEnd(ch, Block([], [], txs)) == Ok(DeliverAll(ch.component.(state := s), txs))
  {
    hide DeliverAll, BeginBlock;
    LoneBegins(Advanced(ch), height + 1, k, e);
  }

  /** A block that ends no epoch and follows no commission: its queue is recorded. */
  lemma LoneRecords(ch: Chain, b: Block, c: Component)
    requires BeforeEnd(ch, b) == Ok(c) && c.state.height !in c.state.commissions && c.state.params.epochDuration > 0
    requires !FromHeight(c.state.height, c.state.params.epochDuration).IsEpochEnd(c.state.height)
    ensures RunBlock(ch, b) == Ok(Commit(Recorded(c), ch.tendermint))
  {
    hide BeforeEnd, EndEpoch;
  }

  /** A block that ends an epoch. */
  lemma LoneTurns(ch: Chain, b: Block, c: Component, k: nat)
    requires BeforeEnd(ch, b) == Ok(c) && c.state.params.epochDuration > 0
    requires FromHeight(c.state.height, c.state.params.epochDuration).index == k
    requires Epoch(k, c.state.params.epochDuration).IsEpochEnd(c.state.height)
    ensures var r := EndEpoch(Recorded(c), Epoch(k, c.state.params.epochDuration));
            && (r.Err? ==> RunBlock(ch, b) == Err(r.error))
            && (r.Ok? && CommissionsNow(r.value.state) == [] ==> RunBlock(ch, b) == Ok(Commit(r.value, ch.tendermint)))
  {
    hide BeforeEnd, EndEpoch;
    EndBlockIsEndEpoch(c, k);
  }

  /** An Active validator without power becomes Unbonding in the first epoch. */
  lemma Displaced()
    ensures var g := GenesisWith(2, Endowment(0, 1));
            && Start(g).Ok? && RunBlock(Start(g).value, QUIET).Ok?
            && var c := RunBlock(Start(g).value, QUIET).value.component;
               && 0 in c.state.entries && Lone(c.state, 1, 1, c.state.entries[0])
                  && c.state.entries[0].state == Unbonding(1)
               && Supplied(c.state, 0, 1) && c.state.params == Params(2) && c.pending == NO_CHANGES
               && c.state.changes == map[0 := NO_CHANGES, 1 := NO_CHANGES] && c.state.commissions == map[1 := []]
  {
    hide Start, EndEpoch, BeforeEnd;
    LoneStarts(2, 0, 1);
    var ch, e := Start(GenesisWith(2, Endowment(0, 1))).value, GenesisEntry(ALICE, 0, 1);
    LoneBefore(ch, [], 0, 0, e);
    var c := BeforeEnd(ch, QUIET).value;
    SameSupply(ch.component.state, Recorded(c).state);
    LoneTurns(ch, QUIET, c, 0);
    TwoHeights(Recorded(c).state.changes, 0);
    LoneEndsEpoch(Recorded(c), 1, 0, e.(uptime := Some(UptimeData(1, [false]))), 0, 1, NO_CHANGES, 0);
  }

  /** The queue of an epoch of two blocks. */
  lemma TwoHeights(changes: map<nat, DelegationChanges>, lo: nat)
    requires lo in changes && lo + 1 in changes
    ensures HasAll(changes, lo, lo + 2)
            && Collect(changes, lo, lo + 2) == Append(Append(NO_CHANGES, changes[lo]), changes[lo + 1])
  {
    assert HasAll(changes, lo, lo + 1) && HasAll(changes, lo, lo);
    assert Collect(changes, lo, lo + 1) == Append(Collect(changes, lo, lo), changes[lo]);
  }

  /** A delegation in the next block is queued for the Unbonding validator. */
  lemma QueuedForUnbonding()
    ensures var g, b := GenesisWith(2, Endowment(0, 1)), Block([], [], [DelegateTx(2, 1)]);
            && Start(g).Ok? && RunBlocks(Start(g).value, [QUIET, b]).Ok?
            && var c := RunBlocks(Start(g).value, [QUIET, b]).value.component;
               && 0 in c.state.entries && Lone(c.state, 2, 1, c.state.entries[0])
                  && c.state.entries[0].state == Unbonding(1)
               && Supplied(c.state, 0, 1) && c.state.params == Params(2) && c.pending == NO_CHANGES
               && c.state.changes == map[0 := NO_CHANGES, 1 := NO_CHANGES,
                  2 := DelegationChanges([Delegate(0, 2, 1, 1)], [])]
               && c.state.commissions == map[1 := []]
  {
    hide Start, RunBlock, BeforeEnd, DeliverTx;
    var g, b := GenesisWith(2, Endowment(0, 1)), Block([], [], [DelegateTx(2, 1)]);
    Displaced();
    var ch := RunBlock(Start(g).value, QUIET).value;
    OneBlock(Start(g).value, QUIET);
    NextBlock(Start(g).value, [QUIET], b);
    var e := ch.component.state.entries[0];
    LoneBefore(ch, b.txs, 1, 1, e);
    var c0 := ch.component.(state := ch.component.state.(height := 2, entries := map[0 := e]));
    DeliverOne(c0, b.txs[0]);
    LoneDelegates(c0, 2, 1, e, 1);
    var c := BeforeEnd(ch, b).value;
    LoneRecords(ch, b, c);
    SameSupply(ch.component.state, Recorded(c).state);
    assert c.pending == DelegationChanges([Delegate(0, 2, 1, 1)], []);
  }

  lemma OneBlock(ch: Chain, b: Block)
    ensures RunBlocks(ch, [b]) == RunBlock(ch, b)
  {
    hide RunBlock;
    assert [b][..0] == [];
    assert RunBlocks(ch, []) == Ok(ch);
  }

  lemma NextBlock(ch: Chain, bs: seq<Block>, b: Block)
    requires RunBlocks(ch, bs).Ok?
    ensures RunBlocks(ch, bs + [b]) == RunBlock(RunBlocks(ch, bs).value, b)
  {
    hide RunBlock;
    assert (bs + [b])[..|bs|] == bs;
  }

  lemma DeliverOne(c: Component, tx: Transaction)
    requires c.state.params.epochDuration > 0
    ensures DeliverAll(c, [tx]) == DeliverTx(c, tx)
  {
    hide DeliverTx;
    assert [tx][..0] == [];
    assert DeliverAll(c, []) == c;
  }

  /**
   A run that the boundary stops: a validator displaced in the first epoch gains power
   in the second, just as its unbonding expires.
   */
  lemma ExpiredInTopSet()
    ensures var g, b := GenesisWith(2, Endowment(0, 1)), Block([], [], [DelegateTx(2, 1)]);
            GenesisOk(g) && Start(g).Ok? && RunBlocks(Start(g).value, [QUIET, b]).Ok?
            && RunBlocks(Start(g).value, [QUIET, b, QUIET]) == Err(BadTransition)
  {
    hide Start, RunBlock, RunBlocks, BeforeEnd, EndEpoch, Endowment, SupplyOf;
    var g, b := GenesisWith(2, Endowment(0, 1)), Block([], [], [DelegateTx(2, 1)]);
    QueuedForUnbonding();
    var ch := RunBlocks(Start(g).value, [QUIET, b]).value;
    NextBlock(Start(g).value, [QUIET, b], QUIET);
    assert [QUIET, b] + [QUIET] == [QUIET, b, QUIET];
    var e := ch.component.state.entries[0];
    LoneBefore(ch, [], 2, 1, e);
    var c := BeforeEnd(ch, QUIET).value;
    SameSupply(ch.component.state, Recorded(c).state);
    LoneTurns(ch, QUIET, c, 1);
    TwoHeights(Recorded(c).state.changes, 2);
    var q := DelegationChanges([Delegate(0, 2, 1, 1)], []);
    assert Append(Append(NO_CHANGES, q), NO_CHANGES) == q;
    assert Delegated(q.delegations, 0) == 1 by { assert q.delegations[..0] == []; }
    LoneEndsEpoch(Recorded(c), 3, 1, e, 0, 1, q, 1);
    assert CommissionBps([]) == 0;
  }

  const REKEYED := Validator(0, 7, [], 1)

  const REKEY_TX := Transaction(0, [ValidatorDefinition(Definition(REKEYED, true))], 0, 0, true)

  lemma LoneRekeys(c: Component, height: nat, k: nat, e: Entry)
    requires Lone(c.state, height, k, e) && e.definition.sequenceNumber == 0 && c.state.params.epochDuration > 0
    ensures DeliverTx(c, REKEY_TX) == c.(state := c.state.(entries := map[0 := e.(definition := REKEYED)]))
  {
    var tx, d := REKEY_TX, Definition(REKEYED, true);
    assert tx.actions[..0] == [];
    assert DelegationsOf(tx.actions) == DelegationsOf([]) + [] == [];
    assert UndelegationsOf(tx.actions) == UndelegationsOf([]) + [] == [];
    assert DefinitionsOf(tx.actions) == DefinitionsOf([]) + [d] == [d];
    assert [d][..0] == [];
    assert DefineAll(c.state, [d]) == Define(DefineAll(c.state, []), REKEYED);
    assert Append(c.pending, NO_CHANGES) == c.pending;
    assert c.state.entries[0 := e.(definition := REKEYED)] == map[0 := e.(definition := REKEYED)];
  }

  /** A run after which Tendermint holds the key an Active validator gave up and not the one it took. */
  lemma RekeyUnreported()
    ensures var g, b := GenesisWith(3, Endowment(1, 0)), Block([], [], [REKEY_TX]);
            && GenesisOk(g) && Start(g).Ok? && RunBlocks(Start(g).value, [b]).Ok?
            && var ch := RunBlocks(Start(g).value, [b]).value;
               && 0 in ch.component.state.entries
               && var e := ch.component.state.entries[0];
                  && e.state.Active? && e.power == 1 && e.definition.consensusKey == 7
                  && ch.tendermint == map[0 := 1]
  {
    hide Start, BeforeEnd, DeliverTx;
    var g, b := GenesisWith(3, Endowment(1, 0)), Block([], [], [REKEY_TX]);
    LoneStarts(3, 1, 0);
    var ch, e := Start(g).value, GenesisEntry(ALICE, 1, 1);
    LoneBefore(ch, b.txs, 0, 0, e);
    var f := e.(uptime := Some(UptimeData(1, [false])));
    var c0 := ch.component.(state := ch.component.state.(height := 1, entries := map[0 := f]));
    DeliverOne(c0, REKEY_TX);
    LoneRekeys(c0, 1, 0, f);
    OneBlock(ch, b);
    LoneRecords(ch, b, BeforeEnd(ch, b).value);
    assert CommissionBps([]) == 0;
  }

  lemma DeliverTwo(c: Component, tx: Transaction, ty: Transaction)
    requires c.state.params.epochDuration > 0
    ensures DeliverAll(c, [tx, ty]) == DeliverTx(DeliverTx(c, tx), ty)
  {
    hide DeliverTx;
    assert [tx, ty][..1] == [tx];
    DeliverOne(c, tx);
  }

  lemma MostTwice(q: DelegationChanges)
    requires q.delegations == [Delegate(0, 1, MOST, MOST), Delegate(0, 1, MOST, MOST)] && q.undelegations == []
    ensures Delegated(q.delegations, 0) == U64 - 2 && Undelegated(q.undelegations, 0) == 0
    ensures Bonded(q.delegations, 0) == U64 - 2
    ensures Net(q, 0) == U64 - 2 && DelegationDelta(Delegated(q.delegations, 0),
            Undelegated(q.undelegations, 0)) == Ok(-2)
  {
    var d := Delegate(0, 1, MOST, MOST);
    assert [d, d][..1] == [d] && [d][..0] == [];
    assert Delegated([d], 0) == MOST && Bonded([d], 0) == MOST;
  }

  const MOST_BLOCK := Block([], [], [DelegateTx(1, MOST), DelegateTx(1, MOST)])

  const EVIDENCE := Block([0], [], [])

  ghost predicate MostQueued(q: DelegationChanges) {
    && q.delegations == [Delegate(0, 1, MOST, MOST), Delegate(0, 1, MOST, MOST)]
    && q.undelegations == []
  }

  /** Both delegations are accepted and recorded in the first block. */
  lemma MostIsRecorded()
    ensures var g := GenesisWith(3, Endowment(2, U64 - 2));
            && Start(g).Ok? && RunBlock(Start(g).value, MOST_BLOCK).Ok?
            && var c := RunBlock(Start(g).value, MOST_BLOCK).value.component;
               && 0 in c.state.entries && Lone(c.state, 1, 0, c.state.entries[0]) && Supplied(c.state, 2, U64 - 2)
               && c.state.params == Params(3) && c.pending == NO_CHANGES && c.updates == []
               && c.state.commissions == map[] && 1 in c.state.changes && MostQueued(c.state.changes[1])
               && c.state.changes == map[0 := NO_CHANGES, 1 := c.state.changes[1]]
               && c.state.entries[0].state.Active? && c.state.entries[0].definition == ALICE
  {
    hide Start, BeforeEnd, DeliverTx, RunBlock;
    var tx := DelegateTx(1, MOST);
    LoneStarts(3, 2, U64 - 2);
    var ch, e := Start(GenesisWith(3, Endowment(2, U64 - 2))).value, GenesisEntry(ALICE, 2, 1);
    LoneBefore(ch, MOST_BLOCK.txs, 0, 0, e);
    var f := e.(uptime := Some(UptimeData(1, [false])));
    var c0 := ch.component.(state := ch.component.state.(height := 1, entries := map[0 := f]));
    DeliverTwo(c0, tx, tx);
    LoneDelegates(c0, 1, 0, f, MOST);
    LoneDelegates(DeliverTx(c0, tx), 1, 0, f, MOST);
    var c := BeforeEnd(ch, MOST_BLOCK).value;
    LoneRecords(ch, MOST_BLOCK, c);
    SameSupply(ch.component.state, Recorded(c).state);
  }

  /** Full slashing takes the validator to rate 0. */
  function SlashedEntry(e: Entry): Entry {
    e.(state := Slashed, cur := RateData(0, 0, 0, 0), next := RateData(0, 1, 0, 0))
  }

  lemma LoneIsSlashed(ch: Chain, e: Entry)
    requires Lone(ch.component.state, 1, 0, e) && e.state.Active? && ch.component.state.params == Params(3)
    requires ch.component.pending == NO_CHANGES && ch.component.updates == []
    ensures var r := BeforeEnd(ch, EVIDENCE);
            && r.Ok? && r.value.pending == NO_CHANGES
            && r.value.state == ch.component.state.(height := 2, entries := map[0 := SlashedEntry(e)])
  {
    var c := Advanced(ch);
    assert SCALE * BPS / BPS == SCALE;
    var d := SlashValidator(c, 0, BPS).value;
    assert d.state.entries == map[0 := SlashedEntry(e)];
    assert [0][1..] == [];
    assert SlashAll(c, [0]) == SlashAll(d, []);
    assert TrackUptime(d, [0], []) == TrackUptime(d, [], []);
  }

  /** At rate 0 the boundary records nothing for the staking supply, whatever was delegated. */
  lemma SlashedRolls(s: State, e: Entry, ctx: EpochContext)
    requires s.list == [0] && s.entries == map[0 := SlashedEntry(e)] && Supplied(s, 2, U64 - 2)
    requires ctx.index == 0 && ctx.curBase.exchangeRate == SCALE && NetDelta(ctx, 0) == Ok(-2)
    ensures var r := RollOver(s, ctx);
            && r.Ok? && r.value.1 == [] && Supplied(r.value.0, 0, U64 - 2)
            && r.value.0 == s.(curBase := ctx.curBase, nextBase := ctx.nextBase, entries := r.value.0.entries,
                               supply := r.value.0.supply)
            && r.value.0.entries.Keys == {0} && r.value.0.entries[0].state.Slashed? && r.value.0.entries[0].power == 0
  {
    var start := s.(curBase := ctx.curBase, nextBase := ctx.nextBase);
    assert NetDelta(ctx, 0) == DelegationDelta(Delegated(ctx.changes.delegations, 0),
        Undelegated(ctx.changes.undelegations, 0));
    hide Delegated, Undelegated, DelegationDelta;
    assert StakingDelta(SlashedEntry(e).next, -2) == Ok(0);
    var r := ProcessValidator(start, 0, ctx);
    assert r.Ok? && r.value.1 == [];
    assert [0][1..] == [];
    assert ProcessAll(r.value.0, [], ctx) == Ok((r.value.0, []));
    assert ProcessAll(start, [0], ctx) == Ok((r.value.0, [] + []));
  }

  lemma SlashedEndsEpoch(c: Component, e: Entry, q: DelegationChanges)
    requires c.state.list == [0] && c.state.entries == map[0 := SlashedEntry(e)] && Supplied(c.state, 2, U64 - 2)
    requires c.state.params == Params(3) && c.state.height == 2
    requires c.state.nextBase == BaseRateData(1, 0, SCALE) && MostQueued(q)
    requires HasAll(c.state.changes, 0, 3) && Collect(c.state.changes, 0, 3) == q
    ensures var r := EndEpoch(c, Epoch(0, 3));
            && r.Ok? && Supplied(r.value.state, 0, U64 - 2)
            && r.value.state.changes == c.state.changes
            && r.value.state.height == 2 && r.value.state.commissions == c.state.commissions[2 := []]
  {
    assert SCALE * (0 + SCALE) / SCALE == SCALE;
    var ctx := EpochContext(0, q, BaseRateData(1, 0, SCALE), BaseRateData(2, 0, SCALE));
    assert ContextAt(c.state, Epoch(0, 3)) == Ok(ctx);
    MostTwice(q);
    hide RollOver, ProcessEpochTransitions, Chosen, Delegated, Undelegated;
    SlashedRolls(c.state, e, ctx);
    var rolled := RollOver(c.state, ctx).value.0;
    assert Listing(rolled);
    BoundaryOutcome(c.(state := rolled), 0);
    SameSupply(rolled, EndEpoch(c, Epoch(0, 3)).value.state);
  }

  lemma ThreeHeights(changes: map<nat, DelegationChanges>)
    requires 0 in changes && 1 in changes && 2 in changes
    ensures HasAll(changes, 0, 3)
    ensures Collect(changes, 0, 3) == Append(Append(Append(NO_CHANGES, changes[0]), changes[1]), changes[2])
  {
    TwoHeights(changes, 0);
    assert Collect(changes, 0, 3) == Append(Collect(changes, 0, 2), changes[2]);
  }

  /**
   A run of accepted transactions in which a supply is not the sum of what was delegated:
   delegations of 2^64 - 2 tokens in one epoch are recorded as an undelegation of 2. The
   transactions balance, and as many staking tokens exist as they delegate; the validator is
   slashed before the epoch ends, so that the boundary puts nothing back.
   */
  lemma SupplyWrapsAround()
    ensures var g, bs := GenesisWith(3, Endowment(2, U64 - 2)), [MOST_BLOCK, EVIDENCE];
            && GenesisOk(g) && Start(g).Ok? && RunBlocks(Start(g).value, bs).Ok?
            && (forall i :: 0 <= i < 2 ==> PureBlinding(MOST_BLOCK.txs[i]))
            && var s := RunBlocks(Start(g).value, bs).value.component.state;
               && HasAll(s.changes, 0, 3) && MostQueued(Collect(s.changes, 0, 3))
               && Bonded(Collect(s.changes, 0, 3).delegations, 0) == Allocated(g.allocations, StakingToken)
               && Allocated(g.allocations, DelegationToken(0)) + Net(Collect(s.changes, 0, 3), 0) == U64
               && SupplyOf(s, DelegationToken(0)) == 0
  {
    hide Start, BeforeEnd, EndEpoch, RunBlock, RunBlocks, Allocated, Endowment, SupplyOf, PureBlinding;
    var g := GenesisWith(3, Endowment(2, U64 - 2));
    EndowmentTotals(2, U64 - 2);
    DelegateTxLists(1, MOST);
    MostIsRecorded();
    var start, ch := Start(g).value, RunBlock(Start(g).value, MOST_BLOCK).value;
    OneBlock(start, MOST_BLOCK);
    NextBlock(start, [MOST_BLOCK], EVIDENCE);
    assert [MOST_BLOCK] + [EVIDENCE] == [MOST_BLOCK, EVIDENCE];
    var e := ch.component.state.entries[0];
    LoneIsSlashed(ch, e);
    var c := BeforeEnd(ch, EVIDENCE).value;
    SameSupply(ch.component.state, Recorded(c).state);
    LoneTurns(ch, EVIDENCE, c, 0);
    ThreeHeights(Recorded(c).state.changes);
    var q := Collect(Recorded(c).state.changes, 0, 3);
    assert MostQueued(q);
    MostTwice(q);
    SlashedEndsEpoch(Recorded(c), e, q);
    assert CommissionBps([]) == 0;
  }
}
