/** What every epoch boundary of every run makes of exchange rates and voting powers. */
module StakingRates {
  import opened Prelude
  import opened Rates
  import opened Epochs
  import opened StakingSpec
  import opened StakingRuns
  import opened EpochTransitions
  import opened StakingInvariant
  import opened StakingSafety
  import opened StakingConservation

  // ---------------------------------------------------------------------------------------------
  // Rolling over
  // ---------------------------------------------------------------------------------------------

  /** A record rolled over: the next rate becomes current, a new one is computed, and power is the share of supply. */
  ghost predicate HalfRolled(e: Entry, f: Entry, tokens: nat, cur: BaseRateData, next: BaseRateData) {
    && f == e.(cur := e.next, next := f.next, power := f.power)
    && Grown(e.next, f.next, next, e.definition.fundingStreams, e.state)
    && IsShare(f.power, tokens, f.cur.exchangeRate, cur.exchangeRate)
  }

  lemma OneRolls(s: State, v: IdentityKey, ctx: EpochContext)
    requires ProcessValidator(s, v, ctx).Ok?
    ensures var t := ProcessValidator(s, v, ctx).value.0;
            && v in s.entries && v in t.entries
            && HalfRolled(s.entries[v], t.entries[v], SupplyOf(t, DelegationToken(v)), ctx.curBase, ctx.nextBase)
  {
    hide CommissionsOf, DelegationDelta, StakingDelta, CommissionBps, Grown, IsShare;
    var (t, e) := (ProcessValidator(s, v, ctx).value.0, s.entries[v]);
    NextGrows(e.next, ctx.nextBase, e.definition.fundingStreams, e.state);
    hide RateData.Next;
    VotingPowerIsShare(e.next, ctx.curBase, SupplyOf(t, DelegationToken(v)));
  }

  lemma {:induction false} ProcessAllFrame(s: State, vs: seq<IdentityKey>, ctx: EpochContext, v: IdentityKey)
    requires ProcessAll(s, vs, ctx).Ok? && v !in vs
    ensures var t := ProcessAll(s, vs, ctx).value.0;
            && SupplyOf(t, DelegationToken(v)) == SupplyOf(s, DelegationToken(v))
            && (v in s.entries ==> v in t.entries && t.entries[v] == s.entries[v])
    decreases |vs|
  {
    hide ProcessValidator, SupplyOf, StakingChange, NetDelta;
    if vs != [] {
      ProcessOneSupply(s, vs[0], ctx);
      ProcessAllFrame(ProcessValidator(s, vs[0], ctx).value.0, vs[1..], ctx, v);
    }
  }

  lemma {:induction false} AllRoll(s: State, vs: seq<IdentityKey>, ctx: EpochContext, v: IdentityKey)
    requires Distinct(vs) && ProcessAll(s, vs, ctx).Ok? && v in vs
    ensures var t := ProcessAll(s, vs, ctx).value.0;
            && v in s.entries && v in t.entries
            && HalfRolled(s.entries[v], t.entries[v], SupplyOf(t, DelegationToken(v)), ctx.curBase, ctx.nextBase)
    decreases |vs|
  {
    hide ProcessValidator, SupplyOf, HalfRolled, StakingChange, NetDelta;
    var u := ProcessValidator(s, vs[0], ctx).value.0;
    if v == vs[0] {
      OneRolls(s, v, ctx);
      ProcessAllFrame(u, vs[1..], ctx, v);
    } else {
      ProcessOneSupply(s, vs[0], ctx);
      AllRoll(u, vs[1..], ctx, v);
    }
  }

  // ---------------------------------------------------------------------------------------------
  // The boundary
  // ---------------------------------------------------------------------------------------------

  /** A record across the boundary; a displaced validator loses its power. */
  ghost predicate EntryRolled(e: Entry, f: Entry, tokens: nat, cur: BaseRateData, next: BaseRateData) {
    && f.definition == e.definition && f.cur == e.next
    && Grown(e.next, f.next, next, e.definition.fundingStreams, e.state)
    && if e.state.Active? && !f.state.Active? then f.power == 0
       else IsShare(f.power, tokens, f.cur.exchangeRate, cur.exchangeRate)
  }

  ghost predicate BaseRolled(s: State, t: State) {
    var (e, f, reward) := (s.nextBase.exchangeRate, t.nextBase.exchangeRate, s.params.baseRewardRate);
    && t.curBase == s.nextBase
    && t.nextBase == BaseRateData(s.nextBase.epochIndex + 1, reward, f)
    && SCALE * f <= e * (SCALE + reward) < SCALE * (f + 1)
  }

  ghost predicate RatesRolled(s: State, t: State) {
    && BaseRolled(s, t)
    && t.entries.Keys == s.entries.Keys
    && forall v :: v in s.entries ==>
         EntryRolled(s.entries[v], t.entries[v], SupplyOf(t, DelegationToken(v)), t.curBase, t.nextBase)
  }

  lemma RolledListing(s: State, k: nat, epoch: Epoch)
    requires epoch.duration > 0 && epoch.index == k && StateOk(s, k) && UptimesAt(s, s.height)
    requires ContextAt(s, epoch).Ok? && RollOver(s, ContextAt(s, epoch).value).Ok?
    ensures Listing(RollOver(s, ContextAt(s, epoch).value).value.0)
  {
    var ctx := ContextAt(s, epoch).value;
    hide StateOk, RollOver;
    RollOutcome(s, ctx, k);
  }

  lemma ContextBases(s: State, epoch: Epoch)
    requires epoch.duration > 0 && ContextAt(s, epoch).Ok?
    ensures var ctx := ContextAt(s, epoch).value;
            ctx.index == epoch.index && ctx.curBase == s.nextBase
            && s.nextBase.Next(s.params.baseRewardRate) == Ok(ctx.nextBase)
  {}

  lemma EndEpochRolls(c: Component, k: nat)
    requires StateOk(c.state, k) && UptimesAt(c.state, c.state.height)
    requires c.state.params.epochDuration > 0 && EndEpoch(c, Epoch(k, c.state.params.epochDuration)).Ok?
    ensures RatesRolled(c.state, EndEpoch(c, Epoch(k, c.state.params.epochDuration)).value.state)
  {
    hide ContextAt, ProcessAll, ProcessEpochTransitions, StateOk, UptimesAt, Chosen, SupplyOf, Grown, IsShare;
    hide BaseRateData.Next;
    var s := c.state;
    var epoch := Epoch(k, s.params.epochDuration);
    var ctx := ContextAt(s, epoch).value;
    ContextBases(s, epoch);
    BaseGrows(s.nextBase, s.params.baseRewardRate);
    BaseNeverFalls(s.nextBase, s.params.baseRewardRate);
    RolledListing(s, k, epoch);
    RollOutcome(s, ctx, k);
    ListFacts(s, k);
    var rolled := RollOver(s, ctx).value.0;
    BoundaryOutcome(c.(state := rolled), k);
    var t := EndEpoch(c, epoch).value.state;
    SameSupply(rolled, t);
    forall v | v in s.entries
      ensures v in t.entries
      ensures EntryRolled(s.entries[v], t.entries[v], SupplyOf(t, DelegationToken(v)), t.curBase, t.nextBase)
    {
      AllRoll(s.(curBase := ctx.curBase, nextBase := ctx.nextBase), s.list, ctx, v);
      assert Transitioned(rolled, rolled.entries[v], t.entries[v], Chosen(rolled, v), k);
    }
  }

  // ---------------------------------------------------------------------------------------------
  // Runs
  // ---------------------------------------------------------------------------------------------

  /** The last block of an epoch, in a run: what end_epoch works on, and that minting moves the staking supply alone. */
  lemma BoundaryInRun(g: Genesis, bs: seq<Block>, b: Block)
    requires GenesisOk(g) && Start(g).Ok? && RunBlocks(Start(g).value, bs).Ok?
    requires RunBlock(RunBlocks(Start(g).value, bs).value, b).Ok?
    requires FromHeight(|bs| + 1, g.params.epochDuration).IsEpochEnd(|bs| + 1)
    ensures var ch := RunBlocks(Start(g).value, bs).value;
            && BeforeEnd(ch, b).Ok?
            && var (c, k) := (BeforeEnd(ch, b).value, FromHeight(|bs| + 1, g.params.epochDuration).index);
               && c.state.params.epochDuration > 0 && c.state.height == |bs| + 1
               && StateOk(Recorded(c).state, k) && UptimesAt(Recorded(c).state, c.state.height)
               && EndEpoch(Recorded(c), Epoch(k, c.state.params.epochDuration)).Ok?
               && var (t, u) := (EndEpoch(Recorded(c), Epoch(k, c.state.params.epochDuration)).value.state,
                                 RunBlock(ch, b).value.component.state);
                  u == t.(supply := u.supply)
                  && forall v :: SupplyOf(u, DelegationToken(v)) == SupplyOf(t, DelegationToken(v))
  {
    hide RunBlocks, Start, BeforeEnd, EndBlock, MintRewards, StateOk, UptimesAt, EndEpoch, Later;
    var ch := RunBlocks(Start(g).value, bs).value;
    RunsAreSafe(g, bs);
    RunsKeepParams(g, bs);
    BeforeEndOk(ch, b);
    var c := BeforeEnd(ch, b).value;
    LaterParams(ch.component.state, c.state);
    var k := NextEpoch(ch.component.state);
    EndBlockIsEndEpoch(c, k);
    BookkeepingKeepsOk(c.state, Recorded(c).state, k, c.state.height);
    EndBlockKeepsOk(c, k);
    var t := EndBlock(c, c.state.height).value.state;
    MintKeepsOk(t, NextEpoch(t));
  }

  lemma LaterParams(s: State, t: State)
    requires Later(s, t)
    ensures t.params == s.params
  {}

  lemma RolledFrame(s: State, r: State, t: State, u: State)
    requires RatesRolled(r, t) && r == s.(changes := r.changes) && u == t.(supply := u.supply)
    requires forall v :: SupplyOf(u, DelegationToken(v)) == SupplyOf(t, DelegationToken(v))
    ensures RatesRolled(s, u)
  {
    hide SupplyOf, EntryRolled;
  }

  /**
   At every boundary of every run the base rate compounds, each Active validator's rate grows by
   its share of the base reward and no other moves, and each power that is kept is the
   validator's share: its supply, at its rate, in units of the base rate, rounded down.
   */
  lemma BoundaryRates(g: Genesis, bs: seq<Block>, b: Block)
    requires GenesisOk(g) && Start(g).Ok? && RunBlocks(Start(g).value, bs).Ok?
    requires RunBlock(RunBlocks(Start(g).value, bs).value, b).Ok?
    requires FromHeight(|bs| + 1, g.params.epochDuration).IsEpochEnd(|bs| + 1)
    ensures var ch := RunBlocks(Start(g).value, bs).value;
            && BeforeEnd(ch, b).Ok?
            && RatesRolled(BeforeEnd(ch, b).value.state, RunBlock(ch, b).value.component.state)
  {
    hide RunBlocks, Start, BeforeEnd, RunBlock, StateOk, UptimesAt, EndEpoch, RatesRolled, SupplyOf;
    var ch := RunBlocks(Start(g).value, bs).value;
    BoundaryInRun(g, bs, b);
    var (c, k) := (BeforeEnd(ch, b).value, FromHeight(|bs| + 1, g.params.epochDuration).index);
    EndEpochRolls(Recorded(c), k);
    RolledFrame(c.state, Recorded(c).state, EndEpoch(Recorded(c), Epoch(k, c.state.params.epochDuration)).value.state,
        RunBlock(ch, b).value.component.state);
  }
}
