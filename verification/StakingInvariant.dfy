/**
 The invariant of the staking component over all runs: rates stay ordered and
 indexed by the right epoch, powers stay below supplies, trackers stay at the
 current height. It rules out every internal failure except arithmetic
 overflow, an exhausted supply, and a forbidden state transition.
 */
module StakingInvariant {
  import opened Prelude
  import opened Rates
  import opened Delegations
  import opened Transactions
  import opened Uptimes
  import opened Epochs
  import opened StakingSpec
  import opened StakingRuns
  import opened EpochTransitions

  /** Rates for epochs `k` and `k + 1`, below the base rates, and never shrinking unless slashed. */
  ghost predicate RateOk(e: Entry, k: nat, curBase: nat, nextBase: nat) {
    && e.cur.epochIndex == k && e.next.epochIndex == k + 1
    && e.cur.exchangeRate <= curBase && e.next.exchangeRate <= nextBase
    && e.cur.exchangeRate <= e.next.exchangeRate
    && (e.state.Slashed? ==> e.cur.exchangeRate == e.next.exchangeRate)
    && (!e.state.Slashed? ==> SCALE <= e.cur.exchangeRate)
  }

  ghost predicate EntryOk(e: Entry, v: IdentityKey, tokens: nat) {
    && e.definition.identityKey == v
    && CommissionBps(e.definition.fundingStreams) <= BPS
    && e.power <= MAX_VOTING_POWER && e.power <= tokens
  }

  ghost predicate StateOk(s: State, k: nat) {
    && ListOk(s)
    && BaseOk(s, k)
    && forall v :: v in s.entries ==>
         && EntryOk(s.entries[v], v, SupplyOf(s, DelegationToken(v)))
         && RateOk(s.entries[v], k, s.curBase.exchangeRate, s.nextBase.exchangeRate)
  }

  ghost predicate ListOk(s: State) {
    && s.params.epochDuration > 0 && s.params.signedBlocksWindowLen > 0
    && Distinct(s.list)
    && (forall v :: v in s.entries <==> v in s.list)
    && (forall a :: a in s.supply ==> s.supply[a] < U64)
  }

  ghost predicate BaseOk(s: State, k: nat) {
    && s.curBase.epochIndex == k && s.nextBase.epochIndex == k + 1
    && SCALE <= s.curBase.exchangeRate <= s.nextBase.exchangeRate
  }

  /** The tracker of an Active validator has recorded every height up to `asOf`. */
  ghost predicate UptimeOk(e: Entry, asOf: int, window: nat) {
    e.state.Active? ==>
      e.uptime.Some? && e.uptime.value.asOfBlockHeight == asOf && |e.uptime.value.signatures| == window
  }

  ghost predicate UptimesAt(s: State, asOf: int) {
    forall v :: v in s.entries ==> UptimeOk(s.entries[v], asOf, s.params.signedBlocksWindowLen)
  }

  /** Numbers that leave their range: overflow, a supply out of bounds, a power above Tendermint's maximum. */
  predicate Limit(f: Failure) {
    f.Overflow? || f.SupplyUnderflow? || f.SupplyOverflow? || f.InvalidPower?
  }

  /**
   Failures that are not a defect of the component: limits, and evidence or an expiry that asks
   for a refused transition.
   */
  predicate External(f: Failure) {
    Limit(f) || f.BadTransition? || f.MissingValidator?
  }

  /** Height, recorded changes and commissions do not matter to the invariant. */
  lemma BookkeepingKeepsOk(s: State, t: State, k: nat, asOf: int)
    requires StateOk(s, k) && UptimesAt(s, asOf)
    requires t == s.(height := t.height, changes := t.changes, commissions := t.commissions)
    ensures StateOk(t, k) && UptimesAt(t, asOf)
  {
    forall a
      ensures SupplyOf(t, a) == SupplyOf(s, a)
    {}
  }

  // ---------------------------------------------------------------------------------------------
  // Begin block
  // ---------------------------------------------------------------------------------------------

  /** What begin_block may do to one validator: record a vote, or slash it. */
  ghost predicate BeginStep(e: Entry, f: Entry) {
    && f.definition == e.definition && f.power == e.power
    && (f.state == e.state ==> f.cur == e.cur && f.next == e.next)
    && (f.state != e.state ==>
          && (e.state.Active? || e.state.Unbonding?) && f.state.Slashed?
          && f.cur.exchangeRate <= e.cur.exchangeRate && f.next.exchangeRate == f.cur.exchangeRate
          && f.cur.epochIndex == e.cur.epochIndex && f.next.epochIndex == e.cur.epochIndex + 1)
    && (e.state.Slashed? ==> f == e)
  }

  ghost predicate BeginFrame(s: State, t: State) {
    && t == s.(entries := t.entries)
    && t.entries.Keys == s.entries.Keys
    && forall v :: v in s.entries ==> BeginStep(s.entries[v], t.entries[v])
  }

  lemma BeginFrameKeepsOk(s: State, t: State, k: nat)
    requires StateOk(s, k) && BeginFrame(s, t)
    ensures StateOk(t, k)
  {
    forall v | v in t.entries
      ensures RateOk(t.entries[v], k, t.curBase.exchangeRate, t.nextBase.exchangeRate)
    {
      assert BeginStep(s.entries[v], t.entries[v]);
    }
  }

  lemma BeginFrameTrans(s: State, t: State, u: State)
    requires BeginFrame(s, t) && BeginFrame(t, u)
    ensures BeginFrame(s, u)
  {
    forall v | v in s.entries
      ensures BeginStep(s.entries[v], u.entries[v])
    {
      assert BeginStep(s.entries[v], t.entries[v]) && BeginStep(t.entries[v], u.entries[v]);
    }
  }

  lemma SlashIsBeginStep(c: Component, v: IdentityKey, penalty: nat)
    requires SlashValidator(c, v, penalty).Ok?
    ensures BeginFrame(c.state, SlashValidator(c, v, penalty).value.state)
    ensures v in c.state.entries && SlashValidator(c, v, penalty).value.state.entries[v].state.Slashed?
    ensures forall w :: w in c.state.entries && w != v ==>
              SlashValidator(c, v, penalty).value.state.entries[w] == c.state.entries[w]
  {}

  lemma {:induction false} SlashAllSteps(c: Component, evidence: seq<IdentityKey>, asOf: int)
    requires UptimesAt(c.state, asOf)
    ensures SlashAll(c, evidence).Ok? ==>
              BeginFrame(c.state, SlashAll(c, evidence).value.state)
                  && UptimesAt(SlashAll(c, evidence).value.state, asOf)
    ensures SlashAll(c, evidence).Err? ==> External(SlashAll(c, evidence).error)
    decreases |evidence|
  {
    if evidence != [] {
      var r := SlashValidator(c, evidence[0], c.state.params.slashingPenaltyMisbehaviorBps);
      if r.Ok? {
        SlashIsBeginStep(c, evidence[0], c.state.params.slashingPenaltyMisbehaviorBps);
        SlashAllSteps(r.value, evidence[1..], asOf);
        if SlashAll(c, evidence).Ok? {
          BeginFrameTrans(c.state, r.value.state, SlashAll(c, evidence).value.state);
        }
      }
    }
  }

  /** Trackers of the validators still to visit lag one height behind; visited Active ones are below the maximum. */
  ghost predicate Tracking(s: State, vs: seq<IdentityKey>) {
    forall v :: v in s.entries ==>
      if v in vs then UptimeOk(s.entries[v], s.height - 1, s.params.signedBlocksWindowLen)
      else Tracked(s, s.entries[v])
  }

  /** An Active validator's tracker is at the current height and below the allowed number of misses. */
  ghost predicate Tracked(s: State, e: Entry) {
    && UptimeOk(e, s.height, s.params.signedBlocksWindowLen)
    && (e.state.Active? ==> e.uptime.value.Missed() < s.params.missedBlocksMaximum)
  }

  lemma TrackOneSteps(c: Component, v: IdentityKey, votes: seq<Vote>)
    requires v in c.state.entries && c.state.params.signedBlocksWindowLen > 0
    requires UptimeOk(c.state.entries[v], c.state.height - 1, c.state.params.signedBlocksWindowLen)
    ensures TrackOne(c, v, votes).Ok? ==>
              var t := TrackOne(c, v, votes).value.state;
              && BeginFrame(c.state, t) && Tracked(t, t.entries[v])
              && forall w :: w in c.state.entries && w != v ==> t.entries[w] == c.state.entries[w]
    ensures TrackOne(c, v, votes).Err? ==> TrackOne(c, v, votes).error.Overflow?
  {
    hide SlashValidator, Unsigned, Voted, BeginFrame;
    var e := c.state.entries[v];
    var penalty := c.state.params.slashingPenaltyDowntimeBps;
    assert BeginFrame(c.state, c.state) by { BeginFrameNone(c.state); }
    if e.state.Active? {
      var uptime := e.uptime.value.Mark(c.state.height, Voted(votes, e.definition.consensusKey)).value;
      if uptime.Missed() >= c.state.params.missedBlocksMaximum {
        SlashActiveFails(c, v, penalty);
        if SlashValidator(c, v, penalty).Ok? {
          SlashIsBeginStep(c, v, penalty);
          SlashKeepsRest(c, v, penalty);
        }
      } else {
        BeginFrameOne(c.state, v, Some(uptime));
      }
    }
  }

  /** A new tracker is all that changes. */
  lemma BeginFrameOne(s: State, v: IdentityKey, uptime: Option<UptimeData>)
    requires v in s.entries && s.entries[v].state.Active?
    ensures BeginFrame(s, s.(entries := s.entries[v := s.entries[v].(uptime := uptime)]))
  {}

  lemma BeginFrameNone(s: State)
    ensures BeginFrame(s, s)
  {}

  lemma SlashActiveFails(c: Component, v: IdentityKey, penalty: nat)
    requires v in c.state.entries && c.state.entries[v].state.Active?
    ensures SlashValidator(c, v, penalty).Err? ==> SlashValidator(c, v, penalty).error.Overflow?
  {}

  lemma SlashKeepsRest(c: Component, v: IdentityKey, penalty: nat)
    requires SlashValidator(c, v, penalty).Ok?
    ensures var t := SlashValidator(c, v, penalty).value.state; t == c.state.(entries := t.entries) && v in t.entries
  {}

  lemma {:induction false} TrackSteps(c: Component, vs: seq<IdentityKey>, votes: seq<Vote>)
    requires Distinct(vs) && c.state.params.signedBlocksWindowLen > 0
    requires forall i :: 0 <= i < |vs| ==> vs[i] in c.state.entries
    requires Tracking(c.state, vs)
    ensures TrackUptime(c, vs, votes).Ok? ==>
              var t := TrackUptime(c, vs, votes).value.state; BeginFrame(c.state, t) && Tracking(t, [])
    ensures TrackUptime(c, vs, votes).Err? ==> TrackUptime(c, vs, votes).error.Overflow?
    decreases |vs|
  {
    if vs != [] {
      TrackOneSteps(c, vs[0], votes);
      var r := TrackOne(c, vs[0], votes);
      if r.Ok? {
        var t := r.value.state;
        assert Tracking(t, vs[1..]) by {
          forall v | v in t.entries
            ensures if v in vs[1..] then UptimeOk(t.entries[v], t.height - 1, t.params.signedBlocksWindowLen)
                    else Tracked(t, t.entries[v])
          {
            assert v in vs <==> v == vs[0] || v in vs[1..];
          }
        }
        TrackSteps(r.value, vs[1..], votes);
        if TrackUptime(c, vs, votes).Ok? {
          BeginFrameTrans(c.state, t, TrackUptime(c, vs, votes).value.state);
        }
      }
    }
  }

  /** begin_block at a new height keeps the invariant and leaves every Active tracker current and below the maximum. */
  lemma BeginBlockKeepsOk(c: Component, evidence: seq<IdentityKey>, votes: seq<Vote>, k: nat)
    requires StateOk(c.state, k) && UptimesAt(c.state, c.state.height - 1)
    ensures BeginBlock(c, evidence, votes).Ok? ==>
              var t := BeginBlock(c, evidence, votes).value.state;
              BeginFrame(c.state, t) && StateOk(t, k) && Tracking(t, [])
    ensures BeginBlock(c, evidence, votes).Err? ==> External(BeginBlock(c, evidence, votes).error)
  {
    SlashAllSteps(c, evidence, c.state.height - 1);
    var r := SlashAll(c, evidence);
    if r.Ok? {
      BeginFrameKeepsOk(c.state, r.value.state, k);
      TrackSteps(r.value, r.value.state.list, votes);
      if BeginBlock(c, evidence, votes).Ok? {
        var t := BeginBlock(c, evidence, votes).value.state;
        BeginFrameTrans(c.state, r.value.state, t);
        BeginFrameKeepsOk(c.state, t, k);
      }
    }
  }

  // ---------------------------------------------------------------------------------------------
  // Transactions
  // ---------------------------------------------------------------------------------------------

  lemma AddKeepsOk(s: State, d: Validator, k: nat, asOf: int)
    requires StateOk(s, k) && UptimesAt(s, asOf) && d.identityKey !in s.entries
    requires CommissionBps(d.fundingStreams) <= BPS
    ensures StateOk(AddValidator(s, NewEntry(d, k)), k) && UptimesAt(AddValidator(s, NewEntry(d, k)), asOf)
  {
    var t := AddValidator(s, NewEntry(d, k));
    assert forall v :: v in t.entries <==> v in s.entries || v == d.identityKey;
    assert RateOk(t.entries[d.identityKey], k, t.curBase.exchangeRate, t.nextBase.exchangeRate);
  }

  lemma DefineKeepsOk(s: State, d: Validator, k: nat, asOf: int)
    requires StateOk(s, k) && UptimesAt(s, asOf) && k == FromHeight(s.height, s.params.epochDuration).index
    requires CommissionBps(d.fundingStreams) <= BPS
    ensures StateOk(Define(s, d), k) && UptimesAt(Define(s, d), asOf)
  {
    if d.identityKey !in s.entries {
      AddKeepsOk(s, d, k, asOf);
    }
  }

  /** Definitions touch nothing of a known validator but its definition. */
  ghost predicate DefineFrame(s: State, t: State) {
    && t == s.(list := t.list, entries := t.entries)
    && forall v :: v in s.entries ==>
         v in t.entries && t.entries[v] == s.entries[v].(definition := t.entries[v].definition)
  }

  lemma {:induction false} DefineAllKeepsOk(s: State, defs: seq<Definition>, k: nat, asOf: int)
    requires StateOk(s, k) && UptimesAt(s, asOf) && k == FromHeight(s.height, s.params.epochDuration).index
    requires forall i :: 0 <= i < |defs| ==> CommissionBps(defs[i].validator.fundingStreams) <= BPS
    ensures var t := DefineAll(s, defs);
            && StateOk(t, k) && UptimesAt(t, asOf)
            && DefineFrame(s, t)
  {
    if defs != [] {
      DefineAllKeepsOk(s, defs[..|defs| - 1], k, asOf);
      DefineKeepsOk(DefineAll(s, defs[..|defs| - 1]), defs[|defs| - 1].validator, k, asOf);
    }
  }

  lemma {:induction false} DeliverAllKeepsOk(c: Component, txs: seq<Transaction>, k: nat, asOf: int)
    requires StateOk(c.state, k) && UptimesAt(c.state, asOf)
             && k == FromHeight(c.state.height, c.state.params.epochDuration).index
    ensures var d := DeliverAll(c, txs);
            && StateOk(d.state, k) && UptimesAt(d.state, asOf)
            && DefineFrame(c.state, d.state)
            && d.updates == c.updates
  {
    if txs != [] {
      var tx := txs[|txs| - 1];
      DeliverAllKeepsOk(c, txs[..|txs| - 1], k, asOf);
      var d := DeliverAll(c, txs[..|txs| - 1]);
      if StatelessOk(tx) && StatefulOk(d.state, tx) {
        DefineAllKeepsOk(d.state, DefinitionsOf(tx.actions), k, asOf);
      }
    }
  }

  // ---------------------------------------------------------------------------------------------
  // End of epoch: rates
  // ---------------------------------------------------------------------------------------------

  ghost predicate ContextOk(ctx: EpochContext, k: nat, reward: nat) {
    && ctx.index == k && ctx.curBase.epochIndex == k + 1
    && SCALE <= ctx.curBase.exchangeRate
    && ctx.curBase.Next(reward) == Ok(ctx.nextBase)
  }

  /** What the rate roll-over does to one validator. */
  ghost predicate EpochStep(e: Entry, f: Entry) {
    && f.definition == e.definition && f.state == e.state && f.uptime == e.uptime
    && f.cur == e.next && f.next.epochIndex == e.next.epochIndex + 1
    && e.next.exchangeRate <= f.next.exchangeRate
    && (!e.state.Active? ==> f.next.exchangeRate == e.next.exchangeRate)
  }

  lemma {:induction false} RewardsFailure(
    streams: seq<FundingStream>, tokens: nat, base: BaseRateData, prev: BaseRateData)
    requires prev.epochIndex + 1 == base.epochIndex
    ensures Rewards(streams, tokens, base, prev).Err? ==> Rewards(streams, tokens, base, prev).error.Overflow?
  {
    if streams != [] {
      RewardsFailure(streams[..|streams| - 1], tokens, base, prev);
    }
  }

  /** From `s` to `t` exactly validator `v` moved up by one epoch. */
  ghost predicate RolledOne(s: State, t: State, v: IdentityKey, ctx: EpochContext, k: nat) {
    && v in s.entries && v in t.entries && EpochStep(s.entries[v], t.entries[v])
    && t == s.(entries := s.entries[v := t.entries[v]], supply := t.supply)
    && EntryOk(t.entries[v], v, SupplyOf(t, DelegationToken(v)))
    && RateOk(t.entries[v], k + 1, ctx.curBase.exchangeRate, ctx.nextBase.exchangeRate)
    && (forall w :: w != v ==> SupplyOf(t, DelegationToken(w)) == SupplyOf(s, DelegationToken(w)))
    && ((forall a :: a in s.supply ==> s.supply[a] < U64) ==> forall a :: a in t.supply ==> t.supply[a] < U64)
  }

  /** One validator's rates move up by one epoch; only overflow and supply limits can stop it. */
  lemma ProcessOneSteps(s: State, v: IdentityKey, ctx: EpochContext, k: nat, reward: nat)
    requires v in s.entries && ContextOk(ctx, k, reward)
    requires EntryOk(s.entries[v], v, SupplyOf(s, DelegationToken(v)))
    requires RateOk(s.entries[v], k, ctx.curBase.exchangeRate, ctx.curBase.exchangeRate)
    ensures ProcessValidator(s, v, ctx).Ok? ==> RolledOne(s, ProcessValidator(s, v, ctx).value.0, v, ctx, k)
    ensures ProcessValidator(s, v, ctx).Err? ==> Limit(ProcessValidator(s, v, ctx).error)
  {
    hide Rewards, Delegated, Undelegated, CommissionBps;
    var e := s.entries[v];
    var streams := e.definition.fundingStreams;
    if e.next.Next(ctx.nextBase, streams, e.state).Ok? {
      NextStaysBelowBase(e.next, ctx.curBase, reward, streams, e.state);
    }
    forall tokens: nat | tokens < U64
      ensures e.next.VotingPower(tokens, ctx.curBase).Ok? && e.next.VotingPower(tokens, ctx.curBase).value <= tokens
    {
      VotingPowerAtMostSupply(e.next, ctx.curBase, tokens);
    }
    forall tokens: nat
      ensures Rewards(streams, tokens, ctx.nextBase, ctx.curBase).Err? ==>
                Rewards(streams, tokens, ctx.nextBase, ctx.curBase).error.Overflow?
    {
      RewardsFailure(streams, tokens, ctx.nextBase, ctx.curBase);
    }
  }

  /** Halfway through the roll-over: the validators in `vs` are still at epoch `k`, the others at `k + 1`. */
  ghost predicate Rolling(s: State, vs: seq<IdentityKey>, ctx: EpochContext, k: nat) {
    forall v :: v in s.entries ==>
      && EntryOk(s.entries[v], v, SupplyOf(s, DelegationToken(v)))
      && if v in vs then RateOk(s.entries[v], k, ctx.curBase.exchangeRate, ctx.curBase.exchangeRate)
         else RateOk(s.entries[v], k + 1, ctx.curBase.exchangeRate, ctx.nextBase.exchangeRate)
  }

  ghost predicate RollFrame(s: State, t: State, vs: seq<IdentityKey>) {
    && t == s.(entries := t.entries, supply := t.supply)
    && t.entries.Keys == s.entries.Keys
    && forall v :: v in s.entries ==> if v in vs then EpochStep(s.entries[v], t.entries[v])
       else t.entries[v] == s.entries[v]
  }

  lemma RollingAdvances(s: State, t: State, vs: seq<IdentityKey>, ctx: EpochContext, k: nat)
    requires vs != [] && Distinct(vs) && ListOk(s) && Rolling(s, vs, ctx, k) && RolledOne(s, t, vs[0], ctx, k)
    ensures ListOk(t) && Rolling(t, vs[1..], ctx, k) && t.entries.Keys == s.entries.Keys
  {
    forall v | v in t.entries
      ensures v in vs <==> v == vs[0] || v in vs[1..]
      ensures v in vs[1..] ==> v != vs[0]
    {}
  }

  lemma RollFrameCompose(s: State, t: State, u: State, vs: seq<IdentityKey>, ctx: EpochContext, k: nat)
    requires vs != [] && Distinct(vs) && RolledOne(s, t, vs[0], ctx, k) && RollFrame(t, u, vs[1..])
    ensures RollFrame(s, u, vs)
  {
    forall v | v in s.entries
      ensures v in vs <==> v == vs[0] || v in vs[1..]
      ensures v in vs[1..] ==> v != vs[0]
    {}
  }

  lemma {:induction false} ProcessAllSteps(s: State, vs: seq<IdentityKey>, ctx: EpochContext, k: nat, reward: nat)
    requires Distinct(vs) && ContextOk(ctx, k, reward) && ListOk(s) && Rolling(s, vs, ctx, k)
    requires forall i :: 0 <= i < |vs| ==> vs[i] in s.entries
    ensures ProcessAll(s, vs, ctx).Ok? ==>
              var t := ProcessAll(s, vs, ctx).value.0; RollFrame(s, t, vs) && Rolling(t, [], ctx, k) && ListOk(t)
    ensures ProcessAll(s, vs, ctx).Err? ==> Limit(ProcessAll(s, vs, ctx).error)
    decreases |vs|
  {
    hide ProcessValidator, RolledOne, EpochStep, EntryOk, RateOk, ContextOk;
    if vs != [] {
      ProcessOneSteps(s, vs[0], ctx, k, reward);
      var r := ProcessValidator(s, vs[0], ctx);
      if r.Ok? {
        RollingAdvances(s, r.value.0, vs, ctx, k);
        ProcessAllSteps(r.value.0, vs[1..], ctx, k, reward);
        if ProcessAll(r.value.0, vs[1..], ctx).Ok? {
          RollFrameCompose(s, r.value.0, ProcessAll(r.value.0, vs[1..], ctx).value.0, vs, ctx, k);
        }
      }
    }
  }

  // ---------------------------------------------------------------------------------------------
  // End of block
  // ---------------------------------------------------------------------------------------------

  /** What an epoch boundary does to one validator: rates roll over, power is recomputed, the state machine moves. */
  ghost predicate BoundaryStep(e: Entry, f: Entry) {
    && f.definition == e.definition
    && f.cur == e.next && f.next.epochIndex == e.next.epochIndex + 1
    && e.next.exchangeRate <= f.next.exchangeRate
    && (!e.state.Active? ==> f.next.exchangeRate == e.next.exchangeRate)
    && (f.state.Slashed? <==> e.state.Slashed?)
  }

  lemma RollStarts(s: State, nextBase: BaseRateData, k: nat)
    requires StateOk(s, k) && s.nextBase.Next(s.params.baseRewardRate) == Ok(nextBase)
    ensures forall changes ::
              var ctx := EpochContext(k, changes, s.nextBase, nextBase);
              ContextOk(ctx, k, s.params.baseRewardRate)
                  && Rolling(s.(curBase := s.nextBase, nextBase := nextBase), s.list, ctx, k)
  {}

  lemma RollEnds(s: State, ctx: EpochContext, k: nat, reward: nat)
    requires ListOk(s) && ContextOk(ctx, k, reward) && Rolling(s, [], ctx, k)
    requires s.curBase == ctx.curBase && s.nextBase == ctx.nextBase
    ensures StateOk(s, k + 1) && Listing(s)
  {
    BaseNeverFalls(ctx.curBase, reward);
  }

  lemma BoundaryKeepsOk(c: Component, k: nat, epoch: nat)
    requires StateOk(c.state, k) && UptimesAt(c.state, c.state.height)
    requires ProcessEpochTransitions(c, epoch).Ok?
    ensures Listing(c.state)
    ensures var t := ProcessEpochTransitions(c, epoch).value.state; StateOk(t, k) && UptimesAt(t, t.height)
  {
    hide ProcessEpochTransitions, Chosen, Unsigned;
    BoundaryOutcome(c, epoch);
    var t := ProcessEpochTransitions(c, epoch).value.state;
    forall v | v in t.entries
      ensures && EntryOk(t.entries[v], v, SupplyOf(t, DelegationToken(v)))
              && RateOk(t.entries[v], k, t.curBase.exchangeRate, t.nextBase.exchangeRate)
              && UptimeOk(t.entries[v], t.height, t.params.signedBlocksWindowLen)
    {
      assert Transitioned(c.state, c.state.entries[v], t.entries[v], Chosen(c.state, v), epoch);
    }
  }

  /** The recorded changes reach from genesis up to, not including, height `n`. */
  ghost predicate RecordedTo(s: State, n: nat) {
    HasAll(s.changes, 0, n)
  }

  ghost predicate EndFrame(s: State, t: State) {
    && t.params == s.params && t.height == s.height && t.list == s.list && t.changes == s.changes
    && t.curBase == s.nextBase
    && t.entries.Keys == s.entries.Keys
    && forall v :: v in s.entries ==> BoundaryStep(s.entries[v], t.entries[v])
  }

  /** The rate roll-over leads from epoch `k` to a well-formed state of epoch `k + 1`. */
  lemma RollOutcome(s: State, ctx: EpochContext, k: nat)
    requires StateOk(s, k) && UptimesAt(s, s.height)
    requires ctx.index == k && ctx.curBase == s.nextBase && s.nextBase.Next(s.params.baseRewardRate) == Ok(ctx.nextBase)
    ensures var r := RollOver(s, ctx);
            && (r.Err? ==> Limit(r.error))
            && (r.Ok? ==>
                  && RollFrame(s.(curBase := ctx.curBase, nextBase := ctx.nextBase), r.value.0, s.list)
                  && StateOk(r.value.0, k + 1) && Listing(r.value.0) && UptimesAt(r.value.0, s.height))
  {
    RollStarts(s, ctx.nextBase, k);
    var start := s.(curBase := ctx.curBase, nextBase := ctx.nextBase);
    assert ctx == EpochContext(k, ctx.changes, s.nextBase, ctx.nextBase);
    ProcessAllSteps(start, s.list, ctx, k, s.params.baseRewardRate);
    var r := ProcessAll(start, s.list, ctx);
    if r.Ok? {
      RollEnds(r.value.0, ctx, k, s.params.baseRewardRate);
      forall v | v in r.value.0.entries
        ensures UptimeOk(r.value.0.entries[v], s.height, s.params.signedBlocksWindowLen)
      {
        assert EpochStep(s.entries[v], r.value.0.entries[v]);
      }
    }
  }

  /** The boundary pass completes a roll-over that started in `s`. */
  lemma FinishEpoch(c: Component, s: State, k: nat)
    requires ListOk(s) && StateOk(c.state, k + 1) && UptimesAt(c.state, c.state.height) && Listing(c.state)
    requires RollFrame(s.(curBase := c.state.curBase, nextBase := c.state.nextBase), c.state, s.list)
             && c.state.curBase == s.nextBase
    ensures ProcessEpochTransitions(c, k).Err? ==> ProcessEpochTransitions(c, k).error.BadTransition?
    ensures ProcessEpochTransitions(c, k).Ok? ==>
              forall commissions ::
                var u := ProcessEpochTransitions(c, k).value.state.(commissions := commissions);
                StateOk(u, k + 1) && UptimesAt(u, u.height) && EndFrame(s, u)
  {
    hide ProcessEpochTransitions, Transitioned, Chosen, EntryOk, RateOk, UptimeOk, EndFrame;
    BoundaryOutcome(c, k);
    if ProcessEpochTransitions(c, k).Ok? {
      var u := ProcessEpochTransitions(c, k).value.state;
      BoundaryKeepsOk(c, k + 1, k);
      EndFrameComposes(s, c.state, u, k);
      forall commissions
        ensures StateOk(u.(commissions := commissions), k + 1) && UptimesAt(u.(commissions := commissions), u.height)
      {
        BookkeepingKeepsOk(u, u.(commissions := commissions), k + 1, u.height);
      }
    }
  }

  /** Once rates and powers are rolled forward, an expired Unbonding validator is in the top set. */
  ghost predicate Blocked(s: State, k: nat)
    requires s.params.epochDuration > 0
  {
    var ctx := ContextAt(s, Epoch(k, s.params.epochDuration));
    && ctx.Ok? && RollOver(s, ctx.value).Ok?
    && var t := RollOver(s, ctx.value).value.0;
       Listing(t) && exists v :: v in t.entries && Expired(t.entries[v].state, k) && Chosen(t, v)
  }

  lemma EndEpochKeepsOk(c: Component, k: nat)
    requires StateOk(c.state, k) && UptimesAt(c.state, c.state.height)
    requires var epoch := Epoch(k, c.state.params.epochDuration);
             epoch.IsEpochEnd(c.state.height) && RecordedTo(c.state, c.state.height + 1)
    ensures var r := EndEpoch(c, Epoch(k, c.state.params.epochDuration));
            && (r.Err? ==> Limit(r.error) || r.error.BadTransition?)
            && (r.Err? && r.error.BadTransition? <==> Blocked(c.state, k))
            && (r.Ok? ==>
                  && StateOk(r.value.state, k + 1) && UptimesAt(r.value.state, r.value.state.height)
                  && r.value.pending == NO_CHANGES
                  && EndFrame(c.state, r.value.state))
  {
    hide StateOk, UptimesAt, EndFrame, RollOver, ProcessEpochTransitions, Chosen;
    var ctx := ContextAt(c.state, Epoch(k, c.state.params.epochDuration));
    ContextFails(c.state, k);
    hide ContextAt;
    if ctx.Ok? {
      RollOutcome(c.state, ctx.value, k);
      if RollOver(c.state, ctx.value).Ok? {
        var d := c.(state := RollOver(c.state, ctx.value).value.0);
        ListIsOk(c.state, k);
        FinishEpoch(d, c.state, k);
        BoundaryOutcome(d, k);
      }
    }
  }

  lemma ListIsOk(s: State, k: nat)
    requires StateOk(s, k)
    ensures ListOk(s)
  {}

  /** With all changes recorded only the base rate can overflow. */
  lemma ContextFails(s: State, k: nat)
    requires StateOk(s, k) && Epoch(k, s.params.epochDuration).IsEpochEnd(s.height) && RecordedTo(s, s.height + 1)
    ensures s.params.epochDuration > 0
    ensures var r := ContextAt(s, Epoch(k, s.params.epochDuration));
            && (r.Err? ==> r.error.Overflow?)
            && (r.Ok? ==>
                  && r.value.index == k && r.value.curBase == s.nextBase
                  && s.nextBase.Next(s.params.baseRewardRate) == Ok(r.value.nextBase))
  {}

  lemma EndFrameComposes(s: State, t: State, u: State, epoch: nat)
    requires ListOk(s) && Listing(t)
    requires RollFrame(s.(curBase := t.curBase, nextBase := t.nextBase), t, s.list) && t.curBase == s.nextBase
    requires u == t.(entries := u.entries) && u.entries.Keys == t.entries.Keys
    requires forall v :: v in t.entries ==> Transitioned(t, t.entries[v], u.entries[v], Chosen(t, v), epoch)
    ensures forall commissions :: EndFrame(s, u.(commissions := commissions))
  {
    forall v | v in s.entries
      ensures BoundaryStep(s.entries[v], u.entries[v])
    {
      assert EpochStep(s.entries[v], t.entries[v]);
      assert Transitioned(t, t.entries[v], u.entries[v], Chosen(t, v), epoch);
    }
  }
}
