/**
 What each step of the staking component does to its state
 (stake/src/component.rs), as functions from state to state or failure. The
 class in module `StakingComponent` is verified against these functions; the
 theorems about runs are stated over them.
 */
module StakingSpec {
  import opened Prelude
  import opened Rates
  import opened Delegations
  import opened Transactions
  import opened Uptimes
  import opened Epochs
  import opened ActiveSet

  /** i64::MAX / 8, the largest voting power Tendermint takes. */
  const MAX_VOTING_POWER := 1152921504606846975

  datatype ChainParams = ChainParams(
    epochDuration: nat,
    unbondingEpochs: nat,
    activeValidatorLimit: nat,
    baseRewardRate: nat,
    slashingPenaltyMisbehaviorBps: nat,
    slashingPenaltyDowntimeBps: nat,
    signedBlocksWindowLen: nat,
    missedBlocksMaximum: nat)

  /** Everything stored under one validator's keys. */
  datatype Entry = Entry(
    definition: Validator,
    state: ValidatorState,
    power: nat,
    cur: RateData,
    next: RateData,
    uptime: Option<UptimeData>)

  datatype Asset = StakingToken | DelegationToken(identityKey: IdentityKey)

  datatype CommissionAmount = CommissionAmount(amount: nat, destination: Address)

  datatype State = State(
    params: ChainParams,
    height: nat,
    curBase: BaseRateData,
    nextBase: BaseRateData,
    list: seq<IdentityKey>,
    entries: map<IdentityKey, Entry>,
    changes: map<nat, DelegationChanges>,
    supply: map<Asset, nat>,
    commissions: map<nat, seq<CommissionAmount>>)

  datatype ValidatorUpdate = ValidatorUpdate(pubKey: PubKey, power: nat)

  /** The component: stored state, the delegations queued in this block, and its report to Tendermint. */
  datatype Component = Component(state: State, pending: DelegationChanges, updates: seq<ValidatorUpdate>)

  // ---------------------------------------------------------------------------------------------
  // Updates reported to Tendermint
  // ---------------------------------------------------------------------------------------------

  function Upsert(us: seq<ValidatorUpdate>, ck: PubKey, power: nat): seq<ValidatorUpdate> {
    if us == [] then [ValidatorUpdate(ck, power)]
    else if us[0].pubKey == ck then [ValidatorUpdate(ck, power)] + us[1..]
    else [us[0]] + Upsert(us[1..], ck, power)
  }

  function UpdatePower(c: Component, ck: PubKey, power: nat): Result<Component, Failure> {
    if power >= I64 then Err(Overflow) else Ok(c.(updates := Upsert(c.updates, ck, power)))
  }

  // ---------------------------------------------------------------------------------------------
  // Views
  // ---------------------------------------------------------------------------------------------

  function SupplyOf(s: State, asset: Asset): nat {
    if asset in s.supply then s.supply[asset] else 0
  }

  lemma SameSupply(s: State, t: State)
    requires t.supply == s.supply
    ensures forall a :: SupplyOf(t, a) == SupplyOf(s, a)
  {}

  function UpdateTokenSupply(s: State, asset: Asset, change: int): Result<State, Failure> {
    var supply := SupplyOf(s, asset) + change;
    if change < 0 && supply < 0 then Err(SupplyUnderflow)
    else if change >= 0 && supply >= U64 then Err(SupplyOverflow)
    else Ok(s.(supply := s.supply[asset := supply]))
  }

  predicate MayBecome(cur: ValidatorState, target: ValidatorState) {
    match target
    case Slashed => cur.Active? || cur.Unbonding?
    case Active => cur.Inactive? || cur.Unbonding?
    case Unbonding(_) => cur.Active?
    case Inactive => cur.Unbonding?
  }

  function SetState(s: State, v: IdentityKey, target: ValidatorState): Result<State, Failure> {
    if v !in s.entries then Err(MissingValidator)
    else if !MayBecome(s.entries[v].state, target) then Err(BadTransition)
    else Ok(s.(entries := s.entries[v := s.entries[v].(state := target)]))
  }

  function SlashValidator(c: Component, v: IdentityKey, penalty: nat): Result<Component, Failure> {
    if v !in c.state.entries then Err(MissingValidator)
    else
      var c1 :- UpdatePower(c, c.state.entries[v].definition.consensusKey, 0);
      var s1 :- SetState(c1.state, v, Slashed);
      var cur :- s1.entries[v].cur.Slash(penalty);
      var next := cur.(epochIndex := cur.epochIndex + 1);
      Ok(c1.(state := s1.(entries := s1.entries[v := s1.entries[v].(cur := cur, next := next)])))
  }

  /** A validator defined after genesis: Inactive, without power, at exchange rate 1. */
  function NewEntry(definition: Validator, epoch: nat): Entry {
    var id := definition.identityKey;
    Entry(definition, Inactive, 0, RateData(id, epoch, 0, SCALE), RateData(id, epoch + 1, 0, SCALE), None)
  }

  function AddValidator(s: State, e: Entry): State {
    s.(entries := s.entries[e.definition.identityKey := e], list := s.list + [e.definition.identityKey])
  }

  // ---------------------------------------------------------------------------------------------
  // Begin block
  // ---------------------------------------------------------------------------------------------

  datatype Vote = Vote(validator: PubKey, signed: bool)

  /** Whether `ck` signed the last block; of repeated votes the last one counts, a missing one is a miss. */
  function Voted(votes: seq<Vote>, ck: PubKey): bool {
    if votes == [] then false
    else if votes[|votes| - 1].validator == ck then votes[|votes| - 1].signed
    else Voted(votes[..|votes| - 1], ck)
  }

  function TrackOne(c: Component, v: IdentityKey, votes: seq<Vote>): Result<Component, Failure> {
    if v !in c.state.entries then Err(MissingValidator)
    else
      var e := c.state.entries[v];
      if !e.state.Active? then Ok(c)
      else if e.uptime.None? then Err(MissingUptime)
      else
        var uptime :- e.uptime.value.Mark(c.state.height, Voted(votes, e.definition.consensusKey));
        if uptime.Missed() >= c.state.params.missedBlocksMaximum then
          SlashValidator(c, v, c.state.params.slashingPenaltyDowntimeBps)
        else
          Ok(c.(state := c.state.(entries := c.state.entries[v := e.(uptime := Some(uptime))])))
  }

  function TrackUptime(c: Component, vs: seq<IdentityKey>, votes: seq<Vote>): Result<Component, Failure>
    decreases |vs|
  {
    if vs == [] then Ok(c)
    else
      var c1 :- TrackOne(c, vs[0], votes);
      TrackUptime(c1, vs[1..], votes)
  }

  function SlashAll(c: Component, evidence: seq<IdentityKey>): Result<Component, Failure>
    decreases |evidence|
  {
    if evidence == [] then Ok(c)
    else
      var c1 :- SlashValidator(c, evidence[0], c.state.params.slashingPenaltyMisbehaviorBps);
      SlashAll(c1, evidence[1..])
  }

  /** Evidence is given by the identity keys it resolves to. */
  function BeginBlock(c: Component, evidence: seq<IdentityKey>, votes: seq<Vote>): Result<Component, Failure> {
    var c1 :- SlashAll(c, evidence);
    TrackUptime(c1, c1.state.list, votes)
  }

  // ---------------------------------------------------------------------------------------------
  // Transactions
  // ---------------------------------------------------------------------------------------------

  predicate StatelessOk(tx: Transaction) {
    var us := UndelegationsOf(tx.actions);
    && (forall i, j :: 0 <= i < |us| && 0 <= j < |us| ==> us[i].validatorIdentity == us[j].validatorIdentity)
    && (us != [] ==> forall i :: 0 <= i < |tx.actions| ==>
                       var a := tx.actions[i]; a.Undelegation? || a.Delegation? || a.Spend? || a.Output?)
    && (forall i :: 0 <= i < |DefinitionsOf(tx.actions)| ==>
          var d := DefinitionsOf(tx.actions)[i]; d.signed && CommissionBps(d.validator.fundingStreams) <= BPS)
  }

  predicate DelegationOk(s: State, d: Delegate) {
    && d.validatorIdentity in s.entries
    && var e := s.entries[d.validatorIdentity];
       && d.epochIndex == e.next.epochIndex
       && !e.state.Slashed?
       && e.next.DelegationAmount(d.unbondedAmount) == Ok(d.delegationAmount)
       && d.delegationAmount < I64
  }

  predicate UndelegationOk(s: State, u: Undelegate) {
    && u.validatorIdentity in s.entries
    && var e := s.entries[u.validatorIdentity];
       && u.epochIndex == e.next.epochIndex
       && e.next.UnbondedAmount(u.delegationAmount) == Ok(u.unbondedAmount)
       && u.delegationAmount < I64
  }

  predicate DefinitionOk(s: State, d: Definition) {
    var id := d.validator.identityKey;
    id in s.entries ==> s.entries[id].definition.sequenceNumber < d.validator.sequenceNumber
  }

  /** The per-validator tally that the check keeps stays in 64 bits at each of its steps. */
  predicate TallyFits(ds: seq<Delegate>, us: seq<Undelegate>) {
    && (forall n, v :: 0 <= n <= |ds| && v in Named(ds, us) ==> Delegated(ds[..n], v) < I64)
    && (forall n, v :: 0 <= n <= |us| && v in Named(ds, us) ==> -I64 <= Delegated(ds, v) - Undelegated(us[..n], v))
  }

  lemma OneDelegationTallies(d: Delegate)
    requires d.delegationAmount < I64
    ensures TallyFits([d], [])
  {
    assert [d][..0] == [] && [d][..1] == [d];
    forall n, v | 0 <= n <= 1
      ensures Delegated([d][..n], v) < I64
    {}
    var none: seq<Undelegate> := [];
    assert none[..0] == [];
  }

  lemma OneUndelegationTallies(u: Undelegate)
    requires u.delegationAmount < I64
    ensures TallyFits([], [u])
  {
    assert [u][..0] == [] && [u][..1] == [u];
    forall n, v | 0 <= n <= 1
      ensures Undelegated([u][..n], v) < I64
    {}
    var none: seq<Delegate> := [];
    assert none[..0] == [];
  }

  lemma DelegatedPrefix(ds: seq<Delegate>, n: nat, v: IdentityKey)
    requires n <= |ds|
    ensures Delegated(ds[..n], v) <= Delegated(ds, v)
  {
    assert ds == ds[..n] + ds[n..];
    DelegatedAppend(ds[..n], ds[n..], v);
  }

  lemma UndelegatedPrefix(us: seq<Undelegate>, n: nat, v: IdentityKey)
    requires n <= |us|
    ensures Undelegated(us[..n], v) <= Undelegated(us, v)
  {
    assert us == us[..n] + us[n..];
    UndelegatedAppend(us[..n], us[n..], v);
  }

  /** As amounts are not negative, the tally fits at each step if and only if the totals fit. */
  lemma TallyFitsIff(ds: seq<Delegate>, us: seq<Undelegate>)
    ensures TallyFits(ds, us) <==> forall v :: v in Named(ds, us) ==>
              Delegated(ds, v) < I64 && -I64 <= Delegated(ds, v) - Undelegated(us, v)
  {
    hide Delegated, Undelegated, Named;
    assert ds[..|ds|] == ds && us[..|us|] == us;
    forall v, n | 0 <= n <= |ds|
      ensures Delegated(ds[..n], v) <= Delegated(ds, v)
    {
      DelegatedPrefix(ds, n, v);
    }
    forall v, n | 0 <= n <= |us|
      ensures Undelegated(us[..n], v) <= Undelegated(us, v)
    {
      UndelegatedPrefix(us, n, v);
    }
  }

  function Named(ds: seq<Delegate>, us: seq<Undelegate>): set<IdentityKey> {
    (set d | d in ds :: d.validatorIdentity) + (set u | u in us :: u.validatorIdentity)
  }

  predicate StatefulOk(s: State, tx: Transaction) {
    var ds, us, defs := DelegationsOf(tx.actions), UndelegationsOf(tx.actions), DefinitionsOf(tx.actions);
    && (forall i :: 0 <= i < |ds| ==> DelegationOk(s, ds[i]))
    && (forall i :: 0 <= i < |us| ==> UndelegationOk(s, us[i]))
    && TallyFits(ds, us)
    && (forall i :: 0 <= i < |defs| ==> DefinitionOk(s, defs[i]))
  }

  function Define(s: State, v: Validator): State
    requires s.params.epochDuration > 0
  {
    if v.identityKey in s.entries then
      s.(entries := s.entries[v.identityKey := s.entries[v.identityKey].(definition := v)])
    else
      AddValidator(s, NewEntry(v, FromHeight(s.height, s.params.epochDuration).index))
  }

  function DefineAll(s: State, defs: seq<Definition>): (r: State)
    requires s.params.epochDuration > 0
    ensures r.params == s.params
  {
    if defs == [] then s else Define(DefineAll(s, defs[..|defs| - 1]), defs[|defs| - 1].validator)
  }

  function ChangesOf(tx: Transaction): DelegationChanges {
    DelegationChanges(DelegationsOf(tx.actions), UndelegationsOf(tx.actions))
  }

  function ExecuteTx(c: Component, tx: Transaction): Component
    requires c.state.params.epochDuration > 0
  {
    Component(DefineAll(c.state, DefinitionsOf(tx.actions)), Append(c.pending, ChangesOf(tx)), c.updates)
  }

  // ---------------------------------------------------------------------------------------------
  // End of epoch: rates, supplies and power of each validator
  // ---------------------------------------------------------------------------------------------

  /** The value of a 64-bit unsigned number reinterpreted as signed. */
  function AsI64(n: nat): int {
    if n < I64 then n else n - U64
  }

  function DelegationDelta(delegated: nat, undelegated: nat): Result<int, Failure> {
    if delegated >= U64 || undelegated >= U64 then Err(Overflow)
    else
      var delta := AsI64(delegated) - AsI64(undelegated);
      if -I64 < delta < I64 then Ok(delta) else Err(Overflow)
  }

  /** Change of the staking token supply recorded for a change of `delta` delegation tokens. */
  function StakingDelta(rate: RateData, delta: int): Result<int, Failure> {
    var unbonded :- rate.UnbondedAmount(if delta >= 0 then delta else -delta);
    var signed := AsI64(unbonded);
    if signed == -I64 then Err(Overflow)
    else Ok(if delta >= 0 then -signed else signed)
  }

  datatype EpochContext = EpochContext(index: nat, changes: DelegationChanges, curBase: BaseRateData,
      nextBase: BaseRateData)

  function Commissions(streams: seq<FundingStream>, amounts: seq<nat>): seq<CommissionAmount>
    requires |streams| == |amounts|
  {
    seq(|streams|, i requires 0 <= i < |streams| => CommissionAmount(amounts[i], streams[i].address))
  }

  lemma RewardsLength(streams: seq<FundingStream>, tokens: nat, base: BaseRateData, prev: BaseRateData)
    requires Rewards(streams, tokens, base, prev).Ok?
    ensures |Rewards(streams, tokens, base, prev).value| == |streams|
  {}

  /** Commissions of one validator for the ending epoch; only Active validators earn any. */
  function CommissionsOf(e: Entry, tokens: nat, ctx: EpochContext): Result<seq<CommissionAmount>, Failure> {
    if !e.state.Active? then Ok([])
    else
      var streams := e.definition.fundingStreams;
      var amounts :- Rewards(streams, tokens, ctx.nextBase, ctx.curBase);
      RewardsLength(streams, tokens, ctx.nextBase, ctx.curBase);
      Ok(Commissions(streams, amounts))
  }

  function ProcessValidator(
    s: State, v: IdentityKey, ctx: EpochContext): Result<(State, seq<CommissionAmount>), Failure> {
    if v !in s.entries then Err(MissingValidator)
    else
      var e := s.entries[v];
      var next :- e.next.Next(ctx.nextBase, e.definition.fundingStreams, e.state);
      if next.epochIndex != ctx.index + 2 then Err(EpochIndexAssert)
      else
        var delta :- DelegationDelta(Delegated(ctx.changes.delegations, v), Undelegated(ctx.changes.undelegations, v));
        var stakingDelta :- StakingDelta(e.next, delta);
        var s1 :- UpdateTokenSupply(s, DelegationToken(v), delta);
        var s2 :- UpdateTokenSupply(s1, StakingToken, stakingDelta);
        var tokens := SupplyOf(s2, DelegationToken(v));
        var power :- e.next.VotingPower(tokens, ctx.curBase);
        if power > MAX_VOTING_POWER then Err(InvalidPower)
        else
          var commissions :- CommissionsOf(e, tokens, ctx);
          Ok((s2.(entries := s2.entries[v := e.(cur := e.next, next := next, power := power)]), commissions))
  }

  function ProcessAll(
    s: State, vs: seq<IdentityKey>, ctx: EpochContext): Result<(State, seq<CommissionAmount>), Failure>
    decreases |vs|
  {
    if vs == [] then Ok((s, []))
    else
      var (s1, first) :- ProcessValidator(s, vs[0], ctx);
      var (s2, rest) :- ProcessAll(s1, vs[1..], ctx);
      Ok((s2, first + rest))
  }

  // ---------------------------------------------------------------------------------------------
  // End of epoch: state transitions
  // ---------------------------------------------------------------------------------------------

  function PowerOf(s: State, v: IdentityKey): VPower
    requires v in s.entries
  {
    VPower(v, s.entries[v].power, s.entries[v].state)
  }

  function PowerList(s: State): seq<VPower>
    requires forall i :: 0 <= i < |s.list| ==> s.list[i] in s.entries
  {
    seq(|s.list|, i requires 0 <= i < |s.list| => PowerOf(s, s.list[i]))
  }

  /** Move an Inactive or Unbonding validator of the top set to Active, with a fresh tracker. */
  function Activate(c: Component, vp: VPower): Result<Component, Failure> {
    var s1 :- SetState(c.state, vp.identityKey, Active);
    var e := s1.entries[vp.identityKey];
    var tracked := e.(uptime := Some(NewUptime(s1.height, s1.params.signedBlocksWindowLen)));
    UpdatePower(c.(state := s1.(entries := s1.entries[vp.identityKey := tracked])), e.definition.consensusKey, vp.power)
  }

  /** Move an Active validator outside the top set to Unbonding, without power. */
  function Displace(c: Component, vp: VPower, epoch: nat): Result<Component, Failure> {
    if vp.identityKey !in c.state.entries then Err(MissingValidator)
    else
      var e := c.state.entries[vp.identityKey].(power := 0);
      var s1 :- SetState(c.state.(entries := c.state.entries[vp.identityKey := e]), vp.identityKey,
                         Unbonding(epoch + c.state.params.unbondingEpochs));
      UpdatePower(c.(state := s1), e.definition.consensusKey, 0)
  }

  function Expire(c: Component, vp: VPower, epoch: nat): Result<Component, Failure> {
    if vp.state.Unbonding? && vp.state.unbondingEpoch <= epoch then
      var s1 :- SetState(c.state, vp.identityKey, Inactive);
      Ok(c.(state := s1))
    else Ok(c)
  }

  function Select(c: Component, vp: VPower, top: seq<IdentityKey>, epoch: nat): Result<Component, Failure> {
    var id := vp.identityKey;
    if vp.state.Inactive? || vp.state.Unbonding? then
      if id in top then Activate(c, vp) else Ok(c)
    else if vp.state.Active? then
      if id !in top then Displace(c, vp, epoch)
      else if id !in c.state.entries then Err(MissingValidator)
      else UpdatePower(c, c.state.entries[id].definition.consensusKey, c.state.entries[id].power)
    else Ok(c)
  }

  function TransitionOne(c: Component, vp: VPower, top: seq<IdentityKey>, epoch: nat): Result<Component, Failure> {
    var c1 :- Select(c, vp, top, epoch);
    Expire(c1, vp, epoch)
  }

  function TransitionAll(c: Component, vps: seq<VPower>, top: seq<IdentityKey>, epoch: nat): Result<Component, Failure>
    decreases |vps|
  {
    if vps == [] then Ok(c)
    else
      var c1 :- TransitionOne(c, vps[0], top, epoch);
      TransitionAll(c1, vps[1..], top, epoch)
  }

  function ProcessEpochTransitions(c: Component, epoch: nat): Result<Component, Failure> {
    if !(forall i :: 0 <= i < |c.state.list| ==> c.state.list[i] in c.state.entries) then Err(MissingValidator)
    else
      var sorted := SortDescending(PowerList(c.state));
      TransitionAll(c, sorted, TopValidators(sorted, c.state.params.activeValidatorLimit), epoch)
  }

  /** The changes of an epoch and the base rates around its end. */
  ghost function ContextAt(s: State, epoch: Epoch): Result<EpochContext, Failure>
    requires epoch.duration > 0
  {
    if !HasAll(s.changes, epoch.StartHeight(), epoch.EndHeight() + 1) then Err(MissingChanges)
    else
      var nextBase :- s.nextBase.Next(s.params.baseRewardRate);
      Ok(EpochContext(epoch.index, Collect(s.changes, epoch.StartHeight(), epoch.EndHeight() + 1),
          s.nextBase, nextBase))
  }

  function RollOver(s: State, ctx: EpochContext): Result<(State, seq<CommissionAmount>), Failure> {
    ProcessAll(s.(curBase := ctx.curBase, nextBase := ctx.nextBase), s.list, ctx)
  }

  ghost function EndEpoch(c: Component, epoch: Epoch): Result<Component, Failure>
    requires epoch.duration > 0
  {
    var ctx :- ContextAt(c.state, epoch);
    var (s, commissions) :- RollOver(c.state, ctx);
    var c1 :- ProcessEpochTransitions(c.(state := s), epoch.index);
    Ok(Component(c1.state.(commissions := c1.state.commissions[c1.state.height := commissions]), NO_CHANGES,
        c1.updates))
  }

  ghost function EndBlock(c: Component, height: nat): Result<Component, Failure>
    requires c.state.params.epochDuration > 0
  {
    var s := c.state.(changes := c.state.changes[height := c.pending]);
    var c1 := Component(s, NO_CHANGES, c.updates);
    var epoch := FromHeight(s.height, s.params.epochDuration);
    if epoch.IsEpochEnd(s.height) then EndEpoch(c1, epoch) else Ok(c1)
  }
}
