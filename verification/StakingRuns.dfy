/** Runs of the staking component, block by block, together with Tendermint's view of the validator set. */
module StakingRuns {
  import opened Prelude
  import opened Rates
  import opened Delegations
  import opened Transactions
  import opened Uptimes
  import opened StakingSpec

  datatype Allocation = Allocation(asset: Asset, amount: nat)

  datatype Genesis = Genesis(params: ChainParams, validators: seq<Validator>, allocations: seq<Allocation>)

  /** Total allocated of one asset at genesis. */
  function Allocated(allocations: seq<Allocation>, asset: Asset): nat {
    if allocations == [] then 0
    else
      var a := allocations[|allocations| - 1];
      Allocated(allocations[..|allocations| - 1], asset) + (if a.asset == asset then a.amount else 0)
  }

  datatype Block = Block(evidence: seq<IdentityKey>, votes: seq<Vote>, txs: seq<Transaction>)

  datatype Chain = Chain(component: Component, tendermint: map<PubKey, nat>)

  /** Tendermint sets or, at power zero, removes each reported validator in turn. */
  function ApplyUpdates(tm: map<PubKey, nat>, us: seq<ValidatorUpdate>): map<PubKey, nat>
    decreases |us|
  {
    if us == [] then tm else ApplyUpdates(ApplyUpdate(tm, us[0]), us[1..])
  }

  function ApplyUpdate(tm: map<PubKey, nat>, u: ValidatorUpdate): map<PubKey, nat> {
    if u.power == 0 then tm - {u.pubKey} else tm[u.pubKey := u.power]
  }

  function DeliverTx(c: Component, tx: Transaction): (r: Component)
    requires c.state.params.epochDuration > 0
    ensures r.state.params == c.state.params
  {
    if StatelessOk(tx) && StatefulOk(c.state, tx) then ExecuteTx(c, tx) else c
  }

  function DeliverAll(c: Component, txs: seq<Transaction>): (r: Component)
    requires c.state.params.epochDuration > 0
    ensures r.state.params == c.state.params
  {
    if txs == [] then c else DeliverTx(DeliverAll(c, txs[..|txs| - 1]), txs[|txs| - 1])
  }

  function Commit(c: Component, tm: map<PubKey, nat>): Chain {
    Chain(Component(c.state, NO_CHANGES, []), ApplyUpdates(tm, c.updates))
  }

  /** The component when the next block begins. */
  function Advanced(ch: Chain): Component {
    ch.component.(state := ch.component.state.(height := ch.component.state.height + 1))
  }

  /** The component after begin_block and all transactions of the block. */
  function BeforeEnd(ch: Chain, b: Block): (r: Result<Component, Failure>)
    ensures r.Ok? ==> r.value.state.params.epochDuration > 0
  {
    var c :- BeginBlock(Advanced(ch), b.evidence, b.votes);
    if c.state.params.epochDuration == 0 then Err(DivisionByZero) else Ok(DeliverAll(c, b.txs))
  }

  /** Total of the commissions. */
  function Amounts(cs: seq<CommissionAmount>): nat {
    if cs == [] then 0 else Amounts(cs[..|cs| - 1]) + cs[|cs| - 1].amount
  }

  function MintCommissions(s: State, cs: seq<CommissionAmount>): Result<State, Failure> {
    if cs == [] then Ok(s)
    else
      var before :- MintCommissions(s, cs[..|cs| - 1]);
      UpdateTokenSupply(before, StakingToken, AsI64(cs[|cs| - 1].amount))
  }

  /** The commissions that end_block of the staking component left for this height. */
  function CommissionsNow(s: State): seq<CommissionAmount> {
    if s.height in s.commissions then s.commissions[s.height] else []
  }

  /**
   The shielded pool's share of end_block, as far as supplies go: it runs after the
   staking component's and mints the commissions left for this height.
   */
  function MintRewards(s: State): Result<State, Failure> {
    MintCommissions(s, CommissionsNow(s))
  }

  /** One block: begin_block, the transactions, and end_block of staking and then of the pool. */
  ghost function RunBlock(ch: Chain, b: Block): Result<Chain, Failure> {
    var c1 :- BeforeEnd(ch, b);
    var c2 :- EndBlock(c1, c1.state.height);
    var s :- MintRewards(c2.state);
    Ok(Commit(c2.(state := s), ch.tendermint))
  }

  ghost function RunBlocks(ch: Chain, bs: seq<Block>): Result<Chain, Failure> {
    if bs == [] then Ok(ch)
    else
      var before :- RunBlocks(ch, bs[..|bs| - 1]);
      RunBlock(before, bs[|bs| - 1])
  }

  // ---------------------------------------------------------------------------------------------
  // Genesis
  // ---------------------------------------------------------------------------------------------

  /** A genesis validator: Active from the start, with power for its allocated delegation tokens. */
  function GenesisEntry(v: Validator, power: nat, window: nat): Entry {
    var id := v.identityKey;
    Entry(v, Active, power, RateData(id, 0, 0, SCALE), RateData(id, 1, 0, SCALE), Some(NewUptime(0, window)))
  }

  function InitValidator(c: Component, v: Validator, allocations: seq<Allocation>): Result<Component, Failure> {
    var rate := RateData(v.identityKey, 0, 0, SCALE);
    var power :- rate.VotingPower(Allocated(allocations, DelegationToken(v.identityKey)), c.state.curBase);
    var c1 :- UpdatePower(c, v.consensusKey, power);
    if power > MAX_VOTING_POWER then Err(InvalidPower)
    else Ok(c1.(state := AddValidator(c1.state, GenesisEntry(v, power, c.state.params.signedBlocksWindowLen))))
  }

  function InitValidators(c: Component, vs: seq<Validator>, allocations: seq<Allocation>): Result<Component, Failure> {
    if vs == [] then Ok(c)
    else
      var before :- InitValidators(c, vs[..|vs| - 1], allocations);
      InitValidator(before, vs[|vs| - 1], allocations)
  }

  function EmptyState(params: ChainParams): State {
    State(params, 0, BaseRateData(0, 0, SCALE), BaseRateData(1, 0, SCALE), [], map[], map[], map[], map[])
  }

  /** The staking component's share of genesis. */
  function InitChain(g: Genesis): Result<Component, Failure> {
    var c :- InitValidators(Component(EmptyState(g.params), NO_CHANGES, []), g.validators, g.allocations);
    Ok(c.(state := c.state.(changes := map[0 := NO_CHANGES])))
  }

  /** The shielded pool's share of genesis, as far as supplies go: every allocation is minted, and none may be empty. */
  function MintAll(s: State, allocations: seq<Allocation>): Result<State, Failure> {
    if allocations == [] then Ok(s)
    else
      var a := allocations[|allocations| - 1];
      var before :- MintAll(s, allocations[..|allocations| - 1]);
      if a.amount == 0 then Err(EmptyAllocation) else UpdateTokenSupply(before, a.asset, AsI64(a.amount))
  }

  function Start(g: Genesis): Result<Chain, Failure> {
    var c :- InitChain(g);
    var s :- MintAll(c.state, g.allocations);
    Ok(Commit(c.(state := s), map[]))
  }
}
