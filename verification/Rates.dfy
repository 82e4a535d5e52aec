/**
 Reward and exchange rates of validators and of the base unit
 (stake/src/rate.rs, stake/src/funding_stream.rs). Rates are fixed-point
 numbers scaled by 1e8; an intermediate that leaves its machine width is the
 failure `Overflow`.
 */
module Rates {
  import opened Prelude

  const SCALE := 1_0000_0000
  const BPS := 1_0000

  type IdentityKey = nat
  type Address = nat

  datatype Failure =
    | Overflow
    | SupplyUnderflow
    | SupplyOverflow
    | InvalidPower
    | CommissionOver100
    | WrongPreviousEpoch
    | EpochIndexAssert
    | MissingChanges
    | MissingValidator
    | MissingUptime
    | UptimeHeight
    | EmptyWindow
    | DivisionByZero
    | BadTransition
    | EmptyAllocation
    | Rejected

  datatype ValidatorState = Inactive | Active | Unbonding(unbondingEpoch: nat) | Slashed

  datatype FundingStream = FundingStream(address: Address, rateBps: nat)

  datatype BaseRateData = BaseRateData(epochIndex: nat, rewardRate: nat, exchangeRate: nat) {
    function Next(baseRewardRate: nat): (r: Result<BaseRateData, Failure>)
    {
      var product := exchangeRate * (baseRewardRate + SCALE);
      if baseRewardRate + SCALE >= U64 || product >= U64 then Err(Overflow)
      else Ok(BaseRateData(epochIndex + 1, baseRewardRate, product / SCALE))
    }
  }

  /** Sum of the commission rates, as accumulated in 64 bits. */
  function CommissionBps(streams: seq<FundingStream>): nat {
    if streams == [] then 0
    else CommissionBps(streams[..|streams| - 1]) + streams[|streams| - 1].rateBps
  }

  datatype RateData = RateData(identityKey: IdentityKey, epochIndex: nat, rewardRate: nat, exchangeRate: nat) {

    function Next(base: BaseRateData, streams: seq<FundingStream>, state: ValidatorState): Result<RateData, Failure> {
      if state != Active then Ok(this.(epochIndex := epochIndex + 1))
      else
        var commission := CommissionBps(streams);
        if commission > BPS then Err(CommissionOver100)
        else
          var scaled := (SCALE - commission * BPS) * base.rewardRate;
          var reward := scaled / SCALE;
          var product := exchangeRate * (reward + SCALE);
          if scaled >= U64 || reward + SCALE >= U64 || product >= U64 then Err(Overflow)
          else Ok(RateData(identityKey, epochIndex + 1, reward, product / SCALE))
    }

    function DelegationAmount(unbonded: nat): Result<nat, Failure> {
      if exchangeRate == 0 then Err(DivisionByZero)
      else if unbonded * SCALE / exchangeRate >= U64 then Err(Overflow)
      else Ok(unbonded * SCALE / exchangeRate)
    }

    function UnbondedAmount(delegated: nat): Result<nat, Failure> {
      if delegated * exchangeRate / SCALE >= U64 then Err(Overflow)
      else Ok(delegated * exchangeRate / SCALE)
    }

    function Slash(penaltyBps: nat): Result<RateData, Failure> {
      if exchangeRate * penaltyBps >= U64 then Err(Overflow)
      else
        var cut := exchangeRate * penaltyBps / BPS;
        Ok(this.(exchangeRate := if cut <= exchangeRate then exchangeRate - cut else 0))
    }

    function VotingPower(delegationTokens: nat, base: BaseRateData): Result<nat, Failure> {
      if base.exchangeRate == 0 then Err(DivisionByZero)
      else if delegationTokens * exchangeRate / base.exchangeRate >= U64 then Err(Overflow)
      else Ok(delegationTokens * exchangeRate / base.exchangeRate)
    }
  }

  /** One stream's commission for the epoch of `base`; the last cast keeps the low 64 bits. */
  function RewardAmount(
    stream: FundingStream, tokens: nat, base: BaseRateData, prev: BaseRateData): Result<nat, Failure> {
    if prev.epochIndex != base.epochIndex - 1 then Err(WrongPreviousEpoch)
    else
      var r1 := tokens * (stream.rateBps * BPS) / SCALE;
      var r2 := r1 * base.rewardRate / SCALE;
      var r3 := r2 * prev.exchangeRate / SCALE;
      if tokens * (stream.rateBps * BPS) >= U128 || r1 * base.rewardRate >= U128 || r2 * prev.exchangeRate >= U128
      then Err(Overflow)
      else Ok(r3 % U64)
  }

  /** What a stream earns exactly, times `SCALE` cubed. */
  function Earned(stream: FundingStream, tokens: nat, base: BaseRateData, prev: BaseRateData): nat {
    tokens * (stream.rateBps * BPS) * base.rewardRate * prev.exchangeRate
  }

  /** What the three floors of one commission can lose, times `SCALE` cubed. */
  function Slack(base: BaseRateData, prev: BaseRateData): nat {
    SCALE * (base.rewardRate * prev.exchangeRate) + SCALE * SCALE * prev.exchangeRate + SCALE * SCALE * SCALE
  }

  /** The commission before its last cast, which keeps 64 bits. */
  function Uncast(stream: FundingStream, tokens: nat, base: BaseRateData, prev: BaseRateData): nat {
    tokens * (stream.rateBps * BPS) / SCALE * base.rewardRate / SCALE * prev.exchangeRate / SCALE
  }

  /** Commissions of all streams of one validator, in order. */
  function Rewards(
    streams: seq<FundingStream>, tokens: nat, base: BaseRateData, prev: BaseRateData): Result<seq<nat>, Failure> {
    if streams == [] then Ok([])
    else
      var init :- Rewards(streams[..|streams| - 1], tokens, base, prev);
      var last :- RewardAmount(streams[|streams| - 1], tokens, base, prev);
      Ok(init + [last])
  }

  function Sum(s: seq<nat>): nat {
    if s == [] then 0 else Sum(s[..|s| - 1]) + s[|s| - 1]
  }

  // ---------------------------------------------------------------------------------------------
  // Rates stay ordered
  // ---------------------------------------------------------------------------------------------

  /** The base rate never falls. */
  lemma BaseNeverFalls(b: BaseRateData, reward: nat)
    requires b.Next(reward).Ok?
    ensures b.exchangeRate <= b.Next(reward).value.exchangeRate
    ensures b.Next(reward).value.epochIndex == b.epochIndex + 1
  {
    assert b.exchangeRate * (reward + SCALE) >= b.exchangeRate * SCALE by {
      MulMono(SCALE, reward + SCALE, b.exchangeRate);
    }
  }

  /** A validator's rate never falls in an epoch transition, and never overtakes the base rate. */
  lemma NextStaysBelowBase(
    rate: RateData, base: BaseRateData, reward: nat, streams: seq<FundingStream>, state: ValidatorState)
    requires rate.exchangeRate <= base.exchangeRate
    requires base.Next(reward).Ok? && rate.Next(base.Next(reward).value, streams, state).Ok?
    ensures rate.exchangeRate <= rate.Next(base.Next(reward).value, streams, state).value.exchangeRate
            <= base.Next(reward).value.exchangeRate
  {
    BaseNeverFalls(base, reward);
    if state == Active {
      var factor := (SCALE - CommissionBps(streams) * BPS) * reward / SCALE;
      assert factor <= reward by { MulMono(SCALE - CommissionBps(streams) * BPS, SCALE, reward); }
      MulMono(SCALE, factor + SCALE, rate.exchangeRate);
      MulMono(rate.exchangeRate, base.exchangeRate, factor + SCALE);
      MulMono(factor + SCALE, reward + SCALE, base.exchangeRate);
    }
  }

  /** The base rate grows by its reward rate, rounded down. */
  lemma BaseGrows(b: BaseRateData, reward: nat)
    requires b.Next(reward).Ok?
    ensures var next := b.Next(reward).value;
            && SCALE * next.exchangeRate <= b.exchangeRate * (SCALE + reward) < SCALE * (next.exchangeRate + 1)
            && next.rewardRate == reward
  {}

  /** What commissions leave of the base reward, times `SCALE`. */
  function Share(base: BaseRateData, streams: seq<FundingStream>): int {
    Kept(streams) * base.rewardRate
  }

  /**
   The rate of an Active validator grows by its share of the base reward, short of it by less
   than two roundings; any other rate stands still.
   */
  ghost predicate Grown(
    rate: RateData, next: RateData, base: BaseRateData, streams: seq<FundingStream>, state: ValidatorState) {
    var (e, share) := (rate.exchangeRate, Share(base, streams));
    && next.identityKey == rate.identityKey && next.epochIndex == rate.epochIndex + 1
    && (state != Active ==> next.exchangeRate == e && next.rewardRate == rate.rewardRate)
    && (state == Active ==>
          && Kept(streams) >= 0
          && SCALE * next.rewardRate <= share < SCALE * (next.rewardRate + 1)
          && share * e - SCALE * e - SCALE * SCALE < SCALE * SCALE * (next.exchangeRate - e) <= share * e)
  }

  lemma NextGrows(rate: RateData, base: BaseRateData, streams: seq<FundingStream>, state: ValidatorState)
    requires rate.Next(base, streams, state).Ok?
    ensures Grown(rate, rate.Next(base, streams, state).value, base, streams, state)
  {
    if state == Active {
      var next := rate.Next(base, streams, state).value;
      GrowthBound(rate.exchangeRate, next.rewardRate, next.exchangeRate - rate.exchangeRate, Kept(streams),
          base.rewardRate, rate.exchangeRate);
      GrowthFloor(rate.exchangeRate, next.rewardRate, next.exchangeRate - rate.exchangeRate, Kept(streams),
          base.rewardRate);
    }
  }

  /** The part of rewards that commissions leave, scaled. */
  function Kept(streams: seq<FundingStream>): int {
    SCALE - CommissionBps(streams) * BPS
  }

  lemma GrowthFloor(e: nat, reward: nat, grown: int, keep: nat, r: nat)
    requires reward == keep * r / SCALE && grown == e * (reward + SCALE) / SCALE - e
    ensures keep * r * e - SCALE * e - SCALE * SCALE < SCALE * SCALE * grown
  {
    assert e * (reward + SCALE) == e * reward + SCALE * e;
    assert e * reward < SCALE * (grown + 1);
    MulMono(keep * r, SCALE * reward + SCALE, e);
    assert (SCALE * reward + SCALE) * e == SCALE * (e * reward) + SCALE * e;
  }

  /** A penalty in basis points leaves the rest of the rate, rounded up; one of 100% or more leaves nothing. */
  ghost predicate Cut(e: nat, f: nat, penalty: nat) {
    && (penalty <= BPS ==> e * (BPS - penalty) <= BPS * f < e * (BPS - penalty) + BPS)
    && (penalty >= BPS ==> f == 0)
  }

  lemma SlashCuts(rate: RateData, penalty: nat)
    requires rate.Slash(penalty).Ok?
    ensures var f := rate.Slash(penalty).value.exchangeRate;
            rate.Slash(penalty).value == rate.(exchangeRate := f) && Cut(rate.exchangeRate, f, penalty)
  {
    var e := rate.exchangeRate;
    var cut := e * penalty / BPS;
    if penalty <= BPS {
      MulMono(penalty, BPS, e);
      assert e * (BPS - penalty) == e * BPS - e * penalty;
    } else {
      MulMono(BPS, penalty, e);
    }
  }

  /** Voting power is the supply in units of the base rate, rounded down. */
  lemma VotingPowerIsShare(rate: RateData, base: BaseRateData, tokens: nat)
    requires rate.VotingPower(tokens, base).Ok?
    ensures IsShare(rate.VotingPower(tokens, base).value, tokens, rate.exchangeRate, base.exchangeRate)
  {
    var x, d := tokens * rate.exchangeRate, base.exchangeRate;
    assert x / d * d + x % d == x;
    assert (x / d + 1) * d == x / d * d + d;
  }

  predicate IsShare(power: nat, tokens: nat, rate: nat, base: nat) {
    power * base <= tokens * rate < (power + 1) * base
  }

  /** A rate not above the base rate turns a 64-bit supply into a voting power that fits, and is at most the supply. */
  lemma VotingPowerAtMostSupply(rate: RateData, base: BaseRateData, tokens: nat)
    requires 0 < base.exchangeRate && rate.exchangeRate <= base.exchangeRate && tokens < U64
    ensures rate.VotingPower(tokens, base).Ok? && rate.VotingPower(tokens, base).value <= tokens
  {
    MulMono(rate.exchangeRate, base.exchangeRate, tokens);
    DivAtMost(tokens * rate.exchangeRate, tokens, base.exchangeRate);
  }

  lemma DivAtMost(x: nat, q: nat, d: nat)
    requires d > 0 && x <= q * d
    ensures x / d <= q
  {
    assert x / d * d <= x && (q + 1) * d == q * d + d;
    if q + 1 <= x / d {
      MulMono(q + 1, x / d, d);
      assert false;
    }
  }

  // ---------------------------------------------------------------------------------------------
  // Issuance
  // ---------------------------------------------------------------------------------------------

  /** Three nested floors lose less than the slack. */
  lemma UncastBound(stream: FundingStream, tokens: nat, base: BaseRateData, prev: BaseRateData)
    ensures var exact := Earned(stream, tokens, base, prev);
            exact - Slack(base, prev) < SCALE * SCALE * SCALE * Uncast(stream, tokens, base, prev) <= exact
  {
    var x := tokens * (stream.rateBps * BPS);
    var r1 := x / SCALE;
    var r2 := r1 * base.rewardRate / SCALE;
    var r3 := r2 * prev.exchangeRate / SCALE;
    FloorOnce(SCALE, r1, x, base.rewardRate, r2);
    FloorOnce(SCALE * SCALE, r2, x * base.rewardRate, prev.exchangeRate, r3);
    FloorLoses(SCALE, r1, x, SCALE, base.rewardRate, r2);
    FloorLoses(SCALE * SCALE, r2, x * base.rewardRate, SCALE * base.rewardRate + SCALE * SCALE, prev.exchangeRate, r3);
    Expand(SCALE, base.rewardRate, SCALE * SCALE, prev.exchangeRate);
  }

  lemma Expand(a: nat, b: nat, c: nat, d: nat)
    ensures (a * b + c) * d == a * (b * d) + c * d
  {}

  /** A commission never exceeds what the stream earned. */
  lemma OneRewardBound(stream: FundingStream, tokens: nat, base: BaseRateData, prev: BaseRateData)
    requires RewardAmount(stream, tokens, base, prev).Ok?
    ensures SCALE * SCALE * SCALE * RewardAmount(stream, tokens, base, prev).value
            <= Earned(stream, tokens, base, prev)
  {
    UncastBound(stream, tokens, base, prev);
    var r := Uncast(stream, tokens, base, prev);
    MulMono(r % U64, r, SCALE * SCALE * SCALE);
  }

  /** The base rates before and after an epoch fit 64 bits, so what the floors lose is less than 2^64 tokens. */
  lemma SlackIsSmall(base: BaseRateData, prev: BaseRateData)
    requires prev.Next(base.rewardRate).Ok?
    ensures Slack(base, prev) < SCALE * SCALE * SCALE * U64
  {
    var e, r := prev.exchangeRate, base.rewardRate;
    assert e * (r + SCALE) == r * e + SCALE * e;
    assert r * e >= 0;
  }

  /**
   A commission is what the stream earned, less the slack of three floors, if and only if
   the last cast loses nothing.
   */
  lemma RewardExactIff(stream: FundingStream, tokens: nat, base: BaseRateData, prev: BaseRateData)
    requires RewardAmount(stream, tokens, base, prev).Ok? && prev.Next(base.rewardRate).Ok?
    ensures Earned(stream, tokens, base, prev) - Slack(base, prev)
            < SCALE * SCALE * SCALE * RewardAmount(stream, tokens, base, prev).value
            <==> Uncast(stream, tokens, base, prev) < U64
  {
    UncastBound(stream, tokens, base, prev);
    SlackIsSmall(base, prev);
    var r := Uncast(stream, tokens, base, prev);
    hide Earned, Slack, Uncast, BaseRateData.Next;
    if r >= U64 {
      assert r % U64 <= r - U64;
      MulMono(r % U64, r - U64, SCALE * SCALE * SCALE);
    }
  }

  /** At a reward rate of 200%, a stream of 100% on 2^64 - 1 tokens is paid 2^64 - 2, not twice its tokens. */
  lemma RewardCutExample()
    ensures var (base, prev) := (BaseRateData(1, 2 * SCALE, SCALE), BaseRateData(0, 0, SCALE));
            && prev.Next(base.rewardRate).Ok?
            && RewardAmount(FundingStream(0, BPS), U64 - 1, base, prev) == Ok(U64 - 2)
            && Uncast(FundingStream(0, BPS), U64 - 1, base, prev) == 2 * (U64 - 1)
  {}

  /** A floor after a product, from below: a loss of `loss` in the factor becomes at most this loss in the quotient. */
  lemma FloorLoses(scale: nat, r: nat, x: nat, loss: nat, factor: nat, quotient: nat)
    requires x - loss < scale * r && quotient == r * factor / SCALE && scale > 0
    ensures x * factor - (loss * factor + scale * SCALE) < scale * SCALE * quotient
  {
    MulMono(x, scale * r + loss, factor);
    assert (scale * r + loss) * factor == scale * r * factor + loss * factor;
    Associates(scale, r, factor);
    Associates(scale, SCALE, quotient);
    assert r * factor < SCALE * quotient + SCALE;
    assert scale * (r * factor) < scale * (SCALE * quotient + SCALE) by {
      Less(r * factor, SCALE * quotient + SCALE, scale);
    }
    assert scale * (SCALE * quotient + SCALE) == scale * (SCALE * quotient) + scale * SCALE;
  }

  lemma Less(x: nat, y: nat, z: nat)
    requires x < y && z > 0
    ensures z * x < z * y
  {}

  /** A floor after a product: what bounds the factor, times the other factor, bounds the quotient. */
  lemma FloorOnce(scale: nat, r: nat, x: nat, factor: nat, quotient: nat)
    requires scale * r <= x && quotient == r * factor / SCALE
    ensures scale * SCALE * quotient <= x * factor
  {
    MulMono(scale * r, x, factor);
    MulMono(SCALE * quotient, r * factor, scale);
    Associates(scale, r, factor);
    Associates(scale, SCALE, quotient);
  }

  lemma Associates(a: nat, b: nat, c: nat)
    ensures a * (b * c) == a * b * c
  {}

  lemma {:induction false} RewardsBound(
    streams: seq<FundingStream>, tokens: nat, base: BaseRateData, prev: BaseRateData)
    requires Rewards(streams, tokens, base, prev).Ok?
    ensures SCALE * SCALE * SCALE * Sum(Rewards(streams, tokens, base, prev).value)
            <= tokens * (CommissionBps(streams) * BPS) * base.rewardRate * prev.exchangeRate
  {
    if streams != [] {
      var init, last := streams[..|streams| - 1], streams[|streams| - 1];
      RewardsBound(init, tokens, base, prev);
      OneRewardBound(last, tokens, base, prev);
      var rs := Rewards(streams, tokens, base, prev).value;
      assert rs[..|rs| - 1] == Rewards(init, tokens, base, prev).value;
      Distribute(tokens, CommissionBps(init) * BPS, last.rateBps * BPS, base.rewardRate, prev.exchangeRate);
    }
  }

  lemma Distribute(t: nat, a: nat, b: nat, r: nat, e: nat)
    ensures t * (a + b) * r * e == t * a * r * e + t * b * r * e
  {
    calc {
      t * (a + b) * r * e;
      (t * a + t * b) * r * e;
      (t * a * r + t * b * r) * e;
      t * a * r * e + t * b * r * e;
    }
  }

  /**
   What one Active validator's pool earns in an epoch, commission plus growth
   of its exchange rate, is at most the base reward on its tokens: no split
   into streams and no rounding issues more.
   */
  lemma IssuanceBound(rate: RateData, streams: seq<FundingStream>, tokens: nat, base: BaseRateData, prev: BaseRateData)
    requires rate.exchangeRate <= prev.exchangeRate
    requires rate.Next(base, streams, Active).Ok? && Rewards(streams, tokens, base, prev).Ok?
    ensures SCALE * (SCALE * Sum(Rewards(streams, tokens, base, prev).value)
                     + tokens * (rate.Next(base, streams, Active).value.exchangeRate - rate.exchangeRate))
            <= tokens * prev.exchangeRate * base.rewardRate
  {
    var c := CommissionBps(streams) * BPS;
    var reward := (SCALE - c) * base.rewardRate / SCALE;
    var grown := rate.Next(base, streams, Active).value.exchangeRate - rate.exchangeRate;
    RewardsBound(streams, tokens, base, prev);
    GrowthBound(rate.exchangeRate, reward, grown, SCALE - c, base.rewardRate, prev.exchangeRate);
    SplitReward(Sum(Rewards(streams, tokens, base, prev).value), grown, c, tokens, base.rewardRate, prev.exchangeRate);
  }

  lemma SplitReward(paid: nat, grown: nat, c: nat, t: nat, r: nat, e: nat)
    requires c <= SCALE
    requires SCALE * SCALE * SCALE * paid <= t * c * r * e
    requires SCALE * SCALE * grown <= (SCALE - c) * r * e
    ensures SCALE * (SCALE * paid + t * grown) <= t * e * r
  {
    MulMono(SCALE * SCALE * grown, (SCALE - c) * r * e, t);
    assert t * (SCALE * SCALE * grown) == SCALE * SCALE * (t * grown);
    assert t * ((SCALE - c) * r * e) == t * (SCALE - c) * r * e;
    Distribute(t, c, SCALE - c, r, e);
    assert t * SCALE * r * e == SCALE * (t * e * r);
  }

  lemma GrowthBound(ex: nat, reward: nat, grown: int, keep: nat, r: nat, e: nat)
    requires ex <= e && reward == keep * r / SCALE
    requires grown == ex * (reward + SCALE) / SCALE - ex
    ensures 0 <= grown && SCALE * SCALE * grown <= keep * r * e
  {
    assert ex * (reward + SCALE) == ex * reward + ex * SCALE;
    assert SCALE * grown <= ex * reward;
    MulMono(ex, e, reward);
    MulMono(SCALE * reward, keep * r, e);
    assert SCALE * (e * reward) == (SCALE * reward) * e;
    assert 0 <= ex * reward;
  }
}
