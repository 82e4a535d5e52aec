/**
 What a whole epoch issues: commissions, to whom, and growth of the delegation pools, over all
 Active validators.
 */
module StakingIssuance {
  import opened Prelude
  import opened Rates
  import opened Epochs
  import opened StakingSpec
  import opened StakingRuns
  import opened EpochTransitions
  import opened StakingInvariant
  import opened StakingSafety
  import opened StakingConservation
  import opened StakingRates

  lemma {:induction false} AmountsAppend(a: seq<CommissionAmount>, b: seq<CommissionAmount>)
    ensures Amounts(a + b) == Amounts(a) + Amounts(b)
  {
    if b == [] {
      assert a + b == a;
    } else {
      AmountsAppend(a, b[..|b| - 1]);
      assert (a + b)[..|a + b| - 1] == a + b[..|b| - 1];
    }
  }

  // ---------------------------------------------------------------------------------------------
  // Commissions
  // ---------------------------------------------------------------------------------------------

  /** A stream's claim on the epoch that ends: a commission on the validator's tokens. */
  datatype Claim = Claim(stream: FundingStream, tokens: nat)

  /**
   The claim is paid to the stream's address, never more than it earned, and less by no more
   than the rounding unless the amount was cut to 64 bits.
   */
  ghost predicate Pays(c: CommissionAmount, claim: Claim, base: BaseRateData, prev: BaseRateData) {
    var exact := Earned(claim.stream, claim.tokens, base, prev);
    && c.destination == claim.stream.address
    && SCALE * SCALE * SCALE * c.amount <= exact
    && (Uncast(claim.stream, claim.tokens, base, prev) < U64 ==>
          exact - Slack(base, prev) < SCALE * SCALE * SCALE * c.amount)
  }

  ghost predicate PaysAll(cs: seq<CommissionAmount>, claims: seq<Claim>, base: BaseRateData, prev: BaseRateData) {
    |cs| == |claims| && forall i :: 0 <= i < |cs| ==> Pays(cs[i], claims[i], base, prev)
  }

  function ClaimsOn(streams: seq<FundingStream>, tokens: nat): seq<Claim> {
    seq(|streams|, i requires 0 <= i < |streams| => Claim(streams[i], tokens))
  }

  lemma {:induction false} RewardsPay(streams: seq<FundingStream>, tokens: nat, base: BaseRateData, prev: BaseRateData)
    requires Rewards(streams, tokens, base, prev).Ok? && prev.Next(base.rewardRate).Ok?
    ensures var amounts := Rewards(streams, tokens, base, prev).value;
            && |amounts| == |streams|
            && PaysAll(Commissions(streams, amounts), ClaimsOn(streams, tokens), base, prev)
  {
    if streams != [] {
      var n := |streams| - 1;
      var amounts := Rewards(streams, tokens, base, prev).value;
      RewardsPay(streams[..n], tokens, base, prev);
      OnePays(streams[n], tokens, base, prev);
      hide Pays, RewardAmount;
      assert amounts[..n] == Rewards(streams[..n], tokens, base, prev).value;
      forall i | 0 <= i < n
        ensures Pays(CommissionAmount(amounts[i], streams[i].address), Claim(streams[i], tokens), base, prev)
      {
        assert Commissions(streams[..n], amounts[..n])[i] == CommissionAmount(amounts[i], streams[i].address);
        assert ClaimsOn(streams[..n], tokens)[i] == Claim(streams[i], tokens);
      }
    }
  }

  lemma OnePays(stream: FundingStream, tokens: nat, base: BaseRateData, prev: BaseRateData)
    requires RewardAmount(stream, tokens, base, prev).Ok? && prev.Next(base.rewardRate).Ok?
    ensures Pays(CommissionAmount(RewardAmount(stream, tokens, base, prev).value, stream.address),
            Claim(stream, tokens), base, prev)
  {
    OneRewardBound(stream, tokens, base, prev);
    RewardExactIff(stream, tokens, base, prev);
  }

  /** No commission is cut to 64 bits. */
  ghost predicate Uncut(claims: seq<Claim>, base: BaseRateData, prev: BaseRateData) {
    forall i :: 0 <= i < |claims| ==> Uncast(claims[i].stream, claims[i].tokens, base, prev) < U64
  }

  ghost function TotalEarned(claims: seq<Claim>, base: BaseRateData, prev: BaseRateData): nat {
    if claims == [] then 0
    else
      var last := claims[|claims| - 1];
      TotalEarned(claims[..|claims| - 1], base, prev) + Earned(last.stream, last.tokens, base, prev)
  }

  /** Together, too, commissions are what was earned, less the rounding of each. */
  lemma {:induction false} TotalPaid(
    cs: seq<CommissionAmount>, claims: seq<Claim>, base: BaseRateData, prev: BaseRateData)
    requires PaysAll(cs, claims, base, prev)
    ensures SCALE * SCALE * SCALE * Amounts(cs) <= TotalEarned(claims, base, prev)
    ensures Uncut(claims, base, prev) ==>
              TotalEarned(claims, base, prev) - |claims| * Slack(base, prev) <= SCALE * SCALE * SCALE * Amounts(cs)
  {
    if cs != [] {
      var n := |cs| - 1;
      assert Pays(cs[n], claims[n], base, prev);
      hide Slack, Earned, Uncast;
      TotalPaid(cs[..n], claims[..n], base, prev);
      assert Uncut(claims, base, prev) ==> Uncut(claims[..n], base, prev);
      assert |claims| * Slack(base, prev) == n * Slack(base, prev) + Slack(base, prev);
    }
  }

  /** The streams of one validator earn its commission rate's share of the base reward. */
  lemma {:induction false} TotalOfStreams(
    streams: seq<FundingStream>, tokens: nat, base: BaseRateData, prev: BaseRateData)
    ensures TotalEarned(ClaimsOn(streams, tokens), base, prev)
            == tokens * (CommissionBps(streams) * BPS) * base.rewardRate * prev.exchangeRate
  {
    if streams != [] {
      var n := |streams| - 1;
      TotalOfStreams(streams[..n], tokens, base, prev);
      assert ClaimsOn(streams, tokens)[..n] == ClaimsOn(streams[..n], tokens);
      Distribute(tokens, CommissionBps(streams[..n]) * BPS, streams[n].rateBps * BPS, base.rewardRate,
          prev.exchangeRate);
    }
  }

  // ---------------------------------------------------------------------------------------------
  // One validator
  // ---------------------------------------------------------------------------------------------

  /** What one validator's pool earns in commissions and growth, from below. */
  lemma IssuanceFloor(rate: RateData, next: RateData, streams: seq<FundingStream>, tokens: nat, paid: nat,
    base: BaseRateData, prev: BaseRateData)
    requires rate.exchangeRate <= prev.exchangeRate && Grown(rate, next, base, streams, Active)
    requires TotalEarned(ClaimsOn(streams, tokens), base, prev) - |streams| * Slack(base, prev)
             <= SCALE * SCALE * SCALE * paid
    ensures var (e, r) := (rate.exchangeRate, base.rewardRate);
            SCALE * (tokens * e * r) - |streams| * Slack(base, prev) - tokens * (SCALE * e + SCALE * SCALE)
            <= SCALE * SCALE * (SCALE * paid + tokens * (next.exchangeRate - e))
  {
    TotalOfStreams(streams, tokens, base, prev);
    hide Slack, TotalEarned, CommissionBps;
    JoinFloors(tokens, CommissionBps(streams) * BPS, base.rewardRate, rate.exchangeRate, prev.exchangeRate, paid,
        next.exchangeRate - rate.exchangeRate, |streams| * Slack(base, prev));
  }

  lemma JoinFloors(t: nat, c: nat, r: nat, e: nat, big: nat, paid: nat, grown: int, loss: nat)
    requires e <= big && c <= SCALE
    requires t * c * r * big - loss <= SCALE * SCALE * SCALE * paid
    requires (SCALE - c) * r * e - SCALE * e - SCALE * SCALE <= SCALE * SCALE * grown
    ensures SCALE * (t * e * r) - loss - t * (SCALE * e + SCALE * SCALE) <= SCALE * SCALE * (SCALE * paid + t * grown)
  {
    MulMono(e, big, t * c * r);
    GrowthPart(t, (SCALE - c) * r * e, SCALE * e + SCALE * SCALE, grown);
    WholeReward(t, c, r, e);
  }

  lemma GrowthPart(t: nat, share: int, loss: nat, grown: int)
    requires share - loss <= SCALE * SCALE * grown
    ensures t * share - t * loss <= SCALE * SCALE * (t * grown)
  {
    ScaleBelow(share - loss, SCALE * SCALE * grown, t);
    assert t * (share - loss) == t * share - t * loss;
    assert t * (SCALE * SCALE * grown) == SCALE * SCALE * (t * grown);
  }

  lemma WholeReward(t: nat, c: nat, r: nat, e: nat)
    requires c <= SCALE
    ensures t * c * r * e + t * ((SCALE - c) * r * e) == SCALE * (t * e * r)
  {
    Distribute(t, c, SCALE - c, r, e);
    assert t * (SCALE - c) * r * e == t * ((SCALE - c) * r * e);
    assert t * SCALE * r * e == SCALE * (t * e * r);
  }

  lemma ScaleBelow(x: int, y: int, z: nat)
    requires x <= y
    ensures z * x <= z * y
  {}

  /** Sums over validators: tokens, growth of pools, base reward at the validators' own rates, and rounding. */
  datatype Sums = Sums(tokens: nat, growth: int, own: int, rounding: int) {
    function Plus(that: Sums): Sums {
      Sums(tokens + that.tokens, growth + that.growth, own + that.own, rounding + that.rounding)
    }
  }

  /** The sums of one validator, whose rate moves from `cur` to `next` and which pays `n` streams. */
  ghost function SumsFor(
    tokens: nat, cur: RateData, next: RateData, n: nat, base: BaseRateData, prev: BaseRateData): Sums
  {
    var rate := cur.exchangeRate;
    Sums(tokens, tokens * (next.exchangeRate - rate), tokens * rate * base.rewardRate,
        n * Slack(base, prev) + tokens * (SCALE * rate + SCALE * SCALE))
  }

  ghost function SumsOf(t: State, v: IdentityKey): Sums
    requires v in t.entries
  {
    var e := t.entries[v];
    SumsFor(SupplyOf(t, DelegationToken(v)), e.cur, e.next, |e.definition.fundingStreams|, t.nextBase, t.curBase)
  }

  ghost function ClaimsOf(t: State, v: IdentityKey): seq<Claim>
    requires v in t.entries
  {
    ClaimsOn(t.entries[v].definition.fundingStreams, SupplyOf(t, DelegationToken(v)))
  }

  ghost function Reward(tokens: nat, cur: BaseRateData, next: BaseRateData): nat {
    tokens * cur.exchangeRate * next.rewardRate
  }

  lemma RewardAdds(a: nat, b: nat, cur: BaseRateData, next: BaseRateData)
    ensures Reward(a + b, cur, next) == Reward(a, cur, next) + Reward(b, cur, next)
  {
    assert (a + b) * cur.exchangeRate == a * cur.exchangeRate + b * cur.exchangeRate;
    ProductOfSum(a * cur.exchangeRate, b * cur.exchangeRate, next.rewardRate);
  }

  lemma ProductOfSum(a: int, b: int, c: int)
    ensures (a + b) * c == a * c + b * c
  {}

  /**
   Issuance accounts: every claim is paid, commissions and growth together are at most the base
   reward on the tokens, and at least the base reward at the validators' own rates less rounding.
   */
  ghost predicate Issued(
    cs: seq<CommissionAmount>, claims: seq<Claim>, sums: Sums, cur: BaseRateData, next: BaseRateData) {
    && PaysAll(cs, claims, next, cur)
    && SCALE * (SCALE * Amounts(cs) + sums.growth) <= Reward(sums.tokens, cur, next)
    && (Uncut(claims, next, cur) ==>
          SCALE * sums.own - sums.rounding <= SCALE * SCALE * (SCALE * Amounts(cs) + sums.growth))
  }

  /** One Active validator's account. */
  lemma EntryIssuance(e: Entry, next: RateData, tokens: nat, ctx: EpochContext)
    requires e.state.Active? && e.next.exchangeRate <= ctx.curBase.exchangeRate
    requires ctx.curBase.Next(ctx.nextBase.rewardRate).Ok? && CommissionsOf(e, tokens, ctx).Ok?
    requires e.next.Next(ctx.nextBase, e.definition.fundingStreams, Active) == Ok(next)
    ensures var streams := e.definition.fundingStreams;
            Issued(CommissionsOf(e, tokens, ctx).value, ClaimsOn(streams, tokens),
              SumsFor(tokens, e.next, next, |streams|, ctx.nextBase, ctx.curBase), ctx.curBase, ctx.nextBase)
  {
    var (streams, cs) := (e.definition.fundingStreams, CommissionsOf(e, tokens, ctx).value);
    var claims := ClaimsOn(streams, tokens);
    RewardsPay(streams, tokens, ctx.nextBase, ctx.curBase);
    AmountsOfCommissions(streams, Rewards(streams, tokens, ctx.nextBase, ctx.curBase).value);
    IssuanceBound(e.next, streams, tokens, ctx.nextBase, ctx.curBase);
    TotalPaid(cs, claims, ctx.nextBase, ctx.curBase);
    NextGrows(e.next, ctx.nextBase, streams, Active);
    hide RateData.Next, Grown, Rewards, PaysAll, Commissions, BaseRateData.Next, Slack, TotalEarned, Amounts, Sum;
    if Uncut(claims, ctx.nextBase, ctx.curBase) {
      IssuanceFloor(e.next, next, streams, tokens, Amounts(cs), ctx.nextBase, ctx.curBase);
    }
  }

  lemma OneIssuance(s: State, v: IdentityKey, ctx: EpochContext)
    requires ProcessValidator(s, v, ctx).Ok? && s.entries[v].next.exchangeRate <= ctx.curBase.exchangeRate
    requires s.curBase == ctx.curBase && s.nextBase == ctx.nextBase && ctx.curBase.Next(ctx.nextBase.rewardRate).Ok?
    ensures var (t, cs) := ProcessValidator(s, v, ctx).value;
            && v in t.entries && t.curBase == s.curBase && t.nextBase == s.nextBase
            && (!s.entries[v].state.Active? ==> cs == [])
            && (s.entries[v].state.Active? ==> Issued(cs, ClaimsOf(t, v), SumsOf(t, v), s.curBase, s.nextBase))
  {
    hide DelegationDelta, StakingDelta, RateData.VotingPower, RateData.Next, BaseRateData.Next, Issued, SumsFor;
    var (t, cs) := ProcessValidator(s, v, ctx).value;
    var e, tokens := s.entries[v], SupplyOf(t, DelegationToken(v));
    assert CommissionsOf(e, tokens, ctx) == Ok(cs);
    if e.state.Active? {
      hide CommissionsOf;
      EntryIssuance(e, t.entries[v].next, tokens, ctx);
    }
  }

  lemma {:induction false} AmountsOfCommissions(streams: seq<FundingStream>, amounts: seq<nat>)
    requires |streams| == |amounts|
    ensures Amounts(Commissions(streams, amounts)) == Sum(amounts)
  {
    if streams != [] {
      var n := |streams| - 1;
      AmountsOfCommissions(streams[..n], amounts[..n]);
      assert Commissions(streams, amounts)[..n] == Commissions(streams[..n], amounts[..n]);
    }
  }

  // ---------------------------------------------------------------------------------------------
  // All validators
  // ---------------------------------------------------------------------------------------------

  ghost function AllSums(earning: set<IdentityKey>, t: State, vs: seq<IdentityKey>): Sums
    requires forall i :: 0 <= i < |vs| ==> vs[i] in t.entries
    decreases |vs|
  {
    if vs == [] then Sums(0, 0, 0, 0)
    else (if vs[0] in earning then SumsOf(t, vs[0]) else Sums(0, 0, 0, 0)).Plus(AllSums(earning, t, vs[1..]))
  }

  ghost function AllClaims(earning: set<IdentityKey>, t: State, vs: seq<IdentityKey>): seq<Claim>
    requires forall i :: 0 <= i < |vs| ==> vs[i] in t.entries
    decreases |vs|
  {
    if vs == [] then [] else (if vs[0] in earning then ClaimsOf(t, vs[0]) else []) + AllClaims(earning, t, vs[1..])
  }

  lemma NothingIssued(cur: BaseRateData, next: BaseRateData)
    ensures Issued([], [], Sums(0, 0, 0, 0), cur, next)
  {}

  lemma IssuedJoins(cs: seq<CommissionAmount>, claims: seq<Claim>, sums: Sums,
    cs': seq<CommissionAmount>, claims': seq<Claim>, sums': Sums, cur: BaseRateData, next: BaseRateData)
    requires Issued(cs, claims, sums, cur, next) && Issued(cs', claims', sums', cur, next)
    ensures Issued(cs + cs', claims + claims', sums.Plus(sums'), cur, next)
  {
    hide Pays, Reward, Slack, Uncast, Amounts;
    AmountsAppend(cs, cs');
    RewardAdds(sums.tokens, sums'.tokens, cur, next);
    if Uncut(claims + claims', next, cur) {
      UncutParts(claims, claims', next, cur);
    }
  }

  lemma UncutParts(a: seq<Claim>, b: seq<Claim>, base: BaseRateData, prev: BaseRateData)
    requires Uncut(a + b, base, prev)
    ensures Uncut(a, base, prev) && Uncut(b, base, prev)
  {
    assert forall i :: 0 <= i < |a| ==> (a + b)[i] == a[i];
    assert forall i :: 0 <= i < |b| ==> (a + b)[|a| + i] == b[i];
  }

  /** The accounts of all validators of a pass. */
  lemma {:induction false} AllIssuance(s: State, vs: seq<IdentityKey>, ctx: EpochContext, earning: set<IdentityKey>)
    requires Distinct(vs) && ProcessAll(s, vs, ctx).Ok?
    requires s.curBase == ctx.curBase && s.nextBase == ctx.nextBase && ctx.curBase.Next(ctx.nextBase.rewardRate).Ok?
    requires forall i :: 0 <= i < |vs| ==>
               && vs[i] in s.entries
               && s.entries[vs[i]].next.exchangeRate <= ctx.curBase.exchangeRate
               && (s.entries[vs[i]].state.Active? <==> vs[i] in earning)
    ensures var (t, cs) := ProcessAll(s, vs, ctx).value;
            && (forall i :: 0 <= i < |vs| ==> vs[i] in t.entries)
            && t.curBase == s.curBase && t.nextBase == s.nextBase
            && Issued(cs, AllClaims(earning, t, vs), AllSums(earning, t, vs), s.curBase, s.nextBase)
    decreases |vs|
  {
    hide ProcessValidator, SupplyOf, StakingChange, NetDelta, Issued, SumsFor, ClaimsOn, BaseRateData.Next;
    NothingIssued(s.curBase, s.nextBase);
    if vs != [] {
      OneIssuance(s, vs[0], ctx);
      ProcessOneSupply(s, vs[0], ctx);
      var (t1, first) := ProcessValidator(s, vs[0], ctx).value;
      var (t, rest) := ProcessAll(t1, vs[1..], ctx).value;
      assert forall i :: 0 < i < |vs| ==> vs[i] == vs[1..][i - 1];
      AllIssuance(t1, vs[1..], ctx, earning);
      ProcessAllFrame(t1, vs[1..], ctx, vs[0]);
      assert forall i :: 0 <= i < |vs| ==> vs[i] in t.entries;
      var paid := vs[0] in earning;
      IssuedJoins(first, if paid then ClaimsOf(t, vs[0]) else [], if paid then SumsOf(t, vs[0]) else Sums(0, 0, 0, 0),
          rest, AllClaims(earning, t, vs[1..]), AllSums(earning, t, vs[1..]), s.curBase, s.nextBase);
    }
  }

  // ---------------------------------------------------------------------------------------------
  // Runs
  // ---------------------------------------------------------------------------------------------

  /** What is recorded between `s` and `t` pays every stream of every Active validator, and adds up. */
  ghost predicate IssuanceBounded(s: State, t: State) {
    var earning := ActiveValidators(s);
    && (forall i :: 0 <= i < |s.list| ==> s.list[i] in t.entries)
    && t.height in t.commissions
    && Issued(t.commissions[t.height], AllClaims(earning, t, s.list), AllSums(earning, t, s.list), t.curBase,
       t.nextBase)
  }

  lemma RatesBelowNext(s: State, k: nat)
    requires StateOk(s, k)
    ensures forall v :: v in s.entries ==> s.entries[v].next.exchangeRate <= s.nextBase.exchangeRate
  {}

  lemma {:induction false} SumsFrame(earning: set<IdentityKey>, t: State, u: State, vs: seq<IdentityKey>)
    requires u.curBase == t.curBase && u.nextBase == t.nextBase
    requires forall v :: SupplyOf(u, DelegationToken(v)) == SupplyOf(t, DelegationToken(v))
    requires forall i :: 0 <= i < |vs| ==>
               && vs[i] in t.entries && vs[i] in u.entries
               && var (e, f) := (t.entries[vs[i]], u.entries[vs[i]]);
                  f.cur == e.cur && f.next == e.next && f.definition == e.definition
    ensures AllSums(earning, u, vs) == AllSums(earning, t, vs) && AllClaims(earning, u, vs) == AllClaims(earning, t, vs)
    decreases |vs|
  {
    hide SupplyOf, SumsFor, ClaimsOn;
    if vs != [] {
      SumsFrame(earning, t, u, vs[1..]);
      assert vs[0] in t.entries && vs[0] in u.entries;
      assert SumsOf(u, vs[0]) == SumsOf(t, vs[0]) && ClaimsOf(u, vs[0]) == ClaimsOf(t, vs[0]);
    }
  }

  lemma EndEpochIssuance(c: Component, k: nat)
    requires StateOk(c.state, k) && UptimesAt(c.state, c.state.height)
    requires c.state.params.epochDuration > 0 && EndEpoch(c, Epoch(k, c.state.params.epochDuration)).Ok?
    ensures IssuanceBounded(c.state, EndEpoch(c, Epoch(k, c.state.params.epochDuration)).value.state)
  {
    hide ContextAt, ProcessAll, ProcessEpochTransitions, StateOk, UptimesAt, Chosen, Issued, AllSums, AllClaims,
         SupplyOf;
    var s := c.state;
    var epoch := Epoch(k, s.params.epochDuration);
    var ctx := ContextAt(s, epoch).value;
    ContextBases(s, epoch);
    RatesBelowNext(s, k);
    ListFacts(s, k);
    var start := s.(curBase := ctx.curBase, nextBase := ctx.nextBase);
    AllIssuance(start, s.list, ctx, ActiveValidators(s));
    var rolled := ProcessAll(start, s.list, ctx).value.0;
    assert RollOver(s, ctx) == ProcessAll(start, s.list, ctx);
    RolledListing(s, k, epoch);
    BoundaryOutcome(c.(state := rolled), k);
    var t := EndEpoch(c, epoch).value.state;
    forall i | 0 <= i < |s.list|
      ensures s.list[i] in t.entries
      ensures var (e, f) := (rolled.entries[s.list[i]], t.entries[s.list[i]]);
              f.cur == e.cur && f.next == e.next && f.definition == e.definition
    {
      assert s.list[i] in rolled.entries;
    }
    SameSupply(rolled, t);
    SumsFrame(ActiveValidators(s), rolled, t, s.list);
  }

  /**
   Every epoch of every run pays each stream of each Active validator what it earned, less
   rounding, and issues in commissions and pool growth together at most the base reward on the
   tokens, and at least that reward at the validators' own rates less rounding.
   */
  lemma EpochIssuance(g: Genesis, bs: seq<Block>, b: Block)
    requires GenesisOk(g) && Start(g).Ok? && RunBlocks(Start(g).value, bs).Ok?
    requires RunBlock(RunBlocks(Start(g).value, bs).value, b).Ok?
    requires FromHeight(|bs| + 1, g.params.epochDuration).IsEpochEnd(|bs| + 1)
    ensures var ch := RunBlocks(Start(g).value, bs).value;
            && BeforeEnd(ch, b).Ok?
            && IssuanceBounded(BeforeEnd(ch, b).value.state, RunBlock(ch, b).value.component.state)
  {
    hide RunBlocks, Start, BeforeEnd, RunBlock, StateOk, UptimesAt, EndEpoch, IssuanceBounded, SupplyOf;
    var ch := RunBlocks(Start(g).value, bs).value;
    BoundaryInRun(g, bs, b);
    var (c, k) := (BeforeEnd(ch, b).value, FromHeight(|bs| + 1, g.params.epochDuration).index);
    EndEpochIssuance(Recorded(c), k);
    IssuanceFrame(c.state, Recorded(c).state, EndEpoch(Recorded(c), Epoch(k, c.state.params.epochDuration)).value.state,
        RunBlock(ch, b).value.component.state);
  }

  /** Recording the changes and minting the commissions leave tokens and rates as they were. */
  lemma IssuanceFrame(s: State, r: State, t: State, u: State)
    requires IssuanceBounded(r, t) && r == s.(changes := r.changes) && u == t.(supply := u.supply)
    requires forall v :: SupplyOf(u, DelegationToken(v)) == SupplyOf(t, DelegationToken(v))
    ensures IssuanceBounded(s, u)
  {
    hide SupplyOf, Issued, AllSums, AllClaims;
    assert ActiveValidators(r) == ActiveValidators(s);
    SumsFrame(ActiveValidators(s), t, u, s.list);
  }
}
