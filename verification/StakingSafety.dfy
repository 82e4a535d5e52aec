/** Safety of the staking component over every run from a well-formed genesis. */
module StakingSafety {
  import opened Prelude
  import opened Rates
  import opened Delegations
  import opened Transactions
  import opened Epochs
  import opened StakingSpec
  import opened StakingRuns
  import opened StakingInvariant

  /** The epoch whose rates are current once the next block begins. */
  ghost function NextEpoch(s: State): nat
    requires s.params.epochDuration > 0
  {
    FromHeight(s.height + 1, s.params.epochDuration).index
  }

  /** The state between two blocks. */
  ghost predicate ChainOk(ch: Chain) {
    var s := ch.component.state;
    && s.params.epochDuration >= 2
    && StateOk(s, NextEpoch(s)) && UptimesAt(s, s.height) && RecordedTo(s, s.height + 1)
    && ch.component.pending == NO_CHANGES && ch.component.updates == []
  }

  // ---------------------------------------------------------------------------------------------
  // Genesis
  // ---------------------------------------------------------------------------------------------

  ghost predicate GenesisOk(g: Genesis) {
    && GenesisListOk(g)
    && g.params.epochDuration >= 2
  }

  ghost predicate GenesisListOk(g: Genesis) {
    && g.params.epochDuration > 0 && g.params.signedBlocksWindowLen > 0
    && (forall i, j :: 0 <= i < j < |g.validators| ==> g.validators[i].identityKey != g.validators[j].identityKey)
    && (forall i :: 0 <= i < |g.validators| ==> CommissionBps(g.validators[i].fundingStreams) <= BPS)
  }

  ghost predicate GenesisEntryOk(e: Entry, v: IdentityKey, g: Genesis) {
    && e.definition.identityKey == v
    && CommissionBps(e.definition.fundingStreams) <= BPS
    && e == GenesisEntry(e.definition, e.power, g.params.signedBlocksWindowLen)
    && e.power <= MAX_VOTING_POWER && e.power == Allocated(g.allocations, DelegationToken(v))
  }

  lemma {:induction false} InitValidatorsSteps(g: Genesis, n: nat)
    requires GenesisListOk(g) && n <= |g.validators|
    ensures var r := InitValidators(Component(EmptyState(g.params), NO_CHANGES, []), g.validators[..n], g.allocations);
            && (r.Err? ==> External(r.error))
            && (r.Ok? ==>
                  var s := r.value.state;
                  && r.value.pending == NO_CHANGES
                  && s == EmptyState(g.params).(list := s.list, entries := s.entries)
                  && s.list == seq(n, i requires 0 <= i < n => g.validators[i].identityKey)
                  && (forall v :: v in s.entries <==> v in s.list)
                  && (forall v :: v in s.entries ==> GenesisEntryOk(s.entries[v], v, g)))
  {
    if n > 0 {
      InitValidatorsSteps(g, n - 1);
      assert g.validators[..n][..n - 1] == g.validators[..n - 1];
    }
  }

  /** What is cast to a signed change is the amount as a 64-bit number. */
  lemma CastIsSame(n: nat)
    ensures Same64(AsI64(n), n)
    ensures n < I64 ==> AsI64(n) == n
  {}

  /** Genesis supplies are the allocated totals as 64-bit numbers, and exact below 2^63. */
  lemma {:induction false} MintAllSteps(s: State, allocations: seq<Allocation>)
    requires s.supply == map[]
    ensures var r := MintAll(s, allocations);
            && (r.Err? ==> r.error.SupplyOverflow? || r.error.SupplyUnderflow? || r.error.EmptyAllocation?)
            && (r.Ok? ==>
                  && r.value == s.(supply := r.value.supply)
                  && (forall a :: a in r.value.supply ==> r.value.supply[a] < U64)
                  && forall a ::
                       && Same64(SupplyOf(r.value, a), Allocated(allocations, a))
                       && (Allocated(allocations, a) < I64 ==> SupplyOf(r.value, a) == Allocated(allocations, a)))
  {
    hide Same64, UpdateTokenSupply, SupplyOf;
    if allocations == [] {
      EmptySupply(s);
    } else {
      var init, last := allocations[..|allocations| - 1], allocations[|allocations| - 1];
      MintAllSteps(s, init);
      if MintAll(s, init).Ok? {
        var before := MintAll(s, init).value;
        MintOneStep(before, last.asset, last.amount);
        forall a
          ensures MintAll(s, allocations).Ok? ==>
                  Same64(SupplyOf(MintAll(s, allocations).value, a), Allocated(allocations, a))
        {
          CastIsSame(last.amount);
          Same64Add(SupplyOf(before, a), Allocated(init, a), AsI64(last.amount), last.amount);
        }
      }
    }
  }

  lemma MintOneStep(s: State, asset: Asset, amount: nat)
    requires forall a :: a in s.supply ==> s.supply[a] < U64
    ensures var r := UpdateTokenSupply(s, asset, AsI64(amount));
            && (r.Err? ==> r.error.SupplyOverflow? || r.error.SupplyUnderflow?)
            && (r.Ok? ==>
                  && r.value == s.(supply := r.value.supply)
                  && (forall a :: a in r.value.supply ==> r.value.supply[a] < U64)
                  && SupplyOf(r.value, asset) == SupplyOf(s, asset) + AsI64(amount)
                  && forall a :: a != asset ==> SupplyOf(r.value, a) == SupplyOf(s, a))
  {}

  lemma EmptySupply(s: State)
    requires s.supply == map[]
    ensures forall a :: SupplyOf(s, a) == 0 && Same64(SupplyOf(s, a), 0)
  {}

  lemma NothingIsSame()
    ensures Same64(0, 0)
  {}

  lemma GenesisStateOk(s: State, g: Genesis)
    requires GenesisListOk(g)
    requires s == EmptyState(g.params).(list := s.list, entries := s.entries, changes := s.changes, supply := s.supply)
    requires s.list == seq(|g.validators|, i requires 0 <= i < |g.validators| => g.validators[i].identityKey)
    requires forall v :: v in s.entries <==> v in s.list
    requires forall v :: v in s.entries ==> GenesisEntryOk(s.entries[v], v, g)
    requires forall a :: Allocated(g.allocations, a) < I64 ==> SupplyOf(s, a) == Allocated(g.allocations, a)
    requires forall a :: a in s.supply ==> s.supply[a] < U64
    ensures StateOk(s, 0) && UptimesAt(s, 0)
  {
    forall v | v in s.entries
      ensures EntryOk(s.entries[v], v, SupplyOf(s, DelegationToken(v)))
    {
      assert GenesisEntryOk(s.entries[v], v, g);
    }
  }

  lemma StartStateOk(g: Genesis)
    requires GenesisListOk(g)
    ensures Start(g).Ok? ==>
              var s := Start(g).value.component.state;
              && StateOk(s, 0) && UptimesAt(s, 0) && s.height == 0 && s.changes == map[0 := NO_CHANGES]
              && s.params == g.params && s.commissions == map[] && |s.list| == |g.validators|
              && (forall a :: Same64(SupplyOf(s, a), Allocated(g.allocations, a)))
    ensures Start(g).Err? ==> External(Start(g).error) || Start(g).error.EmptyAllocation?
  {
    hide InitValidators, MintAll, StateOk, UptimesAt, GenesisEntryOk, Allocated, Same64;
    InitValidatorsSteps(g, |g.validators|);
    assert g.validators[..|g.validators|] == g.validators;
    var c := InitChain(g);
    if c.Ok? {
      MintAllSteps(c.value.state, g.allocations);
      if Start(g).Ok? {
        GenesisStateOk(Start(g).value.component.state, g);
      }
    }
  }

  lemma StartIsOk(g: Genesis)
    requires GenesisOk(g)
    ensures Start(g).Ok? ==> ChainOk(Start(g).value) && Start(g).value.component.state.height == 0
    ensures Start(g).Err? ==> External(Start(g).error) || Start(g).error.EmptyAllocation?
  {
    StartStateOk(g);
    assert FromHeight(1, g.params.epochDuration).index == 0;
  }

  // ---------------------------------------------------------------------------------------------
  // Blocks
  // ---------------------------------------------------------------------------------------------

  /** What a whole block may do to one validator. */
  ghost predicate BlockStep(e: Entry, f: Entry) {
    e.state.Slashed? ==>
      && f.state.Slashed?
      && f.next.exchangeRate == e.next.exchangeRate && f.cur.exchangeRate == e.cur.exchangeRate
  }

  ghost predicate Later(s: State, t: State) {
    && t.params == s.params
    && s.curBase.exchangeRate <= t.curBase.exchangeRate && s.nextBase.exchangeRate <= t.nextBase.exchangeRate
    && forall v :: v in s.entries ==> v in t.entries && BlockStep(s.entries[v], t.entries[v])
  }

  lemma LaterTrans(s: State, t: State, u: State)
    requires Later(s, t) && Later(t, u)
    ensures Later(s, u)
  {
    forall v | v in s.entries
      ensures v in u.entries && BlockStep(s.entries[v], u.entries[v])
    {
      assert BlockStep(s.entries[v], t.entries[v]);
    }
  }

  lemma EndBlockKeepsOk(c: Component, k: nat)
    requires StateOk(c.state, k) && UptimesAt(c.state, c.state.height) && RecordedTo(c.state, c.state.height)
    requires k == FromHeight(c.state.height, c.state.params.epochDuration).index
    ensures var r := EndBlock(c, c.state.height);
            && (r.Err? ==> External(r.error))
            && (r.Ok? ==>
                  var t := r.value.state;
                  && t.params == c.state.params && t.height == c.state.height
                  && t.changes == c.state.changes[t.height := c.pending]
                  && StateOk(t, NextEpoch(t)) && UptimesAt(t, t.height)
                  && r.value.pending == NO_CHANGES
                  && Later(c.state, t))
  {
    hide EndEpoch, EntryOk, UptimeOk;
    var s := c.state.(changes := c.state.changes[c.state.height := c.pending]);
    BookkeepingKeepsOk(c.state, s, k, s.height);
    NextHeightEpoch(s.height, s.params.epochDuration);
    if Epoch(k, s.params.epochDuration).IsEpochEnd(s.height) {
      EndEpochKeepsOk(Component(s, NO_CHANGES, c.updates), k);
      if EndBlock(c, c.state.height).Ok? {
        forall v | v in s.entries
          ensures v in EndBlock(c, c.state.height).value.state.entries
          ensures BlockStep(s.entries[v], EndBlock(c, c.state.height).value.state.entries[v])
        {
          assert BoundaryStep(s.entries[v], EndBlock(c, c.state.height).value.state.entries[v]);
        }
      }
    }
  }

  ghost predicate InBlock(s: State, k: nat) {
    && StateOk(s, k) && UptimesAt(s, s.height) && RecordedTo(s, s.height)
    && k == FromHeight(s.height, s.params.epochDuration).index
  }

  lemma BeginOk(ch: Chain, b: Block)
    requires ChainOk(ch)
    ensures var r := BeginBlock(Advanced(ch), b.evidence, b.votes);
            && (r.Err? ==> External(r.error))
            && (r.Ok? ==>
                  && InBlock(r.value.state, NextEpoch(ch.component.state)) && Tracking(r.value.state, [])
                  && r.value.state.height == ch.component.state.height + 1
                  && Later(ch.component.state, r.value.state))
  {
    var s := Advanced(ch).state;
    var k := NextEpoch(ch.component.state);
    BookkeepingKeepsOk(ch.component.state, s, k, ch.component.state.height);
    BeginBlockKeepsOk(Advanced(ch), b.evidence, b.votes, k);
    var r := BeginBlock(Advanced(ch), b.evidence, b.votes);
    if r.Ok? {
      forall v | v in s.entries
        ensures BlockStep(s.entries[v], r.value.state.entries[v])
      {
        assert BeginStep(s.entries[v], r.value.state.entries[v]);
      }
    }
  }

  lemma DeliverOk(c: Component, txs: seq<Transaction>, k: nat)
    requires InBlock(c.state, k)
    ensures var d := DeliverAll(c, txs);
            InBlock(d.state, k) && d.state.height == c.state.height && Later(c.state, d.state)
  {
    DeliverAllKeepsOk(c, txs, k, c.state.height);
  }

  lemma BeforeEndOk(ch: Chain, b: Block)
    requires ChainOk(ch)
    ensures var r := BeforeEnd(ch, b);
            && (r.Err? ==> External(r.error))
            && (r.Ok? ==>
                  && InBlock(r.value.state, NextEpoch(ch.component.state))
                  && r.value.state.height == ch.component.state.height + 1
                  && Later(ch.component.state, r.value.state))
  {
    BeginOk(ch, b);
    var c := BeginBlock(Advanced(ch), b.evidence, b.votes);
    if c.Ok? {
      DeliverOk(c.value, b.txs, NextEpoch(ch.component.state));
      hide BeginBlock, DeliverAll, StateOk, UptimesAt, Later, Tracking;
      LaterTrans(ch.component.state, c.value.state, DeliverAll(c.value, b.txs).state);
    }
  }

  /** What the pool's mint adds to the staking supply: the amounts, each cast to a signed number. */
  ghost function Credited(cs: seq<CommissionAmount>): int {
    if cs == [] then 0 else Credited(cs[..|cs| - 1]) + AsI64(cs[|cs| - 1].amount)
  }

  lemma {:induction false} CreditedIsTotal(cs: seq<CommissionAmount>)
    ensures Same64(Credited(cs), Amounts(cs))
  {
    if cs == [] {
      NothingIsSame();
    } else {
      hide Same64;
      CreditedIsTotal(cs[..|cs| - 1]);
      CastIsSame(cs[|cs| - 1].amount);
      Same64Add(Credited(cs[..|cs| - 1]), Amounts(cs[..|cs| - 1]), AsI64(cs[|cs| - 1].amount), cs[|cs| - 1].amount);
    }
  }

  /** Minting moves the staking supply alone. */
  lemma {:induction false} MintSteps(s: State, cs: seq<CommissionAmount>)
    requires forall a :: a in s.supply ==> s.supply[a] < U64
    ensures var r := MintCommissions(s, cs);
            && (r.Err? ==> r.error.SupplyOverflow? || r.error.SupplyUnderflow?)
            && (r.Ok? ==>
                  && r.value == s.(supply := r.value.supply)
                  && (forall a :: a in r.value.supply ==> r.value.supply[a] < U64)
                  && (forall v :: SupplyOf(r.value, DelegationToken(v)) == SupplyOf(s, DelegationToken(v)))
                  && SupplyOf(r.value, StakingToken) == SupplyOf(s, StakingToken) + Credited(cs))
  {
    hide UpdateTokenSupply, SupplyOf;
    if cs != [] {
      MintSteps(s, cs[..|cs| - 1]);
      if MintCommissions(s, cs[..|cs| - 1]).Ok? {
        MintOneStep(MintCommissions(s, cs[..|cs| - 1]).value, StakingToken, cs[|cs| - 1].amount);
      }
    }
  }

  lemma MintKeepsOk(s: State, k: nat)
    requires StateOk(s, k) && UptimesAt(s, s.height)
    ensures MintRewards(s).Err? ==> External(MintRewards(s).error)
    ensures MintRewards(s).Ok? ==>
              var t := MintRewards(s).value;
              && t == s.(supply := t.supply) && StateOk(t, k) && UptimesAt(t, t.height)
              && (forall v :: SupplyOf(t, DelegationToken(v)) == SupplyOf(s, DelegationToken(v)))
              && SupplyOf(t, StakingToken) == SupplyOf(s, StakingToken) + Credited(CommissionsNow(s))
              && Later(s, t)
  {
    hide RateOk, MintCommissions;
    MintSteps(s, CommissionsNow(s));
    LaterRefl(s);
  }

  /** A block takes a well-formed chain to a well-formed chain, or fails for an external reason. */
  lemma BlockKeepsOk(ch: Chain, b: Block)
    requires ChainOk(ch)
    ensures RunBlock(ch, b).Ok? ==>
              var s, t := ch.component.state, RunBlock(ch, b).value.component.state;
              ChainOk(RunBlock(ch, b).value) && t.height == s.height + 1 && Later(s, t)
    ensures RunBlock(ch, b).Err? ==> External(RunBlock(ch, b).error)
  {
    hide BeforeEnd, EndBlock, MintRewards, StateOk, UptimesAt, Later;
    BeforeEndOk(ch, b);
    var c := BeforeEnd(ch, b);
    if c.Ok? {
      EndBlockKeepsOk(c.value, NextEpoch(ch.component.state));
      var d := EndBlock(c.value, c.value.state.height);
      if d.Ok? {
        MintKeepsOk(d.value.state, NextEpoch(d.value.state));
        if RunBlock(ch, b).Ok? {
          LaterTrans(c.value.state, d.value.state, RunBlock(ch, b).value.component.state);
          LaterTrans(ch.component.state, c.value.state, RunBlock(ch, b).value.component.state);
        }
      }
    }
  }

  /**
   No run from a well-formed genesis trips an internal check: not the epoch
   index assertion, missing delegation changes, a wrong previous epoch, a
   commission above 100%, or a missing or lagging uptime tracker. Every state
   reached keeps the invariant.
   */
  lemma {:induction false} RunsAreSafe(g: Genesis, bs: seq<Block>)
    requires GenesisOk(g) && Start(g).Ok?
    ensures RunBlocks(Start(g).value, bs).Ok? ==>
              var ch := RunBlocks(Start(g).value, bs).value; ChainOk(ch) && ch.component.state.height == |bs|
    ensures RunBlocks(Start(g).value, bs).Err? ==> External(RunBlocks(Start(g).value, bs).error)
  {
    StartIsOk(g);
    if bs != [] {
      RunsAreSafe(g, bs[..|bs| - 1]);
      var before := RunBlocks(Start(g).value, bs[..|bs| - 1]);
      if before.Ok? {
        BlockKeepsOk(before.value, bs[|bs| - 1]);
      }
    }
  }

  // ---------------------------------------------------------------------------------------------
  // How a block can fail
  // ---------------------------------------------------------------------------------------------

  /** All evidence is against known validators that are Active or Unbonding, and against none twice. */
  ghost predicate GoodEvidence(s: State, evidence: seq<IdentityKey>) {
    && Distinct(evidence)
    && forall i :: 0 <= i < |evidence| ==>
         && evidence[i] in s.entries
         && (s.entries[evidence[i]].state.Active? || s.entries[evidence[i]].state.Unbonding?)
  }

  lemma {:induction false} GoodEvidenceSlashes(c: Component, evidence: seq<IdentityKey>)
    requires GoodEvidence(c.state, evidence)
    ensures SlashAll(c, evidence).Err? ==> SlashAll(c, evidence).error.Overflow?
    decreases |evidence|
  {
    if evidence != [] {
      var penalty := c.state.params.slashingPenaltyMisbehaviorBps;
      var r := SlashValidator(c, evidence[0], penalty);
      OneSlashFails(c, evidence[0], penalty);
      if r.Ok? {
        SlashIsBeginStep(c, evidence[0], penalty);
        hide SlashValidator, BeginFrame;
        assert forall i :: 0 < i < |evidence| ==> evidence[i] == evidence[1..][i - 1] && evidence[i] != evidence[0];
        EntriesKept(c, evidence[0], penalty);
        GoodEvidenceSlashes(r.value, evidence[1..]);
      }
    }
  }

  lemma OneSlashFails(c: Component, v: IdentityKey, penalty: nat)
    requires v in c.state.entries && (c.state.entries[v].state.Active? || c.state.entries[v].state.Unbonding?)
    ensures SlashValidator(c, v, penalty).Err? ==> SlashValidator(c, v, penalty).error.Overflow?
  {}

  lemma EntriesKept(c: Component, v: IdentityKey, penalty: nat)
    requires SlashValidator(c, v, penalty).Ok?
    ensures var t := SlashValidator(c, v, penalty).value.state;
            t.entries.Keys == c.state.entries.Keys && t.params == c.state.params
  {}

  /** With good evidence begin_block fails only by overflow. */
  lemma BeginFailure(ch: Chain, b: Block)
    requires ChainOk(ch) && GoodEvidence(ch.component.state, b.evidence)
    ensures var r := BeginBlock(Advanced(ch), b.evidence, b.votes); r.Err? ==> r.error.Overflow?
  {
    var c, k := Advanced(ch), NextEpoch(ch.component.state);
    BookkeepingKeepsOk(ch.component.state, c.state, k, ch.component.state.height);
    GoodEvidenceSlashes(c, b.evidence);
    SlashAllSteps(c, b.evidence, c.state.height - 1);
    var r := SlashAll(c, b.evidence);
    if r.Ok? {
      BeginFrameKeepsOk(c.state, r.value.state, k);
      hide SlashAll, TrackUptime, BeginFrame, RateOk, EntryOk;
      TrackSteps(r.value, r.value.state.list, b.votes);
    }
  }

  /** end_block fails only at a limit, or, exactly if the boundary is blocked, at its state transition. */
  lemma EndFailure(c: Component, k: nat)
    requires InBlock(c.state, k) && c.state.params.epochDuration > 0
    ensures var (r, s) := (EndBlock(c, c.state.height), Recorded(c).state);
            && (r.Err? ==> Limit(r.error) || r.error.BadTransition?)
            && (r.Err? && r.error.BadTransition? <==>
                Epoch(k, s.params.epochDuration).IsEpochEnd(s.height) && Blocked(s, k))
  {
    hide EndEpoch, StateOk, UptimesAt, Blocked, EndFrame;
    BookkeepingKeepsOk(c.state, Recorded(c).state, k, c.state.height);
    if Epoch(k, c.state.params.epochDuration).IsEpochEnd(c.state.height) {
      EndEpochKeepsOk(Recorded(c), k);
    }
  }

  /**
   Once begin_block has succeeded, a block of any run fails only at a limit, or at the state
   transition of a boundary, and that exactly if the boundary is blocked: no validator is
   missing and no other transition is refused.
   */
  lemma RunFailure(g: Genesis, bs: seq<Block>, b: Block)
    requires GenesisOk(g) && Start(g).Ok? && RunBlocks(Start(g).value, bs).Ok?
    requires var ch := RunBlocks(Start(g).value, bs).value;
             BeginBlock(Advanced(ch), b.evidence, b.votes).Ok?
    ensures var (ch, k) := (RunBlocks(Start(g).value, bs).value, FromHeight(|bs| + 1, g.params.epochDuration).index);
            && BeforeEnd(ch, b).Ok?
            && var (r, s) := (RunBlock(ch, b), Recorded(BeforeEnd(ch, b).value).state);
               && s.params.epochDuration > 0
               && (r.Err? ==> Limit(r.error) || r.error.BadTransition?)
               && (r.Err? && r.error.BadTransition? <==>
                   Epoch(k, s.params.epochDuration).IsEpochEnd(s.height) && Blocked(s, k))
  {
    hide RunBlocks, Start, BeginBlock, EndBlock, MintCommissions, StateOk, UptimesAt, Blocked, Later, Tracking;
    var ch := RunBlocks(Start(g).value, bs).value;
    RunsAreSafe(g, bs);
    RunsKeepParams(g, bs);
    BeginOk(ch, b);
    BeforeEndOk(ch, b);
    InBlockDuration(BeginBlock(Advanced(ch), b.evidence, b.votes).value.state, NextEpoch(ch.component.state));
    var c, k := BeforeEnd(ch, b).value, NextEpoch(ch.component.state);
    InBlockDuration(c.state, k);
    EndFailure(c, k);
    EndBlockKeepsOk(c, k);
    var d := EndBlock(c, c.state.height);
    if d.Ok? {
      MintFailure(d.value.state, NextEpoch(d.value.state));
    }
  }

  lemma InBlockDuration(s: State, k: nat)
    requires InBlock(s, k)
    ensures s.params.epochDuration > 0
  {}

  lemma MintFailure(s: State, k: nat)
    requires StateOk(s, k)
    ensures MintRewards(s).Err? ==> MintRewards(s).error.SupplyOverflow? || MintRewards(s).error.SupplyUnderflow?
  {
    MintSteps(s, CommissionsNow(s));
  }

  lemma RunsKeepParams(g: Genesis, bs: seq<Block>)
    requires GenesisOk(g) && Start(g).Ok? && RunBlocks(Start(g).value, bs).Ok?
    ensures RunBlocks(Start(g).value, bs).value.component.state.params == g.params
  {
    StartIsOk(g);
    StartStateOk(g);
    hide Start, RunBlocks, ChainOk;
    RunsGoForward(Start(g).value, bs);
  }

  // ---------------------------------------------------------------------------------------------
  // Consequences for every reachable state
  // ---------------------------------------------------------------------------------------------

  /**
   After begin_block of any reachable block, every Active tracker is at the current height with
   misses below the maximum.
   */
  lemma ActiveTrackersAreCurrent(g: Genesis, bs: seq<Block>, b: Block)
    requires GenesisOk(g) && Start(g).Ok? && RunBlocks(Start(g).value, bs).Ok?
    requires BeginBlock(Advanced(RunBlocks(Start(g).value, bs).value), b.evidence, b.votes).Ok?
    ensures var s := BeginBlock(Advanced(RunBlocks(Start(g).value, bs).value), b.evidence, b.votes).value.state;
            forall v :: v in s.entries && s.entries[v].state.Active? ==>
              var u := s.entries[v].uptime;
              u.Some? && u.value.asOfBlockHeight == s.height == |bs| + 1
                  && u.value.Missed() < s.params.missedBlocksMaximum
  {
    hide BeginBlock, RunBlocks, Start;
    RunsAreSafe(g, bs);
    BeginOk(RunBlocks(Start(g).value, bs).value, b);
  }

  /** In every reachable state rates stay below the base rates, and power stays below the delegation token supply. */
  lemma RatesAndPowersBounded(g: Genesis, bs: seq<Block>, v: IdentityKey)
    requires GenesisOk(g) && Start(g).Ok? && RunBlocks(Start(g).value, bs).Ok?
    requires v in RunBlocks(Start(g).value, bs).value.component.state.entries
    ensures var s := RunBlocks(Start(g).value, bs).value.component.state;
            && s.entries[v].cur.exchangeRate <= s.curBase.exchangeRate
            && s.entries[v].next.exchangeRate <= s.nextBase.exchangeRate
            && s.curBase.exchangeRate <= s.nextBase.exchangeRate
            && s.entries[v].power <= SupplyOf(s, DelegationToken(v)) < U64
  {
    hide RunBlocks, Start;
    RunsAreSafe(g, bs);
  }

  lemma {:induction false} RunsGoForward(ch: Chain, bs: seq<Block>)
    requires ChainOk(ch) && RunBlocks(ch, bs).Ok?
    ensures ChainOk(RunBlocks(ch, bs).value)
    ensures Later(ch.component.state, RunBlocks(ch, bs).value.component.state)
  {
    hide ChainOk, RunBlock, BlockStep;
    if bs == [] {
      LaterRefl(ch.component.state);
    } else {
      RunsGoForward(ch, bs[..|bs| - 1]);
      var before := RunBlocks(ch, bs[..|bs| - 1]).value;
      BlockKeepsOk(before, bs[|bs| - 1]);
      LaterTrans(ch.component.state, before.component.state, RunBlocks(ch, bs).value.component.state);
    }
  }

  lemma LaterRefl(s: State)
    ensures Later(s, s)
  {}

  /**
   Slashed is absorbing: in every continuation the validator stays Slashed at
   an unchanged exchange rate, earns no commission, and no transaction that
   delegates to it is accepted.
   */
  lemma SlashedIsAbsorbing(ch: Chain, bs: seq<Block>, v: IdentityKey)
    requires ChainOk(ch) && RunBlocks(ch, bs).Ok?
    requires v in ch.component.state.entries && ch.component.state.entries[v].state.Slashed?
    ensures var s, t := ch.component.state, RunBlocks(ch, bs).value.component.state;
            && v in t.entries && t.entries[v].state.Slashed?
            && t.entries[v].cur.exchangeRate == t.entries[v].next.exchangeRate == s.entries[v].next.exchangeRate
            && (forall tokens, ctx :: CommissionsOf(t.entries[v], tokens, ctx) == Ok([]))
            && (forall tx: Transaction, i ::
               0 <= i < |DelegationsOf(tx.actions)| && DelegationsOf(tx.actions)[i].validatorIdentity == v ==>
                  !StatefulOk(t, tx))
  {
    hide RunBlocks;
    RunsGoForward(ch, bs);
    var s, t := ch.component.state, RunBlocks(ch, bs).value.component.state;
    assert BlockStep(s.entries[v], t.entries[v]);
    forall tx: Transaction, i | 0 <= i < |DelegationsOf(tx.actions)|
        && DelegationsOf(tx.actions)[i].validatorIdentity == v
      ensures !StatefulOk(t, tx)
    {
      assert !DelegationOk(t, DelegationsOf(tx.actions)[i]);
    }
  }

  // ---------------------------------------------------------------------------------------------
  // The epoch duration must exceed one block
  // ---------------------------------------------------------------------------------------------

  /**
   With an epoch duration of one block epoch 0 has no last block, so rates are one
   epoch behind: no first block can end, on any genesis with a validator. Whatever the
   block holds, it fails in begin_block or at the boundary's epoch index assertion.
   */
  lemma DurationOneStops(g: Genesis, b: Block)
    requires GenesisListOk(g) && g.params.epochDuration == 1 && g.validators != [] && Start(g).Ok?
    ensures var ch := Start(g).value;
            var (begun, r) := (BeginBlock(Advanced(ch), b.evidence, b.votes), RunBlock(ch, b));
            && r.Err?
            && (begun.Err? ==> r.error == begun.error && External(r.error))
            && (begun.Ok? ==> r.error.Overflow? || r.error.EpochIndexAssert?)
  {
    hide Start, BeginBlock, DeliverAll, EndEpoch, StateOk, Lagging;
    var ch := Start(g).value;
    StartStateOk(g);
    var c := Advanced(ch);
    BookkeepingKeepsOk(ch.component.state, c.state, 0, 0);
    BeginBlockKeepsOk(c, b.evidence, b.votes, 0);
    var begun := BeginBlock(c, b.evidence, b.votes);
    if begun.Ok? {
      assert Lagging(begun.value.state) by { StateIsLagging(begun.value.state); }
      DeliverKeepsLagging(begun.value, b.txs);
      var d := DeliverAll(begun.value, b.txs);
      assert Lagging(Recorded(d).state) by { RecordKeepsLagging(d); }
      LaggingEpochFails(Recorded(d));
    }
  }

  /** The component once the block's changes are written out. */
  function Recorded(c: Component): Component {
    Component(c.state.(changes := c.state.changes[c.state.height := c.pending]), NO_CHANGES, c.updates)
  }

  /** The first validator is at the rates of epoch 0. */
  ghost predicate Lagging(s: State) {
    && s.list != [] && s.list[0] in s.entries
    && s.entries[s.list[0]].next.epochIndex == 1
    && CommissionBps(s.entries[s.list[0]].definition.fundingStreams) <= BPS
  }

  lemma StateIsLagging(s: State)
    requires StateOk(s, 0) && s.list != []
    ensures Lagging(s)
  {
    assert s.list[0] in s.entries;
  }

  lemma RecordKeepsLagging(c: Component)
    requires Lagging(c.state)
    ensures Lagging(Recorded(c).state)
  {}

  lemma {:induction false} DefineKeepsLagging(s: State, defs: seq<Definition>)
    requires Lagging(s) && s.params.epochDuration > 0
    requires forall i :: 0 <= i < |defs| ==> CommissionBps(defs[i].validator.fundingStreams) <= BPS
    ensures var t := DefineAll(s, defs); Lagging(t) && t.height == s.height && t.changes == s.changes
  {
    if defs != [] {
      DefineKeepsLagging(s, defs[..|defs| - 1]);
    }
  }

  lemma {:induction false} DeliverKeepsLagging(c: Component, txs: seq<Transaction>)
    requires Lagging(c.state) && c.state.params.epochDuration > 0
    ensures var t := DeliverAll(c, txs).state;
            Lagging(t) && t.height == c.state.height && t.changes == c.state.changes
  {
    hide Lagging;
    if txs != [] {
      DeliverKeepsLagging(c, txs[..|txs| - 1]);
      var d, tx := DeliverAll(c, txs[..|txs| - 1]), txs[|txs| - 1];
      if StatelessOk(tx) {
        DefineKeepsLagging(d.state, DefinitionsOf(tx.actions));
      }
    }
  }

  lemma LaggingEpochFails(c: Component)
    requires Lagging(c.state) && 1 in c.state.changes
    ensures var r := EndEpoch(c, Epoch(1, 1)); r.Err? && (r.error.Overflow? || r.error.EpochIndexAssert?)
  {
    hide ProcessEpochTransitions, ProcessValidator, Lagging, ContextAt;
    ContextFacts(c.state, Epoch(1, 1));
    if ContextAt(c.state, Epoch(1, 1)).Ok? {
      LaggingValidatorFails(c.state, ContextAt(c.state, Epoch(1, 1)).value);
    }
  }

  lemma ContextFacts(s: State, epoch: Epoch)
    requires epoch.duration > 0
    ensures ContextAt(s, epoch).Ok? ==> ContextAt(s, epoch).value.index == epoch.index
    ensures ContextAt(s, epoch).Err? && HasAll(s.changes, epoch.StartHeight(), epoch.EndHeight() + 1) ==>
              ContextAt(s, epoch).error.Overflow?
  {}

  lemma LaggingValidatorFails(s: State, ctx: EpochContext)
    requires Lagging(s) && ctx.index == 1
    ensures s.list != []
    ensures var r := ProcessValidator(s.(curBase := ctx.curBase, nextBase := ctx.nextBase), s.list[0], ctx);
            r.Err? && (r.error.Overflow? || r.error.EpochIndexAssert?)
  {}
}
