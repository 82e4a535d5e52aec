/**
 Accounting over runs: what is recorded per block, what each epoch adds to the
 supplies, and how the staking tokens recorded as burnt relate to the staking
 tokens delegators handed over.
 */
module StakingConservation {
  import opened Prelude
  import opened Rates
  import opened Delegations
  import opened Transactions
  import opened Epochs
  import opened StakingSpec
  import opened StakingRuns
  import opened EpochTransitions
  import opened StakingInvariant
  import opened StakingSafety

  // ---------------------------------------------------------------------------------------------
  // Supplies across one epoch boundary
  // ---------------------------------------------------------------------------------------------

  /**
   The casts to signed numbers lose nothing modulo 2^64, and nothing at all exactly when both
   totals cross 2^63 or neither does.
   */
  lemma DelegationDeltaExactIff(delegated: nat, undelegated: nat)
    requires DelegationDelta(delegated, undelegated).Ok?
    ensures Same64(DelegationDelta(delegated, undelegated).value, delegated - undelegated)
    ensures DelegationDelta(delegated, undelegated).value == delegated - undelegated <==>
            (delegated < I64 <==> undelegated < I64)
  {}

  /** The recorded change of the staking supply is minus the burn exactly when the burn is below 2^63. */
  lemma StakingDeltaExactIff(rate: RateData, delta: int)
    requires StakingDelta(rate, delta).Ok?
    ensures StakingDelta(rate, delta).value == -Burn(rate, delta) <==> -I64 < Burn(rate, delta) < I64
  {
    assert rate.UnbondedAmount(if delta >= 0 then delta else -delta).Ok?;
  }

  ghost function NetDelta(ctx: EpochContext, v: IdentityKey): Result<int, Failure> {
    DelegationDelta(Delegated(ctx.changes.delegations, v), Undelegated(ctx.changes.undelegations, v))
  }

  /** What the boundary adds to the staking token supply on account of `v`. */
  ghost function StakingChange(e: Entry, ctx: EpochContext, v: IdentityKey): int {
    var delta := NetDelta(ctx, v);
    if delta.Err? || StakingDelta(e.next, delta.value).Err? then 0 else StakingDelta(e.next, delta.value).value
  }

  ghost function StakingChanges(s: State, vs: seq<IdentityKey>, ctx: EpochContext): int
    requires forall i :: 0 <= i < |vs| ==> vs[i] in s.entries
    decreases |vs|
  {
    if vs == [] then 0 else StakingChange(s.entries[vs[0]], ctx, vs[0]) + StakingChanges(s, vs[1..], ctx)
  }

  lemma ProcessOneSupply(s: State, v: IdentityKey, ctx: EpochContext)
    requires ProcessValidator(s, v, ctx).Ok?
    ensures var t := ProcessValidator(s, v, ctx).value.0;
            && NetDelta(ctx, v).Ok?
            && StakingDelta(s.entries[v].next, NetDelta(ctx, v).value).Ok?
            && SupplyOf(t, DelegationToken(v)) == SupplyOf(s, DelegationToken(v)) + NetDelta(ctx, v).value
            && (forall w :: w != v ==> SupplyOf(t, DelegationToken(w)) == SupplyOf(s, DelegationToken(w)))
            && SupplyOf(t, StakingToken) == SupplyOf(s, StakingToken) + StakingChange(s.entries[v], ctx, v)
            && v in t.entries
            && t.entries == s.entries[v := t.entries[v]]
  {
    hide CommissionsOf, Delegated, Undelegated;
  }

  lemma {:induction false} StakingChangesFrame(s: State, t: State, vs: seq<IdentityKey>, ctx: EpochContext)
    requires forall i :: 0 <= i < |vs| ==>
             vs[i] in s.entries && vs[i] in t.entries && s.entries[vs[i]] == t.entries[vs[i]]
    ensures StakingChanges(s, vs, ctx) == StakingChanges(t, vs, ctx)
    decreases |vs|
  {
    hide StakingChange;
    if vs != [] {
      StakingChangesFrame(s, t, vs[1..], ctx);
    }
  }

  /**
   The roll-over adds each validator's net delegations to its token's supply, and the sum of the
   burns to the staking token's.
   */
  lemma {:induction false} ProcessAllSupply(s: State, vs: seq<IdentityKey>, ctx: EpochContext)
    requires Distinct(vs) && (forall i :: 0 <= i < |vs| ==> vs[i] in s.entries) && ProcessAll(s, vs, ctx).Ok?
    ensures var t := ProcessAll(s, vs, ctx).value.0;
            && SupplyOf(t, StakingToken) == SupplyOf(s, StakingToken) + StakingChanges(s, vs, ctx)
            && forall v ::
                 if v in vs then NetDelta(ctx, v).Ok?
                     && SupplyOf(t, DelegationToken(v)) == SupplyOf(s, DelegationToken(v)) + NetDelta(ctx, v).value
                 else SupplyOf(t, DelegationToken(v)) == SupplyOf(s, DelegationToken(v))
    decreases |vs|
  {
    hide ProcessValidator, SupplyOf, StakingChange, NetDelta;
    if vs != [] {
      ProcessOneSupply(s, vs[0], ctx);
      var t := ProcessValidator(s, vs[0], ctx).value.0;
      ProcessAllSupply(t, vs[1..], ctx);
      StakingChangesFrame(s, t, vs[1..], ctx);
      var u := ProcessAll(s, vs, ctx).value.0;
      forall v
        ensures if v in vs then NetDelta(ctx, v).Ok?
                && SupplyOf(u, DelegationToken(v)) == SupplyOf(s, DelegationToken(v)) + NetDelta(ctx, v).value
                else SupplyOf(u, DelegationToken(v)) == SupplyOf(s, DelegationToken(v))
      {
        assert v in vs <==> v == vs[0] || v in vs[1..];
        assert v in vs[1..] ==> v != vs[0];
      }
    }
  }

  // ---------------------------------------------------------------------------------------------
  // The queue of the current epoch
  // ---------------------------------------------------------------------------------------------

  /** Every change names a known validator. */
  ghost predicate Names(q: DelegationChanges, entries: map<IdentityKey, Entry>) {
    && (forall d :: d in q.delegations ==> d.validatorIdentity in entries)
    && (forall u :: u in q.undelegations ==> u.validatorIdentity in entries)
  }

  /** Every change naming a validator that is not slashed was priced at its next rate. */
  ghost predicate Priced(q: DelegationChanges, entries: map<IdentityKey, Entry>) {
    forall v :: v in entries && !entries[v].state.Slashed? ==> PricedAt(q, v, entries[v].next)
  }

  lemma {:induction false} UnnamedIsNothing(
    q: DelegationChanges, ds: seq<Delegate>, us: seq<Undelegate>, entries: map<IdentityKey, Entry>, v: IdentityKey)
    requires Names(q, entries) && v !in entries && ds <= q.delegations && us <= q.undelegations
    ensures Delegated(ds, v) == 0 && Undelegated(us, v) == 0
    decreases |ds| + |us|
  {
    if ds != [] {
      assert ds[|ds| - 1] == q.delegations[|ds| - 1];
      UnnamedIsNothing(q, ds[..|ds| - 1], us, entries, v);
    } else if us != [] {
      assert us[|us| - 1] == q.undelegations[|us| - 1];
      UnnamedIsNothing(q, ds, us[..|us| - 1], entries, v);
    }
  }

  /** Changes recorded since genesis and those queued in this block. */
  ghost function History(c: Component, n: nat): DelegationChanges
    requires RecordedTo(c.state, n)
  {
    Append(Collect(c.state.changes, 0, n), c.pending)
  }

  /** Changes of the epoch starting at `start`, recorded up to height `n` or queued in this block. */
  ghost function Queue(c: Component, start: nat, n: nat): DelegationChanges
    requires start <= n && RecordedTo(c.state, n)
  {
    Append(Collect(c.state.changes, start, n), c.pending)
  }

  ghost predicate QueueOk(c: Component, start: nat, n: nat) {
    && start <= n && RecordedTo(c.state, n)
    && Names(History(c, n), c.state.entries)
    && Priced(Queue(c, start, n), c.state.entries)
  }

  /** `t` knows the validators of `s`, and prices those not slashed as before. */
  ghost predicate SamePrices(s: State, t: State) {
    && t.changes == s.changes
    && forall v :: v in s.entries ==>
         && v in t.entries
         && (!t.entries[v].state.Slashed? ==> !s.entries[v].state.Slashed? && t.entries[v].next == s.entries[v].next)
  }

  lemma QueueSurvives(c: Component, d: Component, start: nat, n: nat)
    requires QueueOk(c, start, n) && SamePrices(c.state, d.state) && d.pending == c.pending
    requires forall v :: v in d.state.entries ==> v in c.state.entries
    ensures QueueOk(d, start, n)
  {}

  lemma BeginKeepsQueue(c: Component, d: Component, start: nat, n: nat)
    requires QueueOk(c, start, n) && BeginFrame(c.state, d.state) && d.pending == c.pending
    ensures QueueOk(d, start, n)
  {
    forall v | v in c.state.entries
      ensures !d.state.entries[v].state.Slashed? ==>
              !c.state.entries[v].state.Slashed? && d.state.entries[v].next == c.state.entries[v].next
    {
      assert BeginStep(c.state.entries[v], d.state.entries[v]);
    }
    QueueSurvives(c, d, start, n);
  }

  lemma {:induction false} SlashAllKeepsPending(c: Component, evidence: seq<IdentityKey>)
    requires SlashAll(c, evidence).Ok?
    ensures SlashAll(c, evidence).value.pending == c.pending
    decreases |evidence|
  {
    if evidence != [] {
      SlashAllKeepsPending(SlashValidator(c, evidence[0], c.state.params.slashingPenaltyMisbehaviorBps).value,
          evidence[1..]);
    }
  }

  lemma {:induction false} TrackKeepsPending(c: Component, vs: seq<IdentityKey>, votes: seq<Vote>)
    requires TrackUptime(c, vs, votes).Ok?
    ensures TrackUptime(c, vs, votes).value.pending == c.pending
    decreases |vs|
  {
    if vs != [] {
      assert TrackOne(c, vs[0], votes).value.pending == c.pending;
      TrackKeepsPending(TrackOne(c, vs[0], votes).value, vs[1..], votes);
    }
  }

  /** The changes of an accepted transaction name known validators and are priced at their next rates. */
  lemma AcceptedIsPriced(s: State, tx: Transaction)
    requires StatefulOk(s, tx)
    ensures Names(ChangesOf(tx), s.entries) && Priced(ChangesOf(tx), s.entries)
  {
    hide TallyFits, DefinitionOk;
    forall d | d in ChangesOf(tx).delegations
      ensures DelegationOk(s, d)
    {}
    forall u | u in ChangesOf(tx).undelegations
      ensures UndelegationOk(s, u)
    {}
  }

  lemma QueueGrows(c: Component, more: DelegationChanges, start: nat, n: nat)
    requires QueueOk(c, start, n) && Names(more, c.state.entries) && Priced(more, c.state.entries)
    ensures QueueOk(c.(pending := Append(c.pending, more)), start, n)
  {
    var d := c.(pending := Append(c.pending, more));
    assert Queue(d, start, n) == Append(Queue(c, start, n), more);
    assert History(d, n) == Append(History(c, n), more);
  }

  /** New validators are named by no change so far. */
  lemma DefineKeepsQueue(c: Component, t: State, start: nat, n: nat)
    requires QueueOk(c, start, n) && DefineFrame(c.state, t)
    ensures QueueOk(c.(state := t), start, n)
  {
    CollectSplit(c.state.changes, 0, start, n);
    var q := Queue(c, start, n);
    assert Names(q, c.state.entries);
    forall v | v in t.entries && !t.entries[v].state.Slashed?
      ensures PricedAt(q, v, t.entries[v].next)
    {
      if v in c.state.entries {
        assert t.entries[v] == c.state.entries[v].(definition := t.entries[v].definition);
      }
    }
  }

  lemma DeliverKeepsQueue(c: Component, tx: Transaction, k: nat, start: nat, n: nat)
    requires QueueOk(c, start, n) && InBlock(c.state, k)
    ensures QueueOk(DeliverTx(c, tx), start, n)
  {
    hide StateOk, UptimesAt, QueueOk, StatefulOk, DefineFrame;
    Durations(c.state, k);
    if StatelessOk(tx) && StatefulOk(c.state, tx) {
      AcceptedIsPriced(c.state, tx);
      QueueGrows(c, ChangesOf(tx), start, n);
      DefineAllKeepsOk(c.state, DefinitionsOf(tx.actions), k, c.state.height);
      DefineKeepsQueue(c.(pending := Append(c.pending, ChangesOf(tx))),
          DefineAll(c.state, DefinitionsOf(tx.actions)), start, n);
    }
  }

  lemma {:induction false} DeliverAllKeepsQueue(c: Component, txs: seq<Transaction>, k: nat, start: nat, n: nat)
    requires QueueOk(c, start, n) && InBlock(c.state, k)
    ensures QueueOk(DeliverAll(c, txs), start, n)
  {
    hide QueueOk, InBlock, DeliverTx;
    assert c.state.params.epochDuration > 0 by { Durations(c.state, k); }
    if txs != [] {
      DeliverOk(c, txs[..|txs| - 1], k);
      DeliverAllKeepsQueue(c, txs[..|txs| - 1], k, start, n);
      DeliverKeepsQueue(DeliverAll(c, txs[..|txs| - 1]), txs[|txs| - 1], k, start, n);
    }
  }

  lemma Durations(s: State, k: nat)
    requires InBlock(s, k)
    ensures s.params.epochDuration > 0
  {}

  // ---------------------------------------------------------------------------------------------
  // Ledger of delegation tokens
  // ---------------------------------------------------------------------------------------------

  /** Supplies equal the genesis allocation plus the net changes recorded below height `n`, as 64-bit numbers. */
  ghost predicate Conserved(s: State, g: Genesis, n: nat) {
    && RecordedTo(s, n)
    && forall v :: Same64(SupplyOf(s, DelegationToken(v)),
       Allocated(g.allocations, DelegationToken(v)) + Net(Collect(s.changes, 0, n), v))
  }

  ghost predicate LedgerOk(c: Component, g: Genesis, start: nat, n: nat) {
    QueueOk(c, start, n) && Conserved(c.state, g, start)
  }

  lemma ConservedFrame(s: State, t: State, g: Genesis, start: nat)
    requires Conserved(s, g, start) && t.supply == s.supply && RecordedTo(t, start)
    requires forall h :: 0 <= h < start ==> t.changes[h] == s.changes[h]
    ensures Conserved(t, g, start)
  {
    CollectFrame(s.changes, t.changes, 0, start);
    forall v
      ensures SupplyOf(t, DelegationToken(v)) == SupplyOf(s, DelegationToken(v))
    {}
  }

  lemma RecordKeepsLedger(c: Component, g: Genesis, start: nat)
    requires LedgerOk(c, g, start, c.state.height)
    ensures LedgerOk(Recorded(c), g, start, c.state.height + 1)
    ensures Queue(Recorded(c), start, c.state.height + 1) == Queue(c, start, c.state.height)
  {
    var n, d := c.state.height, Recorded(c);
    CollectFrame(c.state.changes, d.state.changes, 0, n);
    CollectFrame(c.state.changes, d.state.changes, start, n);
    assert Queue(d, start, n + 1) == Queue(c, start, n);
    assert History(d, n + 1) == History(c, n);
    ConservedFrame(c.state, d.state, g, start);
  }

  lemma RollConserves(s: State, t: State, ctx: EpochContext, g: Genesis, start: nat, end: nat)
    requires Conserved(s, g, start) && start <= end && RecordedTo(s, end)
    requires ctx.changes == Collect(s.changes, start, end) && Names(Collect(s.changes, 0, end), s.entries)
    requires SuppliesRolled(s, t, ctx) && t.changes == s.changes && forall v :: v in s.entries <==> v in s.list
    ensures Conserved(t, g, end)
  {
    hide Same64, SupplyOf, Allocated, NetDelta, Net, Names, StakingChanges;
    CollectSplit(s.changes, 0, start, end);
    NamesTail(Collect(s.changes, 0, start), ctx.changes, s.entries);
    forall v
      ensures Same64(SupplyOf(t, DelegationToken(v)),
              Allocated(g.allocations, DelegationToken(v)) + Net(Collect(t.changes, 0, end), v))
    {
      NetSplit(s.changes, 0, start, end, v);
      var before := Allocated(g.allocations, DelegationToken(v)) + Net(Collect(s.changes, 0, start), v);
      if v in s.entries {
        NetDeltaIsNet(ctx, v);
        Same64Add(SupplyOf(s, DelegationToken(v)), before, NetDelta(ctx, v).value, Net(ctx.changes, v));
      } else {
        UnnamedIsNoNet(ctx.changes, s.entries, v);
      }
    }
  }

  lemma NetDeltaIsNet(ctx: EpochContext, v: IdentityKey)
    requires NetDelta(ctx, v).Ok?
    ensures Same64(NetDelta(ctx, v).value, Net(ctx.changes, v))
  {
    DelegationDeltaExactIff(Delegated(ctx.changes.delegations, v), Undelegated(ctx.changes.undelegations, v));
  }

  lemma UnnamedIsNoNet(q: DelegationChanges, entries: map<IdentityKey, Entry>, v: IdentityKey)
    requires Names(q, entries) && v !in entries
    ensures Net(q, v) == 0
  {
    UnnamedIsNothing(q, q.delegations, q.undelegations, entries, v);
  }

  lemma NamesTail(a: DelegationChanges, b: DelegationChanges, entries: map<IdentityKey, Entry>)
    requires Names(Append(a, b), entries)
    ensures Names(b, entries)
  {}

  lemma ContextIsQueue(s: State, epoch: Epoch, ctx: EpochContext)
    requires epoch.duration > 0 && ContextAt(s, epoch) == Ok(ctx)
    ensures ctx.index == epoch.index && HasAll(s.changes, epoch.StartHeight(), epoch.EndHeight() + 1)
    ensures ctx.changes == Collect(s.changes, epoch.StartHeight(), epoch.EndHeight() + 1)
  {}

  /** From `s` to `t` every supply moved by what the boundary records for it. */
  ghost predicate SuppliesRolled(s: State, t: State, ctx: EpochContext) {
    && (forall i :: 0 <= i < |s.list| ==> s.list[i] in s.entries)
    && SupplyOf(t, StakingToken) == SupplyOf(s, StakingToken) + StakingChanges(s, s.list, ctx)
    && forall v ::
         if v in s.list then NetDelta(ctx, v).Ok?
             && SupplyOf(t, DelegationToken(v)) == SupplyOf(s, DelegationToken(v)) + NetDelta(ctx, v).value
         else SupplyOf(t, DelegationToken(v)) == SupplyOf(s, DelegationToken(v))
  }

  lemma RollSupply(s: State, ctx: EpochContext)
    requires Distinct(s.list) && (forall i :: 0 <= i < |s.list| ==> s.list[i] in s.entries) && RollOver(s, ctx).Ok?
    ensures SuppliesRolled(s, RollOver(s, ctx).value.0, ctx)
  {
    hide NetDelta, StakingChanges, StakingChange, ProcessAll;
    var start := s.(curBase := ctx.curBase, nextBase := ctx.nextBase);
    ProcessAllSupply(start, s.list, ctx);
    StakingChangesFrame(start, s, s.list, ctx);
    forall a
      ensures SupplyOf(start, a) == SupplyOf(s, a)
    {}
  }

  lemma SameSupplies(s: State, t: State, u: State, ctx: EpochContext)
    requires SuppliesRolled(s, t, ctx) && u.supply == t.supply
    ensures SuppliesRolled(s, u, ctx)
  {
    hide NetDelta, StakingChanges;
    forall a
      ensures SupplyOf(u, a) == SupplyOf(t, a)
    {}
  }

  /** The supplies after the roll-over are those after the whole boundary. */
  lemma EndEpochSupply(c: Component, k: nat)
    requires StateOk(c.state, k) && UptimesAt(c.state, c.state.height)
    requires c.state.params.epochDuration > 0 && EndEpoch(c, Epoch(k, c.state.params.epochDuration)).Ok?
    ensures var s, t, epoch := c.state, EndEpoch(c, Epoch(k, c.state.params.epochDuration)).value.state,
            Epoch(k, c.state.params.epochDuration);
            && ContextAt(s, epoch).Ok?
            && t.changes == s.changes && t.entries.Keys == s.entries.Keys
            && SuppliesRolled(s, t, ContextAt(s, epoch).value)
  {
    var epoch := Epoch(k, c.state.params.epochDuration);
    var ctx := ContextAt(c.state, epoch).value;
    ListFacts(c.state, k);
    ContextIsQueue(c.state, epoch, ctx);
    hide StateOk, ContextAt, RollOver, ProcessEpochTransitions, SuppliesRolled, UptimesAt, Transitioned,
         Chosen, EpochStep;
    RollOutcome(c.state, ctx, k);
    RollSupply(c.state, ctx);
    var rolled := c.(state := RollOver(c.state, ctx).value.0);
    BoundaryOutcome(rolled, k);
    SameSupplies(c.state, rolled.state, EndEpoch(c, epoch).value.state, ctx);
  }

  lemma ListFacts(s: State, k: nat)
    requires StateOk(s, k)
    ensures Distinct(s.list) && (forall v :: v in s.entries <==> v in s.list)
    ensures forall i :: 0 <= i < |s.list| ==> s.list[i] in s.entries
  {}

  lemma EndEpochKeepsLedger(c: Component, g: Genesis, k: nat)
    requires StateOk(c.state, k) && UptimesAt(c.state, c.state.height) && c.pending == NO_CHANGES
    requires var epoch := Epoch(k, c.state.params.epochDuration);
             && epoch.duration > 0 && epoch.IsEpochEnd(c.state.height)
             && LedgerOk(c, g, epoch.StartHeight(), c.state.height + 1)
             && EndEpoch(c, epoch).Ok?
    ensures LedgerOk(EndEpoch(c, Epoch(k, c.state.params.epochDuration)).value, g, c.state.height + 1,
            c.state.height + 1)
  {
    hide EndEpoch, ContextAt, StateOk, UptimesAt, SuppliesRolled, Conserved, EndFrame, BoundaryStep;
    var epoch := Epoch(k, c.state.params.epochDuration);
    var n := c.state.height + 1;
    EndEpochSupply(c, k);
    ContextIsQueue(c.state, epoch, ContextAt(c.state, epoch).value);
    ListFacts(c.state, k);
    EndEpochClears(c, epoch);
    var d := EndEpoch(c, epoch).value;
    assert History(c, n) == Collect(c.state.changes, 0, n);
    ConservedRecorded(c.state, g, epoch.StartHeight());
    RollConserves(c.state, d.state, ContextAt(c.state, epoch).value, g, epoch.StartHeight(), n);
    FreshQueue(c, d, epoch.StartHeight(), n);
  }

  lemma EndEpochClears(c: Component, epoch: Epoch)
    requires epoch.duration > 0 && EndEpoch(c, epoch).Ok?
    ensures EndEpoch(c, epoch).value.pending == NO_CHANGES
  {}

  lemma FreshQueue(c: Component, d: Component, start: nat, n: nat)
    requires QueueOk(c, start, n) && c.pending == d.pending == NO_CHANGES
    requires d.state.changes == c.state.changes && d.state.entries.Keys == c.state.entries.Keys
    ensures QueueOk(d, n, n)
  {
    assert History(d, n) == History(c, n);
    assert Queue(d, n, n) == NO_CHANGES;
  }

  lemma ConservedRecorded(s: State, g: Genesis, start: nat)
    requires Conserved(s, g, start)
    ensures RecordedTo(s, start)
  {}

  // ---------------------------------------------------------------------------------------------
  // Runs
  // ---------------------------------------------------------------------------------------------

  ghost function EpochStart(s: State): nat
    requires s.params.epochDuration > 0
  {
    Epoch(NextEpoch(s), s.params.epochDuration).StartHeight()
  }

  ghost predicate ChainLedgerOk(ch: Chain, g: Genesis) {
    && ch.component.state.params.epochDuration > 0
    && LedgerOk(ch.component, g, EpochStart(ch.component.state), ch.component.state.height + 1)
  }

  lemma BeginKeepsLedger(
    c: Component, evidence: seq<IdentityKey>, votes: seq<Vote>, g: Genesis, k: nat, start: nat, n: nat)
    requires LedgerOk(c, g, start, n) && StateOk(c.state, k) && UptimesAt(c.state, c.state.height - 1)
    requires BeginBlock(c, evidence, votes).Ok?
    ensures LedgerOk(BeginBlock(c, evidence, votes).value, g, start, n)
  {
    var d := BeginBlock(c, evidence, votes).value;
    SlashAllKeepsPending(c, evidence);
    var c1 := SlashAll(c, evidence).value;
    TrackKeepsPending(c1, c1.state.list, votes);
    BeginBlockKeepsOk(c, evidence, votes, k);
    hide BeginBlock, StateOk, QueueOk, Conserved, UptimesAt;
    BeginKeepsQueue(c, d, start, n);
    ConservedRecorded(c.state, g, start);
    ConservedFrame(c.state, d.state, g, start);
  }

  /** Up to end_block the ledger is that of the running epoch. */
  lemma BeforeEndLedger(ch: Chain, b: Block, g: Genesis)
    requires ChainOk(ch) && ChainLedgerOk(ch, g) && BeforeEnd(ch, b).Ok?
    ensures var c := BeforeEnd(ch, b).value;
            && InBlock(c.state, NextEpoch(ch.component.state)) && c.state.height == ch.component.state.height + 1
            && LedgerOk(c, g, EpochStart(ch.component.state), c.state.height)
            && c.state.params == ch.component.state.params
  {
    var k, start := NextEpoch(ch.component.state), EpochStart(ch.component.state);
    var a := Advanced(ch);
    BookkeepingKeepsOk(ch.component.state, a.state, k, ch.component.state.height);
    AdvanceKeepsLedger(ch, g);
    BeginOk(ch, b);
    hide StateOk, UptimesAt, Tracking, BeginBlock, QueueOk, Conserved, LedgerOk;
    BeginKeepsLedger(a, b.evidence, b.votes, g, k, start, a.state.height);
    var c := BeginBlock(a, b.evidence, b.votes).value;
    DeliverOk(c, b.txs, k);
    LedgerParts(c, g, start, c.state.height);
    DeliverAllKeepsQueue(c, b.txs, k, start, c.state.height);
    DeliverAllKeepsOk(c, b.txs, k, c.state.height);
    DeliverKeepsConserved(c, DeliverAll(c, b.txs), g, start, c.state.height);
  }

  lemma AdvanceKeepsLedger(ch: Chain, g: Genesis)
    requires ChainLedgerOk(ch, g)
    ensures LedgerOk(Advanced(ch), g, EpochStart(ch.component.state), ch.component.state.height + 1)
  {
    var n := ch.component.state.height + 1;
    assert History(Advanced(ch), n) == History(ch.component, n);
    ConservedFrame(ch.component.state, Advanced(ch).state, g, EpochStart(ch.component.state));
  }

  lemma LedgerParts(c: Component, g: Genesis, start: nat, n: nat)
    requires LedgerOk(c, g, start, n)
    ensures QueueOk(c, start, n) && Conserved(c.state, g, start)
  {}

  lemma DeliverKeepsConserved(c: Component, d: Component, g: Genesis, start: nat, n: nat)
    requires LedgerOk(c, g, start, n) && QueueOk(d, start, n) && DefineFrame(c.state, d.state)
    ensures LedgerOk(d, g, start, n)
  {
    ConservedFrame(c.state, d.state, g, start);
  }

  lemma EndBlockKeepsLedger(c: Component, g: Genesis, k: nat)
    requires InBlock(c.state, k) && c.state.params.epochDuration > 0 && EndBlock(c, c.state.height).Ok?
    requires LedgerOk(c, g, Epoch(k, c.state.params.epochDuration).StartHeight(), c.state.height)
    ensures var t := EndBlock(c, c.state.height).value;
            && t.state.params == c.state.params && t.state.height == c.state.height
            && LedgerOk(t, g, EpochStart(t.state), c.state.height + 1)
  {
    hide StateOk, UptimesAt, LedgerOk, EndEpoch, EndBlock, Later;
    EndBlockKeepsOk(c, k);
    var epoch, t := Epoch(k, c.state.params.epochDuration), EndBlock(c, c.state.height).value;
    NextStart(t.state, k);
    RecordKeepsLedger(c, g, epoch.StartHeight());
    if epoch.IsEpochEnd(c.state.height) {
      EpochEndKeepsLedger(c, g, k);
    } else {
      EndBlockRecords(c, k);
    }
  }

  /** The epoch of the next block starts there if this block ends its epoch, and is this block's otherwise. */
  lemma NextStart(s: State, k: nat)
    requires s.params.epochDuration > 0 && k == FromHeight(s.height, s.params.epochDuration).index
    ensures var epoch := Epoch(k, s.params.epochDuration);
            EpochStart(s) == if epoch.IsEpochEnd(s.height) then s.height + 1 else epoch.StartHeight()
  {
    NextHeightEpoch(s.height, s.params.epochDuration);
    EpochsAbut(k, s.params.epochDuration);
  }

  lemma EpochEndKeepsLedger(c: Component, g: Genesis, k: nat)
    requires InBlock(c.state, k) && c.state.params.epochDuration > 0 && EndBlock(c, c.state.height).Ok?
    requires Epoch(k, c.state.params.epochDuration).IsEpochEnd(c.state.height)
    requires LedgerOk(Recorded(c), g, Epoch(k, c.state.params.epochDuration).StartHeight(), c.state.height + 1)
    ensures LedgerOk(EndBlock(c, c.state.height).value, g, c.state.height + 1, c.state.height + 1)
  {
    hide StateOk, UptimesAt, LedgerOk, EndEpoch, EndBlock;
    EndBlockIsEndEpoch(c, k);
    BookkeepingKeepsOk(c.state, Recorded(c).state, k, c.state.height);
    EndEpochKeepsLedger(Recorded(c), g, k);
  }

  lemma EndBlockRecords(c: Component, k: nat)
    requires c.state.params.epochDuration > 0 && k == FromHeight(c.state.height, c.state.params.epochDuration).index
    requires !Epoch(k, c.state.params.epochDuration).IsEpochEnd(c.state.height)
    ensures EndBlock(c, c.state.height) == Ok(Recorded(c))
  {
    hide EndEpoch;
  }

  lemma BlockKeepsLedger(ch: Chain, b: Block, g: Genesis)
    requires ChainOk(ch) && ChainLedgerOk(ch, g) && RunBlock(ch, b).Ok?
    ensures ChainLedgerOk(RunBlock(ch, b).value, g)
  {
    hide EndBlock, MintRewards, LedgerOk, StateOk, UptimesAt, BeforeEnd, Later;
    BeforeEndLedger(ch, b, g);
    var c := BeforeEnd(ch, b).value;
    EndBlockKeepsLedger(c, g, NextEpoch(ch.component.state));
    EndBlockKeepsOk(c, NextEpoch(ch.component.state));
    var d := EndBlock(c, c.state.height).value;
    MintKeepsOk(d.state, NextEpoch(d.state));
    MintKeepsLedger(d, RunBlock(ch, b).value.component, g, EpochStart(d.state), c.state.height + 1);
  }

  /** Minting commissions and clearing the report leave the delegation ledger alone. */
  lemma MintKeepsLedger(c: Component, d: Component, g: Genesis, start: nat, n: nat)
    requires LedgerOk(c, g, start, n) && d.state == c.state.(supply := d.state.supply)
    requires d.pending == NO_CHANGES && c.pending == NO_CHANGES
    requires forall v :: SupplyOf(d.state, DelegationToken(v)) == SupplyOf(c.state, DelegationToken(v))
    ensures LedgerOk(d, g, start, n)
  {
    hide Same64, SupplyOf;
    assert History(d, n) == History(c, n) && Queue(d, start, n) == Queue(c, start, n);
  }

  lemma StartLedger(g: Genesis)
    requires GenesisOk(g) && Start(g).Ok?
    ensures ChainLedgerOk(Start(g).value, g)
  {
    hide Start, StateOk, UptimesAt;
    StartStateOk(g);
    var c := Start(g).value.component;
    StartPending(g);
    assert FromHeight(1, g.params.epochDuration).index == 0;
    assert Collect(c.state.changes, 0, 1) == Append(Collect(c.state.changes, 0, 0), NO_CHANGES);
    assert History(c, 1) == NO_CHANGES && Queue(c, 0, 1) == NO_CHANGES;
  }

  lemma StartPending(g: Genesis)
    requires Start(g).Ok?
    ensures Start(g).value.component.pending == NO_CHANGES
  {}

  lemma {:induction false} RunsKeepLedger(g: Genesis, bs: seq<Block>)
    requires GenesisOk(g) && Start(g).Ok? && RunBlocks(Start(g).value, bs).Ok?
    ensures ChainLedgerOk(RunBlocks(Start(g).value, bs).value, g)
  {
    hide ChainLedgerOk, ChainOk, RunBlock, Start;
    if bs == [] {
      StartLedger(g);
    } else {
      RunsKeepLedger(g, bs[..|bs| - 1]);
      RunsAreSafe(g, bs[..|bs| - 1]);
      BlockKeepsLedger(RunBlocks(Start(g).value, bs[..|bs| - 1]).value, bs[|bs| - 1], g);
    }
  }

  /**
   In every reachable state each delegation token's supply is, as a 64-bit
   number, its genesis allocation plus all delegations minus all undelegations
   recorded in completed epochs; it is exactly that sum if and only if the sum
   is a 64-bit number.
   */
  lemma DelegationsConserved(g: Genesis, bs: seq<Block>, v: IdentityKey)
    requires GenesisOk(g) && Start(g).Ok? && RunBlocks(Start(g).value, bs).Ok?
    ensures var s := RunBlocks(Start(g).value, bs).value.component.state;
            && s.params.epochDuration > 0 && RecordedTo(s, EpochStart(s))
            && var total := Allocated(g.allocations, DelegationToken(v)) + Net(Collect(s.changes, 0, EpochStart(s)), v);
               && Same64(SupplyOf(s, DelegationToken(v)), total)
               && (SupplyOf(s, DelegationToken(v)) == total <==> 0 <= total < U64)
  {
    hide RunBlocks, Start, ChainOk, QueueOk, Collect, Net, Allocated, EpochStart, SupplyOf;
    RunsKeepLedger(g, bs);
    RunsAreSafe(g, bs);
    SupplyFits(RunBlocks(Start(g).value, bs).value, DelegationToken(v));
  }

  lemma SupplyFits(ch: Chain, a: Asset)
    requires ChainOk(ch)
    ensures SupplyOf(ch.component.state, a) < U64
  {}

  /** The changes an accepted transaction queues; a rejected one queues none. */
  ghost function Accepted(c: Component, txs: seq<Transaction>): DelegationChanges
    requires c.state.params.epochDuration > 0
  {
    if txs == [] then NO_CHANGES
    else
      var tx, before := txs[|txs| - 1], DeliverAll(c, txs[..|txs| - 1]);
      Append(Accepted(c, txs[..|txs| - 1]),
          if StatelessOk(tx) && StatefulOk(before.state, tx) then ChangesOf(tx) else NO_CHANGES)
  }

  lemma {:induction false} DeliverQueues(c: Component, txs: seq<Transaction>)
    requires c.state.params.epochDuration > 0
    ensures DeliverAll(c, txs).pending == Append(c.pending, Accepted(c, txs))
  {
    hide StatelessOk, StatefulOk, DefineAll, ChangesOf;
    if txs != [] {
      DeliverQueues(c, txs[..|txs| - 1]);
      AppendNothing(DeliverAll(c, txs[..|txs| - 1]).pending);
    }
  }

  lemma AppendNothing(a: DelegationChanges)
    ensures Append(a, NO_CHANGES) == a
  {}

  /** Each block records, at its height, exactly the delegations and undelegations of its accepted transactions. */
  lemma BlockRecordsAccepted(ch: Chain, b: Block)
    requires ChainOk(ch) && RunBlock(ch, b).Ok?
    ensures var c := BeginBlock(Advanced(ch), b.evidence, b.votes).value;
            && c.state.params.epochDuration > 0
            && RunBlock(ch, b).value.component.state.changes
               == ch.component.state.changes[ch.component.state.height + 1 := Accepted(c, b.txs)]
  {
    hide BeginBlock, DeliverAll, EndBlock, MintRewards, StateOk, UptimesAt, Accepted, Tracking, Later, DefineFrame,
         BeginFrame;
    BeginOk(ch, b);
    var c := BeginBlock(Advanced(ch), b.evidence, b.votes).value;
    BeginKeepsPending(Advanced(ch), b.evidence, b.votes);
    BeginKeepsChanges(ch, b);
    DeliverKeepsChanges(c, b.txs, NextEpoch(ch.component.state));
    DeliverOk(c, b.txs, NextEpoch(ch.component.state));
    DeliverQueues(c, b.txs);
    var d := DeliverAll(c, b.txs);
    EndBlockKeepsOk(d, NextEpoch(ch.component.state));
    var t := EndBlock(d, d.state.height).value.state;
    MintKeepsOk(t, NextEpoch(t));
    assert Append(NO_CHANGES, Accepted(c, b.txs)) == Accepted(c, b.txs);
  }

  lemma BeginKeepsChanges(ch: Chain, b: Block)
    requires ChainOk(ch) && BeginBlock(Advanced(ch), b.evidence, b.votes).Ok?
    ensures BeginBlock(Advanced(ch), b.evidence, b.votes).value.state.changes == ch.component.state.changes
  {
    hide BeginBlock, StateOk, Tracking, UptimesAt;
    BookkeepingKeepsOk(ch.component.state, Advanced(ch).state, NextEpoch(ch.component.state),
        ch.component.state.height);
    BeginBlockKeepsOk(Advanced(ch), b.evidence, b.votes, NextEpoch(ch.component.state));
  }

  lemma DeliverKeepsChanges(c: Component, txs: seq<Transaction>, k: nat)
    requires InBlock(c.state, k)
    ensures DeliverAll(c, txs).state.changes == c.state.changes
  {
    DeliverAllKeepsOk(c, txs, k, c.state.height);
  }

  lemma BeginKeepsPending(c: Component, evidence: seq<IdentityKey>, votes: seq<Vote>)
    requires BeginBlock(c, evidence, votes).Ok?
    ensures BeginBlock(c, evidence, votes).value.pending == c.pending
  {
    SlashAllKeepsPending(c, evidence);
    var c1 := SlashAll(c, evidence).value;
    TrackKeepsPending(c1, c1.state.list, votes);
  }

  // ---------------------------------------------------------------------------------------------
  // Drift over a run
  // ---------------------------------------------------------------------------------------------

  /**
   What the boundary records for a validator with entry `e` whose epoch brought
   the changes `ctx.changes`: the staking tokens handed over exceed the burn of
   the netted delta by at least 0 and less than one delegation token per
   delegation plus one staking token per undelegation plus one; and the recorded
   change of supply is minus that burn, when totals and burn fit signed 64 bits.
   */
  ghost predicate DriftBounded(e: Entry, ctx: EpochContext, v: IdentityKey) {
    var q, rate := ctx.changes, e.next;
    var burn := Burn(rate, Net(q, v));
    var drift := Bonded(q.delegations, v) - Released(q.undelegations, v) - burn;
    && 0 <= drift
    && drift * SCALE < DelegationsTo(q.delegations, v) * rate.exchangeRate
       + (UndelegationsFrom(q.undelegations, v) + 1) * SCALE
    && (Delegated(q.delegations, v) < I64 && Undelegated(q.undelegations, v) < I64 && -I64 < burn < I64 ==>
          StakingChange(e, ctx, v) == -burn)
  }

  /**
   Over the block that ends an epoch, from the recorded queue `s` to the end `t`, the
   staking supply moves by the recorded changes, whose drift is bounded, and by the
   commissions that the shielded pool mints.
   */
  ghost predicate BoundaryAccounts(s: State, t: State, epoch: Epoch) {
    && epoch.duration > 0 && ContextAt(s, epoch).Ok?
    && (forall i :: 0 <= i < |s.list| ==> s.list[i] in s.entries)
    && t.height in t.commissions
    && SupplyOf(t, StakingToken)
       == SupplyOf(s, StakingToken) + StakingChanges(s, s.list, ContextAt(s, epoch).value)
           + Credited(t.commissions[t.height])
    && forall v :: v in s.entries && !s.entries[v].state.Slashed? ==>
       DriftBounded(s.entries[v], ContextAt(s, epoch).value, v)
  }

  /**
   In every epoch of every run the staking supply changes by the sum over the
   validators of what the boundary records plus the commissions minted, and for each
   validator not slashed in the epoch that record drifts from the tokens consumed by
   a bounded amount.
   */
  lemma EpochDrift(g: Genesis, bs: seq<Block>, b: Block)
    requires GenesisOk(g) && Start(g).Ok? && RunBlocks(Start(g).value, bs).Ok?
    requires RunBlock(RunBlocks(Start(g).value, bs).value, b).Ok?
    requires FromHeight(|bs| + 1, g.params.epochDuration).IsEpochEnd(|bs| + 1)
    ensures var ch := RunBlocks(Start(g).value, bs).value;
            && BeforeEnd(ch, b).Ok?
            && BoundaryAccounts(Recorded(BeforeEnd(ch, b).value).state, RunBlock(ch, b).value.component.state,
                                FromHeight(|bs| + 1, g.params.epochDuration))
  {
    hide RunBlocks, Start, BeforeEnd, EndBlock, MintRewards, InBlock, LedgerOk, BoundaryAccounts;
    var ch := RunBlocks(Start(g).value, bs).value;
    RunsKeepLedger(g, bs);
    RunsAreSafe(g, bs);
    RunsKeepParams(g, bs);
    BeforeEndLedger(ch, b, g);
    BoundaryIsAccounted(BeforeEnd(ch, b).value, g, NextEpoch(ch.component.state));
  }

  lemma BoundaryIsAccounted(c: Component, g: Genesis, k: nat)
    requires InBlock(c.state, k) && c.state.params.epochDuration > 0
    requires EndBlock(c, c.state.height).Ok? && MintRewards(EndBlock(c, c.state.height).value.state).Ok?
    requires Epoch(k, c.state.params.epochDuration).IsEpochEnd(c.state.height)
    requires LedgerOk(c, g, Epoch(k, c.state.params.epochDuration).StartHeight(), c.state.height)
    ensures BoundaryAccounts(Recorded(c).state, MintRewards(EndBlock(c, c.state.height).value.state).value,
                             Epoch(k, c.state.params.epochDuration))
  {
    hide EndBlock, EndEpoch, MintRewards, ContextAt, InBlock, StateOk, UptimesAt, DriftBounded, LedgerOk,
         SupplyOf, Credited;
    var epoch := Epoch(k, c.state.params.epochDuration);
    BlockSupply(c, k);
    var s := Recorded(c).state;
    RecordKeepsLedger(c, g, epoch.StartHeight());
    BoundaryContext(c, k);
    var ctx := ContextAt(s, epoch).value;
    forall v | v in s.entries && !s.entries[v].state.Slashed?
      ensures DriftBounded(s.entries[v], ctx, v)
    {
      BoundaryDrift(c, g, k, v);
    }
  }

  lemma BoundaryContext(c: Component, k: nat)
    requires InBlock(c.state, k) && c.state.params.epochDuration > 0 && EndBlock(c, c.state.height).Ok?
    requires Epoch(k, c.state.params.epochDuration).IsEpochEnd(c.state.height)
    ensures var (s, epoch) := (Recorded(c).state, Epoch(k, c.state.params.epochDuration));
            && ContextAt(s, epoch).Ok?
            && SuppliesRolled(s, EndBlock(c, c.state.height).value.state, ContextAt(s, epoch).value)
            && forall v :: v in s.entries <==> v in s.list
  {
    hide EndBlock, EndEpoch, ContextAt, StateOk, UptimesAt, SuppliesRolled;
    EndBlockIsEndEpoch(c, k);
    BookkeepingKeepsOk(c.state, Recorded(c).state, k, c.state.height);
    ListFacts(Recorded(c).state, k);
    EndEpochSupply(Recorded(c), k);
  }

  lemma BoundaryDrift(c: Component, g: Genesis, k: nat, v: IdentityKey)
    requires InBlock(c.state, k) && c.state.params.epochDuration > 0 && EndBlock(c, c.state.height).Ok?
    requires Epoch(k, c.state.params.epochDuration).IsEpochEnd(c.state.height)
    requires LedgerOk(Recorded(c), g, Epoch(k, c.state.params.epochDuration).StartHeight(), c.state.height + 1)
    requires v in c.state.entries && !c.state.entries[v].state.Slashed?
    ensures var (s, epoch) := (Recorded(c).state, Epoch(k, c.state.params.epochDuration));
            ContextAt(s, epoch).Ok? && DriftBounded(c.state.entries[v], ContextAt(s, epoch).value, v)
  {
    hide EndBlock, ContextAt, InBlock, DriftBounded, QueueOk, Conserved, SuppliesRolled, Collect;
    var epoch, d := Epoch(k, c.state.params.epochDuration), Recorded(c);
    BoundaryContext(c, k);
    var ctx := ContextAt(d.state, epoch).value;
    SupplyFacts(d.state, EndBlock(c, c.state.height).value.state, ctx);
    ContextIsQueue(d.state, epoch, ctx);
    QueueRecorded(d, epoch.StartHeight(), c.state.height + 1);
    PricedOf(d, epoch.StartHeight(), c.state.height + 1, v);
    DriftIsBounded(d.state.entries[v], ctx, v);
  }

  /**
   What a block that ends an epoch does to the staking supply: it moves by the changes
   recorded for delegations and by the commissions stored at this height and minted.
   */
  lemma BlockSupply(c: Component, k: nat)
    requires InBlock(c.state, k) && c.state.params.epochDuration > 0
    requires EndBlock(c, c.state.height).Ok? && MintRewards(EndBlock(c, c.state.height).value.state).Ok?
    requires Epoch(k, c.state.params.epochDuration).IsEpochEnd(c.state.height)
    ensures var (s, epoch) := (Recorded(c).state, Epoch(k, c.state.params.epochDuration));
            var t := MintRewards(EndBlock(c, c.state.height).value.state).value;
            && ContextAt(s, epoch).Ok? && (forall i :: 0 <= i < |s.list| ==> s.list[i] in s.entries)
            && t.params == s.params && t.height == s.height && t.height in t.commissions
            && t.commissions == s.commissions[t.height := t.commissions[t.height]]
            && SupplyOf(t, StakingToken)
               == SupplyOf(s, StakingToken) + StakingChanges(s, s.list, ContextAt(s, epoch).value)
                   + Credited(t.commissions[t.height])
  {
    hide EndBlock, EndEpoch, MintRewards, ContextAt, StateOk, UptimesAt, SuppliesRolled, StakingChanges, SupplyOf,
         Credited, Later;
    var epoch, s := Epoch(k, c.state.params.epochDuration), Recorded(c).state;
    BoundaryContext(c, k);
    EndBlockKeepsOk(c, k);
    var u := EndBlock(c, c.state.height).value.state;
    SupplyFacts(s, u, ContextAt(s, epoch).value);
    EndBlockIsEndEpoch(c, k);
    BookkeepingKeepsOk(c.state, s, k, c.state.height);
    EndEpochCommissions(Recorded(c), k);
    MintKeepsOk(u, NextEpoch(u));
  }

  lemma EndEpochCommissions(c: Component, k: nat)
    requires StateOk(c.state, k) && UptimesAt(c.state, c.state.height)
    requires c.state.params.epochDuration > 0 && EndEpoch(c, Epoch(k, c.state.params.epochDuration)).Ok?
    ensures var t := EndEpoch(c, Epoch(k, c.state.params.epochDuration)).value.state;
            && t.height == c.state.height && t.height in t.commissions
            && t.commissions == c.state.commissions[t.height := t.commissions[t.height]]
  {
    var epoch := Epoch(k, c.state.params.epochDuration);
    var ctx := ContextAt(c.state, epoch).value;
    ContextIsQueue(c.state, epoch, ctx);
    hide StateOk, ContextAt, RollOver, ProcessEpochTransitions, UptimesAt, Transitioned, Chosen, EpochStep;
    RollOutcome(c.state, ctx, k);
    BoundaryOutcome(c.(state := RollOver(c.state, ctx).value.0), k);
  }

  lemma EndBlockIsEndEpoch(c: Component, k: nat)
    requires c.state.params.epochDuration > 0 && k == FromHeight(c.state.height, c.state.params.epochDuration).index
    requires Epoch(k, c.state.params.epochDuration).IsEpochEnd(c.state.height)
    ensures EndBlock(c, c.state.height) == EndEpoch(Recorded(c), Epoch(k, c.state.params.epochDuration))
  {
    hide EndEpoch;
  }

  lemma SupplyFacts(s: State, t: State, ctx: EpochContext)
    requires SuppliesRolled(s, t, ctx)
    ensures forall i :: 0 <= i < |s.list| ==> s.list[i] in s.entries
    ensures SupplyOf(t, StakingToken) == SupplyOf(s, StakingToken) + StakingChanges(s, s.list, ctx)
    ensures forall v :: v in s.list ==> NetDelta(ctx, v).Ok?
  {}

  lemma QueueRecorded(c: Component, start: nat, n: nat)
    requires QueueOk(c, start, n) && c.pending == NO_CHANGES
    ensures RecordedTo(c.state, n) && start <= n && Queue(c, start, n) == Collect(c.state.changes, start, n)
  {}

  lemma DriftIsBounded(e: Entry, ctx: EpochContext, v: IdentityKey)
    requires PricedAt(ctx.changes, v, e.next) && NetDelta(ctx, v).Ok?
    ensures DriftBounded(e, ctx, v)
  {
    hide StakingChange, NetDelta, Burn;
    DriftBound(ctx.changes, v, e.next);
    StakingChangeIsBurn(e, ctx, v);
  }

  lemma PricedOf(c: Component, start: nat, n: nat, v: IdentityKey)
    requires QueueOk(c, start, n) && v in c.state.entries && !c.state.entries[v].state.Slashed?
    ensures PricedAt(Queue(c, start, n), v, c.state.entries[v].next)
  {}

  lemma StakingChangeIsBurn(e: Entry, ctx: EpochContext, v: IdentityKey)
    requires NetDelta(ctx, v).Ok?
    ensures var q := ctx.changes;
            Delegated(q.delegations, v) < I64 && Undelegated(q.undelegations, v) < I64
                && -I64 < Burn(e.next, Net(q, v)) < I64 ==>
              StakingChange(e, ctx, v) == -Burn(e.next, Net(q, v))
  {
    DelegationDeltaExactIff(Delegated(ctx.changes.delegations, v), Undelegated(ctx.changes.undelegations, v));
    if StakingDelta(e.next, NetDelta(ctx, v).value).Ok? {
      StakingDeltaExactIff(e.next, NetDelta(ctx, v).value);
    }
  }

  // ---------------------------------------------------------------------------------------------
  // When a delta can wrap at all
  // ---------------------------------------------------------------------------------------------

  /** A rate of at least one gives at least as many staking tokens. */
  lemma UnbondedAtLeast(rate: RateData, n: nat)
    requires rate.exchangeRate >= SCALE
    ensures n * rate.exchangeRate / SCALE >= n
  {
    MulMono(SCALE, rate.exchangeRate, n);
    assert n * SCALE <= n * rate.exchangeRate;
  }

  /** The recorded burns of `n` tokens and of 2^64 less `n` tokens together exceed any supply. */
  lemma BurnsFillSupply(rate: RateData, n: nat)
    requires rate.exchangeRate >= SCALE && n <= U64
    ensures Burn(rate, n) - Burn(rate, n - U64) >= U64
  {
    UnbondedAtLeast(rate, n);
    UnbondedAtLeast(rate, U64 - n);
  }

  /** A wrapped delta is off by 2^64, against the direction of the net change. */
  lemma WrappedDelta(ctx: EpochContext, v: IdentityKey)
    requires NetDelta(ctx, v).Ok? && NetDelta(ctx, v).value != Net(ctx.changes, v)
    ensures var (delta, net) := (NetDelta(ctx, v).value, Net(ctx.changes, v));
            && -U64 < net < U64
            && (net > 0 ==> delta == net - U64) && (net < 0 ==> delta == net + U64) && net != 0
  {}

  /**
   A delta wraps only where tokens are missing. If the supplies cover what an epoch's changes
   consumed, the validator's rate is at least 1, so it was not slashed since, and the recorded
   change of the staking supply is not cast itself, then a wrapped delta does not get past the
   update of the supplies.
   */
  lemma WrapFails(s: State, v: IdentityKey, ctx: EpochContext)
    requires v in s.entries && s.entries[v].next.exchangeRate >= SCALE && PricedAt(ctx.changes, v, s.entries[v].next)
    requires NetDelta(ctx, v).Ok? && NetDelta(ctx, v).value != Net(ctx.changes, v)
    requires -I64 < Burn(s.entries[v].next, NetDelta(ctx, v).value) < I64
    requires 0 - Net(ctx.changes, v) <= SupplyOf(s, DelegationToken(v))
    requires Bonded(ctx.changes.delegations, v) - Released(ctx.changes.undelegations, v) <= SupplyOf(s, StakingToken)
    ensures ProcessValidator(s, v, ctx).Err?
  {
    hide ProcessValidator, NetDelta, Net, SupplyOf, StakingChange, StakingDelta;
    hide Bonded, Released, PricedAt, Burn, DelegationsTo, UndelegationsFrom;
    var e, q := s.entries[v], ctx.changes;
    WrappedDelta(ctx, v);
    if ProcessValidator(s, v, ctx).Ok? {
      ProcessOneSupply(s, v, ctx);
      SupplyStays(s, v, ctx);
      RecordIsBurn(e, ctx, v);
      if Net(q, v) > 0 {
        DriftBound(q, v, e.next);
        BurnsFillSupply(e.next, Net(q, v));
        BurnSign(e.next, NetDelta(ctx, v).value);
      }
      assert false;
    }
  }

  lemma RecordIsBurn(e: Entry, ctx: EpochContext, v: IdentityKey)
    requires NetDelta(ctx, v).Ok? && StakingDelta(e.next, NetDelta(ctx, v).value).Ok?
    requires -I64 < Burn(e.next, NetDelta(ctx, v).value) < I64
    ensures StakingChange(e, ctx, v) == 0 - Burn(e.next, NetDelta(ctx, v).value)
  {
    hide NetDelta, Burn;
    StakingDeltaExactIff(e.next, NetDelta(ctx, v).value);
  }

  lemma BurnSign(rate: RateData, delta: int)
    ensures delta < 0 ==> Burn(rate, delta) <= 0
  {}

  /** The supplies a successful roll-over leaves are 64-bit numbers. */
  lemma SupplyStays(s: State, v: IdentityKey, ctx: EpochContext)
    requires ProcessValidator(s, v, ctx).Ok? && NetDelta(ctx, v).Ok?
    ensures var (delta, t) := (NetDelta(ctx, v).value, ProcessValidator(s, v, ctx).value.0);
            && (delta >= 0 ==> SupplyOf(t, DelegationToken(v)) < U64)
            && (delta < 0 && StakingChange(s.entries[v], ctx, v) >= 0 ==> SupplyOf(t, StakingToken) < U64)
  {
    hide CommissionsOf, Delegated, Undelegated;
  }
}
