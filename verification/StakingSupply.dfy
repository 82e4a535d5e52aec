/**
 The staking token supply over whole runs: what genesis allocated, what the epoch
 boundaries recorded for delegations, and the commissions that were minted.
 */
module StakingSupply {
  import opened Prelude
  import opened Epochs
  import opened StakingSpec
  import opened StakingRuns
  import opened StakingInvariant
  import opened StakingSafety
  import opened StakingConservation

  /** What the block after `ch` records as the change of the staking supply: something only at an epoch's end. */
  ghost function BlockRecord(ch: Chain, b: Block): int {
    var r := BeforeEnd(ch, b);
    if r.Err? then 0
    else
      var s := Recorded(r.value).state;
      var epoch := FromHeight(s.height, s.params.epochDuration);
      if !epoch.IsEpochEnd(s.height) || ContextAt(s, epoch).Err?
          || !(forall i :: 0 <= i < |s.list| ==> s.list[i] in s.entries)
      then 0
      else StakingChanges(s, s.list, ContextAt(s, epoch).value)
  }

  /** All changes recorded in a run. */
  ghost function RunRecord(ch: Chain, bs: seq<Block>): int
    requires RunBlocks(ch, bs).Ok?
  {
    if bs == [] then 0
    else
      var init := bs[..|bs| - 1];
      RunRecord(ch, init) + BlockRecord(RunBlocks(ch, init).value, bs[|bs| - 1])
  }

  /** All commissions stored below height `n`. */
  ghost function CommissionsBelow(commissions: map<nat, seq<CommissionAmount>>, n: nat): nat {
    if n == 0 then 0
    else CommissionsBelow(commissions, n - 1) + (if n - 1 in commissions then Amounts(commissions[n - 1]) else 0)
  }

  ghost predicate IsEnd(h: int, duration: nat) {
    0 < duration && 0 < h && FromHeight(h, duration).IsEpochEnd(h)
  }

  /** Commissions are stored for the last heights of the completed epochs, and for no others. */
  ghost predicate StoredAtEnds(s: State) {
    forall h :: h in s.commissions <==> h <= s.height && IsEnd(h, s.params.epochDuration)
  }

  lemma {:induction false} BelowFrame(a: map<nat, seq<CommissionAmount>>, b: map<nat, seq<CommissionAmount>>, n: nat)
    requires forall h :: 0 <= h < n ==> (h in a <==> h in b) && (h in a ==> a[h] == b[h])
    ensures CommissionsBelow(a, n) == CommissionsBelow(b, n)
  {
    if n > 0 {
      BelowFrame(a, b, n - 1);
    }
  }

  /** Before end_block a block has touched neither supplies nor commissions. */
  lemma BeforeEndFrame(ch: Chain, b: Block)
    requires ChainOk(ch) && BeforeEnd(ch, b).Ok?
    ensures var (s, t) := (ch.component.state, BeforeEnd(ch, b).value.state);
            && t == s.(height := s.height + 1, list := t.list, entries := t.entries)
            && InBlock(t, NextEpoch(s))
  {
    hide BeginBlock, DeliverAll, StateOk, UptimesAt, Tracking, BeginStep, Later;
    var k, a := NextEpoch(ch.component.state), Advanced(ch);
    BookkeepingKeepsOk(ch.component.state, a.state, k, ch.component.state.height);
    BeginBlockKeepsOk(a, b.evidence, b.votes, k);
    BeginOk(ch, b);
    var c := BeginBlock(a, b.evidence, b.votes).value;
    DeliverOk(c, b.txs, k);
    DeliverAllKeepsOk(c, b.txs, k, c.state.height);
  }

  /** The staking supply and the commissions across one block. */
  ghost predicate BlockAccounts(s: State, t: State, record: int) {
    var h := s.height + 1;
    && t.height == h && t.params == s.params
    && (IsEnd(h, s.params.epochDuration) ==>
          && h in t.commissions && t.commissions == s.commissions[h := t.commissions[h]]
          && SupplyOf(t, StakingToken) == SupplyOf(s, StakingToken) + record + Credited(t.commissions[h]))
    && (!IsEnd(h, s.params.epochDuration) ==>
          t.commissions == s.commissions && record == 0 && SupplyOf(t, StakingToken) == SupplyOf(s, StakingToken))
  }

  lemma BlockIsAccounted(ch: Chain, b: Block)
    requires ChainOk(ch) && StoredAtEnds(ch.component.state) && RunBlock(ch, b).Ok?
    ensures BlockAccounts(ch.component.state, RunBlock(ch, b).value.component.state, BlockRecord(ch, b))
  {
    hide BeforeEnd, EndBlock, MintRewards, InBlock, ContextAt, StakingChanges, ChainOk, Credited;
    var s, c := ch.component.state, BeforeEnd(ch, b).value;
    BeforeEndFrame(ch, b);
    SameSupply(s, Recorded(c).state);
    var k := NextEpoch(s);
    InBlockEpoch(c.state, k);
    if Epoch(k, s.params.epochDuration).IsEpochEnd(c.state.height) {
      BlockSupply(c, k);
    } else {
      EndBlockRecords(c, k);
      NothingMinted(Recorded(c).state);
    }
  }

  lemma InBlockEpoch(s: State, k: nat)
    requires InBlock(s, k)
    ensures s.params.epochDuration > 0
            && FromHeight(s.height, s.params.epochDuration) == Epoch(k, s.params.epochDuration)
  {}

  lemma NothingMinted(s: State)
    requires s.height !in s.commissions
    ensures MintRewards(s) == Ok(s)
  {}

  lemma BlockKeepsStored(s: State, t: State, record: int)
    requires StoredAtEnds(s) && BlockAccounts(s, t, record)
    ensures StoredAtEnds(t)
  {
    hide IsEnd, SupplyOf, Credited;
  }

  /** One block's step of the account. */
  lemma BlockBalances(s: State, t: State, record: int)
    requires StoredAtEnds(s) && BlockAccounts(s, t, record)
    ensures Same64(SupplyOf(t, StakingToken) - SupplyOf(s, StakingToken),
                   record + CommissionsBelow(t.commissions, t.height + 1)
                   - CommissionsBelow(s.commissions, s.height + 1))
  {
    hide IsEnd, SupplyOf, Credited, Amounts;
    BelowFrame(s.commissions, t.commissions, s.height + 1);
    if IsEnd(s.height + 1, s.params.epochDuration) {
      CreditedIsTotal(t.commissions[t.height]);
    }
  }

  lemma {:induction false} RunsKeepAccount(g: Genesis, bs: seq<Block>)
    requires GenesisOk(g) && Start(g).Ok? && RunBlocks(Start(g).value, bs).Ok?
    ensures var s := RunBlocks(Start(g).value, bs).value.component.state;
            && StoredAtEnds(s) && s.height == |bs|
            && Same64(SupplyOf(s, StakingToken),
                      Allocated(g.allocations, StakingToken) + CommissionsBelow(s.commissions, |bs| + 1)
                          + RunRecord(Start(g).value, bs))
  {
    hide Start, ChainOk, RunBlock, SupplyOf, Same64, BlockRecord, CommissionsBelow, BlockAccounts, StoredAtEnds;
    RunsAreSafe(g, bs);
    if bs == [] {
      StartAccount(g);
    } else {
      var init, b := bs[..|bs| - 1], bs[|bs| - 1];
      RunsKeepAccount(g, init);
      RunsAreSafe(g, init);
      var ch := RunBlocks(Start(g).value, init).value;
      var s, t := ch.component.state, RunBlocks(Start(g).value, bs).value.component.state;
      BlockIsAccounted(ch, b);
      BlockKeepsStored(s, t, BlockRecord(ch, b));
      BlockBalances(s, t, BlockRecord(ch, b));
      Same64Add(SupplyOf(s, StakingToken),
                Allocated(g.allocations, StakingToken) + CommissionsBelow(s.commissions, |bs|)
                    + RunRecord(Start(g).value, init),
                SupplyOf(t, StakingToken) - SupplyOf(s, StakingToken),
                BlockRecord(ch, b) + CommissionsBelow(t.commissions, |bs| + 1) - CommissionsBelow(s.commissions, |bs|));
    }
  }

  lemma StartAccount(g: Genesis)
    requires GenesisOk(g) && Start(g).Ok?
    ensures var s := Start(g).value.component.state;
            && StoredAtEnds(s)
            && Same64(SupplyOf(s, StakingToken),
               Allocated(g.allocations, StakingToken) + CommissionsBelow(s.commissions, 1))
  {
    hide Start, SupplyOf, Allocated, Same64;
    StartStateOk(g);
    assert CommissionsBelow(map[], 1) == CommissionsBelow(map[], 0);
  }

  /**
   The staking ledger: in every reachable state the staking supply is, as a 64-bit
   number, the genesis allocation plus the commissions of all completed epochs plus all
   changes their boundaries recorded for delegations; it is exactly that sum if and only
   if the sum is a 64-bit number. Commissions are stored for the last heights of the
   completed epochs and for no others.
   */
  lemma StakingSupplyConserved(g: Genesis, bs: seq<Block>)
    requires GenesisOk(g) && Start(g).Ok? && RunBlocks(Start(g).value, bs).Ok?
    ensures var s := RunBlocks(Start(g).value, bs).value.component.state;
            && StoredAtEnds(s)
            && var total := Allocated(g.allocations, StakingToken) + CommissionsBelow(s.commissions, |bs| + 1)
               + RunRecord(Start(g).value, bs);
               && Same64(SupplyOf(s, StakingToken), total)
               && (SupplyOf(s, StakingToken) == total <==> 0 <= total < U64)
  {
    hide RunBlocks, RunRecord, Start, ChainOk, StoredAtEnds, CommissionsBelow, Allocated;
    RunsKeepAccount(g, bs);
    RunsAreSafe(g, bs);
    SupplyFits(RunBlocks(Start(g).value, bs).value, StakingToken);
  }
}
