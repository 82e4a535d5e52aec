/**
 Uptime over whole runs: what the trackers hold is what the commits said, and who is slashed in
 begin_block, and by how much, follows from evidence and from that record alone.
 */
module StakingUptime {
  import opened Prelude
  import opened Rates
  import opened Transactions
  import opened Uptimes
  import opened Epochs
  import opened StakingSpec
  import opened StakingRuns
  import opened EpochTransitions
  import opened StakingInvariant
  import opened StakingSafety
  import opened StakingConservation
  import opened StakingRates
  import opened StakingAcceptance

  // ---------------------------------------------------------------------------------------------
  // Votes
  // ---------------------------------------------------------------------------------------------

  /** Some vote of the key is signed, and no later one names it. */
  ghost predicate HasSigned(votes: seq<Vote>, ck: PubKey) {
    exists i :: 0 <= i < |votes| && votes[i] == Vote(ck, true)
      && forall j :: i < j < |votes| ==> votes[j].validator != ck
  }

  lemma {:induction false} VotedIff(votes: seq<Vote>, ck: PubKey)
    ensures Voted(votes, ck) <==> HasSigned(votes, ck)
  {
    if votes != [] {
      var n := |votes| - 1;
      var init := votes[..n];
      VotedIff(init, ck);
      if HasSigned(init, ck) && votes[n].validator != ck {
        var i :| 0 <= i < n && init[i] == Vote(ck, true) && forall j :: i < j < n ==> init[j].validator != ck;
        assert votes[i] == Vote(ck, true) && forall j :: i < j < n ==> votes[j] == init[j];
      }
      if HasSigned(votes, ck) && votes[n].validator != ck {
        var i :| 0 <= i <= n && votes[i] == Vote(ck, true) && forall j :: i < j <= n ==> votes[j].validator != ck;
        assert init[i] == Vote(ck, true) && forall j :: i < j < n ==> votes[j] == init[j];
      }
      if votes[n] == Vote(ck, true) {
        assert HasSigned(votes, ck);
      }
    }
  }

  // ---------------------------------------------------------------------------------------------
  // Begin block
  // ---------------------------------------------------------------------------------------------

  /** Slashed, with the rate cut by the penalty and the same for this epoch and the next. */
  ghost predicate SlashedBy(e: Entry, f: Entry, penalty: nat) {
    && (e.state.Active? || e.state.Unbonding?)
    && f == e.(state := Slashed, cur := f.cur, next := f.next)
    && f.cur == e.cur.(exchangeRate := f.cur.exchangeRate)
    && f.next == f.cur.(epochIndex := f.cur.epochIndex + 1)
    && Cut(e.cur.exchangeRate, f.cur.exchangeRate, penalty)
  }

  lemma OneSlash(c: Component, v: IdentityKey, penalty: nat)
    requires SlashValidator(c, v, penalty).Ok?
    ensures var t := SlashValidator(c, v, penalty).value.state;
            && v in c.state.entries && v in t.entries
            && t == c.state.(entries := c.state.entries[v := t.entries[v]])
            && SlashedBy(c.state.entries[v], t.entries[v], penalty)
  {
    hide Cut, RateData.Slash;
    SlashCuts(c.state.entries[v].cur, penalty);
  }

  /** Evidence that goes through is good, and slashes exactly the validators it names. */
  lemma {:induction false} EvidenceSlashes(c: Component, evidence: seq<IdentityKey>, v: IdentityKey)
    requires SlashAll(c, evidence).Ok? && v in c.state.entries
    ensures var t := SlashAll(c, evidence).value.state;
            && GoodEvidence(c.state, evidence)
            && t == c.state.(entries := t.entries) && t.entries.Keys == c.state.entries.Keys
            && (if v in evidence then
                  SlashedBy(c.state.entries[v], t.entries[v], c.state.params.slashingPenaltyMisbehaviorBps)
                else t.entries[v] == c.state.entries[v])
    decreases |evidence|
  {
    hide SlashValidator, Cut;
    if evidence != [] {
      var penalty := c.state.params.slashingPenaltyMisbehaviorBps;
      OneSlash(c, evidence[0], penalty);
      var d := SlashValidator(c, evidence[0], penalty).value;
      EvidenceSlashes(d, evidence[1..], v);
      assert forall i :: 0 < i < |evidence| ==> evidence[i] == evidence[1..][i - 1];
      assert evidence[0] !in evidence[1..];
    }
  }

  /** What the pass over trackers does to one validator of state `s`, whose vote for this height is `signed`. */
  ghost predicate Marked(s: State, e: Entry, f: Entry, signed: bool) {
    if e.state.Active? then
      && e.uptime.Some? && e.uptime.value.Mark(s.height, signed).Ok?
      && var u := e.uptime.value.Mark(s.height, signed).value;
         if u.Missed() >= s.params.missedBlocksMaximum then SlashedBy(e, f, s.params.slashingPenaltyDowntimeBps)
         else f == e.(uptime := Some(u))
    else f == e
  }

  lemma OneMarks(c: Component, v: IdentityKey, votes: seq<Vote>)
    requires TrackOne(c, v, votes).Ok?
    ensures var t := TrackOne(c, v, votes).value.state;
            && v in c.state.entries && v in t.entries
            && t == c.state.(entries := c.state.entries[v := t.entries[v]])
            && Marked(c.state, c.state.entries[v], t.entries[v],
               HasSigned(votes, c.state.entries[v].definition.consensusKey))
  {
    hide SlashValidator, SlashedBy, Unsigned, Voted, HasSigned;
    var e := c.state.entries[v];
    VotedIff(votes, e.definition.consensusKey);
    if SlashValidator(c, v, c.state.params.slashingPenaltyDowntimeBps).Ok? {
      OneSlash(c, v, c.state.params.slashingPenaltyDowntimeBps);
    }
    if !e.state.Active? {
      assert c.state == c.state.(entries := c.state.entries[v := c.state.entries[v]]);
    }
  }

  lemma {:induction false} AllMark(c: Component, vs: seq<IdentityKey>, votes: seq<Vote>, v: IdentityKey)
    requires TrackUptime(c, vs, votes).Ok? && Distinct(vs) && v in c.state.entries
    ensures var t := TrackUptime(c, vs, votes).value.state;
            && t == c.state.(entries := t.entries) && t.entries.Keys == c.state.entries.Keys
            && (if v in vs then
                  Marked(c.state, c.state.entries[v], t.entries[v],
                    HasSigned(votes, c.state.entries[v].definition.consensusKey))
                else t.entries[v] == c.state.entries[v])
    decreases |vs|
  {
    hide TrackOne, Marked, HasSigned;
    if vs != [] {
      OneMarks(c, vs[0], votes);
      var d := TrackOne(c, vs[0], votes).value;
      AllMark(d, vs[1..], votes, v);
      assert v in vs <==> v == vs[0] || v in vs[1..];
      if v in vs[1..] {
        MarkedFrame(c.state, d.state, c.state.entries[v]);
      }
    }
  }

  /** Marking looks at height and parameters of the state alone. */
  lemma MarkedFrame(s: State, t: State, e: Entry)
    requires t == s.(entries := t.entries)
    ensures forall f, signed :: Marked(t, e, f, signed) <==> Marked(s, e, f, signed)
  {
    hide SlashedBy, Unsigned;
  }

  /** begin_block slashes those that evidence names, then marks and possibly slashes the Active ones. */
  ghost predicate Begun(s: State, e: Entry, f: Entry, misbehaved: bool, signed: bool) {
    if misbehaved then SlashedBy(e, f, s.params.slashingPenaltyMisbehaviorBps) else Marked(s, e, f, signed)
  }

  lemma BeginOutcome(c: Component, evidence: seq<IdentityKey>, votes: seq<Vote>, v: IdentityKey)
    requires BeginBlock(c, evidence, votes).Ok? && Distinct(c.state.list) && v in c.state.entries && v in c.state.list
    ensures var t := BeginBlock(c, evidence, votes).value.state;
            && GoodEvidence(c.state, evidence)
            && t == c.state.(entries := t.entries) && t.entries.Keys == c.state.entries.Keys
            && Begun(c.state, c.state.entries[v], t.entries[v], v in evidence,
               HasSigned(votes, c.state.entries[v].definition.consensusKey))
  {
    hide SlashAll, TrackUptime, Cut, HasSigned, GoodEvidence;
    EvidenceSlashes(c, evidence, v);
    var d := SlashAll(c, evidence).value;
    AllMark(d, d.state.list, votes, v);
    MarkedFrame(c.state, d.state, c.state.entries[v]);
  }

  // ---------------------------------------------------------------------------------------------
  // The rest of a block
  // ---------------------------------------------------------------------------------------------

  /** The boundary keeps the trackers of Active validators and starts those of new ones. */
  ghost predicate Kept(s: State, e: Entry, f: Entry) {
    && (f.state.Slashed? <==> e.state.Slashed?)
    && (f.state.Active? ==>
          f.uptime == if e.state.Active? then e.uptime else Some(NewUptime(s.height, s.params.signedBlocksWindowLen)))
  }

  lemma EndEpochKeeps(c: Component, k: nat, v: IdentityKey)
    requires StateOk(c.state, k) && UptimesAt(c.state, c.state.height) && v in c.state.entries
    requires c.state.params.epochDuration > 0 && EndEpoch(c, Epoch(k, c.state.params.epochDuration)).Ok?
    ensures var t := EndEpoch(c, Epoch(k, c.state.params.epochDuration)).value.state;
            t.entries.Keys == c.state.entries.Keys && Kept(c.state, c.state.entries[v], t.entries[v])
  {
    hide ContextAt, ProcessAll, ProcessEpochTransitions, StateOk, UptimesAt, Chosen, NewUptime;
    var s := c.state;
    var epoch := Epoch(k, s.params.epochDuration);
    var ctx := ContextAt(s, epoch).value;
    ContextBases(s, epoch);
    RolledListing(s, k, epoch);
    RollOutcome(s, ctx, k);
    ListFacts(s, k);
    var rolled := RollOver(s, ctx).value.0;
    BoundaryOutcome(c.(state := rolled), k);
    var t := EndEpoch(c, epoch).value.state;
    assert EpochStep(s.entries[v], rolled.entries[v]);
    assert Transitioned(rolled, rolled.entries[v], t.entries[v], Chosen(rolled, v), k);
  }

  lemma EndBlockKeeps(c: Component, k: nat, v: IdentityKey)
    requires InBlock(c.state, k) && c.state.params.epochDuration > 0 && EndBlock(c, c.state.height).Ok?
    requires v in c.state.entries
    ensures var t := EndBlock(c, c.state.height).value.state;
            t.entries.Keys == c.state.entries.Keys && Kept(c.state, c.state.entries[v], t.entries[v])
  {
    hide EndEpoch, StateOk, UptimesAt, NewUptime;
    BookkeepingKeepsOk(c.state, Recorded(c).state, k, c.state.height);
    if Epoch(k, c.state.params.epochDuration).IsEpochEnd(c.state.height) {
      EndEpochKeeps(Recorded(c), k, v);
    }
  }

  // ---------------------------------------------------------------------------------------------
  // A whole block
  // ---------------------------------------------------------------------------------------------

  /** The misses of an Active validator once this block's votes are counted reach the maximum. */
  ghost predicate TooMany(s: State, e: Entry, signed: bool) {
    && e.state.Active? && e.uptime.Some? && e.uptime.value.Mark(s.height + 1, signed).Ok?
    && e.uptime.value.Mark(s.height + 1, signed).value.Missed() >= s.params.missedBlocksMaximum
  }

  /** A block from state `s` to state `t`, for a validator known before it. */
  ghost predicate BlockMarks(s: State, t: State, v: IdentityKey, b: Block)
    requires v in s.entries && v in t.entries
  {
    var (e, f) := (s.entries[v], t.entries[v]);
    var signed := HasSigned(b.votes, e.definition.consensusKey);
    && (f.state.Slashed? <==> e.state.Slashed? || v in b.evidence || TooMany(s, e, signed))
    && (f.state.Active? ==>
          if e.state.Active? then
            && e.uptime.Some? && e.uptime.value.Mark(s.height + 1, signed).Ok?
            && f.uptime == Some(e.uptime.value.Mark(s.height + 1, signed).value)
          else f.uptime == Some(NewUptime(s.height + 1, s.params.signedBlocksWindowLen)))
  }

  lemma BlockOutcome(ch: Chain, b: Block, v: IdentityKey)
    requires ChainOk(ch) && RunBlock(ch, b).Ok? && v in ch.component.state.entries
    ensures var (s, t) := (ch.component.state, RunBlock(ch, b).value.component.state);
            && v in t.entries && BlockMarks(s, t, v, b)
            && (v in b.evidence ==> s.entries[v].state.Active? || s.entries[v].state.Unbonding?)
  {
    hide BeginBlock, EndBlock, MintRewards, StateOk, UptimesAt, Later, HasSigned, Unsigned, Cut, NewUptime, DeliverAll;
    hide Tracking;
    BeginOk(ch, b);
    BeforeEndOk(ch, b);
    var k := NextEpoch(ch.component.state);
    ChainListed(ch);
    BeginOutcome(Advanced(ch), b.evidence, b.votes, v);
    var c := BeginBlock(Advanced(ch), b.evidence, b.votes).value;
    InBlockParts(c.state, k);
    DeliverAllKeepsOk(c, b.txs, k, c.state.height);
    var d := DeliverAll(c, b.txs);
    assert d.state.entries[v] == c.state.entries[v].(definition := d.state.entries[v].definition);
    EndBlockKeeps(d, k, v);
    EndBlockKeepsOk(d, k);
    var t := EndBlock(d, d.state.height).value.state;
    MintKeepsOk(t, NextEpoch(t));
  }

  lemma ChainListed(ch: Chain)
    requires ChainOk(ch)
    ensures var s := ch.component.state; Distinct(s.list) && forall v :: v in s.entries <==> v in s.list
  {}

  lemma InBlockParts(s: State, k: nat)
    requires InBlock(s, k)
    ensures StateOk(s, k) && UptimesAt(s, s.height) && s.params.epochDuration > 0
            && k == FromHeight(s.height, s.params.epochDuration).index
  {}

  /** A validator that a block brings in is not Slashed by its end, and a tracker it has starts at this height. */
  lemma BlockBringsIn(ch: Chain, b: Block, v: IdentityKey)
    requires ChainOk(ch) && RunBlock(ch, b).Ok? && v !in ch.component.state.entries
    requires v in RunBlock(ch, b).value.component.state.entries
    ensures var (s, f) := (ch.component.state, RunBlock(ch, b).value.component.state.entries[v]);
            && !f.state.Slashed?
            && (f.state.Active? ==> f.uptime == Some(NewUptime(s.height + 1, s.params.signedBlocksWindowLen)))
  {
    hide BeginBlock, EndBlock, MintRewards, StateOk, UptimesAt, Later, NewUptime, DeliverAll, Tracking;
    BeginOk(ch, b);
    BeforeEndOk(ch, b);
    var k := NextEpoch(ch.component.state);
    BeginBringsNone(ch, b);
    var c := BeginBlock(Advanced(ch), b.evidence, b.votes).value;
    InBlockParts(c.state, k);
    Newcomers(c, b.txs, v);
    var d := DeliverAll(c, b.txs);
    EndBlockKeepsOk(d, k);
    EndBlockBringsNone(d, k);
    var t := EndBlock(d, d.state.height).value.state;
    MintKeepsOk(t, NextEpoch(t));
    EndBlockKeeps(d, k, v);
  }

  lemma BeginBringsNone(ch: Chain, b: Block)
    requires ChainOk(ch) && BeginBlock(Advanced(ch), b.evidence, b.votes).Ok?
    ensures var t := BeginBlock(Advanced(ch), b.evidence, b.votes).value.state;
            t.entries.Keys == ch.component.state.entries.Keys && t.params == ch.component.state.params
  {
    hide BeginBlock;
    var k := NextEpoch(ch.component.state);
    BookkeepingKeepsOk(ch.component.state, Advanced(ch).state, k, ch.component.state.height);
    BeginBlockKeepsOk(Advanced(ch), b.evidence, b.votes, k);
  }

  lemma EndBlockBringsNone(c: Component, k: nat)
    requires InBlock(c.state, k) && c.state.params.epochDuration > 0 && EndBlock(c, c.state.height).Ok?
    ensures EndBlock(c, c.state.height).value.state.entries.Keys == c.state.entries.Keys
  {
    hide EndEpoch, StateOk, UptimesAt;
    BookkeepingKeepsOk(c.state, Recorded(c).state, k, c.state.height);
    if Epoch(k, c.state.params.epochDuration).IsEpochEnd(c.state.height) {
      EndEpochKeepsOk(Recorded(c), k);
    }
  }

  // ---------------------------------------------------------------------------------------------
  // Runs
  // ---------------------------------------------------------------------------------------------

  ghost predicate ActiveAfter(g: Genesis, bs: seq<Block>, v: IdentityKey) {
    && Start(g).Ok? && RunBlocks(Start(g).value, bs).Ok?
    && var s := RunBlocks(Start(g).value, bs).value.component.state;
       v in s.entries && s.entries[v].state.Active?
  }

  /** The consensus key under which the next block's votes are counted. */
  ghost function KeyAfter(g: Genesis, bs: seq<Block>, v: IdentityKey): PubKey {
    if ActiveAfter(g, bs, v) then RunBlocks(Start(g).value, bs).value.component.state.entries[v].definition.consensusKey
    else 0
  }

  /** The height since which the validator has been Active. */
  ghost function ActiveSince(g: Genesis, bs: seq<Block>, v: IdentityKey): (a: nat)
    ensures a <= |bs|
  {
    if bs == [] then 0
    else if ActiveAfter(g, bs[..|bs| - 1], v) then ActiveSince(g, bs[..|bs| - 1], v)
    else |bs|
  }

  /** What the commits say of the validator since it became Active: for each height after that, whether it signed. */
  ghost function Record(g: Genesis, bs: seq<Block>, v: IdentityKey): (r: seq<bool>)
    ensures ActiveSince(g, bs, v) + |r| == |bs|
  {
    var a := ActiveSince(g, bs, v);
    seq(|bs| - a, i requires 0 <= i < |bs| - a => HasSigned(bs[a + i].votes, KeyAfter(g, bs[..a + i], v)))
  }

  lemma RecordNext(g: Genesis, bs: seq<Block>, v: IdentityKey)
    requires bs != []
    ensures var init := bs[..|bs| - 1];
            Record(g, bs, v) == if ActiveAfter(g, init, v)
              then Record(g, init, v) + [HasSigned(bs[|bs| - 1].votes, KeyAfter(g, init, v))] else []
  {
    hide HasSigned, KeyAfter, ActiveAfter;
    var init := bs[..|bs| - 1];
    assert forall i :: 0 <= i <= |init| ==> init[..i] == bs[..i];
  }

  lemma GenesisTrackers(g: Genesis, v: IdentityKey)
    requires GenesisOk(g) && Start(g).Ok? && v in Start(g).value.component.state.entries
    ensures Start(g).value.component.state.entries[v].uptime == Some(NewUptime(0, g.params.signedBlocksWindowLen))
  {
    InitValidatorsSteps(g, |g.validators|);
    assert g.validators[..|g.validators|] == g.validators;
    MintAllSteps(InitChain(g).value.state, g.allocations);
    hide InitValidators, MintAll, NewUptime;
  }

  /**
   In every run the tracker of an Active validator holds, for each of the last `window` heights
   since it became Active, whether the commit of that height shows its signature; its count is
   that of the heights at which it does not.
   */
  lemma {:induction false} TrackersHoldRecord(g: Genesis, bs: seq<Block>, v: IdentityKey)
    requires GenesisOk(g) && ActiveAfter(g, bs, v)
    ensures g.params.signedBlocksWindowLen > 0
    ensures var u := RunBlocks(Start(g).value, bs).value.component.state.entries[v].uptime;
            && u.Some?
            && Counts(ActiveSince(g, bs, v), Record(g, bs, v), u.value, g.params.signedBlocksWindowLen)
  {
    hide Start, RunBlock, Counts, Record, HasSigned, NewUptime;
    var w := g.params.signedBlocksWindowLen;
    if bs == [] {
      GenesisTrackers(g, v);
      NewCounts(0, w);
      EmptyRecord(g, v);
    } else {
      var init, b := bs[..|bs| - 1], bs[|bs| - 1];
      var ch := RunBlocks(Start(g).value, init).value;
      RunsAreSafe(g, init);
      RunsKeepParams(g, init);
      RecordNext(g, bs, v);
      hide ChainOk, BlockMarks;
      if v in ch.component.state.entries {
        BlockOutcome(ch, b, v);
        if ActiveAfter(g, init, v) {
          TrackersHoldRecord(g, init, v);
          NextMark(ch.component.state, RunBlock(ch, b).value.component.state, v, b, ActiveSince(g, init, v),
              Record(g, init, v));
        } else {
          FirstMark(ch.component.state, RunBlock(ch, b).value.component.state, v, b);
          NewCounts(|bs|, w);
        }
      } else {
        BlockBringsIn(ch, b, v);
        NewCounts(|bs|, w);
      }
    }
  }

  lemma EmptyRecord(g: Genesis, v: IdentityKey)
    ensures Record(g, [], v) == []
  {}

  lemma NextMark(s: State, t: State, v: IdentityKey, b: Block, a: nat, votes: seq<bool>)
    requires v in s.entries && v in t.entries && BlockMarks(s, t, v, b) && s.params.signedBlocksWindowLen > 0
    requires s.entries[v].state.Active? && t.entries[v].state.Active? && s.entries[v].uptime.Some?
    requires Counts(a, votes, s.entries[v].uptime.value, s.params.signedBlocksWindowLen)
    ensures t.entries[v].uptime.Some?
    ensures Counts(a, votes + [HasSigned(b.votes, s.entries[v].definition.consensusKey)], t.entries[v].uptime.value,
            s.params.signedBlocksWindowLen)
  {
    hide Counts, HasSigned, Unsigned;
    MarkCounts(a, votes, s.entries[v].uptime.value, s.params.signedBlocksWindowLen,
        HasSigned(b.votes, s.entries[v].definition.consensusKey));
  }

  lemma FirstMark(s: State, t: State, v: IdentityKey, b: Block)
    requires v in s.entries && v in t.entries && BlockMarks(s, t, v, b)
    requires !s.entries[v].state.Active? && t.entries[v].state.Active?
    ensures t.entries[v].uptime == Some(NewUptime(s.height + 1, s.params.signedBlocksWindowLen))
  {
    hide HasSigned, NewUptime;
  }

  /** Misses in the window once the votes of block `b` are counted. */
  ghost function MissesWith(g: Genesis, bs: seq<Block>, b: Block, v: IdentityKey): nat {
    Unsigned(LastOf(Record(g, bs, v) + [HasSigned(b.votes, KeyAfter(g, bs, v))], g.params.signedBlocksWindowLen))
  }

  /**
   In every run a validator is Slashed after a block if and only if it was before, evidence names
   it, or it is Active and its misses in the window, this block's commit included, reach the
   maximum. Evidence that goes through names Active or Unbonding validators alone.
   */
  lemma SlashedIff(g: Genesis, bs: seq<Block>, b: Block, v: IdentityKey)
    requires GenesisOk(g) && Start(g).Ok? && RunBlocks(Start(g).value, bs).Ok?
    requires RunBlock(RunBlocks(Start(g).value, bs).value, b).Ok?
    requires v in RunBlocks(Start(g).value, bs).value.component.state.entries
    ensures var ch := RunBlocks(Start(g).value, bs).value;
            var (s, t) := (ch.component.state, RunBlock(ch, b).value.component.state);
            && v in t.entries
            && (t.entries[v].state.Slashed? <==>
                s.entries[v].state.Slashed? || v in b.evidence
                || (s.entries[v].state.Active? && MissesWith(g, bs, b, v) >= g.params.missedBlocksMaximum))
            && (v in b.evidence ==> s.entries[v].state.Active? || s.entries[v].state.Unbonding?)
  {
    hide Start, RunBlocks, RunBlock, Counts, Record, HasSigned, NewUptime, ChainOk;
    var ch := RunBlocks(Start(g).value, bs).value;
    RunsAreSafe(g, bs);
    RunsKeepParams(g, bs);
    BlockOutcome(ch, b, v);
    if ch.component.state.entries[v].state.Active? {
      TrackersHoldRecord(g, bs, v);
      MissesCounted(ch.component.state, v, b, ActiveSince(g, bs, v), Record(g, bs, v));
    }
  }

  lemma MissesCounted(s: State, v: IdentityKey, b: Block, a: nat, votes: seq<bool>)
    requires v in s.entries && s.params.signedBlocksWindowLen > 0 && a + |votes| == s.height
    requires s.entries[v].state.Active? && s.entries[v].uptime.Some?
    requires Counts(a, votes, s.entries[v].uptime.value, s.params.signedBlocksWindowLen)
    ensures var (e, w) := (s.entries[v], s.params.signedBlocksWindowLen);
            var signed := HasSigned(b.votes, e.definition.consensusKey);
            TooMany(s, e, signed) <==> Unsigned(LastOf(votes + [signed], w)) >= s.params.missedBlocksMaximum
  {
    hide HasSigned, Unsigned, LastOf, SignedAt;
    MarkCounts(a, votes, s.entries[v].uptime.value, s.params.signedBlocksWindowLen,
        HasSigned(b.votes, s.entries[v].definition.consensusKey));
  }

  /**
   By how much: begin_block of any block of any run cuts the rate of a validator named by evidence
   by the penalty for misbehaviour, that of one slashed for its misses by the penalty for
   downtime, and no other.
   */
  lemma SlashedByHowMuch(g: Genesis, bs: seq<Block>, b: Block, v: IdentityKey)
    requires GenesisOk(g) && Start(g).Ok? && RunBlocks(Start(g).value, bs).Ok?
    requires var ch := RunBlocks(Start(g).value, bs).value;
             BeginBlock(Advanced(ch), b.evidence, b.votes).Ok? && v in ch.component.state.entries
    ensures var ch := RunBlocks(Start(g).value, bs).value;
            var t := BeginBlock(Advanced(ch), b.evidence, b.votes).value.state;
            && v in t.entries
            && var (e, f) := (ch.component.state.entries[v], t.entries[v]);
               if v in b.evidence then SlashedBy(e, f, g.params.slashingPenaltyMisbehaviorBps)
               else if e.state.Active? && MissesWith(g, bs, b, v) >= g.params.missedBlocksMaximum then
                 SlashedBy(e, f, g.params.slashingPenaltyDowntimeBps)
               else f == e.(uptime := f.uptime)
  {
    hide Start, RunBlocks, Counts, Record, HasSigned, NewUptime, BeginBlock, SlashedBy, StateOk, UptimesAt;
    var ch := RunBlocks(Start(g).value, bs).value;
    RunsAreSafe(g, bs);
    RunsKeepParams(g, bs);
    ChainListed(ch);
    BeginOutcome(Advanced(ch), b.evidence, b.votes, v);
    if ch.component.state.entries[v].state.Active? {
      TrackersHoldRecord(g, bs, v);
      MissesCounted(ch.component.state, v, b, ActiveSince(g, bs, v), Record(g, bs, v));
    }
  }
}
