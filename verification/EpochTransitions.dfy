/**
 The validator state machine at an epoch boundary: what
 process_epoch_transitions leaves for each validator, and exactly when it fails.
 */
module EpochTransitions {
  import opened Prelude
  import opened Rates
  import opened Uptimes
  import opened ActiveSet
  import opened StakingSpec

  predicate Expired(state: ValidatorState, epoch: nat) {
    state.Unbonding? && state.unbondingEpoch <= epoch
  }

  /**
   The validator state after the boundary of epoch `epoch`, from the state before it and
   membership in the top set.
   */
  ghost function NextState(state: ValidatorState, chosen: bool, epoch: nat, unbondingEpochs: nat): ValidatorState {
    match state
    case Slashed => Slashed
    case Active => if chosen then Active else Unbonding(epoch + unbondingEpochs)
    case Inactive => if chosen then Active else Inactive
    case Unbonding(_) => if chosen then Active else if Expired(state, epoch) then Inactive else state
  }

  /** One validator's entry before (`e`) and after (`f`) the boundary. */
  ghost predicate Transitioned(s: State, e: Entry, f: Entry, chosen: bool, epoch: nat) {
    && f == e.(state := f.state, power := f.power, uptime := f.uptime)
    && f.state == NextState(e.state, chosen, epoch, s.params.unbondingEpochs)
    && f.power == (if e.state.Active? && !chosen then 0 else e.power)
    && f.uptime == (if f.state.Active? && !e.state.Active?
       then Some(NewUptime(s.height, s.params.signedBlocksWindowLen)) else e.uptime)
  }

  /** The candidate list still shows the stored state and power of its validators. */
  ghost predicate Snapshot(s: State, vps: seq<VPower>) {
    && DistinctKeys(vps)
    && forall i :: 0 <= i < |vps| ==>
         && vps[i].identityKey in s.entries
         && vps[i] == PowerOf(s, vps[i].identityKey)
         && vps[i].power < I64
  }

  ghost predicate Listed(vps: seq<VPower>, v: IdentityKey) {
    exists i :: 0 <= i < |vps| && vps[i].identityKey == v
  }

  /** An Unbonding validator whose period is over but which is in the top set. */
  ghost predicate ExpiredOnTop(vps: seq<VPower>, top: seq<IdentityKey>, epoch: nat) {
    exists i :: 0 <= i < |vps| && Expired(vps[i].state, epoch) && vps[i].identityKey in top
  }

  lemma TransitionOneStep(c: Component, vp: VPower, top: seq<IdentityKey>, epoch: nat)
    requires vp.identityKey in c.state.entries && vp == PowerOf(c.state, vp.identityKey) && vp.power < I64
    ensures TransitionOne(c, vp, top, epoch).Ok? <==> !(Expired(vp.state, epoch) && vp.identityKey in top)
    ensures TransitionOne(c, vp, top, epoch).Err? ==> TransitionOne(c, vp, top, epoch).error.BadTransition?
    ensures TransitionOne(c, vp, top, epoch).Ok? ==>
              var t := TransitionOne(c, vp, top, epoch).value.state;
              && vp.identityKey in t.entries
              && t == c.state.(entries := c.state.entries[vp.identityKey := t.entries[vp.identityKey]])
              && Transitioned(c.state, c.state.entries[vp.identityKey], t.entries[vp.identityKey],
                 vp.identityKey in top, epoch)
  {}

  ghost predicate AllTransitioned(s: State, t: State, vps: seq<VPower>, top: seq<IdentityKey>, epoch: nat) {
    && t == s.(entries := t.entries)
    && t.entries.Keys == s.entries.Keys
    && forall v :: v in s.entries ==>
         if Listed(vps, v) then Transitioned(s, s.entries[v], t.entries[v], v in top, epoch)
             else t.entries[v] == s.entries[v]
  }

  lemma ListedCons(vps: seq<VPower>, v: IdentityKey)
    requires vps != []
    ensures Listed(vps, v) <==> v == vps[0].identityKey || Listed(vps[1..], v)
    ensures DistinctKeys(vps) && Listed(vps[1..], v) ==> v != vps[0].identityKey
  {
    if v == vps[0].identityKey {
      assert vps[0].identityKey == v;
    }
    if Listed(vps, v) && v != vps[0].identityKey {
      var i :| 0 <= i < |vps| && vps[i].identityKey == v;
      assert vps[1..][i - 1].identityKey == v;
    }
    if Listed(vps[1..], v) {
      var i :| 0 <= i < |vps[1..]| && vps[1..][i].identityKey == v;
      assert vps[i + 1].identityKey == v;
    }
  }

  lemma TransitionedCompose(s: State, t: State, u: State, vps: seq<VPower>, top: seq<IdentityKey>, epoch: nat)
    requires vps != [] && DistinctKeys(vps) && vps[0].identityKey in s.entries && vps[0].identityKey in t.entries
    requires t == s.(entries := s.entries[vps[0].identityKey := t.entries[vps[0].identityKey]])
    requires Transitioned(s, s.entries[vps[0].identityKey], t.entries[vps[0].identityKey],
             vps[0].identityKey in top, epoch)
    requires AllTransitioned(t, u, vps[1..], top, epoch)
    ensures AllTransitioned(s, u, vps, top, epoch)
  {
    forall v | v in s.entries
      ensures if Listed(vps, v) then Transitioned(s, s.entries[v], u.entries[v], v in top, epoch)
              else u.entries[v] == s.entries[v]
    {
      ListedCons(vps, v);
    }
  }

  lemma SnapshotTail(s: State, t: State, vps: seq<VPower>)
    requires vps != [] && Snapshot(s, vps) && vps[0].identityKey in t.entries
    requires t == s.(entries := s.entries[vps[0].identityKey := t.entries[vps[0].identityKey]])
    ensures Snapshot(t, vps[1..])
  {
    forall i | 0 <= i < |vps[1..]|
      ensures vps[1..][i].identityKey != vps[0].identityKey && vps[1..][i] == vps[i + 1]
    {}
  }

  lemma ExpiredCons(vps: seq<VPower>, top: seq<IdentityKey>, epoch: nat)
    requires vps != []
    ensures ExpiredOnTop(vps, top, epoch) <==>
            (Expired(vps[0].state, epoch) && vps[0].identityKey in top) || ExpiredOnTop(vps[1..], top, epoch)
  {
    if ExpiredOnTop(vps[1..], top, epoch) {
      var i :| 0 <= i < |vps[1..]| && Expired(vps[1..][i].state, epoch) && vps[1..][i].identityKey in top;
      assert Expired(vps[i + 1].state, epoch) && vps[i + 1].identityKey in top;
    }
    if ExpiredOnTop(vps, top, epoch) && !(Expired(vps[0].state, epoch) && vps[0].identityKey in top) {
      var i :| 0 <= i < |vps| && Expired(vps[i].state, epoch) && vps[i].identityKey in top;
      assert Expired(vps[1..][i - 1].state, epoch) && vps[1..][i - 1].identityKey in top;
    }
  }

  lemma {:induction false} TransitionAllSteps(c: Component, vps: seq<VPower>, top: seq<IdentityKey>, epoch: nat)
    requires Snapshot(c.state, vps)
    ensures TransitionAll(c, vps, top, epoch).Ok? <==> !ExpiredOnTop(vps, top, epoch)
    ensures TransitionAll(c, vps, top, epoch).Err? ==> TransitionAll(c, vps, top, epoch).error.BadTransition?
    ensures TransitionAll(c, vps, top, epoch).Ok? ==>
              AllTransitioned(c.state, TransitionAll(c, vps, top, epoch).value.state, vps, top, epoch)
    decreases |vps|
  {
    if vps != [] {
      TransitionOneStep(c, vps[0], top, epoch);
      ExpiredCons(vps, top, epoch);
      var r := TransitionOne(c, vps[0], top, epoch);
      if r.Ok? {
        SnapshotTail(c.state, r.value.state, vps);
        TransitionAllSteps(r.value, vps[1..], top, epoch);
        if TransitionAll(r.value, vps[1..], top, epoch).Ok? {
          TransitionedCompose(c.state, r.value.state, TransitionAll(r.value, vps[1..], top, epoch).value.state, vps,
              top, epoch);
        }
      }
    }
  }

  // ---------------------------------------------------------------------------------------------
  // The whole boundary
  // ---------------------------------------------------------------------------------------------

  /** Every listed validator has an entry, once, with a power Tendermint accepts. */
  ghost predicate Listing(s: State) {
    && Distinct(s.list)
    && (forall v :: v in s.entries <==> v in s.list)
    && forall v :: v in s.entries ==> s.entries[v].power <= MAX_VOTING_POWER
  }

  /** Chosen: has power, and fewer than the limit outrank it by power and then list order. */
  ghost predicate Chosen(s: State, v: IdentityKey)
    requires Listing(s) && v in s.entries
  {
    s.entries[v].power > 0 &&
    exists i :: 0 <= i < |s.list| && s.list[i] == v && Rank(PowerList(s), i) < s.params.activeValidatorLimit
  }

  ghost function Top(s: State): seq<IdentityKey>
    requires Listing(s)
  {
    TopValidators(SortDescending(PowerList(s)), s.params.activeValidatorLimit)
  }

  lemma PowerListKeys(s: State)
    requires Listing(s)
    ensures DistinctKeys(PowerList(s)) && Snapshot(s, SortDescending(PowerList(s)))
    ensures forall v :: v in s.entries ==> Listed(SortDescending(PowerList(s)), v)
  {
    hide SortDescending, Listed, Rank;
    var l := PowerList(s);
    PowerListShows(s);
    hide PowerList;
    SortKeepsKeysDistinct(l);
    SortKeepsMembers(l);
    forall v | v in s.entries
      ensures Listed(SortDescending(l), v)
    {
      var i :| 0 <= i < |s.list| && s.list[i] == v;
      RankedIsListed(l, i);
    }
  }

  lemma PowerListShows(s: State)
    requires Listing(s)
    ensures var l := PowerList(s);
            && |l| == |s.list| && DistinctKeys(l)
            && forall i :: 0 <= i < |l| ==>
                 && l[i].identityKey == s.list[i] && s.list[i] in s.entries
                 && l[i] == PowerOf(s, s.list[i]) && l[i].power < I64
  {}

  lemma SortKeepsMembers(l: seq<VPower>)
    ensures forall i :: 0 <= i < |SortDescending(l)| ==> exists j :: 0 <= j < |l| && SortDescending(l)[i] == l[j]
  {
    SortPermutes(l);
    var sorted := SortDescending(l);
    hide SortDescending;
    forall i | 0 <= i < |sorted|
      ensures sorted[i] in l
    {
      assert sorted[i] in multiset(sorted);
    }
  }

  lemma RankedIsListed(l: seq<VPower>, i: nat)
    requires i < |l|
    ensures Listed(SortDescending(l), l[i].identityKey)
  {
    SortedByRank(l, i);
    hide SortDescending, Rank;
    assert SortDescending(l)[Rank(l, i)].identityKey == l[i].identityKey;
  }

  lemma TopIsChosen(s: State, v: IdentityKey)
    requires Listing(s) && v in s.entries
    ensures v in Top(s) <==> Chosen(s, v)
  {
    PowerListKeys(s);
    var l := PowerList(s);
    forall i | 0 <= i < |s.list| && s.list[i] == v
      ensures v in Top(s) <==> s.entries[v].power > 0 && Rank(l, i) < s.params.activeValidatorLimit
    {
      TopIsByRank(l, s.params.activeValidatorLimit, i);
    }
    var i :| 0 <= i < |s.list| && s.list[i] == v;
  }

  /** The boundary is a pass over the sorted candidates, and membership in the top set is being chosen. */
  lemma BoundaryIsPass(c: Component, epoch: nat)
    requires Listing(c.state)
    ensures var s, sorted := c.state, SortDescending(PowerList(c.state));
            && ProcessEpochTransitions(c, epoch) == TransitionAll(c, sorted, Top(s), epoch)
            && Snapshot(s, sorted)
            && (forall v :: v in s.entries ==> Listed(sorted, v) && (v in Top(s) <==> Chosen(s, v)))
  {
    PowerListKeys(c.state);
    forall v | v in c.state.entries
      ensures v in Top(c.state) <==> Chosen(c.state, v)
    {
      TopIsChosen(c.state, v);
    }
  }

  lemma ExpiredOnTopIsChosen(s: State, vps: seq<VPower>, epoch: nat)
    requires Listing(s) && Snapshot(s, vps)
    requires forall v :: v in s.entries ==> Listed(vps, v) && (v in Top(s) <==> Chosen(s, v))
    ensures ExpiredOnTop(vps, Top(s), epoch) <==>
            exists v :: v in s.entries && Expired(s.entries[v].state, epoch) && Chosen(s, v)
  {
    if ExpiredOnTop(vps, Top(s), epoch) {
      var i :| 0 <= i < |vps| && Expired(vps[i].state, epoch) && vps[i].identityKey in Top(s);
      assert Chosen(s, vps[i].identityKey);
    }
    if v :| v in s.entries && Expired(s.entries[v].state, epoch) && Chosen(s, v) {
      assert Listed(vps, v);
    }
  }

  /**
   On a well-formed state the boundary succeeds exactly when no chosen validator
   is Unbonding with its period over; then the Active set is the chosen
   validators minus the slashed ones, and every entry is as `Transitioned` says.
   */
  lemma BoundaryOutcome(c: Component, epoch: nat)
    requires Listing(c.state)
    ensures var s, r := c.state, ProcessEpochTransitions(c, epoch);
            && (r.Err? <==> exists v :: v in s.entries && Expired(s.entries[v].state, epoch) && Chosen(s, v))
            && (r.Err? ==> r.error.BadTransition?)
            && (r.Ok? ==>
                  && r.value.state == s.(entries := r.value.state.entries)
                  && r.value.state.entries.Keys == s.entries.Keys
                  && forall v :: v in s.entries ==>
                       && Transitioned(s, s.entries[v], r.value.state.entries[v], Chosen(s, v), epoch)
                       && (r.value.state.entries[v].state.Active? <==> Chosen(s, v) && !s.entries[v].state.Slashed?))
  {
    hide ProcessEpochTransitions, TransitionAll, Top, SortDescending, PowerList, Chosen, Snapshot, Listed, ExpiredOnTop;
    var s := c.state;
    var sorted := SortDescending(PowerList(s));
    BoundaryIsPass(c, epoch);
    TransitionAllSteps(c, sorted, Top(s), epoch);
    ExpiredOnTopIsChosen(s, sorted, epoch);
  }

  ghost function ActiveValidators(s: State): set<IdentityKey> {
    set v | v in s.entries && s.entries[v].state.Active?
  }

  lemma {:induction false} SetWithinSeq(a: set<IdentityKey>, q: seq<IdentityKey>)
    requires forall v :: v in a ==> v in q
    ensures |a| <= |q|
  {
    if a != {} {
      assert q != [] by { var v :| v in a; }
      var last := q[|q| - 1];
      SetWithinSeq(a - {last}, q[..|q| - 1]);
    }
  }

  /** After a boundary the Active set respects the limit, and no validator kept out had more power than one let in. */
  lemma ActiveSetIsStrongest(c: Component, epoch: nat)
    requires Listing(c.state) && ProcessEpochTransitions(c, epoch).Ok?
    ensures var s, t := c.state, ProcessEpochTransitions(c, epoch).value.state;
            && t.entries.Keys == s.entries.Keys
            && |ActiveValidators(t)| <= s.params.activeValidatorLimit
            && forall i, o ::
                 i in ActiveValidators(t) && o in s.entries && o !in ActiveValidators(t) ==>
                   s.entries[o].state.Slashed? || s.entries[o].power <= s.entries[i].power
  {
    var s, t := c.state, ProcessEpochTransitions(c, epoch).value.state;
    var l := PowerList(s);
    BoundaryOutcome(c, epoch);
    PowerListKeys(s);
    TopIsBounded(l, s.params.activeValidatorLimit);
    forall v | v in s.entries
      ensures v in Top(s) <==> Chosen(s, v)
    {
      TopIsChosen(s, v);
    }
    SetWithinSeq(ActiveValidators(t), Top(s));
    forall i, o | i in ActiveValidators(t) && o in s.entries && o !in ActiveValidators(t)
        && !s.entries[o].state.Slashed?
      ensures s.entries[o].power <= s.entries[i].power
    {
      var m :| 0 <= m < |s.list| && s.list[m] == i;
      var n :| 0 <= n < |s.list| && s.list[n] == o;
      NoStrongerOutside(l, s.params.activeValidatorLimit, m, n);
    }
  }
}
