/**
 The staking component (stake/src/component.rs) as the object it is: stored
 state, the delegations queued in this block and the updates for Tendermint,
 changed in place. Every method is verified against module `StakingSpec`. A
 method that fails may leave partial writes, as in stake/src/component.rs, whose callers
 then stop; the contracts say which failure it is.
 */
module StakingComponent {
  import opened Prelude
  import opened Rates
  import opened Delegations
  import opened Transactions
  import opened Uptimes
  import opened Epochs
  import opened ActiveSet
  import opened StakingSpec
  import opened StakingRuns

  /** Delegation amounts collected for one validator. */
  function AmountsD(ds: seq<Delegate>): nat {
    if ds == [] then 0 else AmountsD(ds[..|ds| - 1]) + ds[|ds| - 1].delegationAmount
  }

  function AmountsU(us: seq<Undelegate>): nat {
    if us == [] then 0 else AmountsU(us[..|us| - 1]) + us[|us| - 1].delegationAmount
  }

  function Collected<T>(m: map<IdentityKey, seq<T>>, v: IdentityKey): seq<T> {
    if v in m then m[v] else []
  }

  /** An upsert replaces the first update of the key, or appends one. */
  lemma {:induction false} UpsertAt(us: seq<ValidatorUpdate>, ck: PubKey, power: nat, i: nat)
    requires i <= |us| && (forall j :: 0 <= j < i ==> us[j].pubKey != ck) && (i < |us| ==> us[i].pubKey == ck)
    ensures Upsert(us, ck, power) == if i < |us| then us[i := ValidatorUpdate(ck, power)]
            else us + [ValidatorUpdate(ck, power)]
  {
    var x := ValidatorUpdate(ck, power);
    if i > 0 {
      UpsertAt(us[1..], ck, power, i - 1);
      if i < |us| {
        assert us[i := x] == [us[0]] + us[1..][i - 1 := x];
      } else {
        assert us + [x] == [us[0]] + (us[1..] + [x]);
      }
    } else if us != [] {
      assert us[0 := x] == [x] + us[1..];
    }
  }

  class Staking {
    var state: State
    var delegationChanges: DelegationChanges
    var tmValidatorUpdates: seq<ValidatorUpdate>

    ghost function Value(): Component
      reads this
    {
      Component(state, delegationChanges, tmValidatorUpdates)
    }

    constructor (state: State)
      ensures Value() == Component(state, NO_CHANGES, [])
    {
      this.state := state;
      delegationChanges := NO_CHANGES;
      tmValidatorUpdates := [];
    }

    method UpdateTmValidatorPower(ck: PubKey, power: nat) returns (r: Result<(), Failure>)
      modifies this
      ensures r.Ok? <==> power < I64
      ensures r.Err? ==> r.error == Overflow
      ensures r.Ok? ==> Value() == old(Value()).(updates := Upsert(old(tmValidatorUpdates), ck, power))
      ensures r.Err? ==> Value() == old(Value())
    {
      if power >= I64 {
        return Err(Overflow);
      }
      var i := 0;
      while i < |tmValidatorUpdates| && tmValidatorUpdates[i].pubKey != ck
        invariant i <= |tmValidatorUpdates| && Value() == old(Value())
        invariant forall j :: 0 <= j < i ==> tmValidatorUpdates[j].pubKey != ck
      {
        i := i + 1;
      }
      UpsertAt(tmValidatorUpdates, ck, power, i);
      if i < |tmValidatorUpdates| {
        tmValidatorUpdates := tmValidatorUpdates[i := ValidatorUpdate(ck, power)];
      } else {
        tmValidatorUpdates := tmValidatorUpdates + [ValidatorUpdate(ck, power)];
      }
      return Ok(());
    }

    // -------------------------------------------------------------------------------------------
    // Stored state
    // -------------------------------------------------------------------------------------------

    method SetValidatorState(v: IdentityKey, target: ValidatorState) returns (r: Result<(), Failure>)
      modifies this`state
      ensures r.Ok? <==> SetState(old(state), v, target).Ok?
      ensures r.Ok? ==> state == SetState(old(state), v, target).value
      ensures r.Err? ==> state == old(state) && r.error == SetState(old(state), v, target).error
    {
      if v !in state.entries {
        return Err(MissingValidator);
      }
      var cur := state.entries[v].state;
      match target {
        case Slashed =>
          if !(cur.Active? || cur.Unbonding?) { return Err(BadTransition); }
        case Active =>
          if !(cur.Inactive? || cur.Unbonding?) { return Err(BadTransition); }
        case Unbonding(_) =>
          if !cur.Active? { return Err(BadTransition); }
        case Inactive =>
          if !cur.Unbonding? { return Err(BadTransition); }
      }
      state := state.(entries := state.entries[v := state.entries[v].(state := target)]);
      return Ok(());
    }

    method UpdateSupply(asset: Asset, change: int) returns (r: Result<(), Failure>)
      modifies this`state
      ensures r.Ok? <==> UpdateTokenSupply(old(state), asset, change).Ok?
      ensures r.Ok? ==> state == UpdateTokenSupply(old(state), asset, change).value
      ensures r.Err? ==> state == old(state) && r.error == UpdateTokenSupply(old(state), asset, change).error
    {
      var current := if asset in state.supply then state.supply[asset] else 0;
      if change < 0 {
        if current < -change { return Err(SupplyUnderflow); }
        state := state.(supply := state.supply[asset := current - (-change)]);
      } else {
        if current + change >= U64 { return Err(SupplyOverflow); }
        state := state.(supply := state.supply[asset := current + change]);
      }
      return Ok(());
    }

    // -------------------------------------------------------------------------------------------
    // Begin block
    // -------------------------------------------------------------------------------------------

    method Slash(v: IdentityKey, penalty: nat) returns (r: Result<(), Failure>)
      modifies this
      ensures r.Ok? <==> SlashValidator(old(Value()), v, penalty).Ok?
      ensures r.Ok? ==> Value() == SlashValidator(old(Value()), v, penalty).value
      ensures r.Err? ==> r.error == SlashValidator(old(Value()), v, penalty).error
    {
      if v !in state.entries {
        return Err(MissingValidator);
      }
      r := UpdateTmValidatorPower(state.entries[v].definition.consensusKey, 0);
      if r.Err? { return; }
      r := SetValidatorState(v, Slashed);
      if r.Err? { return; }
      var slashed := state.entries[v].cur.Slash(penalty);
      if slashed.Err? {
        return Err(slashed.error);
      }
      var cur := slashed.value;
      var next := cur.(epochIndex := cur.epochIndex + 1);
      state := state.(entries := state.entries[v := state.entries[v].(cur := cur, next := next)]);
    }

    method TrackValidator(
      v: IdentityKey, didVote: map<PubKey, bool>, ghost votes: seq<Vote>) returns (r: Result<(), Failure>)
      requires forall ck :: Voted(votes, ck) == (ck in didVote && didVote[ck])
      modifies this
      ensures r.Ok? <==> TrackOne(old(Value()), v, votes).Ok?
      ensures r.Ok? ==> Value() == TrackOne(old(Value()), v, votes).value
      ensures r.Err? ==> r.error == TrackOne(old(Value()), v, votes).error
    {
      if v !in state.entries {
        return Err(MissingValidator);
      }
      var e := state.entries[v];
      if !e.state.Active? {
        return Ok(());
      }
      if e.uptime.None? {
        return Err(MissingUptime);
      }
      var ck := e.definition.consensusKey;
      var voted := ck in didVote && didVote[ck];
      var uptime := new Uptime.Load(e.uptime.value);
      r := uptime.MarkHeightAsSigned(state.height, voted);
      if r.Err? { return; }
      var missed := uptime.NumMissedBlocks();
      if missed >= state.params.missedBlocksMaximum {
        r := Slash(v, state.params.slashingPenaltyDowntimeBps);
      } else {
        var data := uptime.Save();
        state := state.(entries := state.entries[v := e.(uptime := Some(data))]);
      }
    }

    method TrackUptimes(votes: seq<Vote>) returns (r: Result<(), Failure>)
      modifies this
      ensures r.Ok? <==> TrackUptime(old(Value()), old(state).list, votes).Ok?
      ensures r.Ok? ==> Value() == TrackUptime(old(Value()), old(state).list, votes).value
      ensures r.Err? ==> r.error == TrackUptime(old(Value()), old(state).list, votes).error
    {
      var didVote: map<PubKey, bool> := map[];
      for i := 0 to |votes|
        invariant Value() == old(Value())
        invariant forall ck :: Voted(votes[..i], ck) == (ck in didVote && didVote[ck])
      {
        assert votes[..i + 1][..i] == votes[..i];
        didVote := didVote[votes[i].validator := votes[i].signed];
      }
      assert votes[..|votes|] == votes;
      var list := state.list;
      var i := 0;
      while i < |list|
        invariant i <= |list|
        invariant TrackUptime(old(Value()), list, votes) == TrackUptime(Value(), list[i..], votes)
      {
        assert list[i..][1..] == list[i + 1..];
        r := TrackValidator(list[i], didVote, votes);
        if r.Err? { return; }
        i := i + 1;
      }
      return Ok(());
    }

    /** Evidence is given by the identity keys it resolves to. */
    method BeginBlock(evidence: seq<IdentityKey>, votes: seq<Vote>) returns (r: Result<(), Failure>)
      modifies this
      ensures r.Ok? <==> StakingSpec.BeginBlock(old(Value()), evidence, votes).Ok?
      ensures r.Ok? ==> Value() == StakingSpec.BeginBlock(old(Value()), evidence, votes).value
      ensures r.Err? ==> r.error == StakingSpec.BeginBlock(old(Value()), evidence, votes).error
    {
      var i := 0;
      while i < |evidence|
        invariant i <= |evidence|
        invariant SlashAll(old(Value()), evidence) == SlashAll(Value(), evidence[i..])
      {
        assert evidence[i..][1..] == evidence[i + 1..];
        r := Slash(evidence[i], state.params.slashingPenaltyMisbehaviorBps);
        if r.Err? { return; }
        i := i + 1;
      }
      r := TrackUptimes(votes);
    }

    // -------------------------------------------------------------------------------------------
    // Transactions
    // -------------------------------------------------------------------------------------------

    static method CheckTxStateless(tx: Transaction) returns (r: Result<(), Failure>)
      ensures r.Ok? <==> StatelessOk(tx)
    {
      var us := UndelegationsOf(tx.actions);
      var identities: set<IdentityKey> := {};
      for i := 0 to |us|
        invariant identities == set j | 0 <= j < i :: us[j].validatorIdentity
      {
        identities := identities + {us[i].validatorIdentity};
      }
      if |identities| > 1 {
        OneIdentity(us, identities);
        return Err(Rejected);
      }
      OneIdentity(us, identities);
      if |identities| == 1 {
        for i := 0 to |tx.actions|
          invariant forall j :: 0 <= j < i ==>
                      var a := tx.actions[j]; a.Undelegation? || a.Delegation? || a.Spend? || a.Output?
        {
          var a := tx.actions[i];
          if !(a.Undelegation? || a.Delegation? || a.Spend? || a.Output?) {
            return Err(Rejected);
          }
        }
      }
      var definitions := DefinitionsOf(tx.actions);
      for i := 0 to |definitions|
        invariant forall j :: 0 <= j < i ==>
                    definitions[j].signed && CommissionBps(definitions[j].validator.fundingStreams) <= BPS
      {
        if !definitions[i].signed {
          return Err(Rejected);
        }
        if CommissionBps(definitions[i].validator.fundingStreams) > BPS {
          return Err(Rejected);
        }
      }
      return Ok(());
    }

    static lemma OneIdentity(us: seq<Undelegate>, identities: set<IdentityKey>)
      requires identities == set j | 0 <= j < |us| :: us[j].validatorIdentity
      ensures |identities| <= 1 <==> forall i, j ::
              0 <= i < |us| && 0 <= j < |us| ==> us[i].validatorIdentity == us[j].validatorIdentity
      ensures |identities| == 0 <==> us == []
    {
      if us != [] {
        var id := us[0].validatorIdentity;
        assert id in identities;
        assert |identities - {id}| == |identities| - 1;
        assert identities - {id} == {} <==> identities == {id};
        forall j | 0 <= j < |us|
          ensures us[j].validatorIdentity in identities
        {}
      }
    }

    method CheckTxStateful(tx: Transaction) returns (r: Result<(), Failure>)
      ensures r.Ok? <==> StatefulOk(state, tx)
    {
      hide DelegationOk, UndelegationOk, DefinitionOk, Named, Delegated, Undelegated;
      var ds, us, definitions := DelegationsOf(tx.actions), UndelegationsOf(tx.actions), DefinitionsOf(tx.actions);
      var delegations := TallyDelegations(ds, us);
      if delegations.Err? {
        return Err(delegations.error);
      }
      var undelegations := TallyUndelegations(ds, us, delegations.value);
      if undelegations.Err? {
        return Err(undelegations.error);
      }
      for i := 0 to |definitions|
        invariant forall j :: 0 <= j < i ==> DefinitionOk(state, definitions[j])
      {
        if !DefinitionOk(state, definitions[i]) {
          return Err(Rejected);
        }
      }
      return Ok(());
    }

    /** Check every delegation and keep the per-validator tally, in signed 64 bits. */
    method TallyDelegations(ds: seq<Delegate>, us: seq<Undelegate>) returns (r: Result<map<IdentityKey, int>, Failure>)
      ensures r.Ok? <==> && (forall i :: 0 <= i < |ds| ==> DelegationOk(state, ds[i]))
                         && (forall n, v :: 0 <= n <= |ds| && v in Named(ds, us) ==> Delegated(ds[..n], v) < I64)
      ensures r.Ok? ==> forall v :: Tallied(r.value, v) == Delegated(ds, v)
    {
      hide DelegationOk, Named;
      var tally: map<IdentityKey, int> := map[];
      for i := 0 to |ds|
        invariant forall j :: 0 <= j < i ==> DelegationOk(state, ds[j])
        invariant forall v :: Tallied(tally, v) == Delegated(ds[..i], v)
        invariant forall n, v :: 0 <= n <= i && v in Named(ds, us) ==> Delegated(ds[..n], v) < I64
      {
        if !DelegationOk(state, ds[i]) {
          return Err(Rejected);
        }
        assert ds[..i + 1][..i] == ds[..i];
        var v := ds[i].validatorIdentity;
        assert v in Named(ds, us) by { IsNamed(ds, us, i); }
        var sum := Tallied(tally, v) + ds[i].delegationAmount;
        assert sum == Delegated(ds[..i + 1], v);
        if sum >= I64 {
          return Err(Overflow);
        }
        tally := tally[v := sum];
      }
      assert ds[..|ds|] == ds;
      return Ok(tally);
    }

    static lemma IsNamed(ds: seq<Delegate>, us: seq<Undelegate>, i: nat)
      requires i < |ds|
      ensures ds[i].validatorIdentity in Named(ds, us)
    {
      assert ds[i] in ds;
    }

    /** Check every undelegation and take it off the tally. */
    method TallyUndelegations(
      ds: seq<Delegate>, us: seq<Undelegate>, start: map<IdentityKey, int>)
      returns (r: Result<map<IdentityKey, int>, Failure>)
      requires forall v :: Tallied(start, v) == Delegated(ds, v)
      ensures r.Ok? <==> && (forall i :: 0 <= i < |us| ==> UndelegationOk(state, us[i]))
                         && (forall n, v :: 0 <= n <= |us| && v in Named(ds, us) ==>
                            -I64 <= Delegated(ds, v) - Undelegated(us[..n], v))
    {
      hide UndelegationOk, Delegated;
      var tally: map<IdentityKey, int> := start;
      for i := 0 to |us|
        invariant forall j :: 0 <= j < i ==> UndelegationOk(state, us[j])
        invariant forall v :: Tallied(tally, v) == Delegated(ds, v) - Undelegated(us[..i], v)
        invariant forall n, v :: 0 <= n <= i && v in Named(ds, us) ==>
                  -I64 <= Delegated(ds, v) - Undelegated(us[..n], v)
      {
        if !UndelegationOk(state, us[i]) {
          return Err(Rejected);
        }
        assert us[..i + 1][..i] == us[..i];
        var v := us[i].validatorIdentity;
        assert us[i] in us && v in Named(ds, us);
        var sum := Tallied(tally, v) - us[i].delegationAmount;
        assert sum == Delegated(ds, v) - Undelegated(us[..i + 1], v);
        if sum < -I64 {
          return Err(Overflow);
        }
        tally := tally[v := sum];
      }
      return Ok(tally);
    }

    static function Tallied(tally: map<IdentityKey, int>, v: IdentityKey): int {
      if v in tally then tally[v] else 0
    }

    /** Queue the transaction's delegations and undelegations. */
    method QueueChanges(tx: Transaction)
      modifies this`delegationChanges
      ensures delegationChanges == Append(old(delegationChanges), ChangesOf(tx))
    {
      for i := 0 to |tx.actions|
        invariant delegationChanges.delegations == old(delegationChanges).delegations + DelegationsOf(tx.actions[..i])
        invariant delegationChanges.undelegations
                  == old(delegationChanges).undelegations + UndelegationsOf(tx.actions[..i])
      {
        assert tx.actions[..i + 1][..i] == tx.actions[..i];
        match tx.actions[i] {
          case Delegation(d) =>
            delegationChanges := delegationChanges.(delegations := delegationChanges.delegations + [d]);
          case Undelegation(u) =>
            delegationChanges := delegationChanges.(undelegations := delegationChanges.undelegations + [u]);
          case _ =>
        }
      }
      assert tx.actions[..|tx.actions|] == tx.actions;
    }

    /** Queue the transaction's changes and store its validator definitions. */
    method ExecuteTx(tx: Transaction)
      requires state.params.epochDuration > 0
      modifies this
      ensures Value() == StakingSpec.ExecuteTx(old(Value()), tx)
    {
      QueueChanges(tx);
      var definitions := DefinitionsOf(tx.actions);
      var epoch := FromHeight(state.height, state.params.epochDuration);
      for i := 0 to |definitions|
        invariant tmValidatorUpdates == old(tmValidatorUpdates)
        invariant delegationChanges == Append(old(delegationChanges), ChangesOf(tx))
        invariant state == DefineAll(old(state), definitions[..i])
        invariant state.height == old(state).height
      {
        assert definitions[..i + 1][..i] == definitions[..i];
        var v := definitions[i].validator;
        if v.identityKey in state.entries {
          state := state.(entries := state.entries[v.identityKey := state.entries[v.identityKey].(definition := v)]);
        } else {
          state := AddValidator(state, NewEntry(v, epoch.index));
        }
      }
      assert definitions[..|definitions|] == definitions;
    }

    // -------------------------------------------------------------------------------------------
    // End of epoch
    // -------------------------------------------------------------------------------------------

    method ProcessEpochTransitions(epoch: nat) returns (r: Result<(), Failure>)
      modifies this
      ensures r.Ok? <==> StakingSpec.ProcessEpochTransitions(old(Value()), epoch).Ok?
      ensures r.Ok? ==> Value() == StakingSpec.ProcessEpochTransitions(old(Value()), epoch).value
      ensures r.Err? ==> r.error == StakingSpec.ProcessEpochTransitions(old(Value()), epoch).error
    {
      var powers: seq<VPower> := [];
      var i := 0;
      while i < |state.list|
        invariant i <= |state.list| && Value() == old(Value())
        invariant forall j :: 0 <= j < i ==> state.list[j] in state.entries
        invariant |powers| == i && forall j :: 0 <= j < i ==> powers[j] == PowerOf(state, state.list[j])
      {
        if state.list[i] !in state.entries {
          return Err(MissingValidator);
        }
        powers := powers + [PowerOf(state, state.list[i])];
        i := i + 1;
      }
      assert powers == PowerList(state);
      var sorted := SortDescending(powers);
      var top := TopValidators(sorted, state.params.activeValidatorLimit);
      i := 0;
      while i < |sorted|
        invariant i <= |sorted|
        invariant TransitionAll(old(Value()), sorted, top, epoch) == TransitionAll(Value(), sorted[i..], top, epoch)
      {
        assert sorted[i..][1..] == sorted[i + 1..];
        r := TransitionValidator(sorted[i], top, epoch);
        if r.Err? { return; }
        i := i + 1;
      }
      return Ok(());
    }

    method TransitionValidator(vp: VPower, top: seq<IdentityKey>, epoch: nat) returns (r: Result<(), Failure>)
      modifies this
      ensures r.Ok? <==> TransitionOne(old(Value()), vp, top, epoch).Ok?
      ensures r.Ok? ==> Value() == TransitionOne(old(Value()), vp, top, epoch).value
      ensures r.Err? ==> r.error == TransitionOne(old(Value()), vp, top, epoch).error
    {
      var id := vp.identityKey;
      if vp.state.Inactive? || vp.state.Unbonding? {
        if id in top {
          r := SetValidatorState(id, Active);
          if r.Err? { return; }
          var uptime := new Uptime(state.height, state.params.signedBlocksWindowLen);
          var data := uptime.Save();
          state := state.(entries := state.entries[id := state.entries[id].(uptime := Some(data))]);
          r := UpdateTmValidatorPower(state.entries[id].definition.consensusKey, vp.power);
          if r.Err? { return; }
        }
      } else if vp.state.Active? {
        if id !in state.entries {
          return Err(MissingValidator);
        }
        if id !in top {
          state := state.(entries := state.entries[id := state.entries[id].(power := 0)]);
          r := SetValidatorState(id, Unbonding(epoch + state.params.unbondingEpochs));
          if r.Err? { return; }
          r := UpdateTmValidatorPower(state.entries[id].definition.consensusKey, 0);
          if r.Err? { return; }
        } else {
          r := UpdateTmValidatorPower(state.entries[id].definition.consensusKey, state.entries[id].power);
          if r.Err? { return; }
        }
      }
      if vp.state.Unbonding? && vp.state.unbondingEpoch <= epoch {
        r := SetValidatorState(id, Inactive);
        return;
      }
      return Ok(());
    }

    /** Group the changes recorded in an epoch by validator. */
    static method CollectChanges(changes: map<nat, DelegationChanges>, start: nat, end: nat)
      returns (r: Result<(map<IdentityKey, seq<Delegate>>, map<IdentityKey, seq<Undelegate>>), Failure>)
      requires start <= end
      ensures r.Ok? <==> HasAll(changes, start, end)
      ensures r.Err? ==> r.error == MissingChanges
      ensures r.Ok? ==> GroupsOf(r.value.0, r.value.1, Collect(changes, start, end))
    {
      hide GroupsOf;
      var delegations: map<IdentityKey, seq<Delegate>> := map[];
      var undelegations: map<IdentityKey, seq<Undelegate>> := map[];
      NoGroups();
      for h := start to end
        invariant HasAll(changes, start, h)
        invariant GroupsOf(delegations, undelegations, Collect(changes, start, h))
      {
        if h !in changes {
          return Err(MissingChanges);
        }
        delegations, undelegations := PushChanges(delegations, undelegations, Collect(changes, start, h), changes[h]);
      }
      return Ok((delegations, undelegations));
    }

    /** The amounts grouped under each validator add up to its amounts in `c`. */
    static ghost predicate GroupsOf(
      ds: map<IdentityKey, seq<Delegate>>, us: map<IdentityKey, seq<Undelegate>>, c: DelegationChanges) {
      forall v ::
        && AmountsD(Collected(ds, v)) == Delegated(c.delegations, v)
        && AmountsU(Collected(us, v)) == Undelegated(c.undelegations, v)
    }

    static lemma NoGroups()
      ensures GroupsOf(map[], map[], NO_CHANGES)
    {}

    static method PushChanges(ds: map<IdentityKey, seq<Delegate>>, us: map<IdentityKey, seq<Undelegate>>,
                              ghost before: DelegationChanges, changes: DelegationChanges)
      returns (ds': map<IdentityKey, seq<Delegate>>, us': map<IdentityKey, seq<Undelegate>>)
      requires GroupsOf(ds, us, before)
      ensures GroupsOf(ds', us', Append(before, changes))
    {
      hide AmountsD, AmountsU, Collected, Delegated, Undelegated;
      ds' := PushDelegations(ds, changes.delegations);
      us' := PushUndelegations(us, changes.undelegations);
      forall v
        ensures Delegated(before.delegations + changes.delegations, v)
                == Delegated(before.delegations, v) + Delegated(changes.delegations, v)
        ensures Undelegated(before.undelegations + changes.undelegations, v)
                == Undelegated(before.undelegations, v) + Undelegated(changes.undelegations, v)
      {
        DelegatedAppend(before.delegations, changes.delegations, v);
        UndelegatedAppend(before.undelegations, changes.undelegations, v);
      }
    }

    static method PushDelegations(
      m: map<IdentityKey, seq<Delegate>>, ds: seq<Delegate>) returns (r: map<IdentityKey, seq<Delegate>>)
      ensures forall v :: AmountsD(Collected(r, v)) == AmountsD(Collected(m, v)) + Delegated(ds, v)
    {
      r := m;
      for i := 0 to |ds|
        invariant forall v :: AmountsD(Collected(r, v)) == AmountsD(Collected(m, v)) + Delegated(ds[..i], v)
      {
        assert ds[..i + 1][..i] == ds[..i];
        var d := ds[i];
        var known := Collected(r, d.validatorIdentity);
        assert (known + [d])[..|known|] == known;
        r := r[d.validatorIdentity := known + [d]];
      }
      assert ds[..|ds|] == ds;
    }

    static method PushUndelegations(
      m: map<IdentityKey, seq<Undelegate>>, us: seq<Undelegate>) returns (r: map<IdentityKey, seq<Undelegate>>)
      ensures forall v :: AmountsU(Collected(r, v)) == AmountsU(Collected(m, v)) + Undelegated(us, v)
    {
      r := m;
      for i := 0 to |us|
        invariant forall v :: AmountsU(Collected(r, v)) == AmountsU(Collected(m, v)) + Undelegated(us[..i], v)
      {
        assert us[..i + 1][..i] == us[..i];
        var u := us[i];
        var known := Collected(r, u.validatorIdentity);
        assert (known + [u])[..|known|] == known;
        r := r[u.validatorIdentity := known + [u]];
      }
      assert us[..|us|] == us;
    }

    /** Roll one validator's rates, supplies and power over, and compute its commissions. */
    method RollValidator(v: IdentityKey, index: nat, curBase: BaseRateData, nextBase: BaseRateData,
                         delegated: nat, undelegated: nat, ghost ctx: EpochContext)
      returns (r: Result<seq<CommissionAmount>, Failure>)
      requires ctx.index == index && ctx.curBase == curBase && ctx.nextBase == nextBase
      requires delegated == Delegated(ctx.changes.delegations, v)
               && undelegated == Undelegated(ctx.changes.undelegations, v)
      modifies this`state
      ensures r.Ok? <==> ProcessValidator(old(state), v, ctx).Ok?
      ensures r.Ok? ==> ProcessValidator(old(state), v, ctx) == Ok((state, r.value))
      ensures r.Err? ==> r.error == ProcessValidator(old(state), v, ctx).error
    {
      if v !in state.entries {
        return Err(MissingValidator);
      }
      var e := state.entries[v];
      var streams := e.definition.fundingStreams;
      var nextRate := e.next.Next(nextBase, streams, e.state);
      if nextRate.Err? {
        return Err(nextRate.error);
      }
      if nextRate.value.epochIndex != index + 2 {
        return Err(EpochIndexAssert);
      }
      var delta := DelegationDelta(delegated, undelegated);
      if delta.Err? {
        return Err(delta.error);
      }
      var stakingDelta := StakingDelta(e.next, delta.value);
      if stakingDelta.Err? {
        return Err(stakingDelta.error);
      }
      var updated := UpdateSupply(DelegationToken(v), delta.value);
      if updated.Err? {
        return Err(updated.error);
      }
      updated := UpdateSupply(StakingToken, stakingDelta.value);
      if updated.Err? {
        return Err(updated.error);
      }
      var tokens := SupplyOf(state, DelegationToken(v));
      var power := e.next.VotingPower(tokens, curBase);
      if power.Err? {
        return Err(power.error);
      }
      if power.value > MAX_VOTING_POWER {
        return Err(InvalidPower);
      }
      state := state.(entries := state.entries[v := e.(cur := e.next, next := nextRate.value, power := power.value)]);
      if e.state.Active? {
        r := DistributeCommission(streams, tokens, nextBase, curBase);
      } else {
        r := Ok([]);
      }
    }

    static method DistributeCommission(streams: seq<FundingStream>, tokens: nat, base: BaseRateData, prev: BaseRateData)
      returns (r: Result<seq<CommissionAmount>, Failure>)
      ensures r.Ok? <==> Rewards(streams, tokens, base, prev).Ok?
      ensures r.Err? ==> r.error == Rewards(streams, tokens, base, prev).error
      ensures r.Ok? ==> |Rewards(streams, tokens, base, prev).value| == |streams|
                        && r.value == Commissions(streams, Rewards(streams, tokens, base, prev).value)
    {
      var amounts: seq<CommissionAmount> := [];
      for i := 0 to |streams|
        invariant |amounts| == i
        invariant forall j :: 0 <= j < i ==> amounts[j].destination == streams[j].address
        invariant Rewards(streams[..i], tokens, base, prev).Ok?
        invariant |Rewards(streams[..i], tokens, base, prev).value| == i
        invariant forall j :: 0 <= j < i ==> amounts[j].amount == Rewards(streams[..i], tokens, base, prev).value[j]
      {
        assert streams[..i + 1][..i] == streams[..i];
        var reward := RewardAmount(streams[i], tokens, base, prev);
        if reward.Err? {
          RewardsErr(streams, i + 1, tokens, base, prev);
          return Err(reward.error);
        }
        amounts := amounts + [CommissionAmount(reward.value, streams[i].address)];
      }
      assert streams[..|streams|] == streams;
      return Ok(amounts);
    }

    static lemma {:induction false} RewardsErr(
      streams: seq<FundingStream>, n: nat, tokens: nat, base: BaseRateData, prev: BaseRateData)
      requires n <= |streams| && Rewards(streams[..n], tokens, base, prev).Err?
      ensures Rewards(streams, tokens, base, prev) == Err(Rewards(streams[..n], tokens, base, prev).error)
      decreases |streams| - n
    {
      if n == |streams| {
        assert streams[..n] == streams;
      } else {
        assert streams[..n + 1][..n] == streams[..n];
        RewardsErr(streams, n + 1, tokens, base, prev);
      }
    }

    method EndEpoch(epoch: Epoch) returns (r: Result<(), Failure>)
      requires epoch.duration > 0
      modifies this
      ensures r.Ok? <==> StakingSpec.EndEpoch(old(Value()), epoch).Ok?
      ensures r.Ok? ==> Value() == StakingSpec.EndEpoch(old(Value()), epoch).value
      ensures r.Err? ==> r.error == StakingSpec.EndEpoch(old(Value()), epoch).error
    {
      var collected := CollectChanges(state.changes, epoch.StartHeight(), epoch.EndHeight() + 1);
      if collected.Err? {
        return Err(collected.error);
      }
      var curBase := state.nextBase;
      var nextBase := curBase.Next(state.params.baseRewardRate);
      if nextBase.Err? {
        return Err(nextBase.error);
      }
      ghost var ctx := ContextAt(state, epoch).value;
      state := state.(curBase := curBase, nextBase := nextBase.value);
      var rolled := RollAll(epoch.index, curBase, nextBase.value, collected.value.0, collected.value.1, ctx);
      if rolled.Err? {
        return Err(rolled.error);
      }
      r := ProcessEpochTransitions(epoch.index);
      if r.Err? { return; }
      delegationChanges := NO_CHANGES;
      state := state.(commissions := state.commissions[state.height := rolled.value]);
    }

    method RollAll(index: nat, curBase: BaseRateData, nextBase: BaseRateData,
                   delegations: map<IdentityKey, seq<Delegate>>, undelegations: map<IdentityKey, seq<Undelegate>>,
                   ghost ctx: EpochContext)
      returns (r: Result<seq<CommissionAmount>, Failure>)
      requires ctx.index == index && ctx.curBase == curBase && ctx.nextBase == nextBase
      requires GroupsOf(delegations, undelegations, ctx.changes)
      modifies this`state
      ensures r.Ok? <==> ProcessAll(old(state), old(state).list, ctx).Ok?
      ensures r.Ok? ==> ProcessAll(old(state), old(state).list, ctx) == Ok((state, r.value))
      ensures r.Err? ==> r.error == ProcessAll(old(state), old(state).list, ctx).error
    {
      var list := state.list;
      var commissions: seq<CommissionAmount> := [];
      var i := 0;
      assert list[0..] == list;
      PrependNothing(ProcessAll(state, list, ctx));
      while i < |list|
        invariant i <= |list|
        invariant ProcessAll(old(state), list, ctx) == Prepend(commissions, ProcessAll(state, list[i..], ctx))
      {
        assert list[i..][1..] == list[i + 1..];
        ghost var rest := ProcessAll(state, list[i..], ctx);
        var delegated := SumDelegations(Collected(delegations, list[i]));
        var undelegated := SumUndelegations(Collected(undelegations, list[i]));
        var one := RollValidator(list[i], index, curBase, nextBase, delegated, undelegated, ctx);
        if one.Err? {
          return Err(one.error);
        }
        assert rest == Prepend(one.value, ProcessAll(state, list[i + 1..], ctx));
        PrependTwice(commissions, one.value, ProcessAll(state, list[i + 1..], ctx));
        commissions := commissions + one.value;
        i := i + 1;
      }
      assert list[i..] == [] && commissions + [] == commissions;
      return Ok(commissions);
    }

    static ghost function Prepend(
      commissions: seq<CommissionAmount>,
      r: Result<(State, seq<CommissionAmount>), Failure>): Result<(State, seq<CommissionAmount>), Failure> {
      match r
      case Ok((s, rest)) => Ok((s, commissions + rest))
      case Err(e) => Err(e)
    }

    static lemma PrependNothing(r: Result<(State, seq<CommissionAmount>), Failure>)
      ensures Prepend([], r) == r
    {
      if r.Ok? {
        assert [] + r.value.1 == r.value.1;
      }
    }

    static lemma PrependTwice(
      a: seq<CommissionAmount>, b: seq<CommissionAmount>, r: Result<(State, seq<CommissionAmount>), Failure>)
      ensures Prepend(a, Prepend(b, r)) == Prepend(a + b, r)
    {
      if r.Ok? {
        assert a + (b + r.value.1) == (a + b) + r.value.1;
      }
    }

    static method SumDelegations(ds: seq<Delegate>) returns (total: nat)
      ensures total == AmountsD(ds)
    {
      total := 0;
      for i := 0 to |ds|
        invariant total == AmountsD(ds[..i])
      {
        assert ds[..i + 1][..i] == ds[..i];
        total := total + ds[i].delegationAmount;
      }
      assert ds[..|ds|] == ds;
    }

    static method SumUndelegations(us: seq<Undelegate>) returns (total: nat)
      ensures total == AmountsU(us)
    {
      total := 0;
      for i := 0 to |us|
        invariant total == AmountsU(us[..i])
      {
        assert us[..i + 1][..i] == us[..i];
        total := total + us[i].delegationAmount;
      }
      assert us[..|us|] == us;
    }

    // -------------------------------------------------------------------------------------------
    // End of block
    // -------------------------------------------------------------------------------------------

    method EndBlock(height: nat) returns (r: Result<(), Failure>)
      requires state.params.epochDuration > 0
      modifies this
      ensures r.Ok? <==> StakingSpec.EndBlock(old(Value()), height).Ok?
      ensures r.Ok? ==> Value() == StakingSpec.EndBlock(old(Value()), height).value
      ensures r.Err? ==> r.error == StakingSpec.EndBlock(old(Value()), height).error
    {
      state := state.(changes := state.changes[height := delegationChanges]);
      delegationChanges := NO_CHANGES;
      var epoch := FromHeight(state.height, state.params.epochDuration);
      if epoch.IsEpochEnd(state.height) {
        r := EndEpoch(epoch);
      } else {
        r := Ok(());
      }
    }

    // -------------------------------------------------------------------------------------------
    // Genesis
    // -------------------------------------------------------------------------------------------

    method InitChain(g: Genesis) returns (r: Result<(), Failure>)
      requires Value() == Component(EmptyState(g.params), NO_CHANGES, [])
      modifies this
      ensures r.Ok? <==> StakingRuns.InitChain(g).Ok?
      ensures r.Ok? ==> Value() == StakingRuns.InitChain(g).value
      ensures r.Err? ==> r.error == StakingRuns.InitChain(g).error
    {
      hide InitValidator;
      var totals := TotalAllocations(g.allocations);
      for i := 0 to |g.validators|
        invariant InitValidators(old(Value()), g.validators[..i], g.allocations) == Ok(Value())
      {
        assert g.validators[..i + 1][..i] == g.validators[..i];
        var v := g.validators[i];
        var token := DelegationToken(v.identityKey);
        var total := if token in totals then totals[token] else 0;
        r := InitOne(v, total);
        if r.Err? {
          InitErr(old(Value()), g.validators, i + 1, g.allocations);
          return;
        }
      }
      assert g.validators[..|g.validators|] == g.validators;
      state := state.(changes := map[0 := NO_CHANGES]);
      return Ok(());
    }

    /** Allocations summed by asset; empty ones are skipped. */
    static method TotalAllocations(allocations: seq<Allocation>) returns (totals: map<Asset, nat>)
      ensures forall a :: (if a in totals then totals[a] else 0) == Allocated(allocations, a)
    {
      totals := map[];
      for i := 0 to |allocations|
        invariant forall a :: (if a in totals then totals[a] else 0) == Allocated(allocations[..i], a)
      {
        assert allocations[..i + 1][..i] == allocations[..i];
        var a := allocations[i];
        if a.amount != 0 {
          totals := totals[a.asset := (if a.asset in totals then totals[a.asset] else 0) + a.amount];
        }
      }
      assert allocations[..|allocations|] == allocations;
    }

    method InitOne(v: Validator, total: nat) returns (r: Result<(), Failure>)
      modifies this
      ensures forall allocations :: total == Allocated(allocations, DelegationToken(v.identityKey)) ==>
                && (r.Ok? <==> InitValidator(old(Value()), v, allocations).Ok?)
                && (r.Ok? ==> Value() == InitValidator(old(Value()), v, allocations).value)
                && (r.Err? ==> r.error == InitValidator(old(Value()), v, allocations).error)
    {
      var rate := RateData(v.identityKey, 0, 0, SCALE);
      var power := rate.VotingPower(total, state.curBase);
      if power.Err? {
        return Err(power.error);
      }
      r := UpdateTmValidatorPower(v.consensusKey, power.value);
      if r.Err? { return; }
      if power.value > MAX_VOTING_POWER {
        return Err(InvalidPower);
      }
      state := AddValidator(state, GenesisEntry(v, power.value, state.params.signedBlocksWindowLen));
    }

    static lemma {:induction false} InitErr(c: Component, vs: seq<Validator>, n: nat, allocations: seq<Allocation>)
      requires n <= |vs| && InitValidators(c, vs[..n], allocations).Err?
      ensures InitValidators(c, vs, allocations) == Err(InitValidators(c, vs[..n], allocations).error)
      decreases |vs| - n
    {
      if n == |vs| {
        assert vs[..n] == vs;
      } else {
        assert vs[..n + 1][..n] == vs[..n];
        InitErr(c, vs, n + 1, allocations);
      }
    }

    // -------------------------------------------------------------------------------------------
    // The shielded pool's writes to the supplies, which both components keep in one store
    // -------------------------------------------------------------------------------------------

    /** The pool's end_block: mint the commissions left for this height. */
    method MintRewards() returns (r: Result<(), Failure>)
      modifies this`state
      ensures r.Ok? <==> StakingRuns.MintRewards(old(state)).Ok?
      ensures r.Ok? ==> state == StakingRuns.MintRewards(old(state)).value
      ensures r.Err? ==> r.error == StakingRuns.MintRewards(old(state)).error
    {
      hide UpdateTokenSupply;
      ghost var s := state;
      var notes := if state.height in state.commissions then state.commissions[state.height] else [];
      for i := 0 to |notes|
        invariant MintCommissions(s, notes[..i]) == Ok(state)
      {
        assert notes[..i + 1][..i] == notes[..i];
        MintFails(s, notes, i + 1);
        r := UpdateSupply(StakingToken, AsI64(notes[i].amount));
        if r.Err? {
          return;
        }
      }
      assert notes[..|notes|] == notes;
      return Ok(());
    }

    /** The pool's init_chain: mint every allocation. */
    method MintAllocations(allocations: seq<Allocation>) returns (r: Result<(), Failure>)
      modifies this`state
      ensures r.Ok? <==> MintAll(old(state), allocations).Ok?
      ensures r.Ok? ==> state == MintAll(old(state), allocations).value
      ensures r.Err? ==> r.error == MintAll(old(state), allocations).error
    {
      hide UpdateTokenSupply;
      ghost var s := state;
      for i := 0 to |allocations|
        invariant MintAll(s, allocations[..i]) == Ok(state)
      {
        assert allocations[..i + 1][..i] == allocations[..i];
        MintAllFails(s, allocations, i + 1);
        if allocations[i].amount == 0 {
          return Err(EmptyAllocation);
        }
        r := UpdateSupply(allocations[i].asset, AsI64(allocations[i].amount));
        if r.Err? {
          return;
        }
      }
      assert allocations[..|allocations|] == allocations;
      return Ok(());
    }
  }

  /** A failure on the way is the failure of the whole. */
  lemma {:induction false} MintFails(s: State, cs: seq<CommissionAmount>, n: nat)
    requires n <= |cs|
    ensures MintCommissions(s, cs[..n]).Err? ==> MintCommissions(s, cs) == MintCommissions(s, cs[..n])
    decreases |cs|
  {
    hide UpdateTokenSupply;
    if n == |cs| {
      assert cs[..n] == cs;
    } else {
      var init := cs[..|cs| - 1];
      assert init[..n] == cs[..n];
      MintFails(s, init, n);
    }
  }

  lemma {:induction false} MintAllFails(s: State, allocations: seq<Allocation>, n: nat)
    requires n <= |allocations|
    ensures MintAll(s, allocations[..n]).Err? ==> MintAll(s, allocations) == MintAll(s, allocations[..n])
    decreases |allocations|
  {
    hide UpdateTokenSupply;
    if n == |allocations| {
      assert allocations[..n] == allocations;
    } else {
      var init := allocations[..|allocations| - 1];
      assert init[..n] == allocations[..n];
      MintAllFails(s, init, n);
    }
  }
}
