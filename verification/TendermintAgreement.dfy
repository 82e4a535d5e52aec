/**
 Tendermint's view of the validator set: applying each block's updates leaves
 exactly the Active validators with power, at their stored powers.
 */
module TendermintAgreement {
  import opened Prelude
  import opened Rates
  import opened Delegations
  import opened Transactions
  import opened Epochs
  import opened ActiveSet
  import opened StakingSpec
  import opened StakingRuns
  import opened EpochTransitions
  import opened StakingInvariant
  import opened StakingSafety

  // ---------------------------------------------------------------------------------------------
  // The update list is a last-write-wins map
  // ---------------------------------------------------------------------------------------------

  ghost function KeysOf(us: seq<ValidatorUpdate>): set<PubKey> {
    if us == [] then {} else {us[0].pubKey} + KeysOf(us[1..])
  }

  ghost predicate NoDuplicateKeys(us: seq<ValidatorUpdate>) {
    us == [] || (us[0].pubKey !in KeysOf(us[1..]) && NoDuplicateKeys(us[1..]))
  }

  ghost function Find(us: seq<ValidatorUpdate>, k: PubKey): (r: Option<nat>)
    ensures r.Some? <==> k in KeysOf(us)
  {
    if us == [] then None
    else if us[0].pubKey == k then Some(us[0].power)
    else Find(us[1..], k)
  }

  /** An upsert overwrites one key's power, keeps every other, and never lists a key twice. */
  lemma {:induction false} UpsertIsWrite(us: seq<ValidatorUpdate>, ck: PubKey, power: nat)
    requires NoDuplicateKeys(us)
    ensures var r := Upsert(us, ck, power);
            && NoDuplicateKeys(r)
            && KeysOf(r) == KeysOf(us) + {ck}
            && forall k :: Find(r, k) == if k == ck then Some(power) else Find(us, k)
  {
    var r := Upsert(us, ck, power);
    if us != [] {
      assert r[1..] == if us[0].pubKey == ck then us[1..] else Upsert(us[1..], ck, power);
      if us[0].pubKey != ck {
        UpsertIsWrite(us[1..], ck, power);
      }
    }
  }

  function PowerIn(tm: map<PubKey, nat>, k: PubKey): nat {
    if k in tm then tm[k] else 0
  }

  /** The power of `k` once the pending updates are applied; the last write wins. */
  ghost function Reported(tm: map<PubKey, nat>, us: seq<ValidatorUpdate>, k: PubKey): nat {
    match Find(us, k)
    case Some(power) => power
    case None => PowerIn(tm, k)
  }

  ghost predicate Positive(tm: map<PubKey, nat>) {
    forall k :: k in tm ==> tm[k] > 0
  }

  lemma {:induction false} ApplyIsReported(tm: map<PubKey, nat>, us: seq<ValidatorUpdate>)
    requires Positive(tm) && NoDuplicateKeys(us)
    ensures Positive(ApplyUpdates(tm, us))
    ensures forall k :: PowerIn(ApplyUpdates(tm, us), k) == Reported(tm, us, k)
    decreases |us|
  {
    if us != [] {
      var first := ApplyUpdate(tm, us[0]);
      ApplyIsReported(first, us[1..]);
      forall k
        ensures PowerIn(ApplyUpdates(tm, us), k) == Reported(tm, us, k)
      {
        assert PowerIn(ApplyUpdates(first, us[1..]), k) == Reported(first, us[1..], k);
      }
    }
  }

  // ---------------------------------------------------------------------------------------------
  // Agreement
  // ---------------------------------------------------------------------------------------------

  ghost predicate Injective(keyOf: IdentityKey -> PubKey) {
    forall v, w :: keyOf(v) == keyOf(w) ==> v == w
  }

  ghost function Expected(e: Entry): nat {
    if e.state.Active? then e.power else 0
  }

  /**
   The pending updates bring Tendermint's power of every validator to its stored
   one, except possibly for the Active validators in `open`; no other key has power.
   */
  ghost predicate Agrees(c: Component, tm: map<PubKey, nat>, keyOf: IdentityKey -> PubKey, open: set<IdentityKey>) {
    && NoDuplicateKeys(c.updates)
    && (forall v :: v in c.state.entries ==> c.state.entries[v].definition.consensusKey == keyOf(v))
    && (forall v :: v in c.state.entries ==>
          (v in open && c.state.entries[v].state.Active?)
              || Reported(tm, c.updates, keyOf(v)) == Expected(c.state.entries[v]))
    && (forall k :: (forall v :: v in c.state.entries ==> keyOf(v) != k) ==> Reported(tm, c.updates, k) == 0)
  }

  /** Reporting a validator's new power restores agreement on it. */
  lemma ReportAgrees(
    c: Component, d: Component, tm: map<PubKey, nat>, keyOf: IdentityKey -> PubKey, open: set<IdentityKey>,
    v: IdentityKey)
    requires Injective(keyOf) && Agrees(c, tm, keyOf, open) && v in c.state.entries && v in d.state.entries
    requires d.state.entries == c.state.entries[v := d.state.entries[v]]
    requires d.state.entries[v].definition == c.state.entries[v].definition
    requires d.updates == Upsert(c.updates, keyOf(v), Expected(d.state.entries[v]))
    ensures Agrees(d, tm, keyOf, open - {v})
  {
    UpsertIsWrite(c.updates, keyOf(v), Expected(d.state.entries[v]));
    forall k
      ensures Reported(tm, d.updates, k) == if k == keyOf(v) then Expected(d.state.entries[v])
              else Reported(tm, c.updates, k)
    {}
  }

  /** A change that is not reported and leaves a validator's expected power alone keeps agreement. */
  lemma SilentAgrees(
    c: Component, d: Component, tm: map<PubKey, nat>, keyOf: IdentityKey -> PubKey, open: set<IdentityKey>,
    v: IdentityKey)
    requires Agrees(c, tm, keyOf, open) && v in c.state.entries && v in d.state.entries
    requires d.state.entries == c.state.entries[v := d.state.entries[v]] && d.updates == c.updates
    requires d.state.entries[v].definition == c.state.entries[v].definition
    requires Expected(d.state.entries[v]) == Expected(c.state.entries[v])
    requires d.state.entries[v].state.Active? <==> c.state.entries[v].state.Active?
    ensures Agrees(d, tm, keyOf, open)
    ensures !d.state.entries[v].state.Active? ==> Agrees(d, tm, keyOf, open - {v})
  {}

  lemma SlashAgrees(c: Component, v: IdentityKey, penalty: nat, tm: map<PubKey, nat>, keyOf: IdentityKey -> PubKey)
    requires Injective(keyOf) && Agrees(c, tm, keyOf, {}) && SlashValidator(c, v, penalty).Ok?
    ensures Agrees(SlashValidator(c, v, penalty).value, tm, keyOf, {})
  {
    hide Agrees, Upsert;
    KeyAt(c, tm, keyOf, v);
    ReportAgrees(c, SlashValidator(c, v, penalty).value, tm, keyOf, {}, v);
    assert {} - {v} == {};
  }

  lemma KeyAt(c: Component, tm: map<PubKey, nat>, keyOf: IdentityKey -> PubKey, v: IdentityKey)
    requires Agrees(c, tm, keyOf, {}) && v in c.state.entries
    ensures c.state.entries[v].definition.consensusKey == keyOf(v)
  {}

  lemma {:induction false} SlashAllAgrees(
    c: Component, evidence: seq<IdentityKey>, tm: map<PubKey, nat>, keyOf: IdentityKey -> PubKey)
    requires Injective(keyOf) && Agrees(c, tm, keyOf, {}) && SlashAll(c, evidence).Ok?
    ensures Agrees(SlashAll(c, evidence).value, tm, keyOf, {})
    decreases |evidence|
  {
    hide Agrees, SlashValidator;
    if evidence != [] {
      SlashAgrees(c, evidence[0], c.state.params.slashingPenaltyMisbehaviorBps, tm, keyOf);
      SlashAllAgrees(SlashValidator(c, evidence[0], c.state.params.slashingPenaltyMisbehaviorBps).value, evidence[1..],
          tm, keyOf);
    }
  }

  lemma TrackOneAgrees(
    c: Component, v: IdentityKey, votes: seq<Vote>, tm: map<PubKey, nat>, keyOf: IdentityKey -> PubKey)
    requires Injective(keyOf) && Agrees(c, tm, keyOf, {}) && TrackOne(c, v, votes).Ok?
    ensures Agrees(TrackOne(c, v, votes).value, tm, keyOf, {})
  {
    hide Agrees, SlashValidator;
    var d := TrackOne(c, v, votes).value;
    if d == c {
    } else if SlashValidator(c, v, c.state.params.slashingPenaltyDowntimeBps) == Ok(d) {
      SlashAgrees(c, v, c.state.params.slashingPenaltyDowntimeBps, tm, keyOf);
    } else {
      SilentAgrees(c, d, tm, keyOf, {}, v);
    }
  }

  lemma {:induction false} TrackAgrees(
    c: Component, vs: seq<IdentityKey>, votes: seq<Vote>, tm: map<PubKey, nat>, keyOf: IdentityKey -> PubKey)
    requires Injective(keyOf) && Agrees(c, tm, keyOf, {}) && TrackUptime(c, vs, votes).Ok?
    ensures Agrees(TrackUptime(c, vs, votes).value, tm, keyOf, {})
    decreases |vs|
  {
    hide Agrees, TrackOne;
    if vs != [] {
      TrackOneAgrees(c, vs[0], votes, tm, keyOf);
      TrackAgrees(TrackOne(c, vs[0], votes).value, vs[1..], votes, tm, keyOf);
    }
  }

  // ---------------------------------------------------------------------------------------------
  // Definitions
  // ---------------------------------------------------------------------------------------------

  /** Every definition of a validator names the consensus key `keyOf` gives it. */
  ghost predicate KeysStable(txs: seq<Transaction>, keyOf: IdentityKey -> PubKey) {
    forall i, j :: 0 <= i < |txs| && 0 <= j < |DefinitionsOf(txs[i].actions)| ==>
      var v := DefinitionsOf(txs[i].actions)[j].validator; v.consensusKey == keyOf(v.identityKey)
  }

  /** A validator without expected power can join silently under a key of its own. */
  lemma JoinAgrees(c: Component, d: Component, tm: map<PubKey, nat>, keyOf: IdentityKey -> PubKey, v: IdentityKey)
    requires Injective(keyOf) && Agrees(c, tm, keyOf, {}) && v !in c.state.entries && v in d.state.entries
    requires d.state.entries == c.state.entries[v := d.state.entries[v]] && d.updates == c.updates
    requires d.state.entries[v].definition.consensusKey == keyOf(v) && Expected(d.state.entries[v]) == 0
    ensures Agrees(d, tm, keyOf, {})
  {
    hide NoDuplicateKeys, Find, Expected;
    assert forall w :: w in c.state.entries ==> keyOf(w) != keyOf(v);
    assert Reported(tm, c.updates, keyOf(v)) == 0;
    forall k | forall w :: w in d.state.entries ==> keyOf(w) != k
      ensures Reported(tm, c.updates, k) == 0
    {
      assert forall w :: w in c.state.entries ==> w in d.state.entries;
    }
  }

  lemma DefineAgrees(c: Component, v: Validator, tm: map<PubKey, nat>, keyOf: IdentityKey -> PubKey)
    requires Injective(keyOf) && Agrees(c, tm, keyOf, {}) && c.state.params.epochDuration > 0
    requires v.consensusKey == keyOf(v.identityKey)
    ensures Agrees(c.(state := Define(c.state, v)), tm, keyOf, {})
  {
    hide Injective, Reported, NoDuplicateKeys;
    if v.identityKey !in c.state.entries {
      JoinAgrees(c, c.(state := Define(c.state, v)), tm, keyOf, v.identityKey);
    }
  }

  lemma {:induction false} DefineAllAgrees(
    c: Component, defs: seq<Definition>, tm: map<PubKey, nat>, keyOf: IdentityKey -> PubKey)
    requires Injective(keyOf) && Agrees(c, tm, keyOf, {}) && c.state.params.epochDuration > 0
    requires forall j :: 0 <= j < |defs| ==> defs[j].validator.consensusKey == keyOf(defs[j].validator.identityKey)
    ensures Agrees(c.(state := DefineAll(c.state, defs)), tm, keyOf, {})
  {
    hide Agrees, Define, Injective;
    if defs != [] {
      DefineAllAgrees(c, defs[..|defs| - 1], tm, keyOf);
      DefineAgrees(c.(state := DefineAll(c.state, defs[..|defs| - 1])), defs[|defs| - 1].validator, tm, keyOf);
    }
  }

  lemma {:induction false} DeliverAllAgrees(
    c: Component, txs: seq<Transaction>, tm: map<PubKey, nat>, keyOf: IdentityKey -> PubKey)
    requires Injective(keyOf) && Agrees(c, tm, keyOf, {}) && c.state.params.epochDuration > 0
    requires KeysStable(txs, keyOf)
    ensures Agrees(DeliverAll(c, txs), tm, keyOf, {})
  {
    hide DefineAll, Injective, StatelessOk, StatefulOk;
    if txs != [] {
      var tx := txs[|txs| - 1];
      DeliverAllAgrees(c, txs[..|txs| - 1], tm, keyOf);
      var d := DeliverAll(c, txs[..|txs| - 1]);
      DefineAllAgrees(d, DefinitionsOf(tx.actions), tm, keyOf);
      assert ExecuteTx(d, tx).state == DefineAll(d.state, DefinitionsOf(tx.actions));
    }
  }

  /**
   Redefining a known validator with a key nobody else uses keeps agreement
   exactly when the key stays the same or the validator is not Active with power:
   the component never reports the old key's removal.
   */
  lemma RekeyAgreesIff(
    c: Component, v: Validator, tm: map<PubKey, nat>, keyOf: IdentityKey -> PubKey, newKeyOf: IdentityKey -> PubKey)
    requires Injective(keyOf) && Injective(newKeyOf) && Agrees(c, tm, keyOf, {}) && c.state.params.epochDuration > 0
    requires v.identityKey in c.state.entries && v.consensusKey == newKeyOf(v.identityKey)
    requires forall w :: w != v.identityKey ==> newKeyOf(w) == keyOf(w)
    ensures Agrees(c.(state := Define(c.state, v)), tm, newKeyOf, {}) <==>
            v.consensusKey == keyOf(v.identityKey) || Expected(c.state.entries[v.identityKey]) == 0
  {
    hide NoDuplicateKeys, Find;
    var id := v.identityKey;
    var d := c.(state := Define(c.state, v));
    if newKeyOf(id) != keyOf(id) {
      forall w | w in c.state.entries
        ensures keyOf(w) != newKeyOf(id)
      {
        if w != id { assert newKeyOf(w) == keyOf(w); }
      }
      assert Reported(tm, c.updates, newKeyOf(id)) == 0;
      assert Expected(d.state.entries[id]) == Expected(c.state.entries[id]);
      if Expected(c.state.entries[id]) == 0 {
        forall k | forall w :: w in d.state.entries ==> newKeyOf(w) != k
          ensures Reported(tm, d.updates, k) == 0
        {
          if k != keyOf(id) {
            forall w | w in c.state.entries
              ensures keyOf(w) != k
            {
              assert w in d.state.entries;
            }
          }
        }
      }
    } else {
      forall w
        ensures newKeyOf(w) == keyOf(w)
      {}
    }
  }

  // ---------------------------------------------------------------------------------------------
  // End of epoch
  // ---------------------------------------------------------------------------------------------

  lemma ReportsOf(c: Component, vp: VPower, top: seq<IdentityKey>, epoch: nat)
    requires vp.identityKey in c.state.entries && vp == PowerOf(c.state, vp.identityKey) && vp.power < I64
    requires TransitionOne(c, vp, top, epoch).Ok?
    ensures var d := TransitionOne(c, vp, top, epoch).value;
            && vp.identityKey in d.state.entries
            && (d.updates == Upsert(c.updates, c.state.entries[vp.identityKey].definition.consensusKey,
               Expected(d.state.entries[vp.identityKey]))
                || (d.updates == c.updates && !c.state.entries[vp.identityKey].state.Active?
                   && !d.state.entries[vp.identityKey].state.Active?))
  {
    hide Upsert;
  }

  lemma TransitionOneAgrees(c: Component, vp: VPower, top: seq<IdentityKey>, epoch: nat,
                            tm: map<PubKey, nat>, keyOf: IdentityKey -> PubKey, open: set<IdentityKey>)
    requires Injective(keyOf) && Agrees(c, tm, keyOf, open)
    requires vp.identityKey in c.state.entries && vp == PowerOf(c.state, vp.identityKey) && vp.power < I64
    requires TransitionOne(c, vp, top, epoch).Ok?
    ensures Agrees(TransitionOne(c, vp, top, epoch).value, tm, keyOf, open - {vp.identityKey})
  {
    TransitionOneStep(c, vp, top, epoch);
    ReportsOf(c, vp, top, epoch);
    hide TransitionOne, Upsert, Injective, Transitioned;
    var d := TransitionOne(c, vp, top, epoch).value;
    assert c.state.entries[vp.identityKey].definition.consensusKey == keyOf(vp.identityKey);
    assert d.state.entries[vp.identityKey].definition == c.state.entries[vp.identityKey].definition by {
      DefinitionKept(c.state, c.state.entries[vp.identityKey], d.state.entries[vp.identityKey],
          vp.identityKey in top, epoch);
    }
    if d.updates == Upsert(c.updates, keyOf(vp.identityKey), Expected(d.state.entries[vp.identityKey])) {
      ReportAgrees(c, d, tm, keyOf, open, vp.identityKey);
    } else {
      SilentAgrees(c, d, tm, keyOf, open, vp.identityKey);
    }
  }

  lemma DefinitionKept(s: State, e: Entry, f: Entry, chosen: bool, epoch: nat)
    requires Transitioned(s, e, f, chosen, epoch)
    ensures f.definition == e.definition
  {}

  lemma {:induction false} TransitionAllAgrees(c: Component, vps: seq<VPower>, top: seq<IdentityKey>, epoch: nat,
                                               tm: map<PubKey, nat>, keyOf: IdentityKey -> PubKey,
                                                   open: set<IdentityKey>)
    requires Injective(keyOf) && Agrees(c, tm, keyOf, open) && Snapshot(c.state, vps)
    requires forall v :: v in open ==> Listed(vps, v)
    requires TransitionAll(c, vps, top, epoch).Ok?
    ensures Agrees(TransitionAll(c, vps, top, epoch).value, tm, keyOf, {})
    decreases |vps|
  {
    hide Agrees, Injective, TransitionOne;
    if vps == [] {
      assert open == {};
    } else {
      TransitionOneStep(c, vps[0], top, epoch);
      TransitionOneAgrees(c, vps[0], top, epoch, tm, keyOf, open);
      var d := TransitionOne(c, vps[0], top, epoch).value;
      SnapshotTail(c.state, d.state, vps);
      forall v | v in open - {vps[0].identityKey}
        ensures Listed(vps[1..], v)
      {
        ListedCons(vps, v);
      }
      TransitionAllAgrees(d, vps[1..], top, epoch, tm, keyOf, open - {vps[0].identityKey});
    }
  }

  /** Rolling the rates over only disturbs the powers of Active validators, which the boundary reports afresh. */
  lemma RollAgrees(c: Component, d: Component, tm: map<PubKey, nat>, keyOf: IdentityKey -> PubKey)
    requires Agrees(c, tm, keyOf, {}) && d.updates == c.updates && d.state.entries.Keys == c.state.entries.Keys
    requires forall v :: v in c.state.entries ==>
               d.state.entries[v].state == c.state.entries[v].state
                   && d.state.entries[v].definition == c.state.entries[v].definition
    ensures Agrees(d, tm, keyOf, d.state.entries.Keys)
  {
    forall k | forall v :: v in d.state.entries ==> keyOf(v) != k
      ensures Reported(tm, d.updates, k) == 0
    {
      assert forall v :: v in c.state.entries ==> v in d.state.entries;
    }
  }

  lemma BoundaryAgrees(c: Component, epoch: nat, tm: map<PubKey, nat>, keyOf: IdentityKey -> PubKey)
    requires Injective(keyOf) && Listing(c.state) && Agrees(c, tm, keyOf, c.state.entries.Keys)
    requires ProcessEpochTransitions(c, epoch).Ok?
    ensures Agrees(ProcessEpochTransitions(c, epoch).value, tm, keyOf, {})
  {
    hide Agrees, Injective, TransitionAll, ProcessEpochTransitions;
    BoundaryIsPass(c, epoch);
    TransitionAllAgrees(c, SortDescending(PowerList(c.state)), Top(c.state), epoch, tm, keyOf, c.state.entries.Keys);
  }

  lemma EndEpochAgrees(c: Component, k: nat, tm: map<PubKey, nat>, keyOf: IdentityKey -> PubKey)
    requires Injective(keyOf) && Agrees(c, tm, keyOf, {})
    requires StateOk(c.state, k) && UptimesAt(c.state, c.state.height)
    requires c.state.params.epochDuration > 0 && EndEpoch(c, Epoch(k, c.state.params.epochDuration)).Ok?
    ensures Agrees(EndEpoch(c, Epoch(k, c.state.params.epochDuration)).value, tm, keyOf, {})
  {
    var epoch := Epoch(k, c.state.params.epochDuration);
    var ctx := ContextAt(c.state, epoch).value;
    var d := c.(state := RollOver(c.state, ctx).value.0);
    RolledFacts(c.state, epoch, ctx);
    hide ContextAt, RollOver, ProcessEpochTransitions, StateOk, Injective, Agrees;
    RollAgrees(c, d, tm, keyOf);
    BoundaryAgrees(d, k, tm, keyOf);
    var u := ProcessEpochTransitions(d, k).value;
    CommissionsAgree(u, EndEpoch(c, epoch).value, tm, keyOf);
  }

  lemma RolledFacts(s: State, epoch: Epoch, ctx: EpochContext)
    requires epoch.duration > 0 && StateOk(s, epoch.index) && UptimesAt(s, s.height)
    requires ContextAt(s, epoch) == Ok(ctx) && RollOver(s, ctx).Ok?
    ensures var t := RollOver(s, ctx).value.0;
            && Listing(t) && t.entries.Keys == s.entries.Keys
            && forall v :: v in s.entries ==>
                 t.entries[v].state == s.entries[v].state && t.entries[v].definition == s.entries[v].definition
  {
    hide StateOk, RollOver;
    RollOutcome(s, ctx, epoch.index);
    var t := RollOver(s, ctx).value.0;
    forall v | v in s.entries
      ensures t.entries[v].state == s.entries[v].state && t.entries[v].definition == s.entries[v].definition
    {
      assert v in s.list by { InList(s, epoch.index, v); }
      assert EpochStep(s.entries[v], t.entries[v]);
    }
  }

  lemma InList(s: State, k: nat, v: IdentityKey)
    requires StateOk(s, k) && v in s.entries
    ensures v in s.list
  {}

  lemma CommissionsAgree(c: Component, d: Component, tm: map<PubKey, nat>, keyOf: IdentityKey -> PubKey)
    requires Agrees(c, tm, keyOf, {}) && d.updates == c.updates && d.state.entries == c.state.entries
    ensures Agrees(d, tm, keyOf, {})
  {}

  // ---------------------------------------------------------------------------------------------
  // Runs
  // ---------------------------------------------------------------------------------------------

  ghost predicate BlocksStable(bs: seq<Block>, keyOf: IdentityKey -> PubKey) {
    forall i :: 0 <= i < |bs| ==> KeysStable(bs[i].txs, keyOf)
  }

  ghost predicate ChainAgrees(ch: Chain, keyOf: IdentityKey -> PubKey) {
    Positive(ch.tendermint) && Agrees(ch.component, ch.tendermint, keyOf, {})
  }

  lemma CommitAgrees(c: Component, tm: map<PubKey, nat>, keyOf: IdentityKey -> PubKey)
    requires Positive(tm) && Agrees(c, tm, keyOf, {})
    ensures ChainAgrees(Commit(c, tm), keyOf)
  {
    ApplyIsReported(tm, c.updates);
    forall k
      ensures Reported(ApplyUpdates(tm, c.updates), [], k) == Reported(tm, c.updates, k)
    {}
  }

  lemma EndBlockAgrees(c: Component, k: nat, tm: map<PubKey, nat>, keyOf: IdentityKey -> PubKey)
    requires Injective(keyOf) && Agrees(c, tm, keyOf, {}) && InBlock(c.state, k) && c.state.params.epochDuration > 0
    requires EndBlock(c, c.state.height).Ok?
    ensures Agrees(EndBlock(c, c.state.height).value, tm, keyOf, {})
  {
    hide EndEpoch, Agrees, StateOk;
    var s := c.state.(changes := c.state.changes[c.state.height := c.pending]);
    var d := Component(s, NO_CHANGES, c.updates);
    CommissionsAgree(c, d, tm, keyOf);
    BookkeepingKeepsOk(c.state, s, k, s.height);
    if Epoch(k, s.params.epochDuration).IsEpochEnd(s.height) {
      EndEpochAgrees(d, k, tm, keyOf);
    }
  }

  lemma BlockAgrees(ch: Chain, b: Block, keyOf: IdentityKey -> PubKey)
    requires Injective(keyOf) && ChainOk(ch) && ChainAgrees(ch, keyOf) && KeysStable(b.txs, keyOf)
             && RunBlock(ch, b).Ok?
    ensures ChainAgrees(RunBlock(ch, b).value, keyOf)
  {
    hide Agrees, Injective, SlashAll, TrackUptime, DeliverAll, EndBlock, MintRewards, KeysStable, StateOk,
         Positive, Later;
    var tm := ch.tendermint;
    var c := Advanced(ch);
    CommissionsAgree(ch.component, c, tm, keyOf);
    SlashAllAgrees(c, b.evidence, tm, keyOf);
    var c0 := SlashAll(c, b.evidence).value;
    TrackAgrees(c0, c0.state.list, b.votes, tm, keyOf);
    BeginOk(ch, b);
    var c1 := BeginBlock(c, b.evidence, b.votes).value;
    DeliverAllAgrees(c1, b.txs, tm, keyOf);
    DeliverOk(c1, b.txs, NextEpoch(ch.component.state));
    var c2 := DeliverAll(c1, b.txs);
    EndBlockAgrees(c2, NextEpoch(ch.component.state), tm, keyOf);
    var c3 := EndBlock(c2, c2.state.height).value;
    EndBlockKeepsOk(c2, NextEpoch(ch.component.state));
    MintKeepsOk(c3.state, NextEpoch(c3.state));
    var c4 := c3.(state := MintRewards(c3.state).value);
    CommissionsAgree(c3, c4, tm, keyOf);
    CommitAgrees(c4, tm, keyOf);
  }

  // ---- genesis

  lemma {:induction false} InitValidatorsAgree(g: Genesis, n: nat, keyOf: IdentityKey -> PubKey)
    requires Injective(keyOf) && GenesisListOk(g) && n <= |g.validators|
    requires forall i :: 0 <= i < |g.validators| ==> g.validators[i].consensusKey == keyOf(g.validators[i].identityKey)
    requires InitValidators(Component(EmptyState(g.params), NO_CHANGES, []), g.validators[..n], g.allocations).Ok?
    ensures Agrees(InitValidators(Component(EmptyState(g.params), NO_CHANGES, []), g.validators[..n],
            g.allocations).value, map[], keyOf, {})
  {
    hide Agrees, Injective, InitValidator;
    if n == 0 {
      NothingAgrees(g, keyOf);
    } else {
      assert g.validators[..n][..n - 1] == g.validators[..n - 1];
      InitValidatorsAgree(g, n - 1, keyOf);
      InitValidatorsSteps(g, n - 1);
      var c := InitValidators(Component(EmptyState(g.params), NO_CHANGES, []), g.validators[..n - 1],
          g.allocations).value;
      InitValidatorAgrees(c, g.validators[n - 1], g.allocations, keyOf);
    }
  }

  lemma NothingAgrees(g: Genesis, keyOf: IdentityKey -> PubKey)
    ensures Agrees(Component(EmptyState(g.params), NO_CHANGES, []), map[], keyOf, {})
  {}

  lemma InitValidatorAgrees(c: Component, v: Validator, allocations: seq<Allocation>, keyOf: IdentityKey -> PubKey)
    requires Injective(keyOf) && Agrees(c, map[], keyOf, {}) && v.consensusKey == keyOf(v.identityKey)
    requires v.identityKey !in c.state.entries && InitValidator(c, v, allocations).Ok?
    ensures Agrees(InitValidator(c, v, allocations).value, map[], keyOf, {})
  {
    var d := InitValidator(c, v, allocations).value;
    UpsertIsWrite(c.updates, v.consensusKey, d.state.entries[v.identityKey].power);
    forall k
      ensures Reported(map[], d.updates, k) ==
              if k == v.consensusKey then d.state.entries[v.identityKey].power else Reported(map[], c.updates, k)
    {}
    forall k | forall w :: w in d.state.entries ==> keyOf(w) != k
      ensures Reported(map[], d.updates, k) == 0
    {
      assert v.identityKey in d.state.entries;
      assert forall w :: w in c.state.entries ==> w in d.state.entries;
    }
  }

  lemma StartAgrees(g: Genesis, keyOf: IdentityKey -> PubKey)
    requires Injective(keyOf) && GenesisListOk(g) && Start(g).Ok?
    requires forall i :: 0 <= i < |g.validators| ==> g.validators[i].consensusKey == keyOf(g.validators[i].identityKey)
    ensures ChainAgrees(Start(g).value, keyOf)
  {
    hide Agrees, Injective, InitValidators, MintAll;
    assert g.validators[..|g.validators|] == g.validators;
    InitValidatorsAgree(g, |g.validators|, keyOf);
    InitValidatorsSteps(g, |g.validators|);
    var c := InitChain(g).value;
    MintAllSteps(c.state, g.allocations);
    var d := c.(state := MintAll(c.state, g.allocations).value);
    var c0 := InitValidators(Component(EmptyState(g.params), NO_CHANGES, []), g.validators, g.allocations).value;
    CommissionsAgree(c0, d, map[], keyOf);
    CommitAgrees(d, map[], keyOf);
  }

  lemma {:induction false} RunsAgree(g: Genesis, bs: seq<Block>, keyOf: IdentityKey -> PubKey)
    requires Injective(keyOf) && GenesisOk(g) && Start(g).Ok? && RunBlocks(Start(g).value, bs).Ok?
             && BlocksStable(bs, keyOf)
    requires forall i :: 0 <= i < |g.validators| ==> g.validators[i].consensusKey == keyOf(g.validators[i].identityKey)
    ensures ChainAgrees(RunBlocks(Start(g).value, bs).value, keyOf)
  {
    hide ChainAgrees, RunBlock, Start, Injective, ChainOk;
    if bs == [] {
      StartAgrees(g, keyOf);
    } else {
      RunsAgree(g, bs[..|bs| - 1], keyOf);
      RunsAreSafe(g, bs[..|bs| - 1]);
      BlockAgrees(RunBlocks(Start(g).value, bs[..|bs| - 1]).value, bs[|bs| - 1], keyOf);
    }
  }

  /**
   When every definition, at genesis and later, gives each validator one
   consensus key of its own, Tendermint's validator set after every block is
   exactly the Active validators with power, at their stored powers.
   */
  lemma TendermintMatchesActiveSet(g: Genesis, bs: seq<Block>, keyOf: IdentityKey -> PubKey)
    requires Injective(keyOf) && GenesisOk(g) && Start(g).Ok? && RunBlocks(Start(g).value, bs).Ok?
             && BlocksStable(bs, keyOf)
    requires forall i :: 0 <= i < |g.validators| ==> g.validators[i].consensusKey == keyOf(g.validators[i].identityKey)
    ensures var ch := RunBlocks(Start(g).value, bs).value;
            var (s, tm) := (ch.component.state, ch.tendermint);
            && (forall k :: k in tm ==> exists v :: v in s.entries && keyOf(v) == k)
            && forall v :: v in s.entries ==>
                 && (keyOf(v) in tm <==> s.entries[v].state.Active? && s.entries[v].power > 0)
                 && (keyOf(v) in tm ==> tm[keyOf(v)] == s.entries[v].power)
  {
    hide RunBlocks, Start;
    RunsAgree(g, bs, keyOf);
    RunsAreSafe(g, bs);
    var ch := RunBlocks(Start(g).value, bs).value;
    forall k | k in ch.tendermint
      ensures exists v :: v in ch.component.state.entries && keyOf(v) == k
    {
      assert Reported(ch.tendermint, ch.component.updates, k) > 0;
    }
    forall v | v in ch.component.state.entries
      ensures PowerIn(ch.tendermint, keyOf(v)) == Expected(ch.component.state.entries[v])
    {
      assert Reported(ch.tendermint, ch.component.updates, keyOf(v)) == Expected(ch.component.state.entries[v]);
    }
  }
}
