/**
 Queued delegations and undelegations (stake/src/changes.rs, the checks of
 stake/src/component.rs) and the rounding drift between the stake a validator's
 delegators hand over and the burn recorded for their netted total.
 */
module Delegations {
  import opened Prelude
  import opened Rates

  datatype Delegate = Delegate(validatorIdentity: IdentityKey, epochIndex: nat, unbondedAmount: nat,
      delegationAmount: nat)

  datatype Undelegate = Undelegate(validatorIdentity: IdentityKey, epochIndex: nat, unbondedAmount: nat,
      delegationAmount: nat)

  datatype DelegationChanges = DelegationChanges(delegations: seq<Delegate>, undelegations: seq<Undelegate>)

  const NO_CHANGES := DelegationChanges([], [])

  function Append(a: DelegationChanges, b: DelegationChanges): DelegationChanges {
    DelegationChanges(a.delegations + b.delegations, a.undelegations + b.undelegations)
  }

  /** Delegation tokens that `ds` mints for validator `v`. */
  function Delegated(ds: seq<Delegate>, v: IdentityKey): nat {
    if ds == [] then 0
    else
      var d := ds[|ds| - 1];
      Delegated(ds[..|ds| - 1], v) + (if d.validatorIdentity == v then d.delegationAmount else 0)
  }

  /** Delegation tokens that `us` burns for validator `v`. */
  function Undelegated(us: seq<Undelegate>, v: IdentityKey): nat {
    if us == [] then 0
    else
      var u := us[|us| - 1];
      Undelegated(us[..|us| - 1], v) + (if u.validatorIdentity == v then u.delegationAmount else 0)
  }

  /** Staking tokens handed over to validator `v`. */
  ghost function Bonded(ds: seq<Delegate>, v: IdentityKey): nat {
    if ds == [] then 0
    else
      var d := ds[|ds| - 1];
      Bonded(ds[..|ds| - 1], v) + (if d.validatorIdentity == v then d.unbondedAmount else 0)
  }

  /** Staking tokens paid back by validator `v`. */
  ghost function Released(us: seq<Undelegate>, v: IdentityKey): nat {
    if us == [] then 0
    else
      var u := us[|us| - 1];
      Released(us[..|us| - 1], v) + (if u.validatorIdentity == v then u.unbondedAmount else 0)
  }

  ghost function DelegationsTo(ds: seq<Delegate>, v: IdentityKey): nat {
    if ds == [] then 0
    else DelegationsTo(ds[..|ds| - 1], v) + (if ds[|ds| - 1].validatorIdentity == v then 1 else 0)
  }

  ghost function UndelegationsFrom(us: seq<Undelegate>, v: IdentityKey): nat {
    if us == [] then 0
    else UndelegationsFrom(us[..|us| - 1], v) + (if us[|us| - 1].validatorIdentity == v then 1 else 0)
  }

  /** Tokens `c` adds to the delegation token supply of `v`. */
  function Net(c: DelegationChanges, v: IdentityKey): int {
    Delegated(c.delegations, v) - Undelegated(c.undelegations, v)
  }

  lemma {:induction false} DelegatedAppend(a: seq<Delegate>, b: seq<Delegate>, v: IdentityKey)
    ensures Delegated(a + b, v) == Delegated(a, v) + Delegated(b, v)
  {
    if b == [] {
      assert a + b == a;
    } else {
      DelegatedAppend(a, b[..|b| - 1], v);
      assert (a + b)[..|a + b| - 1] == a + b[..|b| - 1];
    }
  }

  lemma {:induction false} UndelegatedAppend(a: seq<Undelegate>, b: seq<Undelegate>, v: IdentityKey)
    ensures Undelegated(a + b, v) == Undelegated(a, v) + Undelegated(b, v)
  {
    if b == [] {
      assert a + b == a;
    } else {
      UndelegatedAppend(a, b[..|b| - 1], v);
      assert (a + b)[..|a + b| - 1] == a + b[..|b| - 1];
    }
  }

  // ---------------------------------------------------------------------------------------------
  // Changes recorded per height
  // ---------------------------------------------------------------------------------------------

  ghost predicate HasAll(changes: map<nat, DelegationChanges>, lo: nat, hi: nat) {
    forall h :: lo <= h < hi ==> h in changes
  }

  /** Everything recorded at heights `lo <= h < hi`, oldest first. */
  ghost function Collect(changes: map<nat, DelegationChanges>, lo: nat, hi: nat): DelegationChanges
    requires lo <= hi && HasAll(changes, lo, hi)
    decreases hi
  {
    if lo == hi then NO_CHANGES else Append(Collect(changes, lo, hi - 1), changes[hi - 1])
  }

  /** Splitting a range of heights neither drops nor repeats a change. */
  lemma {:induction false} CollectSplit(changes: map<nat, DelegationChanges>, lo: nat, mid: nat, hi: nat)
    requires lo <= mid <= hi && HasAll(changes, lo, hi)
    ensures Collect(changes, lo, hi) == Append(Collect(changes, lo, mid), Collect(changes, mid, hi))
    decreases hi
  {
    if mid < hi {
      CollectSplit(changes, lo, mid, hi - 1);
    }
  }

  lemma NetSplit(changes: map<nat, DelegationChanges>, lo: nat, mid: nat, hi: nat, v: IdentityKey)
    requires lo <= mid <= hi && HasAll(changes, lo, hi)
    ensures Net(Collect(changes, lo, hi), v) == Net(Collect(changes, lo, mid), v) + Net(Collect(changes, mid, hi), v)
  {
    CollectSplit(changes, lo, mid, hi);
    var a, b := Collect(changes, lo, mid), Collect(changes, mid, hi);
    DelegatedAppend(a.delegations, b.delegations, v);
    UndelegatedAppend(a.undelegations, b.undelegations, v);
  }

  lemma {:induction false} CollectFrame(
    a: map<nat, DelegationChanges>, b: map<nat, DelegationChanges>, lo: nat, hi: nat)
    requires lo <= hi && HasAll(a, lo, hi) && HasAll(b, lo, hi)
    requires forall h :: lo <= h < hi ==> a[h] == b[h]
    ensures Collect(a, lo, hi) == Collect(b, lo, hi)
    decreases hi
  {
    if lo < hi {
      CollectFrame(a, b, lo, hi - 1);
    }
  }

  // ---------------------------------------------------------------------------------------------
  // Drift
  // ---------------------------------------------------------------------------------------------

  /** Every change that names `v` was priced at `rate`. */
  ghost predicate PricedAt(c: DelegationChanges, v: IdentityKey, rate: RateData) {
    && (forall d :: d in c.delegations && d.validatorIdentity == v ==>
          rate.DelegationAmount(d.unbondedAmount) == Ok(d.delegationAmount))
    && (forall u :: u in c.undelegations && u.validatorIdentity == v ==>
          rate.UnbondedAmount(u.delegationAmount) == Ok(u.unbondedAmount))
  }

  lemma OneDelegation(rate: RateData, d: Delegate)
    requires rate.DelegationAmount(d.unbondedAmount) == Ok(d.delegationAmount)
    ensures var a := d.delegationAmount * rate.exchangeRate;
            a <= d.unbondedAmount * SCALE <= a + rate.exchangeRate
  {}

  lemma AddBounds(e: nat, t: nat, b: nat, n: nat, amount: nat, unbonded: nat)
    requires t * e <= b * SCALE <= t * e + n * e
    requires amount * e <= unbonded * SCALE <= amount * e + e
    ensures (t + amount) * e <= (b + unbonded) * SCALE <= (t + amount) * e + (n + 1) * e
  {
    assert (n + 1) * e == n * e + e;
    assert (t + amount) * e == t * e + amount * e;
  }

  lemma {:induction false} BondedBounds(c: DelegationChanges, ds: seq<Delegate>, v: IdentityKey, rate: RateData)
    requires PricedAt(c, v, rate) && ds <= c.delegations
    ensures var e := rate.exchangeRate;
            Delegated(ds, v) * e <= Bonded(ds, v) * SCALE <= Delegated(ds, v) * e + DelegationsTo(ds, v) * e
  {
    if ds != [] {
      var init, d := ds[..|ds| - 1], ds[|ds| - 1];
      BondedBounds(c, init, v, rate);
      if d.validatorIdentity == v {
        assert d == c.delegations[|ds| - 1];
        OneDelegation(rate, d);
        AddBounds(rate.exchangeRate, Delegated(init, v), Bonded(init, v), DelegationsTo(init, v),
                  d.delegationAmount, d.unbondedAmount);
      }
    }
  }

  lemma OneUndelegation(rate: RateData, u: Undelegate)
    requires rate.UnbondedAmount(u.delegationAmount) == Ok(u.unbondedAmount)
    ensures u.unbondedAmount * SCALE <= u.delegationAmount * rate.exchangeRate <= (u.unbondedAmount + 1) * SCALE
  {}

  lemma {:induction false} ReleasedBounds(c: DelegationChanges, us: seq<Undelegate>, v: IdentityKey, rate: RateData)
    requires PricedAt(c, v, rate) && us <= c.undelegations
    ensures var e := rate.exchangeRate;
            Undelegated(us, v) * e - UndelegationsFrom(us, v) * SCALE <= Released(us, v) * SCALE <=
                Undelegated(us, v) * e
  {
    if us != [] {
      var u := us[|us| - 1];
      ReleasedBounds(c, us[..|us| - 1], v, rate);
      if u.validatorIdentity == v {
        assert u == c.undelegations[|us| - 1];
        OneUndelegation(rate, u);
        ProductOfDifference(Undelegated(us, v), Undelegated(us[..|us| - 1], v), rate.exchangeRate);
      }
    }
  }

  /** The burn of staking tokens for a netted change of `delta` delegation tokens, before any cast. */
  function Burn(rate: RateData, delta: int): int {
    if delta >= 0 then delta * rate.exchangeRate / SCALE else -(-delta * rate.exchangeRate / SCALE)
  }

  /**
   The staking tokens actually consumed exceed the burn computed from the
   netted delta by a non-negative amount, below one delegation token per
   delegation plus one staking token per undelegation plus one.
   */
  lemma DriftBound(c: DelegationChanges, v: IdentityKey, rate: RateData)
    requires PricedAt(c, v, rate)
    ensures var drift := Bonded(c.delegations, v) - Released(c.undelegations, v) - Burn(rate, Net(c, v));
            && 0 <= drift
            && drift * SCALE < DelegationsTo(c.delegations, v) * rate.exchangeRate
                               + (UndelegationsFrom(c.undelegations, v) + 1) * SCALE
  {
    BondedBounds(c, c.delegations, v, rate);
    ReleasedBounds(c, c.undelegations, v, rate);
    BurnRounds(rate, Net(c, v));
    ProductOfDifference(Delegated(c.delegations, v), Undelegated(c.undelegations, v), rate.exchangeRate);
  }

  lemma BurnRounds(rate: RateData, delta: int)
    ensures var exact := delta * rate.exchangeRate;
            if exact >= 0 then exact - SCALE < Burn(rate, delta) * SCALE <= exact
            else exact <= Burn(rate, delta) * SCALE < exact + SCALE
  {
    if delta < 0 {
      assert -delta * rate.exchangeRate == -(delta * rate.exchangeRate);
      assert 0 <= -delta * rate.exchangeRate;
    } else {
      assert 0 <= delta * rate.exchangeRate;
    }
  }

  lemma ProductOfDifference(t: int, u: int, e: int)
    ensures (t - u) * e == t * e - u * e
  {}
}
