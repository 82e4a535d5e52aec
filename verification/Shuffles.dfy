/**
 Builders shuffle what they list (transaction/src/transaction/builder.rs:241-246). The checks
 of both components come out the same for every order of a transaction's actions.
 */
module Shuffles {
  import opened Prelude
  import opened Rates
  import opened Transactions
  import opened Delegations
  import opened ValueBalance
  import PoolSpec
  import StakingSpec

  lemma {:induction false} FiltersAppend(xs: seq<Action>, ys: seq<Action>)
    ensures SpentNullifiers(xs + ys) == SpentNullifiers(xs) + SpentNullifiers(ys)
    ensures DelegationsOf(xs + ys) == DelegationsOf(xs) + DelegationsOf(ys)
    ensures UndelegationsOf(xs + ys) == UndelegationsOf(xs) + UndelegationsOf(ys)
    ensures DefinitionsOf(xs + ys) == DefinitionsOf(xs) + DefinitionsOf(ys)
    decreases |ys|
  {
    if ys == [] {
      assert xs + ys == xs;
    } else {
      assert (xs + ys)[..|xs + ys| - 1] == xs + ys[..|ys| - 1];
      FiltersAppend(xs, ys[..|ys| - 1]);
    }
  }

  /** The same nullifiers, delegations, undelegations and definitions, as often, with the same totals. */
  ghost predicate Alike(xs: seq<Action>, ys: seq<Action>) {
    && multiset(SpentNullifiers(xs)) == multiset(SpentNullifiers(ys))
    && multiset(DelegationsOf(xs)) == multiset(DelegationsOf(ys))
    && multiset(UndelegationsOf(xs)) == multiset(UndelegationsOf(ys))
    && multiset(DefinitionsOf(xs)) == multiset(DefinitionsOf(ys))
    && (forall v :: Delegated(DelegationsOf(xs), v) == Delegated(DelegationsOf(ys), v))
    && (forall v :: Undelegated(UndelegationsOf(xs), v) == Undelegated(UndelegationsOf(ys), v))
  }

  lemma TotalsAppend(xs: seq<Action>, ys: seq<Action>, v: IdentityKey)
    ensures Delegated(DelegationsOf(xs + ys), v) == Delegated(DelegationsOf(xs), v) + Delegated(DelegationsOf(ys), v)
    ensures Undelegated(UndelegationsOf(xs + ys), v)
            == Undelegated(UndelegationsOf(xs), v) + Undelegated(UndelegationsOf(ys), v)
  {
    hide *;
    FiltersAppend(xs, ys);
    DelegatedAppend(DelegationsOf(xs), DelegationsOf(ys), v);
    UndelegatedAppend(UndelegationsOf(xs), UndelegationsOf(ys), v);
  }

  /** Joining like parts in either order gives like wholes. */
  lemma JoinAlike(xs: seq<Action>, ys: seq<Action>, us: seq<Action>, vs: seq<Action>)
    requires Alike(xs, us) && Alike(ys, vs)
    ensures Alike(xs + ys, us + vs) && Alike(xs + ys, vs + us)
  {
    hide SpentNullifiers, DelegationsOf, UndelegationsOf, DefinitionsOf, Delegated, Undelegated;
    FiltersAppend(xs, ys);
    FiltersAppend(us, vs);
    FiltersAppend(vs, us);
    forall v
      ensures Delegated(DelegationsOf(xs + ys), v) == Delegated(DelegationsOf(us + vs), v)
      ensures Delegated(DelegationsOf(xs + ys), v) == Delegated(DelegationsOf(vs + us), v)
      ensures Undelegated(UndelegationsOf(xs + ys), v) == Undelegated(UndelegationsOf(us + vs), v)
      ensures Undelegated(UndelegationsOf(xs + ys), v) == Undelegated(UndelegationsOf(vs + us), v)
    {
      TotalsAppend(xs, ys, v);
      TotalsAppend(us, vs, v);
      TotalsAppend(vs, us, v);
    }
  }

  lemma AlikeTransitive(xs: seq<Action>, ys: seq<Action>, zs: seq<Action>)
    requires Alike(xs, ys) && Alike(ys, zs)
    ensures Alike(xs, zs)
  {
    hide SpentNullifiers, DelegationsOf, UndelegationsOf, DefinitionsOf, Delegated, Undelegated;
  }

  lemma AlikeReflexive(xs: seq<Action>)
    ensures Alike(xs, xs)
  {}

  lemma {:induction false} ShufflesAlike(xs: seq<Action>, ys: seq<Action>)
    requires multiset(xs) == multiset(ys)
    ensures Alike(xs, ys)
    decreases |xs|
  {
    hide Alike;
    if xs == [] {
      assert |multiset(ys)| == 0;
      AlikeReflexive(xs);
    } else {
      var n := |xs| - 1;
      var init, a := xs[..n], xs[n];
      assert xs == init + [a];
      assert a in multiset(ys);
      var i :| 0 <= i < |ys| && ys[i] == a;
      var rest := ys[..i] + ys[i + 1..];
      Without(ys, i);
      assert multiset(xs) == multiset(init) + multiset{a};
      OneLess(multiset(rest), multiset(init), a);
      ShufflesAlike(init, rest);
      AlikeReflexive([a]);
      JoinAlike(init, [a], rest, [a]);
      TakenFromMiddle(ys, i);
      AlikeTransitive(xs, rest + [a], ys);
    }
  }

  lemma TakenFromMiddle(ys: seq<Action>, i: nat)
    requires i < |ys|
    ensures Alike(ys[..i] + ys[i + 1..] + [ys[i]], ys)
  {
    hide Alike;
    var front, a, back := ys[..i], [ys[i]], ys[i + 1..];
    AlikeReflexive(front);
    AlikeReflexive(a);
    AlikeReflexive(back);
    JoinAlike(back, a, back, a);
    JoinAlike(front, back + a, front, a + back);
    assert front + back + a == front + (back + a) && ys == front + (a + back);
  }

  // ---------------------------------------------------------------------------------------------
  // The checks
  // ---------------------------------------------------------------------------------------------

  lemma {:induction false} CountsOfDistinct<T>(s: seq<T>)
    ensures Distinct(s) <==> forall x :: multiset(s)[x] <= 1
  {
    if s != [] {
      var init, last := s[..|s| - 1], s[|s| - 1];
      assert s == init + [last];
      CountsOfDistinct(init);
      if Distinct(s) {
        assert Distinct(init) && last !in init;
      } else if Distinct(init) {
        assert last in init;
        assert multiset(s)[last] > 1;
      } else {
        var x :| multiset(init)[x] > 1;
        assert multiset(s)[x] > 1;
      }
    }
  }

  lemma MembersAlike<T>(a: seq<T>, b: seq<T>)
    requires multiset(a) == multiset(b)
    ensures forall x :: x in a <==> x in b
    ensures a == [] <==> b == []
  {
    forall x
      ensures x in a <==> x in b
    {
      assert x in a <==> x in multiset(a);
      assert x in b <==> x in multiset(b);
    }
    assert |multiset(a)| == |a| && |multiset(b)| == |b|;
  }

  /** The pool's checks do not depend on the order of the actions. */
  lemma ShufflesPassPoolAlike(
    crypto: PoolSpec.Crypto, s: PoolSpec.PoolState, tx: Transaction, actions: seq<Action>)
    requires multiset(actions) == multiset(tx.actions)
    ensures PoolSpec.StatelessOk(crypto, tx.(actions := actions)) <==> PoolSpec.StatelessOk(crypto, tx)
    ensures PoolSpec.StatefulOk(s, tx.(actions := actions)) <==> PoolSpec.StatefulOk(s, tx)
  {
    var ty := tx.(actions := actions);
    assert PureBlinding(ty) <==> PureBlinding(tx) by {
      forall asset
        ensures KeyValue(ty, asset) == KeyValue(tx, asset)
      {
        ShufflesBalanceAlike(actions, tx.actions, asset);
      }
    }
    MembersAlike(actions, tx.actions);
    ShufflesAlike(actions, tx.actions);
    var ns, ms := SpentNullifiers(actions), SpentNullifiers(tx.actions);
    MembersAlike(ns, ms);
    CountsOfDistinct(ns);
    CountsOfDistinct(ms);
    hide PureBlinding, Alike, SpentNullifiers, Distinct, PoolSpec.ActionOk;
    EachAlike(actions, tx.actions, a => PoolSpec.ActionOk(crypto, tx.merkleRoot, a));
    EachAlike(ns, ms, n => n !in s.spentNullifiers);
  }

  lemma EachAlike<T>(a: seq<T>, b: seq<T>, p: T -> bool)
    requires forall x :: x in a <==> x in b
    ensures (forall i :: 0 <= i < |a| ==> p(a[i])) <==> (forall i :: 0 <= i < |b| ==> p(b[i]))
  {
    assert forall i :: 0 <= i < |a| ==> a[i] in b;
    assert forall i :: 0 <= i < |b| ==> b[i] in a;
  }

  // ---------------------------------------------------------------------------------------------

  /** The staking component's checks do not depend on the order of the actions. */
  lemma ShufflesPassStakingAlike(s: StakingSpec.State, tx: Transaction, actions: seq<Action>)
    requires multiset(actions) == multiset(tx.actions)
    ensures StakingSpec.StatelessOk(tx.(actions := actions)) <==> StakingSpec.StatelessOk(tx)
    ensures StakingSpec.StatefulOk(s, tx.(actions := actions)) <==> StakingSpec.StatefulOk(s, tx)
  {
    MembersAlike(actions, tx.actions);
    ShufflesAlike(actions, tx.actions);
    StatelessAlike(tx, actions);
    StatefulAlike(s, tx, actions);
  }

  predicate Allowed(a: Action) {
    a.Undelegation? || a.Delegation? || a.Spend? || a.Output?
  }

  lemma StatelessAlike(tx: Transaction, actions: seq<Action>)
    requires Alike(actions, tx.actions) && forall a :: a in actions <==> a in tx.actions
    ensures StakingSpec.StatelessOk(tx.(actions := actions)) <==> StakingSpec.StatelessOk(tx)
  {
    hide DelegationsOf, UndelegationsOf, DefinitionsOf, SpentNullifiers, Delegated, Undelegated, CommissionBps;
    var us, vs := UndelegationsOf(actions), UndelegationsOf(tx.actions);
    var ds, es := DefinitionsOf(actions), DefinitionsOf(tx.actions);
    MembersAlike(us, vs);
    MembersAlike(ds, es);
    hide Alike;
    EachAlike(actions, tx.actions, Allowed);
    EachAlike(ds, es, (d: Definition) => d.signed && CommissionBps(d.validator.fundingStreams) <= BPS);
    PairsAlike(us, vs);
  }

  lemma PairsAlike(us: seq<Undelegate>, vs: seq<Undelegate>)
    requires forall u :: u in us <==> u in vs
    ensures (forall i, j :: 0 <= i < |us| && 0 <= j < |us| ==> us[i].validatorIdentity == us[j].validatorIdentity)
       <==> (forall i, j :: 0 <= i < |vs| && 0 <= j < |vs| ==> vs[i].validatorIdentity == vs[j].validatorIdentity)
  {
    assert forall i :: 0 <= i < |us| ==> us[i] in vs;
    assert forall i :: 0 <= i < |vs| ==> vs[i] in us;
  }

  lemma StatefulAlike(s: StakingSpec.State, tx: Transaction, actions: seq<Action>)
    requires Alike(actions, tx.actions)
    ensures StakingSpec.StatefulOk(s, tx.(actions := actions)) <==> StakingSpec.StatefulOk(s, tx)
  {
    hide DelegationsOf, UndelegationsOf, DefinitionsOf, SpentNullifiers, Delegated, Undelegated;
    hide StakingSpec.TallyFits, StakingSpec.DelegationOk, StakingSpec.UndelegationOk, StakingSpec.DefinitionOk;
    var ds, es := DelegationsOf(actions), DelegationsOf(tx.actions);
    var us, vs := UndelegationsOf(actions), UndelegationsOf(tx.actions);
    var fs, gs := DefinitionsOf(actions), DefinitionsOf(tx.actions);
    MembersAlike(ds, es);
    MembersAlike(us, vs);
    MembersAlike(fs, gs);
    StakingSpec.TallyFitsIff(ds, us);
    StakingSpec.TallyFitsIff(es, vs);
    assert StakingSpec.Named(ds, us) == StakingSpec.Named(es, vs);
    assert StakingSpec.TallyFits(ds, us) <==> StakingSpec.TallyFits(es, vs);
    hide Alike, StakingSpec.Named;
    EachAlike(ds, es, d => StakingSpec.DelegationOk(s, d));
    EachAlike(us, vs, u => StakingSpec.UndelegationOk(s, u));
    EachAlike(fs, gs, d => StakingSpec.DefinitionOk(s, d));
  }
}
