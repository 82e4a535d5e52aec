/**
 The value balance of a transaction (transaction/src/transaction.rs, binding_verification_key).
 A value commitment is a multiple of the asset's generator plus a multiple of the blinding
 generator; as the generators are independent, a sum of commitments is one number per asset
 and one for the blinding.
 */
module ValueBalance {
  import opened Transactions

  /** What an action adds to the balance of one asset. */
  function Contribution(a: Action, asset: AssetId): int {
    match a
    case Spend(spend) => Of(spend.committed.value, asset)
    case Output(_, committed, _) => 0 - Of(committed.value, asset)
    case Delegation(d) =>
      Of(Value(d.delegationAmount, DelegationAsset(d.validatorIdentity)), asset)
      - Of(Value(d.unbondedAmount, STAKING_ASSET), asset)
    case Undelegation(u) =>
      Of(Value(u.unbondedAmount, STAKING_ASSET), asset)
      - Of(Value(u.delegationAmount, DelegationAsset(u.validatorIdentity)), asset)
    case _ => 0
  }

  function BlindingOf(a: Action): int {
    match a
    case Spend(spend) => spend.committed.blinding
    case Output(_, committed, _) => 0 - committed.blinding
    case _ => 0
  }

  function NetValue(actions: seq<Action>, asset: AssetId): int {
    if actions == [] then 0
    else NetValue(actions[..|actions| - 1], asset) + Contribution(actions[|actions| - 1], asset)
  }

  function NetBlinding(actions: seq<Action>): int {
    if actions == [] then 0 else NetBlinding(actions[..|actions| - 1]) + BlindingOf(actions[|actions| - 1])
  }

  /** The component of the binding verification key along one asset. */
  function KeyValue(tx: Transaction, asset: AssetId): int {
    NetValue(tx.actions, asset) - Of(Value(tx.fee, STAKING_ASSET), asset)
  }

  /** The key is a multiple of the blinding generator alone, as it must be for the signature to verify. */
  ghost predicate PureBlinding(tx: Transaction) {
    forall asset :: KeyValue(tx, asset) == 0
  }

  function At(m: map<AssetId, int>, asset: AssetId): int {
    if asset in m then m[asset] else 0
  }

  /** Sum the commitments of the actions and subtract the fee's. */
  method BindingVerificationKey(tx: Transaction) returns (values: map<AssetId, int>, blinding: int)
    ensures forall asset :: At(values, asset) == KeyValue(tx, asset)
    ensures blinding == NetBlinding(tx.actions)
  {
    values, blinding := map[], 0;
    for i := 0 to |tx.actions|
      invariant forall asset :: At(values, asset) == NetValue(tx.actions[..i], asset)
      invariant blinding == NetBlinding(tx.actions[..i])
    {
      assert tx.actions[..i + 1][..i] == tx.actions[..i];
      values := AddAction(values, tx.actions[i]);
      blinding := blinding + BlindingOf(tx.actions[i]);
    }
    assert tx.actions[..|tx.actions|] == tx.actions;
    values := AddValue(values, STAKING_ASSET, 0 - tx.fee);
  }

  method AddValue(m: map<AssetId, int>, asset: AssetId, amount: int) returns (r: map<AssetId, int>)
    ensures forall a :: At(r, a) == At(m, a) + (if a == asset then amount else 0)
  {
    r := m[asset := (if asset in m then m[asset] else 0) + amount];
  }

  method AddAction(m: map<AssetId, int>, a: Action) returns (r: map<AssetId, int>)
    ensures forall asset :: At(r, asset) == At(m, asset) + Contribution(a, asset)
  {
    r := m;
    match a {
      case Spend(spend) => r := AddValue(m, spend.committed.value.asset, spend.committed.value.amount);
      case Output(_, committed, _) => r := AddValue(m, committed.value.asset, 0 - committed.value.amount);
      case Delegation(d) =>
        r := AddValue(m, DelegationAsset(d.validatorIdentity), d.delegationAmount);
        r := AddValue(r, STAKING_ASSET, 0 - d.unbondedAmount);
      case Undelegation(u) =>
        r := AddValue(m, STAKING_ASSET, u.unbondedAmount);
        r := AddValue(r, DelegationAsset(u.validatorIdentity), 0 - u.delegationAmount);
      case _ =>
    }
  }

  // ---------------------------------------------------------------------------------------------
  // Order does not matter
  // ---------------------------------------------------------------------------------------------

  lemma {:induction false} NetValueAppend(xs: seq<Action>, ys: seq<Action>, asset: AssetId)
    ensures NetValue(xs + ys, asset) == NetValue(xs, asset) + NetValue(ys, asset)
    decreases |ys|
  {
    if ys == [] {
      assert xs + ys == xs;
    } else {
      assert (xs + ys)[..|xs + ys| - 1] == xs + ys[..|ys| - 1];
      NetValueAppend(xs, ys[..|ys| - 1], asset);
    }
  }

  /** One action taken out of the middle. */
  lemma NetValueWithout(xs: seq<Action>, i: nat, asset: AssetId)
    requires i < |xs|
    ensures NetValue(xs, asset) == NetValue(xs[..i] + xs[i + 1..], asset) + Contribution(xs[i], asset)
  {
    assert xs == xs[..i] + ([xs[i]] + xs[i + 1..]);
    NetValueAppend(xs[..i], [xs[i]] + xs[i + 1..], asset);
    NetValueAppend([xs[i]], xs[i + 1..], asset);
    NetValueAppend(xs[..i], xs[i + 1..], asset);
    assert NetValue([xs[i]], asset) == Contribution(xs[i], asset) by { assert [xs[i]][..0] == []; }
  }

  lemma Without(ys: seq<Action>, i: nat)
    requires i < |ys|
    ensures multiset(ys) == multiset(ys[..i] + ys[i + 1..]) + multiset{ys[i]}
  {
    assert ys == ys[..i] + [ys[i]] + ys[i + 1..];
  }

  lemma OneLess(m: multiset<Action>, n: multiset<Action>, a: Action)
    requires m + multiset{a} == n + multiset{a}
    ensures m == n
  {
    assert m == m + multiset{a} - multiset{a};
    assert n == n + multiset{a} - multiset{a};
  }

  /** A transaction's balance does not depend on the order in which its actions are listed. */
  lemma {:induction false} ShufflesBalanceAlike(xs: seq<Action>, ys: seq<Action>, asset: AssetId)
    requires multiset(xs) == multiset(ys)
    ensures NetValue(xs, asset) == NetValue(ys, asset)
    decreases |xs|
  {
    if xs == [] {
      assert |multiset(ys)| == 0;
    } else {
      var n := |xs| - 1;
      var init, a := xs[..n], xs[n];
      assert xs == init + [a];
      assert a in multiset(ys);
      var i :| 0 <= i < |ys| && ys[i] == a;
      var rest := ys[..i] + ys[i + 1..];
      Without(ys, i);
      assert multiset(xs) == multiset(init) + multiset{a};
      OneLess(multiset(rest), multiset(init), a);
      hide NetValue, Contribution;
      ShufflesBalanceAlike(init, rest, asset);
      NetValueWithout(ys, i, asset);
      NetValueWithout(xs, n, asset);
      assert xs[..n] + xs[n + 1..] == init;
    }
  }
}
