/** Building transactions (transaction/src/transaction/builder.rs) and their per-asset value balance. */
module TxBuilder {
  import opened Prelude
  import opened Rates
  import opened Delegations
  import opened Transactions
  import opened WalletSpec

  datatype WalletError =
    | MissingChainId
    | FeeNotSet
    | UnsignedDefinition
    | UncachedAsset
    | UnknownDenom
    | NoNotesOfDenom
    | NotEnoughNotes
    | NoAuthPath
    | UnknownAddress
    | FeesExceedAmount
    | RateOverflow
    | NonZeroValueBalance

  /** Why selecting notes may fail. */
  predicate NoSelection(e: WalletError) {
    e.UncachedAsset? || e.NoNotesOfDenom? || e.NotEnoughNotes?
  }

  datatype TxOutput = Payment(value: Value, dest: Address) | ToSelf(value: Value, addressIndex: nat)

  datatype TxBody = TxBody(
    spends: seq<Note>,
    outputs: seq<TxOutput>,
    delegations: seq<Delegate>,
    undelegations: seq<Undelegate>,
    definitions: seq<Definition>,
    fee: nat)

  const EMPTY_BODY := TxBody([], [], [], [], [], 0)

  function SpendTotal(spends: seq<Note>, asset: AssetId): nat {
    if spends == [] then 0
    else
      var last := spends[|spends| - 1];
      SpendTotal(spends[..|spends| - 1], asset) + Of(Value(last.amount, last.asset), asset)
  }

  function OutputTotal(outputs: seq<TxOutput>, asset: AssetId): nat {
    if outputs == [] then 0 else OutputTotal(outputs[..|outputs| - 1], asset) + Of(outputs[|outputs| - 1].value, asset)
  }

  /** A delegation turns staking tokens into delegation tokens. */
  function DelegationBalance(ds: seq<Delegate>, asset: AssetId): int {
    if ds == [] then 0
    else
      var d := ds[|ds| - 1];
      DelegationBalance(ds[..|ds| - 1], asset)
      + Of(Value(d.delegationAmount, DelegationAsset(d.validatorIdentity)), asset)
      - Of(Value(d.unbondedAmount, STAKING_ASSET), asset)
  }

  /** An undelegation turns delegation tokens into staking tokens. */
  function UndelegationBalance(us: seq<Undelegate>, asset: AssetId): int {
    if us == [] then 0
    else
      var u := us[|us| - 1];
      UndelegationBalance(us[..|us| - 1], asset)
      + Of(Value(u.unbondedAmount, STAKING_ASSET), asset)
      - Of(Value(u.delegationAmount, DelegationAsset(u.validatorIdentity)), asset)
  }

  /** What the transaction puts in minus what it takes out, of one asset. */
  function Balance(b: TxBody, asset: AssetId): int {
    SpendTotal(b.spends, asset) - OutputTotal(b.outputs, asset)
    + DelegationBalance(b.delegations, asset) + UndelegationBalance(b.undelegations, asset)
    - Of(Value(b.fee, STAKING_ASSET), asset)
  }

  ghost predicate Balanced(b: TxBody) {
    forall asset :: Balance(b, asset) == 0
  }

  lemma {:induction false} SpendTotalAppend(xs: seq<Note>, ys: seq<Note>, asset: AssetId)
    ensures SpendTotal(xs + ys, asset) == SpendTotal(xs, asset) + SpendTotal(ys, asset)
    decreases |ys|
  {
    if ys == [] {
      assert xs + ys == xs;
    } else {
      assert (xs + ys)[..|xs + ys| - 1] == xs + ys[..|ys| - 1];
      SpendTotalAppend(xs, ys[..|ys| - 1], asset);
    }
  }

  lemma BalanceWithOutput(b: TxBody, output: TxOutput)
    ensures forall asset ::
              Balance(b.(outputs := b.outputs + [output]), asset) == Balance(b, asset) - Of(output.value, asset)
  {
    assert (b.outputs + [output])[..|b.outputs|] == b.outputs;
  }

  class Builder {
    var spends: seq<Note>
    var outputs: seq<TxOutput>
    var delegations: seq<Delegate>
    var undelegations: seq<Undelegate>
    var definitions: seq<Definition>
    var fee: Option<nat>
    var chainIdSet: bool
    var valueBalance: map<AssetId, int>
    /** All that was taken from the balance as fees. */
    ghost var charged: nat

    /** What was added so far, with the fee that was set last. */
    ghost function Body(): TxBody
      reads this
    {
      TxBody(spends, outputs, delegations, undelegations, definitions, if fee.Some? then fee.value else 0)
    }

    static function BalanceIn(m: map<AssetId, int>, asset: AssetId): int {
      if asset in m then m[asset] else 0
    }

    /** The running balance is that of what was added so far, each fee ever set included. */
    ghost predicate Valid()
      reads this
    {
      forall asset :: BalanceIn(valueBalance, asset) == Balance(Body().(fee := charged), asset)
    }

    /** The settings that only their own setters change. */
    ghost function Settings(): (Option<nat>, bool, nat)
      reads this
    {
      (fee, chainIdSet, charged)
    }

    constructor ()
      ensures Valid() && Body() == EMPTY_BODY && Settings() == (None, false, 0)
    {
      spends, outputs, delegations, undelegations, definitions := [], [], [], [], [];
      fee, chainIdSet, charged := None, false, 0;
      valueBalance := map[];
    }

    method Add(asset: AssetId, amount: int)
      modifies this`valueBalance
      ensures forall a ::
                BalanceIn(valueBalance, a) == BalanceIn(old(valueBalance), a) + (if a == asset then amount else 0)
    {
      valueBalance := valueBalance[asset := (if asset in valueBalance then valueBalance[asset] else 0) + amount];
    }

    /** Setting a fee again replaces it, and charges the balance again. */
    method SetFee(amount: nat)
      requires Valid()
      modifies this
      ensures Valid() && Body() == old(Body()).(fee := amount)
      ensures Settings() == (Some(amount), old(chainIdSet), old(charged) + amount)
    {
      Add(STAKING_ASSET, 0 - amount);
      fee := Some(amount);
      charged := charged + amount;
    }

    method SetChainId()
      requires Valid()
      modifies this`chainIdSet
      ensures Valid() && Body() == old(Body()) && Settings() == (old(fee), true, old(charged))
    {
      chainIdSet := true;
    }

    /** Spends a note that has a path in the tree; without one nothing is added. */
    method AddSpend(k: Keys, witnessed: set<Fq>, note: Note) returns (ok: bool)
      requires Valid()
      modifies this
      ensures Valid() && Settings() == old(Settings())
      ensures ok <==> k.commit(note) in witnessed
      ensures Body() == if ok then old(Body()).(spends := old(spends) + [note]) else old(Body())
    {
      if k.commit(note) !in witnessed {
        return false;
      }
      Add(note.asset, note.amount);
      spends := spends + [note];
      assert spends[..|spends| - 1] == old(spends);
      return true;
    }

    method AddOutput(output: TxOutput)
      requires Valid()
      modifies this
      ensures Valid() && Settings() == old(Settings())
      ensures Body() == old(Body()).(outputs := old(outputs) + [output])
    {
      BalanceWithOutput(Body().(fee := charged), output);
      Add(output.value.asset, 0 - output.value.amount);
      outputs := outputs + [output];
    }

    method AddDelegation(d: Delegate)
      requires Valid()
      modifies this
      ensures Valid() && Settings() == old(Settings())
      ensures Body() == old(Body()).(delegations := old(delegations) + [d])
    {
      Add(DelegationAsset(d.validatorIdentity), d.delegationAmount);
      Add(STAKING_ASSET, 0 - d.unbondedAmount);
      delegations := delegations + [d];
      assert delegations[..|delegations| - 1] == old(delegations);
    }

    method AddUndelegation(u: Undelegate)
      requires Valid()
      modifies this
      ensures Valid() && Settings() == old(Settings())
      ensures Body() == old(Body()).(undelegations := old(undelegations) + [u])
    {
      Add(STAKING_ASSET, u.unbondedAmount);
      Add(DelegationAsset(u.validatorIdentity), 0 - u.delegationAmount);
      undelegations := undelegations + [u];
      assert undelegations[..|undelegations| - 1] == old(undelegations);
    }

    method AddValidatorDefinition(d: Definition)
      requires Valid()
      modifies this
      ensures Valid() && Settings() == old(Settings())
      ensures Body() == old(Body()).(definitions := old(definitions) + [d])
    {
      definitions := definitions + [d];
      assert forall asset :: Balance(Body().(fee := charged), asset) == Balance(old(Body()).(fee := charged), asset);
    }

    /**
     Refuses exactly the transactions that lack a chain id or a fee, do not balance
     against all fees charged, or carry a definition that is not signed.
     */
    method Finalize() returns (r: Result<TxBody, WalletError>)
      requires Valid()
      ensures r.Ok? <==>
              && chainIdSet && fee.Some? && Balanced(Body().(fee := charged))
              && forall d :: d in definitions ==> d.signed
      ensures r.Ok? ==> r.value == Body()
      ensures r == Err(NonZeroValueBalance) <==> chainIdSet && fee.Some? && !Balanced(Body().(fee := charged))
      ensures chainIdSet && fee.Some? && Balanced(Body().(fee := charged)) && r.Err? ==> r.error == UnsignedDefinition
    {
      if !chainIdSet {
        return Err(MissingChainId);
      }
      if fee.None? {
        return Err(FeeNotSet);
      }
      if a :| a in valueBalance && valueBalance[a] != 0 {
        assert Balance(Body().(fee := charged), a) != 0;
        return Err(NonZeroValueBalance);
      }
      assert forall a :: BalanceIn(valueBalance, a) == 0;
      for i := 0 to |definitions|
        invariant forall j :: 0 <= j < i ==> definitions[j].signed
      {
        if !definitions[i].signed {
          return Err(UnsignedDefinition);
        }
      }
      return Ok(TxBody(spends, outputs, delegations, undelegations, definitions, fee.value));
    }
  }
}
