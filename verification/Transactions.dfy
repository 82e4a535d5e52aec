/** Transactions and their actions, as far as the two state machines read them (transaction/src/transaction.rs). */
module Transactions {
  import opened Rates
  import opened Delegations

  /** Field elements: note commitments, nullifiers, tree roots and keys. */
  type Fq = nat
  type PubKey = nat

  datatype Validator = Validator(identityKey: IdentityKey, consensusKey: PubKey, fundingStreams: seq<FundingStream>,
      sequenceNumber: nat)

  /** A validator definition; `signed` says whether its signature verifies. */
  datatype Definition = Definition(validator: Validator, signed: bool)

  datatype SpendProof = SpendProof(path: seq<Fq>, position: nat, noteCommitment: Fq, nullifierKey: Fq)

  type AssetId = nat

  const STAKING_ASSET: AssetId := 0

  function DelegationAsset(v: IdentityKey): AssetId { v + 1 }

  datatype Value = Value(amount: nat, asset: AssetId)

  function Of(value: Value, asset: AssetId): nat {
    if value.asset == asset then value.amount else 0
  }

  /** A value commitment, given by the value and the blinding it was made of. */
  datatype Committed = Committed(value: Value, blinding: int)

  /** A spend; `valid` stands for the signature and those proof checks that involve neither tree nor nullifier. */
  datatype SpendBody = SpendBody(nullifier: Fq, proof: SpendProof, committed: Committed, valid: bool)

  datatype OutputBody = OutputBody(noteCommitment: Fq, ephemeralKey: Fq, encryptedNote: nat)

  datatype Action =
    | Spend(spend: SpendBody)
    | Output(body: OutputBody, committed: Committed, valid: bool)
    | Delegation(delegate: Delegate)
    | Undelegation(undelegate: Undelegate)
    | ValidatorDefinition(definition: Definition)
    | IbcAction

  /** A transaction; `bindingSigned` says that its binding signature was made with the sum of its blindings. */
  datatype Transaction = Transaction(
    id: nat,
    actions: seq<Action>,
    merkleRoot: Fq,
    fee: nat,
    bindingSigned: bool)

  function DelegationsOf(actions: seq<Action>): seq<Delegate> {
    if actions == [] then []
    else
      var a := actions[|actions| - 1];
      DelegationsOf(actions[..|actions| - 1]) + (if a.Delegation? then [a.delegate] else [])
  }

  function UndelegationsOf(actions: seq<Action>): seq<Undelegate> {
    if actions == [] then []
    else
      var a := actions[|actions| - 1];
      UndelegationsOf(actions[..|actions| - 1]) + (if a.Undelegation? then [a.undelegate] else [])
  }

  function DefinitionsOf(actions: seq<Action>): seq<Definition> {
    if actions == [] then []
    else
      var a := actions[|actions| - 1];
      DefinitionsOf(actions[..|actions| - 1]) + (if a.ValidatorDefinition? then [a.definition] else [])
  }

  function OutputBodies(actions: seq<Action>): seq<OutputBody> {
    if actions == [] then []
    else
      var a := actions[|actions| - 1];
      OutputBodies(actions[..|actions| - 1]) + (if a.Output? then [a.body] else [])
  }

  function SpendsOf(actions: seq<Action>): seq<SpendBody> {
    if actions == [] then []
    else
      var a := actions[|actions| - 1];
      SpendsOf(actions[..|actions| - 1]) + (if a.Spend? then [a.spend] else [])
  }

  function SpentNullifiers(actions: seq<Action>): seq<Fq> {
    if actions == [] then []
    else
      var a := actions[|actions| - 1];
      SpentNullifiers(actions[..|actions| - 1]) + (if a.Spend? then [a.spend.nullifier] else [])
  }
}
