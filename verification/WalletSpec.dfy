/**
 What each step of the wallet does to its state (wallet/src/state.rs), and what
 every interleaving of scanning, spending, change registration and timeouts keeps.
 */
module WalletSpec {
  import opened Prelude
  import opened Transactions
  import opened PoolSpec

  datatype Note = Note(addressIndex: nat, asset: AssetId, amount: nat, blinding: Fq)

  /** The wallet's keys: trial decryption, nullifiers of its notes, and note commitments. */
  datatype Keys = Keys(decrypt: OutputBody -> Option<Note>, nullify: (nat, Fq) -> Fq, commit: Note -> Fq)

  /** Seconds after which a submitted transaction counts as failed. */
  const TIMEOUT: nat := 60

  datatype Submitted = Submitted(timeout: nat, note: Note)

  datatype Wallet = Wallet(
    lastBlockHeight: Option<nat>,
    nct: seq<Fq>,
    witnessed: set<Fq>,
    nullifierMap: map<Fq, Fq>,
    unspent: map<Fq, Note>,
    submittedSpend: map<Fq, Submitted>,
    submittedChange: map<Fq, Submitted>,
    spent: map<Fq, Note>)

  const NEW_WALLET := Wallet(None, [], {}, map[], map[], map[], map[], map[])

  // ---------------------------------------------------------------------------------------------
  // Steps
  // ---------------------------------------------------------------------------------------------

  function ScanOutput(k: Keys, w: Wallet, body: OutputBody): Wallet {
    var c := body.noteCommitment;
    var appended := w.(nct := w.nct + [c]);
    match k.decrypt(body)
    case None => appended
    case Some(note) =>
      appended.(witnessed := w.witnessed + {c},
                nullifierMap := w.nullifierMap[k.nullify(|w.nct|, c) := c],
                submittedChange := w.submittedChange - {c},
                unspent := w.unspent[c := note])
  }

  function ScanOutputs(k: Keys, w: Wallet, bodies: seq<OutputBody>): Wallet {
    if bodies == [] then w else ScanOutput(k, ScanOutputs(k, w, bodies[..|bodies| - 1]), bodies[|bodies| - 1])
  }

  function ScanNullifier(w: Wallet, n: Fq): Wallet {
    if n !in w.nullifierMap then w
    else
      var c := w.nullifierMap[n];
      if c in w.unspent then
        w.(unspent := w.unspent - {c}, spent := w.spent[c := w.unspent[c]], witnessed := w.witnessed - {c})
      else if c in w.submittedSpend then
        w.(submittedSpend := w.submittedSpend - {c}, spent := w.spent[c := w.submittedSpend[c].note],
            witnessed := w.witnessed - {c})
      else if c in w.submittedChange then
        w.(submittedChange := w.submittedChange - {c}, spent := w.spent[c := w.submittedChange[c].note],
            witnessed := w.witnessed - {c})
      else w
  }

  function ScanNullifiers(w: Wallet, ns: seq<Fq>): Wallet {
    if ns == [] then w else ScanNullifier(ScanNullifiers(w, ns[..|ns| - 1]), ns[|ns| - 1])
  }

  predicate Expects(w: Wallet, height: nat) {
    match w.lastBlockHeight
    case None => height == 0
    case Some(last) => height == last + 1
  }

  /** A block at an unexpected height is refused and changes nothing. */
  function ScanBlock(k: Keys, w: Wallet, b: CompactBlock): Wallet {
    if Expects(w, b.height) then
      ScanNullifiers(ScanOutputs(k, w, b.outputs), b.nullifiers).(lastBlockHeight := Some(b.height))
    else w
  }

  function RegisterSpend(w: Wallet, c: Fq, now: nat): Wallet
    requires c in w.unspent
  {
    w.(unspent := w.unspent - {c}, submittedSpend := w.submittedSpend[c := Submitted(now + TIMEOUT, w.unspent[c])])
  }

  function RegisterChange(k: Keys, w: Wallet, note: Note, now: nat): Wallet {
    w.(submittedChange := w.submittedChange[k.commit(note) := Submitted(now + TIMEOUT, note)])
  }

  /** Submitted notes whose timeout has not passed. */
  function Pending(m: map<Fq, Submitted>, now: nat): map<Fq, Submitted> {
    map c | c in m && !(now > m[c].timeout) :: m[c]
  }

  /** Submitted notes that timed out without having been spent. */
  function Recovered(m: map<Fq, Submitted>, spent: map<Fq, Note>, now: nat): map<Fq, Note> {
    map c | c in m && now > m[c].timeout && c !in spent :: m[c].note
  }

  function PruneTimeouts(w: Wallet, now: nat): Wallet {
    w.(unspent := w.unspent + Recovered(w.submittedSpend, w.spent, now),
       submittedSpend := Pending(w.submittedSpend, now),
       submittedChange := Pending(w.submittedChange, now))
  }

  /** An entry of a submitted set across pruning: kept as it was while its time lasts, else gone. */
  ghost predicate PrunedAt(m: map<Fq, Submitted>, n: map<Fq, Submitted>, c: Fq, now: nat) {
    && (c in n <==> c in m && now <= m[c].timeout)
    && (c in n ==> n[c] == m[c])
  }

  /**
   What pruning does to the note under `c`: once its time has passed a submitted spend is ready
   again unless it is spent, and before that it stays; expected change is forgotten in time.
   */
  ghost predicate Pruned(w: Wallet, v: Wallet, c: Fq, now: nat) {
    && PrunedAt(w.submittedSpend, v.submittedSpend, c, now) && PrunedAt(w.submittedChange, v.submittedChange, c, now)
    && (if c in w.submittedSpend && now > w.submittedSpend[c].timeout && c !in w.spent then
          c in v.unspent && v.unspent[c] == w.submittedSpend[c].note
        else (c in v.unspent <==> c in w.unspent) && (c in v.unspent ==> v.unspent[c] == w.unspent[c]))
  }

  lemma PruneOutcome(w: Wallet, now: nat)
    ensures forall c :: Pruned(w, PruneTimeouts(w, now), c, now)
    ensures var v := PruneTimeouts(w, now);
            v == w.(unspent := v.unspent, submittedSpend := v.submittedSpend, submittedChange := v.submittedChange)
  {}

  // ---------------------------------------------------------------------------------------------
  // Reference: what the scanned blocks alone determine
  // ---------------------------------------------------------------------------------------------

  /** Output `p` is addressed to the wallet. */
  ghost predicate Owned(k: Keys, outs: seq<OutputBody>, p: int) {
    0 <= p < |outs| && k.decrypt(outs[p]).Some?
  }

  /** The nullifier of output `p`, at its true position in the tree. */
  ghost function NullifierAt(k: Keys, outs: seq<OutputBody>, p: int): Fq
    requires 0 <= p < |outs|
  {
    k.nullify(p, outs[p].noteCommitment)
  }

  ghost function SpentBy(k: Keys, outs: seq<OutputBody>, ns: seq<Fq>): set<int> {
    set p | 0 <= p < |outs| && Owned(k, outs, p) && NullifierAt(k, outs, p) in ns
  }

  /** Owned outputs whose nullifier appeared in the block that created them or in a later one. */
  ghost function SpentOutputs(k: Keys, blocks: seq<CompactBlock>): set<int> {
    if blocks == [] then {}
    else SpentOutputs(k, blocks[..|blocks| - 1]) + SpentBy(k, AllOutputs(blocks), blocks[|blocks| - 1].nullifiers)
  }

  /** A note is either spent, or held as exactly one of ready and submitted. */
  ghost predicate Held(w: Wallet, c: Fq, note: Note, isSpent: bool) {
    if isSpent then
      && c in w.spent && w.spent[c] == note
      && c !in w.unspent && c !in w.submittedSpend && c !in w.witnessed
    else
      && c !in w.spent && c in w.witnessed
      && (c in w.unspent <==> c !in w.submittedSpend)
      && (c in w.unspent ==> w.unspent[c] == note)
      && (c in w.submittedSpend ==> w.submittedSpend[c].note == note)
  }

  ghost predicate HeldAt(k: Keys, w: Wallet, outs: seq<OutputBody>, spent: set<int>, p: int)
    requires Owned(k, outs, p)
  {
    var c := outs[p].noteCommitment;
    && Held(w, c, k.decrypt(outs[p]).value, p in spent)
    && NullifierAt(k, outs, p) in w.nullifierMap && w.nullifierMap[NullifierAt(k, outs, p)] == c
    && c !in w.submittedChange
  }

  ghost predicate IsOwned(k: Keys, outs: seq<OutputBody>, c: Fq) {
    exists p :: Owned(k, outs, p) && outs[p].noteCommitment == c
  }

  /** The wallet's books after scanning the outputs `outs`, of which those in `spent` are spent. */
  ghost predicate Books(k: Keys, w: Wallet, outs: seq<OutputBody>, spent: set<int>) {
    && w.nct == Commitments(outs)
    && (forall p :: Owned(k, outs, p) ==> HeldAt(k, w, outs, spent, p))
    && (forall c :: c in w.unspent || c in w.submittedSpend || c in w.spent || c in w.witnessed ==> IsOwned(k, outs, c))
    && (forall n :: n in w.nullifierMap ==> exists p :: Owned(k, outs, p) && n == NullifierAt(k, outs, p))
  }

  /** Nullifiers of different positions differ. */
  ghost predicate Separate(k: Keys) {
    forall p, c, q, d :: k.nullify(p, c) == k.nullify(q, d) ==> p == q && c == d
  }

  lemma UniqueOwner(outs: seq<OutputBody>, p: int, q: int)
    requires Distinct(Commitments(outs)) && 0 <= p < |outs| && 0 <= q < |outs|
             && outs[p].noteCommitment == outs[q].noteCommitment
    ensures p == q
  {
    assert Commitments(outs)[p] == Commitments(outs)[q];
  }

  // ---------------------------------------------------------------------------------------------
  // Scanning keeps the books
  // ---------------------------------------------------------------------------------------------

  /** Notes held before an output is scanned are held after it. */
  lemma ScanOutputKeepsHeld(k: Keys, w: Wallet, body: OutputBody, outs: seq<OutputBody>, spent: set<int>, p: int)
    requires Separate(k) && w.nct == Commitments(outs) && Owned(k, outs, p) && HeldAt(k, w, outs, spent, p)
    requires outs[p].noteCommitment != body.noteCommitment
    ensures Owned(k, outs + [body], p) && HeldAt(k, ScanOutput(k, w, body), outs + [body], spent, p)
  {
    assert (outs + [body])[p] == outs[p];
  }

  lemma ScanOutputHolds(k: Keys, w: Wallet, body: OutputBody, outs: seq<OutputBody>, spent: set<int>)
    requires Books(k, w, outs, spent) && (forall p :: 0 <= p < |outs| ==> outs[p].noteCommitment != body.noteCommitment)
    requires |outs| !in spent && Owned(k, outs + [body], |outs|)
    ensures HeldAt(k, ScanOutput(k, w, body), outs + [body], spent, |outs|)
  {
    NewIsUnknown(k, w, outs, spent, body.noteCommitment);
    hide Books;
    assert (outs + [body])[|outs|] == body;
    assert |w.nct| == |outs| by { TreeSize(k, w, outs, spent); }
  }

  lemma TreeSize(k: Keys, w: Wallet, outs: seq<OutputBody>, spent: set<int>)
    requires Books(k, w, outs, spent)
    ensures w.nct == Commitments(outs) && |w.nct| == |outs|
  {}

  /** Scanning an output adds nothing but what the output says. */
  lemma ScanOutputKnows(k: Keys, w: Wallet, body: OutputBody, outs: seq<OutputBody>, spent: set<int>)
    requires Books(k, w, outs, spent)
    ensures var v, next := ScanOutput(k, w, body), outs + [body];
            && (forall c :: c in v.unspent || c in v.submittedSpend || c in v.spent || c in v.witnessed ==>
                  IsOwned(k, next, c))
            && (forall n :: n in v.nullifierMap ==> exists p :: Owned(k, next, p) && n == NullifierAt(k, next, p))
  {
    ScanOutputOwns(k, w, body, outs, spent);
    TreeSize(k, w, outs, spent);
    hide HeldAt, IsOwned;
    var v, next := ScanOutput(k, w, body), outs + [body];
    forall n | n in v.nullifierMap
      ensures exists p :: Owned(k, next, p) && n == NullifierAt(k, next, p)
    {
      if n in w.nullifierMap {
        var p :| Owned(k, outs, p) && n == NullifierAt(k, outs, p);
        assert next[p] == outs[p];
        assert Owned(k, next, p) && n == NullifierAt(k, next, p);
      } else {
        assert next[|outs|] == body;
        assert Owned(k, next, |outs|) && n == NullifierAt(k, next, |outs|);
      }
    }
  }

  lemma ScanOutputOwns(k: Keys, w: Wallet, body: OutputBody, outs: seq<OutputBody>, spent: set<int>)
    requires Books(k, w, outs, spent)
    ensures var v := ScanOutput(k, w, body);
            forall c :: c in v.unspent || c in v.submittedSpend || c in v.spent || c in v.witnessed ==>
              IsOwned(k, outs + [body], c)
  {
    hide HeldAt, NullifierAt;
    var next, c := outs + [body], body.noteCommitment;
    OwnedGrows(k, outs, body);
    assert next[|outs|] == body;
    if k.decrypt(body).Some? {
      assert Owned(k, next, |outs|) && next[|outs|].noteCommitment == c;
      assert IsOwned(k, next, c);
    }
    hide IsOwned;
  }

  lemma ScanOutputKeepsBooks(k: Keys, w: Wallet, body: OutputBody, outs: seq<OutputBody>, spent: set<int>)
    requires Separate(k) && Books(k, w, outs, spent) && Distinct(Commitments(outs + [body]))
             && (forall p :: p in spent ==> 0 <= p < |outs|)
    ensures Books(k, ScanOutput(k, w, body), outs + [body], spent)
  {
    hide Separate, HeldAt, IsOwned, NullifierAt;
    var next := outs + [body];
    CommitmentsAppend(outs, [body]);
    ScanOutputKnows(k, w, body, outs, spent);
    forall p | 0 <= p < |outs|
      ensures outs[p].noteCommitment != body.noteCommitment
    {
      assert Commitments(next)[p] == outs[p].noteCommitment && Commitments(next)[|outs|] == body.noteCommitment;
    }
    forall p | Owned(k, next, p)
      ensures HeldAt(k, ScanOutput(k, w, body), next, spent, p)
    {
      if p < |outs| {
        assert next[p] == outs[p];
        ScanOutputKeepsHeld(k, w, body, outs, spent, p);
      } else {
        ScanOutputHolds(k, w, body, outs, spent);
      }
    }
  }

  lemma NewIsUnknown(k: Keys, w: Wallet, outs: seq<OutputBody>, spent: set<int>, c: Fq)
    requires Books(k, w, outs, spent) && forall p :: 0 <= p < |outs| ==> outs[p].noteCommitment != c
    ensures c !in w.unspent && c !in w.submittedSpend && c !in w.spent && c !in w.witnessed
  {}

  lemma OwnedGrows(k: Keys, outs: seq<OutputBody>, body: OutputBody)
    ensures forall c :: IsOwned(k, outs, c) ==> IsOwned(k, outs + [body], c)
  {
    forall c | IsOwned(k, outs, c)
      ensures IsOwned(k, outs + [body], c)
    {
      var p :| Owned(k, outs, p) && outs[p].noteCommitment == c;
      assert Owned(k, outs + [body], p) && (outs + [body])[p].noteCommitment == c;
    }
  }

  lemma {:induction false} ScanOutputsKeepBooks(
    k: Keys, w: Wallet, bodies: seq<OutputBody>, outs: seq<OutputBody>, spent: set<int>)
    requires Separate(k) && Books(k, w, outs, spent) && Distinct(Commitments(outs + bodies))
             && (forall p :: p in spent ==> 0 <= p < |outs|)
    ensures Books(k, ScanOutputs(k, w, bodies), outs + bodies, spent)
  {
    hide Separate, Books, ScanOutput;
    if bodies == [] {
      assert outs + bodies == outs;
    } else {
      var init, last := bodies[..|bodies| - 1], bodies[|bodies| - 1];
      assert outs + bodies == outs + init + [last];
      CommitmentsAppend(outs + init, [last]);
      assert Distinct(Commitments(outs + init)) by {
        assert forall i :: 0 <= i < |outs + init| ==> Commitments(outs + init)[i] == Commitments(outs + bodies)[i];
      }
      ScanOutputsKeepBooks(k, w, init, outs, spent);
      ScanOutputKeepsBooks(k, ScanOutputs(k, w, init), last, outs + init, spent);
    }
  }

  /** A nullifier marks its note spent, wherever the wallet held it; the last two branches change nothing. */
  lemma ScanNullifierKeepsBooks(k: Keys, w: Wallet, n: Fq, outs: seq<OutputBody>, spent: set<int>)
    requires Separate(k) && Books(k, w, outs, spent) && Distinct(Commitments(outs))
    ensures Books(k, ScanNullifier(w, n), outs, spent + SpentBy(k, outs, [n]))
  {
    hide HeldAt, IsOwned, NullifierAt, Separate, Distinct, SpentBy;
    var v, more := ScanNullifier(w, n), spent + SpentBy(k, outs, [n]);
    if n in w.nullifierMap {
      var q :| Owned(k, outs, q) && n == NullifierAt(k, outs, q);
      OneSpent(k, outs, q);
      NullifierKnows(k, w, outs, spent, q);
      forall p | Owned(k, outs, p)
        ensures HeldAt(k, v, outs, more, p)
      {
        NullifierMoves(k, w, outs, spent, q, p);
      }
    } else {
      NoneSpent(k, w, n, outs, spent);
      assert more == spent;
    }
  }

  lemma NullifierKnows(k: Keys, w: Wallet, outs: seq<OutputBody>, spent: set<int>, q: int)
    requires Books(k, w, outs, spent) && Owned(k, outs, q)
    ensures var v := ScanNullifier(w, NullifierAt(k, outs, q));
            && v.nct == w.nct && v.nullifierMap == w.nullifierMap
            && forall c :: c in v.unspent || c in v.submittedSpend || c in v.spent || c in v.witnessed ==>
               IsOwned(k, outs, c)
  {
    assert HeldAt(k, w, outs, spent, q);
    assert IsOwned(k, outs, outs[q].noteCommitment);
    hide HeldAt, IsOwned, Held;
  }

  lemma OneSpent(k: Keys, outs: seq<OutputBody>, q: int)
    requires Separate(k) && Owned(k, outs, q)
    ensures SpentBy(k, outs, [NullifierAt(k, outs, q)]) == {q}
  {}

  lemma NoneSpent(k: Keys, w: Wallet, n: Fq, outs: seq<OutputBody>, spent: set<int>)
    requires Books(k, w, outs, spent) && n !in w.nullifierMap
    ensures SpentBy(k, outs, [n]) == {}
  {
    forall p | Owned(k, outs, p)
      ensures NullifierAt(k, outs, p) != n
    {
      assert HeldAt(k, w, outs, spent, p);
    }
  }

  /** The nullifier of output `q` marks `q` spent and leaves every other output alone. */
  lemma NullifierMoves(k: Keys, w: Wallet, outs: seq<OutputBody>, spent: set<int>, q: int, p: int)
    requires Distinct(Commitments(outs)) && Owned(k, outs, q) && Owned(k, outs, p)
    requires HeldAt(k, w, outs, spent, q) && HeldAt(k, w, outs, spent, p)
    ensures HeldAt(k, ScanNullifier(w, NullifierAt(k, outs, q)), outs, spent + {q}, p)
  {
    hide Distinct;
    if p != q {
      assert outs[p].noteCommitment != outs[q].noteCommitment by {
        if outs[p].noteCommitment == outs[q].noteCommitment { UniqueOwner(outs, p, q); }
      }
    }
  }

  lemma {:induction false} ScanNullifiersKeepBooks(
    k: Keys, w: Wallet, ns: seq<Fq>, outs: seq<OutputBody>, spent: set<int>)
    requires Separate(k) && Books(k, w, outs, spent) && Distinct(Commitments(outs))
    ensures Books(k, ScanNullifiers(w, ns), outs, spent + SpentBy(k, outs, ns))
  {
    hide Separate, Books, ScanNullifier, Distinct;
    if ns == [] {
      assert spent + SpentBy(k, outs, ns) == spent;
    } else {
      var init, last := ns[..|ns| - 1], ns[|ns| - 1];
      ScanNullifiersKeepBooks(k, w, init, outs, spent);
      ScanNullifierKeepsBooks(k, ScanNullifiers(w, init), last, outs, spent + SpentBy(k, outs, init));
      assert SpentBy(k, outs, ns) == SpentBy(k, outs, init) + SpentBy(k, outs, [last]);
      assert spent + SpentBy(k, outs, ns) == spent + SpentBy(k, outs, init) + SpentBy(k, outs, [last]);
    }
  }

  // ---------------------------------------------------------------------------------------------
  // Every interleaving keeps the books
  // ---------------------------------------------------------------------------------------------

  ghost predicate WalletOk(k: Keys, w: Wallet, blocks: seq<CompactBlock>) {
    && w.lastBlockHeight == (if blocks == [] then None else Some(|blocks| - 1))
    && Books(k, w, AllOutputs(blocks), SpentOutputs(k, blocks))
  }

  datatype Op =
    | Scan(block: CompactBlock)
    | Spend(commitment: Fq, now: nat)
    | Change(note: Note, now: nat)
    | Prune(now: nat)

  /** The caller only spends notes that are ready, and only registers change it has not yet received. */
  ghost predicate Enabled(k: Keys, w: Wallet, op: Op) {
    match op
    case Spend(c, _) => c in w.unspent
    case Change(note, _) => var c := k.commit(note); c !in w.unspent && c !in w.submittedSpend && c !in w.spent
    case _ => true
  }

  function Apply(k: Keys, w: Wallet, op: Op): Wallet {
    match op
    case Scan(b) => ScanBlock(k, w, b)
    case Spend(c, now) => if c in w.unspent then RegisterSpend(w, c, now) else w
    case Change(note, now) => RegisterChange(k, w, note, now)
    case Prune(now) => PruneTimeouts(w, now)
  }

  function Run(k: Keys, ops: seq<Op>): Wallet {
    if ops == [] then NEW_WALLET else Apply(k, Run(k, ops[..|ops| - 1]), ops[|ops| - 1])
  }

  ghost predicate AllEnabled(k: Keys, ops: seq<Op>) {
    ops == [] || (AllEnabled(k, ops[..|ops| - 1]) && Enabled(k, Run(k, ops[..|ops| - 1]), ops[|ops| - 1]))
  }

  /** The blocks a run accepted, oldest first. */
  ghost function Scanned(k: Keys, ops: seq<Op>): seq<CompactBlock> {
    if ops == [] then []
    else
      var before, op := Run(k, ops[..|ops| - 1]), ops[|ops| - 1];
      Scanned(k, ops[..|ops| - 1]) + (if op.Scan? && Expects(before, op.block.height) then [op.block] else [])
  }

  ghost predicate UniqueCommitments(blocks: seq<CompactBlock>) {
    Distinct(Commitments(AllOutputs(blocks)))
  }

  lemma SpendKeepsBooks(k: Keys, w: Wallet, c: Fq, now: nat, outs: seq<OutputBody>, spent: set<int>)
    requires Books(k, w, outs, spent) && c in w.unspent
    ensures Books(k, RegisterSpend(w, c, now), outs, spent)
  {
    forall p | Owned(k, outs, p)
      ensures HeldAt(k, RegisterSpend(w, c, now), outs, spent, p)
    {
      assert HeldAt(k, w, outs, spent, p);
    }
  }

  lemma ChangeKeepsBooks(k: Keys, w: Wallet, note: Note, now: nat, outs: seq<OutputBody>, spent: set<int>)
    requires Books(k, w, outs, spent) && Enabled(k, w, Change(note, now))
    ensures Books(k, RegisterChange(k, w, note, now), outs, spent)
  {
    forall p | Owned(k, outs, p)
      ensures HeldAt(k, RegisterChange(k, w, note, now), outs, spent, p)
    {
      assert HeldAt(k, w, outs, spent, p);
    }
  }

  lemma PruneKeepsBooks(k: Keys, w: Wallet, now: nat, outs: seq<OutputBody>, spent: set<int>)
    requires Books(k, w, outs, spent)
    ensures Books(k, PruneTimeouts(w, now), outs, spent)
  {
    forall p | Owned(k, outs, p)
      ensures HeldAt(k, PruneTimeouts(w, now), outs, spent, p)
    {
      assert HeldAt(k, w, outs, spent, p);
    }
  }

  lemma {:induction false} SpentInRange(k: Keys, blocks: seq<CompactBlock>)
    ensures forall p :: p in SpentOutputs(k, blocks) ==> Owned(k, AllOutputs(blocks), p)
  {
    if blocks != [] {
      SpentInRange(k, blocks[..|blocks| - 1]);
      var outs := AllOutputs(blocks);
      assert AllOutputs(blocks[..|blocks| - 1]) <= outs;
    }
  }

  lemma ScanBlockOk(k: Keys, w: Wallet, b: CompactBlock, blocks: seq<CompactBlock>)
    requires Separate(k) && WalletOk(k, w, blocks) && Expects(w, b.height) && UniqueCommitments(blocks + [b])
    ensures WalletOk(k, ScanBlock(k, w, b), blocks + [b])
  {
    hide Separate, Books, ScanOutputs, ScanNullifiers, SpentBy, Distinct;
    var next := blocks + [b];
    var outs := AllOutputs(blocks);
    assert next[..|blocks|] == blocks;
    SpentInRange(k, blocks);
    ScanOutputsKeepBooks(k, w, b.outputs, outs, SpentOutputs(k, blocks));
    ScanNullifiersKeepBooks(k, ScanOutputs(k, w, b.outputs), b.nullifiers, outs + b.outputs, SpentOutputs(k, blocks));
    LastHeightKeepsBooks(k, ScanNullifiers(ScanOutputs(k, w, b.outputs), b.nullifiers), Some(b.height),
        AllOutputs(next), SpentOutputs(k, next));
  }

  lemma LastHeightKeepsBooks(k: Keys, w: Wallet, height: Option<nat>, outs: seq<OutputBody>, spent: set<int>)
    requires Books(k, w, outs, spent)
    ensures Books(k, w.(lastBlockHeight := height), outs, spent)
  {
    forall p | Owned(k, outs, p)
      ensures HeldAt(k, w.(lastBlockHeight := height), outs, spent, p)
    {
      assert HeldAt(k, w, outs, spent, p);
    }
  }

  lemma {:induction false} UniquePrefix(blocks: seq<CompactBlock>, b: CompactBlock)
    requires UniqueCommitments(blocks + [b])
    ensures UniqueCommitments(blocks)
  {
    assert (blocks + [b])[..|blocks|] == blocks;
    CommitmentsAppend(AllOutputs(blocks), b.outputs);
    assert forall i :: 0 <= i < |AllOutputs(blocks)| ==>
        Commitments(AllOutputs(blocks))[i] == Commitments(AllOutputs(blocks + [b]))[i];
  }

  /**
   Under any interleaving of scans, spends, change registrations and timeouts,
   the wallet's books are those of the blocks it accepted: every received note is
   in exactly one of the ready, submitted and spent sets, and spent exactly when
   its nullifier, at its true position, was published.
   */
  lemma {:induction false} RunsKeepBooks(k: Keys, ops: seq<Op>)
    requires Separate(k) && AllEnabled(k, ops) && UniqueCommitments(Scanned(k, ops))
    ensures WalletOk(k, Run(k, ops), Scanned(k, ops))
  {
    hide Separate, Books, UniqueCommitments, ScanBlock, RegisterSpend, RegisterChange, PruneTimeouts;
    if ops == [] {
      NothingHeld(k);
    } else {
      var init, op := ops[..|ops| - 1], ops[|ops| - 1];
      var w, blocks := Run(k, init), Scanned(k, init);
      if op.Scan? && Expects(w, op.block.height) {
        UniquePrefix(blocks, op.block);
        RunsKeepBooks(k, init);
        ScanBlockOk(k, w, op.block, blocks);
      } else {
        assert Scanned(k, ops) == blocks;
        RunsKeepBooks(k, init);
        OtherOpsKeepBooks(k, w, op, AllOutputs(blocks), SpentOutputs(k, blocks));
      }
    }
  }

  lemma OtherOpsKeepBooks(k: Keys, w: Wallet, op: Op, outs: seq<OutputBody>, spent: set<int>)
    requires Books(k, w, outs, spent) && Enabled(k, w, op) && !(op.Scan? && Expects(w, op.block.height))
    ensures Books(k, Apply(k, w, op), outs, spent) && Apply(k, w, op).lastBlockHeight == w.lastBlockHeight
  {
    hide Books;
    match op {
      case Scan(b) =>
      case Spend(c, now) => SpendKeepsBooks(k, w, c, now, outs, spent);
      case Change(note, now) => ChangeKeepsBooks(k, w, note, now, outs, spent);
      case Prune(now) => PruneKeepsBooks(k, w, now, outs, spent);
    }
  }

  lemma NothingHeld(k: Keys)
    ensures Books(k, NEW_WALLET, [], {})
  {}

  /** Notes the wallet still holds, whether ready or submitted. */
  function Unsettled(w: Wallet): map<Fq, Note> {
    w.unspent + (map c | c in w.submittedSpend :: w.submittedSpend[c].note)
  }

  /** A spent output is in the spent set alone, any other is witnessed and unsettled. */
  lemma Settlement(k: Keys, w: Wallet, outs: seq<OutputBody>, spent: set<int>, p: int)
    requires Owned(k, outs, p) && HeldAt(k, w, outs, spent, p)
    ensures var (c, note) := (outs[p].noteCommitment, k.decrypt(outs[p]).value);
            && (c in w.spent <==> p in spent) && (c in w.spent ==> w.spent[c] == note)
            && (c in w.witnessed <==> p !in spent)
            && (c in Unsettled(w) <==> p !in spent) && (c in Unsettled(w) ==> Unsettled(w)[c] == note)
  {}

  lemma SettledAlike(k: Keys, v: Wallet, w: Wallet, outs: seq<OutputBody>, spent: set<int>, c: Fq)
    requires Books(k, v, outs, spent) && Books(k, w, outs, spent)
    ensures c in v.spent <==> c in w.spent
    ensures c in v.spent ==> w.spent[c] == v.spent[c]
    ensures c in v.witnessed <==> c in w.witnessed
    ensures c in Unsettled(v) <==> c in Unsettled(w)
    ensures c in Unsettled(v) ==> Unsettled(w)[c] == Unsettled(v)[c]
  {
    if IsOwned(k, outs, c) {
      var p :| Owned(k, outs, p) && outs[p].noteCommitment == c;
      hide HeldAt;
      Settlement(k, v, outs, spent, p);
      Settlement(k, w, outs, spent, p);
    } else {
      hide HeldAt, IsOwned;
    }
  }

  lemma BooksDetermine(k: Keys, v: Wallet, w: Wallet, outs: seq<OutputBody>, spent: set<int>)
    requires Books(k, v, outs, spent) && Books(k, w, outs, spent)
    ensures v.nct == w.nct && v.spent == w.spent && v.witnessed == w.witnessed && Unsettled(v) == Unsettled(w)
            && v.nullifierMap == w.nullifierMap
  {
    hide Books, Unsettled;
    TreeSize(k, v, outs, spent);
    TreeSize(k, w, outs, spent);
    NullifiersWithin(k, v, w, outs, spent);
    NullifiersWithin(k, w, v, outs, spent);
    forall c
      ensures c in v.spent <==> c in w.spent
      ensures c in v.spent ==> w.spent[c] == v.spent[c]
      ensures c in v.witnessed <==> c in w.witnessed
      ensures c in Unsettled(v) <==> c in Unsettled(w)
      ensures c in Unsettled(v) ==> Unsettled(w)[c] == Unsettled(v)[c]
    {
      SettledAlike(k, v, w, outs, spent, c);
    }
  }

  lemma NullifiersWithin(k: Keys, v: Wallet, w: Wallet, outs: seq<OutputBody>, spent: set<int>)
    requires Books(k, v, outs, spent) && Books(k, w, outs, spent)
    ensures forall n :: n in v.nullifierMap ==> n in w.nullifierMap && w.nullifierMap[n] == v.nullifierMap[n]
  {
    forall n | n in v.nullifierMap
      ensures n in w.nullifierMap && w.nullifierMap[n] == v.nullifierMap[n]
    {
      var p :| Owned(k, outs, p) && n == NullifierAt(k, outs, p);
      assert HeldAt(k, v, outs, spent, p) && HeldAt(k, w, outs, spent, p);
    }
  }

  /**
   Confluence: two runs that accepted the same blocks agree on the tree, the
   nullifiers, the spent notes and the notes still held, whatever else they did.
   */
  lemma RunsAreConfluent(k: Keys, a: seq<Op>, b: seq<Op>)
    requires Separate(k) && AllEnabled(k, a) && AllEnabled(k, b)
    requires Scanned(k, a) == Scanned(k, b) && UniqueCommitments(Scanned(k, a))
    ensures var (v, w) := (Run(k, a), Run(k, b));
            && v.lastBlockHeight == w.lastBlockHeight && v.nct == w.nct && v.nullifierMap == w.nullifierMap
            && v.spent == w.spent && v.witnessed == w.witnessed && Unsettled(v) == Unsettled(w)
  {
    hide Separate, Books, Run, Scanned, AllEnabled, UniqueCommitments;
    RunsKeepBooks(k, a);
    RunsKeepBooks(k, b);
    BooksDetermine(k, Run(k, a), Run(k, b), AllOutputs(Scanned(k, a)), SpentOutputs(k, Scanned(k, a)));
  }
}
