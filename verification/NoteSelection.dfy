/** Choosing the notes a transaction spends (wallet/src/state.rs, notes_to_spend), on values. */
module NoteSelection {
  import opened Prelude
  import opened Transactions
  import opened PoolSpec
  import opened WalletSpec

  /** A ready note of the right asset, and of the right address if one is given. */
  predicate Eligible(note: Note, asset: AssetId, source: Option<nat>) {
    note.asset == asset && (source.Some? ==> note.addressIndex == source.value)
  }

  /** Commitments of the ready notes that may be spent. */
  function Candidates(w: Wallet, asset: AssetId, source: Option<nat>): set<Fq> {
    set c | c in w.unspent && Eligible(w.unspent[c], asset, source)
  }

  /** Some note of the asset is known, even if it is only submitted. */
  predicate Known(w: Wallet, asset: AssetId, source: Option<nat>) {
    || (exists c :: c in w.unspent && Eligible(w.unspent[c], asset, source))
    || (exists c :: c in w.submittedSpend && Eligible(w.submittedSpend[c].note, asset, source))
    || (exists c :: c in w.submittedChange && Eligible(w.submittedChange[c].note, asset, source))
  }

  /** Total amount of a set of ready notes. */
  ghost function Worth(w: Wallet, cs: set<Fq>): nat
    requires forall c :: c in cs ==> c in w.unspent
  {
    if cs == {} then 0 else var c :| c in cs; w.unspent[c].amount + Worth(w, cs - {c})
  }

  lemma WorthNone(w: Wallet)
    ensures Worth(w, {}) == 0
  {}

  lemma {:induction false} WorthRemove(w: Wallet, cs: set<Fq>, c: Fq)
    requires c in cs && forall x :: x in cs ==> x in w.unspent
    ensures Worth(w, cs) == w.unspent[c].amount + Worth(w, cs - {c})
    decreases cs
  {
    var d :| d in cs && Worth(w, cs) == w.unspent[d].amount + Worth(w, cs - {d});
    if d != c {
      WorthRemove(w, cs - {d}, c);
      WorthRemove(w, cs - {c}, d);
      assert cs - {d} - {c} == cs - {c} - {d};
    }
  }

  function Amounts(notes: seq<Note>): nat {
    if notes == [] then 0 else Amounts(notes[..|notes| - 1]) + notes[|notes| - 1].amount
  }

  method SumAmounts(notes: seq<Note>) returns (total: nat)
    ensures total == Amounts(notes)
  {
    total := 0;
    for i := 0 to |notes|
      invariant total == Amounts(notes[..i])
    {
      assert notes[..i + 1][..i] == notes[..i];
      total := total + notes[i].amount;
    }
    assert notes[..|notes|] == notes;
  }

  /** Commitments of notes. */
  function CommitSet(k: Keys, notes: seq<Note>): set<Fq> {
    set note | note in notes :: k.commit(note)
  }

  /** No two notes share a commitment. */
  ghost predicate DistinctNotes(k: Keys, notes: seq<Note>) {
    forall i, j :: 0 <= i < j < |notes| ==> k.commit(notes[i]) != k.commit(notes[j])
  }

  /** Notes `cs` of `m`, submitted at time `now`. */
  function Stamped(m: map<Fq, Note>, cs: set<Fq>, now: nat): map<Fq, Submitted>
    requires cs <= m.Keys
  {
    map c | c in cs :: Submitted(now + TIMEOUT, m[c])
  }

  /** The wallet after the ready notes `cs` were submitted at time `now`. */
  function Submit(w: Wallet, cs: set<Fq>, now: nat): Wallet
    requires cs <= w.unspent.Keys
  {
    w.(unspent := w.unspent - cs, submittedSpend := w.submittedSpend + Stamped(w.unspent, cs, now))
  }

  lemma StampTwice(s: map<Fq, Submitted>, m: map<Fq, Note>, cs: set<Fq>, ds: set<Fq>, now: nat)
    requires cs <= m.Keys && ds <= m.Keys - cs
    ensures s + Stamped(m, cs, now) + Stamped(m - cs, ds, now) == s + Stamped(m, cs + ds, now)
  {
    assert Stamped(m, cs, now) + Stamped(m - cs, ds, now) == Stamped(m, cs + ds, now);
  }

  lemma SubmitTwice(w: Wallet, cs: set<Fq>, ds: set<Fq>, now: nat)
    requires cs <= w.unspent.Keys && ds <= w.unspent.Keys - cs
    ensures Submit(Submit(w, cs, now), ds, now) == Submit(w, cs + ds, now)
  {
    hide Stamped;
    StampTwice(w.submittedSpend, w.unspent, cs, ds, now);
    assert w.unspent - cs - ds == w.unspent - (cs + ds);
  }

  /** Ready notes are filed under their commitments and have a path in the tree. */
  ghost predicate Filed(k: Keys, w: Wallet) {
    forall c :: c in w.unspent ==> k.commit(w.unspent[c]) == c && c in w.witnessed
  }

  /** The notes a selection of `amount` may return from state `w`. */
  ghost predicate Selection(k: Keys, w: Wallet, notes: seq<Note>, amount: nat, asset: AssetId, source: Option<nat>) {
    && DistinctNotes(k, notes)
    && (forall note :: note in notes ==>
          && k.commit(note) in w.unspent && w.unspent[k.commit(note)] == note
          && Eligible(note, asset, source))
    && amount <= Amounts(notes)
    && (notes != [] && amount > 0 ==> Amounts(notes[..|notes| - 1]) < amount)
  }

  /** Distinct notes of `w`, filed under commitments in `done`. */
  ghost predicate Drawn(k: Keys, w: Wallet, notes: seq<Note>, done: set<Fq>) {
    && DistinctNotes(k, notes)
    && forall note :: note in notes ==>
       k.commit(note) in done && k.commit(note) in w.unspent && w.unspent[k.commit(note)] == note
  }

  lemma CandidatesAre(w: Wallet, asset: AssetId, source: Option<nat>)
    ensures Candidates(w, asset, source) == set c | c in w.unspent && Eligible(w.unspent[c], asset, source)
  {}

  lemma DrawNone(k: Keys, w: Wallet, all: set<Fq>)
    ensures Drawn(k, w, [], all - all) && Amounts([]) == 0 && Worth(w, {}) == 0
  {}

  lemma DrawNext(k: Keys, w: Wallet, notes: seq<Note>, done: set<Fq>, c: Fq)
    requires Drawn(k, w, notes, done) && c !in done && c in w.unspent && k.commit(w.unspent[c]) == c
    ensures Drawn(k, w, notes + [w.unspent[c]], done + {c})
    ensures Amounts(notes + [w.unspent[c]]) == Amounts(notes) + w.unspent[c].amount
    ensures (notes + [w.unspent[c]])[..|notes|] == notes
  {
    assert (notes + [w.unspent[c]])[..|notes|] == notes;
  }

  lemma DrawnIsSelection(
    k: Keys, w: Wallet, notes: seq<Note>, done: set<Fq>, amount: nat, asset: AssetId, source: Option<nat>)
    requires done <= Candidates(w, asset, source) && Drawn(k, w, notes, done) && amount <= Amounts(notes)
    requires notes != [] && amount > 0 ==> Amounts(notes[..|notes| - 1]) < amount
    ensures Selection(k, w, notes, amount, asset, source)
  {}

  /** The denomination of every note the wallet holds or expects is known. */
  ghost predicate Cached(w: Wallet, cache: set<AssetId>) {
    && (forall c :: c in w.unspent ==> w.unspent[c].asset in cache)
    && (forall c :: c in w.submittedSpend ==> w.submittedSpend[c].note.asset in cache)
    && (forall c :: c in w.submittedChange ==> w.submittedChange[c].note.asset in cache)
  }

  lemma SubmitKeepsCached(w: Wallet, cs: set<Fq>, now: nat, cache: set<AssetId>)
    requires cs <= w.unspent.Keys && Cached(w, cache)
    ensures Cached(Submit(w, cs, now), cache)
  {}

  /** The notes the wallet can spend at once cover the amount. */
  ghost predicate Funded(w: Wallet, amount: nat, asset: AssetId, source: Option<nat>) {
    Known(w, asset, source) && amount <= Worth(w, Candidates(w, asset, source))
  }

  lemma CommitSetNext(k: Keys, notes: seq<Note>, i: nat)
    requires i < |notes| && DistinctNotes(k, notes)
    ensures CommitSet(k, notes[..i + 1]) == CommitSet(k, notes[..i]) + {k.commit(notes[i])}
    ensures k.commit(notes[i]) !in CommitSet(k, notes[..i])
  {
    assert notes[..i + 1] == notes[..i] + [notes[i]];
  }

  lemma SubmitNone(w: Wallet, now: nat)
    ensures Submit(w, {}, now) == w
  {
    assert w.submittedSpend + Stamped(w.unspent, {}, now) == w.submittedSpend;
    assert w.unspent - {} == w.unspent;
  }

  lemma SubmitOne(w: Wallet, c: Fq, now: nat)
    requires c in w.unspent
    ensures RegisterSpend(w, c, now) == Submit(w, {c}, now)
  {
    assert w.submittedSpend[c := Submitted(now + TIMEOUT, w.unspent[c])]
        == w.submittedSpend + Stamped(w.unspent, {c}, now);
  }

  lemma PruneNone(spent: map<Fq, Note>, now: nat)
    ensures Pending(map[], now) == map[] && Recovered(map[], spent, now) == map[]
  {}

  lemma PendingNext(m: map<Fq, Submitted>, c: Fq, s: Submitted, now: nat)
    requires c !in m
    ensures Pending(m[c := s], now) == if now > s.timeout then Pending(m, now) else Pending(m, now)[c := s]
  {
    if now > s.timeout {
      assert Pending(m[c := s], now) == Pending(m, now);
    } else {
      assert Pending(m[c := s], now) == Pending(m, now)[c := s];
    }
  }

  lemma RecoveredNext(m: map<Fq, Submitted>, c: Fq, s: Submitted, spent: map<Fq, Note>, now: nat)
    requires c !in m
    ensures Recovered(m[c := s], spent, now) ==
            if now > s.timeout && c !in spent then Recovered(m, spent, now)[c := s.note] else Recovered(m, spent, now)
  {
    if now > s.timeout && c !in spent {
      assert Recovered(m[c := s], spent, now) == Recovered(m, spent, now)[c := s.note];
    } else {
      assert Recovered(m[c := s], spent, now) == Recovered(m, spent, now);
    }
  }

  /** Ciphertexts decrypt to the note that was committed to. */
  ghost predicate GenuineNotes(k: Keys) {
    forall body :: k.decrypt(body).Some? ==> k.commit(k.decrypt(body).value) == body.noteCommitment
  }

  /** In every run the ready notes are filed under their commitments and have a path in the wallet's tree. */
  lemma RunsStayFiled(k: Keys, ops: seq<Op>)
    requires Separate(k) && GenuineNotes(k) && AllEnabled(k, ops) && UniqueCommitments(Scanned(k, ops))
    ensures Filed(k, Run(k, ops))
  {
    hide Separate, Run, Scanned, AllEnabled, UniqueCommitments;
    RunsKeepBooks(k, ops);
    BooksAreFiled(k, Run(k, ops), AllOutputs(Scanned(k, ops)), SpentOutputs(k, Scanned(k, ops)));
  }

  lemma BooksAreFiled(k: Keys, w: Wallet, outs: seq<OutputBody>, spent: set<int>)
    requires GenuineNotes(k) && Books(k, w, outs, spent)
    ensures Filed(k, w)
  {
    forall c | c in w.unspent
      ensures k.commit(w.unspent[c]) == c && c in w.witnessed
    {
      assert IsOwned(k, outs, c);
      var p :| Owned(k, outs, p) && outs[p].noteCommitment == c;
      assert HeldAt(k, w, outs, spent, p);
    }
  }
}
