/**
 What a wallet waits for, and until when: in every run the submitted spends and the expected
 change are those that the history of moves says, no more and no longer.
 */
module WalletTimeouts {
  import opened Prelude
  import opened Transactions
  import opened PoolSpec
  import opened WalletSpec
  import opened NoteSelection
  import opened BuilderSpec
  import opened WalletMoves

  /** What is left at time `now` of something registered at time `at`. */
  function StillAt(at: Option<nat>, now: nat): Option<nat> {
    if at.Some? && now > at.value + TIMEOUT then None else at
  }

  /** When the note under `c` was last submitted, unless a later pruning gave it up. */
  ghost function SubmittedAt(k: Keys, ms: seq<Move>, c: Fq): Option<nat> {
    if ms == [] then None
    else
      var (w, before) := (RunMoves(k, ms[..|ms| - 1]), SubmittedAt(k, ms[..|ms| - 1], c));
      match ms[|ms| - 1]
      case Simple(Spend(d, now)) => if d == c then Some(now) else before
      case Simple(Prune(now)) => StillAt(before, now)
      case Build(after, _, now) => if c in w.unspent && c !in after.unspent then Some(now) else before
      case _ => before
  }

  /** The entry under `c` of a submitted set is the one registered at time `at`, if any. */
  ghost predicate Waits(m: map<Fq, Submitted>, c: Fq, at: Option<nat>) {
    && (c in m <==> at.Some?)
    && (c in m ==> m[c].timeout == at.value + TIMEOUT)
  }

  // ---------------------------------------------------------------------------------------------
  // Scanning
  // ---------------------------------------------------------------------------------------------

  /** Scanning takes from the submitted spends only what it finds spent. */
  lemma {:induction false} NullifiersKeepSubmitted(w: Wallet, ns: seq<Fq>, c: Fq)
    ensures var v := ScanNullifiers(w, ns);
            && (c in w.spent ==> c in v.spent)
            && (c !in v.spent ==>
                  && (c in v.submittedSpend <==> c in w.submittedSpend)
                  && (c in v.submittedSpend ==> v.submittedSpend[c] == w.submittedSpend[c]))
  {
    if ns != [] {
      NullifiersKeepSubmitted(w, ns[..|ns| - 1], c);
    }
  }

  lemma {:induction false} OutputsKeepSubmitted(k: Keys, w: Wallet, bodies: seq<OutputBody>)
    ensures var v := ScanOutputs(k, w, bodies); v.submittedSpend == w.submittedSpend && v.spent == w.spent
  {
    if bodies != [] {
      OutputsKeepSubmitted(k, w, bodies[..|bodies| - 1]);
    }
  }

  lemma ScanKeepsSubmitted(k: Keys, w: Wallet, b: CompactBlock, c: Fq, at: Option<nat>)
    requires Waits(w.submittedSpend, c, at) && c !in ScanBlock(k, w, b).spent
    ensures Waits(ScanBlock(k, w, b).submittedSpend, c, at)
  {
    hide ScanOutputs, ScanNullifiers;
    OutputsKeepSubmitted(k, w, b.outputs);
    NullifiersKeepSubmitted(ScanOutputs(k, w, b.outputs), b.nullifiers, c);
  }

  lemma SpentGrows(k: Keys, blocks: seq<CompactBlock>, b: CompactBlock)
    ensures SpentOutputs(k, blocks) <= SpentOutputs(k, blocks + [b])
    ensures AllOutputs(blocks + [b]) == AllOutputs(blocks) + b.outputs
  {
    assert (blocks + [b])[..|blocks|] == blocks;
  }

  // ---------------------------------------------------------------------------------------------
  // Submitted spends
  // ---------------------------------------------------------------------------------------------

  /** Only received notes are ever submitted. */
  lemma {:induction false} SubmittedIsOwned(k: Keys, ms: seq<Move>, c: Fq)
    requires Separate(k) && MovesEnabled(k, ms) && UniqueCommitments(BlocksScanned(k, ms))
    requires SubmittedAt(k, ms, c).Some?
    ensures IsOwned(k, AllOutputs(BlocksScanned(k, ms)), c)
  {
    hide Separate, UniqueCommitments, ScanBlock, IsOwned, SomeBooking, FreshChange;
    var init, m := ms[..|ms| - 1], ms[|ms| - 1];
    var w, blocks := RunMoves(k, init), BlocksScanned(k, init);
    if Scans(w, m) {
      UniquePrefix(blocks, m.op.block);
      SubmittedIsOwned(k, init, c);
      SpentGrows(k, blocks, m.op.block);
      OwnedAppend(k, AllOutputs(blocks), m.op.block.outputs, c);
    } else {
      assert BlocksScanned(k, ms) == blocks;
      if SubmittedAt(k, init, c).Some? {
        SubmittedIsOwned(k, init, c);
      } else {
        MovesKeepBooks(k, init);
      }
    }
  }

  lemma OwnedAppend(k: Keys, outs: seq<OutputBody>, more: seq<OutputBody>, c: Fq)
    requires IsOwned(k, outs, c)
    ensures IsOwned(k, outs + more, c)
  {
    var p :| Owned(k, outs, p) && outs[p].noteCommitment == c;
    assert (outs + more)[p] == outs[p];
    assert Owned(k, outs + more, p);
  }

  /** A commitment that a block brings is not among the older ones. */
  lemma NewIsNotOwned(k: Keys, outs: seq<OutputBody>, more: seq<OutputBody>, p: int)
    requires Distinct(Commitments(outs + more)) && |outs| <= p < |outs + more|
    ensures !IsOwned(k, outs, (outs + more)[p].noteCommitment)
  {
    var all := outs + more;
    forall q | 0 <= q < |outs|
      ensures outs[q].noteCommitment != all[p].noteCommitment
    {
      assert all[q] == outs[q] && Commitments(all)[q] != Commitments(all)[p];
    }
  }

  lemma OtherMoveWaits(k: Keys, ms: seq<Move>, c: Fq)
    requires ms != [] && MovesEnabled(k, ms)
    requires var (w, m) := (RunMoves(k, ms[..|ms| - 1]), ms[|ms| - 1]);
             !Scans(w, m) && c !in w.spent && Waits(w.submittedSpend, c, SubmittedAt(k, ms[..|ms| - 1], c))
    ensures Waits(RunMoves(k, ms).submittedSpend, c, SubmittedAt(k, ms, c))
  {
    var init, m := ms[..|ms| - 1], ms[|ms| - 1];
    var w, at := RunMoves(k, init), SubmittedAt(k, init, c);
    hide ScanOutputs, ScanNullifiers;
    match m {
      case Simple(Scan(_)) =>
      case Simple(Spend(_, _)) =>
      case Simple(Change(_, _)) =>
      case Simple(Prune(now)) => PruneOutcome(w, now); assert Pruned(w, PruneTimeouts(w, now), c, now);
      case Build(after, blinding, now) => BuildWaits(k, w, after, blinding, now, c, at);
    }
  }

  lemma BuildWaits(k: Keys, w: Wallet, after: Wallet, blinding: AssetId -> Fq, now: nat, c: Fq, at: Option<nat>)
    requires SomeBooking(k, w, after, blinding, now) && Waits(w.submittedSpend, c, at)
    ensures Waits(after.submittedSpend, c, if c in w.unspent && c !in after.unspent then Some(now) else at)
  {
    var spends, outputs :| Booked(k, w, after, spends, outputs, blinding, now);
    hide DistinctNotes, SelfCommits, Expected, CommitSet;
  }

  lemma {:induction false} WhereSubmitted(k: Keys, ms: seq<Move>, p: int)
    requires Separate(k) && MovesEnabled(k, ms) && UniqueCommitments(BlocksScanned(k, ms))
    requires Owned(k, AllOutputs(BlocksScanned(k, ms)), p) && p !in SpentOutputs(k, BlocksScanned(k, ms))
    ensures var (w, c) := (RunMoves(k, ms), AllOutputs(BlocksScanned(k, ms))[p].noteCommitment);
            Waits(w.submittedSpend, c, SubmittedAt(k, ms, c))
  {
    hide Separate, ScanBlock, IsOwned, SomeBooking, FreshChange, Books, HeldAt, Waits, SubmittedAt, UniqueCommitments;
    hide SpentOutputs, AllOutputs;
    NotSpent(k, ms, p);
    if ms == [] {
      NothingOwned(k, p);
    } else {
      var c := AllOutputs(BlocksScanned(k, ms))[p].noteCommitment;
      var init, m := ms[..|ms| - 1], ms[|ms| - 1];
      var w, blocks := RunMoves(k, init), BlocksScanned(k, init);
      if Scans(w, m) {
        var b := m.op.block;
        UniquePrefix(blocks, b);
        SpentGrows(k, blocks, b);
        if p < |AllOutputs(blocks)| {
          assert AllOutputs(blocks)[p] == (AllOutputs(blocks) + b.outputs)[p];
          WhereSubmitted(k, init, p);
        }
        ScanWaits(k, ms, init, b, p, c);
      } else {
        assert BlocksScanned(k, ms) == blocks;
        WhereSubmitted(k, init, p);
        NotSpent(k, init, p);
        OtherMoveWaits(k, ms, c);
      }
    }
  }

  lemma NothingOwned(k: Keys, p: int)
    ensures !Owned(k, AllOutputs(BlocksScanned(k, [])), p)
  {}

  /**
   In every run a note that is not spent is submitted exactly while the history of moves says it
   waits, with that time, and is ready otherwise.
   */
  lemma WhereHeld(k: Keys, ms: seq<Move>, p: int)
    requires Separate(k) && MovesEnabled(k, ms) && UniqueCommitments(BlocksScanned(k, ms))
    requires Owned(k, AllOutputs(BlocksScanned(k, ms)), p) && p !in SpentOutputs(k, BlocksScanned(k, ms))
    ensures var (w, c) := (RunMoves(k, ms), AllOutputs(BlocksScanned(k, ms))[p].noteCommitment);
            && Waits(w.submittedSpend, c, SubmittedAt(k, ms, c))
            && (c in w.unspent <==> SubmittedAt(k, ms, c).None?)
  {
    hide Separate, MovesEnabled, UniqueCommitments, RunMoves, BlocksScanned, SubmittedAt;
    WhereSubmitted(k, ms, p);
    NotSpent(k, ms, p);
  }

  /**
   Recovery: after a pruning at time `now` a note whose nullifier was not published is ready if
   and only if it was ready before, or was submitted more than 60 seconds ago.
   */
  lemma PruneRecovers(k: Keys, ms: seq<Move>, now: nat, p: int)
    requires Separate(k) && MovesEnabled(k, ms) && UniqueCommitments(BlocksScanned(k, ms))
    requires Owned(k, AllOutputs(BlocksScanned(k, ms)), p) && p !in SpentOutputs(k, BlocksScanned(k, ms))
    ensures var (w, v) := (RunMoves(k, ms), RunMoves(k, ms + [Simple(Prune(now))]));
            var c := AllOutputs(BlocksScanned(k, ms))[p].noteCommitment;
            var at := SubmittedAt(k, ms, c);
            && (c in v.unspent <==> c in w.unspent || (at.Some? && now > at.value + TIMEOUT))
            && (c in w.unspent <==> at.None?)
            && (c in v.submittedSpend <==> at.Some? && now <= at.value + TIMEOUT)
  {
    hide Separate, UniqueCommitments, BlocksScanned, SubmittedAt;
    WhereHeld(k, ms, p);
    NotSpent(k, ms, p);
    var w := RunMoves(k, ms);
    assert (ms + [Simple(Prune(now))])[..|ms|] == ms;
    PruneOutcome(w, now);
    assert Pruned(w, PruneTimeouts(w, now), AllOutputs(BlocksScanned(k, ms))[p].noteCommitment, now);
  }

  /** The step of `WhereSubmitted` that scans a block. */
  lemma ScanWaits(k: Keys, ms: seq<Move>, init: seq<Move>, b: CompactBlock, p: int, c: Fq)
    requires Separate(k) && MovesEnabled(k, ms) && UniqueCommitments(BlocksScanned(k, ms))
    requires ms != [] && init == ms[..|ms| - 1] && ms[|ms| - 1] == Simple(Scan(b))
    requires Expects(RunMoves(k, init), b.height)
    requires UniqueCommitments(BlocksScanned(k, init))
    requires var outs := AllOutputs(BlocksScanned(k, init));
             && AllOutputs(BlocksScanned(k, ms)) == outs + b.outputs && Owned(k, outs + b.outputs, p)
             && (outs + b.outputs)[p].noteCommitment == c
             && (p < |outs| ==> Waits(RunMoves(k, init).submittedSpend, c, SubmittedAt(k, init, c)))
             && c !in RunMoves(k, ms).spent
    ensures Waits(RunMoves(k, ms).submittedSpend, c, SubmittedAt(k, ms, c))
  {
    hide Separate, ScanBlock, SomeBooking, FreshChange, HeldAt, IsOwned;
    var w, outs := RunMoves(k, init), AllOutputs(BlocksScanned(k, init));
    MovesKeepBooks(k, init);
    if p >= |outs| {
      NewIsNotOwned(k, outs, b.outputs, p);
      if SubmittedAt(k, init, c).Some? {
        SubmittedIsOwned(k, init, c);
      }
    }
    ScanKeepsSubmitted(k, w, b, c, SubmittedAt(k, init, c));
  }

  lemma NotSpent(k: Keys, ms: seq<Move>, p: int)
    requires Separate(k) && MovesEnabled(k, ms) && UniqueCommitments(BlocksScanned(k, ms))
    requires Owned(k, AllOutputs(BlocksScanned(k, ms)), p) && p !in SpentOutputs(k, BlocksScanned(k, ms))
    ensures var (w, c) := (RunMoves(k, ms), AllOutputs(BlocksScanned(k, ms))[p].noteCommitment);
            c !in w.spent && (c in w.unspent <==> c !in w.submittedSpend)
  {
    MovesKeepBooks(k, ms);
    var blocks := BlocksScanned(k, ms);
    assert HeldAt(k, RunMoves(k, ms), AllOutputs(blocks), SpentOutputs(k, blocks), p);
  }

  // ---------------------------------------------------------------------------------------------
  // Expected change
  // ---------------------------------------------------------------------------------------------

  /** When change under `c` was last announced, unless it has arrived since or a later pruning gave it up. */
  ghost function ExpectedAt(k: Keys, ms: seq<Move>, c: Fq): Option<nat> {
    if ms == [] then None
    else
      var (w, before) := (RunMoves(k, ms[..|ms| - 1]), ExpectedAt(k, ms[..|ms| - 1], c));
      match ms[|ms| - 1]
      case Simple(Change(note, now)) => if k.commit(note) == c then Some(now) else before
      case Simple(Prune(now)) => StillAt(before, now)
      case Simple(Scan(b)) => if Expects(w, b.height) && IsOwned(k, b.outputs, c) then None else before
      case Build(after, _, now) =>
        var (m, n) := (w.submittedChange, after.submittedChange);
        if c in n && !(c in m && n[c] == m[c]) then Some(now) else before
      case _ => before
  }

  lemma OwnedLast(k: Keys, bodies: seq<OutputBody>, c: Fq)
    requires bodies != []
    ensures var (init, last) := (bodies[..|bodies| - 1], bodies[|bodies| - 1]);
            IsOwned(k, bodies, c) <==> IsOwned(k, init, c) || (k.decrypt(last).Some? && last.noteCommitment == c)
  {
    var n := |bodies| - 1;
    var init, last := bodies[..n], bodies[n];
    if IsOwned(k, init, c) {
      OwnedAppend(k, init, [last], c);
      assert init + [last] == bodies;
    }
    if k.decrypt(last).Some? && last.noteCommitment == c {
      assert Owned(k, bodies, n) && bodies[n].noteCommitment == c;
    }
    if IsOwned(k, bodies, c) {
      var p :| Owned(k, bodies, p) && bodies[p].noteCommitment == c;
      if p < n {
        assert Owned(k, init, p) && init[p].noteCommitment == c;
      }
    }
  }

  /** Scanning outputs strikes from the expected change exactly what arrives. */
  lemma {:induction false} OutputsStrikeChange(k: Keys, w: Wallet, bodies: seq<OutputBody>, c: Fq)
    ensures var v := ScanOutputs(k, w, bodies);
            && (c in v.submittedChange <==> c in w.submittedChange && !IsOwned(k, bodies, c))
            && (c in v.submittedChange ==> v.submittedChange[c] == w.submittedChange[c])
  {
    if bodies != [] {
      OutputsStrikeChange(k, w, bodies[..|bodies| - 1], c);
      OwnedLast(k, bodies, c);
      hide IsOwned;
    }
  }

  lemma NullifierKeepsChange(k: Keys, w: Wallet, n: Fq, outs: seq<OutputBody>, spent: set<int>)
    requires Books(k, w, outs, spent)
    ensures ScanNullifier(w, n).submittedChange == w.submittedChange
  {
    if n in w.nullifierMap {
      var p :| Owned(k, outs, p) && n == NullifierAt(k, outs, p);
      assert HeldAt(k, w, outs, spent, p);
      hide Books;
    }
  }

  lemma {:induction false} NullifiersKeepChange(k: Keys, w: Wallet, ns: seq<Fq>, outs: seq<OutputBody>, spent: set<int>)
    requires Separate(k) && Books(k, w, outs, spent) && Distinct(Commitments(outs))
    ensures ScanNullifiers(w, ns).submittedChange == w.submittedChange
  {
    hide Separate, Books, ScanNullifier, Distinct;
    if ns != [] {
      var init := ns[..|ns| - 1];
      NullifiersKeepChange(k, w, init, outs, spent);
      ScanNullifiersKeepBooks(k, w, init, outs, spent);
      NullifierKeepsChange(k, ScanNullifiers(w, init), ns[|ns| - 1], outs, spent + SpentBy(k, outs, init));
    }
  }

  lemma ScanStrikesChange(k: Keys, w: Wallet, b: CompactBlock, blocks: seq<CompactBlock>, c: Fq)
    requires Separate(k) && WalletOk(k, w, blocks) && Expects(w, b.height) && UniqueCommitments(blocks + [b])
    ensures var v := ScanBlock(k, w, b);
            && (c in v.submittedChange <==> c in w.submittedChange && !IsOwned(k, b.outputs, c))
            && (c in v.submittedChange ==> v.submittedChange[c] == w.submittedChange[c])
  {
    hide Separate, Books, ScanOutputs, ScanNullifiers, Distinct, IsOwned;
    var outs := AllOutputs(blocks);
    SpentGrows(k, blocks, b);
    SpentInRange(k, blocks);
    ScanOutputsKeepBooks(k, w, b.outputs, outs, SpentOutputs(k, blocks));
    OutputsStrikeChange(k, w, b.outputs, c);
    NullifiersKeepChange(k, ScanOutputs(k, w, b.outputs), b.nullifiers, outs + b.outputs, SpentOutputs(k, blocks));
  }

  lemma BuildExpects(k: Keys, w: Wallet, after: Wallet, blinding: AssetId -> Fq, now: nat, c: Fq, at: Option<nat>)
    requires SomeBooking(k, w, after, blinding, now) && Waits(w.submittedChange, c, at)
    ensures var (m, n) := (w.submittedChange, after.submittedChange);
            Waits(n, c, if c in n && !(c in m && n[c] == m[c]) then Some(now) else at)
  {
    var spends, outputs :| Booked(k, w, after, spends, outputs, blinding, now);
    hide DistinctNotes, SelfCommits, CommitSet, Submit;
  }

  /** In every run change is expected exactly while the history of moves says it is due, with that time. */
  lemma {:induction false} WhenExpected(k: Keys, ms: seq<Move>, c: Fq)
    requires Separate(k) && MovesEnabled(k, ms) && UniqueCommitments(BlocksScanned(k, ms))
    ensures Waits(RunMoves(k, ms).submittedChange, c, ExpectedAt(k, ms, c))
  {
    hide Separate, UniqueCommitments, ScanBlock, IsOwned, SomeBooking, FreshChange, WalletOk;
    if ms != [] {
      var init, m := ms[..|ms| - 1], ms[|ms| - 1];
      var w, blocks := RunMoves(k, init), BlocksScanned(k, init);
      if Scans(w, m) {
        UniquePrefix(blocks, m.op.block);
        WhenExpected(k, init, c);
        MovesKeepBooks(k, init);
        ScanStrikesChange(k, w, m.op.block, blocks, c);
      } else {
        assert BlocksScanned(k, ms) == blocks;
        WhenExpected(k, init, c);
        OtherMoveExpects(k, ms, c);
      }
    }
  }

  lemma OtherMoveExpects(k: Keys, ms: seq<Move>, c: Fq)
    requires ms != [] && MovesEnabled(k, ms)
    requires var (w, m) := (RunMoves(k, ms[..|ms| - 1]), ms[|ms| - 1]);
             !Scans(w, m) && Waits(w.submittedChange, c, ExpectedAt(k, ms[..|ms| - 1], c))
    ensures Waits(RunMoves(k, ms).submittedChange, c, ExpectedAt(k, ms, c))
  {
    var init, m := ms[..|ms| - 1], ms[|ms| - 1];
    var w, at := RunMoves(k, init), ExpectedAt(k, init, c);
    hide ScanOutputs, ScanNullifiers, IsOwned;
    match m {
      case Simple(Scan(_)) =>
      case Simple(Spend(_, _)) =>
      case Simple(Change(_, _)) =>
      case Simple(Prune(now)) => PruneOutcome(w, now); assert Pruned(w, PruneTimeouts(w, now), c, now);
      case Build(after, blinding, now) => BuildExpects(k, w, after, blinding, now, c, at);
    }
  }
}
