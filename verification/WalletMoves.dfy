/**
 Wallets that also build transactions: a builder call, whether it succeeds or fails, is
 one more kind of move, and runs with such moves keep the same books.
 */
module WalletMoves {
  import opened Transactions
  import opened PoolSpec
  import opened WalletSpec
  import opened NoteSelection
  import opened TxBuilder
  import opened BuilderSpec

  datatype Move =
    | Simple(op: Op)
    | Build(after: Wallet, blinding: AssetId -> Fq, now: nat)

  /** Change newly expected in `w` is not a note the wallet already received. */
  ghost predicate FreshChange(v: Wallet, w: Wallet) {
    forall c :: c in w.submittedChange && c !in v.submittedChange ==>
      c !in v.unspent && c !in v.submittedSpend && c !in v.spent
  }

  /** A builder call books some notes and some change, as the builders' contracts say. */
  ghost predicate MoveEnabled(k: Keys, w: Wallet, m: Move) {
    match m
    case Simple(op) => Enabled(k, w, op)
    case Build(after, blinding, now) => SomeBooking(k, w, after, blinding, now) && FreshChange(w, after)
  }

  ghost function MoveTo(k: Keys, w: Wallet, m: Move): Wallet {
    match m
    case Simple(op) => Apply(k, w, op)
    case Build(after, _, _) => after
  }

  ghost function RunMoves(k: Keys, ms: seq<Move>): Wallet {
    if ms == [] then NEW_WALLET else MoveTo(k, RunMoves(k, ms[..|ms| - 1]), ms[|ms| - 1])
  }

  ghost predicate MovesEnabled(k: Keys, ms: seq<Move>) {
    ms == [] || (MovesEnabled(k, ms[..|ms| - 1]) && MoveEnabled(k, RunMoves(k, ms[..|ms| - 1]), ms[|ms| - 1]))
  }

  /** The move scans a block that the wallet accepts. */
  ghost predicate Scans(w: Wallet, m: Move) {
    m.Simple? && m.op.Scan? && Expects(w, m.op.block.height)
  }

  /** The blocks a run accepted, oldest first. */
  ghost function BlocksScanned(k: Keys, ms: seq<Move>): seq<CompactBlock> {
    if ms == [] then []
    else
      var before, m := RunMoves(k, ms[..|ms| - 1]), ms[|ms| - 1];
      BlocksScanned(k, ms[..|ms| - 1]) + (if Scans(before, m) then [m.op.block] else [])
  }

  /** Where a note is held after a booking. */
  lemma BookedHolds(
    k: Keys, v: Wallet, w: Wallet, outs: seq<OutputBody>, spent: set<int>, p: int,
    spends: seq<Note>, outputs: seq<TxOutput>, blinding: AssetId -> Fq, now: nat)
    requires Booked(k, v, w, spends, outputs, blinding, now) && FreshChange(v, w)
    requires Owned(k, outs, p) && HeldAt(k, v, outs, spent, p)
    ensures HeldAt(k, w, outs, spent, p)
  {
    var c, cs := outs[p].noteCommitment, CommitSet(k, spends);
    hide CommitSet, SelfCommits, DistinctNotes;
    assert c in w.unspent <==> c in v.unspent && c !in cs;
    assert c in w.submittedSpend <==> c in v.submittedSpend || c in cs;
  }

  lemma BookedKeepsBooks(
    k: Keys, v: Wallet, w: Wallet, outs: seq<OutputBody>, spent: set<int>,
    spends: seq<Note>, outputs: seq<TxOutput>, blinding: AssetId -> Fq, now: nat)
    requires Books(k, v, outs, spent) && Booked(k, v, w, spends, outputs, blinding, now) && FreshChange(v, w)
    ensures Books(k, w, outs, spent) && w.lastBlockHeight == v.lastBlockHeight
  {
    hide HeldAt, IsOwned, FreshChange, CommitSet, SelfCommits, DistinctNotes;
    forall p | Owned(k, outs, p)
      ensures HeldAt(k, w, outs, spent, p)
    {
      BookedHolds(k, v, w, outs, spent, p, spends, outputs, blinding, now);
    }
    forall c | c in w.unspent || c in w.submittedSpend || c in w.spent || c in w.witnessed
      ensures IsOwned(k, outs, c)
    {
      assert c in w.submittedSpend ==> c in v.submittedSpend || c in v.unspent;
    }
  }

  lemma BuildKeepsOk(k: Keys, w: Wallet, m: Move, blocks: seq<CompactBlock>)
    requires WalletOk(k, w, blocks) && m.Build? && MoveEnabled(k, w, m)
    ensures WalletOk(k, m.after, blocks)
  {
    hide Books, FreshChange;
    var spends, outputs :| Booked(k, w, m.after, spends, outputs, m.blinding, m.now);
    hide Booked;
    BookedKeepsBooks(k, w, m.after, AllOutputs(blocks), SpentOutputs(k, blocks), spends, outputs, m.blinding, m.now);
  }

  lemma SimpleKeepsOk(k: Keys, w: Wallet, op: Op, blocks: seq<CompactBlock>)
    requires WalletOk(k, w, blocks) && Enabled(k, w, op) && !Scans(w, Simple(op))
    ensures WalletOk(k, Apply(k, w, op), blocks)
  {
    hide Books, Apply;
    OtherOpsKeepBooks(k, w, op, AllOutputs(blocks), SpentOutputs(k, blocks));
  }

  /**
   Under any interleaving of scans, spends, change, timeouts and builder calls the books are
   those of the blocks accepted.
   */
  lemma {:induction false} MovesKeepBooks(k: Keys, ms: seq<Move>)
    requires Separate(k) && MovesEnabled(k, ms) && UniqueCommitments(BlocksScanned(k, ms))
    ensures WalletOk(k, RunMoves(k, ms), BlocksScanned(k, ms))
  {
    hide Separate, WalletOk, UniqueCommitments, Enabled, SomeBooking, FreshChange, ScanBlock;
    if ms == [] {
      NewIsOk(k);
    } else {
      var init, m := ms[..|ms| - 1], ms[|ms| - 1];
      var w, blocks := RunMoves(k, init), BlocksScanned(k, init);
      if Scans(w, m) {
        UniquePrefix(blocks, m.op.block);
        MovesKeepBooks(k, init);
        ScanBlockOk(k, w, m.op.block, blocks);
      } else {
        assert BlocksScanned(k, ms) == blocks;
        MovesKeepBooks(k, init);
        if m.Build? {
          BuildKeepsOk(k, w, m, blocks);
        } else {
          SimpleKeepsOk(k, w, m.op, blocks);
        }
      }
    }
  }

  lemma NewIsOk(k: Keys)
    ensures WalletOk(k, NEW_WALLET, [])
  {
    NothingHeld(k);
  }

  /** Confluence with builder calls: runs that accepted the same blocks agree on all that blocks determine. */
  lemma MovesAreConfluent(k: Keys, a: seq<Move>, b: seq<Move>)
    requires Separate(k) && MovesEnabled(k, a) && MovesEnabled(k, b)
    requires BlocksScanned(k, a) == BlocksScanned(k, b) && UniqueCommitments(BlocksScanned(k, a))
    ensures var (v, w) := (RunMoves(k, a), RunMoves(k, b));
            && v.lastBlockHeight == w.lastBlockHeight && v.nct == w.nct && v.nullifierMap == w.nullifierMap
            && v.spent == w.spent && v.witnessed == w.witnessed && Unsettled(v) == Unsettled(w)
  {
    hide Separate, Books, RunMoves, BlocksScanned, MovesEnabled, UniqueCommitments;
    MovesKeepBooks(k, a);
    MovesKeepBooks(k, b);
    var blocks := BlocksScanned(k, a);
    BooksDetermine(k, RunMoves(k, a), RunMoves(k, b), AllOutputs(blocks), SpentOutputs(k, blocks));
  }

  /** In every such run the ready notes are filed, so the next builder can be called. */
  lemma MovesStayFiled(k: Keys, ms: seq<Move>)
    requires Separate(k) && GenuineNotes(k) && MovesEnabled(k, ms) && UniqueCommitments(BlocksScanned(k, ms))
    ensures Filed(k, RunMoves(k, ms))
  {
    hide Separate, RunMoves, BlocksScanned, MovesEnabled, UniqueCommitments;
    MovesKeepBooks(k, ms);
    var blocks := BlocksScanned(k, ms);
    BooksAreFiled(k, RunMoves(k, ms), AllOutputs(blocks), SpentOutputs(k, blocks));
  }
}
