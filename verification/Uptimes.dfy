/**
 Signing records of validators (stake/src/uptime.rs): a bit vector used as a
 ring buffer over the last `window` heights.
 */
module Uptimes {
  import opened Prelude
  import opened Rates

  datatype UptimeData = UptimeData(asOfBlockHeight: nat, signatures: seq<bool>) {

    function Mark(height: nat, signed: bool): Result<UptimeData, Failure> {
      if height != asOfBlockHeight + 1 then Err(UptimeHeight)
      else if |signatures| == 0 then Err(EmptyWindow)
      else Ok(UptimeData(height, signatures[height % |signatures| := signed]))
    }

    function Missed(): nat { Unsigned(signatures) }
  }

  function NewUptime(initialHeight: nat, window: nat): (u: UptimeData)
    ensures u.Missed() == 0
  {
    var u := UptimeData(initialHeight, seq(window, i => true));
    AllSigned(u.signatures);
    u
  }

  function Unsigned(bits: seq<bool>): nat {
    if bits == [] then 0 else Unsigned(bits[..|bits| - 1]) + (if bits[|bits| - 1] then 0 else 1)
  }

  lemma AllSigned(bits: seq<bool>)
    requires forall i :: 0 <= i < |bits| ==> bits[i]
    ensures Unsigned(bits) == 0
  {}

  /** Marks at consecutive heights, oldest vote first. */
  function MarkAll(u: UptimeData, votes: seq<bool>): Result<UptimeData, Failure> {
    if votes == [] then Ok(u)
    else
      var before :- MarkAll(u, votes[..|votes| - 1]);
      before.Mark(before.asOfBlockHeight + 1, votes[|votes| - 1])
  }

  function LastOf(votes: seq<bool>, window: nat): seq<bool> {
    if |votes| <= window then votes else votes[|votes| - window..]
  }

  /** The vote at height `h`; heights up to creation count as signed. */
  predicate SignedAt(initialHeight: nat, votes: seq<bool>, h: int)
    requires h <= initialHeight + |votes|
  {
    h <= initialHeight || votes[h - initialHeight - 1]
  }

  // ---------------------------------------------------------------------------------------------

  lemma {:induction false} UnsignedUpdate(bits: seq<bool>, i: nat, signed: bool)
    requires i < |bits|
    ensures Unsigned(bits[i := signed]) + (if bits[i] then 0 else 1) == Unsigned(bits) + (if signed then 0 else 1)
  {
    var n := |bits| - 1;
    if i == n {
      assert bits[i := signed][..n] == bits[..n];
    } else {
      UnsignedUpdate(bits[..n], i, signed);
      assert bits[i := signed][..n] == bits[..n][i := signed];
    }
  }

  lemma {:induction false} UnsignedCons(bits: seq<bool>)
    requires bits != []
    ensures Unsigned(bits) == (if bits[0] then 0 else 1) + Unsigned(bits[1..])
  {
    if |bits| > 1 {
      UnsignedCons(bits[..|bits| - 1]);
      assert bits[1..][..|bits| - 2] == bits[..|bits| - 1][1..];
    }
  }

  lemma WindowSlides(votes: seq<bool>, vote: bool, w: nat)
    requires w > 0
    ensures Unsigned(LastOf(votes + [vote], w)) + (if |votes| >= w && !votes[|votes| - w] then 1 else 0)
            == Unsigned(LastOf(votes, w)) + (if vote then 0 else 1)
  {
    var past, now := LastOf(votes, w), LastOf(votes + [vote], w);
    if |votes| < w {
      assert now[..|now| - 1] == past;
    } else {
      UnsignedCons(past);
      assert now[..|now| - 1] == past[1..];
    }
  }

  lemma NoMultipleBetween(q: int, d: int, w: int)
    requires d == q * w && -w < d < w
    ensures d == 0
  {
    if q >= 1 {
      MulMono(1, q, w);
      assert false;
    } else if q <= -1 {
      assert (-q) * w == -d;
      MulMono(1, -q, w);
      assert false;
    }
  }

  /** Within one window, two heights share a slot only if they are equal. */
  lemma SlotsDiffer(h: int, k: int, w: nat)
    requires w > 0 && k - w < h < k
    ensures h % w != k % w
  {
    var q := k / w - h / w;
    assert q * w == (k / w) * w - (h / w) * w;
    if h % w == k % w {
      NoMultipleBetween(q, k - h, w);
      assert false;
    }
  }

  /** Heights one window apart share a slot. */
  lemma SlotRepeats(k: int, w: nat)
    requires w > 0
    ensures (k - w) % w == k % w
  {
    var q := k / w - 1 - (k - w) / w;
    assert q * w == (k / w) * w - w - ((k - w) / w) * w;
    NoMultipleBetween(q, (k - w) % w - k % w, w);
  }

  /** Slot `h % w` holds the vote of height `h`, for each of the last `w` heights. */
  ghost predicate RingHolds(initialHeight: nat, votes: seq<bool>, u: UptimeData, w: nat)
    requires w > 0
  {
    && u.asOfBlockHeight == initialHeight + |votes|
    && |u.signatures| == w
    && forall h: int {:trigger SignedAt(initialHeight, votes, h)} ::
         u.asOfBlockHeight - w < h <= u.asOfBlockHeight ==> u.signatures[h % w] == SignedAt(initialHeight, votes, h)
  }

  lemma MarkKeepsRing(initialHeight: nat, votes: seq<bool>, u: UptimeData, w: nat, vote: bool)
    requires w > 0 && RingHolds(initialHeight, votes, u, w)
    ensures RingHolds(initialHeight, votes + [vote], u.Mark(u.asOfBlockHeight + 1, vote).value, w)
  {
    var k := u.asOfBlockHeight + 1;
    var r := u.Mark(k, vote).value;
    forall h: int | k - w < h <= k
      ensures r.signatures[h % w] == SignedAt(initialHeight, votes + [vote], h)
    {
      if h < k {
        SlotsDiffer(h, k, w);
        assert SignedAt(initialHeight, votes, h) == SignedAt(initialHeight, votes + [vote], h);
      }
    }
  }

  /** The slot about to be overwritten holds the vote that leaves the window. */
  lemma OldestSlot(initialHeight: nat, votes: seq<bool>, u: UptimeData, w: nat)
    requires w > 0 && RingHolds(initialHeight, votes, u, w)
    ensures u.signatures[(u.asOfBlockHeight + 1) % w] == !(|votes| >= w && !votes[|votes| - w])
  {
    var k := u.asOfBlockHeight + 1;
    SlotRepeats(k, w);
    assert SignedAt(initialHeight, votes, k - w) == (k - w <= initialHeight || votes[|votes| - w]);
  }

  lemma NothingSigned(initialHeight: nat, w: nat)
    requires w > 0
    ensures RingHolds(initialHeight, [], NewUptime(initialHeight, w), w) && Unsigned(LastOf([], w)) == 0
  {}

  /** The ring holds the votes of the last `w` heights, and its count is that of the unsigned ones. */
  ghost predicate Counts(initialHeight: nat, votes: seq<bool>, u: UptimeData, w: nat)
    requires w > 0
  {
    RingHolds(initialHeight, votes, u, w) && u.Missed() == Unsigned(LastOf(votes, w))
  }

  lemma NewCounts(initialHeight: nat, w: nat)
    requires w > 0
    ensures Counts(initialHeight, [], NewUptime(initialHeight, w), w)
  {
    assert NewUptime(initialHeight, w).Missed() == 0;
    NothingSigned(initialHeight, w);
  }

  lemma MarkCounts(initialHeight: nat, votes: seq<bool>, u: UptimeData, w: nat, vote: bool)
    requires w > 0 && Counts(initialHeight, votes, u, w)
    ensures var r := u.Mark(u.asOfBlockHeight + 1, vote); r.Ok? && Counts(initialHeight, votes + [vote], r.value, w)
  {
    hide SignedAt, LastOf, Unsigned;
    MarkKeepsRing(initialHeight, votes, u, w, vote);
    OldestSlot(initialHeight, votes, u, w);
    UnsignedUpdate(u.signatures, (u.asOfBlockHeight + 1) % w, vote);
    WindowSlides(votes, vote, w);
  }

  /**
   After any consecutive marks, slot `h % window` holds the vote of height `h`
   for each of the last `window` heights, and the missed count is the number of
   unsigned votes among the last `window` ones.
   */
  lemma {:induction false} MarksCountWindow(initialHeight: nat, w: nat, votes: seq<bool>)
    requires w > 0
    ensures var r := MarkAll(NewUptime(initialHeight, w), votes); r.Ok? && Counts(initialHeight, votes, r.value, w)
  {
    hide Counts;
    if votes == [] {
      NewCounts(initialHeight, w);
    } else {
      var n := |votes| - 1;
      MarksCountWindow(initialHeight, w, votes[..n]);
      assert votes[..n] + [votes[n]] == votes;
      MarkCounts(initialHeight, votes[..n], MarkAll(NewUptime(initialHeight, w), votes[..n]).value, w, votes[n]);
    }
  }

  // ---------------------------------------------------------------------------------------------

  /** The tracker object the staking component loads, marks and stores back. */
  class Uptime {
    var asOfBlockHeight: nat
    var signatures: array<bool>

    ghost function Data(): UptimeData
      reads this, signatures
    {
      UptimeData(asOfBlockHeight, signatures[..])
    }

    constructor (initialHeight: nat, window: nat)
      ensures fresh(signatures) && Data() == NewUptime(initialHeight, window)
    {
      asOfBlockHeight := initialHeight;
      signatures := new bool[window](i => true);
      new;
      assert signatures[..] == NewUptime(initialHeight, window).signatures;
    }

    constructor Load(data: UptimeData)
      ensures fresh(signatures) && Data() == data
    {
      asOfBlockHeight := data.asOfBlockHeight;
      signatures := new bool[|data.signatures|](i requires 0 <= i < |data.signatures| => data.signatures[i]);
      new;
      assert signatures[..] == data.signatures;
    }

    method MarkHeightAsSigned(height: nat, signed: bool) returns (r: Result<(), Failure>)
      modifies this, signatures
      ensures signatures == old(signatures)
      ensures r.Ok? <==> old(Data()).Mark(height, signed).Ok?
      ensures r.Ok? ==> Data() == old(Data()).Mark(height, signed).value
      ensures r.Err? ==> Data() == old(Data()) && r.error == old(Data()).Mark(height, signed).error
    {
      if height != asOfBlockHeight + 1 {
        return Err(UptimeHeight);
      }
      if signatures.Length == 0 {
        return Err(EmptyWindow);
      }
      var index := height % signatures.Length;
      signatures[index] := signed;
      asOfBlockHeight := height;
      return Ok(());
    }

    method NumMissedBlocks() returns (missed: nat)
      ensures missed == Data().Missed()
    {
      missed := 0;
      for i := 0 to signatures.Length
        invariant missed == Unsigned(signatures[..i])
      {
        assert signatures[..i + 1][..i] == signatures[..i];
        if !signatures[i] {
          missed := missed + 1;
        }
      }
      assert signatures[..signatures.Length] == signatures[..];
    }

    method Save() returns (data: UptimeData)
      ensures data == Data()
    {
      data := UptimeData(asOfBlockHeight, signatures[..]);
    }
  }
}
