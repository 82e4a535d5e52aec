/**
 Choice of the validators with most voting power
 (stake/src/component.rs:271-307): a stable descending sort, cut at the limit.
 The reference for it is a validator's rank, counted without sorting.
 */
module ActiveSet {
  import opened Prelude
  import opened Rates

  datatype VPower = VPower(identityKey: IdentityKey, power: nat, state: ValidatorState)

  function InsertDescending(x: VPower, s: seq<VPower>): (r: seq<VPower>)
    ensures |r| == |s| + 1
  {
    if s == [] || s[0].power < x.power then [x] + s
    else [s[0]] + InsertDescending(x, s[1..])
  }

  /** Stable sort by voting power, largest first. */
  function SortDescending(l: seq<VPower>): (r: seq<VPower>)
    ensures |r| == |l|
  {
    if l == [] then [] else InsertDescending(l[|l| - 1], SortDescending(l[..|l| - 1]))
  }

  function Powered(s: seq<VPower>): seq<IdentityKey> {
    if s == [] then []
    else Powered(s[..|s| - 1]) + (if s[|s| - 1].power > 0 then [s[|s| - 1].identityKey] else [])
  }

  /** Identity keys of the first `limit` entries that have any power. */
  function TopValidators(sorted: seq<VPower>, limit: nat): seq<IdentityKey> {
    Powered(if limit <= |sorted| then sorted[..limit] else sorted)
  }

  // ---------------------------------------------------------------------------------------------
  // Reference: rank by power, ties broken by list order
  // ---------------------------------------------------------------------------------------------

  ghost predicate Outranks(l: seq<VPower>, j: nat, i: nat)
    requires j < |l| && i < |l|
  {
    l[j].power > l[i].power || (l[j].power == l[i].power && j < i)
  }

  ghost function CountOutranking(l: seq<VPower>, i: nat, n: nat): nat
    requires i < |l| && n <= |l|
  {
    if n == 0 then 0 else CountOutranking(l, i, n - 1) + (if Outranks(l, n - 1, i) then 1 else 0)
  }

  /** The number of validators that outrank the `i`-th. */
  ghost function Rank(l: seq<VPower>, i: nat): nat
    requires i < |l|
  {
    CountOutranking(l, i, |l|)
  }

  ghost predicate Descending(s: seq<VPower>) {
    forall i, j :: 0 <= i < j < |s| ==> s[i].power >= s[j].power
  }

  ghost predicate DistinctKeys(s: seq<VPower>) {
    forall i, j :: 0 <= i < j < |s| ==> s[i].identityKey != s[j].identityKey
  }

  // ---------------------------------------------------------------------------------------------

  /** How many entries of a list have power at least `p`. */
  ghost function AtLeast(s: seq<VPower>, p: nat): nat {
    if s == [] then 0 else AtLeast(s[..|s| - 1], p) + (if s[|s| - 1].power >= p then 1 else 0)
  }

  lemma {:induction false} AtLeastCons(s: seq<VPower>, p: nat)
    requires s != []
    ensures AtLeast(s, p) == (if s[0].power >= p then 1 else 0) + AtLeast(s[1..], p)
  {
    if |s| > 1 {
      AtLeastCons(s[..|s| - 1], p);
      assert s[1..][..|s| - 2] == s[..|s| - 1][1..];
    }
  }

  /** In a descending list the entries of power at least `p` are exactly the first `AtLeast(s, p)`. */
  lemma {:induction false} AtLeastSplits(s: seq<VPower>, p: nat)
    requires Descending(s)
    ensures AtLeast(s, p) <= |s|
    ensures forall k :: 0 <= k < |s| ==> (s[k].power >= p <==> k < AtLeast(s, p))
  {
    if s != [] {
      AtLeastSplits(s[..|s| - 1], p);
    }
  }

  /** Insertion puts the new entry behind every entry of at least its power and shifts the rest. */
  lemma {:induction false} InsertAt(x: VPower, s: seq<VPower>)
    requires Descending(s)
    ensures AtLeast(s, x.power) <= |s|
    ensures InsertDescending(x, s) == InsertedAt(x, s, AtLeast(s, x.power))
  {
    AtLeastSplits(s, x.power);
    var k := AtLeast(s, x.power);
    if s == [] || s[0].power < x.power {
      assert k == 0;
      assert s[..0] == [] && s[0..] == s;
    } else {
      AtLeastCons(s, x.power);
      InsertAt(x, s[1..]);
      ConsInserted(x, s, k);
    }
  }

  ghost function InsertedAt(x: VPower, s: seq<VPower>, k: nat): seq<VPower>
    requires k <= |s|
  {
    s[..k] + [x] + s[k..]
  }

  lemma ConsInserted(x: VPower, s: seq<VPower>, k: nat)
    requires 0 < k <= |s|
    ensures [s[0]] + InsertedAt(x, s[1..], k - 1) == InsertedAt(x, s, k)
  {
    assert [s[0]] + s[1..][..k - 1] == s[..k];
    assert s[1..][k - 1..] == s[k..];
  }

  lemma {:induction false} SortIsDescending(l: seq<VPower>)
    ensures Descending(SortDescending(l))
  {
    if l != [] {
      var x := l[|l| - 1];
      var s := SortDescending(l[..|l| - 1]);
      SortIsDescending(l[..|l| - 1]);
      InsertAt(x, s);
      InsertedIsDescending(x, s);
    }
  }

  lemma InsertedIsDescending(x: VPower, s: seq<VPower>)
    requires Descending(s) && AtLeast(s, x.power) <= |s|
    ensures Descending(InsertedAt(x, s, AtLeast(s, x.power)))
  {
    AtLeastSplits(s, x.power);
  }

  lemma {:induction false} SortPermutes(l: seq<VPower>)
    ensures multiset(SortDescending(l)) == multiset(l)
  {
    if l != [] {
      var init, x := l[..|l| - 1], l[|l| - 1];
      var s := SortDescending(init);
      assert SortDescending(l) == InsertDescending(x, s);
      hide SortDescending, InsertDescending, AtLeast, InsertedAt;
      SortPermutes(init);
      SortIsDescending(init);
      InsertAt(x, s);
      hide Descending;
      InsertedPermutes(x, s, AtLeast(s, x.power));
      assert multiset(l) == multiset(init) + multiset{x} by { assert l == init + [x]; }
    }
  }

  lemma InsertedPermutes(x: VPower, s: seq<VPower>, k: nat)
    requires k <= |s|
    ensures multiset(InsertedAt(x, s, k)) == multiset(s) + multiset{x}
  {
    assert s == s[..k] + s[k..];
  }

  lemma {:induction false} AtLeastOfSorted(l: seq<VPower>, p: nat)
    ensures AtLeast(SortDescending(l), p) == AtLeast(l, p)
  {
    if l != [] {
      var x := l[|l| - 1];
      var s := SortDescending(l[..|l| - 1]);
      SortIsDescending(l[..|l| - 1]);
      AtLeastOfSorted(l[..|l| - 1], p);
      InsertAt(x, s);
      AtLeastInsert(s, x, AtLeast(s, x.power), p);
    }
  }

  lemma {:induction false} AtLeastInsert(s: seq<VPower>, x: VPower, k: nat, p: nat)
    requires k <= |s|
    ensures AtLeast(InsertedAt(x, s, k), p) == AtLeast(s, p) + (if x.power >= p then 1 else 0)
    decreases |s|
  {
    var t := InsertedAt(x, s, k);
    if k == |s| {
      assert t[..|t| - 1] == s;
    } else {
      var s' := s[..|s| - 1];
      AtLeastInsert(s', x, k, p);
      assert t[..|t| - 1] == InsertedAt(x, s', k);
    }
  }

  lemma {:induction false} CountOfNewest(l: seq<VPower>, n: nat)
    requires n < |l|
    ensures CountOutranking(l, |l| - 1, n) == AtLeast(l[..n], l[|l| - 1].power)
  {
    if n > 0 {
      CountOfNewest(l, n - 1);
      assert l[..n][..n - 1] == l[..n - 1];
    }
  }

  lemma {:induction false} CountPrefix(l: seq<VPower>, i: nat, n: nat)
    requires l != [] && i < |l| - 1 && n <= |l| - 1
    ensures CountOutranking(l, i, n) == CountOutranking(l[..|l| - 1], i, n)
  {
    if n > 0 {
      CountPrefix(l, i, n - 1);
    }
  }

  /** The newest validator is outranked by the older ones of at least its power. */
  lemma RankOfNewest(l: seq<VPower>)
    requires l != []
    ensures Rank(l, |l| - 1) == AtLeast(l[..|l| - 1], l[|l| - 1].power)
  {
    CountOfNewest(l, |l| - 1);
  }

  /** The newest validator pushes down the older ones of less power. */
  lemma RankOfOlder(l: seq<VPower>, i: nat)
    requires i < |l| - 1
    ensures Rank(l, i) == Rank(l[..|l| - 1], i) + (if l[|l| - 1].power > l[i].power then 1 else 0)
  {
    CountPrefix(l, i, |l| - 1);
  }

  /** Sorting places every validator at its rank. */
  lemma {:induction false} SortedByRank(l: seq<VPower>, i: nat)
    requires i < |l|
    ensures Rank(l, i) < |l| && SortDescending(l)[Rank(l, i)] == l[i]
  {
    var n := |l| - 1;
    var init, x := l[..n], l[n];
    var s := SortDescending(init);
    assert SortDescending(l) == InsertDescending(x, s);
    hide Rank, AtLeast, InsertDescending, SortDescending;
    SortIsDescending(init);
    InsertAt(x, s);
    AtLeastSplits(s, x.power);
    hide Descending;
    if i == n {
      RankOfNewest(l);
      AtLeastOfSorted(init, x.power);
    } else {
      SortedByRank(init, i);
      RankOfOlder(l, i);
    }
  }

  lemma {:induction false} InPowered(s: seq<VPower>, id: IdentityKey)
    ensures id in Powered(s) <==> exists k :: 0 <= k < |s| && s[k].identityKey == id && s[k].power > 0
  {
    if s != [] {
      InPowered(s[..|s| - 1], id);
    }
  }

  lemma KeysOfPrefix(l: seq<VPower>)
    requires l != [] && DistinctKeys(l)
    ensures DistinctKeys(l[..|l| - 1])
    ensures forall y :: y in multiset(l[..|l| - 1]) ==> y.identityKey != l[|l| - 1].identityKey
  {}

  lemma {:induction false} SortKeepsKeysDistinct(l: seq<VPower>)
    requires DistinctKeys(l)
    ensures DistinctKeys(SortDescending(l))
  {
    if l != [] {
      hide DistinctKeys, InsertedAt, AtLeast, Descending;
      var init, x := l[..|l| - 1], l[|l| - 1];
      var s := SortDescending(init);
      KeysOfPrefix(l);
      SortKeepsKeysDistinct(init);
      SortIsDescending(init);
      SortPermutes(init);
      InsertAt(x, s);
      forall k | 0 <= k < |s|
        ensures s[k].identityKey != x.identityKey
      {
        assert s[k] in multiset(init);
      }
      InsertedKeepsKeysDistinct(x, s, AtLeast(s, x.power));
    }
  }

  lemma InsertedKeepsKeysDistinct(x: VPower, s: seq<VPower>, k: nat)
    requires k <= |s| && DistinctKeys(s) && forall i :: 0 <= i < |s| ==> s[i].identityKey != x.identityKey
    ensures DistinctKeys(InsertedAt(x, s, k))
  {}

  /** A validator is chosen exactly when it has power and fewer than `limit` others outrank it. */
  lemma TopIsByRank(l: seq<VPower>, limit: nat, i: nat)
    requires i < |l| && DistinctKeys(l)
    ensures l[i].identityKey in TopValidators(SortDescending(l), limit) <==> l[i].power > 0 && Rank(l, i) < limit
  {
    hide SortDescending, Rank, Powered;
    SortedByRank(l, i);
    SortKeepsKeysDistinct(l);
    InTop(SortDescending(l), limit, Rank(l, i));
  }

  lemma InTop(sorted: seq<VPower>, limit: nat, r: nat)
    requires r < |sorted| && DistinctKeys(sorted)
    ensures sorted[r].identityKey in TopValidators(sorted, limit) <==> sorted[r].power > 0 && r < limit
  {
    hide Powered;
    var cut := if limit <= |sorted| then sorted[..limit] else sorted;
    InPowered(cut, sorted[r].identityKey);
    if sorted[r].power > 0 && r < limit {
      assert cut[r] == sorted[r];
    }
  }

  lemma {:induction false} PoweredIsDistinct(s: seq<VPower>)
    requires DistinctKeys(s)
    ensures Distinct(Powered(s)) && |Powered(s)| <= |s|
  {
    if s != [] {
      PoweredIsDistinct(s[..|s| - 1]);
      InPowered(s[..|s| - 1], s[|s| - 1].identityKey);
    }
  }

  /** At most `limit` validators are chosen, and each is one of the candidates. */
  lemma TopIsBounded(l: seq<VPower>, limit: nat)
    requires DistinctKeys(l)
    ensures |TopValidators(SortDescending(l), limit)| <= limit
    ensures Distinct(TopValidators(SortDescending(l), limit))
  {
    var sorted := SortDescending(l);
    SortKeepsKeysDistinct(l);
    PoweredIsDistinct(if limit <= |sorted| then sorted[..limit] else sorted);
  }

  /** No validator left out has more power than one chosen. */
  lemma NoStrongerOutside(l: seq<VPower>, limit: nat, i: nat, o: nat)
    requires i < |l| && o < |l| && DistinctKeys(l)
    requires l[i].identityKey in TopValidators(SortDescending(l), limit)
    requires l[o].identityKey !in TopValidators(SortDescending(l), limit)
    ensures l[o].power <= l[i].power
  {
    TopIsByRank(l, limit, i);
    TopIsByRank(l, limit, o);
    SortedByRank(l, i);
    SortedByRank(l, o);
    SortIsDescending(l);
  }
}
