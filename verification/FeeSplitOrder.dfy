/** When the fee split depends on the order of the recipients, and when it does not. */
module FeeSplitOrder {
  import opened Common
  import opened FeeSplit

  // ---- Reordering ----

  function Swapped<T>(s: seq<T>, i: nat, j: nat): (r: seq<T>)
    requires i < |s| && j < |s|
    ensures |r| == |s| && forall k :: 0 <= k < |s| ==> r[k] == s[Other(i, j, k)]
  {
    s[i := s[j]][j := s[i]]
  }

  function Other(i: nat, j: nat, k: nat): nat { if k == i then j else if k == j then i else k }

  predicate Positions(swaps: seq<(nat, nat)>, n: nat) {
    forall k :: 0 <= k < |swaps| ==> swaps[k].0 < n && swaps[k].1 < n
  }

  /** `s` after a list of exchanges of two positions; every order of its entries is one of these. */
  function Reordered<T>(s: seq<T>, swaps: seq<(nat, nat)>): (r: seq<T>)
    requires Positions(swaps, |s|)
    ensures |r| == |s|
  {
    if swaps == [] then s
    else Swapped(Reordered(s, swaps[..|swaps| - 1]), swaps[|swaps| - 1].0, swaps[|swaps| - 1].1)
  }

  lemma SumSwapped(s: seq<int>, i: nat, j: nat)
    requires i < |s| && j < |s|
    ensures Sum(Swapped(s, i, j)) == Sum(s)
  {
    SumUpdate(s, i, s[j]);
    SumUpdate(s[i := s[j]], j, s[i]);
  }

  /** Exchanging two recipients exchanges their floors and fractions and leaves the remainder. */
  lemma SwappedParts(amount: nat, w: seq<nat>, i: nat, j: nat)
    requires ValidWeights(w) && i < |w| && j < |w|
    ensures ValidWeights(Swapped(w, i, j))
    ensures Floors(amount, Swapped(w, i, j)) == Swapped(Floors(amount, w), i, j)
    ensures Fracs(amount, Swapped(w, i, j)) == Swapped(Fracs(amount, w), i, j)
    ensures Leftover(amount, Swapped(w, i, j)) == Leftover(amount, w)
  {
    SumSwapped(w, i, j);
    SumSwapped(Floors(amount, w), i, j);
  }

  // ---- A fraction that separates the rewarded from the rest ----

  /** Some rewarded recipient has the same fraction as some unrewarded one. */
  predicate TieAtCut(amount: nat, w: seq<nat>) {
    exists i, j :: 0 <= i < |w| && 0 <= j < |w| && Rewarded(amount, w, i) && !Rewarded(amount, w, j) &&
                   Frac(amount, w[i]) == Frac(amount, w[j])
  }

  predicate Rewarded(amount: nat, w: seq<nat>, i: nat)
    requires i < |w|
  {
    Rank(Fracs(amount, w), i) < Leftover(amount, w)
  }

  function AtLeast(f: seq<int>, v: int): set<int> { set k | 0 <= k < |f| && f[k] >= v }

  /** As many entries at least `v` as there are to reward: then exactly those are rewarded. */
  lemma UpperSetIsFirst(f: seq<int>, v: int, r: nat)
    requires r <= |f| && |AtLeast(f, v)| == r
    ensures First(f, r) == AtLeast(f, v)
  {
    FirstSize(f, r);
    forall k | k in AtLeast(f, v) ensures k in First(f, r) {
      SubsetSize(AheadOf(f, k), AtLeast(f, v) - {k});
    }
    SameSize(AtLeast(f, v), First(f, r));
  }

  lemma SameSize(a: set<int>, b: set<int>)
    requires a <= b && |a| == |b|
    ensures a == b
  {
    assert b == a + (b - a);
    if b - a != {} {
      var x := Pick(b - a);
      SubsetSize(a, b - {x});
    }
  }

  /** Without a tie the rewarded are exactly those whose fraction reaches the last rewarded one's. */
  lemma CutValue(amount: nat, w: seq<nat>) returns (v: int)
    requires ValidWeights(w) && !TieAtCut(amount, w)
    ensures First(Fracs(amount, w), Leftover(amount, w)) == AtLeast(Fracs(amount, w), v)
    ensures |AtLeast(Fracs(amount, w), v)| == Leftover(amount, w)
  {
    var f, r := Fracs(amount, w), Leftover(amount, w);
    LeftoverBound(amount, w);
    FirstSize(f, r);
    if r == 0 {
      v := BPS;
    } else {
      var last := LastServed(f, r);
      v := f[last];
      forall k | 0 <= k < |f| ensures Rank(f, k) < r <==> f[k] >= v {
        assert Rewarded(amount, w, last) && f[k] == Frac(amount, w[k]) && f[last] == Frac(amount, w[last]);
        if Ahead(f, k, last) { AheadShrinks(f, k, last); }
        if Ahead(f, last, k) { AheadShrinks(f, last, k); }
      }
    }
  }

  lemma SwappedAtLeast(f: seq<int>, v: int, i: nat, j: nat)
    requires i < |f| && j < |f|
    ensures |AtLeast(Swapped(f, i, j), v)| == |AtLeast(f, v)|
  {
    var f' := Swapped(f, i, j);
    forall k ensures k in AtLeast(f', v) <==> InExchanged(AtLeast(f, v), i, j, k) {}
    ExchangedSize(AtLeast(f, v), AtLeast(f', v), i, j);
  }

  predicate InExchanged(a: set<int>, i: int, j: int, k: int) {
    if k == i then j in a else if k == j then i in a else k in a
  }

  lemma ExchangedSize(a: set<int>, b: set<int>, i: int, j: int)
    requires forall k :: k in b <==> InExchanged(a, i, j, k)
    ensures |b| == |a|
  {
    var c := if i in a && j !in a then (a - {i}) + {j} else if j in a && i !in a then (a - {j}) + {i} else a;
    forall k ensures k in b <==> k in c {
      assert k in b <==> InExchanged(a, i, j, k);
    }
    assert b == c;
  }

  /** Without a tie, exchanging two recipients leaves who is rewarded as it was. */
  lemma SwapKeepsRewards(amount: nat, w: seq<nat>, i: nat, j: nat) returns (v: int)
    requires ValidWeights(w) && !TieAtCut(amount, w) && i < |w| && j < |w|
    ensures ValidWeights(Swapped(w, i, j))
    ensures First(Fracs(amount, w), Leftover(amount, w)) == AtLeast(Fracs(amount, w), v)
    ensures First(Fracs(amount, Swapped(w, i, j)), Leftover(amount, w)) == AtLeast(Fracs(amount, Swapped(w, i, j)), v)
  {
    hide Rank, AheadOf, TieAtCut, AtLeast, First;
    SwappedParts(amount, w, i, j);
    v := CutValue(amount, w);
    LeftoverBound(amount, w);
    SwappedAtLeast(Fracs(amount, w), v, i, j);
    UpperSetIsFirst(Fracs(amount, Swapped(w, i, j)), v, Leftover(amount, w));
  }

  lemma RewardedIff(f: seq<int>, r: int, v: int, k: nat)
    requires k < |f| && First(f, r) == AtLeast(f, v)
    ensures Rank(f, k) < r <==> f[k] >= v
  {
    hide Rank;
    assert k in First(f, r) <==> k in AtLeast(f, v);
  }

  /** Without a tie, exchanging two recipients exchanges their shares, and makes no tie. */
  lemma SwapKeepsShares(amount: nat, w: seq<nat>, i: nat, j: nat)
    requires ValidWeights(w) && !TieAtCut(amount, w) && i < |w| && j < |w|
    ensures ValidWeights(Swapped(w, i, j)) && !TieAtCut(amount, Swapped(w, i, j))
    ensures Shares(amount, Swapped(w, i, j)) == Swapped(Shares(amount, w), i, j)
  {
    SwappedParts(amount, w, i, j);
    var v := SwapKeepsRewards(amount, w, i, j);
    SeparatedHasNoTie(amount, Swapped(w, i, j), v);
    hide ValidWeights, TieAtCut, Leftover, First, AtLeast, Swapped;
    forall k | 0 <= k < |w| ensures Shares(amount, Swapped(w, i, j))[k] == Swapped(Shares(amount, w), i, j)[k] {
      SwappedShare(amount, w, i, j, v, k);
    }
  }

  lemma SeparatedHasNoTie(amount: nat, w: seq<nat>, v: int)
    requires First(Fracs(amount, w), Leftover(amount, w)) == AtLeast(Fracs(amount, w), v)
    ensures !TieAtCut(amount, w)
  {
    var f := Fracs(amount, w);
    forall k | 0 <= k < |w| ensures Rewarded(amount, w, k) <==> Frac(amount, w[k]) >= v {
      RewardedIff(f, Leftover(amount, w), v, k);
    }
    hide Rewarded, Frac;
  }

  lemma SwappedShare(amount: nat, w: seq<nat>, i: nat, j: nat, v: int, k: nat)
    requires i < |w| && j < |w| && k < |w| && Leftover(amount, Swapped(w, i, j)) == Leftover(amount, w)
    requires First(Fracs(amount, w), Leftover(amount, w)) == AtLeast(Fracs(amount, w), v)
    requires First(Fracs(amount, Swapped(w, i, j)), Leftover(amount, w)) == AtLeast(Fracs(amount, Swapped(w, i, j)), v)
    requires Fracs(amount, Swapped(w, i, j)) == Swapped(Fracs(amount, w), i, j)
    requires Floors(amount, Swapped(w, i, j)) == Swapped(Floors(amount, w), i, j)
    ensures Shares(amount, Swapped(w, i, j))[k] == Swapped(Shares(amount, w), i, j)[k]
  {
    var r := Leftover(amount, w);
    RewardedIff(Fracs(amount, Swapped(w, i, j)), r, v, k);
    RewardedIff(Fracs(amount, w), r, v, Other(i, j, k));
    hide Rank, Floor, Frac, Leftover, First, AtLeast;
    assert Floors(amount, Swapped(w, i, j))[k] == Floors(amount, w)[Other(i, j, k)];
  }

  lemma {:induction false} ReorderKeepsShares(amount: nat, w: seq<nat>, swaps: seq<(nat, nat)>)
    requires ValidWeights(w) && !TieAtCut(amount, w) && Positions(swaps, |w|)
    ensures ValidWeights(Reordered(w, swaps)) && !TieAtCut(amount, Reordered(w, swaps))
    ensures Shares(amount, Reordered(w, swaps)) == Reordered(Shares(amount, w), swaps)
  {
    hide ValidWeights, TieAtCut, Shares;
    if swaps != [] {
      var n := |swaps| - 1;
      ReorderKeepsShares(amount, w, swaps[..n]);
      SwapKeepsShares(amount, Reordered(w, swaps[..n]), swaps[n].0, swaps[n].1);
    }
  }

  /** The recipients get the same shares in this order as in the given one. */
  ghost predicate SameInOrder(amount: nat, w: seq<nat>, swaps: seq<(nat, nat)>) {
    Positions(swaps, |w|) ==> Shares(amount, Reordered(w, swaps)) == Reordered(Shares(amount, w), swaps)
  }

  /** The split is independent of the order of the map exactly when no tie lies across the cut. */
  lemma OrderIndependentIff(amount: nat, w: seq<nat>)
    requires ValidWeights(w)
    ensures (forall swaps :: SameInOrder(amount, w, swaps)) <==> !TieAtCut(amount, w)
  {
    if TieAtCut(amount, w) {
      var i, j :| 0 <= i < |w| && 0 <= j < |w| && Rewarded(amount, w, i) && !Rewarded(amount, w, j) &&
                  Frac(amount, w[i]) == Frac(amount, w[j]);
      TieDepends(amount, w, i, j);
      var swaps := [(i as nat, j as nat)];
      assert swaps[..0] == [] && Positions(swaps, |w|);
      assert Reordered(w, swaps) == Swapped(w, i, j);
      assert Reordered(Shares(amount, w), swaps) == Swapped(Shares(amount, w), i, j);
      assert !SameInOrder(amount, w, swaps);
    } else {
      forall swaps ensures SameInOrder(amount, w, swaps) {
        if Positions(swaps, |w|) { ReorderKeepsShares(amount, w, swaps); }
      }
    }
  }

  /** Exchanging a rewarded recipient with an unrewarded one of the same fraction moves the reward. */
  lemma TieDepends(amount: nat, w: seq<nat>, i: nat, j: nat)
    requires ValidWeights(w) && i < |w| && j < |w|
    requires Rewarded(amount, w, i) && !Rewarded(amount, w, j) && Frac(amount, w[i]) == Frac(amount, w[j])
    ensures Shares(amount, Swapped(w, i, j))[i] != Swapped(Shares(amount, w), i, j)[i]
  {
    SwappedParts(amount, w, i, j);
    assert Fracs(amount, Swapped(w, i, j)) == Fracs(amount, w);
    hide ValidWeights, Rank, Floor, Frac, Leftover;
    assert Floors(amount, Swapped(w, i, j))[i] == Floors(amount, w)[j];
  }
}
