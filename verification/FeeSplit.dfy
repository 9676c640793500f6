/**
 * The largest-remainder allocation at the heart of `distribute_fee`, and the
 * validation of a split map by `set_fee_split`.
 */
module FeeSplit {
  import opened Common

  const BPS: int := 10_000
  const MAX_FEE_SPLIT_RECIPIENTS: nat := 10

  // ---- Reference definition: who is ahead of whom, and who gets a leftover stroop ----

  predicate ValidWeights(w: seq<nat>) {
    && 1 <= |w| <= MAX_FEE_SPLIT_RECIPIENTS
    && (forall i :: 0 <= i < |w| ==> 0 < w[i])
    && Sum(w) == BPS
  }

  function Product(amount: nat, bps: nat): nat { amount * bps }

  function Floor(amount: nat, bps: nat): nat { Product(amount, bps) / 10_000 }

  function Frac(amount: nat, bps: nat): nat { Product(amount, bps) % 10_000 }

  function Floors(amount: nat, w: seq<nat>): (s: seq<int>)
    ensures |s| == |w|
  {
    seq(|w|, i requires 0 <= i < |w| => Floor(amount, w[i]))
  }

  function Fracs(amount: nat, w: seq<nat>): (s: seq<int>)
    ensures |s| == |w|
    ensures forall i :: 0 <= i < |s| ==> 0 <= s[i] < BPS
  {
    seq(|w|, i requires 0 <= i < |w| => Frac(amount, w[i]))
  }

  /** A larger fraction goes first; equal fractions go in map order. */
  predicate Ahead(f: seq<int>, j: int, i: int)
    requires 0 <= i < |f| && 0 <= j < |f|
  {
    f[j] > f[i] || (f[j] == f[i] && j < i)
  }

  function AheadOf(f: seq<int>, i: int): set<int>
    requires 0 <= i < |f|
  {
    set j | 0 <= j < |f| && Ahead(f, j, i)
  }

  /** Position of entry `i` in the queue for leftover stroops. */
  function Rank(f: seq<int>, i: int): nat
    requires 0 <= i < |f|
  {
    |AheadOf(f, i)|
  }

  function Leftover(amount: nat, w: seq<nat>): int { amount - Sum(Floors(amount, w)) }

  /** The allocation: everyone gets the floor, the first `Leftover` in the queue get one more. */
  function Shares(amount: nat, w: seq<nat>): (s: seq<int>)
    ensures |s| == |w|
  {
    seq(|w|, i requires 0 <= i < |w| =>
      Floor(amount, w[i]) + if Rank(Fracs(amount, w), i) < Leftover(amount, w) then 1 else 0)
  }

  /** Every product the contract forms fits in an `i128`. */
  predicate Fits(amount: nat, w: seq<nat>) {
    forall i :: 0 <= i < |w| ==> Product(amount, w[i]) <= I128_MAX
  }

  // ---- Arithmetic of floors and fractions ----

  lemma FloorFrac(amount: nat, bps: nat)
    ensures BPS * Floor(amount, bps) + Frac(amount, bps) == amount * bps
  {
  }

  lemma {:induction false} FloorsAndFracs(amount: nat, w: seq<nat>)
    ensures BPS * Sum(Floors(amount, w)) + Sum(Fracs(amount, w)) == amount * Sum(w)
  {
    if w != [] {
      var p, b := w[..|w| - 1], w[|w| - 1];
      FloorsAndFracs(amount, p);
      assert Floors(amount, w)[..|w| - 1] == Floors(amount, p);
      assert Fracs(amount, w)[..|w| - 1] == Fracs(amount, p);
      FloorFrac(amount, b);
      assert amount * Sum(w) == amount * Sum(p) + amount * b;
    }
  }

  lemma FracsTotal(amount: nat, w: seq<nat>)
    requires ValidWeights(w)
    ensures Sum(Fracs(amount, w)) == BPS * Leftover(amount, w)
  {
    FloorsAndFracs(amount, w);
  }

  lemma {:induction false} SumNonNegative(s: seq<int>)
    requires forall i :: 0 <= i < |s| ==> 0 <= s[i]
    ensures 0 <= Sum(s)
    ensures forall i :: 0 <= i < |s| ==> s[i] <= Sum(s)
  {
    if s != [] {
      SumNonNegative(s[..|s| - 1]);
      forall i | 0 <= i < |s| ensures s[i] <= Sum(s) {
        if i < |s| - 1 { assert s[..|s| - 1][i] == s[i]; }
      }
    }
  }

  function Positives(s: seq<int>): set<int> { set i | 0 <= i < |s| && s[i] > 0 }

  lemma {:induction false} SumBelowPositives(s: seq<int>)
    requires forall i :: 0 <= i < |s| ==> 0 <= s[i] < BPS
    ensures Sum(s) <= (BPS - 1) * |Positives(s)|
    ensures |Positives(s)| <= |s|
  {
    if s != [] {
      var p := s[..|s| - 1];
      SumBelowPositives(p);
      if s[|s| - 1] > 0 {
        assert Positives(s) == Positives(p) + {|s| - 1};
      } else {
        assert Positives(s) == Positives(p);
      }
    }
  }

  /** At most as many leftover stroops as there are positive fractions. */
  lemma LeftoverBound(amount: nat, w: seq<nat>)
    requires ValidWeights(w)
    ensures 0 <= Leftover(amount, w) <= |Positives(Fracs(amount, w))| <= |w|
    ensures Leftover(amount, w) > 0 ==> Leftover(amount, w) < |Positives(Fracs(amount, w))|
  {
    FracsTotal(amount, w);
    SumNonNegative(Fracs(amount, w));
    SumBelowPositives(Fracs(amount, w));
  }

  // ---- The queue is a strict total order, so its first k places hold k entries ----

  lemma AheadShrinks(f: seq<int>, j: int, i: int)
    requires 0 <= i < |f| && 0 <= j < |f| && Ahead(f, j, i)
    ensures Rank(f, j) < Rank(f, i)
  {
    SmallerSet(AheadOf(f, j), AheadOf(f, i), j);
  }

  lemma SmallerSet(a: set<int>, b: set<int>, x: int)
    requires a <= b && x in b && x !in a
    ensures |a| < |b|
  {
    var c := b - {x};
    SubsetSize(a, c);
  }

  function First(f: seq<int>, k: int): set<int> { set i | 0 <= i < |f| && Rank(f, i) < k }

  predicate Unserved(f: seq<int>, k: int, i: int) { 0 <= i < |f| && Rank(f, i) >= k }

  /** An unserved entry that no unserved entry is ahead of is exactly next in the queue. */
  lemma NextInQueue(f: seq<int>, k: nat, best: int)
    requires |First(f, k)| == k
    requires Unserved(f, k, best)
    requires forall i :: Unserved(f, k, i) ==> !Ahead(f, i, best)
    ensures Rank(f, best) == k
    ensures First(f, k + 1) == First(f, k) + {best}
    ensures |First(f, k + 1)| == k + 1
    ensures forall i :: 0 <= i < |f| ==> (Rank(f, i) < k + 1 <==> Rank(f, i) < k || i == best)
  {
    forall i | 0 <= i < |f| ensures i in AheadOf(f, best) <==> i in First(f, k) {
      if i in First(f, k) {
        if Ahead(f, best, i) { AheadShrinks(f, best, i); }
        assert i != best;
      } else {
        assert Unserved(f, k, i);
      }
    }
    assert AheadOf(f, best) == First(f, k);
    forall i | 0 <= i < |f| ensures i in First(f, k + 1) <==> i in First(f, k) + {best} {
      if Unserved(f, k, i) && i != best {
        assert Ahead(f, best, i);
        AheadShrinks(f, best, i);
      }
    }
    forall i | 0 <= i < |f| ensures Rank(f, i) < k + 1 <==> Rank(f, i) < k || i == best {
      assert i in First(f, k + 1) <==> i in First(f, k) + {best};
    }
  }

  lemma {:induction false} FindBest(f: seq<int>, s: set<int>) returns (best: int)
    requires s != {} && forall i :: i in s ==> 0 <= i < |f|
    ensures best in s && forall i :: i in s ==> !Ahead(f, i, best)
  {
    var x := Pick(s);
    if s - {x} == {} {
      best := x;
      forall i | i in s ensures !Ahead(f, i, best) {
        assert i in s - {x} || i == x;
      }
    } else {
      var b := FindBest(f, s - {x});
      best := if Ahead(f, x, b) then x else b;
      forall i | i in s ensures !Ahead(f, i, best) {
        assert i == x || i in s - {x};
      }
    }
  }

  lemma SomeoneUnserved(f: seq<int>, k: nat) returns (rest: set<int>)
    requires |First(f, k)| == k < |f|
    ensures rest != {} && forall i :: i in rest <==> Unserved(f, k, i)
  {
    rest := Interval(0, |f|) - First(f, k);
    SubsetSize(Interval(0, |f|) - rest, First(f, k));
    assert Interval(0, |f|) - {} == Interval(0, |f|);
  }

  lemma {:induction false} FirstSize(f: seq<int>, k: nat)
    requires k <= |f|
    ensures |First(f, k)| == k
  {
    if k == 0 {
      assert First(f, 0) == {};
    } else {
      FirstSize(f, k - 1);
      var rest := SomeoneUnserved(f, k - 1);
      var best := FindBest(f, rest);
      NextInQueue(f, k - 1, best);
    }
  }

  // ---- What the allocation promises ----

  /** A leftover stroop only goes to an entry whose exact share is not whole. */
  lemma AwardedIsFractional(amount: nat, w: seq<nat>, i: nat)
    requires ValidWeights(w) && i < |w|
    requires Rank(Fracs(amount, w), i) < Leftover(amount, w)
    ensures Frac(amount, w[i]) > 0
  {
    var f := Fracs(amount, w);
    LeftoverBound(amount, w);
    if f[i] == 0 {
      assert Positives(f) <= AheadOf(f, i);
      SubsetSize(Positives(f), AheadOf(f, i));
    }
  }

  lemma {:induction false} SumWithAwards(base: seq<int>, s: seq<int>, chosen: set<int>)
    requires |base| == |s|
    requires forall i :: 0 <= i < |s| ==> s[i] == base[i] + if i in chosen then 1 else 0
    requires forall i :: i in chosen ==> 0 <= i < |s|
    ensures Sum(s) == Sum(base) + |chosen|
  {
    if s == [] {
      if chosen != {} { var _ := Pick(chosen); }
    } else {
      var n := |s| - 1;
      SumWithAwards(base[..n], s[..n], chosen - {n});
      if n in chosen {
        assert chosen == (chosen - {n}) + {n};
      } else {
        assert chosen - {n} == chosen;
      }
    }
  }

  /** The shares always add up to the amount. */
  lemma SharesSum(amount: nat, w: seq<nat>)
    requires ValidWeights(w)
    ensures Sum(Shares(amount, w)) == amount
  {
    LeftoverBound(amount, w);
    FirstSize(Fracs(amount, w), Leftover(amount, w));
    SumWithAwards(Floors(amount, w), Shares(amount, w), First(Fracs(amount, w), Leftover(amount, w)));
  }

  /** Each share is the floor or the ceiling of the exact proportional share. */
  lemma SharesFloorOrCeiling(amount: nat, w: seq<nat>, i: nat)
    requires ValidWeights(w) && i < |w|
    ensures BPS * Shares(amount, w)[i] - BPS < amount * w[i] < BPS * Shares(amount, w)[i] + BPS
    ensures 0 <= Shares(amount, w)[i] <= amount
  {
    FloorFrac(amount, w[i]);
    if Rank(Fracs(amount, w), i) < Leftover(amount, w) {
      AwardedIsFractional(amount, w, i);
    }
    SharesSum(amount, w);
    SumNonNegative(Shares(amount, w));
  }

  /** Every rewarded entry has at least the fraction of every unrewarded one; ties go to the lower position. */
  lemma AwardsFollowTheQueue(amount: nat, w: seq<nat>, i: nat, j: nat)
    requires ValidWeights(w) && i < |w| && j < |w|
    requires Shares(amount, w)[i] == Floor(amount, w[i]) + 1
    requires Shares(amount, w)[j] == Floor(amount, w[j])
    ensures Frac(amount, w[i]) >= Frac(amount, w[j])
    ensures Frac(amount, w[i]) == Frac(amount, w[j]) ==> i < j
  {
    var f := Fracs(amount, w);
    if Ahead(f, j, i) { AheadShrinks(f, j, i); }
    assert f[i] == Frac(amount, w[i]) && f[j] == Frac(amount, w[j]);
  }

  // ---- Optimality ----

  function Abs(x: int): int { if x < 0 then -x else x }

  /** The exact proportional shares, in 1/10000 stroop. */
  function Targets(amount: nat, w: seq<nat>): (t: seq<int>)
    ensures |t| == |w|
  {
    Scaled(amount, w)
  }

  /** How far each entry is from its target, in 1/10000 stroop. */
  function Distances(targets: seq<int>, alloc: seq<int>): (d: seq<int>)
    requires |alloc| == |targets|
    ensures |d| == |alloc|
  {
    seq(|alloc|, i requires 0 <= i < |alloc| => Abs(BPS * alloc[i] - targets[i]))
  }

  /** Total distance of an allocation from the exact proportional shares. */
  function Deviation(targets: seq<int>, alloc: seq<int>): int
    requires |alloc| == |targets|
  {
    Sum(Distances(targets, alloc))
  }

  /** Moving one entry from `share` to `x` costs at least `slope` per stroop. */
  predicate CostsAtLeast(target: int, share: int, slope: int, x: int) {
    Abs(BPS * x - target) >= Abs(BPS * share - target) + slope * (x - share)
  }

  /** An entry's distance is convex in its share; `BPS - 2 * t` is a slope of it at `share`. */
  lemma SlopeAt(target: int, floor: int, frac: int, share: int, t: int, x: int)
    requires target == BPS * floor + frac && 0 <= frac < BPS && 0 <= t <= BPS
    requires (share == floor + 1 && t <= frac) || (share == floor && frac <= t)
    ensures CostsAtLeast(target, share, BPS - 2 * t, x)
  {
    var d := x - share;
    var slope := BPS - 2 * t;
    if d >= 1 {
      MulUp(slope, BPS, d);
      if share == floor {
        // the first step up costs BPS - 2 * frac, every later one BPS
        assert slope * d == slope + slope * (d - 1);
        MulUp(slope, BPS, d - 1);
      }
    } else if d <= -1 {
      MulUp(-BPS, slope, -d);
      assert slope * d == -(slope * -d);
      if share == floor + 1 {
        assert slope * -d == slope + slope * (-d - 1);
        MulUp(-BPS, slope, -d - 1);
      }
    }
  }

  lemma MulUp(a: int, b: int, d: nat)
    requires a <= b
    ensures a * d <= b * d
  {
    assert b * d - a * d == (b - a) * d;
  }

  lemma {:induction false} SumDominates(a: seq<int>, b: seq<int>, e: seq<int>)
    requires |a| == |b| == |e|
    requires forall i :: 0 <= i < |a| ==> a[i] >= b[i] + e[i]
    ensures Sum(a) >= Sum(b) + Sum(e)
  {
    if a != [] {
      var n := |a| - 1;
      SumDominates(a[..n], b[..n], e[..n]);
    }
  }

  function Minus(a: seq<int>, b: seq<int>): (d: seq<int>)
    requires |a| == |b|
    ensures |d| == |a|
  {
    seq(|a|, i requires 0 <= i < |a| => a[i] - b[i])
  }

  lemma {:induction false} SumMinus(a: seq<int>, b: seq<int>)
    requires |a| == |b|
    ensures Sum(Minus(a, b)) == Sum(a) - Sum(b)
  {
    if a != [] {
      var n := |a| - 1;
      SumMinus(a[..n], b[..n]);
      assert Minus(a, b)[..n] == Minus(a[..n], b[..n]);
    }
  }

  function Scaled(k: int, d: seq<int>): (e: seq<int>)
    ensures |e| == |d|
  {
    seq(|d|, i requires 0 <= i < |d| => k * d[i])
  }

  lemma {:induction false} SumScaled(k: int, d: seq<int>)
    ensures Sum(Scaled(k, d)) == k * Sum(d)
  {
    if d != [] {
      var n := |d| - 1;
      SumScaled(k, d[..n]);
      assert Scaled(k, d)[..n] == Scaled(k, d[..n]);
      Distribute(k, Sum(d[..n]), d[n]);
    }
  }

  lemma Distribute(a: int, b: int, c: int)
    ensures a * (b + c) == a * b + a * c
  {
  }

  /** `t` is at most the fraction of a rewarded entry and at least that of an unrewarded one. */
  predicate Separates(amount: nat, w: seq<nat>, i: nat, t: int)
    requires i < |w|
  {
    var s, f := Shares(amount, w)[i], Frac(amount, w[i]);
    (s == Floor(amount, w[i]) + 1 && t <= f) || (s == Floor(amount, w[i]) && f <= t)
  }

  /** Moving entry `i` from its share to `alloc[i]` costs at least one common slope per stroop. */
  lemma ShareSlope(amount: nat, w: seq<nat>, i: nat, t: int, x: int)
    requires ValidWeights(w) && i < |w| && 0 <= t < BPS
    requires Separates(amount, w, i, t)
    ensures CostsAtLeast(Targets(amount, w)[i], Shares(amount, w)[i], BPS - 2 * t, x)
  {
    FloorFrac(amount, w[i]);
    SlopeAt(amount * w[i], Floor(amount, w[i]), Frac(amount, w[i]), Shares(amount, w)[i], t, x);
  }

  /** What moving from the shares to `alloc` costs entry by entry, for one common slope. */
  lemma MovesCost(amount: nat, w: seq<nat>, alloc: seq<int>) returns (costs: seq<int>, slope: int)
    requires ValidWeights(w) && |alloc| == |w|
    ensures costs == Scaled(slope, Minus(alloc, Shares(amount, w)))
    ensures forall i :: 0 <= i < |w| ==>
      Distances(Targets(amount, w), alloc)[i] >= Distances(Targets(amount, w), Shares(amount, w))[i] + costs[i]
  {
    var t := Threshold(amount, w);
    slope := BPS - 2 * t;
    costs := Scaled(slope, Minus(alloc, Shares(amount, w)));
    forall i | 0 <= i < |w|
      ensures Distances(Targets(amount, w), alloc)[i] >= Distances(Targets(amount, w), Shares(amount, w))[i] + costs[i]
    {
      assert Separates(amount, w, i, t);
      ShareSlope(amount, w, i, t, alloc[i]);
    }
  }

  /** No integer allocation of the whole amount is closer to the exact proportional shares. */
  lemma SharesOptimal(amount: nat, w: seq<nat>, alloc: seq<int>)
    requires ValidWeights(w)
    requires |alloc| == |w| && Sum(alloc) == amount
    ensures Deviation(Targets(amount, w), Shares(amount, w)) <= Deviation(Targets(amount, w), alloc)
  {
    var targets, s := Targets(amount, w), Shares(amount, w);
    var costs, slope := MovesCost(amount, w, alloc);
    SumDominates(Distances(targets, alloc), Distances(targets, s), costs);
    SumMinus(alloc, s);
    SharesSum(amount, w);
    SumScaled(slope, Minus(alloc, s));
  }

  /** The fraction of the last rewarded entry separates rewarded from unrewarded entries. */
  lemma Threshold(amount: nat, w: seq<nat>) returns (t: int)
    requires ValidWeights(w)
    ensures 0 <= t < BPS
    ensures forall i :: 0 <= i < |w| ==> Separates(amount, w, i, t)
  {
    var f, r := Fracs(amount, w), Leftover(amount, w);
    LeftoverBound(amount, w);
    if r > 0 {
      var last := LastServed(f, r);
      t := f[last];
      forall i | 0 <= i < |w| ensures Separates(amount, w, i, t) {
        assert f[i] == Frac(amount, w[i]);
        if Ahead(f, i, last) { AheadShrinks(f, i, last); }
        if Ahead(f, last, i) { AheadShrinks(f, last, i); }
      }
    } else {
      t := 0;
      FracsTotal(amount, w);
      SumNonNegative(f);
      forall i | 0 <= i < |w| ensures Separates(amount, w, i, t) {
        assert f[i] == Frac(amount, w[i]) <= Sum(f) == 0;
      }
    }
  }

  lemma LastServed(f: seq<int>, r: nat) returns (last: int)
    requires 0 < r <= |f|
    ensures 0 <= last < |f| && Rank(f, last) == r - 1
  {
    FirstSize(f, r);
    FirstSize(f, r - 1);
    if forall i :: i in First(f, r) ==> i in First(f, r - 1) {
      SubsetSize(First(f, r), First(f, r - 1));
    }
    last :| last in First(f, r) && last !in First(f, r - 1);
  }

  // ---- The loops of `distribute_fee` ----

  lemma FloorStep(amount: nat, w: seq<nat>, k: nat)
    requires ValidWeights(w) && k < |w|
    ensures Floors(amount, w)[..k + 1] == Floors(amount, w)[..k] + [Floor(amount, w[k])]
    ensures Fracs(amount, w)[..k + 1] == Fracs(amount, w)[..k] + [Frac(amount, w[k])]
    ensures Sum(Floors(amount, w)[..k]) + Floor(amount, w[k]) == Sum(Floors(amount, w)[..k + 1]) <= amount
  {
    var f := Floors(amount, w);
    assert f[..k + 1][..k] == f[..k];
    LeftoverBound(amount, w);
    PrefixSum(f, k + 1);
  }

  /** First pass: floor shares and fraction numerators in checked arithmetic. */
  method FloorPass(amount: nat, w: seq<nat>) returns (ok: bool, floors: seq<int>, fracs: seq<int>, totalFloor: int)
    requires ValidWeights(w) && amount <= I128_MAX
    ensures ok <==> Fits(amount, w)
    ensures ok ==> floors == Floors(amount, w) && fracs == Fracs(amount, w) && totalFloor == Sum(floors)
  {
    floors, fracs, totalFloor := [], [], 0;
    for k := 0 to |w|
      invariant floors == Floors(amount, w)[..k] && fracs == Fracs(amount, w)[..k]
      invariant totalFloor == Sum(floors)
      invariant forall i :: 0 <= i < k ==> Product(amount, w[i]) <= I128_MAX
    {
      var product := Product(amount, w[k]);
      if product > I128_MAX { return false, floors, fracs, totalFloor; }
      var floor := product / 10_000;
      var frac := product - floor * BPS;
      FloorFrac(amount, w[k]);
      FloorStep(amount, w, k);
      if totalFloor + floor > I128_MAX { return false, floors, fracs, totalFloor; }
      totalFloor, floors, fracs := totalFloor + floor, floors + [floor], fracs + [frac];
    }
    ok := true;
  }

  lemma PrefixSum(s: seq<int>, k: nat)
    requires k <= |s| && forall i :: 0 <= i < |s| ==> 0 <= s[i]
    ensures Sum(s[..k]) <= Sum(s)
  {
    assert s == s[..k] + s[k..];
    SumConcat(s[..k], s[k..]);
    SumNonNegative(s[k..]);
  }

  /** The inner scan: the first position holding the largest current fraction. */
  method Scan(fracs: seq<int>) returns (bestIdx: nat, bestFrac: int)
    requires |fracs| > 0 && forall i :: 0 <= i < |fracs| ==> 0 <= fracs[i]
    ensures bestIdx < |fracs| && bestFrac == fracs[bestIdx]
    ensures forall i :: 0 <= i < |fracs| ==> fracs[i] <= bestFrac
    ensures forall i :: 0 <= i < bestIdx ==> fracs[i] < bestFrac
  {
    bestIdx, bestFrac := 0, -1;
    for i := 0 to |fracs|
      invariant i == 0 ==> bestIdx == 0 && bestFrac == -1
      invariant i > 0 ==> bestIdx < i && bestFrac == fracs[bestIdx]
      invariant forall j :: 0 <= j < i ==> fracs[j] <= bestFrac
      invariant forall j :: 0 <= j < bestIdx ==> fracs[j] < bestFrac
    {
      if fracs[i] > bestFrac { bestFrac, bestIdx := fracs[i], i; }
    }
  }

  /**
   * Second pass: hand out the leftover stroops one by one. The early exit is
   * kept as the code has it; the contract shows it never leaves a remainder.
   */
  method AwardPass(floors0: seq<int>, fracs0: seq<int>, remainder0: int) returns (shares: seq<int>, remainder: int)
    requires |floors0| == |fracs0| && 0 <= remainder0 <= |fracs0|
    requires forall i :: 0 <= i < |fracs0| ==> 0 <= fracs0[i] < BPS
    requires Sum(fracs0) == BPS * remainder0
    ensures remainder == 0 && |shares| == |floors0|
    ensures forall i :: 0 <= i < |shares| ==> shares[i] == floors0[i] + if Rank(fracs0, i) < remainder0 then 1 else 0
  {
    shares, remainder := floors0, remainder0;
    var fracs := fracs0;
    ghost var served: nat := 0;
    while remainder > 0
      invariant served <= remainder0 && remainder == remainder0 - served
      invariant |shares| == |fracs| == |fracs0|
      invariant forall i :: 0 <= i < |fracs| ==> shares[i] == floors0[i] + if Rank(fracs0, i) < served then 1 else 0
      invariant forall i :: 0 <= i < |fracs| ==> fracs[i] == if Rank(fracs0, i) < served then 0 else fracs0[i]
      invariant Sum(fracs) >= BPS * remainder
      decreases remainder
    {
      var bestIdx, bestFrac := Scan(fracs);
      BestIsPositive(fracs, bestIdx);
      if bestFrac <= 0 { break; }
      FirstSize(fracs0, served);
      forall i | Unserved(fracs0, served, i) ensures !Ahead(fracs0, i, bestIdx) {
        assert fracs[i] == fracs0[i];
      }
      NextInQueue(fracs0, served, bestIdx);
      SumUpdate(fracs, bestIdx, 0);
      shares := shares[bestIdx := shares[bestIdx] + 1];
      fracs := fracs[bestIdx := 0];
      remainder := remainder - 1;
      served := served + 1;
    }
  }

  /** Both passes: the shares and what is left over for the treasury, or `ArithmeticOverflow`. */
  method Allocate(amount: nat, w: seq<nat>) returns (shares: Option<seq<int>>, remainder: int)
    requires ValidWeights(w) && amount <= I128_MAX
    ensures shares == if Fits(amount, w) then Some(Shares(amount, w)) else None
    ensures remainder == 0
  {
    var ok, floors, fracs, totalFloor := FloorPass(amount, w);
    if !ok { return None, 0; }
    LeftoverBound(amount, w);
    FracsTotal(amount, w);
    var awarded, left := AwardPass(floors, fracs, amount - totalFloor);
    assert awarded == Shares(amount, w);
    return Some(awarded), left;
  }

  lemma {:induction false} BestIsPositive(fracs: seq<int>, best: nat)
    requires best < |fracs| && Sum(fracs) > 0
    requires forall i :: 0 <= i < |fracs| ==> fracs[i] <= fracs[best]
    ensures fracs[best] > 0
  {
    if fracs[best] <= 0 { NonPositiveSum(fracs); }
  }

  lemma {:induction false} NonPositiveSum(s: seq<int>)
    requires forall i :: 0 <= i < |s| ==> s[i] <= 0
    ensures Sum(s) <= 0
  {
    if s != [] { NonPositiveSum(s[..|s| - 1]); }
  }
}
