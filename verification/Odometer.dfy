// The box iterator: coordinates advance in place like an odometer, the last dimension fastest.
// Rank and Point are an independent description of the order (mixed-radix numbering of the box).
module Odometer {
  import opened Collections

  type Coords = seq<int>

  predicate IsBox(lo: Coords, hi: Coords) {
    |lo| == |hi| && forall i :: 0 <= i < |lo| ==> lo[i] <= hi[i]
  }

  predicate InBox(lo: Coords, hi: Coords, c: Coords) {
    |c| == |lo| == |hi| && forall i :: 0 <= i < |c| ==> lo[i] <= c[i] <= hi[i]
  }

  // The number of points: the product of (max - min + 1) over the dimensions.
  function Volume(lo: Coords, hi: Coords): (v: nat)
    requires IsBox(lo, hi)
    ensures v >= 1
  {
    if lo == [] then 1 else
      var rest := Volume(lo[1..], hi[1..]);
      MulPositive(hi[0] - lo[0] + 1, rest);
      (hi[0] - lo[0] + 1) * rest
  }

  lemma MulPositive(a: int, b: int)
    requires a >= 1 && b >= 1
    ensures a * b >= 1
  {
  }

  // A whole number of steps of length v moves at least v away.
  lemma MulGap(d: int, v: int)
    requires v >= 1
    ensures d >= 1 ==> d * v >= v
    ensures d <= -1 ==> d * v <= -v
    ensures d == 0 ==> d * v == 0
  {
    if d >= 1 {
      assert (d - 1) * v >= 0;
    } else if d <= -1 {
      assert (-d - 1) * v >= 0;
    }
  }

  function Rank(lo: Coords, hi: Coords, c: Coords): int
    requires IsBox(lo, hi) && |c| == |lo|
  {
    if lo == [] then 0
    else (c[0] - lo[0]) * Volume(lo[1..], hi[1..]) + Rank(lo[1..], hi[1..], c[1..])
  }

  function Point(lo: Coords, hi: Coords, k: nat): (c: Coords)
    requires IsBox(lo, hi)
    ensures |c| == |lo|
  {
    if lo == [] then [] else
      var v := Volume(lo[1..], hi[1..]);
      [lo[0] + k / v] + Point(lo[1..], hi[1..], k % v)
  }

  lemma {:induction false} RankInRange(lo: Coords, hi: Coords, c: Coords)
    requires IsBox(lo, hi) && InBox(lo, hi, c)
    ensures 0 <= Rank(lo, hi, c) < Volume(lo, hi)
  {
    if lo != [] {
      var v := Volume(lo[1..], hi[1..]);
      RankInRange(lo[1..], hi[1..], c[1..]);
      var d, n := c[0] - lo[0], hi[0] - lo[0] + 1;
      assert d * v + v <= n * v by {
        assert (n - d - 1) * v >= 0;
        assert n * v == (n - d - 1) * v + d * v + v;
      }
      assert d * v >= 0;
    }
  }

  lemma DivModOf(q: int, v: int, r: int)
    requires 0 <= r < v
    ensures (q * v + r) / v == q && (q * v + r) % v == r
  {
    var x := q * v + r;
    assert x == (x / v) * v + x % v;
    var d := x / v - q;
    assert d * v == r - x % v;
    MulGap(d, v);
  }

  lemma {:induction false} PointOfRank(lo: Coords, hi: Coords, c: Coords)
    requires IsBox(lo, hi) && InBox(lo, hi, c)
    ensures 0 <= Rank(lo, hi, c) && Point(lo, hi, Rank(lo, hi, c)) == c
  {
    RankInRange(lo, hi, c);
    if lo != [] {
      RankInRange(lo[1..], hi[1..], c[1..]);
      PointOfRank(lo[1..], hi[1..], c[1..]);
      DivModOf(c[0] - lo[0], Volume(lo[1..], hi[1..]), Rank(lo[1..], hi[1..], c[1..]));
    }
  }

  lemma QuotientInRange(k: nat, v: nat, n: int)
    requires v >= 1 && k < n * v
    ensures 0 <= k / v < n && k == (k / v) * v + k % v
  {
    var d := k / v - n;
    assert k - n * v == d * v + k % v;
    MulGap(d, v);
  }

  lemma PointTail(lo: Coords, hi: Coords, k: nat)
    requires IsBox(lo, hi) && lo != []
    ensures var v := Volume(lo[1..], hi[1..]);
            Point(lo, hi, k)[0] == lo[0] + k / v && Point(lo, hi, k)[1..] == Point(lo[1..], hi[1..], k % v)
  {
  }

  lemma {:induction false} RankOfPoint(lo: Coords, hi: Coords, k: nat)
    requires IsBox(lo, hi) && k < Volume(lo, hi)
    ensures InBox(lo, hi, Point(lo, hi, k)) && Rank(lo, hi, Point(lo, hi, k)) == k
  {
    if lo != [] {
      var v := Volume(lo[1..], hi[1..]);
      RankOfPoint(lo[1..], hi[1..], k % v);
      QuotientInRange(k, v, hi[0] - lo[0] + 1);
      PointTail(lo, hi, k);
    }
  }

  predicate LexLess(a: Coords, b: Coords)
    requires |a| == |b|
  {
    a != [] && (a[0] < b[0] || (a[0] == b[0] && LexLess(a[1..], b[1..])))
  }

  // The numbering is the lexicographic order of the box.
  lemma {:induction false} PointsAreLexOrdered(lo: Coords, hi: Coords, j: nat, k: nat)
    requires IsBox(lo, hi) && j < Volume(lo, hi) && k < Volume(lo, hi)
    ensures j < k <==> LexLess(Point(lo, hi, j), Point(lo, hi, k))
  {
    if lo != [] {
      var v := Volume(lo[1..], hi[1..]);
      PointsAreLexOrdered(lo[1..], hi[1..], j % v, k % v);
      PointTail(lo, hi, j);
      PointTail(lo, hi, k);
      QuotientOrder(j, k, v);
    }
  }

  lemma QuotientOrder(j: nat, k: nat, v: nat)
    requires v >= 1
    ensures j < k <==> j / v < k / v || (j / v == k / v && j % v < k % v)
  {
    var d := k / v - j / v;
    assert k - j == d * v + (k % v - j % v);
    MulGap(d, v);
  }

  // Dimension i of c can be raised, and every dimension behind it is at its maximum.
  predicate CarriesAt(hi: Coords, c: Coords, i: nat)
    requires |hi| == |c|
  {
    i < |c| && c[i] < hi[i] && forall j :: i < j < |c| ==> c[j] == hi[j]
  }

  // n is c with dimension i raised by one and every dimension behind it back at its minimum.
  predicate Carried(lo: Coords, c: Coords, i: nat, n: Coords)
    requires |lo| == |c| && i < |c|
  {
    && |n| == |c| && n[i] == c[i] + 1
    && (forall j :: 0 <= j < i ==> n[j] == c[j])
    && (forall j :: i < j < |c| ==> n[j] == lo[j])
  }

  lemma {:induction false} CarryIsSuccessor(lo: Coords, hi: Coords, c: Coords, i: nat, n: Coords)
    requires IsBox(lo, hi) && |lo| == |c| && CarriesAt(hi, c, i) && Carried(lo, c, i, n)
    ensures Rank(lo, hi, n) == Rank(lo, hi, c) + 1
  {
    var v := Volume(lo[1..], hi[1..]);
    if i == 0 {
      assert n[1..] == lo[1..] && c[1..] == hi[1..];
      RankOfMin(lo[1..], hi[1..]);
      RankOfMax(lo[1..], hi[1..]);
      assert (n[0] - lo[0]) * v == (c[0] - lo[0]) * v + v;
    } else {
      CarryIsSuccessor(lo[1..], hi[1..], c[1..], i - 1, n[1..]);
      assert n[0] == c[0];
    }
  }

  lemma {:induction false} RankOfMin(lo: Coords, hi: Coords)
    requires IsBox(lo, hi)
    ensures Rank(lo, hi, lo) == 0
  {
    if lo != [] {
      RankOfMin(lo[1..], hi[1..]);
    }
  }

  lemma {:induction false} RankOfMax(lo: Coords, hi: Coords)
    requires IsBox(lo, hi)
    ensures Rank(lo, hi, hi) == Volume(lo, hi) - 1
  {
    if lo != [] {
      RankOfMax(lo[1..], hi[1..]);
      var v := Volume(lo[1..], hi[1..]);
      assert (hi[0] - lo[0] + 1) * v == (hi[0] - lo[0]) * v + v;
    }
  }

  lemma FirstAndLast(lo: Coords, hi: Coords)
    requires IsBox(lo, hi)
    ensures Point(lo, hi, 0) == lo && Point(lo, hi, Volume(lo, hi) - 1) == hi
  {
    RankOfMin(lo, hi);
    PointOfRank(lo, hi, lo);
    RankOfMax(lo, hi);
    PointOfRank(lo, hi, hi);
  }

  function Points(lo: Coords, hi: Coords): seq<Coords>
    requires IsBox(lo, hi)
  {
    seq(Volume(lo, hi), k requires 0 <= k < Volume(lo, hi) => Point(lo, hi, k))
  }

  // Every point of the box is listed exactly once.
  lemma PointsCoverBox(lo: Coords, hi: Coords)
    requires IsBox(lo, hi)
    ensures Distinct(Points(lo, hi))
    ensures forall c :: c in Points(lo, hi) <==> InBox(lo, hi, c)
  {
    var ps := Points(lo, hi);
    forall j, k | 0 <= j < k < |ps| ensures ps[j] != ps[k] {
      RankOfPoint(lo, hi, j);
      RankOfPoint(lo, hi, k);
    }
    forall c ensures c in ps <==> InBox(lo, hi, c) {
      if InBox(lo, hi, c) {
        RankInRange(lo, hi, c);
        PointOfRank(lo, hi, c);
        assert ps[Rank(lo, hi, c)] == c;
      }
      if c in ps {
        var k :| 0 <= k < |ps| && ps[k] == c;
        RankOfPoint(lo, hi, k);
      }
    }
  }

  // The value of the coordinates after k calls, and whether another point follows.
  lemma NextPoint(lo: Coords, hi: Coords, k: nat, i: nat, n: Coords)
    requires IsBox(lo, hi) && k < Volume(lo, hi) && i < |lo|
    requires var c := Point(lo, hi, k);
             CarriesAt(hi, c, i) && Carried(lo, c, i, n)
    ensures k + 1 < Volume(lo, hi) && n == Point(lo, hi, k + 1) && InBox(lo, hi, n)
  {
    RankOfPoint(lo, hi, k);
    var c := Point(lo, hi, k);
    CarryIsSuccessor(lo, hi, c, i, n);
    assert InBox(lo, hi, n);
    RankInRange(lo, hi, n);
    PointOfRank(lo, hi, n);
  }

  datatype BoundsError = NoError | SizesDiffer | Empty | MinAboveMax

  function CheckBounds(lo: Coords, hi: Coords): BoundsError {
    if |lo| != |hi| then SizesDiffer
    else if lo == [] then Empty
    else if !IsBox(lo, hi) then MinAboveMax
    else NoError
  }

  class NDimensionalExecutor {
    var fNumDimensions: nat
    var fMinBounds: Coords
    var fMaxBounds: Coords
    var fCurrentCoords: Coords

    ghost predicate Valid()
      reads this
    {
      && fNumDimensions == |fMinBounds| > 0
      && IsBox(fMinBounds, fMaxBounds)
      && InBox(fMinBounds, fMaxBounds, fCurrentCoords)
    }

    // The constructor that takes bounds throws unless CheckBounds gives NoError.
    constructor (lo: Coords, hi: Coords)
      requires CheckBounds(lo, hi) == NoError
      ensures Valid() && fMinBounds == lo && fMaxBounds == hi && fCurrentCoords == lo
    {
      fNumDimensions, fMinBounds, fMaxBounds, fCurrentCoords := |lo|, lo, hi, lo;
    }

    // The new bounds are stored before they are checked: on an error they stay behind next to the
    // old dimension count and the old coordinates.
    method SetBounds(lo: Coords, hi: Coords) returns (error: BoundsError)
      modifies this
      ensures error == NoError <==> IsBox(lo, hi) && lo != []
      ensures error == NoError ==> Valid() && fCurrentCoords == lo
      ensures fMinBounds == lo && fMaxBounds == hi
      ensures error != NoError && |lo| == |hi| && lo != [] ==>
        fNumDimensions == |lo| && exists i :: 0 <= i < |lo| && lo[i] > hi[i]
      ensures error != NoError && !(|lo| == |hi| && lo != []) ==> fNumDimensions == old(fNumDimensions)
      ensures error != NoError ==> fCurrentCoords == old(fCurrentCoords)
    {
      fMinBounds := lo;
      fMaxBounds := hi;
      if |fMinBounds| != |fMaxBounds| {
        return SizesDiffer;
      }
      if fMinBounds == [] {
        return Empty;
      }
      fNumDimensions := |fMinBounds|;
      for i := 0 to fNumDimensions
        invariant forall j :: 0 <= j < i ==> lo[j] <= hi[j]
        invariant fMinBounds == lo && fMaxBounds == hi && fNumDimensions == |lo|
        invariant fCurrentCoords == old(fCurrentCoords)
      {
        if fMinBounds[i] > fMaxBounds[i] {
          return MinAboveMax;
        }
      }
      fCurrentCoords := fMinBounds;
      return NoError;
    }

    // The position of the current point in the order of the box.
    ghost function Position(): (k: nat)
      requires Valid()
      reads this
      ensures k < Volume(fMinBounds, fMaxBounds) && Point(fMinBounds, fMaxBounds, k) == fCurrentCoords
    {
      RankInRange(fMinBounds, fMaxBounds, fCurrentCoords);
      PointOfRank(fMinBounds, fMaxBounds, fCurrentCoords);
      Rank(fMinBounds, fMaxBounds, fCurrentCoords)
    }

    // Advances to the next point in place; wraps to the minimum and returns false after the last one.
    method Increment() returns (more: bool)
      requires Valid()
      modifies this`fCurrentCoords
      ensures Valid()
      ensures more <==> old(Position()) + 1 < Volume(fMinBounds, fMaxBounds)
      ensures more ==> fCurrentCoords == Point(fMinBounds, fMaxBounds, old(Position()) + 1)
      ensures !more ==> fCurrentCoords == fMinBounds
    {
      ghost var c, k := fCurrentCoords, Position();
      var i := fNumDimensions - 1;
      while i >= 0
        invariant -1 <= i < fNumDimensions
        invariant |fCurrentCoords| == fNumDimensions
        invariant forall j :: 0 <= j <= i ==> fCurrentCoords[j] == c[j]
        invariant forall j :: i < j < fNumDimensions ==> fCurrentCoords[j] == fMinBounds[j] && c[j] == fMaxBounds[j]
      {
        fCurrentCoords := fCurrentCoords[i := fCurrentCoords[i] + 1];
        if fCurrentCoords[i] <= fMaxBounds[i] {
          NextPoint(fMinBounds, fMaxBounds, k, i, fCurrentCoords);
          return true;
        }
        fCurrentCoords := fCurrentCoords[i := fMinBounds[i]];
        i := i - 1;
      }
      assert c == fMaxBounds && fCurrentCoords == fMinBounds;
      RankOfMax(fMinBounds, fMaxBounds);
      return false;
    }

    // Calls the function on every point; the sequence of calls is returned. Without dimensions, as for a
    // histogram that has none, nothing is called.
    method Execute() returns (calls: seq<Coords>)
      requires fNumDimensions > 0 ==> Valid()
      modifies this`fCurrentCoords
      ensures fNumDimensions > 0 ==>
                Valid() && fCurrentCoords == fMinBounds && calls == Points(fMinBounds, fMaxBounds)
      ensures fNumDimensions == 0 ==> calls == [] && fCurrentCoords == old(fCurrentCoords)
    {
      hide Volume, Point;
      if fNumDimensions == 0 {
        return [];
      }
      fCurrentCoords := fMinBounds;
      FirstAndLast(fMinBounds, fMaxBounds);
      calls := [];
      ghost var total := Volume(fMinBounds, fMaxBounds);
      var more := true;
      while more
        invariant Valid()
        invariant more ==> |calls| < total && fCurrentCoords == Point(fMinBounds, fMaxBounds, |calls|)
        invariant !more ==> |calls| == total && fCurrentCoords == fMinBounds
        invariant forall k :: 0 <= k < |calls| ==> calls[k] == Point(fMinBounds, fMaxBounds, k)
        decreases more, total - |calls|
      {
        RankOfPoint(fMinBounds, fMaxBounds, |calls|);
        assert Position() == |calls|;
        calls := calls + [fCurrentCoords];
        more := Increment();
      }
    }
  }
}
