// Reshaping a sparse histogram: its axes and some new ones in a given order, every filled bin carried
// over, the new coordinates taken from a fixed point.
module Reshape {
  import opened Collections
  import opened Odometer

  datatype Bin = Bin(at: Coords, value: real)

  // Axes by name; the filled bins in the order of their linear index.
  datatype Hist = Hist(axes: seq<string>, bins: seq<Bin>)

  ghost predicate HistOk(h: Hist) {
    && (forall k :: 0 <= k < |h.bins| ==> |h.bins[k].at| == |h.axes|)
    && (forall j, k :: 0 <= j < k < |h.bins| ==> h.bins[j].at != h.bins[k].at)
  }

  // ----- permutations

  ghost predicate Permutation(order: seq<int>, n: nat) {
    && |order| == n && (forall i :: 0 <= i < n ==> 0 <= order[i] < n)
    && (forall i, j :: 0 <= i < j < n ==> order[i] != order[j])
  }

  function Identity(n: nat): seq<int> { seq(n, i => i) }

  function Upto(n: nat): set<int> { if n == 0 then {} else Upto(n - 1) + {n - 1} }

  lemma {:induction false} UptoIs(n: nat)
    ensures |Upto(n)| == n && forall i :: i in Upto(n) <==> 0 <= i < n
  {
    if n > 0 {
      UptoIs(n - 1);
    }
  }

  // Distinct values in range leave no value out.
  lemma PermutationHits(order: seq<int>, n: nat, id: nat)
    requires Permutation(order, n) && id < n
    ensures id in order
  {
    UptoIs(n);
    DistinctCard(order);
    assert ToSet(order) <= Upto(n);
    SubsetCard(ToSet(order), Upto(n));
    assert id in ToSet(order);
  }

  // ----- the remap of one bin

  function Remap(p: Coords, order: seq<int>, newPoint: Coords): (q: Coords)
    requires forall i :: 0 <= i < |order| ==> 0 <= order[i] < |p| + |newPoint|
    ensures |q| == |order|
  {
    seq(|order|, j requires 0 <= j < |order| => if order[j] < |p| then p[order[j]] else newPoint[order[j] - |p|])
  }

  // The place of each old or new axis in the new order.
  ghost function PlaceOf(order: seq<int>, n: nat, id: nat): (j: nat)
    requires Permutation(order, n) && id < n
    ensures j < n && order[j] == id
  {
    PermutationHits(order, n, id);
    var j :| 0 <= j < n && order[j] == id;
    j
  }

  // The inverse order recovers the original coordinates and the new point.
  lemma Recovers(p: Coords, order: seq<int>, newPoint: Coords, id: nat)
    requires Permutation(order, |p| + |newPoint|) && id < |p| + |newPoint|
    ensures Remap(p, order, newPoint)[PlaceOf(order, |p| + |newPoint|, id)] == (p + newPoint)[id]
  {
  }

  lemma RemapInjective(p: Coords, q: Coords, order: seq<int>, newPoint: Coords)
    requires |p| == |q| && Permutation(order, |p| + |newPoint|)
    requires Remap(p, order, newPoint) == Remap(q, order, newPoint)
    ensures p == q
  {
    forall i | 0 <= i < |p| ensures p[i] == q[i] {
      Recovers(p, order, newPoint, i);
      Recovers(q, order, newPoint, i);
    }
  }

  // ----- carrying over the filled bins

  // Sets the content of a bin: a bin that is there is overwritten, a new one is appended.
  function SetBin(bins: seq<Bin>, at: Coords, value: real): seq<Bin> {
    if bins == [] then [Bin(at, value)]
    else if bins[0].at == at then [Bin(at, value)] + bins[1..]
    else [bins[0]] + SetBin(bins[1..], at, value)
  }

  lemma {:induction false} SetNewBin(bins: seq<Bin>, at: Coords, value: real)
    requires forall k :: 0 <= k < |bins| ==> bins[k].at != at
    ensures SetBin(bins, at, value) == bins + [Bin(at, value)]
  {
    if bins != [] {
      assert forall k :: 0 <= k < |bins[1..]| ==> bins[1..][k] == bins[k + 1];
      SetNewBin(bins[1..], at, value);
    }
  }

  function Remapped(bins: seq<Bin>, order: seq<int>, newPoint: Coords): (r: seq<Bin>)
    requires forall k :: 0 <= k < |bins| ==> forall i :: 0 <= i < |order| ==> 0 <= order[i] < |bins[k].at| + |newPoint|
    ensures |r| == |bins|
  {
    seq(|bins|, k requires 0 <= k < |bins| => Bin(Remap(bins[k].at, order, newPoint), bins[k].value))
  }

  function Sum(bins: seq<Bin>): real { if bins == [] then 0.0 else Sum(bins[..|bins| - 1]) + bins[|bins| - 1].value }

  lemma {:induction false} SameSum(bins: seq<Bin>, cs: seq<Bin>)
    requires |bins| == |cs| && forall k :: 0 <= k < |bins| ==> bins[k].value == cs[k].value
    ensures Sum(bins) == Sum(cs)
  {
    if bins != [] {
      SameSum(bins[..|bins| - 1], cs[..|cs| - 1]);
    }
  }

  function EffectiveOrder(order: seq<int>, n: nat): seq<int> { if order == [] then Identity(n) else order }

  // What is accepted: an order of all axes, and a new point with one number per new axis or none at all.
  ghost predicate Accepted(h: Hist, order: seq<int>, newAxes: seq<string>, newPoint: Coords) {
    && Permutation(EffectiveOrder(order, |h.axes| + |newAxes|), |h.axes| + |newAxes|)
    && (newPoint == [] || |newPoint| == |newAxes|)
  }

  // The axis each place of the order stands for.
  function AxesIn(order: seq<int>, axes: seq<string>, newAxes: seq<string>): seq<string>
    requires forall i :: 0 <= i < |order| ==> 0 <= order[i] < |axes| + |newAxes|
  {
    seq(|order|, i requires 0 <= i < |order| => if order[i] < |axes| then axes[order[i]] else newAxes[order[i] - |axes|])
  }

  method InRange(order: seq<int>, n: nat) returns (ok: bool)
    ensures ok <==> forall i :: 0 <= i < |order| ==> 0 <= order[i] < n
  {
    for i := 0 to |order|
      invariant forall k :: 0 <= k < i ==> 0 <= order[k] < n
    {
      if order[i] < 0 || order[i] >= n {
        return false;
      }
    }
    return true;
  }

  method Unique(order: seq<int>) returns (ok: bool)
    ensures ok <==> forall i, j :: 0 <= i < j < |order| ==> order[i] != order[j]
  {
    for i := 0 to |order|
      invariant forall k, j :: 0 <= k < i && k < j < |order| ==> order[k] != order[j]
    {
      for j := i + 1 to |order|
        invariant forall k :: i < k < j ==> order[i] != order[k]
      {
        if order[i] == order[j] {
          return false;
        }
      }
    }
    return true;
  }

  // Checks the order, builds the axes and carries over the bins. None stands for the null pointer. With an
  // empty new point no bin is carried over, not even when only the order of the axes changes.
  method ReshapeSparseAxes(h: Hist, order: seq<int>, newAxes: seq<string>, newPoint: Coords) returns (r: Option<Hist>)
    requires HistOk(h)
    ensures r.Some? <==> Accepted(h, order, newAxes, newPoint)
    ensures r.Some? ==>
      var ord := EffectiveOrder(order, |h.axes| + |newAxes|);
      && HistOk(r.value) && r.value.axes == AxesIn(ord, h.axes, newAxes)
      && (newPoint == [] ==> r.value.bins == [])
      && (newPoint != [] ==> r.value.bins == Remapped(h.bins, ord, newPoint))
  {
    var n := |h.axes| + |newAxes|;
    var ord := order;
    if ord == [] {
      ord := Identity(n);
    }
    if |ord| != n || (newPoint != [] && |newAxes| != |newPoint|) {
      return None;
    }
    var inRange := InRange(ord, n);
    if !inRange {
      return None;
    }
    var unique := Unique(ord);
    if !unique {
      return None;
    }
    var axes := AxesIn(ord, h.axes, newAxes);
    if newPoint == [] {
      return Some(Hist(axes, []));
    }
    RemappedOk(h, ord, newPoint);
    var bins := CarryOver(h, ord, newPoint);
    return Some(Hist(axes, bins));
  }

  // Every filled bin in turn: its coordinates are remapped and its value is set in the new histogram.
  method CarryOver(h: Hist, order: seq<int>, newPoint: Coords) returns (bins: seq<Bin>)
    requires HistOk(h) && Permutation(order, |h.axes| + |newPoint|)
    ensures bins == Remapped(h.bins, order, newPoint)
  {
    hide Remap;
    RemappedOk(h, order, newPoint);
    bins := [];
    ghost var all := Remapped(h.bins, order, newPoint);
    for i := 0 to |h.bins|
      invariant bins == all[..i]
    {
      SetNewBin(bins, all[i].at, all[i].value);
      bins := SetBin(bins, Remap(h.bins[i].at, order, newPoint), h.bins[i].value);
    }
    assert all[..|h.bins|] == all;
  }

  lemma RemappedOk(h: Hist, order: seq<int>, newPoint: Coords)
    requires HistOk(h) && Permutation(order, |h.axes| + |newPoint|)
    ensures var r := Remapped(h.bins, order, newPoint);
            && (forall k :: 0 <= k < |r| ==> |r[k].at| == |order|)
            && (forall j, k :: 0 <= j < k < |r| ==> r[j].at != r[k].at)
  {
    var r := Remapped(h.bins, order, newPoint);
    forall j, k | 0 <= j < k < |r| ensures r[j].at != r[k].at {
      if r[j].at == r[k].at {
        RemapInjective(h.bins[j].at, h.bins[k].at, order, newPoint);
      }
    }
  }

  // Every filled bin keeps its value, nothing else is filled, the sum is kept, and the inverse order gives
  // the original coordinates back.
  lemma NothingIsLost(h: Hist, order: seq<int>, newPoint: Coords, k: nat, id: nat)
    requires HistOk(h) && Permutation(order, |h.axes| + |newPoint|) && k < |h.bins| && id < |h.axes|
    ensures var r := Remapped(h.bins, order, newPoint);
            && |r| == |h.bins| && r[k].value == h.bins[k].value && Sum(r) == Sum(h.bins)
            && r[k].at[PlaceOf(order, |h.axes| + |newPoint|, id)] == h.bins[k].at[id]
  {
    Recovers(h.bins[k].at, order, newPoint, id);
    SameSum(Remapped(h.bins, order, newPoint), h.bins);
  }

  // ----- the resource monitor

  // Worker first, then the axes of the histogram, the statistics last.
  function MonitorOrder(d: nat): seq<int> { [d] + Identity(d) + [d + 1] }

  // The coordinates the monitor fills.
  function MonitorCoords(coords: Coords, thread: nat, stat: nat): Coords { [thread + 1] + coords + [stat] }

  // The order the monitor builds is accepted, its axes stand where the monitor fills them, and the
  // coordinates it fills are the reshaped coordinates of the point.
  lemma MonitorLayout(axes: seq<string>, worker: string, stats: string, coords: Coords, thread: nat, stat: nat)
    requires |coords| == |axes|
    ensures Permutation(MonitorOrder(|axes|), |axes| + 2)
    ensures AxesIn(MonitorOrder(|axes|), axes, [worker, stats]) == [worker] + axes + [stats]
    ensures Remap(coords, MonitorOrder(|axes|), [thread + 1, stat]) == MonitorCoords(coords, thread, stat)
  {
    var (d, order) := (|axes|, MonitorOrder(|axes|));
    assert order[0] == d && order[d + 1] == d + 1;
    assert forall i :: 1 <= i <= d ==> order[i] == i - 1;
  }

  // Building the monitored coordinates slot by slot, as the monitor does for each statistic.
  method FillCoords(coords: Coords, thread: nat, stat: nat) returns (at: array<int>)
    ensures fresh(at) && at[..] == MonitorCoords(coords, thread, stat)
  {
    var n := |coords| + 2;
    at := new int[n];
    at[0] := thread + 1;
    for i := 0 to n - 2
      invariant at[0] == thread + 1 && forall k :: 0 <= k < i ==> at[k + 1] == coords[k]
    {
      at[i + 1] := coords[i];
    }
    at[n - 1] := stat;
  }
}
