// Where the points of a definition are stored: the bin of each axis that holds the middle of the point's
// interval, the ids kept per storage cell, and the list of ids that has to agree with them.
module StorageIndex {
  import opened Collections
  import opened Odometer
  import opened AxisPartition
  import opened PointPacking

  // ----- looking up a bin by its edges

  ghost predicate EdgesIncrease(e: seq<real>) { forall i, j :: 0 <= i < j < |e| ==> e[i] < e[j] }

  // The number of edges at or below x: 0 is the underflow and |e| the overflow bin.
  function FindBin(e: seq<real>, x: real): nat {
    if e == [] then 0 else FindBin(e[..|e| - 1], x) + if e[|e| - 1] <= x then 1 else 0
  }

  lemma {:induction false} FindBinIs(e: seq<real>, x: real, n: nat)
    requires EdgesIncrease(e) && n <= |e|
    requires (n > 0 ==> e[n - 1] <= x) && (n < |e| ==> x < e[n])
    ensures FindBin(e, x) == n
    decreases |e|
  {
    if e != [] {
      FindBinIs(e[..|e| - 1], x, if n == |e| then n - 1 else n);
    }
  }

  // The edges of a definition's axis: the first base edge and the right ends of its intervals.
  function DefEdges(edges: seq<real>, cuts: seq<int>): seq<real>
    requires edges != [] && forall k :: 0 <= k < |cuts| ==> 0 <= cuts[k] < |edges|
  {
    [edges[0]] + EdgesAt(edges, cuts)
  }

  // The middle between the lower edge of bin min and the upper edge of bin max.
  function Middle(edges: seq<real>, v: Interval): real
    requires 1 <= v.min <= v.max < |edges|
  {
    (edges[v.min - 1] + edges[v.max]) / 2.0
  }

  // The storage coordinate of an interval is its position in the definition, counted from 1.
  lemma StorageIsPosition(edges: seq<real>, ws: seq<AxisPartition.Width>, k: nat)
    requires |edges| >= 2 && EdgesIncrease(edges) && Proper(ws)
    requires k < |Cuts(Steps(ws, |edges| - 1), |edges| - 1)|
    ensures var cuts := Cuts(Steps(ws, |edges| - 1), |edges| - 1);
            && (forall i :: 0 <= i < |cuts| ==> 0 <= cuts[i] < |edges|)
            && 1 <= Intervals(cuts)[k].min <= Intervals(cuts)[k].max < |edges|
            && FindBin(DefEdges(edges, cuts), Middle(edges, Intervals(cuts)[k])) == k + 1
  {
    hide Cuts, Steps, FindBin;
    var nbins := |edges| - 1;
    var cuts := Cuts(Steps(ws, nbins), nbins);
    StepsPositive(ws, nbins);
    CutsOnAxis(Steps(ws, nbins), nbins);
    IntervalsTile(Steps(ws, nbins), nbins, k);
    CutsIncrease(Steps(ws, nbins), nbins);
    var (e, v) := (DefEdges(edges, cuts), Intervals(cuts)[k]);
    DefEdgesIncrease(edges, cuts);
    assert e[k] == edges[v.min - 1] && e[k + 1] == edges[v.max];
    FindBinIs(e, Middle(edges, v), k + 1);
  }

  lemma CutsIncrease(steps: seq<int>, nbins: nat)
    requires Positive(steps)
    ensures forall i, j :: 0 <= i < j < |Cuts(steps, nbins)| ==> Cuts(steps, nbins)[i] < Cuts(steps, nbins)[j]
  {
    hide Cuts, Reach;
    var cuts := Cuts(steps, nbins);
    CutsAre(steps, nbins);
    forall i, j | 0 <= i < j < |cuts| ensures cuts[i] < cuts[j] {
      ReachGrows(steps, i + 1, j + 1);
      assert cuts[i] == Reach(steps[..i + 1]) && cuts[j] == Reach(steps[..j + 1]);
    }
  }

  lemma DefEdgesIncrease(edges: seq<real>, cuts: seq<int>)
    requires EdgesIncrease(edges) && edges != []
    requires forall i :: 0 <= i < |cuts| ==> 1 <= cuts[i] < |edges|
    requires forall i, j :: 0 <= i < j < |cuts| ==> cuts[i] < cuts[j]
    ensures EdgesIncrease(DefEdges(edges, cuts))
  {
  }

  // ----- a definition

  // One axis of a definition: the base edges, the width list and the entries registered for it.
  datatype DefAxis = DefAxis(axis: Axis, edges: seq<real>, widths: seq<AxisPartition.Width>, entries: seq<Code>)

  // A rebinnable axis registers the intervals of its width list; a user axis has one entry, and its
  // definition is the whole axis.
  ghost predicate AxisOk(d: DefAxis) {
    && |d.edges| == d.axis.nbins + 1 >= 2 && EdgesIncrease(d.edges) && Proper(d.widths)
    && Positive(Steps(d.widths, d.axis.nbins)) && Ordered(Intervals(AxisCuts(d)))
    && !d.axis.kind.Single?
    && (d.axis.kind.Multiple? ==> d.entries == Codes(Intervals(AxisCuts(d))))
    && (d.axis.kind.User? ==> |d.entries| == 1 && AxisCuts(d) == [d.axis.nbins])
  }

  function AxisCuts(d: DefAxis): seq<int>
    requires Proper(d.widths)
  {
    Cuts(Steps(d.widths, d.axis.nbins), d.axis.nbins)
  }

  ghost predicate DefOk(ds: seq<DefAxis>) { forall i :: 0 <= i < |ds| ==> AxisOk(ds[i]) }

  function AxesOf(ds: seq<DefAxis>): seq<Axis> { seq(|ds|, i requires 0 <= i < |ds| => ds[i].axis) }

  function ContentOf(ds: seq<DefAxis>): Content { seq(|ds|, i requires 0 <= i < |ds| => ds[i].entries) }

  // The intervals of an axis; a user axis has just the whole one.
  function IntervalAt(d: DefAxis, j: nat): Interval
    requires Proper(d.widths) && j < |AxisCuts(d)|
  {
    Intervals(AxisCuts(d))[j]
  }

  lemma EntryRange(d: DefAxis, j: nat)
    requires AxisOk(d) && j < |d.entries|
    ensures j < |AxisCuts(d)| && RangeOf(d.axis, d.entries[j]) == Some(IntervalAt(d, j))
    ensures 1 <= IntervalAt(d, j).min <= IntervalAt(d, j).max <= d.axis.nbins
    ensures Apart(d.axis, d.entries)
  {
    hide Encode, DecodeOn, Cuts, Steps;
    var v := Intervals(AxisCuts(d));
    if d.axis.kind.Multiple? {
      DefinitionTiles(d.widths, d.axis.nbins, j);
      IntervalsTile(Steps(d.widths, d.axis.nbins), d.axis.nbins, j);
      forall k | 1 <= k < |v| ensures v[k].min > v[k - 1].max {
        IntervalsTile(Steps(d.widths, d.axis.nbins), d.axis.nbins, k);
      }
      RegisteredApart(d.axis, v);
    } else {
      WholeAxis(d.axis.nbins);
    }
  }

  predicate CellReady(d: DefAxis, v: Interval) {
    && Proper(d.widths) && d.edges != [] && 1 <= v.min <= v.max < |d.edges|
    && forall i :: 0 <= i < |AxisCuts(d)| ==> 0 <= AxisCuts(d)[i] < |d.edges|
  }

  function CellAt(d: DefAxis, v: Interval): nat
    requires CellReady(d, v)
  {
    FindBin(DefEdges(d.edges, AxisCuts(d)), Middle(d.edges, v))
  }

  // The storage coordinate of entry j of an axis is j + 1.
  lemma EntryCell(d: DefAxis, j: nat)
    requires AxisOk(d) && j < |d.entries|
    ensures j < |AxisCuts(d)| && CellReady(d, IntervalAt(d, j)) && CellAt(d, IntervalAt(d, j)) == j + 1
  {
    hide Encode, DecodeOn, Cuts, Steps, FindBin;
    EntryRange(d, j);
    StorageIsPosition(d.edges, d.widths, j);
  }

  // The storage cell of a choice of one interval per axis.
  function CellOf(ds: seq<DefAxis>, v: seq<Interval>): Coords
    requires |v| == |ds| && forall i :: 0 <= i < |ds| ==> CellReady(ds[i], v[i])
  {
    seq(|ds|, i requires 0 <= i < |ds| => CellAt(ds[i], v[i]))
  }

  // The intervals of a point of the box of combinations.
  function IntervalsAt(ds: seq<DefAxis>, c: Coords): seq<Interval>
    requires |c| == |ds| && forall i :: 0 <= i < |ds| ==> Proper(ds[i].widths) && 1 <= c[i] <= |AxisCuts(ds[i])|
  {
    seq(|ds|, i requires 0 <= i < |ds| => IntervalAt(ds[i], c[i] - 1))
  }

  ghost predicate AtPoint(ds: seq<DefAxis>, c: Coords) {
    InBox(PointPacking.Ones(ContentOf(ds)), Sizes(ContentOf(ds)), c)
  }

  // The reader finds the intervals of the point, and its storage cell is the point itself.
  lemma PointCell(ds: seq<DefAxis>, c: Coords)
    requires DefOk(ds) && AtPoint(ds, c)
    ensures forall i :: 0 <= i < |ds| ==> Proper(ds[i].widths) && 1 <= c[i] <= |AxisCuts(ds[i])|
    ensures |c| == |ds| && Ranges(AxesOf(ds), Chosen(ContentOf(ds), c)) == Some(IntervalsAt(ds, c))
    ensures forall i :: 0 <= i < |ds| ==> CellReady(ds[i], IntervalsAt(ds, c)[i])
    ensures CellOf(ds, IntervalsAt(ds, c)) == c
  {
    hide RangeOf, CellAt, CellReady, AxisCuts, Proper, IntervalAt, Ranges;
    forall i | 0 <= i < |ds|
      ensures Proper(ds[i].widths) && 1 <= c[i] <= |AxisCuts(ds[i])|
      ensures CellReady(ds[i], IntervalAt(ds[i], c[i] - 1)) && CellAt(ds[i], IntervalAt(ds[i], c[i] - 1)) == c[i]
      ensures RangeOf(ds[i].axis, ds[i].entries[c[i] - 1]) == Some(IntervalAt(ds[i], c[i] - 1))
    {
      assert AxisOk(ds[i]);
      EntryRange(ds[i], c[i] - 1);
      EntryCell(ds[i], c[i] - 1);
    }
    RangesAre(AxesOf(ds), Chosen(ContentOf(ds), c), IntervalsAt(ds, c));
  }

  // ----- the cell of a content bin

  // Content coordinates that the reader can turn into a cell, if it accepts them at all.
  predicate Readable(ds: seq<DefAxis>, c: Coords) {
    && |c| >= PackedSize(AxesOf(ds))
    && var r := RangesIn(AxesOf(ds), c);
       r.Some? ==> forall i :: 0 <= i < |ds| ==> CellReady(ds[i], r.value[i])
  }

  predicate AllReadable(ds: seq<DefAxis>, bins: seq<Coords>) { forall c :: c in bins ==> Readable(ds, c) }

  // The bin exists and its intervals lie on their axes.
  predicate HasCell(ds: seq<DefAxis>, bins: seq<Coords>, id: nat)
    requires AllReadable(ds, bins)
  {
    id < |bins| && (assert bins[id] in bins; RangesIn(AxesOf(ds), bins[id]).Some?)
  }

  // The storage cell found by reading the coordinates of a content bin back.
  function CellRead(ds: seq<DefAxis>, bins: seq<Coords>, id: nat): Coords
    requires AllReadable(ds, bins) && HasCell(ds, bins, id)
  {
    assert bins[id] in bins;
    CellOf(ds, RangesIn(AxesOf(ds), bins[id]).value)
  }

  // The storage coordinates of the point that reads the bin: those it had before if there is nothing to read.
  function PointAt(ds: seq<DefAxis>, bins: seq<Coords>, id: nat, before: Coords): Coords
    requires AllReadable(ds, bins)
  {
    if HasCell(ds, bins, id) then CellRead(ds, bins, id) else before
  }

  // The point reads the bins of a list of ids one after the other.
  function PlacesOf(ds: seq<DefAxis>, bins: seq<Coords>, ids: seq<nat>, before: Coords): (cells: seq<Coords>)
    requires AllReadable(ds, bins)
    ensures |cells| == |ids|
  {
    if ids == [] then []
    else
      var n := |ids| - 1;
      var init := PlacesOf(ds, bins, ids[..n], before);
      init + [PointAt(ds, bins, ids[n], if n == 0 then before else init[n - 1])]
  }

  class NBinningPoint {
    var fStorageCoords: Coords

    constructor (coords: Coords)
      ensures fStorageCoords == coords
    {
      fStorageCoords := coords;
    }

    // Reads the coordinates of a content bin and looks up its storage cell; on an error the storage
    // coordinates stay as they were.
    method SetPointContentFromLinearIndex(ds: seq<DefAxis>, bins: seq<Coords>, linBin: nat) returns (ok: bool)
      requires AllReadable(ds, bins)
      modifies this
      ensures ok <==> HasCell(ds, bins, linBin)
      ensures fStorageCoords == PointAt(ds, bins, linBin, old(fStorageCoords))
    {
      hide CellReady, RangesIn, CellOf;
      if linBin >= |bins| {
        return false;
      }
      assert bins[linBin] in bins;
      var ranges := GetAxisRanges(AxesOf(ds), bins[linBin]);
      if ranges.None? {
        return false;
      }
      fStorageCoords := CellOf(ds, ranges.value);
      return true;
    }
  }

  // ----- the content of a definition and its list of ids

  type Cells = map<nat, Coords>   // the storage cell of each point id

  // The ids stored one too high in the cells of a list of ids.
  function Store(ids: seq<nat>, cells: Cells): map<Coords, int>
    requires forall id :: id in ids ==> id in cells
  {
    if ids == [] then map[]
    else
      var (init, id) := (ids[..|ids| - 1], ids[|ids| - 1]);
      Store(init, cells)[cells[id] := id + 1]
  }

  // Writes each value into its cell.
  function Put(content: map<Coords, int>, cells: seq<Coords>, values: seq<int>): map<Coords, int>
    requires |cells| == |values|
  {
    if values == [] then content
    else
      var n := |values| - 1;
      Put(content, cells[..n], values[..n])[cells[n] := values[n]]
  }

  function Raised(ids: seq<nat>): seq<int> { seq(|ids|, i requires 0 <= i < |ids| => ids[i] + 1) }

  // Walks the cells in order and collects what is stored there, less one.
  function Collect(walk: seq<Coords>, content: map<Coords, int>): seq<nat> {
    if walk == [] then []
    else
      var (init, c) := (walk[..|walk| - 1], walk[|walk| - 1]);
      Collect(init, content) + if c in content && content[c] > 0 then [content[c] - 1] else []
  }

  // Every id has a storage cell of its own.
  ghost predicate OwnCells(ids: seq<nat>, cells: Cells) {
    && (forall id :: id in ids ==> id in cells)
    && (forall a, b :: a in ids && b in ids && a != b ==> cells[a] != cells[b])
  }

  // What is stored in a cell is one of the ids whose cell it is, plus one.
  lemma {:induction false} StoreHolds(ids: seq<nat>, cells: Cells, c: Coords)
    requires forall id :: id in ids ==> id in cells
    ensures c in Store(ids, cells) ==>
              Store(ids, cells)[c] >= 1 && Store(ids, cells)[c] - 1 in ids && cells[Store(ids, cells)[c] - 1] == c
    ensures c in Store(ids, cells) <==> exists id :: id in ids && cells[id] == c
  {
    if ids != [] {
      var (init, last) := (ids[..|ids| - 1], ids[|ids| - 1]);
      assert forall id :: id in ids <==> id in init || id == last;
      StoreHolds(init, cells, c);
    }
  }

  lemma StoreOf(ids: seq<nat>, cells: Cells, id: nat)
    requires OwnCells(ids, cells) && id in ids
    ensures cells[id] in Store(ids, cells) && Store(ids, cells)[cells[id]] == id + 1
  {
    hide Store;
    StoreHolds(ids, cells, cells[id]);
  }

  // The content depends on the ids, not on their order.
  lemma StoreSame(ids: seq<nat>, jds: seq<nat>, cells: Cells)
    requires OwnCells(ids, cells) && ToSet(ids) == ToSet(jds)
    ensures OwnCells(jds, cells) && Store(jds, cells) == Store(ids, cells)
  {
    hide Store;
    assert forall id :: id in ids <==> id in ToSet(ids);
    assert forall id :: id in jds <==> id in ToSet(jds);
    forall c ensures c in Store(ids, cells) <==> c in Store(jds, cells) {
      StoreHolds(ids, cells, c);
      StoreHolds(jds, cells, c);
    }
    forall c | c in Store(ids, cells) ensures Store(ids, cells)[c] == Store(jds, cells)[c] {
      StoreHolds(ids, cells, c);
      StoreHolds(jds, cells, c);
    }
  }

  // The cells of a walk that hold something, in order.
  function Occupied(walk: seq<Coords>, content: map<Coords, int>): seq<Coords> {
    if walk == [] then []
    else
      var (init, c) := (walk[..|walk| - 1], walk[|walk| - 1]);
      Occupied(init, content) + if c in content && content[c] > 0 then [c] else []
  }

  lemma {:induction false} CollectIs(walk: seq<Coords>, content: map<Coords, int>)
    ensures |Collect(walk, content)| == |Occupied(walk, content)|
    ensures forall k :: 0 <= k < |Collect(walk, content)| ==>
              var c := Occupied(walk, content)[k]; c in content && Collect(walk, content)[k] + 1 == content[c]
  {
    if walk != [] {
      CollectIs(walk[..|walk| - 1], content);
    }
  }

  lemma {:induction false} OccupiedIs(walk: seq<Coords>, content: map<Coords, int>, c: Coords)
    ensures c in Occupied(walk, content) <==> c in walk && c in content && content[c] > 0
  {
    if walk != [] {
      OccupiedIs(walk[..|walk| - 1], content, c);
      assert forall d :: d in walk <==> d in walk[..|walk| - 1] || d == walk[|walk| - 1];
    }
  }

  ghost predicate LexOrdered(s: seq<Coords>) {
    && (forall k :: 0 <= k < |s| ==> |s[k]| == |s[0]|)
    && (forall j, k :: 0 <= j < k < |s| ==> LexLess(s[j], s[k]))
  }

  lemma {:induction false} OccupiedOrdered(walk: seq<Coords>, content: map<Coords, int>)
    requires LexOrdered(walk)
    ensures LexOrdered(Occupied(walk, content))
  {
    hide LexLess;
    if walk != [] {
      var (init, c) := (walk[..|walk| - 1], walk[|walk| - 1]);
      assert LexOrdered(init);
      OccupiedOrdered(init, content);
      forall d | d in Occupied(init, content) ensures |d| == |walk[0]| && LexLess(d, c) {
        OccupiedIs(init, content, d);
        var j :| 0 <= j < |init| && init[j] == d;
        assert walk[j] == d;
      }
    }
  }

  lemma PointsOrdered(lo: Coords, hi: Coords)
    requires IsBox(lo, hi)
    ensures LexOrdered(Points(lo, hi))
  {
    hide LexLess, Point, Volume;
    var ps := Points(lo, hi);
    forall j, k | 0 <= j < k < |ps| ensures LexLess(ps[j], ps[k]) {
      PointsAreLexOrdered(lo, hi, j, k);
    }
  }

  // ----- refreshing

  ghost predicate CellsInBox(ids: seq<nat>, cells: Cells, lo: Coords, hi: Coords) {
    forall id :: id in ids ==> id in cells && InBox(lo, hi, cells[id])
  }

  function Refreshed(ids: seq<nat>, cells: Cells, lo: Coords, hi: Coords): seq<nat>
    requires IsBox(lo, hi) && forall id :: id in ids ==> id in cells
  {
    Collect(Points(lo, hi), Store(ids, cells))
  }

  lemma RefreshedCells(ids: seq<nat>, cells: Cells, lo: Coords, hi: Coords, k: nat)
    requires IsBox(lo, hi) && (forall id :: id in ids ==> id in cells) && k < |Refreshed(ids, cells, lo, hi)|
    ensures |Refreshed(ids, cells, lo, hi)| == |Occupied(Points(lo, hi), Store(ids, cells))|
    ensures Refreshed(ids, cells, lo, hi)[k] in ids
    ensures cells[Refreshed(ids, cells, lo, hi)[k]] == Occupied(Points(lo, hi), Store(ids, cells))[k]
  {
    hide Store, Points, Occupied, Collect;
    var content := Store(ids, cells);
    CollectIs(Points(lo, hi), content);
    StoreHolds(ids, cells, Occupied(Points(lo, hi), content)[k]);
  }

  lemma RefreshedHas(ids: seq<nat>, cells: Cells, lo: Coords, hi: Coords, id: nat)
    requires IsBox(lo, hi) && OwnCells(ids, cells) && CellsInBox(ids, cells, lo, hi) && id in ids
    ensures id in Refreshed(ids, cells, lo, hi)
  {
    hide Store, Points, Occupied, Collect, InBox;
    var (content, walk) := (Store(ids, cells), Points(lo, hi));
    StoreOf(ids, cells, id);
    PointsCoverBox(lo, hi);
    OccupiedIs(walk, content, cells[id]);
    CollectIs(walk, content);
    var k :| 0 <= k < |Occupied(walk, content)| && Occupied(walk, content)[k] == cells[id];
    assert Collect(walk, content)[k] + 1 == content[cells[id]];
  }

  // Refreshing sorts the list: the same ids, each once, in the lexicographic order of their cells.
  lemma RefreshSorts(ids: seq<nat>, cells: Cells, lo: Coords, hi: Coords)
    requires IsBox(lo, hi) && Distinct(ids) && OwnCells(ids, cells) && CellsInBox(ids, cells, lo, hi)
    ensures var r := Refreshed(ids, cells, lo, hi);
            && Distinct(r) && ToSet(r) == ToSet(ids) && |r| == |ids|
            && (forall k :: 0 <= k < |r| ==> r[k] in cells && |cells[r[k]]| == |lo|)
            && (forall j, k :: 0 <= j < k < |r| ==> LexLess(cells[r[j]], cells[r[k]]))
  {
    hide Store, Points, Occupied, Collect, LexLess, Refreshed, OwnCells;
    var r := Refreshed(ids, cells, lo, hi);
    PointsOrdered(lo, hi);
    OccupiedOrdered(Points(lo, hi), Store(ids, cells));
    forall k | 0 <= k < |r| ensures r[k] in ids && |cells[r[k]]| == |lo| {
      RefreshedCells(ids, cells, lo, hi, k);
    }
    forall j, k | 0 <= j < k < |r| ensures LexLess(cells[r[j]], cells[r[k]]) {
      RefreshedCells(ids, cells, lo, hi, j);
      RefreshedCells(ids, cells, lo, hi, k);
    }
    forall j, k | 0 <= j < k < |r| ensures r[j] != r[k] {
      LexIrreflexive(cells[r[j]]);
    }
    forall id | id in ids ensures id in r {
      RefreshedHas(ids, cells, lo, hi, id);
    }
    assert ToSet(r) == ToSet(ids);
    DistinctCard(r);
    DistinctCard(ids);
  }

  lemma {:induction false} LexIrreflexive(c: Coords)
    ensures !LexLess(c, c)
  {
    if c != [] {
      LexIrreflexive(c[1..]);
    }
  }

  // Refreshing twice changes nothing more, and collecting the ids again gives the same list.
  lemma RefreshIsIdempotent(ids: seq<nat>, cells: Cells, lo: Coords, hi: Coords)
    requires IsBox(lo, hi) && Distinct(ids) && OwnCells(ids, cells) && CellsInBox(ids, cells, lo, hi)
    ensures var r := Refreshed(ids, cells, lo, hi);
            && OwnCells(r, cells) && Store(r, cells) == Store(ids, cells) && Refreshed(r, cells, lo, hi) == r
  {
    hide Store, Points, Occupied, Collect, LexLess, OwnCells, Refreshed;
    RefreshSorts(ids, cells, lo, hi);
    StoreSame(ids, Refreshed(ids, cells, lo, hi), cells);
    RefreshedIs(ids, cells, lo, hi);
    RefreshedIs(Refreshed(ids, cells, lo, hi), cells, lo, hi);
  }

  lemma RefreshedIs(ids: seq<nat>, cells: Cells, lo: Coords, hi: Coords)
    requires IsBox(lo, hi) && OwnCells(ids, cells)
    ensures Refreshed(ids, cells, lo, hi) == Collect(Points(lo, hi), Store(ids, cells))
  {
  }

  // If two ids share a cell, one of them is lost: the list keeps all its ids exactly when each id has a
  // cell of its own.
  lemma NothingLostIff(ids: seq<nat>, cells: Cells, lo: Coords, hi: Coords)
    requires IsBox(lo, hi) && Distinct(ids) && CellsInBox(ids, cells, lo, hi)
    ensures ToSet(Refreshed(ids, cells, lo, hi)) == ToSet(ids) <==> OwnCells(ids, cells)
  {
    hide Store, Points, Occupied, Collect, Refreshed, InBox, LexLess;
    if OwnCells(ids, cells) {
      RefreshSorts(ids, cells, lo, hi);
    } else {
      var a, b :| a in ids && b in ids && a != b && cells[a] == cells[b];
      if a in Refreshed(ids, cells, lo, hi) && b in Refreshed(ids, cells, lo, hi) {
        SharedCell(ids, cells, lo, hi, a, b);
      }
      assert a in ToSet(ids) && b in ToSet(ids);
    }
  }

  lemma SharedCell(ids: seq<nat>, cells: Cells, lo: Coords, hi: Coords, a: nat, b: nat)
    requires IsBox(lo, hi) && (forall id :: id in ids ==> id in cells) && a in ids && b in ids && cells[a] == cells[b]
    requires a in Refreshed(ids, cells, lo, hi) && b in Refreshed(ids, cells, lo, hi)
    ensures a == b
  {
    hide Store, Points, Occupied, Collect;
    var (content, walk, r) := (Store(ids, cells), Points(lo, hi), Refreshed(ids, cells, lo, hi));
    CollectIs(walk, content);
    var j :| 0 <= j < |r| && r[j] == a;
    var k :| 0 <= k < |r| && r[k] == b;
    RefreshedCells(ids, cells, lo, hi, j);
    RefreshedCells(ids, cells, lo, hi, k);
  }

  class NBinningDef {
    const sizes: Coords   // bins per axis
    var fIds: seq<nat>
    var fContent: map<Coords, int>

    ghost predicate Valid()
      reads this
    {
      |sizes| > 0 && (forall i :: 0 <= i < |sizes| ==> sizes[i] >= 1)
    }

    function Ones(): Coords { seq(|sizes|, i => 1) }

    constructor (n: Coords)
      ensures sizes == n && fIds == [] && fContent == map[]
    {
      sizes, fIds, fContent := n, [], map[];
    }

    method Gather() returns (ids: seq<nat>)
      requires Valid()
      ensures IsBox(Ones(), sizes) && ids == Collect(Points(Ones(), sizes), fContent)
    {
      var executor := new NDimensionalExecutor(Ones(), sizes);
      var walk := executor.Execute();
      ids := [];
      for i := 0 to |walk|
        invariant ids == Collect(walk[..i], fContent)
      {
        assert walk[..i + 1][..i] == walk[..i];
        var id := if walk[i] in fContent then fContent[walk[i]] else 0;
        if id > 0 {
          ids := ids + [id - 1];
        }
      }
      assert walk[..|walk|] == walk;
    }
  
    method RefreshIdsFromContent()
      requires Valid()
      modifies this`fIds
      ensures IsBox(Ones(), sizes) && fIds == Collect(Points(Ones(), sizes), fContent)
    {
      fIds := Gather();
    }

    // Stores every id, one too high, in the cell its content bin reads back to, and lists the ids again
    // in the order of the cells.
    method RefreshContentFromIds(ds: seq<DefAxis>, bins: seq<Coords>, point: NBinningPoint)
      requires Valid() && AllReadable(ds, bins)
      modifies this, point
      ensures IsBox(Ones(), sizes)
      ensures fContent == Put(map[], PlacesOf(ds, bins, old(fIds), old(point.fStorageCoords)), Raised(old(fIds)))
      ensures fIds == Collect(Points(Ones(), sizes), fContent)
    {
      hide Points, Collect, AllReadable, PointAt, HasCell, Put, PlacesOf, Raised;
      fContent := map[];
      ghost var (ids, before) := (fIds, point.fStorageCoords);
      ghost var cells := PlacesOf(ds, bins, ids, before);
      ghost var raised := RaisedIds(ids);
      PutStep(cells, raised, 0);
      for i := 0 to |fIds|
        invariant fIds == ids && |cells| == |ids|
        invariant point.fStorageCoords == if i == 0 then before else cells[i - 1]
        invariant fContent == Put(map[], cells[..i], raised[..i])
      {
        PlacesPrefix(ds, bins, ids, before, i);
        PutStep(cells, raised, i);
        var found := point.SetPointContentFromLinearIndex(ds, bins, fIds[i]);
        fContent := fContent[point.fStorageCoords := fIds[i] + 1];
      }
      assert cells[..|ids|] == cells && raised[..|ids|] == raised;
      fIds := Gather();
    }
  }

  lemma RaisedIds(ids: seq<nat>) returns (values: seq<int>)
    ensures values == Raised(ids) && |values| == |ids| && forall k :: 0 <= k < |ids| ==> values[k] == ids[k] + 1
  {
    values := Raised(ids);
  }

  lemma PutStep(cells: seq<Coords>, values: seq<int>, n: nat)
    requires n <= |cells| == |values|
    ensures n == 0 ==> Put(map[], cells[..n], values[..n]) == map[]
    ensures n < |cells| ==> Put(map[], cells[..n + 1], values[..n + 1]) == Put(map[], cells[..n], values[..n])[cells[n] := values[n]]
  {
    if n < |cells| {
      assert cells[..n + 1][..n] == cells[..n] && values[..n + 1][..n] == values[..n];
    }
  }

  lemma {:induction false} PlacesPrefix(ds: seq<DefAxis>, bins: seq<Coords>, ids: seq<nat>, before: Coords, n: nat)
    requires AllReadable(ds, bins) && n <= |ids|
    ensures PlacesOf(ds, bins, ids, before)[..n] == PlacesOf(ds, bins, ids[..n], before)
    ensures n < |ids| ==>
              PlacesOf(ds, bins, ids, before)[n] ==
                PointAt(ds, bins, ids[n], if n == 0 then before else PlacesOf(ds, bins, ids, before)[n - 1])
    decreases |ids|
  {
    hide AllReadable, PointAt;
    if n == |ids| {
      assert ids[..n] == ids;
    } else {
      var last := |ids| - 1;
      PlacesPrefix(ds, bins, ids[..last], before, n);
      assert ids[..last][..n] == ids[..n];
      assert ids[..last][..last] == ids[..last];
    }
  }

  // ----- refreshing a list of ids that all have a cell

  ghost predicate AllHaveCells(ds: seq<DefAxis>, bins: seq<Coords>, ids: seq<nat>)
    requires AllReadable(ds, bins)
  {
    forall id :: id in ids ==> HasCell(ds, bins, id)
  }

  // The cell of each id.
  ghost function CellsRead(ds: seq<DefAxis>, bins: seq<Coords>, ids: seq<nat>): Cells
    requires AllReadable(ds, bins) && AllHaveCells(ds, bins, ids)
  {
    map id | id in ids :: CellRead(ds, bins, id)
  }

  lemma {:induction false} PutIsStore(places: seq<Coords>, ids: seq<nat>, cells: Cells)
    requires |places| == |ids| && forall k :: 0 <= k < |ids| ==> ids[k] in cells && places[k] == cells[ids[k]]
    ensures Put(map[], places, Raised(ids)) == Store(ids, cells)
  {
    if ids != [] {
      var n := |ids| - 1;
      PutIsStore(places[..n], ids[..n], cells);
      assert Raised(ids)[..n] == Raised(ids[..n]);
    }
  }

  // Then what the loop leaves does not depend on the point: each id is in its own bin's cell.
  lemma RefreshIsStore(ds: seq<DefAxis>, bins: seq<Coords>, ids: seq<nat>, before: Coords)
    requires AllReadable(ds, bins) && AllHaveCells(ds, bins, ids)
    ensures Put(map[], PlacesOf(ds, bins, ids, before), Raised(ids)) == Store(ids, CellsRead(ds, bins, ids))
  {
    hide AllReadable, HasCell, CellRead, Store, Put, PlacesOf;
    var (places, cells) := (PlacesOf(ds, bins, ids, before), CellsRead(ds, bins, ids));
    forall k | 0 <= k < |ids| ensures ids[k] in cells && places[k] == cells[ids[k]] {
      PlacesPrefix(ds, bins, ids, before, k);
    }
    PutIsStore(places, ids, cells);
  }
}
