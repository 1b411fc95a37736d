// Adding a definition: its axes are registered and grouped, and every combination of the registered
// intervals gets a content bin and a storage cell. The storage cell turns out to be the position of the
// combination, so the ids are already in storage order.
module DefinitionFill {
  import opened Collections
  import opened Odometer
  import opened AxisPartition
  import opened PointPacking
  import opened StorageIndex

  // ----- the sparse content

  // A sparse histogram numbers its bins in the order in which they are first asked for.
  function Stored(bins: seq<Coords>, p: Coords): seq<Coords> { if p in bins then bins else bins + [p] }

  function StoredAll(bins: seq<Coords>, ps: seq<Coords>): seq<Coords> {
    if ps == [] then bins else Stored(StoredAll(bins, ps[..|ps| - 1]), ps[|ps| - 1])
  }

  // The ids name the given bins.
  ghost predicate Name(bins: seq<Coords>, ids: seq<nat>, ps: seq<Coords>) {
    |ids| == |ps| && forall k :: 0 <= k < |ids| ==> ids[k] < |bins| && bins[ids[k]] == ps[k]
  }

  // Ids of distinct bins are distinct exactly when the bins asked for are.
  lemma NamesDistinctIff(bins: seq<Coords>, ids: seq<nat>, ps: seq<Coords>)
    requires Distinct(bins) && Name(bins, ids, ps)
    ensures Distinct(ids) <==> Distinct(ps)
  {
    forall j, k | 0 <= j < |ids| && 0 <= k < |ids| ensures ids[j] == ids[k] <==> ps[j] == ps[k] {
      SamePlace(bins, ids[j], ids[k]);
    }
  }

  lemma SamePlace(bins: seq<Coords>, i: nat, j: nat)
    requires Distinct(bins) && i < |bins| && j < |bins|
    ensures bins[i] == bins[j] <==> i == j
  {
  }

  // ----- describing a definition

  // The axes of a binning as they are described to it: rebinnable axes with a width list, or none for the
  // whole axis, and user axes, which are not cut. No axis ever gets the type of single bins.
  ghost predicate AxesReady(nbins: seq<nat>, axes: seq<Axis>, edges: seq<seq<real>>, widths: seq<seq<AxisPartition.Width>>) {
    && |nbins| == |axes| == |edges| == |widths|
    && (forall i :: 0 <= i < |axes| ==>
          && nbins[i] == axes[i].nbins && |edges[i]| == nbins[i] + 1 >= 2 && EdgesIncrease(edges[i])
          && Proper(widths[i]) && !axes[i].kind.Single? && (axes[i].kind.User? ==> widths[i] == []))
  }

  function Described(axes: seq<Axis>, edges: seq<seq<real>>, widths: seq<seq<AxisPartition.Width>>, content: Content): seq<DefAxis>
    requires |axes| == |edges| == |widths| == |content|
  {
    seq(|axes|, i requires 0 <= i < |axes| => DefAxis(axes[i], edges[i], Defaulted(widths[i], axes[i].nbins), content[i]))
  }

  ghost function DefAxes(axes: seq<Axis>, edges: seq<seq<real>>, widths: seq<seq<AxisPartition.Width>>): seq<DefAxis>
    requires |axes| == |edges| == |widths|
    requires forall i :: 0 <= i < |axes| ==> Proper(widths[i]) && axes[i].nbins >= 1
  {
    seq(|axes|, i requires 0 <= i < |axes| =>
      DefAxis(axes[i], edges[i], Defaulted(widths[i], axes[i].nbins), TileCodes(widths[i], axes[i].nbins)))
  }

  lemma ReadyBinnable(nbins: seq<nat>, axes: seq<Axis>, edges: seq<seq<real>>, widths: seq<seq<AxisPartition.Width>>)
    requires AxesReady(nbins, axes, edges, widths)
    ensures Binnable(widths, nbins)
  {
  }

  // What is registered for an axis is what the filling needs of it.
  lemma TiledAxisOk(axis: Axis, edges: seq<real>, ws: seq<AxisPartition.Width>)
    requires |edges| == axis.nbins + 1 >= 2 && EdgesIncrease(edges) && Proper(ws)
    requires !axis.kind.Single? && (axis.kind.User? ==> ws == [])
    ensures var d := DefAxis(axis, edges, Defaulted(ws, axis.nbins), TileCodes(ws, axis.nbins));
            AxisOk(d) && |d.entries| == |AxisCuts(d)|
  {
    hide Cuts, Steps, Encode;
    RegistersTiling(Defaulted(ws, axis.nbins), axis.nbins);
    DefaultIsWholeAxis(axis.nbins);
  }

  lemma EntriesReady(nbins: seq<nat>, axes: seq<Axis>, edges: seq<seq<real>>, widths: seq<seq<AxisPartition.Width>>, content: Content)
    requires AxesReady(nbins, axes, edges, widths) && Binnable(widths, nbins) && |content| == |axes|
    requires forall i :: 0 <= i < |nbins| ==> content[i] == EntriesFor(DefinitionKeys(widths, nbins), i + 1)
    ensures Described(axes, edges, widths, content) == DefAxes(axes, edges, widths)
    ensures DefOk(DefAxes(axes, edges, widths))
    ensures forall i :: 0 <= i < |axes| ==> |content[i]| == |Cuts(Steps(Defaulted(widths[i], nbins[i]), nbins[i]), nbins[i])|
  {
    hide TileCodes, AxisOk, Cuts, Steps, EntriesFor, DefinitionKeys;
    forall i | 0 <= i < |axes|
      ensures content[i] == TileCodes(widths[i], nbins[i]) && AxisOk(DefAxes(axes, edges, widths)[i])
      ensures |content[i]| == |Cuts(Steps(Defaulted(widths[i], nbins[i]), nbins[i]), nbins[i])|
    {
      DefinitionEntries(widths, nbins, i + 1);
      TiledAxisOk(axes[i], edges[i], widths[i]);
    }
  }

  // The number of bins of each storage axis: one less than the edges the definition computes for it.
  method CountBins(nbins: seq<nat>, axes: seq<Axis>, edges: seq<seq<real>>, widths: seq<seq<AxisPartition.Width>>)
      returns (sizes: Coords)
    requires AxesReady(nbins, axes, edges, widths)
    ensures |sizes| == |axes|
    ensures forall i :: 0 <= i < |axes| ==>
              sizes[i] == |Cuts(Steps(Defaulted(widths[i], nbins[i]), nbins[i]), nbins[i])|
  {
    hide Cuts, Steps;
    sizes := [];
    for i := 0 to |axes|
      invariant |sizes| == i
      invariant forall j :: 0 <= j < i ==> sizes[j] == |Cuts(Steps(Defaulted(widths[j], nbins[j]), nbins[j]), nbins[j])|
    {
      DefaultIsWholeAxis(nbins[i]);
      var storageEdges, count := ComputeEdges(Defaulted(widths[i], nbins[i]), edges[i]);
      sizes := sizes + [count - 1];
    }
  }

  // ----- filling

  lemma NameMore(bins: seq<Coords>, ids: seq<nat>, ps: seq<Coords>, p: Coords, id: nat)
    requires Name(bins, ids, ps) && id < |Stored(bins, p)| && Stored(bins, p)[id] == p
    ensures Name(Stored(bins, p), ids + [id], ps + [p])
  {
  }

  lemma PackedAt(ds: seq<DefAxis>, k: nat)
    requires EveryAxis(ContentOf(ds)) && k < |Packed(AxesOf(ds), ContentOf(ds))|
    ensures var (lo, hi) := (PointPacking.Ones(ContentOf(ds)), Sizes(ContentOf(ds)));
            && IsBox(lo, hi) && |Packed(AxesOf(ds), ContentOf(ds))| == |Points(lo, hi)|
            && AtPoint(ds, Points(lo, hi)[k])
            && Packed(AxesOf(ds), ContentOf(ds))[k] == Pack(AxesOf(ds), Chosen(ContentOf(ds), Points(lo, hi)[k]))
  {
    hide Pack, Chosen, Volume, Point, InBox;
    VolumeIsProduct(ContentOf(ds));
    PackedInBox(ContentOf(ds));
  }

  class NBinningContent {
    var bins: seq<Coords>

    ghost predicate Valid()
      reads this
    {
      Distinct(bins)
    }

    constructor ()
      ensures Valid() && bins == []
    {
      bins := [];
    }

    // The number of the bin with these coordinates; a new one is allocated if there is none.
    method GetBin(p: Coords) returns (id: nat)
      requires Valid()
      modifies this
      ensures Valid() && bins == Stored(old(bins), p) && id < |bins| && bins[id] == p
    {
      if p in bins {
        id :| 0 <= id < |bins| && bins[id] == p;
      } else {
        id := |bins|;
        bins := bins + [p];
      }
    }

    // One combination: its content bin, and the storage cell found by reading the bin's coordinates back.
    method FillOne(ds: seq<DefAxis>, c: Coords, def: NBinningDef) returns (id: nat)
      requires Valid() && DefOk(ds) && AtPoint(ds, c)
      modifies this, def
      ensures Valid()
      ensures var p := Pack(AxesOf(ds), Chosen(ContentOf(ds), c));
              bins == Stored(old(bins), p) && id < |bins| && bins[id] == p
      ensures def.fIds == old(def.fIds) + [id] && def.fContent == old(def.fContent)[c := id]
    {
      hide Pack, Chosen, AxisOk, AxisCuts, CellReady, IntervalAt, Ranges, CellAt;
      var choice := Chosen(ContentOf(ds), c);
      id := GetBin(Pack(AxesOf(ds), choice));
      UnpackPacked(AxesOf(ds), choice, |ds|);
      assert AxesOf(ds)[..|ds|] == AxesOf(ds) && choice[..|ds|] == choice;
      var ranges := GetAxisRanges(AxesOf(ds), Pack(AxesOf(ds), choice));
      PointCell(ds, c);
      var cell := CellOf(ds, ranges.value);
      def.fContent := def.fContent[cell := id];
      def.fIds := def.fIds + [id];
    }

    // Adds a definition: the edges of its axes, the intervals registered for it, and all its combinations.
    // A user axis is not cut.
    method AddBinningDefinition(binning: NBinning, axes: seq<Axis>, edges: seq<seq<real>>, widths: seq<seq<AxisPartition.Width>>)
        returns (def: NBinningDef, filled: Option<nat>, ids: seq<nat>, ghost ds: seq<DefAxis>)
      requires Valid() && AxesReady(binning.fAxes, axes, edges, widths)
      modifies this, binning
      ensures Valid() && fresh(def) && binning.fMap == []
      ensures ds == DefAxes(axes, edges, widths) && DefOk(ds) && def.sizes == Sizes(ContentOf(ds))
      ensures filled.Some? <==> axes != [] && EveryAxis(ContentOf(ds))
      ensures filled.None? ==> bins == old(bins) && def.fIds == [] && def.fContent == map[]
      ensures filled.Some? ==>
        && filled.value == Product(ContentOf(ds)) == |ids| && def.fIds == ids
        && bins == StoredAll(old(bins), Packed(AxesOf(ds), ContentOf(ds)))
        && Name(bins, ids, Packed(AxesOf(ds), ContentOf(ds)))
        && |Points(PointPacking.Ones(ContentOf(ds)), Sizes(ContentOf(ds)))| == |ids|
        && def.fContent == Put(map[], Points(PointPacking.Ones(ContentOf(ds)), Sizes(ContentOf(ds))), ids)
        && (AllReadable(ds, old(bins)) ==> AllReadable(ds, bins))
    {
      hide AllReadable, TileCodes, AxisOk, Packed, StoredAll, Name, Points, Product, Put;
      var sizes := CountBins(binning.fAxes, axes, edges, widths);
      def := new NBinningDef(sizes);
      ReadyBinnable(binning.fAxes, axes, edges, widths);
      binning.RegisterDefinition(widths);
      DefinitionIds(widths, binning.fAxes);
      var content := binning.EntriesByAxis();
      EntriesReady(binning.fAxes, axes, edges, widths, content);
      var defAxes := Described(axes, edges, widths, content);
      ds := defAxes;
      filled, ids := FillAll(defAxes, def);
      binning.fMap := [];
      if filled.Some? && AllReadable(ds, old(bins)) {
        FilledReadable(ds, old(bins));
      }
    }

    // Fills a definition with all combinations of its entries, in the order of the box. None stands for
    // the exception thrown when an axis has no entry.
    method FillAll(ds: seq<DefAxis>, def: NBinningDef) returns (filled: Option<nat>, ids: seq<nat>)
      requires Valid() && DefOk(ds)
      modifies this, def
      ensures Valid() && (filled.Some? <==> ds != [] && EveryAxis(ContentOf(ds)))
      ensures filled.None? ==> bins == old(bins) && def.fIds == old(def.fIds) && def.fContent == old(def.fContent)
      ensures filled.Some? ==>
        var (axes, content) := (AxesOf(ds), ContentOf(ds));
        && filled.value == Product(content) == |ids|
        && bins == StoredAll(old(bins), Packed(axes, content)) && Name(bins, ids, Packed(axes, content))
        && def.fIds == old(def.fIds) + ids
        && |Points(PointPacking.Ones(content), Sizes(content))| == |ids|
        && def.fContent == Put(old(def.fContent), Points(PointPacking.Ones(content), Sizes(content)), ids)
    {
      hide Pack, Chosen, Points, Product, Packed, AxisOk, AtPoint, StoredAll, Stored, Name, Put;
      var content := ContentOf(ds);
      ids := [];
      BoundsOk(content);
      if CheckBounds(PointPacking.Ones(content), Sizes(content)) != NoError {
        return None, [];
      }
      VolumeIsProduct(content);
      var executor := new NDimensionalExecutor(PointPacking.Ones(content), Sizes(content));
      var walk := executor.Execute();
      ghost var ps := Packed(AxesOf(ds), content);
      PointsLength(content);
      assert walk[..0] == [] && ps[..0] == [];
      NothingYet(bins, def.fContent);
      for k := 0 to |walk|
        invariant Valid() && |ps| == |walk| && |ids| == k
        invariant bins == StoredAll(old(bins), ps[..k]) && Name(bins, ids, ps[..k])
        invariant def.fIds == old(def.fIds) + ids
        invariant def.fContent == Put(old(def.fContent), walk[..k], ids)
      {
        PackedAt(ds, k);
        var id := FillOne(ds, walk[k], def);
        NameMore(StoredAll(old(bins), ps[..k]), ids, ps[..k], ps[k], id);
        OneMore(old(bins), old(def.fContent), walk, ps, ids, k, id);
        ids := ids + [id];
      }
      assert walk[..|walk|] == walk && ps[..|walk|] == ps;
      return Some(|walk|), ids;
    }
  }

  lemma NothingYet(bins: seq<Coords>, content: map<Coords, int>)
    ensures StoredAll(bins, []) == bins && Name(bins, [], []) && Put(content, [], []) == content
  {
  }

  lemma BoundsOk(content: Content)
    ensures CheckBounds(PointPacking.Ones(content), Sizes(content)) == NoError <==> content != [] && EveryAxis(content)
  {
    if !EveryAxis(content) {
      var i :| 0 <= i < |content| && content[i] == [];
      assert PointPacking.Ones(content)[i] > Sizes(content)[i];
    }
  }

  lemma PointsLength(content: Content)
    requires EveryAxis(content)
    ensures IsBox(PointPacking.Ones(content), Sizes(content))
    ensures |Points(PointPacking.Ones(content), Sizes(content))| == Product(content)
  {
    hide Volume;
    VolumeIsProduct(content);
  }

  lemma OneMore(bins: seq<Coords>, content: map<Coords, int>, walk: seq<Coords>, ps: seq<Coords>, ids: seq<nat>, k: nat, id: nat)
    requires k < |walk| == |ps| && |ids| == k
    ensures StoredAll(bins, ps[..k + 1]) == Stored(StoredAll(bins, ps[..k]), ps[k])
    ensures Put(content, walk[..k + 1], ids + [id]) == Put(content, walk[..k], ids)[walk[k] := id]
    ensures ps[..k + 1] == ps[..k] + [ps[k]]
  {
    assert ps[..k + 1][..k] == ps[..k] && walk[..k + 1][..k] == walk[..k] && (ids + [id])[..k] == ids;
  }

  // ----- what filling a definition achieves

  // The ids of a definition are pairwise distinct, as many as the product of the entry counts, and each
  // reads back as the intervals of its combination.
  lemma FillNumbers(ds: seq<DefAxis>, bins: seq<Coords>, ids: seq<nat>)
    requires DefOk(ds) && EveryAxis(ContentOf(ds)) && Distinct(bins)
    requires Name(bins, ids, Packed(AxesOf(ds), ContentOf(ds)))
    ensures Distinct(ids) && |ids| == Product(ContentOf(ds))
  {
    hide Packed, AxisOk, Product;
    forall i | 0 <= i < |ds| ensures AxisFacts(ds[i]) {
      AxisFactsHold(ds[i]);
    }
    DistinctIffOneUserEntry(AxesOf(ds), ContentOf(ds));
    NamesDistinctIff(bins, ids, Packed(AxesOf(ds), ContentOf(ds)));
  }

  ghost predicate AxisFacts(d: DefAxis) { Apart(d.axis, d.entries) && (d.axis.kind.User? ==> |d.entries| <= 1) }

  lemma AxisFactsHold(d: DefAxis)
    requires AxisOk(d)
    ensures AxisFacts(d)
  {
    if d.entries == [] {
    } else {
      EntryRange(d, 0);
    }
  }

  // What a combination packs can be read, and gives its place in the box as the storage cell.
  lemma PackedReadable(ds: seq<DefAxis>, c: Coords)
    requires DefOk(ds) && AtPoint(ds, c)
    ensures var p := Pack(AxesOf(ds), Chosen(ContentOf(ds), c));
            && Readable(ds, p) && RangesIn(AxesOf(ds), p).Some?
            && CellOf(ds, RangesIn(AxesOf(ds), p).value) == c
  {
    hide Pack, Chosen, AxisOk, AxisCuts, CellReady, IntervalAt, Ranges, CellAt;
    var choice := Chosen(ContentOf(ds), c);
    PointCell(ds, c);
    UnpackPacked(AxesOf(ds), choice, |ds|);
    assert AxesOf(ds)[..|ds|] == AxesOf(ds) && choice[..|ds|] == choice;
  }

  // The content bin of each id, read back, has the place of its combination in the box as its cell.
  lemma FilledCell(ds: seq<DefAxis>, bins: seq<Coords>, ids: seq<nat>, k: nat)
    requires DefOk(ds) && EveryAxis(ContentOf(ds)) && AllReadable(ds, bins)
    requires Name(bins, ids, Packed(AxesOf(ds), ContentOf(ds))) && k < |ids|
    ensures var (lo, hi) := (PointPacking.Ones(ContentOf(ds)), Sizes(ContentOf(ds)));
            && IsBox(lo, hi) && |Points(lo, hi)| == |ids|
            && HasCell(ds, bins, ids[k]) && CellRead(ds, bins, ids[k]) == Points(lo, hi)[k]
  {
    hide Pack, Chosen, Points, AxisOk, CellOf, Readable, RangesIn, AtPoint, Packed;
    PackedAt(ds, k);
    PackedReadable(ds, Points(PointPacking.Ones(ContentOf(ds)), Sizes(ContentOf(ds)))[k]);
  }

  lemma {:induction false} StoredReadable(ds: seq<DefAxis>, bins: seq<Coords>, ps: seq<Coords>)
    requires AllReadable(ds, bins) && AllReadable(ds, ps)
    ensures AllReadable(ds, StoredAll(bins, ps))
  {
    hide Readable;
    if ps != [] {
      StoredReadable(ds, bins, ps[..|ps| - 1]);
    }
  }

  // Filling adds only content bins that can be read again.
  lemma FilledReadable(ds: seq<DefAxis>, bins: seq<Coords>)
    requires DefOk(ds) && EveryAxis(ContentOf(ds)) && AllReadable(ds, bins)
    ensures AllReadable(ds, StoredAll(bins, Packed(AxesOf(ds), ContentOf(ds))))
  {
    hide Readable, Packed, Pack, Chosen, AtPoint, AxisOk, Points, StoredAll;
    var ps := Packed(AxesOf(ds), ContentOf(ds));
    forall c | c in ps ensures Readable(ds, c) {
      var k :| 0 <= k < |ps| && ps[k] == c;
      PackedAt(ds, k);
      PackedReadable(ds, Points(PointPacking.Ones(ContentOf(ds)), Sizes(ContentOf(ds)))[k]);
    }
    StoredReadable(ds, bins, ps);
  }

  lemma {:induction false} CollectAll(walk: seq<Coords>, content: map<Coords, int>, ids: seq<nat>)
    requires |walk| == |ids| && forall k :: 0 <= k < |walk| ==> walk[k] in content && content[walk[k]] == ids[k] + 1
    ensures Collect(walk, content) == ids
  {
    if walk != [] {
      CollectAll(walk[..|walk| - 1], content, ids[..|walk| - 1]);
      assert ids == ids[..|walk| - 1] + [ids[|walk| - 1]];
    }
  }

  ghost function PlaceOf(ids: seq<nat>, id: nat): (k: nat)
    requires id in ids
    ensures k < |ids| && ids[k] == id
  {
    var k :| 0 <= k < |ids| && ids[k] == id;
    k
  }

  lemma WalkedCells(walk: seq<Coords>, ids: seq<nat>, cells: Cells)
    requires |walk| == |ids| && Distinct(walk)
    requires forall k :: 0 <= k < |ids| ==> ids[k] in cells && cells[ids[k]] == walk[k]
    ensures OwnCells(ids, cells) && forall id :: id in ids ==> id in cells && cells[id] in walk
  {
    forall a, b | a in ids && b in ids && a != b ensures cells[a] != cells[b] {
      var (j, k) := (PlaceOf(ids, a), PlaceOf(ids, b));
      assert walk[j] != walk[k];
    }
    forall id | id in ids ensures id in cells && cells[id] in walk {
      assert cells[id] == walk[PlaceOf(ids, id)];
    }
  }

  lemma CollectsWalk(walk: seq<Coords>, ids: seq<nat>, cells: Cells)
    requires |walk| == |ids| && OwnCells(ids, cells)
    requires forall k :: 0 <= k < |ids| ==> ids[k] in cells && cells[ids[k]] == walk[k]
    ensures Collect(walk, Store(ids, cells)) == ids
  {
    hide Store, Collect;
    forall k | 0 <= k < |walk| ensures walk[k] in Store(ids, cells) && Store(ids, cells)[walk[k]] == ids[k] + 1 {
      StoreOf(ids, cells, ids[k]);
    }
    CollectAll(walk, Store(ids, cells), ids);
  }

  // A definition that has just been filled is in storage order: each id has a cell of its own, the one its
  // content bin reads back to; what RefreshContentFromIds stores and collects is the same list of ids.
  lemma FilledIsInOrder(ds: seq<DefAxis>, bins: seq<Coords>, ids: seq<nat>, before: Coords)
    requires DefOk(ds) && EveryAxis(ContentOf(ds)) && AllReadable(ds, bins)
    requires Name(bins, ids, Packed(AxesOf(ds), ContentOf(ds)))
    ensures var (lo, hi) := (PointPacking.Ones(ContentOf(ds)), Sizes(ContentOf(ds)));
            && IsBox(lo, hi) && AllHaveCells(ds, bins, ids)
            && OwnCells(ids, CellsRead(ds, bins, ids)) && CellsInBox(ids, CellsRead(ds, bins, ids), lo, hi)
            && Refreshed(ids, CellsRead(ds, bins, ids), lo, hi) == ids
            && Collect(Points(lo, hi), Put(map[], PlacesOf(ds, bins, ids, before), Raised(ids))) == ids
  {
    hide Packed, AxisOk, Points, HasCell, CellRead, Store, Collect, Put, PlacesOf, InBox, AllReadable, Name, Product;
    var (lo, hi) := (PointPacking.Ones(ContentOf(ds)), Sizes(ContentOf(ds)));
    VolumeIsProduct(ContentOf(ds));
    NamesAll(ds, bins, ids);
    var (walk, cells) := (Points(lo, hi), CellsRead(ds, bins, ids));
    PointsCoverBox(lo, hi);
    WalkedCells(walk, ids, cells);
    CollectsWalk(walk, ids, cells);
    RefreshIsStore(ds, bins, ids, before);
  }

  lemma NamesAll(ds: seq<DefAxis>, bins: seq<Coords>, ids: seq<nat>)
    requires DefOk(ds) && EveryAxis(ContentOf(ds)) && AllReadable(ds, bins)
    requires Name(bins, ids, Packed(AxesOf(ds), ContentOf(ds)))
    ensures var (lo, hi) := (PointPacking.Ones(ContentOf(ds)), Sizes(ContentOf(ds)));
            && IsBox(lo, hi) && |Points(lo, hi)| == |ids| && AllHaveCells(ds, bins, ids)
            && forall k :: 0 <= k < |ids| ==> CellRead(ds, bins, ids[k]) == Points(lo, hi)[k]
  {
    hide AxisOk, HasCell, CellRead, AllReadable, Product, Volume, Point;
    var (lo, hi) := (PointPacking.Ones(ContentOf(ds)), Sizes(ContentOf(ds)));
    PointsLength(ContentOf(ds));
    DistinctCount(ds, bins, ids);
    forall k | 0 <= k < |ids| ensures HasCell(ds, bins, ids[k]) && CellRead(ds, bins, ids[k]) == Points(lo, hi)[k] {
      FilledCell(ds, bins, ids, k);
    }
  }

  lemma DistinctCount(ds: seq<DefAxis>, bins: seq<Coords>, ids: seq<nat>)
    requires EveryAxis(ContentOf(ds)) && Name(bins, ids, Packed(AxesOf(ds), ContentOf(ds)))
    ensures |ids| == Product(ContentOf(ds))
  {
    hide Pack, Volume, Point;
    VolumeIsProduct(ContentOf(ds));
  }

  lemma {:induction false} PutIs(walk: seq<Coords>, ids: seq<nat>, c: Coords)
    requires |walk| == |ids|
    ensures c in Put(map[], walk, ids) ==> Put(map[], walk, ids)[c] in ids
  {
    if ids != [] {
      PutIs(walk[..|ids| - 1], ids[..|ids| - 1], c);
    }
  }

  lemma {:induction false} Largest(ids: seq<nat>) returns (m: nat)
    requires ids != []
    ensures m in ids && forall id :: id in ids ==> id <= m
  {
    if |ids| == 1 {
      m := ids[0];
    } else {
      m := Largest(ids[1..]);
      if ids[0] > m {
        m := ids[0];
      }
      assert forall id :: id in ids ==> id == ids[0] || id in ids[1..];
    }
  }

  // Filling stores the ids themselves where refreshing expects them one higher: ids collected from a
  // content that was filled and not refreshed are not the ids of the definition.
  lemma CollectAfterFillDiffers(lo: Coords, hi: Coords, ids: seq<nat>)
    requires IsBox(lo, hi) && |Points(lo, hi)| == |ids|
    ensures ToSet(Collect(Points(lo, hi), Put(map[], Points(lo, hi), ids))) != ToSet(ids)
  {
    hide Put, Collect, Occupied, Volume, Point;
    var (walk, content) := (Points(lo, hi), Put(map[], Points(lo, hi), ids));
    assert |walk| >= 1;
    var m := Largest(ids);
    CollectIs(walk, content);
    var found := Collect(walk, content);
    forall k | 0 <= k < |found| ensures found[k] < m {
      PutIs(walk, ids, Occupied(walk, content)[k]);
    }
    assert m in ToSet(ids) && m !in ToSet(found);
  }
}
