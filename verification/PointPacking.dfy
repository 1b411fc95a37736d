// A point of a definition picks one interval per axis. Its flat content coordinates have three slots for a
// rebinnable axis and one for the others; the readers walk them with a running index.
module PointPacking {
  import opened Collections
  import opened Odometer
  import opened AxisPartition

  datatype Kind = Single | Multiple | User
  datatype Axis = Axis(nbins: nat, kind: Kind)

  // ----- packing

  function Slots(a: Axis, c: Code): seq<int> {
    match a.kind
    case Single => [c.bin]
    case Multiple => [c.rebin, c.start, c.bin]
    case User => [1]
  }

  function SlotCount(a: Axis): nat { if a.kind.Multiple? then 3 else 1 }

  function Pack(axes: seq<Axis>, choice: seq<Code>): seq<int>
    requires |choice| == |axes|
  {
    if axes == [] then []
    else
      var n := |axes| - 1;
      Pack(axes[..n], choice[..n]) + Slots(axes[n], choice[n])
  }

  function PackedSize(axes: seq<Axis>): nat {
    if axes == [] then 0 else PackedSize(axes[..|axes| - 1]) + SlotCount(axes[|axes| - 1])
  }

  // ----- reading back

  // The slots of one axis, as a code: a user axis always spans its whole base axis.
  function CodeAt(a: Axis, c: seq<int>, index: nat): Code
    requires index + SlotCount(a) <= |c|
  {
    match a.kind
    case Single => Code(1, 1, c[index])
    case Multiple => Code(c[index], c[index + 1], c[index + 2])
    case User => Code(a.nbins, 1, 1)
  }

  function RangeAt(a: Axis, c: seq<int>, index: nat): Option<Interval>
    requires index + SlotCount(a) <= |c|
  {
    DecodeOn(a.nbins, CodeAt(a, c, index))
  }

  // The interval an entry stands for on its axis.
  function RangeOf(a: Axis, c: Code): Option<Interval> {
    match a.kind
    case Single => DecodeOn(a.nbins, Code(1, 1, c.bin))
    case Multiple => DecodeOn(a.nbins, c)
    case User => DecodeOn(a.nbins, Code(a.nbins, 1, 1))
  }

  lemma {:induction false} PackSize(axes: seq<Axis>, choice: seq<Code>)
    requires |choice| == |axes|
    ensures |Pack(axes, choice)| == PackedSize(axes)
  {
    if axes != [] {
      PackSize(axes[..|axes| - 1], choice[..|axes| - 1]);
    }
  }

  // The numbers s stand at position i.
  predicate Reads(c: seq<int>, i: nat, s: seq<int>) {
    i + |s| <= |c| && forall k :: 0 <= k < |s| ==> s[k] == c[i + k]
  }

  lemma ReadsFront(c: seq<int>, d: seq<int>, i: nat, s: seq<int>)
    ensures Reads(c, i, s) ==> Reads(c + d, i, s)
    ensures Reads(c + d, |c|, d)
  {
  }

  // The slots of axis n stand right behind those of the axes before it.
  lemma {:induction false} SlotsAt(axes: seq<Axis>, choice: seq<Code>, n: nat)
    requires |choice| == |axes| && n < |axes|
    ensures PackedSize(axes[..n + 1]) == PackedSize(axes[..n]) + SlotCount(axes[n])
    ensures Reads(Pack(axes, choice), PackedSize(axes[..n]), Slots(axes[n], choice[n]))
    decreases |axes|
  {
    hide Slots, Reads, SlotCount;
    var last := |axes| - 1;
    PackSize(axes[..last], choice[..last]);
    ReadsFront(Pack(axes[..last], choice[..last]), Slots(axes[last], choice[last]), PackedSize(axes[..n]),
               Slots(axes[n], choice[n]));
    assert axes[..n + 1][..n] == axes[..n];
    if n < last {
      SlotsAt(axes[..last], choice[..last], n);
      assert axes[..last][..n] == axes[..n];
    }
  }

  lemma SlotsRead(a: Axis, code: Code, c: seq<int>, i: nat)
    requires Reads(c, i, Slots(a, code))
    ensures i + SlotCount(a) <= |c|
    ensures RangeAt(a, c, i) == RangeOf(a, code)
    ensures a.kind.Multiple? ==> c[i] == code.rebin && c[i + 1] == code.start && c[i + 2] == code.bin
    ensures a.kind.Single? ==> c[i] == code.bin
    ensures a.kind.User? ==> c[i] == 1
  {
    hide DecodeOn;
    assert |Slots(a, code)| == SlotCount(a);
    assert Slots(a, code)[0] == c[i + 0];
    if a.kind.Multiple? {
      assert Slots(a, code)[1] == c[i + 1] && Slots(a, code)[2] == c[i + 2];
    }
  }

  // Reading the slots of axis n from a packed point gives the entry that was packed.
  lemma ReadsBack(axes: seq<Axis>, choice: seq<Code>, n: nat)
    requires |choice| == |axes| && n < |axes|
    ensures PackedSize(axes[..n]) + SlotCount(axes[n]) == PackedSize(axes[..n + 1]) <= |Pack(axes, choice)|
    ensures RangeAt(axes[n], Pack(axes, choice), PackedSize(axes[..n])) == RangeOf(axes[n], choice[n])
  {
    hide Slots, Pack, RangeAt, RangeOf;
    SlotsAt(axes, choice, n);
    SlotsRead(axes[n], choice[n], Pack(axes, choice), PackedSize(axes[..n]));
  }

  // All ranges or none, as the reader returns them.
  function Ranges(axes: seq<Axis>, choice: seq<Code>): Option<seq<Interval>>
    requires |choice| == |axes|
  {
    if axes == [] then Some([])
    else
      var n := |axes| - 1;
      var (init, r) := (Ranges(axes[..n], choice[..n]), RangeOf(axes[n], choice[n]));
      if init.None? || r.None? then None else Some(init.value + [r.value])
  }

  lemma {:induction false} RangesAre(axes: seq<Axis>, choice: seq<Code>, v: seq<Interval>)
    requires |choice| == |axes| == |v| && forall n :: 0 <= n < |axes| ==> RangeOf(axes[n], choice[n]) == Some(v[n])
    ensures Ranges(axes, choice) == Some(v)
  {
    if axes != [] {
      RangesAre(axes[..|axes| - 1], choice[..|axes| - 1], v[..|axes| - 1]);
      assert v == v[..|axes| - 1] + [v[|axes| - 1]];
    }
  }

  // The ranges read from any flat coordinates that are long enough.
  function RangesIn(axes: seq<Axis>, c: seq<int>): (r: Option<seq<Interval>>)
    requires |c| >= PackedSize(axes)
    ensures r.Some? ==> |r.value| == |axes|
  {
    if axes == [] then Some([])
    else
      var n := |axes| - 1;
      var (init, r) := (RangesIn(axes[..n], c), RangeAt(axes[n], c, PackedSize(axes[..n])));
      if init.None? || r.None? then None else Some(init.value + [r.value])
  }

  lemma {:induction false} SizeGrows(axes: seq<Axis>, n: nat)
    requires n <= |axes|
    ensures PackedSize(axes[..n]) <= PackedSize(axes)
    ensures n < |axes| ==> PackedSize(axes[..n + 1]) == PackedSize(axes[..n]) + SlotCount(axes[n]) <= PackedSize(axes)
    decreases |axes|
  {
    if n == |axes| {
      assert axes[..n] == axes;
    } else {
      SizeGrows(axes[..|axes| - 1], n);
      assert axes[..|axes| - 1][..n] == axes[..n] && axes[..n + 1][..n] == axes[..n];
      if n == |axes| - 1 {
        assert axes[..n + 1] == axes;
      } else {
        assert axes[..|axes| - 1][..n + 1] == axes[..n + 1];
      }
    }
  }

  lemma {:induction false} RangesStop(axes: seq<Axis>, c: seq<int>, n: nat)
    requires n <= |axes| && |c| >= PackedSize(axes)
    ensures PackedSize(axes[..n]) <= |c|
    ensures RangesIn(axes[..n], c).None? ==> RangesIn(axes, c).None?
    decreases |axes|
  {
    SizeGrows(axes, n);
    if n == |axes| {
      assert axes[..n] == axes;
    } else {
      RangesStop(axes[..|axes| - 1], c, n);
      assert axes[..|axes| - 1][..n] == axes[..n];
    }
  }

  // Reading a packed point gives exactly the intervals packed, or nothing if one of them is off its axis.
  lemma {:induction false} UnpackPacked(axes: seq<Axis>, choice: seq<Code>, n: nat)
    requires |choice| == |axes| && n <= |axes|
    ensures |Pack(axes, choice)| == PackedSize(axes) >= PackedSize(axes[..n])
    ensures RangesIn(axes[..n], Pack(axes, choice)) == Ranges(axes[..n], choice[..n])
    decreases n
  {
    hide Pack, RangeAt, RangeOf, SlotCount;
    PackSize(axes, choice);
    SizeGrows(axes, n);
    if n > 0 {
      UnpackPacked(axes, choice, n - 1);
      ReadsBack(axes, choice, n - 1);
      assert axes[..n][..n - 1] == axes[..n - 1] && choice[..n][..n - 1] == choice[..n - 1];
    }
  }

  // The reader with its running index; the first interval that is not on its axis ends it with nothing.
  method GetAxisRanges(axes: seq<Axis>, c: seq<int>) returns (ranges: Option<seq<Interval>>)
    requires |c| >= PackedSize(axes)
    ensures ranges == RangesIn(axes, c)
  {
    hide RangeAt, SlotCount;
    var found: seq<Interval> := [];
    var index := 0;
    for n := 0 to |axes|
      invariant index == PackedSize(axes[..n]) <= |c| && RangesIn(axes[..n], c) == Some(found)
    {
      SizeGrows(axes, n);
      RangesStop(axes, c, n + 1);
      assert axes[..n + 1][..n] == axes[..n];
      var r := RangeAt(axes[n], c, index);
      index := index + SlotCount(axes[n]);
      if r.None? {
        return None;
      }
      found := found + [r.value];
    }
    assert axes[..|axes|] == axes;
    return Some(found);
  }

  // The entry of one axis as three numbers.
  function EntryAt(a: Axis, c: seq<int>, index: nat): seq<int>
    requires index + SlotCount(a) <= |c|
  {
    match a.kind
    case Single => [1, 1, c[index]]
    case Multiple => [c[index], c[index + 1], c[index + 2]]
    case User => [c[index], 1, 1]
  }

  // The reader of one axis skips the slots of the axes before it; an axis there is not has no entry.
  method GetAxisBinning(axes: seq<Axis>, c: seq<int>, axisId: nat) returns (binning: seq<int>)
    requires |c| >= PackedSize(axes)
    ensures axisId >= |axes| ==> binning == []
    ensures axisId < |axes| ==>
              && PackedSize(axes[..axisId]) + SlotCount(axes[axisId]) <= |c|
              && binning == EntryAt(axes[axisId], c, PackedSize(axes[..axisId]))
  {
    binning := [];
    var index := 0;
    for n := 0 to |axes|
      invariant index == PackedSize(axes[..n]) && binning == []
      invariant n <= axisId || axisId >= |axes|
    {
      SizeGrows(axes, n);
      if n == axisId {
        match axes[n].kind {
          case Single => return [1, 1, c[index]];
          case Multiple => return [c[index], c[index + 1], c[index + 2]];
          case User => return [c[index], 1, 1];
        }
      }
      index := index + SlotCount(axes[n]);
    }
  }

  // On a packed point the entry read is the one packed.
  lemma EntryPacked(axes: seq<Axis>, choice: seq<Code>, n: nat)
    requires |choice| == |axes| && n < |axes|
    ensures PackedSize(axes[..n]) + SlotCount(axes[n]) <= |Pack(axes, choice)|
    ensures EntryAt(axes[n], Pack(axes, choice), PackedSize(axes[..n])) ==
              (match axes[n].kind
               case Single => [1, 1, choice[n].bin]
               case Multiple => [choice[n].rebin, choice[n].start, choice[n].bin]
               case User => [1, 1, 1])
  {
    hide Slots, Pack, Reads, RangeAt, RangeOf;
    SlotsAt(axes, choice, n);
    SlotsRead(axes[n], choice[n], Pack(axes, choice), PackedSize(axes[..n]));
  }

  // ----- when two points share their content coordinates

  predicate SameSlots(axes: seq<Axis>, a: seq<Code>, b: seq<Code>)
    requires |a| == |axes| == |b|
  {
    forall n :: 0 <= n < |axes| ==> Slots(axes[n], a[n]) == Slots(axes[n], b[n])
  }

  lemma SameReads(c: seq<int>, i: nat, s: seq<int>, t: seq<int>)
    requires Reads(c, i, s) && Reads(c, i, t) && |s| == |t|
    ensures s == t
  {
    forall k | 0 <= k < |s| ensures s[k] == t[k] {
      assert s[k] == c[i + k];
    }
  }

  lemma {:induction false} PackSame(axes: seq<Axis>, a: seq<Code>, b: seq<Code>)
    requires |a| == |axes| == |b|
    ensures Pack(axes, a) == Pack(axes, b) <==> SameSlots(axes, a, b)
  {
    if Pack(axes, a) == Pack(axes, b) {
      forall n | 0 <= n < |axes| ensures Slots(axes[n], a[n]) == Slots(axes[n], b[n]) {
        SlotsAt(axes, a, n);
        SlotsAt(axes, b, n);
        SameReads(Pack(axes, a), PackedSize(axes[..n]), Slots(axes[n], a[n]), Slots(axes[n], b[n]));
      }
    }
    if SameSlots(axes, a, b) && axes != [] {
      PackSame(axes[..|axes| - 1], a[..|axes| - 1], b[..|axes| - 1]);
    }
  }

  // ----- all combinations of the entries of a definition

  type Content = seq<seq<Code>>

  function Ones(content: Content): Coords { seq(|content|, i => 1) }

  function Sizes(content: Content): Coords { seq(|content|, i requires 0 <= i < |content| => |content[i]|) }

  predicate EveryAxis(content: Content) { forall i :: 0 <= i < |content| ==> content[i] != [] }

  function Product(content: Content): nat {
    if content == [] then 1 else |content[0]| * Product(content[1..])
  }

  lemma {:induction false} VolumeIsProduct(content: Content)
    requires EveryAxis(content)
    ensures IsBox(Ones(content), Sizes(content))
    ensures Volume(Ones(content), Sizes(content)) == Product(content)
  {
    if content != [] {
      assert Ones(content)[1..] == Ones(content[1..]) && Sizes(content)[1..] == Sizes(content[1..]);
      assert forall i :: 0 <= i < |content[1..]| ==> content[1..][i] == content[i + 1];
      VolumeIsProduct(content[1..]);
    }
  }

  // The entries a point of the box of combinations picks; positions count from 1.
  function Chosen(content: Content, c: Coords): (choice: seq<Code>)
    requires InBox(Ones(content), Sizes(content), c)
    ensures |choice| == |content|
  {
    seq(|content|, i requires 0 <= i < |content| => content[i][c[i] - 1])
  }

  // Entries that occupy different slots. A user axis has one slot and one number for it.
  ghost predicate Apart(a: Axis, entries: seq<Code>) {
    forall j, k :: 0 <= j < k < |entries| ==> Slots(a, entries[j]) != Slots(a, entries[k])
  }

  ghost predicate ApartAll(axes: seq<Axis>, content: Content)
    requires |axes| == |content|
  {
    forall i :: 0 <= i < |axes| && !axes[i].kind.User? ==> Apart(axes[i], content[i])
  }

  predicate OneUserEntry(axes: seq<Axis>, content: Content)
    requires |axes| == |content|
  {
    forall i :: 0 <= i < |axes| && axes[i].kind.User? ==> |content[i]| <= 1
  }

  lemma PackedApart(axes: seq<Axis>, content: Content, c: Coords, d: Coords)
    requires |axes| == |content| && ApartAll(axes, content) && OneUserEntry(axes, content)
    requires InBox(Ones(content), Sizes(content), c) && InBox(Ones(content), Sizes(content), d) && c != d
    ensures Pack(axes, Chosen(content, c)) != Pack(axes, Chosen(content, d))
  {
    hide Pack;
    var i :| 0 <= i < |c| && c[i] != d[i];
    PackSame(axes, Chosen(content, c), Chosen(content, d));
    assert |content[i]| >= 2 && !axes[i].kind.User?;
    assert Apart(axes[i], content[i]);
    var (j, k) := (c[i] - 1, d[i] - 1);
    assert Slots(axes[i], content[i][j]) != Slots(axes[i], content[i][k]) by {
      if j < k {
        assert Slots(axes[i], content[i][j]) != Slots(axes[i], content[i][k]);
      } else {
        assert Slots(axes[i], content[i][k]) != Slots(axes[i], content[i][j]);
      }
    }
  }

  // Two entries on a user axis: two points of the box with the same content coordinates.
  lemma PackedClash(axes: seq<Axis>, content: Content) returns (c: Coords, d: Coords)
    requires |axes| == |content| && EveryAxis(content) && !OneUserEntry(axes, content)
    ensures InBox(Ones(content), Sizes(content), c) && InBox(Ones(content), Sizes(content), d) && c != d
    ensures Pack(axes, Chosen(content, c)) == Pack(axes, Chosen(content, d))
  {
    hide Pack;
    var i :| 0 <= i < |axes| && axes[i].kind.User? && |content[i]| > 1;
    c := Ones(content);
    d := c[i := 2];
    assert d[i] != c[i];
    PackSame(axes, Chosen(content, c), Chosen(content, d));
  }

  // Content coordinates of all combinations in the order in which they are visited.
  function Packed(axes: seq<Axis>, content: Content): (ps: seq<Coords>)
    requires |axes| == |content| && EveryAxis(content)
    ensures IsBox(Ones(content), Sizes(content))
    ensures |ps| == Volume(Ones(content), Sizes(content))
  {
    VolumeIsProduct(content);
    PackedInBox(content);
    seq(Volume(Ones(content), Sizes(content)),
        k requires 0 <= k < Volume(Ones(content), Sizes(content)) =>
          Pack(axes, Chosen(content, Point(Ones(content), Sizes(content), k))))
  }

  lemma PackedInBox(content: Content)
    requires IsBox(Ones(content), Sizes(content))
    ensures forall k: nat :: k < Volume(Ones(content), Sizes(content)) ==>
              InBox(Ones(content), Sizes(content), Point(Ones(content), Sizes(content), k))
  {
    hide InBox, Volume, Point, Ones, Sizes;
    forall k: nat | k < Volume(Ones(content), Sizes(content))
      ensures InBox(Ones(content), Sizes(content), Point(Ones(content), Sizes(content), k))
    {
      RankOfPoint(Ones(content), Sizes(content), k);
    }
  }

  // The combinations have pairwise distinct content coordinates exactly when no user axis has more than
  // one entry.
  lemma DistinctIffOneUserEntry(axes: seq<Axis>, content: Content)
    requires |axes| == |content| && EveryAxis(content) && ApartAll(axes, content)
    ensures Distinct(Packed(axes, content)) <==> OneUserEntry(axes, content)
    ensures |Packed(axes, content)| == Product(content)
  {
    hide Pack, Point, Volume, Chosen, Rank, OneUserEntry, ApartAll, Sizes, Ones;
    VolumeIsProduct(content);
    PackedInBox(content);
    var (lo, hi, ps) := (Ones(content), Sizes(content), Packed(axes, content));
    if OneUserEntry(axes, content) {
      forall j, k | 0 <= j < k < |ps| ensures ps[j] != ps[k] {
        RankOfPoint(lo, hi, j);
        RankOfPoint(lo, hi, k);
        PackedApart(axes, content, Point(lo, hi, j), Point(lo, hi, k));
      }
    } else {
      var c, d := PackedClash(axes, content);
      RankInRange(lo, hi, c);
      RankInRange(lo, hi, d);
      PointOfRank(lo, hi, c);
      PointOfRank(lo, hi, d);
      assert ps[Rank(lo, hi, c)] == ps[Rank(lo, hi, d)];
    }
  }

  // The codes registered for a definition of a rebinnable axis are apart.
  lemma RegisteredApart(a: Axis, v: seq<Interval>)
    requires a.kind.Multiple? && Ordered(v) && forall k :: 1 <= k < |v| ==> v[k].min > v[k - 1].max
    ensures Apart(a, Codes(v))
  {
    hide Encode;
    forall j, k | 0 <= j < k < |v| ensures Slots(a, Codes(v)[j]) != Slots(a, Codes(v)[k]) {
      IntervalsIncrease(v, j, k);
      if Codes(v)[j] == Codes(v)[k] {
        EncodeInjective(v[j].min, v[j].max + 1, v[k].min, v[k].max + 1);
      }
    }
  }
}
