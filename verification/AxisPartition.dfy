// How one axis is cut into intervals of base bins: the loop that registers the intervals in the binning
// map, the loop that computes the bin edges of a definition, and the encoding of an interval.
module AxisPartition {
  import opened Collections
  import opened Odometer

  // One entry of a definition: a width and how often it is repeated; without a count it is repeated as
  // often as it fits into the axis.
  datatype Width = Width(width: int, count: Option<int>)

  predicate Proper(ws: seq<Width>) {
    forall k :: 0 <= k < |ws| ==> ws[k].width >= 1 && (ws[k].count.Some? ==> ws[k].count.value >= 0)
  }

  function Times(w: Width, nbins: nat): int
    requires w.width >= 1
  {
    if w.count.Some? then w.count.value else nbins / w.width
  }

  // ----- the partition as a function

  function Repeat(width: int, n: nat): seq<int> { seq(n, i => width) }

  // The widths one after the other.
  function Steps(ws: seq<Width>, nbins: nat): seq<int>
    requires Proper(ws)
  {
    if ws == [] then []
    else
      var n := Times(ws[|ws| - 1], nbins);
      Steps(ws[..|ws| - 1], nbins) + Repeat(ws[|ws| - 1].width, if n < 0 then 0 else n)
  }

  // The right ends of the intervals: as many steps as fit into the axis.
  function Cuts(steps: seq<int>, nbins: nat): seq<int> {
    if steps == [] then []
    else
      var (init, last) := (Cuts(steps[..|steps| - 1], nbins), Reach(steps));
      if last <= nbins && |init| == |steps| - 1 then init + [last] else init
  }

  function Reach(steps: seq<int>): int {
    if steps == [] then 0 else Reach(steps[..|steps| - 1]) + steps[|steps| - 1]
  }

  datatype Interval = Interval(min: int, max: int)

  function Intervals(cuts: seq<int>): seq<Interval> {
    seq(|cuts|, k requires 0 <= k < |cuts| => Interval(if k == 0 then 1 else cuts[k - 1] + 1, cuts[k]))
  }

  predicate Positive(steps: seq<int>) { forall k :: 0 <= k < |steps| ==> steps[k] >= 1 }

  // Cuts of positive steps: each is the reach of a prefix, they increase and stay on the axis.
  ghost predicate CutsOf(steps: seq<int>, nbins: nat, cuts: seq<int>) {
    && |cuts| <= |steps|
    && (forall k :: 0 <= k < |cuts| ==> cuts[k] == Reach(steps[..k + 1]) <= nbins)
    && (|cuts| < |steps| ==> Reach(steps[..|cuts| + 1]) > nbins)
  }

  lemma {:induction false} CutsAre(steps: seq<int>, nbins: nat)
    requires Positive(steps)
    ensures CutsOf(steps, nbins, Cuts(steps, nbins))
  {
    if steps != [] {
      var (init, cuts) := (steps[..|steps| - 1], Cuts(steps, nbins));
      CutsAre(init, nbins);
      assert steps[..|steps|] == steps;
      forall k | 0 <= k < |cuts| ensures cuts[k] == Reach(steps[..k + 1]) <= nbins {
        if k < |init| {
          assert init[..k + 1] == steps[..k + 1];
        }
      }
      if |Cuts(init, nbins)| < |init| {
        assert init[..|Cuts(init, nbins)| + 1] == steps[..|Cuts(init, nbins)| + 1];
      }
    }
  }

  lemma ReachStep(steps: seq<int>, k: nat)
    requires k < |steps|
    ensures Reach(steps[..k + 1]) == Reach(steps[..k]) + steps[k]
  {
    assert steps[..k + 1][..k] == steps[..k];
  }

  // The intervals start at bin 1, leave no gap, do not overlap, and each is as wide as its step.
  lemma IntervalsTile(steps: seq<int>, nbins: nat, k: nat)
    requires Positive(steps) && k < |Cuts(steps, nbins)|
    ensures |Cuts(steps, nbins)| <= |steps|
    ensures var v := Intervals(Cuts(steps, nbins));
            && 1 <= v[k].min <= v[k].max <= nbins
            && v[k].min == (if k == 0 then 1 else v[k - 1].max + 1)
            && v[k].max - v[k].min + 1 == steps[k]
  {
    CutsAre(steps, nbins);
    ReachStep(steps, k);
    assert steps[..0] == [];
    ReachGrows(steps, 0, k);
  }

  lemma {:induction false} ReachGrows(steps: seq<int>, i: nat, j: nat)
    requires Positive(steps) && i <= j <= |steps|
    ensures Reach(steps[..j]) >= Reach(steps[..i]) + (j - i)
    decreases j
  {
    if i < j {
      ReachStep(steps, j - 1);
      ReachGrows(steps, i, j - 1);
    }
  }

  // There are never more cuts than base bins.
  lemma CutsFit(steps: seq<int>, nbins: nat)
    requires Positive(steps)
    ensures |Cuts(steps, nbins)| <= nbins
  {
    CutsAre(steps, nbins);
    var n := |Cuts(steps, nbins)|;
    if n > 0 {
      assert Cuts(steps, nbins)[n - 1] == Reach(steps[..n]);
      assert steps[..0] == [];
      ReachGrows(steps, 0, n);
    }
  }

  // ----- the encoding of an interval

  datatype Code = Code(rebin: int, start: int, bin: int)

  // The remainder of a truncating division.
  function Rem(a: int, r: int): int
    requires r >= 1
  {
    if a >= 0 then a % r else -((-a) % r)
  }

  // The interval from a to b - 1.
  function Encode(a: int, b: int): Code
    requires a < b && 1 <= b
  {
    var rebin := b - a;
    if rebin == 1 then Code(1, 1, a) else Code(rebin, Rem(a, rebin), b / rebin)
  }

  function Decode(c: Code): Interval {
    var min := c.rebin * (c.bin - 1) + c.start;
    Interval(min, min + c.rebin - 1)
  }

  // The range check of the decoder.
  function DecodeOn(nbins: nat, c: Code): Option<Interval> {
    var v := Decode(c);
    if v.min < 1 || v.max > nbins then None else Some(v)
  }

  lemma DivPlusOne(a: int, r: int)
    requires r >= 1
    ensures (a + r) / r == a / r + 1
  {
    DivModOf(a / r + 1, r, a % r);
    assert (a / r + 1) * r + a % r == a + r;
  }

  // Decoding gives back exactly the interval, with and without the special case for single bins.
  lemma DecodeEncode(a: int, b: int)
    requires 1 <= a < b
    ensures Decode(Encode(a, b)) == Interval(a, b - 1)
  {
    var r := b - a;
    if r > 1 {
      DivPlusOne(a, r);
      assert r * (a / r) + a % r == a;
    }
  }

  lemma EncodeInjective(a: int, b: int, a': int, b': int)
    requires 1 <= a < b && 1 <= a' < b' && Encode(a, b) == Encode(a', b')
    ensures a == a' && b == b'
  {
    DecodeEncode(a, b);
    DecodeEncode(a', b');
  }

  // The three numbers are valid bin numbers of an axis with nbins bins; start may be the underflow bin.
  lemma EncodeInRange(a: int, b: int, nbins: nat)
    requires 1 <= a < b <= nbins + 1
    ensures var c := Encode(a, b); 1 <= c.rebin <= nbins && 0 <= c.start <= nbins && 1 <= c.bin <= nbins
    ensures DecodeOn(nbins, Encode(a, b)) == Some(Interval(a, b - 1))
  {
    DecodeEncode(a, b);
    var r := b - a;
    if r > 1 {
      DivPlusOne(a, r);
      QuotientBound(b, r);
    }
  }

  lemma QuotientBound(b: int, r: int)
    requires 2 <= r < b
    ensures 1 <= b / r < b
  {
    var q := b / r;
    assert b == q * r + b % r;
    if q <= 0 {
      MulGap(q, r);
    } else {
      assert q * r >= q * 2;
    }
  }

  // The whole axis has the code an axis without a definition gets.
  lemma WholeAxis(nbins: nat)
    requires nbins >= 1
    ensures Encode(1, nbins + 1) == Code(nbins, 1, 1)
    ensures DecodeOn(nbins, Code(nbins, 1, 1)) == Some(Interval(1, nbins))
  {
    if nbins > 1 {
      DivModOf(1, nbins, 1);
      DivModOf(0, nbins, 1);
      assert 1 * nbins + 1 == nbins + 1 && 0 * nbins + 1 == 1;
    }
  }

  // A list of starts may begin below bin 1; such an interval is not recovered, it does not decode at all.
  lemma RecoveredIff(a: int, b: int, nbins: nat)
    requires a < b && 1 <= b <= nbins + 1
    ensures DecodeOn(nbins, Encode(a, b)) == Some(Interval(a, b - 1)) <==> 1 <= a
    ensures a < 1 ==> DecodeOn(nbins, Encode(a, b)) == None
  {
    if 1 <= a {
      EncodeInRange(a, b, nbins);
    } else if a < 0 {
      var r := b - a;
      DivModOf(0, r, -a);
      DivModOf(0, r, b);
      assert 0 * r + b == b && 0 * r + (-a) == -a;
    } else {
      DivModOf(1, b, 0);
      DivModOf(0, b, 0);
      assert 1 * b + 0 == b && 0 * b + 0 == 0;
    }
  }

  // ----- the starts as the map builder collects them

  function Mins(steps: seq<int>, nbins: nat): (m: seq<int>)
    ensures m != []
  {
    if steps == [] then [1]
    else
      var m := Mins(steps[..|steps| - 1], nbins);
      if m[|m| - 1] > nbins then m else m + [m[|m| - 1] + steps[|steps| - 1]]
  }

  lemma {:induction false} MinsNext(steps: seq<int>, step: int, nbins: nat)
    ensures var m := Mins(steps, nbins);
            Mins(steps + [step], nbins) == if m[|m| - 1] > nbins then m else m + [m[|m| - 1] + step]
  {
    var more := steps + [step];
    assert more[..|more| - 1] == steps && more[|more| - 1] == step;
  }

  lemma {:induction false} MinsStuck(steps: seq<int>, more: seq<int>, nbins: nat)
    requires var m := Mins(steps, nbins); m[|m| - 1] > nbins
    ensures Mins(steps + more, nbins) == Mins(steps, nbins)
    decreases |more|
  {
    if more == [] {
      assert steps + more == steps;
    } else {
      assert (steps + more)[..|steps + more| - 1] == steps + more[..|more| - 1];
      MinsStuck(steps, more[..|more| - 1], nbins);
    }
  }

  lemma {:induction false} CutsStuck(steps: seq<int>, more: seq<int>, nbins: nat)
    requires |Cuts(steps, nbins)| < |steps|
    ensures Cuts(steps + more, nbins) == Cuts(steps, nbins)
    decreases |more|
  {
    if more == [] {
      assert steps + more == steps;
    } else {
      assert (steps + more)[..|steps + more| - 1] == steps + more[..|more| - 1];
      CutsStuck(steps, more[..|more| - 1], nbins);
    }
  }

  // Each start is one beyond the reach of a prefix; only the last can lie beyond the axis.
  ghost predicate MinsOf(steps: seq<int>, nbins: nat, m: seq<int>) {
    && 1 <= |m| <= |steps| + 1
    && (forall k :: 0 <= k < |m| ==> m[k] == 1 + Reach(steps[..k]))
    && (|m| < |steps| + 1 ==> m[|m| - 1] > nbins)
  }

  lemma {:induction false} MinsAre(steps: seq<int>, nbins: nat)
    ensures MinsOf(steps, nbins, Mins(steps, nbins))
  {
    if steps == [] {
      assert steps[..0] == [];
    } else {
      var (init, m) := (steps[..|steps| - 1], Mins(steps, nbins));
      MinsAre(init, nbins);
      ReachStep(steps, |init|);
      forall k | 0 <= k < |m| ensures m[k] == 1 + Reach(steps[..k]) {
        if k <= |init| {
          assert init[..k] == steps[..k];
        } else {
          assert init[..|init|] == steps[..|init|] && k == |steps|;
        }
      }
    }
  }

  // ----- what the list of starts registers

  predicate Ordered(vs: seq<Interval>) { forall k :: 0 <= k < |vs| ==> 1 <= vs[k].min <= vs[k].max }

  function Codes(vs: seq<Interval>): seq<Code>
    requires Ordered(vs)
  {
    seq(|vs|, k requires 0 <= k < |vs| => Encode(vs[k].min, vs[k].max + 1))
  }

  datatype Scanned = Scanned(ok: bool, codes: seq<Code>)

  // Walks the starts from position i: a start off the axis ends the walk, one that does not increase is
  // an error.
  function Scan(mins: seq<int>, nbins: nat, i: nat): Scanned
    requires i >= 1
    decreases |mins| - i
  {
    if i >= |mins| || mins[i] < 1 || mins[i] > nbins + 1 then Scanned(true, [])
    else if mins[i] - mins[i - 1] < 1 then Scanned(false, [])
    else
      var rest := Scan(mins, nbins, i + 1);
      Scanned(rest.ok, [Encode(mins[i - 1], mins[i])] + rest.codes)
  }

  // With n the first position from i on that is off the axis or does not increase, the walk registers the
  // intervals before n, and fails exactly if n is on the axis.
  lemma {:induction false} ScanIs(mins: seq<int>, nbins: nat, i: nat)
    requires 1 <= i <= |mins|
    ensures var (found, n) := (Scan(mins, nbins, i), i + |Scan(mins, nbins, i).codes|);
            && n <= |mins|
            && (forall k :: i <= k < n ==>
                  mins[k - 1] < mins[k] && 1 <= mins[k] <= nbins + 1 && found.codes[k - i] == Encode(mins[k - 1], mins[k]))
            && (found.ok <==> n == |mins| || !(1 <= mins[n] <= nbins + 1))
            && (!found.ok ==> mins[n] <= mins[n - 1])
    decreases |mins| - i
  {
    hide Encode;
    if i < |mins| && 1 <= mins[i] <= nbins + 1 && mins[i - 1] < mins[i] {
      ScanIs(mins, nbins, i + 1);
    }
  }

  lemma IntervalsOrdered(steps: seq<int>, nbins: nat)
    requires Positive(steps)
    ensures Ordered(Intervals(Cuts(steps, nbins)))
  {
    forall k | 0 <= k < |Cuts(steps, nbins)|
      ensures 1 <= Intervals(Cuts(steps, nbins))[k].min <= Intervals(Cuts(steps, nbins))[k].max
    {
      IntervalsTile(steps, nbins, k);
    }
  }

  // The start after a cut exists and lies right behind it.
  lemma StartBeforeCut(steps: seq<int>, nbins: nat, i: nat)
    requires Positive(steps) && 1 <= i <= |Cuts(steps, nbins)|
    ensures i < |Mins(steps, nbins)| && Mins(steps, nbins)[i] == Cuts(steps, nbins)[i - 1] + 1
    ensures Mins(steps, nbins)[i - 1] == (if i == 1 then 1 else Cuts(steps, nbins)[i - 2] + 1)
  {
    hide Mins, Cuts, Reach;
    var (m, cuts) := (Mins(steps, nbins), Cuts(steps, nbins));
    MinsAre(steps, nbins);
    CutsAre(steps, nbins);
    ReachNothing(steps);
    assert cuts[i - 1] == Reach(steps[..i]);
    assert i > 1 ==> cuts[i - 2] == Reach(steps[..i - 1]);
    if |m| <= i {
      assert m[|m| - 1] == 1 + Reach(steps[..|m| - 1]);
      ReachGrows(steps, |m| - 1, i);
      assert false;
    }
  }

  lemma ReachNothing(steps: seq<int>)
    ensures Reach(steps[..0]) == 0
  {
  }

  // After the last cut there is no start, or one beyond the axis.
  lemma ScanEnds(steps: seq<int>, nbins: nat)
    requires Positive(steps)
    ensures Scan(Mins(steps, nbins), nbins, |Cuts(steps, nbins)| + 1) == Scanned(true, [])
  {
    hide Mins, Cuts, Reach;
    var (m, n) := (Mins(steps, nbins), |Cuts(steps, nbins)|);
    MinsAre(steps, nbins);
    CutsAre(steps, nbins);
    if n + 1 < |m| {
      assert m[n + 1] == 1 + Reach(steps[..n + 1]);
    }
  }

  lemma ScanStep(steps: seq<int>, nbins: nat, i: nat)
    requires Positive(steps) && 1 <= i <= |Cuts(steps, nbins)|
    ensures Ordered(Intervals(Cuts(steps, nbins)))
    ensures var rest := Scan(Mins(steps, nbins), nbins, i + 1);
            Scan(Mins(steps, nbins), nbins, i) == Scanned(rest.ok, [Codes(Intervals(Cuts(steps, nbins)))[i - 1]] + rest.codes)
  {
    hide Mins, Cuts, Reach;
    StartBeforeCut(steps, nbins, i);
    IntervalsOrdered(steps, nbins);
    IntervalsTile(steps, nbins, i - 1);
  }

  lemma {:induction false} ScanFinds(steps: seq<int>, nbins: nat, i: nat)
    requires Positive(steps) && 1 <= i <= |Cuts(steps, nbins)| + 1
    ensures Ordered(Intervals(Cuts(steps, nbins)))
    ensures Scan(Mins(steps, nbins), nbins, i) == Scanned(true, Codes(Intervals(Cuts(steps, nbins)))[i - 1..])
    decreases |Cuts(steps, nbins)| + 1 - i
  {
    hide Mins, Cuts, Reach, Scan, Encode;
    IntervalsOrdered(steps, nbins);
    var codes := Codes(Intervals(Cuts(steps, nbins)));
    if i == |codes| + 1 {
      ScanEnds(steps, nbins);
      assert codes[i - 1..] == [];
    } else {
      ScanStep(steps, nbins, i);
      ScanFinds(steps, nbins, i + 1);
      assert codes[i - 1..] == [codes[i - 1]] + codes[i..];
    }
  }

  // ----- the binning map

  // A filled bin of the map: the axis, counted from 1, and the code of an interval.
  datatype Key = Key(id: int, code: Code)

  // A sparse map keeps its bins in the order in which they were first filled.
  function Filled(m: seq<Key>, k: Key): seq<Key> { if k in m then m else m + [k] }

  function FilledAll(m: seq<Key>, ks: seq<Key>): seq<Key> {
    if ks == [] then m else Filled(FilledAll(m, ks[..|ks| - 1]), ks[|ks| - 1])
  }

  function Keys(id: int, codes: seq<Code>): seq<Key> { seq(|codes|, k requires 0 <= k < |codes| => Key(id, codes[k])) }

  // One interval repeated n times, shifted by its own width each time.
  function Shifted(id: int, c: Code, n: nat): seq<Key> { seq(n, k => Key(id, c.(bin := c.bin + k))) }

  function FirstCode(binning: seq<int>): Code
    requires |binning| == 1 || |binning| == 3
  {
    if |binning| == 1 then Code(1, 1, binning[0]) else Code(binning[0], binning[1], binning[2])
  }

  lemma FilledStep(m: seq<Key>, ks: seq<Key>, k: Key)
    ensures FilledAll(m, ks + [k]) == Filled(FilledAll(m, ks), k)
  {
    assert (ks + [k])[..|ks|] == ks;
  }

  lemma {:induction false} FilledTwice(m: seq<Key>, ks: seq<Key>, ls: seq<Key>)
    ensures FilledAll(FilledAll(m, ks), ls) == FilledAll(m, ks + ls)
    decreases |ls|
  {
    if ls == [] {
      assert ks + ls == ks;
    } else {
      assert (ks + ls)[..|ks + ls| - 1] == ks + ls[..|ls| - 1];
      FilledTwice(m, ks, ls[..|ls| - 1]);
    }
  }

  // Keys that are new and different from one another are appended in order.
  lemma {:induction false} FilledNew(m: seq<Key>, ks: seq<Key>)
    requires Distinct(ks) && forall k :: k in ks ==> k !in m
    ensures FilledAll(m, ks) == m + ks
  {
    if ks != [] {
      var (init, k) := (ks[..|ks| - 1], ks[|ks| - 1]);
      assert ks == init + [k] && k !in init;
      FilledNew(m, init);
    }
  }

  // ----- a definition, axis by axis

  // An axis that the definition does not mention has one entry as wide as the axis.
  function Defaulted(ws: seq<Width>, nbins: nat): seq<Width> { if ws == [] then [Width(nbins, None)] else ws }

  // The codes of the intervals that tile an axis.
  ghost function TileCodes(ws: seq<Width>, nbins: nat): seq<Code>
    requires Proper(ws) && nbins >= 1
  {
    RegistersTiling(Defaulted(ws, nbins), nbins);
    Codes(Intervals(Cuts(Steps(Defaulted(ws, nbins), nbins), nbins)))
  }

  ghost predicate Binnable(binning: seq<seq<Width>>, axes: seq<nat>) {
    |binning| == |axes| && forall i :: 0 <= i < |axes| ==> axes[i] >= 1 && Proper(binning[i])
  }

  // What a definition leaves in an empty map: the codes of each axis, one axis after the other.
  ghost function DefinitionKeys(binning: seq<seq<Width>>, axes: seq<nat>): seq<Key>
    requires Binnable(binning, axes)
  {
    if axes == [] then []
    else
      var n := |axes| - 1;
      DefinitionKeys(binning[..n], axes[..n]) + Keys(n + 1, TileCodes(binning[n], axes[n]))
  }

  // The codes a map holds for one axis, in order.
  function EntriesFor(m: seq<Key>, id: int): seq<Code> {
    if m == [] then []
    else EntriesFor(m[..|m| - 1], id) + if m[|m| - 1].id == id then [m[|m| - 1].code] else []
  }

  lemma {:induction false} EntriesAppend(m: seq<Key>, ks: seq<Key>, id: int)
    ensures EntriesFor(m + ks, id) == EntriesFor(m, id) + EntriesFor(ks, id)
    decreases |ks|
  {
    if ks == [] {
      assert m + ks == m;
    } else {
      assert (m + ks)[..|m + ks| - 1] == m + ks[..|ks| - 1];
      EntriesAppend(m, ks[..|ks| - 1], id);
    }
  }

  lemma {:induction false} EntriesOfKeys(id: int, codes: seq<Code>, other: int)
    ensures EntriesFor(Keys(id, codes), other) == if id == other then codes else []
  {
    if codes != [] {
      var n := |codes| - 1;
      EntriesOfKeys(id, codes[..n], other);
      assert Keys(id, codes)[..n] == Keys(id, codes[..n]);
      assert codes == codes[..n] + [codes[n]];
    }
  }

  // Grouped by axis, the keys of a definition are the tilings of its axes again.
  lemma {:induction false} DefinitionEntries(binning: seq<seq<Width>>, axes: seq<nat>, id: int)
    requires Binnable(binning, axes)
    ensures 1 <= id <= |axes| ==> EntriesFor(DefinitionKeys(binning, axes), id) == TileCodes(binning[id - 1], axes[id - 1])
    ensures !(1 <= id <= |axes|) ==> EntriesFor(DefinitionKeys(binning, axes), id) == []
    decreases |axes|
  {
    hide TileCodes;
    if axes != [] {
      var n := |axes| - 1;
      DefinitionEntries(binning[..n], axes[..n], id);
      EntriesAppend(DefinitionKeys(binning[..n], axes[..n]), Keys(n + 1, TileCodes(binning[n], axes[n])), id);
      EntriesOfKeys(n + 1, TileCodes(binning[n], axes[n]), id);
    }
  }

  lemma {:induction false} DefinitionIds(binning: seq<seq<Width>>, axes: seq<nat>)
    requires Binnable(binning, axes)
    ensures forall k :: k in DefinitionKeys(binning, axes) ==> 1 <= k.id <= |axes|
    decreases |axes|
  {
    hide TileCodes;
    if axes != [] {
      DefinitionIds(binning[..|axes| - 1], axes[..|axes| - 1]);
    }
  }

  lemma {:induction false} IntervalsIncrease(v: seq<Interval>, j: nat, k: nat)
    requires Ordered(v) && j < k < |v| && forall i :: 1 <= i < |v| ==> v[i].min > v[i - 1].max
    ensures v[j].max < v[k].min
    decreases k
  {
    if j < k - 1 {
      IntervalsIncrease(v, j, k - 1);
    }
  }

  // The keys of one axis are new and differ from one another, so each takes a bin of the map.
  lemma TileKeysDistinct(id: int, ws: seq<Width>, nbins: nat)
    requires Proper(ws) && nbins >= 1
    ensures Distinct(Keys(id, TileCodes(ws, nbins)))
  {
    hide Encode, Cuts, Steps;
    var steps := Steps(Defaulted(ws, nbins), nbins);
    RegistersTiling(Defaulted(ws, nbins), nbins);
    var v := Intervals(Cuts(steps, nbins));
    forall k | 1 <= k < |v| ensures v[k].min > v[k - 1].max {
      IntervalsTile(steps, nbins, k);
    }
    forall j, k | 0 <= j < k < |v| ensures Codes(v)[j] != Codes(v)[k] {
      IntervalsIncrease(v, j, k);
      if Codes(v)[j] == Codes(v)[k] {
        EncodeInjective(v[j].min, v[j].max + 1, v[k].min, v[k].max + 1);
      }
    }
  }

  lemma TileFills(m: seq<Key>, id: int, ws: seq<Width>, nbins: nat)
    requires Proper(ws) && nbins >= 1 && forall k :: k in m ==> k.id != id
    ensures FilledAll(m, Keys(id, TileCodes(ws, nbins))) == m + Keys(id, TileCodes(ws, nbins))
  {
    hide TileCodes, FilledAll;
    TileKeysDistinct(id, ws, nbins);
    FilledNew(m, Keys(id, TileCodes(ws, nbins)));
  }

  lemma DefaultTile(id: int, nbins: nat)
    requires nbins >= 1
    ensures Keys(id, TileCodes([], nbins)) == Shifted(id, Code(nbins, 1, 1), 1)
  {
    hide Encode, Cuts, Steps;
    DefaultIsWholeAxis(nbins);
  }

  class NBinning {
    const fAxes: seq<nat>   // number of base bins of each axis
    var fMap: seq<Key>

    constructor (axes: seq<nat>)
      ensures fAxes == axes && fMap == []
    {
      fAxes, fMap := axes, [];
    }

    method AddBinning(id: nat, binning: seq<int>, n: nat) returns (ok: bool)
      requires |binning| == 1 || |binning| == 3
      modifies this`fMap
      ensures ok <==> 1 <= id <= |fAxes|
      ensures fMap == if ok then FilledAll(old(fMap), Shifted(id, FirstCode(binning), n)) else old(fMap)
    {
      if |fAxes| == 0 || id <= 0 || id > |fAxes| {
        return false;
      }
      var point := Key(id, FirstCode(binning));
      ghost var keys := Shifted(id, point.code, n);
      for i := 0 to n
        invariant point == Key(id, FirstCode(binning).(bin := FirstCode(binning).bin + i))
        invariant fMap == FilledAll(old(fMap), keys[..i])
      {
        assert keys[..i + 1] == keys[..i] + [point];
        FilledStep(old(fMap), keys[..i], point);
        fMap := Filled(fMap, point);
        point := point.(code := point.code.(bin := point.code.bin + 1));
      }
      assert keys[..n] == keys;
      return true;
    }

    method AddBinningVariable(id: nat, mins: seq<int>) returns (ok: bool)
      modifies this`fMap
      ensures !(1 <= id <= |fAxes|) ==> !ok && fMap == old(fMap)
      ensures 1 <= id <= |fAxes| ==>
        var found := Scan(mins, fAxes[id - 1], 1);
        ok == found.ok && fMap == FilledAll(old(fMap), Keys(id, found.codes))
    {
      hide FilledAll, Keys, Shifted, Scan, Encode, FirstCode;
      if id <= 0 || id > |fAxes| {
        return false;
      }
      ghost var all := Scan(mins, fAxes[id - 1], 1);
      ghost var codes: seq<Code> := [];
      NoKeys(old(fMap), id);
      var i := 1;
      while i < |mins|
        invariant i >= 1
        invariant var rest := Scan(mins, fAxes[id - 1], i); all == Scanned(rest.ok, codes + rest.codes)
        invariant fMap == FilledAll(old(fMap), Keys(id, codes))
        decreases |mins| - i
      {
        ScanCases(mins, fAxes[id - 1], i, codes);
        if mins[i] < 1 || mins[i] > fAxes[id - 1] + 1 {
          return true;
        }
        var rebin := mins[i] - mins[i - 1];
        if rebin < 1 {
          return false;
        }
        var rebinStart := Rem(mins[i - 1], rebin);
        var bin := mins[i] / rebin;
        if rebin == 1 {
          rebinStart := 1;
          bin := mins[i - 1];
        }
        var code := Code(rebin, rebinStart, bin);
        EncodeIs(mins[i - 1], mins[i], code);
        OneMoreCode(old(fMap), id, codes, code);
        var added := AddBinning(id, [rebin, rebinStart, bin], 1);
        codes := codes + [code];
        i := i + 1;
      }
      ScanCases(mins, fAxes[id - 1], i, codes);
      return true;
    }

    // Registers exactly the intervals that tile the axis, in order.
    method AddBinningViaBinWidths(id: nat, widths: seq<Width>) returns (ok: bool)
      requires 1 <= id <= |fAxes| && Proper(widths)
      modifies this`fMap
      ensures ok && Positive(Steps(widths, fAxes[id - 1]))
      ensures var v := Intervals(Cuts(Steps(widths, fAxes[id - 1]), fAxes[id - 1]));
              Ordered(v) && fMap == FilledAll(old(fMap), Keys(id, Codes(v)))
    {
      hide Mins, Cuts, Scan, Steps, Reach, FilledAll, Encode;
      var nbins := fAxes[id - 1];
      var mins := CollectAll(widths, nbins);
      RegistersTiling(widths, nbins);
      ok := AddBinningVariable(id, mins);
    }

    // One axis of a definition: the intervals of its width list, or the whole axis.
    method RegisterAxis(id: nat, ws: seq<Width>)
      requires 1 <= id <= |fAxes| && fAxes[id - 1] >= 1 && Proper(ws) && forall k :: k in fMap ==> k.id != id
      modifies this`fMap
      ensures fMap == old(fMap) + Keys(id, TileCodes(ws, fAxes[id - 1]))
    {
      hide Cuts, Scan, Steps, Reach, FilledAll, Encode;
      TileFills(fMap, id, ws, fAxes[id - 1]);
      var added;
      if ws != [] {
        added := AddBinningViaBinWidths(id, ws);
      } else {
        DefaultTile(id, fAxes[id - 1]);
        added := AddBinning(id, [fAxes[id - 1], 1, 1], 1);
      }
    }

    // Clears the map and registers every axis of a definition.
    method RegisterDefinition(binning: seq<seq<Width>>)
      requires Binnable(binning, fAxes)
      modifies this`fMap
      ensures fMap == DefinitionKeys(binning, fAxes)
    {
      hide TileCodes;
      fMap := [];
      for i := 0 to |fAxes|
        invariant Binnable(binning[..i], fAxes[..i]) && fMap == DefinitionKeys(binning[..i], fAxes[..i])
      {
        DefinitionIds(binning[..i], fAxes[..i]);
        RegisterAxis(i + 1, binning[i]);
        assert binning[..i + 1][..i] == binning[..i] && fAxes[..i + 1][..i] == fAxes[..i];
      }
      assert binning[..|fAxes|] == binning && fAxes[..|fAxes|] == fAxes;
    }

    // Walks the map and sorts what it holds by axis.
    method EntriesByAxis() returns (content: seq<seq<Code>>)
      requires forall k :: k in fMap ==> 1 <= k.id <= |fAxes|
      ensures |content| == |fAxes| && forall i :: 0 <= i < |fAxes| ==> content[i] == EntriesFor(fMap, i + 1)
    {
      content := seq(|fAxes|, i => []);
      for n := 0 to |fMap|
        invariant |content| == |fAxes| && forall i :: 0 <= i < |fAxes| ==> content[i] == EntriesFor(fMap[..n], i + 1)
      {
        assert fMap[..n + 1][..n] == fMap[..n] && fMap[n] in fMap;
        var idx := fMap[n].id - 1;
        content := content[idx := content[idx] + [fMap[n].code]];
      }
      assert fMap[..|fMap|] == fMap;
    }

    static method CollectAll(widths: seq<Width>, nbins: nat) returns (mins: seq<int>)
      requires Proper(widths)
      ensures mins == Mins(Steps(widths, nbins), nbins)
    {
      hide Cuts, Scan, Steps, Reach;
      mins := [1];
      StepsMore(widths, nbins, 0);
      for g := 0 to |widths|
        invariant mins == Mins(Steps(widths[..g], nbins), nbins)
      {
        StepsMore(widths, nbins, g);
        mins := CollectStarts(mins, widths[g], nbins, Steps(widths[..g], nbins));
      }
      assert widths[..|widths|] == widths;
    }

    // The starts of one entry of the definition, until one lies beyond the axis.
    static method CollectStarts(start: seq<int>, w: Width, nbins: nat, ghost steps: seq<int>) returns (mins: seq<int>)
      requires w.width >= 1 && start == Mins(steps, nbins)
      ensures mins == Mins(steps + Repeat(w.width, if Times(w, nbins) < 0 then 0 else Times(w, nbins)), nbins)
    {
      hide Mins;
      mins := start;
      var nWidths := if w.count.Some? then w.count.value else nbins / w.width;
      ghost var n := if nWidths < 0 then 0 else nWidths;
      var iWidth := 0;
      assert steps + Repeat(w.width, 0) == steps;
      while iWidth < nWidths
        invariant 0 <= iWidth <= n
        invariant mins == Mins(steps + Repeat(w.width, iWidth), nbins)
      {
        if mins[|mins| - 1] > nbins {
          assert steps + Repeat(w.width, n) == (steps + Repeat(w.width, iWidth)) + Repeat(w.width, n - iWidth);
          MinsStuck(steps + Repeat(w.width, iWidth), Repeat(w.width, n - iWidth), nbins);
          return;
        }
        RepeatMore(steps, w.width, iWidth, n);
        MinsNext(steps + Repeat(w.width, iWidth), w.width, nbins);
        mins := mins + [mins[|mins| - 1] + w.width];
        iWidth := iWidth + 1;
      }
    }
  }

  lemma ScanCases(mins: seq<int>, nbins: nat, i: nat, codes: seq<Code>)
    requires i >= 1
    ensures var (all, rest) := (Scan(mins, nbins, i), Scan(mins, nbins, i + 1));
            if i >= |mins| || mins[i] < 1 || mins[i] > nbins + 1 then all.ok && codes + all.codes == codes
            else if mins[i] - mins[i - 1] < 1 then !all.ok && codes + all.codes == codes
            else all.ok == rest.ok && codes + all.codes == (codes + [Encode(mins[i - 1], mins[i])]) + rest.codes
  {
    hide Encode;
  }

  lemma EncodeIs(a: int, b: int, c: Code)
    requires a < b && 1 <= b && c.rebin == b - a
    requires c.start == (if b - a == 1 then 1 else Rem(a, b - a)) && c.bin == if b - a == 1 then a else b / (b - a)
    ensures c == Encode(a, b) && FirstCode([c.rebin, c.start, c.bin]) == c
  {
  }

  lemma NoKeys(m: seq<Key>, id: int)
    ensures FilledAll(m, Keys(id, [])) == m
  {
  }

  lemma OneMoreCode(m: seq<Key>, id: int, codes: seq<Code>, c: Code)
    ensures FilledAll(m, Keys(id, codes + [c])) == FilledAll(FilledAll(m, Keys(id, codes)), Shifted(id, c, 1))
  {
    assert Keys(id, codes + [c]) == Keys(id, codes) + [Key(id, c)];
    assert Shifted(id, c, 1) == [Key(id, c)];
    FilledTwice(m, Keys(id, codes), [Key(id, c)]);
  }

  lemma StepsMore(ws: seq<Width>, nbins: nat, g: nat)
    requires Proper(ws)
    ensures Steps(ws[..0], nbins) == []
    ensures g < |ws| ==>
              Steps(ws[..g + 1], nbins) ==
                Steps(ws[..g], nbins) + Repeat(ws[g].width, if Times(ws[g], nbins) < 0 then 0 else Times(ws[g], nbins))
  {
    if g < |ws| {
      assert ws[..g + 1][..g] == ws[..g];
    }
  }

  lemma RegistersTiling(ws: seq<Width>, nbins: nat)
    requires Proper(ws)
    ensures Positive(Steps(ws, nbins)) && Ordered(Intervals(Cuts(Steps(ws, nbins), nbins)))
    ensures Scan(Mins(Steps(ws, nbins), nbins), nbins, 1)
         == Scanned(true, Codes(Intervals(Cuts(Steps(ws, nbins), nbins))))
  {
    hide Mins, Cuts, Scan, Steps, Reach, Encode;
    StepsPositive(ws, nbins);
    ScanFinds(Steps(ws, nbins), nbins, 1);
    var codes := Codes(Intervals(Cuts(Steps(ws, nbins), nbins)));
    assert codes[0..] == codes;
  }

  lemma {:induction false} StepsPositive(ws: seq<Width>, nbins: nat)
    requires Proper(ws)
    ensures Positive(Steps(ws, nbins))
  {
    if ws != [] {
      StepsPositive(ws[..|ws| - 1], nbins);
    }
  }

  // ----- the edges of a definition's axis

  // Bin k of an axis has the edges k - 1 and k; the cuts select which of them stay.
  function EdgesAt(edges: seq<real>, cuts: seq<int>): seq<real>
    requires forall k :: 0 <= k < |cuts| ==> 0 <= cuts[k] < |edges|
  {
    seq(|cuts|, k requires 0 <= k < |cuts| => edges[cuts[k]])
  }

  lemma CutsOnAxis(steps: seq<int>, nbins: nat)
    requires Positive(steps)
    ensures forall k :: 0 <= k < |Cuts(steps, nbins)| ==> 1 <= Cuts(steps, nbins)[k] <= nbins
    ensures |Cuts(steps, nbins)| <= nbins
  {
    CutsFit(steps, nbins);
    forall k | 0 <= k < |Cuts(steps, nbins)| ensures 1 <= Cuts(steps, nbins)[k] <= nbins {
      IntervalsTile(steps, nbins, k);
    }
  }

  // Where the edge loop stands after the given steps: iBin follows them until one does not fit.
  ghost predicate Walked(steps: seq<int>, nbins: nat, iBin: int) {
    if |Cuts(steps, nbins)| == |steps| then iBin == Reach(steps) else iBin > nbins
  }

  lemma WalkStep(steps: seq<int>, width: int, nbins: nat, iBin: int)
    requires Positive(steps) && width >= 1 && Walked(steps, nbins, iBin)
    ensures Positive(steps + [width]) && Walked(steps + [width], nbins, iBin + width)
    ensures Cuts(steps + [width], nbins) ==
              if iBin + width <= nbins then Cuts(steps, nbins) + [iBin + width] else Cuts(steps, nbins)
  {
    assert (steps + [width])[..|steps|] == steps;
    CutsAre(steps, nbins);
    if |Cuts(steps, nbins)| < |steps| {
      CutsStuck(steps, [width], nbins);
    }
  }

  lemma WalkStuck(steps: seq<int>, more: seq<int>, nbins: nat, iBin: int)
    requires Positive(steps) && Positive(more) && Walked(steps, nbins, iBin) && iBin > nbins
    ensures Cuts(steps + more, nbins) == Cuts(steps, nbins) && Walked(steps + more, nbins, iBin)
  {
    CutsAre(steps, nbins);
    FullCuts(steps, nbins);
    CutsStuck(steps, more, nbins);
  }

  lemma FullCuts(steps: seq<int>, nbins: nat)
    requires Positive(steps)
    ensures |Cuts(steps, nbins)| == |steps| ==> Reach(steps) <= nbins
  {
    CutsAre(steps, nbins);
    assert steps[..|steps|] == steps;
    if steps != [] && |Cuts(steps, nbins)| == |steps| {
      assert Cuts(steps, nbins)[|steps| - 1] == Reach(steps);
    }
  }

  // The edges of one axis of a definition, filled into an array with one slot per edge of the base axis.
  // It is never overrun, and it ends up with the first edge and the right ends of the same intervals the
  // map builder registers.
  method ComputeEdges(ws: seq<Width>, edges: seq<real>) returns (bins: array<real>, count: nat)
    requires |edges| >= 2 && Proper(ws)
    ensures fresh(bins) && bins.Length == |edges|
    ensures var cuts := Cuts(Steps(ws, |edges| - 1), |edges| - 1);
            && Positive(Steps(ws, |edges| - 1)) && (forall k :: 0 <= k < |cuts| ==> 0 <= cuts[k] < |edges|)
            && count == |cuts| + 1 <= bins.Length && bins[..count] == [edges[0]] + EdgesAt(edges, cuts)
  {
    hide Steps, Reach, Cuts, Walked;
    var nbins := |edges| - 1;
    bins := new real[nbins + 1];
    bins[0] := edges[0];
    count := 1;
    var iBin := 0;
    StepsMore(ws, nbins, 0);
    NothingWalked(nbins);
    assert bins[..1] == [edges[0]] + EdgesAt(edges, []);
    for g := 0 to |ws|
      invariant EdgesSoFar(Steps(ws[..g], nbins), edges, iBin, bins[..], count)
    {
      iBin, count := AppendEdges(ws[g], edges, Steps(ws[..g], nbins), iBin, bins, count);
      StepsMore(ws, nbins, g);
    }
    assert ws[..|ws|] == ws;
    CutsOnAxis(Steps(ws, nbins), nbins);
  }

  ghost predicate EdgesSoFar(steps: seq<int>, edges: seq<real>, iBin: int, bins: seq<real>, count: nat)
    requires |edges| >= 2
  {
    var (nbins, cuts) := (|edges| - 1, Cuts(steps, |edges| - 1));
    && Positive(steps) && Walked(steps, nbins, iBin) && |bins| == |edges|
    && (forall k :: 0 <= k < |cuts| ==> 0 <= cuts[k] < |edges|)
    && count == |cuts| + 1 <= |bins| && bins[..count] == [edges[0]] + EdgesAt(edges, cuts)
  }

  lemma NothingWalked(nbins: nat)
    ensures Walked([], nbins, 0) && Cuts([], nbins) == []
  {
  }

  lemma EdgeStep(steps: seq<int>, edges: seq<real>, iBin: int, bins: seq<real>, count: nat, width: int)
    requires |edges| >= 2 && width >= 1 && EdgesSoFar(steps, edges, iBin, bins, count)
    ensures iBin + width > |edges| - 1 ==> EdgesSoFar(steps + [width], edges, iBin + width, bins, count)
    ensures iBin + width <= |edges| - 1 ==>
              && 0 <= iBin + width && count < |bins|
              && EdgesSoFar(steps + [width], edges, iBin + width, bins[count := edges[iBin + width]], count + 1)
  {
    hide Cuts, Reach, Walked;
    WalkStep(steps, width, |edges| - 1, iBin);
    CutsOnAxis(steps + [width], |edges| - 1);
    var cuts := Cuts(steps, |edges| - 1);
    if iBin + width <= |edges| - 1 {
      assert Cuts(steps + [width], |edges| - 1)[|cuts|] == iBin + width;
      assert EdgesAt(edges, cuts + [iBin + width]) == EdgesAt(edges, cuts) + [edges[iBin + width]];
      assert bins[count := edges[iBin + width]][..count + 1] == bins[..count] + [edges[iBin + width]];
    }
  }

  lemma EdgesStuck(steps: seq<int>, more: seq<int>, edges: seq<real>, iBin: int, bins: seq<real>, count: nat)
    requires |edges| >= 2 && EdgesSoFar(steps, edges, iBin, bins, count) && Positive(more) && iBin > |edges| - 1
    ensures EdgesSoFar(steps + more, edges, iBin, bins, count)
  {
    hide Cuts, Reach, Walked;
    WalkStuck(steps, more, |edges| - 1, iBin);
  }

  lemma RepeatMore(steps: seq<int>, width: int, i: nat, n: nat)
    requires i < n
    ensures steps + Repeat(width, i + 1) == (steps + Repeat(width, i)) + [width]
    ensures steps + Repeat(width, n) == (steps + Repeat(width, i + 1)) + Repeat(width, n - i - 1)
    ensures width >= 1 ==> Positive(Repeat(width, n - i - 1))
  {
  }

  method AppendEdges(w: Width, edges: seq<real>, ghost steps: seq<int>, start: int, bins: array<real>, from: nat)
      returns (iBin: int, count: nat)
    requires |edges| >= 2 && w.width >= 1 && bins.Length == |edges| && EdgesSoFar(steps, edges, start, bins[..], from)
    modifies bins
    ensures EdgesSoFar(steps + Repeat(w.width, if Times(w, |edges| - 1) < 0 then 0 else Times(w, |edges| - 1)),
                       edges, iBin, bins[..], count)
  {
    hide EdgesSoFar;
    iBin, count := start, from;
    var n := if w.count.Some? then w.count.value else (|edges| - 1) / w.width;
    ghost var m := if n < 0 then 0 else n;
    assert steps + Repeat(w.width, 0) == steps;
    var i := 0;
    while i < n
      invariant 0 <= i <= m
      invariant EdgesSoFar(steps + Repeat(w.width, i), edges, iBin, bins[..], count)
    {
      ghost var done := steps + Repeat(w.width, i);
      EdgeStep(done, edges, iBin, bins[..], count, w.width);
      RepeatMore(steps, w.width, i, m);
      iBin := iBin + w.width;
      if iBin > |edges| - 1 {
        EdgesStuck(done + [w.width], Repeat(w.width, m - i - 1), edges, iBin, bins[..], count);
        return;
      }
      bins[count] := edges[iBin];
      count := count + 1;
      i := i + 1;
    }
  }

  // Every code registered for a definition decodes to its interval: the intervals of the map, whose right
  // ends are the edges of the definition, tile the axis from bin 1 on.
  lemma DefinitionTiles(ws: seq<Width>, nbins: nat, k: nat)
    requires Proper(ws) && k < |Cuts(Steps(ws, nbins), nbins)|
    ensures Positive(Steps(ws, nbins)) && Ordered(Intervals(Cuts(Steps(ws, nbins), nbins)))
    ensures var (cuts, v) := (Cuts(Steps(ws, nbins), nbins), Intervals(Cuts(Steps(ws, nbins), nbins)));
            && DecodeOn(nbins, Codes(v)[k]) == Some(v[k]) && v[k].max == cuts[k] <= nbins
            && v[k].min == (if k == 0 then 1 else v[k - 1].max + 1)
  {
    hide Steps, Cuts, Encode;
    StepsPositive(ws, nbins);
    IntervalsOrdered(Steps(ws, nbins), nbins);
    IntervalsTile(Steps(ws, nbins), nbins, k);
    var v := Intervals(Cuts(Steps(ws, nbins), nbins));
    EncodeInRange(v[k].min, v[k].max + 1, nbins);
  }

  // An axis that a definition does not mention gets one entry as wide as the axis: one interval, with the
  // code the map gets for such an axis.
  lemma DefaultIsWholeAxis(nbins: nat)
    requires nbins >= 1
    ensures Proper([Width(nbins, None)]) && Cuts(Steps([Width(nbins, None)], nbins), nbins) == [nbins]
    ensures Intervals([nbins]) == [Interval(1, nbins)] && Codes([Interval(1, nbins)]) == [Code(nbins, 1, 1)]
  {
    hide Encode, Cuts, Steps;
    WholeAxis(nbins);
    OneStep(nbins);
    OneCut(nbins);
  }

  lemma OneStep(nbins: nat)
    requires nbins >= 1
    ensures Steps([Width(nbins, None)], nbins) == [nbins]
  {
    hide Steps;
    var ws := [Width(nbins, None)];
    StepsMore(ws, nbins, 0);
    DivModOf(1, nbins, 0);
    assert 1 * nbins + 0 == nbins;
    assert ws[..1] == ws && Repeat(nbins, 1) == [nbins];
    assert [] + [nbins] == [nbins];
  }

  lemma OneCut(nbins: nat)
    requires nbins >= 1
    ensures Cuts([nbins], nbins) == [nbins]
  {
    var steps := [nbins];
    assert steps[..|steps| - 1] == [];
    assert Cuts([], nbins) == [] && Reach([]) == 0 && Reach(steps) == nbins;
  }
}
