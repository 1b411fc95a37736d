// What a width list means, read from the front: each entry lays its intervals behind those of the entries
// before it, as long as they fit. The loops that register intervals and compute edges do the same.
module WidthLists {
  import opened Collections
  import opened Odometer
  import opened AxisPartition

  // n intervals of one width, side by side.
  function Row(from: int, width: int, n: nat): seq<Interval> {
    seq(n, k => Interval(from + k * width, from + (k + 1) * width - 1))
  }

  // How many intervals of a width still fit from a bin on.
  function Room(from: int, width: int, nbins: nat): nat
    requires width >= 1 && from >= 1
  {
    if from > nbins then 0 else (nbins + 1 - from) / width
  }

  // An entry lays as many intervals as it asks for, or as still fit; an entry without a count asks for as
  // many as the whole axis holds. Once an entry does not fit in full nothing more is laid.
  function Layout(ws: seq<Width>, from: int, nbins: nat): seq<Interval>
    requires Proper(ws) && from >= 1
  {
    if ws == [] then []
    else
      var (width, room) := (ws[0].width, Room(from, ws[0].width, nbins));
      var asked := if ws[0].count.Some? then ws[0].count.value else Room(1, width, nbins);
      if asked <= room then
        GrowsBy(from, width, asked);
        Row(from, width, asked) + Layout(ws[1..], from + asked * width, nbins)
      else Row(from, width, room)
  }

  lemma GrowsBy(from: int, width: int, n: nat)
    requires from >= 1 && width >= 1
    ensures from + n * width >= 1
  {
  }

  // ----- steps laid from the front

  function Laid(steps: seq<int>, from: int, nbins: nat): seq<Interval>
    decreases |steps|
  {
    if steps == [] || from + steps[0] - 1 > nbins then []
    else [Interval(from, from + steps[0] - 1)] + Laid(steps[1..], from + steps[0], nbins)
  }

  lemma {:induction false} ReachFront(steps: seq<int>, k: nat)
    requires 1 <= k <= |steps|
    ensures Reach(steps[..k]) == steps[0] + Reach(steps[1..][..k - 1])
  {
    ReachStep(steps, k - 1);
    if k == 1 {
      assert steps[..0] == [] && steps[1..][..0] == [];
    } else {
      ReachFront(steps, k - 1);
      ReachStep(steps[1..], k - 2);
    }
  }

  // The k-th interval lies between the reaches of two prefixes, and the row ends where the next one would
  // leave the axis.
  lemma {:induction false} LaidIs(steps: seq<int>, from: int, nbins: nat)
    requires Positive(steps)
    ensures var v := Laid(steps, from, nbins);
            && |v| <= |steps|
            && (forall k :: 0 <= k < |v| ==>
                  v[k] == Interval(from + Reach(steps[..k]), from + Reach(steps[..k + 1]) - 1) && v[k].max <= nbins)
            && (|v| < |steps| ==> from + Reach(steps[..|v| + 1]) - 1 > nbins)
    decreases |steps|
  {
    hide Reach;
    ReachNothing(steps);
    if steps != [] {
      ReachFront(steps, 1);
      ReachNothing(steps[1..]);
      if from + steps[0] - 1 <= nbins {
        var v := Laid(steps, from, nbins);
        LaidIs(steps[1..], from + steps[0], nbins);
        forall k | 0 <= k < |v|
          ensures v[k] == Interval(from + Reach(steps[..k]), from + Reach(steps[..k + 1]) - 1) && v[k].max <= nbins
        {
          ReachFront(steps, k + 1);
          if k > 0 {
            ReachFront(steps, k);
          }
        }
        if |v| < |steps| {
          ReachFront(steps, |v| + 1);
        }
      }
    }
  }

  ghost predicate EndsOf(steps: seq<int>, nbins: nat, v: seq<Interval>) {
    && |v| <= |steps|
    && (forall k :: 0 <= k < |v| ==> v[k].max == Reach(steps[..k + 1]) && v[k].max <= nbins)
    && (|v| < |steps| ==> Reach(steps[..|v| + 1]) > nbins)
  }

  // Both stop at the first step that would leave the axis.
  lemma SameEnd(steps: seq<int>, nbins: nat, cuts: seq<int>, v: seq<Interval>)
    requires CutsOf(steps, nbins, cuts) && EndsOf(steps, nbins, v)
    ensures |cuts| == |v|
  {
    hide Reach;
    if |v| < |cuts| {
      CutBelow(steps, nbins, cuts, |v|);
    } else if |cuts| < |v| {
      LaidBelow(steps, nbins, v, |cuts|);
    }
  }

  lemma LaidBelow(steps: seq<int>, nbins: nat, v: seq<Interval>, k: nat)
    requires EndsOf(steps, nbins, v) && k < |v|
    ensures Reach(steps[..k + 1]) <= nbins
  {
    hide Reach;
    assert v[k].max == Reach(steps[..k + 1]);
  }

  lemma CutBelow(steps: seq<int>, nbins: nat, cuts: seq<int>, k: nat)
    requires CutsOf(steps, nbins, cuts) && k < |cuts|
    ensures Reach(steps[..k + 1]) <= nbins
  {
    hide Reach;
    assert cuts[k] == Reach(steps[..k + 1]);
  }

  lemma LaidIsCut(steps: seq<int>, nbins: nat)
    requires Positive(steps)
    ensures Intervals(Cuts(steps, nbins)) == Laid(steps, 1, nbins)
  {
    hide Reach, Cuts, Laid;
    var (cuts, v) := (Cuts(steps, nbins), Laid(steps, 1, nbins));
    CutsAre(steps, nbins);
    LaidIs(steps, 1, nbins);
    ReachNothing(steps);
    forall k | 0 <= k < |v| ensures v[k].max == Reach(steps[..k + 1]) && v[k].max <= nbins {
      assert v[k].max <= nbins;
    }
    SameEnd(steps, nbins, cuts, v);
    forall k | 0 <= k < |v| ensures Intervals(cuts)[k] == v[k] {
      assert cuts[k] == Reach(steps[..k + 1]);
      assert k > 0 ==> cuts[k - 1] == Reach(steps[..k]);
    }
  }

  // ----- one entry after the other

  lemma RoomIs(from: int, width: int, nbins: nat)
    requires width >= 1 && from >= 1
    ensures Room(from, width, nbins) == 0 <==> from + width - 1 > nbins
    ensures from + width - 1 <= nbins ==> Room(from, width, nbins) == Room(from + width, width, nbins) + 1
  {
    if from + width - 1 <= nbins {
      DivPlusOne(nbins + 1 - from - width, width);
    } else if from <= nbins {
      DivModOf(0, width, nbins + 1 - from);
    }
  }

  lemma RowFront(from: int, width: int, n: nat)
    ensures Row(from, width, n + 1) == [Interval(from, from + width - 1)] + Row(from + width, width, n)
  {
    var (a, b) := (Row(from, width, n + 1), [Interval(from, from + width - 1)] + Row(from + width, width, n));
    forall j | 0 <= j < |a| ensures a[j] == b[j] {
      Shift(from, width, j - 1);
    }
  }

  lemma Shift(from: int, width: int, k: int)
    ensures from + (k + 1) * width == (from + width) + k * width
    ensures from + (k + 2) * width == (from + width) + (k + 1) * width
  {
  }

  lemma {:induction false} LaidRow(width: int, n: nat, more: seq<int>, from: int, nbins: nat)
    requires width >= 1 && from >= 1
    ensures Laid(Repeat(width, n) + more, from, nbins) ==
              if n <= Room(from, width, nbins) then Row(from, width, n) + Laid(more, from + n * width, nbins)
              else Row(from, width, Room(from, width, nbins))
    decreases n
  {
    hide Room, Row;
    RoomIs(from, width, nbins);
    RowNone(from, width);
    if n == 0 {
      assert Repeat(width, 0) + more == more;
      assert from + 0 * width == from;
    } else {
      var steps := Repeat(width, n) + more;
      assert steps[0] == width && steps[1..] == Repeat(width, n - 1) + more;
      if from + width - 1 <= nbins {
        var room := Room(from + width, width, nbins);
        LaidRow(width, n - 1, more, from + width, nbins);
        Shift(from, width, n - 1);
        if n <= room + 1 {
          RowFront(from, width, n - 1);
          assert Row(from, width, n) == [Interval(from, from + width - 1)] + Row(from + width, width, n - 1);
        } else {
          RowFront(from, width, room);
        }
      }
    }
  }

  lemma RowNone(from: int, width: int)
    ensures Row(from, width, 0) == []
  {
  }

  lemma {:induction false} StepsFront(ws: seq<Width>, nbins: nat)
    requires Proper(ws) && ws != []
    ensures Times(ws[0], nbins) >= 0
    ensures Steps(ws, nbins) == Repeat(ws[0].width, Times(ws[0], nbins)) + Steps(ws[1..], nbins)
  {
    CountIs(ws[0], nbins);
    if |ws| == 1 {
      assert ws[..0] == [] && ws[1..] == [];
    } else {
      var init := ws[..|ws| - 1];
      assert init[1..] == ws[1..][..|ws| - 2];
      StepsFront(init, nbins);
    }
  }

  lemma CountIs(w: Width, nbins: nat)
    requires w.width >= 1 && (w.count.Some? ==> w.count.value >= 0)
    ensures Times(w, nbins) >= 0
    ensures Times(w, nbins) == if w.count.Some? then w.count.value else Room(1, w.width, nbins)
  {
    if nbins == 0 {
      DivModOf(0, w.width, 0);
    }
  }

  lemma {:induction false} LaidLayout(ws: seq<Width>, from: int, nbins: nat)
    requires Proper(ws) && from >= 1
    ensures Laid(Steps(ws, nbins), from, nbins) == Layout(ws, from, nbins)
    decreases |ws|
  {
    hide Steps, Times, Laid, Row, Room;
    if ws == [] {
      NoSteps(nbins);
    } else {
      var n := Times(ws[0], nbins);
      StepsFront(ws, nbins);
      CountIs(ws[0], nbins);
      LaidRow(ws[0].width, n, Steps(ws[1..], nbins), from, nbins);
      if n <= Room(from, ws[0].width, nbins) {
        GrowsBy(from, ws[0].width, n);
        LaidLayout(ws[1..], from + n * ws[0].width, nbins);
      }
    }
  }

  lemma NoSteps(nbins: nat)
    ensures Steps([], nbins) == [] && forall from :: Laid([], from, nbins) == []
  {
  }

  // The intervals registered for a width list are those of its entries in order.
  lemma WidthListMeans(ws: seq<Width>, nbins: nat)
    requires Proper(ws)
    ensures Intervals(Cuts(Steps(ws, nbins), nbins)) == Layout(ws, 1, nbins)
  {
    StepsPositive(ws, nbins);
    LaidIsCut(Steps(ws, nbins), nbins);
    LaidLayout(ws, 1, nbins);
  }

  // A width without a count cuts the axis evenly: cut k is (k + 1) * width, and fewer bins than the width
  // are left behind the last.
  lemma EvenWidths(width: int, nbins: nat)
    requires width >= 1
    ensures Proper([Width(width, None)])
    ensures var cuts := Cuts(Steps([Width(width, None)], nbins), nbins);
            && (forall k :: 0 <= k < |cuts| ==> cuts[k] == (k + 1) * width)
            && 0 <= nbins - |cuts| * width < width
  {
    hide Cuts, Steps;
    var ws := [Width(width, None)];
    var cuts := Cuts(Steps(ws, nbins), nbins);
    WidthListMeans(ws, nbins);
    assert ws[1..] == [];
    var n := Room(1, width, nbins);
    assert Layout(ws, 1, nbins) == Row(1, width, n) + [];
    forall k | 0 <= k < |cuts| ensures cuts[k] == (k + 1) * width {
      assert Intervals(cuts)[k] == Row(1, width, n)[k];
    }
    assert |cuts| == |Intervals(cuts)| == n;
    assert nbins == 0 || nbins == (nbins / width) * width + nbins % width;
  }

  // An entry with a count contributes that many intervals of its width, or as many as still fit; what
  // comes behind it is what comes behind the bins it covers.
  lemma CountedWidth(w: Width, rest: seq<Width>, from: int, nbins: nat)
    requires Proper([w] + rest) && Proper(rest) && w.count.Some? && from >= 1
    ensures var (v, n) := (Layout([w] + rest, from, nbins), w.count.value);
            && (n == 0 || n * w.width <= nbins + 1 - from ==>
                  from + n * w.width >= 1 && v == Row(from, w.width, n) + Layout(rest, from + n * w.width, nbins))
            && (n > 0 && n * w.width > nbins + 1 - from ==>
                  && |v| < n && v == Row(from, w.width, |v|)
                  && (|v| > 0 ==> from + |v| * w.width - 1 <= nbins) && from + (|v| + 1) * w.width - 1 > nbins)
  {
    assert ([w] + rest)[0] == w && ([w] + rest)[1..] == rest;
    RoomFits(from, w.width, nbins, w.count.value);
    GrowsBy(from, w.width, w.count.value);
  }

  lemma RoomFits(from: int, width: int, nbins: nat, n: nat)
    requires width >= 1 && from >= 1
    ensures n > 0 ==> (n <= Room(from, width, nbins) <==> n * width <= nbins + 1 - from)
    ensures n * width <= nbins + 1 - from ==> n <= Room(from, width, nbins)
    ensures var room := Room(from, width, nbins);
            (room > 0 ==> from + room * width - 1 <= nbins) && from + (room + 1) * width - 1 > nbins
  {
    var room := Room(from, width, nbins);
    if from <= nbins {
      var left := nbins + 1 - from;
      assert left == room * width + left % width;
      assert (room + 1) * width == room * width + width;
      MulGap(n - room, width);
      assert n * width == (n - room) * width + room * width;
      if n > room {
        assert (n - room) * width >= width;
      } else {
        MulGap(room - n, width);
        assert room * width == (room - n) * width + n * width;
      }
    } else {
      assert n > 0 ==> n * width >= 1 by {
        if n > 0 {
          MulPositive(n, width);
        }
      }
    }
  }
}
