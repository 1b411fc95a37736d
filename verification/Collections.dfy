// Small facts about sequences, sets and maps that the models share.
module Collections {

  datatype Option<+T> = None | Some(value: T)

  ghost predicate Distinct<T>(s: seq<T>) {
    forall i, j :: 0 <= i < j < |s| ==> s[i] != s[j]
  }

  function ToSet<T>(s: seq<T>): set<T> {
    set x | x in s
  }

  function Lookup<K, V>(m: map<K, V>, k: K, default: V): V {
    if k in m then m[k] else default
  }

  lemma {:induction false} DistinctCard<T>(s: seq<T>)
    requires Distinct(s)
    ensures |ToSet(s)| == |s|
  {
    if s == [] {
      assert ToSet(s) == {};
    } else {
      DistinctCard(s[1..]);
      assert ToSet(s) == {s[0]} + ToSet(s[1..]);
      assert s[0] !in s[1..];
    }
  }

  lemma DistinctAppend<T>(s: seq<T>, x: T)
    requires Distinct(s) && x !in s
    ensures Distinct(s + [x])
    ensures ToSet(s + [x]) == ToSet(s) + {x}
  {
  }

  lemma DistinctTail<T>(s: seq<T>)
    requires Distinct(s) && s != []
    ensures Distinct(s[1..]) && s[0] !in s[1..]
    ensures ToSet(s[1..]) == ToSet(s) - {s[0]}
  {
    assert forall x :: x in s <==> x == s[0] || x in s[1..];
  }

  lemma {:induction false} SubsetCard<T>(a: set<T>, b: set<T>)
    requires a <= b
    ensures |a| <= |b|
    ensures |a| == |b| ==> a == b
  {
    assert b == a + (b - a);
    assert |b| == |a| + |b - a|;
  }

  lemma {:induction false} RangeCard(s: set<nat>, n: nat)
    requires forall k: nat :: k in s <==> k < n
    ensures |s| == n
  {
    if n == 0 {
      assert s == {};
    } else {
      RangeCard(s - {n - 1}, n - 1);
    }
  }

  lemma {:induction false} LeastOf(s: set<nat>) returns (m: nat)
    requires s != {}
    ensures m in s && forall k :: k in s ==> m <= k
    decreases s
  {
    var x :| x in s;
    var smaller := set k | k in s && k < x;
    if smaller == {} {
      forall k | k in s ensures x <= k {
        assert k !in smaller;
      }
      m := x;
    } else {
      assert x !in smaller;
      m := LeastOf(smaller);
      forall k | k in s ensures m <= k {
        if k < x {
          assert k in smaller;
        }
      }
    }
  }

  // The least element of a non-empty set exists, so an ordered walk is well defined.
  lemma LeastExists(s: set<nat>)
    requires s != {}
    ensures exists m :: m in s && forall k :: k in s ==> m <= k
  {
    var m := LeastOf(s);
  }

  ghost function Least(s: set<nat>): (m: nat)
    requires s != {}
    ensures m in s && forall k :: k in s ==> m <= k
  {
    LeastExists(s);
    var m :| m in s && forall k :: k in s ==> m <= k;
    m
  }

  // The elements of an ordered set in the order an iterator over it visits them.
  ghost function Ascending(s: set<nat>): seq<nat>
    decreases s
  {
    if s == {} then [] else [Least(s)] + Ascending(s - {Least(s)})
  }

  lemma {:induction false} AscendingIs(s: set<nat>)
    ensures Distinct(Ascending(s)) && ToSet(Ascending(s)) == s
    decreases s
  {
    if s != {} {
      var m := Least(s);
      AscendingIs(s - {m});
      assert m !in ToSet(Ascending(s - {m}));
      assert ToSet(Ascending(s)) == {m} + ToSet(Ascending(s - {m}));
    }
  }

  // Taking the least remaining element walks one position along the ascending order.
  lemma AscendingStep(order: seq<nat>, n: nat, rest: set<nat>, m: nat)
    requires n <= |order| && Ascending(rest) == order[n..]
    requires m in rest && forall k :: k in rest ==> m <= k
    ensures n < |order| && order[n] == m && Ascending(rest - {m}) == order[n + 1..]
  {
    assert Least(rest) == m;
    var tail := Ascending(rest - {m});
    assert order[n..] == [m] + tail;
    assert order[n..][0] == m && order[n..][1..] == tail;
  }
}
