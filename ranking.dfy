/** Ranking of nearby food banks: a stable sort by distance.

    `Rank` is the reference definition (insertion into a sorted prefix,
    each new entry going after every entry whose distance is not larger),
    `SortByDistance` is the in-place sort of the list, proved equal to it,
    and the lemmas say what `Rank` guarantees: sorted, a permutation, stable,
    and the only sequence with those properties. */
module Ranking {
  import opened Facilities

  /** Non-decreasing by distance. */
  predicate Sorted(s: seq<Entry>) {
    forall i, j :: 0 <= i < j < |s| ==> s[i].distance <= s[j].distance
  }

  /** The entries of `s` whose distance is `d`, in their order in `s`. */
  function AtDistance(s: seq<Entry>, d: real): seq<Entry> {
    if s == [] then []
    else AtDistance(s[..|s| - 1], d) + (if s[|s| - 1].distance == d then [s[|s| - 1]] else [])
  }

  /** Inserts `x` into `p` just after the last entry whose distance is at
      most that of `x`. */
  function Insert(p: seq<Entry>, x: Entry): seq<Entry> {
    if p == [] || p[|p| - 1].distance <= x.distance then p + [x]
    else Insert(p[..|p| - 1], x) + [p[|p| - 1]]
  }

  /** The stable sort by distance, as insertion sort. */
  function Rank(s: seq<Entry>): (r: seq<Entry>)
    ensures |r| == |s|
  {
    if s == [] then []
    else
      InsertPermutes(Rank(s[..|s| - 1]), s[|s| - 1]);
      Insert(Rank(s[..|s| - 1]), s[|s| - 1])
  }

  // ---------------------------------------------------------------------
  // Facts about AtDistance

  lemma {:induction false} AtDistanceAppend(a: seq<Entry>, b: seq<Entry>, d: real)
    ensures AtDistance(a + b, d) == AtDistance(a, d) + AtDistance(b, d)
    decreases |b|
  {
    if b == [] {
      assert a + b == a;
    } else {
      var b' := b[..|b| - 1];
      assert (a + b)[..|a + b| - 1] == a + b';
      AtDistanceAppend(a, b', d);
    }
  }

  lemma {:induction false} AtLastDistance(s: seq<Entry>)
    requires s != []
    ensures AtDistance(s, s[|s| - 1].distance) != []
  {
    assert AtDistance(s, s[|s| - 1].distance)[|AtDistance(s, s[|s| - 1].distance)| - 1] == s[|s| - 1];
  }

  lemma {:induction false} AtDistanceMember(s: seq<Entry>, d: real, e: Entry)
    requires e in AtDistance(s, d)
    ensures e in s && e.distance == d
  {
    if s != [] {
      var s' := s[..|s| - 1];
      if e in AtDistance(s', d) {
        AtDistanceMember(s', d, e);
        assert s' <= s;
      }
    }
  }

  // ---------------------------------------------------------------------
  // Facts about Insert

  lemma {:induction false} InsertPermutes(p: seq<Entry>, x: Entry)
    ensures |Insert(p, x)| == |p| + 1
    ensures multiset(Insert(p, x)) == multiset(p) + multiset{x}
  {
    if p != [] && p[|p| - 1].distance > x.distance {
      var p', y := p[..|p| - 1], p[|p| - 1];
      assert p == p' + [y];
      InsertPermutes(p', x);
    }
  }

  lemma {:induction false} InsertSorted(p: seq<Entry>, x: Entry)
    requires Sorted(p)
    ensures Sorted(Insert(p, x))
  {
    if p != [] && p[|p| - 1].distance > x.distance {
      var p', y := p[..|p| - 1], p[|p| - 1];
      InsertSorted(p', x);
      InsertPermutes(p', x);
      var q := Insert(p', x);
      forall k | k in q ensures k.distance <= y.distance {
        assert k in multiset(q) && k in multiset(p') + multiset{x};
        if k != x {
          var i :| 0 <= i < |p'| && p'[i] == k;
          assert p[i] == k;
        }
      }
      forall i, j | 0 <= i < j < |q + [y]|
        ensures (q + [y])[i].distance <= (q + [y])[j].distance
      {
        if j == |q| { assert (q + [y])[i] in q; }
      }
    }
  }

  lemma {:induction false} InsertAtDistance(p: seq<Entry>, x: Entry, d: real)
    ensures AtDistance(Insert(p, x), d) == AtDistance(p + [x], d)
  {
    if p != [] && p[|p| - 1].distance > x.distance {
      var p', y := p[..|p| - 1], p[|p| - 1];
      assert p == p' + [y];
      InsertAtDistance(p', x, d);
      var q := Insert(p', x);
      AtDistanceAppend(q, [y], d);
      AtDistanceAppend(p' + [x], [y], d);
      AtDistanceAppend(p', [x], d);
      AtDistanceAppend(p', [y], d);
      AtDistanceAppend(p, [x], d);
      assert [y][..0] == [] && [x][..0] == [];
    }
  }

  /** Insert puts `x` at the one position `j` where everything before is
      no farther and everything after is strictly farther. */
  lemma {:induction false} InsertAt(p: seq<Entry>, x: Entry, j: nat)
    requires j <= |p|
    requires j == 0 || p[j - 1].distance <= x.distance
    requires forall k :: j <= k < |p| ==> p[k].distance > x.distance
    ensures Insert(p, x) == p[..j] + [x] + p[j..]
    decreases |p|
  {
    if j == |p| {
      assert p[..j] == p;
    } else {
      var p' := p[..|p| - 1];
      InsertAt(p', x, j);
      assert p'[..j] == p[..j];
      assert p'[j..] + [p[|p| - 1]] == p[j..];
    }
  }

  // ---------------------------------------------------------------------
  // What Rank guarantees

  lemma {:induction false} RankSortedPermutation(s: seq<Entry>)
    ensures Sorted(Rank(s))
    ensures multiset(Rank(s)) == multiset(s)
  {
    if s != [] {
      var s' := s[..|s| - 1];
      RankSortedPermutation(s');
      InsertPermutes(Rank(s'), s[|s| - 1]);
      InsertSorted(Rank(s'), s[|s| - 1]);
      assert s == s' + [s[|s| - 1]];
    }
  }

  /** Stability: for every distance, the entries at that distance keep
      their relative order. */
  lemma {:induction false} RankStable(s: seq<Entry>, d: real)
    ensures AtDistance(Rank(s), d) == AtDistance(s, d)
  {
    if s != [] {
      var s' := s[..|s| - 1];
      RankStable(s', d);
      InsertAtDistance(Rank(s'), s[|s| - 1], d);
      AtDistanceAppend(Rank(s'), [s[|s| - 1]], d);
      AtDistanceAppend(s', [s[|s| - 1]], d);
      assert s == s' + [s[|s| - 1]];
    }
  }

  /** Two sorted sequences with the same entries at every distance, in the
      same order, are equal. */
  lemma {:induction false} SortedStableUnique(t: seq<Entry>, u: seq<Entry>)
    requires Sorted(t) && Sorted(u)
    requires forall d :: AtDistance(t, d) == AtDistance(u, d)
    ensures t == u
    decreases |t| + |u|
  {
    if t == [] && u == [] {
    } else if t == [] {
      AtLastDistance(u);
      assert false;
    } else if u == [] {
      AtLastDistance(t);
      assert false;
    } else {
      var t', x := t[..|t| - 1], t[|t| - 1];
      var u', y := u[..|u| - 1], u[|u| - 1];
      assert x.distance <= y.distance by {
        var at := AtDistance(u, x.distance);
        assert at == AtDistance(t, x.distance) != [];
        AtDistanceMember(u, x.distance, at[0]);
        var k :| 0 <= k < |u| && u[k] == at[0];
      }
      assert y.distance <= x.distance by {
        var at := AtDistance(t, y.distance);
        assert at == AtDistance(u, y.distance) != [];
        AtDistanceMember(t, y.distance, at[0]);
        var k :| 0 <= k < |t| && t[k] == at[0];
      }
      assert t == t' + [x] && u == u' + [y];
      var k := x.distance;
      assert AtDistance(t, k) == AtDistance(t', k) + [x];
      assert AtDistance(u, k) == AtDistance(u', k) + [y];
      assert AtDistance(t, k) == AtDistance(u, k);
      SnocInjective(AtDistance(t', k), x, AtDistance(u', k), y);
      forall d ensures AtDistance(t', d) == AtDistance(u', d) {
        assert AtDistance(t, d) == AtDistance(u, d);
        if d == k {
        } else {
          assert AtDistance(t, d) == AtDistance(t', d);
          assert AtDistance(u, d) == AtDistance(u', d);
        }
      }
      SortedStableUnique(t', u');
    }
  }

  lemma {:induction false} SnocInjective(a: seq<Entry>, x: Entry, b: seq<Entry>, y: Entry)
    requires a + [x] == b + [y]
    ensures a == b && x == y
  {
    assert |a| == |b|;
    assert x == (a + [x])[|a|] && y == (b + [y])[|b|];
    assert a == (a + [x])[..|a|] && b == (b + [y])[..|b|];
  }

  /** Rank is the one stable sort by distance: any sorted sequence that
      keeps every distance's entries in their original order is Rank(s). */
  lemma {:induction false} RankIsTheStableSort(s: seq<Entry>, t: seq<Entry>)
    requires Sorted(t)
    requires forall d :: AtDistance(t, d) == AtDistance(s, d)
    ensures t == Rank(s)
  {
    RankSortedPermutation(s);
    forall d ensures AtDistance(t, d) == AtDistance(Rank(s), d) {
      RankStable(s, d);
    }
    SortedStableUnique(t, Rank(s));
  }

  // ---------------------------------------------------------------------
  // The in-place sort of the nearby list

  /** Sorts the list in place by distance, keeping the order of entries at
      equal distance. */
  method SortByDistance(a: array<Entry>)
    modifies a
    ensures a[..] == Rank(old(a[..]))
  {
    ghost var s0 := a[..];
    var i := 0;
    while i < a.Length
      invariant 0 <= i <= a.Length
      invariant a[..i] == Rank(s0[..i])
      invariant a[i..] == s0[i..]
    {
      ghost var before := a[..];
      InsertLast(a, i);
      assert before[..i] == Rank(s0[..i]) && before[i] == s0[i];
      assert s0[..i + 1] == s0[..i] + [s0[i]];
      assert Rank(s0[..i + 1]) == Insert(Rank(s0[..i]), s0[i]);
      assert a[i + 1..] == before[i + 1..] == s0[i + 1..];
      i := i + 1;
    }
    assert a[..] == a[..a.Length] && s0 == s0[..a.Length];
  }

  /** One step of the insertion sort: moves a[i] left past the entries of
      a[..i] that are strictly farther. */
  method InsertLast(a: array<Entry>, i: nat)
    requires i < a.Length
    modifies a
    ensures a[..i + 1] == Insert(old(a[..i]), old(a[i]))
    ensures a[i + 1..] == old(a[i + 1..])
  {
    var x := a[i];
    ghost var p := a[..i];
    var j := i;
    while j > 0 && a[j - 1].distance > x.distance
      invariant 0 <= j <= i
      invariant forall k :: 0 <= k < j ==> a[k] == p[k]
      invariant forall k :: j < k <= i ==> a[k] == p[k - 1]
      invariant forall k :: j <= k < i ==> p[k].distance > x.distance
      invariant forall k :: i < k < a.Length ==> a[k] == old(a[k])
    {
      a[j] := a[j - 1];
      j := j - 1;
    }
    a[j] := x;
    InsertAt(p, x, j);
    assert a[..i + 1] == p[..j] + [x] + p[j..];
  }
}
