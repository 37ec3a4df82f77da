// The contracts sort Soroban vectors with the same in-place bubble sort:
// `for i in 0..len { for j in 0..len-i-1 { if <swap test> { swap j, j+1 } } }`.
// Every swap test in the sources is a lexicographic "less than" on one or two
// integer keys, so one generic method serves all of them.

module Sorting {
  import opened Base

  /** The keys a swap test compares, most significant first. */
  datatype Rank = Rank(major: int, minor: int)

  /** The swap test: an element ranked `x` is moved behind a neighbour ranked `y`. */
  predicate Precedes(x: Rank, y: Rank)
  {
    x.major < y.major || (x.major == y.major && x.minor < y.minor)
  }

  /** No element is followed by one it would be swapped behind. */
  predicate Ordered<T>(s: seq<T>, rank: T -> Rank)
  {
    forall i, j :: 0 <= i < j < |s| ==> !Precedes(rank(s[i]), rank(s[j]))
  }

  /** The elements of `s` ranked exactly `r`, in their order in `s`. */
  function RankClass<T>(s: seq<T>, rank: T -> Rank, r: Rank): seq<T>
  {
    if s == [] then []
    else (if rank(s[0]) == r then [s[0]] else []) + RankClass(s[1..], rank, r)
  }

  /** `t` keeps every run of equally ranked elements in the order `s` has them. */
  ghost predicate Stable<T>(t: seq<T>, s: seq<T>, rank: T -> Rank)
  {
    forall r :: RankClass(t, rank, r) == RankClass(s, rank, r)
  }

  /** The sort of the sources, run on `a` in place. It swaps only on a strict
      test, so elements of equal rank keep their order. */
  method BubbleSort<T>(a: array<T>, rank: T -> Rank)
    modifies a
    ensures Ordered(a[..], rank)
    ensures multiset(a[..]) == multiset(old(a[..]))
    ensures Stable(a[..], old(a[..]), rank)
  {
    var n := a.Length;
    var i := 0;
    while i < n
      invariant 0 <= i <= n
      invariant multiset(a[..]) == multiset(old(a[..]))
      invariant Stable(a[..], old(a[..]), rank)
      invariant Ordered(a[n - i..], rank)
      invariant forall k, l :: 0 <= k < n - i <= l < n ==> !Precedes(rank(a[k]), rank(a[l]))
    {
      var m := n - i;
      ghost var before := a[..];
      BubblePass(a, rank, m);
      assert a[..] == a[..m] + a[m..] && before == before[..m] + before[m..];
      forall l | m <= l < n
        ensures forall k :: 0 <= k < m ==> !Precedes(rank(a[k]), rank(a[l]))
      {
        assert a[l] == before[l];
        PrefixBound(a[..m], before[..m], rank, a[l]);
        assert forall k :: 0 <= k < m ==> a[k] == a[..m][k];
      }
      i := i + 1;
    }
  }

  /** One inner pass over `a[..m]`: it carries a last-ranked element to position `m - 1`. */
  method BubblePass<T>(a: array<T>, rank: T -> Rank, m: nat)
    requires 1 <= m <= a.Length
    modifies a
    ensures a[m..] == old(a[m..])
    ensures multiset(a[..m]) == multiset(old(a[..m]))
    ensures Stable(a[..], old(a[..]), rank)
    ensures forall k :: 0 <= k < m - 1 ==> !Precedes(rank(a[k]), rank(a[m - 1]))
  {
    var j := 0;
    while j < m - 1
      invariant 0 <= j <= m - 1
      invariant a[m..] == old(a[m..])
      invariant multiset(a[..m]) == multiset(old(a[..m]))
      invariant Stable(a[..], old(a[..]), rank)
      invariant forall k :: 0 <= k < j ==> !Precedes(rank(a[k]), rank(a[j]))
    {
      ghost var before := a[..];
      PassStep(before, rank, j);
      if Precedes(rank(a[j]), rank(a[j + 1])) {
        a[j], a[j + 1] := a[j + 1], a[j];
        assert a[..] == Swapped(before, j);
        SwapKeeps(before, j, m);
        SwapStable(before, rank, j);
        StableTrans(a[..], before, old(a[..]), rank);
      }
      j := j + 1;
    }
  }

  /** The classes of a concatenation are the concatenated classes. */
  lemma {:induction false} RankClassAppend<T>(s: seq<T>, u: seq<T>, rank: T -> Rank, r: Rank)
    ensures RankClass(s + u, rank, r) == RankClass(s, rank, r) + RankClass(u, rank, r)
  {
    if s == [] {
      assert s + u == u;
    } else {
      var front := if rank(s[0]) == r then [s[0]] else [];
      RankClassAppend(s[1..], u, rank, r);
      assert (s + u)[0] == s[0] && (s + u)[1..] == s[1..] + u;
      assert RankClass(s + u, rank, r) == front + RankClass(s[1..] + u, rank, r);
      assert RankClass(s, rank, r) == front + RankClass(s[1..], rank, r);
    }
  }

  /** Exchanging two neighbours of different rank keeps every class in order. */
  lemma SwapStable<T>(s: seq<T>, rank: T -> Rank, j: nat)
    requires j + 1 < |s| && rank(s[j]) != rank(s[j + 1])
    ensures Stable(Swapped(s, j), s, rank)
  {
    var head, tail := s[..j], s[j + 2..];
    assert Swapped(s, j) == head + [s[j + 1], s[j]] + tail;
    assert s == head + [s[j], s[j + 1]] + tail;
    forall r
      ensures RankClass(Swapped(s, j), rank, r) == RankClass(s, rank, r)
    {
      RankClassAppend(head + [s[j + 1], s[j]], tail, rank, r);
      RankClassAppend(head, [s[j + 1], s[j]], rank, r);
      RankClassAppend(head + [s[j], s[j + 1]], tail, rank, r);
      RankClassAppend(head, [s[j], s[j + 1]], rank, r);
      assert [s[j + 1], s[j]][1..] == [s[j]] && [s[j], s[j + 1]][1..] == [s[j + 1]];
    }
  }

  lemma StableTrans<T>(t: seq<T>, u: seq<T>, s: seq<T>, rank: T -> Rank)
    requires Stable(t, u, rank) && Stable(u, s, rank)
    ensures Stable(t, s, rank)
  {
    forall r
      ensures RankClass(t, rank, r) == RankClass(s, rank, r)
    {
      assert RankClass(t, rank, r) == RankClass(u, rank, r);
    }
  }

  /** Two ordered, stable rearrangements of the same list are the same list: the
      sort's result is fully determined, ties included. */
  lemma StableSortUnique<T>(t: seq<T>, u: seq<T>, s: seq<T>, rank: T -> Rank)
    requires multiset(t) == multiset(s) && Ordered(t, rank) && Stable(t, s, rank)
    requires multiset(u) == multiset(s) && Ordered(u, rank) && Stable(u, s, rank)
    ensures t == u
  {
    forall r
      ensures RankClass(t, rank, r) == RankClass(u, rank, r)
    {
      assert RankClass(t, rank, r) == RankClass(s, rank, r);
    }
    OrderedUnique(t, u, rank);
  }

  lemma {:induction false} OrderedUnique<T>(t: seq<T>, u: seq<T>, rank: T -> Rank)
    requires multiset(t) == multiset(u) && Ordered(t, rank) && Ordered(u, rank) && Stable(t, u, rank)
    ensures t == u
  {
    assert |t| == |multiset(t)| == |multiset(u)| == |u|;
    if t != [] {
      HeadsAgree(t, u, rank);
      TailsAgree(t, u, rank);
      OrderedTail(t, rank);
      OrderedTail(u, rank);
      OrderedUnique(t[1..], u[1..], rank);
      assert t == [t[0]] + t[1..] && u == [u[0]] + u[1..];
    }
  }

  /** Both start with a first-ranked element of the common class, hence the same one. */
  lemma HeadsAgree<T>(t: seq<T>, u: seq<T>, rank: T -> Rank)
    requires t != [] && u != []
    requires multiset(t) == multiset(u) && Ordered(t, rank) && Ordered(u, rank) && Stable(t, u, rank)
    ensures t[0] == u[0]
  {
    var x, y := t[0], u[0];
    assert y in multiset(t) && x in multiset(u);
    var k :| 0 <= k < |t| && t[k] == y;
    var l :| 0 <= l < |u| && u[l] == x;
    assert !Precedes(rank(x), rank(y)) by { if k > 0 { assert !Precedes(rank(t[0]), rank(t[k])); } }
    assert !Precedes(rank(y), rank(x)) by { if l > 0 { assert !Precedes(rank(u[0]), rank(u[l])); } }
    assert rank(x) == rank(y);
    assert RankClass(t, rank, rank(x))[0] == x;
    assert RankClass(u, rank, rank(x))[0] == y;
    assert RankClass(t, rank, rank(x)) == RankClass(u, rank, rank(x));
  }

  /** Dropping a common first element keeps the multisets and classes equal. */
  lemma TailsAgree<T>(t: seq<T>, u: seq<T>, rank: T -> Rank)
    requires t != [] && u != [] && t[0] == u[0]
    requires multiset(t) == multiset(u) && Stable(t, u, rank)
    ensures multiset(t[1..]) == multiset(u[1..]) && Stable(t[1..], u[1..], rank)
  {
    var x := t[0];
    assert t == [x] + t[1..] && u == [x] + u[1..];
    assert multiset(t[1..]) == multiset(t) - multiset([x]);
    assert multiset(u[1..]) == multiset(u) - multiset([x]);
    forall r
      ensures RankClass(t[1..], rank, r) == RankClass(u[1..], rank, r)
    {
      var front := if rank(x) == r then [x] else [];
      assert RankClass(t, rank, r) == front + RankClass(t[1..], rank, r);
      assert RankClass(u, rank, r) == front + RankClass(u[1..], rank, r);
      assert RankClass(t, rank, r) == RankClass(u, rank, r);
      assert RankClass(t[1..], rank, r) == RankClass(t, rank, r)[|front|..];
    }
  }

  lemma OrderedTail<T>(t: seq<T>, rank: T -> Rank)
    requires t != [] && Ordered(t, rank)
    ensures Ordered(t[1..], rank)
  {
    forall i, j | 0 <= i < j < |t[1..]|
      ensures !Precedes(rank(t[1..][i]), rank(t[1..][j]))
    {
      assert t[1..][i] == t[i + 1] && t[1..][j] == t[j + 1];
    }
  }

  /** Where the elements at `i` and at `j` count in their class. */
  lemma ClassPosition<T>(t: seq<T>, rank: T -> Rank, i: nat)
    requires i < |t|
    ensures var c := RankClass(t, rank, rank(t[i]));
            |RankClass(t[..i], rank, rank(t[i]))| < |c| && c[|RankClass(t[..i], rank, rank(t[i]))|] == t[i]
  {
    var r := rank(t[i]);
    assert t == t[..i] + t[i..];
    RankClassAppend(t[..i], t[i..], rank, r);
  }

  /** The class of a longer prefix is at least as long. */
  lemma ClassGrows<T>(t: seq<T>, rank: T -> Rank, r: Rank, i: nat, j: nat)
    requires i <= j <= |t|
    ensures |RankClass(t[..i], rank, r)| <= |RankClass(t[..j], rank, r)|
    ensures i < j && rank(t[i]) == r ==> |RankClass(t[..i], rank, r)| < |RankClass(t[..j], rank, r)|
  {
    assert t[..j] == t[..i] + t[i..j];
    RankClassAppend(t[..i], t[i..j], rank, r);
  }

  /** The element at position `p` of a class sits in `s` after exactly `p` class members. */
  lemma {:induction false} ClassSource<T>(s: seq<T>, rank: T -> Rank, r: Rank, p: nat)
    requires p < |RankClass(s, rank, r)|
    ensures exists k :: 0 <= k < |s| && s[k] == RankClass(s, rank, r)[p] && rank(s[k]) == r
                        && |RankClass(s[..k], rank, r)| == p
  {
    assert s != [];
    if rank(s[0]) == r && p == 0 {
      assert s[..0] == [];
    } else {
      var q := if rank(s[0]) == r then p - 1 else p;
      ClassSource(s[1..], rank, r, q);
      var k :| 0 <= k < |s[1..]| && s[1..][k] == RankClass(s[1..], rank, r)[q] && rank(s[1..][k]) == r
               && |RankClass(s[1..][..k], rank, r)| == q;
      assert s[..k + 1] == [s[0]] + s[1..][..k];
      RankClassAppend([s[0]], s[1..][..k], rank, r);
      assert s[k + 1] == RankClass(s, rank, r)[p];
    }
  }

  /** In a stable rearrangement two equally ranked elements appear in the order
      they had in the original list. */
  lemma StableTies<T>(t: seq<T>, s: seq<T>, rank: T -> Rank, i: nat, j: nat)
    requires Stable(t, s, rank) && i < j < |t| && rank(t[i]) == rank(t[j])
    ensures exists i', j' :: 0 <= i' < j' < |s| && s[i'] == t[i] && s[j'] == t[j]
  {
    var r := rank(t[i]);
    ClassPosition(t, rank, i);
    ClassPosition(t, rank, j);
    ClassGrows(t, rank, r, i, j);
    var p, q := |RankClass(t[..i], rank, r)|, |RankClass(t[..j], rank, r)|;
    assert RankClass(t, rank, r) == RankClass(s, rank, r);
    ClassSource(s, rank, r, p);
    ClassSource(s, rank, r, q);
    var i' :| 0 <= i' < |s| && s[i'] == RankClass(s, rank, r)[p] && rank(s[i']) == r && |RankClass(s[..i'], rank, r)| == p;
    var j' :| 0 <= j' < |s| && s[j'] == RankClass(s, rank, r)[q] && rank(s[j']) == r && |RankClass(s[..j'], rank, r)| == q;
    if j' <= i' {
      ClassGrows(s, rank, r, j', i');
    }
  }

  /** `s` with the neighbours at `j` and `j + 1` exchanged. */
  function Swapped<T>(s: seq<T>, j: nat): (r: seq<T>)
    requires j + 1 < |s|
    ensures |r| == |s|
  {
    s[j := s[j + 1]][j + 1 := s[j]]
  }

  /** A swap inside the first `m` elements permutes them and leaves the rest. */
  lemma SwapKeeps<T>(s: seq<T>, j: nat, m: nat)
    requires j + 1 < m <= |s|
    ensures multiset(Swapped(s, j)[..m]) == multiset(s[..m])
    ensures Swapped(s, j)[m..] == s[m..]
  {
    var t := Swapped(s, j);
    assert t[..m] == s[..j] + [s[j + 1], s[j]] + s[j + 2..m];
    assert s[..m] == s[..j] + [s[j], s[j + 1]] + s[j + 2..m];
  }

  /** One step of the pass: whether or not the neighbours are swapped, no element
      up to position `j` would be swapped behind the one now at `j + 1`. */
  lemma PassStep<T>(s: seq<T>, rank: T -> Rank, j: nat)
    requires j + 1 < |s|
    requires forall k :: 0 <= k < j ==> !Precedes(rank(s[k]), rank(s[j]))
    ensures var t := if Precedes(rank(s[j]), rank(s[j + 1])) then Swapped(s, j) else s;
            forall k :: 0 <= k <= j ==> !Precedes(rank(t[k]), rank(t[j + 1]))
  {
  }

  /** A bound that holds of every element of `q` holds of every element of a permutation of `q`. */
  lemma PrefixBound<T>(p: seq<T>, q: seq<T>, rank: T -> Rank, y: T)
    requires multiset(p) == multiset(q)
    requires forall k :: 0 <= k < |q| ==> !Precedes(rank(q[k]), rank(y))
    ensures forall k :: 0 <= k < |p| ==> !Precedes(rank(p[k]), rank(y))
  {
    forall k | 0 <= k < |p|
      ensures !Precedes(rank(p[k]), rank(y))
    {
      assert p[k] in multiset(p);
      assert p[k] in q;
      var k' :| 0 <= k' < |q| && q[k'] == p[k];
    }
  }

  // ---------------------------------------------------------------------------
  // Sorting the entries of a map: the contracts copy a Soroban map into a vector
  // of (key, value) pairs, sort that, and return a prefix.

  /** `s` lists every `(key, value)` pair of `m` exactly once. */
  predicate Entries<K, V(==)>(m: map<K, V>, s: seq<(K, V)>)
  {
    && |s| == |m| && NoDup(s)
    && (forall i :: 0 <= i < |s| ==> s[i].0 in m && s[i].1 == m[s[i].0])
    && (forall k :: k in m ==> (k, m[k]) in s)
  }

  /** The pairs of `m`, each key once, in an unspecified order (the map's own key
      order is not modelled). */
  method CollectEntries<K, V(==)>(m: map<K, V>) returns (entries: seq<(K, V)>)
    ensures Entries(m, entries)
  {
    entries := [];
    var remaining := m.Keys;
    while remaining != {}
      invariant remaining <= m.Keys
      invariant |entries| + |remaining| == |m.Keys|
      invariant NoDup(entries)
      invariant forall i :: 0 <= i < |entries| ==> entries[i].0 in m && entries[i].0 !in remaining && entries[i].1 == m[entries[i].0]
      invariant forall k :: k in m && k !in remaining ==> (k, m[k]) in entries
      decreases |remaining|
    {
      var k :| k in remaining;
      entries := entries + [(k, m[k])];
      remaining := remaining - {k};
    }
    assert |m| == |m.Keys|;
  }

  /** The collect-and-sort step both leaderboards share: the map's entries copied
      into an array and bubble-sorted by `rank`. */
  method SortedEntries<K, V(==)>(m: map<K, V>, rank: ((K, V)) -> Rank) returns (t: seq<(K, V)>)
    ensures Entries(m, t) && Ordered(t, rank)
  {
    var entries := CollectEntries(m);
    var a := new (K, V)[|entries|](k requires 0 <= k < |entries| => entries[k]);
    assert a[..] == entries;
    BubbleSort(a, rank);
    EntriesPermutation(m, entries, a[..]);
    t := a[..];
  }

  /** Reordering a listing of the map's entries leaves a listing of them. */
  lemma EntriesPermutation<K, V>(m: map<K, V>, s: seq<(K, V)>, t: seq<(K, V)>)
    requires Entries(m, s) && multiset(s) == multiset(t)
    ensures Entries(m, t)
  {
    NoDupPermutation(s, t);
    assert |t| == |multiset(t)|;
    forall i | 0 <= i < |t|
      ensures t[i] in s
    {
      assert t[i] in multiset(t);
    }
    forall k | k in m
      ensures (k, m[k]) in t
    {
      assert (k, m[k]) in multiset(s);
    }
  }

  /** The first `n` entries of a sorted listing are distinct keys with their values,
      still in order, and no key left out would be swapped ahead of any of them. */
  lemma TopPrefix<K, V>(m: map<K, V>, s: seq<(K, V)>, n: nat, rank: ((K, V)) -> Rank)
    requires Entries(m, s) && Ordered(s, rank) && n <= |s|
    ensures var r := s[..n];
            && (forall i :: 0 <= i < |r| ==> r[i].0 in m && m[r[i].0] == r[i].1)
            && (forall i, j :: 0 <= i < j < |r| ==> r[i].0 != r[j].0)
            && Ordered(r, rank)
            && (forall k :: k in m && (forall i :: 0 <= i < |r| ==> r[i].0 != k) ==>
                  (forall i :: 0 <= i < |r| ==> !Precedes(rank(r[i]), rank((k, m[k])))))
  {
    var r := s[..n];
    forall i, j | 0 <= i < j < |r|
      ensures r[i].0 != r[j].0
    {
      assert s[i] != s[j];
    }
    forall k | k in m && (forall i :: 0 <= i < |r| ==> r[i].0 != k)
      ensures forall i :: 0 <= i < |r| ==> !Precedes(rank(r[i]), rank((k, m[k])))
    {
      var l :| 0 <= l < |s| && s[l] == (k, m[k]);
      assert l >= n;
    }
  }
}
