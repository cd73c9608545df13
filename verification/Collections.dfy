// Sums, projections, stable sorting and first-maximum selection over sequences.
module Collections {
  import opened Domain

  function Map<A, B>(f: A -> B, xs: seq<A>): (ys: seq<B>)
    ensures |ys| == |xs|
    ensures forall i :: 0 <= i < |xs| ==> ys[i] == f(xs[i])
  {
    seq(|xs|, i requires 0 <= i < |xs| => f(xs[i]))
  }

  lemma MapAppend<A, B>(f: A -> B, xs: seq<A>, ys: seq<A>)
    ensures Map(f, xs + ys) == Map(f, xs) + Map(f, ys)
  {
  }

  lemma MapMember<A(!new), B>(f: A -> B, xs: seq<A>, y: B)
    ensures y in Map(f, xs) <==> exists x :: x in xs && f(x) == y
  {
    if y in Map(f, xs) {
      var i :| 0 <= i < |xs| && Map(f, xs)[i] == y;
      assert xs[i] in xs;
    }
    if x :| x in xs && f(x) == y {
      var i :| 0 <= i < |xs| && xs[i] == x;
      assert Map(f, xs)[i] == y;
    }
  }

  lemma MapSnoc<A, B>(f: A -> B, xs: seq<A>, x: A)
    ensures Map(f, xs + [x]) == Map(f, xs) + [f(x)]
  {
  }

  lemma MultisetSnoc<A>(xs: seq<A>, x: A)
    ensures multiset(xs + [x]) == multiset(xs) + multiset{x}
  {
  }

  lemma MultisetLast<A>(xs: seq<A>)
    requires xs != []
    ensures xs == xs[..|xs| - 1] + [xs[|xs| - 1]]
    ensures multiset(xs) == multiset(xs[..|xs| - 1]) + multiset{xs[|xs| - 1]}
  {
    assert xs == xs[..|xs| - 1] + [xs[|xs| - 1]];
  }

  lemma Cancel<A>(a: multiset<A>, b: multiset<A>, c: multiset<A>)
    requires a + c == b + c
    ensures a == b
  {
    assert (a + c) - c == a && (b + c) - c == b;
  }

  function Filter<A(!new)>(keep: A -> bool, xs: seq<A>): (ys: seq<A>)
    ensures forall x :: x in ys <==> x in xs && keep(x)
    ensures |ys| <= |xs|
  {
    if xs == [] then []
    else
      var n := |xs| - 1;
      assert xs == xs[..n] + [xs[n]];
      Filter(keep, xs[..n]) + if keep(xs[n]) then [xs[n]] else []
  }

  lemma MapLast<A, B>(f: A -> B, xs: seq<A>)
    requires xs != []
    ensures multiset(Map(f, xs)) == multiset(Map(f, xs[..|xs| - 1])) + multiset{f(xs[|xs| - 1])}
  {
    MultisetLast(Map(f, xs));
    assert Map(f, xs)[..|xs| - 1] == Map(f, xs[..|xs| - 1]);
  }

  lemma FilterLast<A(!new), B>(keep: A -> bool, f: A -> B, xs: seq<A>)
    requires xs != []
    ensures var n := |xs| - 1;
      multiset(Map(f, Filter(keep, xs)))
        == multiset(Map(f, Filter(keep, xs[..n]))) + if keep(xs[n]) then multiset{f(xs[n])} else multiset{}
  {
    var n := |xs| - 1;
    var front := Filter(keep, xs[..n]);
    if keep(xs[n]) {
      MapSnoc(f, front, xs[n]);
    } else {
      assert front + [] == front;
    }
  }

  lemma {:induction false} FilterIsPart<A(!new), B>(keep: A -> bool, f: A -> B, xs: seq<A>)
    ensures multiset(Map(f, Filter(keep, xs))) <= multiset(Map(f, xs))
  {
    if xs != [] {
      FilterIsPart(keep, f, xs[..|xs| - 1]);
      FilterLast(keep, f, xs);
      MapLast(f, xs);
      hide Filter, Map;
    }
  }

  lemma {:induction false} FilterSplits<A(!new), B>(keep: A -> bool, drop: A -> bool, f: A -> B, xs: seq<A>)
    requires forall x :: x in xs ==> keep(x) != drop(x)
    ensures multiset(Map(f, xs)) == multiset(Map(f, Filter(keep, xs))) + multiset(Map(f, Filter(drop, xs)))
  {
    if xs != [] {
      FilterSplits(keep, drop, f, xs[..|xs| - 1]);
      FilterLast(keep, f, xs);
      FilterLast(drop, f, xs);
      MapLast(f, xs);
      hide Filter, Map;
    }
  }

  function Sum(xs: seq<real>): real {
    if xs == [] then 0.0 else Sum(xs[..|xs| - 1]) + xs[|xs| - 1]
  }

  lemma SumSnoc(xs: seq<real>, last: real)
    ensures Sum(xs + [last]) == Sum(xs) + last
  {
    assert (xs + [last])[..|xs|] == xs;
  }

  lemma {:induction false} SumAppend(xs: seq<real>, ys: seq<real>)
    ensures Sum(xs + ys) == Sum(xs) + Sum(ys)
  {
    if ys == [] {
      assert xs + ys == xs;
    } else {
      var n := |ys| - 1;
      assert (xs + ys)[..|xs| + n] == xs + ys[..n];
      SumAppend(xs, ys[..n]);
    }
  }

  lemma SumBounds(xs: seq<real>)
    requires forall i :: 0 <= i < |xs| ==> xs[i] >= 0.0
    ensures Sum(xs) >= 0.0
    ensures forall i :: 0 <= i < |xs| ==> xs[i] <= Sum(xs)
  {
    if xs != [] {
      SumBounds(xs[..|xs| - 1]);
    }
  }

  // Splits off the position where a permutation keeps the other list's last element.
  lemma TakeOut<A>(xs: seq<A>, ys: seq<A>) returns (j: nat)
    requires xs != [] && multiset(xs) == multiset(ys)
    ensures j < |ys| && ys[j] == xs[|xs| - 1]
    ensures multiset(xs[..|xs| - 1]) == multiset(ys[..j] + ys[j + 1..])
    ensures ys == ys[..j] + [ys[j]] + ys[j + 1..]
  {
    var n := |xs| - 1;
    assert xs == xs[..n] + [xs[n]];
    assert xs[n] in multiset(xs);
    assert xs[n] in ys;
    j :| 0 <= j < |ys| && ys[j] == xs[n];
    assert ys == ys[..j] + [ys[j]] + ys[j + 1..];
    assert multiset(ys) == multiset(ys[..j]) + multiset{ys[j]} + multiset(ys[j + 1..]);
    assert multiset(xs) == multiset(xs[..n]) + multiset{xs[n]};
    assert multiset(ys[..j] + ys[j + 1..]) == multiset(ys) - multiset{ys[j]};
  }

  lemma SameMembers<A(!new)>(xs: seq<A>, ys: seq<A>)
    requires multiset(xs) == multiset(ys)
    ensures |xs| == |ys|
    ensures forall x :: x in xs <==> x in ys
  {
    assert |multiset(xs)| == |xs| && |multiset(ys)| == |ys|;
    forall x ensures x in xs <==> x in ys {
      assert x in multiset(xs) <==> x in multiset(ys);
    }
  }

  lemma {:induction false} SumPermutation(xs: seq<real>, ys: seq<real>)
    requires multiset(xs) == multiset(ys)
    ensures Sum(xs) == Sum(ys)
  {
    if xs == [] {
      assert |multiset(ys)| == |ys|;
    } else {
      var j := TakeOut(xs, ys);
      SumPermutation(xs[..|xs| - 1], ys[..j] + ys[j + 1..]);
      SumAppend(ys[..j], ys[j + 1..]);
      SumAppend(ys[..j] + [ys[j]], ys[j + 1..]);
      SumAppend(ys[..j], [ys[j]]);
      assert [ys[j]][..0] == [];
    }
  }

  lemma MapWithout<A, B>(f: A -> B, ys: seq<A>, j: nat)
    requires j < |ys|
    ensures multiset(Map(f, ys)) == multiset(Map(f, ys[..j] + ys[j + 1..])) + multiset{f(ys[j])}
  {
    assert Map(f, ys) == Map(f, ys[..j]) + [f(ys[j])] + Map(f, ys[j + 1..]);
    MapAppend(f, ys[..j], ys[j + 1..]);
  }

  lemma {:induction false} MapPermutation<A, B>(f: A -> B, xs: seq<A>, ys: seq<A>)
    requires multiset(xs) == multiset(ys)
    ensures multiset(Map(f, xs)) == multiset(Map(f, ys))
  {
    if xs == [] {
      assert |multiset(ys)| == |ys|;
    } else {
      var n := |xs| - 1;
      var j := TakeOut(xs, ys);
      var rest := ys[..j] + ys[j + 1..];
      MapPermutation(f, xs[..n], rest);
      MapWithout(f, ys, j);
      MapLast(f, xs);
    }
  }

  // ------------------------------------------------------------------ sorting

  // Sort keys compare by rank first, then by id.
  datatype Key = Key(rank: real, id: int)
  {
    predicate Leq(other: Key) {
      rank < other.rank || (rank == other.rank && id <= other.id)
    }
  }

  predicate SortedBy<T>(key: T -> Key, xs: seq<T>) {
    forall i, j :: 0 <= i < j < |xs| ==> key(xs[i]).Leq(key(xs[j]))
  }

  // Where a new key goes: after every key that is not greater.
  function Position<T(!new)>(key: T -> Key, k: Key, xs: seq<T>): (p: nat)
    requires SortedBy(key, xs)
    ensures p <= |xs|
    ensures forall i :: 0 <= i < p ==> key(xs[i]).Leq(k)
    ensures forall i :: p <= i < |xs| ==> !key(xs[i]).Leq(k)
  {
    var n := |xs|;
    if n == 0 || key(xs[n - 1]).Leq(k) then n else Position(key, k, xs[..n - 1])
  }

  lemma SpliceAdds<T>(xs: seq<T>, p: nat, x: T)
    requires p <= |xs|
    ensures multiset(xs[..p] + [x] + xs[p..]) == multiset(xs) + multiset{x}
  {
    assert xs == xs[..p] + xs[p..];
  }

  function Insert<T(!new)>(key: T -> Key, x: T, xs: seq<T>): (r: seq<T>)
    requires SortedBy(key, xs)
    ensures multiset(r) == multiset(xs) + multiset{x}
    ensures SortedBy(key, r)
  {
    var p := Position(key, key(x), xs);
    SpliceAdds(xs, p, x);
    xs[..p] + [x] + xs[p..]
  }

  // A stable sort by key, ascending.
  function Sort<T(!new)>(key: T -> Key, xs: seq<T>): (r: seq<T>)
    ensures multiset(r) == multiset(xs)
    ensures SortedBy(key, r)
  {
    if xs == [] then []
    else
      var n := |xs| - 1;
      assert xs == xs[..n] + [xs[n]];
      Insert(key, xs[n], Sort(key, xs[..n]))
  }

  ghost predicate KeyIdentifies<T(!new)>(key: T -> Key, xs: seq<T>) {
    forall x, y :: x in xs && y in xs && key(x) == key(y) ==> x == y
  }

  lemma {:induction false} SortedIsUnique<T(!new)>(key: T -> Key, xs: seq<T>, ys: seq<T>)
    requires SortedBy(key, xs) && SortedBy(key, ys) && multiset(xs) == multiset(ys)
    requires KeyIdentifies(key, xs)
    ensures xs == ys
  {
    assert |multiset(xs)| == |xs| && |multiset(ys)| == |ys|;
    if xs != [] {
      var n := |xs| - 1;
      SameLast(key, xs, ys);
      assert multiset(xs[..n]) == multiset(ys[..n]) && xs == xs[..n] + [xs[n]] && ys == ys[..n] + [ys[n]] by {
        MultisetLast(xs);
        MultisetLast(ys);
        Cancel(multiset(xs[..n]), multiset(ys[..n]), multiset{xs[n]});
      }
      SortedIsUnique(key, xs[..n], ys[..n]);
    }
  }

  lemma SameLast<T(!new)>(key: T -> Key, xs: seq<T>, ys: seq<T>)
    requires SortedBy(key, xs) && SortedBy(key, ys) && multiset(xs) == multiset(ys)
    requires KeyIdentifies(key, xs) && |xs| == |ys| > 0
    ensures xs[|xs| - 1] == ys[|ys| - 1]
  {
    var n := |xs| - 1;
    assert xs[n] in multiset(ys) && ys[n] in multiset(xs);
    var i :| 0 <= i < |xs| && xs[i] == ys[n];
    var j :| 0 <= j < |ys| && ys[j] == xs[n];
    assert key(xs[i]).Leq(key(xs[n])) && key(ys[j]).Leq(key(ys[n]));
  }

  // Sorting forgets the input order once keys tell elements apart.
  lemma SortIgnoresOrder<T(!new)>(key: T -> Key, xs: seq<T>, ys: seq<T>)
    requires multiset(xs) == multiset(ys) && KeyIdentifies(key, xs)
    ensures Sort(key, xs) == Sort(key, ys)
  {
    forall x | x in Sort(key, xs) ensures x in xs {
      assert x in multiset(Sort(key, xs));
    }
    SortedIsUnique(key, Sort(key, xs), Sort(key, ys));
  }

  // Strictly smaller keys.
  predicate Precedes<T>(key: T -> Key, x: T, y: T) {
    key(x).Leq(key(y)) && key(x) != key(y)
  }

  lemma PrecedesInOrder<T>(key: T -> Key, xs: seq<T>, i: nat, j: nat)
    requires SortedBy(key, xs) && i < |xs| && j < |xs| && Precedes(key, xs[i], xs[j])
    ensures i < j
  {
  }

  // ------------------------------------------------------------------ first maximum

  // Index of the first largest key among those present: what a scan keeping a strictly
  // better candidate ends with.
  function Best(keys: seq<Option<real>>): (r: Option<nat>)
    ensures r.None? <==> forall i :: 0 <= i < |keys| ==> keys[i].None?
    ensures r.Some? ==>
      && r.value < |keys| && keys[r.value].Some?
      && (forall i :: 0 <= i < |keys| && keys[i].Some? ==>
        keys[i].value <= keys[r.value].value && (keys[i].value == keys[r.value].value ==> r.value <= i))
  {
    if keys == [] then None
    else
      var n := |keys| - 1;
      var best := Best(keys[..n]);
      if keys[n].Some? && (best.None? || keys[n].value > keys[best.value].value) then Some(n) else best
  }

  lemma BestSnoc(keys: seq<Option<real>>, i: nat)
    requires i < |keys|
    ensures var best := Best(keys[..i]);
      Best(keys[..i + 1])
        == if keys[i].Some? && (best.None? || keys[i].value > keys[best.value].value) then Some(i) else best
  {
    assert keys[..i + 1][..i] == keys[..i];
  }
}
