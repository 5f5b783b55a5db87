/** Sequences filtered, summed and keyed: the collections the bot's loops build. */
module Lists {

  /** The elements of `xs` that satisfy `p`, in their order. */
  function Filter<T>(p: T -> bool, xs: seq<T>): seq<T> {
    if |xs| == 0 then []
    else
      var n := |xs| - 1;
      if p(xs[n]) then Filter(p, xs[..n]) + [xs[n]] else Filter(p, xs[..n])
  }

  /** The sum of `f` over `xs`. */
  function SumBy<T>(f: T -> real, xs: seq<T>): real {
    if |xs| == 0 then 0.0 else SumBy(f, xs[..|xs| - 1]) + f(xs[|xs| - 1])
  }

  /** `Map.set` of a JavaScript Map seen as its values in insertion order: a known key
      keeps its place and takes the new value, an unknown key goes to the end. */
  function PutBy<T, K(==)>(key: T -> K, xs: seq<T>, x: T): seq<T> {
    if |xs| == 0 then [x]
    else if key(xs[0]) == key(x) then [x] + xs[1..]
    else [xs[0]] + PutBy(key, xs[1..], x)
  }

  /** The values of a JavaScript Map filled from `xs` one by one. */
  function Keyed<T, K(==)>(key: T -> K, xs: seq<T>): seq<T> {
    if |xs| == 0 then [] else PutBy(key, Keyed(key, xs[..|xs| - 1]), xs[|xs| - 1])
  }

  ghost predicate Distinct<T(!new), K>(key: T -> K, xs: seq<T>) {
    forall i, j :: 0 <= i < j < |xs| ==> key(xs[i]) != key(xs[j])
  }

  lemma {:induction false} FilterAppend<T>(p: T -> bool, xs: seq<T>, ys: seq<T>)
    ensures Filter(p, xs + ys) == Filter(p, xs) + Filter(p, ys)
  {
    if |ys| == 0 {
      assert xs + ys == xs;
    } else {
      var n := |ys| - 1;
      FilterAppend(p, xs, ys[..n]);
      assert (xs + ys)[..|xs + ys| - 1] == xs + ys[..n];
    }
  }

  lemma {:induction false} FilterSnoc<T>(p: T -> bool, xs: seq<T>, x: T)
    ensures Filter(p, xs + [x]) == if p(x) then Filter(p, xs) + [x] else Filter(p, xs)
  {
    assert (xs + [x])[..|xs|] == xs;
  }

  lemma {:induction false} FilterSound<T>(p: T -> bool, xs: seq<T>)
    ensures forall x :: x in Filter(p, xs) <==> x in xs && p(x)
    ensures |Filter(p, xs)| <= |xs|
  {
    if |xs| > 0 {
      var n := |xs| - 1;
      FilterSound(p, xs[..n]);
      assert xs == xs[..n] + [xs[n]];
    }
  }

  lemma {:induction false} FilterCong<T>(p: T -> bool, q: T -> bool, xs: seq<T>)
    requires forall x :: x in xs ==> p(x) == q(x)
    ensures Filter(p, xs) == Filter(q, xs)
  {
    if |xs| > 0 {
      assert xs[|xs| - 1] in xs;
      FilterCong(p, q, xs[..|xs| - 1]);
    }
  }

  /** Filtering by `p` and then `q` is filtering by their conjunction `r`. */
  lemma {:induction false} FilterTwice<T>(p: T -> bool, q: T -> bool, r: T -> bool, xs: seq<T>)
    requires forall x :: x in xs ==> r(x) == (p(x) && q(x))
    ensures Filter(q, Filter(p, xs)) == Filter(r, xs)
  {
    if |xs| > 0 {
      var n := |xs| - 1;
      assert xs[n] in xs;
      FilterTwice(p, q, r, xs[..n]);
      FilterSnoc(q, Filter(p, xs[..n]), xs[n]);
    }
  }

  lemma {:induction false} FilterAll<T>(p: T -> bool, xs: seq<T>)
    requires forall x :: x in xs ==> p(x)
    ensures Filter(p, xs) == xs
  {
    if |xs| > 0 {
      assert xs[|xs| - 1] in xs;
      FilterAll(p, xs[..|xs| - 1]);
    }
  }

  lemma {:induction false} FilterNone<T>(p: T -> bool, xs: seq<T>)
    requires forall x :: x in xs ==> !p(x)
    ensures Filter(p, xs) == []
  {
    if |xs| > 0 {
      assert xs[|xs| - 1] in xs;
      FilterNone(p, xs[..|xs| - 1]);
    }
  }

  lemma {:induction false} FilterDistinct<T(!new), K>(key: T -> K, p: T -> bool, xs: seq<T>)
    requires Distinct(key, xs)
    ensures Distinct(key, Filter(p, xs))
  {
    if |xs| > 0 {
      var n := |xs| - 1;
      FilterDistinct(key, p, xs[..n]);
      FilterSound(p, xs[..n]);
      forall i | 0 <= i < |Filter(p, xs[..n])| ensures key(Filter(p, xs[..n])[i]) != key(xs[n]) {
        assert Filter(p, xs[..n])[i] in Filter(p, xs[..n]);
      }
    }
  }

  lemma {:induction false} SumAppend<T>(f: T -> real, xs: seq<T>, ys: seq<T>)
    ensures SumBy(f, xs + ys) == SumBy(f, xs) + SumBy(f, ys)
  {
    if |ys| == 0 {
      assert xs + ys == xs;
    } else {
      SumAppend(f, xs, ys[..|ys| - 1]);
      assert (xs + ys)[..|xs + ys| - 1] == xs + ys[..|ys| - 1];
    }
  }

  lemma {:induction false} SumSnoc<T>(f: T -> real, xs: seq<T>, x: T)
    ensures SumBy(f, xs + [x]) == SumBy(f, xs) + f(x)
  {
    assert (xs + [x])[..|xs|] == xs;
  }

  lemma {:induction false} SumCons<T>(f: T -> real, x: T, xs: seq<T>)
    ensures SumBy(f, [x] + xs) == f(x) + SumBy(f, xs)
  {
    SumAppend(f, [x], xs);
    SumSnoc(f, [], x);
    assert [] + [x] == [x];
  }

  lemma {:induction false} SumNonNeg<T>(f: T -> real, xs: seq<T>)
    requires forall x :: x in xs ==> f(x) >= 0.0
    ensures SumBy(f, xs) >= 0.0
    ensures SumBy(f, xs) == 0.0 ==> forall x :: x in xs ==> f(x) == 0.0
  {
    if |xs| > 0 {
      assert xs[|xs| - 1] in xs;
      SumNonNeg(f, xs[..|xs| - 1]);
      assert xs == xs[..|xs| - 1] + [xs[|xs| - 1]];
    }
  }

  lemma {:induction false} SumTogether<T>(f: T -> real, g: T -> real, h: T -> real, xs: seq<T>)
    requires forall x :: x in xs ==> f(x) + g(x) == h(x)
    ensures SumBy(f, xs) + SumBy(g, xs) == SumBy(h, xs)
  {
    if |xs| > 0 {
      assert xs[|xs| - 1] in xs;
      SumTogether(f, g, h, xs[..|xs| - 1]);
    }
  }

  lemma {:induction false} SumCong<T>(f: T -> real, g: T -> real, xs: seq<T>)
    requires forall x :: x in xs ==> f(x) == g(x)
    ensures SumBy(f, xs) == SumBy(g, xs)
  {
    if |xs| > 0 {
      assert xs[|xs| - 1] in xs;
      SumCong(f, g, xs[..|xs| - 1]);
    }
  }

  lemma {:induction false} SumZero<T>(f: T -> real, xs: seq<T>)
    requires forall x :: x in xs ==> f(x) == 0.0
    ensures SumBy(f, xs) == 0.0
  {
    if |xs| > 0 {
      assert xs[|xs| - 1] in xs;
      SumZero(f, xs[..|xs| - 1]);
    }
  }

  /** Leaving out weightless elements changes no sum. */
  lemma {:induction false} SumFilter<T>(f: T -> real, p: T -> bool, xs: seq<T>)
    requires forall x :: x in xs && !p(x) ==> f(x) == 0.0
    ensures SumBy(f, Filter(p, xs)) == SumBy(f, xs)
  {
    if |xs| > 0 {
      var init, x := xs[..|xs| - 1], xs[|xs| - 1];
      assert x in xs;
      SumFilter(f, p, init);
      if p(x) { SumSnoc(f, Filter(p, init), x); }
    }
  }

  /** A sum over elements that are each in one of two parts, or weightless. */
  lemma {:induction false} SumParts<T>(f: T -> real, p: T -> bool, q: T -> bool, xs: seq<T>)
    requires forall x :: x in xs ==> f(x) == 0.0 || p(x) != q(x)
    ensures SumBy(f, Filter(p, xs)) + SumBy(f, Filter(q, xs)) == SumBy(f, xs)
  {
    if |xs| > 0 {
      var init, x := xs[..|xs| - 1], xs[|xs| - 1];
      assert x in xs;
      SumParts(f, p, q, init);
      if p(x) { SumSnoc(f, Filter(p, init), x); }
      if q(x) { SumSnoc(f, Filter(q, init), x); }
    }
  }

  /** An unused key is appended. */
  lemma {:induction false} PutFresh<T, K>(key: T -> K, xs: seq<T>, x: T)
    requires forall y :: y in xs ==> key(y) != key(x)
    ensures PutBy(key, xs, x) == xs + [x]
  {
    if |xs| > 0 {
      assert xs[0] in xs;
      PutFresh(key, xs[1..], x);
    }
  }

  lemma {:induction false} PutDistinct<T(!new), K>(key: T -> K, xs: seq<T>, x: T)
    requires Distinct(key, xs)
    ensures Distinct(key, PutBy(key, xs, x))
    ensures forall y :: y in PutBy(key, xs, x) ==> y == x || y in xs
    ensures x in PutBy(key, xs, x)
  {
    if |xs| > 0 && key(xs[0]) != key(x) {
      PutDistinct(key, xs[1..], x);
      var r := PutBy(key, xs[1..], x);
      forall i | 0 <= i < |r| ensures key(xs[0]) != key(r[i]) { assert r[i] in r; }
    }
  }

  /** With distinct keys the Map holds exactly what was put in it. */
  lemma {:induction false} KeyedDistinct<T(!new), K>(key: T -> K, xs: seq<T>)
    requires Distinct(key, xs)
    ensures Keyed(key, xs) == xs
  {
    if |xs| > 0 {
      var n := |xs| - 1;
      KeyedDistinct(key, xs[..n]);
      PutFresh(key, xs[..n], xs[n]);
    }
  }

  /** Whatever is put in, the keys of a Map stay distinct. */
  lemma {:induction false} KeyedKeys<T(!new), K>(key: T -> K, xs: seq<T>)
    ensures Distinct(key, Keyed(key, xs))
    ensures forall y :: y in Keyed(key, xs) ==> y in xs
  {
    if |xs| > 0 {
      KeyedKeys(key, xs[..|xs| - 1]);
      PutDistinct(key, Keyed(key, xs[..|xs| - 1]), xs[|xs| - 1]);
    }
  }

  lemma {:induction false} PutSum<T, K>(key: T -> K, xs: seq<T>, x: T, f: T -> real)
    requires forall y :: y in xs ==> f(y) >= 0.0
    ensures SumBy(f, PutBy(key, xs, x)) <= SumBy(f, xs) + f(x)
  {
    if |xs| == 0 {
      assert [x] == [] + [x];
      SumSnoc(f, [], x);
    } else {
      assert xs == [xs[0]] + xs[1..] && xs[0] in xs;
      SumCons(f, xs[0], xs[1..]);
      if key(xs[0]) == key(x) {
        SumCons(f, x, xs[1..]);
      } else {
        PutSum(key, xs[1..], x, f);
        SumCons(f, xs[0], PutBy(key, xs[1..], x));
      }
    }
  }

  /** A Map holds at most what was put in it. */
  lemma {:induction false} KeyedSum<T(!new), K>(key: T -> K, xs: seq<T>, f: T -> real)
    requires forall y :: y in xs ==> f(y) >= 0.0
    ensures SumBy(f, Keyed(key, xs)) <= SumBy(f, xs)
  {
    if |xs| > 0 {
      var init := xs[..|xs| - 1];
      assert forall y :: y in init ==> y in xs;
      KeyedSum(key, init, f);
      KeyedKeys(key, init);
      PutSum(key, Keyed(key, init), xs[|xs| - 1], f);
    }
  }

  /** What a Map holds: of every key, the element put in last. */
  lemma {:induction false} PutMembers<T(!new), K>(key: T -> K, xs: seq<T>, x: T)
    requires Distinct(key, xs)
    ensures forall y :: y in PutBy(key, xs, x) <==> y == x || (y in xs && key(y) != key(x))
  {
    if |xs| > 0 {
      var first, rest := xs[0], xs[1..];
      assert xs == [first] + rest;
      if key(first) == key(x) {
        forall i | 0 <= i < |rest| ensures key(rest[i]) != key(x) { assert key(xs[0]) != key(xs[i + 1]); }
      } else {
        PutMembers(key, rest, x);
      }
    }
  }

  /** The last element under a key. */
  function LastUnder<T, K(==)>(key: T -> K, xs: seq<T>, k: K): T
    requires |xs| > 0
  {
    if key(xs[|xs| - 1]) == k || |xs| == 1 then xs[|xs| - 1] else LastUnder(key, xs[..|xs| - 1], k)
  }

  function NotUnder<T, K(==)>(key: T -> K, k: K): T -> bool { (x: T) => key(x) != k }

  /** Keys stand in the order in which they first came, each with what came last under it. */
  lemma {:induction false} KeyedFirst<T, K>(key: T -> K, xs: seq<T>)
    requires |xs| > 0
    ensures var k := key(xs[0]);
            Keyed(key, xs) == [LastUnder(key, xs, k)] + Keyed(key, Filter(NotUnder(key, k), xs))
    ensures key(LastUnder(key, xs, key(xs[0]))) == key(xs[0])
  {
    var k, init, x := key(xs[0]), xs[..|xs| - 1], xs[|xs| - 1];
    assert xs == init + [x];
    FilterSnoc(NotUnder(key, k), init, x);
    if |init| > 0 {
      KeyedFirst(key, init);
      var rest := Filter(NotUnder(key, k), init);
      assert (rest + [x])[..|rest|] == rest;
      var tail := Keyed(key, rest);
      assert Keyed(key, xs) == PutBy(key, [LastUnder(key, init, k)] + tail, x);
      assert ([LastUnder(key, init, k)] + tail)[1..] == tail;
    }
  }

  lemma {:induction false} KeyedSnoc<T(!new), K>(key: T -> K, xs: seq<T>, x: T)
    ensures Keyed(key, xs + [x]) == PutBy(key, Keyed(key, xs), x)
    ensures forall y :: y in Keyed(key, xs + [x]) <==> y == x || (y in Keyed(key, xs) && key(y) != key(x))
  {
    assert (xs + [x])[..|xs|] == xs;
    KeyedKeys(key, xs);
    PutMembers(key, Keyed(key, xs), x);
  }

  /** What a Map keeps of some elements it also keeps of a part of them. */
  lemma {:induction false} KeyedPart<T(!new), K>(key: T -> K, p: T -> bool, xs: seq<T>, x: T)
    requires x in Keyed(key, xs) && p(x)
    ensures x in Keyed(key, Filter(p, xs))
  {
    if |xs| > 0 {
      var init, last := xs[..|xs| - 1], xs[|xs| - 1];
      assert xs == init + [last];
      KeyedSnoc(key, init, last);
      if x != last { KeyedPart(key, p, init, x); }
      if p(last) { KeyedSnoc(key, Filter(p, init), last); }
    }
  }

  // ----- Order does not matter -----

  lemma {:induction false} TakenOut<T>(xs: seq<T>, i: nat)
    requires i < |xs|
    ensures multiset(xs[..i] + xs[i + 1..]) == multiset(xs) - multiset{xs[i]}
  {
    assert xs == xs[..i] + [xs[i]] + xs[i + 1..];
  }

  lemma {:induction false} SumTakenOut<T>(f: T -> real, xs: seq<T>, i: nat)
    requires i < |xs|
    ensures SumBy(f, xs) == SumBy(f, xs[..i] + xs[i + 1..]) + f(xs[i])
  {
    assert xs == xs[..i] + [xs[i]] + xs[i + 1..];
    SumAppend(f, xs[..i] + [xs[i]], xs[i + 1..]);
    SumSnoc(f, xs[..i], xs[i]);
    SumAppend(f, xs[..i], xs[i + 1..]);
  }

  /** Equal as multisets, equal in sum. */
  lemma {:induction false} SumPermuted<T>(f: T -> real, xs: seq<T>, ys: seq<T>)
    requires multiset(xs) == multiset(ys)
    ensures SumBy(f, xs) == SumBy(f, ys)
  {
    if |xs| == 0 {
      assert |multiset(ys)| == 0;
    } else {
      var init, last := xs[..|xs| - 1], xs[|xs| - 1];
      assert xs == init + [last];
      assert last in multiset(ys);
      var i :| 0 <= i < |ys| && ys[i] == last;
      TakenOut(ys, i);
      SumPermuted(f, init, ys[..i] + ys[i + 1..]);
      SumTakenOut(f, ys, i);
    }
  }

  lemma {:induction false} CountOnce<T(!new), K>(key: T -> K, xs: seq<T>, x: T)
    requires Distinct(key, xs)
    ensures multiset(xs)[x] == if x in xs then 1 else 0
  {
    if |xs| > 0 {
      var n := |xs| - 1;
      assert xs == xs[..n] + [xs[n]];
      CountOnce(key, xs[..n], x);
      forall i | 0 <= i < n ensures xs[..n][i] != xs[n] { assert key(xs[i]) != key(xs[n]); }
    }
  }

  /** With distinct keys, two lists that split the elements of a third make up its multiset. */
  lemma {:induction false} SplitMultiset<T(!new), K>(key: T -> K, xs: seq<T>, ys: seq<T>, zs: seq<T>)
    requires Distinct(key, xs) && Distinct(key, ys) && Distinct(key, zs)
    requires forall x :: x in xs <==> x in ys || x in zs
    requires forall x :: !(x in ys && x in zs)
    ensures multiset(xs) == multiset(ys) + multiset(zs)
  {
    forall x ensures multiset(xs)[x] == (multiset(ys) + multiset(zs))[x] {
      CountOnce(key, xs, x);
      CountOnce(key, ys, x);
      CountOnce(key, zs, x);
    }
  }
}
