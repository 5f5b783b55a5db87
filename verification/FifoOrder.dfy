/** The FIFO order of transactions: `compareToFIFO` and the stable sort by it. */
module FifoOrder {
  import opened Lists
  import opened Ledger

  /** Date, then the `order` property, then the millisecond field of the creation stamp when
      both transactions have one. */
  function CompareToFifo(a: Tx, b: Tx): int {
    var byDate := a.date - b.date;
    var byOrder := if byDate == 0 then a.order - b.order else byDate;
    if byOrder == 0 && a.millis.Some? && b.millis.Some? then a.millis.value - b.millis.value else byOrder
  }

  predicate Tied(a: Tx, b: Tx) { a.date == b.date && a.order == b.order }

  predicate Stamped(t: Tx) { t.millis.Some? }

  ghost predicate Sorted(xs: seq<Tx>) {
    forall i, j :: 0 <= i < j < |xs| ==> CompareToFifo(xs[i], xs[j]) <= 0
  }

  /** A comparator that sorts: asymmetric, and both "before" and "not comparable" are transitive. */
  ghost predicate StrictWeakOrderOn(xs: seq<Tx>) {
    && (forall a, b :: a in xs && b in xs && CompareToFifo(a, b) < 0 ==> CompareToFifo(b, a) > 0)
    && (forall a, b, c :: a in xs && b in xs && c in xs && CompareToFifo(a, b) < 0 && CompareToFifo(b, c) < 0 ==>
         CompareToFifo(a, c) < 0)
    && (forall a, b, c :: a in xs && b in xs && c in xs && CompareToFifo(a, b) == 0 && CompareToFifo(b, c) == 0 ==>
         CompareToFifo(a, c) == 0)
  }

  /** Two stamped transactions that tie with an unstamped one carry the same millisecond. */
  ghost predicate StampsAgree(xs: seq<Tx>) {
    forall a, b, c ::
      a in xs && b in xs && c in xs && Tied(a, b) && Tied(b, c) && Stamped(a) && !Stamped(b) && Stamped(c) ==>
      a.millis == c.millis
  }

  lemma {:induction false} LessTransitive(a: Tx, b: Tx, c: Tx)
    requires CompareToFifo(a, b) < 0 && CompareToFifo(b, c) < 0
    ensures CompareToFifo(a, c) < 0
  {}

  /** Exactly when the comparator is a strict weak order on a list of transactions. */
  lemma {:induction false} FifoIsStrictWeakOrder(xs: seq<Tx>)
    ensures StrictWeakOrderOn(xs) <==> StampsAgree(xs)
  {
    if StrictWeakOrderOn(xs) {
      forall a, b, c | a in xs && b in xs && c in xs && Tied(a, b) && Tied(b, c) && Stamped(a) && !Stamped(b)
        && Stamped(c)
        ensures a.millis == c.millis
      {
        assert CompareToFifo(a, b) == 0 && CompareToFifo(b, c) == 0;
        assert CompareToFifo(a, c) == 0;
      }
    }
    if StampsAgree(xs) {
      forall a, b, c | a in xs && b in xs && c in xs && CompareToFifo(a, b) < 0 && CompareToFifo(b, c) < 0
        ensures CompareToFifo(a, c) < 0
      {
        LessTransitive(a, b, c);
      }
    }
  }

  /** A stamp missing between two different ones breaks the order. */
  lemma {:induction false} MissingStampBreaksOrder(a: Tx)
    ensures var xs := [a.(millis := Some(0)), a.(millis := None), a.(millis := Some(1))];
            !StrictWeakOrderOn(xs)
  {
    var xs := [a.(millis := Some(0)), a.(millis := None), a.(millis := Some(1))];
    assert xs[0] in xs && xs[1] in xs && xs[2] in xs;
    assert Tied(xs[0], xs[1]) && Tied(xs[1], xs[2]);
    FifoIsStrictWeakOrder(xs);
  }

  /** Places `x` after every transaction that does not come later. */
  function Insert(xs: seq<Tx>, x: Tx): seq<Tx> {
    if |xs| == 0 || CompareToFifo(xs[|xs| - 1], x) <= 0 then xs + [x]
    else Insert(xs[..|xs| - 1], x) + [xs[|xs| - 1]]
  }

  /** The stable sort by `CompareToFifo`. */
  function Sort(xs: seq<Tx>): seq<Tx> {
    if |xs| == 0 then [] else Insert(Sort(xs[..|xs| - 1]), xs[|xs| - 1])
  }

  lemma {:induction false} InsertContents(xs: seq<Tx>, x: Tx)
    ensures multiset(Insert(xs, x)) == multiset(xs) + multiset{x}
    ensures forall y :: y in Insert(xs, x) <==> y in xs || y == x
    ensures |Insert(xs, x)| == |xs| + 1
  {
    if !(|xs| == 0 || CompareToFifo(xs[|xs| - 1], x) <= 0) {
      InsertContents(xs[..|xs| - 1], x);
      assert xs == xs[..|xs| - 1] + [xs[|xs| - 1]];
    }
  }

  lemma {:induction false} SortContents(xs: seq<Tx>)
    ensures multiset(Sort(xs)) == multiset(xs)
    ensures forall y :: y in Sort(xs) <==> y in xs
    ensures |Sort(xs)| == |xs|
  {
    if |xs| > 0 {
      SortContents(xs[..|xs| - 1]);
      InsertContents(Sort(xs[..|xs| - 1]), xs[|xs| - 1]);
      assert xs == xs[..|xs| - 1] + [xs[|xs| - 1]];
    }
  }

  ghost predicate AllStamped(xs: seq<Tx>) { forall t :: t in xs ==> Stamped(t) }

  lemma {:induction false} SortedSnoc(xs: seq<Tx>, x: Tx)
    requires Sorted(xs) && forall y :: y in xs ==> CompareToFifo(y, x) <= 0
    ensures Sorted(xs + [x])
  {
    forall i | 0 <= i < |xs| ensures CompareToFifo(xs[i], x) <= 0 { assert xs[i] in xs; }
  }

  lemma {:induction false} InsertSorted(xs: seq<Tx>, x: Tx)
    requires Sorted(xs) && AllStamped(xs) && Stamped(x)
    ensures Sorted(Insert(xs, x))
  {
    if |xs| > 0 {
      var init, last := xs[..|xs| - 1], xs[|xs| - 1];
      assert xs == init + [last];
      LastIsLatest(init, last);
      if CompareToFifo(last, x) <= 0 {
        forall y | y in xs ensures CompareToFifo(y, x) <= 0 { StampedTransitive(y, last, x); }
        SortedSnoc(xs, x);
      } else {
        InsertSorted(init, x);
        InsertContents(init, x);
        SortedSnoc(Insert(init, x), last);
      }
    }
  }

  lemma {:induction false} LastIsLatest(init: seq<Tx>, last: Tx)
    requires Sorted(init + [last])
    ensures Sorted(init) && forall y :: y in init + [last] ==> CompareToFifo(y, last) <= 0
  {
    var xs := init + [last];
    forall i, j | 0 <= i < j < |init|
      ensures CompareToFifo(init[i], init[j]) <= 0 { assert CompareToFifo(xs[i], xs[j]) <= 0; }
    forall y | y in xs ensures CompareToFifo(y, last) <= 0 {
      var i :| 0 <= i < |xs| && xs[i] == y;
      assert i < |init| ==> CompareToFifo(xs[i], xs[|init|]) <= 0;
    }
  }

  /** Before is transitive among stamped transactions. */
  lemma {:induction false} StampedTransitive(a: Tx, b: Tx, c: Tx)
    requires Stamped(a) && Stamped(b) && Stamped(c)
    requires CompareToFifo(a, b) <= 0 && CompareToFifo(b, c) <= 0
    ensures CompareToFifo(a, c) <= 0
  {}

  lemma {:induction false} SortIsSorted(xs: seq<Tx>)
    requires AllStamped(xs)
    ensures Sorted(Sort(xs)) && AllStamped(Sort(xs))
  {
    SortContents(xs);
    if |xs| > 0 {
      var n := |xs| - 1;
      assert Stamped(xs[n]) by { assert xs[n] in xs; }
      assert AllStamped(xs[..n]);
      SortIsSorted(xs[..n]);
      InsertSorted(Sort(xs[..n]), xs[n]);
    }
  }

  /** The sort gives an ordered permutation, so its last transaction has the latest date. */
  lemma {:induction false} SortLast(xs: seq<Tx>)
    requires AllStamped(xs) && |xs| > 0
    ensures |Sort(xs)| == |xs| && Sorted(Sort(xs)) && multiset(Sort(xs)) == multiset(xs)
    ensures Sort(xs)[|xs| - 1] in xs && forall t :: t in xs ==> t.date <= Sort(xs)[|xs| - 1].date
  {
    SortContents(xs);
    SortIsSorted(xs);
    var r := Sort(xs);
    assert r[|xs| - 1] in r;
    forall t | t in xs ensures t.date <= r[|xs| - 1].date {
      assert t in r;
      var i :| 0 <= i < |r| && r[i] == t;
      assert i < |xs| - 1 ==> CompareToFifo(r[i], r[|xs| - 1]) <= 0;
    }
  }

  /** `a` does not come after `b`: by date, on equal dates by order, and then by the millisecond. */
  predicate NotAfter(a: Tx, b: Tx) {
    || a.date < b.date
    || (a.date == b.date && a.order < b.order)
    || (a.date == b.date && a.order == b.order && a.millis.Some? && b.millis.Some? && a.millis.value <= b.millis.value)
  }

  /** What the sort puts first is not after what it puts later. */
  lemma {:induction false} SortedByFields(xs: seq<Tx>, i: nat, j: nat)
    requires AllStamped(xs) && i < j < |Sort(xs)|
    ensures NotAfter(Sort(xs)[i], Sort(xs)[j])
  {
    SortIsSorted(xs);
    assert CompareToFifo(Sort(xs)[i], Sort(xs)[j]) <= 0 && Sort(xs)[i] in Sort(xs) && Sort(xs)[j] in Sort(xs);
  }

  /** A sorted list with distinct ids keeps them distinct. */
  lemma {:induction false} SortDistinct(xs: seq<Tx>)
    requires Distinct(IdOf, xs)
    ensures Distinct(IdOf, Sort(xs))
  {
    if |xs| > 0 {
      var n := |xs| - 1;
      SortDistinct(xs[..n]);
      SortContents(xs[..n]);
      InsertDistinct(Sort(xs[..n]), xs[n]);
    }
  }

  lemma {:induction false} DistinctSnoc(xs: seq<Tx>, x: Tx)
    requires Distinct(IdOf, xs) && forall y :: y in xs ==> y.id != x.id
    ensures Distinct(IdOf, xs + [x])
  {
    forall i | 0 <= i < |xs| ensures xs[i].id != x.id { assert xs[i] in xs; }
  }

  lemma {:induction false} InsertDistinct(xs: seq<Tx>, x: Tx)
    requires Distinct(IdOf, xs) && forall y :: y in xs ==> y.id != x.id
    ensures Distinct(IdOf, Insert(xs, x))
  {
    if |xs| == 0 || CompareToFifo(xs[|xs| - 1], x) <= 0 {
      DistinctSnoc(xs, x);
    } else {
      var init, last := xs[..|xs| - 1], xs[|xs| - 1];
      InsertDistinct(init, x);
      InsertContents(init, x);
      forall y | y in init ensures y.id != last.id {
        var i :| 0 <= i < |init| && init[i] == y;
        assert IdOf(xs[i]) != IdOf(xs[|xs| - 1]);
      }
      DistinctSnoc(Insert(init, x), last);
    }
  }

  lemma {:induction false} SortSum(f: Tx -> real, xs: seq<Tx>)
    ensures SumBy(f, Sort(xs)) == SumBy(f, xs)
  {
    if |xs| > 0 {
      SortSum(f, xs[..|xs| - 1]);
      InsertSum(f, Sort(xs[..|xs| - 1]), xs[|xs| - 1]);
    }
  }

  lemma {:induction false} InsertSum(f: Tx -> real, xs: seq<Tx>, x: Tx)
    ensures SumBy(f, Insert(xs, x)) == SumBy(f, xs) + f(x)
  {
    if !(|xs| == 0 || CompareToFifo(xs[|xs| - 1], x) <= 0) {
      InsertSum(f, xs[..|xs| - 1], x);
    }
  }

  ghost function UpTo(d: int): Tx -> bool { (t: Tx) => t.date <= d }
  ghost function After(d: int): Tx -> bool { (t: Tx) => t.date > d }

  lemma {:induction false} InsertUpTo(xs: seq<Tx>, ys: seq<Tx>, x: Tx)
    requires forall y :: y in ys ==> y.date > x.date
    ensures Insert(xs + ys, x) == Insert(xs, x) + ys
  {
    if |ys| == 0 {
      assert xs + ys == xs;
    } else {
      var n := |ys| - 1;
      assert ys[n] in ys;
      InsertUpTo(xs, ys[..n], x);
      assert (xs + ys)[..|xs + ys| - 1] == xs + ys[..n];
    }
  }

  lemma {:induction false} InsertAfter(xs: seq<Tx>, ys: seq<Tx>, x: Tx)
    requires forall y :: y in xs ==> y.date < x.date
    ensures Insert(xs + ys, x) == xs + Insert(ys, x)
  {
    if |ys| == 0 {
      assert xs + ys == xs;
      assert |xs| > 0 ==> xs[|xs| - 1] in xs;
    } else {
      var n := |ys| - 1;
      assert (xs + ys)[..|xs + ys| - 1] == xs + ys[..n];
      if CompareToFifo(ys[n], x) > 0 {
        InsertAfter(xs, ys[..n], x);
      }
    }
  }

  lemma {:induction false} SortSnoc(xs: seq<Tx>, x: Tx)
    ensures Sort(xs + [x]) == Insert(Sort(xs), x)
  {
    assert (xs + [x])[..|xs|] == xs;
  }

  lemma {:induction false} InsertSnoc(xs: seq<Tx>, y: Tx, x: Tx)
    ensures Insert(xs + [y], x) == if CompareToFifo(y, x) <= 0 then xs + [y] + [x] else Insert(xs, x) + [y]
  {
    assert (xs + [y])[..|xs|] == xs;
  }

  /** Sorting puts everything up to a date before everything after it, each part sorted alone. */
  lemma {:induction false} SortSplit(xs: seq<Tx>, d: int)
    ensures Sort(xs) == Sort(Filter(UpTo(d), xs)) + Sort(Filter(After(d), xs))
  {
    if |xs| > 0 {
      var init, x := xs[..|xs| - 1], xs[|xs| - 1];
      assert xs == init + [x];
      SortSplit(init, d);
      SortSplitStep(init, x, d);
    }
  }

  lemma {:induction false} SortSplitStep(xs: seq<Tx>, x: Tx, d: int)
    requires Sort(xs) == Sort(Filter(UpTo(d), xs)) + Sort(Filter(After(d), xs))
    ensures Sort(xs + [x]) == Sort(Filter(UpTo(d), xs + [x])) + Sort(Filter(After(d), xs + [x]))
  {
    var a, b := Filter(UpTo(d), xs), Filter(After(d), xs);
    FilterSnoc(UpTo(d), xs, x);
    FilterSnoc(After(d), xs, x);
    FilterSound(UpTo(d), xs);
    FilterSound(After(d), xs);
    SortSnoc(xs, x);
    if x.date <= d { SortEarlier(a, b, x); } else { SortLater(a, b, x); }
  }

  lemma {:induction false} SortEarlier(a: seq<Tx>, b: seq<Tx>, x: Tx)
    requires forall y :: y in b ==> y.date > x.date
    ensures Insert(Sort(a) + Sort(b), x) == Sort(a + [x]) + Sort(b)
  {
    SortContents(b);
    InsertUpTo(Sort(a), Sort(b), x);
    SortSnoc(a, x);
  }

  lemma {:induction false} SortLater(a: seq<Tx>, b: seq<Tx>, x: Tx)
    requires forall y :: y in a ==> y.date < x.date
    ensures Insert(Sort(a) + Sort(b), x) == Sort(a) + Sort(b + [x])
  {
    SortContents(a);
    InsertAfter(Sort(a), Sort(b), x);
    SortSnoc(b, x);
  }

  predicate SameKey(a: Tx, b: Tx) { a.date == b.date && a.order == b.order && a.millis == b.millis }

  lemma {:induction false} InsertApply(u: map<nat, Tx>, xs: seq<Tx>, x: Tx)
    requires forall t :: t in xs || t == x ==> SameKey(t, Lookup(u, t))
    ensures Insert(Apply(u, xs), Lookup(u, x)) == Apply(u, Insert(xs, x))
  {
    if |xs| == 0 {
      assert Apply(u, xs) == [] && Apply(u, [x]) == [Lookup(u, x)];
    } else {
      var init, y := xs[..|xs| - 1], xs[|xs| - 1];
      assert xs == init + [y] && y in xs;
      ApplySnoc(u, init, y);
      InsertSnoc(init, y, x);
      InsertSnoc(Apply(u, init), Lookup(u, y), Lookup(u, x));
      if CompareToFifo(y, x) > 0 {
        InsertApply(u, init, x);
        ApplySnoc(u, Insert(init, x), y);
      } else {
        ApplySnoc(u, xs, x);
      }
    }
  }

  /** Updates that keep the sort keys commute with sorting. */
  lemma {:induction false} SortApply(u: map<nat, Tx>, xs: seq<Tx>)
    requires forall t :: t in xs ==> SameKey(t, Lookup(u, t))
    ensures Sort(Apply(u, xs)) == Apply(u, Sort(xs))
  {
    if |xs| > 0 {
      var n := |xs| - 1;
      assert xs[n] in xs;
      SortApply(u, xs[..n]);
      assert Apply(u, xs)[..n] == Apply(u, xs[..n]);
      SortContents(xs[..n]);
      InsertApply(u, Sort(xs[..n]), xs[n]);
    }
  }

  /** The last kept transaction of a sorted list does not come after the last one. */
  lemma {:induction false} LastKept(p: Tx -> bool, xs: seq<Tx>, x: Tx)
    requires Sorted(xs) && AllStamped(xs) && Stamped(x) && |xs| > 0 && CompareToFifo(xs[|xs| - 1], x) <= 0
    ensures Insert(Filter(p, xs), x) == Filter(p, xs) + [x]
  {
    var kept := Filter(p, xs);
    if |kept| > 0 {
      var last := kept[|kept| - 1];
      assert last in xs by { FilterSound(p, xs); assert last in kept; }
      var i :| 0 <= i < |xs| && xs[i] == last;
      assert xs[|xs| - 1] in xs;
      if i < |xs| - 1 {
        StampedTransitive(last, xs[|xs| - 1], x);
      }
    }
  }

  lemma {:induction false} InsertFilter(p: Tx -> bool, xs: seq<Tx>, x: Tx)
    requires Sorted(xs) && AllStamped(xs) && Stamped(x)
    ensures Filter(p, Insert(xs, x)) == if p(x) then Insert(Filter(p, xs), x) else Filter(p, xs)
  {
    if |xs| == 0 {
      FilterSnoc(p, [], x);
    } else if CompareToFifo(xs[|xs| - 1], x) <= 0 {
      FilterSnoc(p, xs, x);
      LastKept(p, xs, x);
    } else {
      var n := |xs| - 1;
      InsertFilter(p, xs[..n], x);
      FilterSnoc(p, Insert(xs[..n], x), xs[n]);
      InsertSnoc(Filter(p, xs[..n]), xs[n], x);
    }
  }

  /** Filtering commutes with sorting. */
  lemma {:induction false} SortFilter(p: Tx -> bool, xs: seq<Tx>)
    requires AllStamped(xs)
    ensures Filter(p, Sort(xs)) == Sort(Filter(p, xs))
  {
    if |xs| > 0 {
      var init, x := xs[..|xs| - 1], xs[|xs| - 1];
      assert xs == init + [x];
      assert Stamped(x) && AllStamped(init);
      SortFilter(p, init);
      SortIsSorted(init);
      InsertFilter(p, Sort(init), x);
      SortSnoc(Filter(p, init), x);
    }
  }

  ghost function KeyOf(t: Tx): Tx -> bool { (x: Tx) => SameKey(t, x) }

  /** The sort is stable: what ties stays in the order in which it came. */
  lemma {:induction false} SortStable(xs: seq<Tx>, t: Tx)
    requires AllStamped(xs)
    ensures Filter(KeyOf(t), Sort(xs)) == Filter(KeyOf(t), xs)
  {
    SortFilter(KeyOf(t), xs);
    FilterSound(KeyOf(t), xs);
    SortTies(Filter(KeyOf(t), xs), t);
  }

  lemma {:induction false} SortTies(xs: seq<Tx>, t: Tx)
    requires forall x :: x in xs ==> SameKey(t, x)
    ensures Sort(xs) == xs
  {
    if |xs| > 0 {
      var init, x := xs[..|xs| - 1], xs[|xs| - 1];
      assert xs == init + [x] && x in xs;
      SortTies(init, t);
      assert |init| > 0 ==> init[|init| - 1] in xs;
    }
  }
}
