/** Incremental equals batch: two runs leave the same books, up to fresh ids, as one. */
module Batch {
  import opened Lists
  import opened Ledger
  import opened FifoOrder
  import opened Allocation
  import opened Settlement
  import opened Staging
  import opened Calculation
  import opened Books
  import opened Collected
  import opened Commitment
  import opened RunAlgebra
  import opened NoteForm
  import opened TwoRuns
  import opened NoteRuns
  import opened Incremental
  import opened Extras

  // ----- Replicas -----

  lemma {:induction false} SecondOnBetween(cfg: Config, fin: seq<FinTx>, s: State, d1: int, d2: int)
    requires InTwo(cfg, fin, s, d1, d2)
    ensures Apply(WorkOf(cfg, fin, After1(cfg, fin, s, d1), d2).updates, LotsBetween(cfg, fin, s, d1, d2))
         == SecondSalesWork(cfg, fin, s, d1, d2).lots
  {
    var s1, y := After1(cfg, fin, s, d1), LotsBetween(cfg, fin, s, d1, d2);
    var sales, v := SortedSales(s1.txs, d2), Opening(s1.txs, d2).work.(lots := LotsThen(cfg, fin, s, d1, d2));
    RunMoversLawful(cfg, fin);
    OpeningOnBetween(cfg, fin, s, d1, d2);
    SecondWork(cfg, fin, s, d1, d2);
    BetweenIds(cfg, fin, s, d1, d2);
    assert SameIds(y, v.lots);
    RunStages(RunMovers(cfg, fin), cfg.halfUnit, sales, v, y);
  }

  /** The lots between the runs have the ids of the lots. */
  lemma {:induction false} BetweenSameIds(cfg: Config, fin: seq<FinTx>, s: State, d1: int, d2: int)
    requires Passes(cfg, fin, s, d1) && d1 <= d2
    ensures SameIds(Lots(s.txs, d2), LotsBetween(cfg, fin, s, d1, d2))
  {
    var y, ls := LotsBetween(cfg, fin, s, d1, d2), Lots(s.txs, d2);
    BetweenIsApplied(cfg, fin, s, d1, d2);
    forall i | 0 <= i < |ls| ensures y[i].id == ls[i].id { BetweenMember(cfg, fin, s, d1, d2, i); }
  }

  lemma {:induction false} SameIdsDistinct(xs: seq<Tx>, ys: seq<Tx>)
    requires SameIds(xs, ys) && Distinct(IdOf, xs)
    ensures Distinct(IdOf, ys)
  {
    forall i, j | 0 <= i < j < |ys| ensures IdOf(ys[i]) != IdOf(ys[j]) { assert IdOf(xs[i]) != IdOf(xs[j]); }
  }

  /** No sale has the id of a lot. */
  lemma {:induction false} BetweenIds(cfg: Config, fin: seq<FinTx>, s: State, d1: int, d2: int)
    requires InTwo(cfg, fin, s, d1, d2)
    ensures Distinct(IdOf, LotsBetween(cfg, fin, s, d1, d2))
    ensures var sales := SortedSales(After1(cfg, fin, s, d1).txs, d2);
            forall k :: 0 <= k < |sales| ==> !Among(sales[k].id, LotsBetween(cfg, fin, s, d1, d2))
  {
    var y, ls := LotsBetween(cfg, fin, s, d1, d2), Lots(s.txs, d2);
    BetweenSameIds(cfg, fin, s, d1, d2);
    assert Distinct(IdOf, ls) by { MembersShapes(s.txs, d2); }
    SameIdsDistinct(ls, y);
    var sales := SortedSales(After1(cfg, fin, s, d1).txs, d2);
    forall k | 0 <= k < |sales| ensures !Among(sales[k].id, y) {
      LaterSaleNoLot(cfg, fin, s, d1, d2, k);
      AmongSame(sales[k].id, ls, y);
    }
  }

  lemma {:induction false} SaleNoLot(txs: seq<Tx>, d: int, k: nat)
    requires Sound(txs) && k < |SortedSales(txs, d)|
    ensures !Among(SortedSales(txs, d)[k].id, Lots(txs, d))
  {
    KindsApart(txs, d);
  }

  lemma {:induction false} LaterSaleNoLot(cfg: Config, fin: seq<FinTx>, s: State, d1: int, d2: int, k: nat)
    requires InTwo(cfg, fin, s, d1, d2) && k < |SortedSales(After1(cfg, fin, s, d1).txs, d2)|
    ensures !Among(SortedSales(After1(cfg, fin, s, d1).txs, d2)[k].id, Lots(s.txs, d2))
  {
    var first, sales := SortedSales(s.txs, d1), SortedSales(After1(cfg, fin, s, d1).txs, d2);
    assert SortedSales(s.txs, d2) == first + sales by { SalesInTwo(cfg, fin, s, d1, d2); }
    NoLotAfter(s.txs, d2, first, sales, k);
  }

  lemma {:induction false} NoLotAfter(txs: seq<Tx>, d: int, first: seq<Tx>, sales: seq<Tx>, k: nat)
    requires Sound(txs) && SortedSales(txs, d) == first + sales && k < |sales|
    ensures !Among(sales[k].id, Lots(txs, d))
  {
    AppendSecond(SortedSales(txs, d), first, sales, k);
    SaleNoLot(txs, d, |first| + k);
  }

  lemma {:induction false} PurchaseTwice(cfg: Config, fin: seq<FinTx>, s: State, d1: int, d2: int, t: Tx)
    requires InTwo(cfg, fin, s, d1, d2) && t in Purchases(s.txs, d2) && Settle(cfg, fin, s.txs, d2).Ok?
    ensures Twice(cfg, fin, s, d1, d2, t) == Lookup(WorkOf(cfg, fin, s, d2).updates, t)
  {
    var ls, y := Lots(s.txs, d2), LotsBetween(cfg, fin, s, d1, d2);
    SortContents(Purchases(s.txs, d2));
    var i :| 0 <= i < |ls| && ls[i] == t;
    SettleLots(cfg, fin, s.txs, d2);
    BatchWork(cfg, fin, s, d1, d2);
    SecondOnBetween(cfg, fin, s, d1, d2);
    BetweenIsApplied(cfg, fin, s, d1, d2);
    assert Apply(WorkOf(cfg, fin, s, d1).updates, ls)[i] == y[i];
    assert Apply(WorkOf(cfg, fin, After1(cfg, fin, s, d1), d2).updates, y)[i]
           == Apply(WorkOf(cfg, fin, s, d2).updates, ls)[i];
  }

  /** The sales come out one run after the other. */
  lemma {:induction false} DoneTwice(cfg: Config, fin: seq<FinTx>, s: State, d1: int, d2: int)
    requires InTwo(cfg, fin, s, d1, d2) && Settle(cfg, fin, s.txs, d2).Ok?
    ensures var w1, w2, w := WorkOf(cfg, fin, s, d1), WorkOf(cfg, fin, After1(cfg, fin, s, d1), d2),
            WorkOf(cfg, fin, s, d2);
            w.done == w1.done + w2.done && w.cogs == w1.cogs + w2.cogs
  {
    var s1 := After1(cfg, fin, s, d1);
    var v, v1, v2 := Opening(s.txs, d2).work, Opening(s.txs, d1).work, Opening(s1.txs, d2).work;
    var a, b := FirstSales(cfg, fin, s, d1), SecondSalesWork(cfg, fin, s, d1, d2);
    assert v.done == [] && v.cogs == [] by { OpeningStart(s.txs, d2); }
    assert v1.done == [] && v1.cogs == [] by { OpeningStart(s.txs, d1); }
    assert v2.done == [] && v2.cogs == [] by { BookAfter(cfg, fin, s, d1); OpeningStart(s1.txs, d2); }
    assert WorkOf(cfg, fin, s, d2) == Added(Added(v, a), b) by { BatchWork(cfg, fin, s, d1, d2); }
    assert WorkOf(cfg, fin, s, d1) == Added(v1, a) by { FirstWork(cfg, fin, s, d1); }
    assert SameRun(WorkOf(cfg, fin, s1, d2), Added(v2, b)) by { SecondWork(cfg, fin, s, d1, d2); }
    AddedDone(v, v1, v2, a, b);
  }

  lemma {:induction false} AddedDone(v: Work, v1: Work, v2: Work, a: Work, b: Work)
    requires v.done == v1.done == v2.done == [] && v.cogs == v1.cogs == v2.cogs == []
    ensures Added(Added(v, a), b).done == Added(v1, a).done + Added(v2, b).done
    ensures Added(Added(v, a), b).cogs == Added(v1, a).cogs + Added(v2, b).cogs
  {}

  lemma {:induction false} OpeningStart(txs: seq<Tx>, d: int)
    requires Sound(txs) && Opening(txs, d).Ok?
    ensures Opening(txs, d).work.done == [] && Opening(txs, d).work.cogs == []
  {
    OpeningStages(txs, d);
  }

  /** Sale `k` of a run is staged as it comes out. */
  lemma {:induction false} SaleStaged(cfg: Config, fin: seq<FinTx>, txs: seq<Tx>, d: int, k: nat)
    requires Sound(txs) && Settle(cfg, fin, txs, d).Ok? && k < |SortedSales(txs, d)|
    ensures var w := Settle(cfg, fin, txs, d).work;
            k < |w.done| && Lookup(w.updates, SortedSales(txs, d)[k]) == w.done[k]
  {
    var w := Settle(cfg, fin, txs, d).work;
    SettleSales(cfg, fin, txs, d);
    assert Apply(w.updates, SortedSales(txs, d))[k] == w.done[k];
  }

  lemma {:induction false} AppendFirst<T>(all: seq<T>, a: seq<T>, b: seq<T>, k: nat)
    requires all == a + b && k < |a|
    ensures k < |all| && all[k] == a[k]
  {}

  lemma {:induction false} AppendSecond<T>(all: seq<T>, a: seq<T>, b: seq<T>, k: nat)
    requires all == a + b && k < |b|
    ensures |a| + k < |all| && all[|a| + k] == b[k]
  {}

  /** The batch settles the sales of the first run, and then those of the second. */
  lemma {:induction false} BatchSettles(cfg: Config, fin: seq<FinTx>, s: State, d1: int, d2: int)
    requires InTwo(cfg, fin, s, d1, d2) && Settle(cfg, fin, s.txs, d2).Ok?
    ensures SortedSales(s.txs, d2) == SortedSales(s.txs, d1) + SortedSales(After1(cfg, fin, s, d1).txs, d2)
    ensures WorkOf(cfg, fin, s, d2).done
         == WorkOf(cfg, fin, s, d1).done + WorkOf(cfg, fin, After1(cfg, fin, s, d1), d2).done
    ensures |WorkOf(cfg, fin, s, d1).done| == |SortedSales(s.txs, d1)|
    ensures |WorkOf(cfg, fin, s, d2).done| == |SortedSales(s.txs, d2)|
  {
    SalesInTwo(cfg, fin, s, d1, d2);
    DoneTwice(cfg, fin, s, d1, d2);
    DoneLength(cfg, fin, s.txs, d1);
    DoneLength(cfg, fin, s.txs, d2);
  }

  /** Sale `k` of the batch is staged as it comes out of its own run. */
  lemma {:induction false} StagedInBatch(cfg: Config, fin: seq<FinTx>, s: State, d1: int, d2: int, k: nat, sale: Tx,
                                         done: Tx)
    requires InTwo(cfg, fin, s, d1, d2) && Settle(cfg, fin, s.txs, d2).Ok?
    requires k < |SortedSales(s.txs, d2)| && SortedSales(s.txs, d2)[k] == sale
    requires k < |WorkOf(cfg, fin, s, d2).done| && WorkOf(cfg, fin, s, d2).done[k] == done
    ensures Lookup(WorkOf(cfg, fin, s, d2).updates, sale) == done
  {
    SaleStaged(cfg, fin, s.txs, d2, k);
  }

  /** Sale `k` of the first run comes out of the batch as of the first run. */
  lemma {:induction false} FirstSaleTwice(cfg: Config, fin: seq<FinTx>, s: State, d1: int, d2: int, k: nat)
    requires InTwo(cfg, fin, s, d1, d2) && Settle(cfg, fin, s.txs, d2).Ok? && k < |SortedSales(s.txs, d1)|
    ensures var t := SortedSales(s.txs, d1)[k];
            Twice(cfg, fin, s, d1, d2, t) == Lookup(WorkOf(cfg, fin, s, d2).updates, t)
  {
    var first, w1 := SortedSales(s.txs, d1), WorkOf(cfg, fin, s, d1).done;
    BatchSettles(cfg, fin, s, d1, d2);
    AppendFirst(SortedSales(s.txs, d2), first, SortedSales(After1(cfg, fin, s, d1).txs, d2), k);
    AppendFirst(WorkOf(cfg, fin, s, d2).done, w1, WorkOf(cfg, fin, After1(cfg, fin, s, d1), d2).done, k);
    StagedInBatch(cfg, fin, s, d1, d2, k, first[k], w1[k]);
    FirstSaleStays(cfg, fin, s, d1, d2, k);
  }

  /** Sale `k` of the second run comes out of the batch as of the second run. */
  lemma {:induction false} SecondSaleTwice(cfg: Config, fin: seq<FinTx>, s: State, d1: int, d2: int, k: nat)
    requires InTwo(cfg, fin, s, d1, d2) && Settle(cfg, fin, s.txs, d2).Ok?
             && k < |SortedSales(After1(cfg, fin, s, d1).txs, d2)|
    ensures var t := SortedSales(After1(cfg, fin, s, d1).txs, d2)[k];
            Twice(cfg, fin, s, d1, d2, t) == Lookup(WorkOf(cfg, fin, s, d2).updates, t)
  {
    var first, second := SortedSales(s.txs, d1), SortedSales(After1(cfg, fin, s, d1).txs, d2);
    var w2 := WorkOf(cfg, fin, After1(cfg, fin, s, d1), d2).done;
    SecondSaleSettles(cfg, fin, s, d1, d2, k);
    BatchSettles(cfg, fin, s, d1, d2);
    AppendSecond(SortedSales(s.txs, d2), first, second, k);
    AppendSecond(WorkOf(cfg, fin, s, d2).done, WorkOf(cfg, fin, s, d1).done, w2, k);
    StagedInBatch(cfg, fin, s, d1, d2, |first| + k, second[k], w2[k]);
  }

  lemma {:induction false} SaleTwice(cfg: Config, fin: seq<FinTx>, s: State, d1: int, d2: int, t: Tx)
    requires InTwo(cfg, fin, s, d1, d2) && t in Sales(s.txs, d2) && Settle(cfg, fin, s.txs, d2).Ok?
    ensures Twice(cfg, fin, s, d1, d2, t) == Lookup(WorkOf(cfg, fin, s, d2).updates, t)
  {
    var first, sales := SortedSales(s.txs, d1), SortedSales(After1(cfg, fin, s, d1).txs, d2);
    assert t in first + sales by {
      SortContents(Sales(s.txs, d2));
      SalesInTwo(cfg, fin, s, d1, d2);
    }
    if t in first {
      var k :| 0 <= k < |first| && first[k] == t;
      FirstSaleTwice(cfg, fin, s, d1, d2, k);
    } else {
      var k :| 0 <= k < |sales| && sales[k] == t;
      SecondSaleTwice(cfg, fin, s, d1, d2, k);
    }
  }

  lemma {:induction false} DoneLength(cfg: Config, fin: seq<FinTx>, txs: seq<Tx>, d: int)
    requires Sound(txs) && Settle(cfg, fin, txs, d).Ok?
    ensures |Settle(cfg, fin, txs, d).work.done| == |SortedSales(txs, d)|
  {
    SettleSales(cfg, fin, txs, d);
  }

  lemma {:induction false} FirstSaleStays(cfg: Config, fin: seq<FinTx>, s: State, d1: int, d2: int, k: nat)
    requires InTwo(cfg, fin, s, d1, d2) && k < |SortedSales(s.txs, d1)|
    ensures k < |WorkOf(cfg, fin, s, d1).done|
            && Twice(cfg, fin, s, d1, d2, SortedSales(s.txs, d1)[k]) == WorkOf(cfg, fin, s, d1).done[k]
  {
    var t, s1 := SortedSales(s.txs, d1)[k], After1(cfg, fin, s, d1);
    SalesUpTo(s.txs, d1, k);
    SaleAfterFirst(cfg, fin, s, d1, t);
    InBookAfter(cfg, fin, s, d1, t);
    SaleStaged(cfg, fin, s.txs, d1, k);
    Uncollected(cfg, fin, s1, d2, Lookup(WorkOf(cfg, fin, s, d1).updates, t));
  }

  lemma {:induction false} SecondSaleSettles(cfg: Config, fin: seq<FinTx>, s: State, d1: int, d2: int, k: nat)
    requires InTwo(cfg, fin, s, d1, d2) && k < |SortedSales(After1(cfg, fin, s, d1).txs, d2)|
    ensures var s1 := After1(cfg, fin, s, d1); k < |WorkOf(cfg, fin, s1, d2).done|
    ensures var s1 := After1(cfg, fin, s, d1);
            Twice(cfg, fin, s, d1, d2, SortedSales(s1.txs, d2)[k]) == WorkOf(cfg, fin, s1, d2).done[k]
  {
    var s1 := After1(cfg, fin, s, d1);
    SalesAfter(cfg, fin, s, d1, d2, k);
    SaleAfterFirst(cfg, fin, s, d1, SortedSales(s1.txs, d2)[k]);
    SaleStaged(cfg, fin, s1.txs, d2, k);
  }

  lemma {:induction false} SalesUpTo(txs: seq<Tx>, d: int, k: nat)
    requires k < |SortedSales(txs, d)|
    ensures var t := SortedSales(txs, d)[k]; t.date <= d && t in txs && IsSale(t) && !t.checked
  {
    SortContents(Sales(txs, d));
    FilterSound(OpenSales(d), txs);
    assert SortedSales(txs, d)[k] in SortedSales(txs, d);
  }

  lemma {:induction false} SalesAfter(cfg: Config, fin: seq<FinTx>, s: State, d1: int, d2: int, k: nat)
    requires Passes(cfg, fin, s, d1) && k < |SortedSales(After1(cfg, fin, s, d1).txs, d2)|
    ensures var t := SortedSales(After1(cfg, fin, s, d1).txs, d2)[k];
            d1 < t.date <= d2 && t in s.txs && IsSale(t) && !t.checked
  {
    var txs1 := After1(cfg, fin, s, d1).txs;
    SecondSales(cfg, fin, s, d1, d2);
    SortContents(Sales(txs1, d2));
    FilterSound(Between(d1, OpenSales(d2)), s.txs);
    assert SortedSales(txs1, d2)[k] in SortedSales(txs1, d2);
  }

  /** A note the first run left open finds its lot in the second exactly when it would in the batch. */
  lemma {:induction false} MatchedAgain(cfg: Config, fin: seq<FinTx>, s: State, d1: int, d2: int, n: Tx)
    requires RunsSpare(cfg, fin, s, d1, d2) && n in NotesBy(After1(cfg, fin, s, d1).txs, d2)
    ensures Matched(Purchases(After1(cfg, fin, s, d1).txs, d2), n) <==> Matched(Purchases(s.txs, d2), n)
  {
    var ps, qs := Purchases(s.txs, d2), Purchases(After1(cfg, fin, s, d1).txs, d2);
    var ls, y := Sort(ps), LotsBetween(cfg, fin, s, d1, d2);
    SecondLots(cfg, fin, s, d1, d2);
    BetweenSameIds(cfg, fin, s, d1, d2);
    MatchedIff(ps, n);
    MatchedIff(qs, n);
    CodesSorted(ps, n.code);
    CodesSorted(qs, n.code);
    forall i | 0 <= i < |ls| ensures y[i].code == ls[i].code && (y[i].checked ==> y[i].code != n.code) {
      BetweenCode(cfg, fin, s, d1, d2, i);
      if y[i].checked { CheckedSpared(cfg, fin, s, d1, d2, i); }
    }
    OpenCodes(ls, y, n.code);
  }

  lemma {:induction false} OpenCodes(ls: seq<Tx>, y: seq<Tx>, code: Option<string>)
    requires |ls| == |y|
             && forall i :: 0 <= i < |ls| ==> y[i].code == ls[i].code && (y[i].checked ==> y[i].code != code)
    ensures HasCode(ls, code) <==> HasCode(Filter(Unchecked, y), code)
  {
    var ms := Filter(Unchecked, y);
    FilterSound(Unchecked, y);
    if HasCode(ls, code) {
      var i :| 0 <= i < |ls| && ls[i].code == code;
      assert y[i] in ms;
      var k :| 0 <= k < |ms| && ms[k] == y[i];
    }
    if HasCode(ms, code) {
      var k :| 0 <= k < |ms| && ms[k].code == code;
      assert ms[k] in y;
      var i :| 0 <= i < |y| && y[i] == ms[k];
      assert ls[i].code == code;
    }
  }

  lemma {:induction false} CodesSorted(ps: seq<Tx>, code: Option<string>)
    ensures HasCode(ps, code) <==> HasCode(Sort(ps), code)
  {
    SortContents(ps);
    var ls := Sort(ps);
    if i :| 0 <= i < |ps| && ps[i].code == code {
      assert ps[i] in ls;
      var k :| 0 <= k < |ls| && ls[k] == ps[i];
    }
    if k :| 0 <= k < |ls| && ls[k].code == code {
      assert ls[k] in ps;
      var i :| 0 <= i < |ps| && ps[i] == ls[k];
    }
  }

  lemma {:induction false} BetweenCode(cfg: Config, fin: seq<FinTx>, s: State, d1: int, d2: int, i: nat)
    requires Passes(cfg, fin, s, d1) && d1 <= d2 && i < |Lots(s.txs, d2)|
    ensures i < |LotsBetween(cfg, fin, s, d1, d2)|
    ensures var a, b := LotsBetween(cfg, fin, s, d1, d2)[i], Lots(s.txs, d2)[i];
            a.code == b.code && a.id == b.id && a.date == b.date && a.flow == b.flow
  {
    var t := Lots(s.txs, d2)[i];
    BetweenIsApplied(cfg, fin, s, d1, d2);
    SortContents(Purchases(s.txs, d2));
    FilterSound(OpenPurchases(d2), s.txs);
    assert t in Lots(s.txs, d2);
    InBookAfter(cfg, fin, s, d1, t);
    EvolvesShape(t, Lookup(WorkOf(cfg, fin, s, d1).updates, t));
    assert Apply(WorkOf(cfg, fin, s, d1).updates, Lots(s.txs, d2))[i] == Lookup(WorkOf(cfg, fin, s, d1).updates, t);
  }

  lemma {:induction false} NoteTwice(cfg: Config, fin: seq<FinTx>, s: State, d1: int, d2: int, t: Tx)
    requires InTwo(cfg, fin, s, d1, d2) && t in Notes(s.txs, d2) && Passes(cfg, fin, s, d2)
    ensures Twice(cfg, fin, s, d1, d2, t) == Lookup(WorkOf(cfg, fin, s, d2).updates, t)
  {
    var s1 := After1(cfg, fin, s, d1);
    FilterSound(OpenNotes(d2), s.txs);
    NoteAfterFirst(cfg, fin, s, d1, t);
    NoteAfterFirst(cfg, fin, s, d2, t);
    AppliedOnce(s.txs, d1, d2, t);
    InBookAfter(cfg, fin, s, d1, t);
    if AppliedBy(s.txs, d1)(t) {
      Uncollected(cfg, fin, s1, d2, t.(checked := true));
    } else {
      SecondNotes(cfg, fin, s, d1, d2);
      if t in NotesBy(s1.txs, d2) { MatchedAgain(cfg, fin, s, d1, d2, t); }
      NoteAfterFirst(cfg, fin, s1, d2, t);
    }
  }

  lemma {:induction false} BatchPasses(cfg: Config, fin: seq<FinTx>, s: State, d1: int, d2: int)
    requires InTwo(cfg, fin, s, d1, d2)
    ensures Passes(cfg, fin, s, d2)
  {
    BatchWork(cfg, fin, s, d1, d2);
    StockKept(cfg, fin, s, d1, d2);
  }

  /** Every transaction comes out of the batch as it comes out of the two runs. */
  lemma {:induction false} SameTwice(cfg: Config, fin: seq<FinTx>, s: State, d1: int, d2: int, t: Tx)
    requires InTwo(cfg, fin, s, d1, d2) && Passes(cfg, fin, s, d2) && t in s.txs
    ensures Twice(cfg, fin, s, d1, d2, t) == Lookup(WorkOf(cfg, fin, s, d2).updates, t)
  {
    if t in Purchases(s.txs, d2) {
      PurchaseTwice(cfg, fin, s, d1, d2, t);
    } else if t in Sales(s.txs, d2) {
      SaleTwice(cfg, fin, s, d1, d2, t);
    } else if t in Notes(s.txs, d2) {
      NoteTwice(cfg, fin, s, d1, d2, t);
    } else {
      OtherTwice(cfg, fin, s, d1, d2, t);
    }
  }

  lemma {:induction false} NotCollected(txs: seq<Tx>, d: int, t: Tx)
    requires AllWellFormed(txs) && t in txs && t !in Purchases(txs, d) && t !in Sales(txs, d) && t !in Notes(txs, d)
    ensures t.checked || t.date > d
  {
    FilterSound(OpenPurchases(d), txs);
    FilterSound(OpenSales(d), txs);
    FilterSound(OpenNotes(d), txs);
    assert WellFormed(t);
  }

  lemma {:induction false} OtherTwice(cfg: Config, fin: seq<FinTx>, s: State, d1: int, d2: int, t: Tx)
    requires InTwo(cfg, fin, s, d1, d2) && Passes(cfg, fin, s, d2) && t in s.txs
    requires t !in Purchases(s.txs, d2) && t !in Sales(s.txs, d2) && t !in Notes(s.txs, d2)
    ensures Twice(cfg, fin, s, d1, d2, t) == t == Lookup(WorkOf(cfg, fin, s, d2).updates, t)
  {
    var s1 := After1(cfg, fin, s, d1);
    NotCollected(s.txs, d2, t);
    Uncollected(cfg, fin, s, d1, t);
    Uncollected(cfg, fin, s, d2, t);
    InBookAfter(cfg, fin, s, d1, t);
    BookAfter(cfg, fin, s, d1);
    Uncollected(cfg, fin, s1, d2, t);
  }

  // ----- Splits -----

  /** A split without the id and UUID it happened to get. */
  function Erased(t: Tx): Tx { t.(id := 0, remote := if t.remote.Uuid? then Pending else t.remote) }

  function ErasedAll(xs: seq<Tx>): seq<Tx> { seq(|xs|, i requires 0 <= i < |xs| => Erased(xs[i])) }

  /** The splits of a book, in whatever order and with whatever ids they were posted. */
  ghost function SplitsIn(txs: seq<Tx>): multiset<Tx> { multiset(ErasedAll(Filter(IsSplit, txs))) }

  lemma {:induction false} ErasedAppend(xs: seq<Tx>, ys: seq<Tx>)
    ensures ErasedAll(xs + ys) == ErasedAll(xs) + ErasedAll(ys)
  {}

  lemma {:induction false} PostedErased(created: seq<Tx>, s: State)
    ensures ErasedAll(Posted(created, s)) == ErasedAll(created)
  {
    UuidsKeep(created, s.nextUuid);
    forall i | 0 <= i < |created| ensures Erased(Posted(created, s)[i]) == Erased(created[i]) {}
  }

  /** A run adds its splits to those of the book. */
  lemma {:induction false} CommitSplits(cfg: Config, fin: seq<FinTx>, s: State, d: int)
    requires Passes(cfg, fin, s, d)
    ensures SplitsIn(After1(cfg, fin, s, d).txs)
         == SplitsIn(s.txs) + multiset(ErasedAll(WorkOf(cfg, fin, s, d).created))
  {
    var w := WorkOf(cfg, fin, s, d);
    var olds, posted := Apply(w.updates, s.txs), Posted(w.created, s);
    BookAfter(cfg, fin, s, d);
    forall t | t in s.txs
      ensures IsSplit(Lookup(w.updates, t)) == IsSplit(t) && (IsSplit(t) ==> Lookup(w.updates, t) == t)
    {
      InBookAfter(cfg, fin, s, d, t);
      EvolvesShape(t, Lookup(w.updates, t));
    }
    FilterKept(IsSplit, w.updates, s.txs);
    FilterSound(IsSplit, s.txs);
    ApplySame(w.updates, Filter(IsSplit, s.txs));
    FilterAppend(IsSplit, olds, posted);
    FilterAll(IsSplit, posted);
    ErasedAppend(Filter(IsSplit, s.txs), posted);
    PostedErased(w.created, s);
  }

  lemma {:induction false} SplitOfLot(lots: seq<Tx>, n: Tx, t: Tx)
    requires Distinct(CodeOf, lots) && t in lots && t.code == n.code
    ensures SplitOf(lots, n) == [NoteSplit(t, n)]
  {
    var i :| 0 <= i < |lots| && lots[i] == t;
    OnlyOne(lots, n.code, i);
  }

  /** The splits of some notes. */
  ghost function NoteSplits(notes: seq<Tx>, lots: seq<Tx>): multiset<Tx> { multiset(ErasedAll(SplitsOf(notes, lots))) }

  ghost function NoteSplitsOf(lots: seq<Tx>, n: Tx): multiset<Tx> { multiset(ErasedAll(SplitOf(lots, n))) }

  lemma {:induction false} NoteSplitsSnoc(notes: seq<Tx>, n: Tx, lots: seq<Tx>)
    ensures NoteSplits(notes + [n], lots) == NoteSplits(notes, lots) + NoteSplitsOf(lots, n)
  {
    assert (notes + [n])[..|notes|] == notes;
    ErasedAppend(SplitsOf(notes, lots), SplitOf(lots, n));
  }

  lemma {:induction false} NoteSplitsAppend(xs: seq<Tx>, ys: seq<Tx>, lots: seq<Tx>)
    ensures NoteSplits(xs + ys, lots) == NoteSplits(xs, lots) + NoteSplits(ys, lots)
  {
    if |ys| == 0 {
      assert xs + ys == xs;
    } else {
      var init, y := ys[..|ys| - 1], ys[|ys| - 1];
      assert xs + ys == xs + init + [y] && ys == init + [y];
      NoteSplitsAppend(xs, init, lots);
      NoteSplitsSnoc(xs + init, y, lots);
      NoteSplitsSnoc(init, y, lots);
    }
  }

  lemma {:induction false} NoteSplitsOut(xs: seq<Tx>, i: nat, lots: seq<Tx>)
    requires i < |xs|
    ensures NoteSplits(xs, lots) == NoteSplits(xs[..i] + xs[i + 1..], lots) + NoteSplitsOf(lots, xs[i])
  {
    assert xs == xs[..i] + [xs[i]] + xs[i + 1..];
    NoteSplitsAppend(xs[..i] + [xs[i]], xs[i + 1..], lots);
    NoteSplitsSnoc(xs[..i], xs[i], lots);
    NoteSplitsAppend(xs[..i], xs[i + 1..], lots);
  }

  /** The order of the notes does not matter to their splits. */
  lemma {:induction false} NoteSplitsPermuted(xs: seq<Tx>, ys: seq<Tx>, lots: seq<Tx>)
    requires multiset(xs) == multiset(ys)
    ensures NoteSplits(xs, lots) == NoteSplits(ys, lots)
  {
    if |xs| == 0 {
      assert |multiset(ys)| == 0;
    } else {
      var init, last := xs[..|xs| - 1], xs[|xs| - 1];
      assert xs == init + [last];
      assert last in multiset(ys);
      var i :| 0 <= i < |ys| && ys[i] == last;
      TakenOut(ys, i);
      NoteSplitsPermuted(init, ys[..i] + ys[i + 1..], lots);
      NoteSplitsOut(ys, i, lots);
      NoteSplitsSnoc(init, last, lots);
    }
  }

  /** Only the notes that find their lot make splits. */
  lemma {:induction false} SplitsOfMatched(notes: seq<Tx>, lots: seq<Tx>)
    ensures NoteSplits(Filter(MatchedIn(lots), notes), lots) == NoteSplits(notes, lots)
  {
    if |notes| > 0 {
      var init, n := notes[..|notes| - 1], notes[|notes| - 1];
      assert notes == init + [n];
      SplitsOfMatched(init, lots);
      NoteSplitsSnoc(init, n, lots);
      FilterSnoc(MatchedIn(lots), init, n);
      if Matched(lots, n) {
        NoteSplitsSnoc(Filter(MatchedIn(lots), init), n, lots);
      } else {
        assert NoteSplitsOf(lots, n) == multiset{};
      }
    }
  }

  lemma {:induction false} SameSplits(notes: seq<Tx>, xs: seq<Tx>, ys: seq<Tx>)
    requires forall n :: n in notes ==> SplitOf(xs, n) == SplitOf(ys, n)
    ensures NoteSplits(notes, xs) == NoteSplits(notes, ys)
  {
    if |notes| > 0 {
      var init, n := notes[..|notes| - 1], notes[|notes| - 1];
      assert notes == init + [n] && n in notes;
      SameSplits(init, xs, ys);
      NoteSplitsSnoc(init, n, xs);
      NoteSplitsSnoc(init, n, ys);
    }
  }

  /** A note of the first run splits the same lot in the batch. */
  lemma {:induction false} SplitFirst(s: State, d1: int, d2: int, n: Tx)
    requires Valid(s) && CodesApart(s.txs) && d1 <= d2 && Matched(Purchases(s.txs, d1), n)
    ensures SplitOf(Purchases(s.txs, d2), n) == SplitOf(Purchases(s.txs, d1), n)
  {
    var ps, rs := Purchases(s.txs, d1), Purchases(s.txs, d2);
    CollectedCodes(s.txs, d1);
    CollectedCodes(s.txs, d2);
    FilterSound(OpenPurchases(d1), s.txs);
    FilterSound(OpenPurchases(d2), s.txs);
    var t := ps[IndexOf(ps, n.code)];
    assert t in ps;
    SplitOfLot(ps, n, t);
    SplitOfLot(rs, n, t);
  }

  /** A note the first run left open splits in the second the lot it would split in the batch. */
  lemma {:induction false} SplitSecond(cfg: Config, fin: seq<FinTx>, s: State, d1: int, d2: int, n: Tx)
    requires InTwo(cfg, fin, s, d1, d2) && n in NotesBy(After1(cfg, fin, s, d1).txs, d2)
    ensures SplitOf(Purchases(s.txs, d2), n) == SplitOf(Purchases(After1(cfg, fin, s, d1).txs, d2), n)
  {
    var rs, qs, ls, y := Purchases(s.txs, d2), Purchases(After1(cfg, fin, s, d1).txs, d2), Lots(s.txs, d2),
      LotsBetween(cfg, fin, s, d1, d2);
    MatchedAgain(cfg, fin, s, d1, d2, n);
    if Matched(rs, n) {
      var t := rs[IndexOf(rs, n.code)];
      SortContents(rs);
      assert t in rs && t in ls;
      var i :| 0 <= i < |ls| && ls[i] == t;
      BetweenCode(cfg, fin, s, d1, d2, i);
      if y[i].checked { CheckedSpared(cfg, fin, s, d1, d2, i); }
      SecondHas(cfg, fin, s, d1, d2, i);
      CollectedCodes(s.txs, d2);
      BookAfter(cfg, fin, s, d1);
      CollectedCodes(After1(cfg, fin, s, d1).txs, d2);
      SplitOfLot(rs, n, t);
      SplitOfLot(qs, n, y[i]);
    }
  }

  lemma {:induction false} SecondHas(cfg: Config, fin: seq<FinTx>, s: State, d1: int, d2: int, i: nat)
    requires Passes(cfg, fin, s, d1) && d1 <= d2 && i < |LotsBetween(cfg, fin, s, d1, d2)|
             && !LotsBetween(cfg, fin, s, d1, d2)[i].checked
    ensures LotsBetween(cfg, fin, s, d1, d2)[i] in Purchases(After1(cfg, fin, s, d1).txs, d2)
  {
    SecondLots(cfg, fin, s, d1, d2);
    FilterSound(Unchecked, LotsBetween(cfg, fin, s, d1, d2));
    SortContents(Purchases(After1(cfg, fin, s, d1).txs, d2));
    assert LotsBetween(cfg, fin, s, d1, d2)[i] in Lots(After1(cfg, fin, s, d1).txs, d2);
  }

  /** The note splits of the batch are those of the two runs. */
  lemma {:induction false} NoteSplitsInTwo(cfg: Config, fin: seq<FinTx>, s: State, d1: int, d2: int)
    requires InTwo(cfg, fin, s, d1, d2) && Opening(s.txs, d2).Ok?
    ensures multiset(ErasedAll(Opening(s.txs, d2).work.created))
         == multiset(ErasedAll(Opening(s.txs, d1).work.created))
           + multiset(ErasedAll(Opening(After1(cfg, fin, s, d1).txs, d2).work.created))
  {
    var s1, rs := After1(cfg, fin, s, d1), Purchases(s.txs, d2);
    var a, b := AppliedNotes(s.txs, d1), ThenApplied(s.txs, d1, d2);
    AppliedInTwo(s.txs, d1, d2);
    NoteSplitsPermuted(AppliedNotes(s.txs, d2), a + b, rs);
    NoteSplitsAppend(a, b, rs);
    SplitsOfMatched(NotesBy(s.txs, d2), rs);
    FirstSplits(s, d1, d2);
    SecondSplits(cfg, fin, s, d1, d2);
    BookAfter(cfg, fin, s, d1);
    OpeningForm(s.txs, d1);
    OpeningForm(s.txs, d2);
    OpeningForm(s1.txs, d2);
  }

  lemma {:induction false} FirstSplits(s: State, d1: int, d2: int)
    requires Valid(s) && CodesApart(s.txs) && d1 <= d2
    ensures NoteSplits(AppliedNotes(s.txs, d1), Purchases(s.txs, d2))
         == NoteSplits(NotesBy(s.txs, d1), Purchases(s.txs, d1))
  {
    var a, ps, rs := AppliedNotes(s.txs, d1), Purchases(s.txs, d1), Purchases(s.txs, d2);
    SplitsOfMatched(NotesBy(s.txs, d1), ps);
    FilterSound(MatchedIn(ps), NotesBy(s.txs, d1));
    forall n | n in a ensures SplitOf(ps, n) == SplitOf(rs, n) { SplitFirst(s, d1, d2, n); }
    SameSplits(a, ps, rs);
  }

  lemma {:induction false} SecondSplits(cfg: Config, fin: seq<FinTx>, s: State, d1: int, d2: int)
    requires InTwo(cfg, fin, s, d1, d2)
    ensures var txs1 := After1(cfg, fin, s, d1).txs;
            NoteSplits(ThenApplied(s.txs, d1, d2), Purchases(s.txs, d2))
              == NoteSplits(NotesBy(txs1, d2), Purchases(txs1, d2))
  {
    var ns, qs, rs := SecondKept(s.txs, d1, d2), Purchases(After1(cfg, fin, s, d1).txs, d2), Purchases(s.txs, d2);
    SecondNotes(cfg, fin, s, d1, d2);
    SplitsOfMatched(ns, rs);
    forall n | n in ns ensures SplitOf(rs, n) == SplitOf(qs, n) { SplitSecond(cfg, fin, s, d1, d2, n); }
    SameSplits(ns, rs, qs);
  }

  lemma {:induction false} CreatedInTwo(cfg: Config, fin: seq<FinTx>, s: State, d1: int, d2: int)
    requires InTwo(cfg, fin, s, d1, d2) && Settle(cfg, fin, s.txs, d2).Ok?
    ensures multiset(ErasedAll(WorkOf(cfg, fin, s, d2).created))
         == multiset(ErasedAll(WorkOf(cfg, fin, s, d1).created))
           + multiset(ErasedAll(WorkOf(cfg, fin, After1(cfg, fin, s, d1), d2).created))
  {
    var s1 := After1(cfg, fin, s, d1);
    var v, v1, v2 := Opening(s.txs, d2).work.created, Opening(s.txs, d1).work.created, Opening(s1.txs, d2).work.created;
    var a, b := FirstSales(cfg, fin, s, d1).created, SecondSalesWork(cfg, fin, s, d1, d2).created;
    assert WorkOf(cfg, fin, s, d2).created == v + a + b by { BatchWork(cfg, fin, s, d1, d2); }
    assert WorkOf(cfg, fin, s, d1).created == v1 + a by { FirstWork(cfg, fin, s, d1); }
    assert WorkOf(cfg, fin, s1, d2).created == v2 + b by { SecondWork(cfg, fin, s, d1, d2); }
    NoteSplitsInTwo(cfg, fin, s, d1, d2);
    ErasedAppend(v + a, b);
    ErasedAppend(v, a);
    ErasedAppend(v1, a);
    ErasedAppend(v2, b);
  }

  // ----- The same books -----

  /** The same replicas, COGS postings and calculation date, and the same splits up to the ids
      and UUIDs they were given. */
  ghost predicate SameBook(a: State, b: State) {
    && Filter(IsReplica, a.txs) == Filter(IsReplica, b.txs)
    && SplitsIn(a.txs) == SplitsIn(b.txs)
    && a.cogs == b.cogs
    && a.calcDate.Value() == b.calcDate.Value()
  }

  lemma {:induction false} ReplicasTwice(cfg: Config, fin: seq<FinTx>, s: State, d1: int, d2: int)
    requires InTwo(cfg, fin, s, d1, d2) && Passes(cfg, fin, s, d2)
    ensures Filter(IsReplica, After1(cfg, fin, After1(cfg, fin, s, d1), d2).txs)
         == Filter(IsReplica, After1(cfg, fin, s, d2).txs)
  {
    var s1, rs := After1(cfg, fin, s, d1), Filter(IsReplica, s.txs);
    var u1, u2, u := WorkOf(cfg, fin, s, d1).updates, WorkOf(cfg, fin, s1, d2).updates, WorkOf(cfg, fin, s, d2).updates;
    CommitReplicas(cfg, fin, s, d1);
    CommitReplicas(cfg, fin, s1, d2);
    CommitReplicas(cfg, fin, s, d2);
    FilterSound(IsReplica, s.txs);
    forall i | 0 <= i < |rs| ensures Apply(u2, Apply(u1, rs))[i] == Apply(u, rs)[i] {
      assert rs[i] in rs;
      SameTwice(cfg, fin, s, d1, d2, rs[i]);
    }
    assert Apply(u2, Apply(u1, rs)) == Apply(u, rs);
  }

  lemma {:induction false} DateTwice(cfg: Config, fin: seq<FinTx>, s: State, d1: int, d2: int)
    requires InTwo(cfg, fin, s, d1, d2)
    ensures NewCalcDate(NewCalcDate(s.calcDate, SortedSales(s.txs, d1)), SortedSales(After1(cfg, fin, s, d1).txs, d2))
         == NewCalcDate(s.calcDate, SortedSales(s.txs, d2))
  {
    var a, b := SortedSales(s.txs, d1), SortedSales(After1(cfg, fin, s, d1).txs, d2);
    SalesInTwo(cfg, fin, s, d1, d2);
    DatesApart(cfg, fin, s, d1, d2);
    DatesAdd(s.calcDate, a, b);
  }

  /** The last sale of the first run is earlier than that of the second. */
  lemma {:induction false} DatesApart(cfg: Config, fin: seq<FinTx>, s: State, d1: int, d2: int)
    requires Passes(cfg, fin, s, d1)
    ensures var a, b := SortedSales(s.txs, d1), SortedSales(After1(cfg, fin, s, d1).txs, d2);
            |a| > 0 && |b| > 0 ==> a[|a| - 1].date < b[|b| - 1].date
  {
    var a, b := SortedSales(s.txs, d1), SortedSales(After1(cfg, fin, s, d1).txs, d2);
    if |a| > 0 && |b| > 0 {
      SalesUpTo(s.txs, d1, |a| - 1);
      SalesAfter(cfg, fin, s, d1, d2, |b| - 1);
    }
  }

  lemma {:induction false} DatesAdd(c: CalcDate, a: seq<Tx>, b: seq<Tx>)
    requires |a| > 0 && |b| > 0 ==> a[|a| - 1].date < b[|b| - 1].date
    ensures NewCalcDate(NewCalcDate(c, a), b) == NewCalcDate(c, a + b)
  {
    if |b| == 0 { assert a + b == a; } else { assert (a + b)[|a + b| - 1] == b[|b| - 1]; }
  }

  lemma {:induction false} SplitsTwice(cfg: Config, fin: seq<FinTx>, s: State, d1: int, d2: int)
    requires InTwo(cfg, fin, s, d1, d2) && Passes(cfg, fin, s, d2)
    ensures SplitsIn(After1(cfg, fin, After1(cfg, fin, s, d1), d2).txs) == SplitsIn(After1(cfg, fin, s, d2).txs)
  {
    CreatedInTwo(cfg, fin, s, d1, d2);
    CommitSplits(cfg, fin, s, d1);
    CommitSplits(cfg, fin, After1(cfg, fin, s, d1), d2);
    CommitSplits(cfg, fin, s, d2);
  }

  lemma {:induction false} AfterCogs(cfg: Config, fin: seq<FinTx>, s: State, d: int)
    requires Settle(cfg, fin, s.txs, d).Ok?
    ensures After1(cfg, fin, s, d).cogs == s.cogs + WorkOf(cfg, fin, s, d).cogs
    ensures After1(cfg, fin, s, d).calcDate == NewCalcDate(s.calcDate, SortedSales(s.txs, d))
  {}

  lemma {:induction false} Regroup(a: seq<Cogs>, b: seq<Cogs>, c: seq<Cogs>)
    ensures a + b + c == a + (b + c)
  {}

  lemma {:induction false} CogsAdd(cfg: Config, fin: seq<FinTx>, s: State, d1: int, d2: int)
    requires Settle(cfg, fin, s.txs, d1).Ok? && Settle(cfg, fin, s.txs, d2).Ok?
             && Settle(cfg, fin, After1(cfg, fin, s, d1).txs, d2).Ok?
    requires WorkOf(cfg, fin, s, d2).cogs
         == WorkOf(cfg, fin, s, d1).cogs + WorkOf(cfg, fin, After1(cfg, fin, s, d1), d2).cogs
    ensures After1(cfg, fin, After1(cfg, fin, s, d1), d2).cogs == After1(cfg, fin, s, d2).cogs
  {
    var s1 := After1(cfg, fin, s, d1);
    AfterCogs(cfg, fin, s, d1);
    AfterCogs(cfg, fin, s1, d2);
    AfterCogs(cfg, fin, s, d2);
    Regroup(s.cogs, WorkOf(cfg, fin, s, d1).cogs, WorkOf(cfg, fin, s1, d2).cogs);
  }

  lemma {:induction false} CogsTwice(cfg: Config, fin: seq<FinTx>, s: State, d1: int, d2: int)
    requires InTwo(cfg, fin, s, d1, d2) && Passes(cfg, fin, s, d2)
    ensures After1(cfg, fin, After1(cfg, fin, s, d1), d2).cogs == After1(cfg, fin, s, d2).cogs
  {
    DoneTwice(cfg, fin, s, d1, d2);
    CogsAdd(cfg, fin, s, d1, d2);
  }

  lemma {:induction false} CalcDateTwice(cfg: Config, fin: seq<FinTx>, s: State, d1: int, d2: int)
    requires InTwo(cfg, fin, s, d1, d2) && Passes(cfg, fin, s, d2)
    ensures After1(cfg, fin, After1(cfg, fin, s, d1), d2).calcDate == After1(cfg, fin, s, d2).calcDate
  {
    DateTwice(cfg, fin, s, d1, d2);
    AfterCogs(cfg, fin, s, d1);
    AfterCogs(cfg, fin, After1(cfg, fin, s, d1), d2);
    AfterCogs(cfg, fin, s, d2);
  }

  /** Two runs that go through, locks aside, leave the same book as one. */
  lemma {:induction false} TwoRunsOneBook(cfg: Config, fin: seq<FinTx>, s: State, d1: int, d2: int)
    requires InTwo(cfg, fin, s, d1, d2)
    ensures Passes(cfg, fin, s, d2)
    ensures SameBook(After1(cfg, fin, After1(cfg, fin, s, d1), d2), After1(cfg, fin, s, d2))
  {
    BatchPasses(cfg, fin, s, d1, d2);
    ReplicasTwice(cfg, fin, s, d1, d2);
    SplitsTwice(cfg, fin, s, d1, d2);
    CogsTwice(cfg, fin, s, d1, d2);
    CalcDateTwice(cfg, fin, s, d1, d2);
  }

  // ----- Locks -----

  /** A lot that the credit notes stage has less in it. */
  lemma {:induction false} NotesShrink(notes: seq<Tx>, w: Work, base: seq<Tx>, i: nat)
    requires Positive(w.lots) && ApplyNotes(notes, w).Ok? && i < |base| == |w.lots| && SameIds(base, w.lots)
             && Distinct(IdOf, base)
    requires w.updates == map[] && base == w.lots
    requires forall k :: 0 <= k < |notes| ==> !Among(notes[k].id, base) && notes[k].amount > 0.0
    ensures var v := ApplyNotes(notes, w).work;
            |v.lots| == |base| && (base[i].id in v.updates ==> v.lots[i].amount < base[i].amount)
    decreases |notes|
  {
    NotesFrame(notes, w);
    if |notes| > 0 {
      var init, n := notes[..|notes| - 1], notes[|notes| - 1];
      NotesShrink(init, w, base, i);
      NotesFrame(init, w);
      var v := ApplyNotes(init, w).work;
      var j := IndexOf(v.lots, n.code);
      if j < |v.lots| {
        assert base[i].id != n.id by { assert !Among(notes[|notes| - 1].id, base); }
        assert v.lots[j].id == base[j].id;
        assert i < j ==> IdOf(base[i]) != IdOf(base[j]);
        assert j < i ==> IdOf(base[j]) != IdOf(base[i]);
      }
    }
  }

  lemma {:induction false} OpeningShrinks(txs: seq<Tx>, d: int, t: Tx)
    requires Sound(txs) && Opening(txs, d).Ok? && t in Purchases(txs, d) && t.id in Opening(txs, d).work.updates
    ensures Lookup(Opening(txs, d).work.updates, t).amount < t.amount
  {
    var ps, ns := Purchases(txs, d), NotesBy(txs, d);
    LotsAreThePurchases(txs, d);
    MembersShapes(txs, d);
    KindsApart(txs, d);
    CollectedShapes(txs, d);
    var i :| 0 <= i < |ps| && ps[i] == t;
    NotesShrink(ns, Start(ps), ps, i);
    ApplyNothing(ps);
    NotesStage(ns, Start(ps), ps);
    assert Apply(Opening(txs, d).work.updates, ps)[i] == ApplyNotes(ns, Start(ps)).work.lots[i];
  }

  /** Sales never add to a lot. */
  lemma {:induction false} RunShrinks(movers: Movers, sales: seq<Tx>, lots: seq<Tx>)
    requires AllLawful(movers)
    ensures |LotsAfter(movers, sales, lots)| == |lots|
    ensures forall i :: 0 <= i < |lots| ==> LotsAfter(movers, sales, lots)[i].amount <= lots[i].amount
    decreases |sales|
  {
    if |sales| > 0 {
      var init, sale := sales[..|sales| - 1], sales[|sales| - 1];
      RunShrinks(movers, init, lots);
      var mid := LotsAfter(movers, init, lots);
      assert Lawful(movers(sale));
      TakeRelates(movers(sale), sale.amount, mid, (a: Tx, b: Tx) => b.amount <= a.amount);
    }
  }

  /** A lot staged by the notes ends the run with less in it. */
  lemma {:induction false} StagedShrinks(cfg: Config, fin: seq<FinTx>, s: State, d: int, t: Tx)
    requires Passes(cfg, fin, s, d) && t in Purchases(s.txs, d) && t.id in Opening(s.txs, d).work.updates
    ensures Lookup(WorkOf(cfg, fin, s, d).updates, t) != t
  {
    var ls, v, w := Lots(s.txs, d), Opening(s.txs, d).work, WorkOf(cfg, fin, s, d);
    SortContents(Purchases(s.txs, d));
    var i :| 0 <= i < |ls| && ls[i] == t;
    OpeningShrinks(s.txs, d, t);
    OpeningStages(s.txs, d);
    SettleLots(cfg, fin, s.txs, d);
    assert Apply(v.updates, ls)[i] == v.lots[i];
    assert Apply(w.updates, ls)[i] == w.lots[i];
    RunMoversLawful(cfg, fin);
    ProcessLots(RunMovers(cfg, fin), cfg.halfUnit, SortedSales(s.txs, d), v);
    RunShrinks(RunMovers(cfg, fin), SortedSales(s.txs, d), v.lots);
  }

  lemma {:induction false} OpeningStagesTx(txs: seq<Tx>, d: int, id: nat) returns (t: Tx)
    requires Sound(txs) && Opening(txs, d).Ok? && id in Opening(txs, d).work.updates
    ensures t in txs && t.id == id
  {
    if !Among(id, txs) {
      OpeningForeign(txs, d, Opening(txs, d).work.updates[id].(id := id));
    }
    var i :| 0 <= i < |txs| && txs[i].id == id;
    t := txs[i];
  }

  /** The batch stages nothing that neither run stages. */
  lemma {:induction false} StagedInTwo(cfg: Config, fin: seq<FinTx>, s: State, d1: int, d2: int, id: nat)
    requires InTwo(cfg, fin, s, d1, d2) && Passes(cfg, fin, s, d2) && id in WorkOf(cfg, fin, s, d2).updates
    ensures id in WorkOf(cfg, fin, s, d1).updates || id in WorkOf(cfg, fin, After1(cfg, fin, s, d1), d2).updates
  {
    BatchWork(cfg, fin, s, d1, d2);
    FirstWork(cfg, fin, s, d1);
    SecondWork(cfg, fin, s, d1, d2);
    if id !in FirstSales(cfg, fin, s, d1).updates && id !in SecondSalesWork(cfg, fin, s, d1, d2).updates {
      var t := OpeningStagesTx(s.txs, d2, id);
      OpenedInTwo(cfg, fin, s, d1, d2, t);
    }
  }

  lemma {:induction false} OpenedInTwo(cfg: Config, fin: seq<FinTx>, s: State, d1: int, d2: int, t: Tx)
    requires InTwo(cfg, fin, s, d1, d2) && Passes(cfg, fin, s, d2) && t in s.txs
             && t.id in Opening(s.txs, d2).work.updates
    ensures t.id in WorkOf(cfg, fin, s, d1).updates || t.id in WorkOf(cfg, fin, After1(cfg, fin, s, d1), d2).updates
  {
    SameTwice(cfg, fin, s, d1, d2, t);
    if t in Purchases(s.txs, d2) {
      StagedShrinks(cfg, fin, s, d2, t);
    } else {
      OpeningOther(s.txs, d2, t);
      CollectedShapes(s.txs, d2);
      assert t in Notes(s.txs, d2);
      RunLeavesNote(cfg, fin, s, d2, t);
    }
    assert Twice(cfg, fin, s, d1, d2, t) != t;
  }

  /** When neither run stages a locked transaction, the batch does not. */
  lemma {:induction false} Unlocked(cfg: Config, fin: seq<FinTx>, s: State, d1: int, d2: int)
    requires InTwo(cfg, fin, s, d1, d2) && Passes(cfg, fin, s, d2)
    requires WorkOf(cfg, fin, s, d1).updates.Keys * s.locked == {}
    requires WorkOf(cfg, fin, After1(cfg, fin, s, d1), d2).updates.Keys * s.locked == {}
    ensures WorkOf(cfg, fin, s, d2).updates.Keys * s.locked == {}
  {
    var a, b, c := WorkOf(cfg, fin, s, d1).updates.Keys, WorkOf(cfg, fin, After1(cfg, fin, s, d1), d2).updates.Keys,
      WorkOf(cfg, fin, s, d2).updates.Keys;
    forall id | id in c ensures id in a + b {
      StagedInTwo(cfg, fin, s, d1, d2, id);
    }
    StillDisjoint(a, b, c, s.locked);
  }

  lemma {:induction false} StillDisjoint(a: set<nat>, b: set<nat>, c: set<nat>, locked: set<nat>)
    requires a * locked == {} && b * locked == {} && forall id :: id in c ==> id in a + b
    ensures c * locked == {}
  {
    forall id | id in c ensures id !in locked {
      assert id !in a * locked && id !in b * locked;
    }
  }

  /** Two calculations, up to `d1` and then up to `d2`, each with the Financial Book as it then
      stands, go through, and no credit note kept by the second is for a lot that the sales of the
      first drew on. */
  ghost predicate BothGoThrough(cfg: Config, fin1: seq<FinTx>, fin2: seq<FinTx>, s: State, d1: int, d2: int) {
    && Valid(s) && CodesApart(s.txs) && cfg.halfUnit > 0.0 && d1 <= d2
    && Calculate(cfg, fin1, s, d1).0.Calculated?
    && Calculate(cfg, fin2, Calculate(cfg, fin1, s, d1).1, d2).0.Calculated?
    && Spares(NotesBy(Calculate(cfg, fin1, s, d1).1.txs, d2), Opening(s.txs, d1).work.lots,
              Settle(cfg, fin1, s.txs, d1).work.lots)
  }

  /** One calculation up to `d2`, with the later Financial Book, goes through as well and leaves
      the same books. */
  ghost predicate BatchAgrees(cfg: Config, fin1: seq<FinTx>, fin2: seq<FinTx>, s: State, d1: int, d2: int) {
    && Calculate(cfg, fin2, s, d2).0.Calculated?
    && SameBook(Calculate(cfg, fin2, Calculate(cfg, fin1, s, d1).1, d2).1, Calculate(cfg, fin2, s, d2).1)
  }

  lemma {:induction false} BothPass(cfg: Config, fin: seq<FinTx>, s: State, d1: int, d2: int)
    requires BothGoThrough(cfg, fin, fin, s, d1, d2)
    ensures Passes(cfg, fin, s, d1) && Calculate(cfg, fin, s, d1).1 == After1(cfg, fin, s, d1)
    ensures Passes(cfg, fin, After1(cfg, fin, s, d1), d2)
    ensures Calculate(cfg, fin, After1(cfg, fin, s, d1), d2).1 == After1(cfg, fin, After1(cfg, fin, s, d1), d2)
  {
    OnePasses(cfg, fin, s, d1);
    BookAfter(cfg, fin, s, d1);
    OnePasses(cfg, fin, After1(cfg, fin, s, d1), d2);
  }

  /** With one Financial Book, one calculation makes of the books what two make of them. */
  lemma {:induction false} BatchOfOneBook(cfg: Config, fin: seq<FinTx>, s: State, d1: int, d2: int)
    requires BothGoThrough(cfg, fin, fin, s, d1, d2) && NotesKept(s.txs, d1, d2)
    ensures BatchAgrees(cfg, fin, fin, s, d1, d2)
  {
    var s1 := After1(cfg, fin, s, d1);
    BothPass(cfg, fin, s, d1, d2);
    assert InTwo(cfg, fin, s, d1, d2);
    TwoRunsOneBook(cfg, fin, s, d1, d2);
    Unlocked(cfg, fin, s, d1, d2);
    SalesSum(cfg, fin, s, d1, d2);
    SumAmounts(Sales(s.txs, d1));
    SumAmounts(Sales(s1.txs, d2));
  }

  /** A note that one of two runs applies comes out checked. */
  lemma {:induction false} AppliedChecked(cfg: Config, fin: seq<FinTx>, s: State, d1: int, d2: int, n: Tx)
    requires BothGoThrough(cfg, fin, fin, s, d1, d2)
    requires AppliedBy(s.txs, d1)(n) || (n in SecondKept(s.txs, d1, d2) && Matched(Purchases(s.txs, d2), n))
    ensures n in s.txs && IsCreditNote(n) && !n.checked && IsReplica(n)
    ensures Passes(cfg, fin, s, d1) && Passes(cfg, fin, After1(cfg, fin, s, d1), d2)
            && Twice(cfg, fin, s, d1, d2, n).checked
  {
    var s1 := After1(cfg, fin, s, d1);
    BothPass(cfg, fin, s, d1, d2);
    NoteOfBook(s.txs, d1, d2, n);
    NoteAfterFirst(cfg, fin, s, d1, n);
    InBookAfter(cfg, fin, s, d1, n);
    if AppliedBy(s.txs, d1)(n) {
      Uncollected(cfg, fin, s1, d2, n.(checked := true));
    } else {
      SecondNotes(cfg, fin, s, d1, d2);
      MatchedAgain(cfg, fin, s, d1, d2, n);
      NoteAfterFirst(cfg, fin, s1, d2, n);
    }
  }

  lemma {:induction false} NoteOfBook(txs: seq<Tx>, d1: int, d2: int, n: Tx)
    requires Sound(txs) && (n in NotesBy(txs, d1) || n in SecondKept(txs, d1, d2))
    ensures n in txs && IsCreditNote(n) && !n.checked && IsReplica(n)
  {
    KeptNotes(txs, d1);
    AppliedApart(txs, d1, d2);
    CollectedShapes(txs, d1);
    CollectedShapes(txs, d2);
    FilterSound(OpenNotes(d1), txs);
    FilterSound(OpenNotes(d2), txs);
  }

  /** A note that comes out checked of two runs, and that one run does not keep, tells them apart. */
  lemma {:induction false} DroppedDiffers(cfg: Config, fin: seq<FinTx>, s: State, d1: int, d2: int, n: Tx)
    requires Passes(cfg, fin, s, d1) && Passes(cfg, fin, After1(cfg, fin, s, d1), d2) && Passes(cfg, fin, s, d2)
    requires n in s.txs && IsCreditNote(n) && !n.checked && IsReplica(n) && n !in NotesBy(s.txs, d2)
    requires Twice(cfg, fin, s, d1, d2, n).checked
    ensures !SameBook(After1(cfg, fin, After1(cfg, fin, s, d1), d2), After1(cfg, fin, s, d2))
  {
    var s1, rs := After1(cfg, fin, s, d1), Filter(IsReplica, s.txs);
    CommitReplicas(cfg, fin, s, d1);
    CommitReplicas(cfg, fin, s1, d2);
    CommitReplicas(cfg, fin, s, d2);
    NoteAfterFirst(cfg, fin, s, d2, n);
    FilterSound(IsReplica, s.txs);
    assert n in rs;
    var i :| 0 <= i < |rs| && rs[i] == n;
    assert Apply(WorkOf(cfg, fin, s1, d2).updates, Apply(WorkOf(cfg, fin, s, d1).updates, rs))[i].checked;
    assert Apply(WorkOf(cfg, fin, s, d2).updates, rs)[i] == n;
  }

  lemma {:induction false} NotKeptDiffers(cfg: Config, fin: seq<FinTx>, s: State, d1: int, d2: int)
    requires BothGoThrough(cfg, fin, fin, s, d1, d2) && !NotesKept(s.txs, d1, d2)
    ensures !BatchAgrees(cfg, fin, fin, s, d1, d2)
  {
    var n :| (AppliedBy(s.txs, d1)(n) || (n in SecondKept(s.txs, d1, d2) && Matched(Purchases(s.txs, d2), n)))
             && n !in NotesBy(s.txs, d2);
    AppliedChecked(cfg, fin, s, d1, d2, n);
    BothPass(cfg, fin, s, d1, d2);
    if Calculate(cfg, fin, s, d2).0.Calculated? {
      OnePasses(cfg, fin, s, d2);
      DroppedDiffers(cfg, fin, s, d1, d2, n);
    }
  }

  lemma {:induction false} OnePasses(cfg: Config, fin: seq<FinTx>, s: State, d: int)
    requires Valid(s) && CodesApart(s.txs) && cfg.halfUnit > 0.0 && Calculate(cfg, fin, s, d).0.Calculated?
    ensures Passes(cfg, fin, s, d) && Calculate(cfg, fin, s, d).1 == After1(cfg, fin, s, d)
  {}

  /** When the two books agree on what the first calculation first draws on, the second would do. */
  lemma {:induction false} LaterBookDoes(cfg: Config, fin1: seq<FinTx>, fin2: seq<FinTx>, s: State, d1: int, d2: int)
    requires BothGoThrough(cfg, fin1, fin2, s, d1, d2) && SameExtras(cfg, fin1, fin2, s, d1)
    ensures BothGoThrough(cfg, fin2, fin2, s, d1, d2)
    ensures BatchAgrees(cfg, fin1, fin2, s, d1, d2) <==> BatchAgrees(cfg, fin2, fin2, s, d1, d2)
  {
    CalculateAlike(cfg, fin1, fin2, s, d1);
    SettledAlike(cfg, fin1, fin2, s, d1);
  }

  /** Incremental equals batch: one calculation makes of the books what two that go through make
      of them, if it keeps every credit note that they apply, and reads the extras that the first
      of the two read of the purchases it first drew on. */
  lemma {:induction false} IncrementalEqualsBatch(cfg: Config, fin1: seq<FinTx>, fin2: seq<FinTx>, s: State, d1: int,
                                                  d2: int)
    requires BothGoThrough(cfg, fin1, fin2, s, d1, d2)
    requires SameExtras(cfg, fin1, fin2, s, d1) && NotesKept(s.txs, d1, d2)
    ensures BatchAgrees(cfg, fin1, fin2, s, d1, d2)
  {
    LaterBookDoes(cfg, fin1, fin2, s, d1, d2);
    BatchOfOneBook(cfg, fin2, s, d1, d2);
  }

  /** When one calculation makes of the books what two make of them, both reading the same extras:
      exactly when its Map of credit notes keeps every note that one of the two applies. */
  lemma {:induction false} IncrementalIff(cfg: Config, fin1: seq<FinTx>, fin2: seq<FinTx>, s: State, d1: int, d2: int)
    requires BothGoThrough(cfg, fin1, fin2, s, d1, d2) && SameExtras(cfg, fin1, fin2, s, d1)
    ensures BatchAgrees(cfg, fin1, fin2, s, d1, d2) <==> NotesKept(s.txs, d1, d2)
  {
    LaterBookDoes(cfg, fin1, fin2, s, d1, d2);
    if NotesKept(s.txs, d1, d2) {
      BatchOfOneBook(cfg, fin2, s, d1, d2);
    } else {
      NotKeptDiffers(cfg, fin2, s, d1, d2);
    }
  }
}
