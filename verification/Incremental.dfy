/** Calculating in two runs or in one: the same books. */
module Incremental {
  import opened Lists
  import opened Ledger
  import opened FifoOrder
  import opened Allocation
  import opened Settlement
  import opened Calculation
  import opened Books
  import opened Collected
  import opened Commitment
  import opened Guard
  import opened RunAlgebra
  import opened LotShape
  import opened NoteForm
  import opened TwoRuns
  import opened NoteRuns

  // ----- Credit notes before or after the sales -----

  /** The notes carry no code of a lot that changed. */
  ghost predicate Spares(notes: seq<Tx>, before: seq<Tx>, after: seq<Tx>) {
    |before| == |after|
      && forall i, n :: 0 <= i < |before| && before[i] != after[i] && n in notes ==> n.code != before[i].code
  }

  lemma {:induction false} SparedZero(notes: seq<Tx>, before: seq<Tx>, after: seq<Tx>, i: nat)
    requires Spares(notes, before, after) && i < |before| && before[i] != after[i]
    ensures NoteQuantity(notes, before[i].code) == 0.0
  {
    SumZero(NoteFor(before[i].code), notes);
  }

  lemma {:induction false} SparedPrefix(notes: seq<Tx>, before: seq<Tx>, after: seq<Tx>, m: nat)
    requires Spares(notes, before, after) && m <= |before| && forall i :: 0 <= i < m ==> before[i] != after[i]
    ensures forall i :: 0 <= i < m ==> NoteQuantity(notes, before[..m][i].code) == 0.0
  {
    forall i | 0 <= i < m ensures NoteQuantity(notes, before[..m][i].code) == 0.0 {
      SparedZero(notes, before, after, i);
    }
  }

  lemma {:induction false} AdjustAppend(notes: seq<Tx>, xs: seq<Tx>, ys: seq<Tx>)
    ensures AdjustAll(notes, xs + ys) == AdjustAll(notes, xs) + AdjustAll(notes, ys)
  {}

  lemma {:induction false} AdjustNone(notes: seq<Tx>, xs: seq<Tx>)
    requires forall i :: 0 <= i < |xs| ==> NoteQuantity(notes, xs[i].code) == 0.0
    ensures AdjustAll(notes, xs) == xs
  {
    forall i | 0 <= i < |xs| ensures Adjusted(notes, xs[i]) == xs[i] {}
  }

  /** The reached lots are exactly those that changed. */
  lemma {:induction false} ReachedChanged(lots: seq<Tx>, after: seq<Tx>, c: nat, m: nat)
    requires Drawn(lots, after, 0, c, m) && CheckedPrefix(lots, 0)
    ensures forall i :: 0 <= i < |lots| ==> (lots[i] != after[i] <==> i < m)
  {}

  /** Credit notes that spare the lots the sales draw on commute with the sales. */
  lemma {:induction false} NotesCommute(movers: Movers, halfUnit: real, sales: seq<Tx>, notes: seq<Tx>, lots: seq<Tx>,
                                        later: seq<Tx>)
    requires AllLawful(movers) && AllFramed(movers) && AllMark(movers) && CheckedPrefix(lots, 0)
    requires SumBy(AmountOf, sales) <= SumBy(OpenQuantity, lots)
             && forall k :: 0 <= k < |sales| ==> sales[k].amount > 0.0
    requires Spares(notes, lots, LotsAfter(movers, sales, lots))
    ensures var v := ProcessSales(movers, halfUnit, sales, Start(lots));
            ProcessSales(movers, halfUnit, sales, Start(AdjustAll(notes, lots + later)))
              == v.(lots := AdjustAll(notes, v.lots + later))
  {
    var c, m := RunShape(movers, sales, lots);
    ReachedChanged(lots, LotsAfter(movers, sales, lots), c, m);
    assert lots == lots[..m] + lots[m..];
    SparedPrefix(notes, lots, LotsAfter(movers, sales, lots), m);
    CommuteBehind(movers, halfUnit, sales, notes, lots[..m], lots[m..], later);
  }

  /** Behind the lots that cover the sales, notes and sales do not meet. */
  lemma {:induction false} CommuteBehind(movers: Movers, halfUnit: real, sales: seq<Tx>, notes: seq<Tx>, head: seq<Tx>,
                                         tail: seq<Tx>, later: seq<Tx>)
    requires AllLawful(movers) && AllFramed(movers) && forall k :: 0 <= k < |sales| ==> sales[k].amount > 0.0
    requires SumBy(AmountOf, sales) <= SumBy(OpenQuantity, head)
             && forall i :: 0 <= i < |head| ==> NoteQuantity(notes, head[i].code) == 0.0
    ensures var v := ProcessSales(movers, halfUnit, sales, Start(head + tail));
            ProcessSales(movers, halfUnit, sales, Start(AdjustAll(notes, head + tail + later)))
              == v.(lots := AdjustAll(notes, v.lots + later))
  {
    var w := ProcessSales(movers, halfUnit, sales, Start(head));
    RunSuffix(movers, halfUnit, sales, Start(head), tail);
    RunSuffix(movers, halfUnit, sales, Start(head), AdjustAll(notes, tail + later));
    ProcessLots(movers, halfUnit, sales, Start(head));
    RunFrame(movers, sales, head);
    SparedHead(notes, head, w.lots, tail, later);
  }

  lemma {:induction false} SparedHead(notes: seq<Tx>, head: seq<Tx>, head': seq<Tx>, tail: seq<Tx>, later: seq<Tx>)
    requires SameLots(head, head') && forall i :: 0 <= i < |head| ==> NoteQuantity(notes, head[i].code) == 0.0
    ensures AdjustAll(notes, head + tail + later) == head + AdjustAll(notes, tail + later)
    ensures AdjustAll(notes, head' + tail + later) == head' + AdjustAll(notes, tail + later)
  {
    assert head + tail + later == head + (tail + later) && head' + tail + later == head' + (tail + later);
    AdjustAppend(notes, head, tail + later);
    AdjustAppend(notes, head', tail + later);
    AdjustNone(notes, head);
    forall i | 0 <= i < |head'| ensures NoteQuantity(notes, head'[i].code) == 0.0 { assert SameLot(head[i], head'[i]); }
    AdjustNone(notes, head');
  }

  // ----- The notes of both runs -----

  /** Adjusting once by some notes, or by some of them and then by the others. */
  lemma {:induction false} AdjustTwice(all: seq<Tx>, n1: seq<Tx>, n2: seq<Tx>, first: seq<Tx>, later: seq<Tx>)
    requires forall i :: 0 <= i < |first| ==>
               && NoteQuantity(all, first[i].code) == NoteQuantity(n1, first[i].code) + NoteQuantity(n2, first[i].code)
               && NoteQuantity(n1, first[i].code) < first[i].amount
               && NoteQuantity(n2, first[i].code) < AdjustAll(n1, first)[i].amount
    requires forall i :: 0 <= i < |later| ==> NoteQuantity(all, later[i].code) == NoteQuantity(n2, later[i].code)
    ensures AdjustAll(all, first + later) == AdjustAll(n2, AdjustAll(n1, first) + later)
    ensures forall i :: 0 <= i < |first| ==> NoteQuantity(all, first[i].code) < first[i].amount
  {
    AdjustAppend(all, first, later);
    AdjustAppend(n2, AdjustAll(n1, first), later);
    forall i | 0 <= i < |first|
      ensures Adjusted(all, first[i]) == Adjusted(n2, AdjustAll(n1, first)[i])
              && NoteQuantity(all, first[i].code) < first[i].amount
    {
      NoteQuantityNonNeg(n1, first[i].code);
      NoteQuantityNonNeg(n2, first[i].code);
    }
    assert AdjustAll(all, first) == AdjustAll(n2, AdjustAll(n1, first));
    assert AdjustAll(all, later) == AdjustAll(n2, later);
  }

  // ----- The guard -----

  /** What the first run leaves open of its own lots. */
  lemma {:induction false} FirstLeaves(cfg: Config, fin: seq<FinTx>, s: State, d1: int)
    requires Passes(cfg, fin, s, d1)
    ensures SumBy(OpenQuantity, WorkOf(cfg, fin, s, d1).lots)
         == SumBy(AmountOf, Purchases(s.txs, d1)) - SumBy(AmountOf, AppliedNotes(s.txs, d1)) - SalesTotal(s.txs, d1)
  {
    var ps, ns, movers, sales := Purchases(s.txs, d1), NotesBy(s.txs, d1), RunMovers(cfg, fin), SortedSales(s.txs, d1);
    LotsAreThePurchases(s.txs, d1);
    MembersShapes(s.txs, d1);
    NotesTakeExactly(ns, ps);
    SortSum(OpenQuantity, ApplyNotes(ns, Start(ps)).work.lots);
    SortSum(AmountOf, Sales(s.txs, d1));
    SumCong(OpenQuantity, AmountOf, ps);
    GuardCovers(s.txs, d1);
    RunMoversLawful(cfg, fin);
    ProcessLots(movers, cfg.halfUnit, sales, Opening(s.txs, d1).work);
    RunOpen(movers, sales, Opening(s.txs, d1).work.lots);
  }

  /** The purchases the second run collects. */
  lemma {:induction false} SecondTotal(cfg: Config, fin: seq<FinTx>, s: State, d1: int, d2: int)
    requires Passes(cfg, fin, s, d1) && d1 <= d2
    ensures SumBy(AmountOf, Purchases(After1(cfg, fin, s, d1).txs, d2))
         == SumBy(OpenQuantity, WorkOf(cfg, fin, s, d1).lots) + SumBy(AmountOf, Filter(After(d1), Purchases(s.txs, d2)))
  {
    var txs1, later := After1(cfg, fin, s, d1).txs, Filter(After(d1), Purchases(s.txs, d2));
    var y := LotsBetween(cfg, fin, s, d1, d2);
    BookAfter(cfg, fin, s, d1);
    SortSum(AmountOf, Purchases(txs1, d2));
    SecondLots(cfg, fin, s, d1, d2);
    SumFilter(OpenQuantity, Unchecked, y);
    FilterSound(Unchecked, y);
    SumCong(OpenQuantity, AmountOf, Filter(Unchecked, y));
    SumAppend(OpenQuantity, WorkOf(cfg, fin, s, d1).lots, Sort(later));
    SortSum(OpenQuantity, later);
    FilterSound(After(d1), Purchases(s.txs, d2));
    FilterSound(OpenPurchases(d2), s.txs);
    SumCong(OpenQuantity, AmountOf, later);
  }

  /** The stock a calculation up to `d2` finds, less what it needs. */
  function Stock(txs: seq<Tx>, d2: int): real { PurchasesTotal(txs, d2) - SalesTotal(txs, d2) }

  /** The notes up to `d2`: those the first run applied and those it left open. */
  lemma {:induction false} NotesTotal(txs: seq<Tx>, d1: int, d2: int)
    requires Sound(txs) && d1 <= d2
    ensures SumBy(AmountOf, Notes(txs, d2))
         == SumBy(AmountOf, AppliedNotes(txs, d1)) + SumBy(AmountOf, NotesLeft(txs, d1, d2))
  {
    var ns, applied := Notes(txs, d2), Filter(AppliedBy(txs, d1), Notes(txs, d2));
    SumParts(AmountOf, AppliedBy(txs, d1), StillOpen(txs, d1), ns);
    AppliedApart(txs, d1, d2);
    KeptNotes(txs, d1);
    CollectedReady(txs, d2);
    FilterSound(AppliedBy(txs, d1), ns);
    FilterSound(OpenNotes(d1), txs);
    FilterSound(OpenNotes(d2), txs);
    FilterDistinct(IdOf, AppliedBy(txs, d1), ns);
    SplitMultiset(IdOf, AppliedNotes(txs, d1), applied, []);
    SumPermuted(AmountOf, AppliedNotes(txs, d1), applied);
  }

  /** A run leaves the stock of any later date as it was: one guard holds exactly when the other does. */
  lemma {:induction false} StockKept(cfg: Config, fin: seq<FinTx>, s: State, d1: int, d2: int)
    requires Passes(cfg, fin, s, d1) && d1 <= d2
    ensures Stock(After1(cfg, fin, s, d1).txs, d2) == Stock(s.txs, d2)
  {
    FirstLeaves(cfg, fin, s, d1);
    SecondTotal(cfg, fin, s, d1, d2);
    SalesSum(cfg, fin, s, d1, d2);
    FilterTwice(OpenPurchases(d2), UpTo(d1), OpenPurchases(d1), s.txs);
    SumParts(AmountOf, UpTo(d1), After(d1), Purchases(s.txs, d2));
    SecondNotes(cfg, fin, s, d1, d2);
    NotesTotal(s.txs, d1, d2);
  }

  lemma {:induction false} SalesSum(cfg: Config, fin: seq<FinTx>, s: State, d1: int, d2: int)
    requires Passes(cfg, fin, s, d1) && d1 <= d2
    ensures SalesTotal(s.txs, d2) == SalesTotal(s.txs, d1) + SalesTotal(After1(cfg, fin, s, d1).txs, d2)
  {
    var txs1 := After1(cfg, fin, s, d1).txs;
    SalesInTwo(cfg, fin, s, d1, d2);
    SumAppend(AmountOf, SortedSales(s.txs, d1), SortedSales(txs1, d2));
    SortSum(AmountOf, Sales(s.txs, d2));
    SortSum(AmountOf, Sales(s.txs, d1));
    SortSum(AmountOf, Sales(txs1, d2));
  }

  // ----- The batch run -----

  /** Two runs go through, and the second one's notes spare the lots that the first one's sales drew on. */
  ghost predicate RunsSpare(cfg: Config, fin: seq<FinTx>, s: State, d1: int, d2: int) {
    && d1 <= d2 && Passes(cfg, fin, s, d1) && Passes(cfg, fin, After1(cfg, fin, s, d1), d2)
    && Spares(NotesBy(After1(cfg, fin, s, d1).txs, d2), Opening(s.txs, d1).work.lots, WorkOf(cfg, fin, s, d1).lots)
  }

  /** Moreover one run would keep the notes that they apply. */
  ghost predicate InTwo(cfg: Config, fin: seq<FinTx>, s: State, d1: int, d2: int) {
    RunsSpare(cfg, fin, s, d1, d2) && NotesKept(s.txs, d1, d2)
  }

  /** The lots of the first run have the codes of its purchases, the later lots others. */
  lemma {:induction false} CodesInTwo(txs: seq<Tx>, d1: int, d2: int)
    requires Sound(txs) && d1 <= d2
    ensures forall i :: 0 <= i < |Lots(txs, d1)| ==> HasCode(Purchases(txs, d1), Lots(txs, d1)[i].code)
    ensures var later := Later(txs, d1, d2);
            forall i :: 0 <= i < |later| ==>
              later[i] in txs && PurchaseShape(later[i]) && !later[i].checked
                && !HasCode(Purchases(txs, d1), later[i].code)
  {
    var ps, ls, later := Purchases(txs, d1), Lots(txs, d1), Later(txs, d1, d2);
    CollectedShapes(txs, d1);
    CollectedShapes(txs, d2);
    SortContents(ps);
    SortContents(Filter(After(d1), Purchases(txs, d2)));
    FilterSound(After(d1), Purchases(txs, d2));
    forall i | 0 <= i < |ls| ensures HasCode(ps, ls[i].code) {
      assert ls[i] in ls;
      var k :| 0 <= k < |ps| && ps[k] == ls[i];
    }
    forall i | 0 <= i < |later|
      ensures later[i] in txs && PurchaseShape(later[i]) && !later[i].checked && !HasCode(ps, later[i].code)
    {
      assert later[i] in later;
      if k :| 0 <= k < |ps| && ps[k].code == later[i].code {
        assert ps[k] in ps;
        SameCodeSame(txs, ps[k], later[i]);
      }
    }
  }

  ghost predicate AllOpen(lots: seq<Tx>) { forall i :: 0 <= i < |lots| ==> !lots[i].checked }

  lemma {:induction false} LaterOpen(txs: seq<Tx>, d1: int, d2: int)
    ensures AllOpen(Later(txs, d1, d2))
  {
    var later := Later(txs, d1, d2);
    SortContents(Filter(After(d1), Purchases(txs, d2)));
    FilterSound(After(d1), Purchases(txs, d2));
    FilterSound(OpenPurchases(d2), txs);
    assert forall i :: 0 <= i < |later| ==> later[i] in later;
  }

  lemma {:induction false} SameCodeSame(txs: seq<Tx>, a: Tx, b: Tx)
    requires CodesApart(txs) && a in txs && b in txs && PurchaseShape(a) && PurchaseShape(b) && a.code == b.code
    ensures a == b
  {
    var i :| 0 <= i < |txs| && txs[i] == a;
    var j :| 0 <= j < |txs| && txs[j] == b;
    assert i == j;
  }

  lemma {:induction false} AffordableSorted(notes: seq<Tx>, ps: seq<Tx>)
    ensures Affordable(notes, ps) <==> Affordable(notes, Sort(ps))
  {
    SortContents(ps);
    if Affordable(notes, ps) {
      forall i | 0 <= i < |ps| ensures NoteQuantity(notes, Sort(ps)[i].code) < Sort(ps)[i].amount {
        assert Sort(ps)[i] in Sort(ps);
        var k :| 0 <= k < |ps| && ps[k] == Sort(ps)[i];
      }
    }
    if Affordable(notes, Sort(ps)) {
      forall i | 0 <= i < |ps| ensures NoteQuantity(notes, ps[i].code) < ps[i].amount {
        assert ps[i] in Sort(ps);
        var k :| 0 <= k < |ps| && Sort(ps)[k] == ps[i];
      }
    }
  }

  lemma {:induction false} AffordableFiltered(notes: seq<Tx>, xs: seq<Tx>)
    requires Affordable(notes, Filter(Unchecked, xs))
    ensures forall i :: 0 <= i < |xs| && !xs[i].checked ==> NoteQuantity(notes, xs[i].code) < xs[i].amount
  {
    FilterSound(Unchecked, xs);
    forall i | 0 <= i < |xs| && !xs[i].checked ensures NoteQuantity(notes, xs[i].code) < xs[i].amount {
      var ys := Filter(Unchecked, xs);
      assert xs[i] in ys;
      var k :| 0 <= k < |ys| && ys[k] == xs[i];
    }
  }

  /** The second run's notes take less of each lot than the first run's notes left in it. */
  lemma {:induction false} StillAffordable(cfg: Config, fin: seq<FinTx>, s: State, d1: int, d2: int)
    requires InTwo(cfg, fin, s, d1, d2)
    ensures var a1, n2 := Opening(s.txs, d1).work.lots, NotesBy(After1(cfg, fin, s, d1).txs, d2);
            forall i :: 0 <= i < |a1| ==> NoteQuantity(n2, a1[i].code) < a1[i].amount
    ensures var n2, later := NotesBy(After1(cfg, fin, s, d1).txs, d2), Later(s.txs, d1, d2);
            Affordable(n2, later)
  {
    var later := Later(s.txs, d1, d2);
    var n2, a1, y1 := NotesBy(After1(cfg, fin, s, d1).txs, d2), Opening(s.txs, d1).work.lots,
      WorkOf(cfg, fin, s, d1).lots;
    LaterOpen(s.txs, d1, d2);
    assert CheckedPrefix(a1, 0) by { OpeningLots(s.txs, d1); }
    SecondAffords(cfg, fin, s, d1, d2);
    assert LotsBetween(cfg, fin, s, d1, d2) == y1 + later;
    SparedAffords(n2, a1, y1, later);
  }

  lemma {:induction false} SecondAffords(cfg: Config, fin: seq<FinTx>, s: State, d1: int, d2: int)
    requires InTwo(cfg, fin, s, d1, d2)
    ensures var n2, y := NotesBy(After1(cfg, fin, s, d1).txs, d2), LotsBetween(cfg, fin, s, d1, d2);
            forall i :: 0 <= i < |y| && !y[i].checked ==> NoteQuantity(n2, y[i].code) < y[i].amount
  {
    var txs1 := After1(cfg, fin, s, d1).txs;
    BookAfter(cfg, fin, s, d1);
    OpeningForm(txs1, d2);
    AffordableSorted(NotesBy(txs1, d2), Purchases(txs1, d2));
    SecondLots(cfg, fin, s, d1, d2);
    AffordableFiltered(NotesBy(txs1, d2), LotsBetween(cfg, fin, s, d1, d2));
  }

  lemma {:induction false} SparedAffords(notes: seq<Tx>, before: seq<Tx>, after: seq<Tx>, later: seq<Tx>)
    requires Spares(notes, before, after) && CheckedPrefix(before, 0) && AllOpen(later)
    requires var y := after + later;
             forall i :: 0 <= i < |y| && !y[i].checked ==> NoteQuantity(notes, y[i].code) < y[i].amount
    ensures forall i :: 0 <= i < |before| ==> NoteQuantity(notes, before[i].code) < before[i].amount
    ensures Affordable(notes, later)
  {
    var y := after + later;
    forall i | 0 <= i < |before| ensures NoteQuantity(notes, before[i].code) < before[i].amount {
      if before[i] != after[i] { SparedZero(notes, before, after, i); } else { assert y[i] == after[i]; }
    }
    forall i | 0 <= i < |later| ensures NoteQuantity(notes, later[i].code) < later[i].amount {
      assert y[|after| + i] == later[i];
    }
  }

  /** The lots a run starts from are open, with something in them. */
  lemma {:induction false} OpeningLots(txs: seq<Tx>, d: int)
    requires Sound(txs) && Opening(txs, d).Ok?
    ensures CheckedPrefix(Opening(txs, d).work.lots, 0)
  {
    var ps, ns := Purchases(txs, d), NotesBy(txs, d);
    LotsAreThePurchases(txs, d);
    MembersShapes(txs, d);
    NotesFrame(ns, Start(ps));
    var v, ls := ApplyNotes(ns, Start(ps)).work.lots, Opening(txs, d).work.lots;
    SortContents(v);
    forall i | 0 <= i < |ls| ensures !ls[i].checked && ls[i].amount > 0.0 {
      assert ls[i] in ls;
      var k :| 0 <= k < |v| && v[k] == ls[i];
      assert !ps[k].checked;
    }
  }

  /** The place of a collected purchase among the lots. */
  lemma {:induction false} LotAt(txs: seq<Tx>, d: int, p: Tx) returns (i: nat)
    requires Sound(txs) && Opening(txs, d).Ok? && p in Purchases(txs, d)
    ensures i < |Lots(txs, d)| == |Opening(txs, d).work.lots| && Lots(txs, d)[i] == p
    ensures Opening(txs, d).work.lots[i] == Adjusted(NotesBy(txs, d), p)
  {
    OpeningForm(txs, d);
    var ls := Lots(txs, d);
    SortContents(Purchases(txs, d));
    i :| 0 <= i < |ls| && ls[i] == p;
  }

  /** The first run's notes, and then the second's, take less of its lots than they hold. */
  lemma {:induction false} FirstAffords(cfg: Config, fin: seq<FinTx>, s: State, d1: int, d2: int)
    requires InTwo(cfg, fin, s, d1, d2)
    ensures var n1, n2, first := NotesBy(s.txs, d1), NotesBy(After1(cfg, fin, s, d1).txs, d2), Lots(s.txs, d1);
            && Affordable(n1, first) && Affordable(n2, AdjustAll(n1, first)) && Affordable(n2, Later(s.txs, d1, d2))
            && Opening(s.txs, d1).work.lots == AdjustAll(n1, first)
  {
    OpeningForm(s.txs, d1);
    AffordableSorted(NotesBy(s.txs, d1), Purchases(s.txs, d1));
    StillAffordable(cfg, fin, s, d1, d2);
  }

  /** The batch accepts all the notes, and starts from the first run's lots and the later ones,
      each less what the second run's notes say. */
  lemma {:induction false} BatchOpens(cfg: Config, fin: seq<FinTx>, s: State, d1: int, d2: int)
    requires InTwo(cfg, fin, s, d1, d2)
    ensures Opening(s.txs, d2).Ok?
    ensures var n2, later := NotesBy(After1(cfg, fin, s, d1).txs, d2), Later(s.txs, d1, d2);
            Opening(s.txs, d2).work.lots == AdjustAll(n2, Opening(s.txs, d1).work.lots + later)
  {
    var n1, n2, all := NotesBy(s.txs, d1), NotesBy(After1(cfg, fin, s, d1).txs, d2), NotesBy(s.txs, d2);
    var first, later := Lots(s.txs, d1), Later(s.txs, d1, d2);
    FirstAffords(cfg, fin, s, d1, d2);
    NotesAdd(cfg, fin, s, d1, d2);
    FirstThenLater(all, n1, n2, first, later);
    LotsInTwo(s.txs, d1, d2);
    AffordableSorted(all, Purchases(s.txs, d2));
    OpeningForm(s.txs, d2);
  }

  lemma {:induction false} FirstThenLater(all: seq<Tx>, n1: seq<Tx>, n2: seq<Tx>, first: seq<Tx>, later: seq<Tx>)
    requires Affordable(n1, first) && Affordable(n2, AdjustAll(n1, first)) && Affordable(n2, later)
    requires forall i :: 0 <= i < |first| ==>
               NoteQuantity(all, first[i].code) == NoteQuantity(n1, first[i].code) + NoteQuantity(n2, first[i].code)
    requires forall i :: 0 <= i < |later| ==> NoteQuantity(all, later[i].code) == NoteQuantity(n2, later[i].code)
    ensures AdjustAll(all, first + later) == AdjustAll(n2, AdjustAll(n1, first) + later)
    ensures Affordable(all, first + later)
  {
    AdjustTwice(all, n1, n2, first, later);
  }

  /** The lots give up in the batch what they give up in the two runs. */
  lemma {:induction false} NotesAdd(cfg: Config, fin: seq<FinTx>, s: State, d1: int, d2: int)
    requires InTwo(cfg, fin, s, d1, d2)
    ensures var n1, n2, all := NotesBy(s.txs, d1), NotesBy(After1(cfg, fin, s, d1).txs, d2), NotesBy(s.txs, d2);
            var first, later := Lots(s.txs, d1), Later(s.txs, d1, d2);
            && (forall i :: 0 <= i < |first| ==>
                  NoteQuantity(all, first[i].code) == NoteQuantity(n1, first[i].code) + NoteQuantity(n2, first[i].code))
            && (forall i :: 0 <= i < |later| ==> NoteQuantity(all, later[i].code) == NoteQuantity(n2, later[i].code))
  {
    var first, later := Lots(s.txs, d1), Later(s.txs, d1, d2);
    SecondNotes(cfg, fin, s, d1, d2);
    CodesInTwo(s.txs, d1, d2);
    CodesInBatch(s.txs, d1, d2);
    forall i | 0 <= i < |first|
      ensures NoteQuantity(NotesBy(s.txs, d2), first[i].code)
           == NoteQuantity(NotesBy(s.txs, d1), first[i].code) + NoteQuantity(SecondKept(s.txs, d1, d2), first[i].code)
    {
      QuantitiesAdd(s.txs, d1, d2, first[i].code);
    }
    forall i | 0 <= i < |later|
      ensures NoteQuantity(NotesBy(s.txs, d2), later[i].code) == NoteQuantity(SecondKept(s.txs, d1, d2), later[i].code)
    {
      QuantitiesAdd(s.txs, d1, d2, later[i].code);
    }
  }

  lemma {:induction false} CodesInBatch(txs: seq<Tx>, d1: int, d2: int)
    requires d1 <= d2
    ensures forall i :: 0 <= i < |Lots(txs, d1)| ==> HasCode(Purchases(txs, d2), Lots(txs, d1)[i].code)
    ensures forall i :: 0 <= i < |Later(txs, d1, d2)| ==> HasCode(Purchases(txs, d2), Later(txs, d1, d2)[i].code)
  {
    var first, later, ps := Lots(txs, d1), Later(txs, d1, d2), Purchases(txs, d2);
    LotsInTwo(txs, d1, d2);
    SortContents(ps);
    forall t | t in first || t in later ensures HasCode(ps, t.code) {
      assert t in first + later;
      var k :| 0 <= k < |ps| && ps[k] == t;
    }
  }

  /** The lots the second run's sales draw on, with those the first run sold out. */
  ghost function LotsThen(cfg: Config, fin: seq<FinTx>, s: State, d1: int, d2: int): seq<Tx>
    requires Settle(cfg, fin, s.txs, d1).Ok?
  {
    AdjustAll(NotesBy(After1(cfg, fin, s, d1).txs, d2), LotsBetween(cfg, fin, s, d1, d2))
  }

  /** What the first run's sales add to its opening. */
  ghost function FirstSales(cfg: Config, fin: seq<FinTx>, s: State, d1: int): Work
    requires Settle(cfg, fin, s.txs, d1).Ok?
  {
    ProcessSales(RunMovers(cfg, fin), cfg.halfUnit, SortedSales(s.txs, d1), Start(Opening(s.txs, d1).work.lots))
  }

  /** What the second run's sales add to its opening. */
  ghost function SecondSalesWork(cfg: Config, fin: seq<FinTx>, s: State, d1: int, d2: int): Work
    requires Settle(cfg, fin, s.txs, d1).Ok?
  {
    ProcessSales(RunMovers(cfg, fin), cfg.halfUnit, SortedSales(After1(cfg, fin, s, d1).txs, d2),
                 Start(LotsThen(cfg, fin, s, d1, d2)))
  }

  lemma {:induction false} FirstWork(cfg: Config, fin: seq<FinTx>, s: State, d1: int)
    requires Passes(cfg, fin, s, d1)
    ensures WorkOf(cfg, fin, s, d1) == Added(Opening(s.txs, d1).work, FirstSales(cfg, fin, s, d1))
    ensures FirstSales(cfg, fin, s, d1).lots == WorkOf(cfg, fin, s, d1).lots
  {
    RunAdds(RunMovers(cfg, fin), cfg.halfUnit, SortedSales(s.txs, d1), Opening(s.txs, d1).work);
  }

  lemma {:induction false} SalesPositive(txs: seq<Tx>, d: int)
    requires AllWellFormed(txs)
    ensures forall k :: 0 <= k < |SortedSales(txs, d)| ==> SortedSales(txs, d)[k].amount > 0.0
  {
    CollectedShapes(txs, d);
    SortContents(Sales(txs, d));
    forall k | 0 <= k < |SortedSales(txs, d)| ensures SortedSales(txs, d)[k].amount > 0.0 {
      assert SortedSales(txs, d)[k] in SortedSales(txs, d);
    }
  }

  /** The batch's first sales come out as in the first run. */
  lemma {:induction false} BatchBegins(cfg: Config, fin: seq<FinTx>, s: State, d1: int, d2: int)
    requires InTwo(cfg, fin, s, d1, d2)
    ensures Opening(s.txs, d2).Ok?
    ensures ProcessSales(RunMovers(cfg, fin), cfg.halfUnit, SortedSales(s.txs, d1), Opening(s.txs, d2).work)
         == Added(Opening(s.txs, d2).work, FirstSales(cfg, fin, s, d1).(lots := LotsThen(cfg, fin, s, d1, d2)))
  {
    var movers, sales := RunMovers(cfg, fin), SortedSales(s.txs, d1);
    var a1, n2 := Opening(s.txs, d1).work.lots, NotesBy(After1(cfg, fin, s, d1).txs, d2);
    BatchOpens(cfg, fin, s, d1, d2);
    RunMoversLawful(cfg, fin);
    RunMoversMark(cfg, fin);
    OpeningLots(s.txs, d1);
    GuardCovers(s.txs, d1);
    SalesPositive(s.txs, d1);
    FirstWork(cfg, fin, s, d1);
    ProcessLots(movers, cfg.halfUnit, sales, Start(a1));
    NotesCommute(movers, cfg.halfUnit, sales, n2, a1, Later(s.txs, d1, d2));
    RunAdds(movers, cfg.halfUnit, sales, Opening(s.txs, d2).work);
  }

  /** The batch's work is its opening, the first run's sales and the second run's sales. */
  lemma {:induction false} BatchWork(cfg: Config, fin: seq<FinTx>, s: State, d1: int, d2: int)
    requires InTwo(cfg, fin, s, d1, d2)
    ensures Settle(cfg, fin, s.txs, d2).Ok?
    ensures WorkOf(cfg, fin, s, d2)
         == Added(Added(Opening(s.txs, d2).work, FirstSales(cfg, fin, s, d1)), SecondSalesWork(cfg, fin, s, d1, d2))
  {
    var movers, s1 := RunMovers(cfg, fin), After1(cfg, fin, s, d1);
    BatchBegins(cfg, fin, s, d1, d2);
    var begun := Added(Opening(s.txs, d2).work, FirstSales(cfg, fin, s, d1).(lots := LotsThen(cfg, fin, s, d1, d2)));
    SalesInTwo(cfg, fin, s, d1, d2);
    ProcessAppend(movers, cfg.halfUnit, SortedSales(s.txs, d1), SortedSales(s1.txs, d2), Opening(s.txs, d2).work);
    RunAdds(movers, cfg.halfUnit, SortedSales(s1.txs, d2), begun);
  }

  lemma {:induction false} AdjustFilter(notes: seq<Tx>, xs: seq<Tx>)
    ensures AdjustAll(notes, Filter(Unchecked, xs)) == Filter(Unchecked, AdjustAll(notes, xs))
  {
    if |xs| > 0 {
      var init, x := xs[..|xs| - 1], xs[|xs| - 1];
      assert xs == init + [x];
      AdjustFilter(notes, init);
      AdjustAppend(notes, init, [x]);
      assert AdjustAll(notes, [x]) == [Adjusted(notes, x)];
      FilterSnoc(Unchecked, AdjustAll(notes, init), Adjusted(notes, x));
      AdjustAppend(notes, Filter(Unchecked, init), [x]);
    }
  }

  /** The second run, as if the sold-out lots were still listed. */
  ghost function SecondFull(cfg: Config, fin: seq<FinTx>, s: State, d1: int, d2: int): Work
    requires Settle(cfg, fin, s.txs, d1).Ok? && Opening(After1(cfg, fin, s, d1).txs, d2).Ok?
  {
    var s1 := After1(cfg, fin, s, d1);
    ProcessSales(RunMovers(cfg, fin), cfg.halfUnit, SortedSales(s1.txs, d2),
                 Opening(s1.txs, d2).work.(lots := LotsThen(cfg, fin, s, d1, d2)))
  }

  /** The second run's open lots are those its sales draw on. */
  lemma {:induction false} SecondOpens(cfg: Config, fin: seq<FinTx>, s: State, d1: int, d2: int)
    requires InTwo(cfg, fin, s, d1, d2)
    ensures Opening(After1(cfg, fin, s, d1).txs, d2).work.lots == Filter(Unchecked, LotsThen(cfg, fin, s, d1, d2))
  {
    var s1 := After1(cfg, fin, s, d1);
    OpeningForm(s1.txs, d2);
    SecondLots(cfg, fin, s, d1, d2);
    AdjustFilter(NotesBy(s1.txs, d2), LotsBetween(cfg, fin, s, d1, d2));
  }

  /** A run on the open lots alone, or on all of them. */
  lemma {:induction false} RunOnOpen(movers: Movers, halfUnit: real, sales: seq<Tx>, v: Work, z: seq<Tx>)
    requires AllLawful(movers) && v.lots == Filter(Unchecked, z)
    ensures SameRun(ProcessSales(movers, halfUnit, sales, v), ProcessSales(movers, halfUnit, sales, v.(lots := z)))
    ensures ProcessSales(movers, halfUnit, sales, v.(lots := z))
         == Added(v, ProcessSales(movers, halfUnit, sales, Start(z)))
  {
    FilterIdem(z);
    RunSkips(movers, halfUnit, sales, v, v.(lots := z));
    RunAdds(movers, halfUnit, sales, v.(lots := z));
  }

  lemma {:induction false} SecondWork(cfg: Config, fin: seq<FinTx>, s: State, d1: int, d2: int)
    requires InTwo(cfg, fin, s, d1, d2)
    ensures SameRun(WorkOf(cfg, fin, After1(cfg, fin, s, d1), d2), SecondFull(cfg, fin, s, d1, d2))
    ensures SecondFull(cfg, fin, s, d1, d2)
         == Added(Opening(After1(cfg, fin, s, d1).txs, d2).work, SecondSalesWork(cfg, fin, s, d1, d2))
  {
    var s1 := After1(cfg, fin, s, d1);
    SecondOpens(cfg, fin, s, d1, d2);
    RunMoversLawful(cfg, fin);
    RunOnOpen(RunMovers(cfg, fin), cfg.halfUnit, SortedSales(s1.txs, d2), Opening(s1.txs, d2).work,
              LotsThen(cfg, fin, s, d1, d2));
  }

  // ----- Every transaction comes out the same -----

  /** What two runs make of a transaction. */
  function Twice(cfg: Config, fin: seq<FinTx>, s: State, d1: int, d2: int, t: Tx): Tx
    requires Settle(cfg, fin, s.txs, d1).Ok? && Settle(cfg, fin, After1(cfg, fin, s, d1).txs, d2).Ok?
  {
    Lookup(WorkOf(cfg, fin, After1(cfg, fin, s, d1), d2).updates, Lookup(WorkOf(cfg, fin, s, d1).updates, t))
  }

  /** What the first run makes of a transaction is in the book after it. */
  lemma {:induction false} InBookAfter(cfg: Config, fin: seq<FinTx>, s: State, d1: int, t: Tx)
    requires Passes(cfg, fin, s, d1) && t in s.txs
    ensures Lookup(WorkOf(cfg, fin, s, d1).updates, t) in After1(cfg, fin, s, d1).txs
    ensures Evolves(t, Lookup(WorkOf(cfg, fin, s, d1).updates, t))
  {
    var olds := Apply(WorkOf(cfg, fin, s, d1).updates, s.txs);
    BookAfter(cfg, fin, s, d1);
    var i :| 0 <= i < |s.txs| && s.txs[i] == t;
    assert olds[i] == After1(cfg, fin, s, d1).txs[i];
    assert Evolves(s.txs[i], olds[i]);
  }

  /** A run leaves what it does not collect. */
  lemma {:induction false} Uncollected(cfg: Config, fin: seq<FinTx>, s: State, d: int, t: Tx)
    requires Passes(cfg, fin, s, d) && t in s.txs && (t.checked || t.date > d)
    ensures t.id !in WorkOf(cfg, fin, s, d).updates && t.id !in Opening(s.txs, d).work.updates
  {
    FilterSound(OpenPurchases(d), s.txs);
    FilterSound(OpenSales(d), s.txs);
    FilterSound(OpenNotes(d), s.txs);
    SettleOther(cfg, fin, s.txs, d, t);
    OpeningOther(s.txs, d, t);
  }

  lemma {:induction false} BetweenMember(cfg: Config, fin: seq<FinTx>, s: State, d1: int, d2: int, i: nat)
    requires Passes(cfg, fin, s, d1) && d1 <= d2 && i < |Lots(s.txs, d2)|
    ensures i < |LotsBetween(cfg, fin, s, d1, d2)| && LotsBetween(cfg, fin, s, d1, d2)[i] in After1(cfg, fin, s, d1).txs
    ensures LotsBetween(cfg, fin, s, d1, d2)[i].id == Lots(s.txs, d2)[i].id
  {
    var t := Lots(s.txs, d2)[i];
    BetweenIsApplied(cfg, fin, s, d1, d2);
    SortContents(Purchases(s.txs, d2));
    FilterSound(OpenPurchases(d2), s.txs);
    assert t in Lots(s.txs, d2);
    InBookAfter(cfg, fin, s, d1, t);
    EvolvesShape(t, Lookup(WorkOf(cfg, fin, s, d1).updates, t));
    assert Apply(WorkOf(cfg, fin, s, d1).updates, Lots(s.txs, d2))[i] == Lookup(WorkOf(cfg, fin, s, d1).updates, t);
  }

  lemma {:induction false} OpenBehind(xs: seq<Tx>, ys: seq<Tx>, i: nat)
    requires AllOpen(ys) && i < |xs + ys| && (xs + ys)[i].checked
    ensures i < |xs|
  {
    forall k | 0 <= k < |ys| ensures (xs + ys)[|xs| + k] == ys[k] {}
  }

  /** A sold-out lot is spared by the second run's notes. */
  lemma {:induction false} CheckedSpared(cfg: Config, fin: seq<FinTx>, s: State, d1: int, d2: int, i: nat)
    requires RunsSpare(cfg, fin, s, d1, d2) && i < |LotsBetween(cfg, fin, s, d1, d2)|
             && LotsBetween(cfg, fin, s, d1, d2)[i].checked
    ensures forall n :: n in NotesBy(After1(cfg, fin, s, d1).txs, d2) ==>
              n.code != LotsBetween(cfg, fin, s, d1, d2)[i].code
  {
    var a1, y1 := Opening(s.txs, d1).work.lots, WorkOf(cfg, fin, s, d1).lots;
    LaterOpen(s.txs, d1, d2);
    OpeningLots(s.txs, d1);
    RunMoversLawful(cfg, fin);
    ProcessLots(RunMovers(cfg, fin), cfg.halfUnit, SortedSales(s.txs, d1), Opening(s.txs, d1).work);
    RunFrame(RunMovers(cfg, fin), SortedSales(s.txs, d1), a1);
    OpenBehind(y1, Later(s.txs, d1, d2), i);
    assert SameLot(a1[i], y1[i]) && a1[i] != y1[i];
  }

  /** The second run's notes turn the lots between the runs into those its sales see. */
  lemma {:induction false} OpeningOnBetween(cfg: Config, fin: seq<FinTx>, s: State, d1: int, d2: int)
    requires InTwo(cfg, fin, s, d1, d2)
    ensures Apply(Opening(After1(cfg, fin, s, d1).txs, d2).work.updates, LotsBetween(cfg, fin, s, d1, d2))
         == LotsThen(cfg, fin, s, d1, d2)
  {
    var y, z := LotsBetween(cfg, fin, s, d1, d2), LotsThen(cfg, fin, s, d1, d2);
    var u := Opening(After1(cfg, fin, s, d1).txs, d2).work.updates;
    BetweenIsApplied(cfg, fin, s, d1, d2);
    forall i | 0 <= i < |y| ensures Lookup(u, y[i]) == z[i] {
      if y[i].checked {
        CheckedOnBetween(cfg, fin, s, d1, d2, i);
      } else {
        OpenOnBetween(cfg, fin, s, d1, d2, i);
      }
    }
  }

  lemma {:induction false} CheckedOnBetween(cfg: Config, fin: seq<FinTx>, s: State, d1: int, d2: int, i: nat)
    requires InTwo(cfg, fin, s, d1, d2) && i < |LotsBetween(cfg, fin, s, d1, d2)|
             && LotsBetween(cfg, fin, s, d1, d2)[i].checked
    ensures var y, s1 := LotsBetween(cfg, fin, s, d1, d2), After1(cfg, fin, s, d1);
            Lookup(Opening(s1.txs, d2).work.updates, y[i]) == Adjusted(NotesBy(s1.txs, d2), y[i])
  {
    var y, s1 := LotsBetween(cfg, fin, s, d1, d2), After1(cfg, fin, s, d1);
    assert y[i].id !in Opening(s1.txs, d2).work.updates by {
      BetweenIsApplied(cfg, fin, s, d1, d2);
      BetweenMember(cfg, fin, s, d1, d2, i);
      Uncollected(cfg, fin, s1, d2, y[i]);
    }
    CheckedSpared(cfg, fin, s, d1, d2, i);
    NotAdjusted(NotesBy(s1.txs, d2), y[i]);
  }

  lemma {:induction false} NotAdjusted(notes: seq<Tx>, t: Tx)
    requires forall n :: n in notes ==> n.code != t.code
    ensures Adjusted(notes, t) == t
  {
    SumZero(NoteFor(t.code), notes);
  }

  lemma {:induction false} OpenOnBetween(cfg: Config, fin: seq<FinTx>, s: State, d1: int, d2: int, i: nat)
    requires InTwo(cfg, fin, s, d1, d2) && i < |LotsBetween(cfg, fin, s, d1, d2)|
             && !LotsBetween(cfg, fin, s, d1, d2)[i].checked
    ensures var y, s1 := LotsBetween(cfg, fin, s, d1, d2), After1(cfg, fin, s, d1);
            Lookup(Opening(s1.txs, d2).work.updates, y[i]) == Adjusted(NotesBy(s1.txs, d2), y[i])
  {
    var y, s1 := LotsBetween(cfg, fin, s, d1, d2), After1(cfg, fin, s, d1);
    var ls := Lots(s1.txs, d2);
    OpeningForm(s1.txs, d2);
    OpeningStages(s1.txs, d2);
    SecondLots(cfg, fin, s, d1, d2);
    FilterSound(Unchecked, y);
    assert y[i] in ls;
    var k :| 0 <= k < |ls| && ls[k] == y[i];
    assert Apply(Opening(s1.txs, d2).work.updates, ls)[k] == AdjustAll(NotesBy(s1.txs, d2), ls)[k];
  }
}
