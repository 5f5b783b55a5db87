/** What a calculation reads of the Financial Book: the extras of the purchases it first draws on,
    and nothing else. */
module Extras {
  import opened Lists
  import opened Ledger
  import opened FifoOrder
  import opened Allocation
  import opened Settlement
  import opened Calculation
  import opened Books
  import opened Collected
  import opened Commitment
  import opened NoteForm
  import opened TwoRuns
  import opened Incremental
  import opened CostRuns

  // ----- Which documents are extras, in fields and days -----

  /** What a document adds to the cost of purchase `t`: an additional cost its amount, a credit its
      amount taken off; nothing if it is not checked, has another purchase code, is not within sixty
      days of the purchase, or is the purchase itself. */
  function DocumentAdds(f: FinTx, t: Tx): real {
    if !f.checked || f.code != t.code || f.date - t.date < -60 || f.date - t.date >= 60 then 0.0
    else if f.debitsGood && f.purchaseInvoice.Some? && f.purchaseInvoice != t.code then f.amount
    else if f.creditsGood && f.creditNote.Some? then 0.0 - f.amount
    else 0.0
  }

  /** A purchase with neither property takes in what each document adds; any other takes in nothing. */
  lemma {:induction false} CostAdds(fin: seq<FinTx>, f: FinTx, t: Tx)
    ensures UpdatedCost([], t) == Cost(t)
    ensures UpdatedCost(fin + [f], t)
         == UpdatedCost(fin, t) + if t.addCosts.None? && t.creditNote.None? then DocumentAdds(f, t) else 0.0
  {
    SumSnoc(AdditionalCost(t.date, t.code), fin, f);
    SumSnoc(CreditAmount(t.date, t.code), fin, f);
  }

  // ----- Books that agree on what is drawn on -----

  /** Two Financial Books hold the same additional costs and the same credits of a purchase. */
  ghost predicate ReadAlike(a: seq<FinTx>, b: seq<FinTx>, t: Tx) {
    && SumBy(AdditionalCost(t.date, t.code), a) == SumBy(AdditionalCost(t.date, t.code), b)
    && SumBy(CreditAmount(t.date, t.code), a) == SumBy(CreditAmount(t.date, t.code), b)
  }

  /** The two books agree on every lot that was untouched before and is marked after. */
  ghost predicate DrawnAlike(a: seq<FinTx>, b: seq<FinTx>, before: seq<Tx>, after: seq<Tx>) {
    && |before| == |after|
    && forall i :: 0 <= i < |before| && Untouched(before[i]) && !Untouched(after[i]) ==> ReadAlike(a, b, before[i])
  }

  // ----- One sale -----

  lemma {:induction false} MoveAlike(cfg: Config, a: seq<FinTx>, b: seq<FinTx>, sale: Tx, need: Quantity, lot: Tx)
    requires Untouched(lot) ==> ReadAlike(a, b, lot)
    ensures SaleMover(cfg, a, sale)(need, lot) == SaleMover(cfg, b, sale)(need, lot)
  {
    assert DueCosts(a, lot) == DueCosts(b, lot) && DueCredits(a, lot) == DueCredits(b, lot);
    assert MoveOn(cfg, a, sale, need, lot) == MoveOn(cfg, b, sale, need, lot);
  }

  lemma {:induction false} MoveTouches(cfg: Config, fin: seq<FinTx>, sale: Tx, need: Quantity, lot: Tx)
    ensures !Untouched(SaleMover(cfg, fin, sale)(need, lot).after)
  {}

  lemma {:induction false} DrawnAlikeTail(a: seq<FinTx>, b: seq<FinTx>, lot: Tx, lot': Tx, rest: seq<Tx>,
                                          rest': seq<Tx>)
    requires DrawnAlike(a, b, [lot] + rest, [lot'] + rest')
    ensures DrawnAlike(a, b, rest, rest') && (Untouched(lot) && !Untouched(lot') ==> ReadAlike(a, b, lot))
  {
    var before, after := [lot] + rest, [lot'] + rest';
    assert before[0] == lot && after[0] == lot';
    forall i | 0 <= i < |rest| && Untouched(rest[i]) && !Untouched(rest'[i]) ensures ReadAlike(a, b, rest[i]) {
      assert before[i + 1] == rest[i] && after[i + 1] == rest'[i];
    }
  }

  /** A draw is the same with either book when they agree on the lots it first draws on. */
  lemma {:induction false} TakeAlike(cfg: Config, a: seq<FinTx>, b: seq<FinTx>, sale: Tx, need: Quantity, lots: seq<Tx>)
    requires DrawnAlike(a, b, lots, Take(SaleMover(cfg, a, sale), need, lots).lots)
    ensures Take(SaleMover(cfg, a, sale), need, lots) == Take(SaleMover(cfg, b, sale), need, lots)
    decreases |lots|
  {
    if |lots| > 0 {
      var mover, lot, rest := SaleMover(cfg, a, sale), lots[0], lots[1..];
      assert lots == [lot] + rest;
      if lot.checked {
        DrawnAlikeTail(a, b, lot, lot, rest, Take(mover, need, rest).lots);
        TakeAlike(cfg, a, b, sale, need, rest);
      } else {
        var m := mover(need, lot);
        var rest' := if m.Sold().amount >= need then rest else Take(mover, need - m.Sold().amount, rest).lots;
        DrawnAlikeTail(a, b, lot, m.after, rest, rest');
        MoveTouches(cfg, a, sale, need, lot);
        MoveAlike(cfg, a, b, sale, need, lot);
        if m.Sold().amount < need { TakeAlike(cfg, a, b, sale, need - m.Sold().amount, rest); }
      }
    }
  }

  // ----- The sales of a run -----

  /** Marked lots stay marked, and what two books hold of a lot does not change. */
  predicate KeepsMark(x: Tx, y: Tx) { x.date == y.date && x.code == y.code && (!Untouched(x) ==> !Untouched(y)) }

  ghost predicate KeepsMarks(xs: seq<Tx>, ys: seq<Tx>) {
    |xs| == |ys| && forall i :: 0 <= i < |xs| ==> KeepsMark(xs[i], ys[i])
  }

  lemma {:induction false} DrawKeepsMarks(cfg: Config, fin: seq<FinTx>, sale: Tx, lots: seq<Tx>)
    ensures KeepsMarks(lots, DrawFor(RunMovers(cfg, fin), sale, lots).lots)
  {
    var mover := SaleMover(cfg, fin, sale);
    forall n: Quantity, lot: Tx | !lot.checked && lot in lots ensures KeepsMark(lot, mover(n, lot).after) {
      MoveTouches(cfg, fin, sale, n, lot);
      MoveOnFramed(cfg, fin, sale, n, lot);
    }
    TakeRelates(mover, sale.amount, lots, KeepsMark);
  }

  lemma {:induction false} RunKeepsMarks(cfg: Config, fin: seq<FinTx>, sales: seq<Tx>, lots: seq<Tx>)
    ensures KeepsMarks(lots, LotsAfter(RunMovers(cfg, fin), sales, lots))
    decreases |sales|
  {
    if |sales| > 0 {
      RunKeepsMarks(cfg, fin, sales[..|sales| - 1], lots);
      DrawKeepsMarks(cfg, fin, sales[|sales| - 1], LotsAfter(RunMovers(cfg, fin), sales[..|sales| - 1], lots));
    }
  }

  lemma {:induction false} DrawnBetween(a: seq<FinTx>, b: seq<FinTx>, xs: seq<Tx>, ys: seq<Tx>, zs: seq<Tx>)
    requires DrawnAlike(a, b, xs, zs) && KeepsMarks(xs, ys) && KeepsMarks(ys, zs)
    ensures DrawnAlike(a, b, xs, ys) && DrawnAlike(a, b, ys, zs)
  {
    forall i | 0 <= i < |xs| && Untouched(xs[i]) && !Untouched(ys[i]) ensures ReadAlike(a, b, xs[i]) {
      assert KeepsMark(ys[i], zs[i]);
    }
    forall i | 0 <= i < |xs| && Untouched(ys[i]) && !Untouched(zs[i]) ensures ReadAlike(a, b, ys[i]) {
      assert KeepsMark(xs[i], ys[i]);
    }
  }

  /** A run is the same with either book when they agree on the lots it first draws on. */
  lemma {:induction false} RunAlike(cfg: Config, a: seq<FinTx>, b: seq<FinTx>, sales: seq<Tx>, w: Work)
    requires DrawnAlike(a, b, w.lots, LotsAfter(RunMovers(cfg, a), sales, w.lots))
    ensures ProcessSales(RunMovers(cfg, a), cfg.halfUnit, sales, w)
         == ProcessSales(RunMovers(cfg, b), cfg.halfUnit, sales, w)
    decreases |sales|
  {
    if |sales| > 0 {
      var init, sale := sales[..|sales| - 1], sales[|sales| - 1];
      var mid := LotsAfter(RunMovers(cfg, a), init, w.lots);
      RunKeepsMarks(cfg, a, init, w.lots);
      DrawKeepsMarks(cfg, a, sale, mid);
      DrawnBetween(a, b, w.lots, mid, LotsAfter(RunMovers(cfg, a), sales, w.lots));
      RunAlike(cfg, a, b, init, w);
      ProcessLots(RunMovers(cfg, a), cfg.halfUnit, init, w);
      TakeAlike(cfg, a, b, sale, sale.amount, mid);
    }
  }

  // ----- A calculation -----

  /** The lots of a run are in the book after it. */
  lemma {:induction false} LotInBook(cfg: Config, fin: seq<FinTx>, g: State, c: int, i: nat)
    requires Passes(cfg, fin, g, c) && i < |WorkOf(cfg, fin, g, c).lots|
    ensures var t := WorkOf(cfg, fin, g, c).lots[i]; t in After1(cfg, fin, g, c).txs && PurchaseShape(t)
    ensures i < |Lots(g.txs, c)|
    ensures var x, t := Lots(g.txs, c)[i], WorkOf(cfg, fin, g, c).lots[i]; x in g.txs && x.id == t.id
  {
    var ls := Lots(g.txs, c);
    SettleLots(cfg, fin, g.txs, c);
    assert Apply(WorkOf(cfg, fin, g, c).updates, ls)[i] == WorkOf(cfg, fin, g, c).lots[i];
    SortContents(Purchases(g.txs, c));
    CollectedShapes(g.txs, c);
    FilterSound(OpenPurchases(c), g.txs);
    assert ls[i] in ls;
    InBookAfter(cfg, fin, g, c, ls[i]);
    EvolvesShape(ls[i], WorkOf(cfg, fin, g, c).lots[i]);
  }

  /** The two books hold the same extras of every purchase that a calculation first draws on. */
  ghost predicate SameExtras(cfg: Config, a: seq<FinTx>, b: seq<FinTx>, s: State, d: int) {
    forall x :: FirstTouched(s.txs, Calculate(cfg, a, s, d).1.txs, x) ==> ReadAlike(a, b, x)
  }

  lemma {:induction false} LotsAlike(cfg: Config, a: seq<FinTx>, b: seq<FinTx>, s: State, d: int)
    requires Passes(cfg, a, s, d)
    requires forall x :: FirstTouched(s.txs, After1(cfg, a, s, d).txs, x) ==> ReadAlike(a, b, x)
    ensures DrawnAlike(a, b, Opening(s.txs, d).work.lots, WorkOf(cfg, a, s, d).lots)
  {
    var before, after, ls := Opening(s.txs, d).work.lots, WorkOf(cfg, a, s, d).lots, Lots(s.txs, d);
    OpeningForm(s.txs, d);
    ProcessLots(RunMovers(cfg, a), cfg.halfUnit, SortedSales(s.txs, d), Opening(s.txs, d).work);
    RunKeepsMarks(cfg, a, SortedSales(s.txs, d), before);
    CollectedShapes(s.txs, d);
    SortContents(Purchases(s.txs, d));
    forall i | 0 <= i < |before| && Untouched(before[i]) && !Untouched(after[i]) ensures ReadAlike(a, b, before[i]) {
      LotInBook(cfg, a, s, d, i);
      assert ls[i] in ls && before[i] == Adjusted(NotesBy(s.txs, d), ls[i]);
      assert FirstTouched(s.txs, After1(cfg, a, s, d).txs, ls[i]);
    }
  }

  /** A calculation that goes through comes out the same with every book that holds the same extras
      of the purchases it first draws on. */
  lemma {:induction false} CalculateAlike(cfg: Config, a: seq<FinTx>, b: seq<FinTx>, s: State, d: int)
    requires Valid(s) && CodesApart(s.txs) && cfg.halfUnit > 0.0
    requires Calculate(cfg, a, s, d).0.Calculated? && SameExtras(cfg, a, b, s, d)
    ensures Calculate(cfg, b, s, d) == Calculate(cfg, a, s, d)
  {
    SettledAlike(cfg, a, b, s, d);
  }

  lemma {:induction false} SettledAlike(cfg: Config, a: seq<FinTx>, b: seq<FinTx>, s: State, d: int)
    requires Valid(s) && CodesApart(s.txs) && cfg.halfUnit > 0.0
    requires Calculate(cfg, a, s, d).0.Calculated? && SameExtras(cfg, a, b, s, d)
    ensures Settle(cfg, b, s.txs, d) == Settle(cfg, a, s.txs, d)
  {
    LotsAlike(cfg, a, b, s, d);
    ProcessLots(RunMovers(cfg, a), cfg.halfUnit, SortedSales(s.txs, d), Opening(s.txs, d).work);
    RunAlike(cfg, a, b, SortedSales(s.txs, d), Opening(s.txs, d).work);
  }
}
