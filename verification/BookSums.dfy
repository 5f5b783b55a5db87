/** Sums over the whole book: a weight that every single step of a calculation only moves
    around has the same total before and after it. */
module BookSums {
  import opened Lists
  import opened Ledger
  import opened FifoOrder
  import opened Allocation
  import opened Settlement
  import opened Calculation
  import opened Books
  import opened Collected
  import opened Commitment

  function Diff(f: Tx -> real, u: map<nat, Tx>): Tx -> real { (t: Tx) => f(Lookup(u, t)) - f(t) }

  lemma {:induction false} SumApply(f: Tx -> real, u: map<nat, Tx>, xs: seq<Tx>)
    ensures SumBy(f, Apply(u, xs)) == SumBy(f, xs) + SumBy(Diff(f, u), xs)
  {
    if |xs| > 0 {
      var n := |xs| - 1;
      SumApply(f, u, xs[..n]);
      assert Apply(u, xs)[..n] == Apply(u, xs[..n]);
    }
  }

  /** A weight carried only by collected transactions. */
  lemma {:induction false} SumByKind(g: Tx -> real, txs: seq<Tx>, d: int)
    requires forall t :: t in txs && !OpenPurchases(d)(t) && !OpenSales(d)(t) && !OpenNotes(d)(t) ==> g(t) == 0.0
    ensures SumBy(g, txs) == SumBy(g, Purchases(txs, d)) + SumBy(g, Sales(txs, d)) + SumBy(g, Notes(txs, d))
  {
    if |txs| > 0 {
      var init, x := txs[..|txs| - 1], txs[|txs| - 1];
      assert txs == init + [x];
      SumByKind(g, init, d);
      FilterSnoc(OpenPurchases(d), init, x);
      FilterSnoc(OpenSales(d), init, x);
      FilterSnoc(OpenNotes(d), init, x);
      if OpenPurchases(d)(x) {
        SumSnoc(g, Purchases(init, d), x);
      } else if OpenSales(d)(x) {
        SumSnoc(g, Sales(init, d), x);
      } else if OpenNotes(d)(x) {
        SumSnoc(g, Notes(init, d), x);
      }
    }
  }

  /** A weight that does not see the id or remote id of a split. */
  ghost predicate IgnoresIds(f: Tx -> real) {
    forall t: Tx, id: nat, remote: RemoteId :: t.parent.Some? ==> f(t.(id := id, remote := remote)) == f(t)
  }

  lemma {:induction false} PostedSum(f: Tx -> real, created: seq<Tx>, s: State)
    requires AllSplits(created) && IgnoresIds(f)
    ensures SumBy(f, Posted(created, s)) == SumBy(f, created)
  {
    UuidsKeep(created, s.nextUuid);
    PointwiseSum(f, Posted(created, s), created);
  }

  lemma {:induction false} PointwiseSum(f: Tx -> real, xs: seq<Tx>, ys: seq<Tx>)
    requires |xs| == |ys| && forall i :: 0 <= i < |xs| ==>
               ys[i].parent.Some? && xs[i] == ys[i].(id := xs[i].id, remote := xs[i].remote)
    requires IgnoresIds(f)
    ensures SumBy(f, xs) == SumBy(f, ys)
  {
    if |xs| > 0 {
      PointwiseSum(f, xs[..|xs| - 1], ys[..|ys| - 1]);
    }
  }

  /** The change of any sum over the book: the change over the lots, the sales and the notes,
      and the new splits. */
  lemma {:induction false} BookTransfer(cfg: Config, fin: seq<FinTx>, s: State, d: int, f: Tx -> real)
    requires Valid(s) && CodesApart(s.txs) && Settle(cfg, fin, s.txs, d).Ok? && IgnoresIds(f)
    requires forall t: Tx :: NoteShape(t) ==> f(t.(checked := true)) == f(t)
    ensures var w := Settle(cfg, fin, s.txs, d).work;
            var after := SumBy(f, s.txs) + (SumBy(f, w.lots) - SumBy(f, Lots(s.txs, d)))
                         + (SumBy(f, w.done) - SumBy(f, SortedSales(s.txs, d))) + SumBy(f, w.created);
            SumBy(f, Commit(s, w, SortedSales(s.txs, d)).txs) == after
  {
    var w := Settle(cfg, fin, s.txs, d).work;
    var g := Diff(f, w.updates);
    CommitBook(cfg, fin, s, d);
    SettleCreates(cfg, fin, s.txs, d);
    SumAppend(f, Apply(w.updates, s.txs), Posted(w.created, s));
    PostedSum(f, w.created, s);
    SumApply(f, w.updates, s.txs);
    OtherUnchanged(cfg, fin, s, d, f);
    SumByKind(g, s.txs, d);
    SumZero(g, Notes(s.txs, d));
    SettleLots(cfg, fin, s.txs, d);
    SumApply(f, w.updates, Lots(s.txs, d));
    SortSum(g, Purchases(s.txs, d));
    SettleSales(cfg, fin, s.txs, d);
    SumApply(f, w.updates, SortedSales(s.txs, d));
    SortSum(g, Sales(s.txs, d));
  }

  lemma {:induction false} OtherUnchanged(cfg: Config, fin: seq<FinTx>, s: State, d: int, f: Tx -> real)
    requires Valid(s) && CodesApart(s.txs) && Settle(cfg, fin, s.txs, d).Ok?
    requires forall t: Tx :: NoteShape(t) ==> f(t.(checked := true)) == f(t)
    ensures var g := Diff(f, Settle(cfg, fin, s.txs, d).work.updates);
            && (forall t :: t in s.txs && !OpenPurchases(d)(t) && !OpenSales(d)(t) && !OpenNotes(d)(t) ==> g(t) == 0.0)
            && (forall t :: t in Notes(s.txs, d) ==> g(t) == 0.0)
  {
    var u := Settle(cfg, fin, s.txs, d).work.updates;
    CollectedShapes(s.txs, d);
    FilterSound(OpenPurchases(d), s.txs);
    FilterSound(OpenSales(d), s.txs);
    FilterSound(OpenNotes(d), s.txs);
    forall t | t in s.txs && !OpenPurchases(d)(t) && !OpenSales(d)(t) && !OpenNotes(d)(t) ensures Lookup(u, t) == t {
      SettleOther(cfg, fin, s.txs, d, t);
    }
    forall t | t in Notes(s.txs, d) ensures f(Lookup(u, t)) == f(t) {
      SettleOther(cfg, fin, s.txs, d, t);
    }
  }

  /** A weight that a draw only moves from a lot to its split. */
  ghost predicate DrawExchanges(cfg: Config, fin: seq<FinTx>, f: Tx -> real) {
    forall sale: Tx, need: Quantity, lot: Tx {:trigger MoveOn(cfg, fin, sale, need, lot)} ::
      PurchaseShape(lot) && !lot.checked ==>
      Change(f)(MoveOn(cfg, fin, sale, need, lot)) + PieceWeight(f)(MoveOn(cfg, fin, sale, need, lot)) == 0.0
  }

  function Nothing(m: Move): real { 0.0 }

  lemma {:induction false} DrawConserves(cfg: Config, fin: seq<FinTx>, sale: Tx, lots: seq<Tx>, f: Tx -> real)
    requires PurchaseLots(lots) && DrawExchanges(cfg, fin, f)
    ensures var d := DrawFor(RunMovers(cfg, fin), sale, lots);
            SumBy(f, d.lots) + SumBy(f, Pieces(d.moves)) == SumBy(f, lots)
  {
    var mover := SaleMover(cfg, fin, sale);
    SaleMoverLawful(cfg, fin, sale);
    TakeExchange(mover, sale.amount, lots, f, Nothing);
    SumZero(Nothing, Take(mover, sale.amount, lots).moves);
  }

  lemma {:induction false} RunConserves(cfg: Config, fin: seq<FinTx>, sales: seq<Tx>, w: Work, f: Tx -> real)
    requires PurchaseLots(w.lots) && DrawExchanges(cfg, fin, f)
    ensures var v := ProcessSales(RunMovers(cfg, fin), cfg.halfUnit, sales, w);
            SumBy(f, v.lots) + SumBy(f, v.created) == SumBy(f, w.lots) + SumBy(f, w.created)
    decreases |sales|
  {
    if |sales| > 0 {
      var movers, init, sale := RunMovers(cfg, fin), sales[..|sales| - 1], sales[|sales| - 1];
      RunConserves(cfg, fin, init, w, f);
      var v := ProcessSales(movers, cfg.halfUnit, init, w);
      ProcessLots(movers, cfg.halfUnit, init, w);
      RunEvolves(cfg, fin, init, w.lots);
      AllEvolveShape(w.lots, v.lots);
      DrawConserves(cfg, fin, sale, v.lots, f);
      SumAppend(f, v.created, Pieces(DrawFor(movers, sale, v.lots).moves));
    }
  }

  /** Over a whole calculation, lots and splits keep any weight that notes and draws only move. */
  lemma {:induction false} SettleConserves(cfg: Config, fin: seq<FinTx>, txs: seq<Tx>, d: int, f: Tx -> real)
    requires Sound(txs) && Settle(cfg, fin, txs, d).Ok? && NoteExchanges(f) && DrawExchanges(cfg, fin, f)
    ensures var w := Settle(cfg, fin, txs, d).work; SumBy(f, w.lots) + SumBy(f, w.created) == SumBy(f, Lots(txs, d))
  {
    LotsAreThePurchases(txs, d);
    MembersShapes(txs, d);
    var ps := Purchases(txs, d);
    NotesExchange(NotesBy(txs, d), Start(ps), f);
    SortSum(f, ps);
    SortSum(f, ApplyNotes(NotesBy(txs, d), Start(ps)).work.lots);
    OpeningStages(txs, d);
    RunConserves(cfg, fin, SortedSales(txs, d), Opening(txs, d).work, f);
  }

  /** A sale keeps this weight when it is settled. */
  ghost predicate SalesKeep(f: Tx -> real) {
    forall t: Tx, cost: real, log: seq<Entry> :: SaleShape(t) ==>
      f(t.(totalCost := Some(cost), purchaseLog := Some(log), checked := true)) == f(t)
  }

  lemma {:induction false} RunSalesKeep(movers: Movers, halfUnit: real, sales: seq<Tx>, w: Work, f: Tx -> real)
    requires SalesKeep(f) && w.done == [] && forall k :: 0 <= k < |sales| ==> SaleShape(sales[k])
    ensures SumBy(f, ProcessSales(movers, halfUnit, sales, w).done) == SumBy(f, sales)
    decreases |sales|
  {
    if |sales| > 0 {
      var init, sale := sales[..|sales| - 1], sales[|sales| - 1];
      RunSalesKeep(movers, halfUnit, init, w, f);
      var v := ProcessSales(movers, halfUnit, init, w);
      SumSnoc(f, v.done, Settled(halfUnit, sale, DrawFor(movers, sale, v.lots)));
    }
  }

  /** A weight that notes, draws and settling only move around has the same total over the book
      before and after a calculation. */
  lemma {:induction false} BookConserves(cfg: Config, fin: seq<FinTx>, s: State, d: int, f: Tx -> real)
    requires Valid(s) && CodesApart(s.txs) && Settle(cfg, fin, s.txs, d).Ok?
    requires IgnoresIds(f) && NoteExchanges(f) && DrawExchanges(cfg, fin, f) && SalesKeep(f)
    requires forall t: Tx :: NoteShape(t) ==> f(t.(checked := true)) == f(t)
    ensures SumBy(f, Commit(s, Settle(cfg, fin, s.txs, d).work, SortedSales(s.txs, d)).txs) == SumBy(f, s.txs)
  {
    BookTransfer(cfg, fin, s, d, f);
    SettleConserves(cfg, fin, s.txs, d, f);
    OpeningStages(s.txs, d);
    KindsApart(s.txs, d);
    CollectedShapes(s.txs, d);
    RunSalesKeep(RunMovers(cfg, fin), cfg.halfUnit, SortedSales(s.txs, d), Opening(s.txs, d).work, f);
  }
}
