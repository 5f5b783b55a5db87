/** The sales of one run, each drawing in turn on the lots the previous ones left. */
module Settlement {
  import opened Lists
  import opened Ledger
  import opened Allocation

  /** The working copies and staged writes of a run: the lots, the transactions to update by
      id, the splits and COGS postings to create, and the sales processed so far. */
  datatype Work = Work(lots: seq<Tx>, updates: map<nat, Tx>, created: seq<Tx>, cogs: seq<Cogs>, done: seq<Tx>)

  function Stage(u: map<nat, Tx>, moves: seq<Move>): map<nat, Tx> {
    if |moves| == 0 then u
    else Stage(u, moves[..|moves| - 1])[moves[|moves| - 1].after.id := moves[|moves| - 1].after]
  }

  predicate RoundsToZero(halfUnit: real, left: real) { -halfUnit < left < halfUnit }

  /** The sale after its draw: checked with its cost and log when it was filled. */
  function Settled(halfUnit: real, sale: Tx, d: Draw): Tx {
    if RoundsToZero(halfUnit, d.left) && |d.moves| > 0 then
      sale.(totalCost := Some(MovedCost(d.moves)), purchaseLog := Some(Entries(d.moves)), checked := true)
    else sale
  }

  function CogsOf(sale: Tx, d: Draw): Cogs { Cogs(sale.id, sale.date, MovedCost(d.moves), sale.amount) }

  /** How each sale of the run draws on a lot. */
  type Movers = Tx -> Mover

  function RunMovers(cfg: Config, fin: seq<FinTx>): Movers { (sale: Tx) => SaleMover(cfg, fin, sale) }

  ghost predicate AllLawful(movers: Movers) { forall sale :: Lawful(movers(sale)) }
  ghost predicate AllFramed(movers: Movers) { forall sale :: Framed(movers(sale)) }

  lemma {:induction false} RunMoversLawful(cfg: Config, fin: seq<FinTx>)
    ensures AllLawful(RunMovers(cfg, fin)) && AllFramed(RunMovers(cfg, fin))
  {
    forall sale ensures Lawful(RunMovers(cfg, fin)(sale)) && Framed(RunMovers(cfg, fin)(sale)) {
      SaleMoverLawful(cfg, fin, sale);
      SaleMoverFramed(cfg, fin, sale);
    }
  }

  function DrawFor(movers: Movers, sale: Tx, lots: seq<Tx>): Draw { Take(movers(sale), sale.amount, lots) }

  function ProcessSale(movers: Movers, halfUnit: real, sale: Tx, w: Work): Work {
    var d := DrawFor(movers, sale, w.lots);
    var u := Stage(w.updates, d.moves);
    var done := Settled(halfUnit, sale, d);
    Work(d.lots, if RoundsToZero(halfUnit, d.left) then u[sale.id := done] else u,
         w.created + Pieces(d.moves), w.cogs + [CogsOf(sale, d)], w.done + [done])
  }

  function ProcessSales(movers: Movers, halfUnit: real, sales: seq<Tx>, w: Work): Work
    decreases |sales|
  {
    if |sales| == 0 then w
    else ProcessSale(movers, halfUnit, sales[|sales| - 1], ProcessSales(movers, halfUnit, sales[..|sales| - 1], w))
  }

  /** The lots as the sales leave them. */
  function LotsAfter(movers: Movers, sales: seq<Tx>, lots: seq<Tx>): seq<Tx>
    decreases |sales|
  {
    if |sales| == 0 then lots
    else DrawFor(movers, sales[|sales| - 1], LotsAfter(movers, sales[..|sales| - 1], lots)).lots
  }

  lemma {:induction false} ProcessSnoc(movers: Movers, halfUnit: real, sales: seq<Tx>, sale: Tx, w: Work)
    ensures ProcessSales(movers, halfUnit, sales + [sale], w)
         == ProcessSale(movers, halfUnit, sale, ProcessSales(movers, halfUnit, sales, w))
    ensures LotsAfter(movers, sales + [sale], w.lots) == DrawFor(movers, sale, LotsAfter(movers, sales, w.lots)).lots
  {
    assert (sales + [sale])[..|sales|] == sales;
  }

  lemma {:induction false} ProcessLots(movers: Movers, halfUnit: real, sales: seq<Tx>, w: Work)
    ensures ProcessSales(movers, halfUnit, sales, w).lots == LotsAfter(movers, sales, w.lots)
    decreases |sales|
  {
    if |sales| > 0 {
      ProcessLots(movers, halfUnit, sales[..|sales| - 1], w);
    }
  }

  lemma {:induction false} ProcessAppend(movers: Movers, halfUnit: real, xs: seq<Tx>, ys: seq<Tx>, w: Work)
    ensures ProcessSales(movers, halfUnit, xs + ys, w)
         == ProcessSales(movers, halfUnit, ys, ProcessSales(movers, halfUnit, xs, w))
    decreases |ys|
  {
    if |ys| == 0 {
      assert xs + ys == xs;
    } else {
      var init, y := ys[..|ys| - 1], ys[|ys| - 1];
      assert xs + ys == (xs + init) + [y];
      ProcessAppend(movers, halfUnit, xs, init, w);
      ProcessSnoc(movers, halfUnit, xs + init, y, w);
    }
  }

  lemma {:induction false} SameLotsTransitive(a: seq<Tx>, b: seq<Tx>, c: seq<Tx>)
    requires SameLots(a, b) && SameLots(b, c)
    ensures SameLots(a, c)
  {}

  lemma {:induction false} RunFrame(movers: Movers, sales: seq<Tx>, lots: seq<Tx>)
    requires AllLawful(movers) && AllFramed(movers)
    ensures SameLots(lots, LotsAfter(movers, sales, lots))
    ensures Ready(lots) ==> Ready(LotsAfter(movers, sales, lots))
    decreases |sales|
  {
    if |sales| > 0 {
      var init, sale := sales[..|sales| - 1], sales[|sales| - 1];
      RunFrame(movers, init, lots);
      assert Lawful(movers(sale)) && Framed(movers(sale));
      TakeFrame(movers(sale), sale.amount, LotsAfter(movers, init, lots));
      SameLotsTransitive(lots, LotsAfter(movers, init, lots), LotsAfter(movers, sales, lots));
    }
  }

  // ----- The run fills every sale exactly when the lots cover them -----

  lemma {:induction false} SumAmounts(xs: seq<Tx>)
    ensures SumBy(AmountOf, xs) >= 0.0 && SumBy(OpenQuantity, xs) >= 0.0
  {
    SumNonNeg(AmountOf, xs);
    SumNonNeg(OpenQuantity, xs);
  }

  /** The lots shrink by what the sales take: all they ask for, or all there is. */
  lemma {:induction false} RunOpen(movers: Movers, sales: seq<Tx>, lots: seq<Tx>)
    requires AllLawful(movers)
    ensures SumBy(OpenQuantity, LotsAfter(movers, sales, lots))
         == if SumBy(AmountOf, sales) <= SumBy(OpenQuantity, lots) then
           SumBy(OpenQuantity, lots) - SumBy(AmountOf, sales) else 0.0
    decreases |sales|
  {
    SumAmounts(lots);
    if |sales| > 0 {
      var init, sale := sales[..|sales| - 1], sales[|sales| - 1];
      RunOpen(movers, init, lots);
      assert Lawful(movers(sale));
      TakeFills(movers(sale), sale.amount, LotsAfter(movers, init, lots));
    }
  }

  /** Sale `k` takes all it needs. */
  ghost predicate Filled(movers: Movers, sales: seq<Tx>, lots: seq<Tx>, k: nat)
    requires k < |sales|
  {
    DrawFor(movers, sales[k], LotsAfter(movers, sales[..k], lots)).left == 0.0
  }

  lemma {:induction false} PrefixSums(sales: seq<Tx>, k: nat)
    requires k < |sales|
    ensures SumBy(AmountOf, sales[..k]) + sales[k].amount == SumBy(AmountOf, sales[..k + 1]) <= SumBy(AmountOf, sales)
  {
    assert sales[..k + 1] == sales[..k] + [sales[k]];
    SumSnoc(AmountOf, sales[..k], sales[k]);
    assert sales == sales[..k + 1] + sales[k + 1..];
    SumAppend(AmountOf, sales[..k + 1], sales[k + 1..]);
    SumAmounts(sales[k + 1..]);
  }

  /** Guard sufficiency and necessity: all the sales are filled exactly when the open lots
      hold at least what the sales ask for in total. */
  lemma {:induction false} AllFilledIff(movers: Movers, sales: seq<Tx>, lots: seq<Tx>)
    requires AllLawful(movers)
    ensures (forall k :: 0 <= k < |sales| ==> Filled(movers, sales, lots, k))
       <==> SumBy(AmountOf, sales) <= SumBy(OpenQuantity, lots)
  {
    if SumBy(AmountOf, sales) <= SumBy(OpenQuantity, lots) {
      forall k | 0 <= k < |sales| ensures Filled(movers, sales, lots, k) {
        PrefixSums(sales, k);
        RunOpen(movers, sales[..k], lots);
        assert Lawful(movers(sales[k]));
        TakeFills(movers(sales[k]), sales[k].amount, LotsAfter(movers, sales[..k], lots));
      }
    }
    if forall k :: 0 <= k < |sales| ==> Filled(movers, sales, lots, k) {
      FilledCovers(movers, sales, lots);
    }
  }

  lemma {:induction false} FilledCovers(movers: Movers, sales: seq<Tx>, lots: seq<Tx>)
    requires AllLawful(movers)
    requires forall k :: 0 <= k < |sales| ==> Filled(movers, sales, lots, k)
    ensures SumBy(AmountOf, sales) <= SumBy(OpenQuantity, lots)
    decreases |sales|
  {
    SumAmounts(lots);
    if |sales| > 0 {
      var init, sale := sales[..|sales| - 1], sales[|sales| - 1];
      assert Filled(movers, sales, lots, |init|);
      FilledInit(movers, sales, init, lots);
      FilledCovers(movers, init, lots);
      LastFilled(movers, init, sale, lots);
    }
  }

  lemma {:induction false} FilledInit(movers: Movers, sales: seq<Tx>, init: seq<Tx>, lots: seq<Tx>)
    requires init <= sales && forall k :: 0 <= k < |sales| ==> Filled(movers, sales, lots, k)
    ensures forall k :: 0 <= k < |init| ==> Filled(movers, init, lots, k)
  {
    forall k | 0 <= k < |init| ensures Filled(movers, init, lots, k) {
      assert Filled(movers, sales, lots, k);
      assert init[..k] == sales[..k];
    }
  }

  lemma {:induction false} LastFilled(movers: Movers, init: seq<Tx>, sale: Tx, lots: seq<Tx>)
    requires AllLawful(movers) && SumBy(AmountOf, init) <= SumBy(OpenQuantity, lots)
    requires DrawFor(movers, sale, LotsAfter(movers, init, lots)).left == 0.0
    ensures SumBy(AmountOf, init) + sale.amount <= SumBy(OpenQuantity, lots)
  {
    RunOpen(movers, init, lots);
    assert Lawful(movers(sale));
    TakeFills(movers(sale), sale.amount, LotsAfter(movers, init, lots));
  }
}
