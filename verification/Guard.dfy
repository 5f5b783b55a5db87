/** The quantity guard of a calculation: what it is enough for, and what it misses. */
module Guard {
  import opened Lists
  import opened Ledger
  import opened FifoOrder
  import opened Allocation
  import opened Settlement
  import opened Calculation
  import opened Books
  import opened Intervals
  import opened Collected
  import opened Commitment
  import opened NoteForm

  /** Sale `k` of a run comes out as its draw says. */
  ghost predicate ResultAt(movers: Movers, halfUnit: real, sales: seq<Tx>, lots: seq<Tx>, k: nat, done: Tx, cogs: Cogs)
    requires k < |sales|
  {
    done == Settled(halfUnit, sales[k], DrawOf(movers, sales, lots, k))
      && cogs == CogsOf(sales[k], DrawOf(movers, sales, lots, k))
  }

  lemma {:induction false} RunLast(movers: Movers, halfUnit: real, sales: seq<Tx>, w: Work)
    requires |sales| > 0
    ensures var n := |sales| - 1;
            var v, v' := ProcessSales(movers, halfUnit, sales[..n], w), ProcessSales(movers, halfUnit, sales, w);
            && v'.done == v.done + [Settled(halfUnit, sales[n], DrawOf(movers, sales, w.lots, n))]
            && v'.cogs == v.cogs + [CogsOf(sales[n], DrawOf(movers, sales, w.lots, n))]
  {
    ProcessLots(movers, halfUnit, sales[..|sales| - 1], w);
  }

  lemma {:induction false} ResultKept(movers: Movers, halfUnit: real, sales: seq<Tx>, lots: seq<Tx>, k: nat, done: Tx,
                                      cogs: Cogs)
    requires k < |sales| - 1 && ResultAt(movers, halfUnit, sales[..|sales| - 1], lots, k, done, cogs)
    ensures ResultAt(movers, halfUnit, sales, lots, k, done, cogs)
  {
    assert sales[..|sales| - 1][..k] == sales[..k];
  }

  /** The results of a run, sale by sale. */
  lemma {:induction false} RunResults(movers: Movers, halfUnit: real, sales: seq<Tx>, w: Work)
    requires w.done == [] && w.cogs == []
    ensures var v := ProcessSales(movers, halfUnit, sales, w);
            && |v.done| == |v.cogs| == |sales|
            && forall k :: 0 <= k < |sales| ==> ResultAt(movers, halfUnit, sales, w.lots, k, v.done[k], v.cogs[k])
    decreases |sales|
  {
    if |sales| > 0 {
      var n := |sales| - 1;
      var init := sales[..n];
      RunResults(movers, halfUnit, init, w);
      RunLast(movers, halfUnit, sales, w);
      var v, v' := ProcessSales(movers, halfUnit, init, w), ProcessSales(movers, halfUnit, sales, w);
      forall k | 0 <= k < |sales| ensures ResultAt(movers, halfUnit, sales, w.lots, k, v'.done[k], v'.cogs[k]) {
        if k < n { ResultKept(movers, halfUnit, sales, w.lots, k, v.done[k], v.cogs[k]); }
      }
    }
  }

  /** The guard and the credit-note loop leave at least what the sales ask for. */
  lemma {:induction false} GuardCovers(txs: seq<Tx>, d: int)
    requires Sound(txs) && Opening(txs, d).Ok? && SalesTotal(txs, d) <= PurchasesTotal(txs, d)
    ensures SumBy(AmountOf, SortedSales(txs, d)) <= SumBy(OpenQuantity, Opening(txs, d).work.lots)
  {
    LotsAreThePurchases(txs, d);
    MembersShapes(txs, d);
    var ps, ns := Purchases(txs, d), Notes(txs, d);
    NotesTake(NotesBy(txs, d), Start(ps));
    KeyedSum(NumberOf, ns, AmountOf);
    SortSum(OpenQuantity, ApplyNotes(NotesBy(txs, d), Start(ps)).work.lots);
    SortSum(AmountOf, Sales(txs, d));
    CollectedShapes(txs, d);
    SumCong(OpenQuantity, AmountOf, ps);
  }

  /** A filled sale is checked with a log and costs what its one posting says. */
  ghost predicate Complete(sale: Tx, done: Tx, cogs: Cogs) {
    && done.id == sale.id && done.checked && done.totalCost.Some?
    && cogs == Cogs(sale.id, sale.date, done.totalCost.value, sale.amount)
    && done.purchaseLog.Some? && |done.purchaseLog.value| > 0
  }

  lemma {:induction false} FilledComplete(movers: Movers, halfUnit: real, sales: seq<Tx>, lots: seq<Tx>, k: nat,
                                          done: Tx, cogs: Cogs)
    requires AllLawful(movers) && k < |sales| && halfUnit > 0.0 && sales[k].amount > 0.0
    requires Filled(movers, sales, lots, k) && ResultAt(movers, halfUnit, sales, lots, k, done, cogs)
    ensures Complete(sales[k], done, cogs)
  {
    assert Lawful(movers(sales[k]));
    TakeFills(movers(sales[k]), sales[k].amount, LotsAfter(movers, sales[..k], lots));
    EntriesSum(DrawOf(movers, sales, lots, k).moves, e => 0.0);
  }

  /** Guard sufficiency: with distinct purchase codes, a run that passes the guard and the
      credit notes fills every collected sale, checks it with its log, and stages exactly one
      COGS posting for it, of the sale's own cost. */
  lemma {:induction false} GuardSuffices(cfg: Config, fin: seq<FinTx>, txs: seq<Tx>, d: int)
    requires Sound(txs) && Settle(cfg, fin, txs, d).Ok? && SalesTotal(txs, d) <= PurchasesTotal(txs, d)
             && cfg.halfUnit > 0.0
    ensures var w, sales := Settle(cfg, fin, txs, d).work, SortedSales(txs, d);
            && |w.done| == |w.cogs| == |sales|
            && forall k :: 0 <= k < |sales| ==> Complete(sales[k], w.done[k], w.cogs[k])
  {
    var movers, sales, v, w := RunMovers(cfg, fin), SortedSales(txs, d), Opening(txs, d).work,
      Settle(cfg, fin, txs, d).work;
    GuardCovers(txs, d);
    RunMoversLawful(cfg, fin);
    OpeningStages(txs, d);
    AllFilledIff(movers, sales, v.lots);
    RunResults(movers, cfg.halfUnit, sales, v);
    KindsApart(txs, d);
    CollectedShapes(txs, d);
    forall k | 0 <= k < |sales| ensures Complete(sales[k], w.done[k], w.cogs[k]) {
      assert sales[k] in Sales(txs, d);
      FilledComplete(movers, cfg.halfUnit, sales, v.lots, k, w.done[k], w.cogs[k]);
    }
  }

  // ----- Whatever the purchase codes -----

  /** What the kept lots hold, one per purchase code, less the kept notes, one per number, that
      find their lot. */
  function KeptQuantity(txs: seq<Tx>, d: int): real {
    SumBy(AmountOf, LotsBy(txs, d)) - SumBy(AmountOf, Filter(MatchedIn(LotsBy(txs, d)), NotesBy(txs, d)))
  }

  lemma {:induction false} KeptLots(txs: seq<Tx>, d: int)
    requires AllWellFormed(txs)
    ensures OpenRoots(LotsBy(txs, d)) && Positive(LotsBy(txs, d))
  {
    var ls := LotsBy(txs, d);
    KeyedKeys(CodeOf, Purchases(txs, d));
    CollectedShapes(txs, d);
    forall i | 0 <= i < |ls| ensures ls[i].parent.None? && !ls[i].checked && ls[i].amount > 0.0 { assert ls[i] in ls; }
  }

  /** The lots a run opens with hold that quantity. */
  lemma {:induction false} OpeningHolds(txs: seq<Tx>, d: int)
    requires AllWellFormed(txs) && Opening(txs, d).Ok?
    ensures SumBy(OpenQuantity, Opening(txs, d).work.lots) == KeptQuantity(txs, d) && Ready(Opening(txs, d).work.lots)
    ensures Opening(txs, d).work.done == [] && Opening(txs, d).work.cogs == []
  {
    var ls, ns := LotsBy(txs, d), NotesBy(txs, d);
    var v := ApplyNotes(ns, Start(ls)).work;
    KeptLots(txs, d);
    NotesTakeExactly(ns, ls);
    NotesFrame(ns, Start(ls));
    SumCong(OpenQuantity, AmountOf, ls);
    SortSum(OpenQuantity, v.lots);
    PositiveSorted(v.lots);
  }

  lemma {:induction false} PositiveSorted(lots: seq<Tx>)
    requires Positive(lots)
    ensures Ready(Sort(lots))
  {
    SortContents(lots);
    var sorted := Sort(lots);
    forall i | 0 <= i < |sorted| ensures sorted[i].amount > 0.0 { assert sorted[i] in sorted; }
  }

  /** A draw on lots that hold nothing moves nothing. */
  lemma {:induction false} NothingMoved(mover: Mover, need: Quantity, lots: seq<Tx>)
    requires Ready(lots) && SumBy(OpenQuantity, lots) == 0.0
    ensures Take(mover, need, lots).moves == []
    decreases |lots|
  {
    if |lots| > 0 {
      SumNonNeg(OpenQuantity, lots);
      assert lots[0] in lots;
      assert lots == [lots[0]] + lots[1..];
      SumCons(OpenQuantity, lots[0], lots[1..]);
      NothingMoved(mover, need, lots[1..]);
    }
  }

  /** What is open before sale `k` of a run. */
  function OpenBefore(movers: Movers, sales: seq<Tx>, lots: seq<Tx>, k: nat): real
    requires k < |sales|
  {
    SumBy(OpenQuantity, LotsAfter(movers, sales[..k], lots))
  }

  /** A sale comes out checked if and only if something is open for it, and what it lacks rounds
      to nothing. */
  lemma {:induction false} CheckedIff(movers: Movers, halfUnit: real, sales: seq<Tx>, lots: seq<Tx>, k: nat, done: Tx,
                                      cogs: Cogs)
    requires AllLawful(movers) && AllFramed(movers) && Ready(lots) && k < |sales| && halfUnit > 0.0
    requires !sales[k].checked && sales[k].amount > 0.0 && ResultAt(movers, halfUnit, sales, lots, k, done, cogs)
    ensures var open := OpenBefore(movers, sales, lots, k);
            done.checked <==> open > 0.0 && sales[k].amount - open < halfUnit
  {
    var mover, mid := movers(sales[k]), LotsAfter(movers, sales[..k], lots);
    assert Lawful(mover);
    RunFrame(movers, sales[..k], lots);
    TakeFills(mover, sales[k].amount, mid);
    SumNonNeg(OpenQuantity, mid);
    if SumBy(OpenQuantity, mid) == 0.0 { NothingMoved(mover, sales[k].amount, mid); }
  }

  /** The lots left open after the sales before `k`. */
  lemma {:induction false} OpenLeft(movers: Movers, sales: seq<Tx>, lots: seq<Tx>, k: nat)
    requires AllLawful(movers) && k < |sales|
    ensures var sold := SumBy(AmountOf, sales[..k]);
            OpenBefore(movers, sales, lots, k) == if sold <= SumBy(OpenQuantity, lots) then
              SumBy(OpenQuantity, lots) - sold else 0.0
    ensures SumBy(AmountOf, sales[..k]) + sales[k].amount <= SumBy(AmountOf, sales)
    ensures k == |sales| - 1 ==> SumBy(AmountOf, sales[..k]) + sales[k].amount == SumBy(AmountOf, sales)
  {
    RunOpen(movers, sales[..k], lots);
    PrefixSums(sales, k);
    assert sales[..|sales|] == sales;
  }

  ghost predicate AllChecked(done: seq<Tx>) { forall k :: 0 <= k < |done| ==> done[k].checked }

  /** A run checks all its sales if and only if there are none, or the lots lack less than the last
      sale asks for, and so little that it rounds to nothing. */
  lemma {:induction false} RunChecksIff(movers: Movers, halfUnit: real, sales: seq<Tx>, w: Work)
    requires AllLawful(movers) && AllFramed(movers) && Ready(w.lots) && halfUnit > 0.0 && w.done == [] && w.cogs == []
    requires forall k :: 0 <= k < |sales| ==> !sales[k].checked && sales[k].amount > 0.0
    ensures var lack := SumBy(AmountOf, sales) - SumBy(OpenQuantity, w.lots);
            AllChecked(ProcessSales(movers, halfUnit, sales, w).done)
            <==> |sales| == 0 || (lack < halfUnit && lack < sales[|sales| - 1].amount)
  {
    var v, lack := ProcessSales(movers, halfUnit, sales, w), SumBy(AmountOf, sales) - SumBy(OpenQuantity, w.lots);
    RunResults(movers, halfUnit, sales, w);
    forall k | 0 <= k < |sales|
      ensures k == |sales| - 1 ==> (v.done[k].checked <==> lack < halfUnit && lack < sales[k].amount)
      ensures k < |sales| - 1 && lack < sales[|sales| - 1].amount ==> v.done[k].checked
    {
      CheckedIff(movers, halfUnit, sales, w.lots, k, v.done[k], v.cogs[k]);
      OpenLeft(movers, sales, w.lots, k);
      OpenLeft(movers, sales, w.lots, |sales| - 1);
      EarlierSum(sales, k);
    }
    if |sales| > 0 && AllChecked(v.done) { assert v.done[|sales| - 1].checked; }
  }

  lemma {:induction false} EarlierSum(sales: seq<Tx>, k: nat)
    requires k < |sales|
    ensures k < |sales| - 1 ==> SumBy(AmountOf, sales[..k]) + sales[k].amount <= SumBy(AmountOf, sales[..|sales| - 1])
  {
    if k < |sales| - 1 {
      PrefixSums(sales[..|sales| - 1], k);
      assert sales[..|sales| - 1][..k] == sales[..k];
    }
  }

  /** When a run that passes the credit notes checks every sale, whatever the purchase codes: if and
      only if there is none, or the kept purchases less the kept notes lack less than the last sale
      asks for, and so little that it rounds to nothing. */
  lemma {:induction false} AllCheckedIff(cfg: Config, fin: seq<FinTx>, txs: seq<Tx>, d: int)
    requires AllWellFormed(txs) && Settle(cfg, fin, txs, d).Ok? && cfg.halfUnit > 0.0
    ensures var sales, lack := SortedSales(txs, d), SalesTotal(txs, d) - KeptQuantity(txs, d);
            AllChecked(Settle(cfg, fin, txs, d).work.done)
            <==> |sales| == 0 || (lack < cfg.halfUnit && lack < sales[|sales| - 1].amount)
  {
    var sales := SortedSales(txs, d);
    OpeningHolds(txs, d);
    RunMoversLawful(cfg, fin);
    CollectedShapes(txs, d);
    SortContents(Sales(txs, d));
    SortSum(AmountOf, Sales(txs, d));
    forall k | 0 <= k < |sales| ensures !sales[k].checked && sales[k].amount > 0.0 { assert sales[k] in sales; }
    RunChecksIff(RunMovers(cfg, fin), cfg.halfUnit, sales, Opening(txs, d).work);
  }
}
