/** The logs agree over every run: the purchase log of a sale lists exactly the checked lots
    whose liquidation log names the sale. */
module Logs {
  import opened Lists
  import opened Ledger
  import opened FifoOrder
  import opened Allocation
  import opened Settlement
  import opened Calculation
  import opened Intervals
  import opened Reset
  import opened Replication
  import opened Books
  import opened Collected
  import opened Commitment
  import opened BookSums
  import opened Guard
  import opened ResetFacts
  import opened Runs
  import opened Families
  import opened Restoration
  import opened Marks

  /** What can be read off a lot and off a log entry: that it is there, its quantity, its unit cost. */
  datatype Reading = Count | Amount | UnitPrice

  function UnitOf(t: Tx): real { if t.liquidation.Some? then t.liquidation.value.unitCost else 0.0 }

  function LotReading(r: Reading, root: nat): Tx -> real {
    (t: Tx) => if RootOf(t) != root then 0.0 else if r.Count? then 1.0 else if r.Amount? then t.amount else UnitOf(t)
  }

  function EntryReading(r: Reading, root: nat): Entry -> real {
    (e: Entry) => if e.lot != root then 0.0 else if r.Count? then 1.0 else if r.Amount? then e.quantity else e.unitCost
  }

  function EntryQuantity(e: Entry): real { e.quantity }

  predicate Names(t: Tx, sale: nat) { t.liquidation.Some? && t.liquidation.value.sale == sale }

  /** The weight `g` of the lots whose liquidation log names `sale`. */
  function Naming(sale: nat, g: Tx -> real): Tx -> real { (t: Tx) => if Names(t, sale) then g(t) else 0.0 }

  /** The log of a checked sale: entry by entry the lots that name it, adding up to its amount;
      those lots cost what the sale cost. */
  ghost predicate LogAgrees(txs: seq<Tx>, sale: Tx) {
    && sale.purchaseLog.Some? && sale.totalCost.Some?
    && (forall r, root ::
          SumBy(Naming(sale.id, LotReading(r, root)), txs) == SumBy(EntryReading(r, root), sale.purchaseLog.value))
    && SumBy(EntryQuantity, sale.purchaseLog.value) == sale.amount
    && SumBy(Naming(sale.id, Cost), txs) == sale.totalCost.value
  }

  ghost predicate Unnamed(txs: seq<Tx>, id: nat) { forall t :: t in txs ==> !Names(t, id) }

  /** The liquidation log of `t` names `sale`, with its date and its whole quantity. */
  predicate NamesWhole(t: Tx, sale: Tx) {
    && t.liquidation.Some?
    && t.liquidation.value == Liquidation(sale.id, sale.date, sale.amount, t.liquidation.value.unitCost)
  }

  /** The sale that the liquidation log of `t` names is in the book, checked. */
  ghost predicate NamesSale(txs: seq<Tx>, t: Tx) {
    exists sale :: sale in txs && SaleShape(sale) && sale.checked && NamesWhole(t, sale)
  }

  /** The logs of a book agree: those of every checked sale with the lots, and every lot that was
      sold names a checked sale of the book. */
  ghost predicate LogsAgree(s: State) {
    && (forall t :: t in s.txs && SaleShape(t) && t.checked ==> LogAgrees(s.txs, t))
    && (forall t :: t in s.txs && t.liquidation.Some? ==> NamesSale(s.txs, t))
  }

  /** Nothing names an id that is not that of a checked sale. */
  lemma {:induction false} OnlyChecked(s: State, id: nat)
    requires LogsAgree(s) && forall t :: t in s.txs && t.id == id ==> !(SaleShape(t) && t.checked)
    ensures Unnamed(s.txs, id)
  {
    forall t | t in s.txs && t.liquidation.Some? ensures t.liquidation.value.sale != id {
      assert NamesSale(s.txs, t);
    }
  }

  // ----- One draw -----

  function SoldWeight(g: Tx -> real): Move -> real { (m: Move) => g(m.Sold()) }

  function NamedBy(sale: Tx, id: nat, g: Tx -> real): Move -> real { (m: Move) => if sale.id == id then g(m.Sold()) else
                                                                      0.0 }

  lemma {:induction false} NamingAt(t: Tx, id: nat, g: Tx -> real)
    ensures Naming(id, g)(t) == if Names(t, id) then g(t) else 0.0
  {}

  lemma {:induction false} MoveNames(cfg: Config, fin: seq<FinTx>, sale: Tx, need: Quantity, lot: Tx, id: nat,
                                     g: Tx -> real)
    requires PurchaseShape(lot) && !lot.checked
    ensures var f, m := Naming(id, g), MoveOn(cfg, fin, sale, need, lot);
            && Change(f)(m) + PieceWeight(f)(m) == NamedBy(sale, id, g)(m)
            && RootOf(m.Sold()) == m.before.id && m.Sold().liquidation.Some?
  {
    var f, m := Naming(id, g), MoveOn(cfg, fin, sale, need, lot);
    NamingAt(lot, id, g);
    NamingAt(m.after, id, g);
    if need >= lot.amount {
      assert Change(f)(m) == f(m.after) && PieceWeight(f)(m) == 0.0;
      assert m.Sold() == m.after && Names(m.Sold(), id) == (sale.id == id);
    } else {
      NamingAt(m.piece.value, id, g);
      assert Change(f)(m) == 0.0 && PieceWeight(f)(m) == f(m.piece.value);
      assert m.Sold() == m.piece.value && Names(m.Sold(), id) == (sale.id == id);
    }
  }

  lemma {:induction false} DrawNames(cfg: Config, fin: seq<FinTx>, sale: Tx, lots: seq<Tx>, id: nat, g: Tx -> real)
    requires PurchaseLots(lots)
    ensures var d, f := DrawFor(RunMovers(cfg, fin), sale, lots), Naming(id, g);
            SumBy(f, d.lots) + SumBy(f, Pieces(d.moves)) == SumBy(f, lots) + if sale.id == id then
              SumBy(SoldWeight(g), d.moves) else 0.0
  {
    var mover, f := SaleMover(cfg, fin, sale), Naming(id, g);
    SaleMoverLawful(cfg, fin, sale);
    forall n: Quantity, lot: Tx | !lot.checked && lot in lots
      ensures Change(f)(mover(n, lot)) + PieceWeight(f)(mover(n, lot)) == NamedBy(sale, id, g)(mover(n, lot))
    {
      MoveNames(cfg, fin, sale, n, lot, id, g);
    }
    TakeExchange(mover, sale.amount, lots, f, NamedBy(sale, id, g));
    var moves := Take(mover, sale.amount, lots).moves;
    if sale.id == id {
      SumCong(NamedBy(sale, id, g), SoldWeight(g), moves);
    } else {
      SumZero(NamedBy(sale, id, g), moves);
    }
  }

  /** A draw's log entries read like the lots it sold. */
  lemma {:induction false} DrawLog(cfg: Config, fin: seq<FinTx>, sale: Tx, lots: seq<Tx>, r: Reading, root: nat)
    requires PurchaseLots(lots)
    ensures var moves := DrawFor(RunMovers(cfg, fin), sale, lots).moves;
            SumBy(SoldWeight(LotReading(r, root)), moves) == SumBy(EntryReading(r, root), Entries(moves))
  {
    var mover := SaleMover(cfg, fin, sale);
    SaleMoverLawful(cfg, fin, sale);
    var p := (m: Move) => RootOf(m.Sold()) == m.before.id && m.Sold().liquidation.Some?;
    forall n: Quantity, lot: Tx | !lot.checked && lot in lots ensures p(mover(n, lot)) {
      MoveNames(cfg, fin, sale, n, lot, 0, Cost);
    }
    TakeMoves(mover, sale.amount, lots, p);
    var moves := Take(mover, sale.amount, lots).moves;
    EntriesSum(moves, EntryReading(r, root));
    forall m | m in moves ensures SoldWeight(LotReading(r, root))(m) == EntryWeight(EntryReading(r, root))(m) {
      assert LotReading(r, root)(m.Sold()) == EntryReading(r, root)(EntryOf(m));
    }
    SumCong(SoldWeight(LotReading(r, root)), EntryWeight(EntryReading(r, root)), moves);
  }

  // ----- One run -----

  lemma {:induction false} RunLots(cfg: Config, fin: seq<FinTx>, sales: seq<Tx>, w: Work)
    requires PurchaseLots(w.lots)
    ensures PurchaseLots(ProcessSales(RunMovers(cfg, fin), cfg.halfUnit, sales, w).lots)
    ensures ProcessSales(RunMovers(cfg, fin), cfg.halfUnit, sales, w).lots
         == LotsAfter(RunMovers(cfg, fin), sales, w.lots)
  {
    ProcessLots(RunMovers(cfg, fin), cfg.halfUnit, sales, w);
    RunEvolves(cfg, fin, sales, w.lots);
    AllEvolveShape(w.lots, LotsAfter(RunMovers(cfg, fin), sales, w.lots));
  }

  function NamedTotal(w: Work, id: nat, g: Tx -> real): real { SumBy(Naming(id, g), w.lots)
                                                              + SumBy(Naming(id, g), w.created) }

  lemma {:induction false} SaleNames(cfg: Config, fin: seq<FinTx>, sale: Tx, w: Work, id: nat, g: Tx -> real)
    requires PurchaseLots(w.lots)
    ensures NamedTotal(ProcessSale(RunMovers(cfg, fin), cfg.halfUnit, sale, w), id, g)
         == NamedTotal(w, id, g) + if sale.id == id then
           SumBy(SoldWeight(g), DrawFor(RunMovers(cfg, fin), sale, w.lots).moves) else 0.0
  {
    DrawNames(cfg, fin, sale, w.lots, id, g);
    SumAppend(Naming(id, g), w.created, Pieces(DrawFor(RunMovers(cfg, fin), sale, w.lots).moves));
  }

  /** Sales of other ids name nothing for `id`. */
  lemma {:induction false} RunNamesNone(cfg: Config, fin: seq<FinTx>, sales: seq<Tx>, w: Work, id: nat, g: Tx -> real)
    requires PurchaseLots(w.lots) && forall k :: 0 <= k < |sales| ==> sales[k].id != id
    ensures NamedTotal(ProcessSales(RunMovers(cfg, fin), cfg.halfUnit, sales, w), id, g) == NamedTotal(w, id, g)
    decreases |sales|
  {
    if |sales| > 0 {
      var init, sale := sales[..|sales| - 1], sales[|sales| - 1];
      RunNamesNone(cfg, fin, init, w, id, g);
      RunLots(cfg, fin, init, w);
      SaleNames(cfg, fin, sale, ProcessSales(RunMovers(cfg, fin), cfg.halfUnit, init, w), id, g);
    }
  }

  lemma {:induction false} SameDraw(movers: Movers, init: seq<Tx>, sales: seq<Tx>, lots: seq<Tx>, k: nat)
    requires init <= sales && k < |init|
    ensures DrawOf(movers, init, lots, k) == DrawOf(movers, sales, lots, k)
  {
    assert init[..k] == sales[..k];
  }

  /** The last sale of a run is named by what its own draw sold. */
  lemma {:induction false} RunNamesLast(cfg: Config, fin: seq<FinTx>, init: seq<Tx>, sale: Tx, w: Work, g: Tx -> real)
    requires PurchaseLots(w.lots) && forall i :: 0 <= i < |init| ==> init[i].id != sale.id
    ensures NamedTotal(ProcessSales(RunMovers(cfg, fin), cfg.halfUnit, init + [sale], w), sale.id, g)
         == NamedTotal(w, sale.id, g)
           + SumBy(SoldWeight(g), DrawOf(RunMovers(cfg, fin), init + [sale], w.lots, |init|).moves)
  {
    var movers := RunMovers(cfg, fin);
    RunLots(cfg, fin, init, w);
    RunNamesNone(cfg, fin, init, w, sale.id, g);
    ProcessSnoc(movers, cfg.halfUnit, init, sale, w);
    ProcessLots(movers, cfg.halfUnit, init, w);
    SaleNames(cfg, fin, sale, ProcessSales(movers, cfg.halfUnit, init, w), sale.id, g);
    assert (init + [sale])[..|init|] == init;
  }

  /** Sale `k` of a run is named by what its own draw sold. */
  lemma {:induction false} RunNames(cfg: Config, fin: seq<FinTx>, sales: seq<Tx>, w: Work, k: nat, g: Tx -> real)
    requires PurchaseLots(w.lots) && Distinct(IdOf, sales) && k < |sales|
    ensures NamedTotal(ProcessSales(RunMovers(cfg, fin), cfg.halfUnit, sales, w), sales[k].id, g)
         == NamedTotal(w, sales[k].id, g) + SumBy(SoldWeight(g), DrawOf(RunMovers(cfg, fin), sales, w.lots, k).moves)
    decreases |sales|
  {
    var n := |sales| - 1;
    var init, sale := sales[..n], sales[n];
    assert sales == init + [sale];
    if k == n {
      forall i | 0 <= i < n ensures init[i].id != sale.id { assert IdOf(sales[i]) != IdOf(sales[n]); }
      RunNamesLast(cfg, fin, init, sale, w, g);
    } else {
      assert IdOf(sales[k]) != IdOf(sales[n]);
      RunNames(cfg, fin, init, w, k, g);
      SameDraw(RunMovers(cfg, fin), init, sales, w.lots, k);
      RunLots(cfg, fin, init, w);
      SaleNames(cfg, fin, sale, ProcessSales(RunMovers(cfg, fin), cfg.halfUnit, init, w), sales[k].id, g);
    }
  }

  // ----- The committed book -----

  ghost predicate WeighsLots(g: Tx -> real) {
    forall t: Tx, id: nat, remote: RemoteId :: t.parent.Some? ==> g(t.(id := id, remote := remote)) == g(t)
  }

  /** After a calculation, an id is named as much as before plus what the run adds. */
  lemma {:induction false} CommitNames(cfg: Config, fin: seq<FinTx>, s: State, d: int, id: nat, g: Tx -> real)
    requires Inv(s) && Settle(cfg, fin, s.txs, d).Ok? && WeighsLots(g)
    ensures var w := Settle(cfg, fin, s.txs, d).work;
            SumBy(Naming(id, g), Commit(s, w, SortedSales(s.txs, d)).txs)
            == SumBy(Naming(id, g), s.txs) + (NamedTotal(w, id, g) - NamedTotal(Opening(s.txs, d).work, id, g))
  {
    var f, w, v := Naming(id, g), Settle(cfg, fin, s.txs, d).work, Opening(s.txs, d).work;
    forall t: Tx | NoteShape(t)
      ensures f(t.(checked := true)) == f(t) { assert !Names(t, id) && !Names(t.(checked := true), id); }
    BookTransfer(cfg, fin, s, d, f);
    OpeningUnnamed(s.txs, d, id, g);
    MembersShapes(s.txs, d);
    SumZero(f, Lots(s.txs, d));
    SalesUnnamed(cfg, fin, s, d, id, g);
  }

  lemma {:induction false} SalesUnnamed(cfg: Config, fin: seq<FinTx>, s: State, d: int, id: nat, g: Tx -> real)
    requires Inv(s) && Settle(cfg, fin, s.txs, d).Ok?
    ensures SumBy(Naming(id, g), SortedSales(s.txs, d)) == 0.0
            && SumBy(Naming(id, g), Settle(cfg, fin, s.txs, d).work.done) == 0.0
  {
    var sales, w := SortedSales(s.txs, d), Settle(cfg, fin, s.txs, d).work;
    KindsApart(s.txs, d);
    CollectedShapes(s.txs, d);
    SettleSales(cfg, fin, s.txs, d);
    forall k | 0 <= k < |sales| ensures sales[k].liquidation.None? && w.done[k].liquidation.None? {
      assert SaleShape(sales[k]) && WellFormed(sales[k]);
      EvolvesShape(sales[k], w.done[k]);
    }
    SumZero(Naming(id, g), sales);
    SumZero(Naming(id, g), w.done);
  }

  /** Open lots and credit-note splits name no sale. */
  lemma {:induction false} OpeningUnnamed(txs: seq<Tx>, d: int, id: nat, g: Tx -> real)
    requires Sound(txs) && Opening(txs, d).Ok?
    ensures NamedTotal(Opening(txs, d).work, id, g) == 0.0
  {
    var ps := Purchases(txs, d);
    LotsAreThePurchases(txs, d);
    MembersShapes(txs, d);
    NotesFrame(NotesBy(txs, d), Start(ps));
    NotesUnnamed(NotesBy(txs, d), Start(ps));
    var u := ApplyNotes(NotesBy(txs, d), Start(ps)).work;
    SumZero(Naming(id, g), u.created);
    SumZero(Naming(id, g), u.lots);
    SortSum(Naming(id, g), u.lots);
  }

  lemma {:induction false} NotesUnnamed(notes: seq<Tx>, w: Work)
    requires ApplyNotes(notes, w).Ok? && forall t :: t in w.created ==> t.liquidation.None?
    ensures forall t :: t in ApplyNotes(notes, w).work.created ==> t.liquidation.None?
    decreases |notes|
  {
    if |notes| > 0 { NotesUnnamed(notes[..|notes| - 1], w); }
  }

  lemma {:induction false} ReadingsWeigh(r: Reading, root: nat)
    ensures WeighsLots(LotReading(r, root))
  {}

  lemma {:induction false} UnnamedSum(txs: seq<Tx>, id: nat, g: Tx -> real)
    requires Unnamed(txs, id)
    ensures SumBy(Naming(id, g), txs) == 0.0
  {
    SumZero(Naming(id, g), txs);
  }

  lemma {:induction false} OpenSaleUnnamed(s: State, sale: Tx)
    requires Inv(s) && LogsAgree(s) && sale in s.txs && !sale.checked
    ensures Unnamed(s.txs, sale.id)
  {
    forall t | t in s.txs && t.id == sale.id ensures !t.checked { SameIdSame(s.txs, t, sale); }
    OnlyChecked(s, sale.id);
  }

  /** A sale settled by this run has an agreeing log in the new book. */
  lemma {:induction false} SettledLog(cfg: Config, fin: seq<FinTx>, s: State, d: int, k: nat)
    requires Inv(s) && LogsAgree(s) && Settle(cfg, fin, s.txs, d).Ok? && cfg.halfUnit > 0.0
    requires SalesTotal(s.txs, d) <= PurchasesTotal(s.txs, d) && k < |SortedSales(s.txs, d)|
    ensures var w := Settle(cfg, fin, s.txs, d).work;
            k < |w.done| && LogAgrees(Commit(s, w, SortedSales(s.txs, d)).txs, w.done[k])
  {
    var sales, w, v := SortedSales(s.txs, d), Settle(cfg, fin, s.txs, d).work, Opening(s.txs, d).work;
    var s', movers := Commit(s, w, sales), RunMovers(cfg, fin);
    var sale, draw := sales[k], DrawOf(movers, sales, v.lots, k);
    OpeningStages(s.txs, d);
    MembersShapes(s.txs, d);
    KindsApart(s.txs, d);
    CollectedShapes(s.txs, d);
    GuardSuffices(cfg, fin, s.txs, d);
    RunResults(movers, cfg.halfUnit, sales, v);
    assert ResultAt(movers, cfg.halfUnit, sales, v.lots, k, w.done[k], w.cogs[k])
           && Complete(sale, w.done[k], w.cogs[k]);
    assert sale in s.txs && SaleShape(sale) && !sale.checked;
    OpenSaleUnnamed(s, sale);
    RunLots(cfg, fin, sales[..k], v);
    forall r, root
      ensures SumBy(Naming(sale.id, LotReading(r, root)), s'.txs) == SumBy(EntryReading(r, root), Entries(draw.moves))
    {
      ReadingsWeigh(r, root);
      SaleNamed(cfg, fin, s, d, k, LotReading(r, root));
      DrawLog(cfg, fin, sale, LotsAfter(movers, sales[..k], v.lots), r, root);
    }
    SaleNamed(cfg, fin, s, d, k, Cost);
    SumCong(SoldWeight(Cost), SoldCost, draw.moves);
    LogTotal(cfg, fin, s.txs, d, k);
  }

  /** What names a settled sale is what its draw sold. */
  lemma {:induction false} SaleNamed(cfg: Config, fin: seq<FinTx>, s: State, d: int, k: nat, g: Tx -> real)
    requires Inv(s) && Settle(cfg, fin, s.txs, d).Ok? && WeighsLots(g) && k < |SortedSales(s.txs, d)|
    requires Unnamed(s.txs, SortedSales(s.txs, d)[k].id)
    ensures var sales, w := SortedSales(s.txs, d), Settle(cfg, fin, s.txs, d).work;
            SumBy(Naming(sales[k].id, g), Commit(s, w, sales).txs)
            == SumBy(SoldWeight(g), DrawOf(RunMovers(cfg, fin), sales, Opening(s.txs, d).work.lots, k).moves)
  {
    var sales, v := SortedSales(s.txs, d), Opening(s.txs, d).work;
    OpeningStages(s.txs, d);
    MembersShapes(s.txs, d);
    UnnamedSum(s.txs, sales[k].id, g);
    CommitNames(cfg, fin, s, d, sales[k].id, g);
    RunNames(cfg, fin, sales, v, k, g);
  }

  /** The entries of a settled sale add up to its amount. */
  lemma {:induction false} LogTotal(cfg: Config, fin: seq<FinTx>, txs: seq<Tx>, d: int, k: nat)
    requires Sound(txs) && Opening(txs, d).Ok? && SalesTotal(txs, d) <= PurchasesTotal(txs, d)
             && k < |SortedSales(txs, d)|
    ensures var sales := SortedSales(txs, d);
            SumBy(EntryQuantity, Entries(DrawOf(RunMovers(cfg, fin), sales, Opening(txs, d).work.lots, k).moves))
              == sales[k].amount
  {
    var movers, sales, lots := RunMovers(cfg, fin), SortedSales(txs, d), Opening(txs, d).work.lots;
    GuardCovers(txs, d);
    RunMoversLawful(cfg, fin);
    AllFilledIff(movers, sales, lots);
    assert Filled(movers, sales, lots, k);
    FilledTotal(movers, sales[k], LotsAfter(movers, sales[..k], lots));
  }

  lemma {:induction false} FilledTotal(movers: Movers, sale: Tx, lots: seq<Tx>)
    requires AllLawful(movers) && DrawFor(movers, sale, lots).left == 0.0
    ensures SumBy(EntryQuantity, Entries(DrawFor(movers, sale, lots).moves)) == sale.amount
  {
    var moves := DrawFor(movers, sale, lots).moves;
    assert Lawful(movers(sale));
    TakeFills(movers(sale), sale.amount, lots);
    EntriesSum(moves, EntryQuantity);
    forall m | m in moves ensures EntryWeight(EntryQuantity)(m) == SoldQuantity(m) {
      assert EntryQuantity(EntryOf(m)) == m.Sold().amount;
    }
    SumCong(EntryWeight(EntryQuantity), SoldQuantity, moves);
  }

  /** An id that is not a sale of the run is named as before. */
  lemma {:induction false} OthersNamed(cfg: Config, fin: seq<FinTx>, s: State, d: int, id: nat, g: Tx -> real)
    requires Inv(s) && Settle(cfg, fin, s.txs, d).Ok? && WeighsLots(g)
    requires forall k :: 0 <= k < |SortedSales(s.txs, d)| ==> SortedSales(s.txs, d)[k].id != id
    ensures SumBy(Naming(id, g), Commit(s, Settle(cfg, fin, s.txs, d).work, SortedSales(s.txs, d)).txs)
         == SumBy(Naming(id, g), s.txs)
  {
    OpeningStages(s.txs, d);
    CommitNames(cfg, fin, s, d, id, g);
    RunNamesNone(cfg, fin, SortedSales(s.txs, d), Opening(s.txs, d).work, id, g);
  }

  lemma {:induction false} CommitLogs(cfg: Config, fin: seq<FinTx>, s: State, d: int)
    requires Inv(s) && LogsAgree(s) && Settle(cfg, fin, s.txs, d).Ok? && cfg.halfUnit > 0.0
    requires SalesTotal(s.txs, d) <= PurchasesTotal(s.txs, d)
    ensures LogsAgree(Commit(s, Settle(cfg, fin, s.txs, d).work, SortedSales(s.txs, d)))
  {
    var s' := Commit(s, Settle(cfg, fin, s.txs, d).work, SortedSales(s.txs, d));
    forall t | t in s'.txs && SaleShape(t) && t.checked ensures LogAgrees(s'.txs, t) {
      SaleAfter(cfg, fin, s, d, t);
    }
    forall t | t in s'.txs && t.liquidation.Some? ensures NamesSale(s'.txs, t) {
      NamedAfter(cfg, fin, s, d, t);
    }
  }

  // ----- What a liquidation log says of its sale -----

  /** Every lot and split of a run that was sold names one of its sales whole. */
  ghost predicate AllNameWhole(sales: seq<Tx>, ts: seq<Tx>) {
    forall t :: t in ts && t.liquidation.Some? ==> exists k :: 0 <= k < |sales| && NamesWhole(t, sales[k])
  }

  lemma {:induction false} DrawNamesWhole(cfg: Config, fin: seq<FinTx>, sale: Tx, lots: seq<Tx>)
    ensures var d := DrawFor(RunMovers(cfg, fin), sale, lots);
            && (forall t :: t in d.lots && t.liquidation.Some? ==>
                  t.liquidation in LiquidationsOf(lots) || NamesWhole(t, sale))
            && forall t :: t in Pieces(d.moves) ==> NamesWhole(t, sale)
  {
    var mover, d := SaleMover(cfg, fin, sale), DrawFor(RunMovers(cfg, fin), sale, lots);
    var r := (x: Tx, y: Tx) => y.liquidation == x.liquidation || NamesWhole(y, sale);
    var p := (m: Move) => m.piece.Some? ==> NamesWhole(m.piece.value, sale);
    SaleMoverLawful(cfg, fin, sale);
    forall n: Quantity, lot: Tx | !lot.checked && lot in lots ensures r(lot, mover(n, lot).after) && p(mover(n, lot)) {
      assert mover(n, lot) == MoveOn(cfg, fin, sale, n, lot);
    }
    TakeRelates(mover, sale.amount, lots, r);
    TakeMoves(mover, sale.amount, lots, p);
    PiecesFrom(d.moves);
    forall t | t in d.lots && t.liquidation.Some? ensures t.liquidation in LiquidationsOf(lots) || NamesWhole(t, sale) {
      var i :| 0 <= i < |d.lots| && d.lots[i] == t;
      assert r(lots[i], d.lots[i]) && LiquidationsOf(lots)[i] == lots[i].liquidation;
    }
    forall t | t in Pieces(d.moves) ensures NamesWhole(t, sale) {
      var m :| m in d.moves && m.piece == Some(t);
      assert p(m);
    }
  }

  function LiquidationsOf(lots: seq<Tx>): seq<Option<Liquidation>> {
    seq(|lots|, i requires 0 <= i < |lots| => lots[i].liquidation)
  }

  lemma {:induction false} RunNamesWhole(cfg: Config, fin: seq<FinTx>, sales: seq<Tx>, w: Work)
    requires AllNameWhole([], w.lots) && AllNameWhole([], w.created)
    ensures var v := ProcessSales(RunMovers(cfg, fin), cfg.halfUnit, sales, w);
            AllNameWhole(sales, v.lots) && AllNameWhole(sales, v.created)
    decreases |sales|
  {
    if |sales| > 0 {
      var init, sale := sales[..|sales| - 1], sales[|sales| - 1];
      var u := ProcessSales(RunMovers(cfg, fin), cfg.halfUnit, init, w);
      RunNamesWhole(cfg, fin, init, w);
      DrawNamesWhole(cfg, fin, sale, u.lots);
      NamesLast(init, sale, u.lots, DrawFor(RunMovers(cfg, fin), sale, u.lots).lots);
      NamesLast(init, sale, u.created, u.created + Pieces(DrawFor(RunMovers(cfg, fin), sale, u.lots).moves));
      assert sales == init + [sale];
    }
  }

  lemma {:induction false} NamesLast(init: seq<Tx>, sale: Tx, before: seq<Tx>, after: seq<Tx>)
    requires AllNameWhole(init, before)
    requires forall t :: t in after && t.liquidation.Some? ==>
               t.liquidation in LiquidationsOf(before) || t in before || NamesWhole(t, sale)
    ensures AllNameWhole(init + [sale], after)
  {
    var sales := init + [sale];
    forall t | t in after && t.liquidation.Some? ensures exists k :: 0 <= k < |sales| && NamesWhole(t, sales[k]) {
      if NamesWhole(t, sale) {
        assert sales[|init|] == sale;
      } else {
        var x := t;
        if t !in before {
          var i :| 0 <= i < |before| && LiquidationsOf(before)[i] == t.liquidation;
          x := before[i];
        }
        assert x in before;
        var k :| 0 <= k < |init| && NamesWhole(x, init[k]);
        assert sales[k] == init[k] && NamesWhole(t, sales[k]);
      }
    }
  }

  /** A lot that was sold was sold before the calculation, or names one of its sales whole. */
  lemma {:induction false} SoldByRun(cfg: Config, fin: seq<FinTx>, s: State, d: int, t: Tx)
    requires Inv(s) && Settle(cfg, fin, s.txs, d).Ok?
    requires t in Commit(s, Settle(cfg, fin, s.txs, d).work, SortedSales(s.txs, d)).txs && t.liquidation.Some?
    ensures t in s.txs
            || exists k :: 0 <= k < |SortedSales(s.txs, d)| && NamesWhole(t, SortedSales(s.txs, d)[k])
  {
    var w, sales := Settle(cfg, fin, s.txs, d).work, SortedSales(s.txs, d);
    OpenedUnsold(s.txs, d);
    RunNamesWhole(cfg, fin, sales, Opening(s.txs, d).work);
    if t !in s.txs {
      var y := SoldFrom(cfg, fin, s, d, t);
      var k :| 0 <= k < |sales| && NamesWhole(y, sales[k]);
      assert NamesWhole(t, sales[k]);
    }
  }

  /** The lot or split of the run that was posted as `t`. */
  lemma {:induction false} SoldFrom(cfg: Config, fin: seq<FinTx>, s: State, d: int, t: Tx) returns (y: Tx)
    requires Inv(s) && Settle(cfg, fin, s.txs, d).Ok? && t !in s.txs && t.liquidation.Some?
    requires t in Commit(s, Settle(cfg, fin, s.txs, d).work, SortedSales(s.txs, d)).txs
    ensures var w := Settle(cfg, fin, s.txs, d).work; (y in w.lots || y in w.created) && y.liquidation == t.liquidation
  {
    var w := Settle(cfg, fin, s.txs, d).work;
    assert Commit(s, w, SortedSales(s.txs, d)).txs == Apply(w.updates, s.txs) + Posted(w.created, s) by {
      CommitBook(cfg, fin, s, d);
    }
    if t in Posted(w.created, s) {
      y := PostedFrom(w.created, s, t);
    } else {
      var x := UpdatedFrom(w.updates, s.txs, t);
      LotOrOther(cfg, fin, s, d, x);
      y := t;
    }
  }

  lemma {:induction false} OpenedUnsold(txs: seq<Tx>, d: int)
    requires Sound(txs) && Opening(txs, d).Ok?
    ensures AllNameWhole([], Opening(txs, d).work.lots) && AllNameWhole([], Opening(txs, d).work.created)
  {
    LotsAreThePurchases(txs, d);
    NotesUnsold(NotesBy(txs, d), Start(LotsBy(txs, d)));
    OpenLotsUnsold(txs, d);
  }

  /** A calculation gives a transaction of the book the lot it made of it, or no liquidation log. */
  lemma {:induction false} LotOrOther(cfg: Config, fin: seq<FinTx>, s: State, d: int, x: Tx)
    requires Inv(s) && Settle(cfg, fin, s.txs, d).Ok? && x in s.txs
    ensures var w := Settle(cfg, fin, s.txs, d).work; var t := Lookup(w.updates, x);
            t.liquidation.Some? ==> t in w.lots || t == x
  {
    var w, ls := Settle(cfg, fin, s.txs, d).work, Lots(s.txs, d);
    var t := Lookup(w.updates, x);
    SortContents(Purchases(s.txs, d));
    if x in Purchases(s.txs, d) {
      var i :| 0 <= i < |ls| && ls[i] == x;
      SettleLots(cfg, fin, s.txs, d);
      assert Apply(w.updates, ls)[i] == w.lots[i];
    } else {
      SettleEvolves(cfg, fin, s.txs, d, x);
      EvolvesShape(x, t);
      if PurchaseShape(x) || SplitShape(x) { SplitOrLater(cfg, fin, s, d, x); }
    }
  }

  lemma {:induction false} SplitOrLater(cfg: Config, fin: seq<FinTx>, s: State, d: int, x: Tx)
    requires Inv(s) && Settle(cfg, fin, s.txs, d).Ok? && x in s.txs && (PurchaseShape(x) || SplitShape(x))
    requires x !in Purchases(s.txs, d)
    ensures Lookup(Settle(cfg, fin, s.txs, d).work.updates, x) == x
  {
    FilterSound(OpenSales(d), s.txs);
    FilterSound(OpenNotes(d), s.txs);
    SettleOther(cfg, fin, s.txs, d, x);
  }

  /** What is named after a calculation was named before it, or is a sale it settled. */
  lemma {:induction false} NamedAfter(cfg: Config, fin: seq<FinTx>, s: State, d: int, t: Tx)
    requires Inv(s) && LogsAgree(s) && Settle(cfg, fin, s.txs, d).Ok? && cfg.halfUnit > 0.0
    requires SalesTotal(s.txs, d) <= PurchasesTotal(s.txs, d)
    requires t in Commit(s, Settle(cfg, fin, s.txs, d).work, SortedSales(s.txs, d)).txs && t.liquidation.Some?
    ensures NamesSale(Commit(s, Settle(cfg, fin, s.txs, d).work, SortedSales(s.txs, d)).txs, t)
  {
    var sales := SortedSales(s.txs, d);
    SoldByRun(cfg, fin, s, d, t);
    if t in s.txs {
      var x :| x in s.txs && SaleShape(x) && x.checked && NamesWhole(t, x);
      CommitBook(cfg, fin, s, d);
      CheckedStays(Settle(cfg, fin, s.txs, d).work.updates, s.txs, x);
    } else {
      var k :| 0 <= k < |sales| && NamesWhole(t, sales[k]);
      SettledNamed(cfg, fin, s, d, k, t);
    }
  }

  lemma {:induction false} SettledNamed(cfg: Config, fin: seq<FinTx>, s: State, d: int, k: nat, t: Tx)
    requires Inv(s) && Settle(cfg, fin, s.txs, d).Ok? && cfg.halfUnit > 0.0
    requires SalesTotal(s.txs, d) <= PurchasesTotal(s.txs, d)
    requires k < |SortedSales(s.txs, d)| && NamesWhole(t, SortedSales(s.txs, d)[k])
    ensures NamesSale(Commit(s, Settle(cfg, fin, s.txs, d).work, SortedSales(s.txs, d)).txs, t)
  {
    var w, sales := Settle(cfg, fin, s.txs, d).work, SortedSales(s.txs, d);
    GuardSuffices(cfg, fin, s.txs, d);
    assert Complete(sales[k], w.done[k], w.cogs[k]);
    NewCogs(cfg, fin, s, d, k);
    assert CostsSale(w.cogs[k], w.done[k]) && NamesWhole(t, w.done[k]);
  }

  lemma {:induction false} SaleAfter(cfg: Config, fin: seq<FinTx>, s: State, d: int, t: Tx)
    requires Inv(s) && LogsAgree(s) && Settle(cfg, fin, s.txs, d).Ok? && cfg.halfUnit > 0.0
    requires SalesTotal(s.txs, d) <= PurchasesTotal(s.txs, d)
    requires t in Commit(s, Settle(cfg, fin, s.txs, d).work, SortedSales(s.txs, d)).txs && SaleShape(t) && t.checked
    ensures LogAgrees(Commit(s, Settle(cfg, fin, s.txs, d).work, SortedSales(s.txs, d)).txs, t)
  {
    var w, sales := Settle(cfg, fin, s.txs, d).work, SortedSales(s.txs, d);
    var x := RootBefore(cfg, fin, s, d, t);
    EvolvesShape(x, t);
    SortContents(Sales(s.txs, d));
    if x in Sales(s.txs, d) {
      var k :| 0 <= k < |sales| && sales[k] == x;
      SettleSales(cfg, fin, s.txs, d);
      assert Apply(w.updates, sales)[k] == t;
      SettledLog(cfg, fin, s, d, k);
    } else {
      OtherSale(cfg, fin, s, d, x, t);
    }
  }

  lemma {:induction false} OtherSale(cfg: Config, fin: seq<FinTx>, s: State, d: int, x: Tx, t: Tx)
    requires Inv(s) && LogsAgree(s) && Settle(cfg, fin, s.txs, d).Ok?
    requires x in s.txs && SaleShape(x) && x !in Sales(s.txs, d)
    requires Lookup(Settle(cfg, fin, s.txs, d).work.updates, x) == t && t.checked
    ensures LogAgrees(Commit(s, Settle(cfg, fin, s.txs, d).work, SortedSales(s.txs, d)).txs, t)
  {
    var s', sales := Commit(s, Settle(cfg, fin, s.txs, d).work, SortedSales(s.txs, d)), SortedSales(s.txs, d);
    CollectedShapes(s.txs, d);
    KindsApart(s.txs, d);
    SettleOther(cfg, fin, s.txs, d, x);
    assert t == x;
    forall k | 0 <= k < |sales| ensures sales[k].id != x.id {
      if sales[k].id == x.id { SameIdSame(s.txs, sales[k], x); }
    }
    SameNaming(s.txs, s'.txs, x) by {
      forall r, root
        ensures SumBy(Naming(x.id, LotReading(r, root)), s'.txs) == SumBy(Naming(x.id, LotReading(r, root)), s.txs)
      {
        ReadingsWeigh(r, root);
        OthersNamed(cfg, fin, s, d, x.id, LotReading(r, root));
      }
      OthersNamed(cfg, fin, s, d, x.id, Cost);
    }
  }

  /** A log goes on agreeing while what names its sale reads the same. */
  lemma {:induction false} SameNaming(a: seq<Tx>, b: seq<Tx>, sale: Tx)
    requires LogAgrees(a, sale) && SumBy(Naming(sale.id, Cost), b) == SumBy(Naming(sale.id, Cost), a)
    requires forall r, root ::
               SumBy(Naming(sale.id, LotReading(r, root)), b) == SumBy(Naming(sale.id, LotReading(r, root)), a)
    ensures LogAgrees(b, sale)
  {}

  // ----- Arrivals and resets -----

  lemma {:induction false} ArriveLogs(s: State, f: FinTx, millis: nat)
    requires Inv(s) && LogsAgree(s)
    ensures LogsAgree(Arrive(s, f, millis))
  {
    var s' := Arrive(s, f, millis);
    if s' != s {
      var t := Replica(f, s.nextId, millis).value;
      ReplicaShape(f, s.nextId, millis);
      assert s'.txs == s.txs + [t] && t.liquidation.None?;
      forall x | x in s'.txs && SaleShape(x) && x.checked ensures LogAgrees(s'.txs, x) { LogSnoc(s.txs, t, x); }
      forall x | x in s'.txs && x.liquidation.Some? ensures NamesSale(s'.txs, x) { NameKept(s.txs, s'.txs, x); }
    }
  }

  /** A transaction without a liquidation log changes no agreement. */
  lemma {:induction false} LogSnoc(txs: seq<Tx>, t: Tx, x: Tx)
    requires LogAgrees(txs, x) && t.liquidation.None?
    ensures LogAgrees(txs + [t], x)
  {
    forall r, root
      ensures SumBy(Naming(x.id, LotReading(r, root)), txs + [t]) == SumBy(Naming(x.id, LotReading(r, root)), txs)
    {
      SumSnoc(Naming(x.id, LotReading(r, root)), txs, t);
    }
    SumSnoc(Naming(x.id, Cost), txs, t);
  }

  /** An unlocked reset makes the logs agree again, whatever they were. */
  lemma {:induction false} ResetLogs(s: State)
    requires Inv(s) && (ResetLocked(s) ==> LogsAgree(s))
    ensures LogsAgree(ResetState(s))
  {
    if !ResetLocked(s) {
      assert ResetState(s).txs == Origin(s.txs) by { ResetGivesOrigin(s); }
      OriginUnmarked(s.txs);
    }
  }

  // ----- Deletions -----

  /** The calculations so far used `t`: a sale that is checked, or a purchase that was drawn on. */
  predicate Used(t: Tx) { if IsSale(t) then t.checked else IsPurchase(t) && !Untouched(t) }

  /** The deleted document has a replica that the calculations used. */
  ghost predicate DeletesUsed(s: State, f: FinTx) {
    f.posted && IsPurchaseDocument(f) && exists t :: t in s.txs && t.remote == Fin(f.id) && Used(t)
  }

  /** A weight that lies outside the deleted family keeps its sum. */
  lemma {:induction false} KeptSum(txs: seq<Tx>, root: Tx, f: Tx -> real)
    requires forall x :: x in txs && !OutOfFamily(root)(x) ==> f(x) == 0.0
    ensures SumBy(f, Filter(OutOfFamily(root), txs)) == SumBy(f, txs)
  {
    SumFilter(f, OutOfFamily(root), txs);
  }

  /** What a deletion takes when the replica was not used: nothing that was sold. */
  lemma {:induction false} UnusedFamily(s: State, root: Tx)
    requires Inv(s) && Marked(s) && root in s.txs && root.remote.Fin? && !Used(root)
    ensures forall x :: x in s.txs && !OutOfFamily(root)(x) ==> x.liquidation.None? && !(SaleShape(x) && x.checked)
  {
    assert WellFormed(root);
    forall x | x in s.txs && !OutOfFamily(root)(x) ensures x.liquidation.None? && !(SaleShape(x) && x.checked) {
      SameRoot(s, root, x);
      assert PurchaseShape(root) ==> !SoldPart(x, root.id);
      assert WellFormed(x);
    }
  }

  lemma {:induction false} UnusedDeleted(s: State, root: Tx)
    requires Inv(s) && Marked(s) && LogsAgree(s) && root in s.txs && root.remote.Fin? && !Used(root)
    ensures LogsAgree(s.(txs := Filter(OutOfFamily(root), s.txs)))
  {
    var txs := Filter(OutOfFamily(root), s.txs);
    UnusedFamily(s, root);
    FilterSound(OutOfFamily(root), s.txs);
    forall t | t in txs && SaleShape(t) && t.checked ensures LogAgrees(txs, t) { LogKept(s.txs, root, t); }
    forall t | t in txs && t.liquidation.Some? ensures NamesSale(txs, t) {
      assert NamesSale(s.txs, t);
      NameKept(s.txs, txs, t);
    }
  }

  lemma {:induction false} LogKept(txs: seq<Tx>, root: Tx, sale: Tx)
    requires LogAgrees(txs, sale) && forall x :: x in txs && !OutOfFamily(root)(x) ==> x.liquidation.None?
    ensures LogAgrees(Filter(OutOfFamily(root), txs), sale)
  {
    forall r, id
      ensures SumBy(Naming(sale.id, LotReading(r, id)), Filter(OutOfFamily(root), txs))
           == SumBy(Naming(sale.id, LotReading(r, id)), txs)
    {
      KeptSum(txs, root, Naming(sale.id, LotReading(r, id)));
    }
    KeptSum(txs, root, Naming(sale.id, Cost));
    SameNaming(txs, Filter(OutOfFamily(root), txs), sale);
  }

  lemma {:induction false} NameKept(a: seq<Tx>, b: seq<Tx>, t: Tx)
    requires NamesSale(a, t) && forall x :: x in a && SaleShape(x) && x.checked ==> x in b
    ensures NamesSale(b, t)
  {
    var sale :| sale in a && SaleShape(sale) && sale.checked && Names(t, sale.id);
    assert sale in b;
  }

  /** The log of a checked sale has an entry, so some lot names the sale. */
  lemma {:induction false} CheckedNamed(s: State, sale: Tx) returns (x: Tx)
    requires LogsAgree(s) && sale in s.txs && SaleShape(sale) && sale.checked
    ensures x in s.txs && Names(x, sale.id)
  {
    var entries := sale.purchaseLog.value;
    assert LogAgrees(s.txs, sale);
    assert |entries| > 0 by { assert SumBy(EntryQuantity, entries) == sale.amount > 0.0; }
    var root := entries[|entries| - 1].lot;
    EntryCounts(entries);
    if Unnamed(s.txs, sale.id) {
      UnnamedSum(s.txs, sale.id, LotReading(Count, root));
      assert false;
    }
    x :| x in s.txs && Names(x, sale.id);
  }

  lemma {:induction false} EntryCounts(entries: seq<Entry>)
    requires |entries| > 0
    ensures SumBy(EntryReading(Count, entries[|entries| - 1].lot), entries) > 0.0
  {
    var f, init := EntryReading(Count, entries[|entries| - 1].lot), entries[..|entries| - 1];
    SumNonNeg(f, init);
  }

  /** Deleting a checked sale leaves a lot that names no sale. */
  lemma {:induction false} SaleDeleted(s: State, sale: Tx)
    requires Inv(s) && LogsAgree(s) && sale in s.txs && SaleShape(sale) && sale.checked
    ensures !LogsAgree(s.(txs := Filter(OutOfFamily(sale), s.txs)))
  {
    var txs := Filter(OutOfFamily(sale), s.txs);
    FilterSound(OutOfFamily(sale), s.txs);
    var x := CheckedNamed(s, sale);
    assert WellFormed(x) && x.id != sale.id by { if x.id == sale.id { SameIdSame(s.txs, x, sale); } }
    assert x in txs;
    forall t | t in txs && SaleShape(t) && t.checked ensures !Names(x, t.id) { assert t.id != sale.id; }
    assert !NamesSale(txs, x);
  }

  /** Leaving out a weighing element takes from a sum. */
  lemma {:induction false} SumDrops(f: Tx -> real, p: Tx -> bool, xs: seq<Tx>, x: Tx)
    requires x in xs && !p(x) && f(x) > 0.0 && forall t :: t in xs ==> f(t) >= 0.0
    ensures SumBy(f, Filter(p, xs)) < SumBy(f, xs)
  {
    var init, last := xs[..|xs| - 1], xs[|xs| - 1];
    assert xs == init + [last] && forall t :: t in init ==> t in xs;
    if x in init {
      SumDrops(f, p, init, x);
    } else {
      SumFilterAtMost(f, p, init);
    }
    assert last in xs;
    if p(last) { SumSnoc(f, Filter(p, init), last); }
  }

  lemma {:induction false} SumFilterAtMost(f: Tx -> real, p: Tx -> bool, xs: seq<Tx>)
    requires forall t :: t in xs ==> f(t) >= 0.0
    ensures SumBy(f, Filter(p, xs)) <= SumBy(f, xs)
  {
    if |xs| > 0 {
      var init, last := xs[..|xs| - 1], xs[|xs| - 1];
      assert last in xs;
      SumFilterAtMost(f, p, init);
      if p(last) { SumSnoc(f, Filter(p, init), last); }
    }
  }

  /** A log that agreed does not agree once a lot that names its sale is gone. */
  lemma {:induction false} LogLoses(txs: seq<Tx>, p: Tx -> bool, sale: Tx, x: Tx)
    requires LogAgrees(txs, sale) && x in txs && !p(x) && Names(x, sale.id)
    ensures !LogAgrees(Filter(p, txs), sale)
  {
    var g := Naming(sale.id, LotReading(Count, RootOf(x)));
    forall t | t in txs ensures g(t) >= 0.0 {}
    SumDrops(g, p, txs, x);
  }

  /** Deleting a purchase that was drawn on leaves a sale whose log names a missing lot. */
  lemma {:induction false} PurchaseDeleted(s: State, root: Tx)
    requires Inv(s) && Marked(s) && LogsAgree(s) && root in s.txs && PurchaseShape(root) && !Untouched(root)
    ensures !LogsAgree(s.(txs := Filter(OutOfFamily(root), s.txs)))
  {
    var txs := Filter(OutOfFamily(root), s.txs);
    var x, sale := SoldSale(s, root);
    FilterSound(OutOfFamily(root), s.txs);
    assert OutOfFamily(root)(sale) by { if sale.id == root.id { SameIdSame(s.txs, sale, root); } }
    LogLoses(s.txs, OutOfFamily(root), sale, x);
    assert sale in txs;
  }

  /** A lot that was sold of a purchase that was drawn on, and the sale it names. */
  lemma {:induction false} SoldSale(s: State, root: Tx) returns (x: Tx, sale: Tx)
    requires Inv(s) && Marked(s) && LogsAgree(s) && root in s.txs && PurchaseShape(root) && !Untouched(root)
    ensures x in s.txs && !OutOfFamily(root)(x) && sale in s.txs && SaleShape(sale) && sale.checked && Names(x, sale.id)
    ensures LogAgrees(s.txs, sale) && sale.parent.None?
  {
    x :| x in s.txs && SoldPart(x, root.id);
    assert NamesSale(s.txs, x) && WellFormed(x);
    sale :| sale in s.txs && SaleShape(sale) && sale.checked && Names(x, sale.id);
  }

  /** When a deletion keeps the logs in agreement: exactly when the document's replica was not
      used by the calculations so far. */
  lemma {:induction false} DeleteLogsIff(s: State, f: FinTx)
    requires Inv(s) && Marked(s) && LogsAgree(s)
    ensures LogsAgree(Delete(s, f)) <==> !DeletesUsed(s, f)
  {
    var found := Filter(HasRemote(f.id), s.txs);
    FilterSound(HasRemote(f.id), s.txs);
    forall t | t in s.txs && t.remote == Fin(f.id) ensures t in found {}
    if f.posted && IsPurchaseDocument(f) && |found| > 0 {
      var t, s' := found[0], s.(txs := Filter(OutOfFamily(found[0]), s.txs));
      assert t in found && WellFormed(t);
      SameLogs(s', Delete(s, f));
      OnlyOneUsed(s, f, t);
      if !Used(t) {
        UnusedDeleted(s, t);
      } else if SaleShape(t) {
        SaleDeleted(s, t);
      } else {
        PurchaseDeleted(s, t);
      }
    }
  }

  /** The logs of a book are in its transactions. */
  lemma {:induction false} SameLogs(a: State, b: State)
    requires a.txs == b.txs
    ensures LogsAgree(a) <==> LogsAgree(b)
  {}

  lemma {:induction false} OnlyOneUsed(s: State, f: FinTx, t: Tx)
    requires Inv(s) && t in s.txs && t.remote == Fin(f.id) && f.posted && IsPurchaseDocument(f)
    ensures DeletesUsed(s, f) <==> Used(t)
  {
    forall x | x in s.txs && x.remote == Fin(f.id) ensures x == t { SameRemote(s.txs, x, t); }
  }

  // ----- Every run -----

  /** Since the last reset that found nothing locked, no deletion hit a replica in use. */
  ghost predicate SparesUsed(cfg: Config, steps: seq<Step>)
    decreases |steps|
  {
    |steps| > 0 ==>
      var init, step := steps[..|steps| - 1], steps[|steps| - 1];
      Resets(Run(cfg, init), step)
      || (SparesUsed(cfg, init) && (step.Deletion? ==> !DeletesUsed(Run(cfg, init), step.f)))
  }

  lemma {:induction false} StepLogs(cfg: Config, s: State, step: Step)
    requires Inv(s) && Marked(s) && cfg.halfUnit > 0.0
    requires Resets(s, step) || (LogsAgree(s) && (step.Deletion? ==> !DeletesUsed(s, step.f)))
    ensures LogsAgree(Do(cfg, s, step))
  {
    match step
    case Arrival(f, millis) => ArriveLogs(s, f, millis);
    case Calculating(fin, d) =>
      if s.rebuild {
        ResetLogs(s);
      } else if Calculate(cfg, fin, s, d).0.Calculated? {
        CommitLogs(cfg, fin, s, d);
      }
    case Resetting => ResetLogs(s);
    case Deletion(f) => DeleteLogsIff(s, f);
    case Locking(ids, cogs) => SameLogs(s, Do(cfg, s, step));
  }

  /** Log agreement: in every state reached without deleting a replica in use since the last
      reset, the purchase log of a checked sale and the lots that name the sale agree one to one,
      quantities and costs add up exactly, and every sold lot names a checked sale. */
  lemma {:induction false} LogAgreement(cfg: Config, steps: seq<Step>)
    requires AdmissibleRun(cfg, steps) && SparesUsed(cfg, steps) && cfg.halfUnit > 0.0
    ensures LogsAgree(Run(cfg, steps))
    decreases |steps|
  {
    if |steps| > 0 {
      var init, step := steps[..|steps| - 1], steps[|steps| - 1];
      RunKeeps(cfg, init);
      MarksHold(cfg, init);
      if !Resets(Run(cfg, init), step) { LogAgreement(cfg, init); }
      StepLogs(cfg, Run(cfg, init), step);
    }
  }
}
