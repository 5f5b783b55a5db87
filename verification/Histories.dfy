/** Short histories, worked out to the last property of every transaction and posting. */
module Histories {
  import opened Lists
  import opened Ledger
  import opened FifoOrder
  import opened Allocation
  import opened Settlement
  import opened Calculation
  import opened Commitment
  import opened Runs
  import opened TwoRuns
  import opened Extras
  import opened Batch
  import opened Arrivals
  import opened Samples

  // ----- A purchase and a sale -----

  /** Documents of a purchase and of a sale of no more than it. */
  ghost predicate SellsFrom(buy: FinTx, sale: FinTx, d: int) {
    && Buys(buy) && Sells(sale) && buy.id != sale.id && buy.date <= d && sale.date <= d && Units(sale) <= Units(buy)
  }

  lemma {:induction false} PairArrives(cfg: Config, buy: FinTx, sale: FinTx, d: int, millis: nat)
    requires SellsFrom(buy, sale, d)
    ensures var s, b, x := Run(cfg, ArrivalsOf([buy, sale], millis)), PurchaseReplica(buy, 1, millis),
            SaleReplica(sale, 2, millis);
            s == EMPTY.(txs := [b, x], nextId := 3) && Pair(s.txs, d, b, x)
              && AdmissibleRun(cfg, ArrivalsOf([buy, sale], millis))
  {
    var docs := [buy, sale];
    forall i, j | 0 <= i < j < 2 ensures DocOf(docs[i]) != DocOf(docs[j]) {}
    assert AllTrade(docs);
    DocsArrive(cfg, docs, millis);
    DocsAdmissible(cfg, docs, millis);
    assert ReplicasOf(docs, millis) == [PurchaseReplica(buy, 1, millis), SaleReplica(sale, 2, millis)];
  }

  /** A calculation of one sale that nothing stops. */
  lemma {:induction false} GoesThrough(cfg: Config, fin: seq<FinTx>, s: State, d: int, w: Work, x: Tx)
    requires Settle(cfg, fin, s.txs, d) == Ok(w) && SortedSales(s.txs, d) == [x] && s.locked == {}
    requires 0.0 < SalesTotal(s.txs, d) <= PurchasesTotal(s.txs, d)
    ensures Calculate(cfg, fin, s, d) == (Calculated, Commit(s, w, [x]))
  {}

  /** A calculation of the two, in an account that was never calculated. */
  lemma {:induction false} PairCalculates(cfg: Config, fin: seq<FinTx>, s: State, d: int, b: Tx, x: Tx)
    requires Pair(s.txs, d, b, x) && cfg.halfUnit > 0.0 && b.id == 1 && x.id == 2 && s.nextId == 3
    requires s.cogs == [] && s.calcDate == Absent && s.locked == {} && !s.rebuild
    ensures var m, r := MoveOn(cfg, fin, x, x.amount, b), Calculate(cfg, fin, s, d);
            && r.0.Calculated?
            && r.1 == s.(txs := [m.after, SettledOn(cfg, fin, x, b)] + Posted(PieceList(m), s),
                         cogs := [Cogs(2, x.date, SoldCost(m), x.amount)], calcDate := On(x.date),
                         nextId := 3 + |PieceList(m)|, nextUuid := s.nextUuid + |PieceList(m)|)
  {
    var m, done := MoveOn(cfg, fin, x, x.amount, b), SettledOn(cfg, fin, x, b);
    PairCollects(s.txs, d, b, x);
    PairSettles(cfg, fin, s.txs, d, b, x);
    var w := Settle(cfg, fin, s.txs, d).work;
    GoesThrough(cfg, fin, s, d, w, x);
    PieceCounts(m);
    CommitTwo(s, w, b, x, m.after, done);
    NewBook(s, w, x);
  }

  lemma {:induction false} NewBook(s: State, w: Work, x: Tx)
    requires s.cogs == [] && s.calcDate == Absent
    ensures Commit(s, w, [x]) == s.(txs := Commit(s, w, [x]).txs, cogs := w.cogs, calcDate := On(x.date),
                                    nextId := s.nextId + |w.created|, nextUuid := s.nextUuid + PendingCount(w.created))
  {
    assert [] + w.cogs == w.cogs;
  }

  lemma {:induction false} PieceCounts(m: Move)
    requires m.piece.Some? ==> m.piece.value.remote.Pending?
    ensures PendingCount(PieceList(m)) == |PieceList(m)|
  {
    if m.piece.Some? { assert [m.piece.value][..0] == []; }
  }

  lemma {:induction false} CommitTwo(s: State, w: Work, b: Tx, x: Tx, b': Tx, x': Tx)
    requires s.txs == [b, x] && b.id == 1 && x.id == 2 && s.nextId == 3 && w.updates == map[1 := b'][2 := x']
    ensures Commit(s, w, [x]).txs == [b', x'] + Posted(w.created, s)
  {
    var posted := Posted(w.created, s);
    UuidsKeep(w.created, s.nextUuid);
    forall t | t in posted ensures t.id !in w.updates { var i :| 0 <= i < |posted| && posted[i] == t; }
    ApplyAppend(w.updates, [b, x], posted);
    ApplyOther(w.updates, posted);
    assert Apply(w.updates, [b, x]) == [b', x'];
  }

  /** The history of the two documents and a calculation. */
  lemma {:induction false} PairRuns(cfg: Config, fin: seq<FinTx>, buy: FinTx, sale: FinTx, d: int, millis: nat)
    requires SellsFrom(buy, sale, d) && cfg.halfUnit > 0.0
    ensures var s0 := Run(cfg, ArrivalsOf([buy, sale], millis));
            var s := Run(cfg, ArrivalsOf([buy, sale], millis) + [Calculating(fin, d)]);
            && Calculate(cfg, fin, s0, d) == (Calculated, s) && Inv(s0) && Inv(s) && Passes(cfg, fin, s0, d)
            && s == After1(cfg, fin, s0, d)
            && AdmissibleRun(cfg, ArrivalsOf([buy, sale], millis) + [Calculating(fin, d)])
  {
    var steps := ArrivalsOf([buy, sale], millis);
    var s0 := Run(cfg, steps);
    PairArrives(cfg, buy, sale, d, millis);
    RunSnoc(cfg, steps, Calculating(fin, d));
    RunKeeps(cfg, steps);
    RunKeeps(cfg, steps + [Calculating(fin, d)]);
    PairCalculates(cfg, fin, s0, d, PurchaseReplica(buy, 1, millis), SaleReplica(sale, 2, millis));
    OnePasses(cfg, fin, s0, d);
  }

  // ----- The whole book -----

  /** The extras of the purchase, and its unit cost with them. */
  function CostsOf(fin: seq<FinTx>, buy: FinTx): real { SumBy(AdditionalCost(buy.date, buy.code), fin) }
  function CreditsOf(fin: seq<FinTx>, buy: FinTx): real { SumBy(CreditAmount(buy.date, buy.code), fin) }

  function UnitPaid(cfg: Config, fin: seq<FinTx>, buy: FinTx): real
    requires Units(buy) > 0.0
  {
    (cfg.div)(buy.amount + CostsOf(fin, buy) - CreditsOf(fin, buy), Units(buy))
  }

  function PartPaid(cfg: Config, fin: seq<FinTx>, buy: FinTx, sale: FinTx): real
    requires Units(buy) > 0.0
  {
    (cfg.times)(Units(sale), UnitPaid(cfg, fin, buy))
  }

  /** A purchase of which a part was sold. */
  function RestTx(cfg: Config, fin: seq<FinTx>, buy: FinTx, sale: FinTx, millis: nat): Tx
    requires 0.0 < Units(sale) < Units(buy)
  {
    Tx(1, Fin(buy.id), buy.date, buy.order, Some(millis), BuyToGood, Units(buy) - Units(sale), true, false, true,
       buy.code, Some(buy.amount + CostsOf(fin, buy) - CreditsOf(fin, buy) - PartPaid(cfg, fin, buy, sale)),
       Some(Units(buy)), Some(buy.amount), None, None, None,
       Some(CostsOf(fin, buy)), Some(Applied(0.0, CreditsOf(fin, buy))))
  }

  /** The part. */
  function PartTx(cfg: Config, fin: seq<FinTx>, buy: FinTx, sale: FinTx, id: nat, remote: RemoteId): Tx
    requires Units(buy) > 0.0
  {
    Tx(id, remote, buy.date, buy.order, None, BuyToGood, Units(sale), true, true, true,
       buy.code, Some(PartPaid(cfg, fin, buy, sale)), None, None, Some(1),
       Some(Liquidation(2, sale.date, Units(sale), UnitPaid(cfg, fin, buy))), None, None, None)
  }

  /** A purchase that was sold whole. */
  function WholeTx(cfg: Config, fin: seq<FinTx>, buy: FinTx, sale: FinTx, millis: nat): Tx
    requires Units(buy) > 0.0
  {
    Tx(1, Fin(buy.id), buy.date, buy.order, Some(millis), BuyToGood, Units(buy), true, true, true,
       buy.code, Some(buy.amount + CostsOf(fin, buy) - CreditsOf(fin, buy)),
       Some(Units(buy)), Some(buy.amount), None,
       Some(Liquidation(2, sale.date, Units(sale), UnitPaid(cfg, fin, buy))), None,
       Some(CostsOf(fin, buy)), Some(Applied(0.0, CreditsOf(fin, buy))))
  }

  /** The sale, settled. */
  function DoneTx(cfg: Config, fin: seq<FinTx>, buy: FinTx, sale: FinTx, cost: real, millis: nat): Tx
    requires Units(buy) > 0.0
  {
    Tx(2, Fin(sale.id), sale.date, sale.order, Some(millis), GoodToSell, Units(sale), true, true, true, None,
       Some(cost), None, None, None, None, Some([Entry(1, Units(sale), UnitPaid(cfg, fin, buy))]), None, None)
  }

  lemma {:induction false} PartMove(cfg: Config, fin: seq<FinTx>, buy: FinTx, sale: FinTx, millis: nat)
    requires 0.0 < Units(sale) < Units(buy)
    ensures var b, x := PurchaseReplica(buy, 1, millis), SaleReplica(sale, 2, millis);
            && MoveOn(cfg, fin, x, x.amount, b)
               == Move(b, RestTx(cfg, fin, buy, sale, millis), Some(PartTx(cfg, fin, buy, sale, 0, Pending)))
            && SettledOn(cfg, fin, x, b) == DoneTx(cfg, fin, buy, sale, PartPaid(cfg, fin, buy, sale), millis)
  {}

  lemma {:induction false} WholeMove(cfg: Config, fin: seq<FinTx>, buy: FinTx, sale: FinTx, millis: nat)
    requires 0.0 < Units(sale) == Units(buy)
    ensures var b, x := PurchaseReplica(buy, 1, millis), SaleReplica(sale, 2, millis);
            && MoveOn(cfg, fin, x, x.amount, b) == Move(b, WholeTx(cfg, fin, buy, sale, millis), None)
            && SettledOn(cfg, fin, x, b)
               == DoneTx(cfg, fin, buy, sale, buy.amount + CostsOf(fin, buy) - CreditsOf(fin, buy), millis)
  {}

  lemma {:induction false} PostedOne(y: Tx, s: State)
    requires y.remote.Pending?
    ensures Posted([y], s) == [y.(id := s.nextId, remote := Uuid(s.nextUuid))]
  {
    assert [y][..0] == [] && WithUuids([], s.nextUuid) == [];
    assert [] + [y.(remote := Uuid(s.nextUuid))] == [y.(remote := Uuid(s.nextUuid))];
  }

  lemma {:induction false} ThenCalculated(cfg: Config, steps: seq<Step>, fin: seq<FinTx>, d: int, s: State)
    requires !s.rebuild && Run(cfg, steps) == s
    ensures Run(cfg, steps + [Calculating(fin, d)]) == Calculate(cfg, fin, s, d).1
  {
    RunSnoc(cfg, steps, Calculating(fin, d));
  }

  /** The two documents, arrived. */
  function PairBook(buy: FinTx, sale: FinTx, millis: nat): State {
    EMPTY.(txs := [PurchaseReplica(buy, 1, millis), SaleReplica(sale, 2, millis)], nextId := 3)
  }

  /** A part of a purchase is sold: every property of every transaction and posting. */
  lemma {:induction false} PartSold(cfg: Config, fin: seq<FinTx>, buy: FinTx, sale: FinTx, d: int, millis: nat)
    requires SellsFrom(buy, sale, d) && Units(sale) < Units(buy) && cfg.halfUnit > 0.0
    ensures Run(cfg, ArrivalsOf([buy, sale], millis) + [Calculating(fin, d)])
         == State([RestTx(cfg, fin, buy, sale, millis),
                   DoneTx(cfg, fin, buy, sale, PartPaid(cfg, fin, buy, sale), millis),
                   PartTx(cfg, fin, buy, sale, 3, Uuid(0))],
                  [Cogs(2, sale.date, PartPaid(cfg, fin, buy, sale), Units(sale))], On(sale.date), false, {}, {}, 4, 1)
  {
    PairArrives(cfg, buy, sale, d, millis);
    ThenCalculated(cfg, ArrivalsOf([buy, sale], millis), fin, d, PairBook(buy, sale, millis));
    PartBook(cfg, fin, buy, sale, d, millis);
  }

  lemma {:induction false} PartBook(cfg: Config, fin: seq<FinTx>, buy: FinTx, sale: FinTx, d: int, millis: nat)
    requires SellsFrom(buy, sale, d) && Units(sale) < Units(buy) && cfg.halfUnit > 0.0
    ensures Calculate(cfg, fin, PairBook(buy, sale, millis), d).1
         == State([RestTx(cfg, fin, buy, sale, millis),
                   DoneTx(cfg, fin, buy, sale, PartPaid(cfg, fin, buy, sale), millis),
                   PartTx(cfg, fin, buy, sale, 3, Uuid(0))],
                  [Cogs(2, sale.date, PartPaid(cfg, fin, buy, sale), Units(sale))], On(sale.date), false, {}, {}, 4, 1)
  {
    PartMove(cfg, fin, buy, sale, millis);
    PairSold(cfg, fin, buy, sale, d, millis);
    PostedOne(PartTx(cfg, fin, buy, sale, 0, Pending), PairBook(buy, sale, millis));
  }

  lemma {:induction false} PairSold(cfg: Config, fin: seq<FinTx>, buy: FinTx, sale: FinTx, d: int, millis: nat)
    requires SellsFrom(buy, sale, d) && cfg.halfUnit > 0.0
    ensures var b, x, s := PurchaseReplica(buy, 1, millis), SaleReplica(sale, 2, millis), PairBook(buy, sale, millis);
            var m := MoveOn(cfg, fin, x, x.amount, b);
            Calculate(cfg, fin, s, d).1
            == State([m.after, SettledOn(cfg, fin, x, b)] + Posted(PieceList(m), s),
                     [Cogs(2, sale.date, SoldCost(m), Units(sale))], On(sale.date), false, {}, {}, 3 + |PieceList(m)|,
                     |PieceList(m)|)
  {
    PairCalculates(cfg, fin, PairBook(buy, sale, millis), d, PurchaseReplica(buy, 1, millis),
                   SaleReplica(sale, 2, millis));
  }

  /** A purchase is sold whole: every property of every transaction and posting. */
  lemma {:induction false} SoldWhole(cfg: Config, fin: seq<FinTx>, buy: FinTx, sale: FinTx, d: int, millis: nat)
    requires SellsFrom(buy, sale, d) && Units(sale) == Units(buy) && cfg.halfUnit > 0.0
    ensures var cost := buy.amount + CostsOf(fin, buy) - CreditsOf(fin, buy);
            Run(cfg, ArrivalsOf([buy, sale], millis) + [Calculating(fin, d)])
            == State([WholeTx(cfg, fin, buy, sale, millis), DoneTx(cfg, fin, buy, sale, cost, millis)],
                     [Cogs(2, sale.date, cost, Units(sale))], On(sale.date), false, {}, {}, 3, 0)
  {
    PairArrives(cfg, buy, sale, d, millis);
    ThenCalculated(cfg, ArrivalsOf([buy, sale], millis), fin, d, PairBook(buy, sale, millis));
    WholeBook(cfg, fin, buy, sale, d, millis);
  }

  lemma {:induction false} WholeBook(cfg: Config, fin: seq<FinTx>, buy: FinTx, sale: FinTx, d: int, millis: nat)
    requires SellsFrom(buy, sale, d) && Units(sale) == Units(buy) && cfg.halfUnit > 0.0
    ensures var cost := buy.amount + CostsOf(fin, buy) - CreditsOf(fin, buy);
            Calculate(cfg, fin, PairBook(buy, sale, millis), d).1
            == State([WholeTx(cfg, fin, buy, sale, millis), DoneTx(cfg, fin, buy, sale, cost, millis)],
                     [Cogs(2, sale.date, cost, Units(sale))], On(sale.date), false, {}, {}, 3, 0)
  {
    WholeMove(cfg, fin, buy, sale, millis);
    PairSold(cfg, fin, buy, sale, d, millis);
    var lot, done := WholeTx(cfg, fin, buy, sale, millis),
      DoneTx(cfg, fin, buy, sale, buy.amount + CostsOf(fin, buy) - CreditsOf(fin, buy), millis);
    assert [lot, done] + [] == [lot, done];
  }

  lemma {:induction false} WholePosting(cfg: Config, fin: seq<FinTx>, buy: FinTx, sale: FinTx, d: int, millis: nat)
    requires SellsFrom(buy, sale, d) && Units(sale) == Units(buy) && cfg.halfUnit > 0.0
    ensures Run(cfg, ArrivalsOf([buy, sale], millis) + [Calculating(fin, d)]).cogs
         == [Cogs(2, sale.date, buy.amount + (CostsOf(fin, buy) - CreditsOf(fin, buy)), Units(sale))]
  {
    SoldWhole(cfg, fin, buy, sale, d, millis);
  }

  // ----- The documents that arrived are those that are read -----

  /** A purchase document that carries its own code as invoice is no extra of its purchase, and a
      sale document without a purchase code is none either: a purchase sold whole is posted at what
      was paid for it, whatever the rounding. */
  lemma {:induction false} OwnDocuments(cfg: Config, buy: FinTx, sale: FinTx, d: int, millis: nat)
    requires SellsFrom(buy, sale, d) && Units(sale) == Units(buy) && cfg.halfUnit > 0.0
    requires buy.code == buy.purchaseInvoice && buy.creditNote.None? && sale.code.None?
    ensures Run(cfg, ArrivalsOf([buy, sale], millis) + [Calculating([buy, sale], d)]).cogs
         == [Cogs(2, sale.date, buy.amount, Units(sale))]
  {
    assert CostsOf([buy, sale], buy) - CreditsOf([buy, sale], buy) == 0.0 by { TwoRead(buy, sale); }
    WholePosting(cfg, [buy, sale], buy, sale, d, millis);
  }

  lemma {:induction false} TwoRead(buy: FinTx, sale: FinTx)
    ensures CostsOf([buy, sale], buy) - CreditsOf([buy, sale], buy)
         == DocumentAdds(buy, PurchaseReplica(buy, 1, 0)) + DocumentAdds(sale, PurchaseReplica(buy, 1, 0))
  {
    BookReads([], buy, buy);
    BookReads([buy], sale, buy);
    assert [] + [buy] == [buy] && [buy] + [sale] == [buy, sale];
  }

  /** One document more in the book. */
  lemma {:induction false} BookReads(fin: seq<FinTx>, f: FinTx, buy: FinTx)
    ensures CostsOf([], buy) == CreditsOf([], buy) == 0.0
    ensures CostsOf(fin + [f], buy) - CreditsOf(fin + [f], buy)
         == CostsOf(fin, buy) - CreditsOf(fin, buy) + DocumentAdds(f, PurchaseReplica(buy, 1, 0))
  {
    CostAdds(fin, f, PurchaseReplica(buy, 1, 0));
  }

  /** With freight and a credit of the purchase in the book as well, checked and within sixty days, it
      is posted at what was paid plus the freight less the credit. */
  lemma {:induction false} FreightAndCredit(cfg: Config, buy: FinTx, sale: FinTx, freight: FinTx, credit: FinTx, d: int,
                                            millis: nat)
    requires SellsFrom(buy, sale, d) && Units(sale) == Units(buy) && cfg.halfUnit > 0.0
    requires buy.code == buy.purchaseInvoice && buy.creditNote.None? && sale.code.None?
    requires freight.checked && freight.code == buy.code && -60 <= freight.date - buy.date < 60
             && freight.debitsGood && freight.purchaseInvoice.Some? && freight.purchaseInvoice != buy.code
    requires credit.checked && credit.code == buy.code && -60 <= credit.date - buy.date < 60
             && credit.creditsGood && !credit.debitsGood && credit.creditNote.Some?
    ensures Run(cfg, ArrivalsOf([buy, sale], millis) + [Calculating([buy, sale, freight, credit], d)]).cogs
         == [Cogs(2, sale.date, buy.amount + freight.amount - credit.amount, Units(sale))]
  {
    var fin := [buy, sale, freight, credit];
    assert CostsOf(fin, buy) - CreditsOf(fin, buy) == freight.amount - credit.amount by {
      FourRead(buy, sale, freight, credit);
    }
    WholePosting(cfg, fin, buy, sale, d, millis);
  }

  lemma {:induction false} FourRead(buy: FinTx, sale: FinTx, freight: FinTx, credit: FinTx)
    ensures var fin, b := [buy, sale, freight, credit], PurchaseReplica(buy, 1, 0);
            CostsOf(fin, buy) - CreditsOf(fin, buy)
            == DocumentAdds(buy, b) + DocumentAdds(sale, b) + DocumentAdds(freight, b) + DocumentAdds(credit, b)
  {
    TwoRead(buy, sale);
    BookReads([buy, sale], freight, buy);
    BookReads([buy, sale, freight], credit, buy);
    assert [buy, sale] + [freight] == [buy, sale, freight];
    assert [buy, sale, freight] + [credit] == [buy, sale, freight, credit];
  }

  // ----- Two purchases of one day -----

  lemma {:induction false} SortByOrder(x: Tx, y: Tx)
    requires x.date == y.date && y.order < x.order
    ensures Sort([x, y]) == [y, x]
  {
    assert [x, y][..1] == [x] && [x][..0] == [];
    SortOne(x);
    assert Insert([], y) == [] + [y] == [y] && [y] + [x] == [y, x];
  }

  /** Documents of two purchases of one day, the one with the higher order first, and of a sale of all
      of the other. */
  ghost predicate SameDay(late: FinTx, early: FinTx, sale: FinTx, d: int) {
    && Buys(late) && Buys(early) && Sells(sale) && AllTrade([late, early, sale]) && late.code != early.code
    && late.date == early.date <= d && sale.date <= d && early.order < late.order && Units(sale) == Units(early)
  }

  lemma {:induction false} SameDayOpens(txs: seq<Tx>, d: int, q: Tx, p: Tx, x: Tx)
    requires txs == [q, p, x] && IsPurchase(q) && IsPurchase(p) && IsSale(x) && !q.checked && !p.checked && !x.checked
    requires q.code != p.code && q.date == p.date <= d && x.date <= d && p.order < q.order
    ensures Opening(txs, d) == Ok(Start([p, q])) && SortedSales(txs, d) == [x]
    ensures SalesTotal(txs, d) == x.amount && PurchasesTotal(txs, d) == q.amount + p.amount
  {
    FilterThree(OpenPurchases(d), q, p, x);
    FilterThree(OpenSales(d), q, p, x);
    FilterThree(OpenNotes(d), q, p, x);
    assert Filter(OpenPurchases(d), txs) == [q, p] && Filter(OpenNotes(d), txs) == [];
    assert Filter(OpenSales(d), txs) == [x];
    KeyedDistinct(CodeOf, [q, p]);
    assert NotesBy(txs, d) == [] && LotsBy(txs, d) == [q, p];
    SortByOrder(q, p);
    SortOne(x);
    SumTwo(AmountOf, q, p);
    SumOne(AmountOf, x);
  }

  lemma {:induction false} SameDayCalculates(cfg: Config, fin: seq<FinTx>, s: State, d: int, q: Tx, p: Tx, x: Tx)
    requires s.txs == [q, p, x] && IsPurchase(q) && IsPurchase(p) && IsSale(x) && !q.checked && !p.checked && !x.checked
    requires q.code != p.code && q.date == p.date <= d && x.date <= d && p.order < q.order
    requires q.id == 1 && p.id == 2 && x.id == 3 && 0.0 < x.amount == p.amount && cfg.halfUnit > 0.0
    requires s.locked == {} && s.cogs == []
    ensures var r := Calculate(cfg, fin, s, d);
            && r.0.Calculated? && r.1.cogs == [Cogs(3, x.date, UpdatedCost(fin, p), x.amount)] && |r.1.txs| > 0
            && r.1.txs[0] == q
  {
    var w := SameDaySettles(cfg, fin, s, d, q, p, x);
    GoesThrough(cfg, fin, s, d, w, x);
    assert [] + w.cogs == w.cogs;
    assert Apply(w.updates, s.txs + Posted(w.created, s))[0] == q;
  }

  lemma {:induction false} SameDaySettles(cfg: Config, fin: seq<FinTx>, s: State, d: int, q: Tx, p: Tx, x: Tx)
    returns (w: Work)
    requires s.txs == [q, p, x] && IsPurchase(q) && IsPurchase(p) && IsSale(x) && !q.checked && !p.checked && !x.checked
    requires q.code != p.code && q.date == p.date <= d && x.date <= d && p.order < q.order
    requires p.id == 2 && x.id == 3 && 0.0 < x.amount == p.amount && cfg.halfUnit > 0.0
    ensures Settle(cfg, fin, s.txs, d) == Ok(w) && SortedSales(s.txs, d) == [x]
    ensures 0.0 < SalesTotal(s.txs, d) <= PurchasesTotal(s.txs, d)
    ensures w.updates.Keys == {2, 3} && w.cogs == [Cogs(3, x.date, UpdatedCost(fin, p), x.amount)]
  {
    SameDayOpens(s.txs, d, q, p, x);
    ProcessOne(RunMovers(cfg, fin), cfg.halfUnit, x, Start([p, q]));
    assert [p, q] == [p] + [q];
    SaleOnOne(cfg, fin, x, p, [q], Start([p, q]));
    w := Settle(cfg, fin, s.txs, d).work;
  }

  /** Of two purchases of one day, the sale is costed from the one with the lower order, although it
      came last; the other is left as it was. */
  lemma {:induction false} LowerOrderFirst(cfg: Config, fin: seq<FinTx>, late: FinTx, early: FinTx, sale: FinTx, d: int,
                                           millis: nat)
    requires SameDay(late, early, sale, d) && cfg.halfUnit > 0.0
    ensures var s := Run(cfg, ArrivalsOf([late, early, sale], millis) + [Calculating(fin, d)]);
            && s.cogs == [Cogs(3, sale.date, early.amount + CostsOf(fin, early) - CreditsOf(fin, early), Units(sale))]
            && |s.txs| > 0 && s.txs[0] == PurchaseReplica(late, 1, millis)
  {
    var q, p, x := PurchaseReplica(late, 1, millis), PurchaseReplica(early, 2, millis), SaleReplica(sale, 3, millis);
    ThreeArrive(cfg, late, early, sale, millis);
    var c := Cogs(3, sale.date, early.amount + CostsOf(fin, early) - CreditsOf(fin, early), Units(sale));
    assert c == Cogs(3, x.date, UpdatedCost(fin, p), x.amount) by { PaidFor(fin, early, 2, millis); }
    SameDayRuns(cfg, fin, ArrivalsOf([late, early, sale], millis), d, q, p, x, c);
  }

  lemma {:induction false} PaidFor(fin: seq<FinTx>, f: FinTx, id: nat, millis: nat)
    ensures UpdatedCost(fin, PurchaseReplica(f, id, millis)) == f.amount + CostsOf(fin, f) - CreditsOf(fin, f)
  {}

  lemma {:induction false} SameDayRuns(cfg: Config, fin: seq<FinTx>, steps: seq<Step>, d: int, q: Tx, p: Tx, x: Tx,
                                       c: Cogs)
    requires c == Cogs(3, x.date, UpdatedCost(fin, p), x.amount)
    requires Run(cfg, steps) == EMPTY.(txs := [q, p, x], nextId := 4)
    requires IsPurchase(q) && IsPurchase(p) && IsSale(x) && !q.checked && !p.checked && !x.checked
    requires q.code != p.code && q.date == p.date <= d && x.date <= d && p.order < q.order
    requires q.id == 1 && p.id == 2 && x.id == 3 && 0.0 < x.amount == p.amount && cfg.halfUnit > 0.0
    ensures var s := Run(cfg, steps + [Calculating(fin, d)]);
            s.cogs == [c] && |s.txs| > 0 && s.txs[0] == q
  {
    var s := Run(cfg, steps);
    ThenCalculated(cfg, steps, fin, d, s);
    SameDayCalculates(cfg, fin, s, d, q, p, x);
  }

  lemma {:induction false} ThreeArrive(cfg: Config, a: FinTx, b: FinTx, c: FinTx, millis: nat)
    requires AllTrade([a, b, c])
    ensures Run(cfg, ArrivalsOf([a, b, c], millis))
         == EMPTY.(txs := [ReplicaOf(a, 1, millis), ReplicaOf(b, 2, millis), ReplicaOf(c, 3, millis)], nextId := 4)
  {
    DocsArrive(cfg, [a, b, c], millis);
    assert ReplicasOf([a, b, c], millis) == [ReplicaOf(a, 1, millis), ReplicaOf(b, 2, millis), ReplicaOf(c, 3, millis)];
  }

  // ----- A purchase, a credit note and a sale -----

  /** Documents of a purchase, of a return of part of it, and of a sale of part of the rest. */
  ghost predicate ReturnsThenSells(buy: FinTx, back: FinTx, sale: FinTx, d: int) {
    && Buys(buy) && Returns(back) && Sells(sale) && AllTrade([buy, back, sale]) && back.code == buy.code
    && buy.date <= d && back.date <= d && sale.date <= d && Units(back) + Units(sale) < Units(buy)
  }

  /** The unit cost of what the note leaves. */
  function UnitLeft(cfg: Config, fin: seq<FinTx>, buy: FinTx, back: FinTx): real
    requires Units(back) < Units(buy)
  {
    (cfg.div)(buy.amount + CostsOf(fin, buy) - CreditsOf(fin, buy), Units(buy) - Units(back))
  }

  /** The book after the calculation, property by property. */
  function NotedBook(cfg: Config, fin: seq<FinTx>, buy: FinTx, back: FinTx, sale: FinTx, millis: nat): seq<Tx>
    requires Units(back) + Units(sale) < Units(buy) && back.creditNote.Some?
  {
    var total, unit := buy.amount + CostsOf(fin, buy) - CreditsOf(fin, buy), UnitLeft(cfg, fin, buy, back);
    var sold := (cfg.times)(Units(sale), unit);
    [Tx(1, Fin(buy.id), buy.date, buy.order, Some(millis), BuyToGood, Units(buy) - Units(back) - Units(sale), true,
        false,
        true, buy.code, Some(total - sold), Some(Units(buy)), Some(buy.amount), None, None, None,
        Some(CostsOf(fin, buy)), Some(Applied(Units(back), CreditsOf(fin, buy)))),
     Tx(2, Fin(back.id), back.date, back.order, Some(millis), GoodToBuy, Units(back), true, true, true, back.code,
        None, None, None, None, None, None, None, Some(Number(back.creditNote.value))),
     Tx(3, Fin(sale.id), sale.date, sale.order, Some(millis), GoodToSell, Units(sale), true, true, true, None,
        Some(sold), None, None, None, None, Some([Entry(1, Units(sale), unit)]), None, None),
     Tx(4, Note(back.creditNote.value), buy.date, 0, None, BuyToGood, Units(back), true, true, true, buy.code,
        None, None, None, Some(1), None, None, None, Some(Number(back.creditNote.value))),
     Tx(5, Uuid(0), buy.date, buy.order, None, BuyToGood, Units(sale), true, true, true, buy.code,
        Some(sold), None, None, Some(1), Some(Liquidation(3, sale.date, Units(sale), unit)), None, None, None)]
  }

  lemma {:induction false} NotedOpens(txs: seq<Tx>, d: int, b: Tx, n: Tx, x: Tx)
    requires txs == [b, n, x] && IsPurchase(b) && IsCreditNote(n) && IsSale(x) && !b.checked && !n.checked && !x.checked
    requires b.date <= d && n.date <= d && x.date <= d && n.code == b.code && n.amount < b.amount
    ensures var lot := b.(amount := b.amount - n.amount);
            Opening(txs, d) == Ok(Work([lot], map[b.id := lot][n.id := n.(checked := true)], [NoteSplit(b, n)], [], []))
    ensures SortedSales(txs, d) == [x] && SalesTotal(txs, d) == x.amount
            && PurchasesTotal(txs, d) == b.amount - n.amount
  {
    FilterThree(OpenPurchases(d), b, n, x);
    FilterThree(OpenSales(d), b, n, x);
    FilterThree(OpenNotes(d), b, n, x);
    KeyedOne(CodeOf, b);
    KeyedOne(NumberOf, n);
    SumOne(AmountOf, b);
    SumOne(AmountOf, n);
    SumOne(AmountOf, x);
    SortOne(x);
    SortOne(b.(amount := b.amount - n.amount));
    NoteApplied(b, n);
  }

  lemma {:induction false} NoteApplied(b: Tx, n: Tx)
    requires n.code == b.code && n.amount < b.amount
    ensures var lot := b.(amount := b.amount - n.amount);
            ApplyNotes([n], Start([b]))
            == Ok(Work([lot], map[b.id := lot][n.id := n.(checked := true)], [NoteSplit(b, n)], [], []))
  {
    assert [n][..0] == [] && ApplyNotes([], Start([b])) == Ok(Start([b])) && IndexOf([b], n.code) == 0;
    assert [] + [NoteSplit(b, n)] == [NoteSplit(b, n)];
  }

  lemma {:induction false} NotedSettles(cfg: Config, fin: seq<FinTx>, txs: seq<Tx>, d: int, b: Tx, n: Tx, x: Tx)
    requires txs == [b, n, x] && IsPurchase(b) && IsCreditNote(n) && IsSale(x) && !b.checked && !n.checked && !x.checked
    requires b.date <= d && n.date <= d && x.date <= d && n.code == b.code && n.amount + x.amount < b.amount
    requires cfg.halfUnit > 0.0 && b.id == 1 && n.id == 2 && x.id == 3
    ensures var lot := b.(amount := b.amount - n.amount); var m := MoveOn(cfg, fin, x, x.amount, lot);
            Settle(cfg, fin, txs, d)
            == Ok(Work([m.after], map[1 := m.after, 2 := n.(checked := true), 3 := SettledOn(cfg, fin, x, lot)],
                       [NoteSplit(b, n)] + PieceList(m), [Cogs(3, x.date, SoldCost(m), x.amount)],
                       [SettledOn(cfg, fin, x, lot)]))
  {
    var lot := b.(amount := b.amount - n.amount);
    NotedOpens(txs, d, b, n, x);
    var v, m := Opening(txs, d).work, MoveOn(cfg, fin, x, x.amount, lot);
    OneSale(cfg, fin, x, lot, v);
    SameUpdates(lot, n.(checked := true), m.after, SettledOn(cfg, fin, x, lot));
  }

  lemma {:induction false} SameUpdates(a: Tx, b: Tx, a': Tx, c: Tx)
    ensures map[1 := a][2 := b][1 := a'][3 := c] == map[1 := a', 2 := b, 3 := c]
  {}

  lemma {:induction false} NotedCommits(s: State, w: Work, b: Tx, n: Tx, x: Tx, b': Tx, n': Tx, x': Tx, y: Tx,
                                        z: Tx)
    requires s.txs == [b, n, x] && b.id == 1 && n.id == 2 && x.id == 3 && s.nextId == 4 && s.nextUuid == 0
    requires w.updates == map[1 := b', 2 := n', 3 := x'] && w.created == [y, z] && y.remote.Note? && z.remote.Pending?
    ensures Commit(s, w, [x]).txs
         == [b', n', x', y.(id := 4), z.(id := 5, remote := Uuid(0))]
  {
    var posted := Posted([y, z], s);
    assert [y, z][..1] == [y] && [y][..0] == [] && WithUuids([], 0) == [] && PendingCount([]) == 0;
    assert WithUuids([y], 0) == [] + [y] == [y] && PendingCount([y]) == 0;
    assert WithUuids([y, z], 0) == [y] + [z.(remote := Uuid(0))] == [y, z.(remote := Uuid(0))];
    assert posted == [y.(id := 4), z.(id := 5, remote := Uuid(0))];
    assert s.txs + posted == [b, n, x, y.(id := 4), z.(id := 5, remote := Uuid(0))];
  }

  /** A return and then a sale of parts of a purchase, calculated at once: every property of every
      transaction. */
  lemma {:induction false} NotedAndSold(cfg: Config, fin: seq<FinTx>, buy: FinTx, back: FinTx, sale: FinTx, d: int,
                                        millis: nat)
    requires ReturnsThenSells(buy, back, sale, d) && cfg.halfUnit > 0.0
    ensures Run(cfg, ArrivalsOf([buy, back, sale], millis) + [Calculating(fin, d)]).txs
         == NotedBook(cfg, fin, buy, back, sale, millis)
  {
    var b, n, x := PurchaseReplica(buy, 1, millis), NoteReplica(back, 2, millis), SaleReplica(sale, 3, millis);
    var s := EMPTY.(txs := [b, n, x], nextId := 4);
    assert Run(cfg, ArrivalsOf([buy, back, sale], millis)) == s by { ThreeArrive(cfg, buy, back, sale, millis); }
    RunSnoc(cfg, ArrivalsOf([buy, back, sale], millis), Calculating(fin, d));
    NotedResult(cfg, fin, s, buy, back, sale, d, millis);
  }

  lemma {:induction false} NotedResult(cfg: Config, fin: seq<FinTx>, s: State, buy: FinTx, back: FinTx, sale: FinTx,
                                       d: int,
                                       millis: nat)
    requires ReturnsThenSells(buy, back, sale, d) && cfg.halfUnit > 0.0
    requires s == EMPTY.(txs := [PurchaseReplica(buy, 1, millis), NoteReplica(back, 2, millis),
                                 SaleReplica(sale, 3, millis)], nextId := 4)
    ensures CalculateAccount(cfg, fin, s, d).1.txs == NotedBook(cfg, fin, buy, back, sale, millis)
  {
    NotedCalculates(cfg, fin, s, d, PurchaseReplica(buy, 1, millis), NoteReplica(back, 2, millis),
                    SaleReplica(sale, 3, millis));
    NotedFields(cfg, fin, buy, back, sale, millis);
  }

  lemma {:induction false} NotedWork(cfg: Config, fin: seq<FinTx>, s: State, d: int, b: Tx, n: Tx, x: Tx, lot: Tx,
                                     m: Move) returns (w: Work)
    requires s.txs == [b, n, x] && b.id == 1 && n.id == 2 && x.id == 3 && cfg.halfUnit > 0.0
    requires IsPurchase(b) && IsCreditNote(n) && IsSale(x) && !b.checked && !n.checked && !x.checked && 0.0 < x.amount
    requires b.date <= d && n.date <= d && x.date <= d && n.code == b.code && n.amount + x.amount < b.amount
    requires lot == b.(amount := b.amount - n.amount) && m == MoveOn(cfg, fin, x, x.amount, lot)
    ensures m.piece.Some? && m.piece.value.remote.Pending?
    ensures Settle(cfg, fin, s.txs, d) == Ok(w) && SortedSales(s.txs, d) == [x]
    ensures 0.0 < SalesTotal(s.txs, d) <= PurchasesTotal(s.txs, d)
    ensures w.updates == map[1 := m.after, 2 := n.(checked := true), 3 := SettledOn(cfg, fin, x, lot)]
    ensures w.created == [NoteSplit(b, n), m.piece.value]
  {
    NotedOpens(s.txs, d, b, n, x);
    NotedSettles(cfg, fin, s.txs, d, b, n, x);
    w := Settle(cfg, fin, s.txs, d).work;
    assert [NoteSplit(b, n)] + PieceList(m) == [NoteSplit(b, n), m.piece.value];
  }

  lemma {:induction false} NotedCalculates(cfg: Config, fin: seq<FinTx>, s: State, d: int, b: Tx, n: Tx, x: Tx)
    requires s.txs == [b, n, x] && s.nextId == 4 && s.nextUuid == 0 && !s.rebuild && s.locked == {}
    requires b.id == 1 && n.id == 2 && x.id == 3 && cfg.halfUnit > 0.0
    requires IsPurchase(b) && IsCreditNote(n) && IsSale(x) && !b.checked && !n.checked && !x.checked && 0.0 < x.amount
    requires b.date <= d && n.date <= d && x.date <= d && n.code == b.code && n.amount + x.amount < b.amount
    ensures var lot := b.(amount := b.amount - n.amount); var m := MoveOn(cfg, fin, x, x.amount, lot);
            && m.piece.Some?
            && CalculateAccount(cfg, fin, s, d).1.txs
               == [m.after, n.(checked := true), SettledOn(cfg, fin, x, lot), NoteSplit(b, n).(id := 4),
                   m.piece.value.(id := 5, remote := Uuid(0))]
  {
    var lot := b.(amount := b.amount - n.amount);
    var m := MoveOn(cfg, fin, x, x.amount, lot);
    var w := NotedWork(cfg, fin, s, d, b, n, x, lot, m);
    GoesThrough(cfg, fin, s, d, w, x);
    NotedCommits(s, w, b, n, x, m.after, n.(checked := true), SettledOn(cfg, fin, x, lot), NoteSplit(b, n),
                 m.piece.value);
  }

  lemma {:induction false} NotedFields(cfg: Config, fin: seq<FinTx>, buy: FinTx, back: FinTx, sale: FinTx, millis: nat)
    requires Buys(buy) && Returns(back) && Sells(sale) && back.code == buy.code
             && Units(back) + Units(sale) < Units(buy)
    ensures var b, n, x := PurchaseReplica(buy, 1, millis), NoteReplica(back, 2, millis), SaleReplica(sale, 3, millis);
            var lot := b.(amount := b.amount - n.amount); var m := MoveOn(cfg, fin, x, x.amount, lot);
            && m.piece.Some?
            && NotedBook(cfg, fin, buy, back, sale, millis)
               == [m.after, n.(checked := true), SettledOn(cfg, fin, x, lot), NoteSplit(b, n).(id := 4),
                   m.piece.value.(id := 5, remote := Uuid(0))]
  {}

  // ----- A second draw -----

  /** A draw on a purchase that was drawn on before reads no extras: it overwrites the additional costs
      with zero, and the note with what was taken so far and a zero amount. */
  lemma {:induction false} SecondDraw(cfg: Config, fin: seq<FinTx>, sale: Tx, need: Quantity, lot: Tx)
    requires (lot.addCosts.Some? || lot.creditNote.Some?) && lot.originalQuantity.Some? && lot.totalCost.Some?
    ensures var m, unit := MoveOn(cfg, fin, sale, need, lot), (cfg.div)(lot.totalCost.value, lot.amount);
            && m.after.addCosts == Some(0.0)
            && m.after.creditNote == Some(Applied(lot.originalQuantity.value - lot.amount, 0.0))
            && m.Sold().liquidation == Some(Liquidation(sale.id, sale.date, sale.amount, unit))
            && EntryOf(m) == Entry(lot.id, if need < lot.amount then need else lot.amount, unit)
  {}
}
