/** Where the code does less than it seems to promise: families of histories on which it fails. */
module Counterexamples {
  import opened Ledger
  import opened FifoOrder
  import opened Allocation
  import opened Settlement
  import opened Calculation
  import opened Replication
  import opened Books
  import opened Collected
  import opened Runs
  import opened Marks
  import opened Logs
  import opened TwoRuns
  import opened Batch
  import opened Congruence
  import opened Unflagged
  import opened BookChanges
  import opened Arrivals
  import opened Samples
  import opened Histories

  // ----- Two purchases with one purchase code -----

  /** A book of two open purchases with one code, and an open sale of more than the second. */
  ghost predicate Collides(cfg: Config, txs: seq<Tx>, d: int, p: Tx, q: Tx, sale: Tx) {
    && txs == [p, q, sale] && IsPurchase(p) && IsPurchase(q) && IsSale(sale)
    && !p.checked && !q.checked && !sale.checked
    && p.code == q.code && p.id != q.id && q.id != sale.id && p.id != sale.id && p.date <= d && q.date <= d
    && sale.date <= d
    && q.amount + cfg.halfUnit <= sale.amount <= p.amount + q.amount && cfg.halfUnit > 0.0
  }

  lemma {:induction false} CollidesCollects(cfg: Config, txs: seq<Tx>, d: int, p: Tx, q: Tx, sale: Tx)
    requires Collides(cfg, txs, d, p, q, sale)
    ensures Purchases(txs, d) == [p, q] && Sales(txs, d) == [sale] && Notes(txs, d) == []
  {
    FilterThree(OpenPurchases(d), p, q, sale);
    FilterThree(OpenSales(d), p, q, sale);
    FilterThree(OpenNotes(d), p, q, sale);
  }

  lemma {:induction false} CollidesOpens(cfg: Config, txs: seq<Tx>, d: int, p: Tx, q: Tx, sale: Tx)
    requires Collides(cfg, txs, d, p, q, sale)
    ensures Opening(txs, d) == Ok(Start([q])) && SortedSales(txs, d) == [sale]
    ensures SalesTotal(txs, d) == sale.amount && PurchasesTotal(txs, d) == p.amount + q.amount
  {
    CollidesCollects(cfg, txs, d, p, q, sale);
    KeyedTwo(CodeOf, p, q);
    SortOne(q);
    SortOne(sale);
    SumTwo(AmountOf, p, q);
    SumOne(AmountOf, sale);
  }

  /** The one kept lot sells out, and the sale stays short. */
  lemma {:induction false} ShortDraw(cfg: Config, fin: seq<FinTx>, sale: Tx, lot: Tx)
    requires !lot.checked && lot.amount < sale.amount
    ensures DrawFor(RunMovers(cfg, fin), sale, [lot])
         == Draw([Liquidated(cfg, fin, sale, lot)], [Move(lot, Liquidated(cfg, fin, sale, lot), None)],
                 sale.amount - lot.amount)
  {
    var mover := SaleMover(cfg, fin, sale);
    assert [lot][1..] == [] && mover(sale.amount, lot) == MoveOn(cfg, fin, sale, sale.amount, lot);
    assert Take(mover, sale.amount - lot.amount, []) == Draw([], [], sale.amount - lot.amount);
  }

  lemma {:induction false} CollidesSettles(cfg: Config, fin: seq<FinTx>, txs: seq<Tx>, d: int, p: Tx, q: Tx, sale: Tx)
    requires Collides(cfg, txs, d, p, q, sale)
    ensures var sold := Liquidated(cfg, fin, sale, q);
            Settle(cfg, fin, txs, d)
            == Ok(Work([sold], map[q.id := sold], [], [Cogs(sale.id, sale.date, UpdatedCost(fin, q), sale.amount)],
                       [sale]))
  {
    CollidesOpens(cfg, txs, d, p, q, sale);
    ProcessOne(RunMovers(cfg, fin), cfg.halfUnit, sale, Start([q]));
    ShortDraw(cfg, fin, sale, q);
    OneMove(Move(q, Liquidated(cfg, fin, sale, q), None));
  }

  /** Documents of two purchases with one code, and of a sale of more than the second and no more
      than both. */
  ghost predicate SharesCode(cfg: Config, d: int, p: FinTx, q: FinTx, sale: FinTx) {
    && Buys(p) && Buys(q) && Sells(sale) && AllTrade([p, q, sale]) && p.code == q.code
    && p.date <= d && q.date <= d && sale.date <= d && cfg.halfUnit > 0.0
    && Units(q) + cfg.halfUnit <= Units(sale) <= Units(p) + Units(q)
  }

  /** Duplicate codes defeat the guard: both quantities count in it but only one lot is kept. The
      calculation goes through, draws the second purchase alone, leaves the first untouched and
      the sale unchecked, and posts for the whole sale the cost of the part that was drawn. */
  lemma {:induction false} DuplicateCodesPartFill(cfg: Config, fin: seq<FinTx>, d: int, p: FinTx, q: FinTx,
                                                  sale: FinTx, millis: nat)
    requires SharesCode(cfg, d, p, q, sale)
    ensures var s := Run(cfg, ArrivalsOf([p, q, sale], millis) + [Calculating(fin, d)]);
            var lot, open := PurchaseReplica(q, 2, millis), SaleReplica(sale, 3, millis);
            && !s.rebuild && s.calcDate == On(sale.date)
            && s.txs == [PurchaseReplica(p, 1, millis), Liquidated(cfg, fin, open, lot), open]
            && s.cogs == [Cogs(open.id, sale.date, UpdatedCost(fin, lot), open.amount)] && lot.amount < open.amount
  {
    var docs, steps := [p, q, sale], ArrivalsOf([p, q, sale], millis);
    var a, b, c := PurchaseReplica(p, 1, millis), PurchaseReplica(q, 2, millis), SaleReplica(sale, 3, millis);
    var s := Run(cfg, steps);
    DocsArrive(cfg, docs, millis);
    assert ReplicasOf(docs, millis) == [a, b, c];
    RunSnoc(cfg, steps, Calculating(fin, d));
    CollidesCalculates(cfg, fin, s, d, a, b, c);
  }

  lemma {:induction false} CollidesCalculates(cfg: Config, fin: seq<FinTx>, s: State, d: int, p: Tx, q: Tx, sale: Tx)
    requires Collides(cfg, s.txs, d, p, q, sale) && s.locked == {} && s.cogs == [] && s.calcDate == Absent
    ensures var r := Calculate(cfg, fin, s, d);
            && r.0.Calculated? && r.1.txs == [p, Liquidated(cfg, fin, sale, q), sale] && r.1.rebuild == s.rebuild
            && r.1.cogs == [Cogs(sale.id, sale.date, UpdatedCost(fin, q), sale.amount)] && r.1.calcDate == On(sale.date)
  {
    CollidesOpens(cfg, s.txs, d, p, q, sale);
    CollidesSettles(cfg, fin, s.txs, d, p, q, sale);
    CommitThird(s, Settle(cfg, fin, s.txs, d).work, [sale], p, q, Liquidated(cfg, fin, sale, q), sale);
  }

  lemma {:induction false} CommitThird(s: State, w: Work, sales: seq<Tx>, p: Tx, q: Tx, q': Tx, sale: Tx)
    requires s.txs == [p, q, sale] && p.id != q.id && sale.id != q.id && w.updates == map[q.id := q'] && w.created == []
    ensures Commit(s, w, sales).txs == [p, q', sale]
  {
    assert Posted([], s) == [] && s.txs + [] == s.txs;
    assert Apply(w.updates, [p, q, sale]) == [p, q', sale];
  }

  // ----- A purchase deleted after it was drawn on -----

  lemma {:induction false} NoDeletionSpares(cfg: Config, steps: seq<Step>)
    requires forall i :: 0 <= i < |steps| ==> !steps[i].Deletion?
    ensures SparesUsed(cfg, steps)
    decreases |steps|
  {
    if |steps| > 0 { NoDeletionSpares(cfg, steps[..|steps| - 1]); }
  }

  /** Deleting a purchase document after a sale drew on it: the logs agreed, and no longer do. */
  lemma {:induction false} DeletedAfterDrawn(cfg: Config, fin: seq<FinTx>, buy: FinTx, sale: FinTx, d: int, millis: nat)
    requires SellsFrom(buy, sale, d) && IsPurchaseDocument(buy) && cfg.halfUnit > 0.0
    ensures var steps := ArrivalsOf([buy, sale], millis) + [Calculating(fin, d)];
            LogsAgree(Run(cfg, steps)) && !LogsAgree(Run(cfg, steps + [Deletion(buy)]))
  {
    var steps := ArrivalsOf([buy, sale], millis) + [Calculating(fin, d)];
    PairRuns(cfg, fin, buy, sale, d, millis);
    var t := PairDrawn(cfg, fin, buy, sale, d, millis);
    DrawnDeleted(cfg, steps, buy, t);
  }

  /** The sale drew on the purchase. */
  lemma {:induction false} PairDrawn(cfg: Config, fin: seq<FinTx>, buy: FinTx, sale: FinTx, d: int, millis: nat)
    returns (t: Tx)
    requires SellsFrom(buy, sale, d) && cfg.halfUnit > 0.0
    ensures t in Run(cfg, ArrivalsOf([buy, sale], millis) + [Calculating(fin, d)]).txs
    ensures t.remote == Fin(buy.id) && IsPurchase(t) && !Untouched(t) && t.date == buy.date && t.code == buy.code
  {
    var s0, b, x := Run(cfg, ArrivalsOf([buy, sale], millis)), PurchaseReplica(buy, 1, millis),
      SaleReplica(sale, 2, millis);
    PairArrives(cfg, buy, sale, d, millis);
    RunSnoc(cfg, ArrivalsOf([buy, sale], millis), Calculating(fin, d));
    PairCalculates(cfg, fin, s0, d, b, x);
    t := MoveOn(cfg, fin, x, x.amount, b).after;
    assert Calculate(cfg, fin, s0, d).1.txs[0] == t;
  }

  lemma {:induction false} DrawnDeleted(cfg: Config, steps: seq<Step>, buy: FinTx, t: Tx)
    requires AdmissibleRun(cfg, steps) && cfg.halfUnit > 0.0 && forall i :: 0 <= i < |steps| ==> !steps[i].Deletion?
    requires t in Run(cfg, steps).txs && t.remote == Fin(buy.id) && IsPurchase(t) && !Untouched(t)
    requires buy.posted && IsPurchaseDocument(buy)
    ensures LogsAgree(Run(cfg, steps)) && !LogsAgree(Run(cfg, steps + [Deletion(buy)]))
  {
    var s := Run(cfg, steps);
    assert LogsAgree(s) by { UndeletedAgrees(cfg, steps); }
    assert !LogsAgree(Delete(s, buy)) by {
      UndeletedAgrees(cfg, steps);
      UsedDeleted(s, buy, t);
    }
    RunSnoc(cfg, steps, Deletion(buy));
  }

  lemma {:induction false} UndeletedAgrees(cfg: Config, steps: seq<Step>)
    requires AdmissibleRun(cfg, steps) && cfg.halfUnit > 0.0 && forall i :: 0 <= i < |steps| ==> !steps[i].Deletion?
    ensures Inv(Run(cfg, steps)) && Marked(Run(cfg, steps)) && LogsAgree(Run(cfg, steps))
  {
    RunKeeps(cfg, steps);
    NoDeletionSpares(cfg, steps);
    LogAgreement(cfg, steps);
    MarksHold(cfg, steps);
  }

  lemma {:induction false} UsedDeleted(s: State, buy: FinTx, t: Tx)
    requires Inv(s) && Marked(s) && LogsAgree(s) && buy.posted && IsPurchaseDocument(buy)
    requires t in s.txs && t.remote == Fin(buy.id) && IsPurchase(t) && !Untouched(t)
    ensures !LogsAgree(Delete(s, buy))
  {
    assert Used(t);
    DeleteLogsIff(s, buy);
  }

  // ----- Additional costs that come, and credits that go, after the calculation -----

  /** Documents of a purchase and of a sale of all of it, not before it. */
  ghost predicate SellsOut(buy: FinTx, sale: FinTx, d: int) {
    SellsFrom(buy, sale, d) && buy.date <= sale.date && Units(sale) == Units(buy)
  }

  lemma {:induction false} ArrivalsOrdinary(cfg: Config, fin: seq<FinTx>, docs: seq<FinTx>, millis: nat)
    ensures OrdinaryRun(cfg, fin, ArrivalsOf(docs, millis))
    decreases |docs|
  {
    if |docs| > 0 {
      var init, f := docs[..|docs| - 1], docs[|docs| - 1];
      assert docs == init + [f];
      ArrivalsSnoc(init, f, millis);
      ArrivalsOrdinary(cfg, fin, init, millis);
      assert (ArrivalsOf(init, millis) + [Arrival(f, millis)])[..|init|] == ArrivalsOf(init, millis);
    }
  }

  /** The calculation of the two is timely. */
  lemma {:induction false} PairTimely(cfg: Config, fin: seq<FinTx>, s: State, d: int, b: Tx, x: Tx)
    requires Pair(s.txs, d, b, x) && b.date <= x.date && Valid(s) && s.calcDate == Absent
    ensures Timely(s.txs, d) && NotesInTime(s.txs, d) && NotesSpared(s, d)
  {
    PairCollects(s.txs, d, b, x);
    PairCollects(s.txs, x.date, b, x);
    NoNotesInTime(s.txs, d);
  }

  /** After the two documents and a calculation, the account is correct by the book it read. */
  lemma {:induction false} PairCorrect(cfg: Config, fin: seq<FinTx>, buy: FinTx, sale: FinTx, d: int, millis: nat)
    requires SellsOut(buy, sale, d) && cfg.halfUnit > 0.0
    ensures var s := Run(cfg, ArrivalsOf([buy, sale], millis) + [Calculating(fin, d)]);
            Inv(s) && !s.rebuild && Correct(cfg, fin, s)
  {
    var steps, step := ArrivalsOf([buy, sale], millis), Calculating(fin, d);
    PairArrives(cfg, buy, sale, d, millis);
    PairRuns(cfg, fin, buy, sale, d, millis);
    PairTimely(cfg, fin, Run(cfg, steps), d, PurchaseReplica(buy, 1, millis), SaleReplica(sale, 2, millis));
    ArrivalsOrdinary(cfg, fin, [buy, sale], millis);
    assert (steps + [step])[..|steps|] == steps;
    assert OrdinaryStep(cfg, fin, Run(cfg, steps), step);
    UnflaggedIsCorrect(cfg, fin, steps + [step]);
  }

  lemma {:induction false} PairBears(cfg: Config, fin: seq<FinTx>, buy: FinTx, sale: FinTx, d: int, f: FinTx,
                                     millis: nat)
    requires SellsOut(buy, sale, d) && cfg.halfUnit > 0.0
    requires InRange(f, buy.date) && (IsAdditionalCost(f, buy.code) || IsCredit(f, buy.code)) && f.amount != 0.0
    ensures BearsOnDrawn(Run(cfg, ArrivalsOf([buy, sale], millis) + [Calculating(fin, d)]), f)
  {
    PairRuns(cfg, fin, buy, sale, d, millis);
    var t := PairDrawn(cfg, fin, buy, sale, d, millis);
    DrawnBears(Run(cfg, ArrivalsOf([buy, sale], millis) + [Calculating(fin, d)]), f, t);
  }

  lemma {:induction false} DrawnBears(s: State, f: FinTx, t: Tx)
    requires Inv(s) && t in s.txs && IsPurchase(t) && t.remote.Fin? && !Untouched(t)
    requires InRange(f, t.date) && (IsAdditionalCost(f, t.code) || IsCredit(f, t.code)) && f.amount != 0.0
    ensures BearsOnDrawn(s, f)
  {
    assert WellFormed(t) && Bears(f, t);
  }

  lemma {:induction false} ExtraArrives(cfg: Config, fin: seq<FinTx>, s: State, f: FinTx, millis: nat)
    requires Inv(s) && Correct(cfg, fin, s) && cfg.halfUnit > 0.0 && !s.rebuild && f.quantity.None?
             && BearsOnDrawn(s, f)
    requires Admissible(s, Arrival(f, millis))
    ensures !Arrive(s, f, millis).rebuild && !Correct(cfg, fin + [f], Arrive(s, f, millis))
  {
    ArriveCorrectIff(cfg, fin, fin + [f], s, f, millis);
  }

  lemma {:induction false} CreditDeleted(cfg: Config, fin: seq<FinTx>, s: State, f: FinTx)
    requires Inv(s) && Correct(cfg, fin + [f], s) && cfg.halfUnit > 0.0 && !s.rebuild && BearsOnDrawn(s, f)
    requires IsCreditDocument(f) && !FoundReduced(s.txs, f) && forall t :: t in s.txs ==> t.remote != Fin(f.id)
    ensures !Delete(s, f).rebuild && !Correct(cfg, fin, Delete(s, f))
  {
    DeleteCorrectIff(cfg, fin, fin + [f], s, f);
  }

  /** A change of additional costs flags nothing: the cost document arrives after the calculation,
      the account stays unflagged, and is not what a calculation from scratch gives. */
  lemma {:induction false} ExtrasFlagNothing(cfg: Config, fin: seq<FinTx>, buy: FinTx, sale: FinTx, extra: FinTx,
                                             d: int,
                                             millis: nat)
    requires SellsOut(buy, sale, d) && cfg.halfUnit > 0.0
    requires InRange(extra, buy.date) && IsAdditionalCost(extra, buy.code) && extra.amount != 0.0
    requires extra.quantity.None?
    ensures var steps := ArrivalsOf([buy, sale], millis) + [Calculating(fin, d)];
            var s := Run(cfg, steps + [Arrival(extra, millis)]);
            Correct(cfg, fin, Run(cfg, steps)) && !s.rebuild && !Correct(cfg, fin + [extra], s)
  {
    var steps := ArrivalsOf([buy, sale], millis) + [Calculating(fin, d)];
    PairCorrect(cfg, fin, buy, sale, d, millis);
    PairBears(cfg, fin, buy, sale, d, extra, millis);
    RunSnoc(cfg, steps, Arrival(extra, millis));
    ExtraArrives(cfg, fin, Run(cfg, steps), extra, millis);
  }

  /** The deletion of a credit is seen by the quantity of its purchase, and a purchase sold whole
      keeps its quantity: the account stays unflagged, and is not what a calculation from scratch
      gives without the credit. */
  lemma {:induction false} CreditDeletedUnseen(cfg: Config, fin: seq<FinTx>, buy: FinTx, sale: FinTx, credit: FinTx,
                                               d: int, millis: nat)
    requires SellsOut(buy, sale, d) && cfg.halfUnit > 0.0
    requires InRange(credit, buy.date) && IsCredit(credit, buy.code) && credit.amount != 0.0
    requires credit.posted && IsCreditDocument(credit) && credit.id != buy.id && credit.id != sale.id
    ensures var steps := ArrivalsOf([buy, sale], millis) + [Calculating(fin + [credit], d)];
            var s := Run(cfg, steps + [Deletion(credit)]);
            Correct(cfg, fin + [credit], Run(cfg, steps)) && !s.rebuild && !Correct(cfg, fin, s)
  {
    var book := fin + [credit];
    var steps := ArrivalsOf([buy, sale], millis) + [Calculating(book, d)];
    PairCorrect(cfg, book, buy, sale, d, millis);
    PairBears(cfg, book, buy, sale, d, credit, millis);
    SoldOutWhole(cfg, book, buy, sale, credit, d, millis);
    RunSnoc(cfg, steps, Deletion(credit));
    CreditDeleted(cfg, fin, Run(cfg, steps), credit);
  }

  /** The purchase that is sold whole still holds its original quantity. */
  lemma {:induction false} SoldOutWhole(cfg: Config, fin: seq<FinTx>, buy: FinTx, sale: FinTx, f: FinTx, d: int,
                                        millis: nat)
    requires SellsOut(buy, sale, d) && cfg.halfUnit > 0.0 && IsCreditDocument(f) && f.id != buy.id && f.id != sale.id
    ensures var s := Run(cfg, ArrivalsOf([buy, sale], millis) + [Calculating(fin, d)]);
            !FoundReduced(s.txs, f) && forall t :: t in s.txs ==> t.remote != Fin(f.id)
  {
    var s0, b, x := Run(cfg, ArrivalsOf([buy, sale], millis)), PurchaseReplica(buy, 1, millis),
      SaleReplica(sale, 2, millis);
    PairArrives(cfg, buy, sale, d, millis);
    RunSnoc(cfg, ArrivalsOf([buy, sale], millis), Calculating(fin, d));
    PairCalculates(cfg, fin, s0, d, b, x);
    var sold, done := MoveOn(cfg, fin, x, x.amount, b).after, SettledOn(cfg, fin, x, b);
    assert [sold, done] + Posted([], s0) == [sold, done];
    FilterTwo(CodedNear(f), sold, done);
  }

  // ----- A sale that consumes a later purchase -----

  /** Documents of a sale, and of a purchase of at least as much dated after it. */
  ghost predicate SellsAhead(sale: FinTx, buy: FinTx) {
    Sells(sale) && Buys(buy) && sale.id != buy.id && sale.date < buy.date && Units(sale) <= Units(buy)
  }

  lemma {:induction false} AheadArrives(cfg: Config, sale: FinTx, buy: FinTx, millis: nat)
    requires SellsAhead(sale, buy)
    ensures Run(cfg, ArrivalsOf([sale, buy], millis))
         == EMPTY.(txs := [SaleReplica(sale, 1, millis), PurchaseReplica(buy, 2, millis)], nextId := 3)
    ensures AdmissibleRun(cfg, ArrivalsOf([sale, buy], millis))
  {
    var docs := [sale, buy];
    forall i, j | 0 <= i < j < 2 ensures DocOf(docs[i]) != DocOf(docs[j]) {}
    assert AllTrade(docs);
    DocsArrive(cfg, docs, millis);
    DocsAdmissible(cfg, docs, millis);
    assert ReplicasOf(docs, millis) == [SaleReplica(sale, 1, millis), PurchaseReplica(buy, 2, millis)];
  }

  lemma {:induction false} AheadTotals(txs: seq<Tx>, a: Tx, b: Tx, d: int)
    requires txs == [a, b] && IsSale(a) && IsPurchase(b) && !a.checked && !b.checked && a.date <= d && a.date < b.date
    ensures SortedSales(txs, d) == [a] && Notes(txs, d) == [] && SalesTotal(txs, d) == a.amount
    ensures PurchasesTotal(txs, d) == if b.date <= d then b.amount else 0.0
  {
    FilterTwo(OpenSales(d), a, b);
    FilterTwo(OpenPurchases(d), a, b);
    FilterTwo(OpenNotes(d), a, b);
    SortOne(a);
    SumOne(AmountOf, a);
    SumOne(AmountOf, b);
  }

  /** A sale that consumes a purchase dated after it: the calculation goes through and leaves the
      account unflagged, although a calculation from scratch up to its date cannot be made. */
  lemma {:induction false} LaterPurchaseConsumed(cfg: Config, fin: seq<FinTx>, sale: FinTx, buy: FinTx, millis: nat)
    requires SellsAhead(sale, buy) && cfg.halfUnit > 0.0
    ensures var s := Run(cfg, ArrivalsOf([sale, buy], millis) + [Calculating(fin, buy.date)]);
            !s.rebuild && s.calcDate == On(sale.date) && Calculate(cfg, fin, Scratch(s), sale.date).0.QuantityError?
  {
    var steps := ArrivalsOf([sale, buy], millis);
    var s, a, b := Run(cfg, steps), SaleReplica(sale, 1, millis), PurchaseReplica(buy, 2, millis);
    AheadArrives(cfg, sale, buy, millis);
    RunKeeps(cfg, steps);
    RunSnoc(cfg, steps, Calculating(fin, buy.date));
    AheadFresh(s, a, b);
    AheadPasses(cfg, fin, s, a, b);
    UntimelyFails(cfg, fin, s, buy.date);
  }

  /** Nothing calculated yet, the account is correct. */
  lemma {:induction false} AheadFresh(s: State, a: Tx, b: Tx)
    requires s == EMPTY.(txs := [a, b], nextId := 3) && IsReplica(a) && IsReplica(b) && Fresh(a) == a && Fresh(b) == b
    ensures forall cfg, fin :: Correct(cfg, fin, s)
  {
    FilterTwo(IsReplica, a, b);
    assert Origin(s.txs) == s.txs;
  }

  /** The calculation goes through, and is not timely. */
  lemma {:induction false} AheadPasses(cfg: Config, fin: seq<FinTx>, s: State, a: Tx, b: Tx)
    requires Inv(s) && cfg.halfUnit > 0.0 && s.txs == [a, b] && s.locked == {} && !s.rebuild && s.calcDate == Absent
    requires SaleShape(a) && PurchaseShape(b) && IsSale(a) && IsPurchase(b) && !a.checked && !b.checked
    requires a.date < b.date && 0.0 < a.amount <= b.amount
    ensures Passes(cfg, fin, s, b.date) && Calculate(cfg, fin, s, b.date) == (Calculated, After1(cfg, fin, s, b.date))
    ensures |SortedSales(s.txs, b.date)| > 0 && LastDate(s.txs, b.date) == a.date && !Timely(s.txs, b.date)
    ensures !After1(cfg, fin, s, b.date).rebuild && After1(cfg, fin, s, b.date).calcDate == On(a.date)
  {
    AheadTotals(s.txs, a, b, b.date);
    AheadTotals(s.txs, a, b, a.date);
    PlainOpening(s.txs, b.date);
    AfterCogs(cfg, fin, s, b.date);
  }
}
