/** A credit note that arrives for a purchase that a sale was already calculated on. */
module LateNotes {
  import opened Lists
  import opened Ledger
  import opened Allocation
  import opened Settlement
  import opened Calculation
  import opened Replication
  import opened Books
  import opened Collected
  import opened Commitment
  import opened Runs
  import opened Costs
  import opened NoteForm
  import opened TwoRuns
  import opened Incremental
  import opened Batch
  import opened Unflagged
  import opened BookChanges
  import opened Arrivals
  import opened Samples
  import opened Histories

  // ----- The second calculation -----

  /** A partly sold purchase `b`, the settled sale `x`, the split `z`, and now a credit note `n` for the
      purchase and a later sale `y`, which together take no more than what is left of it. */
  ghost predicate Late(s: State, d: int, b: Tx, x: Tx, z: Tx, n: Tx, y: Tx) {
    && s.txs == [b, x, z, n, y] && Inv(s) && s.locked == {} && !s.rebuild && s.calcDate == On(x.date)
    && IsPurchase(b) && IsReplica(b) && IsSale(x) && IsSplit(z) && IsCreditNote(n) && IsSale(y)
    && !b.checked && x.checked && z.checked && !n.checked && !y.checked
    && b.date <= x.date < y.date <= d && x.date < n.date <= y.date
    && n.code == b.code && n.amount + y.amount <= b.amount && 0.0 < n.amount && 0.0 < y.amount
  }

  /** A lot less a note, and what a sale leaves of a lot. */
  function LessNote(b: Tx, n: Tx): Tx
    requires n.amount <= b.amount
  {
    b.(amount := b.amount - n.amount)
  }

  function RestOf(cfg: Config, fin: seq<FinTx>, x: Tx, lot: Tx): Tx { MoveOn(cfg, fin, x, x.amount, lot).after }

  lemma {:induction false} LateCollects(s: State, d: int, b: Tx, x: Tx, z: Tx, n: Tx, y: Tx)
    requires Late(s, d, b, x, z, n, y)
    ensures Purchases(s.txs, d) == [b] && Sales(s.txs, d) == [y] && Notes(s.txs, d) == [n]
  {
    FilterFive(OpenPurchases(d), b, x, z, n, y);
    FilterFive(OpenSales(d), b, x, z, n, y);
    FilterFive(OpenNotes(d), b, x, z, n, y);
  }

  /** One note for the only lot. */
  lemma {:induction false} OneNoteOpens(txs: seq<Tx>, d: int, b: Tx, n: Tx)
    requires Sound(txs) && Purchases(txs, d) == [b] && Notes(txs, d) == [n] && n.code == b.code
             && 0.0 < n.amount < b.amount
    ensures Opening(txs, d).Ok? && Opening(txs, d).work.lots == [LessNote(b, n)]
  {
    KeyedOne(NumberOf, n);
    SortOne(b);
    SumOne(NoteFor(b.code), n);
    OpeningForm(txs, d);
  }

  lemma {:induction false} LatePasses(cfg: Config, fin: seq<FinTx>, s: State, d: int, b: Tx, x: Tx, z: Tx, n: Tx, y: Tx)
    requires Late(s, d, b, x, z, n, y) && cfg.halfUnit > 0.0
    ensures Passes(cfg, fin, s, d) && SalesTotal(s.txs, d) != 0.0 && SortedSales(s.txs, d) == [y]
  {
    LateCollects(s, d, b, x, z, n, y);
    OneNoteOpens(s.txs, d, b, n);
    SumOne(AmountOf, b);
    SumOne(AmountOf, n);
    SumOne(AmountOf, y);
    SortOne(y);
  }

  lemma {:induction false} LateCalculates(cfg: Config, fin: seq<FinTx>, s: State, d: int, b: Tx, x: Tx, z: Tx, n: Tx,
                                          y: Tx)
    requires Late(s, d, b, x, z, n, y) && cfg.halfUnit > 0.0
    ensures Passes(cfg, fin, s, d) && Calculate(cfg, fin, s, d) == (Calculated, After1(cfg, fin, s, d))
    ensures var s' := After1(cfg, fin, s, d);
            && s'.calcDate == On(y.date) && !s'.rebuild && x in s'.txs
            && SettledOn(cfg, fin, y, LessNote(b, n)) in s'.txs
  {
    LatePasses(cfg, fin, s, d, b, x, z, n, y);
    AfterCogs(cfg, fin, s, d);
    OfFive(b, x, z, n, y);
    CheckedKept(cfg, fin, s, d, x);
    LateSettles(cfg, fin, s, d, b, x, z, n, y);
  }

  /** The later sale draws on what the note leaves of the rest. */
  lemma {:induction false} LateSettles(cfg: Config, fin: seq<FinTx>, s: State, d: int, b: Tx, x: Tx, z: Tx, n: Tx,
                                       y: Tx)
    requires Late(s, d, b, x, z, n, y) && Passes(cfg, fin, s, d) && SortedSales(s.txs, d) == [y]
    ensures SettledOn(cfg, fin, y, LessNote(b, n)) in After1(cfg, fin, s, d).txs
  {
    var lot := LessNote(b, n);
    LateCollects(s, d, b, x, z, n, y);
    OneNoteOpens(s.txs, d, b, n);
    OpeningStart(s.txs, d);
    OneSaleSettles(cfg, fin, s.txs, d, lot, y);
    OfFive(b, x, z, n, y);
    OnlySaleIn(cfg, fin, s, d, y, SettledOn(cfg, fin, y, lot));
  }

  lemma {:induction false} OneSaleSettles(cfg: Config, fin: seq<FinTx>, txs: seq<Tx>, d: int, lot: Tx, y: Tx)
    requires Opening(txs, d).Ok? && Opening(txs, d).work.lots == [lot] && Opening(txs, d).work.done == []
    requires SortedSales(txs, d) == [y] && !lot.checked && y.amount <= lot.amount && cfg.halfUnit > 0.0
    ensures Settle(cfg, fin, txs, d).Ok? && Settle(cfg, fin, txs, d).work.done == [SettledOn(cfg, fin, y, lot)]
  {
    ProcessOne(RunMovers(cfg, fin), cfg.halfUnit, y, Opening(txs, d).work);
    assert [lot] == [lot] + [];
    SaleOnOne(cfg, fin, y, lot, [], Opening(txs, d).work);
  }

  lemma {:induction false} OnlySaleIn(cfg: Config, fin: seq<FinTx>, s: State, d: int, y: Tx, done: Tx)
    requires Passes(cfg, fin, s, d) && SortedSales(s.txs, d) == [y] && y in s.txs
    requires WorkOf(cfg, fin, s, d).done == [done]
    ensures done in After1(cfg, fin, s, d).txs
  {
    SaleStaged(cfg, fin, s.txs, d, 0);
    InBookAfter(cfg, fin, s, d, y);
  }

  /** A checked transaction is in the book after a run. */
  lemma {:induction false} CheckedKept(cfg: Config, fin: seq<FinTx>, s: State, d: int, t: Tx)
    requires Passes(cfg, fin, s, d) && t in s.txs && t.checked
    ensures t in After1(cfg, fin, s, d).txs
  {
    Uncollected(cfg, fin, s, d, t);
    InBookAfter(cfg, fin, s, d, t);
  }

  lemma {:induction false} OfFive(b: Tx, x: Tx, z: Tx, n: Tx, y: Tx)
    ensures x in [b, x, z, n, y] && y in [b, x, z, n, y]
  {
    assert [b, x, z, n, y][1] == x && [b, x, z, n, y][4] == y;
  }

  // ----- From scratch -----

  /** The four replicas as they were posted. */
  ghost predicate LateScratch(g: State, b: Tx, x: Tx, n: Tx, y: Tx) {
    && g.txs == [b, x, n, y] && Valid(g) && CodesApart(g.txs)
    && IsPurchase(b) && IsSale(x) && IsCreditNote(n) && IsSale(y) && !b.checked && !x.checked && !n.checked
    && !y.checked
    && b.date <= x.date < n.date <= y.date
    && n.code == b.code && x.amount + n.amount + y.amount <= b.amount && 0.0 < x.amount && 0.0 < n.amount
    && 0.0 < y.amount
  }

  lemma {:induction false} ScratchCollects(g: State, b: Tx, x: Tx, n: Tx, y: Tx)
    requires LateScratch(g, b, x, n, y)
    ensures Purchases(g.txs, y.date) == [b] && SortedSales(g.txs, y.date) == [x, y] && Notes(g.txs, y.date) == [n]
  {
    var d := y.date;
    FilterFour(OpenPurchases(d), b, x, n, y);
    FilterFour(OpenSales(d), b, x, n, y);
    FilterFour(OpenNotes(d), b, x, n, y);
    assert Sales(g.txs, d) == [x, y];
    SortTwo(x, y);
  }

  /** From scratch the sales draw on what the note leaves of the purchase. */
  lemma {:induction false} SalesFromScratch(cfg: Config, fin: seq<FinTx>, g: State, b: Tx, x: Tx, n: Tx, y: Tx)
    requires LateScratch(g, b, x, n, y) && cfg.halfUnit > 0.0
    ensures var w, lot := Settle(cfg, fin, g.txs, y.date), LessNote(b, n);
            && w.Ok? && |w.work.done| == 2 && w.work.done[0] == SettledOn(cfg, fin, x, lot)
            && w.work.done[1] == SettledOn(cfg, fin, y, RestOf(cfg, fin, x, lot))
  {
    var lot := LessNote(b, n);
    ScratchCollects(g, b, x, n, y);
    OneNoteOpens(g.txs, y.date, b, n);
    OpeningStart(g.txs, y.date);
    TwoSales(cfg, fin, x, y, lot, Opening(g.txs, y.date).work);
  }

  lemma {:induction false} TwoSales(cfg: Config, fin: seq<FinTx>, x: Tx, y: Tx, lot: Tx, v: Work)
    requires v.lots == [lot] && v.done == [] && !lot.checked && cfg.halfUnit > 0.0
    requires x.amount + y.amount <= lot.amount && 0.0 < y.amount
    ensures var w := ProcessSales(RunMovers(cfg, fin), cfg.halfUnit, [x, y], v);
            && |w.done| == 2 && w.done[0] == SettledOn(cfg, fin, x, lot)
            && w.done[1] == SettledOn(cfg, fin, y, RestOf(cfg, fin, x, lot))
  {
    var movers, rest := RunMovers(cfg, fin), RestOf(cfg, fin, x, lot);
    assert [x, y] == [x] + [y] && [lot] == [lot] + [] && [rest] == [rest] + [];
    ProcessSnoc(movers, cfg.halfUnit, [x], y, v);
    ProcessOne(movers, cfg.halfUnit, x, v);
    SaleOnOne(cfg, fin, x, lot, [], v);
    SaleOnOne(cfg, fin, y, rest, [], ProcessSale(movers, cfg.halfUnit, x, v));
  }

  /** The unit cost in a sale's log of one entry. */
  function LoggedUnit(t: Tx): real {
    if t.purchaseLog.Some? && |t.purchaseLog.value| > 0 then t.purchaseLog.value[0].unitCost else 0.0
  }

  lemma {:induction false} UnitOn(cfg: Config, fin: seq<FinTx>, x: Tx, lot: Tx)
    ensures LoggedUnit(SettledOn(cfg, fin, x, lot)) == UnitCost(cfg, fin, lot)
  {}

  /** In the account that a run from scratch makes, the log of sale `k` is that of its result. */
  lemma {:induction false} ScratchLog(cfg: Config, fin: seq<FinTx>, g: State, b: Tx, x: Tx, n: Tx, y: Tx, k: nat, t: Tx)
    requires LateScratch(g, b, x, n, y) && Passes(cfg, fin, g, y.date) && k < 2
    requires |WorkOf(cfg, fin, g, y.date).done| == 2
    requires t in After1(cfg, fin, g, y.date).txs && t.id == [x, y][k].id
    ensures t == WorkOf(cfg, fin, g, y.date).done[k]
  {
    var w, sale := WorkOf(cfg, fin, g, y.date), [x, y][k];
    ScratchCollects(g, b, x, n, y);
    SaleStaged(cfg, fin, g.txs, y.date, k);
    assert g.txs[1] == x && g.txs[3] == y;
    InBookAfter(cfg, fin, g, y.date, sale);
    EvolvesShape(sale, w.done[k]);
    BookAfter(cfg, fin, g, y.date);
    SameIdSame(After1(cfg, fin, g, y.date).txs, w.done[k], t);
  }

  /** In a correct account the two sales have the unit costs of a run from scratch. */
  lemma {:induction false} SameUnits(cfg: Config, fin: seq<FinTx>, s: State, b: Tx, x: Tx, n: Tx, y: Tx, t: Tx, u: Tx)
    requires Inv(s) && LateScratch(Scratch(s), b, x, n, y) && cfg.halfUnit > 0.0 && s.calcDate == On(y.date)
    requires t in s.txs && t.id == x.id && IsReplica(t) && u in s.txs && u.id == y.id && IsReplica(u)
    requires Correct(cfg, fin, s)
    ensures LoggedUnit(t) == UnitCost(cfg, fin, LessNote(b, n))
    ensures LoggedUnit(u) == UnitCost(cfg, fin, RestOf(cfg, fin, x, LessNote(b, n)))
  {
    var g, lot := Scratch(s), LessNote(b, n);
    var r := CorrectReference(cfg, fin, s);
    ReplicaShared(r.txs, s.txs, t);
    ReplicaShared(r.txs, s.txs, u);
    SalesFromScratch(cfg, fin, g, b, x, n, y);
    ScratchLog(cfg, fin, g, b, x, n, y, 0, t);
    ScratchLog(cfg, fin, g, b, x, n, y, 1, u);
    UnitOn(cfg, fin, x, lot);
    UnitOn(cfg, fin, y, RestOf(cfg, fin, x, lot));
  }

  /** From scratch, the account holds the four replicas again. */
  lemma {:induction false} LateOrigin(txs: seq<Tx>, b: Tx, x: Tx, z: Tx, n: Tx, y: Tx)
    requires txs == [b, x, z, n, y] && IsReplica(b) && IsReplica(x) && IsSplit(z) && IsReplica(n) && IsReplica(y)
    ensures Origin(txs) == [Fresh(b), Fresh(x), Fresh(n), Fresh(y)]
  {
    FilterFive(IsReplica, b, x, z, n, y);
    assert Filter(IsReplica, txs) == [b, x, n, y];
  }

  // ----- The history -----

  /** Documents of a purchase, of a sale of part of it, of a return of part of it dated after that sale,
      and of a sale dated no earlier than the return; the purchase covers them all. */
  ghost predicate ReturnsLate(buy: FinTx, first: FinTx, back: FinTx, second: FinTx, d1: int, d2: int) {
    && Buys(buy) && Sells(first) && Returns(back) && Sells(second) && AllTrade([buy, first, back, second])
    && buy.date <= first.date <= d1 && first.date < back.date <= second.date <= d2
    && back.code == buy.code && Units(first) + Units(back) + Units(second) <= Units(buy)
  }

  /** The first sale is calculated. */
  function FirstSteps(fin: seq<FinTx>, buy: FinTx, first: FinTx, d1: int, millis: nat): seq<Step> {
    ArrivalsOf([buy, first], millis) + [Calculating(fin, d1)]
  }

  /** What the first calculation leaves: the rest of the purchase, the sale and a split. */
  ghost predicate Begun(cfg: Config, fin: seq<FinTx>, s: State, b: Tx, x: Tx) {
    var m := MoveOn(cfg, fin, x, x.amount, b);
    && |s.txs| == 3 && s.txs[0] == m.after && s.txs[1] == SettledOn(cfg, fin, x, b) && SplitShape(s.txs[2])
    && s.calcDate == On(x.date) && !s.rebuild && s.locked == {} && s.nextId == 4
  }

  lemma {:induction false} BeginsOn(cfg: Config, fin: seq<FinTx>, s: State, d: int, b: Tx, x: Tx)
    requires Pair(s.txs, d, b, x) && cfg.halfUnit > 0.0 && b.id == 1 && x.id == 2 && s.nextId == 3
             && x.amount < b.amount
    requires s.cogs == [] && s.calcDate == Absent && s.locked == {} && !s.rebuild && Passes(cfg, fin, s, d)
    ensures Begun(cfg, fin, Calculate(cfg, fin, s, d).1, b, x)
  {
    var m := MoveOn(cfg, fin, x, x.amount, b);
    assert PieceList(m) == [m.piece.value];
    PairCalculates(cfg, fin, s, d, b, x);
    assert WorkOf(cfg, fin, s, d).created == PieceList(m) by { PairSettles(cfg, fin, s.txs, d, b, x); }
    assert AllSplits(Posted(PieceList(m), s)) by { BookAfter(cfg, fin, s, d); }
    UuidsKeep(PieceList(m), s.nextUuid);
    assert SplitShape(Posted(PieceList(m), s)[0]);
  }

  lemma {:induction false} FirstBegins(cfg: Config, fin: seq<FinTx>, buy: FinTx, first: FinTx, d1: int, millis: nat)
    requires SellsFrom(buy, first, d1) && Units(first) < Units(buy) && cfg.halfUnit > 0.0
    ensures Begun(cfg, fin, Run(cfg, FirstSteps(fin, buy, first, d1, millis)), PurchaseReplica(buy, 1, millis),
                  SaleReplica(first, 2, millis))
    ensures AdmissibleRun(cfg, FirstSteps(fin, buy, first, d1, millis))
  {
    PairArrives(cfg, buy, first, d1, millis);
    PairRuns(cfg, fin, buy, first, d1, millis);
    BeginsOn(cfg, fin, Run(cfg, ArrivalsOf([buy, first], millis)), d1, PurchaseReplica(buy, 1, millis),
             SaleReplica(first, 2, millis));
  }

  /** The note and the second sale arrive. */
  lemma {:induction false} TwoArrive(s: State, back: FinTx, second: FinTx, millis: nat)
    requires Returns(back) && Sells(second) && back.id != second.id && !s.rebuild
    requires !Stale(s.calcDate, back.date) && !Stale(s.calcDate, second.date)
    requires forall t :: t in s.txs ==> t.remote != Fin(back.id) && t.remote != Fin(second.id)
    ensures Arrive(Arrive(s, back, millis), second, millis)
         == s.(txs := s.txs + [NoteReplica(back, s.nextId, millis)]
               + [SaleReplica(second, s.nextId + 1, millis)], nextId := s.nextId + 2)
  {
    NextArrives(s, back, millis);
    NextArrives(Arrive(s, back, millis), second, millis);
  }

  /** The purchase and the first sale arrive and are calculated; then the note and the second sale arrive. */
  function LateSteps(fin: seq<FinTx>, buy: FinTx, first: FinTx, back: FinTx, second: FinTx, d1: int,
                     millis: nat): seq<Step> {
    FirstSteps(fin, buy, first, d1, millis) + [Arrival(back, millis)] + [Arrival(second, millis)]
  }

  lemma {:induction false} LateRun(cfg: Config, fin: seq<FinTx>, buy: FinTx, first: FinTx, back: FinTx, second: FinTx,
                                   d1: int, d2: int, millis: nat)
    requires ReturnsLate(buy, first, back, second, d1, d2) && cfg.halfUnit > 0.0
    ensures var s, s' := Run(cfg, FirstSteps(fin, buy, first, d1, millis)),
            Run(cfg, LateSteps(fin, buy, first, back, second, d1, millis));
            && Begun(cfg, fin, s, PurchaseReplica(buy, 1, millis), SaleReplica(first, 2, millis)) && Inv(s')
            && s' == s.(txs := s.txs + [NoteReplica(back, 4, millis)] + [SaleReplica(second, 5, millis)], nextId := 6)
  {
    var docs, b, x := [buy, first, back, second], PurchaseReplica(buy, 1, millis), SaleReplica(first, 2, millis);
    assert forall i, j :: 0 <= i < j < 4 ==> DocOf(docs[i]) != DocOf(docs[j]);
    assert docs[0] == buy && docs[1] == first && docs[2] == back && docs[3] == second;
    FirstBegins(cfg, fin, buy, first, d1, millis);
    BegunRemotes(cfg, fin, Run(cfg, FirstSteps(fin, buy, first, d1, millis)), b, x);
    TwoMore(cfg, FirstSteps(fin, buy, first, d1, millis), back, second, millis);
  }

  lemma {:induction false} BegunRemotes(cfg: Config, fin: seq<FinTx>, s: State, b: Tx, x: Tx)
    requires Begun(cfg, fin, s, b, x)
    ensures forall t :: t in s.txs ==> t.remote == b.remote || t.remote == x.remote || !t.remote.Fin?
  {}

  lemma {:induction false} TwoMore(cfg: Config, steps: seq<Step>, back: FinTx, second: FinTx, millis: nat)
    requires AdmissibleRun(cfg, steps) && cfg.halfUnit > 0.0 && Returns(back) && Sells(second) && back.id != second.id
    requires var s := Run(cfg, steps);
             && !s.rebuild && !Stale(s.calcDate, back.date) && !Stale(s.calcDate, second.date)
             && forall t :: t in s.txs ==> t.remote != Fin(back.id) && t.remote != Fin(second.id)
    ensures var s, s' := Run(cfg, steps), Run(cfg, steps + [Arrival(back, millis)] + [Arrival(second, millis)]);
            && s' == s.(txs := s.txs + [NoteReplica(back, s.nextId, millis)]
                        + [SaleReplica(second, s.nextId + 1, millis)], nextId := s.nextId + 2)
            && Inv(s')
  {
    RunSnoc(cfg, steps, Arrival(back, millis));
    RunSnoc(cfg, steps + [Arrival(back, millis)], Arrival(second, millis));
    TwoArrive(Run(cfg, steps), back, second, millis);
    RunKeeps(cfg, steps + [Arrival(back, millis)] + [Arrival(second, millis)]);
  }

  ghost predicate LateWith(cfg: Config, fin: seq<FinTx>, s: State, d: int, b: Tx, x: Tx, n: Tx, y: Tx) {
    && |s.txs| == 5 && Late(s, d, s.txs[0], s.txs[1], s.txs[2], n, y) && s.txs[1] == SettledOn(cfg, fin, x, b)
    && LateScratch(Scratch(s), b, x, n, y)
  }

  /** The two documents arrived after the first calculation. */
  ghost predicate LateFrom(cfg: Config, fin: seq<FinTx>, s: State, d2: int, b: Tx, x: Tx, n: Tx, y: Tx) {
    && |s.txs| == 5 && s.txs[3] == n && s.txs[4] == y && s.calcDate == On(x.date) && !s.rebuild && s.locked == {}
    && Inv(s)
    && s.txs[0] == RestOf(cfg, fin, x, b) && s.txs[1] == SettledOn(cfg, fin, x, b)
    && SplitShape(s.txs[2])
    && IsPurchase(b) && IsSale(x) && IsCreditNote(n) && IsSale(y) && !b.checked && !x.checked && !n.checked
    && !y.checked
    && Fresh(b) == b && Fresh(x) == x && Fresh(n) == n && Fresh(y) == y
    && IsReplica(b) && IsReplica(x) && IsReplica(n) && IsReplica(y) && b.originalQuantity == Some(b.amount)
    && b.purchaseCost.Some?
    && b.date <= x.date < n.date <= y.date <= d2
    && n.code == b.code && x.amount + n.amount + y.amount <= b.amount && 0.0 < x.amount && 0.0 < n.amount
    && 0.0 < y.amount
  }

  /** The book is then as `Late` says, and its replicas as `LateScratch` says. */
  lemma {:induction false} LateShapes(cfg: Config, fin: seq<FinTx>, s: State, d2: int, b: Tx, x: Tx, n: Tx, y: Tx)
    requires LateFrom(cfg, fin, s, d2, b, x, n, y)
    ensures LateWith(cfg, fin, s, d2, b, x, n, y)
  {
    assert s.txs == [s.txs[0], s.txs[1], s.txs[2], n, y];
    assert Origin(s.txs) == [b, x, n, y] by {
      LateOrigin(s.txs, s.txs[0], s.txs[1], s.txs[2], n, y);
      assert Fresh(s.txs[0]) == b && Fresh(s.txs[1]) == x;
    }
    ScratchInv(s);
  }

  /** The unit costs at which the account settles the two sales, the first with book `fin1`. */
  function FirstUnit(cfg: Config, fin1: seq<FinTx>, b: Tx): real { UnitCost(cfg, fin1, b) }

  function SecondUnit(cfg: Config, fin1: seq<FinTx>, fin2: seq<FinTx>, b: Tx, x: Tx, n: Tx): real
    requires x.amount + n.amount < b.amount
  {
    UnitCost(cfg, fin2, LessNote(RestOf(cfg, fin1, x, b), n))
  }

  /** Those at which a run from scratch settles them. */
  predicate FirstRight(cfg: Config, fin1: seq<FinTx>, fin2: seq<FinTx>, b: Tx, n: Tx)
    requires n.amount < b.amount
  {
    FirstUnit(cfg, fin1, b) == UnitCost(cfg, fin2, LessNote(b, n))
  }

  predicate SecondRight(cfg: Config, fin1: seq<FinTx>, fin2: seq<FinTx>, b: Tx, x: Tx, n: Tx)
    requires x.amount + n.amount < b.amount
  {
    SecondUnit(cfg, fin1, fin2, b, x, n) == UnitCost(cfg, fin2, RestOf(cfg, fin2, x, LessNote(b, n)))
  }

  /** A credit note for a purchase that was drawn on flags nothing when it is dated after the
      calculation date. The next calculation, which finds the note in the Financial Book, takes it
      from what is left of the purchase and leaves the account unflagged; the account is correct
      only if both sales have the unit costs of a calculation from scratch, which takes the note
      before the first of them. */
  lemma {:induction false} LateNoteUnflagged(cfg: Config, fin1: seq<FinTx>, fin2: seq<FinTx>, s: State, d: int, b: Tx,
                                             x: Tx, n: Tx, y: Tx)
    requires LateFrom(cfg, fin1, s, d, b, x, n, y) && cfg.halfUnit > 0.0
    ensures var r := Calculate(cfg, fin2, s, d);
            && r.0.Calculated? && !r.1.rebuild && r.1.calcDate == On(y.date)
            && (Correct(cfg, fin2, r.1) ==>
                  FirstRight(cfg, fin1, fin2, b, n) && SecondRight(cfg, fin1, fin2, b, x, n))
  {
    LateShapes(cfg, fin1, s, d, b, x, n, y);
    LateOutcome(cfg, fin1, fin2, s, d, b, x, n, y);
  }

  lemma {:induction false} LateOutcome(cfg: Config, fin1: seq<FinTx>, fin2: seq<FinTx>, s: State, d: int, b: Tx, x: Tx,
                                       n: Tx, y: Tx)
    requires LateWith(cfg, fin1, s, d, b, x, n, y) && s.txs[0] == RestOf(cfg, fin1, x, b) && IsReplica(x)
             && IsReplica(y)
    requires cfg.halfUnit > 0.0
    ensures var r := Calculate(cfg, fin2, s, d);
            && r.0.Calculated? && !r.1.rebuild && r.1.calcDate == On(y.date)
            && (Correct(cfg, fin2, r.1) ==>
                  FirstRight(cfg, fin1, fin2, b, n) && SecondRight(cfg, fin1, fin2, b, x, n))
  {
    LateCalculates(cfg, fin2, s, d, s.txs[0], s.txs[1], s.txs[2], n, y);
    LateAfter(cfg, fin1, fin2, s, d, b, x, n, y);
    if Correct(cfg, fin2, After1(cfg, fin2, s, d)) {
      LateUnits(cfg, fin1, fin2, After1(cfg, fin2, s, d), b, x, n, y);
    }
  }

  lemma {:induction false} LateAfter(cfg: Config, fin1: seq<FinTx>, fin2: seq<FinTx>, s: State, d: int, b: Tx, x: Tx,
                                     n: Tx,
                                     y: Tx)
    requires Inv(s) && Passes(cfg, fin2, s, d) && LateScratch(Scratch(s), b, x, n, y)
    ensures Inv(After1(cfg, fin2, s, d)) && LateScratch(Scratch(After1(cfg, fin2, s, d)), b, x, n, y)
  {
    AfterInv(cfg, fin2, s, d);
    CommitScratch(cfg, fin2, s, d);
    ScratchInv(After1(cfg, fin2, s, d));
  }

  lemma {:induction false} LateUnits(cfg: Config, fin1: seq<FinTx>, fin2: seq<FinTx>, s: State, b: Tx, x: Tx, n: Tx,
                                     y: Tx)
    requires Inv(s) && LateScratch(Scratch(s), b, x, n, y) && cfg.halfUnit > 0.0 && s.calcDate == On(y.date)
    requires SettledOn(cfg, fin1, x, b) in s.txs && IsReplica(x) && IsReplica(y)
    requires SettledOn(cfg, fin2, y, LessNote(RestOf(cfg, fin1, x, b), n)) in s.txs
    requires Correct(cfg, fin2, s)
    ensures FirstRight(cfg, fin1, fin2, b, n) && SecondRight(cfg, fin1, fin2, b, x, n)
  {
    var t, u := SettledOn(cfg, fin1, x, b), SettledOn(cfg, fin2, y, LessNote(RestOf(cfg, fin1, x, b), n));
    SameUnits(cfg, fin2, s, b, x, n, y, t, u);
    UnitOn(cfg, fin1, x, b);
    UnitOn(cfg, fin2, y, LessNote(RestOf(cfg, fin1, x, b), n));
  }

  // ----- Which sale is wrong -----

  /** The first sale is right exactly when the Financial Book credits the note at the unit cost of
      the purchase. */
  lemma {:induction false} FirstRightIff(cfg: Config, fin1: seq<FinTx>, fin2: seq<FinTx>, b: Tx, n: Tx)
    requires Exact(cfg) && 0.0 < n.amount < b.amount
    ensures FirstRight(cfg, fin1, fin2, b, n)
       <==> UpdatedCost(fin1, b) - UpdatedCost(fin2, b) == UpdatedCost(fin1, b) / b.amount * n.amount
  {
    assert UpdatedCost(fin2, LessNote(b, n)) == UpdatedCost(fin2, b);
    UnitExact(cfg, fin1, b);
    UnitExact(cfg, fin2, LessNote(b, n));
    QuotientsAgree(UpdatedCost(fin1, b), b.amount, UpdatedCost(fin2, b), n.amount);
  }

  /** From scratch the second sale has the unit cost of the first. */
  lemma {:induction false} SecondAsFirst(cfg: Config, fin: seq<FinTx>, x: Tx, lot: Tx)
    requires Exact(cfg) && x.amount < lot.amount
    ensures UnitCost(cfg, fin, RestOf(cfg, fin, x, lot)) == UnitCost(cfg, fin, lot)
  {
    RestExact(cfg, fin, lot, x.amount);
    UnitExact(cfg, fin, RestOf(cfg, fin, x, lot));
    UnitExact(cfg, fin, lot);
  }

  /** In the account the credit does not reach the rest of the purchase. */
  lemma {:induction false} SecondUnitIs(cfg: Config, fin1: seq<FinTx>, fin2: seq<FinTx>, b: Tx, x: Tx, n: Tx)
    requires Exact(cfg) && x.amount + n.amount < b.amount
    ensures SecondUnit(cfg, fin1, fin2, b, x, n) * (b.amount - x.amount - n.amount)
         == UpdatedCost(fin1, b) - x.amount * FirstUnit(cfg, fin1, b)
  {
    var rest := RestOf(cfg, fin1, x, b);
    RemainderCost(cfg, fin1, b, x.amount);
    assert rest == Remainder(cfg, fin1, b, x.amount) && Touched(rest);
    assert UpdatedCost(fin2, LessNote(rest, n)) == Cost(rest);
    UnitTimes(cfg, fin2, LessNote(rest, n));
  }

  lemma {:induction false} UnitTimes(cfg: Config, fin: seq<FinTx>, lot: Tx)
    requires Exact(cfg) && lot.amount > 0.0
    ensures UnitCost(cfg, fin, lot) * lot.amount == UpdatedCost(fin, lot)
  {
    var cost, quantity: real := UpdatedCost(fin, lot), lot.amount;
    UnitExact(cfg, fin, lot);
    WholeUnit(cost, quantity);
  }

  /** With exact arithmetic one of the two sales is wrong: the first, or else the second. */
  lemma {:induction false} LateSaleWrong(cfg: Config, fin1: seq<FinTx>, fin2: seq<FinTx>, b: Tx, x: Tx, n: Tx)
    requires Exact(cfg) && 0.0 < x.amount && 0.0 < n.amount && x.amount + n.amount < b.amount
    requires UpdatedCost(fin1, b) != 0.0
    ensures !(FirstRight(cfg, fin1, fin2, b, n) && SecondRight(cfg, fin1, fin2, b, x, n))
  {
    SecondAsFirst(cfg, fin2, x, LessNote(b, n));
    SecondNotFirst(cfg, fin1, fin2, b, x, n);
  }

  lemma {:induction false} SecondNotFirst(cfg: Config, fin1: seq<FinTx>, fin2: seq<FinTx>, b: Tx, x: Tx, n: Tx)
    requires Exact(cfg) && 0.0 < x.amount && 0.0 < n.amount && x.amount + n.amount < b.amount
    requires UpdatedCost(fin1, b) != 0.0
    ensures SecondUnit(cfg, fin1, fin2, b, x, n) != FirstUnit(cfg, fin1, b)
  {
    UnitTimes(cfg, fin1, b);
    SecondUnitIs(cfg, fin1, fin2, b, x, n);
    RestDearer(UpdatedCost(fin1, b), b.amount, x.amount, n.amount, FirstUnit(cfg, fin1, b),
               SecondUnit(cfg, fin1, fin2, b, x, n));
  }

  lemma {:induction false} QuotientsAgree(cost: real, quantity: real, cost': real, q: real)
    requires 0.0 < q < quantity
    ensures cost / quantity == cost' / (quantity - q) <==> cost - cost' == cost / quantity * q
  {
    var u, v := cost / quantity, cost' / (quantity - q);
    assert u * quantity == cost && v * (quantity - q) == cost';
    assert cost - u * q == u * (quantity - q);
  }

  /** Less quantity at the same cost has another unit cost. */
  lemma {:induction false} RestDearer(cost: real, quantity: real, taken: real, q: real, unit: real, dearer: real)
    requires cost != 0.0 && 0.0 < q && taken + q < quantity
    requires unit * quantity == cost && dearer * (quantity - taken - q) == cost - taken * unit
    ensures dearer != unit
  {
    assert cost - taken * unit == unit * (quantity - taken - q) + unit * q;
    assert unit != 0.0 && unit * q != 0.0;
  }

  // ----- The whole history -----

  lemma {:induction false} LateReached(cfg: Config, fin: seq<FinTx>, buy: FinTx, first: FinTx, back: FinTx,
                                       second: FinTx, d1: int, d2: int, millis: nat)
    requires ReturnsLate(buy, first, back, second, d1, d2) && cfg.halfUnit > 0.0
    ensures LateFrom(cfg, fin, Run(cfg, LateSteps(fin, buy, first, back, second, d1, millis)), d2,
                     PurchaseReplica(buy, 1, millis),
                     SaleReplica(first, 2, millis), NoteReplica(back, 4, millis), SaleReplica(second, 5, millis))
  {
    LateRun(cfg, fin, buy, first, back, second, d1, d2, millis);
  }

  /** A purchase and a sale arrive and are calculated; then a credit note for the purchase and a
      later sale arrive, and are calculated with the Financial Book that holds the note. The
      account stays unflagged, and with exact arithmetic it is not correct by that book, unless
      the purchase cost nothing. */
  lemma {:induction false} ReturnedLate(cfg: Config, fin: seq<FinTx>, buy: FinTx, first: FinTx, back: FinTx,
                                        second: FinTx, d1: int, d2: int, millis: nat)
    requires ReturnsLate(buy, first, back, second, d1, d2) && cfg.halfUnit > 0.0 && Exact(cfg)
    requires UpdatedCost(fin, PurchaseReplica(buy, 1, millis)) != 0.0
    ensures var steps := LateSteps(fin, buy, first, back, second, d1, millis);
            var s := Run(cfg, steps + [Calculating(fin + [back], d2)]);
            !s.rebuild && s.calcDate == On(second.date) && !Correct(cfg, fin + [back], s)
  {
    var b, x, n, y := PurchaseReplica(buy, 1, millis), SaleReplica(first, 2, millis), NoteReplica(back, 4, millis),
      SaleReplica(second, 5, millis);
    var steps := LateSteps(fin, buy, first, back, second, d1, millis);
    LateReached(cfg, fin, buy, first, back, second, d1, d2, millis);
    RunSnoc(cfg, steps, Calculating(fin + [back], d2));
    LateSaleWrong(cfg, fin, fin + [back], b, x, n);
    LateNoteUnflagged(cfg, fin, fin + [back], Run(cfg, steps), d2, b, x, n, y);
  }
}
