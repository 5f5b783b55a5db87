/** Two credit notes with one number, which two calculations apply and one does not. */
module NoteCounterexamples {
  import opened Lists
  import opened Ledger
  import opened FifoOrder
  import opened Allocation
  import opened Settlement
  import opened Calculation
  import opened Books
  import opened Collected
  import opened Commitment
  import opened Runs
  import opened NoteForm
  import opened TwoRuns
  import opened NoteRuns
  import opened Incremental
  import opened Batch
  import opened Arrivals
  import opened Samples

  // ----- Two credit notes with one number -----

  /** Two purchases, a sale, two credit notes and a later sale. */
  datatype Six<T> = Six(p: T, q: T, x: T, a: T, b: T, y: T) {
    function List(): seq<T> { [p, q, x, a, b, y] }
  }

  /** The credit notes have one number, and are for the second purchase and for the first. */
  ghost predicate OneNumber(cfg: Config, s: State, d1: int, d2: int, k: Six<Tx>) {
    && s.txs == k.List() && Valid(s) && CodesApart(s.txs) && s.locked == {} && cfg.halfUnit > 0.0
    && IsPurchase(k.p) && IsPurchase(k.q) && IsSale(k.x) && IsCreditNote(k.a) && IsCreditNote(k.b) && IsSale(k.y)
    && !k.p.checked && !k.q.checked && !k.x.checked && !k.a.checked && !k.b.checked && !k.y.checked
    && k.p.date < k.q.date <= d1 && k.x.date <= d1 && k.a.date <= d1 && k.b.date <= d1 && d1 < k.y.date <= d2
    && k.a.code == k.q.code && k.b.code == k.p.code && k.p.code != k.q.code && NumberOf(k.a) == NumberOf(k.b)
    && k.a.amount < k.q.amount && k.x.amount + k.y.amount + k.b.amount <= k.p.amount
  }

  lemma {:induction false} FilterSix(f: Tx -> bool, k: Six<Tx>)
    ensures Filter(f, k.List()) == Filter(f, [k.p, k.q]) + Filter(f, [k.x]) + Filter(f, [k.a, k.b]) + Filter(f, [k.y])
  {
    assert k.List() == [k.p, k.q] + [k.x] + [k.a, k.b] + [k.y];
    FilterAppend(f, [k.p, k.q] + [k.x] + [k.a, k.b], [k.y]);
    FilterAppend(f, [k.p, k.q] + [k.x], [k.a, k.b]);
    FilterAppend(f, [k.p, k.q], [k.x]);
  }

  /** What is collected up to `d`, before or after the later sale. */
  lemma {:induction false} SixCollects(cfg: Config, s: State, d1: int, d2: int, k: Six<Tx>, d: int)
    requires OneNumber(cfg, s, d1, d2, k) && d1 <= d
    ensures Purchases(s.txs, d) == [k.p, k.q] && Notes(s.txs, d) == [k.a, k.b]
            && Sales(s.txs, d) == if k.y.date <= d then [k.x, k.y] else [k.x]
  {
    SixPurchases(cfg, s, d1, d2, k, d);
    SixNotes(cfg, s, d1, d2, k, d);
    FilterSix(OpenSales(d), k);
    FilterTwo(OpenSales(d), k.p, k.q);
    FilterTwo(OpenSales(d), k.a, k.b);
    FilterOne(OpenSales(d), k.x);
    FilterOne(OpenSales(d), k.y);
  }

  lemma {:induction false} SixPurchases(cfg: Config, s: State, d1: int, d2: int, k: Six<Tx>, d: int)
    requires OneNumber(cfg, s, d1, d2, k) && d1 <= d
    ensures Purchases(s.txs, d) == [k.p, k.q]
  {
    FilterSix(OpenPurchases(d), k);
    FilterTwo(OpenPurchases(d), k.p, k.q);
    FilterTwo(OpenPurchases(d), k.a, k.b);
    FilterOne(OpenPurchases(d), k.x);
    FilterOne(OpenPurchases(d), k.y);
  }

  lemma {:induction false} SixNotes(cfg: Config, s: State, d1: int, d2: int, k: Six<Tx>, d: int)
    requires OneNumber(cfg, s, d1, d2, k) && d1 <= d
    ensures Notes(s.txs, d) == [k.a, k.b]
  {
    FilterSix(OpenNotes(d), k);
    FilterTwo(OpenNotes(d), k.p, k.q);
    FilterTwo(OpenNotes(d), k.a, k.b);
    FilterOne(OpenNotes(d), k.x);
    FilterOne(OpenNotes(d), k.y);
  }

  lemma {:induction false} SixTotals(cfg: Config, s: State, d1: int, d2: int, k: Six<Tx>, d: int)
    requires OneNumber(cfg, s, d1, d2, k) && d1 <= d
    ensures PurchasesTotal(s.txs, d) == k.p.amount + k.q.amount - (k.a.amount + k.b.amount)
    ensures SalesTotal(s.txs, d) == k.x.amount + if k.y.date <= d then k.y.amount else 0.0
    ensures NotesBy(s.txs, d) == [k.b]
  {
    SixCollects(cfg, s, d1, d2, k, d);
    SumTwo(AmountOf, k.p, k.q);
    SumTwo(AmountOf, k.a, k.b);
    SumTwo(AmountOf, k.x, k.y);
    SumOne(AmountOf, k.x);
    KeyedTwo(NumberOf, k.a, k.b);
  }

  lemma {:induction false} QuantityOfOne(n: Tx, code: Option<string>)
    ensures NoteQuantity([n], code) == if n.code == code then n.amount else 0.0
  {
    SumOne(NoteFor(code), n);
  }

  lemma {:induction false} SixShapes(cfg: Config, s: State, d1: int, d2: int, k: Six<Tx>)
    requires OneNumber(cfg, s, d1, d2, k)
    ensures k.p in s.txs && k.q in s.txs && k.x in s.txs && k.a in s.txs && k.b in s.txs && k.y in s.txs
    ensures PurchaseShape(k.p) && PurchaseShape(k.q) && SaleShape(k.x) && NoteShape(k.a) && NoteShape(k.b)
            && SaleShape(k.y) && k.a != k.b
  {
    var t := s.txs;
    assert t[0] == k.p && t[1] == k.q && t[2] == k.x && t[3] == k.a && t[4] == k.b && t[5] == k.y;
    assert WellFormed(k.p) && WellFormed(k.q) && WellFormed(k.x) && WellFormed(k.a) && WellFormed(k.b)
           && WellFormed(k.y);
  }

  /** A note for the first of two lots. */
  lemma {:induction false} AdjustFirst(n: Tx, p: Tx, q: Tx)
    requires n.code == p.code && n.code != q.code && n.amount < p.amount && 0.0 < q.amount
    ensures Affordable([n], [p, q]) && AdjustAll([n], [p, q]) == [p.(amount := p.amount - n.amount), q]
  {
    QuantityOfOne(n, p.code);
    QuantityOfOne(n, q.code);
  }

  lemma {:induction false} OneNoteOfTwoLots(txs: seq<Tx>, d: int, n: Tx, p: Tx, q: Tx)
    requires Sound(txs) && Purchases(txs, d) == [p, q] && NotesBy(txs, d) == [n] && p.date < q.date
    requires n.code == p.code && n.code != q.code && n.amount < p.amount && 0.0 < q.amount
    ensures Lots(txs, d) == [p, q] && Opening(txs, d).Ok?
    ensures Opening(txs, d).work.lots == [p.(amount := p.amount - n.amount), q]
  {
    SortTwo(p, q);
    AdjustFirst(n, p, q);
    OpeningForm(txs, d);
  }

  /** What the first run collects. */
  lemma {:induction false} FirstCollects(cfg: Config, s: State, d1: int, d2: int, k: Six<Tx>)
    requires OneNumber(cfg, s, d1, d2, k)
    ensures Purchases(s.txs, d1) == [k.p, k.q] && Sales(s.txs, d1) == [k.x] && NotesBy(s.txs, d1) == [k.b]
  {
    SixCollects(cfg, s, d1, d2, k, d1);
    SixTotals(cfg, s, d1, d2, k, d1);
  }

  lemma {:induction false} AmountsFit(cfg: Config, s: State, d1: int, d2: int, k: Six<Tx>)
    requires OneNumber(cfg, s, d1, d2, k)
    ensures k.b.amount < k.p.amount && 0.0 < k.q.amount && Sound(s.txs)
  {
    SixShapes(cfg, s, d1, d2, k);
  }

  /** The first run keeps the second note alone. */
  lemma {:induction false} FirstOpens(cfg: Config, s: State, d1: int, d2: int, k: Six<Tx>)
    requires OneNumber(cfg, s, d1, d2, k)
    ensures Opening(s.txs, d1).Ok? && Opening(s.txs, d1).work.lots == [k.p.(amount := k.p.amount - k.b.amount), k.q]
    ensures Lots(s.txs, d1) == [k.p, k.q] && SortedSales(s.txs, d1) == [k.x]
  {
    AmountsFit(cfg, s, d1, d2, k);
    FirstCollects(cfg, s, d1, d2, k);
    SortOne(k.x);
    OneNoteOfTwoLots(s.txs, d1, k.b, k.p, k.q);
  }

  /** Its sale draws on the first purchase alone. */
  lemma {:induction false} FirstDraws(cfg: Config, fin: seq<FinTx>, s: State, d1: int, p: Tx, q: Tx, x: Tx)
    requires Opening(s.txs, d1).Ok? && SortedSales(s.txs, d1) == [x]
    requires Opening(s.txs, d1).work.lots == [p, q] && !p.checked && x.amount <= p.amount && cfg.halfUnit > 0.0
    ensures var w := WorkOf(cfg, fin, s, d1); |w.lots| == 2 && w.lots[1] == q
  {
    var v := Opening(s.txs, d1).work;
    ProcessOne(RunMovers(cfg, fin), cfg.halfUnit, x, v);
    assert v.lots == [p] + [q];
    SaleOnOne(cfg, fin, x, p, [q], v);
  }

  lemma {:induction false} FirstGoes(cfg: Config, fin: seq<FinTx>, s: State, d1: int, d2: int, k: Six<Tx>)
    requires OneNumber(cfg, s, d1, d2, k)
    ensures Passes(cfg, fin, s, d1) && SalesTotal(s.txs, d1) != 0.0
  {
    assert 0.0 < k.x.amount && 0.0 < k.y.amount by { SixShapes(cfg, s, d1, d2, k); }
    SixTotals(cfg, s, d1, d2, k, d1);
    FirstOpens(cfg, s, d1, d2, k);
  }

  /** The first run leaves the second purchase as it was, and the first note open. */
  lemma {:induction false} FirstLeavesOpen(cfg: Config, fin: seq<FinTx>, s: State, d1: int, d2: int, k: Six<Tx>)
    requires OneNumber(cfg, s, d1, d2, k) && Passes(cfg, fin, s, d1)
    ensures var before, after := Opening(s.txs, d1).work.lots, WorkOf(cfg, fin, s, d1).lots;
            |before| == |after| == 2 && before[0].code == k.p.code && before[1] == after[1] == k.q
    ensures Lookup(WorkOf(cfg, fin, s, d1).updates, k.q) == k.q
    ensures SecondKept(s.txs, d1, d2) == [k.a] && AppliedBy(s.txs, d1)(k.b)
  {
    var w := WorkOf(cfg, fin, s, d1);
    FirstOpens(cfg, s, d1, d2, k);
    FirstDraws(cfg, fin, s, d1, k.p.(amount := k.p.amount - k.b.amount), k.q, k.x);
    SettleLots(cfg, fin, s.txs, d1);
    assert Apply(w.updates, [k.p, k.q])[1] == w.lots[1];
    NoteLeft(cfg, s, d1, d2, k);
  }

  /** Of two notes of which the first run applies the second, the second run finds the first. */
  lemma {:induction false} OtherLeft(txs: seq<Tx>, d1: int, d2: int, a: Tx, b: Tx)
    requires NotesBy(txs, d1) == [b] && Notes(txs, d2) == [a, b] && a != b && Matched(Purchases(txs, d1), b)
    ensures SecondKept(txs, d1, d2) == [a] && AppliedBy(txs, d1)(b)
  {
    var p := StillOpen(txs, d1);
    assert b in NotesBy(txs, d1) && a !in NotesBy(txs, d1);
    assert AppliedBy(txs, d1)(b) && !AppliedBy(txs, d1)(a);
    assert p(a) && !p(b);
    FilterTwo(p, a, b);
    assert NotesLeft(txs, d1, d2) == [a];
    KeyedOne(NumberOf, a);
  }

  lemma {:induction false} NoteLeft(cfg: Config, s: State, d1: int, d2: int, k: Six<Tx>)
    requires OneNumber(cfg, s, d1, d2, k)
    ensures SecondKept(s.txs, d1, d2) == [k.a] && AppliedBy(s.txs, d1)(k.b)
  {
    assert NotesBy(s.txs, d1) == [k.b] by { SixTotals(cfg, s, d1, d2, k, d1); }
    assert Notes(s.txs, d2) == [k.a, k.b] by { SixNotes(cfg, s, d1, d2, k, d2); }
    assert Matched(Purchases(s.txs, d1), k.b) by {
      SixPurchases(cfg, s, d1, d2, k, d1);
      MatchedIff([k.p, k.q], k.b);
      assert [k.p, k.q][0].code == k.b.code;
    }
    OtherLeft(s.txs, d1, d2, k.a, k.b);
  }

  /** The second run applies the first note and goes through. */
  lemma {:induction false} SecondGoes(cfg: Config, fin: seq<FinTx>, s: State, d1: int, d2: int, k: Six<Tx>)
    requires OneNumber(cfg, s, d1, d2, k) && Passes(cfg, fin, s, d1)
    ensures Passes(cfg, fin, After1(cfg, fin, s, d1), d2) && SalesTotal(After1(cfg, fin, s, d1).txs, d2) != 0.0
    ensures NotesBy(After1(cfg, fin, s, d1).txs, d2) == [k.a]
  {
    var s1 := After1(cfg, fin, s, d1);
    assert 0.0 < k.y.amount by { SixShapes(cfg, s, d1, d2, k); }
    BookAfter(cfg, fin, s, d1);
    SixTotals(cfg, s, d1, d2, k, d1);
    SixTotals(cfg, s, d1, d2, k, d2);
    SalesSum(cfg, fin, s, d1, d2);
    StockKept(cfg, fin, s, d1, d2);
    SecondNotes(cfg, fin, s, d1, d2);
    FirstLeavesOpen(cfg, fin, s, d1, d2, k);
    SecondAffordsNote(cfg, fin, s, d1, d2, k);
    OpeningForm(s1.txs, d2);
  }

  /** What is left of the purchases holds more than the first note takes. */
  lemma {:induction false} SecondAffordsNote(cfg: Config, fin: seq<FinTx>, s: State, d1: int, d2: int, k: Six<Tx>)
    requires OneNumber(cfg, s, d1, d2, k) && Passes(cfg, fin, s, d1)
    ensures Affordable([k.a], Purchases(After1(cfg, fin, s, d1).txs, d2))
  {
    var u, ps := WorkOf(cfg, fin, s, d1).updates, Purchases(After1(cfg, fin, s, d1).txs, d2);
    assert Lookup(u, k.q) == k.q by { FirstLeavesOpen(cfg, fin, s, d1, d2, k); }
    assert ps == Filter(Unchecked, Apply(u, [k.p, k.q])) by {
      SixPurchases(cfg, s, d1, d2, k, d2);
      SecondPurchases(cfg, fin, s, d1, d2);
    }
    assert Positive(ps) by {
      BookAfter(cfg, fin, s, d1);
      MembersShapes(After1(cfg, fin, s, d1).txs, d2);
    }
    assert Lookup(u, k.p).code == k.p.code by {
      SixShapes(cfg, s, d1, d2, k);
      SettleEvolves(cfg, fin, s.txs, d1, k.p);
      EvolvesShape(k.p, Lookup(u, k.p));
    }
    PairAffords(u, k.p, k.q, k.a, ps);
  }

  lemma {:induction false} PairAffords(u: map<nat, Tx>, p: Tx, q: Tx, a: Tx, ps: seq<Tx>)
    requires ps == Filter(Unchecked, Apply(u, [p, q])) && Positive(ps)
    requires Lookup(u, q) == q && Lookup(u, p).code == p.code && p.code != a.code && a.amount < q.amount
    ensures Affordable([a], ps)
  {
    var qs := Apply(u, [p, q]);
    FilterSound(Unchecked, qs);
    forall i | 0 <= i < |ps| ensures NoteQuantity([a], ps[i].code) < ps[i].amount {
      assert ps[i] in qs;
      assert qs == [Lookup(u, p), q];
      QuantityOfOne(a, ps[i].code);
    }
  }

  /** Both runs go through, and the second one's note spares what the first one's sale drew on. */
  lemma {:induction false} BothGo(cfg: Config, fin: seq<FinTx>, s: State, d1: int, d2: int, k: Six<Tx>)
    requires OneNumber(cfg, s, d1, d2, k)
    ensures BothGoThrough(cfg, fin, fin, s, d1, d2)
  {
    assert Passes(cfg, fin, s, d1) && SalesTotal(s.txs, d1) != 0.0 by { FirstGoes(cfg, fin, s, d1, d2, k); }
    SecondGoes(cfg, fin, s, d1, d2, k);
    FirstLeavesOpen(cfg, fin, s, d1, d2, k);
    LastSpared(k.a, Opening(s.txs, d1).work.lots, WorkOf(cfg, fin, s, d1).lots);
    BothPassed(cfg, fin, s, d1, d2);
  }

  lemma {:induction false} LastSpared(a: Tx, before: seq<Tx>, after: seq<Tx>)
    requires |before| == |after| == 2 && before[1] == after[1] && before[0].code != a.code
    ensures Spares([a], before, after)
  {}

  lemma {:induction false} BothPassed(cfg: Config, fin: seq<FinTx>, s: State, d1: int, d2: int)
    requires RunsSpare(cfg, fin, s, d1, d2) && s.locked == {}
    requires SalesTotal(s.txs, d1) != 0.0 && SalesTotal(After1(cfg, fin, s, d1).txs, d2) != 0.0
    ensures BothGoThrough(cfg, fin, fin, s, d1, d2)
  {
    var s1 := After1(cfg, fin, s, d1);
    assert s1.locked == {};
    assert Calculate(cfg, fin, s1, d2).0.Calculated?;
  }

  /** Two notes with one number, for different purchases: two calculations apply both, one
      calculation keeps only the last, and the books differ. */
  lemma {:induction false} OneNumberTwoNotes(cfg: Config, fin: seq<FinTx>, s: State, d1: int, d2: int, k: Six<Tx>)
    requires OneNumber(cfg, s, d1, d2, k)
    ensures BothGoThrough(cfg, fin, fin, s, d1, d2) && !BatchAgrees(cfg, fin, fin, s, d1, d2)
  {
    BothGo(cfg, fin, s, d1, d2, k);
    assert !NotesKept(s.txs, d1, d2) by {
      NoteLeft(cfg, s, d1, d2, k);
      NoteDropped(cfg, s, d1, d2, k);
    }
    IncrementalIff(cfg, fin, fin, s, d1, d2);
  }

  lemma {:induction false} NoteDropped(cfg: Config, s: State, d1: int, d2: int, k: Six<Tx>)
    requires OneNumber(cfg, s, d1, d2, k) && SecondKept(s.txs, d1, d2) == [k.a]
    ensures !NotesKept(s.txs, d1, d2)
  {
    SixTotals(cfg, s, d1, d2, k, d2);
    SixPurchases(cfg, s, d1, d2, k, d2);
    MatchedIff([k.p, k.q], k.a);
    assert [k.p, k.q][1].code == k.a.code;
    assert k.a in SecondKept(s.txs, d1, d2) && Matched(Purchases(s.txs, d2), k.a) && k.a != k.b;
  }

  /** Documents of two purchases, a sale, two credit notes with one number that return part of
      the second and of the first purchase, and a later sale. */
  ghost predicate ReturnsTwice(cfg: Config, d1: int, d2: int, f: Six<FinTx>) {
    && Buys(f.p) && Buys(f.q) && Sells(f.x) && Returns(f.a) && Returns(f.b) && Sells(f.y)
    && AllTrade(f.List()) && cfg.halfUnit > 0.0
    && f.p.date < f.q.date <= d1 && f.x.date <= d1 && f.a.date <= d1 && f.b.date <= d1 && d1 < f.y.date <= d2
    && f.a.code == f.q.code && f.b.code == f.p.code && f.p.code != f.q.code && f.a.creditNote == f.b.creditNote
    && Units(f.a) < Units(f.q) && Units(f.x) + Units(f.y) + Units(f.b) <= Units(f.p)
  }

  /** What the six documents replicate to. */
  function SixReplicas(f: Six<FinTx>, millis: nat): Six<Tx> {
    Six(PurchaseReplica(f.p, 1, millis), PurchaseReplica(f.q, 2, millis), SaleReplica(f.x, 3, millis),
        NoteReplica(f.a, 4, millis), NoteReplica(f.b, 5, millis), SaleReplica(f.y, 6, millis))
  }

  lemma {:induction false} SixReplicated(cfg: Config, d1: int, d2: int, f: Six<FinTx>, millis: nat)
    requires ReturnsTwice(cfg, d1, d2, f)
    ensures ReplicasOf(f.List(), millis) == SixReplicas(f, millis).List()
  {
    TradeReplica(f.p, 1, millis);
    TradeReplica(f.q, 2, millis);
    TradeReplica(f.x, 3, millis);
    TradeReplica(f.a, 4, millis);
    TradeReplica(f.b, 5, millis);
    TradeReplica(f.y, 6, millis);
  }

  lemma {:induction false} ReplicasOneNumber(cfg: Config, s: State, d1: int, d2: int, f: Six<FinTx>, millis: nat)
    requires ReturnsTwice(cfg, d1, d2, f) && s.txs == SixReplicas(f, millis).List()
    requires Valid(s) && CodesApart(s.txs) && s.locked == {}
    ensures OneNumber(cfg, s, d1, d2, SixReplicas(f, millis))
  {}

  /** After these documents have arrived, one calculation and two make different books. */
  lemma {:induction false} OneDocumentTwoReturns(cfg: Config, fin: seq<FinTx>, d1: int, d2: int, f: Six<FinTx>,
                                                 millis: nat)
    requires ReturnsTwice(cfg, d1, d2, f)
    ensures var s := Run(cfg, ArrivalsOf(f.List(), millis));
            BothGoThrough(cfg, fin, fin, s, d1, d2) && !BatchAgrees(cfg, fin, fin, s, d1, d2)
  {
    var docs := f.List();
    var s := Run(cfg, ArrivalsOf(docs, millis));
    DocsArrive(cfg, docs, millis);
    DocsAdmissible(cfg, docs, millis);
    RunKeeps(cfg, ArrivalsOf(docs, millis));
    SixReplicated(cfg, d1, d2, f, millis);
    ReplicasOneNumber(cfg, s, d1, d2, f, millis);
    OneNumberTwoNotes(cfg, fin, s, d1, d2, SixReplicas(f, millis));
  }
}
