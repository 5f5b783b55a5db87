/** Credit notes that a calculation applies too late: exactly when they make a correct account wrong. */
module SparedNotes {
  import opened Lists
  import opened Ledger
  import opened FifoOrder
  import opened Allocation
  import opened Settlement
  import opened Calculation
  import opened Books
  import opened Collected
  import opened Commitment
  import opened Runs
  import opened Costs
  import opened Families
  import opened Marks
  import opened NoteForm
  import opened TwoRuns
  import opened NoteRuns
  import opened Incremental
  import opened Batch
  import opened Congruence
  import opened Unflagged
  import opened BookChanges

  // ----- Every part sold of a lot has the unit cost of the lot -----

  /** A part of a lot is sold at the lot's unit cost. */
  ghost predicate SoldAtUnit(fin: seq<FinTx>, lot: Tx, y: Tx) {
    y.liquidation.Some? && y.parent == Some(lot.id) ==> y.liquidation.value.unitCost == TrueUnit(fin, lot)
  }

  ghost predicate KeepsUnit(fin: seq<FinTx>, a: Tx, b: Tx) {
    b.id == a.id && (!b.checked ==> !a.checked && TrueUnit(fin, b) == TrueUnit(fin, a))
  }

  ghost predicate UnitsTell(fin: seq<FinTx>, base: seq<Tx>, w: Work) {
    && |base| == |w.lots|
    && (forall i :: 0 <= i < |base| ==> KeepsUnit(fin, base[i], w.lots[i]))
    && forall y, i :: y in w.created && 0 <= i < |base| ==> SoldAtUnit(fin, base[i], y)
  }

  /** The piece of a move has the unit cost of the lot it is taken from. */
  ghost predicate PieceAtUnit(fin: seq<FinTx>, m: Move) {
    m.piece.Some? ==>
      && !m.before.checked && m.piece.value.parent == Some(m.before.id)
      && m.piece.value.liquidation.Some? && m.piece.value.liquidation.value.unitCost == TrueUnit(fin, m.before)
  }

  lemma {:induction false} MoveUnits(cfg: Config, fin: seq<FinTx>, sale: Tx, need: Quantity, lot: Tx)
    requires Exact(cfg) && !lot.checked && lot.amount > 0.0
    ensures var m := SaleMover(cfg, fin, sale)(need, lot); PieceAtUnit(fin, m) && KeepsUnit(fin, lot, m.after)
  {
    UnitExact(cfg, fin, lot);
    MoveExact(cfg, fin, sale, need, lot);
  }

  lemma {:induction false} DrawUnits(cfg: Config, fin: seq<FinTx>, sale: Tx, lots: seq<Tx>)
    requires Exact(cfg) && Ready(lots)
    ensures var d := DrawFor(RunMovers(cfg, fin), sale, lots);
            && |d.lots| == |lots| && (forall i :: 0 <= i < |lots| ==> KeepsUnit(fin, lots[i], d.lots[i]))
            && forall m :: m in d.moves ==> PieceAtUnit(fin, m) && m.before in lots
  {
    var mover := SaleMover(cfg, fin, sale);
    var r, p := (a: Tx, b: Tx) => KeepsUnit(fin, a, b), (m: Move) => PieceAtUnit(fin, m);
    SaleMoverLawful(cfg, fin, sale);
    forall n: Quantity, lot: Tx | !lot.checked && lot in lots ensures r(lot, mover(n, lot).after) && p(mover(n, lot)) {
      var i :| 0 <= i < |lots| && lots[i] == lot;
      MoveUnits(cfg, fin, sale, n, lot);
    }
    TakeRelates(mover, sale.amount, lots, r);
    TakeMoves(mover, sale.amount, lots, p);
    var d := Take(mover, sale.amount, lots);
    forall i | 0 <= i < |lots| ensures KeepsUnit(fin, lots[i], d.lots[i]) { assert r(lots[i], d.lots[i]); }
    forall m | m in d.moves ensures PieceAtUnit(fin, m) { assert p(m); }
  }

  lemma {:induction false} SaleUnits(cfg: Config, fin: seq<FinTx>, sale: Tx, base: seq<Tx>, w: Work)
    requires Exact(cfg) && Distinct(IdOf, base) && UnitsTell(fin, base, w) && Ready(w.lots)
    ensures UnitsTell(fin, base, ProcessSale(RunMovers(cfg, fin), cfg.halfUnit, sale, w))
  {
    var d := DrawFor(RunMovers(cfg, fin), sale, w.lots);
    DrawUnits(cfg, fin, sale, w.lots);
    PiecesFrom(d.moves);
    forall i | 0 <= i < |base| ensures KeepsUnit(fin, base[i], d.lots[i]) {
      assert KeepsUnit(fin, base[i], w.lots[i]) && KeepsUnit(fin, w.lots[i], d.lots[i]);
    }
    forall y, i | y in Pieces(d.moves) && 0 <= i < |base| ensures SoldAtUnit(fin, base[i], y) {
      var m :| m in d.moves && m.piece == Some(y);
      assert PieceAtUnit(fin, m);
      PieceOfLot(fin, base, w, m, i);
    }
  }

  lemma {:induction false} PieceOfLot(fin: seq<FinTx>, base: seq<Tx>, w: Work, m: Move, i: nat)
    requires Distinct(IdOf, base) && UnitsTell(fin, base, w) && i < |base|
    requires m.piece.Some? && PieceAtUnit(fin, m) && m.before in w.lots
    ensures SoldAtUnit(fin, base[i], m.piece.value)
  {
    var k :| 0 <= k < |w.lots| && w.lots[k] == m.before;
    assert KeepsUnit(fin, base[k], w.lots[k]);
    if k != i { assert IdOf(base[k]) != IdOf(base[i]); }
  }

  lemma {:induction false} RunUnits(cfg: Config, fin: seq<FinTx>, sales: seq<Tx>, base: seq<Tx>, w: Work)
    requires Exact(cfg) && Distinct(IdOf, base) && UnitsTell(fin, base, w) && Ready(w.lots)
    ensures UnitsTell(fin, base, ProcessSales(RunMovers(cfg, fin), cfg.halfUnit, sales, w))
    decreases |sales|
  {
    if |sales| > 0 {
      var init, sale, movers := sales[..|sales| - 1], sales[|sales| - 1], RunMovers(cfg, fin);
      RunUnits(cfg, fin, init, base, w);
      RunMoversLawful(cfg, fin);
      RunFrame(movers, init, w.lots);
      ProcessLots(movers, cfg.halfUnit, init, w);
      SaleUnits(cfg, fin, sale, base, ProcessSales(movers, cfg.halfUnit, init, w));
    }
  }

  /** With exact arithmetic, every part sold by a calculation has the unit cost that its lot had
      after the credit notes. */
  lemma {:induction false} SettleUnits(cfg: Config, fin: seq<FinTx>, txs: seq<Tx>, d: int)
    requires Sound(txs) && Settle(cfg, fin, txs, d).Ok? && Exact(cfg)
    ensures UnitsTell(fin, Opening(txs, d).work.lots, Settle(cfg, fin, txs, d).work)
  {
    var v := Opening(txs, d).work;
    LotsAreThePurchases(txs, d);
    NotesUnsold(NotesBy(txs, d), Start(LotsBy(txs, d)));
    OpenedLots(txs, d);
    assert UnitsTell(fin, v.lots, v);
    RunUnits(cfg, fin, SortedSales(txs, d), v.lots, v);
  }

  lemma {:induction false} OpenedLots(txs: seq<Tx>, d: int)
    requires Sound(txs) && Opening(txs, d).Ok?
    ensures Distinct(IdOf, Opening(txs, d).work.lots) && Ready(Opening(txs, d).work.lots)
  {
    var ls, lots := Lots(txs, d), Opening(txs, d).work.lots;
    MembersShapes(txs, d);
    OpeningForm(txs, d);
    OpenLotsUnsold(txs, d);
    forall i, j | 0 <= i < j < |lots| ensures IdOf(lots[i]) != IdOf(lots[j]) { assert IdOf(ls[i]) != IdOf(ls[j]); }
    forall i | 0 <= i < |lots| ensures lots[i].amount > 0.0 { assert PurchaseShape(lots[i]); }
  }

  // ----- The unit cost at which a purchase is sold from scratch -----

  /** The unit cost of purchase `p` after the credit notes up to `d`. */
  function NotedUnit(fin: seq<FinTx>, txs: seq<Tx>, d: int, p: Tx): real {
    TrueUnit(fin, Adjusted(NotesBy(txs, d), p))
  }

  lemma {:induction false} UnitAt(fin: seq<FinTx>, txs: seq<Tx>, d: int, p: Tx)
    requires Sound(txs) && Opening(txs, d).Ok? && p in Purchases(txs, d)
    ensures var q := NoteQuantity(NotesBy(txs, d), p.code);
            0.0 <= q < p.amount && NotedUnit(fin, txs, d, p) == UpdatedCost(fin, p) / (p.amount - q)
  {
    assert Affordable(NotesBy(txs, d), Purchases(txs, d)) by { OpeningForm(txs, d); }
    AffordsAt(NotesBy(txs, d), Purchases(txs, d), p);
    AdjustedCost(fin, NotesBy(txs, d), p);
  }

  lemma {:induction false} AffordsAt(ns: seq<Tx>, ps: seq<Tx>, p: Tx)
    requires Affordable(ns, ps) && p in ps
    ensures 0.0 <= NoteQuantity(ns, p.code) < p.amount
  {
    var k :| 0 <= k < |ps| && ps[k] == p;
    NoteQuantityNonNeg(ns, p.code);
  }

  lemma {:induction false} AdjustedCost(fin: seq<FinTx>, ns: seq<Tx>, p: Tx)
    requires 0.0 <= NoteQuantity(ns, p.code) < p.amount
    ensures TrueUnit(fin, Adjusted(ns, p)) == UpdatedCost(fin, p) / (p.amount - NoteQuantity(ns, p.code))
  {
    var q := NoteQuantity(ns, p.code);
    assert Adjusted(ns, p) == p.(amount := p.amount - q);
    assert UpdatedCost(fin, p.(amount := p.amount - q)) == UpdatedCost(fin, p);
  }

  lemma {:induction false} DrawnCollected(cfg: Config, fin: seq<FinTx>, g: State, c: int, p: Tx)
    requires Passes(cfg, fin, g, c) && p in g.txs && PurchaseShape(p) && Untouched(p)
    requires !Untouched(Lookup(WorkOf(cfg, fin, g, c).updates, p))
    ensures p in Purchases(g.txs, c)
  {
    if p.date > c { Uncollected(cfg, fin, g, c, p); }
    assert WellFormed(p);
    FilterSound(OpenPurchases(c), g.txs);
  }

  /** A part sold of a purchase that is drawn on and not used up. */
  lemma {:induction false} PartSold(cfg: Config, fin: seq<FinTx>, g: State, c: int, p: Tx) returns (y: Tx)
    requires Inv(g) && Passes(cfg, fin, g, c) && p in g.txs && PurchaseShape(p) && Untouched(p)
    requires var t := Lookup(WorkOf(cfg, fin, g, c).updates, p); !Untouched(t) && !t.checked
    ensures y in WorkOf(cfg, fin, g, c).created && y.parent == Some(p.id) && y.liquidation.Some?
  {
    var w := WorkOf(cfg, fin, g, c);
    OpenMark(cfg, fin, g, c, p);
    InBookAfter(cfg, fin, g, c, p);
    EvolvesShape(p, Lookup(w.updates, p));
    SettleCreates(cfg, fin, g.txs, c);
    y :| y in w.created && SoldPart(y, p.id);
  }

  /** Every part sold of a purchase has its unit cost after the credit notes. */
  lemma {:induction false} PartUnit(cfg: Config, fin: seq<FinTx>, g: State, c: int, p: Tx, y: Tx)
    requires Passes(cfg, fin, g, c) && Exact(cfg) && p in Purchases(g.txs, c)
    requires y in WorkOf(cfg, fin, g, c).created && y.parent == Some(p.id) && y.liquidation.Some?
    ensures y.liquidation.value.unitCost == NotedUnit(fin, g.txs, c, p)
  {
    var i := LotAt(g.txs, c, p);
    SettleUnits(cfg, fin, g.txs, c);
    assert SoldAtUnit(fin, Opening(g.txs, c).work.lots[i], y);
  }

  /** A part sold, wherever the account's splits were posted. */
  ghost predicate SoldIn(txs: seq<Tx>, id: nat, unit: real) {
    exists z ::
      z in SplitsIn(txs) && z.parent == Some(id) && z.liquidation.Some? && z.liquidation.value.unitCost == unit
  }

  lemma {:induction false} ErasedIn(created: seq<Tx>, y: Tx)
    requires y in created
    ensures Erased(y) in multiset(ErasedAll(created))
  {
    var i :| 0 <= i < |created| && created[i] == y;
    assert ErasedAll(created)[i] in multiset(ErasedAll(created));
  }

  lemma {:induction false} ErasedOf(created: seq<Tx>, z: Tx) returns (y: Tx)
    requires z in multiset(ErasedAll(created))
    ensures y in created && Erased(y) == z
  {
    assert z in ErasedAll(created);
    var i :| 0 <= i < |created| && ErasedAll(created)[i] == z;
    y := created[i];
  }

  /** From scratch, a purchase that is drawn on and not used up has a part sold at its unit cost. */
  lemma {:induction false} ScratchSells(cfg: Config, fin: seq<FinTx>, s: State, c: int, p: Tx)
    requires Inv(s) && Exact(cfg) && Passes(cfg, fin, Scratch(s), c) && p in Scratch(s).txs && PurchaseShape(p)
    requires Untouched(p)
    requires var t := Lookup(WorkOf(cfg, fin, Scratch(s), c).updates, p); !Untouched(t) && !t.checked
    ensures SoldIn(After1(cfg, fin, Scratch(s), c).txs, p.id, NotedUnit(fin, Scratch(s).txs, c, p))
  {
    ScratchInv(s);
    ScratchAfter(cfg, fin, s, c);
    var y := PartSold(cfg, fin, Scratch(s), c, p);
    DrawnCollected(cfg, fin, Scratch(s), c, p);
    PartUnit(cfg, fin, Scratch(s), c, p, y);
    ErasedIn(WorkOf(cfg, fin, Scratch(s), c).created, y);
    var z := Erased(y);
    assert z.parent == Some(p.id) && z.liquidation == y.liquidation;
  }

  /** From scratch, a purchase has no part sold at another unit cost. */
  lemma {:induction false} ScratchSellsAt(cfg: Config, fin: seq<FinTx>, s: State, c: int, p: Tx, unit: real)
    requires Inv(s) && Exact(cfg) && Passes(cfg, fin, Scratch(s), c) && p in Purchases(Scratch(s).txs, c)
    requires SoldIn(After1(cfg, fin, Scratch(s), c).txs, p.id, unit)
    ensures unit == NotedUnit(fin, Scratch(s).txs, c, p)
  {
    ScratchInv(s);
    ScratchAfter(cfg, fin, s, c);
    var z :| z in SplitsIn(After1(cfg, fin, Scratch(s), c).txs) && z.parent == Some(p.id) && z.liquidation.Some?
             && z.liquidation.value.unitCost == unit;
    var y := ErasedOf(WorkOf(cfg, fin, Scratch(s), c).created, z);
    PartUnit(cfg, fin, Scratch(s), c, p, y);
  }

  // ----- Numbers -----

  /** The credit notes up to `d` have numbers of their own. */
  ghost predicate OwnNumbers(s: State, d: int) { Distinct(NumberOf, Notes(Scratch(s).txs, d)) }

  /** A replica as posted is in the scratch account. */
  lemma {:induction false} FreshIn(s: State, t: Tx)
    requires t in s.txs && IsReplica(t)
    ensures Fresh(t) in Scratch(s).txs
  {
    var rs := Filter(IsReplica, s.txs);
    FilterSound(IsReplica, s.txs);
    assert t in rs;
    var i :| 0 <= i < |rs| && rs[i] == t;
    assert Scratch(s).txs[i] == Fresh(t);
  }

  lemma {:induction false} NoteFresh(n: Tx)
    requires NoteShape(n) && !n.checked
    ensures Fresh(n) == n
  {}

  /** The open notes of the account are among those of its scratch account. */
  lemma {:induction false} NoteFromScratch(s: State, d: int, n: Tx)
    requires Inv(s) && n in Notes(s.txs, d)
    ensures n in s.txs && NoteShape(n) && IsCreditNote(n) && !n.checked && n.date <= d
    ensures n in Scratch(s).txs && n in Notes(Scratch(s).txs, d)
  {
    FilterSound(OpenNotes(d), s.txs);
    FilterSound(OpenNotes(d), Scratch(s).txs);
    assert WellFormed(n);
    NoteFresh(n);
    FreshIn(s, n);
  }

  lemma {:induction false} OwnNumbersEarlier(s: State, c: int, d: int)
    requires OwnNumbers(s, d) && c <= d
    ensures OwnNumbers(s, c)
  {
    FilterTwice(OpenNotes(d), UpTo(c), OpenNotes(c), Scratch(s).txs);
    FilterDistinct(NumberOf, UpTo(c), Notes(Scratch(s).txs, d));
  }

  lemma {:induction false} DistinctPart<K>(key: Tx -> K, xs: seq<Tx>, ys: seq<Tx>)
    requires Distinct(IdOf, xs) && Distinct(key, ys) && forall x :: x in xs ==> x in ys
    ensures Distinct(key, xs)
  {
    forall i, j | 0 <= i < j < |xs| ensures key(xs[i]) != key(xs[j]) {
      assert xs[i] in ys && xs[j] in ys && IdOf(xs[i]) != IdOf(xs[j]);
      var k :| 0 <= k < |ys| && ys[k] == xs[i];
      var l :| 0 <= l < |ys| && ys[l] == xs[j];
      if k < l { assert key(ys[k]) != key(ys[l]); } else { assert key(ys[l]) != key(ys[k]); }
    }
  }

  /** With numbers of their own, all collected notes are kept. */
  lemma {:induction false} AllKept(s: State, d: int)
    requires Inv(s) && OwnNumbers(s, d)
    ensures NotesBy(s.txs, d) == Notes(s.txs, d) && NotesBy(Scratch(s).txs, d) == Notes(Scratch(s).txs, d)
  {
    forall n | n in Notes(s.txs, d) ensures n in Notes(Scratch(s).txs, d) { NoteFromScratch(s, d, n); }
    FilterDistinct(IdOf, OpenNotes(d), s.txs);
    DistinctPart(NumberOf, Notes(s.txs, d), Notes(Scratch(s).txs, d));
    KeyedDistinct(NumberOf, Notes(s.txs, d));
    KeyedDistinct(NumberOf, Notes(Scratch(s).txs, d));
  }

  // ----- What a calculation from scratch makes of a credit note -----

  /** A run from scratch up to `c` makes the book of the account. */
  ghost predicate MadeFromScratch(cfg: Config, fin: seq<FinTx>, s: State, c: int) {
    && Inv(s) && cfg.halfUnit > 0.0 && Passes(cfg, fin, Scratch(s), c)
    && SameBook(s, After1(cfg, fin, Scratch(s), c))
  }

  lemma {:induction false} CorrectMade(cfg: Config, fin: seq<FinTx>, s: State, c: int)
    requires Inv(s) && Correct(cfg, fin, s) && cfg.halfUnit > 0.0 && s.calcDate.Value() == Some(c)
    ensures MadeFromScratch(cfg, fin, s, c)
  {
    var x := CorrectReference(cfg, fin, s);
  }

  /** The credit notes checked in the account are those that the run from scratch applies. */
  lemma {:induction false} CheckedIffApplied(cfg: Config, fin: seq<FinTx>, s: State, c: int, n: Tx, m: Tx)
    requires MadeFromScratch(cfg, fin, s, c) && n in Scratch(s).txs && IsCreditNote(n) && !n.checked
    requires m in s.txs && IsReplica(m) && m.id == n.id
    ensures m.checked <==> AppliedBy(Scratch(s).txs, c)(n)
  {
    var g := Scratch(s);
    var x, t := After1(cfg, fin, g, c), Lookup(WorkOf(cfg, fin, g, c).updates, n);
    NoteAfterFirst(cfg, fin, g, c, n);
    InBookAfter(cfg, fin, g, c, n);
    ReplicaShared(x.txs, s.txs, m);
    BookAfter(cfg, fin, g, c);
    SameIdSame(x.txs, t, m);
  }

  lemma {:induction false} MatchedPurchase(txs: seq<Tx>, d: int, n: Tx) returns (p: Tx)
    requires Matched(Purchases(txs, d), n)
    ensures p in txs && OpenPurchases(d)(p) && p.code == n.code
  {
    MatchedIff(Purchases(txs, d), n);
    FilterSound(OpenPurchases(d), txs);
    var ps := Purchases(txs, d);
    var i :| 0 <= i < |ps| && ps[i].code == n.code;
    p := ps[i];
    assert p in ps;
  }

  lemma {:induction false} MatchedBy(txs: seq<Tx>, d: int, n: Tx, p: Tx)
    requires p in txs && OpenPurchases(d)(p) && p.code == n.code
    ensures p in Purchases(txs, d) && Matched(Purchases(txs, d), n)
  {
    FilterSound(OpenPurchases(d), txs);
    var ps := Purchases(txs, d);
    var i :| 0 <= i < |ps| && ps[i] == p;
    MatchedIff(ps, n);
  }

  /** What a transaction of the scratch account was posted as. */
  lemma {:induction false} ScratchRoot(s: State, t: Tx) returns (r: Tx)
    requires Inv(s) && t in Scratch(s).txs
    ensures r in s.txs && IsReplica(r) && Fresh(r) == t && PurchaseShape(r) == PurchaseShape(t)
    ensures r.id == t.id && r.date == t.date && r.code == t.code
  {
    var rs := Filter(IsReplica, s.txs);
    FilterSound(IsReplica, s.txs);
    var i :| 0 <= i < |rs| && Fresh(rs[i]) == t;
    r := rs[i];
    assert r in rs && WellFormed(r);
    FreshShape(r);
  }

  /** The calculation leaves a correct account: then a run from scratch up to the last sale makes
      its book. */
  lemma {:induction false} AfterMade(cfg: Config, fin: seq<FinTx>, s: State, d: int)
    requires Inv(s) && Correct(cfg, fin, s) && Passes(cfg, fin, s, d) && |SortedSales(s.txs, d)| > 0
    requires Correct(cfg, fin, After1(cfg, fin, s, d))
    ensures MadeFromScratch(cfg, fin, After1(cfg, fin, s, d), LastDate(s.txs, d))
    ensures Scratch(After1(cfg, fin, s, d)).txs == Scratch(s).txs
  {
    AfterInv(cfg, fin, s, d);
    LaterDate(cfg, fin, s, d);
    CommitScratch(cfg, fin, s, d);
    CorrectMade(cfg, fin, After1(cfg, fin, s, d), LastDate(s.txs, d));
  }

  // ----- Credit notes that are too late -----

  /** In a calculation that leaves a correct account, a credit note that is applied is dated no
      later than the last sale, and so is the purchase that it is for. */
  lemma {:induction false} AppliedInTime(cfg: Config, fin: seq<FinTx>, s: State, d: int, n: Tx)
    requires Inv(s) && Correct(cfg, fin, s) && Passes(cfg, fin, s, d) && |SortedSales(s.txs, d)| > 0
    requires Correct(cfg, fin, After1(cfg, fin, s, d)) && AppliedBy(s.txs, d)(n)
    ensures n.date <= LastDate(s.txs, d) && Matched(Purchases(s.txs, LastDate(s.txs, d)), n)
  {
    var c, s' := LastDate(s.txs, d), After1(cfg, fin, s, d);
    AfterMade(cfg, fin, s, d);
    KeyedKeys(NumberOf, Notes(s.txs, d));
    NoteFromScratch(s, d, n);
    NoteAfterFirst(cfg, fin, s, d, n);
    InBookAfter(cfg, fin, s, d, n);
    CheckedIffApplied(cfg, fin, s', c, n, n.(checked := true));
    AppliedEarlier(s, c, d, n);
  }

  lemma {:induction false} AppliedEarlier(s: State, c: int, d: int, n: Tx)
    requires Inv(s) && AppliedBy(Scratch(s).txs, c)(n) && AppliedBy(s.txs, d)(n)
    ensures n.date <= c && Matched(Purchases(s.txs, c), n)
  {
    KeyedKeys(NumberOf, Notes(Scratch(s).txs, c));
    FilterSound(OpenNotes(c), Scratch(s).txs);
    var p0 := MatchedPurchase(Scratch(s).txs, c, n);
    var q := MatchedPurchase(s.txs, d, n);
    ScratchInv(s);
    assert WellFormed(p0) && WellFormed(q);
    var r := ScratchRoot(s, p0);
    SameCodeSame(s.txs, q, r);
    MatchedBy(s.txs, c, n, q);
  }

  /** With numbers of their own, the notes applied are those applied up to the last sale exactly when
      each of them is in time. */
  lemma {:induction false} InTimeIff(s: State, c: int, d: int)
    requires Inv(s) && OwnNumbers(s, d) && c <= d
    requires forall n :: AppliedBy(s.txs, d)(n) ==> n.date <= c && Matched(Purchases(s.txs, c), n)
    ensures AppliedNotes(s.txs, c) == AppliedNotes(s.txs, d)
  {
    var p, q := MatchedIn(Purchases(s.txs, c)), MatchedIn(Purchases(s.txs, d));
    var r := (n: Tx) => UpTo(c)(n) && p(n);
    OwnNumbersEarlier(s, c, d);
    AllKept(s, c);
    AllKept(s, d);
    FilterTwice(OpenNotes(d), UpTo(c), OpenNotes(c), s.txs);
    FilterTwice(UpTo(c), p, r, Notes(s.txs, d));
    forall n | n in Notes(s.txs, d) ensures q(n) == r(n) {
      if p(n) { MatchedLater(s.txs, c, d, n); }
      if q(n) { assert AppliedBy(s.txs, d)(n); }
    }
    FilterCong(q, r, Notes(s.txs, d));
  }

  // ----- Credit notes for purchases that were drawn on -----

  /** A purchase that was drawn on was collected by the run from scratch. */
  lemma {:induction false} DrawnFromScratch(cfg: Config, fin: seq<FinTx>, s: State, c: int, p: Tx)
    requires MadeFromScratch(cfg, fin, s, c) && DrawnOn(s.txs, p)
    ensures var p0 := Fresh(p);
            && p0 in Scratch(s).txs && p0 in Purchases(Scratch(s).txs, c) && PurchaseShape(p0) && Untouched(p0)
            && p0.id == p.id && Lookup(WorkOf(cfg, fin, Scratch(s), c).updates, p0) == p
  {
    var g, x := Scratch(s), After1(cfg, fin, Scratch(s), c);
    ScratchInv(s);
    FreshIn(s, p);
    ReplicaShared(x.txs, s.txs, p);
    var r := RootBefore(cfg, fin, g, c, p);
    SameIdSame(g.txs, r, Fresh(p));
    OriginUnmarked(s.txs);
    DrawnCollected(cfg, fin, g, c, r);
  }

  /** A note still open for such a purchase is dated after that run. */
  lemma {:induction false} OpenNoteLater(cfg: Config, fin: seq<FinTx>, s: State, c: int, d: int, n: Tx, p: Tx)
    requires MadeFromScratch(cfg, fin, s, c) && OwnNumbers(s, d) && c <= d && n in Notes(s.txs, d)
    requires DrawnOn(s.txs, p) && p.code == n.code
    ensures n.date > c
  {
    NoteFromScratch(s, d, n);
    if n.date <= c {
      DrawnFromScratch(cfg, fin, s, c, p);
      OwnNumbersEarlier(s, c, d);
      AllKept(s, c);
      KeptAndMatched(s, c, n, Fresh(p));
      CheckedIffApplied(cfg, fin, s, c, n, n);
    }
  }

  lemma {:induction false} KeptAndMatched(s: State, c: int, n: Tx, p0: Tx)
    requires NotesBy(Scratch(s).txs, c) == Notes(Scratch(s).txs, c) && n in Scratch(s).txs && OpenNotes(c)(n)
    requires p0 in Purchases(Scratch(s).txs, c) && p0.code == n.code
    ensures AppliedBy(Scratch(s).txs, c)(n)
  {
    FilterSound(OpenNotes(c), Scratch(s).txs);
    FilterSound(OpenPurchases(c), Scratch(s).txs);
    MatchedBy(Scratch(s).txs, c, n, p0);
  }

  lemma {:induction false} SumAtLeast(f: Tx -> real, xs: seq<Tx>, x: Tx)
    requires x in xs && forall y :: y in xs ==> f(y) >= 0.0
    ensures SumBy(f, xs) >= f(x)
  {
    var init, last := xs[..|xs| - 1], xs[|xs| - 1];
    assert xs == init + [last];
    if x in init { SumAtLeast(f, init, x); } else { SumNonNeg(f, init); }
  }

  /** The note makes the run from scratch take more of its purchase before the sales. */
  lemma {:induction false} MoreNoted(s: State, c: int, d: int, n: Tx)
    requires Inv(s) && OwnNumbers(s, d) && c <= d && n in Notes(Scratch(s).txs, d) && n.date > c && n.amount > 0.0
    ensures NoteQuantity(NotesBy(Scratch(s).txs, c), n.code) < NoteQuantity(NotesBy(Scratch(s).txs, d), n.code)
  {
    var ns := Notes(Scratch(s).txs, d);
    OwnNumbersEarlier(s, c, d);
    AllKept(s, c);
    AllKept(s, d);
    FilterTwice(OpenNotes(d), UpTo(c), OpenNotes(c), Scratch(s).txs);
    SumParts(NoteFor(n.code), UpTo(c), After(c), ns);
    FilterSound(After(c), ns);
    SumAtLeast(NoteFor(n.code), Filter(After(c), ns), n);
  }

  lemma {:induction false} OtherQuotient(cost: real, a: real, b: real)
    requires cost != 0.0 && 0.0 < a < b
    ensures cost / a != cost / b
  {
    var u, v := cost / a, cost / b;
    assert u * a == cost && v * b == cost && v != 0.0;
    assert v * (b - a) == v * b - v * a && v * (b - a) != 0.0;
  }

  /** The purchase is not used up: its part sold before the note has another unit cost than from
      scratch. */
  lemma {:induction false} PartSoldBefore(cfg: Config, fin: seq<FinTx>, s: State, s': State, c: int, d: int, p: Tx)
    requires Exact(cfg) && MadeFromScratch(cfg, fin, s, c) && c <= d
    requires Scratch(s').txs == Scratch(s).txs && SplitsIn(s.txs) <= SplitsIn(s'.txs)
    requires DrawnOn(s.txs, p) && !p.checked && UpdatedCost(fin, Fresh(p)) != 0.0
    requires NoteQuantity(NotesBy(Scratch(s).txs, c), p.code) < NoteQuantity(NotesBy(Scratch(s).txs, d), p.code)
    ensures !MadeFromScratch(cfg, fin, s', d)
  {
    if MadeFromScratch(cfg, fin, s', d) {
      var g, p0 := Scratch(s), Fresh(p);
      DrawnFromScratch(cfg, fin, s, c, p);
      ScratchSells(cfg, fin, s, c, p0);
      PartStays(After1(cfg, fin, g, c).txs, After1(cfg, fin, Scratch(s'), d).txs, p0.id, NotedUnit(fin, g.txs, c, p0));
      LaterCollected(g.txs, c, d, p0);
      ScratchSellsAt(cfg, fin, s', d, p0, NotedUnit(fin, g.txs, c, p0));
      UnitsApart(fin, g.txs, c, d, p0);
    }
  }

  lemma {:induction false} UnitsApart(fin: seq<FinTx>, txs: seq<Tx>, c: int, d: int, p: Tx)
    requires Sound(txs) && Opening(txs, c).Ok? && Opening(txs, d).Ok? && p in Purchases(txs, c)
             && p in Purchases(txs, d)
    requires NoteQuantity(NotesBy(txs, c), p.code) < NoteQuantity(NotesBy(txs, d), p.code) && UpdatedCost(fin, p) != 0.0
    ensures NotedUnit(fin, txs, c, p) != NotedUnit(fin, txs, d, p)
  {
    UnitAt(fin, txs, c, p);
    UnitAt(fin, txs, d, p);
    OtherQuotient(UpdatedCost(fin, p), p.amount - NoteQuantity(NotesBy(txs, d), p.code),
                  p.amount - NoteQuantity(NotesBy(txs, c), p.code));
  }

  lemma {:induction false} PartStays(a: seq<Tx>, b: seq<Tx>, id: nat, unit: real)
    requires SplitsIn(a) <= SplitsIn(b) && SoldIn(a, id, unit)
    ensures SoldIn(b, id, unit)
  {
    var z :| z in SplitsIn(a) && z.parent == Some(id) && z.liquidation.Some? && z.liquidation.value.unitCost == unit;
    assert z in SplitsIn(b);
  }

  lemma {:induction false} LaterCollected(txs: seq<Tx>, c: int, d: int, p: Tx)
    requires c <= d && p in Purchases(txs, c)
    ensures p in Purchases(txs, d)
  {
    FilterSound(OpenPurchases(c), txs);
    FilterSound(OpenPurchases(d), txs);
  }

  /** The purchase is used up: the calculation leaves the note open. */
  lemma {:induction false} StaysOpen(cfg: Config, fin: seq<FinTx>, s: State, d: int, c: int, n: Tx, p: Tx)
    requires Inv(s) && Passes(cfg, fin, s, d) && n in Notes(s.txs, c)
    requires DrawnOn(s.txs, p) && p.checked && p.code == n.code
    ensures n in After1(cfg, fin, s, d).txs && IsReplica(n) && !n.checked
  {
    NoteFromScratch(s, c, n);
    if Matched(Purchases(s.txs, d), n) {
      var q := MatchedPurchase(s.txs, d, n);
      assert WellFormed(q);
      SameCodeSame(s.txs, p, q);
    }
    NoteAfterFirst(cfg, fin, s, d, n);
    InBookAfter(cfg, fin, s, d, n);
  }

  /** A run from scratch applies it. */
  lemma {:induction false} AppliedFromScratch(cfg: Config, fin: seq<FinTx>, s: State, c: int, c': int, n: Tx, p: Tx)
    requires MadeFromScratch(cfg, fin, s, c) && c <= c' && OwnNumbers(s, c')
    requires n in Notes(s.txs, c') && DrawnOn(s.txs, p) && p.code == n.code
    ensures n in Scratch(s).txs && IsCreditNote(n) && !n.checked && AppliedBy(Scratch(s).txs, c')(n)
  {
    NoteFromScratch(s, c', n);
    DrawnFromScratch(cfg, fin, s, c, p);
    LaterCollected(Scratch(s).txs, c, c', Fresh(p));
    AllKept(s, c');
    KeptAndMatched(s, c', n, Fresh(p));
  }

  lemma {:induction false} UsedUpBefore(cfg: Config, fin: seq<FinTx>, s: State, d: int, c: int, c': int, n: Tx, p: Tx)
    requires MadeFromScratch(cfg, fin, s, c) && Passes(cfg, fin, s, d) && c <= c' && OwnNumbers(s, c')
    requires Scratch(After1(cfg, fin, s, d)).txs == Scratch(s).txs
    requires n in Notes(s.txs, c') && DrawnOn(s.txs, p) && p.checked && p.code == n.code
    ensures !MadeFromScratch(cfg, fin, After1(cfg, fin, s, d), c')
  {
    StaysOpen(cfg, fin, s, d, c', n, p);
    AppliedFromScratch(cfg, fin, s, c, c', n, p);
    if MadeFromScratch(cfg, fin, After1(cfg, fin, s, d), c') {
      CheckedIffApplied(cfg, fin, After1(cfg, fin, s, d), c', n, n);
    }
  }

  /** With exact arithmetic, no calculation that leaves a correct account keeps a credit note for a
      purchase that was drawn on, unless that purchase cost nothing. */
  lemma {:induction false} NoteForDrawn(cfg: Config, fin: seq<FinTx>, s: State, d: int, n: Tx, p: Tx)
    requires Inv(s) && Correct(cfg, fin, s) && Passes(cfg, fin, s, d) && |SortedSales(s.txs, d)| > 0 && Exact(cfg)
    requires OwnNumbers(s, LastDate(s.txs, d)) && n in NotesBy(s.txs, LastDate(s.txs, d))
    requires DrawnOn(s.txs, p) && p.code == n.code && UpdatedCost(fin, Fresh(p)) != 0.0
    ensures !Correct(cfg, fin, After1(cfg, fin, s, d))
  {
    var s', c' := After1(cfg, fin, s, d), LastDate(s.txs, d);
    if Correct(cfg, fin, s') {
      var c := DrawnSince(cfg, fin, s, d, p);
      CorrectMade(cfg, fin, s, c);
      AfterMade(cfg, fin, s, d);
      KeyedKeys(NumberOf, Notes(s.txs, c'));
      NoteFromScratch(s, c', n);
      OpenNoteLater(cfg, fin, s, c, c', n, p);
      if p.checked {
        UsedUpBefore(cfg, fin, s, d, c, c', n, p);
      } else {
        MoreNoted(s, c, c', n);
        CommitSplits(cfg, fin, s, d);
        PartSoldBefore(cfg, fin, s, s', c, c', p);
      }
    }
  }

  lemma {:induction false} DrawnSince(cfg: Config, fin: seq<FinTx>, s: State, d: int, p: Tx) returns (c: int)
    requires Inv(s) && Correct(cfg, fin, s) && Passes(cfg, fin, s, d) && |SortedSales(s.txs, d)| > 0
             && DrawnOn(s.txs, p)
    ensures s.calcDate.Value() == Some(c) && c < LastDate(s.txs, d)
  {
    var x := CorrectReference(cfg, fin, s);
    ReplicaShared(x.txs, s.txs, p);
    DrawnIsDated(cfg, fin, s, x, p);
    OpenSalesLater(cfg, fin, s, x, d);
    c := s.calcDate.Value().value;
  }

  // ----- Exactly when a calculation keeps an account correct -----

  /** No purchase that was drawn on cost nothing. */
  ghost predicate DrawnCost(fin: seq<FinTx>, s: State) {
    forall p :: DrawnOn(s.txs, p) ==> UpdatedCost(fin, Fresh(p)) != 0.0
  }

  /** When a calculation keeps an account correct, with exact arithmetic: exactly when the sales it
      settles are covered by purchases dated no later than the last of them, the credit notes it
      applies are in time, and none that it keeps is for a purchase that was drawn on. */
  lemma {:induction false} CorrectIff(cfg: Config, fin: seq<FinTx>, s: State, d: int)
    requires Inv(s) && Correct(cfg, fin, s) && cfg.halfUnit > 0.0 && Calculate(cfg, fin, s, d).0.Calculated?
    requires Exact(cfg) && OwnNumbers(s, d) && DrawnCost(fin, s)
    ensures |SortedSales(s.txs, d)| > 0
    ensures Correct(cfg, fin, Calculate(cfg, fin, s, d).1)
       <==> Timely(s.txs, d) && NotesInTime(s.txs, d) && ForUntouched(s.txs, NotesBy(s.txs, LastDate(s.txs, d)))
  {
    OnePasses(cfg, fin, s, d);
    SumAmounts(Sales(s.txs, d));
    SalesNonZero(s.txs, d);
    SalesUpToLast(s.txs, d);
    OwnNumbersEarlier(s, LastDate(s.txs, d), d);
    if Correct(cfg, fin, Calculate(cfg, fin, s, d).1) { OnlyIf(cfg, fin, s, d); }
    if Timely(s.txs, d) && NotesInTime(s.txs, d) && ForUntouched(s.txs, NotesBy(s.txs, LastDate(s.txs, d))) {
      OwnNotesSpared(cfg, fin, s, d);
      TimelyCorrect(cfg, fin, s, d);
    }
  }

  lemma {:induction false} OwnNotesSpared(cfg: Config, fin: seq<FinTx>, s: State, d: int)
    requires Inv(s) && Correct(cfg, fin, s) && Passes(cfg, fin, s, d) && |SortedSales(s.txs, d)| > 0
    requires OwnNumbers(s, LastDate(s.txs, d)) && ForUntouched(s.txs, NotesBy(s.txs, LastDate(s.txs, d)))
    ensures NotesSpared(s, d)
  {
    var x := CorrectReference(cfg, fin, s);
    OpenSalesLater(cfg, fin, s, x, d);
    if s.calcDate.Value().Some? {
      DistinctKept(Scratch(s).txs, s.calcDate.Value().value, LastDate(s.txs, d));
    }
  }

  lemma {:induction false} OnlyIf(cfg: Config, fin: seq<FinTx>, s: State, d: int)
    requires Inv(s) && Correct(cfg, fin, s) && Passes(cfg, fin, s, d) && |SortedSales(s.txs, d)| > 0 && Exact(cfg)
    requires OwnNumbers(s, d) && OwnNumbers(s, LastDate(s.txs, d)) && LastDate(s.txs, d) <= d && DrawnCost(fin, s)
    requires Correct(cfg, fin, After1(cfg, fin, s, d))
    ensures Timely(s.txs, d) && NotesInTime(s.txs, d) && ForUntouched(s.txs, NotesBy(s.txs, LastDate(s.txs, d)))
  {
    var c := LastDate(s.txs, d);
    if !Timely(s.txs, d) { UntimelyFails(cfg, fin, s, d); }
    forall n | AppliedBy(s.txs, d)(n) ensures n.date <= c && Matched(Purchases(s.txs, c), n) {
      AppliedInTime(cfg, fin, s, d, n);
    }
    InTimeIff(s, c, d);
    forall n, p | n in NotesBy(s.txs, c) && p in s.txs && PurchaseShape(p) && p.code == n.code ensures Untouched(p) {
      if !Untouched(p) {
        assert DrawnOn(s.txs, p);
        NoteForDrawn(cfg, fin, s, d, n, p);
      }
    }
  }
}
