/** What a successful calculation does to the whole book. */
module Commitment {
  import opened Lists
  import opened Ledger
  import opened FifoOrder
  import opened Allocation
  import opened Settlement
  import opened Staging
  import opened Calculation
  import opened Books
  import opened Collected

  // ----- Every transaction keeps its shape and its origin -----

  /** `b` is what a calculation may make of `a`: well formed, with the same origin, and still
      marked if it was reached before. */
  ghost predicate Evolves(a: Tx, b: Tx) {
    WellFormed(a) ==>
      WellFormed(b) && Fresh(a) == Fresh(b) && (a.checked ==> a == b) && (a.addCosts.Some? ==> b.addCosts.Some?)
  }

  lemma {:induction false} EvolvesShape(a: Tx, b: Tx)
    requires WellFormed(a) && Evolves(a, b)
    ensures PurchaseShape(a) == PurchaseShape(b) && SaleShape(a) == SaleShape(b) && NoteShape(a) == NoteShape(b)
    ensures a.id == b.id && a.code == b.code && a.parent == b.parent && a.remote == b.remote && a.flow == b.flow
            && SameKey(a, b)
  {
    assert Fresh(a).id == a.id && Fresh(b).id == b.id;
  }

  lemma {:induction false} MoveEvolves(cfg: Config, fin: seq<FinTx>, sale: Tx, need: Quantity, lot: Tx)
    requires WellFormed(lot) && PurchaseShape(lot) && !lot.checked
    ensures Evolves(lot, MoveOn(cfg, fin, sale, need, lot).after)
  {
    var a := MoveOn(cfg, fin, sale, need, lot).after;
    assert PurchaseShape(a);
    assert Fresh(a) == Fresh(lot);
  }

  ghost predicate AllEvolve(xs: seq<Tx>, ys: seq<Tx>) {
    |xs| == |ys| && forall i :: 0 <= i < |xs| ==> Evolves(xs[i], ys[i])
  }

  /** Replicated purchases. */
  ghost predicate PurchaseLots(lots: seq<Tx>) {
    forall i :: 0 <= i < |lots| ==> WellFormed(lots[i]) && PurchaseShape(lots[i])
  }

  lemma {:induction false} AllEvolveShape(xs: seq<Tx>, ys: seq<Tx>)
    requires PurchaseLots(xs) && AllEvolve(xs, ys)
    ensures PurchaseLots(ys) && SameIds(xs, ys)
  {
    forall i | 0 <= i < |xs| ensures WellFormed(ys[i]) && PurchaseShape(ys[i]) && xs[i].id == ys[i].id {
      EvolvesShape(xs[i], ys[i]);
    }
  }

  lemma {:induction false} DrawEvolves(cfg: Config, fin: seq<FinTx>, sale: Tx, lots: seq<Tx>)
    requires PurchaseLots(lots)
    ensures AllEvolve(lots, DrawFor(RunMovers(cfg, fin), sale, lots).lots)
  {
    var mover := SaleMover(cfg, fin, sale);
    forall n: Quantity, lot: Tx | !lot.checked && lot in lots ensures Evolves(lot, mover(n, lot).after) {
      MoveEvolves(cfg, fin, sale, n, lot);
    }
    TakeRelates(mover, sale.amount, lots, (a, b) => Evolves(a, b));
  }

  lemma {:induction false} AllEvolveTrans(xs: seq<Tx>, ys: seq<Tx>, zs: seq<Tx>)
    requires AllEvolve(xs, ys) && AllEvolve(ys, zs)
    ensures AllEvolve(xs, zs)
  {
    forall i | 0 <= i < |xs| ensures Evolves(xs[i], zs[i]) {
      assert Evolves(xs[i], ys[i]) && Evolves(ys[i], zs[i]);
    }
  }

  lemma {:induction false} RunEvolves(cfg: Config, fin: seq<FinTx>, sales: seq<Tx>, lots: seq<Tx>)
    requires PurchaseLots(lots)
    ensures AllEvolve(lots, LotsAfter(RunMovers(cfg, fin), sales, lots))
    decreases |sales|
  {
    if |sales| > 0 {
      var init, sale := sales[..|sales| - 1], sales[|sales| - 1];
      RunEvolves(cfg, fin, init, lots);
      var mid := LotsAfter(RunMovers(cfg, fin), init, lots);
      AllEvolveShape(lots, mid);
      DrawEvolves(cfg, fin, sale, mid);
      AllEvolveTrans(lots, mid, LotsAfter(RunMovers(cfg, fin), sales, lots));
    }
  }

  lemma {:induction false} ReducedEvolves(xs: seq<Tx>, ys: seq<Tx>)
    requires PurchaseLots(xs) && Reduced(xs, ys) && forall i :: 0 <= i < |xs| ==> !xs[i].checked
    ensures AllEvolve(xs, ys)
  {
    forall i | 0 <= i < |xs| ensures Evolves(xs[i], ys[i]) {
      assert PurchaseShape(ys[i]);
      assert Fresh(ys[i]) == Fresh(xs[i]);
    }
  }

  // ----- The staged updates of a run -----

  /** The purchases in FIFO order, as collected. */
  function Lots(txs: seq<Tx>, d: int): seq<Tx> { Sort(Purchases(txs, d)) }

  lemma {:induction false} MembersShapes(txs: seq<Tx>, d: int)
    requires Sound(txs)
    ensures PurchaseLots(Purchases(txs, d)) && OpenRoots(Purchases(txs, d)) && Positive(Purchases(txs, d))
    ensures Distinct(IdOf, Purchases(txs, d))
    ensures PurchaseLots(Lots(txs, d)) && OpenRoots(Lots(txs, d)) && Distinct(IdOf, Lots(txs, d))
            && AllStamped(Lots(txs, d))
    ensures Distinct(IdOf, SortedSales(txs, d))
  {
    var ps := Purchases(txs, d);
    CollectedShapes(txs, d);
    CollectedReady(txs, d);
    SortContents(ps);
    SortDistinct(ps);
    SortDistinct(Sales(txs, d));
    assert forall i :: 0 <= i < |ps| ==> ps[i] in ps;
    var ls := Lots(txs, d);
    assert forall i :: 0 <= i < |ls| ==> ls[i] in ls;
  }

  /** Transactions of different kinds have different ids. */
  lemma {:induction false} KindsApart(txs: seq<Tx>, d: int)
    requires Sound(txs)
    ensures forall k :: 0 <= k < |NotesBy(txs, d)| ==>
              !Among(NotesBy(txs, d)[k].id, Purchases(txs, d)) && NotesBy(txs, d)[k] in Notes(txs, d)
    ensures forall k :: 0 <= k < |SortedSales(txs, d)| ==>
              !Among(SortedSales(txs, d)[k].id, Lots(txs, d)) && SortedSales(txs, d)[k] in Sales(txs, d)
  {
    CollectedShapes(txs, d);
    KeyedKeys(NumberOf, Notes(txs, d));
    var ns, ss := NotesBy(txs, d), SortedSales(txs, d);
    SortContents(Purchases(txs, d));
    SortContents(Sales(txs, d));
    forall k | 0 <= k < |ns| ensures !Among(ns[k].id, Purchases(txs, d)) && ns[k] in Notes(txs, d) {
      assert ns[k] in ns;
      NotAmong(txs, Purchases(txs, d), ns[k]);
    }
    forall k | 0 <= k < |ss| ensures !Among(ss[k].id, Lots(txs, d)) && ss[k] in Sales(txs, d) {
      assert ss[k] in ss;
      NotAmong(txs, Lots(txs, d), ss[k]);
    }
  }

  lemma {:induction false} ApplyNothing(xs: seq<Tx>)
    ensures Apply(map[], xs) == xs
  {}

  /** After the credit notes: the lots in order, each with its updates staged. */
  lemma {:induction false} OpeningStages(txs: seq<Tx>, d: int)
    requires Sound(txs) && Opening(txs, d).Ok?
    ensures var v := Opening(txs, d).work;
            && Apply(v.updates, Lots(txs, d)) == v.lots
            && AllEvolve(Lots(txs, d), v.lots) && PurchaseLots(v.lots) && SameIds(Lots(txs, d), v.lots)
            && v.done == [] && v.cogs == []
  {
    LotsAreThePurchases(txs, d);
    MembersShapes(txs, d);
    KindsApart(txs, d);
    var ps := Purchases(txs, d);
    var u := ApplyNotes(NotesBy(txs, d), Start(ps)).work;
    ApplyNothing(ps);
    NotesFrame(NotesBy(txs, d), Start(ps));
    NotesStage(NotesBy(txs, d), Start(ps), ps);
    ReducedEvolves(ps, u.lots);
    EvolvedLots(ps, u.updates, u.lots);
  }

  /** Sorting lots together with their updates. */
  lemma {:induction false} EvolvedLots(ps: seq<Tx>, u: map<nat, Tx>, lots: seq<Tx>)
    requires PurchaseLots(ps) && AllEvolve(ps, lots) && Apply(u, ps) == lots
    ensures Apply(u, Sort(ps)) == Sort(lots) && AllEvolve(Sort(ps), Sort(lots))
    ensures PurchaseLots(Sort(ps)) && PurchaseLots(Sort(lots)) && SameIds(Sort(ps), Sort(lots))
  {
    forall t | t in ps
      ensures WellFormed(t) && PurchaseShape(t) && SameKey(t, Lookup(u, t)) && Evolves(t, Lookup(u, t))
    {
      var i :| 0 <= i < |ps| && ps[i] == t;
      assert Apply(u, ps)[i] == lots[i];
      EvolvesShape(ps[i], lots[i]);
    }
    SortApply(u, ps);
    SortContents(ps);
    forall i | 0 <= i < |Sort(ps)|
      ensures Evolves(Sort(ps)[i], Sort(lots)[i]) && WellFormed(Sort(ps)[i]) && PurchaseShape(Sort(ps)[i])
    {
      assert Sort(ps)[i] in Sort(ps);
      assert Apply(u, Sort(ps))[i] == Lookup(u, Sort(ps)[i]);
    }
    AllEvolveShape(Sort(ps), Sort(lots));
  }

  /** On success every collected lot of the book is updated to its working copy. */
  lemma {:induction false} SettleLots(cfg: Config, fin: seq<FinTx>, txs: seq<Tx>, d: int)
    requires Sound(txs) && Settle(cfg, fin, txs, d).Ok?
    ensures var w := Settle(cfg, fin, txs, d).work;
            Apply(w.updates, Lots(txs, d)) == w.lots && AllEvolve(Lots(txs, d), w.lots)
  {
    var v := Opening(txs, d).work;
    var movers, sales := RunMovers(cfg, fin), SortedSales(txs, d);
    OpeningStages(txs, d);
    MembersShapes(txs, d);
    KindsApart(txs, d);
    RunMoversLawful(cfg, fin);
    RunStages(movers, cfg.halfUnit, sales, v, Lots(txs, d));
    ProcessLots(movers, cfg.halfUnit, sales, v);
    RunEvolves(cfg, fin, sales, v.lots);
    AllEvolveTrans(Lots(txs, d), v.lots, Settle(cfg, fin, txs, d).work.lots);
  }

  lemma {:induction false} SalesUnstaged(txs: seq<Tx>, d: int)
    requires Sound(txs) && Opening(txs, d).Ok?
    ensures forall k :: 0 <= k < |SortedSales(txs, d)| ==>
              !Among(SortedSales(txs, d)[k].id, Opening(txs, d).work.lots)
                && SortedSales(txs, d)[k].id !in Opening(txs, d).work.updates
  {
    var v, sales := Opening(txs, d).work, SortedSales(txs, d);
    OpeningStages(txs, d);
    KindsApart(txs, d);
    CollectedShapes(txs, d);
    forall k | 0 <= k < |sales| ensures !Among(sales[k].id, v.lots) && sales[k].id !in v.updates {
      AmongSame(sales[k].id, Lots(txs, d), v.lots);
      assert sales[k] in Sales(txs, d);
      OpeningOther(txs, d, sales[k]);
    }
  }

  /** On success every collected sale of the book is updated to its working copy. */
  lemma {:induction false} SettleSales(cfg: Config, fin: seq<FinTx>, txs: seq<Tx>, d: int)
    requires Sound(txs) && Settle(cfg, fin, txs, d).Ok?
    ensures var w := Settle(cfg, fin, txs, d).work;
            Apply(w.updates, SortedSales(txs, d)) == w.done && AllEvolve(SortedSales(txs, d), w.done)
  {
    OpeningStages(txs, d);
    MembersShapes(txs, d);
    KindsApart(txs, d);
    CollectedShapes(txs, d);
    RunMoversLawful(cfg, fin);
    SalesUnstaged(txs, d);
    RunStagesSales(RunMovers(cfg, fin), cfg.halfUnit, SortedSales(txs, d), Opening(txs, d).work);
    RunSalesEvolve(RunMovers(cfg, fin), cfg.halfUnit, SortedSales(txs, d), Opening(txs, d).work);
  }

  lemma {:induction false} AmongSame(id: nat, xs: seq<Tx>, ys: seq<Tx>)
    requires SameIds(xs, ys)
    ensures Among(id, xs) == Among(id, ys)
  {
    if Among(id, xs) {
      var i :| 0 <= i < |xs| && xs[i].id == id;
      assert ys[i].id == id;
    }
  }

  /** The credit notes leave alone what is neither a lot nor a note. */
  lemma {:induction false} OpeningOther(txs: seq<Tx>, d: int, t: Tx)
    requires Sound(txs) && Opening(txs, d).Ok? && t in txs && t !in Purchases(txs, d)
    ensures var v := Opening(txs, d).work;
            && (t !in Notes(txs, d) ==> t.id !in v.updates)
            && (t.id in v.updates ==> v.updates[t.id] == t.(checked := true))
  {
    LotsAreThePurchases(txs, d);
    MembersShapes(txs, d);
    CollectedShapes(txs, d);
    KeyedKeys(NumberOf, Notes(txs, d));
    NotAmong(txs, Purchases(txs, d), t);
    var ns := NotesBy(txs, d);
    forall k | 0 <= k < |ns| && ns[k].id == t.id ensures ns[k] == t {
      assert ns[k] in ns;
      SameIdSame(txs, ns[k], t);
    }
    NotesStageOther(ns, Start(Purchases(txs, d)), t);
  }

  /** The run leaves alone what it did not collect, and at most checks a credit note. */
  lemma {:induction false} SettleOther(cfg: Config, fin: seq<FinTx>, txs: seq<Tx>, d: int, t: Tx)
    requires Sound(txs) && Settle(cfg, fin, txs, d).Ok? && t in txs && t !in Purchases(txs, d) && t !in Sales(txs, d)
    ensures var w := Settle(cfg, fin, txs, d).work;
            && (t !in Notes(txs, d) ==> t.id !in w.updates)
            && (t.id in w.updates ==> w.updates[t.id] == t.(checked := true))
  {
    var v := Opening(txs, d).work;
    OpeningOther(txs, d, t);
    OpeningStages(txs, d);
    KindsApart(txs, d);
    CollectedShapes(txs, d);
    SortContents(Purchases(txs, d));
    NotAmong(txs, Lots(txs, d), t);
    AmongSame(t.id, Lots(txs, d), v.lots);
    RunMoversLawful(cfg, fin);
    var sales := SortedSales(txs, d);
    forall k | 0 <= k < |sales| ensures sales[k].id != t.id {
      if sales[k].id == t.id { SameIdSame(txs, sales[k], t); }
    }
    RunStagesOther(RunMovers(cfg, fin), cfg.halfUnit, sales, v, t);
  }

  lemma {:induction false} SettledEvolves(halfUnit: real, sale: Tx, d: Draw)
    requires SaleShape(sale) && !sale.checked
    ensures Evolves(sale, Settled(halfUnit, sale, d))
  {
    var b := Settled(halfUnit, sale, d);
    assert SaleShape(b);
    assert Fresh(b) == Fresh(sale);
  }

  lemma {:induction false} EvolveSnoc(xs: seq<Tx>, ys: seq<Tx>, x: Tx, y: Tx)
    requires AllEvolve(xs, ys) && Evolves(x, y)
    ensures AllEvolve(xs + [x], ys + [y])
  {}

  lemma {:induction false} RunSalesEvolve(movers: Movers, halfUnit: real, sales: seq<Tx>, w: Work)
    requires w.done == [] && forall k :: 0 <= k < |sales| ==> SaleShape(sales[k]) && !sales[k].checked
    ensures AllEvolve(sales, ProcessSales(movers, halfUnit, sales, w).done)
    decreases |sales|
  {
    if |sales| > 0 {
      var init, sale := sales[..|sales| - 1], sales[|sales| - 1];
      var v := ProcessSales(movers, halfUnit, init, w);
      var done := Settled(halfUnit, sale, DrawFor(movers, sale, v.lots));
      RunSalesEvolve(movers, halfUnit, init, w);
      SettledEvolves(halfUnit, sale, DrawFor(movers, sale, v.lots));
      EvolveSnoc(init, v.done, sale, done);
      assert sales == init + [sale];
    }
  }

  lemma {:induction false} NoteEvolves(t: Tx)
    requires NoteShape(t) && !t.checked
    ensures Evolves(t, t.(checked := true))
  {
    assert Fresh(t.(checked := true)) == Fresh(t);
    assert NoteShape(t.(checked := true));
  }

  lemma {:induction false} AppliedEvolves(u: map<nat, Tx>, xs: seq<Tx>, ys: seq<Tx>, t: Tx)
    requires Apply(u, xs) == ys && AllEvolve(xs, ys) && t in xs
    ensures Evolves(t, Lookup(u, t))
  {
    var i :| 0 <= i < |xs| && xs[i] == t;
    assert Apply(u, xs)[i] == ys[i];
  }

  /** Every transaction of the book evolves. */
  lemma {:induction false} SettleEvolves(cfg: Config, fin: seq<FinTx>, txs: seq<Tx>, d: int, t: Tx)
    requires Sound(txs) && Settle(cfg, fin, txs, d).Ok? && t in txs
    ensures Evolves(t, Lookup(Settle(cfg, fin, txs, d).work.updates, t))
  {
    var w := Settle(cfg, fin, txs, d).work;
    CollectedShapes(txs, d);
    if t in Purchases(txs, d) {
      SettleLots(cfg, fin, txs, d);
      SortContents(Purchases(txs, d));
      AppliedEvolves(w.updates, Lots(txs, d), w.lots, t);
    } else if t in Sales(txs, d) {
      SettleSales(cfg, fin, txs, d);
      SortContents(Sales(txs, d));
      AppliedEvolves(w.updates, SortedSales(txs, d), w.done, t);
    } else {
      SettleOther(cfg, fin, txs, d, t);
      if t in Notes(txs, d) { NoteEvolves(t); }
    }
  }

  // ----- The splits a run creates -----

  ghost predicate AllSplits(xs: seq<Tx>) { forall i :: 0 <= i < |xs| ==> WellFormed(xs[i]) && SplitShape(xs[i]) }

  lemma {:induction false} PiecesAreSplits(cfg: Config, fin: seq<FinTx>, sale: Tx, lots: seq<Tx>)
    requires PurchaseLots(lots)
    ensures AllSplits(Pieces(DrawFor(RunMovers(cfg, fin), sale, lots).moves))
  {
    var mover := SaleMover(cfg, fin, sale);
    var p := (m: Move) => m.piece.Some? ==> WellFormed(m.piece.value) && SplitShape(m.piece.value);
    SaleMoverLawful(cfg, fin, sale);
    forall n: Quantity, lot: Tx | !lot.checked && lot in lots ensures p(mover(n, lot)) {
      var m := MoveOn(cfg, fin, sale, n, lot);
      assert m.piece.Some? ==> SplitShape(m.piece.value);
    }
    TakeMoves(mover, sale.amount, lots, p);
    PiecesAll(Take(mover, sale.amount, lots).moves);
  }

  lemma {:induction false} PiecesAll(moves: seq<Move>)
    requires forall m :: m in moves ==> (m.piece.Some? ==> WellFormed(m.piece.value) && SplitShape(m.piece.value))
    ensures AllSplits(Pieces(moves))
  {
    if |moves| > 0 {
      assert moves[|moves| - 1] in moves;
      PiecesAll(moves[..|moves| - 1]);
    }
  }

  lemma {:induction false} RunCreates(cfg: Config, fin: seq<FinTx>, sales: seq<Tx>, w: Work)
    requires PurchaseLots(w.lots) && AllSplits(w.created)
    ensures AllSplits(ProcessSales(RunMovers(cfg, fin), cfg.halfUnit, sales, w).created)
    decreases |sales|
  {
    if |sales| > 0 {
      var init, sale := sales[..|sales| - 1], sales[|sales| - 1];
      RunCreates(cfg, fin, init, w);
      ProcessLots(RunMovers(cfg, fin), cfg.halfUnit, init, w);
      RunEvolves(cfg, fin, init, w.lots);
      AllEvolveShape(w.lots, LotsAfter(RunMovers(cfg, fin), init, w.lots));
      PiecesAreSplits(cfg, fin, sale, LotsAfter(RunMovers(cfg, fin), init, w.lots));
    }
  }

  lemma {:induction false} NotesCreate(notes: seq<Tx>, w: Work)
    requires PurchaseLots(w.lots) && Positive(w.lots) && OpenRoots(w.lots) && AllSplits(w.created)
             && ApplyNotes(notes, w).Ok?
    requires forall k :: 0 <= k < |notes| ==> NoteShape(notes[k])
    ensures AllSplits(ApplyNotes(notes, w).work.created)
    decreases |notes|
  {
    if |notes| > 0 {
      var init, note := notes[..|notes| - 1], notes[|notes| - 1];
      NotesCreate(init, w);
      NotesFrame(init, w);
      var v := ApplyNotes(init, w).work;
      var i := IndexOf(v.lots, note.code);
      if i < |v.lots| {
        assert PurchaseShape(w.lots[i]) && v.lots[i].flow == w.lots[i].flow;
        assert SplitShape(NoteSplit(v.lots[i], note));
      }
    }
  }

  lemma {:induction false} SettleCreates(cfg: Config, fin: seq<FinTx>, txs: seq<Tx>, d: int)
    requires Sound(txs) && Settle(cfg, fin, txs, d).Ok?
    ensures AllSplits(Settle(cfg, fin, txs, d).work.created)
  {
    LotsAreThePurchases(txs, d);
    MembersShapes(txs, d);
    KindsApart(txs, d);
    CollectedShapes(txs, d);
    NotesCreate(NotesBy(txs, d), Start(Purchases(txs, d)));
    OpeningStages(txs, d);
    RunCreates(cfg, fin, SortedSales(txs, d), Opening(txs, d).work);
  }

  lemma {:induction false} UuidsKeep(xs: seq<Tx>, uuid: nat)
    ensures |WithUuids(xs, uuid)| == |xs|
    ensures forall i :: 0 <= i < |xs| ==> var y := WithUuids(xs, uuid)[i];
              y == xs[i].(remote := y.remote) && (xs[i].remote.Pending? ==> y.remote.Uuid?)
                && (!xs[i].remote.Pending? ==> y == xs[i])
  {
    if |xs| > 0 {
      UuidsKeep(xs[..|xs| - 1], uuid);
    }
  }

  /** The split that was posted as `t`. */
  lemma {:induction false} PostedFrom(created: seq<Tx>, s: State, t: Tx) returns (y: Tx)
    requires t in Posted(created, s)
    ensures y in created && t == y.(id := t.id, remote := t.remote)
    ensures if y.remote.Pending? then t.remote.Uuid? else t.remote == y.remote
  {
    var posted := Posted(created, s);
    UuidsKeep(created, s.nextUuid);
    var i :| 0 <= i < |posted| && posted[i] == t;
    y := created[i];
  }

  /** The transaction that was updated to `t`. */
  lemma {:induction false} UpdatedFrom(u: map<nat, Tx>, xs: seq<Tx>, t: Tx) returns (x: Tx)
    requires t in Apply(u, xs)
    ensures x in xs && t == Lookup(u, x)
  {
    var i :| 0 <= i < |xs| && Apply(u, xs)[i] == t;
    x := xs[i];
  }

  lemma {:induction false} PostedSplits(created: seq<Tx>, s: State)
    requires AllSplits(created)
    ensures AllSplits(Posted(created, s)) && |Posted(created, s)| == |created|
    ensures forall i :: 0 <= i < |created| ==> Posted(created, s)[i].id == s.nextId + i
  {
    UuidsKeep(created, s.nextUuid);
    forall i | 0 <= i < |created| ensures SplitShape(Posted(created, s)[i]) {
      assert SplitShape(created[i]);
    }
  }

  // ----- The committed book -----

  lemma {:induction false} NotAmongPart(txs: seq<Tx>, xs: seq<Tx>, id: nat)
    requires !Among(id, txs) && forall x :: x in xs ==> x in txs
    ensures !Among(id, xs)
  {
    forall i | 0 <= i < |xs| ensures xs[i].id != id {
      assert xs[i] in xs;
      var j :| 0 <= j < |txs| && txs[j] == xs[i];
    }
  }

  lemma {:induction false} OpeningForeign(txs: seq<Tx>, d: int, t: Tx)
    requires Sound(txs) && Opening(txs, d).Ok? && !Among(t.id, txs)
    ensures t.id !in Opening(txs, d).work.updates && !Among(t.id, Opening(txs, d).work.lots)
  {
    LotsAreThePurchases(txs, d);
    MembersShapes(txs, d);
    CollectedShapes(txs, d);
    KeyedKeys(NumberOf, Notes(txs, d));
    var ps, ns, ls := Purchases(txs, d), NotesBy(txs, d), Lots(txs, d);
    SortContents(ps);
    NotAmongPart(txs, ps, t.id);
    NotAmongPart(txs, ns, t.id);
    NotAmongPart(txs, ls, t.id);
    assert t !in ns;
    NotesStageOther(ns, Start(ps), t);
    OpeningStages(txs, d);
    AmongSame(t.id, ls, Opening(txs, d).work.lots);
  }

  /** A run stages nothing that is not in the book. */
  lemma {:induction false} SettleForeign(cfg: Config, fin: seq<FinTx>, txs: seq<Tx>, d: int, t: Tx)
    requires Sound(txs) && Settle(cfg, fin, txs, d).Ok? && !Among(t.id, txs)
    ensures t.id !in Settle(cfg, fin, txs, d).work.updates
  {
    var sales := SortedSales(txs, d);
    OpeningForeign(txs, d, t);
    SortContents(Sales(txs, d));
    CollectedShapes(txs, d);
    NotAmongPart(txs, sales, t.id);
    RunMoversLawful(cfg, fin);
    RunStagesOther(RunMovers(cfg, fin), cfg.halfUnit, sales, Opening(txs, d).work, t);
  }

  /** The committed book: every transaction updated, then the splits. */
  lemma {:induction false} CommitBook(cfg: Config, fin: seq<FinTx>, s: State, d: int)
    requires Valid(s) && CodesApart(s.txs) && Settle(cfg, fin, s.txs, d).Ok?
    ensures var w := Settle(cfg, fin, s.txs, d).work;
            && Commit(s, w, SortedSales(s.txs, d)).txs == Apply(w.updates, s.txs) + Posted(w.created, s)
            && AllSplits(Posted(w.created, s))
            && AllEvolve(s.txs, Apply(w.updates, s.txs))
  {
    var w := Settle(cfg, fin, s.txs, d).work;
    var posted := Posted(w.created, s);
    SettleCreates(cfg, fin, s.txs, d);
    PostedSplits(w.created, s);
    ApplyAppend(w.updates, s.txs, posted);
    forall t | t in posted ensures t.id !in w.updates {
      var i :| 0 <= i < |posted| && posted[i] == t;
      assert forall k :: 0 <= k < |s.txs| ==> s.txs[k] in s.txs;
      assert !Among(t.id, s.txs);
      SettleForeign(cfg, fin, s.txs, d, t);
    }
    ApplyOther(w.updates, posted);
    forall i | 0 <= i < |s.txs| ensures Evolves(s.txs[i], Apply(w.updates, s.txs)[i]) {
      assert s.txs[i] in s.txs;
      SettleEvolves(cfg, fin, s.txs, d, s.txs[i]);
    }
  }

  lemma {:induction false} CommitReplicas(cfg: Config, fin: seq<FinTx>, s: State, d: int)
    requires Valid(s) && CodesApart(s.txs) && Settle(cfg, fin, s.txs, d).Ok?
    ensures var w := Settle(cfg, fin, s.txs, d).work;
            Filter(IsReplica, Commit(s, w, SortedSales(s.txs, d)).txs) == Apply(w.updates, Filter(IsReplica, s.txs))
  {
    var w := Settle(cfg, fin, s.txs, d).work;
    var posted := Posted(w.created, s);
    CommitBook(cfg, fin, s, d);
    FilterAppend(IsReplica, Apply(w.updates, s.txs), posted);
    FilterNone(IsReplica, posted);
    forall t | t in s.txs ensures IsReplica(Lookup(w.updates, t)) == IsReplica(t) {
      SettleEvolves(cfg, fin, s.txs, d, t);
      EvolvesShape(t, Lookup(w.updates, t));
    }
    FilterKept(IsReplica, w.updates, s.txs);
  }

  /** A calculation keeps what replication made: the replicas with their original data. */
  lemma {:induction false} CommitOrigin(cfg: Config, fin: seq<FinTx>, s: State, d: int)
    requires Valid(s) && CodesApart(s.txs) && Settle(cfg, fin, s.txs, d).Ok?
    ensures Origin(Commit(s, Settle(cfg, fin, s.txs, d).work, SortedSales(s.txs, d)).txs) == Origin(s.txs)
  {
    var w := Settle(cfg, fin, s.txs, d).work;
    var rs := Filter(IsReplica, s.txs);
    CommitReplicas(cfg, fin, s, d);
    FilterSound(IsReplica, s.txs);
    forall i | 0 <= i < |rs| ensures Fresh(Apply(w.updates, rs)[i]) == Fresh(rs[i]) {
      assert rs[i] in rs;
      SettleEvolves(cfg, fin, s.txs, d, rs[i]);
    }
  }

  /** A calculation keeps the book valid. */
  lemma {:induction false} CommitValid(cfg: Config, fin: seq<FinTx>, s: State, d: int)
    requires Valid(s) && CodesApart(s.txs) && Settle(cfg, fin, s.txs, d).Ok?
    ensures var s' := Commit(s, Settle(cfg, fin, s.txs, d).work, SortedSales(s.txs, d)); Valid(s') && CodesApart(s'.txs)
  {
    var w := Settle(cfg, fin, s.txs, d).work;
    var s' := Commit(s, w, SortedSales(s.txs, d));
    var olds, posted := Apply(w.updates, s.txs), Posted(w.created, s);
    CommitBook(cfg, fin, s, d);
    SettleCreates(cfg, fin, s.txs, d);
    PostedSplits(w.created, s);
    forall i | 0 <= i < |s.txs|
      ensures WellFormed(olds[i]) && olds[i].id == s.txs[i].id < s.nextId
              && PurchaseShape(olds[i]) == PurchaseShape(s.txs[i]) && olds[i].code == s.txs[i].code
    {
      assert s.txs[i] in s.txs;
      EvolvesShape(s.txs[i], olds[i]);
    }
    ValidParts(s, s', olds, posted);
  }

  lemma {:induction false} ValidParts(s: State, s': State, olds: seq<Tx>, posted: seq<Tx>)
    requires Valid(s) && CodesApart(s.txs) && s'.txs == olds + posted && s'.nextId == s.nextId + |posted|
             && |olds| == |s.txs|
    requires forall i :: 0 <= i < |olds| ==>
               WellFormed(olds[i]) && olds[i].id == s.txs[i].id && PurchaseShape(olds[i]) == PurchaseShape(s.txs[i])
                 && olds[i].code == s.txs[i].code
    requires AllSplits(posted) && forall i :: 0 <= i < |posted| ==> posted[i].id == s.nextId + i
    ensures Valid(s') && CodesApart(s'.txs)
  {
    forall i | 0 <= i < |olds| ensures 0 < olds[i].id < s.nextId { assert s.txs[i] in s.txs; }
    forall i, j | 0 <= i < j < |s'.txs| ensures IdOf(s'.txs[i]) != IdOf(s'.txs[j]) {
      if j < |olds| { assert IdOf(s.txs[i]) != IdOf(s.txs[j]); }
    }
    forall i, j | 0 <= i < j < |s'.txs| && PurchaseShape(s'.txs[i]) && PurchaseShape(s'.txs[j])
      ensures s'.txs[i].code != s'.txs[j].code
    {
      assert j < |olds| && PurchaseShape(s.txs[i]) && PurchaseShape(s.txs[j]);
    }
  }
}
