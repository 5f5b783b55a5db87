/** What is locked stays as it is: under calculations, and under resets, asked for or fired. */
module Locks {
  import opened Lists
  import opened Ledger
  import opened FifoOrder
  import opened Allocation
  import opened Settlement
  import opened Staging
  import opened Calculation
  import opened Reset
  import opened Books
  import opened Collected
  import opened Commitment
  import opened ResetFacts
  import opened Runs
  import opened Restoration
  import opened Marks
  import opened TwoRuns
  import opened Incremental
  import opened Batch
  import opened Splits

  // ----- What is locked -----

  /** Every locked transaction and every locked posting of `s` is in `s'` as it was. */
  ghost predicate SparesLocked(s: State, s': State) {
    && (forall t :: t in s.txs && t.id in s.locked ==> t in s'.txs)
    && (forall c :: c in s.cogs && c.sale in s.cogsLocked ==> c in s'.cogs)
  }

  lemma {:induction false} ResetSparesLocked(s: State)
    ensures SparesLocked(s, ResetState(s))
  {
    if !ResetLocked(s) {
      var u, trash, sales := UpdateMap(s.txs), TrashSet(s.txs), CogsTrash(s.txs, s.cogs);
      forall t | t in s.txs && t.id in s.locked ensures t in ResetState(s).txs {
        assert t.id !in u.Keys && t.id !in trash by {
          assert t.id !in (u.Keys + trash) * s.locked;
        }
        var i :| 0 <= i < |s.txs| && s.txs[i] == t;
        assert Apply(u, s.txs)[i] == t && Kept(trash)(t);
        FilterSound(Kept(trash), Apply(u, s.txs));
      }
      forall c | c in s.cogs && c.sale in s.cogsLocked ensures c in ResetState(s).cogs {
        assert c.sale !in sales by { assert c.sale !in sales * s.cogsLocked; }
        PostingStays(s.cogs, sales, c);
      }
    }
  }

  lemma {:induction false} PostingStays(cogs: seq<Cogs>, sales: set<nat>, c: Cogs)
    requires c in cogs && c.sale !in sales
    ensures c in TrashFirst(cogs, sales)
    decreases |cogs|
  {
    if cogs[0] != c {
      assert c in cogs[1..];
      PostingStays(cogs[1..], if cogs[0].sale in sales then sales - {cogs[0].sale} else sales, c);
    }
  }

  lemma {:induction false} CalculateSparesLocked(cfg: Config, fin: seq<FinTx>, s: State, d: int)
    ensures SparesLocked(s, Calculate(cfg, fin, s, d).1)
  {
    if Calculate(cfg, fin, s, d).0.Calculated? {
      var w, s' := Settle(cfg, fin, s.txs, d).work, Calculate(cfg, fin, s, d).1;
      forall t | t in s.txs && t.id in s.locked ensures t in s'.txs {
        assert t.id !in w.updates.Keys by { assert t.id !in w.updates.Keys * s.locked; }
        var i :| 0 <= i < |s.txs| && s.txs[i] == t;
        assert s'.txs[i] == t;
      }
    }
  }

  /** Nothing that is locked is changed by a calculation, by a reset, or by the reset that a flag fires. */
  lemma {:induction false} LockedStays(cfg: Config, s: State, step: Step)
    requires step.Calculating? || step.Resetting?
    ensures SparesLocked(s, Do(cfg, s, step))
  {
    ResetSparesLocked(s);
    if step.Calculating? { CalculateSparesLocked(cfg, step.fin, s, step.toDate); }
  }

  // ----- When a reset is stopped -----

  /** Something that a reset would put back is locked: anything but an open sale, or a posting. */
  ghost predicate ResetBlocked(s: State) {
    || (exists t :: t in s.txs && t.id in s.locked && !(t.flow == GoodToSell && !t.checked))
    || (exists c :: c in s.cogs && c.sale in s.cogsLocked)
  }

  /** A reset changes nothing when something that it would put back is locked, and otherwise gives the
      book as posted, with no posting, no flag and no date. */
  lemma {:induction false} ResetStopsIff(s: State)
    requires Inv(s)
    ensures var s' := ResetState(s);
            if ResetBlocked(s) then s' == s
            else s'.txs == Origin(s.txs) && s'.cogs == [] && !s'.rebuild && s'.calcDate == Blank
  {
    BlockedIff(s);
    if !ResetBlocked(s) { ResetGivesOrigin(s); }
  }

  lemma {:induction false} BlockedIff(s: State)
    requires Inv(s)
    ensures ResetLocked(s) <==> ResetBlocked(s)
  {
    var u, trash, sales := UpdateMap(s.txs), TrashSet(s.txs), CogsTrash(s.txs, s.cogs);
    forall t | t in s.txs ensures t.id in u.Keys + trash <==> !(t.flow == GoodToSell && !t.checked) {
      ResetStagesIff(s, t);
    }
    forall c | c in s.cogs ensures c.sale in sales { CogsFound(s.txs, s.cogs, c); }
    if ResetBlocked(s) {
      if t :| t in s.txs && t.id in s.locked && !(t.flow == GoodToSell && !t.checked) {
        assert t.id in (u.Keys + trash) * s.locked;
      } else {
        var c :| c in s.cogs && c.sale in s.cogsLocked;
        assert c.sale in sales * s.cogsLocked;
      }
    }
    if id :| id in (u.Keys + trash) * s.locked {
      var t := ResetStaged(s.txs, id);
      assert t.id in s.locked;
    }
  }

  lemma {:induction false} ResetStagesIff(s: State, t: Tx)
    requires Inv(s) && t in s.txs
    ensures t.id in UpdateMap(s.txs).Keys + TrashSet(s.txs) <==> !(t.flow == GoodToSell && !t.checked)
  {
    assert WellFormed(t);
    TrashIsSplits(s.txs, t);
    if ResetUpdates(t) { StagedOnce(s.txs, t); }
    if t.id in UpdateMap(s.txs) {
      StagedAgain(s.txs, t.id);
      var i :| 0 <= i < |s.txs| && s.txs[i].id == t.id && ResetUpdates(s.txs[i]);
      SameIdSame(s.txs, s.txs[i], t);
    }
  }

  lemma {:induction false} ResetStaged(txs: seq<Tx>, id: nat) returns (t: Tx)
    requires id in UpdateMap(txs).Keys + TrashSet(txs)
    ensures t in txs && t.id == id
  {
    if id in UpdateMap(txs) {
      StagedAgain(txs, id);
      var i :| 0 <= i < |txs| && txs[i].id == id && ResetUpdates(txs[i]);
      t := txs[i];
    } else {
      t :| t in txs && ResetTrashes(t) && t.id == id;
    }
  }

  // ----- When a calculation is stopped -----

  /** The lot was sold out, or holds less. */
  predicate Less(a: Tx, b: Tx) { b.checked || b.amount < a.amount }

  /** The run staged only lots that it left with less, or sold out, besides those staged in `u`. */
  ghost predicate StagedLess(base: seq<Tx>, u: map<nat, Tx>, w: Work) {
    && |base| == |w.lots|
    && (forall i :: 0 <= i < |base| ==>
          && w.lots[i].id == base[i].id && w.lots[i].amount <= base[i].amount
          && (w.lots[i].checked || !base[i].checked))
    && forall i :: 0 <= i < |base| && base[i].id in w.updates && base[i].id !in u ==> Less(base[i], w.lots[i])
  }

  /** A move that takes something leaves less. */
  predicate Lessens(m: Move) { m.Sold().amount > 0.0 ==> Less(m.before, m.after) }

  lemma {:induction false} StagedIds(u: map<nat, Tx>, moves: seq<Move>, id: nat)
    ensures id in Stage(u, moves) ==> id in u || exists m :: m in moves && m.after.id == id
  {
    if |moves| > 0 && id in Stage(u, moves) {
      var init, m := moves[..|moves| - 1], moves[|moves| - 1];
      assert moves == init + [m];
      StagedIds(u, init, id);
      if x :| x in init && x.after.id == id { assert x in moves; }
    }
  }

  lemma {:induction false} SaleStagesLess(cfg: Config, fin: seq<FinTx>, sale: Tx, base: seq<Tx>, u: map<nat, Tx>,
                                          w: Work)
    requires StagedLess(base, u, w) && Distinct(IdOf, base) && Ready(w.lots) && sale.amount > 0.0
    requires !Among(sale.id, base)
    ensures StagedLess(base, u, ProcessSale(RunMovers(cfg, fin), cfg.halfUnit, sale, w))
  {
    var mover, d := SaleMover(cfg, fin, sale), DrawFor(RunMovers(cfg, fin), sale, w.lots);
    SaleMoverLawful(cfg, fin, sale);
    SaleMoverFramed(cfg, fin, sale);
    SameIdsDistinct(base, w.lots);
    TakeReaches(mover, sale.amount, w.lots);
    DrawPositive(mover, sale.amount, w.lots);
    DrawLessens(cfg, fin, sale, w.lots);
    forall i | 0 <= i < |base|
      ensures d.lots[i].id == base[i].id && d.lots[i].amount <= base[i].amount
              && (d.lots[i].checked || !base[i].checked)
      ensures base[i].id in Stage(w.updates, d.moves) && base[i].id !in u ==> Less(base[i], d.lots[i])
    {
      StagedIds(w.updates, d.moves, base[i].id);
      assert Reached(w.lots[i], d.lots[i], d.moves);
      LotLess(base[i], w.lots[i], d.lots[i], d.moves);
    }
  }

  /** A draw keeps ids and never adds; a lot it moves, it leaves with less. */
  lemma {:induction false} DrawLessens(cfg: Config, fin: seq<FinTx>, sale: Tx, lots: seq<Tx>)
    requires Ready(lots) && sale.amount > 0.0
    ensures forall m :: m in DrawFor(RunMovers(cfg, fin), sale, lots).moves ==>
              Lessens(m) && m.after.id == m.before.id && m.after.amount <= m.before.amount
              && (m.before.checked ==> m.after.checked) && m.Sold().amount > 0.0
  {
    var mover := SaleMover(cfg, fin, sale);
    var p := (m: Move) => Lessens(m) && m.after.id == m.before.id && m.after.amount <= m.before.amount
                          && (m.before.checked ==> m.after.checked);
    SaleMoverLawful(cfg, fin, sale);
    forall n: Quantity, lot: Tx | !lot.checked && lot in lots ensures p(mover(n, lot)) {
      assert mover(n, lot) == MoveOn(cfg, fin, sale, n, lot);
    }
    TakeMoves(mover, sale.amount, lots, p);
    DrawPositive(mover, sale.amount, lots);
  }

  lemma {:induction false} LotLess(a: Tx, b: Tx, c: Tx, moves: seq<Move>)
    requires Reached(b, c, moves) && a.id == b.id && b.amount <= a.amount && (b.checked || !a.checked)
    requires forall m :: m in moves ==>
               Lessens(m) && m.after.id == m.before.id && m.after.amount <= m.before.amount
               && (m.before.checked ==> m.after.checked) && m.Sold().amount > 0.0
    ensures c.id == a.id && c.amount <= a.amount && (c.checked || !a.checked)
    ensures Less(a, b) || (exists m :: m in moves && m.after.id == a.id) ==> Less(a, c)
  {}

  lemma {:induction false} RunStagesLess(cfg: Config, fin: seq<FinTx>, sales: seq<Tx>, w: Work)
    requires Distinct(IdOf, w.lots) && Ready(w.lots)
    requires forall k :: 0 <= k < |sales| ==> sales[k].amount > 0.0 && !Among(sales[k].id, w.lots)
    ensures StagedLess(w.lots, w.updates, ProcessSales(RunMovers(cfg, fin), cfg.halfUnit, sales, w))
    decreases |sales|
  {
    if |sales| > 0 {
      var init, sale, movers := sales[..|sales| - 1], sales[|sales| - 1], RunMovers(cfg, fin);
      RunStagesLess(cfg, fin, init, w);
      RunMoversLawful(cfg, fin);
      RunFrame(movers, init, w.lots);
      ProcessLots(movers, cfg.halfUnit, init, w);
      SaleStagesLess(cfg, fin, sale, w.lots, w.updates, ProcessSales(movers, cfg.halfUnit, init, w));
    }
  }

  /** What a calculation stages, it changes. */
  lemma {:induction false} StagedChanges(cfg: Config, fin: seq<FinTx>, s: State, d: int, t: Tx)
    requires Passes(cfg, fin, s, d) && t in s.txs && t.id in WorkOf(cfg, fin, s, d).updates
    ensures Lookup(WorkOf(cfg, fin, s, d).updates, t) != t
  {
    if t in Purchases(s.txs, d) {
      if t.id in Opening(s.txs, d).work.updates {
        StagedShrinks(cfg, fin, s, d, t);
      } else {
        LotChanges(cfg, fin, s, d, t);
      }
    } else if t in Sales(s.txs, d) {
      SaleChanges(cfg, fin, s, d, t);
    } else {
      SettleOther(cfg, fin, s.txs, d, t);
      FilterSound(OpenNotes(d), s.txs);
    }
  }

  lemma {:induction false} SaleChanges(cfg: Config, fin: seq<FinTx>, s: State, d: int, t: Tx)
    requires Passes(cfg, fin, s, d) && t in Sales(s.txs, d)
    ensures Lookup(WorkOf(cfg, fin, s, d).updates, t) != t
  {
    FilterSound(OpenSales(d), s.txs);
    SaleAfterFirst(cfg, fin, s, d, t);
  }

  lemma {:induction false} LotChanges(cfg: Config, fin: seq<FinTx>, s: State, d: int, t: Tx)
    requires Passes(cfg, fin, s, d) && t in Purchases(s.txs, d)
    requires t.id in WorkOf(cfg, fin, s, d).updates && t.id !in Opening(s.txs, d).work.updates
    ensures Lookup(WorkOf(cfg, fin, s, d).updates, t) != t
  {
    var ls, v, w := Lots(s.txs, d), Opening(s.txs, d).work, WorkOf(cfg, fin, s, d);
    SortContents(Purchases(s.txs, d));
    FilterSound(OpenPurchases(d), s.txs);
    var i :| 0 <= i < |ls| && ls[i] == t;
    OpeningStages(s.txs, d);
    assert Apply(v.updates, ls)[i] == v.lots[i] == t;
    SettleLots(cfg, fin, s.txs, d);
    assert Apply(w.updates, ls)[i] == w.lots[i];
    RunChanges(cfg, fin, s, d);
  }

  lemma {:induction false} RunChanges(cfg: Config, fin: seq<FinTx>, s: State, d: int)
    requires Passes(cfg, fin, s, d)
    ensures var v := Opening(s.txs, d).work; StagedLess(v.lots, v.updates, WorkOf(cfg, fin, s, d))
  {
    var ls, v, sales := Lots(s.txs, d), Opening(s.txs, d).work, SortedSales(s.txs, d);
    OpenLotsReady(s.txs, d);
    OpeningStages(s.txs, d);
    MembersShapes(s.txs, d);
    SameIdsDistinct(ls, v.lots);
    SalesPositive(s.txs, d);
    forall k | 0 <= k < |sales| ensures !Among(sales[k].id, v.lots) {
      SaleNoLot(s.txs, d, k);
      AmongSame(sales[k].id, ls, v.lots);
    }
    RunStagesLess(cfg, fin, sales, v);
  }

  /** A calculation that passes its guards changes nothing when something that it would change is
      locked, and goes through otherwise. */
  lemma {:induction false} CalculationStopsIff(cfg: Config, fin: seq<FinTx>, s: State, d: int)
    requires Passes(cfg, fin, s, d) && SalesTotal(s.txs, d) != 0.0
    ensures var s' := After1(cfg, fin, s, d);
            Calculate(cfg, fin, s, d)
            == if exists t :: t in s.txs && t.id in s.locked && t !in s'.txs then (LockError, s) else (Calculated, s')
  {
    var s', u := After1(cfg, fin, s, d), WorkOf(cfg, fin, s, d).updates;
    forall t | t in s.txs && t.id in u ensures t !in s'.txs { StagedGone(cfg, fin, s, d, t); }
    forall t | t in s.txs && t.id !in u ensures t in s'.txs { InBookAfter(cfg, fin, s, d, t); }
    if t :| t in s.txs && t.id in s.locked && t !in s'.txs { assert t.id in u.Keys * s.locked; }
    if id :| id in u.Keys * s.locked { var t := StagedFrom(cfg, fin, s, d, id); }
  }

  lemma {:induction false} StagedGone(cfg: Config, fin: seq<FinTx>, s: State, d: int, t: Tx)
    requires Passes(cfg, fin, s, d) && t in s.txs && t.id in WorkOf(cfg, fin, s, d).updates
    ensures t !in After1(cfg, fin, s, d).txs
  {
    var t' := Lookup(WorkOf(cfg, fin, s, d).updates, t);
    StagedChanges(cfg, fin, s, d, t);
    InBookAfter(cfg, fin, s, d, t);
    EvolvesShape(t, t');
    BookAfter(cfg, fin, s, d);
    if t in After1(cfg, fin, s, d).txs { SameIdSame(After1(cfg, fin, s, d).txs, t, t'); }
  }

  lemma {:induction false} StagedFrom(cfg: Config, fin: seq<FinTx>, s: State, d: int, id: nat) returns (t: Tx)
    requires Passes(cfg, fin, s, d) && id in WorkOf(cfg, fin, s, d).updates
    ensures t in s.txs && t.id == id
  {
    if !Among(id, s.txs) { SettleForeign(cfg, fin, s.txs, d, WorkOf(cfg, fin, s, d).updates[id].(id := id)); }
    var i :| 0 <= i < |s.txs| && s.txs[i].id == id;
    t := s.txs[i];
  }
}
