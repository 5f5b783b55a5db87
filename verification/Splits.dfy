/** What the splits of a purchase are, over every run: cut from it by a sale or by a credit note,
    with its date and purchase code. */
module Splits {
  import opened Lists
  import opened Ledger
  import opened FifoOrder
  import opened Allocation
  import opened Settlement
  import opened Calculation
  import opened Reset
  import opened Replication
  import opened Books
  import opened Collected
  import opened Commitment
  import opened ResetFacts
  import opened Runs
  import opened Families
  import opened Marks
  import opened NoteForm
  import opened TwoRuns
  import opened Incremental

  /** `y` is a part of purchase `p` that a sale took, at its logged unit cost. */
  predicate CutBySale(cfg: Config, y: Tx, p: Tx) {
    && y.amount > 0.0 && y.liquidation.Some? && (y.remote.Pending? || y.remote.Uuid?)
    && y == Tx(y.id, y.remote, p.date, p.order, None, BuyToGood, y.amount, true, true, true, p.code,
               Some((cfg.times)(y.amount, y.liquidation.value.unitCost)), None, None, Some(p.id),
               y.liquidation, None, None, None)
  }

  /** `y` is a part of purchase `p` that credit note `n` took back. */
  predicate CutByNote(y: Tx, p: Tx, n: Tx) {
    && n.amount > 0.0 && n.code == p.code && n.creditNote.Some? && n.creditNote.value.Number?
    && y == Tx(y.id, Note(n.creditNote.value.number), p.date, 0, None, BuyToGood, n.amount, true, true, true, p.code,
               None, None, None, Some(p.id), None, None, None, n.creditNote)
  }

  /** The split was taken from a purchase of the list, by a sale or by a note that satisfies `q`. */
  ghost predicate CutFrom(cfg: Config, ps: seq<Tx>, q: Tx -> bool, y: Tx) {
    exists p :: p in ps && PurchaseShape(p) && (CutBySale(cfg, y, p) || exists n :: q(n) && CutByNote(y, p, n))
  }

  ghost predicate AllCutFrom(cfg: Config, ps: seq<Tx>, q: Tx -> bool, ys: seq<Tx>) {
    forall y :: y in ys ==> CutFrom(cfg, ps, q, y)
  }

  // ----- One run -----

  /** Every lot drawn on gives up something. */
  lemma {:induction false} DrawPositive(mover: Mover, need: Quantity, lots: seq<Tx>)
    requires Lawful(mover) && Ready(lots) && need > 0.0
    ensures forall m :: m in Take(mover, need, lots).moves ==> m.Sold().amount > 0.0
    decreases |lots|
  {
    if |lots| > 0 {
      var lot, rest := lots[0], lots[1..];
      assert lots == [lot] + rest;
      assert forall i :: 0 <= i < |rest| ==> rest[i] == lots[i + 1];
      if lot.checked {
        DrawPositive(mover, need, rest);
      } else {
        assert LawfulMove(need, lot, mover(need, lot));
        if lot.amount < need { DrawPositive(mover, need - lot.amount, rest); }
      }
    }
  }

  /** The piece of a move is cut from its lot. */
  ghost predicate PieceCut(cfg: Config, m: Move) {
    m.piece.Some? && m.piece.value.amount > 0.0 ==> CutBySale(cfg, m.piece.value, m.before)
  }

  lemma {:induction false} DrawCuts(cfg: Config, fin: seq<FinTx>, sale: Tx, lots: seq<Tx>, base: seq<Tx>, q: Tx -> bool)
    requires PurchaseLots(base) && SameLots(base, lots) && Ready(lots) && sale.amount > 0.0
    requires PurchaseLots(lots)
    ensures AllCutFrom(cfg, base, q, Pieces(DrawFor(RunMovers(cfg, fin), sale, lots).moves))
  {
    var mover, moves := SaleMover(cfg, fin, sale), DrawFor(RunMovers(cfg, fin), sale, lots).moves;
    var p := (m: Move) => PieceCut(cfg, m);
    SaleMoverLawful(cfg, fin, sale);
    forall n: Quantity, lot: Tx | !lot.checked && lot in lots ensures p(mover(n, lot)) {
      assert mover(n, lot) == MoveOn(cfg, fin, sale, n, lot) && PurchaseShape(lot);
    }
    TakeMoves(mover, sale.amount, lots, p);
    DrawPositive(mover, sale.amount, lots);
    PiecesFrom(moves);
    forall y | y in Pieces(moves) ensures CutFrom(cfg, base, q, y) {
      var m :| m in moves && m.piece == Some(y);
      assert p(m) && m.Sold() == y;
      var i :| 0 <= i < |lots| && lots[i] == m.before;
      assert SameLot(base[i], lots[i]) && CutBySale(cfg, y, base[i]);
    }
  }

  lemma {:induction false} RunCuts(cfg: Config, fin: seq<FinTx>, sales: seq<Tx>, w: Work, q: Tx -> bool)
    requires PurchaseLots(w.lots) && Ready(w.lots) && AllCutFrom(cfg, w.lots, q, w.created)
    requires forall k :: 0 <= k < |sales| ==> sales[k].amount > 0.0
    ensures AllCutFrom(cfg, w.lots, q, ProcessSales(RunMovers(cfg, fin), cfg.halfUnit, sales, w).created)
    decreases |sales|
  {
    if |sales| > 0 {
      var init, sale, movers := sales[..|sales| - 1], sales[|sales| - 1], RunMovers(cfg, fin);
      RunCuts(cfg, fin, init, w, q);
      RunMoversLawful(cfg, fin);
      RunFrame(movers, init, w.lots);
      ProcessLots(movers, cfg.halfUnit, init, w);
      RunEvolves(cfg, fin, init, w.lots);
      AllEvolveShape(w.lots, LotsAfter(movers, init, w.lots));
      DrawCuts(cfg, fin, sale, LotsAfter(movers, init, w.lots), w.lots, q);
    }
  }

  /** The splits of credit notes are cut from the lots that they find. */
  lemma {:induction false} NoteCuts(cfg: Config, notes: seq<Tx>, ps: seq<Tx>, q: Tx -> bool)
    requires PurchaseLots(ps) && forall n :: n in notes ==> NoteShape(n) && (Matched(ps, n) ==> q(n))
    ensures AllCutFrom(cfg, ps, q, SplitsOf(notes, ps))
  {
    if |notes| > 0 {
      var init, n := notes[..|notes| - 1], notes[|notes| - 1];
      assert notes == init + [n] && n in notes;
      NoteCuts(cfg, init, ps, q);
      if Matched(ps, n) {
        var p := ps[IndexOf(ps, n.code)];
        assert CutByNote(NoteSplit(p, n), p, n) && p in ps && PurchaseShape(p);
        assert CutFrom(cfg, ps, q, NoteSplit(p, n));
      }
    }
  }

  // ----- From the lots of a run to the book -----

  /** The same purchase, as far as its splits tell. */
  predicate Twin(p: Tx, p': Tx) { p.id == p'.id && p.date == p'.date && p.order == p'.order && p.code == p'.code }

  ghost predicate TwinIn(ps: seq<Tx>, p: Tx) { exists p' :: p' in ps && PurchaseShape(p') && Twin(p, p') }

  ghost predicate TwinsIn(ps: seq<Tx>, ps': seq<Tx>) { forall p :: p in ps && PurchaseShape(p) ==> TwinIn(ps', p) }

  lemma {:induction false} SameCut(cfg: Config, y: Tx, p: Tx, p': Tx, q: Tx -> bool)
    requires Twin(p, p')
    ensures CutBySale(cfg, y, p) <==> CutBySale(cfg, y, p')
    ensures (exists n :: q(n) && CutByNote(y, p, n)) <==> (exists n :: q(n) && CutByNote(y, p', n))
  {
    forall n ensures CutByNote(y, p, n) <==> CutByNote(y, p', n) {}
  }

  lemma {:induction false} CutFromTwins(cfg: Config, ps: seq<Tx>, ps': seq<Tx>, q: Tx -> bool, ys: seq<Tx>)
    requires TwinsIn(ps, ps') && AllCutFrom(cfg, ps, q, ys)
    ensures AllCutFrom(cfg, ps', q, ys)
  {
    forall y | y in ys ensures CutFrom(cfg, ps', q, y) {
      var p :| p in ps && PurchaseShape(p) && (CutBySale(cfg, y, p) || exists n :: q(n) && CutByNote(y, p, n));
      assert TwinIn(ps', p);
      var p' :| p' in ps' && PurchaseShape(p') && Twin(p, p');
      SameCut(cfg, y, p, p', q);
    }
  }

  lemma {:induction false} PairwiseTwins(xs: seq<Tx>, ys: seq<Tx>)
    requires |xs| == |ys| && forall i :: 0 <= i < |xs| ==> PurchaseShape(ys[i]) && Twin(xs[i], ys[i])
    ensures TwinsIn(xs, ys)
  {
    forall x | x in xs ensures TwinIn(ys, x) {
      var i :| 0 <= i < |xs| && xs[i] == x;
      assert ys[i] in ys;
    }
  }

  lemma {:induction false} TwinsAmong(xs: seq<Tx>, xs': seq<Tx>, ys: seq<Tx>)
    requires TwinsIn(xs, ys) && forall x :: x in xs' ==> x in xs
    ensures TwinsIn(xs', ys)
  {}

  lemma {:induction false} TwinsWithin(xs: seq<Tx>, ys: seq<Tx>, ys': seq<Tx>)
    requires TwinsIn(xs, ys) && forall y :: y in ys ==> y in ys'
    ensures TwinsIn(xs, ys')
  {
    forall x | x in xs && PurchaseShape(x) ensures TwinIn(ys', x) {
      assert TwinIn(ys, x);
      var y :| y in ys && PurchaseShape(y) && Twin(x, y);
      assert y in ys';
    }
  }

  lemma {:induction false} LotTwins(txs: seq<Tx>, d: int)
    requires Sound(txs) && Opening(txs, d).Ok?
    ensures TwinsIn(Purchases(txs, d), Opening(txs, d).work.lots) && TwinsIn(Opening(txs, d).work.lots, txs)
  {
    var ps, ls, lots := Purchases(txs, d), Lots(txs, d), Opening(txs, d).work.lots;
    LotsArePaired(txs, d);
    SortContents(ps);
    FilterSound(OpenPurchases(d), txs);
    PairwiseTwins(ls, lots);
    TwinsAmong(ls, ps, lots);
    PairwiseTwins(lots, ls);
    TwinsWithin(lots, ls, txs);
  }

  lemma {:induction false} LotsArePaired(txs: seq<Tx>, d: int)
    requires Sound(txs) && Opening(txs, d).Ok?
    ensures var ls, lots := Lots(txs, d), Opening(txs, d).work.lots;
            && |ls| == |lots|
            && forall i :: 0 <= i < |ls| ==>
                 PurchaseShape(ls[i]) && PurchaseShape(lots[i]) && Twin(ls[i], lots[i]) && Twin(lots[i], ls[i])
  {
    OpeningForm(txs, d);
    OpenLotsUnsold(txs, d);
    MembersShapes(txs, d);
  }

  lemma {:induction false} OpenLotsReady(txs: seq<Tx>, d: int)
    requires Sound(txs) && Opening(txs, d).Ok?
    ensures PurchaseLots(Opening(txs, d).work.lots) && Ready(Opening(txs, d).work.lots)
  {
    OpenLotsUnsold(txs, d);
    OpeningStages(txs, d);
    var lots := Opening(txs, d).work.lots;
    forall i | 0 <= i < |lots| ensures lots[i].amount > 0.0 { assert PurchaseShape(lots[i]); }
  }

  /** The splits that a calculation creates are cut from purchases of the book, by its sales or by
      the notes that it applies. */
  lemma {:induction false} SettleCuts(cfg: Config, fin: seq<FinTx>, s: State, d: int)
    requires Passes(cfg, fin, s, d)
    ensures AllCutFrom(cfg, s.txs, AppliedBy(s.txs, d), WorkOf(cfg, fin, s, d).created)
  {
    var q, ps, v := AppliedBy(s.txs, d), Purchases(s.txs, d), Opening(s.txs, d).work;
    OpeningForm(s.txs, d);
    KeptNotes(s.txs, d);
    CollectedShapes(s.txs, d);
    NoteCuts(cfg, NotesBy(s.txs, d), ps, q);
    LotTwins(s.txs, d);
    CutFromTwins(cfg, ps, v.lots, q, v.created);
    OpenLotsReady(s.txs, d);
    SalesPositive(s.txs, d);
    RunCuts(cfg, fin, SortedSales(s.txs, d), v, q);
    CutFromTwins(cfg, v.lots, s.txs, q, WorkOf(cfg, fin, s, d).created);
  }

  // ----- Every run -----

  /** The credit notes of the book that were applied; any note, when deletions may have taken some. */
  ghost function NotesIn(txs: seq<Tx>, spared: bool): Tx -> bool {
    (n: Tx) => !spared || (n in txs && NoteShape(n) && n.checked)
  }

  /** Every split of the book was cut from a purchase of the book. */
  ghost predicate SplitsHold(cfg: Config, s: State, spared: bool) {
    forall y :: y in s.txs && IsSplit(y) ==> CutFrom(cfg, s.txs, NotesIn(s.txs, spared), y)
  }

  lemma {:induction false} CutKept(cfg: Config, ps: seq<Tx>, ps': seq<Tx>, q: Tx -> bool, q': Tx -> bool, y: Tx)
    requires CutFrom(cfg, ps, q, y) && TwinsIn(ps, ps') && forall n :: q(n) && CutSome(y, n) ==> q'(n)
    ensures CutFrom(cfg, ps', q', y)
  {
    var p :| p in ps && PurchaseShape(p) && (CutBySale(cfg, y, p) || exists n :: q(n) && CutByNote(y, p, n));
    assert TwinIn(ps', p);
    var p' :| p' in ps' && PurchaseShape(p') && Twin(p, p');
    SameCut(cfg, y, p, p', q);
    if n :| q(n) && CutByNote(y, p', n) {
      assert CutSome(y, n) && q'(n);
    }
  }

  /** The split carries the number of the note. */
  predicate CutSome(y: Tx, n: Tx) { y.creditNote == n.creditNote }

  lemma {:induction false} TwinsAfter(cfg: Config, fin: seq<FinTx>, s: State, d: int)
    requires Passes(cfg, fin, s, d)
    ensures TwinsIn(s.txs, After1(cfg, fin, s, d).txs)
  {
    forall p | p in s.txs && PurchaseShape(p) ensures TwinIn(After1(cfg, fin, s, d).txs, p) {
      var p' := Lookup(WorkOf(cfg, fin, s, d).updates, p);
      InBookAfter(cfg, fin, s, d, p);
      EvolvesShape(p, p');
      assert Twin(p, p');
    }
  }

  /** A split of the book after a calculation was there before it, or was created by it. */
  lemma {:induction false} NewSplitCut(cfg: Config, fin: seq<FinTx>, s: State, d: int, spared: bool, y: Tx)
    requires Passes(cfg, fin, s, d) && y in Posted(WorkOf(cfg, fin, s, d).created, s)
    ensures var txs' := After1(cfg, fin, s, d).txs; CutFrom(cfg, txs', NotesIn(txs', spared), y)
  {
    var txs', q := After1(cfg, fin, s, d).txs, AppliedBy(s.txs, d);
    var z := PostedFrom(WorkOf(cfg, fin, s, d).created, s, y);
    assert CutFrom(cfg, txs', q, z) by {
      SettleCuts(cfg, fin, s, d);
      TwinsAfter(cfg, fin, s, d);
      CutFromTwins(cfg, s.txs, txs', q, WorkOf(cfg, fin, s, d).created);
    }
    forall n | q(n) ensures NotesIn(txs', spared)(n.(checked := true)) { AppliedStays(cfg, fin, s, d, n); }
    PostedCut(cfg, txs', q, NotesIn(txs', spared), z, y);
  }

  lemma {:induction false} AppliedStays(cfg: Config, fin: seq<FinTx>, s: State, d: int, n: Tx)
    requires Passes(cfg, fin, s, d) && AppliedBy(s.txs, d)(n)
    ensures n.(checked := true) in After1(cfg, fin, s, d).txs && NoteShape(n.(checked := true))
  {
    KeptNotes(s.txs, d);
    CollectedShapes(s.txs, d);
    FilterSound(OpenNotes(d), s.txs);
    NoteAfterFirst(cfg, fin, s, d, n);
    InBookAfter(cfg, fin, s, d, n);
  }

  /** Posting a split gives it an id and draws its UUID. */
  lemma {:induction false} PostedCut(cfg: Config, ps: seq<Tx>, q: Tx -> bool, q': Tx -> bool, z: Tx, y: Tx)
    requires CutFrom(cfg, ps, q, z) && y == z.(id := y.id, remote := y.remote)
    requires if z.remote.Pending? then y.remote.Uuid? else y.remote == z.remote
    requires forall n :: q(n) ==> q'(n.(checked := true))
    ensures CutFrom(cfg, ps, q', y)
  {
    var p :| p in ps && PurchaseShape(p) && (CutBySale(cfg, z, p) || exists n :: q(n) && CutByNote(z, p, n));
    if CutBySale(cfg, z, p) {
      assert CutBySale(cfg, y, p);
    } else {
      var n :| q(n) && CutByNote(z, p, n);
      assert CutByNote(y, p, n.(checked := true)) && q'(n.(checked := true));
    }
  }

  lemma {:induction false} CalculateSplits(cfg: Config, fin: seq<FinTx>, s: State, d: int, spared: bool)
    requires SplitsHold(cfg, s, spared) && Passes(cfg, fin, s, d)
    ensures SplitsHold(cfg, After1(cfg, fin, s, d), spared)
  {
    var w, s' := WorkOf(cfg, fin, s, d), After1(cfg, fin, s, d);
    BookAfter(cfg, fin, s, d);
    forall y | y in s'.txs && IsSplit(y) ensures CutFrom(cfg, s'.txs, NotesIn(s'.txs, spared), y) {
      if y in Posted(w.created, s) {
        NewSplitCut(cfg, fin, s, d, spared, y);
      } else {
        var x := UpdatedFrom(w.updates, s.txs, y);
        OldSplitCut(cfg, fin, s, d, spared, x);
      }
    }
  }

  lemma {:induction false} OldSplitCut(cfg: Config, fin: seq<FinTx>, s: State, d: int, spared: bool, x: Tx)
    requires SplitsHold(cfg, s, spared) && Passes(cfg, fin, s, d)
    requires x in s.txs && IsSplit(Lookup(WorkOf(cfg, fin, s, d).updates, x))
    ensures var txs', y := After1(cfg, fin, s, d).txs, Lookup(WorkOf(cfg, fin, s, d).updates, x);
            CutFrom(cfg, txs', NotesIn(txs', spared), y)
  {
    var txs', y := After1(cfg, fin, s, d).txs, Lookup(WorkOf(cfg, fin, s, d).updates, x);
    InBookAfter(cfg, fin, s, d, x);
    EvolvesShape(x, y);
    assert y == x && CutFrom(cfg, s.txs, NotesIn(s.txs, spared), x);
    TwinsAfter(cfg, fin, s, d);
    forall n | n in s.txs && n.checked ensures n in txs' {
      Uncollected(cfg, fin, s, d, n);
      InBookAfter(cfg, fin, s, d, n);
    }
    CutKept(cfg, s.txs, txs', NotesIn(s.txs, spared), NotesIn(txs', spared), y);
  }

  lemma {:induction false} ArriveSplits(cfg: Config, s: State, f: FinTx, millis: nat, spared: bool)
    requires SplitsHold(cfg, s, spared)
    ensures SplitsHold(cfg, Arrive(s, f, millis), spared)
  {
    var txs' := Arrive(s, f, millis).txs;
    forall p | p in s.txs && PurchaseShape(p) ensures TwinIn(txs', p) { assert p in txs' && Twin(p, p); }
    forall y | y in txs' && IsSplit(y) ensures CutFrom(cfg, txs', NotesIn(txs', spared), y) {
      CutKept(cfg, s.txs, txs', NotesIn(s.txs, spared), NotesIn(txs', spared), y);
    }
  }

  /** The deleted document has a replica that is a credit note applied. */
  ghost predicate DeletesApplied(s: State, f: FinTx) {
    exists n :: n in s.txs && n.remote == Fin(f.id) && NoteShape(n) && n.checked
  }

  lemma {:induction false} DeleteSplits(cfg: Config, s: State, f: FinTx, spared: bool)
    requires Inv(s) && SplitsHold(cfg, s, spared) && (spared ==> !DeletesApplied(s, f))
    ensures SplitsHold(cfg, Delete(s, f), spared)
  {
    var txs', found := Delete(s, f).txs, Filter(HasRemote(f.id), s.txs);
    FilterSound(HasRemote(f.id), s.txs);
    if txs' != s.txs {
      var root := found[0];
      assert root in found && WellFormed(root);
      FilterSound(OutOfFamily(root), s.txs);
      forall y | y in txs' && IsSplit(y) ensures CutFrom(cfg, txs', NotesIn(txs', spared), y) {
        CutStays(cfg, s, f, root, spared, y);
      }
    } else {
      assert Delete(s, f).txs == s.txs;
    }
  }

  /** What is out of the deleted family keeps its purchase and its note. */
  lemma {:induction false} CutStays(cfg: Config, s: State, f: FinTx, root: Tx, spared: bool, y: Tx)
    requires Inv(s) && root in s.txs && root.remote == Fin(f.id) && WellFormed(root)
             && (spared ==> !DeletesApplied(s, f))
    requires y in s.txs && OutOfFamily(root)(y) && CutFrom(cfg, s.txs, NotesIn(s.txs, spared), y)
    ensures var txs' := Filter(OutOfFamily(root), s.txs); CutFrom(cfg, txs', NotesIn(txs', spared), y)
  {
    var txs', q := Filter(OutOfFamily(root), s.txs), NotesIn(s.txs, spared);
    var p := CutParent(cfg, s.txs, q, y);
    ParentStays(s, root, y, p);
    forall n | q(n) ensures NotesIn(txs', spared)(n) { NoteStays(s, f, root, spared, n); }
    CutAgain(cfg, txs', q, NotesIn(txs', spared), y, p);
  }

  /** The purchase that a split was cut from. */
  lemma {:induction false} CutParent(cfg: Config, ps: seq<Tx>, q: Tx -> bool, y: Tx) returns (p: Tx)
    requires CutFrom(cfg, ps, q, y)
    ensures p in ps && PurchaseShape(p) && y.parent == Some(p.id)
    ensures CutBySale(cfg, y, p) || exists n :: q(n) && CutByNote(y, p, n)
  {
    p :| p in ps && PurchaseShape(p) && (CutBySale(cfg, y, p) || exists n :: q(n) && CutByNote(y, p, n));
  }

  lemma {:induction false} CutAgain(cfg: Config, ps: seq<Tx>, q: Tx -> bool, q': Tx -> bool, y: Tx, p: Tx)
    requires p in ps && PurchaseShape(p) && (CutBySale(cfg, y, p) || exists n :: q(n) && CutByNote(y, p, n))
    requires forall n :: q(n) ==> q'(n)
    ensures CutFrom(cfg, ps, q', y)
  {
    if n :| q(n) && CutByNote(y, p, n) { assert q'(n); }
  }

  lemma {:induction false} NoteStays(s: State, f: FinTx, root: Tx, spared: bool, n: Tx)
    requires Inv(s) && root in s.txs && root.remote == Fin(f.id) && (spared ==> !DeletesApplied(s, f))
    requires NotesIn(s.txs, spared)(n)
    ensures NotesIn(Filter(OutOfFamily(root), s.txs), spared)(n)
  {
    FilterSound(OutOfFamily(root), s.txs);
    if spared && n.id == root.id { SameIdSame(s.txs, n, root); }
  }

  lemma {:induction false} ParentStays(s: State, root: Tx, y: Tx, p: Tx)
    requires Inv(s) && root in s.txs && p in s.txs && PurchaseShape(p) && OutOfFamily(root)(y) && y.parent == Some(p.id)
    ensures p in Filter(OutOfFamily(root), s.txs)
  {
    FilterSound(OutOfFamily(root), s.txs);
    if p.id == root.id { SameIdSame(s.txs, p, root); }
  }

  lemma {:induction false} ResetSplits(cfg: Config, s: State, spared: bool)
    requires Inv(s) && (ResetLocked(s) ==> SplitsHold(cfg, s, spared))
    ensures SplitsHold(cfg, ResetState(s), spared)
  {
    if !ResetLocked(s) {
      assert ResetState(s).txs == Origin(s.txs) by { ResetGivesOrigin(s); }
      OriginMembers(s.txs);
    }
  }

  /** Since the last reset that found nothing locked, no deletion took a credit note that was applied. */
  ghost predicate SparesNotes(cfg: Config, steps: seq<Step>)
    decreases |steps|
  {
    |steps| > 0 ==>
      var init, step := steps[..|steps| - 1], steps[|steps| - 1];
      Resets(Run(cfg, init), step)
      || (SparesNotes(cfg, init) && (step.Deletion? ==> !DeletesApplied(Run(cfg, init), step.f)))
  }

  lemma {:induction false} StepSplits(cfg: Config, s: State, step: Step, spared: bool)
    requires Inv(s) && cfg.halfUnit > 0.0
    requires Resets(s, step)
             || (SplitsHold(cfg, s, spared) && (spared && step.Deletion? ==> !DeletesApplied(s, step.f)))
    ensures SplitsHold(cfg, Do(cfg, s, step), spared)
  {
    match step
    case Arrival(f, millis) => ArriveSplits(cfg, s, f, millis, spared);
    case Calculating(fin, d) =>
      if s.rebuild {
        ResetSplits(cfg, s, spared);
      } else if Calculate(cfg, fin, s, d).0.Calculated? {
        CalculateSplits(cfg, fin, s, d, spared);
      }
    case Resetting => ResetSplits(cfg, s, spared);
    case Deletion(f) => DeleteSplits(cfg, s, f, spared);
    case Locking(ids, cogs) => assert Do(cfg, s, step).txs == s.txs;
  }

  /** In every reachable state each live split was cut from a live purchase: it has the purchase's
      date and code and names it as parent. A sale's has the purchase's order, and costs its quantity
      at its logged unit cost; a credit note's carries the number of a note for that purchase, of the
      same quantity, which is in the book and checked unless a deletion took it. */
  lemma {:induction false} SplitsAreCut(cfg: Config, steps: seq<Step>, spared: bool)
    requires AdmissibleRun(cfg, steps) && cfg.halfUnit > 0.0 && (spared ==> SparesNotes(cfg, steps))
    ensures SplitsHold(cfg, Run(cfg, steps), spared)
    decreases |steps|
  {
    if |steps| > 0 {
      var init, step := steps[..|steps| - 1], steps[|steps| - 1];
      RunKeeps(cfg, init);
      if !Resets(Run(cfg, init), step) || !spared { SplitsAreCut(cfg, init, spared); }
      StepSplits(cfg, Run(cfg, init), step, spared);
    }
  }
}
