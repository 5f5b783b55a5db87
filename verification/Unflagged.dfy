/** An account without the rebuild flag is what one calculation from scratch would make of it. */
module Unflagged {
  import opened Lists
  import opened Ledger
  import opened FifoOrder
  import opened Allocation
  import opened Settlement
  import opened Staging
  import opened Calculation
  import opened Reset
  import opened Replication
  import opened Books
  import opened Collected
  import opened Commitment
  import opened ResetFacts
  import opened Runs
  import opened Restoration
  import opened Guard
  import opened LotShape
  import opened NoteForm
  import opened TwoRuns
  import opened NoteRuns
  import opened Incremental
  import opened Extras
  import opened Batch
  import opened Congruence

  /** The account with everything replicated and nothing calculated. */
  function Scratch(s: State): State { State(Origin(s.txs), [], Blank, false, {}, {}, s.nextId, 0) }

  /** The account is its replicas, or what one calculation of all of them up to its calculation
      date gives. */
  ghost predicate Correct(cfg: Config, fin: seq<FinTx>, s: State) {
    match s.calcDate.Value()
    case None => SameBook(s, Scratch(s))
    case Some(c) =>
      var r := Calculate(cfg, fin, Scratch(s), c);
      r.0.Calculated? && SameBook(s, r.1)
  }

  // ----- The scratch account -----

  lemma {:induction false} ScratchInv(s: State)
    requires Inv(s)
    ensures Inv(Scratch(s)) && Filter(IsReplica, Origin(s.txs)) == Origin(s.txs)
            && SplitsIn(Origin(s.txs)) == multiset{}
  {
    var rs := Filter(IsReplica, s.txs);
    PartKeeps(s, IsReplica);
    FilterSound(IsReplica, s.txs);
    FreshKeeps(Scratch(s), rs);
    forall t | t in Origin(s.txs) ensures IsReplica(t) {
      var i :| 0 <= i < |rs| && FreshAll(rs)[i] == t;
      assert rs[i] in rs;
      FreshShape(rs[i]);
    }
    FilterAll(IsReplica, Origin(s.txs));
    FilterNone(IsSplit, Origin(s.txs));
  }

  /** Nothing locked: a calculation that passes and has sales goes through. */
  lemma {:induction false} ScratchCalculates(cfg: Config, fin: seq<FinTx>, g: State, c: int)
    requires g.locked == {}
    ensures Passes(cfg, fin, g, c) && SalesTotal(g.txs, c) != 0.0 ==>
              Calculate(cfg, fin, g, c) == (Calculated, After1(cfg, fin, g, c))
    ensures Valid(g) && CodesApart(g.txs) && cfg.halfUnit > 0.0 && Calculate(cfg, fin, g, c).0.Calculated? ==>
              Passes(cfg, fin, g, c) && Calculate(cfg, fin, g, c).1 == After1(cfg, fin, g, c)
  {}

  lemma {:induction false} SalesNonZero(txs: seq<Tx>, d: int)
    requires AllWellFormed(txs)
    ensures SalesTotal(txs, d) > 0.0 <==> |SortedSales(txs, d)| > 0
  {
    CollectedShapes(txs, d);
    SortContents(Sales(txs, d));
    SumNonNeg(AmountOf, Sales(txs, d));
    if |Sales(txs, d)| > 0 { assert Sales(txs, d)[0] in Sales(txs, d); }
  }

  /** The account that a from-scratch calculation gives, or the scratch account before any. */
  ghost predicate Reference(cfg: Config, fin: seq<FinTx>, s: State, x: State) {
    match s.calcDate.Value()
    case None => x == Scratch(s)
    case Some(c) => Passes(cfg, fin, Scratch(s), c) && x == After1(cfg, fin, Scratch(s), c)
  }

  lemma {:induction false} CorrectReference(cfg: Config, fin: seq<FinTx>, s: State) returns (x: State)
    requires Inv(s) && Correct(cfg, fin, s) && cfg.halfUnit > 0.0
    ensures Reference(cfg, fin, s, x) && SameBook(s, x) && Valid(x) && CodesApart(x.txs)
  {
    ScratchInv(s);
    match s.calcDate.Value()
    case None =>
      x := Scratch(s);
    case Some(c) =>
      ScratchCalculates(cfg, fin, Scratch(s), c);
      x := After1(cfg, fin, Scratch(s), c);
      BookAfter(cfg, fin, Scratch(s), c);
  }

  lemma {:induction false} SameBookTrans(a: State, b: State, c: State)
    requires SameBook(a, b) && SameBook(b, c)
    ensures SameBook(a, c) && SameBook(b, a)
  {}

  /** What makes an account correct, in terms of runs that pass. */
  lemma {:induction false} CorrectAt(cfg: Config, fin: seq<FinTx>, s: State, c: int)
    requires Inv(s) && s.calcDate.Value() == Some(c) && Passes(cfg, fin, Scratch(s), c)
             && SameBook(s, After1(cfg, fin, Scratch(s), c))
    ensures Correct(cfg, fin, s)
  {
    var g := Scratch(s);
    ScratchInv(s);
    SalesNonZero(g.txs, c);
    if |SortedSales(g.txs, c)| == 0 { AfterCogs(cfg, fin, g, c); }
    ScratchCalculates(cfg, fin, g, c);
  }

  // ----- Calculations -----

  /** No collected credit note is for a purchase that was drawn on, and one run from scratch keeps
      every note that is applied. */
  ghost predicate NotesSpared(s: State, d: int) {
    s.calcDate.Value().Some? && |SortedSales(s.txs, d)| > 0 ==>
      && ForUntouched(s.txs, NotesBy(s.txs, LastDate(s.txs, d)))
      && NotesKept(Scratch(s).txs, s.calcDate.Value().value, LastDate(s.txs, d))
  }

  ghost predicate ForUntouched(txs: seq<Tx>, notes: seq<Tx>) {
    forall n, p :: n in notes && p in txs && PurchaseShape(p) && p.code == n.code ==> Untouched(p)
  }

  /** A book without open credit notes meets the conditions on credit notes. */
  lemma {:induction false} NoNotesSpared(s: State, d: int)
    requires Inv(s) && forall t :: t in s.txs ==> !NoteShape(t)
    ensures NotesInTime(s.txs, d) && NotesSpared(s, d)
  {
    NoNotesCollected(s.txs, d);
    NoNotesInTime(s.txs, d);
    if s.calcDate.Value().Some? && |SortedSales(s.txs, d)| > 0 {
      NoNotesCollected(s.txs, LastDate(s.txs, d));
      OriginNoNotes(s.txs);
      OriginKept(Origin(s.txs), s.calcDate.Value().value, LastDate(s.txs, d));
    }
  }

  lemma {:induction false} NoNotesCollected(txs: seq<Tx>, d: int)
    requires AllWellFormed(txs) && forall t :: t in txs ==> !NoteShape(t)
    ensures Notes(txs, d) == [] && NotesBy(txs, d) == []
  {
    FilterNone(OpenNotes(d), txs);
  }

  lemma {:induction false} OriginNoNotes(txs: seq<Tx>)
    requires AllWellFormed(txs) && forall t :: t in txs ==> !NoteShape(t)
    ensures forall t :: t in Origin(txs) ==> !IsCreditNote(t)
  {
    var rs := Filter(IsReplica, txs);
    FilterSound(IsReplica, txs);
    forall t | t in Origin(txs) ensures !IsCreditNote(t) {
      var i :| 0 <= i < |rs| && FreshAll(rs)[i] == t;
      assert rs[i] in rs;
      FreshShape(rs[i]);
    }
  }

  lemma {:induction false} OriginKept(txs: seq<Tx>, c: int, d: int)
    requires forall t :: t in txs ==> !IsCreditNote(t)
    ensures NotesKept(txs, c, d)
  {
    FilterNone(OpenNotes(c), txs);
    FilterNone(OpenNotes(d), txs);
  }

  /** A lot that the sales of a run change is in the book, marked. */
  lemma {:induction false} ChangedLot(cfg: Config, fin: seq<FinTx>, g: State, c: int, i: nat)
    requires Passes(cfg, fin, g, c) && i < |Opening(g.txs, c).work.lots|
    ensures var before, after := Opening(g.txs, c).work.lots, WorkOf(cfg, fin, g, c).lots;
            && |before| == |after|
            && (before[i] != after[i] ==>
                  && after[i] in After1(cfg, fin, g, c).txs && PurchaseShape(after[i])
                  && !Untouched(after[i]) && after[i].code == before[i].code)
  {
    var before, after := Opening(g.txs, c).work.lots, WorkOf(cfg, fin, g, c).lots;
    RunMoversLawful(cfg, fin);
    ProcessLots(RunMovers(cfg, fin), cfg.halfUnit, SortedSales(g.txs, c), Opening(g.txs, c).work);
    RunFrame(RunMovers(cfg, fin), SortedSales(g.txs, c), before);
    assert SameLot(before[i], after[i]);
    LotInBook(cfg, fin, g, c, i);
    if before[i] != after[i] { LotMarked(cfg, fin, g, c, i); }
  }

  lemma {:induction false} LotMarked(cfg: Config, fin: seq<FinTx>, g: State, c: int, i: nat)
    requires Passes(cfg, fin, g, c) && i < |Opening(g.txs, c).work.lots| == |WorkOf(cfg, fin, g, c).lots|
    requires Opening(g.txs, c).work.lots[i] != WorkOf(cfg, fin, g, c).lots[i]
    ensures !Untouched(WorkOf(cfg, fin, g, c).lots[i])
  {
    var movers, sales, before := RunMovers(cfg, fin), SortedSales(g.txs, c), Opening(g.txs, c).work.lots;
    ProcessLots(movers, cfg.halfUnit, sales, Opening(g.txs, c).work);
    RunMoversLawful(cfg, fin);
    RunMoversMark(cfg, fin);
    OpeningLots(g.txs, c);
    GuardCovers(g.txs, c);
    SalesPositive(g.txs, c);
    var k, m := RunShape(movers, sales, before);
    assert Drawn(before, LotsAfter(movers, sales, before), 0, k, m);
  }

  /** Credit notes for untouched purchases spare what the run from scratch drew on. */
  lemma {:induction false} ScratchSpared(cfg: Config, fin: seq<FinTx>, s: State, x: State, c: int, c': int)
    requires Inv(s) && s.calcDate.Value() == Some(c) && Reference(cfg, fin, s, x) && SameBook(s, x) && Valid(x)
    requires c <= c' && Passes(cfg, fin, x, c') && ForUntouched(s.txs, NotesBy(x.txs, c'))
    requires NotesKept(Scratch(s).txs, c, c')
    ensures InTwo(cfg, fin, Scratch(s), c, c')
  {
    var g, ns := Scratch(s), NotesBy(x.txs, c');
    var before, after := Opening(g.txs, c).work.lots, WorkOf(cfg, fin, g, c).lots;
    assert |before| == |after| by {
      RunMoversLawful(cfg, fin);
      ProcessLots(RunMovers(cfg, fin), cfg.halfUnit, SortedSales(g.txs, c), Opening(g.txs, c).work);
      RunFrame(RunMovers(cfg, fin), SortedSales(g.txs, c), before);
    }
    forall i, n | 0 <= i < |before| && before[i] != after[i] && n in ns ensures n.code != before[i].code {
      ChangedLot(cfg, fin, g, c, i);
      ReplicaShared(s.txs, x.txs, after[i]);
    }
  }

  lemma {:induction false} ReplicaShared(a: seq<Tx>, b: seq<Tx>, t: Tx)
    requires Filter(IsReplica, a) == Filter(IsReplica, b) && t in b && IsReplica(t)
    ensures t in a
  {
    FilterSound(IsReplica, a);
    FilterSound(IsReplica, b);
    assert t in Filter(IsReplica, a);
  }

  /** The sales an account still has open are dated after its calculation date. */
  lemma {:induction false} OpenSalesLater(cfg: Config, fin: seq<FinTx>, s: State, x: State, d: int)
    requires Inv(s) && Reference(cfg, fin, s, x) && SameBook(s, x) && Valid(x) && |SortedSales(s.txs, d)| > 0
    ensures s.calcDate.Value().Some? ==> s.calcDate.Value().value < LastDate(s.txs, d)
    ensures SameOpen(s.txs, x.txs, d)
  {
    SameReplicas(s.txs, x.txs, d);
    SameSettle(cfg, fin, s.txs, x.txs, d);
    if s.calcDate.Value().Some? {
      LastAfter(cfg, fin, Scratch(s), s.calcDate.Value().value, d);
    }
  }

  lemma {:induction false} LastAfter(cfg: Config, fin: seq<FinTx>, g: State, c: int, d: int)
    requires Passes(cfg, fin, g, c) && |SortedSales(After1(cfg, fin, g, c).txs, d)| > 0
    ensures c < LastDate(After1(cfg, fin, g, c).txs, d)
  {
    SalesAfter(cfg, fin, g, c, d, |SortedSales(After1(cfg, fin, g, c).txs, d)| - 1);
  }

  lemma {:induction false} CommitScratch(cfg: Config, fin: seq<FinTx>, s: State, d: int)
    requires Inv(s) && Passes(cfg, fin, s, d)
    ensures var s' := After1(cfg, fin, s, d);
            Scratch(s').txs == Scratch(s).txs && Scratch(s') == Scratch(s).(nextId := s'.nextId)
  {
    CommitOrigin(cfg, fin, s, d);
  }

  /** From a correct account, a timely calculation leaves a correct account. */
  lemma {:induction false} TimelyCorrect(cfg: Config, fin: seq<FinTx>, s: State, d: int)
    requires Inv(s) && Correct(cfg, fin, s) && Passes(cfg, fin, s, d) && |SortedSales(s.txs, d)| > 0
    requires Timely(s.txs, d) && NotesInTime(s.txs, d) && NotesSpared(s, d)
    ensures Correct(cfg, fin, After1(cfg, fin, s, d))
  {
    var c' := LastDate(s.txs, d);
    Truncated(cfg, fin, s, d);
    OneRunFromScratch(cfg, fin, s, d);
    LaterDate(cfg, fin, s, d);
    AfterCorrect(cfg, fin, s, c');
  }

  /** A run up to its last sale is correct if it makes the book that a run from scratch makes. */
  lemma {:induction false} AfterCorrect(cfg: Config, fin: seq<FinTx>, s: State, c: int)
    requires Inv(s) && Passes(cfg, fin, s, c) && After1(cfg, fin, s, c).calcDate.Value() == Some(c)
    requires Passes(cfg, fin, Scratch(s), c) && SameBook(After1(cfg, fin, s, c), After1(cfg, fin, Scratch(s), c))
    ensures Correct(cfg, fin, After1(cfg, fin, s, c))
  {
    var s' := After1(cfg, fin, s, c);
    CommitScratch(cfg, fin, s, c);
    AfterInv(cfg, fin, s, c);
    ScratchInv(s');
    assert SameBook(Scratch(s), Scratch(s'));
    SameAfter(cfg, fin, Scratch(s), Scratch(s'), c);
    SameBookTrans(s', After1(cfg, fin, Scratch(s), c), After1(cfg, fin, Scratch(s'), c));
    CorrectAt(cfg, fin, s', c);
  }

  /** From scratch, one run up to the last sale makes the book that the account then has. */
  lemma {:induction false} OneRunFromScratch(cfg: Config, fin: seq<FinTx>, s: State, d: int)
    requires Inv(s) && Correct(cfg, fin, s) && |SortedSales(s.txs, d)| > 0 && NotesSpared(s, d)
    requires Passes(cfg, fin, s, LastDate(s.txs, d))
    ensures var c' := LastDate(s.txs, d);
            Passes(cfg, fin, Scratch(s), c') && SameBook(After1(cfg, fin, s, c'), After1(cfg, fin, Scratch(s), c'))
  {
    var c', g := LastDate(s.txs, d), Scratch(s);
    var x := CorrectReference(cfg, fin, s);
    SameAfter(cfg, fin, s, x, c');
    OpenSalesLater(cfg, fin, s, x, d);
    if s.calcDate.Value().Some? {
      SameReplicas(s.txs, x.txs, c');
      ScratchSpared(cfg, fin, s, x, s.calcDate.Value().value, c');
      TwoRunsOneBook(cfg, fin, g, s.calcDate.Value().value, c');
      SameBookTrans(After1(cfg, fin, s, c'), After1(cfg, fin, x, c'), After1(cfg, fin, g, c'));
    }
  }

  lemma {:induction false} AfterInv(cfg: Config, fin: seq<FinTx>, s: State, d: int)
    requires Inv(s) && Passes(cfg, fin, s, d)
    ensures Inv(After1(cfg, fin, s, d))
  {
    CommitValid(cfg, fin, s, d);
    CommitCogs(cfg, fin, s, d);
    CommitRemotes(cfg, fin, s, d);
  }

  /** From a correct account, an untimely calculation goes through although the same calculation
      from scratch fails for want of purchases. */
  lemma {:induction false} UntimelyFails(cfg: Config, fin: seq<FinTx>, s: State, d: int)
    requires Inv(s) && Correct(cfg, fin, s) && Passes(cfg, fin, s, d) && |SortedSales(s.txs, d)| > 0
             && !Timely(s.txs, d)
    ensures var s' := After1(cfg, fin, s, d);
            s'.calcDate.Value() == Some(LastDate(s.txs, d))
              && Calculate(cfg, fin, Scratch(s'), LastDate(s.txs, d)).0.QuantityError?
  {
    var c', g := LastDate(s.txs, d), Scratch(After1(cfg, fin, s, d));
    assert After1(cfg, fin, s, d).calcDate.Value() == Some(c') by { LaterDate(cfg, fin, s, d); }
    assert g.txs == Scratch(s).txs by { CommitScratch(cfg, fin, s, d); }
    assert SalesTotal(s.txs, c') > 0.0 by {
      SalesUpToLast(s.txs, d);
      SalesNonZero(s.txs, d);
    }
    assert SalesTotal(g.txs, c') >= SalesTotal(s.txs, c') && SalesTotal(g.txs, c') > PurchasesTotal(g.txs, c') by {
      StockFromScratch(cfg, fin, s, d);
    }
    ShortOfStock(cfg, fin, g, c');
  }

  lemma {:induction false} ShortOfStock(cfg: Config, fin: seq<FinTx>, s: State, d: int)
    requires SalesTotal(s.txs, d) > 0.0 && SalesTotal(s.txs, d) > PurchasesTotal(s.txs, d)
    ensures Calculate(cfg, fin, s, d).0.QuantityError?
  {}

  /** The calculation date moves to the last sale. */
  lemma {:induction false} LaterDate(cfg: Config, fin: seq<FinTx>, s: State, d: int)
    requires Inv(s) && Correct(cfg, fin, s) && Passes(cfg, fin, s, d) && |SortedSales(s.txs, d)| > 0
    ensures After1(cfg, fin, s, d).calcDate.Value() == Some(LastDate(s.txs, d))
  {
    var x := CorrectReference(cfg, fin, s);
    OpenSalesLater(cfg, fin, s, x, d);
    AfterCogs(cfg, fin, s, d);
  }

  /** The stock of a correct account is that of its scratch account, and its sales are among those
      of its scratch account. */
  lemma {:induction false} StockFromScratch(cfg: Config, fin: seq<FinTx>, s: State, d: int)
    requires Inv(s) && Correct(cfg, fin, s) && cfg.halfUnit > 0.0 && |SortedSales(s.txs, d)| > 0
    ensures var c := LastDate(s.txs, d);
            Stock(s.txs, c) == Stock(Scratch(s).txs, c) && SalesTotal(s.txs, c) <= SalesTotal(Scratch(s).txs, c)
  {
    var c' := LastDate(s.txs, d);
    var x := CorrectReference(cfg, fin, s);
    OpenSalesLater(cfg, fin, s, x, d);
    assert Stock(s.txs, c') == Stock(x.txs, c') && SalesTotal(s.txs, c') == SalesTotal(x.txs, c') by {
      SameReplicas(s.txs, x.txs, c');
      SameSettle(cfg, fin, s.txs, x.txs, c');
    }
    if s.calcDate.Value().Some? { StockAfter(cfg, fin, Scratch(s), s.calcDate.Value().value, c'); }
  }

  lemma {:induction false} StockAfter(cfg: Config, fin: seq<FinTx>, g: State, c: int, d: int)
    requires Passes(cfg, fin, g, c) && c <= d
    ensures Stock(After1(cfg, fin, g, c).txs, d) == Stock(g.txs, d)
            && SalesTotal(After1(cfg, fin, g, c).txs, d) <= SalesTotal(g.txs, d)
  {
    StockKept(cfg, fin, g, c, d);
    SalesSum(cfg, fin, g, c, d);
    SumAmounts(Sales(g.txs, c));
  }

  /** When a calculation keeps an account correct: exactly when the sales it settles are covered
      by purchases dated no later than the last of them; its credit notes, if any, are in time and
      spare the purchases that were drawn on. */
  lemma {:induction false} CorrectIffTimely(cfg: Config, fin: seq<FinTx>, s: State, d: int)
    requires Inv(s) && Correct(cfg, fin, s) && cfg.halfUnit > 0.0 && Calculate(cfg, fin, s, d).0.Calculated?
    requires NotesInTime(s.txs, d) && NotesSpared(s, d)
    ensures Correct(cfg, fin, Calculate(cfg, fin, s, d).1) <==> Timely(s.txs, d)
  {
    OnePasses(cfg, fin, s, d);
    SumAmounts(Sales(s.txs, d));
    SalesNonZero(s.txs, d);
    if Timely(s.txs, d) {
      TimelyCorrect(cfg, fin, s, d);
    } else {
      UntimelyFails(cfg, fin, s, d);
    }
  }

  // ----- Arrivals -----

  /** A run on a book of replicas only. */
  lemma {:induction false} ScratchAfter(cfg: Config, fin: seq<FinTx>, s: State, c: int)
    requires Inv(s) && Passes(cfg, fin, Scratch(s), c)
    ensures var g := Scratch(s);
            var x, w := After1(cfg, fin, g, c), WorkOf(cfg, fin, g, c);
            && Filter(IsReplica, x.txs) == Apply(w.updates, g.txs) && SplitsIn(x.txs) == multiset(ErasedAll(w.created))
            && x.cogs == w.cogs && x.calcDate == NewCalcDate(Blank, SortedSales(g.txs, c))
  {
    ScratchInv(s);
    CommitReplicas(cfg, fin, Scratch(s), c);
    CommitSplits(cfg, fin, Scratch(s), c);
    AfterCogs(cfg, fin, Scratch(s), c);
  }

  /** Two accounts whose scratch books agree up to `c`, and whose books differ as those do. */
  lemma {:induction false} CorrectAlike(cfg: Config, fin: seq<FinTx>, s: State, s': State, c: int)
    requires Inv(s) && Inv(s') && cfg.halfUnit > 0.0 && s.calcDate.Value() == s'.calcDate.Value() == Some(c)
             && Correct(cfg, fin, s)
    requires SameOpen(Scratch(s).txs, Scratch(s').txs, c)
    requires SplitsIn(s'.txs) == SplitsIn(s.txs) && s'.cogs == s.cogs
    requires Passes(cfg, fin, Scratch(s), c) ==>
               Filter(IsReplica, s'.txs) == Apply(WorkOf(cfg, fin, Scratch(s), c).updates, Scratch(s').txs)
    ensures Correct(cfg, fin, s')
  {
    var x := CorrectReference(cfg, fin, s);
    ScratchInv(s);
    ScratchInv(s');
    SameSettle(cfg, fin, Scratch(s).txs, Scratch(s').txs, c);
    ScratchAfter(cfg, fin, s, c);
    ScratchAfter(cfg, fin, s', c);
    CorrectAt(cfg, fin, s', c);
  }

  lemma {:induction false} OriginAdds(txs: seq<Tx>, t: Tx)
    requires IsReplica(t) && Fresh(t) == t
    ensures Origin(txs + [t]) == Origin(txs) + [t] && Filter(IsReplica, txs + [t]) == Filter(IsReplica, txs) + [t]
    ensures SplitsIn(txs + [t]) == SplitsIn(txs)
  {
    FilterSnoc(IsReplica, txs, t);
    FilterSnoc(IsSplit, txs, t);
  }

  /** An arrival that does not flag a correct account leaves it correct, as far as the extras that
      were read before it go. */
  lemma {:induction false} ArriveKeepsCorrect(cfg: Config, fin: seq<FinTx>, s: State, f: FinTx, millis: nat)
    requires Inv(s) && Admissible(s, Arrival(f, millis)) && Correct(cfg, fin, s) && cfg.halfUnit > 0.0
    requires !Arrive(s, f, millis).rebuild
    ensures Correct(cfg, fin, Arrive(s, f, millis))
  {
    var s' := Arrive(s, f, millis);
    if s' != s {
      var t := Replica(f, s.nextId, millis).value;
      ReplicaShape(f, s.nextId, millis);
      OriginAdds(s.txs, t);
      ArriveKeeps(s, f, millis);
      match s.calcDate.Value()
      case None =>
        ScratchInv(s);
        ScratchInv(s');
      case Some(c) =>
        LaterAdded(Scratch(s).txs, t, c);
        if Passes(cfg, fin, Scratch(s), c) { AddedUnstaged(cfg, fin, s, s', t, c); }
        CorrectAlike(cfg, fin, s, s', c);
    }
  }

  lemma {:induction false} AddedUnstaged(cfg: Config, fin: seq<FinTx>, s: State, s': State, t: Tx, c: int)
    requires Inv(s) && Inv(s') && Passes(cfg, fin, Scratch(s), c) && Correct(cfg, fin, s)
             && s.calcDate.Value() == Some(c) && cfg.halfUnit > 0.0
    requires Scratch(s').txs == Scratch(s).txs + [t] && t.date > c && SameOpen(Scratch(s).txs, Scratch(s').txs, c)
    requires Filter(IsReplica, s'.txs) == Filter(IsReplica, s.txs) + [t]
    ensures Filter(IsReplica, s'.txs) == Apply(WorkOf(cfg, fin, Scratch(s), c).updates, Scratch(s').txs)
  {
    var x := CorrectReference(cfg, fin, s);
    ScratchInv(s');
    ScratchAfter(cfg, fin, s, c);
    SameSettle(cfg, fin, Scratch(s).txs, Scratch(s').txs, c);
    Uncollected(cfg, fin, Scratch(s'), c, t);
    var u := WorkOf(cfg, fin, Scratch(s), c).updates;
    ApplyAppend(u, Scratch(s).txs, [t]);
    ApplyOther(u, [t]);
  }

  // ----- Deletions -----

  ghost predicate ParentsAmong(xs: seq<Tx>, lots: seq<Tx>) {
    forall i :: 0 <= i < |xs| ==> xs[i].parent.Some? && Among(xs[i].parent.value, lots)
  }

  lemma {:induction false} PiecesParents(moves: seq<Move>, lots: seq<Tx>)
    requires forall m :: m in moves ==>
               m.before in lots && (m.piece.Some? ==> m.piece.value.parent == Some(m.before.id))
    ensures ParentsAmong(Pieces(moves), lots)
  {
    if |moves| > 0 {
      var m := moves[|moves| - 1];
      assert m in moves;
      PiecesParents(moves[..|moves| - 1], lots);
      var i :| 0 <= i < |lots| && lots[i] == m.before;
      assert Among(m.before.id, lots);
    }
  }

  /** Every split of a run names one of its lots. */
  lemma {:induction false} RunParents(cfg: Config, fin: seq<FinTx>, sales: seq<Tx>, lots: seq<Tx>)
    ensures ParentsAmong(ProcessSales(RunMovers(cfg, fin), cfg.halfUnit, sales, Start(lots)).created, lots)
    decreases |sales|
  {
    if |sales| > 0 {
      var init, sale := sales[..|sales| - 1], sales[|sales| - 1];
      var movers := RunMovers(cfg, fin);
      RunParents(cfg, fin, init, lots);
      ProcessLots(movers, cfg.halfUnit, init, Start(lots));
      var mid := LotsAfter(movers, init, lots);
      DrawParents(cfg, fin, sale, mid);
      RunMoversLawful(cfg, fin);
      RunFrame(movers, init, lots);
      AmongSameAll(Pieces(DrawFor(movers, sale, mid).moves), mid, lots);
    }
  }

  lemma {:induction false} AmongSameAll(xs: seq<Tx>, mid: seq<Tx>, lots: seq<Tx>)
    requires ParentsAmong(xs, mid) && SameLots(lots, mid)
    ensures ParentsAmong(xs, lots)
  {
    forall i | 0 <= i < |xs| ensures Among(xs[i].parent.value, lots) {
      var k :| 0 <= k < |mid| && mid[k].id == xs[i].parent.value;
      assert SameLot(lots[k], mid[k]);
      assert lots[k].id == xs[i].parent.value;
    }
  }

  lemma {:induction false} DrawParents(cfg: Config, fin: seq<FinTx>, sale: Tx, lots: seq<Tx>)
    ensures ParentsAmong(Pieces(DrawFor(RunMovers(cfg, fin), sale, lots).moves), lots)
  {
    var mover := SaleMover(cfg, fin, sale);
    var p := (m: Move) => m.piece.Some? ==> m.piece.value.parent == Some(m.before.id);
    SaleMoverLawful(cfg, fin, sale);
    forall n: Quantity, lot: Tx | !lot.checked && lot in lots ensures p(mover(n, lot)) {
      assert mover(n, lot) == MoveOn(cfg, fin, sale, n, lot);
    }
    TakeMoves(mover, sale.amount, lots, p);
    PiecesParents(Take(mover, sale.amount, lots).moves, lots);
  }

  /** The splits of a correct account name lots up to its calculation date. */
  lemma {:induction false} SplitParents(cfg: Config, fin: seq<FinTx>, s: State, x: State, y: Tx)
    requires Inv(s) && Reference(cfg, fin, s, x) && SameBook(s, x) && y in s.txs && IsSplit(y)
    ensures s.calcDate.Value().Some? && Among(y.parent.value, Lots(Scratch(s).txs, s.calcDate.Value().value))
  {
    SplitCounted(s.txs, y);
    ScratchInv(s);
    assert s.calcDate.Value().Some?;
    var c := s.calcDate.Value().value;
    ScratchAfter(cfg, fin, s, c);
    ScratchParents(cfg, fin, s, c);
    NamesALot(WorkOf(cfg, fin, Scratch(s), c).created, Lots(Scratch(s).txs, c), y);
  }

  lemma {:induction false} SplitCounted(txs: seq<Tx>, y: Tx)
    requires y in txs && IsSplit(y)
    ensures Erased(y) in SplitsIn(txs)
  {
    var ys := Filter(IsSplit, txs);
    FilterSound(IsSplit, txs);
    assert y in ys;
    var i :| 0 <= i < |ys| && ys[i] == y;
    assert ErasedAll(ys)[i] in multiset(ErasedAll(ys));
  }

  lemma {:induction false} ScratchParents(cfg: Config, fin: seq<FinTx>, s: State, c: int)
    requires Inv(s) && Passes(cfg, fin, Scratch(s), c)
    ensures ParentsAmong(WorkOf(cfg, fin, Scratch(s), c).created, Lots(Scratch(s).txs, c))
  {
    var g := Scratch(s);
    var ns, ps, ls, lots := NotesBy(g.txs, c), Purchases(g.txs, c), Lots(g.txs, c), Opening(g.txs, c).work.lots;
    OpeningForm(g.txs, c);
    FirstWork(cfg, fin, g, c);
    RunParents(cfg, fin, SortedSales(g.txs, c), lots);
    SplitsParents(ns, ps);
    SortContents(ps);
    forall id | Among(id, lots) || Among(id, ps) ensures Among(id, ls) { LotIds(ns, ps, ls, id); }
  }

  lemma {:induction false} LotIds(notes: seq<Tx>, ps: seq<Tx>, ls: seq<Tx>, id: nat)
    requires (forall t :: t in ps ==> t in ls) && (Among(id, AdjustAll(notes, ls)) || Among(id, ps))
    ensures Among(id, ls)
  {
    if Among(id, ps) {
      var i :| 0 <= i < |ps| && ps[i].id == id;
      assert ps[i] in ls;
      var k :| 0 <= k < |ls| && ls[k] == ps[i];
    } else {
      var i :| 0 <= i < |ls| && AdjustAll(notes, ls)[i].id == id;
      assert ls[i].id == id;
    }
  }

  lemma {:induction false} SplitsParents(notes: seq<Tx>, lots: seq<Tx>)
    ensures ParentsAmong(SplitsOf(notes, lots), lots)
  {
    if |notes| > 0 {
      SplitsParents(notes[..|notes| - 1], lots);
      var n := notes[|notes| - 1];
      if Matched(lots, n) { assert Among(lots[IndexOf(lots, n.code)].id, lots); }
    }
  }

  lemma {:induction false} NamesALot(created: seq<Tx>, lots: seq<Tx>, y: Tx)
    requires ParentsAmong(created, lots) && Erased(y) in multiset(ErasedAll(created))
    ensures y.parent.Some? && Among(y.parent.value, lots)
  {
    assert Erased(y) in ErasedAll(created);
    var k :| 0 <= k < |created| && ErasedAll(created)[k] == Erased(y);
    assert created[k].parent == y.parent;
  }

  /** A replica after the calculation date is as posted, and nothing names it. */
  lemma {:induction false} RootLater(cfg: Config, fin: seq<FinTx>, s: State, x: State, t: Tx)
    requires Inv(s) && Reference(cfg, fin, s, x) && SameBook(s, x) && t in s.txs && IsReplica(t)
    requires !Stale(s.calcDate, t.date)
    ensures Fresh(t) == t && forall y :: y in s.txs ==> y.parent != Some(t.id)
  {
    var g, rs := Scratch(s), Filter(IsReplica, s.txs);
    FilterSound(IsReplica, s.txs);
    assert t in rs;
    var i :| 0 <= i < |rs| && rs[i] == t;
    var t0 := g.txs[i];
    assert t0 in g.txs && t0 == Fresh(t);
    ScratchInv(s);
    match s.calcDate.Value() {
      case None =>
      case Some(c) =>
        ScratchAfter(cfg, fin, s, c);
        Uncollected(cfg, fin, g, c, t0);
        assert Apply(WorkOf(cfg, fin, g, c).updates, g.txs)[i] == t0;
    }
    forall y | y in s.txs ensures y.parent != Some(t.id) {
      if y.parent == Some(t.id) {
        SplitParents(cfg, fin, s, x, y);
        NotALot(g.txs, s.calcDate.Value().value, t0);
      }
    }
  }

  lemma {:induction false} NotALot(txs: seq<Tx>, c: int, t: Tx)
    requires Distinct(IdOf, txs) && t in txs && t.date > c
    ensures !Among(t.id, Lots(txs, c))
  {
    SortContents(Purchases(txs, c));
    FilterSound(OpenPurchases(c), txs);
    NotAmong(txs, Lots(txs, c), t);
  }

  lemma {:induction false} NothingDropped(cogs: seq<Cogs>, id: nat)
    requires forall c :: c in cogs ==> c.sale != id
    ensures DropFirst(cogs, id) == cogs
    decreases |cogs|
  {
    if |cogs| > 0 {
      assert cogs[0] in cogs;
      NothingDropped(cogs[1..], id);
    }
  }

  /** Deleting a replica that nothing was drawn from takes it alone. */
  lemma {:induction false} DeleteAlone(s: State, f: FinTx, t: Tx)
    requires Inv(s) && t in s.txs && t.remote == Fin(f.id) && f.posted && IsPurchaseDocument(f)
    requires !t.checked && forall y :: y in s.txs ==> y.parent != Some(t.id)
    ensures var s' := Delete(s, f);
            && Filter(IsReplica, s'.txs) == Filter(OtherRemote(f.id), Filter(IsReplica, s.txs))
            && SplitsIn(s'.txs) == SplitsIn(s.txs) && s'.cogs == s.cogs && s'.calcDate == s.calcDate
            && s'.rebuild == (s.rebuild || ((IsSale(t) || IsPurchase(t)) && Stale(s.calcDate, t.date)))
  {
    var found := Filter(HasRemote(f.id), s.txs);
    FilterSound(HasRemote(f.id), s.txs);
    assert t in found && found[0] in found;
    SameRemote(s.txs, found[0], t);
    FamilyOfReplicas(s, t, f.id);
    FilterTwice(OutOfFamily(t), IsSplit, IsSplit, s.txs);
    forall c | c in s.cogs ensures c.sale != t.id {
      assert HasSale(s.txs, c);
      var z :| z in s.txs && CostsSale(c, z);
      if z.id == t.id { SameIdSame(s.txs, z, t); }
    }
    NothingDropped(s.cogs, t.id);
  }

  lemma {:induction false} OriginDeleted(s: State, s': State, id: nat)
    requires Filter(IsReplica, s'.txs) == Filter(OtherRemote(id), Filter(IsReplica, s.txs))
    ensures Scratch(s').txs == Filter(OtherRemote(id), Scratch(s).txs)
  {
    FreshOthers(id, Filter(IsReplica, s.txs));
  }

  lemma {:induction false} FreshOthers(id: nat, rs: seq<Tx>)
    ensures FreshAll(Filter(OtherRemote(id), rs)) == Filter(OtherRemote(id), FreshAll(rs))
  {
    if |rs| > 0 {
      var init := rs[..|rs| - 1];
      FreshOthers(id, init);
      assert FreshAll(rs)[..|rs| - 1] == FreshAll(init);
    }
  }

  /** The deleted document was not replicated as a credit note up to the calculation date. */
  ghost predicate DeletesNoNote(s: State, f: FinTx) {
    forall t :: t in s.txs && t.remote == Fin(f.id) && NoteShape(t) ==> !Stale(s.calcDate, t.date)
  }

  /** A deletion that does not flag a correct account leaves it correct, as far as the extras that
      were read before it go. */
  lemma {:induction false} DeleteKeepsCorrect(cfg: Config, fin: seq<FinTx>, s: State, f: FinTx)
    requires Inv(s) && Correct(cfg, fin, s) && cfg.halfUnit > 0.0 && !Delete(s, f).rebuild && DeletesNoNote(s, f)
    ensures Correct(cfg, fin, Delete(s, f))
  {
    var found := Filter(HasRemote(f.id), s.txs);
    if f.posted && IsPurchaseDocument(f) && |found| > 0 {
      DeleteNotStale(s, f);
      DeleteFoundCorrect(cfg, fin, s, f, found[0]);
    }
  }

  lemma {:induction false} DeleteNotStale(s: State, f: FinTx)
    requires Inv(s) && !Delete(s, f).rebuild && f.posted && IsPurchaseDocument(f)
             && |Filter(HasRemote(f.id), s.txs)| > 0
    requires DeletesNoNote(s, f)
    ensures var t := Filter(HasRemote(f.id), s.txs)[0];
            t in s.txs && t.remote == Fin(f.id) && IsReplica(t) && !Stale(s.calcDate, t.date)
  {
    FilterSound(HasRemote(f.id), s.txs);
    var t := Filter(HasRemote(f.id), s.txs)[0];
    assert t in Filter(HasRemote(f.id), s.txs) && WellFormed(t);
  }

  lemma {:induction false} DeleteFoundCorrect(cfg: Config, fin: seq<FinTx>, s: State, f: FinTx, t: Tx)
    requires Inv(s) && Correct(cfg, fin, s) && cfg.halfUnit > 0.0 && f.posted && IsPurchaseDocument(f)
    requires t in s.txs && t.remote == Fin(f.id) && IsReplica(t) && !Stale(s.calcDate, t.date)
    ensures Correct(cfg, fin, Delete(s, f))
  {
    var x := CorrectReference(cfg, fin, s);
    var s' := Delete(s, f);
    RootLater(cfg, fin, s, x, t);
    DeleteKeeps(s, f);
    DeleteAlone(s, f, t);
    OriginDeleted(s, s', f.id);
    DeletedCorrect(cfg, fin, s, s', x, t, f.id);
  }

  lemma {:induction false} DeletedCorrect(cfg: Config, fin: seq<FinTx>, s: State, s': State, x: State, t: Tx, id: nat)
    requires Inv(s) && Inv(s') && Correct(cfg, fin, s) && cfg.halfUnit > 0.0 && Reference(cfg, fin, s, x)
             && SameBook(s, x)
    requires t in s.txs && t.remote == Fin(id) && !Stale(s.calcDate, t.date)
    requires Filter(IsReplica, s'.txs) == Filter(OtherRemote(id), Filter(IsReplica, s.txs))
             && SplitsIn(s'.txs) == SplitsIn(s.txs)
    requires s'.cogs == s.cogs && s'.calcDate == s.calcDate
             && Scratch(s').txs == Filter(OtherRemote(id), Scratch(s).txs)
    ensures Correct(cfg, fin, s')
  {
    ScratchInv(s);
    ScratchInv(s');
    match s.calcDate.Value()
    case None =>
    case Some(c) =>
      OnlyReplica(s, t, id, c);
      LaterDropped(OtherRemote(id), Scratch(s).txs, c);
      ScratchAfter(cfg, fin, s, c);
      KeepsRemotes(cfg, fin, Scratch(s), c, id);
      CorrectAlike(cfg, fin, s, s', c);
  }

  /** The deleted replica is the only one of its document. */
  lemma {:induction false} OnlyReplica(s: State, t: Tx, id: nat, c: int)
    requires Inv(s) && t in s.txs && t.remote == Fin(id) && t.date > c
    ensures forall y :: y in Scratch(s).txs && !OtherRemote(id)(y) ==> y.date > c
  {
    var rs := Filter(IsReplica, s.txs);
    FilterSound(IsReplica, s.txs);
    forall y | y in Scratch(s).txs && !OtherRemote(id)(y) ensures y.date > c {
      var i :| 0 <= i < |rs| && Fresh(rs[i]) == y;
      assert rs[i] in rs;
      SameRemote(s.txs, rs[i], t);
    }
  }

  lemma {:induction false} KeepsRemotes(cfg: Config, fin: seq<FinTx>, g: State, c: int, id: nat)
    requires Passes(cfg, fin, g, c)
    ensures var u := WorkOf(cfg, fin, g, c).updates;
            Filter(OtherRemote(id), Apply(u, g.txs)) == Apply(u, Filter(OtherRemote(id), g.txs))
  {
    var u := WorkOf(cfg, fin, g, c).updates;
    forall t | t in g.txs ensures OtherRemote(id)(Lookup(u, t)) == OtherRemote(id)(t) {
      InBookAfter(cfg, fin, g, c, t);
      EvolvesShape(t, Lookup(u, t));
    }
    FilterKept(OtherRemote(id), u, g.txs);
  }

  // ----- Resets -----

  lemma {:induction false} ResetCorrect(cfg: Config, fin: seq<FinTx>, s: State)
    requires Inv(s) && (ResetLocked(s) ==> Correct(cfg, fin, s))
    ensures Correct(cfg, fin, ResetState(s))
  {
    if !ResetLocked(s) {
      ResetGivesOrigin(s);
      OriginTwice(s.txs);
      NothingCalculated(cfg, fin, ResetState(s));
    }
  }

  /** Nothing calculated yet, the account is correct. */
  lemma {:induction false} NothingCalculated(cfg: Config, fin: seq<FinTx>, s: State)
    requires s.calcDate.Value() == None && s.cogs == [] && Origin(s.txs) == s.txs
    ensures Correct(cfg, fin, s)
  {}

  // ----- Every run -----

  /** Histories in which, since the last reset that found nothing locked, every calculation that
      went through was timely, its credit notes in time and for purchases that were not drawn on,
      and read of the purchases that it first drew on the extras that `fin` holds of them; and no
      deletion took a credit note that was calculated with. */
  ghost predicate OrdinaryRun(cfg: Config, fin: seq<FinTx>, steps: seq<Step>)
    decreases |steps|
  {
    |steps| > 0 ==>
      var init, step := steps[..|steps| - 1], steps[|steps| - 1];
      Resets(Run(cfg, init), step) || (OrdinaryRun(cfg, fin, init) && OrdinaryStep(cfg, fin, Run(cfg, init), step))
  }

  ghost predicate OrdinaryStep(cfg: Config, fin: seq<FinTx>, s: State, step: Step) {
    && (step.Calculating? ==>
          TimelyStep(cfg, step.fin, s, step.toDate) && SparingStep(cfg, step.fin, fin, s, step.toDate))
    && (step.Deletion? ==> DeletesNoNote(s, step.f))
  }

  ghost predicate TimelyStep(cfg: Config, fin: seq<FinTx>, s: State, d: int) {
    !s.rebuild && Calculate(cfg, fin, s, d).0.Calculated? ==> Timely(s.txs, d) && NotesInTime(s.txs, d)
  }

  ghost predicate SparingStep(cfg: Config, read: seq<FinTx>, fin: seq<FinTx>, s: State, d: int) {
    !s.rebuild && Calculate(cfg, read, s, d).0.Calculated? ==> NotesSpared(s, d) && SameExtras(cfg, read, fin, s, d)
  }

  ghost predicate StaysCorrect(cfg: Config, fin: seq<FinTx>, s: State) { !s.rebuild ==> Correct(cfg, fin, s) }

  lemma {:induction false} CalculateKept(cfg: Config, read: seq<FinTx>, fin: seq<FinTx>, s: State, d: int)
    requires Inv(s) && StaysCorrect(cfg, fin, s) && cfg.halfUnit > 0.0 && TimelyStep(cfg, read, s, d)
             && SparingStep(cfg, read, fin, s, d)
    ensures StaysCorrect(cfg, fin, CalculateAccount(cfg, read, s, d).1)
  {
    if s.rebuild {
      ResetKept(cfg, fin, s);
    } else if Calculate(cfg, read, s, d).0.Calculated? {
      CalculateAlike(cfg, read, fin, s, d);
      CorrectIffTimely(cfg, fin, s, d);
    }
  }

  lemma {:induction false} ResetKept(cfg: Config, fin: seq<FinTx>, s: State)
    requires Inv(s) && (ResetLocked(s) ==> StaysCorrect(cfg, fin, s))
    ensures StaysCorrect(cfg, fin, ResetState(s))
  {
    if !ResetState(s).rebuild { ResetCorrect(cfg, fin, s); }
  }

  lemma {:induction false} StepCorrect(cfg: Config, fin: seq<FinTx>, s: State, step: Step)
    requires Inv(s) && Admissible(s, step) && cfg.halfUnit > 0.0
    requires Resets(s, step) || (OrdinaryStep(cfg, fin, s, step) && StaysCorrect(cfg, fin, s))
    ensures StaysCorrect(cfg, fin, Do(cfg, s, step))
  {
    match step
    case Arrival(f, millis) => if !Arrive(s, f, millis).rebuild { ArriveKeepsCorrect(cfg, fin, s, f, millis); }
    case Calculating(read, d) =>
      if Resets(s, step) { ResetKept(cfg, fin, s); } else { CalculateKept(cfg, read, fin, s, d); }
    case Resetting => ResetKept(cfg, fin, s);
    case Deletion(f) => if !Delete(s, f).rebuild { DeleteKeepsCorrect(cfg, fin, s, f); }
    case Locking(ids, cogs) =>
  }

  lemma {:induction false} EmptyCorrect(cfg: Config, fin: seq<FinTx>)
    ensures Correct(cfg, fin, EMPTY)
  {
    assert Origin([]) == [];
    NothingCalculated(cfg, fin, EMPTY);
  }

  /** Unflagged means correct: after every such history, whatever Financial Book each calculation
      found, an account without the rebuild flag equals one calculation from scratch with `fin`, up
      to its calculation date, of all its replicas. */
  lemma {:induction false} UnflaggedIsCorrect(cfg: Config, fin: seq<FinTx>, steps: seq<Step>)
    requires AdmissibleRun(cfg, steps) && OrdinaryRun(cfg, fin, steps) && cfg.halfUnit > 0.0
    ensures !Run(cfg, steps).rebuild ==> Correct(cfg, fin, Run(cfg, steps))
    decreases |steps|
  {
    if |steps| == 0 {
      EmptyCorrect(cfg, fin);
    } else {
      var init, step := steps[..|steps| - 1], steps[|steps| - 1];
      RunKeeps(cfg, init);
      if !Resets(Run(cfg, init), step) { UnflaggedIsCorrect(cfg, fin, init); }
      StepCorrect(cfg, fin, Run(cfg, init), step);
    }
  }
}
