/** What a second calculation finds in the book the first one left. */
module TwoRuns {
  import opened Lists
  import opened Ledger
  import opened FifoOrder
  import opened Settlement
  import opened Staging
  import opened Calculation
  import opened Books
  import opened Collected
  import opened Commitment
  import opened Guard
  import opened NoteForm

  /** A calculation up to `d` goes through, locks aside. */
  ghost predicate Passes(cfg: Config, fin: seq<FinTx>, s: State, d: int) {
    && Valid(s) && CodesApart(s.txs) && cfg.halfUnit > 0.0
    && SalesTotal(s.txs, d) <= PurchasesTotal(s.txs, d) && Settle(cfg, fin, s.txs, d).Ok?
  }

  function WorkOf(cfg: Config, fin: seq<FinTx>, s: State, d: int): Work
    requires Settle(cfg, fin, s.txs, d).Ok?
  {
    Settle(cfg, fin, s.txs, d).work
  }

  function After1(cfg: Config, fin: seq<FinTx>, s: State, d: int): State
    requires Settle(cfg, fin, s.txs, d).Ok?
  {
    Commit(s, Settle(cfg, fin, s.txs, d).work, SortedSales(s.txs, d))
  }

  /** The book after a calculation: the old transactions updated, then checked splits. */
  lemma {:induction false} BookAfter(cfg: Config, fin: seq<FinTx>, s: State, d: int)
    requires Passes(cfg, fin, s, d)
    ensures var w := WorkOf(cfg, fin, s, d);
            && After1(cfg, fin, s, d).txs == Apply(w.updates, s.txs) + Posted(w.created, s)
            && AllSplits(Posted(w.created, s)) && AllEvolve(s.txs, Apply(w.updates, s.txs))
            && Valid(After1(cfg, fin, s, d)) && CodesApart(After1(cfg, fin, s, d).txs)
  {
    CommitBook(cfg, fin, s, d);
    CommitValid(cfg, fin, s, d);
  }

  /** Splits are never collected. */
  lemma {:induction false} SplitsNotCollected(xs: seq<Tx>, d: int)
    requires AllSplits(xs)
    ensures Filter(OpenSales(d), xs) == [] && Filter(OpenPurchases(d), xs) == [] && Filter(OpenNotes(d), xs) == []
  {
    forall t | t in xs ensures t.checked { var i :| 0 <= i < |xs| && xs[i] == t; assert SplitShape(xs[i]); }
    FilterNone(OpenSales(d), xs);
    FilterNone(OpenPurchases(d), xs);
    FilterNone(OpenNotes(d), xs);
  }

  lemma {:induction false} CollectedAfter(cfg: Config, fin: seq<FinTx>, s: State, d1: int, d2: int)
    requires Passes(cfg, fin, s, d1)
    ensures var s1, u := After1(cfg, fin, s, d1), WorkOf(cfg, fin, s, d1).updates;
            && Sales(s1.txs, d2) == Sales(Apply(u, s.txs), d2)
            && Purchases(s1.txs, d2) == Purchases(Apply(u, s.txs), d2)
            && Notes(s1.txs, d2) == Notes(Apply(u, s.txs), d2)
  {
    BookAfter(cfg, fin, s, d1);
    var xs, posted := Apply(WorkOf(cfg, fin, s, d1).updates, s.txs), Posted(WorkOf(cfg, fin, s, d1).created, s);
    SplitsNotCollected(posted, d2);
    FilterAppend(OpenSales(d2), xs, posted);
    FilterAppend(OpenPurchases(d2), xs, posted);
    FilterAppend(OpenNotes(d2), xs, posted);
  }

  // ----- Sales -----

  /** The first run settles all sales up to its date and leaves the others alone. */
  lemma {:induction false} SaleAfterFirst(cfg: Config, fin: seq<FinTx>, s: State, d1: int, t: Tx)
    requires Passes(cfg, fin, s, d1) && t in s.txs && IsSale(t) && !t.checked
    ensures var t' := Lookup(WorkOf(cfg, fin, s, d1).updates, t); if t.date <= d1 then t'.checked else t' == t
    ensures t.date > d1 ==> t.id !in WorkOf(cfg, fin, s, d1).updates
  {
    var w, sales := WorkOf(cfg, fin, s, d1), SortedSales(s.txs, d1);
    FilterSound(OpenSales(d1), s.txs);
    FilterSound(OpenPurchases(d1), s.txs);
    FilterSound(OpenNotes(d1), s.txs);
    if t.date <= d1 {
      SortContents(Sales(s.txs, d1));
      var k :| 0 <= k < |sales| && sales[k] == t;
      GuardSuffices(cfg, fin, s.txs, d1);
      SettleSales(cfg, fin, s.txs, d1);
      assert Complete(sales[k], w.done[k], w.cogs[k]);
      assert Apply(w.updates, sales)[k] == w.done[k];
    } else {
      SettleOther(cfg, fin, s.txs, d1, t);
    }
  }

  ghost function Between(d1: int, p: Tx -> bool): Tx -> bool { (t: Tx) => t.date > d1 && p(t) }

  lemma {:induction false} SecondSales(cfg: Config, fin: seq<FinTx>, s: State, d1: int, d2: int)
    requires Passes(cfg, fin, s, d1)
    ensures Sales(After1(cfg, fin, s, d1).txs, d2) == Filter(Between(d1, OpenSales(d2)), s.txs)
  {
    var u := WorkOf(cfg, fin, s, d1).updates;
    var p, r := OpenSales(d2), Between(d1, OpenSales(d2));
    CollectedAfter(cfg, fin, s, d1, d2);
    forall t | t in s.txs ensures (p(Lookup(u, t)) ==> r(t)) && (r(t) ==> Lookup(u, t) == t && p(t)) {
      SettleEvolves(cfg, fin, s.txs, d1, t);
      EvolvesShape(t, Lookup(u, t));
      if IsSale(t) && !t.checked { SaleAfterFirst(cfg, fin, s, d1, t); }
    }
    FilterUntouched(p, r, u, s.txs);
  }

  /** Sales in order: those of the first run, then those of the second. */
  lemma {:induction false} SalesInTwo(cfg: Config, fin: seq<FinTx>, s: State, d1: int, d2: int)
    requires Passes(cfg, fin, s, d1) && d1 <= d2
    ensures SortedSales(s.txs, d2) == SortedSales(s.txs, d1) + SortedSales(After1(cfg, fin, s, d1).txs, d2)
  {
    SecondSales(cfg, fin, s, d1, d2);
    SortSplit(Sales(s.txs, d2), d1);
    FilterTwice(OpenSales(d2), UpTo(d1), OpenSales(d1), s.txs);
    FilterTwice(OpenSales(d2), After(d1), Between(d1, OpenSales(d2)), s.txs);
  }

  // ----- Lots -----

  /** The purchases after `d1`, in FIFO order. */
  ghost function Later(txs: seq<Tx>, d1: int, d2: int): seq<Tx> { Sort(Filter(After(d1), Purchases(txs, d2))) }

  lemma {:induction false} LotsInTwo(txs: seq<Tx>, d1: int, d2: int)
    requires d1 <= d2
    ensures Lots(txs, d2) == Lots(txs, d1) + Later(txs, d1, d2)
  {
    SortSplit(Purchases(txs, d2), d1);
    FilterTwice(OpenPurchases(d2), UpTo(d1), OpenPurchases(d1), txs);
  }

  /** The first run does not see later lots. */
  lemma {:induction false} LaterLotsKept(cfg: Config, fin: seq<FinTx>, s: State, d1: int, d2: int)
    requires Passes(cfg, fin, s, d1)
    ensures var later := Later(s.txs, d1, d2);
            Apply(WorkOf(cfg, fin, s, d1).updates, later) == later
  {
    var ps := Filter(After(d1), Purchases(s.txs, d2));
    FilterSound(After(d1), Purchases(s.txs, d2));
    FilterSound(OpenPurchases(d2), s.txs);
    FilterSound(OpenPurchases(d1), s.txs);
    FilterSound(OpenSales(d1), s.txs);
    FilterSound(OpenNotes(d1), s.txs);
    SortContents(ps);
    forall t | t in Sort(ps) ensures t.id !in WorkOf(cfg, fin, s, d1).updates {
      SettleOther(cfg, fin, s.txs, d1, t);
    }
    ApplyOther(WorkOf(cfg, fin, s, d1).updates, Sort(ps));
  }

  /** All lots up to `d2` as the first run leaves them. */
  ghost function LotsBetween(cfg: Config, fin: seq<FinTx>, s: State, d1: int, d2: int): seq<Tx>
    requires Settle(cfg, fin, s.txs, d1).Ok?
  {
    WorkOf(cfg, fin, s, d1).lots + Later(s.txs, d1, d2)
  }

  lemma {:induction false} BetweenIsApplied(cfg: Config, fin: seq<FinTx>, s: State, d1: int, d2: int)
    requires Passes(cfg, fin, s, d1) && d1 <= d2
    ensures Apply(WorkOf(cfg, fin, s, d1).updates, Lots(s.txs, d2)) == LotsBetween(cfg, fin, s, d1, d2)
  {
    var u := WorkOf(cfg, fin, s, d1).updates;
    LotsInTwo(s.txs, d1, d2);
    SettleLots(cfg, fin, s.txs, d1);
    LaterLotsKept(cfg, fin, s, d1, d2);
    ApplyAppend(u, Lots(s.txs, d1), Later(s.txs, d1, d2));
  }

  /** The second run's lots are what the first run left open, and the later ones. */
  lemma {:induction false} SecondLots(cfg: Config, fin: seq<FinTx>, s: State, d1: int, d2: int)
    requires Passes(cfg, fin, s, d1) && d1 <= d2
    ensures Lots(After1(cfg, fin, s, d1).txs, d2) == Filter(Unchecked, LotsBetween(cfg, fin, s, d1, d2))
  {
    var u, ps := WorkOf(cfg, fin, s, d1).updates, Purchases(s.txs, d2);
    SecondPurchases(cfg, fin, s, d1, d2);
    forall t | t in ps ensures Stamped(t) && SameKey(t, Lookup(u, t)) { FirstKeepsKeys(cfg, fin, s, d1, d2, t); }
    SortApply(u, ps);
    StampedAfter(u, ps);
    SortFilter(Unchecked, Apply(u, ps));
    BetweenIsApplied(cfg, fin, s, d1, d2);
  }

  lemma {:induction false} FirstKeepsKeys(cfg: Config, fin: seq<FinTx>, s: State, d1: int, d2: int, t: Tx)
    requires Passes(cfg, fin, s, d1) && t in Purchases(s.txs, d2)
    ensures Stamped(t) && SameKey(t, Lookup(WorkOf(cfg, fin, s, d1).updates, t))
  {
    CollectedShapes(s.txs, d2);
    SettleEvolves(cfg, fin, s.txs, d1, t);
    EvolvesShape(t, Lookup(WorkOf(cfg, fin, s, d1).updates, t));
  }

  lemma {:induction false} SecondPurchases(cfg: Config, fin: seq<FinTx>, s: State, d1: int, d2: int)
    requires Passes(cfg, fin, s, d1)
    ensures Purchases(After1(cfg, fin, s, d1).txs, d2)
         == Filter(Unchecked, Apply(WorkOf(cfg, fin, s, d1).updates, Purchases(s.txs, d2)))
  {
    var u := WorkOf(cfg, fin, s, d1).updates;
    CollectedAfter(cfg, fin, s, d1, d2);
    forall t | t in s.txs ensures OpenPurchases(d2)(Lookup(u, t)) == (OpenPurchases(d2)(t) && Unchecked(Lookup(u, t))) {
      SettleEvolves(cfg, fin, s.txs, d1, t);
      EvolvesShape(t, Lookup(u, t));
    }
    FilterApply(OpenPurchases(d2), Unchecked, OpenPurchases(d2), u, s.txs);
  }

  lemma {:induction false} StampedAfter(u: map<nat, Tx>, ps: seq<Tx>)
    requires forall t :: t in ps ==> Stamped(t) && SameKey(t, Lookup(u, t))
    ensures AllStamped(Apply(u, ps))
  {
    var qs := Apply(u, ps);
    forall t | t in qs ensures Stamped(t) {
      var i :| 0 <= i < |qs| && qs[i] == t;
      assert ps[i] in ps;
    }
  }

  // ----- Credit notes -----

  lemma {:induction false} KeptNotes(txs: seq<Tx>, d: int)
    requires Sound(txs)
    ensures forall n :: n in NotesBy(txs, d) ==> n in Notes(txs, d)
    ensures forall k :: 0 <= k < |NotesBy(txs, d)| ==> NotesBy(txs, d)[k].amount > 0.0
    ensures Distinct(IdOf, NotesBy(txs, d)) && Distinct(NumberOf, NotesBy(txs, d))
  {
    var ns := NotesBy(txs, d);
    KeyedKeys(NumberOf, Notes(txs, d));
    CollectedShapes(txs, d);
    forall k | 0 <= k < |ns| ensures ns[k].amount > 0.0 { assert ns[k] in ns; }
    forall i, j | 0 <= i < j < |ns| ensures IdOf(ns[i]) != IdOf(ns[j]) {
      assert ns[i] in ns && ns[j] in ns && NumberOf(ns[i]) != NumberOf(ns[j]);
      if IdOf(ns[i]) == IdOf(ns[j]) { SameIdSame(txs, ns[i], ns[j]); }
    }
  }

  /** The opening of a run in closed form. */
  lemma {:induction false} OpeningForm(txs: seq<Tx>, d: int)
    requires Sound(txs)
    ensures Opening(txs, d).Ok? <==> Affordable(NotesBy(txs, d), Purchases(txs, d))
    ensures Opening(txs, d).Ok? ==>
              && Opening(txs, d).work.lots == AdjustAll(NotesBy(txs, d), Lots(txs, d))
              && Opening(txs, d).work.created == SplitsOf(NotesBy(txs, d), Purchases(txs, d))
  {
    LotsAreThePurchases(txs, d);
    KeptNotes(txs, d);
    MembersShapes(txs, d);
    CollectedCodes(txs, d);
    NotesForm(NotesBy(txs, d), Purchases(txs, d));
    if Opening(txs, d).Ok? { AdjustSorted(txs, d); }
  }

  lemma {:induction false} AdjustSorted(txs: seq<Tx>, d: int)
    requires Sound(txs) && Opening(txs, d).Ok?
    requires var v := ApplyNotes(NotesBy(txs, d), Start(LotsBy(txs, d))).work;
             LotsBy(txs, d) == Purchases(txs, d) && v.lots == AdjustAll(NotesBy(txs, d), Purchases(txs, d))
    ensures Opening(txs, d).work.lots == AdjustAll(NotesBy(txs, d), Lots(txs, d))
  {
    var ns, ps, u := NotesBy(txs, d), Purchases(txs, d), Opening(txs, d).work.updates;
    assert Apply(u, ps) == AdjustAll(ns, ps) by {
      MembersShapes(txs, d);
      KindsApart(txs, d);
      ApplyNothing(ps);
      NotesStage(ns, Start(ps), ps);
    }
    OpeningStages(txs, d);
    SortContents(ps);
    AppliedAlike(u, ns, ps, Lots(txs, d));
  }

  lemma {:induction false} AppliedAlike(u: map<nat, Tx>, notes: seq<Tx>, ps: seq<Tx>, ls: seq<Tx>)
    requires Apply(u, ps) == AdjustAll(notes, ps) && forall t :: t in ls ==> t in ps
    ensures Apply(u, ls) == AdjustAll(notes, ls)
  {
    forall j | 0 <= j < |ls| ensures Apply(u, ls)[j] == AdjustAll(notes, ls)[j] {
      assert ls[j] in ls;
      var i :| 0 <= i < |ps| && ps[i] == ls[j];
      assert Apply(u, ps)[i] == AdjustAll(notes, ps)[i];
    }
  }

  /** The notes a run up to `d` applies: those its Map keeps that find their purchase. */
  function AppliedBy(txs: seq<Tx>, d: int): Tx -> bool {
    (n: Tx) => n in NotesBy(txs, d) && Matched(Purchases(txs, d), n)
  }

  /** A run checks the notes it applies, and leaves the others. */
  lemma {:induction false} NoteAfterFirst(cfg: Config, fin: seq<FinTx>, s: State, d1: int, t: Tx)
    requires Passes(cfg, fin, s, d1) && t in s.txs && IsCreditNote(t) && !t.checked
    ensures Lookup(WorkOf(cfg, fin, s, d1).updates, t) == if AppliedBy(s.txs, d1)(t) then t.(checked := true) else t
  {
    FilterSound(OpenNotes(d1), s.txs);
    KeptNotes(s.txs, d1);
    if t in Notes(s.txs, d1) {
      NotesPhase(s.txs, d1, t);
      RunLeavesNote(cfg, fin, s, d1, t);
    } else {
      FilterSound(OpenPurchases(d1), s.txs);
      FilterSound(OpenSales(d1), s.txs);
      SettleOther(cfg, fin, s.txs, d1, t);
    }
  }

  lemma {:induction false} NotesPhase(txs: seq<Tx>, d: int, t: Tx)
    requires Sound(txs) && Opening(txs, d).Ok? && t in Notes(txs, d)
    ensures Lookup(Opening(txs, d).work.updates, t) == if AppliedBy(txs, d)(t) then t.(checked := true) else t
  {
    var ns, ps := NotesBy(txs, d), Purchases(txs, d);
    LotsAreThePurchases(txs, d);
    KeptNotes(txs, d);
    MembersShapes(txs, d);
    CollectedShapes(txs, d);
    CollectedCodes(txs, d);
    NotAmong(txs, ps, t);
    if t in ns {
      NotesChecked(ns, ps, t);
    } else {
      forall k | 0 <= k < |ns| && ns[k].id == t.id ensures ns[k] == t {
        assert ns[k] in ns;
        SameIdSame(txs, ns[k], t);
      }
      NotesStageOther(ns, Start(ps), t);
    }
  }

  lemma {:induction false} RunLeavesNote(cfg: Config, fin: seq<FinTx>, s: State, d: int, t: Tx)
    requires Passes(cfg, fin, s, d) && t in Notes(s.txs, d)
    ensures Lookup(WorkOf(cfg, fin, s, d).updates, t) == Lookup(Opening(s.txs, d).work.updates, t)
  {
    var v, sales := Opening(s.txs, d).work, SortedSales(s.txs, d);
    OpeningStages(s.txs, d);
    KindsApart(s.txs, d);
    CollectedShapes(s.txs, d);
    SortContents(Purchases(s.txs, d));
    NotAmong(s.txs, Lots(s.txs, d), t);
    AmongSame(t.id, Lots(s.txs, d), v.lots);
    RunMoversLawful(cfg, fin);
    forall k | 0 <= k < |sales| ensures sales[k].id != t.id {
      if sales[k].id == t.id { SameIdSame(s.txs, sales[k], t); }
    }
    RunStagesOther(RunMovers(cfg, fin), cfg.halfUnit, sales, v, t);
  }

  /** Not applied by a run up to `d1`. */
  function StillOpen(txs: seq<Tx>, d1: int): Tx -> bool { (n: Tx) => !AppliedBy(txs, d1)(n) }

  /** The notes up to `d2` that a run up to `d1` leaves open. */
  function NotesLeft(txs: seq<Tx>, d1: int, d2: int): seq<Tx> { Filter(StillOpen(txs, d1), Notes(txs, d2)) }

  lemma {:induction false} SecondNotes(cfg: Config, fin: seq<FinTx>, s: State, d1: int, d2: int)
    requires Passes(cfg, fin, s, d1)
    ensures Notes(After1(cfg, fin, s, d1).txs, d2) == NotesLeft(s.txs, d1, d2)
  {
    var u, p, q := WorkOf(cfg, fin, s, d1).updates, OpenNotes(d2), StillOpen(s.txs, d1);
    var r := (t: Tx) => p(t) && q(t);
    CollectedAfter(cfg, fin, s, d1, d2);
    forall t | t in s.txs ensures (p(Lookup(u, t)) ==> r(t)) && (r(t) ==> Lookup(u, t) == t && p(t)) {
      NoteStaysOpen(cfg, fin, s, d1, d2, t);
    }
    FilterUntouched(p, r, u, s.txs);
    FilterTwice(p, q, r, s.txs);
  }

  /** Filtering updated transactions when those kept are the untouched ones that satisfy `r`. */
  lemma {:induction false} FilterUntouched(p: Tx -> bool, r: Tx -> bool, u: map<nat, Tx>, xs: seq<Tx>)
    requires forall t :: t in xs ==> (p(Lookup(u, t)) ==> r(t)) && (r(t) ==> Lookup(u, t) == t && p(t))
    ensures Filter(p, Apply(u, xs)) == Filter(r, xs)
  {
    FilterApply(p, p, r, u, xs);
    FilterSound(r, xs);
    ApplySame(u, Filter(r, xs));
    FilterAll(p, Filter(r, xs));
  }

  lemma {:induction false} NoteStaysOpen(cfg: Config, fin: seq<FinTx>, s: State, d1: int, d2: int, t: Tx)
    requires Passes(cfg, fin, s, d1) && t in s.txs
    ensures var t', q := Lookup(WorkOf(cfg, fin, s, d1).updates, t), StillOpen(s.txs, d1);
            (OpenNotes(d2)(t') ==> OpenNotes(d2)(t) && q(t)) && (OpenNotes(d2)(t) && q(t) ==> t' == t)
  {
    var t' := Lookup(WorkOf(cfg, fin, s, d1).updates, t);
    SettleEvolves(cfg, fin, s.txs, d1, t);
    EvolvesShape(t, t');
    if IsCreditNote(t) && !t.checked { NoteAfterFirst(cfg, fin, s, d1, t); }
  }

  lemma {:induction false} ApplySame(u: map<nat, Tx>, xs: seq<Tx>)
    requires forall t :: t in xs ==> Lookup(u, t) == t
    ensures Apply(u, xs) == xs
  {}
}
