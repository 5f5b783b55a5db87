/** Rounding over whole histories: what was sold of a purchase costs its share, up to the rounding. */
module Drift {
  import opened Lists
  import opened Ledger
  import opened FifoOrder
  import opened Allocation
  import opened Settlement
  import opened Calculation
  import opened Reset
  import opened Replication
  import opened Books
  import opened Collected
  import opened Commitment
  import opened ResetFacts
  import opened Runs
  import opened Families
  import opened Costs
  import opened CostRuns
  import opened NoteForm
  import opened TwoRuns
  import opened Incremental
  import opened Batch
  import opened Unflagged

  /** No credit note took a part of root `id`. */
  ghost predicate NoNoteSplit(txs: seq<Tx>, id: nat) { forall t :: t in txs && t.parent == Some(id) ==>
                                                        t.creditNote.None? }

  /** What a purchase and its splits cost in all: what was paid, and the extras taken in. */
  function FullCost(t: Tx, taken: nat -> real): real { OrZero(t.purchaseCost) + taken(t.id) }

  function Bought(t: Tx): real { if t.originalQuantity.Some? then t.originalQuantity.value else 0.0 }

  /** What an open purchase lost of its cost is pro rata, up to `eps` per unit. */
  ghost predicate DriftAt(eps: real, taken: nat -> real, t: Tx) {
    && Bought(t) > 0.0 && t.amount <= Bought(t) && (Untouched(t) ==> t.amount == Bought(t))
    && ProRata(FullCost(t, taken), Bought(t), FullCost(t, taken) - Cost(t), Bought(t) - t.amount, eps)
  }

  ghost predicate DriftHolds(eps: real, s: State, taken: nat -> real) {
    forall t :: t in s.txs && PurchaseShape(t) && !t.checked && NoNoteSplit(s.txs, t.id) ==> DriftAt(eps, taken, t)
  }

  lemma {:induction false} FreshDrift(eps: real, taken: nat -> real, t: Tx)
    requires PurchaseShape(t) && t.amount == Bought(t) && t.totalCost == t.purchaseCost && taken(t.id) == 0.0
             && eps >= 0.0
    ensures DriftAt(eps, taken, t)
  {
    assert FullCost(t, taken) / Bought(t) * 0.0 == 0.0;
  }

  // ----- One calculation -----

  lemma {:induction false} SplitInSplits(notes: seq<Tx>, lots: seq<Tx>, n: Tx)
    requires n in notes && Matched(lots, n)
    ensures NoteSplit(lots[IndexOf(lots, n.code)], n) in SplitsOf(notes, lots)
  {
    var init, last := notes[..|notes| - 1], notes[|notes| - 1];
    assert notes == init + [last];
    if last == n {
      assert SplitOf(lots, n) == [NoteSplit(lots[IndexOf(lots, n.code)], n)];
    } else {
      SplitInSplits(init, lots, n);
    }
  }

  /** A split that a run creates is in the book after it, but for its id and UUID. */
  lemma {:induction false} CreatedPosted(cfg: Config, fin: seq<FinTx>, s: State, d: int, x: Tx)
    requires Passes(cfg, fin, s, d) && x in WorkOf(cfg, fin, s, d).created
    ensures exists y :: y in After1(cfg, fin, s, d).txs && y.parent == x.parent && y.creditNote == x.creditNote
  {
    var created := WorkOf(cfg, fin, s, d).created;
    var posted := Posted(created, s);
    BookAfter(cfg, fin, s, d);
    PostedErased(created, s);
    var k :| 0 <= k < |created| && created[k] == x;
    assert ErasedAll(posted)[k] == ErasedAll(created)[k];
    assert posted[k] in After1(cfg, fin, s, d).txs;
  }

  /** A lot that no note took a part of opens the run as it was collected. */
  lemma {:induction false} NoteFree(cfg: Config, fin: seq<FinTx>, s: State, d: int, j: nat)
    requires Passes(cfg, fin, s, d) && j < |Lots(s.txs, d)|
             && NoNoteSplit(After1(cfg, fin, s, d).txs, Lots(s.txs, d)[j].id)
    ensures |Opening(s.txs, d).work.lots| == |Lots(s.txs, d)| && Opening(s.txs, d).work.lots[j] == Lots(s.txs, d)[j]
  {
    var ns, lot := NotesBy(s.txs, d), Lots(s.txs, d)[j];
    OpeningForm(s.txs, d);
    forall n | n in ns ensures n.code != lot.code {
      if n.code == lot.code { NoteSplitPosted(cfg, fin, s, d, lot, n); }
    }
    SumZero(NoteFor(lot.code), ns);
  }

  lemma {:induction false} NoteSplitPosted(cfg: Config, fin: seq<FinTx>, s: State, d: int, lot: Tx, n: Tx)
    requires Passes(cfg, fin, s, d) && lot in Lots(s.txs, d) && n in NotesBy(s.txs, d) && n.code == lot.code
    ensures !NoNoteSplit(After1(cfg, fin, s, d).txs, lot.id)
  {
    var ps := Purchases(s.txs, d);
    SortContents(ps);
    CollectedCodes(s.txs, d);
    var k :| 0 <= k < |ps| && ps[k] == lot;
    OnlyOne(ps, n.code, k);
    OpeningForm(s.txs, d);
    SplitInSplits(NotesBy(s.txs, d), ps, n);
    FirstWork(cfg, fin, s, d);
    assert NoteSplit(lot, n) in WorkOf(cfg, fin, s, d).created;
    CreatedPosted(cfg, fin, s, d, NoteSplit(lot, n));
    KeptNotes(s.txs, d);
    CollectedShapes(s.txs, d);
  }

  /** A lot as it would be if it were open whole, with the extras taken in. */
  function Whole(t: Tx, cost: real): Tx
    requires Bought(t) >= 0.0
  {
    t.(amount := Bought(t), totalCost := Some(cost), addCosts := Some(0.0))
  }

  /** The sales of a run keep the bound of a lot that no note took a part of. */
  lemma {:induction false} LotDrift(cfg: Config, fin: seq<FinTx>, eps: real, s: State, d: int, x: Tx, t: Tx, cost: real)
    requires Passes(cfg, fin, s, d) && ExactTimes(cfg) && DivWithin(cfg, eps) && eps >= 0.0
    requires x in Purchases(s.txs, d) && Lookup(WorkOf(cfg, fin, s, d).updates, x) == t
             && NoNoteSplit(After1(cfg, fin, s, d).txs, x.id)
    requires Bought(x) > 0.0 && Drifted(fin, eps, Whole(x, cost), x)
    ensures !t.checked ==> Drifted(fin, eps, Whole(x, cost), t)
    ensures t == x || !Untouched(t)
  {
    var ls, movers, sales := Lots(s.txs, d), RunMovers(cfg, fin), SortedSales(s.txs, d);
    var lots := Opening(s.txs, d).work.lots;
    SortContents(Purchases(s.txs, d));
    var j :| 0 <= j < |ls| && ls[j] == x;
    NoteFree(cfg, fin, s, d, j);
    SettleLots(cfg, fin, s.txs, d);
    assert Apply(WorkOf(cfg, fin, s, d).updates, ls)[j] == WorkOf(cfg, fin, s, d).lots[j];
    ProcessLots(movers, cfg.halfUnit, sales, Opening(s.txs, d).work);
    RunDrift(cfg, fin, eps, sales, Whole(x, cost), lots, j);
    if t != x { LotMarked(cfg, fin, s, d, j); }
  }

  /** Splits stay in the book. */
  lemma {:induction false} SplitsStay(cfg: Config, fin: seq<FinTx>, s: State, d: int, y: Tx)
    requires Passes(cfg, fin, s, d) && y in s.txs && y.parent.Some?
    ensures y in After1(cfg, fin, s, d).txs
  {
    InBookAfter(cfg, fin, s, d, y);
    assert WellFormed(y) && y.checked;
  }

  lemma {:induction false} NoNoteBefore(cfg: Config, fin: seq<FinTx>, s: State, d: int, id: nat)
    requires Passes(cfg, fin, s, d) && NoNoteSplit(After1(cfg, fin, s, d).txs, id)
    ensures NoNoteSplit(s.txs, id)
  {
    forall y | y in s.txs && y.parent == Some(id) ensures y.creditNote.None? { SplitsStay(cfg, fin, s, d, y); }
  }

  /** What `t` costs in all once it is drawn on, seen from before. */
  function CostIn(fin: seq<FinTx>, taken: nat -> real, x: Tx): real { if Untouched(x) then UpdatedCost(fin, x) else
                                                                       FullCost(x, taken) }

  lemma {:induction false} DriftedBefore(fin: seq<FinTx>, eps: real, taken: nat -> real, x: Tx)
    requires PurchaseShape(x) && DriftAt(eps, taken, x) && eps >= 0.0
    ensures Drifted(fin, eps, Whole(x, CostIn(fin, taken, x)), x)
  {
    assert UpdatedCost(fin, Whole(x, CostIn(fin, taken, x))) == CostIn(fin, taken, x);
    if Untouched(x) { assert CostIn(fin, taken, x) / Bought(x) * 0.0 == 0.0; }
  }

  lemma {:induction false} DriftedAfter(fin: seq<FinTx>, eps: real, taken: nat -> real, taken': nat -> real, x: Tx,
                                        t: Tx)
    requires PurchaseShape(x) && PurchaseShape(t) && DriftAt(eps, taken, x) && !Untouched(t) && Bought(x) == Bought(t)
    requires x.purchaseCost == t.purchaseCost && x.id == t.id && (!Untouched(x) ==> taken'(x.id) == taken(x.id))
    requires Untouched(x) ==> taken'(x.id) == NetExtras(fin, x)
    requires Drifted(fin, eps, Whole(x, CostIn(fin, taken, x)), t)
    ensures DriftAt(eps, taken', t)
  {
    assert UpdatedCost(fin, Whole(x, CostIn(fin, taken, x))) == CostIn(fin, taken, x);
    assert FullCost(t, taken') == CostIn(fin, taken, x);
  }

  /** A calculation keeps the bound of a purchase that no note took a part of. */
  lemma {:induction false} PurchaseDrift(cfg: Config, fin: seq<FinTx>, eps: real, s: State, d: int, taken: nat -> real,
                                         taken': nat -> real, t: Tx)
    requires Inv(s) && Passes(cfg, fin, s, d) && ExactTimes(cfg) && DivWithin(cfg, eps) && eps >= 0.0
    requires DriftHolds(eps, s, taken) && ExtrasHold(s, taken)
             && AddsFirst(fin, s, After1(cfg, fin, s, d), taken, taken')
    requires t in After1(cfg, fin, s, d).txs && PurchaseShape(t) && !t.checked
             && NoNoteSplit(After1(cfg, fin, s, d).txs, t.id)
    ensures DriftAt(eps, taken', t)
  {
    var s' := After1(cfg, fin, s, d);
    var x := RootBefore(cfg, fin, s, d, t);
    assert !x.checked;
    NoNoteBefore(cfg, fin, s, d, t.id);
    assert DriftAt(eps, taken, x);
    assert Distinct(IdOf, s'.txs) by { BookAfter(cfg, fin, s, d); }
    TakenStep(fin, s, s', taken, taken', x, t);
    if t == x {
      SameDriftAt(eps, taken, taken', t);
    } else {
      ChangedDrift(cfg, fin, eps, s, d, taken, taken', x, t);
    }
  }

  lemma {:induction false} ChangedDrift(cfg: Config, fin: seq<FinTx>, eps: real, s: State, d: int, taken: nat -> real,
                                        taken': nat -> real, x: Tx, t: Tx)
    requires Passes(cfg, fin, s, d) && ExactTimes(cfg) && DivWithin(cfg, eps) && eps >= 0.0
    requires x in s.txs && Lookup(WorkOf(cfg, fin, s, d).updates, x) == t && t != x && x.id == t.id && !x.checked
             && !t.checked
    requires PurchaseShape(x) && PurchaseShape(t) && Bought(x) == Bought(t) && x.purchaseCost == t.purchaseCost
    requires DriftAt(eps, taken, x) && NoNoteSplit(After1(cfg, fin, s, d).txs, x.id)
             && (Untouched(x) ==> taken(x.id) == 0.0)
    requires taken'(x.id) == taken(x.id) + if Untouched(x) && !Untouched(t) then NetExtras(fin, x) else 0.0
    ensures DriftAt(eps, taken', t)
  {
    ChangedIsCollected(cfg, fin, s, d, x, t);
    DriftedBefore(fin, eps, taken, x);
    LotDrift(cfg, fin, eps, s, d, x, t, CostIn(fin, taken, x));
    DriftedAfter(fin, eps, taken, taken', x, t);
  }

  /** What a calculation takes in for a purchase. */
  lemma {:induction false} TakenStep(fin: seq<FinTx>, s: State, s': State, taken: nat -> real, taken': nat -> real,
                                     x: Tx, t: Tx)
    requires Distinct(IdOf, s.txs) && Distinct(IdOf, s'.txs) && x in s.txs && t in s'.txs && x.id == t.id
             && PurchaseShape(x)
    requires AddsFirst(fin, s, s', taken, taken')
    ensures taken'(x.id) == taken(x.id) + if Untouched(x) && !Untouched(t) then NetExtras(fin, x) else 0.0
  {
    FirstTouchedIff(s, s', x, t);
  }

  lemma {:induction false} SameDriftAt(eps: real, taken: nat -> real, taken': nat -> real, t: Tx)
    requires DriftAt(eps, taken, t) && taken'(t.id) == taken(t.id)
    ensures DriftAt(eps, taken', t)
  {
    assert FullCost(t, taken') == FullCost(t, taken);
  }

  lemma {:induction false} ChangedIsCollected(cfg: Config, fin: seq<FinTx>, s: State, d: int, x: Tx, t: Tx)
    requires Passes(cfg, fin, s, d) && x in s.txs && PurchaseShape(x) && Lookup(WorkOf(cfg, fin, s, d).updates, x) == t
             && t != x
    ensures x in Purchases(s.txs, d)
  {
    if x !in Purchases(s.txs, d) {
      CollectedShapes(s.txs, d);
      SettleOther(cfg, fin, s.txs, d, x);
    }
  }

  // ----- The other steps -----

  lemma {:induction false} ArriveDrift(eps: real, s: State, f: FinTx, millis: nat, taken: nat -> real)
    requires Inv(s) && ExtrasHold(s, taken) && DriftHolds(eps, s, taken) && eps >= 0.0
    ensures DriftHolds(eps, Arrive(s, f, millis), taken)
  {
    var s' := Arrive(s, f, millis);
    if s' != s {
      var x := Replica(f, s.nextId, millis).value;
      ReplicaShape(f, s.nextId, millis);
      forall t | t in s'.txs && PurchaseShape(t) && !t.checked && NoNoteSplit(s'.txs, t.id)
        ensures DriftAt(eps, taken, t)
      {
        if t in s.txs { assert NoNoteSplit(s.txs, t.id); } else { FreshDrift(eps, taken, x); }
      }
    }
  }

  lemma {:induction false} DeleteDrift(eps: real, s: State, f: FinTx, taken: nat -> real)
    requires Inv(s) && DriftHolds(eps, s, taken)
    ensures DriftHolds(eps, Delete(s, f), taken)
  {
    var s', found := Delete(s, f), Filter(HasRemote(f.id), s.txs);
    if f.posted && IsPurchaseDocument(f) && |found| > 0 {
      FilterSound(HasRemote(f.id), s.txs);
      var root := found[0];
      assert root in found && WellFormed(root);
      FilterSound(OutOfFamily(root), s.txs);
      forall t | t in s'.txs && PurchaseShape(t) && !t.checked && NoNoteSplit(s'.txs, t.id)
        ensures DriftAt(eps, taken, t)
      {
        forall y | y in s.txs && y.parent == Some(t.id) ensures y.creditNote.None? {
          if y.id == root.id { SameIdSame(s.txs, y, root); }
        }
        assert NoNoteSplit(s.txs, t.id);
      }
    }
  }

  lemma {:induction false} ResetDrift(eps: real, s: State, taken: nat -> real)
    requires Inv(s) && !ResetLocked(s) && ExtrasHold(ResetState(s), taken) && eps >= 0.0
    ensures DriftHolds(eps, ResetState(s), taken)
  {
    var s' := ResetState(s);
    ResetGivesOrigin(s);
    OriginMembers(s.txs);
    OriginCosts(s.txs);
    forall t | t in s'.txs && PurchaseShape(t) ensures DriftAt(eps, taken, t) {
      OriginUntouched(s.txs, t);
      FreshDrift(eps, taken, t);
    }
  }

  lemma {:induction false} OriginUntouched(txs: seq<Tx>, t: Tx)
    requires t in Origin(txs) && PurchaseShape(t)
    ensures Untouched(t)
  {
    var rs := Filter(IsReplica, txs);
    var i :| 0 <= i < |rs| && Origin(txs)[i] == t;
  }

  // ----- Every run -----

  lemma {:induction false} CalculatingDrift(cfg: Config, fin: seq<FinTx>, eps: real, s: State, d: int,
                                            taken: nat -> real, taken': nat -> real)
    requires Inv(s) && cfg.halfUnit > 0.0 && ExactTimes(cfg) && DivWithin(cfg, eps) && eps >= 0.0
    requires DriftHolds(eps, s, taken) && ExtrasHold(s, taken)
             && AddsFirst(fin, s, Calculate(cfg, fin, s, d).1, taken, taken')
    ensures DriftHolds(eps, Calculate(cfg, fin, s, d).1, taken')
  {
    var s' := Calculate(cfg, fin, s, d).1;
    if Calculate(cfg, fin, s, d).0.Calculated? {
      OnePasses(cfg, fin, s, d);
      forall t | t in s'.txs && PurchaseShape(t) && !t.checked && NoNoteSplit(s'.txs, t.id)
        ensures DriftAt(eps, taken', t)
      {
        PurchaseDrift(cfg, fin, eps, s, d, taken, taken', t);
      }
    } else {
      forall t | t in s.txs && PurchaseShape(t) && !t.checked && NoNoteSplit(s.txs, t.id)
        ensures DriftAt(eps, taken', t)
      {
        TakenStep(fin, s, s, taken, taken', t, t);
        SameDriftAt(eps, taken, taken', t);
      }
    }
  }

  /** The bound as a step makes it, from what the history has taken in before and after. */
  lemma {:induction false} StepDrift(cfg: Config, eps: real, s: State, step: Step, taken: nat -> real,
                                     taken': nat -> real)
    requires Inv(s) && cfg.halfUnit > 0.0 && ExactTimes(cfg) && DivWithin(cfg, eps) && eps >= 0.0
    requires DriftHolds(eps, s, taken) && ExtrasHold(s, taken) && ExtrasHold(Do(cfg, s, step), taken')
    requires step.Calculating? && !s.rebuild ==> AddsFirst(step.fin, s, Do(cfg, s, step), taken, taken')
    requires !Resets(s, step) && !(step.Calculating? && !s.rebuild) ==> forall id: nat :: taken'(id) == taken(id)
    ensures DriftHolds(eps, Do(cfg, s, step), taken')
  {
    if Resets(s, step) {
      ResetDrift(eps, s, taken');
    } else if step.Calculating? && !s.rebuild {
      CalculatingDrift(cfg, step.fin, eps, s, step.toDate, taken, taken');
    } else {
      if step.Arrival? { ArriveDrift(eps, s, step.f, step.millis, taken); }
      if step.Deletion? { DeleteDrift(eps, s, step.f, taken); }
      SameTakenDrift(eps, Do(cfg, s, step), taken, taken');
    }
  }

  lemma {:induction false} SameTakenDrift(eps: real, s: State, taken: nat -> real, taken': nat -> real)
    requires DriftHolds(eps, s, taken) && forall id: nat :: taken'(id) == taken(id)
    ensures DriftHolds(eps, s, taken')
  {
    forall t | t in s.txs && PurchaseShape(t) && !t.checked && NoNoteSplit(s.txs, t.id)
      ensures DriftAt(eps, taken', t)
    {
      SameDriftAt(eps, taken, taken', t);
    }
  }

  lemma {:induction false} RunDrifts(cfg: Config, eps: real, steps: seq<Step>)
    requires AdmissibleRun(cfg, steps) && cfg.halfUnit > 0.0 && ExactTimes(cfg) && DivWithin(cfg, eps) && eps >= 0.0
    ensures DriftHolds(eps, Run(cfg, steps), TakenAfter(cfg, steps))
    decreases |steps|
  {
    if |steps| > 0 {
      var init, step := steps[..|steps| - 1], steps[|steps| - 1];
      RunDrifts(cfg, eps, init);
      RunKeeps(cfg, init);
      ExtrasOnce(cfg, init);
      ExtrasOnce(cfg, steps);
      if step.Calculating? && !Run(cfg, init).rebuild { TakenAddsFirst(cfg, steps); }
      StepDrift(cfg, eps, Run(cfg, init), step, TakenAfter(cfg, init), TakenAfter(cfg, steps));
    }
  }

  /** In a family only the root can be open. */
  lemma {:induction false} SoldAndOpen(txs: seq<Tx>, t: Tx)
    requires Distinct(IdOf, txs) && AllWellFormed(txs) && t in txs && PurchaseShape(t)
    ensures SumBy(SoldFor(t.id), txs) == SumBy(FamilyCost(t.id), txs) - if t.checked then 0.0 else Cost(t)
  {
    var open := (x: Tx) => if InFamily(x, t.id) && !x.checked then Cost(x) else 0.0;
    SumTogether(SoldFor(t.id), open, FamilyCost(t.id), txs);
    forall x | x in txs && x.id != t.id ensures open(x) == 0.0 { assert WellFormed(x); }
    SumSingle(open, txs, t);
  }

  /** Once a purchase is used up, its parts cost in all exactly what was paid for it and the extras
      taken in since the last reset, whatever the rounding of the splits. */
  lemma {:induction false} UsedUpExactly(cfg: Config, steps: seq<Step>, t: Tx)
    requires AdmissibleRun(cfg, steps) && cfg.halfUnit > 0.0 && t in Run(cfg, steps).txs && PurchaseShape(t)
             && t.checked
    ensures SumBy(SoldFor(t.id), Run(cfg, steps).txs) == t.purchaseCost.value + TakenIn(cfg, steps, t.id)
  {
    RunKeeps(cfg, steps);
    ExtrasOnce(cfg, steps);
    SoldAndOpen(Run(cfg, steps).txs, t);
  }

  lemma {:induction false} DriftTotals(eps: real, s: State, taken: nat -> real, t: Tx)
    requires Valid(s) && ExtrasHold(s, taken) && DriftHolds(eps, s, taken)
    requires t in s.txs && PurchaseShape(t) && !t.checked && NoNoteSplit(s.txs, t.id)
    ensures ProRata(t.purchaseCost.value + taken(t.id), t.originalQuantity.value, SumBy(SoldFor(t.id), s.txs),
                    t.originalQuantity.value - t.amount, eps)
  {
    SoldAndOpen(s.txs, t);
    assert DriftAt(eps, taken, t);
  }

  /** Rounding drift over every history: the parts sold of an open purchase since the last reset cost,
      in all, their pro-rata share of what was paid for it and the extras taken in, up to `eps` per
      unit sold, if every unit cost is off by at most `eps` and no credit note took a part of it. */
  lemma {:induction false} HistoryDrift(cfg: Config, eps: real, steps: seq<Step>, t: Tx)
    requires AdmissibleRun(cfg, steps) && cfg.halfUnit > 0.0 && ExactTimes(cfg) && DivWithin(cfg, eps) && eps >= 0.0
    requires t in Run(cfg, steps).txs && PurchaseShape(t) && !t.checked && NoNoteSplit(Run(cfg, steps).txs, t.id)
    ensures ProRata(t.purchaseCost.value
                    + TakenIn(cfg, steps, t.id), t.originalQuantity.value, SumBy(SoldFor(t.id), Run(cfg, steps).txs),
                    t.originalQuantity.value - t.amount, eps)
  {
    var taken := TakenAfter(cfg, steps);
    RunKeeps(cfg, steps);
    ExtrasOnce(cfg, steps);
    RunDrifts(cfg, eps, steps);
    DriftTotals(eps, Run(cfg, steps), taken, t);
    assert taken(t.id) == TakenIn(cfg, steps, t.id);
  }
}
