/** Costs over calculations and over every run: what is posted is what the lots carried, extras
    are taken in exactly once, and rounding never drifts far. */
module CostRuns {
  import opened Lists
  import opened Ledger
  import opened FifoOrder
  import opened Allocation
  import opened Settlement
  import opened Calculation
  import opened Reset
  import opened Replication
  import opened Books
  import opened Collected
  import opened Commitment
  import opened BookSums
  import opened ResetFacts
  import opened Runs
  import opened Families
  import opened Costs

  /** The extras of a purchase: its additional costs less its credits. */
  function NetExtras(fin: seq<FinTx>, t: Tx): real {
    SumBy(AdditionalCost(t.date, t.code), fin) - SumBy(CreditAmount(t.date, t.code), fin)
  }

  predicate InFamily(t: Tx, id: nat) { RootOf(t) == id && t.flow == BuyToGood }

  /** The cost a transaction carries for root `id`. */
  function FamilyCost(id: nat): Tx -> real { (t: Tx) => if InFamily(t, id) then Cost(t) else 0.0 }

  /** The extras still due on root `id`. */
  function FamilyDue(fin: seq<FinTx>, id: nat): Tx -> real {
    (t: Tx) => if InFamily(t, id) && !t.checked then DueCosts(fin, t) - DueCredits(fin, t) else 0.0
  }

  function Carried(fin: seq<FinTx>, id: nat): Tx -> real {
    (t: Tx) => if !InFamily(t, id) then 0.0 else if t.checked then Cost(t) else UpdatedCost(fin, t)
  }

  /** A move splits what the lot carries between the sale and the rest, whatever the rounding. */
  lemma {:induction false} MoveKeepsCost(cfg: Config, fin: seq<FinTx>, sale: Tx, need: Quantity, lot: Tx)
    requires !lot.checked
    ensures var m := MoveOn(cfg, fin, sale, need, lot);
            UpdatedCost(fin, lot) == SoldCost(m) + if m.after.checked then 0.0 else UpdatedCost(fin, m.after)
    ensures var m := MoveOn(cfg, fin, sale, need, lot);
            && m.after.parent == lot.parent && m.after.id == lot.id && m.after.flow == lot.flow
            && (m.piece.Some? ==>
                  m.piece.value.parent == Some(lot.id) && m.piece.value.checked && m.piece.value.flow == lot.flow)
            && m.piece.Some? == !m.after.checked
  {}

  lemma {:induction false} CarriedExchanges(cfg: Config, fin: seq<FinTx>, id: nat)
    ensures var f := Carried(fin, id);
            IgnoresIds(f) && NoteExchanges(f) && DrawExchanges(cfg, fin, f) && SalesKeep(f)
  {
    forall sale: Tx, need: Quantity, lot: Tx | PurchaseShape(lot) && !lot.checked
      ensures var f, m := Carried(fin, id), MoveOn(cfg, fin, sale, need, lot); Change(f)(m) + PieceWeight(f)(m) == 0.0
    {
      MoveKeepsCost(cfg, fin, sale, need, lot);
    }
  }

  lemma {:induction false} CarriedParts(fin: seq<FinTx>, id: nat, xs: seq<Tx>)
    ensures SumBy(Carried(fin, id), xs) == SumBy(FamilyCost(id), xs) + SumBy(FamilyDue(fin, id), xs)
  {
    SumTogether(FamilyCost(id), FamilyDue(fin, id), Carried(fin, id), xs);
  }

  /** In a family only the root can have extras due. */
  lemma {:induction false} DueOfRoot(fin: seq<FinTx>, txs: seq<Tx>, t: Tx)
    requires Distinct(IdOf, txs) && AllWellFormed(txs) && t in txs && PurchaseShape(t)
    ensures SumBy(FamilyDue(fin, t.id), txs) == if Untouched(t) then NetExtras(fin, t) else 0.0
  {
    forall x | x in txs && x.id != t.id ensures FamilyDue(fin, t.id)(x) == 0.0 {
      assert WellFormed(x);
    }
    SumSingle(FamilyDue(fin, t.id), txs, t);
  }

  /** A calculation changes the cost of a purchase and its splits only when it first draws on the
      purchase, and then by exactly the extras it reads. */
  lemma {:induction false} ExtrasStep(cfg: Config, fin: seq<FinTx>, s: State, d: int, x: Tx, t: Tx)
    requires Inv(s) && Settle(cfg, fin, s.txs, d).Ok? && cfg.halfUnit > 0.0
             && SalesTotal(s.txs, d) <= PurchasesTotal(s.txs, d)
    requires var s' := Commit(s, Settle(cfg, fin, s.txs, d).work, SortedSales(s.txs, d));
             x in s.txs && t in s'.txs && PurchaseShape(x) && Evolves(x, t) && x.id == t.id
    ensures var s' := Commit(s, Settle(cfg, fin, s.txs, d).work, SortedSales(s.txs, d));
            SumBy(FamilyCost(x.id), s'.txs)
            == SumBy(FamilyCost(x.id), s.txs) + if Untouched(x) && !Untouched(t) then NetExtras(fin, x) else 0.0
    ensures !Untouched(x) ==> !Untouched(t)
  {
    var s' := Commit(s, Settle(cfg, fin, s.txs, d).work, SortedSales(s.txs, d));
    EvolvesShape(x, t);
    CommitValid(cfg, fin, s, d);
    CarriedExchanges(cfg, fin, x.id);
    BookConserves(cfg, fin, s, d, Carried(fin, x.id));
    CarriedParts(fin, x.id, s.txs);
    CarriedParts(fin, x.id, s'.txs);
    DueOfRoot(fin, s.txs, x);
    DueOfRoot(fin, s'.txs, t);
  }

  // ----- Extras over a whole run -----

  ghost predicate FirstTouched(before: seq<Tx>, after: seq<Tx>, x: Tx) {
    x in before && PurchaseShape(x) && Untouched(x) && exists t :: t in after && t.id == x.id && !Untouched(t)
  }

  /** The extras a purchase took in since the last reset, from the history alone: those of the
      Financial Book at the calculation that first drew on it. */
  ghost function TakenIn(cfg: Config, steps: seq<Step>, id: nat): real
    decreases |steps|
  {
    if |steps| == 0 then 0.0
    else
      var init, step := steps[..|steps| - 1], steps[|steps| - 1];
      var s, s' := Run(cfg, init), Run(cfg, steps);
      if step.Resetting? || (step.Calculating? && s.rebuild) then
        if ResetLocked(s) then TakenIn(cfg, init, id) else 0.0
      else if step.Calculating? && exists x :: FirstTouched(s.txs, s'.txs, x) && x.id == id then
        var x :| FirstTouched(s.txs, s'.txs, x) && x.id == id;
        TakenIn(cfg, init, id) + NetExtras(step.fin, x)
      else TakenIn(cfg, init, id)
  }

  /** Each purchase and its splits cost what was paid plus `taken`, nothing while untouched. */
  ghost predicate ExtrasHold(s: State, taken: nat -> real) {
    && (forall t :: t in s.txs && PurchaseShape(t) ==>
          && SumBy(FamilyCost(t.id), s.txs) == t.purchaseCost.value + taken(t.id)
          && (Untouched(t) ==> taken(t.id) == 0.0))
    && (forall id: nat :: id >= s.nextId ==> SumBy(FamilyCost(id), s.txs) == 0.0 && taken(id) == 0.0)
  }

  lemma {:induction false} ArriveExtras(s: State, f: FinTx, millis: nat, taken: nat -> real)
    requires Inv(s) && ExtrasHold(s, taken)
    ensures ExtrasHold(Arrive(s, f, millis), taken)
  {
    var s' := Arrive(s, f, millis);
    if s' != s {
      var t := Replica(f, s.nextId, millis).value;
      ReplicaShape(f, s.nextId, millis);
      assert s'.txs == s.txs + [t];
      forall id: nat ensures SumBy(FamilyCost(id), s'.txs) == SumBy(FamilyCost(id), s.txs) + FamilyCost(id)(t) {
        SumSnoc(FamilyCost(id), s.txs, t);
      }
    }
  }

  lemma {:induction false} DeleteExtras(s: State, f: FinTx, taken: nat -> real)
    requires Inv(s) && ExtrasHold(s, taken)
    ensures ExtrasHold(Delete(s, f), taken)
  {
    var s', found := Delete(s, f), Filter(HasRemote(f.id), s.txs);
    FilterSound(HasRemote(f.id), s.txs);
    if f.posted && IsPurchaseDocument(f) && |found| > 0 {
      var root := found[0];
      assert root in found;
      FilterSound(OutOfFamily(root), s.txs);
      forall id: nat | id != root.id ensures SumBy(FamilyCost(id), s'.txs) == SumBy(FamilyCost(id), s.txs) {
        forall x | x in s.txs && !OutOfFamily(root)(x) ensures FamilyCost(id)(x) == 0.0 {
          if x.id == root.id { SameIdSame(s.txs, x, root); }
        }
        SumFilter(FamilyCost(id), OutOfFamily(root), s.txs);
      }
    }
  }

  lemma {:induction false} OriginCosts(txs: seq<Tx>)
    requires AllWellFormed(txs)
    ensures forall t :: t in Origin(txs) && PurchaseShape(t) ==> t.totalCost == t.purchaseCost
  {
    var rs := Filter(IsReplica, txs);
    forall t | t in Origin(txs) && PurchaseShape(t) ensures t.totalCost == t.purchaseCost {
      var i :| 0 <= i < |rs| && Origin(txs)[i] == t;
    }
  }

  lemma {:induction false} ResetExtras(s: State)
    requires Inv(s) && !ResetLocked(s)
    ensures ExtrasHold(ResetState(s), (id: nat) => 0.0)
  {
    ResetGivesOrigin(s);
    ResetKeeps(s);
    OriginMembers(s.txs);
    OriginCosts(s.txs);
    FreshExtras(ResetState(s));
  }

  /** In a book of replicas, a family is its root. */
  lemma {:induction false} FreshExtras(s: State)
    requires Valid(s) && forall t :: t in s.txs ==> IsReplica(t) && (PurchaseShape(t) ==> t.totalCost == t.purchaseCost)
    ensures ExtrasHold(s, (id: nat) => 0.0)
  {
    forall t | t in s.txs && PurchaseShape(t) ensures SumBy(FamilyCost(t.id), s.txs) == t.purchaseCost.value {
      SumSingle(FamilyCost(t.id), s.txs, t);
    }
    forall id: nat | id >= s.nextId ensures SumBy(FamilyCost(id), s.txs) == 0.0 {
      SumZero(FamilyCost(id), s.txs);
    }
  }

  /** What a calculation adds: the extras of the purchases it first draws on. */
  ghost predicate AddsFirst(fin: seq<FinTx>, s: State, s': State, taken: nat -> real, taken': nat -> real) {
    forall id: nat ::
      && (forall x :: FirstTouched(s.txs, s'.txs, x) && x.id == id ==> taken'(id) == taken(id) + NetExtras(fin, x))
      && ((forall x :: FirstTouched(s.txs, s'.txs, x) ==> x.id != id) ==> taken'(id) == taken(id))
  }

  lemma {:induction false} CalculateExtras(cfg: Config, fin: seq<FinTx>, s: State, d: int, taken: nat -> real,
                                           taken': nat -> real)
    requires Inv(s) && ExtrasHold(s, taken) && cfg.halfUnit > 0.0 && Calculate(cfg, fin, s, d).0.Calculated?
    requires AddsFirst(fin, s, Calculate(cfg, fin, s, d).1, taken, taken')
    ensures ExtrasHold(Calculate(cfg, fin, s, d).1, taken')
  {
    var s' := Calculate(cfg, fin, s, d).1;
    forall t | t in s'.txs && PurchaseShape(t)
      ensures SumBy(FamilyCost(t.id), s'.txs) == t.purchaseCost.value + taken'(t.id)
              && (Untouched(t) ==> taken'(t.id) == 0.0)
    {
      PurchaseExtras(cfg, fin, s, d, taken, taken', t);
    }
    forall id: nat | id >= s'.nextId ensures SumBy(FamilyCost(id), s'.txs) == 0.0 && taken'(id) == 0.0 {
      NoFamilyYet(cfg, fin, s, d, id);
      assert taken(id) == 0.0;
    }
  }

  lemma {:induction false} PurchaseExtras(cfg: Config, fin: seq<FinTx>, s: State, d: int, taken: nat -> real,
                                          taken': nat -> real, t: Tx)
    requires Inv(s) && ExtrasHold(s, taken) && cfg.halfUnit > 0.0 && Calculate(cfg, fin, s, d).0.Calculated?
    requires AddsFirst(fin, s, Calculate(cfg, fin, s, d).1, taken, taken') && t in Calculate(cfg, fin, s, d).1.txs
             && PurchaseShape(t)
    ensures SumBy(FamilyCost(t.id), Calculate(cfg, fin, s, d).1.txs) == t.purchaseCost.value + taken'(t.id)
    ensures Untouched(t) ==> taken'(t.id) == 0.0
  {
    var s' := Calculate(cfg, fin, s, d).1;
    CommitValid(cfg, fin, s, d);
    var x := RootBefore(cfg, fin, s, d, t);
    ExtrasStep(cfg, fin, s, d, x, t);
    FirstTouchedIff(s, s', x, t);
    assert taken(x.id) == taken(t.id);
  }

  lemma {:induction false} FirstTouchedIff(s: State, s': State, x: Tx, t: Tx)
    requires Distinct(IdOf, s.txs) && Distinct(IdOf, s'.txs) && x in s.txs && t in s'.txs && x.id == t.id
             && PurchaseShape(x)
    ensures FirstTouched(s.txs, s'.txs, x) == (Untouched(x) && !Untouched(t))
    ensures forall y :: FirstTouched(s.txs, s'.txs, y) && y.id == x.id ==> y == x
  {
    if FirstTouched(s.txs, s'.txs, x) {
      var t' :| t' in s'.txs && t'.id == x.id && !Untouched(t');
      SameIdSame(s'.txs, t, t');
    }
    forall y | FirstTouched(s.txs, s'.txs, y) && y.id == x.id ensures y == x { SameIdSame(s.txs, x, y); }
  }

  lemma {:induction false} NoFamilyYet(cfg: Config, fin: seq<FinTx>, s: State, d: int, id: nat)
    requires Inv(s) && Settle(cfg, fin, s.txs, d).Ok? && id >= s.nextId && SumBy(FamilyCost(id), s.txs) == 0.0
    ensures var s' := Commit(s, Settle(cfg, fin, s.txs, d).work, SortedSales(s.txs, d));
            id >= s'.nextId ==> SumBy(FamilyCost(id), s'.txs) == 0.0
    ensures forall x :: x in s.txs ==> x.id != id
  {
    var s' := Commit(s, Settle(cfg, fin, s.txs, d).work, SortedSales(s.txs, d));
    CommitValid(cfg, fin, s, d);
    CarriedExchanges(cfg, fin, id);
    BookConserves(cfg, fin, s, d, Carried(fin, id));
    CarriedParts(fin, id, s.txs);
    CarriedParts(fin, id, s'.txs);
    if id >= s'.nextId {
      NothingDue(fin, s, id);
      NothingDue(fin, s', id);
    }
  }

  lemma {:induction false} NothingDue(fin: seq<FinTx>, s: State, id: nat)
    requires Valid(s) && id >= s.nextId
    ensures SumBy(FamilyDue(fin, id), s.txs) == 0.0
  {
    forall x | x in s.txs ensures FamilyDue(fin, id)(x) == 0.0 { assert WellFormed(x); }
    SumZero(FamilyDue(fin, id), s.txs);
  }

  ghost function TakenAfter(cfg: Config, steps: seq<Step>): nat -> real { (id: nat) => TakenIn(cfg, steps, id) }

  lemma {:induction false} SameTaken(s: State, taken: nat -> real, taken': nat -> real)
    requires ExtrasHold(s, taken) && forall id: nat :: taken(id) == taken'(id)
    ensures ExtrasHold(s, taken')
  {}

  /** What the history adds at a step that is neither a calculation nor a reset: nothing. */
  ghost predicate TakesNothing(taken: nat -> real, taken': nat -> real) { forall id: nat :: taken'(id) == taken(id) }

  lemma {:induction false} OtherStepTakes(cfg: Config, steps: seq<Step>)
    requires |steps| > 0 && !steps[|steps| - 1].Calculating? && !steps[|steps| - 1].Resetting?
    ensures TakesNothing(TakenAfter(cfg, steps[..|steps| - 1]), TakenAfter(cfg, steps))
  {}

  lemma {:induction false} ResetTakes(cfg: Config, steps: seq<Step>)
    requires |steps| > 0
    requires var s, step := Run(cfg, steps[..|steps| - 1]), steps[|steps| - 1];
             step.Resetting? || (step.Calculating? && s.rebuild)
    ensures var s, taken := Run(cfg, steps[..|steps| - 1]), TakenAfter(cfg, steps[..|steps| - 1]);
            TakesNothing(if ResetLocked(s) then taken else (id: nat) => 0.0, TakenAfter(cfg, steps))
  {}

  lemma {:induction false} ResettingExtras(s: State, taken: nat -> real, taken': nat -> real)
    requires Inv(s) && ExtrasHold(s, taken) && TakesNothing(if ResetLocked(s) then taken else (id: nat) => 0.0, taken')
    ensures ExtrasHold(ResetState(s), taken')
  {
    if ResetLocked(s) {
      SameTaken(s, taken, taken');
    } else {
      ResetExtras(s);
      SameTaken(ResetState(s), (id: nat) => 0.0, taken');
    }
  }

  lemma {:induction false} OtherExtras(cfg: Config, s: State, step: Step, taken: nat -> real, taken': nat -> real)
    requires Inv(s) && ExtrasHold(s, taken) && !step.Calculating? && !step.Resetting? && TakesNothing(taken, taken')
    ensures ExtrasHold(Do(cfg, s, step), taken')
  {
    if step.Arrival? { ArriveExtras(s, step.f, step.millis, taken); }
    if step.Deletion? { DeleteExtras(s, step.f, taken); }
    SameTaken(Do(cfg, s, step), taken, taken');
  }

  /** Extras absorbed exactly once: in every reachable state, a purchase and its splits cost what
      was paid for it plus the extras read when it was first drawn on since the last reset. */
  lemma {:induction false} ExtrasOnce(cfg: Config, steps: seq<Step>)
    requires AdmissibleRun(cfg, steps) && cfg.halfUnit > 0.0
    ensures ExtrasHold(Run(cfg, steps), TakenAfter(cfg, steps))
    decreases |steps|
  {
    if |steps| > 0 {
      var init, step := steps[..|steps| - 1], steps[|steps| - 1];
      var s, taken := Run(cfg, init), TakenAfter(cfg, init);
      ExtrasOnce(cfg, init);
      RunKeeps(cfg, init);
      if step.Resetting? || (step.Calculating? && s.rebuild) {
        ResetTakes(cfg, steps);
        ResettingExtras(s, taken, TakenAfter(cfg, steps));
      } else if step.Calculating? {
        TakenAddsFirst(cfg, steps);
        CalculatingExtras(cfg, step.fin, s, step.toDate, taken, TakenAfter(cfg, steps));
      } else {
        OtherStepTakes(cfg, steps);
        OtherExtras(cfg, s, step, taken, TakenAfter(cfg, steps));
      }
    }
  }

  /** The history adds exactly what a calculation adds. */
  lemma {:induction false} TakenAddsFirst(cfg: Config, steps: seq<Step>)
    requires |steps| > 0
    requires var s, step := Run(cfg, steps[..|steps| - 1]), steps[|steps| - 1];
             Distinct(IdOf, s.txs) && step.Calculating? && !s.rebuild
    ensures AddsFirst(steps[|steps| - 1].fin, Run(cfg, steps[..|steps| - 1]), Run(cfg, steps),
                      TakenAfter(cfg, steps[..|steps| - 1]), TakenAfter(cfg, steps))
  {
    var s, s' := Run(cfg, steps[..|steps| - 1]), Run(cfg, steps);
    forall x, y | FirstTouched(s.txs, s'.txs, x) && FirstTouched(s.txs, s'.txs, y) && x.id == y.id ensures x == y {
      SameIdSame(s.txs, x, y);
    }
  }

  lemma {:induction false} NoneTouched(s: State, fin: seq<FinTx>, taken: nat -> real, taken': nat -> real)
    requires Distinct(IdOf, s.txs) && ExtrasHold(s, taken) && AddsFirst(fin, s, s, taken, taken')
    ensures ExtrasHold(s, taken')
  {
    forall x ensures !FirstTouched(s.txs, s.txs, x) {
      if FirstTouched(s.txs, s.txs, x) {
        var t :| t in s.txs && t.id == x.id && !Untouched(t);
        SameIdSame(s.txs, x, t);
      }
    }
  }

  lemma {:induction false} CalculatingExtras(cfg: Config, fin: seq<FinTx>, s: State, d: int, taken: nat -> real,
                                             taken': nat -> real)
    requires Inv(s) && ExtrasHold(s, taken) && cfg.halfUnit > 0.0
    requires AddsFirst(fin, s, Calculate(cfg, fin, s, d).1, taken, taken')
    ensures ExtrasHold(Calculate(cfg, fin, s, d).1, taken')
  {
    if Calculate(cfg, fin, s, d).0.Calculated? {
      CalculateExtras(cfg, fin, s, d, taken, taken');
    } else {
      NoneTouched(s, fin, taken, taken');
    }
  }

  // ----- Cost conservation -----

  /** What an open purchase carries, extras due included. */
  function OpenCarried(fin: seq<FinTx>): Tx -> real {
    (t: Tx) => if t.checked || t.flow != BuyToGood then 0.0 else UpdatedCost(fin, t)
  }

  function SoldOff(m: Move): real { 0.0 - SoldCost(m) }

  lemma {:induction false} SumNegated(moves: seq<Move>)
    ensures SumBy(SoldOff, moves) == 0.0 - MovedCost(moves)
  {
    if |moves| > 0 { SumNegated(moves[..|moves| - 1]); }
  }

  lemma {:induction false} DrawOpenCost(cfg: Config, fin: seq<FinTx>, sale: Tx, lots: seq<Tx>)
    requires PurchaseLots(lots)
    ensures var d := DrawFor(RunMovers(cfg, fin), sale, lots);
            SumBy(OpenCarried(fin), d.lots) + MovedCost(d.moves) == SumBy(OpenCarried(fin), lots)
  {
    var mover, f := SaleMover(cfg, fin, sale), OpenCarried(fin);
    SaleMoverLawful(cfg, fin, sale);
    forall n: Quantity, lot: Tx | !lot.checked && lot in lots
      ensures Change(f)(mover(n, lot)) == SoldOff(mover(n, lot))
    {
      MoveKeepsCost(cfg, fin, sale, n, lot);
    }
    TakeSum(mover, sale.amount, lots, f);
    var moves := Take(mover, sale.amount, lots).moves;
    TakeMoves(mover, sale.amount, lots, m => Change(f)(m) == SoldOff(m));
    SumCong(Change(f), SoldOff, moves);
    SumNegated(moves);
  }

  lemma {:induction false} RunOpenCost(cfg: Config, fin: seq<FinTx>, sales: seq<Tx>, w: Work)
    requires PurchaseLots(w.lots)
    ensures var v := ProcessSales(RunMovers(cfg, fin), cfg.halfUnit, sales, w);
            SumBy(OpenCarried(fin), v.lots) + SumBy(PostedAmount, v.cogs)
              == SumBy(OpenCarried(fin), w.lots) + SumBy(PostedAmount, w.cogs)
    decreases |sales|
  {
    if |sales| > 0 {
      var movers, init, sale := RunMovers(cfg, fin), sales[..|sales| - 1], sales[|sales| - 1];
      RunOpenCost(cfg, fin, init, w);
      var v := ProcessSales(movers, cfg.halfUnit, init, w);
      ProcessLots(movers, cfg.halfUnit, init, w);
      RunEvolves(cfg, fin, init, w.lots);
      AllEvolveShape(w.lots, v.lots);
      DrawOpenCost(cfg, fin, sale, v.lots);
      SumSnoc(PostedAmount, v.cogs, CogsOf(sale, DrawFor(movers, sale, v.lots)));
    }
  }

  lemma {:induction false} OpenCostKept(fin: seq<FinTx>)
    ensures IgnoresIds(OpenCarried(fin)) && SalesKeep(OpenCarried(fin))
  {}

  /** Cost conservation under any rounding: the COGS posted by a calculation plus what the open
      purchases carry after it is what they carried before it. */
  lemma {:induction false} CostConservation(cfg: Config, fin: seq<FinTx>, s: State, d: int)
    requires Inv(s) && Settle(cfg, fin, s.txs, d).Ok?
    ensures var w := Settle(cfg, fin, s.txs, d).work;
            var s' := Commit(s, w, SortedSales(s.txs, d));
            SumBy(PostedAmount, w.cogs) + SumBy(OpenCarried(fin), s'.txs) == SumBy(OpenCarried(fin), s.txs)
  {
    var f, w := OpenCarried(fin), Settle(cfg, fin, s.txs, d).work;
    OpenCostKept(fin);
    BookTransfer(cfg, fin, s, d, f);
    OpeningOpenCost(fin, s.txs, d);
    OpeningStages(s.txs, d);
    RunOpenCost(cfg, fin, SortedSales(s.txs, d), Opening(s.txs, d).work);
    KindsApart(s.txs, d);
    CollectedShapes(s.txs, d);
    RunSalesKeep(RunMovers(cfg, fin), cfg.halfUnit, SortedSales(s.txs, d), Opening(s.txs, d).work, f);
    SettleCreates(cfg, fin, s.txs, d);
    SumZero(f, w.created);
  }

  lemma {:induction false} OpeningOpenCost(fin: seq<FinTx>, txs: seq<Tx>, d: int)
    requires Sound(txs) && Opening(txs, d).Ok?
    ensures SumBy(OpenCarried(fin), Opening(txs, d).work.lots) == SumBy(OpenCarried(fin), Lots(txs, d))
  {
    var f, ps := OpenCarried(fin), Purchases(txs, d);
    LotsAreThePurchases(txs, d);
    MembersShapes(txs, d);
    var v := ApplyNotes(NotesBy(txs, d), Start(ps)).work;
    NotesFrame(NotesBy(txs, d), Start(ps));
    PointwiseSame(f, v.lots, ps);
    SortSum(f, ps);
    SortSum(f, v.lots);
  }

  lemma {:induction false} PointwiseSame(f: Tx -> real, xs: seq<Tx>, ys: seq<Tx>)
    requires |xs| == |ys| && forall i :: 0 <= i < |xs| ==> f(xs[i]) == f(ys[i])
    ensures SumBy(f, xs) == SumBy(f, ys)
  {
    if |xs| > 0 { PointwiseSame(f, xs[..|xs| - 1], ys[..|ys| - 1]); }
  }

  function OpenTotalCost(t: Tx): real { if t.checked || t.flow != BuyToGood then 0.0 else Cost(t) }

  function OpenDue(fin: seq<FinTx>): Tx -> real {
    (t: Tx) => if t.checked || t.flow != BuyToGood || !Untouched(t) then 0.0 else NetExtras(fin, t)
  }

  /** The extras of the purchases that a calculation first drew on. */
  function NewExtras(fin: seq<FinTx>, before: seq<Tx>, after: seq<Tx>): real
    requires |before| <= |after|
    decreases |before|
  {
    if |before| == 0 then 0.0
    else
      var n := |before| - 1;
      NewExtras(fin, before[..n], after)
      + if IsPurchase(before[n]) && IsReplica(before[n]) && Untouched(before[n])
        && !Untouched(after[n]) then NetExtras(fin, before[n]) else 0.0
  }

  lemma {:induction false} NewExtrasSum(fin: seq<FinTx>, before: seq<Tx>, after: seq<Tx>, all: seq<Tx>)
    requires |before| == |after| && after <= all
    requires forall i :: 0 <= i < |before| ==> WellFormed(before[i]) && Evolves(before[i], after[i])
    ensures NewExtras(fin, before, all) == SumBy(OpenDue(fin), before) - SumBy(OpenDue(fin), after)
    decreases |before|
  {
    if |before| > 0 {
      var n := |before| - 1;
      NewExtrasSum(fin, before[..n], after[..n], all);
      EvolvesShape(before[n], after[n]);
      assert all[n] == after[n];
    }
  }

  /** Cost conservation: the COGS posted by a calculation plus the total cost of the open
      purchases after it equals their total cost before it plus the additional costs, less the
      credits, of the purchases it first drew on, whatever the rounding. */
  lemma {:induction false} CostsBalance(cfg: Config, fin: seq<FinTx>, s: State, d: int)
    requires Inv(s) && Settle(cfg, fin, s.txs, d).Ok?
    ensures var w := Settle(cfg, fin, s.txs, d).work;
            var s' := Commit(s, w, SortedSales(s.txs, d));
            && |s.txs| <= |s'.txs|
            && SumBy(PostedAmount, w.cogs) + SumBy(OpenTotalCost, s'.txs)
              == SumBy(OpenTotalCost, s.txs) + NewExtras(fin, s.txs, s'.txs)
  {
    CostConservation(cfg, fin, s, d);
    OpenParts(fin, s.txs);
    OpenParts(fin, Commit(s, Settle(cfg, fin, s.txs, d).work, SortedSales(s.txs, d)).txs);
    DueAfter(cfg, fin, s, d);
  }

  lemma {:induction false} OpenParts(fin: seq<FinTx>, txs: seq<Tx>)
    ensures SumBy(OpenTotalCost, txs) + SumBy(OpenDue(fin), txs) == SumBy(OpenCarried(fin), txs)
  {
    SumTogether(OpenTotalCost, OpenDue(fin), OpenCarried(fin), txs);
  }

  /** What is no longer due after a calculation was taken in by it. */
  lemma {:induction false} DueAfter(cfg: Config, fin: seq<FinTx>, s: State, d: int)
    requires Inv(s) && Settle(cfg, fin, s.txs, d).Ok?
    ensures var s' := Commit(s, Settle(cfg, fin, s.txs, d).work, SortedSales(s.txs, d));
            |s.txs| <= |s'.txs|
              && NewExtras(fin, s.txs, s'.txs) == SumBy(OpenDue(fin), s.txs) - SumBy(OpenDue(fin), s'.txs)
  {
    var w := Settle(cfg, fin, s.txs, d).work;
    CommitBook(cfg, fin, s, d);
    DueOfOlds(fin, s.txs, Apply(w.updates, s.txs), Posted(w.created, s));
  }

  lemma {:induction false} DueOfOlds(fin: seq<FinTx>, txs: seq<Tx>, olds: seq<Tx>, posted: seq<Tx>)
    requires AllWellFormed(txs) && AllEvolve(txs, olds) && AllSplits(posted)
    ensures |txs| <= |olds + posted|
            && NewExtras(fin, txs, olds + posted) == SumBy(OpenDue(fin), txs) - SumBy(OpenDue(fin), olds + posted)
  {
    SumAppend(OpenDue(fin), olds, posted);
    forall t | t in posted ensures OpenDue(fin)(t) == 0.0 { var i :| 0 <= i < |posted| && posted[i] == t; }
    SumZero(OpenDue(fin), posted);
    assert forall i :: 0 <= i < |txs| ==> txs[i] in txs;
    NewExtrasSum(fin, txs, olds, olds + posted);
  }

  // ----- Rounding drift over a run -----

  /** The cost of what was sold of root `id`. */
  function SoldFor(id: nat): Tx -> real { (t: Tx) => if InFamily(t, id) && t.checked then Cost(t) else 0.0 }

  function LeftFor(fin: seq<FinTx>, id: nat): Tx -> real {
    (t: Tx) => if InFamily(t, id) && !t.checked then UpdatedCost(fin, t) else 0.0
  }

  lemma {:induction false} DriftRelates(cfg: Config, fin: seq<FinTx>, eps: real, sale: Tx, a: Tx, lots: seq<Tx>, j: nat)
    requires ExactTimes(cfg) && DivWithin(cfg, eps) && eps >= 0.0 && a.amount > 0.0 && j < |lots|
    requires !lots[j].checked ==> Drifted(fin, eps, a, lots[j])
    ensures var d := DrawFor(RunMovers(cfg, fin), sale, lots);
            |d.lots| == |lots| && (!d.lots[j].checked ==> Drifted(fin, eps, a, d.lots[j]))
  {
    var mover := SaleMover(cfg, fin, sale);
    var r := (x: Tx, y: Tx) => (!x.checked ==> Drifted(fin, eps, a, x)) ==> (!y.checked ==> Drifted(fin, eps, a, y));
    forall n: Quantity, lot: Tx | !lot.checked && lot in lots ensures r(lot, mover(n, lot).after) {
      if n < lot.amount && Drifted(fin, eps, a, lot) {
        RemainderDrift(cfg, fin, eps, n, a, lot);
      }
    }
    TakeRelates(mover, sale.amount, lots, r);
    assert r(lots[j], Take(mover, sale.amount, lots).lots[j]);
  }

  lemma {:induction false} RunDrift(cfg: Config, fin: seq<FinTx>, eps: real, sales: seq<Tx>, a: Tx, lots: seq<Tx>,
                                    j: nat)
    requires ExactTimes(cfg) && DivWithin(cfg, eps) && eps >= 0.0 && a.amount > 0.0 && j < |lots|
    requires !lots[j].checked ==> Drifted(fin, eps, a, lots[j])
    ensures var after := LotsAfter(RunMovers(cfg, fin), sales, lots);
            |after| == |lots| && (!after[j].checked ==> Drifted(fin, eps, a, after[j]))
    decreases |sales|
  {
    if |sales| > 0 {
      RunDrift(cfg, fin, eps, sales[..|sales| - 1], a, lots, j);
      DriftRelates(cfg, fin, eps, sales[|sales| - 1], a, LotsAfter(RunMovers(cfg, fin), sales[..|sales| - 1], lots), j);
    }
  }

  lemma {:induction false} DriftedItself(fin: seq<FinTx>, eps: real, a: Tx)
    requires a.amount > 0.0
    ensures Drifted(fin, eps, a, a)
  {
    assert UpdatedCost(fin, a) / a.amount * 0.0 == 0.0;
  }

  /** What a lot carried is what was sold of it and what is left. */
  lemma {:induction false} LotAccounts(cfg: Config, fin: seq<FinTx>, sales: seq<Tx>, lots: seq<Tx>, j: nat)
    requires PurchaseLots(lots) && OpenRoots(lots) && Distinct(IdOf, lots) && j < |lots|
    ensures var w, id := ProcessSales(RunMovers(cfg, fin), cfg.halfUnit, sales, Start(lots)), lots[j].id;
            && |w.lots| == |lots|
            && SumBy(SoldFor(id), w.lots) + SumBy(SoldFor(id), w.created)
              + (if w.lots[j].checked then 0.0 else UpdatedCost(fin, w.lots[j]))
               == UpdatedCost(fin, lots[j])
  {
    var w, id := ProcessSales(RunMovers(cfg, fin), cfg.halfUnit, sales, Start(lots)), lots[j].id;
    CarriedExchanges(cfg, fin, id);
    RunConserves(cfg, fin, sales, Start(lots), Carried(fin, id));
    ProcessLots(RunMovers(cfg, fin), cfg.halfUnit, sales, Start(lots));
    RunEvolves(cfg, fin, sales, lots);
    AllEvolveShape(lots, w.lots);
    RunCreates(cfg, fin, sales, Start(lots));
    SumTogether(SoldFor(id), LeftFor(fin, id), Carried(fin, id), w.lots);
    SumTogether(SoldFor(id), LeftFor(fin, id), Carried(fin, id), w.created);
    SumZero(LeftFor(fin, id), w.created);
    OnlyLot(Carried(fin, id), lots, lots, j);
    OnlyLot(LeftFor(fin, id), lots, w.lots, j);
  }

  /** In a list of roots, a family weight lies on its root alone. */
  lemma {:induction false} OnlyLot(f: Tx -> real, base: seq<Tx>, lots: seq<Tx>, j: nat)
    requires Distinct(IdOf, base) && |base| == |lots| && j < |lots|
    requires forall i :: 0 <= i < |lots| ==> lots[i].id == base[i].id && lots[i].parent.None?
    requires forall t: Tx :: t.parent.None? && t.id != base[j].id ==> f(t) == 0.0
    ensures SumBy(f, lots) == f(lots[j])
  {
    assert Distinct(IdOf, lots) by {
      forall a, b | 0 <= a < b < |lots|
        ensures IdOf(lots[a]) != IdOf(lots[b]) { assert IdOf(base[a]) != IdOf(base[b]); }
    }
    SumSingle(f, lots, lots[j]);
  }

  /** What was taken of lot `a`, now `b`: all it carried once it is used up, and before that its
      pro-rata share up to `eps` per unit taken. */
  ghost predicate DriftBound(fin: seq<FinTx>, eps: real, a: Tx, b: Tx, taken: real)
    requires a.amount > 0.0
  {
    && (b.checked ==> taken == UpdatedCost(fin, a))
    && (!b.checked ==> ProRata(UpdatedCost(fin, a), a.amount, taken, a.amount - b.amount, eps))
  }

  lemma {:induction false} DriftTotal(fin: seq<FinTx>, eps: real, a: Tx, b: Tx, taken: real)
    requires a.amount > 0.0 && (!b.checked ==> Drifted(fin, eps, a, b))
    requires taken + (if b.checked then 0.0 else UpdatedCost(fin, b)) == UpdatedCost(fin, a)
    ensures DriftBound(fin, eps, a, b, taken)
  {}

  /** Rounding drift bound: if every unit cost is off by at most `eps`, what the sales of a run
      took of a lot costs its pro-rata share up to `eps` per unit taken, and exactly what the lot
      carried once it is used up. */
  lemma {:induction false} RoundingDrift(cfg: Config, fin: seq<FinTx>, eps: real, sales: seq<Tx>, lots: seq<Tx>, j: nat)
    requires ExactTimes(cfg) && DivWithin(cfg, eps) && eps >= 0.0
    requires PurchaseLots(lots) && OpenRoots(lots) && Distinct(IdOf, lots) && j < |lots|
    ensures lots[j].amount > 0.0
    ensures var w, id := ProcessSales(RunMovers(cfg, fin), cfg.halfUnit, sales, Start(lots)), lots[j].id;
            |w.lots| == |lots|
              && DriftBound(fin, eps, lots[j], w.lots[j], SumBy(SoldFor(id), w.lots) + SumBy(SoldFor(id), w.created))
  {
    var w, id := ProcessSales(RunMovers(cfg, fin), cfg.halfUnit, sales, Start(lots)), lots[j].id;
    assert lots[j].amount > 0.0 && !lots[j].checked by { assert PurchaseShape(lots[j]); }
    assert |w.lots| == |lots| && (!w.lots[j].checked ==> Drifted(fin, eps, lots[j], w.lots[j])) by {
      DriftedItself(fin, eps, lots[j]);
      RunDrift(cfg, fin, eps, sales, lots[j], lots, j);
      ProcessLots(RunMovers(cfg, fin), cfg.halfUnit, sales, Start(lots));
    }
    LotAccounts(cfg, fin, sales, lots, j);
    DriftTotal(fin, eps, lots[j], w.lots[j], SumBy(SoldFor(id), w.lots) + SumBy(SoldFor(id), w.created));
  }
}
