/** The calculation date as a watermark, the rebuild flag, and replication once per document. */
module Watermark {
  import opened Lists
  import opened Ledger
  import opened FifoOrder
  import opened Calculation
  import opened Reset
  import opened Replication
  import opened Books
  import opened Collected
  import opened Commitment
  import opened ResetFacts
  import opened Runs
  import opened Families
  import opened TwoRuns
  import opened Batch

  // ----- The calculation date -----

  ghost predicate NotEarlier(a: CalcDate, b: CalcDate) { a.Value().Some? ==>
                                                          b.Value().Some? && a.Value().value <= b.Value().value }

  lemma {:induction false} StepAdvances(cfg: Config, s: State, step: Step)
    requires !Resets(s, step)
    ensures NotEarlier(s.calcDate, Do(cfg, s, step).calcDate) && (s.rebuild ==> Do(cfg, s, step).rebuild)
  {
    if step.Calculating? && !s.rebuild {
      assert Calculate(cfg, step.fin, s, step.toDate).1.rebuild == s.rebuild;
    }
  }

  /** Between resets the calculation date never decreases, and the rebuild flag, once set, stays:
      only a reset that finds nothing locked clears them. */
  lemma {:induction false} DateNeverDecreases(cfg: Config, steps: seq<Step>, i: nat)
    requires i <= |steps| && forall k :: i <= k < |steps| ==> !Resets(Run(cfg, steps[..k]), steps[k])
    ensures var a, b := Run(cfg, steps[..i]), Run(cfg, steps);
            NotEarlier(a.calcDate, b.calcDate) && (a.rebuild ==> b.rebuild)
    decreases |steps|
  {
    if i == |steps| {
      assert steps[..i] == steps;
    } else {
      var init, step := steps[..|steps| - 1], steps[|steps| - 1];
      assert steps == init + [step];
      StepsBefore(cfg, steps, i);
      DateNeverDecreases(cfg, init, i);
      assert init[..i] == steps[..i];
      NextAdvances(cfg, Run(cfg, steps[..i]), init, step);
    }
  }

  lemma {:induction false} NextAdvances(cfg: Config, a: State, init: seq<Step>, step: Step)
    requires NotEarlier(a.calcDate, Run(cfg, init).calcDate) && (a.rebuild ==> Run(cfg, init).rebuild)
             && !Resets(Run(cfg, init), step)
    ensures NotEarlier(a.calcDate, Run(cfg, init + [step]).calcDate) && (a.rebuild ==> Run(cfg, init + [step]).rebuild)
  {
    assert (init + [step])[..|init|] == init;
    StepAdvances(cfg, Run(cfg, init), step);
  }

  lemma {:induction false} StepsBefore(cfg: Config, steps: seq<Step>, i: nat)
    requires i < |steps| && forall k :: i <= k < |steps| ==> !Resets(Run(cfg, steps[..k]), steps[k])
    ensures var init := steps[..|steps| - 1]; forall k :: i <= k < |init| ==> !Resets(Run(cfg, init[..k]), init[k])
    ensures !Resets(Run(cfg, steps[..|steps| - 1]), steps[|steps| - 1])
  {
    var init := steps[..|steps| - 1];
    forall k | i <= k < |init| ensures !Resets(Run(cfg, init[..k]), init[k]) { assert init[..k] == steps[..k]; }
  }

  /** Every checked sale is dated no later than the calculation date. */
  ghost predicate Covered(s: State) {
    forall t :: t in s.txs && SaleShape(t) && t.checked ==>
      s.calcDate.Value().Some? && t.date <= s.calcDate.Value().value
  }

  lemma {:induction false} CalculateCovers(cfg: Config, fin: seq<FinTx>, s: State, d: int)
    requires Inv(s) && Covered(s) && cfg.halfUnit > 0.0
    ensures Covered(Calculate(cfg, fin, s, d).1)
  {
    if Calculate(cfg, fin, s, d).0.Calculated? {
      var s' := After1(cfg, fin, s, d);
      assert Passes(cfg, fin, s, d) && Calculate(cfg, fin, s, d).1 == s';
      AfterCogs(cfg, fin, s, d);
      forall t | t in s'.txs && SaleShape(t) && t.checked
        ensures s'.calcDate.Value().Some? && t.date <= s'.calcDate.Value().value
      {
        SaleCovered(cfg, fin, s, d, t);
      }
    }
  }

  lemma {:induction false} SaleCovered(cfg: Config, fin: seq<FinTx>, s: State, d: int, t: Tx)
    requires Inv(s) && Covered(s) && Passes(cfg, fin, s, d) && t in After1(cfg, fin, s, d).txs && SaleShape(t)
             && t.checked
    ensures var c := NewCalcDate(s.calcDate, SortedSales(s.txs, d)); c.Value().Some? && t.date <= c.Value().value
  {
    var x := RootBefore(cfg, fin, s, d, t);
    SameSale(x, t);
    if !x.checked {
      StagedSale(cfg, fin, s, d, x);
      SaleUpToLast(s.txs, d, x);
    }
  }

  lemma {:induction false} SameSale(x: Tx, t: Tx)
    requires WellFormed(x) && Evolves(x, t) && SaleShape(t)
    ensures SaleShape(x) && x.date == t.date
  {
    EvolvesShape(x, t);
  }

  lemma {:induction false} StagedSale(cfg: Config, fin: seq<FinTx>, s: State, d: int, x: Tx)
    requires Passes(cfg, fin, s, d) && x in s.txs && SaleShape(x) && Lookup(WorkOf(cfg, fin, s, d).updates, x) != x
    ensures x in Sales(s.txs, d)
  {
    if x !in Sales(s.txs, d) {
      CollectedShapes(s.txs, d);
      SettleOther(cfg, fin, s.txs, d, x);
    }
  }

  /** The last sorted sale has the latest date. */
  lemma {:induction false} SaleUpToLast(txs: seq<Tx>, d: int, x: Tx)
    requires Distinct(IdOf, txs) && AllWellFormed(txs) && x in Sales(txs, d)
    ensures |SortedSales(txs, d)| > 0 && x.date <= SortedSales(txs, d)[|SortedSales(txs, d)| - 1].date
  {
    CollectedReady(txs, d);
    SortLast(Sales(txs, d));
  }

  lemma {:induction false} ResetCovers(s: State)
    requires Inv(s) && Covered(s)
    ensures Covered(ResetState(s))
  {
    if !ResetLocked(s) {
      ResetGivesOrigin(s);
      OriginMembers(s.txs);
    }
  }

  lemma {:induction false} DeleteCovers(s: State, f: FinTx)
    requires Covered(s)
    ensures Covered(Delete(s, f))
  {
    var found := Filter(HasRemote(f.id), s.txs);
    if |found| > 0 { FilterSound(OutOfFamily(found[0]), s.txs); }
  }

  /** After every run the calculation date is at least the date of every checked sale. */
  lemma {:induction false} DateCoversCheckedSales(cfg: Config, steps: seq<Step>)
    requires AdmissibleRun(cfg, steps) && cfg.halfUnit > 0.0
    ensures Covered(Run(cfg, steps))
    decreases |steps|
  {
    if |steps| > 0 {
      var init, step := steps[..|steps| - 1], steps[|steps| - 1];
      var s := Run(cfg, init);
      DateCoversCheckedSales(cfg, init);
      RunKeeps(cfg, init);
      match step
      case Arrival(f, millis) =>
        if Arrive(s, f, millis) != s { ReplicaShape(f, s.nextId, millis); }
      case Calculating(fin, d) =>
        if s.rebuild { ResetCovers(s); } else { CalculateCovers(cfg, fin, s, d); }
      case Resetting => ResetCovers(s);
      case Deletion(f) => DeleteCovers(s, f);
      case Locking(ids, cogs) =>
    }
  }

  // ----- Replication -----

  lemma {:induction false} FoundAgain(s: State, f: FinTx, millis: nat)
    requires |Filter(HasRemote(f.id), s.txs)| > 0
    ensures Arrive(s, f, millis) == s
  {}

  /** A document that is checked again is found, and nothing happens. */
  lemma {:induction false} ArriveTwice(s: State, f: FinTx, millis: nat, millis': nat)
    ensures Arrive(Arrive(s, f, millis), f, millis') == Arrive(s, f, millis)
  {
    var s' := Arrive(s, f, millis);
    if s' != s {
      FilterSnoc(HasRemote(f.id), s.txs, Replica(f, s.nextId, millis).value);
      FoundAgain(s', f, millis');
    }
  }

  lemma {:induction false} ApartOnce(id: nat, txs: seq<Tx>)
    requires RemotesApart(txs)
    ensures |Filter(HasRemote(id), txs)| <= 1
  {
    if |txs| > 0 {
      var init, x := txs[..|txs| - 1], txs[|txs| - 1];
      ApartOnce(id, init);
      if HasRemote(id)(x) {
        forall t | t in init ensures !HasRemote(id)(t) {
          var i :| 0 <= i < |init| && init[i] == t;
          assert txs[i] == t;
        }
        FilterNone(HasRemote(id), init);
      }
    }
  }

  /** Over every run at most one live transaction is the replica of a document, however often the
      document is checked. */
  lemma {:induction false} ReplicatedOnce(cfg: Config, steps: seq<Step>, id: nat)
    requires AdmissibleRun(cfg, steps) && cfg.halfUnit > 0.0
    ensures |Filter(HasRemote(id), Run(cfg, steps).txs)| <= 1
  {
    RunKeeps(cfg, steps);
    ApartOnce(id, Run(cfg, steps).txs);
  }
}
