/** The logs of an account without the rebuild flag agree, whatever was deleted. */
module UnflaggedLogs {
  import opened Lists
  import opened Ledger
  import opened Allocation
  import opened Settlement
  import opened Calculation
  import opened Reset
  import opened Replication
  import opened Books
  import opened Collected
  import opened Commitment
  import opened ResetFacts
  import opened Runs
  import opened Restoration
  import opened Families
  import opened Marks
  import opened Logs
  import opened TwoRuns
  import opened Incremental
  import opened Batch
  import opened Congruence
  import opened Unflagged
  import opened Watermark

  /** Histories, with any Financial Book at each calculation, in which every calculation since the
      last unlocked reset that went through was timely, its credit notes in time. */
  ghost predicate TimelyRun(cfg: Config, steps: seq<Step>)
    decreases |steps|
  {
    |steps| > 0 ==>
      var init, step := steps[..|steps| - 1], steps[|steps| - 1];
      Resets(Run(cfg, init), step)
      || (TimelyRun(cfg, init) && (step.Calculating? ==> TimelyStep(cfg, step.fin, Run(cfg, init), step.toDate)))
  }

  /** Every purchase that was drawn on is dated at or before the calculation date. */
  ghost predicate DrawnCovered(s: State) {
    forall t :: t in s.txs && PurchaseShape(t) && !Untouched(t) ==> Stale(s.calcDate, t.date)
  }

  lemma {:induction false} CalculateDrawn(cfg: Config, fin: seq<FinTx>, s: State, d: int)
    requires Inv(s) && DrawnCovered(s) && cfg.halfUnit > 0.0
    requires Calculate(cfg, fin, s, d).0.Calculated? && Timely(s.txs, d) && NotesInTime(s.txs, d)
    ensures DrawnCovered(Calculate(cfg, fin, s, d).1)
  {
    OnePasses(cfg, fin, s, d);
    SumAmounts(Sales(s.txs, d));
    SalesNonZero(s.txs, d);
    Truncated(cfg, fin, s, d);
    AfterCogs(cfg, fin, s, d);
    var s', c := After1(cfg, fin, s, d), LastDate(s.txs, d);
    forall t | t in s'.txs && PurchaseShape(t) && !Untouched(t) ensures Stale(s'.calcDate, t.date) {
      DrawnBefore(cfg, fin, s, c, t);
    }
  }

  /** A run up to `c` marks only purchases up to `c`. */
  lemma {:induction false} DrawnBefore(cfg: Config, fin: seq<FinTx>, s: State, c: int, t: Tx)
    requires Inv(s) && DrawnCovered(s) && Passes(cfg, fin, s, c)
    requires t in After1(cfg, fin, s, c).txs && PurchaseShape(t) && !Untouched(t)
    ensures t.date <= c || Stale(s.calcDate, t.date)
  {
    var x := RootBefore(cfg, fin, s, c, t);
    EvolvesShape(x, t);
    if x.date > c { Uncollected(cfg, fin, s, c, x); }
  }

  lemma {:induction false} DeleteDrawn(s: State, f: FinTx)
    requires DrawnCovered(s)
    ensures DrawnCovered(Delete(s, f))
  {
    var found := Filter(HasRemote(f.id), s.txs);
    if |found| > 0 { FilterSound(OutOfFamily(found[0]), s.txs); }
  }

  lemma {:induction false} ResetDrawn(s: State)
    requires Inv(s) && (ResetLocked(s) ==> DrawnCovered(s))
    ensures DrawnCovered(ResetState(s))
  {
    if !ResetLocked(s) {
      assert ResetState(s).txs == Origin(s.txs) by { ResetGivesOrigin(s); }
      OriginUnmarked(s.txs);
    }
  }

  lemma {:induction false} ArriveDrawn(s: State, f: FinTx, millis: nat)
    requires DrawnCovered(s)
    ensures DrawnCovered(Arrive(s, f, millis))
  {}

  lemma {:induction false} StepDrawn(cfg: Config, s: State, step: Step)
    requires Inv(s) && cfg.halfUnit > 0.0
    requires Resets(s, step)
             || (DrawnCovered(s) && (step.Calculating? ==> TimelyStep(cfg, step.fin, s, step.toDate)))
    ensures DrawnCovered(Do(cfg, s, step))
  {
    match step
    case Arrival(f, millis) => ArriveDrawn(s, f, millis);
    case Calculating(fin, d) =>
      if s.rebuild {
        ResetDrawn(s);
      } else if Calculate(cfg, fin, s, d).0.Calculated? {
        CalculateDrawn(cfg, fin, s, d);
      }
    case Resetting => ResetDrawn(s);
    case Deletion(f) => DeleteDrawn(s, f);
    case Locking(ids, cogs) =>
  }

  /** In timely runs every purchase that was drawn on is dated at or before the calculation date. */
  lemma {:induction false} TimelyCovers(cfg: Config, steps: seq<Step>)
    requires AdmissibleRun(cfg, steps) && TimelyRun(cfg, steps) && cfg.halfUnit > 0.0
    ensures DrawnCovered(Run(cfg, steps))
    decreases |steps|
  {
    if |steps| > 0 {
      var init, step := steps[..|steps| - 1], steps[|steps| - 1];
      RunKeeps(cfg, init);
      if !Resets(Run(cfg, init), step) { TimelyCovers(cfg, init); }
      StepDrawn(cfg, Run(cfg, init), step);
    }
  }

  /** A deletion that does not flag the account hits nothing in use. */
  lemma {:induction false} UnflaggedDeletion(s: State, f: FinTx)
    requires Inv(s) && DrawnCovered(s) && Covered(s) && !Delete(s, f).rebuild
    ensures !DeletesUsed(s, f)
  {
    var found := Filter(HasRemote(f.id), s.txs);
    FilterSound(HasRemote(f.id), s.txs);
    forall t | t in s.txs && t.remote == Fin(f.id) && f.posted && IsPurchaseDocument(f) ensures !Used(t) {
      assert t in found && found[0] in found && WellFormed(t);
      SameRemote(s.txs, found[0], t);
      if IsSale(t) { assert SaleShape(t); }
      if IsPurchase(t) { assert t.remote.Fin? && PurchaseShape(t); }
    }
  }

  /** In every state reached by timely runs, an account without the rebuild
      flag has agreeing logs: a deletion that hits something in use flags the account. */
  lemma {:induction false} UnflaggedLogsAgree(cfg: Config, steps: seq<Step>)
    requires AdmissibleRun(cfg, steps) && TimelyRun(cfg, steps) && cfg.halfUnit > 0.0
    ensures !Run(cfg, steps).rebuild ==> LogsAgree(Run(cfg, steps))
    decreases |steps|
  {
    if |steps| > 0 && !Run(cfg, steps).rebuild {
      var init, step := steps[..|steps| - 1], steps[|steps| - 1];
      var s := Run(cfg, init);
      RunKeeps(cfg, init);
      MarksHold(cfg, init);
      if !Resets(s, step) {
        StepAdvances(cfg, s, step);
        UnflaggedLogsAgree(cfg, init);
        if step.Deletion? {
          TimelyCovers(cfg, init);
          DateCoversCheckedSales(cfg, init);
          UnflaggedDeletion(s, step.f);
        }
      }
      StepLogs(cfg, s, step);
    }
  }
}
