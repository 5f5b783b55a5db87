/** What a change of the Financial Book makes of a correct account: additional costs and credits
    that come or go, and the documents that arrive or are deleted with them. */
module BookChanges {
  import opened Lists
  import opened Ledger
  import opened Allocation
  import opened Settlement
  import opened Calculation
  import opened Replication
  import opened Books
  import opened Collected
  import opened Commitment
  import opened Runs
  import opened Families
  import opened Marks
  import opened CostRuns
  import opened TwoRuns
  import opened NoteRuns
  import opened Incremental
  import opened Extras
  import opened Batch
  import opened Unflagged

  // ----- A correct account took in what the Financial Book holds -----

  /** The weight of a split is independent of the id and UUID it happened to get. */
  ghost predicate IgnoresErasure(f: Tx -> real) { forall t {:trigger Erased(t)} :: IsSplit(t) ==> f(Erased(t)) == f(t) }

  /** Books that are the same up to ids of splits have the same sums. */
  lemma {:induction false} SameSums(f: Tx -> real, a: State, b: State)
    requires SameBook(a, b) && IgnoresErasure(f)
    ensures SumBy(f, a.txs) == SumBy(f, b.txs)
  {
    ReplicasAndSplits(f, a.txs);
    ReplicasAndSplits(f, b.txs);
    SumPermuted(f, ErasedAll(Filter(IsSplit, a.txs)), ErasedAll(Filter(IsSplit, b.txs)));
  }

  lemma {:induction false} ReplicasAndSplits(f: Tx -> real, txs: seq<Tx>)
    requires IgnoresErasure(f)
    ensures SumBy(f, txs) == SumBy(f, Filter(IsReplica, txs)) + SumBy(f, ErasedAll(Filter(IsSplit, txs)))
  {
    SumParts(f, IsReplica, IsSplit, txs);
    FilterSound(IsSplit, txs);
    ErasedSum(f, Filter(IsSplit, txs));
  }

  lemma {:induction false} ErasedSum(f: Tx -> real, ys: seq<Tx>)
    requires IgnoresErasure(f) && forall y :: y in ys ==> IsSplit(y)
    ensures SumBy(f, ErasedAll(ys)) == SumBy(f, ys)
  {
    var zs := ErasedAll(ys);
    forall i | 0 <= i < |ys| ensures f(ys[i]) == f(zs[i]) { assert ys[i] in ys && zs[i] == Erased(ys[i]); }
    PointwiseSame(f, ys, zs);
  }

  predicate Touched(t: Tx) { !Untouched(t) }

  /** A purchase that was drawn on. */
  ghost predicate DrawnOn(txs: seq<Tx>, t: Tx) { t in txs && PurchaseShape(t) && Touched(t) }

  /** In a correct account, a purchase that was drawn on costs, with its splits, what was paid for it
      and the extras that the Financial Book holds of it. */
  lemma {:induction false} CorrectTakes(cfg: Config, fin: seq<FinTx>, s: State, t: Tx)
    requires Inv(s) && Correct(cfg, fin, s) && cfg.halfUnit > 0.0 && DrawnOn(s.txs, t)
    ensures SumBy(FamilyCost(t.id), s.txs) == t.purchaseCost.value + NetExtras(fin, t)
  {
    var x := CorrectReference(cfg, fin, s);
    ReferenceTakes(cfg, fin, s, x, t);
  }

  lemma {:induction false} ReferenceTakes(cfg: Config, fin: seq<FinTx>, s: State, x: State, t: Tx)
    requires Inv(s) && Reference(cfg, fin, s, x) && SameBook(s, x) && DrawnOn(s.txs, t)
    ensures SumBy(FamilyCost(t.id), s.txs) == t.purchaseCost.value + NetExtras(fin, t)
  {
    assert DrawnOn(x.txs, t) by { ReplicaShared(x.txs, s.txs, t); }
    SameFamilyCost(s, x, t.id);
    DrawnIsDated(cfg, fin, s, x, t);
    ScratchTakes(cfg, fin, s, s.calcDate.Value().value, t);
  }

  lemma {:induction false} SameFamilyCost(a: State, b: State, id: nat)
    requires SameBook(a, b)
    ensures SumBy(FamilyCost(id), a.txs) == SumBy(FamilyCost(id), b.txs)
  {
    forall t | IsSplit(t) ensures FamilyCost(id)(Erased(t)) == FamilyCost(id)(t) {}
    SameSums(FamilyCost(id), a, b);
  }

  lemma {:induction false} DrawnIsDated(cfg: Config, fin: seq<FinTx>, s: State, x: State, t: Tx)
    requires Inv(s) && Reference(cfg, fin, s, x) && DrawnOn(x.txs, t)
    ensures s.calcDate.Value().Some?
  {
    OriginUnmarked(s.txs);
  }

  lemma {:induction false} ScratchTakes(cfg: Config, fin: seq<FinTx>, s: State, c: int, t: Tx)
    requires Inv(s) && Passes(cfg, fin, Scratch(s), c) && DrawnOn(After1(cfg, fin, Scratch(s), c).txs, t)
    ensures SumBy(FamilyCost(t.id), After1(cfg, fin, Scratch(s), c).txs) == t.purchaseCost.value + NetExtras(fin, t)
  {
    var g := Scratch(s);
    ScratchInv(s);
    var t0 := RootBefore(cfg, fin, g, c, t);
    EvolvesShape(t0, t);
    OriginUnmarked(s.txs);
    OriginMembers(s.txs);
    OriginCosts(s.txs);
    FreshExtras(g);
    ExtrasStep(cfg, fin, g, c, t0, t);
  }

  // ----- Another Financial Book -----

  /** A correct account is correct by another Financial Book that holds the same extras of the
      purchases that were drawn on. */
  lemma {:induction false} CorrectByOther(cfg: Config, a: seq<FinTx>, b: seq<FinTx>, s: State)
    requires Inv(s) && Correct(cfg, a, s) && cfg.halfUnit > 0.0
    requires forall t :: DrawnOn(s.txs, t) ==> ReadAlike(a, b, t)
    ensures Correct(cfg, b, s)
  {
    ScratchInv(s);
    if s.calcDate.Value().Some? {
      var g, c := Scratch(s), s.calcDate.Value().value;
      var x := Calculate(cfg, a, g, c).1;
      ScratchCalculates(cfg, a, g, c);
      forall y | FirstTouched(g.txs, x.txs, y) ensures ReadAlike(a, b, y) {
        var t :| t in x.txs && t.id == y.id && !Untouched(t);
        FirstIsDrawn(cfg, a, g, c, y, t);
        ReplicaShared(s.txs, x.txs, t);
        assert DrawnOn(s.txs, t);
      }
      CalculateAlike(cfg, a, b, g, c);
    }
  }

  lemma {:induction false} FirstIsDrawn(cfg: Config, fin: seq<FinTx>, g: State, c: int, y: Tx, t: Tx)
    requires Passes(cfg, fin, g, c) && y in g.txs && PurchaseShape(y)
    requires t in After1(cfg, fin, g, c).txs && t.id == y.id
    ensures PurchaseShape(t) && IsReplica(t) && t.date == y.date && t.code == y.code
  {
    var t' := Lookup(WorkOf(cfg, fin, g, c).updates, y);
    InBookAfter(cfg, fin, g, c, y);
    EvolvesShape(y, t');
    BookAfter(cfg, fin, g, c);
    SameIdSame(After1(cfg, fin, g, c).txs, t, t');
  }

  /** Document `f` is an additional cost or a credit of purchase `t`. */
  predicate Bears(f: FinTx, t: Tx) {
    InRange(f, t.date) && (IsAdditionalCost(f, t.code) || IsCredit(f, t.code)) && f.amount != 0.0
  }

  /** Document `f` is an additional cost or a credit of a purchase that was drawn on. */
  ghost predicate BearsOnDrawn(s: State, f: FinTx) { exists t :: DrawnOn(s.txs, t) && Bears(f, t) }

  /** Book `b` is book `a` with document `f`. */
  ghost predicate Adds(a: seq<FinTx>, b: seq<FinTx>, f: FinTx) { multiset(b) == multiset(a) + multiset{f} }

  lemma {:induction false} AddsSum(g: FinTx -> real, a: seq<FinTx>, b: seq<FinTx>, f: FinTx)
    requires Adds(a, b, f)
    ensures SumBy(g, b) == SumBy(g, a) + g(f)
  {
    SumPermuted(g, b, a + [f]);
    SumSnoc(g, a, f);
  }

  lemma {:induction false} AddsExtras(a: seq<FinTx>, b: seq<FinTx>, f: FinTx, t: Tx)
    requires Adds(a, b, f)
    ensures !Bears(f, t) ==> ReadAlike(a, b, t) && ReadAlike(b, a, t)
    ensures Bears(f, t) ==> NetExtras(a, t) != NetExtras(b, t)
  {
    AddsSum(AdditionalCost(t.date, t.code), a, b, f);
    AddsSum(CreditAmount(t.date, t.code), a, b, f);
  }

  /** When an additional cost or a credit that comes or goes leaves a correct account correct:
      exactly when it is not one of a purchase that was drawn on. */
  lemma {:induction false} ExtraIff(cfg: Config, a: seq<FinTx>, b: seq<FinTx>, f: FinTx, s: State)
    requires Inv(s) && cfg.halfUnit > 0.0 && Adds(a, b, f)
    ensures Correct(cfg, a, s) ==> (Correct(cfg, b, s) <==> !BearsOnDrawn(s, f))
    ensures Correct(cfg, b, s) ==> (Correct(cfg, a, s) <==> !BearsOnDrawn(s, f))
  {
    if BearsOnDrawn(s, f) {
      var t :| DrawnOn(s.txs, t) && Bears(f, t);
      AddsExtras(a, b, f, t);
      if Correct(cfg, a, s) && Correct(cfg, b, s) {
        CorrectTakes(cfg, a, s, t);
        CorrectTakes(cfg, b, s, t);
      }
    } else {
      forall t | DrawnOn(s.txs, t) ensures ReadAlike(a, b, t) && ReadAlike(b, a, t) { AddsExtras(a, b, f, t); }
      if Correct(cfg, a, s) { CorrectByOther(cfg, a, b, s); }
      if Correct(cfg, b, s) { CorrectByOther(cfg, b, a, s); }
    }
  }

  // ----- Documents that arrive or are deleted -----

  /** When an arrival that does not flag a correct account leaves it correct, by the Financial Book
      that holds the document: exactly when the document is no extra of a purchase that was drawn on. */
  lemma {:induction false} ArriveCorrectIff(cfg: Config, a: seq<FinTx>, b: seq<FinTx>, s: State, f: FinTx, millis: nat)
    requires Inv(s) && Admissible(s, Arrival(f, millis)) && Correct(cfg, a, s) && cfg.halfUnit > 0.0
    requires Adds(a, b, f) && !Arrive(s, f, millis).rebuild
    ensures Correct(cfg, b, Arrive(s, f, millis)) <==> !BearsOnDrawn(s, f)
  {
    var s' := Arrive(s, f, millis);
    ArriveKeepsCorrect(cfg, a, s, f, millis);
    ArriveKeeps(s, f, millis);
    ExtraIff(cfg, a, b, f, s');
    ArrivedDrawn(s, f, millis);
    SameDrawn(s, s', f);
  }

  lemma {:induction false} ArrivedDrawn(s: State, f: FinTx, millis: nat)
    ensures forall t :: DrawnOn(s.txs, t) <==> DrawnOn(Arrive(s, f, millis).txs, t)
  {}

  lemma {:induction false} SameDrawn(s: State, s': State, f: FinTx)
    requires forall t :: DrawnOn(s.txs, t) <==> DrawnOn(s'.txs, t)
    ensures BearsOnDrawn(s, f) <==> BearsOnDrawn(s', f)
  {}

  /** When a deletion that does not flag a correct account leaves it correct, by the Financial Book
      without the document: exactly when the document was no extra of a purchase that was drawn on. */
  lemma {:induction false} DeleteCorrectIff(cfg: Config, a: seq<FinTx>, b: seq<FinTx>, s: State, f: FinTx)
    requires Inv(s) && Correct(cfg, b, s) && cfg.halfUnit > 0.0
    requires Adds(a, b, f) && !Delete(s, f).rebuild && DeletesNoNote(s, f)
    ensures Correct(cfg, a, Delete(s, f)) <==> !BearsOnDrawn(s, f)
  {
    var s' := Delete(s, f);
    DeleteKeepsCorrect(cfg, b, s, f);
    DeleteKeeps(s, f);
    ExtraIff(cfg, a, b, f, s');
    DeletedDrawn(cfg, b, s, f);
    SameDrawn(s, s', f);
  }

  /** Unflagged, a deletion takes no purchase that was drawn on. */
  lemma {:induction false} DeletedDrawn(cfg: Config, fin: seq<FinTx>, s: State, f: FinTx)
    requires Inv(s) && Correct(cfg, fin, s) && cfg.halfUnit > 0.0 && !Delete(s, f).rebuild && DeletesNoNote(s, f)
    ensures forall t :: DrawnOn(s.txs, t) <==> DrawnOn(Delete(s, f).txs, t)
  {
    var found := Filter(HasRemote(f.id), s.txs);
    if f.posted && IsPurchaseDocument(f) && |found| > 0 {
      var x := CorrectReference(cfg, fin, s);
      DeleteNotStale(s, f);
      RootLater(cfg, fin, s, x, found[0]);
      FilterSound(OutOfFamily(found[0]), s.txs);
      forall t | DrawnOn(s.txs, t) ensures OutOfFamily(found[0])(t) {
        if t.id == found[0].id { SameIdSame(s.txs, t, found[0]); }
      }
    }
  }

  // ----- Two calculations or one, when the Financial Book changes between them -----

  /** What a calculation makes of a purchase, and of what it and its splits cost. */
  lemma {:induction false} PurchaseTakes(cfg: Config, fin: seq<FinTx>, s: State, d: int, x: Tx) returns (t: Tx)
    requires Inv(s) && cfg.halfUnit > 0.0 && Calculate(cfg, fin, s, d).0.Calculated? && x in s.txs && PurchaseShape(x)
    ensures var s' := Calculate(cfg, fin, s, d).1;
            && Inv(s') && t in s'.txs && PurchaseShape(t) && t.id == x.id && (Touched(x) ==> Touched(t))
            && SumBy(FamilyCost(x.id), s'.txs)
               == SumBy(FamilyCost(x.id), s.txs) + if Untouched(x) && Touched(t) then NetExtras(fin, x) else 0.0
  {
    OnePasses(cfg, fin, s, d);
    AfterInv(cfg, fin, s, d);
    t := Lookup(WorkOf(cfg, fin, s, d).updates, x);
    InBookAfter(cfg, fin, s, d, x);
    EvolvesShape(x, t);
    ExtrasStep(cfg, fin, s, d, x, t);
  }

  /** One calculation makes the books that two make only if it reads the net extras that the first of
      the two read. */
  lemma {:induction false} BatchReadsNet(cfg: Config, fin1: seq<FinTx>, fin2: seq<FinTx>, s: State, d1: int, d2: int,
                                         x: Tx)
    requires Inv(s) && BothGoThrough(cfg, fin1, fin2, s, d1, d2) && BatchAgrees(cfg, fin1, fin2, s, d1, d2)
    requires FirstTouched(s.txs, Calculate(cfg, fin1, s, d1).1.txs, x)
    ensures NetExtras(fin1, x) == NetExtras(fin2, x)
  {
    var s1 := Calculate(cfg, fin1, s, d1).1;
    var s2, all := Calculate(cfg, fin2, s1, d2).1, Calculate(cfg, fin2, s, d2).1;
    var t1 := PurchaseTakes(cfg, fin1, s, d1, x);
    FirstTouchedIff(s, s1, x, t1);
    var t2 := PurchaseTakes(cfg, fin2, s1, d2, t1);
    var t := PurchaseTakes(cfg, fin2, s, d2, x);
    SameFamilyCost(s2, all, x.id);
    ReplicaShared(all.txs, s2.txs, t2);
    SameIdSame(all.txs, t, t2);
  }

  /** When one document more in the Financial Book, between two calculations, makes them differ from
      one calculation after it: exactly when it is an extra of a purchase that the first drew on. */
  lemma {:induction false} BatchExtraIff(cfg: Config, fin1: seq<FinTx>, fin2: seq<FinTx>, f: FinTx, s: State, d1: int,
                                         d2: int)
    requires Inv(s) && BothGoThrough(cfg, fin1, fin2, s, d1, d2) && NotesKept(s.txs, d1, d2) && Adds(fin1, fin2, f)
    ensures BatchAgrees(cfg, fin1, fin2, s, d1, d2)
       <==> forall x :: FirstTouched(s.txs, Calculate(cfg, fin1, s, d1).1.txs, x) ==> !Bears(f, x)
  {
    var txs1 := Calculate(cfg, fin1, s, d1).1.txs;
    forall x | FirstTouched(s.txs, txs1, x)
      ensures BatchAgrees(cfg, fin1, fin2, s, d1, d2) ==> !Bears(f, x)
      ensures !Bears(f, x) ==> ReadAlike(fin1, fin2, x)
    {
      AddsExtras(fin1, fin2, f, x);
      if BatchAgrees(cfg, fin1, fin2, s, d1, d2) { BatchReadsNet(cfg, fin1, fin2, s, d1, d2, x); }
    }
    if forall x :: FirstTouched(s.txs, txs1, x) ==> !Bears(f, x) {
      IncrementalEqualsBatch(cfg, fin1, fin2, s, d1, d2);
    }
  }
}
