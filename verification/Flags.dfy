/** When the account is flagged: in days and in what is in the book, for arrivals and deletions. */
module Flags {
  import opened Lists
  import opened Ledger
  import opened Replication
  import opened Books
  import opened Collected
  import opened Runs
  import opened Restoration
  import opened Families
  import opened Splits
  import opened Arrivals
  import opened Histories

  // ----- Arrivals and deleted purchases -----

  /** An arrival flags the account if and only if it posts a replica dated up to the calculation date. */
  lemma {:induction false} ArriveFlagsIff(s: State, f: FinTx, millis: nat)
    ensures var s' := Arrive(s, f, millis);
            s'.rebuild <==> s.rebuild || (|s'.txs| > |s.txs| && s.calcDate.On? && f.date <= s.calcDate.date)
  {}

  /** The deletion of a purchase document flags the account if and only if its replica is a purchase
      or a sale dated up to the calculation date. */
  lemma {:induction false} PurchaseFlagsIff(s: State, f: FinTx)
    requires Inv(s) && f.posted && f.quantity.Some? && f.code.Some? && f.code == f.purchaseInvoice
    ensures Delete(s, f).rebuild
       <==> s.rebuild || exists t :: t in s.txs && t.remote == Fin(f.id) && t.flow != GoodToBuy
                                     && s.calcDate.On? && t.date <= s.calcDate.date
  {
    var found := Filter(HasRemote(f.id), s.txs);
    FilterSound(HasRemote(f.id), s.txs);
    forall t | t in s.txs && t.remote == Fin(f.id) ensures |found| > 0 && t == found[0] && WellFormed(t) {
      assert t in found && found[0] in found;
      SameRemote(s.txs, found[0], t);
    }
    if |found| > 0 { assert found[0] in found && WellFormed(found[0]); }
  }

  // ----- What a deletion takes -----

  /** The document is that of a purchase, and `root` is its replica. */
  predicate Deletes(f: FinTx, root: Tx) {
    f.posted && f.quantity.Some? && f.code.Some? && f.code == f.purchaseInvoice && root.remote == Fin(f.id)
  }

  /** In every reachable state a deletion takes the document's replica, the splits that name it and its
      posting, and nothing else. */
  lemma {:induction false} DeletesExactly(cfg: Config, steps: seq<Step>, f: FinTx)
    requires AdmissibleRun(cfg, steps) && cfg.halfUnit > 0.0
    ensures var s := Run(cfg, steps);
            && (forall t :: t in Delete(s, f).txs <==> t in s.txs && !TakenWith(s.txs, f, t))
            && (forall c :: c in Delete(s, f).cogs <==> c in s.cogs && !PostedFor(s.txs, f, c))
  {
    RunKeeps(cfg, steps);
    SplitsAreCut(cfg, steps, false);
    DeleteTakes(cfg, Run(cfg, steps), f);
  }

  ghost predicate TakenWith(txs: seq<Tx>, f: FinTx, t: Tx) {
    exists root :: root in txs && Deletes(f, root) && (t == root || t.parent == Some(root.id))
  }

  ghost predicate PostedFor(txs: seq<Tx>, f: FinTx, c: Cogs) {
    exists root :: root in txs && Deletes(f, root) && c.sale == root.id
  }

  lemma {:induction false} DeleteTakes(cfg: Config, s: State, f: FinTx)
    requires Inv(s) && SplitsHold(cfg, s, false)
    ensures forall t :: t in Delete(s, f).txs <==> t in s.txs && !TakenWith(s.txs, f, t)
    ensures forall c :: c in Delete(s, f).cogs <==> c in s.cogs && !PostedFor(s.txs, f, c)
  {
    var found := Filter(HasRemote(f.id), s.txs);
    FilterSound(HasRemote(f.id), s.txs);
    if |found| > 0 {
      var root := found[0];
      assert root in found;
      forall t | t in s.txs && t.remote == Fin(f.id) ensures t == root { SameRemote(s.txs, root, t); }
      if Deletes(f, root) {
        DropFirstContents(s.cogs, root.id);
        FilterSound(OutOfFamily(root), s.txs);
        forall t | t in s.txs ensures OutOfFamily(root)(t) <==> !TakenWith(s.txs, f, t) {
          ChildOfPurchase(cfg, s, root, t);
        }
      }
    }
  }

  /** Only a purchase has children. */
  lemma {:induction false} ChildOfPurchase(cfg: Config, s: State, root: Tx, t: Tx)
    requires Inv(s) && SplitsHold(cfg, s, false) && root in s.txs && t in s.txs
    ensures t.id == root.id ==> t == root
    ensures t.parent == Some(root.id) ==> root.originalQuantity.Some?
  {
    if t.id == root.id { SameIdSame(s.txs, t, root); }
    if t.parent == Some(root.id) {
      assert CutFrom(cfg, s.txs, NotesIn(s.txs, false), t);
      var p :| p in s.txs && PurchaseShape(p) && t.parent == Some(p.id);
      SameIdSame(s.txs, p, root);
    }
  }

  // ----- Deleted credits -----

  lemma {:induction false} SumPair(f: Tx -> real, xs: seq<Tx>, a: Tx, b: Tx)
    requires a in xs && b in xs && a != b && forall x :: x in xs ==> f(x) >= 0.0
    ensures SumBy(f, xs) >= f(a) + f(b)
  {
    var init, last := xs[..|xs| - 1], xs[|xs| - 1];
    assert xs == init + [last];
    if last == a {
      SumMember(f, init, b);
    } else if last == b {
      SumMember(f, init, a);
    } else {
      SumPair(f, init, a, b);
    }
  }

  lemma {:induction false} SumMember(f: Tx -> real, xs: seq<Tx>, a: Tx)
    requires a in xs && forall x :: x in xs ==> f(x) >= 0.0
    ensures SumBy(f, xs) >= f(a)
  {
    var init, last := xs[..|xs| - 1], xs[|xs| - 1];
    assert xs == init + [last];
    if last == a { SumNonNeg(f, init); } else { SumMember(f, init, a); }
  }

  /** A live split names the purchase as parent. */
  predicate HasSplit(txs: seq<Tx>, p: Tx) { exists y :: y in txs && y.parent == Some(p.id) }

  /** A purchase does not hold its original quantity exactly when a live split names it. */
  lemma {:induction false} ReducedIff(cfg: Config, s: State, p: Tx)
    requires Inv(s) && FamiliesHold(s) && SplitsHold(cfg, s, false) && p in s.txs && PurchaseShape(p)
    ensures p.amount != p.originalQuantity.value <==> HasSplit(s.txs, p)
  {
    var f := FamilyQuantity(p.id);
    if y :| y in s.txs && y.parent == Some(p.id) {
      SplitPositive(cfg, s, y);
      SumPair(f, s.txs, p, y);
    } else {
      SumSingle(f, s.txs, p);
    }
  }

  lemma {:induction false} SplitPositive(cfg: Config, s: State, y: Tx)
    requires SplitsHold(cfg, s, false) && y in s.txs && IsSplit(y)
    ensures y.amount > 0.0
  {
    assert CutFrom(cfg, s.txs, NotesIn(s.txs, false), y);
  }

  /** Transaction `i` is the first of the good with the document's purchase code, within sixty days
      of the document. */
  ghost predicate FirstNear(txs: seq<Tx>, f: FinTx, i: nat) {
    && i < |txs| && txs[i].code == f.code && -60 <= txs[i].date - f.date < 60
    && forall j :: 0 <= j < i && txs[j].code == f.code ==> !(-60 <= txs[j].date - f.date < 60)
  }

  lemma {:induction false} FirstNearFound(txs: seq<Tx>, f: FinTx, i: nat)
    requires FirstNear(txs, f, i)
    ensures |Filter(CodedNear(f), txs)| > 0 && Filter(CodedNear(f), txs)[0] == txs[i]
  {
    assert txs == txs[..i] + [txs[i]] + txs[i + 1..];
    FilterNone(CodedNear(f), txs[..i]);
    FilterSnoc(CodedNear(f), txs[..i], txs[i]);
    FilterAppend(CodedNear(f), txs[..i] + [txs[i]], txs[i + 1..]);
  }

  /** The document credits the good with a purchase code other than its own invoice. */
  predicate CreditsPurchase(f: FinTx) { f.posted && f.creditsGood && f.code.Some? && f.code != f.purchaseInvoice }

  /** In every reachable state, the deletion of a credit leaves everything but the flag, and flags
      the account if and only if a first transaction of its purchase code is found that is a purchase
      named by a live split, or no purchase at all. */
  lemma {:induction false} CreditFlagsIff(cfg: Config, steps: seq<Step>, f: FinTx)
    requires AdmissibleRun(cfg, steps) && cfg.halfUnit > 0.0 && CreditsPurchase(f)
    ensures var s := Run(cfg, steps); Delete(s, f) == s.(rebuild := Delete(s, f).rebuild)
    ensures var s := Run(cfg, steps);
            Delete(s, f).rebuild
            <==> s.rebuild || exists i: nat :: FirstNear(s.txs, f, i)
                                          && (PurchaseShape(s.txs[i]) ==> HasSplit(s.txs, s.txs[i]))
  {
    RunKeeps(cfg, steps);
    FamilyInvariant(cfg, steps);
    SplitsAreCut(cfg, steps, false);
    CreditFlags(cfg, Run(cfg, steps), f);
  }

  lemma {:induction false} CreditFlags(cfg: Config, s: State, f: FinTx)
    requires Inv(s) && FamiliesHold(s) && SplitsHold(cfg, s, false) && CreditsPurchase(f)
    ensures Delete(s, f) == s.(rebuild := Delete(s, f).rebuild)
    ensures Delete(s, f).rebuild
            <==> s.rebuild || exists i: nat :: FirstNear(s.txs, f, i)
                                          && (PurchaseShape(s.txs[i]) ==> HasSplit(s.txs, s.txs[i]))
  {
    forall i: nat | FirstNear(s.txs, f, i)
      ensures Delete(s, f).rebuild <==> s.rebuild || (PurchaseShape(s.txs[i]) ==> HasSplit(s.txs, s.txs[i]))
    {
      FirstNearFound(s.txs, f, i);
      FirstReduced(cfg, s, s.txs[i]);
    }
    if |Filter(CodedNear(f), s.txs)| > 0 { var i := FirstOf(s.txs, f); }
  }

  lemma {:induction false} FirstReduced(cfg: Config, s: State, t: Tx)
    requires Inv(s) && FamiliesHold(s) && SplitsHold(cfg, s, false) && t in s.txs && t.code.Some?
    ensures OffOriginal(t) <==> (PurchaseShape(t) ==> HasSplit(s.txs, t))
  {
    assert WellFormed(t);
    if PurchaseShape(t) {
      ReducedIff(cfg, s, t);
    } else if IsSplit(t) {
      SplitPositive(cfg, s, t);
    }
  }

  lemma {:induction false} FirstOf(txs: seq<Tx>, f: FinTx) returns (i: nat)
    requires |Filter(CodedNear(f), txs)| > 0
    ensures FirstNear(txs, f, i)
  {
    var init, t := txs[..|txs| - 1], txs[|txs| - 1];
    assert txs == init + [t];
    FilterSnoc(CodedNear(f), init, t);
    if |Filter(CodedNear(f), init)| > 0 {
      i := FirstOf(init, f);
    } else {
      i := |init|;
      forall j | 0 <= j < i ensures !CodedNear(f)(txs[j]) { NoneNear(init, f, j); }
    }
  }

  lemma {:induction false} NoneNear(txs: seq<Tx>, f: FinTx, j: nat)
    requires |Filter(CodedNear(f), txs)| == 0 && j < |txs|
    ensures !CodedNear(f)(txs[j])
  {
    FilterSound(CodedNear(f), txs);
    assert txs[j] in txs;
  }

  /** The deletion of an additional cost, which debits the good, changes nothing at all. */
  lemma {:induction false} CostFlagsNothing(s: State, f: FinTx)
    requires f.code != f.purchaseInvoice && !f.creditsGood
    ensures Delete(s, f) == s
  {}

  // ----- A credit deleted after a part was sold -----

  /** A purchase and a sale of a part of it arrive and are calculated; then a credit of the purchase,
      dated within sixty days of it, is deleted: the account is flagged, and nothing else changes. */
  lemma {:induction false} CreditDeletedFlags(cfg: Config, fin: seq<FinTx>, buy: FinTx, sale: FinTx, credit: FinTx,
                                              d: int,
                                              millis: nat)
    requires SellsFrom(buy, sale, d) && Units(sale) < Units(buy) && cfg.halfUnit > 0.0
    requires CreditsPurchase(credit) && credit.code == buy.code && -60 <= buy.date - credit.date < 60
    ensures var steps := ArrivalsOf([buy, sale], millis) + [Calculating(fin, d)]; var s := Run(cfg, steps);
            !s.rebuild && Run(cfg, steps + [Deletion(credit)]) == s.(rebuild := true)
  {
    var steps := ArrivalsOf([buy, sale], millis) + [Calculating(fin, d)];
    RunSnoc(cfg, steps, Deletion(credit));
    var s := Run(cfg, steps);
    var b := RestTx(cfg, fin, buy, sale, millis);
    assert !s.rebuild && |s.txs| > 0 && s.txs[0] == b by { PartSold(cfg, fin, buy, sale, d, millis); }
    assert OffOriginal(b) && b.code == buy.code && b.date == buy.date;
    FoundFlags(s, credit);
  }

  lemma {:induction false} FoundFlags(s: State, f: FinTx)
    requires CreditsPurchase(f) && FirstNear(s.txs, f, 0) && OffOriginal(s.txs[0])
    ensures Delete(s, f) == s.(rebuild := true)
  {
    FirstNearFound(s.txs, f, 0);
  }
}
