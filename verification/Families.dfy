/** Quantities over every run: a purchase and its splits always add up to what was bought, and
    the good's balance is always that of the replicated documents. */
module Families {
  import opened Lists
  import opened Ledger
  import opened Allocation
  import opened Calculation
  import opened Reset
  import opened Replication
  import opened Books
  import opened Collected
  import opened Commitment
  import opened BookSums
  import opened ResetFacts
  import opened Runs
  import opened Restoration

  /** The quantity a transaction holds of root `id`. */
  function FamilyQuantity(id: nat): Tx -> real { (t: Tx) => if RootOf(t) == id then t.amount else 0.0 }

  /** What a transaction adds to the balance of the good. */
  function Signed(t: Tx): real { if t.flow == BuyToGood then AmountOf(t) else 0.0 - AmountOf(t) }

  /** Every purchase and its splits hold its original quantity, and ids to come have no family. */
  ghost predicate FamiliesHold(s: State) {
    && (forall t :: t in s.txs && PurchaseShape(t) ==> SumBy(FamilyQuantity(t.id), s.txs) == t.originalQuantity.value)
    && (forall id: nat :: id >= s.nextId ==> SumBy(FamilyQuantity(id), s.txs) == 0.0)
  }

  // ----- Calculations -----

  lemma {:induction false} QuantityExchanges(cfg: Config, fin: seq<FinTx>, id: nat)
    ensures var f := FamilyQuantity(id);
            IgnoresIds(f) && NoteExchanges(f) && DrawExchanges(cfg, fin, f) && SalesKeep(f)
  {
    forall sale: Tx, need: Quantity, lot: Tx | PurchaseShape(lot) && !lot.checked
      ensures var f, m := FamilyQuantity(id), MoveOn(cfg, fin, sale, need, lot); Change(f)(m) + PieceWeight(f)(m) == 0.0
    {
      MoveOnLawful(cfg, fin, sale, need, lot);
      MoveOnFramed(cfg, fin, sale, need, lot);
    }
  }

  lemma {:induction false} SignedExchanges(cfg: Config, fin: seq<FinTx>)
    ensures IgnoresIds(Signed) && NoteExchanges(Signed) && DrawExchanges(cfg, fin, Signed) && SalesKeep(Signed)
  {
    forall sale: Tx, need: Quantity, lot: Tx | PurchaseShape(lot) && !lot.checked
      ensures var m := MoveOn(cfg, fin, sale, need, lot); Change(Signed)(m) + PieceWeight(Signed)(m) == 0.0
    {
      MoveOnLawful(cfg, fin, sale, need, lot);
      MoveOnFramed(cfg, fin, sale, need, lot);
      var m := MoveOn(cfg, fin, sale, need, lot);
      assert Signed(m.after) - Signed(m.before) + (if m.piece.Some? then Signed(m.piece.value) else 0.0) == 0.0;
    }
  }

  /** The root a transaction of the new book evolved from. */
  lemma {:induction false} RootBefore(cfg: Config, fin: seq<FinTx>, s: State, d: int, t: Tx) returns (x: Tx)
    requires Inv(s) && Settle(cfg, fin, s.txs, d).Ok?
    requires t in Commit(s, Settle(cfg, fin, s.txs, d).work, SortedSales(s.txs, d)).txs && IsReplica(t)
    ensures x in s.txs && Evolves(x, t) && x.id == t.id && Lookup(Settle(cfg, fin, s.txs, d).work.updates, x) == t
    ensures PurchaseShape(x) == PurchaseShape(t) && x.originalQuantity == t.originalQuantity
            && x.purchaseCost == t.purchaseCost
  {
    var w := Settle(cfg, fin, s.txs, d).work;
    CommitBook(cfg, fin, s, d);
    var olds, posted := Apply(w.updates, s.txs), Posted(w.created, s);
    forall k | 0 <= k < |posted| ensures IsSplit(posted[k]) { assert SplitShape(posted[k]); }
    var i :| 0 <= i < |olds + posted| && (olds + posted)[i] == t;
    x := s.txs[i];
    assert x in s.txs;
    EvolvesShape(x, t);
    assert Fresh(x).originalQuantity == x.originalQuantity && Fresh(t).originalQuantity == t.originalQuantity;
  }

  lemma {:induction false} CalculateFamilies(cfg: Config, fin: seq<FinTx>, s: State, d: int)
    requires Inv(s) && FamiliesHold(s)
    ensures FamiliesHold(Calculate(cfg, fin, s, d).1)
    ensures SumBy(Signed, Calculate(cfg, fin, s, d).1.txs) == SumBy(Signed, s.txs)
  {
    if Calculate(cfg, fin, s, d).0.Calculated? {
      CommitFamilies(cfg, fin, s, d);
      CommitBalance(cfg, fin, s, d);
    }
  }

  lemma {:induction false} CommitBalance(cfg: Config, fin: seq<FinTx>, s: State, d: int)
    requires Inv(s) && Settle(cfg, fin, s.txs, d).Ok?
    ensures SumBy(Signed, Commit(s, Settle(cfg, fin, s.txs, d).work, SortedSales(s.txs, d)).txs) == SumBy(Signed, s.txs)
  {
    SignedExchanges(cfg, fin);
    BookConserves(cfg, fin, s, d, Signed);
  }

  lemma {:induction false} CommitFamilies(cfg: Config, fin: seq<FinTx>, s: State, d: int)
    requires Inv(s) && FamiliesHold(s) && Settle(cfg, fin, s.txs, d).Ok?
    ensures FamiliesHold(Commit(s, Settle(cfg, fin, s.txs, d).work, SortedSales(s.txs, d)))
  {
    var s' := Commit(s, Settle(cfg, fin, s.txs, d).work, SortedSales(s.txs, d));
    forall id: nat ensures SumBy(FamilyQuantity(id), s'.txs) == SumBy(FamilyQuantity(id), s.txs) {
      QuantityExchanges(cfg, fin, id);
      BookConserves(cfg, fin, s, d, FamilyQuantity(id));
    }
    forall t | t in s'.txs && PurchaseShape(t) ensures SumBy(FamilyQuantity(t.id), s'.txs) == t.originalQuantity.value {
      var x := RootBefore(cfg, fin, s, d, t);
    }
  }

  // ----- Resets -----

  /** A weight on one transaction alone. */
  lemma {:induction false} SumSingle(f: Tx -> real, xs: seq<Tx>, t: Tx)
    requires Distinct(IdOf, xs) && t in xs && forall x :: x in xs && x.id != t.id ==> f(x) == 0.0
    ensures SumBy(f, xs) == f(t)
  {
    var init, x := xs[..|xs| - 1], xs[|xs| - 1];
    assert xs == init + [x];
    if x == t {
      forall y | y in init ensures f(y) == 0.0 {
        var i :| 0 <= i < |init| && init[i] == y;
        assert IdOf(xs[i]) != IdOf(xs[|xs| - 1]);
      }
      SumZero(f, init);
    } else {
      assert t in init;
      var i :| 0 <= i < |init| && init[i] == t;
      assert IdOf(xs[i]) != IdOf(xs[|xs| - 1]);
      SumSingle(f, init, t);
    }
  }

  lemma {:induction false} OriginMembers(txs: seq<Tx>)
    requires AllWellFormed(txs)
    ensures forall t :: t in Origin(txs) ==>
              WellFormed(t) && IsReplica(t) && !t.checked && (PurchaseShape(t) ==> t.originalQuantity == Some(t.amount))
  {
    var rs := Filter(IsReplica, txs);
    FilterSound(IsReplica, txs);
    forall t | t in Origin(txs)
      ensures WellFormed(t) && IsReplica(t) && !t.checked
              && (PurchaseShape(t) ==> t.originalQuantity == Some(t.amount))
    {
      var i :| 0 <= i < |rs| && Origin(txs)[i] == t;
      assert rs[i] in rs;
      FreshShape(rs[i]);
    }
  }

  lemma {:induction false} ResetFamilies(s: State)
    requires Inv(s) && FamiliesHold(s)
    ensures FamiliesHold(ResetState(s))
  {
    if !ResetLocked(s) {
      var s' := ResetState(s);
      ResetGivesOrigin(s);
      ResetKeeps(s);
      OriginMembers(s.txs);
      forall t | t in s'.txs && PurchaseShape(t)
        ensures SumBy(FamilyQuantity(t.id), s'.txs) == t.originalQuantity.value
      {
        SumSingle(FamilyQuantity(t.id), s'.txs, t);
      }
      forall id: nat | id >= s'.nextId ensures SumBy(FamilyQuantity(id), s'.txs) == 0.0 {
        SumZero(FamilyQuantity(id), s'.txs);
      }
    }
  }

  // ----- Arrivals and deletions -----

  lemma {:induction false} ArriveFamilies(s: State, f: FinTx, millis: nat)
    requires Inv(s) && FamiliesHold(s)
    ensures FamiliesHold(Arrive(s, f, millis))
  {
    var s' := Arrive(s, f, millis);
    if s' != s {
      var t := Replica(f, s.nextId, millis).value;
      ReplicaShape(f, s.nextId, millis);
      assert s'.txs == s.txs + [t];
      forall id: nat
        ensures SumBy(FamilyQuantity(id), s'.txs) == SumBy(FamilyQuantity(id), s.txs) + FamilyQuantity(id)(t)
      {
        SumSnoc(FamilyQuantity(id), s.txs, t);
      }
    }
  }

  lemma {:induction false} DeleteFamilies(s: State, f: FinTx)
    requires Inv(s) && FamiliesHold(s)
    ensures FamiliesHold(Delete(s, f))
  {
    var s', found := Delete(s, f), Filter(HasRemote(f.id), s.txs);
    FilterSound(HasRemote(f.id), s.txs);
    if f.posted && IsPurchaseDocument(f) && |found| > 0 {
      var root := found[0];
      assert root in found;
      FilterSound(OutOfFamily(root), s.txs);
      forall id: nat | id != root.id ensures SumBy(FamilyQuantity(id), s'.txs) == SumBy(FamilyQuantity(id), s.txs) {
        forall x | x in s.txs && !OutOfFamily(root)(x) ensures FamilyQuantity(id)(x) == 0.0 {
          if x.id == root.id { SameIdSame(s.txs, x, root); }
        }
        SumFilter(FamilyQuantity(id), OutOfFamily(root), s.txs);
      }
    }
  }

  /** Family quantity invariant: in every reachable state, a purchase and all live splits that
      name it as parent add up to its original quantity. */
  lemma {:induction false} FamilyInvariant(cfg: Config, steps: seq<Step>)
    requires AdmissibleRun(cfg, steps) && cfg.halfUnit > 0.0
    ensures FamiliesHold(Run(cfg, steps))
    decreases |steps|
  {
    if |steps| > 0 {
      var init, step := steps[..|steps| - 1], steps[|steps| - 1];
      var s := Run(cfg, init);
      FamilyInvariant(cfg, init);
      RunKeeps(cfg, init);
      match step
      case Arrival(f, millis) => ArriveFamilies(s, f, millis);
      case Calculating(fin, d) =>
        if s.rebuild { ResetFamilies(s); } else { CalculateFamilies(cfg, fin, s, d); }
      case Resetting => ResetFamilies(s);
      case Deletion(f) => DeleteFamilies(s, f);
      case Locking(ids, cogs) =>
    }
  }

  // ----- The balance -----

  lemma {:induction false} DeleteBalance(s: State, f: FinTx)
    requires Inv(s) && FamiliesHold(s) && SumBy(Signed, s.txs) == SumBy(Signed, Origin(s.txs))
    ensures SumBy(Signed, Delete(s, f).txs) == SumBy(Signed, Origin(Delete(s, f).txs))
  {
    var found := Filter(HasRemote(f.id), s.txs);
    FilterSound(HasRemote(f.id), s.txs);
    if f.posted && IsPurchaseDocument(f) && |found| > 0 {
      var root := found[0];
      assert root in found && root in s.txs;
      FamilyOut(s, root);
      FamilyOfReplicas(s, root, f.id);
      OriginOut(s, root, f.id);
    }
  }

  /** The signed weight of a family. */
  function FamilySigned(root: Tx): Tx -> real { (t: Tx) => if OutOfFamily(root)(t) then 0.0 else Signed(t) }

  function RestSigned(root: Tx): Tx -> real { (t: Tx) => if OutOfFamily(root)(t) then Signed(t) else 0.0 }

  lemma {:induction false} FamilyOut(s: State, root: Tx)
    requires Inv(s) && FamiliesHold(s) && root in s.txs && IsReplica(root)
    ensures SumBy(Signed, Filter(OutOfFamily(root), s.txs)) == SumBy(Signed, s.txs) - Signed(Fresh(root))
  {
    SumFilter(RestSigned(root), OutOfFamily(root), s.txs);
    FilterSound(OutOfFamily(root), s.txs);
    SumCong(RestSigned(root), Signed, Filter(OutOfFamily(root), s.txs));
    SumTogether(FamilySigned(root), RestSigned(root), Signed, s.txs);
    if PurchaseShape(root) {
      forall x | x in s.txs ensures FamilySigned(root)(x) == FamilyQuantity(root.id)(x) {
        if x.id == root.id { SameIdSame(s.txs, x, root); }
      }
      SumCong(FamilySigned(root), FamilyQuantity(root.id), s.txs);
    } else {
      forall x | x in s.txs && x.id != root.id ensures FamilySigned(root)(x) == 0.0 {}
      SumSingle(FamilySigned(root), s.txs, root);
    }
  }

  lemma {:induction false} OriginOut(s: State, root: Tx, id: nat)
    requires Inv(s) && root in s.txs && root.remote == Fin(id)
    requires Filter(IsReplica, Filter(OutOfFamily(root), s.txs)) == Filter(OtherRemote(id), Filter(IsReplica, s.txs))
    ensures SumBy(Signed, Origin(Filter(OutOfFamily(root), s.txs)))
         == SumBy(Signed, Origin(s.txs)) - Signed(Fresh(root))
  {
    var rs := Filter(IsReplica, s.txs);
    FilterSound(IsReplica, s.txs);
    assert root in rs;
    PartKeeps(s, IsReplica);
    FreshOut(rs, root, id);
  }

  lemma {:induction false} FreshOut(rs: seq<Tx>, root: Tx, id: nat)
    requires RemotesApart(rs) && root in rs && root.remote == Fin(id)
    ensures SumBy(Signed, FreshAll(Filter(OtherRemote(id), rs))) == SumBy(Signed, FreshAll(rs)) - Signed(Fresh(root))
  {
    var n := |rs| - 1;
    var init, x := rs[..n], rs[n];
    assert rs == init + [x];
    FreshSnoc(init, x);
    if x == root {
      forall t | t in init ensures OtherRemote(id)(t) {
        var i :| 0 <= i < |init| && init[i] == t;
        assert rs[i].remote.Fin? ==> rs[i].remote != rs[n].remote;
      }
      FilterAll(OtherRemote(id), init);
    } else {
      assert root in init;
      SameRemoteApart(rs, x, root);
      FreshOut(init, root, id);
      FreshSnoc(Filter(OtherRemote(id), init), x);
    }
  }

  lemma {:induction false} FreshSnoc(xs: seq<Tx>, x: Tx)
    ensures SumBy(Signed, FreshAll(xs + [x])) == SumBy(Signed, FreshAll(xs)) + Signed(Fresh(x))
  {
    assert FreshAll(xs + [x]) == FreshAll(xs) + [Fresh(x)];
    SumSnoc(Signed, FreshAll(xs), Fresh(x));
  }

  lemma {:induction false} SameRemoteApart(rs: seq<Tx>, x: Tx, root: Tx)
    requires RemotesApart(rs) && x in rs && root in rs && x != root && root.remote.Fin?
    ensures x.remote != root.remote
  {
    if x.remote == root.remote { SameRemote(rs, x, root); }
  }

  /** The quantity balance of the good is always that of its replicated documents: no
      calculation and no reset ever changes it. */
  lemma {:induction false} BalanceInvariant(cfg: Config, steps: seq<Step>)
    requires AdmissibleRun(cfg, steps) && cfg.halfUnit > 0.0
    ensures SumBy(Signed, Run(cfg, steps).txs) == SumBy(Signed, Replicated(steps))
  {
    BalanceOfOrigin(cfg, steps);
    RunReplicates(cfg, steps);
    AnonymousSigned(Origin(Run(cfg, steps).txs));
  }

  lemma {:induction false} AnonymousSigned(xs: seq<Tx>)
    ensures SumBy(Signed, AnonymousAll(xs)) == SumBy(Signed, xs)
  {
    if |xs| > 0 {
      AnonymousSigned(xs[..|xs| - 1]);
      assert AnonymousAll(xs)[..|xs| - 1] == AnonymousAll(xs[..|xs| - 1]);
    }
  }

  lemma {:induction false} BalanceOfOrigin(cfg: Config, steps: seq<Step>)
    requires AdmissibleRun(cfg, steps) && cfg.halfUnit > 0.0
    ensures SumBy(Signed, Run(cfg, steps).txs) == SumBy(Signed, Origin(Run(cfg, steps).txs))
    decreases |steps|
  {
    if |steps| > 0 {
      var init, step := steps[..|steps| - 1], steps[|steps| - 1];
      var s := Run(cfg, init);
      BalanceOfOrigin(cfg, init);
      RunKeeps(cfg, init);
      FamilyInvariant(cfg, init);
      match step
      case Arrival(f, millis) =>
        ArriveBalance(s, f, millis);
      case Calculating(fin, d) =>
        if s.rebuild {
          ResetBalance(s);
        } else {
          CalculateFamilies(cfg, fin, s, d);
          CalculateOrigin(cfg, fin, s, d);
        }
      case Resetting => ResetBalance(s);
      case Deletion(f) => DeleteBalance(s, f);
      case Locking(ids, cogs) =>
    }
  }

  lemma {:induction false} ArriveBalance(s: State, f: FinTx, millis: nat)
    requires SumBy(Signed, s.txs) == SumBy(Signed, Origin(s.txs))
    ensures SumBy(Signed, Arrive(s, f, millis).txs) == SumBy(Signed, Origin(Arrive(s, f, millis).txs))
  {
    if Arrive(s, f, millis) != s {
      var t := Replica(f, s.nextId, millis).value;
      ReplicaShape(f, s.nextId, millis);
      SumSnoc(Signed, s.txs, t);
      FilterSnoc(IsReplica, s.txs, t);
      assert Origin(s.txs + [t]) == Origin(s.txs) + [t];
      SumSnoc(Signed, Origin(s.txs), t);
    }
  }

  lemma {:induction false} ResetBalance(s: State)
    requires Inv(s) && SumBy(Signed, s.txs) == SumBy(Signed, Origin(s.txs))
    ensures SumBy(Signed, ResetState(s).txs) == SumBy(Signed, Origin(ResetState(s).txs))
  {
    if !ResetLocked(s) {
      ResetGivesOrigin(s);
      OriginTwice(s.txs);
    }
  }
}
