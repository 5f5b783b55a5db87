/** The bot as a state machine: every run of arrivals, calculations, resets, deletions and locks. */
module Runs {
  import opened Lists
  import opened Ledger
  import opened FifoOrder
  import opened Settlement
  import opened Calculation
  import opened Reset
  import opened Replication
  import opened Books
  import opened Collected
  import opened Commitment
  import opened Guard
  import opened ResetFacts

  /** One event: a checked document arrives, someone calculates with the Financial Book as it
      then stands, resets, deletes a document, or locks transactions. */
  datatype Step =
    | Arrival(f: FinTx, millis: nat)
    | Calculating(fin: seq<FinTx>, toDate: int)
    | Resetting
    | Deletion(f: FinTx)
    | Locking(ids: set<nat>, cogs: set<nat>)

  /** Calculate: a flagged account is reset instead. */
  function CalculateAccount(cfg: Config, fin: seq<FinTx>, s: State, d: int): (Outcome, State) {
    if s.rebuild then (RebuildFired, ResetState(s)) else Calculate(cfg, fin, s, d)
  }

  function Do(cfg: Config, s: State, step: Step): State {
    match step
    case Arrival(f, millis) => Arrive(s, f, millis)
    case Calculating(fin, d) => CalculateAccount(cfg, fin, s, d).1
    case Resetting => ResetState(s)
    case Deletion(f) => Delete(s, f)
    case Locking(ids, cogs) => s.(locked := ids, cogsLocked := cogs)
  }

  /** The step is a reset, asked for or fired by the flag, that finds nothing locked. */
  ghost predicate Resets(s: State, step: Step) {
    (step.Resetting? || (step.Calculating? && s.rebuild)) && !ResetLocked(s)
  }

  const EMPTY := State([], [], Absent, false, {}, {}, 1, 0)

  function Run(cfg: Config, steps: seq<Step>): State
    decreases |steps|
  {
    if |steps| == 0 then EMPTY else Do(cfg, Run(cfg, steps[..|steps| - 1]), steps[|steps| - 1])
  }

  /** A new purchase has a purchase code that no purchase of the good has. */
  ghost predicate NewCode(s: State, f: FinTx) { forall t :: t in s.txs && PurchaseShape(t) ==> t.code != f.code }

  /** The document is replicated as a purchase. */
  predicate BecomesPurchase(f: FinTx) {
    && f.quantity.Some? && f.quantity.value != 0.0
    && Truthy(f.purchaseInvoice) && !Truthy(f.saleInvoice)
  }

  ghost predicate Admissible(s: State, step: Step) {
    step.Arrival? && BecomesPurchase(step.f) ==> NewCode(s, step.f) || |Filter(HasRemote(step.f.id), s.txs)| > 0
  }

  ghost predicate AdmissibleRun(cfg: Config, steps: seq<Step>)
    decreases |steps|
  {
    |steps| > 0 ==>
      AdmissibleRun(cfg, steps[..|steps| - 1]) && Admissible(Run(cfg, steps[..|steps| - 1]), steps[|steps| - 1])
  }

  ghost predicate RemotesApart(txs: seq<Tx>) {
    forall i, j :: 0 <= i < j < |txs| && txs[i].remote.Fin? ==> txs[i].remote != txs[j].remote
  }

  /** What every run keeps. */
  ghost predicate Inv(s: State) { Valid(s) && CodesApart(s.txs) && CogsMatch(s) && RemotesApart(s.txs) }

  // ----- Arrivals -----

  lemma {:induction false} ReplicaShape(f: FinTx, id: nat, millis: nat)
    requires Replica(f, id, millis).Some?
    ensures var t := Replica(f, id, millis).value;
            && WellFormed(t) && IsReplica(t) && Fresh(t) == t && t.id == id && t.remote == Fin(f.id) && !t.checked
            && t.date == f.date
            && (PurchaseShape(t) ==> Truthy(f.purchaseInvoice) && !Truthy(f.saleInvoice) && t.code == f.code)
  {
    var t := Replica(f, id, millis).value;
    assert PurchaseShape(t) || SaleShape(t) || NoteShape(t);
  }

  lemma {:induction false} NotFound(txs: seq<Tx>, doc: nat)
    requires |Filter(HasRemote(doc), txs)| == 0
    ensures forall t :: t in txs ==> t.remote != Fin(doc)
  {
    FilterSound(HasRemote(doc), txs);
    forall t | t in txs ensures t.remote != Fin(doc) {
      assert t !in Filter(HasRemote(doc), txs);
    }
  }

  lemma {:induction false} ArriveKeeps(s: State, f: FinTx, millis: nat)
    requires Inv(s) && Admissible(s, Arrival(f, millis))
    ensures Inv(Arrive(s, f, millis))
  {
    var s' := Arrive(s, f, millis);
    if s' != s {
      var t := Replica(f, s.nextId, millis).value;
      ReplicaShape(f, s.nextId, millis);
      NotFound(s.txs, f.id);
      assert s'.txs == s.txs + [t];
      AppendKeeps(s, s', t);
    }
  }

  lemma {:induction false} AppendKeeps(s: State, s': State, t: Tx)
    requires Inv(s) && s'.txs == s.txs + [t] && s'.cogs == s.cogs && s'.nextId == s.nextId + 1 && t.id == s.nextId
    requires WellFormed(t) && !t.checked && forall x :: x in s.txs ==> x.remote != t.remote
    requires PurchaseShape(t) ==> forall x :: x in s.txs && PurchaseShape(x) ==> x.code != t.code
    ensures Inv(s')
  {
    AppendValid(s, s', t);
    forall i | 0 <= i < |s.txs| ensures s'.txs[i] == s.txs[i] && s.txs[i] in s.txs {}
    forall c | c in s'.cogs ensures HasSale(s'.txs, c) {
      assert HasSale(s.txs, c);
      var x :| x in s.txs && CostsSale(c, x);
      assert x in s'.txs;
    }
  }

  lemma {:induction false} AppendValid(s: State, s': State, t: Tx)
    requires Valid(s) && s'.txs == s.txs + [t] && s'.nextId == s.nextId + 1 && t.id == s.nextId && WellFormed(t)
    ensures Valid(s')
  {
    forall i, j | 0 <= i < j < |s'.txs| ensures IdOf(s'.txs[i]) != IdOf(s'.txs[j]) {
      assert s.txs[i] in s.txs;
      if j < |s.txs| { assert IdOf(s.txs[i]) != IdOf(s.txs[j]); }
    }
  }

  // ----- Calculations -----

  lemma {:induction false} CommitHasSale(cfg: Config, fin: seq<FinTx>, s: State, d: int)
    requires Inv(s) && cfg.halfUnit > 0.0 && Settle(cfg, fin, s.txs, d).Ok?
             && SalesTotal(s.txs, d) <= PurchasesTotal(s.txs, d)
    ensures var s' := Commit(s, Settle(cfg, fin, s.txs, d).work, SortedSales(s.txs, d));
            Distinct(SaleOf, s'.cogs) && forall c :: c in s'.cogs ==> HasSale(s'.txs, c)
  {
    var w, sales := Settle(cfg, fin, s.txs, d).work, SortedSales(s.txs, d);
    OldPostings(cfg, fin, s, d);
    NewPostings(cfg, fin, s, d);
    RunPostings(cfg, fin, s, d);
    CogsApart(s.cogs, w.cogs, sales);
  }

  lemma {:induction false} OldPostings(cfg: Config, fin: seq<FinTx>, s: State, d: int)
    requires Inv(s) && cfg.halfUnit > 0.0 && Settle(cfg, fin, s.txs, d).Ok?
             && SalesTotal(s.txs, d) <= PurchasesTotal(s.txs, d)
    ensures var w := Settle(cfg, fin, s.txs, d).work;
            forall c :: c in s.cogs ==>
              HasSale(Commit(s, w, SortedSales(s.txs, d)).txs, c)
                && forall k :: 0 <= k < |w.cogs| ==> c.sale != w.cogs[k].sale
  {
    var w, sales := Settle(cfg, fin, s.txs, d).work, SortedSales(s.txs, d);
    var s' := Commit(s, w, sales);
    RunPostings(cfg, fin, s, d);
    assert Apply(w.updates, s.txs) <= s'.txs && AllEvolve(s.txs, Apply(w.updates, s.txs))
           by { CommitBook(cfg, fin, s, d); }
    forall c | c in s.cogs ensures HasSale(s'.txs, c) && forall k :: 0 <= k < |w.cogs| ==> c.sale != w.cogs[k].sale {
      OldCogs(s, s', w, sales, c);
    }
  }

  lemma {:induction false} NewPostings(cfg: Config, fin: seq<FinTx>, s: State, d: int)
    requires Inv(s) && cfg.halfUnit > 0.0 && Settle(cfg, fin, s.txs, d).Ok?
             && SalesTotal(s.txs, d) <= PurchasesTotal(s.txs, d)
    ensures var w := Settle(cfg, fin, s.txs, d).work;
            forall c :: c in w.cogs ==> HasSale(Commit(s, w, SortedSales(s.txs, d)).txs, c)
  {
    var w, sales := Settle(cfg, fin, s.txs, d).work, SortedSales(s.txs, d);
    RunPostings(cfg, fin, s, d);
    forall c | c in w.cogs ensures HasSale(Commit(s, w, sales).txs, c) {
      var k :| 0 <= k < |w.cogs| && w.cogs[k] == c;
      NewCogs(cfg, fin, s, d, k);
    }
  }

  /** The postings of a run are for the open sales of the book, one each. */
  lemma {:induction false} RunPostings(cfg: Config, fin: seq<FinTx>, s: State, d: int)
    requires Inv(s) && cfg.halfUnit > 0.0 && Settle(cfg, fin, s.txs, d).Ok?
             && SalesTotal(s.txs, d) <= PurchasesTotal(s.txs, d)
    ensures var w, sales := Settle(cfg, fin, s.txs, d).work, SortedSales(s.txs, d);
            && Distinct(IdOf, sales) && |w.cogs| == |w.done| == |sales|
            && forall k :: 0 <= k < |sales| ==>
                 sales[k] in s.txs && !sales[k].checked && w.cogs[k].sale == sales[k].id
                   && Complete(sales[k], w.done[k], w.cogs[k])
  {
    GuardSuffices(cfg, fin, s.txs, d);
    KindsApart(s.txs, d);
    CollectedShapes(s.txs, d);
    MembersShapes(s.txs, d);
  }

  /** The COGS postings still match the checked sales after a calculation. */
  lemma {:induction false} CommitCogs(cfg: Config, fin: seq<FinTx>, s: State, d: int)
    requires Inv(s) && cfg.halfUnit > 0.0 && Settle(cfg, fin, s.txs, d).Ok?
             && SalesTotal(s.txs, d) <= PurchasesTotal(s.txs, d)
    ensures CogsMatch(Commit(s, Settle(cfg, fin, s.txs, d).work, SortedSales(s.txs, d)))
  {
    var s' := Commit(s, Settle(cfg, fin, s.txs, d).work, SortedSales(s.txs, d));
    CommitHasSale(cfg, fin, s, d);
    forall t | t in s'.txs && SaleShape(t) && t.checked ensures HasCogs(s'.cogs, t) {
      CheckedSale(cfg, fin, s, d, t);
    }
  }

  lemma {:induction false} CheckedStays(u: map<nat, Tx>, txs: seq<Tx>, t: Tx)
    requires AllEvolve(txs, Apply(u, txs)) && t in txs && t.checked && WellFormed(t)
    ensures t in Apply(u, txs)
  {
    var i :| 0 <= i < |txs| && txs[i] == t;
    assert Evolves(txs[i], Apply(u, txs)[i]);
    assert Apply(u, txs)[i] == t;
  }

  lemma {:induction false} OldCogs(s: State, s': State, w: Work, sales: seq<Tx>, c: Cogs)
    requires Inv(s) && c in s.cogs && |w.cogs| == |sales| && Apply(w.updates, s.txs) <= s'.txs
             && AllEvolve(s.txs, Apply(w.updates, s.txs))
    requires forall k :: 0 <= k < |sales| ==> sales[k] in s.txs && !sales[k].checked && w.cogs[k].sale == sales[k].id
    ensures HasSale(s'.txs, c) && forall k :: 0 <= k < |w.cogs| ==> c.sale != w.cogs[k].sale
  {
    assert HasSale(s.txs, c);
    var t :| t in s.txs && CostsSale(c, t);
    CheckedStays(w.updates, s.txs, t);
    forall k | 0 <= k < |w.cogs| ensures c.sale != w.cogs[k].sale {
      if sales[k].id == t.id { SameIdSame(s.txs, sales[k], t); }
    }
  }

  lemma {:induction false} NewCogs(cfg: Config, fin: seq<FinTx>, s: State, d: int, k: nat)
    requires Inv(s) && Settle(cfg, fin, s.txs, d).Ok? && k < |SortedSales(s.txs, d)|
    requires var w := Settle(cfg, fin, s.txs, d).work;
             k < |w.done| && k < |w.cogs| && Complete(SortedSales(s.txs, d)[k], w.done[k], w.cogs[k])
    ensures var w := Settle(cfg, fin, s.txs, d).work;
            CostsSale(w.cogs[k], w.done[k]) && w.done[k] in Commit(s, w, SortedSales(s.txs, d)).txs
  {
    var w, sales := Settle(cfg, fin, s.txs, d).work, SortedSales(s.txs, d);
    SettleSales(cfg, fin, s.txs, d);
    KindsApart(s.txs, d);
    CollectedShapes(s.txs, d);
    assert sales[k] in s.txs && SaleShape(sales[k]);
    assert Apply(w.updates, sales)[k] == Lookup(w.updates, sales[k]);
    EvolvesShape(sales[k], w.done[k]);
    var i :| 0 <= i < |s.txs| && s.txs[i] == sales[k];
    CommitBook(cfg, fin, s, d);
    assert Apply(w.updates, s.txs)[i] == w.done[k];
  }

  lemma {:induction false} CogsApart(olds: seq<Cogs>, news: seq<Cogs>, sales: seq<Tx>)
    requires Distinct(SaleOf, olds) && Distinct(IdOf, sales) && |news| == |sales|
    requires forall k :: 0 <= k < |news| ==> news[k].sale == sales[k].id
    requires forall c :: c in olds ==> forall k :: 0 <= k < |news| ==> c.sale != news[k].sale
    ensures Distinct(SaleOf, olds + news)
  {
    var all := olds + news;
    forall i, j | 0 <= i < j < |all| ensures SaleOf(all[i]) != SaleOf(all[j]) {
      if j < |olds| {
      } else if i < |olds| {
        assert olds[i] in olds;
      } else {
        assert IdOf(sales[i - |olds|]) != IdOf(sales[j - |olds|]);
      }
    }
  }

  /** A checked sale of the new book was checked before, or was settled by this run. */
  lemma {:induction false} CheckedSale(cfg: Config, fin: seq<FinTx>, s: State, d: int, t: Tx)
    requires Inv(s) && cfg.halfUnit > 0.0 && Settle(cfg, fin, s.txs, d).Ok?
             && SalesTotal(s.txs, d) <= PurchasesTotal(s.txs, d)
    requires var w := Settle(cfg, fin, s.txs, d).work;
             t in Commit(s, w, SortedSales(s.txs, d)).txs && SaleShape(t) && t.checked
    ensures HasCogs(s.cogs + Settle(cfg, fin, s.txs, d).work.cogs, t)
  {
    var w, sales := Settle(cfg, fin, s.txs, d).work, SortedSales(s.txs, d);
    CommitBook(cfg, fin, s, d);
    var olds := Apply(w.updates, s.txs);
    var i :| 0 <= i < |olds + Posted(w.created, s)| && (olds + Posted(w.created, s))[i] == t;
    assert i < |olds|;
    var x := s.txs[i];
    assert x in s.txs && Lookup(w.updates, x) == t;
    EvolvesShape(x, t);
    if x.checked {
      assert HasCogs(s.cogs, x);
      var c :| c in s.cogs && CostsSale(c, x);
      assert c in s.cogs + w.cogs;
    } else {
      SettledSale(cfg, fin, s, d, x);
      var k :| 0 <= k < |w.cogs| && CostsSale(w.cogs[k], t);
      assert w.cogs[k] in s.cogs + w.cogs;
    }
  }

  lemma {:induction false} SettledSale(cfg: Config, fin: seq<FinTx>, s: State, d: int, x: Tx)
    requires Inv(s) && cfg.halfUnit > 0.0 && Settle(cfg, fin, s.txs, d).Ok?
             && SalesTotal(s.txs, d) <= PurchasesTotal(s.txs, d)
    requires x in s.txs && SaleShape(x) && !x.checked && Lookup(Settle(cfg, fin, s.txs, d).work.updates, x).checked
    ensures var w := Settle(cfg, fin, s.txs, d).work;
            exists k :: 0 <= k < |w.cogs| && CostsSale(w.cogs[k], Lookup(w.updates, x))
  {
    var w, sales := Settle(cfg, fin, s.txs, d).work, SortedSales(s.txs, d);
    FilterSound(OpenSales(d), s.txs);
    FilterSound(OpenPurchases(d), s.txs);
    FilterSound(OpenNotes(d), s.txs);
    if x !in Sales(s.txs, d) {
      SettleOther(cfg, fin, s.txs, d, x);
    }
    SortContents(Sales(s.txs, d));
    var k :| 0 <= k < |sales| && sales[k] == x;
    GuardSuffices(cfg, fin, s.txs, d);
    NewCogs(cfg, fin, s, d, k);
    SettleSales(cfg, fin, s.txs, d);
    assert Apply(w.updates, sales)[k] == w.done[k];
  }

  lemma {:induction false} CommitRemotes(cfg: Config, fin: seq<FinTx>, s: State, d: int)
    requires Inv(s) && Settle(cfg, fin, s.txs, d).Ok?
    ensures RemotesApart(Commit(s, Settle(cfg, fin, s.txs, d).work, SortedSales(s.txs, d)).txs)
  {
    var w := Settle(cfg, fin, s.txs, d).work;
    CommitBook(cfg, fin, s, d);
    RemotesStay(s.txs, Apply(w.updates, s.txs), Posted(w.created, s));
  }

  lemma {:induction false} RemotesStay(txs: seq<Tx>, olds: seq<Tx>, posted: seq<Tx>)
    requires RemotesApart(txs) && AllWellFormed(txs) && AllEvolve(txs, olds) && AllSplits(posted)
    ensures RemotesApart(olds + posted)
  {
    forall i | 0 <= i < |olds| ensures olds[i].remote == txs[i].remote {
      assert txs[i] in txs;
      EvolvesShape(txs[i], olds[i]);
    }
    forall i | 0 <= i < |posted| ensures !posted[i].remote.Fin? {
      assert SplitShape(posted[i]);
    }
  }

  lemma {:induction false} CalculateKeeps(cfg: Config, fin: seq<FinTx>, s: State, d: int)
    requires Inv(s) && cfg.halfUnit > 0.0
    ensures Inv(Calculate(cfg, fin, s, d).1)
  {
    if Calculate(cfg, fin, s, d).0.Calculated? {
      CommitValid(cfg, fin, s, d);
      CommitCogs(cfg, fin, s, d);
      CommitRemotes(cfg, fin, s, d);
    }
  }

  // ----- Resets and deletions -----

  /** Selecting replicas, fresh or not, keeps distinct ids, codes and remotes. */
  lemma {:induction false} ResetKeeps(s: State)
    requires Inv(s)
    ensures Inv(ResetState(s))
  {
    if !ResetLocked(s) {
      var s' := ResetState(s);
      ResetGivesOrigin(s);
      var rs := Filter(IsReplica, s.txs);
      PartKeeps(s, IsReplica);
      FilterSound(IsReplica, s.txs);
      FreshKeeps(s', rs);
    }
  }

  lemma {:induction false} FreshShape(t: Tx)
    requires WellFormed(t) && IsReplica(t)
    ensures WellFormed(Fresh(t)) && !Fresh(t).checked && Fresh(Fresh(t)) == Fresh(t) && IsReplica(Fresh(t))
    ensures PurchaseShape(Fresh(t)) == PurchaseShape(t) && SaleShape(Fresh(t)) == SaleShape(t)
            && NoteShape(Fresh(t)) == NoteShape(t)
  {
    if PurchaseShape(t) {
      assert PurchaseShape(Fresh(t));
    } else if SaleShape(t) {
      assert SaleShape(Fresh(t));
    } else {
      assert NoteShape(Fresh(t));
    }
  }

  lemma {:induction false} FreshKeeps(s: State, rs: seq<Tx>)
    requires s.txs == FreshAll(rs) && s.cogs == [] && 0 < s.nextId
    requires Distinct(IdOf, rs) && CodesApart(rs) && RemotesApart(rs)
    requires forall t :: t in rs ==> WellFormed(t) && IsReplica(t) && 0 < t.id < s.nextId
    ensures Inv(s)
  {
    forall i | 0 <= i < |rs|
      ensures WellFormed(s.txs[i]) && !s.txs[i].checked && PurchaseShape(s.txs[i]) == PurchaseShape(rs[i])
              && 0 < s.txs[i].id < s.nextId
    {
      assert rs[i] in rs;
      FreshShape(rs[i]);
    }
    forall i, j | 0 <= i < j < |rs| ensures IdOf(s.txs[i]) != IdOf(s.txs[j]) {
      assert IdOf(rs[i]) != IdOf(rs[j]);
    }
  }

  lemma {:induction false} PartKeeps(s: State, p: Tx -> bool)
    requires Valid(s) && CodesApart(s.txs) && RemotesApart(s.txs)
    ensures var xs := Filter(p, s.txs); Distinct(IdOf, xs) && CodesApart(xs) && RemotesApart(xs)
  {
    FilterDistinct(IdOf, p, s.txs);
    FilterPairs(p, s.txs);
  }

  lemma {:induction false} FilterPairs(p: Tx -> bool, xs: seq<Tx>)
    requires CodesApart(xs) && RemotesApart(xs)
    ensures CodesApart(Filter(p, xs)) && RemotesApart(Filter(p, xs))
  {
    if |xs| > 0 {
      var init, x := xs[..|xs| - 1], xs[|xs| - 1];
      FilterPairs(p, init);
      var ys := Filter(p, init);
      FilterSound(p, init);
      forall i | 0 <= i < |ys|
        ensures (PurchaseShape(ys[i]) && PurchaseShape(x) ==> ys[i].code != x.code)
                && (ys[i].remote.Fin? ==> ys[i].remote != x.remote)
      {
        assert ys[i] in ys;
        var k :| 0 <= k < |init| && init[k] == ys[i];
        assert xs[k] == ys[i];
      }
    }
  }

  lemma {:induction false} DropFirstContents(cogs: seq<Cogs>, id: nat)
    requires Distinct(SaleOf, cogs)
    ensures Distinct(SaleOf, DropFirst(cogs, id))
    ensures forall c :: c in DropFirst(cogs, id) <==> c in cogs && c.sale != id
    decreases |cogs|
  {
    if |cogs| > 0 {
      forall i | 0 <= i < |cogs| - 1 ensures cogs[1..][i].sale != cogs[0].sale {
        assert SaleOf(cogs[0]) != SaleOf(cogs[i + 1]);
      }
      assert cogs == [cogs[0]] + cogs[1..];
      if cogs[0].sale != id {
        DropFirstContents(cogs[1..], id);
        var r := DropFirst(cogs[1..], id);
        forall i | 0 <= i < |r| ensures r[i].sale != cogs[0].sale { assert r[i] in r && r[i] in cogs[1..]; }
      }
    }
  }

  lemma {:induction false} DeleteCogs(s: State, t: Tx)
    requires Inv(s) && t in s.txs
    ensures CogsMatch(s.(txs := Filter(OutOfFamily(t), s.txs), cogs := DropFirst(s.cogs, t.id)))
  {
    var txs, cogs := Filter(OutOfFamily(t), s.txs), DropFirst(s.cogs, t.id);
    DropFirstContents(s.cogs, t.id);
    FilterSound(OutOfFamily(t), s.txs);
    forall c | c in cogs ensures HasSale(txs, c) {
      assert HasSale(s.txs, c);
      var x :| x in s.txs && CostsSale(c, x);
      assert x in txs;
    }
    forall x | x in txs && SaleShape(x) && x.checked ensures HasCogs(cogs, x) {
      assert HasCogs(s.cogs, x);
      var c :| c in s.cogs && CostsSale(c, x);
      assert c in cogs;
    }
  }

  lemma {:induction false} DeleteKeeps(s: State, f: FinTx)
    requires Inv(s)
    ensures Inv(Delete(s, f))
  {
    var found := Filter(HasRemote(f.id), s.txs);
    FilterSound(HasRemote(f.id), s.txs);
    if f.posted && IsPurchaseDocument(f) && |found| > 0 {
      assert found[0] in found;
      PartKeeps(s, OutOfFamily(found[0]));
      FilterSound(OutOfFamily(found[0]), s.txs);
      DeleteCogs(s, found[0]);
    }
  }

  /** Every step keeps the invariant. */
  lemma {:induction false} StepKeeps(cfg: Config, s: State, step: Step)
    requires Inv(s) && Admissible(s, step) && cfg.halfUnit > 0.0
    ensures Inv(Do(cfg, s, step))
  {
    match step
    case Arrival(f, millis) => ArriveKeeps(s, f, millis);
    case Calculating(fin, d) =>
      if s.rebuild { ResetKeeps(s); } else { CalculateKeeps(cfg, fin, s, d); }
    case Resetting => ResetKeeps(s);
    case Deletion(f) => DeleteKeeps(s, f);
    case Locking(ids, cogs) =>
  }

  /** Every reachable state satisfies the invariant. */
  lemma {:induction false} RunKeeps(cfg: Config, steps: seq<Step>)
    requires AdmissibleRun(cfg, steps) && cfg.halfUnit > 0.0
    ensures Inv(Run(cfg, steps))
    decreases |steps|
  {
    if |steps| > 0 {
      RunKeeps(cfg, steps[..|steps| - 1]);
      StepKeeps(cfg, Run(cfg, steps[..|steps| - 1]), steps[|steps| - 1]);
    }
  }
}
