/** Reset gives back the book that replication made. */
module ResetFacts {
  import opened Lists
  import opened Ledger
  import opened Reset
  import opened Books
  import opened Collected

  lemma {:induction false} UpdateMapLookup(txs: seq<Tx>, t: Tx)
    requires Distinct(IdOf, txs) && t in txs
    ensures Lookup(UpdateMap(txs), t) == if ResetUpdates(t) then ResetCopy(t) else t
  {
    var n := |txs| - 1;
    if txs[n] == t {
      if !ResetUpdates(t) {
        UpdateMapKeys(txs[..n], t.id);
        forall i | 0 <= i < n ensures txs[i].id != t.id { assert IdOf(txs[i]) != IdOf(txs[n]); }
      }
    } else {
      var i :| 0 <= i < |txs| && txs[i] == t;
      assert txs[..n][i] == t;
      assert IdOf(txs[i]) != IdOf(txs[n]);
      UpdateMapLookup(txs[..n], t);
    }
  }

  lemma {:induction false} UpdateMapKeys(txs: seq<Tx>, id: nat)
    ensures id in UpdateMap(txs) ==> exists i :: 0 <= i < |txs| && txs[i].id == id
  {
    if |txs| > 0 {
      UpdateMapKeys(txs[..|txs| - 1], id);
    }
  }

  /** A reset replica is as replication posted it. */
  lemma {:induction false} ResetIsFresh(t: Tx)
    requires WellFormed(t) && IsReplica(t)
    ensures (if ResetUpdates(t) then ResetCopy(t) else t) == Fresh(t)
  {}

  lemma {:induction false} TrashIsSplits(txs: seq<Tx>, t: Tx)
    requires Distinct(IdOf, txs) && AllWellFormed(txs) && t in txs
    ensures t.id in TrashSet(txs) <==> IsSplit(t)
  {
    if t.id in TrashSet(txs) {
      var x :| x in txs && ResetTrashes(x) && x.id == t.id;
      SameIdSame(txs, x, t);
    }
  }

  /** Reset keeps exactly the replicas, each as it was posted. */
  lemma {:induction false} ResetBook(txs: seq<Tx>)
    requires Distinct(IdOf, txs) && AllWellFormed(txs)
    ensures Filter(Kept(TrashSet(txs)), Apply(UpdateMap(txs), txs)) == Origin(txs)
  {
    var p, u, rs := Kept(TrashSet(txs)), UpdateMap(txs), Filter(IsReplica, txs);
    forall t | t in txs ensures p(Lookup(u, t)) == IsReplica(t) {
      UpdateMapLookup(txs, t);
      TrashIsSplits(txs, t);
    }
    FilterApply(p, p, IsReplica, u, txs);
    FilterSound(IsReplica, txs);
    forall i | 0 <= i < |rs| ensures p(Apply(u, rs)[i]) && Apply(u, rs)[i] == Fresh(rs[i]) {
      assert rs[i] in rs;
      UpdateMapLookup(txs, rs[i]);
      ResetIsFresh(rs[i]);
    }
    FilterAll(p, Apply(u, rs));
    assert Apply(u, rs) == FreshAll(rs);
  }

  /** `t` is the checked sale that posting `c` is the cost of: linked to it, of its date, quantity
      and cost. */
  ghost predicate CostsSale(c: Cogs, t: Tx) {
    SaleShape(t) && t.checked && t.totalCost.Some? && c == Cogs(t.id, t.date, t.totalCost.value, t.amount)
  }

  ghost predicate HasSale(txs: seq<Tx>, c: Cogs) { exists t :: t in txs && CostsSale(c, t) }
  ghost predicate HasCogs(cogs: seq<Cogs>, t: Tx) { exists c :: c in cogs && CostsSale(c, t) }

  /** The COGS postings match the checked sales one to one, each with the sale's cost. */
  ghost predicate CogsMatch(s: State) {
    && Distinct(SaleOf, s.cogs)
    && (forall c :: c in s.cogs ==> HasSale(s.txs, c))
    && (forall t :: t in s.txs && SaleShape(t) && t.checked ==> HasCogs(s.cogs, t))
  }

  lemma {:induction false} TrashAll(cogs: seq<Cogs>, sales: set<nat>)
    requires Distinct(SaleOf, cogs) && forall i :: 0 <= i < |cogs| ==> cogs[i].sale in sales
    ensures TrashFirst(cogs, sales) == []
    decreases |cogs|
  {
    if |cogs| > 0 {
      forall i | 0 <= i < |cogs| - 1 ensures cogs[1..][i].sale in sales - {cogs[0].sale} {
        assert SaleOf(cogs[0]) != SaleOf(cogs[i + 1]);
      }
      TrashAll(cogs[1..], sales - {cogs[0].sale});
    }
  }

  lemma {:induction false} CogsFound(txs: seq<Tx>, cogs: seq<Cogs>, c: Cogs)
    requires AllWellFormed(txs) && c in cogs && HasSale(txs, c)
    ensures c.sale in CogsTrash(txs, cogs)
  {
    var t :| t in txs && CostsSale(c, t);
    assert ResetsSale(t);
  }

  lemma {:induction false} ResetCogs(s: State)
    requires Valid(s) && CogsMatch(s)
    ensures TrashFirst(s.cogs, CogsTrash(s.txs, s.cogs)) == []
  {
    forall i | 0 <= i < |s.cogs| ensures s.cogs[i].sale in CogsTrash(s.txs, s.cogs) {
      assert s.cogs[i] in s.cogs;
      CogsFound(s.txs, s.cogs, s.cogs[i]);
    }
    TrashAll(s.cogs, CogsTrash(s.txs, s.cogs));
  }

  /** Reset from a book the bot made, with nothing locked: the replicated book, no postings, no
      flag and no date. */
  lemma {:induction false} ResetGivesOrigin(s: State)
    requires Valid(s) && CogsMatch(s) && !ResetLocked(s)
    ensures var s' := ResetState(s);
            s'.txs == Origin(s.txs) && s'.cogs == [] && !s'.rebuild && s'.calcDate.Value() == None
              && s'.nextId == s.nextId
  {
    ResetBook(s.txs);
    ResetCogs(s);
  }
}
