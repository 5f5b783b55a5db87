/** Books made by arrivals alone: one replica per document, in the order the documents came. */
module Arrivals {
  import opened Lists
  import opened Ledger
  import opened Replication
  import opened Books
  import opened Collected
  import opened Runs

  // ----- Documents -----

  predicate Sells(f: FinTx) { f.posted && Truthy(f.saleInvoice) && f.quantity.Some? && f.quantity.value > 0.0 }

  predicate Buys(f: FinTx) {
    && f.posted && Truthy(f.purchaseInvoice) && !Truthy(f.saleInvoice)
    && f.quantity.Some? && f.quantity.value > 0.0
  }

  predicate Returns(f: FinTx) {
    && f.posted && Truthy(f.creditNote) && !Truthy(f.purchaseInvoice) && !Truthy(f.saleInvoice)
    && f.quantity.Some? && f.quantity.value > 0.0
  }

  function Units(f: FinTx): Quantity { if f.quantity.Some? then f.quantity.value else 0.0 }

  function SaleReplica(f: FinTx, id: nat, millis: nat): Tx {
    Tx(id, Fin(f.id), f.date, f.order, Some(millis), GoodToSell, Units(f), true, false, true, None,
       None, None, None, None, None, None, None, None)
  }

  function PurchaseReplica(f: FinTx, id: nat, millis: nat): Tx {
    Tx(id, Fin(f.id), f.date, f.order, Some(millis), BuyToGood, Units(f), true, false, true, f.code,
       Some(f.amount), Some(Units(f)), Some(f.amount), None, None, None, None, None)
  }

  function NoteReplica(f: FinTx, id: nat, millis: nat): Tx {
    Tx(id, Fin(f.id), f.date, f.order, Some(millis), GoodToBuy, Units(f), true, false, true, f.code,
       None, None, None, None, None, None, None,
       if f.creditNote.Some? then Some(Number(f.creditNote.value)) else None)
  }

  function ReplicaOf(f: FinTx, id: nat, millis: nat): Tx {
    if Sells(f) then SaleReplica(f, id, millis)
    else if Buys(f) then PurchaseReplica(f, id, millis)
    else NoteReplica(f, id, millis)
  }

  predicate Trades(f: FinTx) { Sells(f) || Buys(f) || Returns(f) }

  lemma {:induction false} TradeReplica(f: FinTx, id: nat, millis: nat)
    requires Trades(f)
    ensures Replica(f, id, millis) == Some(ReplicaOf(f, id, millis))
    ensures PurchaseShape(ReplicaOf(f, id, millis)) == Buys(f) && SaleShape(ReplicaOf(f, id, millis)) == Sells(f)
  {}

  // ----- Histories of arrivals -----

  function ArrivalsOf(docs: seq<FinTx>, millis: nat): seq<Step> {
    seq(|docs|, i requires 0 <= i < |docs| => Arrival(docs[i], millis))
  }

  function ReplicasOf(docs: seq<FinTx>, millis: nat): seq<Tx> {
    seq(|docs|, i requires 0 <= i < |docs| => ReplicaOf(docs[i], i + 1, millis))
  }

  function DocOf(f: FinTx): nat { f.id }

  ghost predicate AllTrade(docs: seq<FinTx>) {
    Distinct(DocOf, docs) && forall i :: 0 <= i < |docs| ==> Trades(docs[i])
  }

  /** A document is replicated if and only if it sells, buys or returns something and has no live
      replica: its replica comes last, and the account is flagged if the date is covered. */
  lemma {:induction false} ArrivesIff(s: State, f: FinTx, millis: nat)
    ensures Arrive(s, f, millis)
         == if Trades(f) && forall t :: t in s.txs ==> t.remote != Fin(f.id) then
              s.(txs := s.txs + [ReplicaOf(f, s.nextId, millis)], nextId := s.nextId + 1,
                 rebuild := s.rebuild || (s.calcDate.On? && f.date <= s.calcDate.date))
            else s
  {
    FilterSound(HasRemote(f.id), s.txs);
    if |Filter(HasRemote(f.id), s.txs)| > 0 {
      assert Filter(HasRemote(f.id), s.txs)[0] in Filter(HasRemote(f.id), s.txs);
    }
    if Trades(f) { TradeReplica(f, s.nextId, millis); }
  }

  function NoneIfEmpty(p: Option<string>): Option<string> { if p == Some("") then None else p }

  /** A property that is empty counts as missing. */
  lemma {:induction false} EmptyIsMissing(s: State, f: FinTx, millis: nat)
    ensures Arrive(s, f, millis)
         == Arrive(s, f.(saleInvoice := NoneIfEmpty(f.saleInvoice), purchaseInvoice := NoneIfEmpty(f.purchaseInvoice),
                         creditNote := NoneIfEmpty(f.creditNote)), millis)
  {}

  /** One more document arrives, dated after the calculation date. */
  lemma {:induction false} NextArrives(s: State, f: FinTx, millis: nat)
    requires Trades(f) && !s.rebuild && !Stale(s.calcDate, f.date) && forall t :: t in s.txs ==> t.remote != Fin(f.id)
    ensures Arrive(s, f, millis) == s.(txs := s.txs + [ReplicaOf(f, s.nextId, millis)], nextId := s.nextId + 1)
  {
    ArrivesIff(s, f, millis);
  }

  lemma {:induction false} RunSnoc(cfg: Config, steps: seq<Step>, step: Step)
    ensures Run(cfg, steps + [step]) == Do(cfg, Run(cfg, steps), step)
    ensures AdmissibleRun(cfg, steps + [step]) <==> AdmissibleRun(cfg, steps) && Admissible(Run(cfg, steps), step)
  {
    assert (steps + [step])[..|steps|] == steps;
  }

  lemma {:induction false} ArrivalsSnoc(docs: seq<FinTx>, f: FinTx, millis: nat)
    ensures ArrivalsOf(docs + [f], millis) == ArrivalsOf(docs, millis) + [Arrival(f, millis)]
    ensures ReplicasOf(docs + [f], millis) == ReplicasOf(docs, millis) + [ReplicaOf(f, |docs| + 1, millis)]
  {}

  lemma {:induction false} AllTradeInit(docs: seq<FinTx>, f: FinTx, millis: nat)
    requires AllTrade(docs + [f])
    ensures AllTrade(docs) && Trades(f) && forall t :: t in ReplicasOf(docs, millis) ==> t.remote != Fin(f.id)
  {
    var all := docs + [f];
    assert all[|docs|] == f;
    forall i | 0 <= i < |docs| ensures Trades(docs[i]) && docs[i].id != f.id {
      assert all[i] == docs[i] && DocOf(all[i]) != DocOf(all[|docs|]);
    }
    forall i, j | 0 <= i < j < |docs|
      ensures DocOf(docs[i]) != DocOf(docs[j]) { assert DocOf(all[i]) != DocOf(all[j]); }
    forall t | t in ReplicasOf(docs, millis) ensures t.remote != Fin(f.id) {
      var i :| 0 <= i < |docs| && ReplicasOf(docs, millis)[i] == t;
      assert t.remote == Fin(docs[i].id);
    }
  }

  /** The book after some documents arrived. */
  lemma {:induction false} DocsArrive(cfg: Config, docs: seq<FinTx>, millis: nat)
    requires AllTrade(docs)
    ensures Run(cfg, ArrivalsOf(docs, millis)) == EMPTY.(txs := ReplicasOf(docs, millis), nextId := |docs| + 1)
    decreases |docs|
  {
    if |docs| > 0 {
      var init, f := docs[..|docs| - 1], docs[|docs| - 1];
      assert docs == init + [f];
      AllTradeInit(init, f, millis);
      DocsArrive(cfg, init, millis);
      ArrivalsSnoc(init, f, millis);
      RunSnoc(cfg, ArrivalsOf(init, millis), Arrival(f, millis));
      NextArrives(Run(cfg, ArrivalsOf(init, millis)), f, millis);
    }
  }

  ghost predicate OwnCodes(docs: seq<FinTx>) {
    forall i, j :: 0 <= i < j < |docs| && Buys(docs[i]) && Buys(docs[j]) ==> docs[i].code != docs[j].code
  }

  /** Purchases with codes of their own make an admissible history. */
  lemma {:induction false} DocsAdmissible(cfg: Config, docs: seq<FinTx>, millis: nat)
    requires AllTrade(docs) && OwnCodes(docs)
    ensures AdmissibleRun(cfg, ArrivalsOf(docs, millis))
    decreases |docs|
  {
    if |docs| > 0 {
      var init, f := docs[..|docs| - 1], docs[|docs| - 1];
      assert docs == init + [f];
      AllTradeInit(init, f, millis);
      DocsAdmissible(cfg, init, millis);
      DocsArrive(cfg, init, millis);
      ArrivalsSnoc(init, f, millis);
      RunSnoc(cfg, ArrivalsOf(init, millis), Arrival(f, millis));
      if Buys(f) { CodeIsNew(init, f, millis); }
    }
  }

  lemma {:induction false} CodeIsNew(docs: seq<FinTx>, f: FinTx, millis: nat)
    requires AllTrade(docs) && OwnCodes(docs + [f]) && Buys(f)
    ensures forall t :: t in ReplicasOf(docs, millis) && PurchaseShape(t) ==> t.code != f.code
  {
    var all := docs + [f];
    assert all[|docs|] == f;
    forall t | t in ReplicasOf(docs, millis) && PurchaseShape(t) ensures t.code != f.code {
      var i :| 0 <= i < |docs| && ReplicasOf(docs, millis)[i] == t;
      TradeReplica(docs[i], i + 1, millis);
      assert all[i] == docs[i] && Buys(all[i]) && Buys(all[|docs|]);
    }
  }
}
