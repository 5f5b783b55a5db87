/** What the events side does to the Inventory Book: replicate checked documents, cascade deletes. */
module Replication {
  import opened Lists
  import opened Ledger

  /** The inventory transaction posted for a financial document, if any. */
  function Replica(f: FinTx, id: nat, millis: nat): Option<Tx> {
    if f.quantity.None? || f.quantity.value == 0.0 then None
    else if Truthy(f.saleInvoice) then
      Some(Tx(id, Fin(f.id), f.date, f.order, Some(millis), GoodToSell, f.quantity.value, true, false, true, None,
              None, None, None, None, None, None, None, None))
    else if Truthy(f.purchaseInvoice) then
      Some(Tx(id, Fin(f.id), f.date, f.order, Some(millis), BuyToGood, f.quantity.value, true, false, true, f.code,
              Some(f.amount), Some(f.quantity.value), Some(f.amount), None, None, None, None, None))
    else if Truthy(f.creditNote) then
      Some(Tx(id, Fin(f.id), f.date, f.order, Some(millis), GoodToBuy, f.quantity.value, true, false, true, f.code,
              None, None, None, None, None, None, None, Some(Number(f.creditNote.value))))
    else None
  }

  function HasRemote(doc: nat): Tx -> bool { (t: Tx) => t.remote == Fin(doc) }

  /** A transaction dated up to the calculation date makes the calculation stale. */
  predicate Stale(calcDate: CalcDate, date: int) { calcDate.Value().Some? && date <= calcDate.Value().value }

  /** A checked financial document: found by remote id, or posted once. */
  function Arrive(s: State, f: FinTx, millis: nat): State {
    if !f.posted || |Filter(HasRemote(f.id), s.txs)| > 0 then s
    else
      var r := Replica(f, s.nextId, millis);
      if r.None? then s
      else s.(txs := s.txs + [r.value], nextId := s.nextId + 1, rebuild := s.rebuild || Stale(s.calcDate, f.date))
  }

  /** The deleted document looks like a purchase. */
  predicate IsPurchaseDocument(f: FinTx) { f.quantity.Some? && f.code.Some? && f.code == f.purchaseInvoice }

  function OutOfFamily(root: Tx): Tx -> bool {
    (t: Tx) => t.id != root.id && !(root.originalQuantity.Some? && t.parent == Some(root.id))
  }

  function DropFirst(cogs: seq<Cogs>, sale: nat): seq<Cogs> {
    if |cogs| == 0 then [] else if cogs[0].sale == sale then cogs[1..] else [cogs[0]] + DropFirst(cogs[1..], sale)
  }

  // ----- Deleted additional costs and credit notes -----

  /** The deleted document looks like a credit of the good: the good is looked up by the account
      that the document credits, so that of an additional cost is not found. */
  predicate IsCreditDocument(f: FinTx) { f.code.Some? && f.code != f.purchaseInvoice && f.creditsGood }

  /** The transactions among which the purchase is looked for. */
  function CodedNear(f: FinTx): Tx -> bool {
    (t: Tx) => t.code == f.code && f.date - QUERY_RANGE <= t.date < f.date + QUERY_RANGE
  }

  /** The transaction does not hold its original quantity. */
  predicate OffOriginal(t: Tx) { (if t.originalQuantity.Some? then t.originalQuantity.value else 0.0) != t.amount }

  /** The first transaction found does not hold its original quantity. */
  predicate FoundReduced(txs: seq<Tx>, f: FinTx) {
    var found := Filter(CodedNear(f), txs);
    |found| > 0 && OffOriginal(found[0])
  }

  // ----- Deletions -----

  /** A deleted purchase document: its replica, the replica's splits and any posting linked to
      it are trashed, and the account is flagged if it was calculated up to that date. A deleted
      credit document only flags the account, if its purchase is found reduced. */
  function Delete(s: State, f: FinTx): State {
    var found := Filter(HasRemote(f.id), s.txs);
    if !f.posted then s
    else if IsPurchaseDocument(f) then
      if |found| == 0 then s
      else
        var t := found[0];
        s.(txs := Filter(OutOfFamily(t), s.txs),
           cogs := DropFirst(s.cogs, t.id),
           rebuild := s.rebuild || ((IsSale(t) || IsPurchase(t)) && Stale(s.calcDate, t.date)))
    else if IsCreditDocument(f) && FoundReduced(s.txs, f) then s.(rebuild := true)
    else s
  }
}
