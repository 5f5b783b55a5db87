/** The books the bot makes: the shapes its transactions take, and what replication made them. */
module Books {
  import opened Lists
  import opened Ledger
  import opened Allocation

  /** A part of a purchase, taken by a sale or by a credit note. */
  ghost predicate SplitShape(t: Tx) {
    && t.parent.Some? && t.flow == BuyToGood && t.checked
    && t.purchaseLog.None? && t.originalQuantity.None? && t.purchaseCost.None? && t.addCosts.None?
    && if t.creditNote.Some? then t.remote.Note? && t.totalCost.None? && t.liquidation.None?
       else (t.remote.Uuid? || t.remote.Pending?) && t.totalCost.Some? && t.liquidation.Some?
  }

  /** A replicated purchase: untouched, drawn on, or sold out. */
  ghost predicate PurchaseShape(t: Tx) {
    && t.parent.None? && t.flow == BuyToGood && t.remote.Fin? && t.millis.Some? && t.amount > 0.0
    && t.originalQuantity.Some? && t.originalQuantity.value > 0.0 && t.purchaseCost.Some? && t.totalCost.Some?
    && t.purchaseLog.None? && t.checked == t.liquidation.Some?
    && t.addCosts.Some? == t.creditNote.Some?
    && (Untouched(t) ==> !t.checked && t.totalCost == t.purchaseCost)
  }

  /** A replicated sale: open, or checked with its log and cost. */
  ghost predicate SaleShape(t: Tx) {
    && t.parent.None? && t.flow == GoodToSell && t.remote.Fin? && t.millis.Some? && t.amount > 0.0
    && t.originalQuantity.None? && t.purchaseCost.None? && t.liquidation.None? && t.addCosts.None? && t.creditNote.None?
    && t.checked == t.purchaseLog.Some? == t.totalCost.Some?
  }

  /** A replicated credit note, checked once applied. */
  ghost predicate NoteShape(t: Tx) {
    && t.parent.None? && t.flow == GoodToBuy && t.remote.Fin? && t.millis.Some? && t.amount > 0.0
    && t.originalQuantity.None? && t.purchaseCost.None? && t.liquidation.None? && t.addCosts.None?
    && t.purchaseLog.None? && t.totalCost.None? && t.creditNote.Some? && t.creditNote.value.Number?
  }

  ghost predicate WellFormed(t: Tx) {
    t.posted && t.byBot && (SplitShape(t) || PurchaseShape(t) || SaleShape(t) || NoteShape(t))
  }

  ghost predicate AllWellFormed(txs: seq<Tx>) { forall t :: t in txs ==> WellFormed(t) }

  /** Two purchases never share a purchase code. */
  ghost predicate CodesApart(txs: seq<Tx>) {
    forall i, j :: 0 <= i < j < |txs| && PurchaseShape(txs[i]) && PurchaseShape(txs[j]) ==> txs[i].code != txs[j].code
  }

  ghost predicate Valid(s: State) {
    && Distinct(IdOf, s.txs)
    && AllWellFormed(s.txs)
    && (forall t :: t in s.txs ==> 0 < t.id < s.nextId)
    && 0 < s.nextId
  }

  /** A replica as replication posted it. */
  function Fresh(t: Tx): Tx {
    t.(checked := false, purchaseLog := None, liquidation := None, addCosts := None,
       amount := if t.originalQuantity.Some? then t.originalQuantity.value else t.amount,
       totalCost := t.purchaseCost,
       creditNote := if t.flow == BuyToGood then None else t.creditNote)
  }

  function FreshAll(txs: seq<Tx>): seq<Tx> { seq(|txs|, i requires 0 <= i < |txs| => Fresh(txs[i])) }

  /** The book as replication made it: the replicas, fresh, without the splits. */
  function Origin(txs: seq<Tx>): seq<Tx> { FreshAll(Filter(IsReplica, txs)) }
}
