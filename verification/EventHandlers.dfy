/** The events side on the stores: a checked document, and a deleted one. */
module EventHandlers {
  import opened Lists
  import opened Ledger
  import opened Reset
  import opened Replication
  import opened Collected
  import opened Stores

  /** Flags the account when a transaction is dated up to the calculation date. */
  method CheckLastTxDate(account: GoodAccount, date: int) returns (flagged: bool)
    modifies account`rebuild
    ensures flagged == Stale(account.calcDate, date) && account.rebuild == (old(account.rebuild) || flagged)
  {
    var last := account.CalculationDateValue();
    flagged := last.Some? && date <= last.value;
    if flagged { account.FlagNeedsRebuild(); }
  }

  /** Posts the sale, purchase or credit note of a document that has no replica yet. */
  method ConnectedTransactionNotFound(account: GoodAccount, inventory: InventoryBook, f: FinTx, millis: nat)
    modifies account`rebuild, inventory`txs, inventory`nextId
    ensures var r := Replica(f, old(inventory.nextId), millis);
            && inventory.txs == old(inventory.txs) + (if r.Some? then [r.value] else [])
            && inventory.nextId == old(inventory.nextId) + (if r.Some? then 1 else 0)
            && account.rebuild == (old(account.rebuild) || (r.Some? && Stale(account.calcDate, f.date)))
  {
    if f.quantity.None? || f.quantity.value == 0.0 { return; }
    var quantity := f.quantity.value;
    if f.saleInvoice.Some? && f.saleInvoice.value != "" {
      inventory.Post(Tx(0, Fin(f.id), f.date, f.order, Some(millis), GoodToSell, quantity, true, false, true, None,
                        None, None, None, None, None, None, None, None));
    } else if f.purchaseInvoice.Some? && f.purchaseInvoice.value != "" {
      inventory.Post(Tx(0, Fin(f.id), f.date, f.order, Some(millis), BuyToGood, quantity, true, false, true, f.code,
                        Some(f.amount), Some(quantity), Some(f.amount), None, None, None, None, None));
    } else if f.creditNote.Some? && f.creditNote.value != "" {
      inventory.Post(Tx(0, Fin(f.id), f.date, f.order, Some(millis), GoodToBuy, quantity, true, false, true, f.code,
                        None, None, None, None, None, None, None, Some(Number(f.creditNote.value))));
    } else {
      return;
    }
    var flagged := CheckLastTxDate(account, f.date);
  }

  /** A checked document: found by its remote id, or replicated. */
  method ProcessChecked(account: GoodAccount, inventory: InventoryBook, financial: FinancialBook, f: FinTx, millis: nat)
    modifies account`rebuild, inventory`txs, inventory`nextId
    ensures Snapshot(account, inventory, financial) == Arrive(old(Snapshot(account, inventory, financial)), f, millis)
  {
    if !f.posted { return; }
    var found := inventory.FindByRemoteId(f.id);
    if found.None? {
      ConnectedTransactionNotFound(account, inventory, f, millis);
    }
  }

  // ----- Deletions -----

  lemma {:induction false} TrashTwice(a: set<nat>, id: nat, txs: seq<Tx>)
    ensures Filter(Kept({id}), Filter(Kept(a), txs)) == Filter(Kept(a + {id}), txs)
  {
    FilterTwice(Kept(a), Kept({id}), Kept(a + {id}), txs);
  }

  function ChildrenOf(root: nat, txs: seq<Tx>): set<nat> { set t | t in txs && t.parent == Some(root) :: t.id }

  lemma {:induction false} ChildrenSnoc(root: nat, txs: seq<Tx>, t: Tx)
    ensures ChildrenOf(root, txs + [t]) == ChildrenOf(root, txs) + if t.parent == Some(root) then {t.id} else {}
  {}

  /** The splits of a trashed purchase are trashed one by one. */
  method CascadeDeleteInventoryTransactions(inventory: InventoryBook, root: Tx)
    modifies inventory`txs
    ensures inventory.txs == if root.originalQuantity.Some? then
              Filter(Kept(ChildrenOf(root.id, old(inventory.txs))), old(inventory.txs)) else old(inventory.txs)
  {
    if root.originalQuantity.Some? {
      var items := inventory.txs;
      FilterAll(Kept({}), items);
      assert ChildrenOf(root.id, items[..0]) == {};
      for k := 0 to |items|
        invariant inventory.txs == Filter(Kept(ChildrenOf(root.id, items[..k])), items)
      {
        assert items[..k + 1] == items[..k] + [items[k]];
        ghost var seen := ChildrenOf(root.id, items[..k]);
        ChildrenSnoc(root.id, items[..k], items[k]);
        if items[k].parent == Some(root.id) {
          TrashTwice(seen, items[k].id, items);
          inventory.BatchTrash({items[k].id});
        }
        assert ChildrenOf(root.id, items[..k + 1]) == if items[k].parent == Some(root.id) then seen + {items[k].id} else
                 seen;
      }
      assert items[..|items|] == items;
    }
  }

  /** Trashing the root and then its children leaves what is out of the family. */
  lemma {:induction false} FamilyTrashed(txs: seq<Tx>, root: Tx)
    requires Distinct(IdOf, txs) && root in txs
    ensures var rest := Filter(Kept({root.id}), txs);
            Filter(OutOfFamily(root), txs) == if root.originalQuantity.Some? then
              Filter(Kept(ChildrenOf(root.id, rest)), rest) else rest
  {
    var rest := Filter(Kept({root.id}), txs);
    FilterSound(Kept({root.id}), txs);
    if root.originalQuantity.Some? {
      var kids := ChildrenOf(root.id, rest);
      forall t | t in txs ensures OutOfFamily(root)(t) == (Kept({root.id})(t) && Kept(kids)(t)) {
        if t.id in kids {
          var x :| x in rest && x.parent == Some(root.id) && x.id == t.id;
          SameIdSame(txs, x, t);
        }
      }
      FilterTwice(Kept({root.id}), Kept(kids), OutOfFamily(root), txs);
    } else {
      FilterCong(OutOfFamily(root), Kept({root.id}), txs);
    }
  }

  /** Flags the account if the first transaction found with the purchase code of a deleted credit
      does not hold its original quantity. */
  method FlagIfReduced(account: GoodAccount, inventory: InventoryBook, f: FinTx)
    modifies account`rebuild
    ensures account.rebuild == (old(account.rebuild) || FoundReduced(inventory.txs, f))
  {
    var items := inventory.txs;
    assert items[..0] == [];
    for k := 0 to |items|
      invariant Filter(CodedNear(f), items[..k]) == [] && account.rebuild == old(account.rebuild)
    {
      var t := items[k];
      CodedFirst(f, items, k);
      if f.date - QUERY_RANGE <= t.date && t.date < f.date + QUERY_RANGE && t.code == f.code {
        if (if t.originalQuantity.Some? then t.originalQuantity.value else 0.0) != t.amount {
          account.FlagNeedsRebuild();
        }
        return;
      }
    }
    assert items[..|items|] == items;
  }

  lemma {:induction false} CodedFirst(f: FinTx, txs: seq<Tx>, k: nat)
    requires k < |txs| && Filter(CodedNear(f), txs[..k]) == []
    ensures var found := Filter(CodedNear(f), txs);
            if CodedNear(f)(txs[k]) then |found| > 0 && found[0] == txs[k] else Filter(CodedNear(f), txs[..k + 1]) == []
  {
    assert txs[..k + 1] == txs[..k] + [txs[k]] && txs == txs[..k + 1] + txs[k + 1..];
    FilterSnoc(CodedNear(f), txs[..k], txs[k]);
    FilterAppend(CodedNear(f), txs[..k + 1], txs[k + 1..]);
  }

  /** A deleted document: a purchase takes its replica, the replica's splits and any posting linked
      to it along, and flags the account if it was calculated up to that date; a credit only flags
      the account, if its purchase is found reduced. */
  method InterceptDeleted(account: GoodAccount, inventory: InventoryBook, financial: FinancialBook, f: FinTx)
    requires Distinct(IdOf, inventory.txs)
    modifies account`rebuild, inventory`txs, financial`cogs
    ensures Snapshot(account, inventory, financial) == Delete(old(Snapshot(account, inventory, financial)), f)
  {
    if !f.posted { return; }
    if f.quantity.Some? && f.code.Some? && f.code == f.purchaseInvoice {
      var found := inventory.FindByRemoteId(f.id);
      if found.Some? {
        var root := found.value;
        FoundInBook(inventory.txs, f.id);
        FamilyTrashed(inventory.txs, root);
        inventory.BatchTrash({root.id});
        CascadeDeleteInventoryTransactions(inventory, root);
        financial.TrashPosting(root.id);
        if IsSale(root) || IsPurchase(root) {
          var flagged := CheckLastTxDate(account, root.date);
        }
      }
    }
    if f.code.Some? && f.code != f.purchaseInvoice && f.creditsGood {
      FlagIfReduced(account, inventory, f);
    }
  }

  lemma {:induction false} FoundInBook(txs: seq<Tx>, doc: nat)
    requires |Filter(HasRemote(doc), txs)| > 0
    ensures Filter(HasRemote(doc), txs)[0] in txs
  {
    FilterSound(HasRemote(doc), txs);
    assert Filter(HasRemote(doc), txs)[0] in Filter(HasRemote(doc), txs);
  }
}
