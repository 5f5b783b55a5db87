/** The staged writes of a calculation. */
module CalculateProcessor {
  import opened Lists
  import opened Ledger
  import opened Calculation
  import opened Stores

  class CalculateCostOfSalesProcessor {
    const inventory: InventoryBook
    const financial: FinancialBook
    /** Maps in insertion order: inventory transactions to create by remote id, to update by id,
        and postings to create by the sale they link to. */
    var toCreate: seq<Tx>
    var toUpdate: map<nat, Tx>
    var toPost: seq<Cogs>
    var anyLocked: bool

    /** The flag is up exactly when a locked transaction is staged, updates are kept under their
        own ids, and every UUID in use was drawn. */
    ghost predicate Valid()
      reads this, inventory
    {
      && (anyLocked <==> toUpdate.Keys * inventory.locked != {})
      && (forall t :: t in toCreate ==> !t.remote.Pending? && (t.remote.Uuid? ==> t.remote.n < inventory.nextUuid))
    }

    constructor (inventory: InventoryBook, financial: FinancialBook)
      ensures this.inventory == inventory && this.financial == financial
      ensures Valid() && toCreate == [] && toUpdate == map[] && toPost == []
    {
      this.inventory, this.financial := inventory, financial;
      toCreate, toUpdate, toPost, anyLocked := [], map[], [], false;
    }

    predicate HasLockedTransaction()
      reads this
    {
      anyLocked
    }

    /** A new transaction is never locked. */
    method SetToCreate(t: Tx)
      requires Valid() && !t.remote.Pending? && (t.remote.Uuid? ==> t.remote.n < inventory.nextUuid)
      modifies this`toCreate
      ensures Valid() && toCreate == PutBy(RemoteOf, old(toCreate), t)
    {
      PutContents(RemoteOf, toCreate, t);
      toCreate := PutBy(RemoteOf, toCreate, t);
    }

    method SetToUpdate(t: Tx)
      requires Valid()
      modifies this`toUpdate, this`anyLocked
      ensures Valid() && toUpdate == old(toUpdate)[t.id := t]
    {
      if t.id in inventory.locked { anyLocked := true; }
      ghost var was := toUpdate;
      toUpdate := toUpdate[t.id := t];
      assert toUpdate.Keys == was.Keys + {t.id};
      assert t.id in inventory.locked ==> t.id in toUpdate.Keys * inventory.locked;
      assert forall i :: i in was.Keys * inventory.locked ==> i in toUpdate.Keys * inventory.locked;
      assert forall i :: i in toUpdate.Keys * inventory.locked && i != t.id ==> i in was.Keys * inventory.locked;
    }

    method SetToPost(c: Cogs)
      requires Valid()
      modifies this`toPost
      ensures Valid() && toPost == PutBy(SaleOf, old(toPost), c)
    {
      toPost := PutBy(SaleOf, toPost, c);
    }

    /** Creates, then updates, then posts. */
    method FireBatchOperations()
      requires Valid()
      modifies inventory`txs, inventory`nextId, financial`cogs
      ensures inventory.txs == Apply(toUpdate, old(inventory.txs) + WithIds(toCreate, old(inventory.nextId)))
      ensures inventory.nextId == old(inventory.nextId) + |toCreate| && financial.cogs == old(financial.cogs) + toPost
    {
      if |toCreate| > 0 { inventory.BatchCreate(toCreate); }
      assert inventory.txs == old(inventory.txs) + WithIds(toCreate, old(inventory.nextId));
      if |toUpdate| > 0 { inventory.BatchUpdate(toUpdate); } else { NoUpdates(toUpdate, inventory.txs); }
      if |toPost| > 0 { financial.BatchCreate(toPost); }
    }
  }

  lemma {:induction false} NoUpdates(u: map<nat, Tx>, xs: seq<Tx>)
    requires |u| == 0
    ensures Apply(u, xs) == xs
  {
    assert u == map[];
  }

  lemma {:induction false} PutContents<T, K>(key: T -> K, xs: seq<T>, x: T)
    ensures forall y :: y in PutBy(key, xs, x) ==> y == x || y in xs
  {
    if |xs| > 0 && key(xs[0]) != key(x) {
      PutContents(key, xs[1..], x);
    }
  }
}
