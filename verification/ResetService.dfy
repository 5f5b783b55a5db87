/** Reset, step by step on the stores. */
module ResetService {
  import opened Lists
  import opened Ledger
  import opened Reset
  import opened Stores

  /** The staged writes of a reset. A posting is named by the sale it links to. */
  class ResetCostOfSalesProcessor {
    const inventory: InventoryBook
    const financial: FinancialBook
    var postingsToTrash: set<nat>
    var toUpdate: map<nat, Tx>
    var toTrash: set<nat>
    var anyLocked: bool

    /** The flag is up exactly when something locked is staged. */
    ghost predicate Valid()
      reads this, inventory, financial
    {
      anyLocked <==> (toUpdate.Keys + toTrash) * inventory.locked != {} || postingsToTrash * financial.cogsLocked != {}
    }

    constructor (inventory: InventoryBook, financial: FinancialBook)
      ensures this.inventory == inventory && this.financial == financial
      ensures Valid() && postingsToTrash == {} && toUpdate == map[] && toTrash == {}
    {
      this.inventory, this.financial := inventory, financial;
      postingsToTrash, toUpdate, toTrash, anyLocked := {}, map[], {}, false;
    }

    method SetPostingToTrash(sale: nat)
      requires Valid()
      modifies this`postingsToTrash, this`anyLocked
      ensures Valid() && postingsToTrash == old(postingsToTrash) + {sale}
    {
      if sale in financial.cogsLocked { anyLocked := true; }
      Touches(postingsToTrash, sale, financial.cogsLocked);
      postingsToTrash := postingsToTrash + {sale};
    }

    method SetToUpdate(t: Tx)
      requires Valid()
      modifies this`toUpdate, this`anyLocked
      ensures Valid() && toUpdate == old(toUpdate)[t.id := t]
    {
      if t.id in inventory.locked { anyLocked := true; }
      Touches(toUpdate.Keys + toTrash, t.id, inventory.locked);
      ghost var was := toUpdate.Keys;
      toUpdate := toUpdate[t.id := t];
      assert toUpdate.Keys + toTrash == was + toTrash + {t.id};
    }

    method SetToTrash(t: Tx)
      requires Valid()
      modifies this`toTrash, this`anyLocked
      ensures Valid() && toTrash == old(toTrash) + {t.id}
    {
      if t.id in inventory.locked { anyLocked := true; }
      Touches(toUpdate.Keys + toTrash, t.id, inventory.locked);
      ghost var was := toTrash;
      toTrash := toTrash + {t.id};
      assert toUpdate.Keys + toTrash == toUpdate.Keys + was + {t.id};
    }

    /** Trashes postings, then updates, then trashes: what is staged for both ends up trashed. */
    method FireBatchOperations()
      modifies inventory`txs, financial`cogs
      ensures financial.cogs == TrashFirst(old(financial.cogs), postingsToTrash)
      ensures inventory.txs == Filter(Kept(toTrash), Apply(toUpdate, old(inventory.txs)))
    {
      financial.BatchTrash(postingsToTrash);
      inventory.BatchUpdate(toUpdate);
      inventory.BatchTrash(toTrash);
    }
  }

  lemma {:induction false} Touches(xs: set<nat>, x: nat, locked: set<nat>)
    ensures (xs + {x}) * locked != {} <==> xs * locked != {} || x in locked
  {
    if x in locked { assert x in (xs + {x}) * locked; }
    if xs * locked != {} {
      var y :| y in xs * locked;
      assert y in (xs + {x}) * locked;
    }
    if (xs + {x}) * locked != {} && x !in locked {
      var y :| y in (xs + {x}) * locked;
      assert y in xs * locked;
    }
  }

  /** Whether a sale has a posting. */
  predicate HasPosting(cogs: seq<Cogs>, sale: nat) { exists c :: c in cogs && c.sale == sale }

  lemma {:induction false} StagedSnoc(txs: seq<Tx>, t: Tx, cogs: seq<Cogs>)
    ensures UpdateMap(txs + [t]) == if ResetUpdates(t) then UpdateMap(txs)[t.id := ResetCopy(t)] else UpdateMap(txs)
    ensures TrashSet(txs + [t]) == TrashSet(txs) + if ResetTrashes(t) then {t.id} else {}
    ensures CogsTrash(txs + [t], cogs) == CogsTrash(txs, cogs) + if ResetsSale(t)
            && HasPosting(cogs, t.id) then {t.id} else {}
  {
    assert (txs + [t])[..|txs|] == txs;
  }

  /** One transaction of the loop: its working copy is reset and staged. */
  method ResetOne(t: Tx, processor: ResetCostOfSalesProcessor)
    requires processor.Valid()
    modifies processor
    ensures processor.Valid()
    ensures processor.toUpdate == if ResetUpdates(t) then old(processor.toUpdate)[t.id := ResetCopy(t)] else
              old(processor.toUpdate)
    ensures processor.toTrash == old(processor.toTrash) + if ResetTrashes(t) then {t.id} else {}
    ensures processor.postingsToTrash
         == old(processor.postingsToTrash) + if ResetsSale(t)
           && HasPosting(processor.financial.cogs, t.id) then {t.id} else {}
  {
    var copy := t.(checked := false);
    if t.byBot {
      if t.purchaseLog.Some? {
        if HasPosting(processor.financial.cogs, t.id) {
          processor.SetPostingToTrash(t.id);
        }
        copy := copy.(purchaseLog := None, totalCost := None);
        processor.SetToUpdate(copy);
        return;
      }
      if t.parent.Some? {
        processor.SetToTrash(copy);
      }
      if t.originalQuantity.Some? {
        copy := copy.(amount := t.originalQuantity.value, totalCost := Some(OrZero(t.purchaseCost)),
                      liquidation := None, addCosts := None, creditNote := None);
        processor.SetToUpdate(copy);
      }
      if copy.creditNote.Some? {
        processor.SetToUpdate(copy);
      }
    }
  }

  /** The loop over all transactions of the account. */
  method ResetAll(txs: seq<Tx>, processor: ResetCostOfSalesProcessor)
    requires processor.Valid() && processor.toUpdate == map[] && processor.toTrash == {}
             && processor.postingsToTrash == {}
    modifies processor
    ensures processor.Valid() && processor.toUpdate == UpdateMap(txs) && processor.toTrash == TrashSet(txs)
    ensures processor.postingsToTrash == CogsTrash(txs, processor.financial.cogs)
  {
    for k := 0 to |txs|
      invariant processor.Valid() && processor.toUpdate == UpdateMap(txs[..k])
                && processor.toTrash == TrashSet(txs[..k])
      invariant processor.postingsToTrash == CogsTrash(txs[..k], processor.financial.cogs)
    {
      assert txs[..k + 1] == txs[..k] + [txs[k]];
      StagedSnoc(txs[..k], txs[k], processor.financial.cogs);
      ResetOne(txs[k], processor);
    }
    assert txs[..|txs|] == txs;
  }

  /** Reset: everything is put back, or nothing is touched because something is locked. */
  method ResetCostOfSalesForAccount(account: GoodAccount, inventory: InventoryBook, financial: FinancialBook)
    returns (locked: bool)
    modifies account, inventory`txs, financial`cogs
    ensures locked == ResetLocked(old(Snapshot(account, inventory, financial)))
    ensures Snapshot(account, inventory, financial) == ResetState(old(Snapshot(account, inventory, financial)))
  {
    var processor := new ResetCostOfSalesProcessor(inventory, financial);
    ResetAll(inventory.txs, processor);
    locked := processor.anyLocked;
    if locked { return; }
    processor.FireBatchOperations();
    account.ClearNeedsRebuild();
    account.SetCalculationDate(Blank);
  }
}
