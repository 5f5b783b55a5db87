/** The persisted books and account that the services read and write. */
module Stores {
  import opened Lists
  import opened Ledger
  import opened Calculation
  import opened Reset
  import opened Replication

  /** The Inventory Book: its live transactions, its locks and the supplies of ids and UUIDs. */
  class InventoryBook {
    var txs: seq<Tx>
    var locked: set<nat>
    var nextId: nat
    var nextUuid: nat

    constructor ()
      ensures txs == [] && locked == {} && nextId == 1 && nextUuid == 0
    {
      txs, locked, nextId, nextUuid := [], {}, 1, 0;
    }

    method GenerateId() returns (id: RemoteId)
      modifies this`nextUuid
      ensures id == Uuid(old(nextUuid)) && nextUuid == old(nextUuid) + 1
    {
      id := Uuid(nextUuid);
      nextUuid := nextUuid + 1;
    }

    method BatchCreate(created: seq<Tx>)
      modifies this`txs, this`nextId
      ensures txs == old(txs) + WithIds(created, old(nextId)) && nextId == old(nextId) + |created|
    {
      txs := txs + WithIds(created, nextId);
      nextId := nextId + |created|;
    }

    method BatchUpdate(updates: map<nat, Tx>)
      modifies this`txs
      ensures txs == Apply(updates, old(txs))
    {
      txs := Apply(updates, txs);
    }

    method BatchTrash(ids: set<nat>)
      modifies this`txs
      ensures txs == Filter(Kept(ids), old(txs))
    {
      txs := Filter(Kept(ids), txs);
    }

    method Post(t: Tx)
      modifies this`txs, this`nextId
      ensures txs == old(txs) + [t.(id := old(nextId))] && nextId == old(nextId) + 1
    {
      txs := txs + [t.(id := nextId)];
      nextId := nextId + 1;
    }

    /** The first transaction with this remote id. */
    method FindByRemoteId(doc: nat) returns (found: Option<Tx>)
      ensures found.None? <==> Filter(HasRemote(doc), txs) == []
      ensures found.Some? ==> found.value == Filter(HasRemote(doc), txs)[0]
    {
      found := None;
      for k := 0 to |txs|
        invariant found.None? <==> Filter(HasRemote(doc), txs[..k]) == []
        invariant found.Some? ==> found.value == Filter(HasRemote(doc), txs[..k])[0]
      {
        assert txs[..k + 1] == txs[..k] + [txs[k]];
        FilterSnoc(HasRemote(doc), txs[..k], txs[k]);
        if found.None? && txs[k].remote == Fin(doc) {
          found := Some(txs[k]);
        }
      }
      assert txs[..|txs|] == txs;
    }
  }

  /** The Financial Book: its documents, the COGS postings and their locks. */
  class FinancialBook {
    var docs: seq<FinTx>
    var cogs: seq<Cogs>
    var cogsLocked: set<nat>

    constructor (docs: seq<FinTx>)
      ensures this.docs == docs && cogs == [] && cogsLocked == {}
    {
      this.docs, cogs, cogsLocked := docs, [], {};
    }

    method BatchCreate(created: seq<Cogs>)
      modifies this`cogs
      ensures cogs == old(cogs) + created
    {
      cogs := cogs + created;
    }

    /** Trashes the first posting of each of these sales. */
    method BatchTrash(sales: set<nat>)
      modifies this`cogs
      ensures cogs == TrashFirst(old(cogs), sales)
    {
      cogs := TrashFirst(cogs, sales);
    }

    /** Trashes the first posting linked to this transaction, if any. */
    method TrashPosting(sale: nat)
      modifies this`cogs
      ensures cogs == DropFirst(old(cogs), sale)
    {
      var k := 0;
      while k < |cogs| && cogs[k].sale != sale
        invariant k <= |cogs| && cogs == old(cogs) && forall i :: 0 <= i < k ==> cogs[i].sale != sale
      {
        k := k + 1;
      }
      FirstDropped(cogs, sale, k);
      if k < |cogs| { cogs := cogs[..k] + cogs[k + 1..]; }
    }
  }

  lemma {:induction false} FirstDropped(cogs: seq<Cogs>, sale: nat, k: nat)
    requires k <= |cogs| && (forall i :: 0 <= i < k ==> cogs[i].sale != sale) && (k < |cogs| ==> cogs[k].sale == sale)
    ensures DropFirst(cogs, sale) == if k < |cogs| then cogs[..k] + cogs[k + 1..] else cogs
    decreases |cogs|
  {
    if |cogs| > 0 && k > 0 {
      FirstDropped(cogs[1..], sale, k - 1);
      if k < |cogs| { assert [cogs[0]] + (cogs[1..][..k - 1] + cogs[1..][k..]) == cogs[..k] + cogs[k + 1..]; }
    }
  }

  /** The good's account: its two properties. */
  class GoodAccount {
    var calcDate: CalcDate
    var rebuild: bool

    constructor ()
      ensures calcDate == Absent && !rebuild
    {
      calcDate, rebuild := Absent, false;
    }

    predicate NeedsRebuild()
      reads this
    {
      rebuild
    }

    /** An absent and a blank date are both read as none. */
    function CalculationDateValue(): (d: Option<int>)
      reads this
      ensures d.Some? <==> calcDate.On?
    {
      calcDate.Value()
    }

    method SetCalculationDate(date: CalcDate)
      modifies this`calcDate
      ensures calcDate == date
    {
      calcDate := date;
    }

    method FlagNeedsRebuild()
      modifies this`rebuild
      ensures rebuild
    {
      rebuild := true;
    }

    method ClearNeedsRebuild()
      modifies this`rebuild
      ensures !rebuild
    {
      rebuild := false;
    }
  }

  /** What is persisted about a good. */
  ghost function Snapshot(account: GoodAccount, inventory: InventoryBook, financial: FinancialBook): State
    reads account, inventory, financial
  {
    State(inventory.txs, financial.cogs, account.calcDate, account.rebuild, inventory.locked, financial.cogsLocked,
          inventory.nextId, inventory.nextUuid)
  }
}
