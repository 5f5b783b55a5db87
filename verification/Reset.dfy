/** Reset: put every transaction of the good back to what replication posted. */
module Reset {
  import opened Lists
  import opened Ledger

  /** A transaction as the reset loop leaves its working copy. */
  function ResetCopy(t: Tx): Tx {
    var t0 := t.(checked := false);
    if !t.byBot then t0
    else if t.purchaseLog.Some? then t0.(purchaseLog := None, totalCost := None)
    else if t.originalQuantity.Some? then
      t0.(amount := t.originalQuantity.value, totalCost := Some(OrZero(t.purchaseCost)),
          liquidation := None, addCosts := None, creditNote := None)
    else t0
  }

  /** Sales with a log, purchases that know their original quantity and credit notes are updated. */
  predicate ResetUpdates(t: Tx) {
    t.byBot && (t.purchaseLog.Some? || t.originalQuantity.Some? || t.creditNote.Some?)
  }

  /** Splits are trashed. */
  predicate ResetTrashes(t: Tx) { t.byBot && t.purchaseLog.None? && t.parent.Some? }

  /** Sales with a log have their COGS posting trashed. */
  predicate ResetsSale(t: Tx) { t.byBot && t.purchaseLog.Some? }

  function UpdateMap(txs: seq<Tx>): map<nat, Tx> {
    if |txs| == 0 then map[]
    else
      var t := txs[|txs| - 1];
      if ResetUpdates(t) then UpdateMap(txs[..|txs| - 1])[t.id := ResetCopy(t)] else UpdateMap(txs[..|txs| - 1])
  }

  function TrashSet(txs: seq<Tx>): set<nat> { set t | t in txs && ResetTrashes(t) :: t.id }

  /** The sales whose COGS posting is found and trashed. */
  function CogsTrash(txs: seq<Tx>, cogs: seq<Cogs>): set<nat> {
    set t, c | t in txs && c in cogs && ResetsSale(t) && c.sale == t.id :: t.id
  }

  /** Trashes the first posting of each of these sales. */
  function TrashFirst(cogs: seq<Cogs>, sales: set<nat>): seq<Cogs> {
    if |cogs| == 0 then []
    else if cogs[0].sale in sales then TrashFirst(cogs[1..], sales - {cogs[0].sale})
    else [cogs[0]] + TrashFirst(cogs[1..], sales)
  }

  function Kept(trash: set<nat>): Tx -> bool { (t: Tx) => t.id !in trash }

  predicate ResetLocked(s: State) {
    || (UpdateMap(s.txs).Keys + TrashSet(s.txs)) * s.locked != {}
    || CogsTrash(s.txs, s.cogs) * s.cogsLocked != {}
  }

  /** Aborts on a lock; otherwise updates first and trashes after, so that a split staged for
      both ends up trashed. */
  function ResetState(s: State): State {
    if ResetLocked(s) then s
    else s.(txs := Filter(Kept(TrashSet(s.txs)), Apply(UpdateMap(s.txs), s.txs)),
            cogs := TrashFirst(s.cogs, CogsTrash(s.txs, s.cogs)),
            calcDate := Blank,
            rebuild := false)
  }
}
