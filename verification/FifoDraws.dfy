/** Which purchase a sale is costed from first, in terms of dates, orders and stamps. */
module FifoDraws {
  import opened Ledger
  import opened FifoOrder
  import opened Allocation
  import opened Settlement
  import opened Calculation
  import opened Collected
  import opened Commitment
  import opened Intervals
  import opened Guard
  import opened LotShape
  import opened NoteForm
  import opened TwoRuns
  import opened Incremental

  /** `a` comes first: by date, on equal dates by order, and then by the millisecond. */
  predicate Earlier(a: Tx, b: Tx) {
    || a.date < b.date
    || (a.date == b.date && a.order < b.order)
    || (a.date == b.date && a.order == b.order && a.millis.Some? && b.millis.Some? && a.millis.value < b.millis.value)
  }

  /** First in, first out: when the sales of a calculation draw on a purchase, every collected
      purchase that comes first is sold out. */
  lemma {:induction false} EarlierSoldFirst(cfg: Config, fin: seq<FinTx>, s: State, d: int, a: Tx, b: Tx)
    requires Passes(cfg, fin, s, d) && a in Purchases(s.txs, d) && b in Purchases(s.txs, d) && Earlier(a, b)
    requires Lookup(WorkOf(cfg, fin, s, d).updates, b) != Adjusted(NotesBy(s.txs, d), b)
    ensures Lookup(WorkOf(cfg, fin, s, d).updates, a).checked
  {
    var movers, sales, lots := RunMovers(cfg, fin), SortedSales(s.txs, d), Opening(s.txs, d).work.lots;
    var ls, w := Lots(s.txs, d), WorkOf(cfg, fin, s, d);
    var i := LotAt(s.txs, d, a);
    var j := LotAt(s.txs, d, b);
    LotsInOrder(s.txs, d, i, j);
    SettleLots(cfg, fin, s.txs, d);
    assert Apply(w.updates, ls)[i] == w.lots[i] && Apply(w.updates, ls)[j] == w.lots[j];
    RunMoversLawful(cfg, fin);
    RunMoversMark(cfg, fin);
    OpeningLots(s.txs, d);
    GuardCovers(s.txs, d);
    SalesPositive(s.txs, d);
    ProcessLots(movers, cfg.halfUnit, sales, Opening(s.txs, d).work);
    var c, m := RunShape(movers, sales, lots);
    DrawnBefore(lots, w.lots, c, m, i, j);
  }

  lemma {:induction false} LotsInOrder(txs: seq<Tx>, d: int, i: nat, j: nat)
    requires Sound(txs) && i < |Lots(txs, d)| && j < |Lots(txs, d)| && Earlier(Lots(txs, d)[i], Lots(txs, d)[j])
    ensures i < j
  {
    CollectedReady(txs, d);
    if j < i { SortedByFields(Purchases(txs, d), j, i); }
  }

  lemma {:induction false} DrawnBefore(before: seq<Tx>, after: seq<Tx>, c: nat, m: nat, i: nat, j: nat)
    requires Drawn(before, after, 0, c, m) && i < j < |before| && after[j] != before[j]
    ensures after[i].checked
  {}

  // ----- The order of a purchase log -----

  lemma {:induction false} EntryAt(moves: seq<Move>, i: nat)
    requires i < |moves|
    ensures |Entries(moves)| == |moves| && Entries(moves)[i] == EntryOf(moves[i])
  {
    var n := |moves| - 1;
    if i < n {
      EntryAt(moves[..n], i);
    } else if n > 0 {
      EntryAt(moves[..n], 0);
    }
  }

  /** Every draw is on a lot of the list. */
  lemma {:induction false} MoveAt(mover: Mover, need: Quantity, lots: seq<Tx>, i: nat) returns (p: nat)
    requires Lawful(mover) && i < |Take(mover, need, lots).moves|
    ensures p < |lots| && Take(mover, need, lots).moves[i].before == lots[p]
    decreases |lots|
  {
    if lots[0].checked {
      var q := MoveAt(mover, need, lots[1..], i);
      p := q + 1;
    } else {
      var m := mover(need, lots[0]);
      assert LawfulMove(need, lots[0], m);
      if i == 0 {
        p := 0;
      } else {
        var q := MoveAt(mover, need - m.Sold().amount, lots[1..], i - 1);
        p := q + 1;
      }
    }
  }

  /** A sale draws on the lots in their order. */
  lemma {:induction false} MovesInOrder(mover: Mover, need: Quantity, lots: seq<Tx>, i: nat, j: nat)
    returns (p: nat, q: nat)
    requires Lawful(mover) && i < j < |Take(mover, need, lots).moves|
    ensures var moves := Take(mover, need, lots).moves;
            p < q < |lots| && moves[i].before == lots[p] && moves[j].before == lots[q]
    decreases |lots|
  {
    if lots[0].checked {
      var a, b := MovesInOrder(mover, need, lots[1..], i, j);
      p, q := a + 1, b + 1;
    } else {
      var m := mover(need, lots[0]);
      assert LawfulMove(need, lots[0], m);
      var left := need - m.Sold().amount;
      if i == 0 {
        var b := MoveAt(mover, left, lots[1..], j - 1);
        p, q := 0, b + 1;
      } else {
        var a, b := MovesInOrder(mover, left, lots[1..], i - 1, j - 1);
        p, q := a + 1, b + 1;
      }
    }
  }

  /** So does every sale of a run, whatever the earlier ones took. */
  lemma {:induction false} EntriesInOrder(movers: Movers, sales: seq<Tx>, lots: seq<Tx>, k: nat, i: nat, j: nat)
    returns (p: nat, q: nat)
    requires AllLawful(movers) && AllFramed(movers) && k < |sales|
             && i < j < |Entries(DrawOf(movers, sales, lots, k).moves)|
    ensures var log := Entries(DrawOf(movers, sales, lots, k).moves);
            p < q < |lots| && log[i].lot == lots[p].id && log[j].lot == lots[q].id
  {
    RunFrame(movers, sales[..k], lots);
    var moves := DrawOf(movers, sales, lots, k).moves;
    EntriesLength(moves);
    EntryAt(moves, i);
    EntryAt(moves, j);
    p, q := MovesInOrder(movers(sales[k]), sales[k].amount, LotsAfter(movers, sales[..k], lots), i, j);
  }

  function LogOf(t: Tx): seq<Entry> { if t.purchaseLog.Some? then t.purchaseLog.value else [] }

  lemma {:induction false} SaleUnlogged(txs: seq<Tx>, d: int, k: nat)
    requires Sound(txs)
    ensures k < |SortedSales(txs, d)| ==> SortedSales(txs, d)[k].purchaseLog.None?
  {
    CollectedShapes(txs, d);
    SortContents(Sales(txs, d));
    if k < |SortedSales(txs, d)| { assert SortedSales(txs, d)[k] in Sales(txs, d); }
  }

  /** The log of a sale lists its purchases first in, first out. */
  lemma {:induction false} LogInOrder(cfg: Config, fin: seq<FinTx>, s: State, d: int, k: nat, i: nat, j: nat)
    requires Passes(cfg, fin, s, d) && k < |WorkOf(cfg, fin, s, d).done|
             && i < j < |LogOf(WorkOf(cfg, fin, s, d).done[k])|
    ensures var log, ls := LogOf(WorkOf(cfg, fin, s, d).done[k]), Lots(s.txs, d);
            exists p, q ::
              0 <= p < q < |ls| && log[i].lot == ls[p].id && log[j].lot == ls[q].id && NotAfter(ls[p], ls[q])
  {
    var movers, sales, lots := RunMovers(cfg, fin), SortedSales(s.txs, d), Opening(s.txs, d).work.lots;
    assert LogOf(WorkOf(cfg, fin, s, d).done[k]) == Entries(DrawOf(movers, sales, lots, k).moves) by {
      DoneLog(cfg, fin, s, d, k);
    }
    RunMoversLawful(cfg, fin);
    var p, q := EntriesInOrder(movers, sales, lots, k, i, j);
    assert lots == AdjustAll(NotesBy(s.txs, d), Lots(s.txs, d)) by { OpeningForm(s.txs, d); }
    CollectedReady(s.txs, d);
    SortedByFields(Purchases(s.txs, d), p, q);
  }

  lemma {:induction false} DoneLog(cfg: Config, fin: seq<FinTx>, s: State, d: int, k: nat)
    requires Passes(cfg, fin, s, d) && k < |WorkOf(cfg, fin, s, d).done|
             && |LogOf(WorkOf(cfg, fin, s, d).done[k])| > 0
    ensures k < |SortedSales(s.txs, d)|
    ensures LogOf(WorkOf(cfg, fin, s, d).done[k])
         == Entries(DrawOf(RunMovers(cfg, fin), SortedSales(s.txs, d), Opening(s.txs, d).work.lots, k).moves)
  {
    OpeningStages(s.txs, d);
    SaleUnlogged(s.txs, d, k);
    RunResults(RunMovers(cfg, fin), cfg.halfUnit, SortedSales(s.txs, d), Opening(s.txs, d).work);
  }
}
