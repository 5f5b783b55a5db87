/** FIFO as overlap of intervals: laid end to end, the lots and the sales are intervals of
    cumulative quantity, and a sale takes from a lot exactly where the two overlap. */
module Intervals {
  import opened Lists
  import opened Ledger
  import opened Allocation
  import opened Settlement

  function Max(a: real, b: real): real { if a >= b then a else b }
  function Min(a: real, b: real): real { if a <= b then a else b }

  /** The length of the overlap of [a, b] and [c, d]. */
  function Overlap(a: real, b: real, c: real, d: real): real { Max(0.0, Min(b, d) - Max(a, c)) }

  /** What some quantity of a lot is worth, by whatever measure. */
  type Worth = (Tx, real) -> real

  /** The worth of the goods between cumulative positions `from` and `to` of the open lots. */
  function Slice(worth: Worth, lots: seq<Tx>, from: real, to: real): real
    decreases |lots|
  {
    if |lots| == 0 then 0.0
    else
      var width := OpenQuantity(lots[0]);
      worth(lots[0], Overlap(0.0, width, from, to)) + Slice(worth, lots[1..], from - width, to - width)
  }

  ghost predicate Measure(worth: Worth) { forall t :: worth(t, 0.0) == 0.0 }

  function SoldWorth(worth: Worth): Move -> real { (m: Move) => worth(m.before, m.Sold().amount) }

  lemma {:induction false} SliceEmpty(worth: Worth, lots: seq<Tx>, from: real, to: real)
    requires Measure(worth) && to <= 0.0
    ensures Slice(worth, lots, from, to) == 0.0
    decreases |lots|
  {
    if |lots| > 0 {
      SliceEmpty(worth, lots[1..], from - OpenQuantity(lots[0]), to - OpenQuantity(lots[0]));
    }
  }

  lemma {:induction false} SliceFromStart(worth: Worth, lots: seq<Tx>, from: real, to: real)
    requires from <= 0.0
    ensures Slice(worth, lots, from, to) == Slice(worth, lots, 0.0, to)
    decreases |lots|
  {
    if |lots| > 0 {
      var width := OpenQuantity(lots[0]);
      SliceFromStart(worth, lots[1..], from - width, to - width);
      SliceFromStart(worth, lots[1..], 0.0 - width, to - width);
    }
  }

  lemma {:induction false} SliceCons(worth: Worth, t: Tx, lots: seq<Tx>, from: real, to: real)
    ensures Slice(worth, [t] + lots, from, to)
         == worth(t, Overlap(0.0, OpenQuantity(t), from, to))
           + Slice(worth, lots, from - OpenQuantity(t), to - OpenQuantity(t))
  {
    assert ([t] + lots)[1..] == lots;
  }

  /** A closed lot takes no room. */
  lemma {:induction false} SliceClosed(worth: Worth, t: Tx, lots: seq<Tx>, from: real, to: real)
    requires Measure(worth) && t.checked && from <= to
    ensures Slice(worth, [t] + lots, from, to) == Slice(worth, lots, from, to)
  {
    SliceCons(worth, t, lots, from, to);
    assert Overlap(0.0, 0.0, from, to) == 0.0 && from - 0.0 == from && to - 0.0 == to;
  }

  /** One draw takes the first `need` units of the open lots. */
  lemma {:induction false} DrawSlice(mover: Mover, need: Quantity, lots: seq<Tx>, worth: Worth)
    requires Lawful(mover) && Measure(worth)
    ensures SumBy(SoldWorth(worth), Take(mover, need, lots).moves) == Slice(worth, lots, 0.0, need)
    decreases |lots|
  {
    if |lots| > 0 {
      var lot, rest := lots[0], lots[1..];
      assert lots == [lot] + rest;
      if lot.checked {
        DrawSlice(mover, need, rest, worth);
        TakeClosed(mover, need, lot, rest);
        SliceClosed(worth, lot, rest, 0.0, need);
      } else if need <= lot.amount {
        DrawSliceLast(mover, need, lot, rest, worth);
      } else {
        DrawSlice(mover, need - lot.amount, rest, worth);
        DrawSliceOn(mover, need, lot, rest, worth);
      }
    }
  }

  /** The first `need` units are all in the first lot. */
  lemma {:induction false} DrawSliceLast(mover: Mover, need: Quantity, lot: Tx, rest: seq<Tx>, worth: Worth)
    requires Lawful(mover) && Measure(worth) && !lot.checked && need <= lot.amount
    ensures SumBy(SoldWorth(worth), Take(mover, need, [lot] + rest).moves) == Slice(worth, [lot] + rest, 0.0, need)
  {
    TakeLast(mover, need, lot, rest);
    SumCons(SoldWorth(worth), mover(need, lot), []);
    assert [mover(need, lot)] + [] == [mover(need, lot)];
    SliceCons(worth, lot, rest, 0.0, need);
    assert Overlap(0.0, lot.amount, 0.0, need) == need;
    SliceEmpty(worth, rest, 0.0 - lot.amount, need - lot.amount);
  }

  /** They are the first lot and the first `need - lot.amount` units behind it. */
  lemma {:induction false} DrawSliceOn(mover: Mover, need: Quantity, lot: Tx, rest: seq<Tx>, worth: Worth)
    requires Lawful(mover) && !lot.checked && lot.amount < need
    requires var left := need - lot.amount;
             SumBy(SoldWorth(worth), Take(mover, left, rest).moves) == Slice(worth, rest, 0.0, left)
    ensures SumBy(SoldWorth(worth), Take(mover, need, [lot] + rest).moves) == Slice(worth, [lot] + rest, 0.0, need)
  {
    TakeOn(mover, need, lot, rest);
    SumCons(SoldWorth(worth), mover(need, lot), Take(mover, need - lot.amount, rest).moves);
    SliceCons(worth, lot, rest, 0.0, need);
    assert Overlap(0.0, lot.amount, 0.0, need) == lot.amount;
    SliceFromStart(worth, rest, 0.0 - lot.amount, need - lot.amount);
  }

  ghost predicate SameWorth(worth: Worth, a: Tx, b: Tx) { forall q :: worth(a, q) == worth(b, q) }

  /** A partial draw does not change what a quantity of the lot is worth. */
  ghost predicate KeepsWorth(mover: Mover, worth: Worth) {
    forall need: Quantity, lot: Tx {:trigger mover(need, lot)} ::
      !lot.checked && need < lot.amount ==> SameWorth(worth, mover(need, lot).after, lot)
  }

  /** A lot left behind by the position adds nothing. */
  lemma {:induction false} SliceSkip(worth: Worth, t: Tx, lots: seq<Tx>, from: real, to: real)
    requires Measure(worth) && !t.checked && 0.0 <= from <= to
    ensures Slice(worth, [t] + lots, t.amount + from, t.amount + to) == Slice(worth, lots, from, to)
  {
    SliceCons(worth, t, lots, t.amount + from, t.amount + to);
    assert Overlap(0.0, t.amount, t.amount + from, t.amount + to) == 0.0;
    assert t.amount + from - t.amount == from && t.amount + to - t.amount == to;
  }

  lemma {:induction false} ShiftPartial(worth: Worth, need: Quantity, lot: Tx, after: Tx, rest: seq<Tx>, from: real,
                                        to: real)
    requires SameWorth(worth, after, lot) && need < lot.amount && !lot.checked && !after.checked
             && after.amount == lot.amount - need
    requires 0.0 <= from <= to
    ensures Slice(worth, [after] + rest, from, to) == Slice(worth, [lot] + rest, need + from, need + to)
  {
    SliceCons(worth, after, rest, from, to);
    SliceCons(worth, lot, rest, need + from, need + to);
    assert Overlap(0.0, after.amount, from, to) == Overlap(0.0, lot.amount, need + from, need + to);
    assert from - after.amount == need + from - lot.amount && to - after.amount == need + to - lot.amount;
  }

  /** After a draw, what lies at a position is what lay `need` units further on before it. */
  lemma {:induction false} ShiftSlice(mover: Mover, need: Quantity, lots: seq<Tx>, worth: Worth, from: real, to: real)
    requires Lawful(mover) && Measure(worth) && KeepsWorth(mover, worth)
    requires 0.0 <= from <= to
    ensures Slice(worth, Take(mover, need, lots).lots, from, to) == Slice(worth, lots, need + from, need + to)
    decreases |lots|
  {
    if |lots| > 0 {
      var lot, rest := lots[0], lots[1..];
      assert lots == [lot] + rest;
      if lot.checked {
        ShiftSlice(mover, need, rest, worth, from, to);
        ShiftClosed(mover, need, lot, rest, worth, from, to);
      } else {
        if lot.amount < need { ShiftSlice(mover, need - lot.amount, rest, worth, from, to); }
        ShiftOpen(mover, need, lot, rest, worth, from, to);
      }
    }
  }

  lemma {:induction false} ShiftClosed(mover: Mover, need: Quantity, lot: Tx, rest: seq<Tx>, worth: Worth, from: real,
                                       to: real)
    requires Measure(worth) && lot.checked && 0.0 <= from <= to
    requires Slice(worth, Take(mover, need, rest).lots, from, to) == Slice(worth, rest, need + from, need + to)
    ensures Slice(worth, Take(mover, need, [lot] + rest).lots, from, to)
         == Slice(worth, [lot] + rest, need + from, need + to)
  {
    TakeClosed(mover, need, lot, rest);
    SliceClosed(worth, lot, Take(mover, need, rest).lots, from, to);
    SliceClosed(worth, lot, rest, need + from, need + to);
  }

  lemma {:induction false} ShiftOpen(mover: Mover, need: Quantity, lot: Tx, rest: seq<Tx>, worth: Worth, from: real,
                                     to: real)
    requires Lawful(mover) && Measure(worth) && KeepsWorth(mover, worth) && !lot.checked && 0.0 <= from <= to
    requires lot.amount < need ==>
               var left := need - lot.amount;
                 Slice(worth, Take(mover, left, rest).lots, from, to) == Slice(worth, rest, left + from, left + to)
    ensures Slice(worth, Take(mover, need, [lot] + rest).lots, from, to)
         == Slice(worth, [lot] + rest, need + from, need + to)
  {
    var after := mover(need, lot).after;
    if need < lot.amount {
      TakeLast(mover, need, lot, rest);
      ShiftPartial(worth, need, lot, after, rest, from, to);
    } else if need == lot.amount {
      TakeLast(mover, need, lot, rest);
      ShiftWhole(worth, need, lot, after, rest, rest, from, to);
    } else {
      TakeOn(mover, need, lot, rest);
      ShiftWhole(worth, need, lot, after, rest, Take(mover, need - lot.amount, rest).lots, from, to);
    }
  }

  /** A lot sold whole moves everything behind it forward. */
  lemma {:induction false} ShiftWhole(worth: Worth, need: Quantity, lot: Tx, after: Tx, rest: seq<Tx>, rest': seq<Tx>,
                                      from: real, to: real)
    requires Measure(worth) && !lot.checked && after.checked && lot.amount <= need && 0.0 <= from <= to
    requires var left := need - lot.amount; Slice(worth, rest', from, to) == Slice(worth, rest, left + from, left + to)
    ensures Slice(worth, [after] + rest', from, to) == Slice(worth, [lot] + rest, need + from, need + to)
  {
    var left := need - lot.amount;
    SliceClosed(worth, after, rest', from, to);
    SliceSkip(worth, lot, rest, left + from, left + to);
    assert lot.amount + (left + from) == need + from && lot.amount + (left + to) == need + to;
  }

  ghost predicate AllKeepWorth(movers: Movers, worth: Worth) {
    forall sale :: KeepsWorth(movers(sale), worth)
  }

  lemma {:induction false} SaleShift(movers: Movers, sale: Tx, lots: seq<Tx>, worth: Worth, from: real, to: real)
    requires AllLawful(movers) && Measure(worth) && AllKeepWorth(movers, worth)
    requires 0.0 <= from <= to
    ensures Slice(worth, DrawFor(movers, sale, lots).lots, from, to)
         == Slice(worth, lots, sale.amount + from, sale.amount + to)
  {
    assert Lawful(movers(sale)) && KeepsWorth(movers(sale), worth);
    ShiftSlice(movers(sale), sale.amount, lots, worth, from, to);
  }

  lemma {:induction false} RunShift(movers: Movers, sales: seq<Tx>, lots: seq<Tx>, worth: Worth, from: real, to: real)
    requires AllLawful(movers) && Measure(worth) && AllKeepWorth(movers, worth)
    requires 0.0 <= from <= to
    ensures Slice(worth, LotsAfter(movers, sales, lots), from, to)
         == Slice(worth, lots, SumBy(AmountOf, sales) + from, SumBy(AmountOf, sales) + to)
    decreases |sales|
  {
    if |sales| > 0 {
      var init, sale := sales[..|sales| - 1], sales[|sales| - 1];
      SaleShift(movers, sale, LotsAfter(movers, init, lots), worth, from, to);
      RunShift(movers, init, lots, worth, sale.amount + from, sale.amount + to);
      var sold: real := SumBy(AmountOf, init);
      assert SumBy(AmountOf, sales) == sold + sale.amount;
      assert sold + (sale.amount + from) == sold + sale.amount + from
             && sold + (sale.amount + to) == sold + sale.amount + to;
    }
  }

  /** The draw of sale `k` in a run. */
  function DrawOf(movers: Movers, sales: seq<Tx>, lots: seq<Tx>, k: nat): Draw
    requires k < |sales|
  {
    DrawFor(movers, sales[k], LotsAfter(movers, sales[..k], lots))
  }

  /** Sale `k` takes the slice of the initial lots between the cumulative sales before and after it. */
  lemma {:induction false} SaleTakesSlice(movers: Movers, sales: seq<Tx>, lots: seq<Tx>, worth: Worth, k: nat)
    requires AllLawful(movers) && Measure(worth) && AllKeepWorth(movers, worth) && k < |sales|
    ensures SumBy(SoldWorth(worth), DrawOf(movers, sales, lots, k).moves)
         == Slice(worth, lots, SumBy(AmountOf, sales[..k]), SumBy(AmountOf, sales[..k + 1]))
  {
    assert Lawful(movers(sales[k]));
    DrawSlice(movers(sales[k]), sales[k].amount, LotsAfter(movers, sales[..k], lots), worth);
    RunShift(movers, sales[..k], lots, worth, 0.0, sales[k].amount);
    PrefixSums(sales, k);
  }

  // ----- Quantities -----

  function InLot(id: nat): Worth { (t: Tx, q: real) => if t.id == id then q else 0.0 }

  function LoggedFrom(id: nat): Entry -> real { (e: Entry) => if e.lot == id then e.quantity else 0.0 }

  /** The cumulative open quantity before lot `j`. */
  function Position(lots: seq<Tx>, j: nat): real
    requires j <= |lots|
  {
    SumBy(OpenQuantity, lots[..j])
  }

  lemma {:induction false} SliceElsewhere(id: nat, lots: seq<Tx>, from: real, to: real)
    requires forall i :: 0 <= i < |lots| ==> lots[i].id != id
    ensures Slice(InLot(id), lots, from, to) == 0.0
    decreases |lots|
  {
    if |lots| > 0 {
      SliceElsewhere(id, lots[1..], from - OpenQuantity(lots[0]), to - OpenQuantity(lots[0]));
    }
  }

  lemma {:induction false} PositionCons(lots: seq<Tx>, j: nat)
    requires 0 < j <= |lots|
    ensures Position(lots, j) == OpenQuantity(lots[0]) + Position(lots[1..], j - 1)
  {
    assert lots[..j] == [lots[0]] + lots[1..][..j - 1];
    SumCons(OpenQuantity, lots[0], lots[1..][..j - 1]);
  }

  lemma {:induction false} DistinctTail(lots: seq<Tx>)
    requires Distinct(IdOf, lots) && |lots| > 0
    ensures Distinct(IdOf, lots[1..])
    ensures forall i :: 0 <= i < |lots| - 1 ==> lots[1..][i].id != lots[0].id
  {
    forall i | 0 <= i < |lots| - 1 ensures lots[1..][i].id != lots[0].id {
      assert IdOf(lots[0]) != IdOf(lots[i + 1]);
    }
  }

  /** The part of a slice that lies in lot `j` is the overlap of the two intervals. */
  lemma {:induction false} SliceOfLot(lots: seq<Tx>, j: nat, from: real, to: real)
    requires j < |lots| && Distinct(IdOf, lots)
    ensures Slice(InLot(lots[j].id), lots, from, to) == Overlap(Position(lots, j), Position(lots, j + 1), from, to)
    decreases |lots|
  {
    var width := OpenQuantity(lots[0]);
    DistinctTail(lots);
    PositionCons(lots, j + 1);
    if j == 0 {
      SliceElsewhere(lots[0].id, lots[1..], from - width, to - width);
    } else {
      PositionCons(lots, j);
      SliceOfLot(lots[1..], j - 1, from - width, to - width);
      assert lots[1..][j - 1] == lots[j];
    }
  }

  lemma {:induction false} RunKeepsLots(cfg: Config, fin: seq<FinTx>, id: nat)
    ensures AllKeepWorth(RunMovers(cfg, fin), InLot(id))
  {
    forall sale ensures KeepsWorth(RunMovers(cfg, fin)(sale), InLot(id)) {
      SaleMoverFramed(cfg, fin, sale);
    }
  }

  /** FIFO refinement: the quantity that sale `k` logs from lot `j` is the overlap of their
      intervals of cumulative quantity. */
  lemma {:induction false} FifoRefinement(cfg: Config, fin: seq<FinTx>, sales: seq<Tx>, lots: seq<Tx>, k: nat, j: nat)
    requires Distinct(IdOf, lots) && k < |sales| && j < |lots|
    ensures SumBy(LoggedFrom(lots[j].id), Entries(DrawOf(RunMovers(cfg, fin), sales, lots, k).moves))
         == Overlap(Position(lots, j), Position(lots, j + 1), SumBy(AmountOf, sales[..k]),
                    SumBy(AmountOf, sales[..k + 1]))
  {
    var id := lots[j].id;
    RunMoversLawful(cfg, fin);
    RunKeepsLots(cfg, fin, id);
    LoggedIsSlice(RunMovers(cfg, fin), sales, lots, k, id);
    SliceOfLot(lots, j, SumBy(AmountOf, sales[..k]), SumBy(AmountOf, sales[..k + 1]));
  }

  lemma {:induction false} LoggedIsSlice(movers: Movers, sales: seq<Tx>, lots: seq<Tx>, k: nat, id: nat)
    requires AllLawful(movers) && AllKeepWorth(movers, InLot(id)) && k < |sales|
    ensures SumBy(LoggedFrom(id), Entries(DrawOf(movers, sales, lots, k).moves))
         == Slice(InLot(id), lots, SumBy(AmountOf, sales[..k]), SumBy(AmountOf, sales[..k + 1]))
  {
    var moves := DrawOf(movers, sales, lots, k).moves;
    SaleTakesSlice(movers, sales, lots, InLot(id), k);
    EntriesSum(moves, LoggedFrom(id));
    forall m | m in moves ensures EntryWeight(LoggedFrom(id))(m) == SoldWorth(InLot(id))(m) {
      assert LoggedFrom(id)(EntryOf(m)) == InLot(id)(m.before, m.Sold().amount);
    }
    SumCong(EntryWeight(LoggedFrom(id)), SoldWorth(InLot(id)), moves);
  }
}
