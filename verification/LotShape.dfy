/** The shape of the lot list during a run: sold-out lots, then at most one partly drawn lot,
    then lots the run has not reached. */
module LotShape {
  import opened Lists
  import opened Ledger
  import opened Allocation
  import opened Settlement

  /** The first `c` lots are checked, the others open with something in them. */
  ghost predicate CheckedPrefix(lots: seq<Tx>, c: nat) {
    c <= |lots|
      && forall i :: 0 <= i < |lots| ==> if i < c then lots[i].checked else !lots[i].checked && lots[i].amount > 0.0
  }

  /** Every draw marks the lot as reached. */
  ghost predicate Marks(mover: Mover) {
    forall need: Quantity, lot: Tx {:trigger mover(need, lot)} :: !Untouched(mover(need, lot).after)
  }

  /** `after` comes from `before` by drawing on the lots from `c0` up to `m`, of which those before
      `c` are sold out; the last one may be partly drawn. */
  ghost predicate Drawn(before: seq<Tx>, after: seq<Tx>, c0: nat, c: nat, m: nat) {
    && |before| == |after| && c0 <= c <= m <= c + 1 && m <= |before|
    && CheckedPrefix(after, c)
    && (forall i :: 0 <= i < c0 ==> after[i] == before[i])
    && (forall i :: c0 <= i < m ==> !Untouched(after[i]))
    && (forall i :: m <= i < |before| ==> after[i] == before[i])
    && (c < m ==> after[c].amount < before[c].amount)
  }

  lemma {:induction false} TakeDraws(mover: Mover, need: Quantity, lots: seq<Tx>, c0: nat) returns (c: nat, m: nat)
    requires Lawful(mover) && Marks(mover) && CheckedPrefix(lots, c0) && c0 < |lots| && need > 0.0
    ensures Drawn(lots, Take(mover, need, lots).lots, c0, c, m) && c0 < m
    decreases |lots|
  {
    var lot, rest := lots[0], lots[1..];
    assert lots == [lot] + rest;
    if c0 > 0 {
      PrefixRest(lots, c0);
      var c', m' := TakeDraws(mover, need, rest, c0 - 1);
      c, m := c' + 1, m' + 1;
      DrawnCons(lot, lot, rest, Take(mover, need, rest).lots, c0, c, m);
    } else {
      c, m := TakeDrawsOpen(mover, need, lot, rest);
    }
  }

  lemma {:induction false} PrefixRest(lots: seq<Tx>, c: nat)
    requires CheckedPrefix(lots, c) && |lots| > 0
    ensures CheckedPrefix(lots[1..], if c > 0 then c - 1 else 0)
  {}

  lemma {:induction false} TakeDrawsOpen(mover: Mover, need: Quantity, lot: Tx, rest: seq<Tx>) returns (c: nat, m: nat)
    requires Lawful(mover) && Marks(mover) && CheckedPrefix([lot] + rest, 0) && need > 0.0
    ensures Drawn([lot] + rest, Take(mover, need, [lot] + rest).lots, 0, c, m) && 0 < m
    decreases 1 + |rest|, 0
  {
    var move := mover(need, lot);
    assert ([lot] + rest)[0] == lot && ([lot] + rest)[1..] == rest;
    PrefixRest([lot] + rest, 0);
    if need <= lot.amount {
      c, m := if need >= lot.amount then 1 else 0, 1;
      DrawnFirst(lot, move.after, rest, c);
    } else if |rest| == 0 {
      c, m := 1, 1;
      assert Take(mover, need - lot.amount, rest).lots == rest;
      DrawnFirst(lot, move.after, rest, 1);
    } else {
      var c', m' := TakeDraws(mover, need - lot.amount, rest, 0);
      c, m := c' + 1, m' + 1;
      DrawnCons(lot, move.after, rest, Take(mover, need - lot.amount, rest).lots, 0, c, m);
    }
  }

  /** Only the first lot is drawn on. */
  lemma {:induction false} DrawnFirst(lot: Tx, lot': Tx, rest: seq<Tx>, c: nat)
    requires CheckedPrefix(rest, 0) && !Untouched(lot') && c <= 1
    requires if c == 1 then lot'.checked else !lot'.checked && 0.0 < lot'.amount < lot.amount
    ensures Drawn([lot] + rest, [lot'] + rest, 0, c, 1)
  {}

  /** One more lot at the front: left alone, or just sold out. */
  lemma {:induction false} DrawnCons(lot: Tx, lot': Tx, before: seq<Tx>, after: seq<Tx>, c0: nat, c: nat, m: nat)
    requires c > 0 && m > 0 && lot'.checked
    requires if c0 > 0 then lot' == lot && Drawn(before, after, c0 - 1, c - 1, m - 1) else
               !Untouched(lot') && Drawn(before, after, 0, c - 1, m - 1)
    ensures Drawn([lot] + before, [lot'] + after, c0, c, m)
  {}

  ghost predicate AllMark(movers: Movers) { forall sale :: Marks(movers(sale)) }

  lemma {:induction false} RunMoversMark(cfg: Config, fin: seq<FinTx>)
    ensures AllMark(RunMovers(cfg, fin))
  {
    forall sale ensures Marks(RunMovers(cfg, fin)(sale)) {
      forall need: Quantity, lot: Tx ensures !Untouched(SaleMover(cfg, fin, sale)(need, lot).after) {
        MoveMarks(cfg, fin, sale, need, lot);
      }
    }
  }

  lemma {:induction false} MoveMarks(cfg: Config, fin: seq<FinTx>, sale: Tx, need: Quantity, lot: Tx)
    ensures !Untouched(MoveOn(cfg, fin, sale, need, lot).after)
  {}

  /** Lot-list shape: after any covered run over open lots, a sold-out prefix, at most one lot
      partly drawn, and the rest untouched; what was reached covers the sales. */
  lemma {:induction false} RunShape(movers: Movers, sales: seq<Tx>, lots: seq<Tx>) returns (c: nat, m: nat)
    requires AllLawful(movers) && AllMark(movers) && CheckedPrefix(lots, 0)
    requires SumBy(AmountOf, sales) <= SumBy(OpenQuantity, lots)
             && forall k :: 0 <= k < |sales| ==> sales[k].amount > 0.0
    ensures Drawn(lots, LotsAfter(movers, sales, lots), 0, c, m)
    ensures SumBy(AmountOf, sales) <= SumBy(OpenQuantity, lots[..m])
    decreases |sales|
  {
    if |sales| == 0 {
      c, m := 0, 0;
      assert lots[..0] == [];
    } else {
      var init, sale := sales[..|sales| - 1], sales[|sales| - 1];
      assert sales == init + [sale];
      var c0, m0 := RunShape(movers, init, lots);
      var mid := LotsAfter(movers, init, lots);
      RunOpen(movers, init, lots);
      OpenLeft(mid, c0);
      assert Lawful(movers(sale)) && Marks(movers(sale));
      c, m := TakeDraws(movers(sale), sale.amount, mid, c0);
      DrawnTwice(lots, mid, LotsAfter(movers, sales, lots), c0, m0, c, m);
      RunOpen(movers, sales, lots);
      ReachedCovers(lots, LotsAfter(movers, sales, lots), c, m, SumBy(AmountOf, sales));
    }
  }

  /** With something open, the checked prefix is not everything. */
  lemma {:induction false} OpenLeft(lots: seq<Tx>, c: nat)
    requires CheckedPrefix(lots, c) && SumBy(OpenQuantity, lots) > 0.0
    ensures c < |lots|
  {
    if c == |lots| {
      forall t | t in lots ensures OpenQuantity(t) == 0.0 { var i :| 0 <= i < |lots| && lots[i] == t; }
      SumZero(OpenQuantity, lots);
    }
  }

  lemma {:induction false} DrawnTwice(a: seq<Tx>, b: seq<Tx>, c: seq<Tx>, c0: nat, m0: nat, c1: nat, m1: nat)
    requires Drawn(a, b, 0, c0, m0) && Drawn(b, c, c0, c1, m1) && c0 < m1
    ensures Drawn(a, c, 0, c1, m1)
  {}

  lemma {:induction false} ReachedCovers(lots: seq<Tx>, after: seq<Tx>, c: nat, m: nat, total: real)
    requires Drawn(lots, after, 0, c, m) && SumBy(OpenQuantity, after) == SumBy(OpenQuantity, lots) - total
    ensures total <= SumBy(OpenQuantity, lots[..m])
  {
    assert lots == lots[..m] + lots[m..] && after == after[..m] + after[m..] && lots[m..] == after[m..];
    SumAppend(OpenQuantity, lots[..m], lots[m..]);
    SumAppend(OpenQuantity, after[..m], after[m..]);
    SumAmounts(after[..m]);
  }
}
