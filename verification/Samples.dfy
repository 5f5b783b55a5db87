/** Calculations on books of a few transactions, worked out. */
module Samples {
  import opened Lists
  import opened Ledger
  import opened FifoOrder
  import opened Allocation
  import opened Settlement
  import opened Calculation
  import opened Collected

  // ----- Short lists -----

  lemma {:induction false} FilterOne<T>(p: T -> bool, a: T)
    ensures Filter(p, [a]) == if p(a) then [a] else []
  {
    FilterSnoc(p, [], a);
    assert [] + [a] == [a];
  }

  lemma {:induction false} FilterTwo<T>(p: T -> bool, a: T, b: T)
    ensures Filter(p, [a, b]) == (if p(a) then [a] else []) + (if p(b) then [b] else [])
  {
    assert [a, b] == [a] + [b];
    FilterOne(p, a);
    FilterSnoc(p, [a], b);
  }

  lemma {:induction false} FilterThree<T>(p: T -> bool, a: T, b: T, c: T)
    ensures Filter(p, [a, b, c]) == (if p(a) then [a] else []) + (if p(b) then [b] else []) + (if p(c) then [c] else [])
  {
    assert [a, b, c] == [a, b] + [c];
    FilterTwo(p, a, b);
    FilterSnoc(p, [a, b], c);
  }

  lemma {:induction false} FilterFour<T>(p: T -> bool, a: T, b: T, c: T, d: T)
    ensures Filter(p, [a, b, c, d])
         == (if p(a) then [a] else []) + (if p(b) then [b] else []) + (if p(c) then [c] else [])
           + (if p(d) then [d] else [])
  {
    assert [a, b, c, d] == [a, b, c] + [d];
    FilterThree(p, a, b, c);
    FilterSnoc(p, [a, b, c], d);
  }

  lemma {:induction false} FilterFive<T>(p: T -> bool, a: T, b: T, c: T, d: T, e: T)
    ensures Filter(p, [a, b, c, d, e])
         == (if p(a) then [a] else []) + (if p(b) then [b] else []) + (if p(c) then [c] else [])
           + (if p(d) then [d] else [])
            + (if p(e) then [e] else [])
  {
    assert [a, b, c, d, e] == [a, b, c, d] + [e];
    FilterFour(p, a, b, c, d);
    FilterSnoc(p, [a, b, c, d], e);
  }

  lemma {:induction false} SumOne<T>(f: T -> real, x: T)
    ensures SumBy(f, [x]) == f(x)
  {
    SumSnoc(f, [], x);
    assert [] + [x] == [x];
  }

  lemma {:induction false} SumTwo<T>(f: T -> real, x: T, y: T)
    ensures SumBy(f, [x, y]) == f(x) + f(y)
  {
    assert [x, y] == [x] + [y];
    SumSnoc(f, [x], y);
    SumOne(f, x);
  }

  lemma {:induction false} KeyedOne<T, K>(key: T -> K, a: T)
    ensures Keyed(key, [a]) == [a]
  {
    assert [a][..0] == [];
  }

  /** Of two elements with one key the Map keeps the last. */
  lemma {:induction false} KeyedTwo<T, K>(key: T -> K, a: T, b: T)
    requires key(a) == key(b)
    ensures Keyed(key, [a, b]) == [b]
  {
    assert [a, b][..1] == [a];
    KeyedOne(key, a);
    assert PutBy(key, [a], b) == [b] + [a][1..];
  }

  lemma {:induction false} SortOne(x: Tx)
    ensures Sort([x]) == [x]
  {
    assert [x][..0] == [];
  }

  lemma {:induction false} SortTwo(x: Tx, y: Tx)
    requires x.date < y.date
    ensures Sort([x, y]) == [x, y]
  {
    assert [x, y][..1] == [x];
    SortOne(x);
    assert [x] + [y] == [x, y];
  }

  // ----- One sale on one lot -----

  /** The sale, drawn on one lot that holds enough. */
  function SettledOn(cfg: Config, fin: seq<FinTx>, sale: Tx, lot: Tx): Tx {
    var m := MoveOn(cfg, fin, sale, sale.amount, lot);
    sale.(totalCost := Some(SoldCost(m)), purchaseLog := Some([EntryOf(m)]), checked := true)
  }

  /** The move sells the whole need, so the draw is that move. */
  lemma {:induction false} DrawOnOne(cfg: Config, fin: seq<FinTx>, sale: Tx, lot: Tx, rest: seq<Tx>)
    requires !lot.checked && sale.amount <= lot.amount
    ensures var m := MoveOn(cfg, fin, sale, sale.amount, lot);
            DrawFor(RunMovers(cfg, fin), sale, [lot] + rest) == Draw([m.after] + rest, [m], 0.0)
  {
    var mover, lots := SaleMover(cfg, fin, sale), [lot] + rest;
    assert lots[0] == lot && lots[1..] == rest && mover(sale.amount, lot) == MoveOn(cfg, fin, sale, sale.amount, lot);
    MoveOnLawful(cfg, fin, sale, sale.amount, lot);
  }

  lemma {:induction false} OneMove(m: Move)
    ensures MovedCost([m]) == SoldCost(m) && Entries([m]) == [EntryOf(m)] && Pieces([m]) == PieceList(m)
    ensures forall u: map<nat, Tx> :: Stage(u, [m]) == u[m.after.id := m.after]
  {
    assert [m][..0] == [];
    SumOne(SoldCost, m);
  }

  /** One sale, settled on the first lot. */
  lemma {:induction false} SaleOnOne(cfg: Config, fin: seq<FinTx>, sale: Tx, lot: Tx, rest: seq<Tx>, w: Work)
    requires !lot.checked && sale.amount <= lot.amount && w.lots == [lot] + rest && cfg.halfUnit > 0.0
    ensures var m, done := MoveOn(cfg, fin, sale, sale.amount, lot), SettledOn(cfg, fin, sale, lot);
            ProcessSale(RunMovers(cfg, fin), cfg.halfUnit, sale, w)
            == Work([m.after] + rest, w.updates[m.after.id := m.after][sale.id := done], w.created + PieceList(m),
                    w.cogs + [Cogs(sale.id, sale.date, SoldCost(m), sale.amount)], w.done + [done])
  {
    DrawOnOne(cfg, fin, sale, lot, rest);
    OneMove(MoveOn(cfg, fin, sale, sale.amount, lot));
  }

  lemma {:induction false} ProcessOne(movers: Movers, halfUnit: real, sale: Tx, w: Work)
    ensures ProcessSales(movers, halfUnit, [sale], w) == ProcessSale(movers, halfUnit, sale, w)
  {
    assert [sale][..0] == [];
  }

  /** One sale, run on the one lot. */
  lemma {:induction false} OneSale(cfg: Config, fin: seq<FinTx>, x: Tx, lot: Tx, v: Work)
    requires v.lots == [lot] && v.cogs == [] && v.done == [] && !lot.checked && x.amount <= lot.amount
    requires cfg.halfUnit > 0.0
    ensures var m, done := MoveOn(cfg, fin, x, x.amount, lot), SettledOn(cfg, fin, x, lot);
            ProcessSales(RunMovers(cfg, fin), cfg.halfUnit, [x], v)
            == Work([m.after], v.updates[m.after.id := m.after][x.id := done], v.created + PieceList(m),
                    [Cogs(x.id, x.date, SoldCost(m), x.amount)], [done])
  {
    var m := MoveOn(cfg, fin, x, x.amount, lot);
    ProcessOne(RunMovers(cfg, fin), cfg.halfUnit, x, v);
    assert [lot] == [lot] + [] && [m.after] == [m.after] + [];
    SaleOnOne(cfg, fin, x, lot, [], v);
  }

  // ----- A purchase and a sale -----

  /** An open purchase and an open sale, up to `d`. */
  ghost predicate Pair(txs: seq<Tx>, d: int, b: Tx, x: Tx) {
    && txs == [b, x] && IsPurchase(b) && IsSale(x) && !b.checked && !x.checked && b.date <= d && x.date <= d
    && 0.0 < x.amount <= b.amount
  }

  lemma {:induction false} PairCollects(txs: seq<Tx>, d: int, b: Tx, x: Tx)
    requires Pair(txs, d, b, x)
    ensures Purchases(txs, d) == [b] && SortedSales(txs, d) == [x] && Notes(txs, d) == []
            && Opening(txs, d) == Ok(Start([b]))
    ensures SalesTotal(txs, d) == x.amount && PurchasesTotal(txs, d) == b.amount
  {
    FilterTwo(OpenPurchases(d), b, x);
    FilterTwo(OpenSales(d), b, x);
    FilterTwo(OpenNotes(d), b, x);
    KeyedOne(CodeOf, b);
    SortOne(b);
    SortOne(x);
    SumOne(AmountOf, b);
    SumOne(AmountOf, x);
  }

  /** What a calculation makes of them. */
  lemma {:induction false} PairSettles(cfg: Config, fin: seq<FinTx>, txs: seq<Tx>, d: int, b: Tx, x: Tx)
    requires Pair(txs, d, b, x) && cfg.halfUnit > 0.0
    ensures var m, done := MoveOn(cfg, fin, x, x.amount, b), SettledOn(cfg, fin, x, b);
            Settle(cfg, fin, txs, d)
            == Ok(Work([m.after], map[m.after.id := m.after][x.id := done], PieceList(m),
                       [Cogs(x.id, x.date, SoldCost(m), x.amount)], [done]))
  {
    var m := MoveOn(cfg, fin, x, x.amount, b);
    PairCollects(txs, d, b, x);
    OneSale(cfg, fin, x, b, Start([b]));
    assert [] + PieceList(m) == PieceList(m);
  }
}
