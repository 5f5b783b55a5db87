/** How runs compose: what a run stages depends only on its open lots, adds to what was staged
    before, and ignores the lots that earlier ones cover. */
module RunAlgebra {
  import opened Lists
  import opened Ledger
  import opened Allocation
  import opened Settlement
  import opened Calculation

  // ----- Checked lots do not matter -----

  lemma {:induction false} FilterCons(p: Tx -> bool, x: Tx, xs: seq<Tx>)
    ensures Filter(p, [x] + xs) == if p(x) then [x] + Filter(p, xs) else Filter(p, xs)
  {
    FilterAppend(p, [x], xs);
    FilterSnoc(p, [], x);
    assert [] + [x] == [x];
  }

  lemma {:induction false} FilterIdem(xs: seq<Tx>)
    ensures Filter(Unchecked, Filter(Unchecked, xs)) == Filter(Unchecked, xs)
  {
    FilterTwice(Unchecked, Unchecked, Unchecked, xs);
  }

  /** Draws that move the same and leave the same open lots. */
  ghost predicate SameDraw(d: Draw, e: Draw) {
    d.moves == e.moves && d.left == e.left && Filter(Unchecked, d.lots) == Filter(Unchecked, e.lots)
  }

  lemma {:induction false} TakeSkips(mover: Mover, need: Quantity, lots: seq<Tx>)
    requires Lawful(mover)
    ensures SameDraw(Take(mover, need, lots), Take(mover, need, Filter(Unchecked, lots)))
    decreases |lots|
  {
    if |lots| > 0 {
      var lot, rest := lots[0], lots[1..];
      assert lots == [lot] + rest;
      FilterCons(Unchecked, lot, rest);
      if lot.checked {
        TakeSkips(mover, need, rest);
        TakeClosed(mover, need, lot, rest);
        FilterCons(Unchecked, lot, Take(mover, need, rest).lots);
      } else if need <= lot.amount {
        SkipsLast(mover, need, lot, rest);
      } else {
        TakeSkips(mover, need - lot.amount, rest);
        SkipsOn(mover, need, lot, rest);
      }
    }
  }

  lemma {:induction false} SkipsLast(mover: Mover, need: Quantity, lot: Tx, rest: seq<Tx>)
    requires Lawful(mover) && !lot.checked && need <= lot.amount
    ensures SameDraw(Take(mover, need, [lot] + rest), Take(mover, need, [lot] + Filter(Unchecked, rest)))
  {
    TakeLast(mover, need, lot, rest);
    TakeLast(mover, need, lot, Filter(Unchecked, rest));
    FilterIdem(rest);
    FilterCons(Unchecked, mover(need, lot).after, rest);
    FilterCons(Unchecked, mover(need, lot).after, Filter(Unchecked, rest));
  }

  lemma {:induction false} SkipsOn(mover: Mover, need: Quantity, lot: Tx, rest: seq<Tx>)
    requires Lawful(mover) && !lot.checked && lot.amount < need
    requires var left := need - lot.amount;
             SameDraw(Take(mover, left, rest), Take(mover, left, Filter(Unchecked, rest)))
    ensures SameDraw(Take(mover, need, [lot] + rest), Take(mover, need, [lot] + Filter(Unchecked, rest)))
  {
    TakeOn(mover, need, lot, rest);
    TakeOn(mover, need, lot, Filter(Unchecked, rest));
    SameDrawOn(mover(need, lot), Take(mover, need - lot.amount, rest),
               Take(mover, need - lot.amount, Filter(Unchecked, rest)));
  }

  lemma {:induction false} SameDrawOn(m: Move, d: Draw, e: Draw)
    requires SameDraw(d, e)
    ensures SameDraw(Draw([m.after] + d.lots, [m] + d.moves, d.left), Draw([m.after] + e.lots, [m] + e.moves, e.left))
  {
    FilterCons(Unchecked, m.after, d.lots);
    FilterCons(Unchecked, m.after, e.lots);
  }

  /** Two works that stage alike and have the same open lots. */
  ghost predicate SameRun(v: Work, w: Work) {
    && Filter(Unchecked, v.lots) == Filter(Unchecked, w.lots)
    && v.updates == w.updates && v.created == w.created && v.cogs == w.cogs && v.done == w.done
  }

  lemma {:induction false} RunSkips(movers: Movers, halfUnit: real, sales: seq<Tx>, v: Work, w: Work)
    requires SameRun(v, w) && AllLawful(movers)
    ensures SameRun(ProcessSales(movers, halfUnit, sales, v), ProcessSales(movers, halfUnit, sales, w))
    decreases |sales|
  {
    if |sales| > 0 {
      var init, sale := sales[..|sales| - 1], sales[|sales| - 1];
      RunSkips(movers, halfUnit, init, v, w);
      assert Lawful(movers(sale));
      TakeSkips(movers(sale), sale.amount, ProcessSales(movers, halfUnit, init, v).lots);
      TakeSkips(movers(sale), sale.amount, ProcessSales(movers, halfUnit, init, w).lots);
    }
  }

  // ----- Later lots are untouched while earlier ones cover -----

  lemma {:induction false} TakeSuffix(mover: Mover, need: Quantity, xs: seq<Tx>, ys: seq<Tx>)
    requires Lawful(mover) && 0.0 < need <= SumBy(OpenQuantity, xs)
    ensures var d := Take(mover, need, xs); Take(mover, need, xs + ys) == Draw(d.lots + ys, d.moves, d.left)
    decreases |xs|
  {
    if |xs| == 0 {
      assert false;
    } else {
      var lot, rest := xs[0], xs[1..];
      assert xs == [lot] + rest && xs + ys == [lot] + (rest + ys);
      SumCons(OpenQuantity, lot, rest);
      if lot.checked {
        TakeSuffix(mover, need, rest, ys);
        TakeClosed(mover, need, lot, rest);
        TakeClosed(mover, need, lot, rest + ys);
        ConsRegroup(lot, Take(mover, need, rest).lots, ys);
      } else if need <= lot.amount {
        TakeLast(mover, need, lot, rest);
        TakeLast(mover, need, lot, rest + ys);
        ConsRegroup(mover(need, lot).after, rest, ys);
      } else {
        TakeSuffix(mover, need - lot.amount, rest, ys);
        SuffixOn(mover, need, lot, rest, ys);
      }
    }
  }

  lemma {:induction false} SuffixOn(mover: Mover, need: Quantity, lot: Tx, rest: seq<Tx>, ys: seq<Tx>)
    requires Lawful(mover) && !lot.checked && lot.amount < need
    requires var d := Take(mover, need - lot.amount, rest);
             Take(mover, need - lot.amount, rest + ys) == Draw(d.lots + ys, d.moves, d.left)
    ensures var d := Take(mover, need, [lot] + rest);
            Take(mover, need, [lot] + (rest + ys)) == Draw(d.lots + ys, d.moves, d.left)
  {
    TakeOn(mover, need, lot, rest);
    TakeOn(mover, need, lot, rest + ys);
    ConsRegroup(mover(need, lot).after, Take(mover, need - lot.amount, rest).lots, ys);
  }

  lemma {:induction false} ConsRegroup(x: Tx, xs: seq<Tx>, ys: seq<Tx>)
    ensures [x] + (xs + ys) == [x] + xs + ys
  {}

  /** A run that `xs` covers leaves the lots after it alone. */
  lemma {:induction false} RunSuffix(movers: Movers, halfUnit: real, sales: seq<Tx>, w: Work, ys: seq<Tx>)
    requires AllLawful(movers) && SumBy(AmountOf, sales) <= SumBy(OpenQuantity, w.lots)
    requires forall k :: 0 <= k < |sales| ==> sales[k].amount > 0.0
    ensures var v := ProcessSales(movers, halfUnit, sales, w);
            ProcessSales(movers, halfUnit, sales, w.(lots := w.lots + ys)) == v.(lots := v.lots + ys)
    decreases |sales|
  {
    if |sales| > 0 {
      var init, sale := sales[..|sales| - 1], sales[|sales| - 1];
      RunSuffix(movers, halfUnit, init, w, ys);
      ProcessLots(movers, halfUnit, init, w);
      RunOpen(movers, init, w.lots);
      assert Lawful(movers(sale));
      TakeSuffix(movers(sale), sale.amount, ProcessSales(movers, halfUnit, init, w).lots, ys);
    }
  }

  // ----- Runs add up -----

  lemma {:induction false} StageFrame(u: map<nat, Tx>, v: map<nat, Tx>, moves: seq<Move>)
    ensures Stage(u + v, moves) == u + Stage(v, moves)
    decreases |moves|
  {
    if |moves| > 0 {
      StageFrame(u, v, moves[..|moves| - 1]);
    }
  }

  /** What was staged before a run stays, under what the run adds. */
  function Added(w: Work, v: Work): Work {
    Work(v.lots, w.updates + v.updates, w.created + v.created, w.cogs + v.cogs, w.done + v.done)
  }

  lemma {:induction false} RunAdds(movers: Movers, halfUnit: real, sales: seq<Tx>, w: Work)
    ensures ProcessSales(movers, halfUnit, sales, w) == Added(w, ProcessSales(movers, halfUnit, sales, Start(w.lots)))
    decreases |sales|
  {
    if |sales| == 0 {
      assert w.updates + map[] == w.updates && w.created + [] == w.created && w.cogs + [] == w.cogs
             && w.done + [] == w.done;
    } else {
      var init, sale := sales[..|sales| - 1], sales[|sales| - 1];
      RunAdds(movers, halfUnit, init, w);
      var v := ProcessSales(movers, halfUnit, init, Start(w.lots));
      SaleAdds(movers, halfUnit, sale, w, v);
    }
  }

  lemma {:induction false} SaleAdds(movers: Movers, halfUnit: real, sale: Tx, w: Work, v: Work)
    ensures ProcessSale(movers, halfUnit, sale, Added(w, v)) == Added(w, ProcessSale(movers, halfUnit, sale, v))
  {
    var d := DrawFor(movers, sale, v.lots);
    StageFrame(w.updates, v.updates, d.moves);
    assert w.created + v.created + Pieces(d.moves) == w.created + (v.created + Pieces(d.moves));
    assert w.cogs + v.cogs + [CogsOf(sale, d)] == w.cogs + (v.cogs + [CogsOf(sale, d)]);
    assert w.done + v.done + [Settled(halfUnit, sale, d)] == w.done + (v.done + [Settled(halfUnit, sale, d)]);
    var u := Stage(v.updates, d.moves);
    assert (w.updates + u)[sale.id := Settled(halfUnit, sale, d)]
           == w.updates + u[sale.id := Settled(halfUnit, sale, d)];
  }
}
