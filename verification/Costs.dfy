/** Costs of a run: exact arithmetic gives the FIFO cost of each sale, and rounded unit costs
    stay within a bound of it, with nothing lost once a lot is used up. */
module Costs {
  import opened Lists
  import opened Ledger
  import opened Allocation
  import opened Settlement
  import opened Intervals

  ghost predicate ExactTimes(cfg: Config) { forall a, b {:trigger (cfg.times)(a, b)} :: (cfg.times)(a, b) == a * b }

  /** Every unit cost is off by at most `eps`. */
  ghost predicate DivWithin(cfg: Config, eps: real) {
    forall a, b {:trigger (cfg.div)(a, b)} :: b > 0.0 ==> -eps <= (cfg.div)(a, b) - a / b <= eps
  }

  ghost predicate Exact(cfg: Config) { ExactTimes(cfg) && DivWithin(cfg, 0.0) }

  // ----- Exact arithmetic -----

  /** The effective unit cost of a lot: its cost with additional costs and less credits, per unit. */
  function TrueUnit(fin: seq<FinTx>, t: Tx): real { if t.amount > 0.0 then UpdatedCost(fin, t) / t.amount else 0.0 }

  function CostWorth(fin: seq<FinTx>): Worth { (t: Tx, q: real) => q * TrueUnit(fin, t) }

  lemma {:induction false} UnitKept(cost: real, quantity: real, taken: real)
    requires 0.0 <= taken < quantity
    ensures (cost - taken * (cost / quantity)) / (quantity - taken) == cost / quantity
  {
    var u := cost / quantity;
    assert cost == u * quantity;
    assert cost - taken * u == u * (quantity - taken);
  }

  lemma {:induction false} RestAtUnit(cost: real, quantity: real, taken: real, unit: real, cost': real, quantity': real)
    requires 0.0 <= taken < quantity && unit == cost / quantity
    requires quantity' == quantity - taken && cost' == cost - taken * unit
    ensures cost' / quantity' == unit
  {
    UnitKept(cost, quantity, taken);
    assert cost' == cost - taken * (cost / quantity);
  }

  lemma {:induction false} WholeUnit(cost: real, quantity: real)
    requires quantity > 0.0
    ensures quantity * (cost / quantity) == cost
  {}

  /** What is left of a lot carries what the split did not take. */
  lemma {:induction false} RemainderCost(cfg: Config, fin: seq<FinTx>, lot: Tx, taken: Quantity)
    requires ExactTimes(cfg) && taken < lot.amount
    ensures var rest := Remainder(cfg, fin, lot, taken);
            UpdatedCost(fin, rest) == UpdatedCost(fin, lot) - taken * UnitCost(cfg, fin, lot)
              && rest.amount == lot.amount - taken
  {}

  lemma {:induction false} MoveExact(cfg: Config, fin: seq<FinTx>, sale: Tx, need: Quantity, lot: Tx)
    requires Exact(cfg) && !lot.checked && lot.amount > 0.0
    ensures var m := MoveOn(cfg, fin, sale, need, lot);
            && SoldCost(m) == m.Sold().amount * TrueUnit(fin, lot)
            && (need < lot.amount ==> TrueUnit(fin, m.after) == TrueUnit(fin, lot))
  {
    UnitExact(cfg, fin, lot);
    if need < lot.amount {
      RestExact(cfg, fin, lot, need);
      assert SoldCost(MoveOn(cfg, fin, sale, need, lot)) == need * TrueUnit(fin, lot);
    } else {
      WholeUnit(UpdatedCost(fin, lot), lot.amount);
      assert SoldCost(MoveOn(cfg, fin, sale, need, lot)) == UpdatedCost(fin, lot);
    }
  }

  lemma {:induction false} UnitExact(cfg: Config, fin: seq<FinTx>, lot: Tx)
    requires DivWithin(cfg, 0.0) && lot.amount > 0.0
    ensures UnitCost(cfg, fin, lot) == TrueUnit(fin, lot) == UpdatedCost(fin, lot) / lot.amount
  {}

  /** A split leaves the unit cost of a lot as it was. */
  lemma {:induction false} RestExact(cfg: Config, fin: seq<FinTx>, lot: Tx, taken: Quantity)
    requires Exact(cfg) && taken < lot.amount
    ensures TrueUnit(fin, Remainder(cfg, fin, lot, taken)) == TrueUnit(fin, lot)
  {
    UnitExact(cfg, fin, lot);
    RemainderCost(cfg, fin, lot, taken);
    SameUnit(fin, lot, Remainder(cfg, fin, lot, taken), taken, UnitCost(cfg, fin, lot));
  }

  lemma {:induction false} SameUnit(fin: seq<FinTx>, lot: Tx, rest: Tx, taken: Quantity, unit: real)
    requires taken < lot.amount && rest.amount == lot.amount - taken && unit == UpdatedCost(fin, lot) / lot.amount
    requires UpdatedCost(fin, rest) == UpdatedCost(fin, lot) - taken * unit
    ensures TrueUnit(fin, rest) == TrueUnit(fin, lot)
  {
    RestAtUnit(UpdatedCost(fin, lot), lot.amount, taken, unit, UpdatedCost(fin, rest), rest.amount);
  }

  lemma {:induction false} RunKeepsUnits(cfg: Config, fin: seq<FinTx>)
    requires Exact(cfg)
    ensures AllKeepWorth(RunMovers(cfg, fin), CostWorth(fin)) && Measure(CostWorth(fin))
  {
    forall sale ensures KeepsWorth(RunMovers(cfg, fin)(sale), CostWorth(fin)) {
      forall need: Quantity, lot: Tx | !lot.checked && need < lot.amount
        ensures SameWorth(CostWorth(fin), RunMovers(cfg, fin)(sale)(need, lot).after, lot)
      {
        MoveExact(cfg, fin, sale, need, lot);
      }
    }
  }

  lemma {:induction false} MoveWorth(cfg: Config, fin: seq<FinTx>, sale: Tx, need: Quantity, lot: Tx)
    requires Exact(cfg) && !lot.checked && lot.amount > 0.0
    ensures var m := MoveOn(cfg, fin, sale, need, lot); SoldCost(m) == SoldWorth(CostWorth(fin))(m)
  {
    MoveExact(cfg, fin, sale, need, lot);
    var m := MoveOn(cfg, fin, sale, need, lot);
    assert m.before == lot && SoldWorth(CostWorth(fin))(m) == CostWorth(fin)(lot, m.Sold().amount);
  }

  lemma {:induction false} DrawCost(cfg: Config, fin: seq<FinTx>, sale: Tx, lots: seq<Tx>)
    requires Exact(cfg) && Ready(lots)
    ensures var moves := DrawFor(RunMovers(cfg, fin), sale, lots).moves;
            MovedCost(moves) == SumBy(SoldWorth(CostWorth(fin)), moves)
  {
    var mover, worth := SaleMover(cfg, fin, sale), SoldWorth(CostWorth(fin));
    var p := (m: Move) => SoldCost(m) == worth(m);
    SaleMoverLawful(cfg, fin, sale);
    forall n: Quantity, lot: Tx | !lot.checked && lot in lots ensures p(mover(n, lot)) {
      var i :| 0 <= i < |lots| && lots[i] == lot;
      MoveWorth(cfg, fin, sale, n, lot);
    }
    TakeMoves(mover, sale.amount, lots, p);
    SumCong(SoldCost, worth, Take(mover, sale.amount, lots).moves);
  }

  /** With exact arithmetic, the COGS of sale `k` is the cost, at each lot's effective unit cost,
      of the slice of the lots between the cumulative sales before and after it. */
  lemma {:induction false} FifoCost(cfg: Config, fin: seq<FinTx>, sales: seq<Tx>, lots: seq<Tx>, k: nat)
    requires Exact(cfg) && Ready(lots) && k < |sales|
    ensures MovedCost(DrawOf(RunMovers(cfg, fin), sales, lots, k).moves)
         == Slice(CostWorth(fin), lots, SumBy(AmountOf, sales[..k]), SumBy(AmountOf, sales[..k + 1]))
  {
    var movers := RunMovers(cfg, fin);
    RunMoversLawful(cfg, fin);
    RunKeepsUnits(cfg, fin);
    RunFrame(movers, sales[..k], lots);
    DrawCost(cfg, fin, sales[k], LotsAfter(movers, sales[..k], lots));
    SaleTakesSlice(movers, sales, lots, CostWorth(fin), k);
  }

  // ----- Rounded arithmetic -----

  /** What was taken of `quantity` that cost `cost` is pro rata, up to `eps` per unit taken. */
  ghost predicate ProRata(cost: real, quantity: real, taken: real, q: real, eps: real)
    requires quantity > 0.0
  {
    -(eps * q) <= taken - cost / quantity * q <= eps * q
  }

  /** One more rounded split of `p` units out of the `q` left at cost `k`, at unit cost `r`. */
  lemma {:induction false} DriftStep(cost: real, quantity: real, k: real, q: real, p: real, r: real, eps: real)
    requires 0.0 <= p < q <= quantity && eps >= 0.0 && -eps <= r - k / q <= eps
             && ProRata(cost, quantity, cost - k, quantity - q, eps)
    ensures ProRata(cost, quantity, cost - (k - p * r), quantity - (q - p), eps)
  {
    var u, x := cost / quantity, p / q;
    var e := cost - k - u * (quantity - q);
    var delta := r - k / q;
    assert cost == u * quantity;
    assert u * (quantity - q) == u * quantity - u * q;
    assert k == u * q - e;
    RatioBelowOne(p, q);
    assert p == x * q && q * (k / q) == k;
    assert p * (k / q) == x * (q * (k / q)) == x * k;
    assert x * k == x * (u * q - e) == u * (x * q) - x * e == u * p - x * e;
    assert u * (quantity - (q - p)) == u * (quantity - q) + u * p;
    assert p * r == p * delta + p * (k / q);
    assert cost - (k - p * r) - u * (quantity - (q - p)) == e - x * e + p * delta;
    Shrink(e, x, eps * (quantity - q));
    MulNonNeg(p, eps - delta);
    MulNonNeg(p, eps + delta);
    assert eps * (quantity - (q - p)) == eps * (quantity - q) + p * eps;
  }

  lemma {:induction false} MulNonNeg(a: real, b: real)
    requires a >= 0.0 && b >= 0.0
    ensures a * b >= 0.0
  {}

  lemma {:induction false} RatioBelowOne(p: real, q: real)
    requires 0.0 <= p < q
    ensures 0.0 <= p / q < 1.0
  {
    var x := p / q;
    assert x * q == p;
    assert (1.0 - x) * q == q - p;
  }

  lemma {:induction false} Shrink(e: real, x: real, bound: real)
    requires -bound <= e <= bound && 0.0 <= x < 1.0
    ensures -bound <= e - x * e <= bound
  {
    assert e - x * e == (1.0 - x) * e;
    if e >= 0.0 {
      MulNonNeg(x, e);
      MulNonNeg(1.0 - x, e);
    } else {
      MulNonNeg(x, 0.0 - e);
      MulNonNeg(1.0 - x, 0.0 - e);
    }
  }

  /** What is left of lot `a` is `b`, its cost pro rata up to `eps` per unit taken. */
  ghost predicate Drifted(fin: seq<FinTx>, eps: real, a: Tx, b: Tx)
    requires a.amount > 0.0
  {
    b.amount <= a.amount
      && ProRata(UpdatedCost(fin, a), a.amount, UpdatedCost(fin, a) - UpdatedCost(fin, b), a.amount - b.amount, eps)
  }

  lemma {:induction false} UnitWithin(cfg: Config, fin: seq<FinTx>, eps: real, lot: Tx)
    requires DivWithin(cfg, eps) && lot.amount > 0.0
    ensures -eps <= UnitCost(cfg, fin, lot) - UpdatedCost(fin, lot) / lot.amount <= eps
  {}

  lemma {:induction false} DriftedRest(fin: seq<FinTx>, eps: real, a: Tx, lot: Tx, rest: Tx, need: Quantity, r: real)
    requires eps >= 0.0 && a.amount > 0.0 && need < lot.amount && Drifted(fin, eps, a, lot)
    requires -eps <= r - UpdatedCost(fin, lot) / lot.amount <= eps
    requires UpdatedCost(fin, rest) == UpdatedCost(fin, lot) - need * r && rest.amount == lot.amount - need
    ensures Drifted(fin, eps, a, rest)
  {
    DriftStep(UpdatedCost(fin, a), a.amount, UpdatedCost(fin, lot), lot.amount, need, r, eps);
  }

  lemma {:induction false} RemainderDrift(cfg: Config, fin: seq<FinTx>, eps: real, need: Quantity, a: Tx, lot: Tx)
    requires ExactTimes(cfg) && DivWithin(cfg, eps) && eps >= 0.0 && a.amount > 0.0 && need < lot.amount
    requires Drifted(fin, eps, a, lot)
    ensures Drifted(fin, eps, a, Remainder(cfg, fin, lot, need))
  {
    RemainderCost(cfg, fin, lot, need);
    UnitWithin(cfg, fin, eps, lot);
    DriftedRest(fin, eps, a, lot, Remainder(cfg, fin, lot, need), need, UnitCost(cfg, fin, lot));
  }
}
