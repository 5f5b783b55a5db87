/** Staged updates and working copies agree: what a run stages is exactly what it changed. */
module Staging {
  import opened Lists
  import opened Ledger
  import opened Allocation
  import opened Settlement

  ghost predicate Among(id: nat, xs: seq<Tx>) { exists i :: 0 <= i < |xs| && xs[i].id == id }

  lemma {:induction false} StageCons(u: map<nat, Tx>, m: Move, moves: seq<Move>)
    ensures Stage(u, [m] + moves) == Stage(u[m.after.id := m.after], moves)
    decreases |moves|
  {
    if |moves| == 0 {
      assert [m] + moves == [m];
      assert [m][..0] == [];
    } else {
      var init := moves[..|moves| - 1];
      StageCons(u, m, init);
      assert ([m] + moves)[..|moves|] == [m] + init;
    }
  }

  /** A draw stages nothing but the lots it was given. */
  lemma {:induction false} TakeStagesLots(mover: Mover, need: Quantity, lots: seq<Tx>, u: map<nat, Tx>, id: nat)
    requires Lawful(mover) && Framed(mover) && !Among(id, lots)
    ensures var v := Stage(u, Take(mover, need, lots).moves); (id in v <==> id in u) && (id in u ==> v[id] == u[id])
    decreases |lots|
  {
    if |lots| > 0 {
      var lot, rest := lots[0], lots[1..];
      assert lot.id != id && forall i :: 0 <= i < |rest| ==> rest[i] == lots[i + 1];
      if lot.checked {
        TakeStagesLots(mover, need, rest, u, id);
      } else {
        var m := mover(need, lot);
        assert m.after.id == lot.id;
        StageCons(u, m, []);
        assert [m] + [] == [m];
        if m.Sold().amount < need {
          var left := need - m.Sold().amount;
          TakeStagesLots(mover, left, rest, u[m.after.id := m.after], id);
          StageCons(u, m, Take(mover, left, rest).moves);
        }
      }
    }
  }

  /** If a transaction staged so far stands for lot `i`, after a draw it stands for lot `i` again. */
  lemma {:induction false} TakeStages(mover: Mover, need: Quantity, lots: seq<Tx>, u: map<nat, Tx>, t: Tx, i: nat)
    requires Lawful(mover) && Framed(mover) && Distinct(IdOf, lots)
    requires i < |lots| && t.id == lots[i].id && Lookup(u, t) == lots[i]
    ensures |Take(mover, need, lots).lots| == |lots|
    ensures Lookup(Stage(u, Take(mover, need, lots).moves), t) == Take(mover, need, lots).lots[i]
    decreases |lots|
  {
    TakeFrame(mover, need, lots);
    var lot, rest := lots[0], lots[1..];
    DistinctRest(lots);
    if lot.checked {
      if i == 0 {
        TakeStagesLots(mover, need, rest, u, t.id);
      } else {
        TakeStages(mover, need, rest, u, t, i - 1);
      }
    } else {
      var m := mover(need, lot);
      assert m.after.id == lot.id;
      var v := u[m.after.id := m.after];
      StageCons(u, m, []);
      assert [m] + [] == [m];
      if m.Sold().amount < need {
        var left := need - m.Sold().amount;
        StageCons(u, m, Take(mover, left, rest).moves);
        if i == 0 {
          TakeStagesLots(mover, left, rest, v, t.id);
        } else {
          assert rest[i - 1] == lots[i] && Lookup(v, t) == rest[i - 1];
          TakeStages(mover, left, rest, v, t, i - 1);
        }
      }
    }
  }

  lemma {:induction false} DistinctRest(lots: seq<Tx>)
    requires |lots| > 0 && Distinct(IdOf, lots)
    ensures Distinct(IdOf, lots[1..]) && !Among(lots[0].id, lots[1..])
    ensures forall i :: 1 <= i < |lots| ==> lots[i].id != lots[0].id
  {
    forall i | 1 <= i < |lots| ensures lots[i].id != lots[0].id {
      assert IdOf(lots[0]) != IdOf(lots[i]);
    }
  }

  ghost predicate SameIds(xs: seq<Tx>, ys: seq<Tx>) {
    |xs| == |ys| && forall i :: 0 <= i < |xs| ==> xs[i].id == ys[i].id
  }

  /** The updates of a sale: its draw, and the sale itself if it was filled. */
  lemma {:induction false} SaleStages(movers: Movers, halfUnit: real, sale: Tx, w: Work, base: seq<Tx>)
    requires AllLawful(movers) && AllFramed(movers) && Distinct(IdOf, base) && SameIds(base, w.lots)
    requires Apply(w.updates, base) == w.lots && !Among(sale.id, base)
    ensures var w' := ProcessSale(movers, halfUnit, sale, w);
            Apply(w'.updates, base) == w'.lots && SameIds(base, w'.lots)
  {
    var w' := ProcessSale(movers, halfUnit, sale, w);
    var d := DrawFor(movers, sale, w.lots);
    assert Lawful(movers(sale)) && Framed(movers(sale));
    TakeFrame(movers(sale), sale.amount, w.lots);
    assert Distinct(IdOf, w.lots) by {
      forall i, j | 0 <= i < j < |w.lots| ensures IdOf(w.lots[i]) != IdOf(w.lots[j]) {
        assert IdOf(base[i]) != IdOf(base[j]);
      }
    }
    forall i | 0 <= i < |base| ensures Lookup(w'.updates, base[i]) == w'.lots[i] {
      assert Apply(w.updates, base)[i] == w.lots[i];
      TakeStages(movers(sale), sale.amount, w.lots, w.updates, base[i], i);
      assert base[i].id != sale.id;
    }
    assert Apply(w'.updates, base) == w'.lots;
  }

  /** Outside the lots, a sale stages itself at most. */
  lemma {:induction false} SaleStagesOther(movers: Movers, halfUnit: real, sale: Tx, w: Work, t: Tx)
    requires AllLawful(movers) && AllFramed(movers) && !Among(t.id, w.lots)
    ensures var w' := ProcessSale(movers, halfUnit, sale, w);
            && (t.id != sale.id ==>
                  Lookup(w'.updates, t) == Lookup(w.updates, t) && (t.id in w'.updates <==> t.id in w.updates))
            && (t == sale && sale.id !in w.updates ==>
                  Lookup(w'.updates, t) == Settled(halfUnit, sale, DrawFor(movers, sale, w.lots)))
  {
    assert Lawful(movers(sale)) && Framed(movers(sale));
    TakeStagesLots(movers(sale), sale.amount, w.lots, w.updates, t.id);
  }

  /** The whole run: the updates turn the lots it started from into the lots it ends with. */
  lemma {:induction false} RunStages(movers: Movers, halfUnit: real, sales: seq<Tx>, w: Work, base: seq<Tx>)
    requires AllLawful(movers) && AllFramed(movers) && Distinct(IdOf, base) && SameIds(base, w.lots)
    requires Apply(w.updates, base) == w.lots
    requires forall k :: 0 <= k < |sales| ==> !Among(sales[k].id, base)
    ensures var w' := ProcessSales(movers, halfUnit, sales, w);
            Apply(w'.updates, base) == w'.lots && SameIds(base, w'.lots)
    decreases |sales|
  {
    if |sales| > 0 {
      var init, sale := sales[..|sales| - 1], sales[|sales| - 1];
      RunStages(movers, halfUnit, init, w, base);
      SaleStages(movers, halfUnit, sale, ProcessSales(movers, halfUnit, init, w), base);
    }
  }

  lemma {:induction false} RunStagesOther(movers: Movers, halfUnit: real, sales: seq<Tx>, w: Work, t: Tx)
    requires AllLawful(movers) && AllFramed(movers) && !Among(t.id, w.lots)
    requires forall k :: 0 <= k < |sales| ==> sales[k].id != t.id
    ensures var w' := ProcessSales(movers, halfUnit, sales, w);
            Lookup(w'.updates, t) == Lookup(w.updates, t) && (t.id in w'.updates <==> t.id in w.updates)
              && !Among(t.id, w'.lots)
    decreases |sales|
  {
    ProcessLots(movers, halfUnit, sales, w);
    RunFrame(movers, sales, w.lots);
    if |sales| > 0 {
      var init, sale := sales[..|sales| - 1], sales[|sales| - 1];
      RunStagesOther(movers, halfUnit, init, w, t);
      SaleStagesOther(movers, halfUnit, sale, ProcessSales(movers, halfUnit, init, w), t);
    }
  }

  lemma {:induction false} RunDoneLength(movers: Movers, halfUnit: real, sales: seq<Tx>, w: Work)
    ensures |ProcessSales(movers, halfUnit, sales, w).done| == |w.done| + |sales|
    ensures |ProcessSales(movers, halfUnit, sales, w).cogs| == |w.cogs| + |sales|
    decreases |sales|
  {
    if |sales| > 0 {
      RunDoneLength(movers, halfUnit, sales[..|sales| - 1], w);
    }
  }

  /** The updates turn the sales into their processed copies. */
  lemma {:induction false} RunStagesSales(movers: Movers, halfUnit: real, sales: seq<Tx>, w: Work)
    requires AllLawful(movers) && AllFramed(movers) && Distinct(IdOf, sales) && w.done == []
    requires forall k :: 0 <= k < |sales| ==> !Among(sales[k].id, w.lots) && sales[k].id !in w.updates
    ensures Apply(ProcessSales(movers, halfUnit, sales, w).updates, sales)
         == ProcessSales(movers, halfUnit, sales, w).done
    decreases |sales|
  {
    RunDoneLength(movers, halfUnit, sales, w);
    if |sales| > 0 {
      var init, sale := sales[..|sales| - 1], sales[|sales| - 1];
      var v := ProcessSales(movers, halfUnit, init, w);
      var w' := ProcessSales(movers, halfUnit, sales, w);
      RunStagesSales(movers, halfUnit, init, w);
      RunDoneLength(movers, halfUnit, init, w);
      assert forall k :: 0 <= k < |init| ==> init[k].id != sale.id by {
        forall k | 0 <= k < |init| ensures init[k].id != sale.id {
          assert IdOf(sales[k]) != IdOf(sales[|init|]);
        }
      }
      RunStagesOther(movers, halfUnit, init, w, sale);
      SaleStagesOther(movers, halfUnit, sale, v, sale);
      forall k | 0 <= k < |sales| ensures Lookup(w'.updates, sales[k]) == w'.done[k] {
        if k < |init| {
          EarlierSaleKept(movers, halfUnit, init, sale, w, k);
          assert Apply(v.updates, init)[k] == v.done[k];
        }
      }
      assert Apply(w'.updates, sales) == w'.done;
    }
  }

  /** A later sale leaves an earlier one as it was staged. */
  lemma {:induction false} EarlierSaleKept(movers: Movers, halfUnit: real, init: seq<Tx>, sale: Tx, w: Work, k: nat)
    requires AllLawful(movers) && AllFramed(movers) && k < |init| && init[k].id != sale.id && !Among(init[k].id, w.lots)
    ensures var v := ProcessSales(movers, halfUnit, init, w);
            Lookup(ProcessSale(movers, halfUnit, sale, v).updates, init[k]) == Lookup(v.updates, init[k])
  {
    ProcessLots(movers, halfUnit, init, w);
    RunFrame(movers, init, w.lots);
    SaleStagesOther(movers, halfUnit, sale, ProcessSales(movers, halfUnit, init, w), init[k]);
  }
}
