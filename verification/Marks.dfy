/** A purchase is marked exactly when something of it was sold: its additional costs and its
    credit-note property tell, without a look at its splits, whether a run drew on it. */
module Marks {
  import opened Lists
  import opened Ledger
  import opened FifoOrder
  import opened Allocation
  import opened Settlement
  import opened Staging
  import opened Calculation
  import opened Reset
  import opened Replication
  import opened Books
  import opened Collected
  import opened Commitment
  import opened ResetFacts
  import opened Runs
  import opened Families

  /** A lot of family `id` with a liquidation log. */
  predicate SoldPart(t: Tx, id: nat) { RootOf(t) == id && t.liquidation.Some? }

  ghost predicate NoPart(txs: seq<Tx>, id: nat) { forall t :: t in txs ==> !SoldPart(t, id) }

  /** A purchase is untouched if and only if no lot of its family was sold. */
  ghost predicate Marked(s: State) {
    && (forall t :: t in s.txs && PurchaseShape(t) ==> (Untouched(t) <==> NoPart(s.txs, t.id)))
    && (forall id: nat :: id >= s.nextId ==> NoPart(s.txs, id))
  }

  // ----- One draw -----

  /** The draw moved `a` to `b`, or left it alone. */
  ghost predicate Reached(a: Tx, b: Tx, moves: seq<Move>) {
    || (exists m :: m in moves && m.before == a && m.after == b)
    || (b == a && forall m :: m in moves ==> m.before.id != a.id)
  }

  lemma {:induction false} ReachedCons(a: Tx, b: Tx, m: Move, moves: seq<Move>)
    requires Reached(a, b, moves) && m.before.id != a.id
    ensures Reached(a, b, [m] + moves)
  {
    if x :| x in moves && x.before == a && x.after == b {
      assert x in [m] + moves;
    }
  }

  lemma {:induction false} BeforeAmong(mover: Mover, need: Quantity, lots: seq<Tx>)
    requires Lawful(mover)
    ensures forall m :: m in Take(mover, need, lots).moves ==> m.before in lots
  {
    TakeMoves(mover, need, lots, m => true);
  }

  lemma {:induction false} NotReached(mover: Mover, need: Quantity, lot: Tx, rest: seq<Tx>)
    requires Lawful(mover) && Distinct(IdOf, [lot] + rest)
    ensures forall m :: m in Take(mover, need, rest).moves ==> m.before.id != lot.id
  {
    var lots := [lot] + rest;
    BeforeAmong(mover, need, rest);
    forall m | m in Take(mover, need, rest).moves ensures m.before.id != lot.id {
      var i :| 0 <= i < |rest| && rest[i] == m.before;
      assert IdOf(lots[0]) != IdOf(lots[i + 1]);
    }
  }

  /** Every lot is moved by one move of the draw, or by none. */
  lemma {:induction false} TakeReaches(mover: Mover, need: Quantity, lots: seq<Tx>)
    requires Lawful(mover) && Distinct(IdOf, lots)
    ensures var d := Take(mover, need, lots);
            |d.lots| == |lots| && forall i :: 0 <= i < |lots| ==> Reached(lots[i], d.lots[i], d.moves)
    decreases |lots|
  {
    if |lots| > 0 {
      var lot, rest := lots[0], lots[1..];
      assert lots == [lot] + rest;
      DistinctRest(lots);
      if lot.checked {
        TakeReaches(mover, need, rest);
        NotReached(mover, need, lot, rest);
      } else {
        var left := need - mover(need, lot).Sold().amount;
        if left > 0.0 {
          TakeReaches(mover, left, rest);
          NotReached(mover, left, lot, rest);
        }
        TakeReachesOpen(mover, need, lot, rest);
      }
    }
  }

  lemma {:induction false} TakeReachesOpen(mover: Mover, need: Quantity, lot: Tx, rest: seq<Tx>)
    requires Lawful(mover) && !lot.checked && Distinct(IdOf, [lot] + rest)
    requires var left := need - mover(need, lot).Sold().amount;
             left > 0.0 ==>
               var d := Take(mover, left, rest);
               |d.lots| == |rest| && forall i :: 0 <= i < |rest| ==> Reached(rest[i], d.lots[i], d.moves)
    ensures var d := Take(mover, need, [lot] + rest);
            |d.lots| == |rest| + 1 && forall i :: 0 <= i < |rest| + 1 ==> Reached(([lot] + rest)[i], d.lots[i], d.moves)
  {
    var m, lots := mover(need, lot), [lot] + rest;
    var left := need - m.Sold().amount;
    var d := Take(mover, need, lots);
    assert LawfulMove(need, lot, m) && lots[1..] == rest;
    var tail := if left > 0.0 then Take(mover, left, rest) else Draw(rest, [], 0.0);
    assert d == Draw([m.after] + tail.lots, [m] + tail.moves, tail.left);
    assert m in d.moves;
    forall i | 1 <= i < |lots| ensures Reached(lots[i], d.lots[i], d.moves) {
      assert IdOf(lots[0]) != IdOf(lots[i]);
      assert Reached(rest[i - 1], tail.lots[i - 1], tail.moves);
      ReachedCons(rest[i - 1], tail.lots[i - 1], m, tail.moves);
    }
  }

  lemma {:induction false} PiecesFrom(moves: seq<Move>)
    ensures forall x :: x in Pieces(moves) <==> exists m :: m in moves && m.piece == Some(x)
  {
    if |moves| > 0 {
      var init, last := moves[..|moves| - 1], moves[|moves| - 1];
      assert moves == init + [last];
      PiecesFrom(init);
      forall x ensures x in Pieces(moves) <==> exists m :: m in moves && m.piece == Some(x) {
        if x in Pieces(init) {
          var m :| m in init && m.piece == Some(x);
          assert m in moves;
        }
        if last.piece == Some(x) { assert last in moves; }
      }
    }
  }

  /** A move marks its lot, and sells it or a piece of it. */
  predicate SellsPart(m: Move) {
    && !Untouched(m.after) && m.after.id == m.before.id && m.after.parent == m.before.parent
    && if m.piece.None? then m.after.liquidation.Some?
       else m.piece.value.parent == Some(m.before.id) && m.piece.value.liquidation.Some?
            && m.after.liquidation == m.before.liquidation
  }

  lemma {:induction false} DrawSells(cfg: Config, fin: seq<FinTx>, sale: Tx, lots: seq<Tx>)
    ensures forall m :: m in DrawFor(RunMovers(cfg, fin), sale, lots).moves ==> SellsPart(m) && m.before in lots
  {
    var mover := SaleMover(cfg, fin, sale);
    SaleMoverLawful(cfg, fin, sale);
    forall n: Quantity, lot: Tx | !lot.checked && lot in lots ensures SellsPart(mover(n, lot)) {
      assert mover(n, lot) == MoveOn(cfg, fin, sale, n, lot);
    }
    TakeMoves(mover, sale.amount, lots, SellsPart);
  }

  // ----- One run -----

  /** Lot `b`, once `a`, is untouched exactly when `a` was and nothing of it was sold since. */
  ghost predicate MarkTells(a: Tx, b: Tx, created: seq<Tx>) {
    && a.id == b.id && b.parent.None?
    && (Untouched(b) <==> Untouched(a) && b.liquidation.None? && NoPart(created, a.id))
  }

  ghost predicate MarksTell(base: seq<Tx>, w: Work) {
    && |base| == |w.lots| && (forall i :: 0 <= i < |base| ==> MarkTells(base[i], w.lots[i], w.created))
    && forall x :: x in w.created && x.liquidation.Some? ==> Among(RootOf(x), base)
  }

  lemma {:induction false} SaleMarks(cfg: Config, fin: seq<FinTx>, sale: Tx, base: seq<Tx>, w: Work)
    requires MarksTell(base, w) && Distinct(IdOf, base)
    ensures MarksTell(base, ProcessSale(RunMovers(cfg, fin), cfg.halfUnit, sale, w))
  {
    var d := DrawFor(RunMovers(cfg, fin), sale, w.lots);
    var created := w.created + Pieces(d.moves);
    WorkLotsApart(base, w);
    SaleMoverLawful(cfg, fin, sale);
    TakeReaches(SaleMover(cfg, fin, sale), sale.amount, w.lots);
    DrawSells(cfg, fin, sale, w.lots);
    PiecesFrom(d.moves);
    forall i | 0 <= i < |base| ensures MarkTells(base[i], d.lots[i], created) {
      assert MarkTells(base[i], w.lots[i], w.created) && Reached(w.lots[i], d.lots[i], d.moves);
      LotMarks(base[i], w.lots[i], d.lots[i], w.created, d.moves);
    }
    PiecesAmong(base, w, d.moves);
  }

  lemma {:induction false} WorkLotsApart(base: seq<Tx>, w: Work)
    requires MarksTell(base, w) && Distinct(IdOf, base)
    ensures Distinct(IdOf, w.lots)
  {
    forall i, j | 0 <= i < j < |base| ensures IdOf(w.lots[i]) != IdOf(w.lots[j]) {
      assert MarkTells(base[i], w.lots[i], w.created) && MarkTells(base[j], w.lots[j], w.created);
      assert IdOf(base[i]) != IdOf(base[j]);
    }
  }

  lemma {:induction false} PiecesAmong(base: seq<Tx>, w: Work, moves: seq<Move>)
    requires MarksTell(base, w) && forall m :: m in moves ==> SellsPart(m) && m.before in w.lots
    requires forall x :: x in Pieces(moves) <==> exists m :: m in moves && m.piece == Some(x)
    ensures forall x :: x in w.created + Pieces(moves) && x.liquidation.Some? ==> Among(RootOf(x), base)
  {
    forall x | x in Pieces(moves) ensures Among(RootOf(x), base) {
      var m :| m in moves && m.piece == Some(x);
      var i :| 0 <= i < |w.lots| && w.lots[i] == m.before;
      assert SellsPart(m) && MarkTells(base[i], w.lots[i], w.created);
      assert base[i].id == RootOf(x);
    }
  }

  lemma {:induction false} LotMarks(a: Tx, b: Tx, c: Tx, created: seq<Tx>, moves: seq<Move>)
    requires MarkTells(a, b, created) && Reached(b, c, moves) && forall m :: m in moves ==> SellsPart(m)
    requires forall x :: x in Pieces(moves) <==> exists m :: m in moves && m.piece == Some(x)
    ensures MarkTells(a, c, created + Pieces(moves))
  {
    var all := created + Pieces(moves);
    if m :| m in moves && m.before == b && m.after == c {
      assert SellsPart(m);
      if m.piece.Some? {
        var x := m.piece.value;
        assert m.piece == Some(x);
        assert x in Pieces(moves);
        assert x in all && SoldPart(x, a.id);
      }
    } else {
      forall x | x in Pieces(moves) ensures !SoldPart(x, a.id) {
        var m :| m in moves && m.piece == Some(x);
        assert SellsPart(m) && m.before.id != b.id;
      }
      assert NoPart(all, a.id) <==> NoPart(created, a.id);
    }
  }

  lemma {:induction false} RunMarks(cfg: Config, fin: seq<FinTx>, sales: seq<Tx>, base: seq<Tx>, w: Work)
    requires MarksTell(base, w) && Distinct(IdOf, base)
    ensures MarksTell(base, ProcessSales(RunMovers(cfg, fin), cfg.halfUnit, sales, w))
    decreases |sales|
  {
    if |sales| > 0 {
      var init, sale := sales[..|sales| - 1], sales[|sales| - 1];
      RunMarks(cfg, fin, init, base, w);
      SaleMarks(cfg, fin, sale, base, ProcessSales(RunMovers(cfg, fin), cfg.halfUnit, init, w));
    }
  }

  // ----- The committed book -----

  lemma {:induction false} NotesUnsold(notes: seq<Tx>, w: Work)
    requires ApplyNotes(notes, w).Ok? && forall t :: t in w.created ==> t.liquidation.None?
    ensures forall t :: t in ApplyNotes(notes, w).work.created ==> t.liquidation.None?
    decreases |notes|
  {
    if |notes| > 0 { NotesUnsold(notes[..|notes| - 1], w); }
  }

  /** A calculation's own lots and splits tell what it sold. */
  lemma {:induction false} SettleMarks(cfg: Config, fin: seq<FinTx>, txs: seq<Tx>, d: int)
    requires Sound(txs) && Settle(cfg, fin, txs, d).Ok?
    ensures MarksTell(Opening(txs, d).work.lots, Settle(cfg, fin, txs, d).work)
    ensures SameIds(Lots(txs, d), Opening(txs, d).work.lots)
    ensures forall i :: 0 <= i < |Lots(txs, d)| ==>
              Untouched(Opening(txs, d).work.lots[i]) == Untouched(Lots(txs, d)[i])
  {
    var v, ps := Opening(txs, d).work, Purchases(txs, d);
    LotsAreThePurchases(txs, d);
    NotesUnsold(NotesBy(txs, d), Start(LotsBy(txs, d)));
    OpeningStages(txs, d);
    MembersShapes(txs, d);
    OpeningMarks(txs, d);
    OpenLotsUnsold(txs, d);
    assert Distinct(IdOf, v.lots) by {
      var ls := Lots(txs, d);
      forall i, j | 0 <= i < j < |ls| ensures IdOf(v.lots[i]) != IdOf(v.lots[j]) { assert IdOf(ls[i]) != IdOf(ls[j]); }
    }
    forall i | 0 <= i < |v.lots| ensures MarkTells(v.lots[i], v.lots[i], v.created) {
      assert PurchaseShape(v.lots[i]);
    }
    assert MarksTell(v.lots, v);
    RunMarks(cfg, fin, SortedSales(txs, d), v.lots, v);
  }

  /** Credit notes mark nothing. */
  lemma {:induction false} OpeningMarks(txs: seq<Tx>, d: int)
    requires Sound(txs) && Opening(txs, d).Ok?
    ensures var ls, v := Lots(txs, d), Opening(txs, d).work;
            |v.lots| == |ls| && forall i :: 0 <= i < |ls| ==> Untouched(v.lots[i]) == Untouched(ls[i])
  {
    var ps, ns, v := Purchases(txs, d), NotesBy(txs, d), Opening(txs, d).work;
    LotsAreThePurchases(txs, d);
    MembersShapes(txs, d);
    KindsApart(txs, d);
    OpeningStages(txs, d);
    NotesFrame(ns, Start(ps));
    ApplyNothing(ps);
    NotesStage(ns, Start(ps), ps);
    var u, qs, ls := v.updates, ApplyNotes(ns, Start(ps)).work.lots, Lots(txs, d);
    SortContents(ps);
    forall i | 0 <= i < |ls| ensures Untouched(v.lots[i]) == Untouched(ls[i]) {
      assert ls[i] in ls;
      var k :| 0 <= k < |ps| && ps[k] == ls[i];
      assert Apply(u, ps)[k] == qs[k] && Apply(u, ls)[i] == v.lots[i];
    }
  }

  lemma {:induction false} OpenLotsUnsold(txs: seq<Tx>, d: int)
    requires Sound(txs) && Opening(txs, d).Ok?
    ensures forall i :: 0 <= i < |Opening(txs, d).work.lots| ==>
              var t := Opening(txs, d).work.lots[i]; PurchaseShape(t) && t.liquidation.None?
  {
    var ps, v := Purchases(txs, d), Opening(txs, d).work;
    LotsAreThePurchases(txs, d);
    MembersShapes(txs, d);
    OpeningStages(txs, d);
    NotesFrame(NotesBy(txs, d), Start(ps));
    var qs := ApplyNotes(NotesBy(txs, d), Start(ps)).work.lots;
    SortContents(qs);
    forall i | 0 <= i < |v.lots| ensures v.lots[i].liquidation.None? {
      assert v.lots[i] in v.lots;
      var k :| 0 <= k < |qs| && qs[k] == v.lots[i];
      assert PurchaseShape(ps[k]) && !ps[k].checked;
    }
  }

  lemma {:induction false} PostedParts(created: seq<Tx>, s: State, id: nat)
    requires forall i :: 0 <= i < |created| ==> IsSplit(created[i])
    ensures NoPart(Posted(created, s), id) <==> NoPart(created, id)
  {
    UuidsKeep(created, s.nextUuid);
    var posted := Posted(created, s);
    forall i | 0 <= i < |created| ensures SoldPart(posted[i], id) == SoldPart(created[i], id) {}
    if NoPart(posted, id) {
      forall x | x in created ensures !SoldPart(x, id) {
        var i :| 0 <= i < |created| && created[i] == x;
        assert posted[i] in posted;
      }
    }
    if NoPart(created, id) {
      forall x | x in posted ensures !SoldPart(x, id) {
        var i :| 0 <= i < |posted| && posted[i] == x;
        assert created[i] in created;
      }
    }
  }

  /** The lots of family `id` that were sold before a calculation stay as they were. */
  lemma {:induction false} OldParts(cfg: Config, fin: seq<FinTx>, s: State, d: int, x: Tx)
    requires Inv(s) && Settle(cfg, fin, s.txs, d).Ok? && x in s.txs && !x.checked && PurchaseShape(x)
    ensures var u := Settle(cfg, fin, s.txs, d).work.updates;
            NoPart(Apply(u, s.txs), x.id) <==> NoPart(s.txs, x.id) && Lookup(u, x).liquidation.None?
  {
    var u, id := Settle(cfg, fin, s.txs, d).work.updates, x.id;
    var olds := Apply(u, s.txs);
    var k :| 0 <= k < |s.txs| && s.txs[k] == x;
    assert olds[k] == Lookup(u, x) && Evolves(x, olds[k]) by { SettleEvolves(cfg, fin, s.txs, d, x); }
    EvolvesShape(x, olds[k]);
    forall i | 0 <= i < |olds| && i != k ensures SoldPart(olds[i], id) == SoldPart(s.txs[i], id) {
      var t := s.txs[i];
      assert t in s.txs && olds[i] == Lookup(u, t);
      SettleEvolves(cfg, fin, s.txs, d, t);
      EvolvesShape(t, olds[i]);
      if i < k { assert IdOf(s.txs[i]) != IdOf(s.txs[k]); } else { assert IdOf(s.txs[k]) != IdOf(s.txs[i]); }
    }
    SamePlaces(s.txs, olds, k, id);
  }

  lemma {:induction false} SamePlaces(xs: seq<Tx>, ys: seq<Tx>, k: nat, id: nat)
    requires |xs| == |ys| && k < |xs| && RootOf(xs[k]) == RootOf(ys[k]) == id && xs[k].liquidation.None?
    requires forall i :: 0 <= i < |xs| && i != k ==> SoldPart(ys[i], id) == SoldPart(xs[i], id)
    ensures NoPart(ys, id) <==> NoPart(xs, id) && ys[k].liquidation.None?
  {
    if NoPart(ys, id) {
      forall t | t in xs ensures !SoldPart(t, id) {
        var i :| 0 <= i < |xs| && xs[i] == t;
        assert ys[i] in ys;
      }
      assert ys[k] in ys;
    }
    if NoPart(xs, id) && ys[k].liquidation.None? {
      forall t | t in ys ensures !SoldPart(t, id) {
        var i :| 0 <= i < |ys| && ys[i] == t;
        assert xs[i] in xs;
      }
    }
  }

  /** The sold lots of a family after a calculation: the old ones, the root itself, the new splits. */
  lemma {:induction false} PartsAfter(cfg: Config, fin: seq<FinTx>, s: State, d: int, x: Tx)
    requires Inv(s) && Settle(cfg, fin, s.txs, d).Ok? && x in s.txs && !x.checked && PurchaseShape(x)
    ensures var w := Settle(cfg, fin, s.txs, d).work;
            NoPart(Commit(s, w, SortedSales(s.txs, d)).txs, x.id)
            <==> NoPart(s.txs, x.id) && Lookup(w.updates, x).liquidation.None? && NoPart(w.created, x.id)
  {
    var w := Settle(cfg, fin, s.txs, d).work;
    CommitBook(cfg, fin, s, d);
    SettleCreates(cfg, fin, s.txs, d);
    OldParts(cfg, fin, s, d, x);
    forall i | 0 <= i < |w.created| ensures IsSplit(w.created[i]) { assert SplitShape(w.created[i]); }
    PostedParts(w.created, s, x.id);
  }

  lemma {:induction false} CommitMarks(cfg: Config, fin: seq<FinTx>, s: State, d: int)
    requires Inv(s) && Marked(s) && Settle(cfg, fin, s.txs, d).Ok?
    ensures Marked(Commit(s, Settle(cfg, fin, s.txs, d).work, SortedSales(s.txs, d)))
  {
    var w := Settle(cfg, fin, s.txs, d).work;
    var s' := Commit(s, w, SortedSales(s.txs, d));
    SettleMarks(cfg, fin, s.txs, d);
    forall t | t in s'.txs && PurchaseShape(t) ensures Untouched(t) <==> NoPart(s'.txs, t.id) {
      var x := RootBefore(cfg, fin, s, d, t);
      if x.checked {
        CheckedMark(cfg, fin, s, d, x);
      } else {
        PartsAfter(cfg, fin, s, d, x);
        OpenMark(cfg, fin, s, d, x);
      }
    }
    forall id: nat | id >= s'.nextId ensures NoPart(s'.txs, id) { NewParts(cfg, fin, s, d, id); }
  }

  /** A sold-out purchase stays sold out. */
  lemma {:induction false} CheckedMark(cfg: Config, fin: seq<FinTx>, s: State, d: int, x: Tx)
    requires Inv(s) && Settle(cfg, fin, s.txs, d).Ok? && x in s.txs && x.checked && PurchaseShape(x)
    ensures var w := Settle(cfg, fin, s.txs, d).work;
            Lookup(w.updates, x) == x && !Untouched(x) && !NoPart(Commit(s, w, SortedSales(s.txs, d)).txs, x.id)
  {
    var w := Settle(cfg, fin, s.txs, d).work;
    SettleEvolves(cfg, fin, s.txs, d, x);
    assert WellFormed(x) && Lookup(w.updates, x) == x;
    CommitBook(cfg, fin, s, d);
    var i :| 0 <= i < |s.txs| && s.txs[i] == x;
    assert Commit(s, w, SortedSales(s.txs, d)).txs[i] == x;
    assert SoldPart(x, x.id);
  }

  /** An open purchase keeps its mark in step with what is sold of it. */
  lemma {:induction false} OpenMark(cfg: Config, fin: seq<FinTx>, s: State, d: int, x: Tx)
    requires Inv(s) && Settle(cfg, fin, s.txs, d).Ok? && x in s.txs && !x.checked && PurchaseShape(x)
    ensures var w := Settle(cfg, fin, s.txs, d).work; var t := Lookup(w.updates, x);
            Untouched(t) <==> Untouched(x) && t.liquidation.None? && NoPart(w.created, x.id)
  {
    var w, ls, base := Settle(cfg, fin, s.txs, d).work, Lots(s.txs, d), Opening(s.txs, d).work.lots;
    SettleMarks(cfg, fin, s.txs, d);
    SortContents(Purchases(s.txs, d));
    if x in Purchases(s.txs, d) {
      var i :| 0 <= i < |ls| && ls[i] == x;
      SettleLots(cfg, fin, s.txs, d);
      assert Apply(w.updates, ls)[i] == w.lots[i];
      assert MarkTells(base[i], w.lots[i], w.created);
    } else {
      UncollectedMark(cfg, fin, s, d, x);
    }
  }

  lemma {:induction false} UncollectedMark(cfg: Config, fin: seq<FinTx>, s: State, d: int, x: Tx)
    requires Inv(s) && Settle(cfg, fin, s.txs, d).Ok? && x in s.txs && !x.checked && PurchaseShape(x)
             && x !in Purchases(s.txs, d)
    ensures var w := Settle(cfg, fin, s.txs, d).work; Lookup(w.updates, x) == x && NoPart(w.created, x.id)
  {
    var w, ls := Settle(cfg, fin, s.txs, d).work, Lots(s.txs, d);
    SettleMarks(cfg, fin, s.txs, d);
    CollectedShapes(s.txs, d);
    SettleOther(cfg, fin, s.txs, d, x);
    SortContents(Purchases(s.txs, d));
    NotAmong(s.txs, ls, x);
    AmongSame(x.id, ls, Opening(s.txs, d).work.lots);
  }

  lemma {:induction false} NewParts(cfg: Config, fin: seq<FinTx>, s: State, d: int, id: nat)
    requires Inv(s) && NoPart(s.txs, id) && Settle(cfg, fin, s.txs, d).Ok? && id >= s.nextId
    ensures NoPart(Commit(s, Settle(cfg, fin, s.txs, d).work, SortedSales(s.txs, d)).txs, id)
  {
    var w := Settle(cfg, fin, s.txs, d).work;
    CommitBook(cfg, fin, s, d);
    OldsUnsold(s.txs, Apply(w.updates, s.txs), id);
    NewSplits(cfg, fin, s, d, id);
  }

  lemma {:induction false} OldsUnsold(txs: seq<Tx>, olds: seq<Tx>, id: nat)
    requires AllWellFormed(txs) && AllEvolve(txs, olds) && NoPart(txs, id) && forall t :: t in txs ==> t.id != id
    ensures NoPart(olds, id)
  {
    forall t | t in olds ensures !SoldPart(t, id) {
      var i :| 0 <= i < |olds| && olds[i] == t;
      assert txs[i] in txs && Evolves(txs[i], olds[i]);
      OldPart(txs[i], t, id);
    }
  }

  lemma {:induction false} NewSplits(cfg: Config, fin: seq<FinTx>, s: State, d: int, id: nat)
    requires Inv(s) && Settle(cfg, fin, s.txs, d).Ok? && id >= s.nextId
    ensures NoPart(Posted(Settle(cfg, fin, s.txs, d).work.created, s), id)
  {
    var w, ls := Settle(cfg, fin, s.txs, d).work, Lots(s.txs, d);
    SettleCreates(cfg, fin, s.txs, d);
    SettleMarks(cfg, fin, s.txs, d);
    forall i | 0 <= i < |w.created| ensures IsSplit(w.created[i]) { assert SplitShape(w.created[i]); }
    PostedParts(w.created, s, id);
    assert !Among(id, ls) by { LotIds(s, d); }
    AmongSame(id, ls, Opening(s.txs, d).work.lots);
  }

  lemma {:induction false} LotIds(s: State, d: int)
    requires Valid(s)
    ensures forall i :: 0 <= i < |Lots(s.txs, d)| ==> Lots(s.txs, d)[i].id < s.nextId
  {
    var ls := Lots(s.txs, d);
    CollectedShapes(s.txs, d);
    SortContents(Purchases(s.txs, d));
    forall i | 0 <= i < |ls| ensures ls[i].id < s.nextId { assert ls[i] in ls && ls[i] in s.txs; }
  }

  lemma {:induction false} OldPart(a: Tx, b: Tx, id: nat)
    requires WellFormed(a) && Evolves(a, b) && !SoldPart(a, id) && a.id != id
    ensures !SoldPart(b, id)
  {
    EvolvesShape(a, b);
    if IsSplit(a) { assert SplitShape(a); }
  }

  // ----- Every run -----

  lemma {:induction false} ArriveMarks(s: State, f: FinTx, millis: nat)
    requires Inv(s) && Marked(s)
    ensures Marked(Arrive(s, f, millis))
  {
    var s' := Arrive(s, f, millis);
    if s' != s {
      var t := Replica(f, s.nextId, millis).value;
      ReplicaShape(f, s.nextId, millis);
      assert s'.txs == s.txs + [t] && t.liquidation.None?;
      forall id: nat ensures NoPart(s'.txs, id) <==> NoPart(s.txs, id) {
        assert forall x :: x in s.txs ==> x in s'.txs;
      }
    }
  }

  lemma {:induction false} DeleteMarks(s: State, f: FinTx)
    requires Inv(s) && Marked(s)
    ensures Marked(Delete(s, f))
  {
    var s', found := Delete(s, f), Filter(HasRemote(f.id), s.txs);
    FilterSound(HasRemote(f.id), s.txs);
    if f.posted && IsPurchaseDocument(f) && |found| > 0 {
      var root := found[0];
      assert root in found;
      FilterSound(OutOfFamily(root), s.txs);
      forall id: nat | id != root.id ensures NoPart(s'.txs, id) <==> NoPart(s.txs, id) {
        forall x | x in s.txs && x !in s'.txs
          ensures RootOf(x) != id { assert !OutOfFamily(root)(x) && WellFormed(x); SameRoot(s, root, x); }
      }
    }
  }

  lemma {:induction false} SameRoot(s: State, root: Tx, x: Tx)
    requires Inv(s) && root in s.txs && x in s.txs && !OutOfFamily(root)(x) && root.remote.Fin?
    ensures RootOf(x) == root.id && (x == root || PurchaseShape(root))
  {
    assert WellFormed(root);
    if x.id == root.id { SameIdSame(s.txs, x, root); }
  }

  lemma {:induction false} OriginUnmarked(txs: seq<Tx>)
    requires AllWellFormed(txs)
    ensures forall t :: t in Origin(txs) ==> t.liquidation.None? && !t.checked && (PurchaseShape(t) ==> Untouched(t))
  {
    var rs := Filter(IsReplica, txs);
    forall t | t in Origin(txs) ensures t.liquidation.None? && !t.checked && (PurchaseShape(t) ==> Untouched(t)) {
      var i :| 0 <= i < |rs| && Origin(txs)[i] == t;
      assert t == Fresh(rs[i]);
    }
  }

  lemma {:induction false} ResetMarks(s: State)
    requires Inv(s) && Marked(s)
    ensures Marked(ResetState(s))
  {
    if !ResetLocked(s) {
      assert ResetState(s).txs == Origin(s.txs) by { ResetGivesOrigin(s); }
      OriginUnmarked(s.txs);
    }
  }

  lemma {:induction false} StepMarks(cfg: Config, s: State, step: Step)
    requires Inv(s) && Marked(s)
    ensures Marked(Do(cfg, s, step))
  {
    match step
    case Arrival(f, millis) => ArriveMarks(s, f, millis);
    case Calculating(fin, d) =>
      if s.rebuild {
        ResetMarks(s);
      } else if Calculate(cfg, fin, s, d).0.Calculated? {
        CommitMarks(cfg, fin, s, d);
      }
    case Resetting => ResetMarks(s);
    case Deletion(f) => DeleteMarks(s, f);
    case Locking(ids, cogs) =>
  }

  /** In every reachable state a purchase is marked if and only if something of it was sold. */
  lemma {:induction false} MarksHold(cfg: Config, steps: seq<Step>)
    requires AdmissibleRun(cfg, steps) && cfg.halfUnit > 0.0
    ensures Marked(Run(cfg, steps))
    decreases |steps|
  {
    if |steps| > 0 {
      MarksHold(cfg, steps[..|steps| - 1]);
      RunKeeps(cfg, steps[..|steps| - 1]);
      StepMarks(cfg, Run(cfg, steps[..|steps| - 1]), steps[|steps| - 1]);
    }
  }
}
