/** One sale drawing on purchase lots in FIFO order. */
module Allocation {
  import opened Lists
  import opened Ledger

  // ----- Additional costs and credit notes of a purchase -----

  predicate InRange(f: FinTx, date: int) { date - QUERY_RANGE <= f.date < date + QUERY_RANGE }

  predicate IsAdditionalCost(f: FinTx, code: Option<string>) {
    f.checked && f.debitsGood && f.code == code && f.purchaseInvoice.Some? && f.purchaseInvoice != code
  }

  predicate IsCredit(f: FinTx, code: Option<string>) {
    !IsAdditionalCost(f, code) && f.checked && f.creditNote.Some? && f.code == code && f.creditsGood
  }

  function AdditionalCost(date: int, code: Option<string>): FinTx -> real {
    (f: FinTx) => if InRange(f, date) && IsAdditionalCost(f, code) then f.amount else 0.0
  }

  function CreditAmount(date: int, code: Option<string>): FinTx -> real {
    (f: FinTx) => if InRange(f, date) && IsCredit(f, code) then f.amount else 0.0
  }

  /** Not yet reached by a FIFO run. */
  predicate Untouched(lot: Tx) { lot.creditNote.None? && lot.addCosts.None? }

  /** The additional costs a draw on `lot` takes in: those of the Financial Book, the first time only. */
  function DueCosts(fin: seq<FinTx>, lot: Tx): real {
    if Untouched(lot) then SumBy(AdditionalCost(lot.date, lot.code), fin) else 0.0
  }

  function DueCredits(fin: seq<FinTx>, lot: Tx): real {
    if Untouched(lot) then SumBy(CreditAmount(lot.date, lot.code), fin) else 0.0
  }

  /** The updated cost of a lot: its total cost with the extras still due. */
  function UpdatedCost(fin: seq<FinTx>, lot: Tx): real { Cost(lot) + DueCosts(fin, lot) - DueCredits(fin, lot) }

  function UnitCost(cfg: Config, fin: seq<FinTx>, lot: Tx): real { (cfg.div)(UpdatedCost(fin, lot), lot.amount) }

  // ----- One draw -----

  function LiquidationOf(cfg: Config, fin: seq<FinTx>, sale: Tx, lot: Tx): Liquidation {
    Liquidation(sale.id, sale.date, sale.amount, UnitCost(cfg, fin, lot))
  }

  function AppliedNote(fin: seq<FinTx>, lot: Tx): NoteProp {
    Applied((if lot.originalQuantity.Some? then lot.originalQuantity.value else 0.0) - lot.amount, DueCredits(fin, lot))
  }

  /** A lot sold whole. */
  function Liquidated(cfg: Config, fin: seq<FinTx>, sale: Tx, lot: Tx): Tx {
    lot.(totalCost := Some(UpdatedCost(fin, lot)),
         liquidation := Some(LiquidationOf(cfg, fin, sale, lot)),
         addCosts := Some(DueCosts(fin, lot)),
         creditNote := Some(AppliedNote(fin, lot)),
         checked := true)
  }

  /** What is left of a lot after `taken` of it is sold. */
  function Remainder(cfg: Config, fin: seq<FinTx>, lot: Tx, taken: Quantity): Tx
    requires taken < lot.amount
  {
    lot.(amount := lot.amount - taken,
         totalCost := Some(UpdatedCost(fin, lot) - (cfg.times)(taken, UnitCost(cfg, fin, lot))),
         addCosts := Some(DueCosts(fin, lot)),
         creditNote := Some(AppliedNote(fin, lot)))
  }

  /** The split posted for the part sold. */
  function Piece(cfg: Config, fin: seq<FinTx>, sale: Tx, lot: Tx, taken: Quantity): Tx {
    Tx(0, Pending, lot.date, lot.order, None, lot.flow, taken, true, true, true, lot.code,
       Some((cfg.times)(taken, UnitCost(cfg, fin, lot))), None, None, Some(lot.id),
       Some(LiquidationOf(cfg, fin, sale, lot)), None, None, None)
  }

  /** One lot drawn on by one sale: before, after, and the split if it was not sold whole. */
  datatype Move = Move(before: Tx, after: Tx, piece: Option<Tx>) {
    /** The checked lot that names the sale. */
    function Sold(): Tx { if piece.Some? then piece.value else after }
  }

  /** How a sale that still needs some quantity draws on an open lot. */
  type Mover = (Quantity, Tx) -> Move

  function MoveOn(cfg: Config, fin: seq<FinTx>, sale: Tx, need: Quantity, lot: Tx): Move {
    if need >= lot.amount then Move(lot, Liquidated(cfg, fin, sale, lot), None)
    else Move(lot, Remainder(cfg, fin, lot, need), Some(Piece(cfg, fin, sale, lot, need)))
  }

  function SaleMover(cfg: Config, fin: seq<FinTx>, sale: Tx): Mover {
    (need: Quantity, lot: Tx) => MoveOn(cfg, fin, sale, need, lot)
  }

  /** A sale's pass over the lots: the lots after it, the lots it drew on, what it still needs. */
  datatype Draw = Draw(lots: seq<Tx>, moves: seq<Move>, left: Quantity)

  /** Passes over checked lots and draws on open ones until nothing more is needed. */
  function Take(mover: Mover, need: Quantity, lots: seq<Tx>): Draw
    decreases |lots|
  {
    if |lots| == 0 then Draw([], [], need)
    else if lots[0].checked then
      var d := Take(mover, need, lots[1..]);
      Draw([lots[0]] + d.lots, d.moves, d.left)
    else
      var m := mover(need, lots[0]);
      if m.Sold().amount >= need then Draw([m.after] + lots[1..], [m], 0.0)
      else
        var d := Take(mover, need - m.Sold().amount, lots[1..]);
        Draw([m.after] + d.lots, [m] + d.moves, d.left)
  }

  function EntryOf(m: Move): Entry {
    Entry(m.before.id, m.Sold().amount, if m.Sold().liquidation.Some? then m.Sold().liquidation.value.unitCost else 0.0)
  }

  /** The purchase log of a sale. */
  function Entries(moves: seq<Move>): seq<Entry> {
    if |moves| == 0 then [] else Entries(moves[..|moves| - 1]) + [EntryOf(moves[|moves| - 1])]
  }

  function PieceList(m: Move): seq<Tx> { if m.piece.Some? then [m.piece.value] else [] }

  /** The splits posted for a sale. */
  function Pieces(moves: seq<Move>): seq<Tx> {
    if |moves| == 0 then [] else Pieces(moves[..|moves| - 1]) + PieceList(moves[|moves| - 1])
  }

  function SoldCost(m: Move): real { Cost(m.Sold()) }
  function SoldQuantity(m: Move): real { m.Sold().amount }

  /** The cost of a sale. */
  function MovedCost(moves: seq<Move>): real { SumBy(SoldCost, moves) }

  // ----- What every draw keeps -----

  /** Fields of a lot that no draw changes; a checked lot is not changed at all. */
  predicate SameLot(a: Tx, b: Tx) {
    && b == a.(amount := b.amount, totalCost := b.totalCost, liquidation := b.liquidation,
               addCosts := b.addCosts, creditNote := b.creditNote, checked := b.checked)
    && (a.checked ==> b == a)
  }

  ghost predicate SameLots(xs: seq<Tx>, ys: seq<Tx>) {
    |xs| == |ys| && forall i :: 0 <= i < |xs| ==> SameLot(xs[i], ys[i])
  }

  /** Every open lot has something in it, so its unit cost is defined. */
  ghost predicate Ready(lots: seq<Tx>) {
    forall i :: 0 <= i < |lots| ==> lots[i].checked || lots[i].amount > 0.0
  }

  function OpenQuantity(t: Tx): real { if t.checked then 0.0 else t.amount }

  /** The quantities of a move: the lot is sold whole and checked, or keeps the rest. */
  ghost predicate LawfulMove(need: Quantity, lot: Tx, m: Move) {
    && m.before == lot
    && m.after.checked == (need >= lot.amount || lot.checked)
    && m.Sold().amount == (if need >= lot.amount then lot.amount else need)
    && m.after.amount == (if need >= lot.amount then lot.amount else lot.amount - need)
  }

  ghost predicate Lawful(mover: Mover) {
    forall need: Quantity, lot: Tx {:trigger mover(need, lot)} :: LawfulMove(need, lot, mover(need, lot))
  }

  ghost predicate Framed(mover: Mover) {
    forall need: Quantity, lot: Tx {:trigger mover(need, lot)} :: !lot.checked ==> SameLot(lot, mover(need, lot).after)
  }

  // ----- One lot of a draw -----

  lemma {:induction false} TakeClosed(mover: Mover, need: Quantity, lot: Tx, rest: seq<Tx>)
    requires lot.checked
    ensures var d := Take(mover, need, rest); Take(mover, need, [lot] + rest) == Draw([lot] + d.lots, d.moves, d.left)
  {
    assert ([lot] + rest)[0] == lot && ([lot] + rest)[1..] == rest;
  }

  /** The last lot drawn on. */
  lemma {:induction false} TakeLast(mover: Mover, need: Quantity, lot: Tx, rest: seq<Tx>)
    requires Lawful(mover) && !lot.checked && need <= lot.amount
    ensures var m := mover(need, lot);
            Take(mover, need, [lot] + rest) == Draw([m.after] + rest, [m], 0.0) && LawfulMove(need, lot, m)
  {
    assert ([lot] + rest)[0] == lot && ([lot] + rest)[1..] == rest;
    assert LawfulMove(need, lot, mover(need, lot));
  }

  /** A lot sold whole with more still needed. */
  lemma {:induction false} TakeOn(mover: Mover, need: Quantity, lot: Tx, rest: seq<Tx>)
    requires Lawful(mover) && !lot.checked && lot.amount < need
    ensures var m, d := mover(need, lot), Take(mover, need - lot.amount, rest);
            Take(mover, need, [lot] + rest) == Draw([m.after] + d.lots, [m] + d.moves, d.left)
              && LawfulMove(need, lot, m)
  {
    assert ([lot] + rest)[0] == lot && ([lot] + rest)[1..] == rest;
    assert LawfulMove(need, lot, mover(need, lot));
  }

  lemma {:induction false} SaleMoverLawful(cfg: Config, fin: seq<FinTx>, sale: Tx)
    ensures Lawful(SaleMover(cfg, fin, sale))
  {
    forall need: Quantity, lot: Tx ensures LawfulMove(need, lot, SaleMover(cfg, fin, sale)(need, lot)) {
      MoveOnLawful(cfg, fin, sale, need, lot);
    }
  }

  lemma {:induction false} MoveOnLawful(cfg: Config, fin: seq<FinTx>, sale: Tx, need: Quantity, lot: Tx)
    ensures LawfulMove(need, lot, MoveOn(cfg, fin, sale, need, lot))
  {}

  lemma {:induction false} SaleMoverFramed(cfg: Config, fin: seq<FinTx>, sale: Tx)
    ensures Framed(SaleMover(cfg, fin, sale))
  {
    forall need: Quantity, lot: Tx | !lot.checked ensures SameLot(lot, SaleMover(cfg, fin, sale)(need, lot).after) {
      MoveOnFramed(cfg, fin, sale, need, lot);
    }
  }

  lemma {:induction false} MoveOnFramed(cfg: Config, fin: seq<FinTx>, sale: Tx, need: Quantity, lot: Tx)
    requires !lot.checked
    ensures SameLot(lot, MoveOn(cfg, fin, sale, need, lot).after)
  {}

  lemma {:induction false} TakeFrame(mover: Mover, need: Quantity, lots: seq<Tx>)
    requires Lawful(mover) && Framed(mover)
    ensures SameLots(lots, Take(mover, need, lots).lots)
    ensures Ready(lots) ==> Ready(Take(mover, need, lots).lots)
    decreases |lots|
  {
    if |lots| > 0 {
      var lot, rest := lots[0], lots[1..];
      assert lots == [lot] + rest;
      if lot.checked {
        TakeFrame(mover, need, rest);
        FrameCons(lot, lot, rest, Take(mover, need, rest).lots);
      } else {
        var sold := mover(need, lot).Sold().amount;
        if sold < need { TakeFrame(mover, need - sold, rest); }
        TakeFrameOpen(mover, need, lot, rest);
      }
    }
  }

  lemma {:induction false} TakeFrameOpen(mover: Mover, need: Quantity, lot: Tx, rest: seq<Tx>)
    requires Lawful(mover) && Framed(mover) && !lot.checked
    requires var sold := mover(need, lot).Sold().amount;
             sold < need ==> var d := Take(mover, need - sold, rest);
               SameLots(rest, d.lots) && (Ready(rest) ==> Ready(d.lots))
    ensures var d := Take(mover, need, [lot] + rest);
            SameLots([lot] + rest, d.lots) && (Ready([lot] + rest) ==> Ready(d.lots))
  {
    var m := mover(need, lot);
    assert ([lot] + rest)[1..] == rest && LawfulMove(need, lot, m);
    FrameCons(lot, m.after, rest,
              if m.Sold().amount < need then Take(mover, need - m.Sold().amount, rest).lots else rest);
  }

  lemma {:induction false} FrameCons(lot: Tx, lot': Tx, rest: seq<Tx>, rest': seq<Tx>)
    requires SameLot(lot, lot') && SameLots(rest, rest') && (Ready(rest) ==> Ready(rest'))
    requires lot.checked || lot.amount > 0.0 ==> lot'.checked || lot'.amount > 0.0
    ensures SameLots([lot] + rest, [lot'] + rest') && (Ready([lot] + rest) ==> Ready([lot'] + rest'))
  {
    if Ready([lot] + rest) {
      forall i | 0 <= i < |rest|
        ensures rest[i].checked || rest[i].amount > 0.0 { assert ([lot] + rest)[i + 1] == rest[i]; }
      assert ([lot] + rest)[0] == lot;
    }
  }

  /** A reflexive relation that every possible move keeps relates the lots before and after. */
  lemma {:induction false} TakeRelates(mover: Mover, need: Quantity, lots: seq<Tx>, r: (Tx, Tx) -> bool)
    requires forall t :: r(t, t)
    requires forall n: Quantity, lot: Tx {:trigger mover(n, lot)} :: !lot.checked && lot in lots ==>
               r(lot, mover(n, lot).after)
    ensures |Take(mover, need, lots).lots| == |lots|
    ensures forall i :: 0 <= i < |lots| ==> r(lots[i], Take(mover, need, lots).lots[i])
    decreases |lots|
  {
    if |lots| > 0 {
      var lot, rest := lots[0], lots[1..];
      assert forall t :: t in rest ==> t in lots;
      if lot.checked {
        TakeRelates(mover, need, rest, r);
      } else {
        var m := mover(need, lot);
        if m.Sold().amount < need {
          TakeRelates(mover, need - m.Sold().amount, rest, r);
        }
      }
    }
  }

  /** Whatever holds of every possible move holds of the moves of a draw. */
  lemma {:induction false} TakeMoves(mover: Mover, need: Quantity, lots: seq<Tx>, p: Move -> bool)
    requires Lawful(mover)
    requires forall n: Quantity, lot: Tx {:trigger mover(n, lot)} :: !lot.checked && lot in lots ==> p(mover(n, lot))
    ensures forall m :: m in Take(mover, need, lots).moves ==> p(m) && m.before in lots
    decreases |lots|
  {
    if |lots| > 0 {
      assert forall t :: t in lots[1..] ==> t in lots;
      if lots[0].checked {
        TakeMoves(mover, need, lots[1..], p);
      } else {
        var m := mover(need, lots[0]);
        if m.Sold().amount < need {
          TakeMoves(mover, need - m.Sold().amount, lots[1..], p);
        }
      }
    }
  }

  function Change(f: Tx -> real): Move -> real { (m: Move) => f(m.after) - f(m.before) }

  function PieceWeight(f: Tx -> real): Move -> real { (m: Move) => if m.piece.Some? then f(m.piece.value) else 0.0 }

  /** A draw changes any sum over the lots by what its moves change. */
  lemma {:induction false} TakeSum(mover: Mover, need: Quantity, lots: seq<Tx>, f: Tx -> real)
    requires Lawful(mover)
    ensures var d := Take(mover, need, lots);
            SumBy(f, d.lots) == SumBy(f, lots) + SumBy(Change(f), d.moves)
    decreases |lots|
  {
    if |lots| > 0 {
      var lot, rest := lots[0], lots[1..];
      assert lots == [lot] + rest;
      SumCons(f, lot, rest);
      if lot.checked {
        TakeSum(mover, need, rest, f);
        SumCons(f, lot, Take(mover, need, rest).lots);
      } else {
        var m := mover(need, lot);
        if m.Sold().amount >= need {
          SumCons(f, m.after, rest);
          SumCons(Change(f), m, []);
          assert [m] + [] == [m];
        } else {
          var left := need - m.Sold().amount;
          TakeSum(mover, left, rest, f);
          SumCons(f, m.after, Take(mover, left, rest).lots);
          SumCons(Change(f), m, Take(mover, left, rest).moves);
        }
      }
    }
  }

  lemma {:induction false} PiecesSum(moves: seq<Move>, f: Tx -> real)
    ensures SumBy(f, Pieces(moves)) == SumBy(PieceWeight(f), moves)
  {
    if |moves| > 0 {
      var init, m := moves[..|moves| - 1], moves[|moves| - 1];
      PiecesSum(init, f);
      if m.piece.Some? {
        SumSnoc(f, Pieces(init), m.piece.value);
      } else {
        assert Pieces(init) + [] == Pieces(init);
      }
    }
  }

  function EntryWeight(g: Entry -> real): Move -> real { (m: Move) => g(EntryOf(m)) }

  lemma {:induction false} EntriesLength(moves: seq<Move>)
    ensures |Entries(moves)| == |moves|
  {
    if |moves| > 0 { EntriesLength(moves[..|moves| - 1]); }
  }

  lemma {:induction false} EntriesSum(moves: seq<Move>, g: Entry -> real)
    ensures SumBy(g, Entries(moves)) == SumBy(EntryWeight(g), moves)
    ensures |Entries(moves)| == |moves|
  {
    if |moves| > 0 {
      EntriesSum(moves[..|moves| - 1], g);
      SumSnoc(g, Entries(moves[..|moves| - 1]), EntryOf(moves[|moves| - 1]));
    }
  }

  /** The exchange law: when every possible move changes `f` by `delta`, counting its split,
      a draw changes the sum of `f` over lots and splits by the sum of `delta`. */
  lemma {:induction false} TakeExchange(mover: Mover, need: Quantity, lots: seq<Tx>, f: Tx -> real, delta: Move -> real)
    requires Lawful(mover)
    requires forall n: Quantity, lot: Tx {:trigger mover(n, lot)} ::
               !lot.checked && lot in lots ==>
                 Change(f)(mover(n, lot)) + PieceWeight(f)(mover(n, lot)) == delta(mover(n, lot))
    ensures var d := Take(mover, need, lots);
            SumBy(f, d.lots) + SumBy(f, Pieces(d.moves)) == SumBy(f, lots) + SumBy(delta, d.moves)
  {
    var d := Take(mover, need, lots);
    TakeSum(mover, need, lots, f);
    PiecesSum(d.moves, f);
    TakeMoves(mover, need, lots, m => Change(f)(m) + PieceWeight(f)(m) == delta(m));
    SumTogether(Change(f), PieceWeight(f), delta, d.moves);
  }

  /** What a draw leaves unfilled, sells, and leaves open. */
  ghost predicate Fills(need: Quantity, lots: seq<Tx>, d: Draw) {
    && d.left == (if need <= SumBy(OpenQuantity, lots) then 0.0 else need - SumBy(OpenQuantity, lots))
    && SumBy(SoldQuantity, d.moves) == need - d.left
    && SumBy(OpenQuantity, d.lots) == SumBy(OpenQuantity, lots) - (need - d.left)
    && (need > 0.0 && d.left == 0.0 ==> |d.moves| > 0)
  }

  /** A draw takes exactly what it needs, or everything there is. */
  lemma {:induction false} TakeFills(mover: Mover, need: Quantity, lots: seq<Tx>)
    requires Lawful(mover)
    ensures Fills(need, lots, Take(mover, need, lots))
    decreases |lots|
  {
    if |lots| > 0 {
      var lot, rest := lots[0], lots[1..];
      assert lots == [lot] + rest;
      if lot.checked {
        TakeFills(mover, need, rest);
        SumCons(OpenQuantity, lot, rest);
        SumCons(OpenQuantity, lot, Take(mover, need, rest).lots);
      } else {
        if lot.amount < need { TakeFills(mover, need - lot.amount, rest); }
        TakeFillsOpen(mover, need, lot, rest);
      }
    }
  }

  lemma {:induction false} TakeFillsOpen(mover: Mover, need: Quantity, lot: Tx, rest: seq<Tx>)
    requires Lawful(mover) && !lot.checked
    requires lot.amount < need ==> Fills(need - lot.amount, rest, Take(mover, need - lot.amount, rest))
    ensures Fills(need, [lot] + rest, Take(mover, need, [lot] + rest))
  {
    var m := mover(need, lot);
    assert ([lot] + rest)[1..] == rest;
    SumCons(OpenQuantity, lot, rest);
    assert SumBy(OpenQuantity, rest) >= 0.0 by { SumNonNeg(OpenQuantity, rest); }
    assert LawfulMove(need, lot, m);
    if m.Sold().amount >= need {
      assert Take(mover, need, [lot] + rest) == Draw([m.after] + rest, [m], 0.0);
      SumCons(OpenQuantity, m.after, rest);
      SumCons(SoldQuantity, m, []);
      assert [m] + [] == [m];
    } else {
      var d := Take(mover, need - lot.amount, rest);
      assert Take(mover, need, [lot] + rest) == Draw([m.after] + d.lots, [m] + d.moves, d.left);
      SumCons(OpenQuantity, m.after, d.lots);
      SumCons(SoldQuantity, m, d.moves);
    }
  }
}
