/** The loop of one sale over the lots, in place, against the recursive draw. */
module SaleLoop {
  import opened Lists
  import opened Ledger
  import opened Allocation
  import opened Settlement
  import opened Calculation
  import opened Stores
  import opened CalculateProcessor

  // ----- Additional costs and credit notes -----

  /** Sums the additional costs and the credits of a purchase over the Financial Book. */
  method GetAdditionalCostsAndCreditNotes(docs: seq<FinTx>, lot: Tx) returns (costs: real, credits: real)
    ensures costs == SumBy(AdditionalCost(lot.date, lot.code), docs)
    ensures credits == SumBy(CreditAmount(lot.date, lot.code), docs)
  {
    costs, credits := 0.0, 0.0;
    for k := 0 to |docs|
      invariant costs == SumBy(AdditionalCost(lot.date, lot.code), docs[..k])
      invariant credits == SumBy(CreditAmount(lot.date, lot.code), docs[..k])
    {
      var f := docs[k];
      if lot.date - QUERY_RANGE <= f.date && f.date < lot.date + QUERY_RANGE {
        if f.checked && f.debitsGood && f.code == lot.code && f.purchaseInvoice.Some? && f.purchaseInvoice != lot.code {
          costs := costs + f.amount;
        } else if f.checked && f.creditNote.Some? && f.code == lot.code && f.creditsGood {
          credits := credits + f.amount;
        }
      }
      assert docs[..k + 1] == docs[..k] + [f];
      SumSnoc(AdditionalCost(lot.date, lot.code), docs[..k], f);
      SumSnoc(CreditAmount(lot.date, lot.code), docs[..k], f);
    }
    assert docs[..|docs|] == docs;
  }

  // ----- The state of the loop -----

  /** What the loop of a sale starts from: how the sale draws, what it asks for, the lots, the staged
      updates and splits, and the next UUID. */
  datatype Outset = Outset(
    mover: Mover, amount: Quantity, lots: seq<Tx>, updates: map<nat, Tx>, created: seq<Tx>, uuid: nat)

  /** What a sale still needs, costs so far, and logs so far. */
  datatype Totals = Totals(need: Quantity, cost: real, entries: seq<Entry>)

  /** The lots have been drawn on up to place `|drawn|` by `moves`, and `need` is still open. */
  ghost predicate Midway(o: Outset, drawn: seq<Tx>, moves: seq<Move>, need: Quantity) {
    && |drawn| <= |o.lots|
    && var rest := Take(o.mover, need, o.lots[|drawn|..]);
       Take(o.mover, o.amount, o.lots) == Draw(drawn + rest.lots, moves + rest.moves, rest.left)
  }

  lemma {:induction false} MidwayStart(o: Outset)
    ensures Midway(o, [], [], o.amount)
  {
    assert o.lots[0..] == o.lots;
    var d := Take(o.mover, o.amount, o.lots);
    assert [] + d.lots == d.lots && [] + d.moves == d.moves;
  }

  lemma {:induction false} MidwayChecked(o: Outset, drawn: seq<Tx>, moves: seq<Move>, need: Quantity)
    requires Midway(o, drawn, moves, need) && |drawn| < |o.lots| && o.lots[|drawn|].checked
    ensures Midway(o, drawn + [o.lots[|drawn|]], moves, need)
  {
    var here := o.lots[|drawn|..];
    assert here[0] == o.lots[|drawn|] && here[1..] == o.lots[|drawn| + 1..];
    var rest := Take(o.mover, need, here[1..]);
    assert drawn + ([here[0]] + rest.lots) == drawn + [here[0]] + rest.lots;
  }

  lemma {:induction false} MidwayMove(o: Outset, drawn: seq<Tx>, moves: seq<Move>, need: Quantity, m: Move,
                                      left: Quantity)
    requires Midway(o, drawn, moves, need) && |drawn| < |o.lots| && !o.lots[|drawn|].checked
    requires m == o.mover(need, o.lots[|drawn|]) && m.Sold().amount < need && left == need - m.Sold().amount
    ensures Midway(o, drawn + [m.after], moves + [m], left)
  {
    var here := o.lots[|drawn|..];
    assert here[0] == o.lots[|drawn|] && here[1..] == o.lots[|drawn| + 1..];
    var rest := Take(o.mover, left, here[1..]);
    assert drawn + ([m.after] + rest.lots) == drawn + [m.after] + rest.lots;
    assert moves + ([m] + rest.moves) == moves + [m] + rest.moves;
  }

  lemma {:induction false} MidwayLast(o: Outset, drawn: seq<Tx>, moves: seq<Move>, need: Quantity)
    requires Midway(o, drawn, moves, need) && |drawn| < |o.lots| && !o.lots[|drawn|].checked
    requires o.mover(need, o.lots[|drawn|]).Sold().amount >= need
    ensures var m := o.mover(need, o.lots[|drawn|]);
            Take(o.mover, o.amount, o.lots) == Draw(drawn + [m.after] + o.lots[|drawn| + 1..], moves + [m], 0.0)
  {
    var here, m := o.lots[|drawn|..], o.mover(need, o.lots[|drawn|]);
    assert here[0] == o.lots[|drawn|] && here[1..] == o.lots[|drawn| + 1..];
    assert drawn + ([m.after] + here[1..]) == drawn + [m.after] + here[1..];
  }

  lemma {:induction false} MidwayEnd(o: Outset, drawn: seq<Tx>, moves: seq<Move>, need: Quantity)
    requires Midway(o, drawn, moves, need) && |drawn| == |o.lots|
    ensures Take(o.mover, o.amount, o.lots) == Draw(drawn, moves, need)
  {
    assert o.lots[|drawn|..] == [];
    assert drawn + [] == drawn && moves + [] == moves;
  }

  lemma {:induction false} MovesSnoc(moves: seq<Move>, m: Move)
    ensures MovedCost(moves + [m]) == MovedCost(moves) + SoldCost(m)
            && Entries(moves + [m]) == Entries(moves) + [EntryOf(m)]
    ensures Pieces(moves + [m]) == Pieces(moves) + PieceList(m)
    ensures forall u: map<nat, Tx> :: Stage(u, moves + [m]) == Stage(u, moves)[m.after.id := m.after]
  {
    assert (moves + [m])[..|moves|] == moves;
    SumSnoc(SoldCost, moves, m);
  }

  function WithUuid(x: Tx, uuid: nat): Tx { if x.remote.Pending? then x.(remote := Uuid(uuid)) else x }

  lemma {:induction false} UuidSnoc(xs: seq<Tx>, x: Tx, uuid: nat)
    ensures WithUuids(xs + [x], uuid) == WithUuids(xs, uuid) + [WithUuid(x, uuid + PendingCount(xs))]
    ensures PendingCount(xs + [x]) == PendingCount(xs) + if x.remote.Pending? then 1 else 0
  {
    assert (xs + [x])[..|xs|] == xs;
  }

  // ----- One lot -----

  /** The updated cost of a lot and its unit cost; extras are looked up the first time only. */
  method Price(cfg: Config, docs: seq<FinTx>, lot: Tx)
    returns (additional: real, credits: real, updated: real, unit: real)
    requires lot.amount > 0.0
    ensures additional == DueCosts(docs, lot) && credits == DueCredits(docs, lot)
    ensures updated == UpdatedCost(docs, lot) && unit == UnitCost(cfg, docs, lot)
  {
    additional, credits := 0.0, 0.0;
    if lot.creditNote.None? && lot.addCosts.None? {
      additional, credits := GetAdditionalCostsAndCreditNotes(docs, lot);
    }
    updated := Cost(lot) + additional - credits;
    unit := (cfg.div)(updated, lot.amount);
  }

  /** A lot sold whole, written out. */
  lemma {:induction false} WholeMove(cfg: Config, fin: seq<FinTx>, sale: Tx, need: Quantity, lot: Tx, note: NoteProp,
                                     log: Liquidation, after: Tx)
    requires need >= lot.amount && note == AppliedNote(fin, lot) && log == LiquidationOf(cfg, fin, sale, lot)
    requires after
         == lot.(totalCost := Some(UpdatedCost(fin, lot)), liquidation := Some(log),
                 addCosts := Some(DueCosts(fin, lot)),
                           creditNote := Some(note), checked := true)
    ensures var m := MoveOn(cfg, fin, sale, need, lot);
            m == Move(lot, after, None) && SoldCost(m) == UpdatedCost(fin, lot)
              && EntryOf(m) == Entry(lot.id, lot.amount, UnitCost(cfg, fin, lot))
  {}

  /** A lot split, written out. */
  lemma {:induction false} SplitMove(cfg: Config, fin: seq<FinTx>, sale: Tx, need: Quantity, lot: Tx, note: NoteProp,
                                     log: Liquidation, cost: real, after: Tx, split: Tx)
    requires need < lot.amount && note == AppliedNote(fin, lot) && log == LiquidationOf(cfg, fin, sale, lot)
    requires cost == (cfg.times)(need, UnitCost(cfg, fin, lot))
    requires after
         == lot.(amount := lot.amount - need, totalCost := Some(UpdatedCost(fin, lot) - cost),
                 addCosts := Some(DueCosts(fin, lot)),
                           creditNote := Some(note))
    requires split
         == Tx(0, split.remote, lot.date, lot.order, None, lot.flow, need, true, true, true, lot.code, Some(cost),
               None, None,
                         Some(lot.id), Some(log), None, None, None)
    ensures var m := MoveOn(cfg, fin, sale, need, lot);
            && m == Move(lot, after, Some(split.(remote := Pending))) && SoldCost(m) == cost
            && EntryOf(m) == Entry(lot.id, need, UnitCost(cfg, fin, lot))
  {}

  function Numbered(m: Move, uuid: nat): seq<Tx> {
    if m.piece.Some? then [m.piece.value.(remote := Uuid(uuid))] else []
  }

  /** Stages the part of a lot that was sold, under a new UUID. */
  method StageSplit(split: Tx, processor: CalculateCostOfSalesProcessor)
    requires processor.Valid()
    modifies processor`toCreate, processor.inventory`nextUuid
    ensures processor.Valid() && processor.inventory.nextUuid == old(processor.inventory.nextUuid) + 1
    ensures processor.toCreate == old(processor.toCreate) + [split.(remote := Uuid(old(processor.inventory.nextUuid)))]
  {
    var uuid := processor.inventory.GenerateId();
    NewRemote(processor.toCreate, split.(remote := uuid));
    processor.SetToCreate(split.(remote := uuid));
  }

  /** Draws on the open lot at place `j`: sells it whole, or splits it. */
  method DrawOnLot(cfg: Config, sale: Tx, need: Quantity, lots: array<Tx>, j: nat,
                   processor: CalculateCostOfSalesProcessor, ghost m: Move)
    returns (taken: Quantity, cost: real, entry: Entry)
    requires processor.Valid() && j < lots.Length && lots[j].amount > 0.0
    requires m == MoveOn(cfg, processor.financial.docs, sale, need, lots[j])
    modifies lots, processor`toUpdate, processor`toCreate, processor`anyLocked, processor.inventory`nextUuid
    ensures processor.Valid() && lots[..] == old(lots[..])[j := m.after]
    ensures processor.toUpdate == old(processor.toUpdate)[m.after.id := m.after]
    ensures processor.toCreate == old(processor.toCreate) + Numbered(m, old(processor.inventory.nextUuid))
    ensures processor.inventory.nextUuid == old(processor.inventory.nextUuid) + |Numbered(m, 0)|
    ensures taken == m.Sold().amount && cost == SoldCost(m) && entry == EntryOf(m)
  {
    var lot, docs := lots[j], processor.financial.docs;
    var additional, credits, updated, unit := Price(cfg, docs, lot);
    var note := Applied((if lot.originalQuantity.Some? then lot.originalQuantity.value else 0.0) - lot.amount, credits);
    var log := Liquidation(sale.id, sale.date, sale.amount, unit);
    if need >= lot.amount {
      taken, cost := lot.amount, updated;
      var after := lot.(totalCost := Some(updated), liquidation := Some(log), addCosts := Some(additional),
                        creditNote := Some(note), checked := true);
      lots[j] := after;
      processor.SetToUpdate(after);
      WholeMove(cfg, docs, sale, need, lot, note, log, after);
    } else {
      var remaining := lot.amount - need;
      taken := lot.amount - remaining;
      cost := (cfg.times)(taken, unit);
      var after := lot.(amount := remaining, totalCost := Some(updated - cost), addCosts := Some(additional),
                        creditNote := Some(note));
      lots[j] := after;
      processor.SetToUpdate(after);
      var split := Tx(0, Pending, lot.date, lot.order, None, lot.flow, taken, true, true, true, lot.code, Some(cost),
                      None, None,
                      Some(lot.id), Some(log), None, None, None);
      StageSplit(split, processor);
      SplitMove(cfg, docs, sale, need, lot, note, log, cost, after, split);
    }
    entry := Entry(lot.id, taken, unit);
  }

  /** A freshly drawn UUID is a new key. */
  lemma {:induction false} NewRemote(xs: seq<Tx>, x: Tx)
    requires x.remote.Uuid? && forall t :: t in xs ==> t.remote.Uuid? ==> t.remote.n < x.remote.n
    ensures PutBy(RemoteOf, xs, x) == xs + [x]
  {
    PutFresh(RemoteOf, xs, x);
  }

  // ----- One sale -----

  /** What the processor holds after some moves of the loop. */
  ghost predicate Staged(processor: CalculateCostOfSalesProcessor, o: Outset, moves: seq<Move>)
    reads processor, processor.inventory
  {
    && processor.toUpdate == Stage(o.updates, moves)
    && processor.toCreate == o.created + WithUuids(Pieces(moves), o.uuid)
    && processor.inventory.nextUuid == o.uuid + PendingCount(Pieces(moves))
  }

  lemma {:induction false} NumberedSnoc(moves: seq<Move>, m: Move, uuid: nat)
    requires m.piece.Some? ==> m.piece.value.remote.Pending?
    ensures WithUuids(Pieces(moves + [m]), uuid)
         == WithUuids(Pieces(moves), uuid) + Numbered(m, uuid + PendingCount(Pieces(moves)))
    ensures PendingCount(Pieces(moves + [m])) == PendingCount(Pieces(moves)) + |Numbered(m, 0)|
  {
    MovesSnoc(moves, m);
    if m.piece.Some? {
      UuidSnoc(Pieces(moves), m.piece.value, uuid);
    } else {
      assert Pieces(moves) + [] == Pieces(moves);
    }
  }

  /** `mover` draws on lots as this sale does. */
  ghost predicate Draws(mover: Mover, cfg: Config, docs: seq<FinTx>, sale: Tx) {
    forall n: Quantity, lot: Tx {:trigger MoveOn(cfg, docs, sale, n, lot)} ::
      mover(n, lot) == MoveOn(cfg, docs, sale, n, lot)
  }

  lemma {:induction false} Regroup(xs: seq<Tx>, ys: seq<Tx>, zs: seq<Tx>)
    ensures xs + (ys + zs) == xs + ys + zs
  {}

  /** What one more move adds to the totals of a sale and to its staged writes. */
  lemma {:induction false} AfterMove(m: Move, moves: seq<Move>, o: Outset)
    requires m.piece.Some? ==> m.piece.value.remote.Pending?
    ensures MovedCost(moves + [m]) == MovedCost(moves) + SoldCost(m)
            && Entries(moves + [m]) == Entries(moves) + [EntryOf(m)]
    ensures Stage(o.updates, moves + [m]) == Stage(o.updates, moves)[m.after.id := m.after]
    ensures o.created + WithUuids(Pieces(moves + [m]), o.uuid)
         == o.created + WithUuids(Pieces(moves), o.uuid) + Numbered(m, o.uuid + PendingCount(Pieces(moves)))
    ensures PendingCount(Pieces(moves + [m])) == PendingCount(Pieces(moves)) + |Numbered(m, 0)|
  {
    MovesSnoc(moves, m);
    NumberedSnoc(moves, m, o.uuid);
    Regroup(o.created, WithUuids(Pieces(moves), o.uuid), Numbered(m, o.uuid + PendingCount(Pieces(moves))));
  }

  /** One more lot of a sale: the move is added to what is staged and to the totals. */
  method DrawNext(cfg: Config, sale: Tx, t: Totals, lots: array<Tx>, j: nat, processor: CalculateCostOfSalesProcessor,
                  ghost o: Outset, ghost moves: seq<Move>)
    returns (t': Totals)
    requires processor.Valid() && j < lots.Length && lots[j].amount > 0.0 && Staged(processor, o, moves)
             && Lawful(o.mover)
    requires Draws(o.mover, cfg, processor.financial.docs, sale) && t.cost == MovedCost(moves)
             && t.entries == Entries(moves)
    modifies lots, processor`toUpdate, processor`toCreate, processor`anyLocked, processor.inventory`nextUuid
    ensures processor.Valid()
    ensures var m := o.mover(t.need, old(lots[j]));
            && lots[..] == old(lots[..])[j := m.after] && t'.need == t.need - m.Sold().amount
            && Staged(processor, o, moves + [m]) && t'.cost == MovedCost(moves + [m])
            && t'.entries == Entries(moves + [m])
  {
    ghost var m := o.mover(t.need, lots[j]);
    assert m == MoveOn(cfg, processor.financial.docs, sale, t.need, lots[j]);
    assert LawfulMove(t.need, lots[j], m);
    AfterMove(m, moves, o);
    var taken, cost, entry := DrawOnLot(cfg, sale, t.need, lots, j, processor, m);
    t' := Totals(t.need - taken, t.cost + cost, t.entries + [entry]);
  }

  /** One turn of the loop; `filled` when the sale needs nothing more. */
  method DrawTurn(cfg: Config, sale: Tx, t: Totals, lots: array<Tx>, j: nat, processor: CalculateCostOfSalesProcessor,
                  ghost o: Outset, ghost moves0: seq<Move>)
    returns (filled: bool, t': Totals, ghost moves: seq<Move>)
    requires processor.Valid() && j < lots.Length && Ready(o.lots) && Lawful(o.mover)
    requires Draws(o.mover, cfg, processor.financial.docs, sale) && Staged(processor, o, moves0)
             && Turn(o, lots[..], j, moves0, t)
    modifies lots, processor`toUpdate, processor`toCreate, processor`anyLocked, processor.inventory`nextUuid
    ensures processor.Valid() && Staged(processor, o, moves)
    ensures !filled ==> Turn(o, lots[..], j + 1, moves, t')
    ensures filled ==> Take(o.mover, o.amount, o.lots) == Draw(lots[..], moves, t'.need) && Sums(moves, t')
  {
    ghost var now := lots[..];
    assert now[j] == lots[j];
    OpenTurn(o, now, j, moves0, t);
    if lots[j].checked {
      TurnChecked(o, now, j, moves0, t);
      return false, t, moves0;
    }
    ghost var m := o.mover(t.need, o.lots[j]);
    assert LawfulMove(t.need, o.lots[j], m);
    t' := DrawNext(cfg, sale, t, lots, j, processor, o, moves0);
    filled, moves := t'.need == 0.0, moves0 + [m];
    if filled {
      TurnLast(o, now, j, moves0, t, m);
    } else {
      TurnMove(o, now, j, moves0, t, m, t');
    }
  }

  lemma {:induction false} NothingStaged(created: seq<Tx>, uuid: nat)
    ensures created + WithUuids(Pieces([]), uuid) == created && PendingCount(Pieces([])) == 0
  {}

  /** The lots drawn on, in place, until the sale is filled. */
  method DrawOnLots(cfg: Config, sale: Tx, lots: array<Tx>, processor: CalculateCostOfSalesProcessor,
                    ghost mover: Mover)
    returns (t: Totals)
    requires processor.Valid() && Ready(lots[..]) && Draws(mover, cfg, processor.financial.docs, sale) && Lawful(mover)
    modifies lots, processor`toUpdate, processor`toCreate, processor`anyLocked, processor.inventory`nextUuid
    ensures processor.Valid()
    ensures var d := Take(mover, sale.amount, old(lots[..]));
            && lots[..] == d.lots && t.need == d.left && Sums(d.moves, t)
            && Staged(processor, old(OutsetOf(mover, sale, lots, processor)), d.moves)
  {
    ghost var o := OutsetOf(mover, sale, lots, processor);
    ghost var moves: seq<Move> := [];
    t := Totals(sale.amount, 0.0, []);
    TurnStart(o);
    NothingStaged(o.created, o.uuid);
    var j, filled := 0, false;
    while j < lots.Length
      invariant j <= lots.Length == |o.lots| && processor.Valid()
      invariant Turn(o, lots[..], j, moves, t)
      invariant Staged(processor, o, moves)
    {
      filled, t, moves := DrawTurn(cfg, sale, t, lots, j, processor, o, moves);
      if filled { return; }
      j := j + 1;
    }
    TurnEnd(o, lots[..], j, moves, t);
  }

  /** What the loop of this sale would start from now. */
  ghost function OutsetOf(mover: Mover, sale: Tx, lots: array<Tx>, processor: CalculateCostOfSalesProcessor): Outset
    reads lots, processor, processor.inventory
  {
    Outset(mover, sale.amount, lots[..], processor.toUpdate, processor.toCreate, processor.inventory.nextUuid)
  }

  /** The totals are those of the moves. */
  ghost predicate Sums(moves: seq<Move>, t: Totals) { t.cost == MovedCost(moves) && t.entries == Entries(moves) }

  /** The loop at place `j`: what it did so far, and the totals of the sale. */
  ghost predicate Turn(o: Outset, now: seq<Tx>, j: nat, moves: seq<Move>, t: Totals) {
    && j <= |o.lots| == |now| && now[j..] == o.lots[j..] && Midway(o, now[..j], moves, t.need) && Sums(moves, t)
  }

  lemma {:induction false} TurnStart(o: Outset)
    ensures Turn(o, o.lots, 0, [], Totals(o.amount, 0.0, []))
  {
    MidwayStart(o);
    assert o.lots[..0] == [];
  }

  lemma {:induction false} OpenTurn(o: Outset, now: seq<Tx>, j: nat, moves: seq<Move>, t: Totals)
    requires Turn(o, now, j, moves, t) && j < |o.lots|
    ensures now[j] == o.lots[j]
  {
    assert now[j] == now[j..][0] == o.lots[j..][0];
  }

  lemma {:induction false} TurnChecked(o: Outset, now: seq<Tx>, j: nat, moves: seq<Move>, t: Totals)
    requires Turn(o, now, j, moves, t) && j < |o.lots| && o.lots[j].checked && now[j] == o.lots[j]
    ensures Turn(o, now, j + 1, moves, t)
  {
    MidwayChecked(o, now[..j], moves, t.need);
    assert now[..j + 1] == now[..j] + [now[j]];
    assert now[j + 1..] == now[j..][1..] && o.lots[j + 1..] == o.lots[j..][1..];
  }

  lemma {:induction false} TurnMove(o: Outset, now: seq<Tx>, j: nat, moves: seq<Move>, t: Totals, m: Move, t': Totals)
    requires Turn(o, now, j, moves, t) && j < |o.lots| && !o.lots[j].checked
    requires m == o.mover(t.need, o.lots[j]) && m.Sold().amount < t.need && t'.need == t.need - m.Sold().amount
    requires Sums(moves + [m], t')
    ensures Turn(o, now[j := m.after], j + 1, moves + [m], t')
  {
    MidwayMove(o, now[..j], moves, t.need, m, t'.need);
    assert now[j := m.after][..j + 1] == now[..j] + [m.after];
    assert now[j := m.after][j + 1..] == now[j..][1..] && o.lots[j + 1..] == o.lots[j..][1..];
  }

  lemma {:induction false} TurnLast(o: Outset, now: seq<Tx>, j: nat, moves: seq<Move>, t: Totals, m: Move)
    requires Turn(o, now, j, moves, t) && j < |o.lots| && !o.lots[j].checked
    requires m == o.mover(t.need, o.lots[j]) && m.Sold().amount >= t.need
    ensures Take(o.mover, o.amount, o.lots) == Draw(now[j := m.after], moves + [m], 0.0)
  {
    MidwayLast(o, now[..j], moves, t.need);
    assert now[j := m.after] == now[..j] + [m.after] + now[j..][1..] && o.lots[j + 1..] == o.lots[j..][1..];
  }

  lemma {:induction false} TurnEnd(o: Outset, now: seq<Tx>, j: nat, moves: seq<Move>, t: Totals)
    requires Turn(o, now, j, moves, t) && j == |o.lots|
    ensures Take(o.mover, o.amount, o.lots) == Draw(now, moves, t.need)
  {
    assert now[..j] == now;
    MidwayEnd(o, now, moves, t.need);
  }

  /** The updates staged after a sale. */
  function StagedBy(halfUnit: real, sale: Tx, u: map<nat, Tx>, d: Draw): map<nat, Tx> {
    if RoundsToZero(halfUnit, d.left) then Stage(u, d.moves)[sale.id := Settled(halfUnit, sale, d)] else
      Stage(u, d.moves)
  }

  /** One sale against the lots, in place: exactly the recursive draw, everything staged. */
  method ProcessSaleInPlace(cfg: Config, sale: Tx, lots: array<Tx>, processor: CalculateCostOfSalesProcessor,
                            ghost mover: Mover) returns (done: Tx)
    requires processor.Valid() && Ready(lots[..]) && Draws(mover, cfg, processor.financial.docs, sale) && Lawful(mover)
    modifies lots, processor, processor.inventory`nextUuid
    ensures processor.Valid()
    ensures var d := Take(mover, sale.amount, old(lots[..]));
            && lots[..] == d.lots && done == Settled(cfg.halfUnit, sale, d)
            && processor.toUpdate == StagedBy(cfg.halfUnit, sale, old(processor.toUpdate), d)
            && processor.toCreate
              == old(processor.toCreate) + WithUuids(Pieces(d.moves), old(processor.inventory.nextUuid))
            && processor.inventory.nextUuid == old(processor.inventory.nextUuid) + PendingCount(Pieces(d.moves))
            && processor.toPost == PutBy(SaleOf, old(processor.toPost), CogsOf(sale, d))
  {
    ghost var d := Take(mover, sale.amount, lots[..]);
    var t := DrawOnLots(cfg, sale, lots, processor, mover);
    EntriesLength(d.moves);
    done := sale;
    if -cfg.halfUnit < t.need < cfg.halfUnit {
      if |t.entries| > 0 {
        done := sale.(totalCost := Some(t.cost), purchaseLog := Some(t.entries), checked := true);
      }
      processor.SetToUpdate(done);
    }
    processor.SetToPost(Cogs(sale.id, sale.date, t.cost, sale.amount));
  }
}
