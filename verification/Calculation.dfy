/** Calculate: collect the open transactions of a good, guard the quantities, apply the credit
    notes, settle the sales in FIFO order and commit everything at once. */
module Calculation {
  import opened Lists
  import opened Ledger
  import opened FifoOrder
  import opened Settlement

  // ----- Collection -----

  /** The query takes the transactions dated before the day after `d`. */
  predicate Open(d: int, t: Tx) { t.date < d + 1 && !t.checked }

  function OpenSales(d: int): Tx -> bool { (t: Tx) => Open(d, t) && IsSale(t) }
  function OpenPurchases(d: int): Tx -> bool { (t: Tx) => Open(d, t) && IsPurchase(t) }
  function OpenNotes(d: int): Tx -> bool { (t: Tx) => Open(d, t) && IsCreditNote(t) }

  function SalesTotal(txs: seq<Tx>, d: int): real { SumBy(AmountOf, Filter(OpenSales(d), txs)) }

  function PurchasesTotal(txs: seq<Tx>, d: int): real {
    SumBy(AmountOf, Filter(OpenPurchases(d), txs)) - SumBy(AmountOf, Filter(OpenNotes(d), txs))
  }

  /** The collected purchases, one per purchase code. */
  function LotsBy(txs: seq<Tx>, d: int): seq<Tx> { Keyed(CodeOf, Filter(OpenPurchases(d), txs)) }

  /** The collected credit notes, one per number. */
  function NotesBy(txs: seq<Tx>, d: int): seq<Tx> { Keyed(NumberOf, Filter(OpenNotes(d), txs)) }

  // ----- Credit notes -----

  /** The place of the lot with this purchase code, or the length if there is none. */
  function IndexOf(lots: seq<Tx>, code: Option<string>): (i: nat)
    ensures i <= |lots|
    ensures i < |lots| ==> lots[i].code == code
    ensures forall j :: 0 <= j < i ==> lots[j].code != code
  {
    if |lots| == 0 then 0 else if lots[0].code == code then 0 else 1 + IndexOf(lots[1..], code)
  }

  function NumberText(p: Option<NoteProp>): string { if p.Some? && p.value.Number? then p.value.number else "" }

  /** The part of a purchase that a credit note takes back. */
  function NoteSplit(lot: Tx, note: Tx): Tx {
    Tx(0, Note(NumberText(note.creditNote)), lot.date, 0, None, lot.flow, note.amount, true, true, true, note.code,
       None, None, None, Some(lot.id), None, None, None, note.creditNote)
  }

  datatype Noted = Ok(work: Work) | Rejected(number: Option<NoteProp>)

  function ApplyNote(note: Tx, w: Work): Noted {
    var i := IndexOf(w.lots, note.code);
    if i == |w.lots| then Ok(w)
    else
      var lot := w.lots[i];
      if lot.amount - note.amount <= 0.0 then Rejected(note.creditNote)
      else
        var lot' := lot.(amount := lot.amount - note.amount);
        Ok(w.(lots := w.lots[i := lot'],
              updates := w.updates[lot.id := lot'][note.id := note.(checked := true)],
              created := w.created + [NoteSplit(lot, note)]))
  }

  function ApplyNotes(notes: seq<Tx>, w: Work): Noted
    decreases |notes|
  {
    if |notes| == 0 then Ok(w)
    else
      var r := ApplyNotes(notes[..|notes| - 1], w);
      if r.Ok? then ApplyNote(notes[|notes| - 1], r.work) else r
  }

  // ----- The run -----

  function Start(lots: seq<Tx>): Work { Work(lots, map[], [], [], []) }

  /** The run after the credit notes, its lots in FIFO order. */
  function Opening(txs: seq<Tx>, d: int): Noted {
    var r := ApplyNotes(NotesBy(txs, d), Start(LotsBy(txs, d)));
    if r.Rejected? then r else Ok(r.work.(lots := Sort(r.work.lots)))
  }

  function SortedSales(txs: seq<Tx>, d: int): seq<Tx> { Sort(Filter(OpenSales(d), txs)) }

  function Settle(cfg: Config, fin: seq<FinTx>, txs: seq<Tx>, d: int): Noted {
    var r := Opening(txs, d);
    if r.Rejected? then r
    else Ok(ProcessSales(RunMovers(cfg, fin), cfg.halfUnit, SortedSales(txs, d), r.work))
  }

  // ----- Commit -----

  function PendingCount(xs: seq<Tx>): nat {
    if |xs| == 0 then 0 else PendingCount(xs[..|xs| - 1]) + if xs[|xs| - 1].remote.Pending? then 1 else 0
  }

  /** The splits with their UUIDs drawn in order from `uuid`. */
  function WithUuids(xs: seq<Tx>, uuid: nat): seq<Tx> {
    if |xs| == 0 then []
    else
      var init, x := xs[..|xs| - 1], xs[|xs| - 1];
      WithUuids(init, uuid) + [if x.remote.Pending? then x.(remote := Uuid(uuid + PendingCount(init))) else x]
  }

  /** Posting gives each new transaction the next id. */
  function WithIds(xs: seq<Tx>, id: nat): seq<Tx> {
    seq(|xs|, i requires 0 <= i < |xs| => xs[i].(id := id + i))
  }

  function NewCalcDate(calcDate: CalcDate, sales: seq<Tx>): CalcDate {
    if |sales| == 0 then calcDate
    else
      var last := sales[|sales| - 1].date;
      if calcDate.Value().None? || last > calcDate.Value().value then On(last) else calcDate
  }

  function Posted(created: seq<Tx>, s: State): seq<Tx> { WithIds(WithUuids(created, s.nextUuid), s.nextId) }

  function Commit(s: State, w: Work, sales: seq<Tx>): State {
    s.(txs := Apply(w.updates, s.txs + Posted(w.created, s)),
       cogs := s.cogs + w.cogs,
       calcDate := NewCalcDate(s.calcDate, sales),
       nextId := s.nextId + |w.created|,
       nextUuid := s.nextUuid + PendingCount(w.created))
  }

  datatype Outcome =
    | Calculated | NothingToDo | QuantityError | CreditNoteError(number: Option<NoteProp>) | LockError | RebuildFired

  /** Calculate on an account that is not flagged: it commits everything or changes nothing. */
  function Calculate(cfg: Config, fin: seq<FinTx>, s: State, d: int): (r: (Outcome, State))
    ensures !r.0.Calculated? ==> r.1 == s
  {
    if SalesTotal(s.txs, d) == 0.0 then (NothingToDo, s)
    else if SalesTotal(s.txs, d) > PurchasesTotal(s.txs, d) then (QuantityError, s)
    else
      var r := Settle(cfg, fin, s.txs, d);
      if r.Rejected? then (CreditNoteError(r.number), s)
      else if r.work.updates.Keys * s.locked != {} then (LockError, s)
      else (Calculated, Commit(s, r.work, SortedSales(s.txs, d)))
  }
}
