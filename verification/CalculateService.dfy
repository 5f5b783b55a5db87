/** Calculate, step by step on the stores: collect, guard, apply the credit notes, settle the
    sales, abort on a lock, or write everything. */
module CalculateService {
  import opened Lists
  import opened Ledger
  import opened FifoOrder
  import opened Allocation
  import opened Settlement
  import opened Calculation
  import opened Collected
  import opened Commitment
  import opened Guard
  import opened Stores
  import opened CalculateProcessor
  import opened SaleLoop
  import opened ResetService
  import opened Runs

  // ----- Collection -----

  /** One more transaction of the query. */
  lemma {:induction false} CollectSnoc(txs: seq<Tx>, t: Tx, d: int)
    ensures SalesTotal(txs + [t], d) == if OpenSales(d)(t) then SalesTotal(txs, d) + t.amount else SalesTotal(txs, d)
    ensures LotsBy(txs + [t], d) == if OpenPurchases(d)(t) then PutBy(CodeOf, LotsBy(txs, d), t) else LotsBy(txs, d)
    ensures NotesBy(txs + [t], d) == if OpenNotes(d)(t) then PutBy(NumberOf, NotesBy(txs, d), t) else NotesBy(txs, d)
    ensures PurchasesTotal(txs + [t], d)
         == PurchasesTotal(txs, d)
           + (if OpenPurchases(d)(t) then t.amount else 0.0) - (if OpenNotes(d)(t) then t.amount else 0.0)
  {
    FilterSnoc(OpenSales(d), txs, t);
    FilterSnoc(OpenPurchases(d), txs, t);
    FilterSnoc(OpenNotes(d), txs, t);
    SumSnoc(AmountOf, Filter(OpenSales(d), txs), t);
    SumSnoc(AmountOf, Filter(OpenPurchases(d), txs), t);
    SumSnoc(AmountOf, Filter(OpenNotes(d), txs), t);
    KeyedSnoc(CodeOf, Filter(OpenPurchases(d), txs), t);
    KeyedSnoc(NumberOf, Filter(OpenNotes(d), txs), t);
  }

  /** What was collected from some transactions. */
  ghost predicate Collects(txs: seq<Tx>, d: int, sales: seq<Tx>, lots: seq<Tx>, notes: seq<Tx>, totalSales: real,
                           totalPurchased: real) {
    && sales == Filter(OpenSales(d), txs) && lots == LotsBy(txs, d) && notes == NotesBy(txs, d)
    && totalSales == SalesTotal(txs, d) && totalPurchased == PurchasesTotal(txs, d)
  }

  lemma {:induction false} CollectsNext(txs: seq<Tx>, t: Tx, d: int, sales: seq<Tx>, lots: seq<Tx>, notes: seq<Tx>,
                                        totalSales: real, totalPurchased: real)
    requires Collects(txs, d, sales, lots, notes, totalSales, totalPurchased)
    ensures !Open(d, t) ==> Collects(txs + [t], d, sales, lots, notes, totalSales, totalPurchased)
    ensures Open(d, t) && IsSale(t) ==>
              Collects(txs + [t], d, sales + [t], lots, notes, totalSales + t.amount, totalPurchased)
    ensures Open(d, t) && IsPurchase(t) ==>
              Collects(txs + [t], d, sales, PutBy(CodeOf, lots, t), notes, totalSales, totalPurchased + t.amount)
    ensures Open(d, t) && IsCreditNote(t) ==>
              Collects(txs + [t], d, sales, lots, PutBy(NumberOf, notes, t), totalSales, totalPurchased - t.amount)
    ensures Open(d, t) && !IsSale(t) && !IsPurchase(t) && !IsCreditNote(t) ==>
              Collects(txs + [t], d, sales, lots, notes, totalSales, totalPurchased)
  {
    CollectSnoc(txs, t, d);
    FilterSnoc(OpenSales(d), txs, t);
  }

  /** The unchecked sales, the purchases by code, the credit notes by number, and the totals. */
  method Collect(txs: seq<Tx>, d: int)
    returns (sales: seq<Tx>, lots: seq<Tx>, notes: seq<Tx>, totalSales: real, totalPurchased: real)
    ensures Collects(txs, d, sales, lots, notes, totalSales, totalPurchased)
  {
    sales, lots, notes, totalSales, totalPurchased := [], [], [], 0.0, 0.0;
    for k := 0 to |txs|
      invariant Collects(txs[..k], d, sales, lots, notes, totalSales, totalPurchased)
    {
      var t := txs[k];
      assert txs[..k + 1] == txs[..k] + [t];
      CollectsNext(txs[..k], t, d, sales, lots, notes, totalSales, totalPurchased);
      if t.date < d + 1 && !t.checked {
        if IsSale(t) {
          sales, totalSales := sales + [t], totalSales + t.amount;
        }
        if IsPurchase(t) {
          lots, totalPurchased := PutBy(CodeOf, lots, t), totalPurchased + t.amount;
        }
        if IsCreditNote(t) {
          notes, totalPurchased := PutBy(NumberOf, notes, t), totalPurchased - t.amount;
        }
      }
    }
    assert txs[..|txs|] == txs;
  }

  // ----- Credit notes -----

  function TextOf(n: Tx): string { NumberText(n.creditNote) }

  /** The splits of credit notes carry the notes' numbers. */
  ghost predicate NumberedBy(created: seq<Tx>, notes: seq<Tx>) {
    forall t :: t in created ==> exists n :: n in notes && t.remote == Note(TextOf(n))
  }

  lemma {:induction false} NotesSnoc(notes: seq<Tx>, k: nat, w: Work)
    requires k < |notes| && ApplyNotes(notes[..k], w).Ok?
    ensures ApplyNotes(notes[..k + 1], w) == ApplyNote(notes[k], ApplyNotes(notes[..k], w).work)
  {
    assert notes[..k + 1][..k] == notes[..k] && notes[..k + 1][k] == notes[k];
  }

  /** A rejected note rejects the run. */
  lemma {:induction false} RejectedStays(notes: seq<Tx>, k: nat, w: Work)
    requires k <= |notes| && ApplyNotes(notes[..k], w).Rejected?
    ensures ApplyNotes(notes, w) == ApplyNotes(notes[..k], w)
    decreases |notes|
  {
    if k == |notes| {
      assert notes[..k] == notes;
    } else {
      var init := notes[..|notes| - 1];
      assert init[..k] == notes[..k];
      RejectedStays(init, k, w);
    }
  }

  /** One credit note: splits the lot it takes back from, if it is found and holds more. */
  method ApplyCreditNote(note: Tx, lots: seq<Tx>, processor: CalculateCostOfSalesProcessor, ghost w: Work)
    returns (ok: bool, after: seq<Tx>)
    requires processor.Valid() && lots == w.lots && processor.toUpdate == w.updates && processor.toCreate == w.created
    requires forall t :: t in w.created ==> t.remote != Note(TextOf(note))
    modifies processor`toUpdate, processor`toCreate, processor`anyLocked
    ensures processor.Valid() && ok == ApplyNote(note, w).Ok?
    ensures ok ==> var v := ApplyNote(note, w).work;
            after == v.lots && processor.toUpdate == v.updates && processor.toCreate == v.created
    ensures !ok ==> ApplyNote(note, w) == Rejected(note.creditNote)
  {
    ok, after := true, lots;
    var i := IndexOf(lots, note.code);
    if i < |lots| {
      var lot := lots[i];
      var remaining := lot.amount - note.amount;
      if remaining <= 0.0 { return false, lots; }
      var split := NoteSplit(lot, note);
      PutFresh(RemoteOf, processor.toCreate, split);
      processor.SetToCreate(split);
      after := lots[i := lot.(amount := remaining)];
      processor.SetToUpdate(after[i]);
      processor.SetToUpdate(note.(checked := true));
    }
  }

  /** The splits made so far carry the numbers of the notes so far. */
  lemma {:induction false} NotesNumbered(notes: seq<Tx>, lots: seq<Tx>)
    requires ApplyNotes(notes, Start(lots)).Ok?
    ensures NumberedBy(ApplyNotes(notes, Start(lots)).work.created, notes)
    decreases |notes|
  {
    if |notes| > 0 {
      var init, note := notes[..|notes| - 1], notes[|notes| - 1];
      NotesNumbered(init, lots);
      var v, v' := ApplyNotes(init, Start(lots)).work, ApplyNotes(notes, Start(lots)).work;
      assert note in notes && forall n :: n in init ==> n in notes;
      forall t | t in v'.created ensures exists n :: n in notes && t.remote == Note(TextOf(n)) {
        if t in v.created {
          var n :| n in init && t.remote == Note(TextOf(n));
        } else {
          assert t.remote == Note(TextOf(note));
        }
      }
    }
  }

  lemma {:induction false} NewNumber(created: seq<Tx>, notes: seq<Tx>, k: nat)
    requires Distinct(TextOf, notes) && k < |notes| && NumberedBy(created, notes[..k])
    ensures forall t :: t in created ==> t.remote != Note(TextOf(notes[k]))
  {
    forall t | t in created ensures t.remote != Note(TextOf(notes[k])) {
      var n :| n in notes[..k] && t.remote == Note(TextOf(n));
      var i :| 0 <= i < k && notes[i] == n;
      assert TextOf(notes[i]) != TextOf(notes[k]);
    }
  }

  /** Splits the lots that credit notes take back from, and stages everything touched. */
  method ApplyCreditNotes(notes: seq<Tx>, collected: seq<Tx>, processor: CalculateCostOfSalesProcessor)
    returns (rejected: Option<Option<NoteProp>>, lots: seq<Tx>)
    requires processor.Valid() && processor.toUpdate == map[] && processor.toCreate == [] && Distinct(TextOf, notes)
    modifies processor`toUpdate, processor`toCreate, processor`anyLocked
    ensures processor.Valid()
    ensures var r := ApplyNotes(notes, Start(collected));
            match r
            case Rejected(number) => rejected == Some(number)
            case Ok(w) =>
              rejected == None && lots == w.lots && processor.toUpdate == w.updates && processor.toCreate == w.created
  {
    rejected, lots := None, collected;
    ghost var w := Start(collected);
    var k := 0;
    while k < |notes|
      invariant k <= |notes| && processor.Valid() && rejected == None
                && ApplyNotes(notes[..k], Start(collected)) == Ok(w)
      invariant lots == w.lots && processor.toUpdate == w.updates && processor.toCreate == w.created
    {
      NotesSnoc(notes, k, Start(collected));
      NotesNumbered(notes[..k], collected);
      NewNumber(w.created, notes, k);
      var ok, after := ApplyCreditNote(notes[k], lots, processor, w);
      if !ok {
        rejected := Some(notes[k].creditNote);
        RejectedStays(notes, k + 1, Start(collected));
        return;
      }
      lots, w, k := after, ApplyNote(notes[k], w).work, k + 1;
    }
    assert notes[..|notes|] == notes;
  }

  // ----- Sales -----

  lemma {:induction false} UuidsAppend(xs: seq<Tx>, ys: seq<Tx>, uuid: nat)
    ensures WithUuids(xs + ys, uuid) == WithUuids(xs, uuid) + WithUuids(ys, uuid + PendingCount(xs))
    ensures PendingCount(xs + ys) == PendingCount(xs) + PendingCount(ys)
    decreases |ys|
  {
    if |ys| == 0 {
      assert xs + ys == xs;
    } else {
      var init, y := ys[..|ys| - 1], ys[|ys| - 1];
      UuidsAppend(xs, init, uuid);
      UuidSnoc(xs + init, y, uuid);
      UuidSnoc(init, y, uuid + PendingCount(xs));
      AppendSnoc(xs, init, y);
      assert ys == init + [y];
      AppendSnoc(WithUuids(xs, uuid), WithUuids(init, uuid + PendingCount(xs)),
                 WithUuid(y, uuid + PendingCount(xs + init)));
    }
  }

  lemma {:induction false} AppendSnoc(xs: seq<Tx>, ys: seq<Tx>, y: Tx)
    ensures xs + ys + [y] == xs + (ys + [y])
  {}

  /** The staged writes are those of `w`, with UUIDs drawn from `uuid` on. */
  ghost predicate StagedAs(processor: CalculateCostOfSalesProcessor, w: Work, uuid: nat)
    reads processor, processor.inventory
  {
    && processor.toUpdate == w.updates && processor.toPost == w.cogs
    && processor.toCreate == WithUuids(w.created, uuid)
    && processor.inventory.nextUuid == uuid + PendingCount(w.created)
  }

  /** The working lots and the staged writes are those of `w`. */
  ghost predicate Holds(lots: array<Tx>, processor: CalculateCostOfSalesProcessor, w: Work, uuid: nat)
    reads lots, processor, processor.inventory
  {
    lots[..] == w.lots && StagedAs(processor, w, uuid)
  }

  /** What one sale makes of a work, part by part. */
  lemma {:induction false} SaleParts(movers: Movers, halfUnit: real, sale: Tx, w: Work, uuid: nat)
    requires forall c :: c in w.cogs ==> c.sale != sale.id
    ensures var d, v := Take(movers(sale), sale.amount, w.lots), ProcessSale(movers, halfUnit, sale, w);
            && v.lots == d.lots && v.cogs == PutBy(SaleOf, w.cogs, CogsOf(sale, d))
            && v.updates == StagedBy(halfUnit, sale, w.updates, d)
            && WithUuids(v.created, uuid)
              == WithUuids(w.created, uuid) + WithUuids(Pieces(d.moves), uuid + PendingCount(w.created))
            && PendingCount(v.created) == PendingCount(w.created) + PendingCount(Pieces(d.moves))
  {
    var d := DrawFor(movers, sale, w.lots);
    UuidsAppend(w.created, Pieces(d.moves), uuid);
    PutFresh(SaleOf, w.cogs, CogsOf(sale, d));
  }

  /** What is written for a sale is what its work says. */
  lemma {:induction false} SaleWritten(movers: Movers, halfUnit: real, sale: Tx, w: Work, uuid: nat, d: Draw,
                                       posted: seq<Cogs>, created: seq<Tx>)
    requires d == Take(movers(sale), sale.amount, w.lots) && forall c :: c in w.cogs ==> c.sale != sale.id
    requires posted == PutBy(SaleOf, w.cogs, CogsOf(sale, d))
    requires created == WithUuids(w.created, uuid) + WithUuids(Pieces(d.moves), uuid + PendingCount(w.created))
    ensures var v := ProcessSale(movers, halfUnit, sale, w);
            && d.lots == v.lots && StagedBy(halfUnit, sale, w.updates, d) == v.updates && posted == v.cogs
            && created == WithUuids(v.created, uuid)
            && PendingCount(v.created) == PendingCount(w.created) + PendingCount(Pieces(d.moves))
  {
    SaleParts(movers, halfUnit, sale, w, uuid);
  }

  /** The movers draw as the sales of a run with these documents do. */
  ghost predicate AllDraw(movers: Movers, cfg: Config, docs: seq<FinTx>) {
    forall sale :: Draws(movers(sale), cfg, docs, sale)
  }

  lemma {:induction false} RunMoversDraw(cfg: Config, docs: seq<FinTx>)
    ensures AllDraw(RunMovers(cfg, docs), cfg, docs)
  {}

  /** One sale, against its specification. */
  method SettleOne(cfg: Config, sale: Tx, lots: array<Tx>, processor: CalculateCostOfSalesProcessor,
                   ghost movers: Movers, ghost w: Work, ghost uuid: nat)
    requires processor.Valid() && Ready(lots[..]) && Holds(lots, processor, w, uuid)
    requires AllDraw(movers, cfg, processor.financial.docs) && AllLawful(movers)
             && forall c :: c in w.cogs ==> c.sale != sale.id
    modifies lots, processor, processor.inventory`nextUuid
    ensures processor.Valid() && Holds(lots, processor, ProcessSale(movers, cfg.halfUnit, sale, w), uuid)
  {
    ghost var mover := movers(sale);
    assert Lawful(mover) && Draws(mover, cfg, processor.financial.docs, sale);
    ghost var d := Take(mover, sale.amount, lots[..]);
    assert d == Take(movers(sale), sale.amount, w.lots);
    ghost var posted := PutBy(SaleOf, processor.toPost, CogsOf(sale, d));
    ghost var created := processor.toCreate + WithUuids(Pieces(d.moves), processor.inventory.nextUuid);
    SaleWritten(movers, cfg.halfUnit, sale, w, uuid, d, posted, created);
    var done := ProcessSaleInPlace(cfg, sale, lots, processor, mover);
    assert processor.toPost == posted && processor.toCreate == created;
  }

  lemma {:induction false} CogsOfSales(movers: Movers, halfUnit: real, sales: seq<Tx>, w: Work)
    requires w.cogs == []
    ensures var v := ProcessSales(movers, halfUnit, sales, w);
            |v.cogs| == |sales| && forall k :: 0 <= k < |sales| ==> v.cogs[k].sale == sales[k].id
    decreases |sales|
  {
    if |sales| > 0 { CogsOfSales(movers, halfUnit, sales[..|sales| - 1], w); }
  }

  /** No earlier sale has the posting of sale `k`. */
  lemma {:induction false} NewPosting(movers: Movers, halfUnit: real, sales: seq<Tx>, w: Work, k: nat)
    requires w.cogs == [] && Distinct(IdOf, sales) && k < |sales|
    ensures forall c :: c in ProcessSales(movers, halfUnit, sales[..k], w).cogs ==> c.sale != sales[k].id
  {
    var cogs := ProcessSales(movers, halfUnit, sales[..k], w).cogs;
    CogsOfSales(movers, halfUnit, sales[..k], w);
    forall c | c in cogs ensures c.sale != sales[k].id {
      var i :| 0 <= i < |cogs| && cogs[i] == c;
      assert IdOf(sales[i]) != IdOf(sales[k]);
    }
  }

  lemma {:induction false} StageKeys(u: map<nat, Tx>, moves: seq<Move>)
    ensures u.Keys <= Stage(u, moves).Keys
    decreases |moves|
  {
    if |moves| > 0 { StageKeys(u, moves[..|moves| - 1]); }
  }

  /** What is staged stays staged. */
  lemma {:induction false} KeysGrow(movers: Movers, halfUnit: real, sales: seq<Tx>, k: nat, w: Work)
    requires k <= |sales|
    ensures ProcessSales(movers, halfUnit, sales[..k], w).updates.Keys
            <= ProcessSales(movers, halfUnit, sales, w).updates.Keys
    decreases |sales|
  {
    if k == |sales| {
      assert sales[..k] == sales;
    } else {
      var init, sale := sales[..|sales| - 1], sales[|sales| - 1];
      assert init[..k] == sales[..k];
      KeysGrow(movers, halfUnit, init, k, w);
      var v := ProcessSales(movers, halfUnit, init, w);
      StageKeys(v.updates, DrawFor(movers, sale, v.lots).moves);
    }
  }

  lemma {:induction false} ProcessNext(movers: Movers, halfUnit: real, sales: seq<Tx>, k: nat, w: Work)
    requires k < |sales|
    ensures ProcessSales(movers, halfUnit, sales[..k + 1], w)
         == ProcessSale(movers, halfUnit, sales[k], ProcessSales(movers, halfUnit, sales[..k], w))
  {
    assert sales[..k + 1] == sales[..k] + [sales[k]];
    ProcessSnoc(movers, halfUnit, sales[..k], sales[k], w);
  }

  lemma {:induction false} SaleKeepsReady(movers: Movers, halfUnit: real, sale: Tx, w: Work)
    requires AllLawful(movers) && AllFramed(movers) && Ready(w.lots)
    ensures Ready(ProcessSale(movers, halfUnit, sale, w).lots)
  {
    assert Lawful(movers(sale)) && Framed(movers(sale));
    TakeFrame(movers(sale), sale.amount, w.lots);
  }

  /** The sales in order, each on the lots the earlier ones left, until a locked transaction is staged. */
  method SettleAll(cfg: Config, sales: seq<Tx>, lots: array<Tx>, processor: CalculateCostOfSalesProcessor,
                   ghost movers: Movers, ghost w: Work, ghost uuid: nat)
    returns (locked: bool)
    requires processor.Valid() && Ready(lots[..]) && Holds(lots, processor, w, uuid) && w.cogs == []
             && Distinct(IdOf, sales) && |sales| > 0
    requires AllDraw(movers, cfg, processor.financial.docs) && AllLawful(movers) && AllFramed(movers)
    modifies lots, processor, processor.inventory`nextUuid
    ensures processor.Valid()
    ensures var v := ProcessSales(movers, cfg.halfUnit, sales, w);
            && (locked <==> v.updates.Keys * processor.inventory.locked != {})
            && (!locked ==> Holds(lots, processor, v, uuid))
  {
    assert sales[..0] == [];
    locked := false;
    ghost var v := w;
    var k := 0;
    while k < |sales|
      invariant k <= |sales| && processor.Valid() && !locked && (k > 0 ==> !processor.anyLocked)
      invariant v == ProcessSales(movers, cfg.halfUnit, sales[..k], w) && Ready(v.lots)
      invariant Holds(lots, processor, v, uuid)
    {
      NewPosting(movers, cfg.halfUnit, sales, w, k);
      SaleKeepsReady(movers, cfg.halfUnit, sales[k], v);
      SettleOne(cfg, sales[k], lots, processor, movers, v, uuid);
      ProcessNext(movers, cfg.halfUnit, sales, k, w);
      v, k := ProcessSale(movers, cfg.halfUnit, sales[k], v), k + 1;
      if processor.HasLockedTransaction() {
        KeysGrow(movers, cfg.halfUnit, sales, k, w);
        locked := true;
        return;
      }
    }
    assert sales[..k] == sales;
  }

  // ----- The whole calculation -----

  /** Stores the date of the last sorted sale, if it is later than the stored one. */
  method StoreLastCalcTxDate(account: GoodAccount, sales: seq<Tx>)
    modifies account`calcDate
    ensures account.calcDate == NewCalcDate(old(account.calcDate), sales)
  {
    if |sales| > 0 {
      var last := sales[|sales| - 1].date;
      var stored := account.CalculationDateValue();
      if stored.None? || last > stored.value {
        account.SetCalculationDate(On(last));
      }
    }
  }

  /** Open purchases hold something, and open credit notes carry their number. */
  ghost predicate Collectable(txs: seq<Tx>) {
    forall t :: t in txs && !t.checked ==>
      (IsPurchase(t) ==> t.amount > 0.0) && (IsCreditNote(t) ==> t.creditNote.value.Number?)
  }

  lemma {:induction false} NoteTexts(txs: seq<Tx>, d: int)
    requires Collectable(txs)
    ensures Distinct(TextOf, NotesBy(txs, d))
  {
    var ns := NotesBy(txs, d);
    KeyedKeys(NumberOf, Filter(OpenNotes(d), txs));
    FilterSound(OpenNotes(d), txs);
    forall i, j | 0 <= i < j < |ns| ensures TextOf(ns[i]) != TextOf(ns[j]) {
      assert ns[i] in ns && ns[j] in ns;
      assert NumberOf(ns[i]) != NumberOf(ns[j]);
    }
  }

  /** The lots a run starts from are open with something in them, whatever their codes. */
  lemma {:induction false} OpeningReady(txs: seq<Tx>, d: int)
    requires Collectable(txs) && Opening(txs, d).Ok?
    ensures Ready(Opening(txs, d).work.lots) && Opening(txs, d).work.cogs == []
  {
    var ls, ns := LotsBy(txs, d), NotesBy(txs, d);
    KeyedKeys(CodeOf, Filter(OpenPurchases(d), txs));
    FilterSound(OpenPurchases(d), txs);
    forall i | 0 <= i < |ls| ensures ls[i].amount > 0.0 { assert ls[i] in ls; }
    NotesFrame(ns, Start(ls));
    PositiveSorted(ApplyNotes(ns, Start(ls)).work.lots);
  }

  lemma {:induction false} NoPending(notes: seq<Tx>, w: Work, uuid: nat)
    requires ApplyNotes(notes, w).Ok? && PendingCount(w.created) == 0 && WithUuids(w.created, uuid) == w.created
    ensures var v := ApplyNotes(notes, w).work; PendingCount(v.created) == 0 && WithUuids(v.created, uuid) == v.created
    decreases |notes|
  {
    if |notes| > 0 {
      var init, note := notes[..|notes| - 1], notes[|notes| - 1];
      NoPending(init, w, uuid);
      var v := ApplyNotes(init, w).work;
      var i := IndexOf(v.lots, note.code);
      if i < |v.lots| && v.lots[i].amount - note.amount > 0.0 {
        UuidsAppend(v.created, [NoteSplit(v.lots[i], note)], uuid);
        assert [NoteSplit(v.lots[i], note)][..0] == [];
      }
    }
  }

  /** After the credit notes, both sides sorted: settle, and write everything or nothing. */
  method SettleAndCommit(cfg: Config, account: GoodAccount, processor: CalculateCostOfSalesProcessor, sales: seq<Tx>,
                         lots: seq<Tx>, ghost w: Work)
    returns (outcome: Outcome)
    requires processor.Valid() && Ready(lots) && lots == w.lots && StagedAs(processor, w, processor.inventory.nextUuid)
    requires w.cogs == [] && Distinct(IdOf, sales) && |sales| > 0
    modifies account`calcDate, processor, processor.inventory, processor.financial`cogs
    ensures var s, s' := old(Snapshot(account, processor.inventory, processor.financial)),
            Snapshot(account, processor.inventory, processor.financial);
            var v := ProcessSales(RunMovers(cfg, processor.financial.docs), cfg.halfUnit, sales, w);
            if v.updates.Keys * s.locked != {} then outcome.LockError? && s' == s.(nextUuid := s'.nextUuid)
            else outcome.Calculated? && s' == Commit(s, v, sales)
  {
    ghost var uuid, movers := processor.inventory.nextUuid, RunMovers(cfg, processor.financial.docs);
    RunMoversLawful(cfg, processor.financial.docs);
    RunMoversDraw(cfg, processor.financial.docs);
    var locked := SettleInPlace(cfg, sales, lots, processor, movers, w, uuid);
    if locked { return LockError; }
    WriteAll(account, processor, sales, ProcessSales(movers, cfg.halfUnit, sales, w), uuid);
    return Calculated;
  }

  /** The sales on an array of working copies of the lots. */
  method SettleInPlace(cfg: Config, sales: seq<Tx>, lots: seq<Tx>, processor: CalculateCostOfSalesProcessor,
                       ghost movers: Movers, ghost w: Work, ghost uuid: nat)
    returns (locked: bool)
    requires processor.Valid() && Ready(lots) && lots == w.lots && StagedAs(processor, w, uuid)
    requires w.cogs == [] && Distinct(IdOf, sales) && |sales| > 0
    requires AllDraw(movers, cfg, processor.financial.docs) && AllLawful(movers) && AllFramed(movers)
    modifies processor, processor.inventory`nextUuid
    ensures processor.Valid()
    ensures var v := ProcessSales(movers, cfg.halfUnit, sales, w);
            (locked <==> v.updates.Keys * processor.inventory.locked != {})
              && (!locked ==> StagedAs(processor, v, uuid))
  {
    var working := new Tx[|lots|](i requires 0 <= i < |lots| => lots[i]);
    assert working[..] == lots;
    locked := SettleAll(cfg, sales, working, processor, movers, w, uuid);
  }

  /** Writes what was staged and moves the calculation date. */
  method WriteAll(account: GoodAccount, processor: CalculateCostOfSalesProcessor, sales: seq<Tx>, ghost w: Work,
                  ghost uuid: nat)
    requires processor.Valid() && StagedAs(processor, w, uuid)
    modifies account`calcDate, processor.inventory`txs, processor.inventory`nextId, processor.financial`cogs
    ensures Snapshot(account, processor.inventory, processor.financial)
         == Commit(old(Snapshot(account, processor.inventory, processor.financial)).(nextUuid := uuid), w, sales)
  {
    UuidsKeep(w.created, uuid);
    processor.FireBatchOperations();
    StoreLastCalcTxDate(account, sales);
  }

  lemma {:induction false} StartUuids(txs: seq<Tx>, d: int, uuid: nat)
    requires Opening(txs, d).Ok?
    ensures var w := Opening(txs, d).work; PendingCount(w.created) == 0 && WithUuids(w.created, uuid) == w.created
  {
    NoPending(NotesBy(txs, d), Start(LotsBy(txs, d)), uuid);
  }

  /** What was collected, settled: the credit notes, then the sales in order, then everything is written. */
  method SettleCollected(cfg: Config, account: GoodAccount, inventory: InventoryBook, financial: FinancialBook, d: int,
                         sales: seq<Tx>, collected: seq<Tx>, notes: seq<Tx>)
    returns (outcome: Outcome)
    requires Collectable(inventory.txs) && Distinct(IdOf, inventory.txs) && SalesTotal(inventory.txs, d) != 0.0
    requires sales == Filter(OpenSales(d), inventory.txs) && collected == LotsBy(inventory.txs, d)
             && notes == NotesBy(inventory.txs, d)
    modifies account`calcDate, inventory, financial`cogs
    ensures var s, s' := old(Snapshot(account, inventory, financial)), Snapshot(account, inventory, financial);
            match Settle(cfg, financial.docs, s.txs, d)
            case Rejected(number) => outcome == CreditNoteError(number) && s' == s
            case Ok(w) =>
              if w.updates.Keys * s.locked != {} then outcome.LockError? && s' == s.(nextUuid := s'.nextUuid)
              else outcome.Calculated? && s' == Commit(s, w, SortedSales(s.txs, d))
  {
    var processor := new CalculateCostOfSalesProcessor(inventory, financial);
    NoteTexts(inventory.txs, d);
    var rejected, lots := ApplyCreditNotes(notes, collected, processor);
    if rejected.Some? { return CreditNoteError(rejected.value); }
    OpeningReady(inventory.txs, d);
    StartUuids(inventory.txs, d, inventory.nextUuid);
    SalesOrder(inventory.txs, d);
    outcome := SettleAndCommit(cfg, account, processor, Sort(sales), Sort(lots), Opening(inventory.txs, d).work);
  }

  /** Calculate on an account that is not flagged. */
  method CalculateUnflagged(cfg: Config, account: GoodAccount, inventory: InventoryBook, financial: FinancialBook,
                            d: int) returns (outcome: Outcome)
    requires Collectable(inventory.txs) && Distinct(IdOf, inventory.txs)
    modifies account`calcDate, inventory, financial`cogs
    ensures var r := Calculate(cfg, financial.docs, old(Snapshot(account, inventory, financial)), d);
            && outcome == r.0 && Snapshot(account, inventory, financial) == r.1.(nextUuid := inventory.nextUuid)
            && (outcome.Calculated? ==> inventory.nextUuid == r.1.nextUuid)
  {
    var sales, collected, notes, totalSales, totalPurchased := Collect(inventory.txs, d);
    if totalSales == 0.0 { return NothingToDo; }
    if totalSales > totalPurchased { return QuantityError; }
    outcome := SettleCollected(cfg, account, inventory, financial, d, sales, collected, notes);
  }

  lemma {:induction false} SalesOrder(txs: seq<Tx>, d: int)
    requires Distinct(IdOf, txs) && SalesTotal(txs, d) != 0.0
    ensures Distinct(IdOf, SortedSales(txs, d)) && |SortedSales(txs, d)| > 0
  {
    var sales := Filter(OpenSales(d), txs);
    FilterDistinct(IdOf, OpenSales(d), txs);
    SortDistinct(sales);
    SortContents(sales);
  }

  /** Calculate, all or nothing: a flagged account is reset instead; otherwise everything that one
      calculation makes is written, or the stores stay as they were but for the UUIDs drawn. */
  method CalculateCostOfSalesForAccount(cfg: Config, account: GoodAccount, inventory: InventoryBook,
                                        financial: FinancialBook, d: int)
    returns (outcome: Outcome)
    requires account.rebuild || (Collectable(inventory.txs) && Distinct(IdOf, inventory.txs))
    modifies account, inventory, financial`cogs
    ensures var r := CalculateAccount(cfg, financial.docs, old(Snapshot(account, inventory, financial)), d);
            && outcome == r.0 && Snapshot(account, inventory, financial) == r.1.(nextUuid := inventory.nextUuid)
            && (outcome.Calculated? ==> inventory.nextUuid == r.1.nextUuid)
    ensures !outcome.Calculated? && !outcome.RebuildFired? ==>
              Snapshot(account, inventory, financial)
                == old(Snapshot(account, inventory, financial)).(nextUuid := inventory.nextUuid)
  {
    if account.NeedsRebuild() {
      var locked := ResetCostOfSalesForAccount(account, inventory, financial);
      return RebuildFired;
    }
    outcome := CalculateUnflagged(cfg, account, inventory, financial, d);
  }
}
