/** What a calculation collects from a book the bot made, and what it then stages. */
module Collected {
  import opened Lists
  import opened Ledger
  import opened FifoOrder
  import opened Allocation
  import opened Settlement
  import opened Staging
  import opened Calculation
  import opened Books

  /** A book with distinct ids, well-formed transactions and distinct purchase codes. */
  ghost predicate Sound(txs: seq<Tx>) { Distinct(IdOf, txs) && AllWellFormed(txs) && CodesApart(txs) }

  function Purchases(txs: seq<Tx>, d: int): seq<Tx> { Filter(OpenPurchases(d), txs) }
  function Sales(txs: seq<Tx>, d: int): seq<Tx> { Filter(OpenSales(d), txs) }
  function Notes(txs: seq<Tx>, d: int): seq<Tx> { Filter(OpenNotes(d), txs) }

  lemma {:induction false} CollectedShapes(txs: seq<Tx>, d: int)
    requires AllWellFormed(txs)
    ensures forall t :: t in Purchases(txs, d) ==> t in txs && PurchaseShape(t) && !t.checked && t.date <= d
    ensures forall t :: t in Sales(txs, d) ==> t in txs && SaleShape(t) && !t.checked && t.date <= d
    ensures forall t :: t in Notes(txs, d) ==> t in txs && NoteShape(t) && !t.checked && t.date <= d
  {
    FilterSound(OpenPurchases(d), txs);
    FilterSound(OpenSales(d), txs);
    FilterSound(OpenNotes(d), txs);
  }

  lemma {:induction false} CollectedCodes(txs: seq<Tx>, d: int)
    requires AllWellFormed(txs) && CodesApart(txs)
    ensures Distinct(CodeOf, Purchases(txs, d))
  {
    if |txs| > 0 {
      var init, x := txs[..|txs| - 1], txs[|txs| - 1];
      assert txs == init + [x];
      assert x in txs && AllWellFormed(init) && CodesApart(init);
      CollectedCodes(init, d);
      if OpenPurchases(d)(x) {
        CollectedShapes(init, d);
        var ps := Purchases(init, d);
        forall i | 0 <= i < |ps| ensures CodeOf(ps[i]) != CodeOf(x) {
          assert ps[i] in ps && ps[i] in init;
          var k :| 0 <= k < |init| && init[k] == ps[i];
          assert txs[k] == ps[i] && PurchaseShape(txs[k]) && PurchaseShape(txs[|txs| - 1]);
        }
      }
    }
  }

  /** With distinct codes the Map of purchases holds all the collected purchases. */
  lemma {:induction false} LotsAreThePurchases(txs: seq<Tx>, d: int)
    requires AllWellFormed(txs) && CodesApart(txs)
    ensures LotsBy(txs, d) == Purchases(txs, d)
  {
    CollectedCodes(txs, d);
    KeyedDistinct(CodeOf, Purchases(txs, d));
  }

  lemma {:induction false} CollectedReady(txs: seq<Tx>, d: int)
    requires Distinct(IdOf, txs) && AllWellFormed(txs)
    ensures Distinct(IdOf, Purchases(txs, d)) && Distinct(IdOf, Sales(txs, d)) && Distinct(IdOf, Notes(txs, d))
    ensures Ready(Purchases(txs, d)) && AllStamped(Purchases(txs, d)) && AllStamped(Sales(txs, d))
  {
    CollectedShapes(txs, d);
    FilterDistinct(IdOf, OpenPurchases(d), txs);
    FilterDistinct(IdOf, OpenSales(d), txs);
    FilterDistinct(IdOf, OpenNotes(d), txs);
    forall i | 0 <= i < |Purchases(txs, d)| ensures Purchases(txs, d)[i].amount > 0.0 {
      assert Purchases(txs, d)[i] in Purchases(txs, d);
    }
  }

  /** Equal ids mean the same transaction. */
  lemma {:induction false} SameIdSame(txs: seq<Tx>, a: Tx, b: Tx)
    requires Distinct(IdOf, txs) && a in txs && b in txs && a.id == b.id
    ensures a == b
  {
    var i :| 0 <= i < |txs| && txs[i] == a;
    var j :| 0 <= j < |txs| && txs[j] == b;
    assert IdOf(txs[i]) == IdOf(txs[j]);
  }

  /** A transaction of another kind is not among a list of collected ones. */
  lemma {:induction false} NotAmong(txs: seq<Tx>, xs: seq<Tx>, t: Tx)
    requires Distinct(IdOf, txs) && t in txs && t !in xs && forall x :: x in xs ==> x in txs
    ensures !Among(t.id, xs)
  {
    if Among(t.id, xs) {
      var i :| 0 <= i < |xs| && xs[i].id == t.id;
      assert xs[i] in xs;
      SameIdSame(txs, xs[i], t);
    }
  }

  // ----- Credit notes -----

  /** The lots with less in them. */
  ghost predicate Reduced(xs: seq<Tx>, ys: seq<Tx>) {
    |xs| == |ys|
      && forall i :: 0 <= i < |xs| ==> 0.0 < ys[i].amount <= xs[i].amount && ys[i] == xs[i].(amount := ys[i].amount)
  }

  ghost predicate Positive(xs: seq<Tx>) { forall i :: 0 <= i < |xs| ==> xs[i].amount > 0.0 }

  lemma {:induction false} NotesFrame(notes: seq<Tx>, w: Work)
    requires Positive(w.lots) && ApplyNotes(notes, w).Ok?
    ensures var v := ApplyNotes(notes, w).work; Reduced(w.lots, v.lots) && v.done == w.done && v.cogs == w.cogs
    decreases |notes|
  {
    if |notes| > 0 {
      NotesFrame(notes[..|notes| - 1], w);
    }
  }

  lemma {:induction false} NotesStage(notes: seq<Tx>, w: Work, base: seq<Tx>)
    requires Apply(w.updates, base) == w.lots && SameIds(base, w.lots) && Distinct(IdOf, base)
    requires ApplyNotes(notes, w).Ok? && forall k :: 0 <= k < |notes| ==> !Among(notes[k].id, base)
    ensures var v := ApplyNotes(notes, w).work; Apply(v.updates, base) == v.lots && SameIds(base, v.lots)
    decreases |notes|
  {
    if |notes| > 0 {
      var init, note := notes[..|notes| - 1], notes[|notes| - 1];
      NotesStage(init, w, base);
      var v := ApplyNotes(init, w).work;
      var v' := ApplyNotes(notes, w).work;
      var i := IndexOf(v.lots, note.code);
      if i < |v.lots| {
        forall j | 0 <= j < |base| ensures Lookup(v'.updates, base[j]) == v'.lots[j] {
          assert Apply(v.updates, base)[j] == v.lots[j];
          assert j < i ==> IdOf(base[j]) != IdOf(base[i]);
          assert i < j ==> IdOf(base[i]) != IdOf(base[j]);
          assert base[j].id != note.id;
        }
        assert Apply(v'.updates, base) == v'.lots;
      }
    }
  }

  /** Credit notes stage themselves, checked, and otherwise only lots. */
  lemma {:induction false} NotesStageOther(notes: seq<Tx>, w: Work, t: Tx)
    requires ApplyNotes(notes, w).Ok? && !Among(t.id, w.lots) && Positive(w.lots)
    requires forall k :: 0 <= k < |notes| ==> notes[k].id == t.id ==> notes[k] == t
    requires t.id !in w.updates
    ensures var v := ApplyNotes(notes, w).work;
            && (t !in notes ==> t.id !in v.updates)
            && (t.id in v.updates ==> v.updates[t.id] == t.(checked := true))
    decreases |notes|
  {
    if |notes| > 0 {
      var init, note := notes[..|notes| - 1], notes[|notes| - 1];
      assert forall x :: x in init ==> x in notes;
      NotesStageOther(init, w, t);
      NotesFrame(init, w);
      var v := ApplyNotes(init, w).work;
      var i := IndexOf(v.lots, note.code);
      assert note in notes;
      if i < |v.lots| {
        assert v.lots[i].id == w.lots[i].id;
      }
    }
  }

  lemma {:induction false} SumUpdate(f: Tx -> real, xs: seq<Tx>, i: nat, x: Tx)
    requires i < |xs|
    ensures SumBy(f, xs[i := x]) == SumBy(f, xs) - f(xs[i]) + f(x)
  {
    assert xs == xs[..i] + [xs[i]] + xs[i + 1..];
    assert xs[i := x] == xs[..i] + [x] + xs[i + 1..];
    SumAppend(f, xs[..i] + [xs[i]], xs[i + 1..]);
    SumAppend(f, xs[..i] + [x], xs[i + 1..]);
    SumSnoc(f, xs[..i], xs[i]);
    SumSnoc(f, xs[..i], x);
  }

  /** A weight that a credit note only moves from a lot to its split. */
  ghost predicate NoteExchanges(f: Tx -> real) {
    forall lot: Tx, note: Tx {:trigger NoteSplit(lot, note)} :: note.amount < lot.amount && lot.parent.None? ==>
      f(lot.(amount := lot.amount - note.amount)) + f(NoteSplit(lot, note)) == f(lot)
  }

  ghost predicate OpenRoots(lots: seq<Tx>) { forall i :: 0 <= i < |lots| ==> lots[i].parent.None? && !lots[i].checked }

  lemma {:induction false} NoteExchange(note: Tx, w: Work, f: Tx -> real)
    requires OpenRoots(w.lots) && ApplyNote(note, w).Ok? && NoteExchanges(f)
    ensures var v := ApplyNote(note, w).work;
            SumBy(f, v.lots) + SumBy(f, v.created) == SumBy(f, w.lots) + SumBy(f, w.created) && OpenRoots(v.lots)
  {
    var i := IndexOf(w.lots, note.code);
    if i < |w.lots| {
      var lot := w.lots[i];
      SumUpdate(f, w.lots, i, lot.(amount := lot.amount - note.amount));
      SumSnoc(f, w.created, NoteSplit(lot, note));
    }
  }

  lemma {:induction false} NotesExchange(notes: seq<Tx>, w: Work, f: Tx -> real)
    requires OpenRoots(w.lots) && ApplyNotes(notes, w).Ok? && NoteExchanges(f)
    ensures var v := ApplyNotes(notes, w).work;
            SumBy(f, v.lots) + SumBy(f, v.created) == SumBy(f, w.lots) + SumBy(f, w.created) && OpenRoots(v.lots)
    decreases |notes|
  {
    if |notes| > 0 {
      NotesExchange(notes[..|notes| - 1], w, f);
      NoteExchange(notes[|notes| - 1], ApplyNotes(notes[..|notes| - 1], w).work, f);
    }
  }

  lemma {:induction false} NoteTakes(note: Tx, w: Work)
    requires OpenRoots(w.lots) && ApplyNote(note, w).Ok?
    ensures SumBy(OpenQuantity, ApplyNote(note, w).work.lots) >= SumBy(OpenQuantity, w.lots) - note.amount
    ensures OpenRoots(ApplyNote(note, w).work.lots)
  {
    var i := IndexOf(w.lots, note.code);
    if i < |w.lots| {
      SumUpdate(OpenQuantity, w.lots, i, w.lots[i].(amount := w.lots[i].amount - note.amount));
    }
  }

  /** Credit notes take from the lots at most what they say. */
  lemma {:induction false} NotesTake(notes: seq<Tx>, w: Work)
    requires OpenRoots(w.lots) && ApplyNotes(notes, w).Ok?
    ensures SumBy(OpenQuantity, ApplyNotes(notes, w).work.lots) >= SumBy(OpenQuantity, w.lots) - SumBy(AmountOf, notes)
    ensures OpenRoots(ApplyNotes(notes, w).work.lots)
    decreases |notes|
  {
    if |notes| > 0 {
      NotesTake(notes[..|notes| - 1], w);
      NoteTakes(notes[|notes| - 1], ApplyNotes(notes[..|notes| - 1], w).work);
    }
  }
}
