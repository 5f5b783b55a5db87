/** Credit notes in closed form: each lot gives up what the notes with its purchase code say. */
module NoteForm {
  import opened Lists
  import opened Ledger
  import opened Allocation
  import opened Settlement
  import opened Staging
  import opened Calculation
  import opened Collected

  function NoteFor(code: Option<string>): Tx -> real { (n: Tx) => if n.code == code then n.amount else 0.0 }

  function NoteQuantity(notes: seq<Tx>, code: Option<string>): real { SumBy(NoteFor(code), notes) }

  /** A lot less what the notes take back of it. */
  function Adjusted(notes: seq<Tx>, t: Tx): Tx {
    if 0.0 <= NoteQuantity(notes, t.code) <= t.amount then t.(amount := t.amount - NoteQuantity(notes, t.code)) else t
  }

  function AdjustAll(notes: seq<Tx>, lots: seq<Tx>): seq<Tx> {
    seq(|lots|, i requires 0 <= i < |lots| => Adjusted(notes, lots[i]))
  }

  predicate Matched(lots: seq<Tx>, n: Tx) { IndexOf(lots, n.code) < |lots| }

  /** The split of a note that finds its lot. */
  function SplitOf(lots: seq<Tx>, n: Tx): seq<Tx> {
    if Matched(lots, n) then [NoteSplit(lots[IndexOf(lots, n.code)], n)] else []
  }

  function SplitsOf(notes: seq<Tx>, lots: seq<Tx>): seq<Tx> {
    if |notes| == 0 then [] else SplitsOf(notes[..|notes| - 1], lots) + SplitOf(lots, notes[|notes| - 1])
  }

  /** No lot gives up all it has. */
  ghost predicate Affordable(notes: seq<Tx>, lots: seq<Tx>) {
    forall i :: 0 <= i < |lots| ==> NoteQuantity(notes, lots[i].code) < lots[i].amount
  }

  lemma {:induction false} NoteQuantityNonNeg(notes: seq<Tx>, code: Option<string>)
    ensures NoteQuantity(notes, code) >= 0.0
  {
    SumNonNeg(NoteFor(code), notes);
  }

  lemma {:induction false} NoteQuantitySnoc(notes: seq<Tx>, n: Tx, code: Option<string>)
    ensures NoteQuantity(notes + [n], code) == NoteQuantity(notes, code) + if n.code == code then n.amount else 0.0
  {
    SumSnoc(NoteFor(code), notes, n);
  }

  lemma {:induction false} IndexOfSame(xs: seq<Tx>, ys: seq<Tx>, code: Option<string>)
    requires |xs| == |ys| && forall i :: 0 <= i < |xs| ==> xs[i].code == ys[i].code
    ensures IndexOf(xs, code) == IndexOf(ys, code)
  {
    var a, b := IndexOf(xs, code), IndexOf(ys, code);
    assert a < |xs| ==> ys[a].code == code;
    assert b < |ys| ==> xs[b].code == code;
  }

  /** What the credit-note loop computes, and exactly when it goes through. */
  lemma {:induction false} NotesForm(notes: seq<Tx>, lots: seq<Tx>)
    requires Distinct(CodeOf, lots) && Positive(lots) && forall k :: 0 <= k < |notes| ==> notes[k].amount > 0.0
    ensures ApplyNotes(notes, Start(lots)).Ok? <==> Affordable(notes, lots)
    ensures ApplyNotes(notes, Start(lots)).Ok? ==>
              var v := ApplyNotes(notes, Start(lots)).work;
                v.lots == AdjustAll(notes, lots) && v.created == SplitsOf(notes, lots)
    decreases |notes|
  {
    if |notes| == 0 {
      assert AdjustAll(notes, lots) == lots;
    } else {
      var init, n := notes[..|notes| - 1], notes[|notes| - 1];
      assert notes == init + [n];
      NotesForm(init, lots);
      assert OneMore(init, n, lots) by {
        forall i | 0 <= i < |lots|
          ensures NoteQuantity(init + [n], lots[i].code) == NoteQuantity(init, lots[i].code) + if n.code
               == lots[i].code then n.amount else 0.0
          ensures NoteQuantity(init, lots[i].code) >= 0.0
        {
          NoteQuantitySnoc(init, n, lots[i].code);
          NoteQuantityNonNeg(init, lots[i].code);
        }
      }
      if ApplyNotes(init, Start(lots)).Ok? {
        NoteFormStep(init, n, lots, ApplyNotes(init, Start(lots)).work);
      } else {
        var i :| 0 <= i < |lots| && NoteQuantity(init, lots[i].code) >= lots[i].amount;
        assert NoteQuantity(notes, lots[i].code) >= lots[i].amount;
      }
    }
  }

  /** One more note moves each lot's quantity by what it says. */
  ghost predicate OneMore(init: seq<Tx>, n: Tx, lots: seq<Tx>) {
    forall i :: 0 <= i < |lots| ==>
      && NoteQuantity(init, lots[i].code) >= 0.0
      && NoteQuantity(init + [n], lots[i].code) == NoteQuantity(init, lots[i].code) + if n.code == lots[i].code then
        n.amount else 0.0
  }

  lemma {:induction false} AdjustSame(ns: seq<Tx>, ms: seq<Tx>, lots: seq<Tx>)
    requires forall i :: 0 <= i < |lots| ==> NoteQuantity(ns, lots[i].code) == NoteQuantity(ms, lots[i].code)
    ensures AdjustAll(ns, lots) == AdjustAll(ms, lots)
  {}

  lemma {:induction false} NoteFormStep(init: seq<Tx>, n: Tx, lots: seq<Tx>, v: Work)
    requires Distinct(CodeOf, lots) && n.amount > 0.0 && Affordable(init, lots) && OneMore(init, n, lots)
    requires v.lots == AdjustAll(init, lots) && v.created == SplitsOf(init, lots)
    ensures var r := ApplyNote(n, v);
            && (r.Ok? <==> Affordable(init + [n], lots))
            && (r.Ok? ==>
                  r.work.lots == AdjustAll(init + [n], lots)
                    && r.work.created == SplitsOf(init, lots) + SplitOf(lots, n))
  {
    IndexOfSame(v.lots, lots, n.code);
    var j := IndexOf(lots, n.code);
    if j < |lots| {
      OnlyOne(lots, n.code, j);
      NoteFound(init, n, lots, v, j);
    } else {
      NoteLost(init, n, lots, v);
    }
  }

  lemma {:induction false} NoteLost(init: seq<Tx>, n: Tx, lots: seq<Tx>, v: Work)
    requires Affordable(init, lots) && OneMore(init, n, lots) && v.lots == AdjustAll(init, lots)
    requires IndexOf(v.lots, n.code) == |v.lots| == IndexOf(lots, n.code) == |lots|
    ensures ApplyNote(n, v) == Ok(v) && Affordable(init + [n], lots) && AdjustAll(init + [n], lots) == v.lots
    ensures SplitOf(lots, n) == [] && v.created + [] == v.created
  {
    AdjustSame(init, init + [n], lots);
  }

  lemma {:induction false} OnlyOne(lots: seq<Tx>, code: Option<string>, j: nat)
    requires Distinct(CodeOf, lots) && j < |lots| && lots[j].code == code
    ensures forall i :: 0 <= i < |lots| && i != j ==> lots[i].code != code
  {
    forall i | 0 <= i < |lots| && i != j ensures lots[i].code != code {
      assert i < j ==> CodeOf(lots[i]) != CodeOf(lots[j]);
      assert j < i ==> CodeOf(lots[j]) != CodeOf(lots[i]);
    }
  }

  lemma {:induction false} NoteFound(init: seq<Tx>, n: Tx, lots: seq<Tx>, v: Work, j: nat)
    requires n.amount > 0.0 && Affordable(init, lots) && OneMore(init, n, lots)
    requires v.lots == AdjustAll(init, lots) && v.created == SplitsOf(init, lots)
    requires j == IndexOf(v.lots, n.code) == IndexOf(lots, n.code) < |lots|
             && forall i :: 0 <= i < |lots| && i != j ==> lots[i].code != n.code
    ensures var r := ApplyNote(n, v);
            && (r.Ok? <==> Affordable(init + [n], lots))
            && (r.Ok? ==>
                  r.work.lots == AdjustAll(init + [n], lots)
                    && r.work.created == SplitsOf(init, lots) + SplitOf(lots, n))
  {
    var r := ApplyNote(n, v);
    assert v.lots[j].amount == lots[j].amount - NoteQuantity(init, lots[j].code);
    assert r.Ok? <==> NoteQuantity(init + [n], lots[j].code) < lots[j].amount;
    if r.Ok? {
      forall i | 0 <= i < |lots| ensures r.work.lots[i] == Adjusted(init + [n], lots[i]) {
        assert v.lots[i] == Adjusted(init, lots[i]);
      }
      assert NoteSplit(v.lots[j], n) == NoteSplit(lots[j], n);
    }
  }

  /** The number reported is that of the first note that would take all its purchase still holds. */
  lemma {:induction false} RejectsFirst(notes: seq<Tx>, lots: seq<Tx>)
    requires Distinct(CodeOf, lots) && Positive(lots) && forall k :: 0 <= k < |notes| ==> notes[k].amount > 0.0
    ensures var r := ApplyNotes(notes, Start(lots));
            r.Rejected? ==> exists k :: 0 <= k < |notes| && r.number == notes[k].creditNote
                                        && Affordable(notes[..k], lots) && !Affordable(notes[..k + 1], lots)
    decreases |notes|
  {
    if |notes| > 0 {
      var k := |notes| - 1;
      var init := notes[..k];
      assert notes[..k + 1] == notes;
      NotesForm(notes, lots);
      NotesForm(init, lots);
      if ApplyNotes(init, Start(lots)).Rejected? {
        RejectsFirst(init, lots);
        var j :| 0 <= j < |init| && ApplyNotes(init, Start(lots)).number == init[j].creditNote
                 && Affordable(init[..j], lots) && !Affordable(init[..j + 1], lots);
        assert notes[..j] == init[..j] && notes[..j + 1] == init[..j + 1];
      }
    }
  }

  /** A note is checked exactly when it finds its lot. */
  lemma {:induction false} NotesChecked(notes: seq<Tx>, lots: seq<Tx>, n: Tx)
    requires Distinct(CodeOf, lots) && Positive(lots) && forall k :: 0 <= k < |notes| ==> notes[k].amount > 0.0
    requires ApplyNotes(notes, Start(lots)).Ok? && n in notes && Distinct(IdOf, notes) && !Among(n.id, lots)
    ensures Lookup(ApplyNotes(notes, Start(lots)).work.updates, n) == if Matched(lots, n) then n.(checked := true) else
              n
    decreases |notes|
  {
    var k := |notes| - 1;
    var init, x := notes[..k], notes[k];
    assert notes == init + [x];
    var v := ApplyNotes(init, Start(lots)).work;
    NotesForm(init, lots);
    forall i | 0 <= i < |init| ensures init[i].id != x.id { assert IdOf(notes[i]) != IdOf(notes[k]); }
    if x == n {
      NotesStageOther(init, Start(lots), n);
      LastNote(n, v, lots);
    } else {
      NotesChecked(init, lots, n);
      OtherNote(x, v, n, lots);
    }
  }

  lemma {:induction false} LastNote(n: Tx, v: Work, lots: seq<Tx>)
    requires |v.lots| == |lots| && (forall i :: 0 <= i < |lots| ==> v.lots[i].code == lots[i].code)
    requires n.id !in v.updates && ApplyNote(n, v).Ok?
    ensures Lookup(ApplyNote(n, v).work.updates, n) == if Matched(lots, n) then n.(checked := true) else n
  {
    IndexOfSame(v.lots, lots, n.code);
  }

  /** A note leaves what is neither it nor its lot. */
  lemma {:induction false} OtherNote(x: Tx, v: Work, n: Tx, lots: seq<Tx>)
    requires SameIds(lots, v.lots) && !Among(n.id, lots) && x.id != n.id && ApplyNote(x, v).Ok?
    ensures Lookup(ApplyNote(x, v).work.updates, n) == Lookup(v.updates, n)
  {
    var j := IndexOf(v.lots, x.code);
    if j < |v.lots| { assert lots[j].id == v.lots[j].id != n.id; }
  }

  ghost predicate HasCode(lots: seq<Tx>, code: Option<string>) { exists i :: 0 <= i < |lots| && lots[i].code == code }

  lemma {:induction false} MatchedIff(lots: seq<Tx>, n: Tx)
    ensures Matched(lots, n) <==> HasCode(lots, n.code)
  {
    if Matched(lots, n) { assert lots[IndexOf(lots, n.code)].code == n.code; }
  }

  lemma {:induction false} NoteTakesExactly(note: Tx, w: Work)
    requires OpenRoots(w.lots) && ApplyNote(note, w).Ok?
    ensures SumBy(OpenQuantity, ApplyNote(note, w).work.lots)
         == SumBy(OpenQuantity, w.lots) - if Matched(w.lots, note) then note.amount else 0.0
    ensures OpenRoots(ApplyNote(note, w).work.lots)
  {
    var i := IndexOf(w.lots, note.code);
    if i < |w.lots| {
      SumUpdate(OpenQuantity, w.lots, i, w.lots[i].(amount := w.lots[i].amount - note.amount));
    }
  }

  function MatchedIn(lots: seq<Tx>): Tx -> bool { (n: Tx) => Matched(lots, n) }

  /** The notes take from the lots exactly what the matched ones say. */
  lemma {:induction false} NotesTakeExactly(notes: seq<Tx>, lots: seq<Tx>)
    requires OpenRoots(lots) && Positive(lots) && ApplyNotes(notes, Start(lots)).Ok?
    ensures var v := ApplyNotes(notes, Start(lots)).work;
            OpenRoots(v.lots)
              && SumBy(OpenQuantity, v.lots)
                == SumBy(OpenQuantity, lots) - SumBy(AmountOf, Filter(MatchedIn(lots), notes))
    decreases |notes|
  {
    if |notes| > 0 {
      var init, n := notes[..|notes| - 1], notes[|notes| - 1];
      NotesTakeExactly(init, lots);
      var v := ApplyNotes(init, Start(lots)).work;
      NotesFrame(init, Start(lots));
      IndexOfSame(v.lots, lots, n.code);
      NoteTakesExactly(n, v);
      if Matched(lots, n) { SumSnoc(AmountOf, Filter(MatchedIn(lots), init), n); }
    }
  }
}
