/** Credit notes over two runs and over one: which notes each applies, and what they take. */
module NoteRuns {
  import opened Lists
  import opened Ledger
  import opened Settlement
  import opened Calculation
  import opened Collected
  import opened NoteForm
  import opened TwoRuns

  /** The notes that the Map of a second run, up to `d2`, keeps of those the first left open. */
  function SecondKept(txs: seq<Tx>, d1: int, d2: int): seq<Tx> { Keyed(NumberOf, NotesLeft(txs, d1, d2)) }

  /** One run up to `d2` would apply every note that one of two runs applies: no such note is
      overwritten in the Map by a later one of its number. */
  ghost predicate NotesKept(txs: seq<Tx>, d1: int, d2: int) {
    && (forall n :: n in NotesBy(txs, d1) && Matched(Purchases(txs, d1), n) ==> n in NotesBy(txs, d2))
    && (forall n :: n in SecondKept(txs, d1, d2) && Matched(Purchases(txs, d2), n) ==> n in NotesBy(txs, d2))
  }

  /** With distinct numbers nothing is overwritten. */
  lemma {:induction false} DistinctKept(txs: seq<Tx>, d1: int, d2: int)
    requires d1 <= d2 && Distinct(NumberOf, Notes(txs, d2))
    ensures NotesKept(txs, d1, d2)
  {
    KeyedDistinct(NumberOf, Notes(txs, d2));
    KeyedKeys(NumberOf, Notes(txs, d1));
    KeyedKeys(NumberOf, NotesLeft(txs, d1, d2));
    FilterSound(StillOpen(txs, d1), Notes(txs, d2));
    FilterSound(OpenNotes(d1), txs);
    FilterSound(OpenNotes(d2), txs);
  }

  lemma {:induction false} MatchedLater(txs: seq<Tx>, d1: int, d2: int, n: Tx)
    requires d1 <= d2 && Matched(Purchases(txs, d1), n)
    ensures Matched(Purchases(txs, d2), n)
  {
    var ps, qs := Purchases(txs, d1), Purchases(txs, d2);
    MatchedIff(ps, n);
    MatchedIff(qs, n);
    FilterSound(OpenPurchases(d1), txs);
    FilterSound(OpenPurchases(d2), txs);
    var i :| 0 <= i < |ps| && ps[i].code == n.code;
    assert ps[i] in ps && ps[i] in qs;
    var k :| 0 <= k < |qs| && qs[k] == ps[i];
  }

  /** A note of the one run that the first of two does not apply is kept by the second. */
  lemma {:induction false} KeptAgain(txs: seq<Tx>, d1: int, d2: int, n: Tx)
    requires n in NotesBy(txs, d2) && StillOpen(txs, d1)(n)
    ensures n in SecondKept(txs, d1, d2)
  {
    KeyedPart(NumberOf, StillOpen(txs, d1), Notes(txs, d2), n);
  }

  // ----- What each run applies -----

  /** The notes applied by a run up to `d1`, by one after it, and by one run up to `d2`. */
  function AppliedNotes(txs: seq<Tx>, d1: int): seq<Tx> { Filter(MatchedIn(Purchases(txs, d1)), NotesBy(txs, d1)) }

  function ThenApplied(txs: seq<Tx>, d1: int, d2: int): seq<Tx> {
    Filter(MatchedIn(Purchases(txs, d2)), SecondKept(txs, d1, d2))
  }

  lemma {:induction false} AppliedApart(txs: seq<Tx>, d1: int, d2: int)
    requires Sound(txs)
    ensures Distinct(IdOf, AppliedNotes(txs, d1)) && Distinct(IdOf, ThenApplied(txs, d1, d2))
    ensures forall n :: n in AppliedNotes(txs, d1) <==> AppliedBy(txs, d1)(n)
    ensures forall n :: n in ThenApplied(txs, d1, d2) <==>
              n in SecondKept(txs, d1, d2) && Matched(Purchases(txs, d2), n)
    ensures forall n :: n in SecondKept(txs, d1, d2) ==> n in Notes(txs, d2) && !AppliedBy(txs, d1)(n)
  {
    KeptNotes(txs, d1);
    FilterSound(MatchedIn(Purchases(txs, d1)), NotesBy(txs, d1));
    FilterDistinct(IdOf, MatchedIn(Purchases(txs, d1)), NotesBy(txs, d1));
    var left, ns := NotesLeft(txs, d1, d2), SecondKept(txs, d1, d2);
    KeyedKeys(NumberOf, left);
    FilterSound(StillOpen(txs, d1), Notes(txs, d2));
    FilterSound(OpenNotes(d2), txs);
    forall i, j | 0 <= i < j < |ns| ensures IdOf(ns[i]) != IdOf(ns[j]) {
      assert ns[i] in ns && ns[j] in ns && NumberOf(ns[i]) != NumberOf(ns[j]);
      if IdOf(ns[i]) == IdOf(ns[j]) { SameIdSame(txs, ns[i], ns[j]); }
    }
    FilterSound(MatchedIn(Purchases(txs, d2)), ns);
    FilterDistinct(IdOf, MatchedIn(Purchases(txs, d2)), ns);
  }

  /** One run applies exactly what the two apply. */
  lemma {:induction false} AppliedInTwo(txs: seq<Tx>, d1: int, d2: int)
    requires Sound(txs) && d1 <= d2 && NotesKept(txs, d1, d2)
    ensures multiset(AppliedNotes(txs, d2)) == multiset(AppliedNotes(txs, d1)) + multiset(ThenApplied(txs, d1, d2))
  {
    AppliedApart(txs, d1, d2);
    AppliedApart(txs, d2, d2);
    forall n ensures n in AppliedNotes(txs, d2) <==> n in AppliedNotes(txs, d1) || n in ThenApplied(txs, d1, d2) {
      AppliedOnce(txs, d1, d2, n);
    }
    SplitMultiset(IdOf, AppliedNotes(txs, d2), AppliedNotes(txs, d1), ThenApplied(txs, d1, d2));
  }

  lemma {:induction false} AppliedOnce(txs: seq<Tx>, d1: int, d2: int, n: Tx)
    requires Sound(txs) && d1 <= d2 && NotesKept(txs, d1, d2)
    ensures AppliedBy(txs, d2)(n)
       <==> AppliedBy(txs, d1)(n) || (n in SecondKept(txs, d1, d2) && Matched(Purchases(txs, d2), n))
  {
    if AppliedBy(txs, d1)(n) {
      MatchedLater(txs, d1, d2, n);
    } else if n in NotesBy(txs, d2) {
      KeptAgain(txs, d1, d2, n);
    }
  }

  // ----- What the notes take of a lot -----

  lemma {:induction false} AppliedTake(lots: seq<Tx>, notes: seq<Tx>, code: Option<string>)
    ensures HasCode(lots, code) ==> NoteQuantity(notes, code) == NoteQuantity(Filter(MatchedIn(lots), notes), code)
    ensures !HasCode(lots, code) ==> NoteQuantity(Filter(MatchedIn(lots), notes), code) == 0.0
  {
    var applied := Filter(MatchedIn(lots), notes);
    FilterSound(MatchedIn(lots), notes);
    forall n ensures Matched(lots, n) <==> HasCode(lots, n.code) { MatchedIff(lots, n); }
    if HasCode(lots, code) {
      SumFilter(NoteFor(code), MatchedIn(lots), notes);
    } else {
      SumZero(NoteFor(code), applied);
    }
  }

  /** A lot gives up to the notes of one run what it gives up to those of two. */
  lemma {:induction false} QuantitiesAdd(txs: seq<Tx>, d1: int, d2: int, code: Option<string>)
    requires Sound(txs) && d1 <= d2 && NotesKept(txs, d1, d2) && HasCode(Purchases(txs, d2), code)
    ensures NoteQuantity(NotesBy(txs, d2), code)
         == NoteQuantity(SecondKept(txs, d1, d2), code)
            + if HasCode(Purchases(txs, d1), code) then NoteQuantity(NotesBy(txs, d1), code) else 0.0
  {
    var a, b, c := AppliedNotes(txs, d1), ThenApplied(txs, d1, d2), AppliedNotes(txs, d2);
    AppliedInTwo(txs, d1, d2);
    assert multiset(c) == multiset(a + b);
    SumPermuted(NoteFor(code), c, a + b);
    SumAppend(NoteFor(code), a, b);
    AppliedTake(Purchases(txs, d1), NotesBy(txs, d1), code);
    AppliedTake(Purchases(txs, d2), NotesBy(txs, d2), code);
    AppliedTake(Purchases(txs, d2), SecondKept(txs, d1, d2), code);
  }
}
