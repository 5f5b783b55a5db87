/** What a calculation depends on: the open replicas up to its date, and nothing else. */
module Congruence {
  import opened Lists
  import opened Ledger
  import opened FifoOrder
  import opened Settlement
  import opened Calculation
  import opened Books
  import opened Collected
  import opened Commitment
  import opened Guard
  import opened RunAlgebra
  import opened NoteForm
  import opened TwoRuns
  import opened NoteRuns
  import opened Incremental
  import opened Batch

  /** The same collected transactions up to `d`. */
  ghost predicate SameOpen(a: seq<Tx>, b: seq<Tx>, d: int) {
    Purchases(a, d) == Purchases(b, d) && Sales(a, d) == Sales(b, d) && Notes(a, d) == Notes(b, d)
  }

  lemma {:induction false} SameSettle(cfg: Config, fin: seq<FinTx>, a: seq<Tx>, b: seq<Tx>, d: int)
    requires SameOpen(a, b, d)
    ensures Settle(cfg, fin, a, d) == Settle(cfg, fin, b, d) && SortedSales(a, d) == SortedSales(b, d)
    ensures SalesTotal(a, d) == SalesTotal(b, d) && PurchasesTotal(a, d) == PurchasesTotal(b, d)
  {}

  /** Only replicas are collected. */
  lemma {:induction false} CollectedReplicas(txs: seq<Tx>, d: int)
    requires AllWellFormed(txs)
    ensures SameOpen(txs, Filter(IsReplica, txs), d)
  {
    FilterTwice(IsReplica, OpenPurchases(d), OpenPurchases(d), txs);
    FilterTwice(IsReplica, OpenSales(d), OpenSales(d), txs);
    FilterTwice(IsReplica, OpenNotes(d), OpenNotes(d), txs);
  }

  lemma {:induction false} SameReplicas(a: seq<Tx>, b: seq<Tx>, d: int)
    requires AllWellFormed(a) && AllWellFormed(b) && Filter(IsReplica, a) == Filter(IsReplica, b)
    ensures SameOpen(a, b, d)
  {
    CollectedReplicas(a, d);
    CollectedReplicas(b, d);
  }

  /** Leaving out transactions after `d` leaves the collection up to `d`. */
  lemma {:induction false} LaterDropped(p: Tx -> bool, txs: seq<Tx>, d: int)
    requires forall t :: t in txs && !p(t) ==> t.date > d
    ensures SameOpen(txs, Filter(p, txs), d)
  {
    FilterTwice(p, OpenPurchases(d), OpenPurchases(d), txs);
    FilterTwice(p, OpenSales(d), OpenSales(d), txs);
    FilterTwice(p, OpenNotes(d), OpenNotes(d), txs);
  }

  lemma {:induction false} LaterAdded(txs: seq<Tx>, t: Tx, d: int)
    requires t.date > d
    ensures SameOpen(txs, txs + [t], d)
  {
    FilterSnoc(OpenPurchases(d), txs, t);
    FilterSnoc(OpenSales(d), txs, t);
    FilterSnoc(OpenNotes(d), txs, t);
  }

  /** Calculating on the same book leaves the same book. */
  lemma {:induction false} SameAfter(cfg: Config, fin: seq<FinTx>, a: State, b: State, d: int)
    requires SameBook(a, b) && Passes(cfg, fin, a, d) && Valid(b) && CodesApart(b.txs)
    ensures Passes(cfg, fin, b, d)
    ensures SameBook(After1(cfg, fin, a, d), After1(cfg, fin, b, d))
  {
    SameReplicas(a.txs, b.txs, d);
    SameSettle(cfg, fin, a.txs, b.txs, d);
    CommitReplicas(cfg, fin, a, d);
    CommitReplicas(cfg, fin, b, d);
    CommitSplits(cfg, fin, a, d);
    CommitSplits(cfg, fin, b, d);
    AfterCogs(cfg, fin, a, d);
    AfterCogs(cfg, fin, b, d);
    SameDate(a.calcDate, b.calcDate, SortedSales(a.txs, d));
  }

  lemma {:induction false} SameDate(a: CalcDate, b: CalcDate, sales: seq<Tx>)
    requires a.Value() == b.Value()
    ensures NewCalcDate(a, sales).Value() == NewCalcDate(b, sales).Value()
  {}

  // ----- Calculations that need nothing after their last sale -----

  /** Without credit notes a run starts from the collected lots. */
  lemma {:induction false} PlainOpening(txs: seq<Tx>, d: int)
    requires Sound(txs) && Notes(txs, d) == []
    ensures Opening(txs, d) == Ok(Start(Lots(txs, d)))
  {
    LotsAreThePurchases(txs, d);
  }

  /** The date of the last collected sale. */
  function LastDate(txs: seq<Tx>, d: int): int
    requires |SortedSales(txs, d)| > 0
  {
    SortedSales(txs, d)[|SortedSales(txs, d)| - 1].date
  }

  /** The collected sales are covered by purchases dated no later than the last of them. */
  ghost predicate Timely(txs: seq<Tx>, d: int) {
    |SortedSales(txs, d)| > 0 ==> SalesTotal(txs, LastDate(txs, d)) <= PurchasesTotal(txs, LastDate(txs, d))
  }

  lemma {:induction false} SalesUpToLast(txs: seq<Tx>, d: int)
    requires AllWellFormed(txs) && Distinct(IdOf, txs) && |SortedSales(txs, d)| > 0
    ensures LastDate(txs, d) <= d && Sales(txs, LastDate(txs, d)) == Sales(txs, d)
  {
    var c := LastDate(txs, d);
    CollectedReady(txs, d);
    SortContents(Sales(txs, d));
    SortLast(Sales(txs, d));
    FilterSound(OpenSales(d), txs);
    FilterTwice(OpenSales(d), UpTo(c), OpenSales(c), txs);
    FilterAll(UpTo(c), Sales(txs, d));
  }

  /** The credit notes that are applied are dated no later than the last collected sale, and so are
      the purchases that they are for. */
  ghost predicate NotesInTime(txs: seq<Tx>, d: int) {
    |SortedSales(txs, d)| > 0 ==> AppliedNotes(txs, LastDate(txs, d)) == AppliedNotes(txs, d)
  }

  lemma {:induction false} NoNotesInTime(txs: seq<Tx>, d: int)
    requires Distinct(IdOf, txs) && AllWellFormed(txs) && Notes(txs, d) == []
    ensures NotesInTime(txs, d)
  {
    if |SortedSales(txs, d)| > 0 {
      SalesUpToLast(txs, d);
      FilterTwice(OpenNotes(d), UpTo(LastDate(txs, d)), OpenNotes(LastDate(txs, d)), txs);
    }
  }

  /** A timely calculation comes out as if it were made up to the last sale it settles. */
  lemma {:induction false} Truncated(cfg: Config, fin: seq<FinTx>, s: State, d: int)
    requires Passes(cfg, fin, s, d) && |SortedSales(s.txs, d)| > 0 && Timely(s.txs, d) && NotesInTime(s.txs, d)
    ensures var c := LastDate(s.txs, d);
            && Passes(cfg, fin, s, c) && After1(cfg, fin, s, c) == After1(cfg, fin, s, d)
            && SortedSales(s.txs, c) == SortedSales(s.txs, d)
  {
    SalesUpToLast(s.txs, d);
    TruncatedSettle(cfg, fin, s, LastDate(s.txs, d), d);
  }

  /** Sales covered by the purchases up to `c` do not see the later ones. */
  lemma {:induction false} TruncatedSettle(cfg: Config, fin: seq<FinTx>, s: State, c: int, d: int)
    requires Passes(cfg, fin, s, d) && c <= d && Sales(s.txs, c) == Sales(s.txs, d)
             && AppliedNotes(s.txs, c) == AppliedNotes(s.txs, d)
    requires SalesTotal(s.txs, c) <= PurchasesTotal(s.txs, c)
    ensures Settle(cfg, fin, s.txs, c).Ok?
    ensures var v, w := Settle(cfg, fin, s.txs, c).work, Settle(cfg, fin, s.txs, d).work;
            v.updates == w.updates && v.created == w.created && v.cogs == w.cogs
  {
    var later := TruncatedOpening(s.txs, c, d);
    RunMoversLawful(cfg, fin);
    GuardCovers(s.txs, c);
    SalesPositive(s.txs, c);
    RunSuffix(RunMovers(cfg, fin), cfg.halfUnit, SortedSales(s.txs, c), Opening(s.txs, c).work, later);
  }

  /** The opening up to `c` is that up to `d` without the later lots. */
  lemma {:induction false} TruncatedOpening(txs: seq<Tx>, c: int, d: int) returns (later: seq<Tx>)
    requires Sound(txs) && Opening(txs, d).Ok? && c <= d && AppliedNotes(txs, c) == AppliedNotes(txs, d)
    ensures Opening(txs, c).Ok?
    ensures var v, w := Opening(txs, c).work, Opening(txs, d).work; w == v.(lots := v.lots + later)
  {
    var ns, v, w := AppliedNotes(txs, d), Start(Purchases(txs, c)), Start(Purchases(txs, d));
    LotsAreThePurchases(txs, c);
    LotsAreThePurchases(txs, d);
    CollectedCodes(txs, d);
    FilterTwice(OpenPurchases(d), UpTo(c), OpenPurchases(c), txs);
    MatchedOnly(NotesBy(txs, c), v);
    MatchedOnly(NotesBy(txs, d), w);
    FilterSound(MatchedIn(v.lots), NotesBy(txs, c));
    NotesWithin(ns, v, w, c);
    SortSplit(ApplyNotes(ns, w).work.lots, c);
    later := Sort(Filter(After(c), ApplyNotes(ns, w).work.lots));
  }

  /** Credit notes that find no lot do nothing. */
  lemma {:induction false} MatchedOnly(notes: seq<Tx>, w: Work)
    ensures ApplyNotes(Filter(MatchedIn(w.lots), notes), w) == ApplyNotes(notes, w)
    ensures ApplyNotes(notes, w).Ok? ==> SameCodes(w.lots, ApplyNotes(notes, w).work.lots)
    decreases |notes|
  {
    if |notes| > 0 {
      var init, n := notes[..|notes| - 1], notes[|notes| - 1];
      assert notes == init + [n];
      var kept := Filter(MatchedIn(w.lots), init);
      MatchedOnly(init, w);
      FilterSnoc(MatchedIn(w.lots), init, n);
      assert (kept + [n])[..|kept|] == kept;
      if ApplyNotes(init, w).Ok? { NoteOn(n, w, ApplyNotes(init, w).work); }
    }
  }

  lemma {:induction false} NoteOn(n: Tx, w: Work, w': Work)
    requires SameCodes(w.lots, w'.lots)
    ensures ApplyNote(n, w').Ok? ==> SameCodes(w.lots, ApplyNote(n, w').work.lots)
    ensures !Matched(w.lots, n) ==> ApplyNote(n, w') == Ok(w')
  {
    IndexOfSame(w.lots, w'.lots, n.code);
    if ApplyNote(n, w').Ok? { NoteCodes(n, w'); }
  }

  /** `v` has of the lots of `w` those up to `c`, and has staged the same. */
  ghost predicate Within(v: Work, w: Work, c: int) {
    v == w.(lots := Filter(UpTo(c), w.lots)) && Distinct(CodeOf, w.lots)
  }

  /** Credit notes that find no lot after `c` do not see the lots after `c`. */
  lemma {:induction false} NotesWithin(notes: seq<Tx>, v: Work, w: Work, c: int)
    requires Within(v, w, c) && ApplyNotes(notes, w).Ok?
    requires forall n :: n in notes && Matched(w.lots, n) ==> Matched(v.lots, n)
    ensures ApplyNotes(notes, v).Ok? && Within(ApplyNotes(notes, v).work, ApplyNotes(notes, w).work, c)
    ensures SameCodes(v.lots, ApplyNotes(notes, v).work.lots) && SameCodes(w.lots, ApplyNotes(notes, w).work.lots)
    decreases |notes|
  {
    if |notes| > 0 {
      var init, n := notes[..|notes| - 1], notes[|notes| - 1];
      assert notes == init + [n];
      NotesWithin(init, v, w, c);
      var v', w' := ApplyNotes(init, v).work, ApplyNotes(init, w).work;
      assert Matched(w'.lots, n) ==> Matched(v'.lots, n) by {
        assert n in notes;
        IndexOfSame(v.lots, v'.lots, n.code);
        IndexOfSame(w.lots, w'.lots, n.code);
      }
      NoteWithin(n, v', w', c);
      NoteCodes(n, v');
      NoteCodes(n, w');
    }
  }

  ghost predicate SameCodes(xs: seq<Tx>, ys: seq<Tx>) {
    |xs| == |ys| && forall i :: 0 <= i < |xs| ==> xs[i].code == ys[i].code
  }

  lemma {:induction false} NoteCodes(n: Tx, w: Work)
    requires ApplyNote(n, w).Ok?
    ensures SameCodes(w.lots, ApplyNote(n, w).work.lots)
  {}

  /** What a note makes of a run when it finds its lot at place `i`. */
  function NotedAt(n: Tx, w: Work, i: nat): Work
    requires i < |w.lots| && w.lots[i].amount - n.amount > 0.0
  {
    var lot := w.lots[i].(amount := w.lots[i].amount - n.amount);
    Work(w.lots[i := lot], w.updates[lot.id := lot][n.id := n.(checked := true)], w.created
         + [NoteSplit(w.lots[i], n)], w.cogs, w.done)
  }

  lemma {:induction false} NoteAt(n: Tx, w: Work, i: nat)
    requires i == IndexOf(w.lots, n.code) < |w.lots|
    ensures if w.lots[i].amount - n.amount > 0.0 then ApplyNote(n, w) == Ok(NotedAt(n, w, i)) else
              ApplyNote(n, w).Rejected?
  {}

  lemma {:induction false} NoteWithin(n: Tx, v: Work, w: Work, c: int)
    requires Within(v, w, c) && ApplyNote(n, w).Ok? && (Matched(w.lots, n) ==> Matched(v.lots, n))
    ensures ApplyNote(n, v).Ok? && Within(ApplyNote(n, v).work, ApplyNote(n, w).work, c)
  {
    var i, j := IndexOf(w.lots, n.code), IndexOf(v.lots, n.code);
    if j < |v.lots| {
      SameFound(UpTo(c), w.lots, n.code);
      NoteAt(n, w, i);
      NoteAt(n, v, j);
      NotedWithin(n, v, w, c, i, j);
    }
  }

  lemma {:induction false} NotedWithin(n: Tx, v: Work, w: Work, c: int, i: nat, j: nat)
    requires Within(v, w, c) && i < |w.lots| && j < |v.lots| && v.lots[j] == w.lots[i]
             && w.lots[i].amount - n.amount > 0.0
    requires UpTo(c)(w.lots[i])
    ensures Within(NotedAt(n, v, j), NotedAt(n, w, i), c)
  {
    var lot := w.lots[i].(amount := w.lots[i].amount - n.amount);
    FilterUpdate(UpTo(c), w.lots, i, lot, j);
    CodesStay(w.lots, i, lot);
  }

  /** What is found among the kept elements is found among all. */
  lemma {:induction false} SameFound(p: Tx -> bool, xs: seq<Tx>, code: Option<string>)
    requires Distinct(CodeOf, xs) && IndexOf(Filter(p, xs), code) < |Filter(p, xs)|
    ensures var i, j := IndexOf(xs, code), IndexOf(Filter(p, xs), code);
            i < |xs| && Filter(p, xs)[j] == xs[i] && p(xs[i])
  {
    var t := Filter(p, xs)[IndexOf(Filter(p, xs), code)];
    FilterSound(p, xs);
    assert t in xs;
    var k :| 0 <= k < |xs| && xs[k] == t;
    OnlyOne(xs, code, k);
  }

  lemma {:induction false} CodesStay(xs: seq<Tx>, i: nat, x: Tx)
    requires Distinct(CodeOf, xs) && i < |xs| && x.code == xs[i].code
    ensures Distinct(CodeOf, xs[i := x])
  {
    var ys := xs[i := x];
    forall a, b | 0 <= a < b < |ys| ensures CodeOf(ys[a]) != CodeOf(ys[b]) { assert CodeOf(xs[a]) != CodeOf(xs[b]); }
  }

  /** Filtering a list in which one kept element is replaced. */
  lemma {:induction false} FilterUpdate(p: Tx -> bool, xs: seq<Tx>, i: nat, x: Tx, j: nat)
    requires i < |xs| && p(xs[i]) && p(x) && Distinct(CodeOf, xs) && j < |Filter(p, xs)| && Filter(p, xs)[j] == xs[i]
    ensures Filter(p, xs[i := x]) == Filter(p, xs)[j := x]
  {
    var a, b, ys := Filter(p, xs[..i]), Filter(p, xs[i + 1..]), Filter(p, xs);
    assert xs == xs[..i] + [xs[i]] + xs[i + 1..];
    assert xs[i := x] == xs[..i] + [x] + xs[i + 1..];
    FilterAppend(p, xs[..i] + [xs[i]], xs[i + 1..]);
    FilterAppend(p, xs[..i] + [x], xs[i + 1..]);
    FilterSnoc(p, xs[..i], xs[i]);
    FilterSnoc(p, xs[..i], x);
    assert ys == a + [xs[i]] + b;
    FilterDistinct(CodeOf, p, xs);
    OneCode(ys, j, |a|);
    UpdateAt(a, xs[i], x, b);
  }

  lemma {:induction false} UpdateAt(a: seq<Tx>, x: Tx, y: Tx, b: seq<Tx>)
    ensures (a + [x] + b)[|a| := y] == a + [y] + b
  {}

  lemma {:induction false} OneCode(xs: seq<Tx>, i: nat, j: nat)
    requires Distinct(CodeOf, xs) && i < |xs| && j < |xs| && xs[i] == xs[j]
    ensures i == j
  {
    assert CodeOf(xs[i]) == CodeOf(xs[j]);
  }
}
