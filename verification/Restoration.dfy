/** Reset undoes any number of calculations: it always gives back the replication of the
    documents that arrived and were not deleted. */
module Restoration {
  import opened Lists
  import opened Ledger
  import opened Calculation
  import opened Reset
  import opened Replication
  import opened Books
  import opened Collected
  import opened Commitment
  import opened ResetFacts
  import opened Runs

  function Anonymous(t: Tx): Tx { t.(id := 0) }

  function AnonymousAll(txs: seq<Tx>): seq<Tx> { seq(|txs|, i requires 0 <= i < |txs| => Anonymous(txs[i])) }

  function OtherRemote(id: nat): Tx -> bool { (t: Tx) => t.remote != Fin(id) }

  /** One event seen by replication alone: the replicas that stand after it, whatever their ids. */
  function Replicate(reps: seq<Tx>, step: Step): seq<Tx> {
    match step
    case Arrival(f, millis) =>
      if f.posted && Replica(f, 0, millis).Some? && forall t :: t in reps ==> t.remote != Fin(f.id)
      then reps + [Replica(f, 0, millis).value] else reps
    case Deletion(f) => if f.posted && IsPurchaseDocument(f) then Filter(OtherRemote(f.id), reps) else reps
    case _ => reps
  }

  /** The replicas that stand after some events, as posted: no calculation is ever made. */
  function Replicated(steps: seq<Step>): seq<Tx>
    decreases |steps|
  {
    if |steps| == 0 then [] else Replicate(Replicated(steps[..|steps| - 1]), steps[|steps| - 1])
  }

  /** A document is found in the book exactly when its replica stands. */
  lemma {:induction false} FoundIff(s: State, id: nat)
    requires Inv(s)
    ensures |Filter(HasRemote(id), s.txs)| > 0 <==> exists t :: t in AnonymousAll(Origin(s.txs)) && t.remote == Fin(id)
  {
    var found := Filter(HasRemote(id), s.txs);
    if |found| > 0 {
      assert found[0] in found;
      FilterSound(HasRemote(id), s.txs);
      FilterSound(IsReplica, s.txs);
      assert WellFormed(found[0]);
      StandsAt(Filter(IsReplica, s.txs), found[0]);
    }
    if t :| t in AnonymousAll(Origin(s.txs)) && t.remote == Fin(id) { StandingFound(s.txs, id, t); }
  }

  lemma {:induction false} StandingFound(txs: seq<Tx>, id: nat, t: Tx)
    requires t in AnonymousAll(Origin(txs)) && t.remote == Fin(id)
    ensures |Filter(HasRemote(id), txs)| > 0
  {
    var rs, os := Filter(IsReplica, txs), AnonymousAll(Origin(txs));
    var i :| 0 <= i < |os| && os[i] == t;
    assert rs[i] in rs && rs[i].remote == Fin(id);
    FilterSound(IsReplica, txs);
    FilterSound(HasRemote(id), txs);
    assert rs[i] in Filter(HasRemote(id), txs);
  }

  lemma {:induction false} StandsAt(rs: seq<Tx>, t: Tx)
    requires t in rs
    ensures exists x :: x in AnonymousAll(FreshAll(rs)) && x.remote == t.remote
  {
    var i :| 0 <= i < |rs| && rs[i] == t;
    assert AnonymousAll(FreshAll(rs))[i] in AnonymousAll(FreshAll(rs));
  }

  lemma {:induction false} ReplicaAnonymous(f: FinTx, id: nat, millis: nat)
    ensures Replica(f, id, millis).Some? == Replica(f, 0, millis).Some?
    ensures Replica(f, id, millis).Some? ==> Anonymous(Replica(f, id, millis).value) == Replica(f, 0, millis).value
  {}

  lemma {:induction false} ArriveReplicates(s: State, f: FinTx, millis: nat)
    requires Inv(s)
    ensures AnonymousAll(Origin(Arrive(s, f, millis).txs)) == Replicate(AnonymousAll(Origin(s.txs)), Arrival(f, millis))
  {
    FoundIff(s, f.id);
    ReplicaAnonymous(f, s.nextId, millis);
    if Arrive(s, f, millis) != s {
      ReplicaShape(f, s.nextId, millis);
      OriginSnoc(s.txs, Replica(f, s.nextId, millis).value);
    }
  }

  lemma {:induction false} OriginSnoc(txs: seq<Tx>, t: Tx)
    requires IsReplica(t) && Fresh(t) == t
    ensures AnonymousAll(Origin(txs + [t])) == AnonymousAll(Origin(txs)) + [Anonymous(t)]
  {
    FilterSnoc(IsReplica, txs, t);
  }

  // ----- Deletions -----

  lemma {:induction false} FreshFilter(id: nat, rs: seq<Tx>)
    ensures AnonymousAll(FreshAll(Filter(OtherRemote(id), rs))) == Filter(OtherRemote(id), AnonymousAll(FreshAll(rs)))
  {
    if |rs| > 0 {
      var init, x := rs[..|rs| - 1], rs[|rs| - 1];
      FreshFilter(id, init);
      assert AnonymousAll(FreshAll(rs))[..|rs| - 1] == AnonymousAll(FreshAll(init));
    }
  }

  /** Among the replicas, a family is its root alone. */
  lemma {:induction false} FamilyOfReplicas(s: State, t: Tx, id: nat)
    requires Inv(s) && t in s.txs && t.remote == Fin(id)
    ensures Filter(IsReplica, Filter(OutOfFamily(t), s.txs)) == Filter(OtherRemote(id), Filter(IsReplica, s.txs))
  {
    var both := (x: Tx) => IsReplica(x) && OutOfFamily(t)(x);
    forall x | x in s.txs && IsReplica(x) ensures OutOfFamily(t)(x) == OtherRemote(id)(x) {
      if x.remote == Fin(id) {
        var i :| 0 <= i < |s.txs| && s.txs[i] == x;
        var j :| 0 <= j < |s.txs| && s.txs[j] == t;
        assert i == j;
      } else if x.id == t.id {
        SameIdSame(s.txs, x, t);
      }
    }
    FilterTwice(OutOfFamily(t), IsReplica, both, s.txs);
    FilterTwice(IsReplica, OtherRemote(id), both, s.txs);
  }

  lemma {:induction false} DeleteReplicates(s: State, f: FinTx)
    requires Inv(s)
    ensures AnonymousAll(Origin(Delete(s, f).txs)) == Replicate(AnonymousAll(Origin(s.txs)), Deletion(f))
  {
    if f.posted && IsPurchaseDocument(f) {
      FoundIff(s, f.id);
      var found := Filter(HasRemote(f.id), s.txs);
      if |found| == 0 {
        FilterAll(OtherRemote(f.id), AnonymousAll(Origin(s.txs)));
      } else {
        FilterSound(HasRemote(f.id), s.txs);
        assert found[0] in found;
        FamilyOfReplicas(s, found[0], f.id);
        FreshFilter(f.id, Filter(IsReplica, s.txs));
      }
    }
  }

  // ----- Calculations and resets -----

  lemma {:induction false} OriginTwice(txs: seq<Tx>)
    requires AllWellFormed(txs)
    ensures Origin(Origin(txs)) == Origin(txs)
  {
    var rs := Filter(IsReplica, txs);
    FilterSound(IsReplica, txs);
    forall i | 0 <= i < |rs| ensures IsReplica(Fresh(rs[i])) && Fresh(Fresh(rs[i])) == Fresh(rs[i]) {
      assert rs[i] in rs;
      FreshShape(rs[i]);
    }
    FilterAll(IsReplica, Origin(txs));
  }

  lemma {:induction false} ResetOrigin(s: State)
    requires Inv(s)
    ensures Origin(ResetState(s).txs) == Origin(s.txs)
  {
    if !ResetLocked(s) {
      ResetGivesOrigin(s);
      OriginTwice(s.txs);
    }
  }

  lemma {:induction false} CalculateOrigin(cfg: Config, fin: seq<FinTx>, s: State, d: int)
    requires Inv(s)
    ensures Origin(Calculate(cfg, fin, s, d).1.txs) == Origin(s.txs)
  {
    if Calculate(cfg, fin, s, d).0.Calculated? {
      CommitOrigin(cfg, fin, s, d);
    }
  }

  /** Whatever happens, the origin of the book is what replication alone would have made. */
  lemma {:induction false} RunReplicates(cfg: Config, steps: seq<Step>)
    requires AdmissibleRun(cfg, steps) && cfg.halfUnit > 0.0
    ensures AnonymousAll(Origin(Run(cfg, steps).txs)) == Replicated(steps)
    decreases |steps|
  {
    if |steps| > 0 {
      var init, step := steps[..|steps| - 1], steps[|steps| - 1];
      var s := Run(cfg, init);
      RunReplicates(cfg, init);
      RunKeeps(cfg, init);
      match step
      case Arrival(f, millis) => ArriveReplicates(s, f, millis);
      case Calculating(fin, d) =>
        if s.rebuild { ResetOrigin(s); } else { CalculateOrigin(cfg, fin, s, d); }
      case Resetting => ResetOrigin(s);
      case Deletion(f) => DeleteReplicates(s, f);
      case Locking(ids, cogs) =>
    }
  }

  /** Reset inverts any number of calculates: after any run, with nothing locked, it leaves the
      fresh replication of the standing documents, no COGS postings, no flag and no date. */
  lemma {:induction false} ResetRestores(cfg: Config, steps: seq<Step>)
    requires AdmissibleRun(cfg, steps) && cfg.halfUnit > 0.0 && !ResetLocked(Run(cfg, steps))
    ensures var s' := ResetState(Run(cfg, steps));
            AnonymousAll(s'.txs) == Replicated(steps) && s'.cogs == [] && !s'.rebuild && s'.calcDate.Value() == None
  {
    RunKeeps(cfg, steps);
    RunReplicates(cfg, steps);
    ResetGivesOrigin(Run(cfg, steps));
  }

  /** A second reset changes nothing. */
  lemma {:induction false} ResetIdempotent(s: State)
    requires Inv(s)
    ensures ResetState(ResetState(s)) == ResetState(s)
  {
    if !ResetLocked(s) {
      var s' := ResetState(s);
      ResetGivesOrigin(s);
      ResetKeeps(s);
      OriginTwice(s.txs);
      ResetAgainUnlocked(s);
      ResetGivesOrigin(s');
    }
  }

  /** What a second reset stages was staged, and found unlocked, by the first. */
  lemma {:induction false} ResetAgainUnlocked(s: State)
    requires Inv(s) && !ResetLocked(s)
    ensures !ResetLocked(ResetState(s))
  {
    var os := Origin(s.txs);
    ResetGivesOrigin(s);
    OriginStages(s.txs);
    assert forall id :: id in UpdateMap(os).Keys * s.locked ==>
             id in (UpdateMap(s.txs).Keys + TrashSet(s.txs)) * s.locked;
    assert UpdateMap(os).Keys + {} == UpdateMap(os).Keys && {} * s.cogsLocked == {};
  }

  /** A fresh book stages updates only, and of transactions that were staged before. */
  lemma {:induction false} OriginStages(txs: seq<Tx>)
    requires AllWellFormed(txs)
    ensures UpdateMap(Origin(txs)).Keys <= UpdateMap(txs).Keys && TrashSet(Origin(txs)) == {}
            && CogsTrash(Origin(txs), []) == {}
  {
    var rs, os := Filter(IsReplica, txs), Origin(txs);
    FilterSound(IsReplica, txs);
    forall id | id in UpdateMap(os) ensures id in UpdateMap(txs) {
      StagedAgain(os, id);
      var i :| 0 <= i < |os| && os[i].id == id && ResetUpdates(os[i]);
      assert rs[i] in rs && ResetUpdates(rs[i]);
      StagedOnce(txs, rs[i]);
    }
    forall t | t in os ensures !ResetTrashes(t) {
      var i :| 0 <= i < |os| && os[i] == t;
      assert rs[i] in rs;
    }
  }

  lemma {:induction false} StagedAgain(txs: seq<Tx>, id: nat)
    requires id in UpdateMap(txs)
    ensures exists i :: 0 <= i < |txs| && txs[i].id == id && ResetUpdates(txs[i])
  {
    var n := |txs| - 1;
    if !(ResetUpdates(txs[n]) && txs[n].id == id) {
      StagedAgain(txs[..n], id);
    }
  }

  lemma {:induction false} StagedOnce(txs: seq<Tx>, t: Tx)
    requires t in txs && ResetUpdates(t)
    ensures t.id in UpdateMap(txs)
  {
    var n := |txs| - 1;
    if txs[n] != t {
      var i :| 0 <= i < |txs| && txs[i] == t;
      assert txs[..n][i] == t;
      StagedOnce(txs[..n], t);
    }
  }

  // ----- Delete, then reset -----

  function NotArrivalOf(id: nat): Step -> bool { (step: Step) => !(step.Arrival? && step.f.id == id) }

  /** Without the arrivals of a document, replication makes the same book without its replica. */
  lemma {:induction false} NeverArrived(steps: seq<Step>, id: nat)
    ensures Replicated(Filter(NotArrivalOf(id), steps)) == Filter(OtherRemote(id), Replicated(steps))
    decreases |steps|
  {
    if |steps| > 0 {
      var init, step := steps[..|steps| - 1], steps[|steps| - 1];
      NeverArrived(init, id);
      var fs := Filter(NotArrivalOf(id), init);
      assert (fs + [step])[..|fs|] == fs;
      ReplicateOther(Replicated(init), step, id);
    }
  }

  lemma {:induction false} ReplicateOther(reps: seq<Tx>, step: Step, id: nat)
    ensures var others := Filter(OtherRemote(id), reps);
            Filter(OtherRemote(id), Replicate(reps, step)) == if NotArrivalOf(id)(step) then
              Replicate(others, step) else others
  {
    FilterSound(OtherRemote(id), reps);
    if step.Arrival? {
      ReplicaAnonymousRemote(step.f, step.millis);
      if Replicate(reps, step) != reps {
        FilterSnoc(OtherRemote(id), reps, Replica(step.f, 0, step.millis).value);
      }
    } else if step.Deletion? {
      var both := (t: Tx) => OtherRemote(id)(t) && OtherRemote(step.f.id)(t);
      FilterTwice(OtherRemote(id), OtherRemote(step.f.id), both, reps);
      FilterTwice(OtherRemote(step.f.id), OtherRemote(id), both, reps);
    }
  }

  lemma {:induction false} ReplicaAnonymousRemote(f: FinTx, millis: nat)
    ensures Replica(f, 0, millis).Some? ==> Replica(f, 0, millis).value.remote == Fin(f.id)
  {}

  /** After a purchase document is deleted, nothing names its replica as parent. */
  lemma {:induction false} DeleteCascades(s: State, f: FinTx, root: Tx)
    requires Inv(s) && f.posted && IsPurchaseDocument(f) && root in s.txs && root.remote == Fin(f.id)
             && root.originalQuantity.Some?
    ensures forall t :: t in Delete(s, f).txs ==> t.parent != Some(root.id) && t.id != root.id && t.remote != Fin(f.id)
  {
    var found := Filter(HasRemote(f.id), s.txs);
    FilterSound(HasRemote(f.id), s.txs);
    assert root in found;
    assert found[0] in found;
    SameRemote(s.txs, found[0], root);
    FilterSound(OutOfFamily(root), s.txs);
    forall t | t in Delete(s, f).txs ensures t.remote != Fin(f.id) {
      if t.remote == Fin(f.id) { SameRemote(s.txs, t, root); }
    }
  }

  lemma {:induction false} SameRemote(txs: seq<Tx>, a: Tx, b: Tx)
    requires RemotesApart(txs) && a in txs && b in txs && a.remote == b.remote && a.remote.Fin?
    ensures a == b
  {
    var i :| 0 <= i < |txs| && txs[i] == a;
    var j :| 0 <= j < |txs| && txs[j] == b;
    assert i == j;
  }

  // ----- A history without a document -----

  /** The origin of `a` is that of `b` without the replica of document `id`. */
  ghost predicate OriginWithout(a: State, b: State, id: nat) {
    AnonymousAll(Origin(a.txs)) == Filter(OtherRemote(id), AnonymousAll(Origin(b.txs)))
  }

  /** A replica of the smaller book stands, as posted, in the larger one. */
  lemma {:induction false} ReplicaBehind(a: State, b: State, id: nat, t: Tx) returns (x: Tx)
    requires Inv(a) && Inv(b) && OriginWithout(a, b, id) && t in a.txs && IsReplica(t)
    ensures x in b.txs && IsReplica(x) && Anonymous(Fresh(x)) == Anonymous(Fresh(t))
  {
    var ra, rb := Filter(IsReplica, a.txs), Filter(IsReplica, b.txs);
    var os, qs := AnonymousAll(Origin(a.txs)), AnonymousAll(Origin(b.txs));
    FilterSound(IsReplica, a.txs);
    FilterSound(IsReplica, b.txs);
    FilterSound(OtherRemote(id), qs);
    assert t in ra;
    var i :| 0 <= i < |ra| && ra[i] == t;
    assert os[i] in os && os[i] == Anonymous(Fresh(t));
    var k :| 0 <= k < |qs| && qs[k] == os[i];
    x := rb[k];
    assert rb[k] in rb;
  }

  lemma {:induction false} NewCodeWithout(a: State, b: State, id: nat, f: FinTx)
    requires Inv(a) && Inv(b) && OriginWithout(a, b, id) && NewCode(b, f)
    ensures NewCode(a, f)
  {
    forall t | t in a.txs && PurchaseShape(t) ensures t.code != f.code {
      var x := ReplicaBehind(a, b, id, t);
      SameKind(x, t);
    }
  }

  lemma {:induction false} SameKind(x: Tx, t: Tx)
    requires WellFormed(x) && IsReplica(x) && PurchaseShape(t) && Anonymous(Fresh(x)) == Anonymous(Fresh(t))
    ensures PurchaseShape(x) && x.code == t.code
  {
    assert x.flow == Anonymous(Fresh(x)).flow == t.flow && x.code == Anonymous(Fresh(x)).code == t.code;
  }

  lemma {:induction false} FoundWithout(a: State, b: State, id: nat, doc: nat)
    requires Inv(a) && Inv(b) && OriginWithout(a, b, id) && doc != id && |Filter(HasRemote(doc), b.txs)| > 0
    ensures |Filter(HasRemote(doc), a.txs)| > 0
  {
    FoundIff(a, doc);
    FoundIff(b, doc);
    FilterSound(OtherRemote(id), AnonymousAll(Origin(b.txs)));
  }

  lemma {:induction false} AdmissibleWithout(a: State, b: State, id: nat, step: Step)
    requires Inv(a) && Inv(b) && OriginWithout(a, b, id) && NotArrivalOf(id)(step) && Admissible(b, step)
    ensures Admissible(a, step)
  {
    if step.Arrival? {
      if NewCode(b, step.f) { NewCodeWithout(a, b, id, step.f); }
      if |Filter(HasRemote(step.f.id), b.txs)| > 0 { FoundWithout(a, b, id, step.f.id); }
    }
  }

  /** An admissible history stays admissible when a document never arrives. */
  lemma {:induction false} RunWithout(cfg: Config, steps: seq<Step>, id: nat)
    requires AdmissibleRun(cfg, steps) && cfg.halfUnit > 0.0
    ensures AdmissibleRun(cfg, Filter(NotArrivalOf(id), steps))
    decreases |steps|
  {
    if |steps| > 0 {
      var init, step := steps[..|steps| - 1], steps[|steps| - 1];
      RunWithout(cfg, init, id);
      BothReplicate(cfg, init, id);
      if NotArrivalOf(id)(step) {
        var fs := Filter(NotArrivalOf(id), init);
        assert (fs + [step])[..|fs|] == fs;
        AdmissibleWithout(Run(cfg, fs), Run(cfg, init), id, step);
      }
    }
  }

  lemma {:induction false} BothReplicate(cfg: Config, steps: seq<Step>, id: nat)
    requires AdmissibleRun(cfg, steps) && AdmissibleRun(cfg, Filter(NotArrivalOf(id), steps)) && cfg.halfUnit > 0.0
    ensures var a, b := Run(cfg, Filter(NotArrivalOf(id), steps)), Run(cfg, steps);
            Inv(a) && Inv(b) && OriginWithout(a, b, id)
  {
    RunKeeps(cfg, steps);
    RunReplicates(cfg, steps);
    RunKeeps(cfg, Filter(NotArrivalOf(id), steps));
    RunReplicates(cfg, Filter(NotArrivalOf(id), steps));
    NeverArrived(steps, id);
  }

  /** Delete then reset equals never added: resetting after a purchase document is deleted gives
      the book of the run in which the document never arrived. */
  lemma {:induction false} DeleteThenReset(cfg: Config, steps: seq<Step>, f: FinTx)
    requires f.posted && IsPurchaseDocument(f) && cfg.halfUnit > 0.0
    requires AdmissibleRun(cfg, steps)
    requires !ResetLocked(Run(cfg, steps + [Deletion(f)])) && !ResetLocked(Run(cfg, Filter(NotArrivalOf(f.id), steps)))
    ensures var deleted := ResetState(Run(cfg, steps + [Deletion(f)]));
            var never := ResetState(Run(cfg, Filter(NotArrivalOf(f.id), steps)));
            AnonymousAll(deleted.txs) == AnonymousAll(never.txs) && deleted.cogs == never.cogs == []
  {
    assert (steps + [Deletion(f)])[..|steps|] == steps;
    NeverArrived(steps, f.id);
    RunWithout(cfg, steps, f.id);
    ResetRestores(cfg, steps + [Deletion(f)]);
    ResetRestores(cfg, Filter(NotArrivalOf(f.id), steps));
  }
}
