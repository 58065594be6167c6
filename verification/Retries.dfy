// When a dropped error loses a wakeup.  The next state is decided by the one call; but a
// reconcile that misses a call is still queued again if it goes on to change another object
// or to stop at a gate.  So the wakeup is lost exactly when nothing of this kind happens
// before the reconcile ends, which for an undisturbed reconcile can be read off the store.
module Retries {
  import opened Api
  import opened Programs
  import opened Machine
  import opened Cells
  import opened Settling
  import opened Invariant
  import opened Termination
  import opened Convergence
  import opened Duties
  import opened Wakeup

  /******* The next call *******/

  // The next call of a covered reconciler leaves it covered right afterwards exactly when it
  // is reported.
  lemma CoveredExactly(c: Config, sys: Sys, kind: Kind, ok: bool)
    requires WellFormed(c) && Intact(c, sys) && HasSpec(c, sys.store) && Reconciled(kind) && Covered(c, sys, kind)
    ensures var e := Act(ResourceKey(c, kind), ok);
      && HasSpec(c, Step(sys, e).store)
      && (Covered(c, Step(sys, e), kind) <==> Reported(c, sys, e, {kind}))
  {
    hide WellFormed, Intact, OnTrack, HasSpec, Did, Code, Step, Lenient, Reconciled, Spec, Untouched, Unneeded;
    var e := Act(ResourceKey(c, kind), ok);
    ActIsUntouched(c, e);
    IntactIsConsistent(c, sys);
    SpecChangeWakes(c, sys, e);
    if Reported(c, sys, e, {kind}) {
      OwnActCovers(c, sys, kind, ok);
    } else {
      DroppedCovers(c, sys, kind, Step(sys, e));
    }
  }

  lemma ActIsUntouched(c: Config, e: Event)
    requires WellFormed(c) && (e.Act? || e.Start? || e.Fire?)
    ensures Untouched(c, e) && Calm(c, e) && KeepsPairs(c, e)
  {
    hide WellFormed, KeyOf;
  }

  /******* Once queued, queued until the reconcile ends *******/

  lemma AgainStays(sys: Sys, e: Event, k: Key)
    requires Reconciled(k.kind) && RunsAgain(sys, k) && k in sys.running
    ensures RunsAgain(Step(sys, e), k)
  {
    if k in sys.pending || k in sys.timers {
      QueuesKept(sys, e, k);
      NoSecondWorker(sys, e, k);
    } else if k in Step(sys, e).store {
      AppearsQueued(sys, e, k);
    }
    hide Step, Reconciled;
  }

  lemma NoSecondWorker(sys: Sys, e: Event, k: Key)
    requires k in sys.running
    ensures e.Start? && e.key == k ==> Step(sys, e) == sys
    ensures e.Crash? ==> Step(sys, e).store == sys.store
  {}

  /******* A missed call, over any interleaving *******/

  // The equation of cell i asks for b, and the cell does not hold it.
  ghost predicate Lapse(c: Config, s: Store, i: nat, b: Body)
    requires WellFormed(c) && i < CELLS
  {
    HasSpec(c, s) && Derive(c, Spec(c, s), i, Prefix(c, s, i)) == Some(b) && At(c, s, i) != Some(b)
  }

  // Nobody repairs a cell of the Pki without queueing the Pki.
  lemma LapseStays(c: Config, sys: Sys, e: Event, i: nat, b: Body)
    requires WellFormed(c) && Consistent(c, sys) && Owned(c, sys.store) && Untouched(c, e)
    requires i < CELLS && ActorOf(i) == Reconcile(Pki) && Lapse(c, sys.store, i, b)
    requires ResourceKey(c, Pki) !in Step(sys, e).pending
    ensures Lapse(c, Step(sys, e).store, i, b)
  {
    hide WellFormed, Step, Consistent, Owned, Untouched, At, Derive, Prefix, ActorOf, HasSpec, Spec, Follows,
      ResourceCell;
    SpecChangeWakes(c, sys, e);
    var s, s' := sys.store, Step(sys, e).store;
    if j :| 0 <= j < CELLS && At(c, s', j) != At(c, s, j) {
      var j' := ChangedPair(c, sys, e, j);
      SpecUntouched(c, sys, e, j);
      SameSpec(c, s, s');
      PairAppears(c, sys, e, j);
      PairAppears(c, sys, e, j');
      UnheardChange(c, sys, e, i, j);
      UnheardChange(c, sys, e, i, j');
      DeriveStays(c, Spec(c, s), s, s', i, j, j');
      CellKept(c, s, s', i, j, j');
    } else {
      SamePrefix(c, s, s', i);
      DeriveWithoutSpec(c, Spec(c, s), Spec(c, s'), i, Prefix(c, s, i));
    }
  }

  lemma SameSpec(c: Config, s: Store, s': Store)
    requires HasSpec(c, s) && HasSpec(c, s') && BodyAt(s', ControlPlaneKey(c)) == BodyAt(s, ControlPlaneKey(c))
    ensures Spec(c, s') == Spec(c, s)
  {}

  lemma SamePrefix(c: Config, s: Store, s': Store, i: nat)
    requires WellFormed(c) && i < CELLS && SameCells(c, s, s')
    ensures |Prefix(c, s, i)| == i && Prefix(c, s', i) == Prefix(c, s, i) && At(c, s', i) == At(c, s, i)
  {
    hide WellFormed, At;
  }

  // A change that does not queue the Pki is neither of its cells nor of its resource.
  lemma UnheardChange(c: Config, sys: Sys, e: Event, i: nat, j: nat)
    requires WellFormed(c) && Consistent(c, sys) && Owned(c, sys.store) && Untouched(c, e)
    requires i < CELLS && j < CELLS && ActorOf(i) == Reconcile(Pki)
    requires At(c, Step(sys, e).store, j) != At(c, sys.store, j)
    requires ResourceKey(c, Pki) !in Step(sys, e).pending
    ensures i != j && Ignores(Pki, j)
  {
    hide WellFormed, Step, Consistent, Owned, Untouched, At, ActorOf, ResourceCell, KeyOf;
    PkiCell(i);
    if j == ResourceCell(Pki) {
      ChangeWakes(c, sys, e, j, Pki);
    } else if i == j {
      OwnChangeWakes(c, sys, e, i, Pki);
    }
  }

  // A change of an object that a reconciler creates and watches queues it.
  lemma OwnChangeWakes(c: Config, sys: Sys, e: Event, i: nat, kind: Kind)
    requires WellFormed(c) && Consistent(c, sys) && Owned(c, sys.store) && Untouched(c, e) && Reconciled(kind)
    requires i < CELLS && ActorOf(i) == Reconcile(kind) && Created(i) && !Unwatched(i)
    requires At(c, Step(sys, e).store, i) != At(c, sys.store, i)
    ensures ResourceKey(c, kind) in Step(sys, e).pending
  {
    hide WellFormed, Step, Consistent, Owned, Untouched, At, ActorOf, ResourceCell, KeyOf, Created, Reconciled;
    if KeyOf(c, i) in sys.store {
      ChangeWakes(c, sys, e, i, kind);
    } else {
      UntouchedKeepsPairs(c, e);
      AbsentCell(c, sys.store, i);
      StepOwned(c, sys, e);
      CreationWakes(c, sys, e, i, kind);
    }
  }

  lemma AbsentCell(c: Config, s: Store, i: nat)
    requires WellFormed(c) && i < CELLS && KeyOf(c, i) !in s
    ensures At(c, s, i).None?
  {}

  lemma PkiCell(i: nat)
    requires i < CELLS && ActorOf(i) == Reconcile(Pki)
    ensures Created(i) && !Unwatched(i) && !Follows(Pki, i) && i != LB_STATUS && Reconciled(Pki)
    ensures forall j :: !Follows(Pki, j)
  {}

  // An object that a reconciler creates and watches queues it.
  lemma CreationWakes(c: Config, sys: Sys, e: Event, i: nat, kind: Kind)
    requires WellFormed(c) && i < CELLS && ActorOf(i) == Reconcile(kind) && Created(i) && !Unwatched(i)
    requires At(c, sys.store, i).None? && At(c, Step(sys, e).store, i) != At(c, sys.store, i)
    requires Owned(c, Step(sys, e).store)
    ensures ResourceKey(c, kind) in Step(sys, e).pending
  {
    hide WellFormed, Step, Owned, ActorOf, Woken, KeyOf, ChangedKey, Created;
    var s, s' := sys.store, Step(sys, e).store;
    NotRemoved(c, sys, e, i);
    ChangedCell(c, sys, e, i);
    WokenByChange(sys, e);
    OwnedAt(c, s', i);
    StoredCell(c, s', i);
    WatchedBy(i);
    KeyIsLocal(c, i);
    OwnerIsWoken(s, s', KeyOf(c, i), ResourceKey(c, kind));
  }

  lemma NotRemoved(c: Config, sys: Sys, e: Event, i: nat)
    requires WellFormed(c) && i < CELLS && At(c, sys.store, i).None?
    requires At(c, Step(sys, e).store, i) != At(c, sys.store, i)
    ensures !Removes(e)
  {
    hide WellFormed, Step, KeyOf;
    if Removes(e) { OnlyRemoved(sys, e); }
  }

  lemma StoredCell(c: Config, s: Store, i: nat)
    requires WellFormed(c) && i < CELLS && At(c, s, i).Some?
    ensures KeyOf(c, i) in s
  {}

  lemma OwnerIsWoken(s: Store, s': Store, w: Key, k: Key)
    requires w in s' && s'[w].owner == Some(k) && Owns(k.kind, w.kind)
    requires w.kind !in {LoadbalancerStatus, ServiceStatus}
    ensures k in Woken(s, s', w)
  {}

  // A reconciler whose reconcile has ended with a lapse is not covered.
  lemma LapseUncovers(c: Config, sys: Sys, i: nat, b: Body)
    requires WellFormed(c) && i < CELLS && ActorOf(i) == Reconcile(Pki) && Lapse(c, sys.store, i, b)
    requires ResourceKey(c, Pki) !in sys.running && !RunsAgain(sys, ResourceKey(c, Pki))
    ensures HasSpec(c, sys.store) && !Covered(c, sys, Pki)
  {
    hide WellFormed, HasSpec, Spec, At, Derive, Prefix, Did, OnTrack, ActorOf;
    PkiCell(i);
    if Covered(c, sys, Pki) {
      DidGood(c, sys.store, i);
      assert false;
    }
  }

  // In state 0 the reconcile of the kind misses a needed call, and it ends with the run.
  ghost predicate MissesAndEnds(c: Config, sys: Sys, kind: Kind, es: seq<Event>)
    requires WellFormed(c)
  {
    var k := ResourceKey(c, kind);
    && Poised(c, sys, kind) && Owned(c, sys.store)
    && Lenient(Code(sys.running[k])) && !Unneeded(c, sys.store, sys.running[k])
    && es != [] && es[0] == Act(k, false)
    && (forall n :: 0 <= n < |es| ==> Untouched(c, es[n]))
    && KeepsRunning(sys, es, k, 0, |es|) && k !in Run(sys, es).running
  }

  ghost predicate AllUntouched(c: Config, es: seq<Event>)
    requires WellFormed(c)
  {
    forall n :: 0 <= n < |es| ==> Untouched(c, es[n])
  }

  // Every state of a run that leaves the control plane alone.
  lemma {:induction false} RunIntact(c: Config, sys: Sys, es: seq<Event>, n: nat)
    requires WellFormed(c) && Intact(c, sys) && HasSpec(c, sys.store) && Owned(c, sys.store) && AllUntouched(c, es)
    requires n <= |es|
    ensures var now := Run(sys, es[..n]);
      Intact(c, now) && Consistent(c, now) && HasSpec(c, now.store) && Owned(c, now.store)
  {
    hide WellFormed, Step, Run, Consistent, HasSpec, Owned, Intact, Untouched;
    if n == 0 {
      NoEvents(sys, es);
      IntactIsConsistent(c, sys);
    } else {
      RunIntact(c, sys, es, n - 1);
      RunStep(sys, es, n - 1);
      var now := Run(sys, es[..n - 1]);
      UntouchedKeepsPairs(c, es[n - 1]);
      StepIntact(c, now, es[n - 1]);
      IntactIsConsistent(c, Step(now, es[n - 1]));
      StepOwned(c, now, es[n - 1]);
      SpecChangeWakes(c, now, es[n - 1]);
    }
  }

  lemma {:induction false} AgainUntilTheEnd(sys: Sys, es: seq<Event>, k: Key, m: nat, n: nat)
    requires Reconciled(k.kind) && m <= n <= |es| && KeepsRunning(sys, es, k, m, n)
    requires RunsAgain(Run(sys, es[..m]), k)
    ensures RunsAgain(Run(sys, es[..n]), k)
    decreases n - m
  {
    hide Step, Run, RunsAgain, Reconciled;
    if m < n {
      AgainUntilTheEnd(sys, es, k, m, n - 1);
      RunStep(sys, es, n - 1);
      AgainStays(Run(sys, es[..n - 1]), es[n - 1], k);
    }
  }

  lemma {:induction false} LapseUntilTheEnd(c: Config, sys: Sys, es: seq<Event>, i: nat, b: Body, n: nat)
    requires WellFormed(c) && Intact(c, sys) && HasSpec(c, sys.store) && Owned(c, sys.store) && AllUntouched(c, es)
    requires i < CELLS && ActorOf(i) == Reconcile(Pki) && Lapse(c, sys.store, i, b) && n <= |es|
    requires forall m :: 0 < m <= n ==> !RunsAgain(Run(sys, es[..m]), ResourceKey(c, Pki))
    ensures Lapse(c, Run(sys, es[..n]).store, i, b)
  {
    hide WellFormed, Step, Run, Intact, Consistent, HasSpec, Owned, Lapse, ActorOf, Untouched, ResourceKey;
    if n == 0 {
      NoEvents(sys, es);
    } else {
      LapseUntilTheEnd(c, sys, es, i, b, n - 1);
      RunIntact(c, sys, es, n - 1);
      RunStep(sys, es, n - 1);
      LapseStays(c, Run(sys, es[..n - 1]), es[n - 1], i, b);
    }
  }

  lemma NoEvents(sys: Sys, es: seq<Event>)
    ensures Run(sys, es[..0]) == sys
  {
    assert es[..0] == [];
  }

  // A needed call fails whose error is dropped.  Whatever interleaves until the reconcile
  // ends, the wakeup is lost exactly when nothing queued the reconcile again before.
  lemma LostExactly(c: Config, sys: Sys, kind: Kind, es: seq<Event>)
    requires WellFormed(c) && MissesAndEnds(c, sys, kind, es)
    ensures var after := Run(sys, es);
      HasSpec(c, after.store) && (Covered(c, after, kind) <==> Retried(sys, es, 0))
  {
    hide WellFormed, Intact, Consistent, HasSpec, Owned, OnTrack, Did, Untouched, Step, Run, Unneeded, Lenient, Code,
      Covered, RunsAgain, Poised, Reconciled, ResourceKey;
    var k, after := ResourceKey(c, kind), Run(sys, es);
    PoisedFacts(c, sys, kind);
    PoisedKind(c, sys, kind);
    RunIntact(c, sys, es, |es|);
    assert es[..|es|] == es;
    if m :| 0 < m <= |es| && RunsAgain(Run(sys, es[..m]), k) {
      assert KeepsRunning(sys, es, k, m, |es|) && KeepsRunning(sys, es, k, 1, m);
      ReconciledKey(c, kind);
      AgainUntilTheEnd(sys, es, k, m, |es|);
      AgainIsCovered(c, after, kind);
    } else {
      MissIsLost(c, sys, kind, es);
    }
  }

  lemma ReconciledKey(c: Config, kind: Kind)
    ensures ResourceKey(c, kind).kind == kind
  {}

  lemma MissIsLost(c: Config, sys: Sys, kind: Kind, es: seq<Event>)
    requires WellFormed(c) && MissesAndEnds(c, sys, kind, es)
    requires forall m :: 0 < m <= |es| ==> !RunsAgain(Run(sys, es[..m]), ResourceKey(c, kind))
    requires HasSpec(c, Run(sys, es).store)
    ensures !Covered(c, Run(sys, es), kind)
  {
    hide WellFormed, Intact, Consistent, HasSpec, Owned, OnTrack, Did, Untouched, Step, Run, Unneeded, Lenient, Code,
      Covered, RunsAgain, Reconciled, ResourceKey, Poised, At, Derive, Prefix, CellOf, FrameFits, ActorOf;
    var k := ResourceKey(c, kind);
    PoisedFacts(c, sys, kind);
    PoisedKind(c, sys, kind);
    ReconciledKey(c, kind);
    var f := sys.running[k];
    WhoIsLenient(c, f);
    NeededExactly(c, sys, kind);
    UnneededMeans(c, sys.store, f);
    assert es[..|es|] == es;
    if kind == Pki {
      CallIsOwn(kind, f.pc);
      LapseByValue(c, sys.store, f);
      LapseUntilTheEnd(c, sys, es, CellOf(kind, f.pc), Code(f).body, |es|);
      LapseUncovers(c, Run(sys, es), CellOf(kind, f.pc), Code(f).body);
    } else {
      ReportEnds(c, sys, es, k);
      CoveredExactly(c, sys, kind, false);
      NotReported(c, sys, kind);
    }
  }

  lemma LapseByValue(c: Config, s: Store, f: Frame)
    requires WellFormed(c) && HasSpec(c, s) && CellOf(f.key.kind, f.pc) < CELLS && Lenient(Code(f))
    requires var i := CellOf(f.key.kind, f.pc);
      At(c, s, i) != Some(Code(f).body) && Derive(c, Spec(c, s), i, Prefix(c, s, i)) == Some(Code(f).body)
    ensures Lapse(c, s, CellOf(f.key.kind, f.pc), Code(f).body)
  {}

  // A failed status update ends its reconcile.
  lemma ReportEnds(c: Config, sys: Sys, es: seq<Event>, k: Key)
    requires k in sys.running && Code(sys.running[k]).Report? && es != [] && es[0] == Act(k, false)
    requires KeepsRunning(sys, es, k, 0, |es|)
    ensures Run(sys, es) == Step(sys, Act(k, false))
  {
    hide Step, Code;
    Dropped(sys, k);
    assert es[..0] == [] && es[..1] == [es[0]] && es[..1][..0] == [];
    assert Run(sys, es[..1]) == Step(sys, es[0]);
    if |es| > 1 {
      assert false;
    }
    assert es == es[..1];
  }

  lemma NotReported(c: Config, sys: Sys, kind: Kind)
    requires WellFormed(c) && Poised(c, sys, kind) && Lenient(Code(sys.running[ResourceKey(c, kind)]))
    requires !Unneeded(c, sys.store, sys.running[ResourceKey(c, kind)])
    ensures !Reported(c, sys, Act(ResourceKey(c, kind), false), {kind})
  {
    PoisedKind(c, sys, kind);
    hide WellFormed, Poised, Lenient, Unneeded, Code;
  }
}
