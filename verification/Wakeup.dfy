// No wakeup is lost.  Whatever interleaves and whatever restarts, and whichever calls fail
// as long as a needed one is reported or its reconcile queued again before it ends, a
// reconciler that is neither queued, waiting nor running has nothing left to do; so a
// control plane at rest is at its target.  The exceptions are exactly the two objects
// that their writer does not watch.
module Wakeup {
  import opened Api
  import opened Programs
  import opened Machine
  import opened Integrity
  import opened Cells
  import opened Settling
  import opened Invariant
  import opened Termination
  import opened Convergence
  import opened Duties

  /******* Nobody has lost a wakeup *******/

  // No reconciler of the given kinds has lost a wakeup.
  ghost predicate Awake(c: Config, sys: Sys, kinds: set<Kind>) {
    && Intact(c, sys) && HasSpec(c, sys.store) && Owned(c, sys.store)
    && forall kind :: kind in kinds ==> Covered(c, sys, kind)
  }

  // The two objects whose writer is not told when somebody else changes them: the
  // KubeScheduler resource and the konnectivity kubeconfig.
  predicate Unwatched(i: nat) {
    i == KS || i == KONNECTIVITY_KUBECONFIG
  }

  // Nobody deletes the ControlPlane or a key pair, and third parties leave the unwatched
  // objects alone.  Any other object may be changed or deleted.
  ghost predicate Untouched(c: Config, e: Event)
    requires WellFormed(c)
  {
    && Calm(c, e)
    && (e.Tamper? ==> forall i :: 0 <= i < CELLS && Unwatched(i) ==> e.key != KeyOf(c, i))
    && (Removes(e) ==>
          && e.key != ControlPlaneKey(c)
          && forall i :: 0 <= i < CELLS && (Unwatched(i) || IsSecret(i)) ==> e.key != KeyOf(c, i))
  }

  lemma UntouchedKeepsPairs(c: Config, e: Event)
    requires WellFormed(c) && Untouched(c, e)
    ensures Calm(c, e) && KeepsPairs(c, e)
  {
    hide WellFormed, Calm, KeyOf;
  }

  // The key will be reconciled again, or its resource is gone.
  predicate RunsAgain(sys: Sys, k: Key) {
    k !in sys.store || k in sys.pending || k in sys.timers
  }

  // If a call fails whose error a reconciler of the given kinds drops, it was not needed, or
  // the reconciler runs again anyway.
  ghost predicate Reported(c: Config, sys: Sys, e: Event, kinds: set<Kind>)
    requires WellFormed(c)
  {
    e.Act? && e.key.ns == c.ns && e.key in sys.running && e.key.kind in kinds && Lenient(Code(sys.running[e.key])) ==>
      e.ok || Unneeded(c, sys.store, sys.running[e.key]) || RunsAgain(sys, e.key)
  }

  // The reconcile that makes call n of the run is queued again before it ends.
  ghost predicate Retried(sys: Sys, es: seq<Event>, n: nat)
    requires n < |es| && es[n].Act?
  {
    exists m :: n < m <= |es| && RunsAgain(Run(sys, es[..m]), es[n].key) && KeepsRunning(sys, es, es[n].key, n + 1, m)
  }

  // The reconcile of k is in progress in the states from number i on, before number m.
  ghost predicate KeepsRunning(sys: Sys, es: seq<Event>, k: Key, i: nat, m: nat)
    requires m <= |es|
  {
    forall j :: i <= j < m ==> k in Run(sys, es[..j]).running
  }

  lemma WatchedBy(i: nat)
    requires i < CELLS
    ensures Created(i) && !Unwatched(i) ==> Owns(ActorOf(i).kind, KindOf(i))
    ensures Unwatched(i) ==> ActorOf(i).Reconcile? && !Owns(ActorOf(i).kind, KindOf(i))
    ensures Created(i) ==> KindOf(i) !in {LoadbalancerStatus, ServiceStatus}
  {}

  /******* What a change of a cell wakes *******/

  // After a change of its resource, of the status that it follows or of an object that it
  // watches, deletions included, the key of a reconciler is queued.
  lemma ChangeWakes(c: Config, sys: Sys, e: Event, i: nat, kind: Kind)
    requires WellFormed(c) && Owned(c, sys.store) && i < CELLS && Reconciled(kind)
    requires At(c, Step(sys, e).store, i) != At(c, sys.store, i)
    requires
      || i == ResourceCell(kind)
      || (Follows(kind, i) && KeyOf(c, if kind == ControlPlane then LB else SERVICE) in sys.store)
      || (ActorOf(i) == Reconcile(kind) && !Unwatched(i) && (i == LB_STATUS || KeyOf(c, i) in sys.store))
    ensures ResourceKey(c, kind) in Step(sys, e).pending
  {
    hide Step, WellFormed, Owned, ResourceCell, ActorOf, Woken, At, KeyOf, ChangedKey, Removes, RemovedNow;
    if Removes(e) {
      RemovedCell(c, sys, e, i);
      RemovedKey(c, sys, e, i);
    } else {
      ChangedCell(c, sys, e, i);
    }
    WokenByChange(sys, e);
    SameWatchers(sys.store, Step(sys, e).store, ChangedKey(sys, e), KeyOf(c, i));
    WatchersOfCell(c, sys.store, Step(sys, e).store, i, kind);
  }

  lemma RemovedKey(c: Config, sys: Sys, e: Event, i: nat)
    requires WellFormed(c) && i < CELLS && RemovedNow(c, sys, e, i)
    ensures !e.Crash? && ObjectOf(ChangedKey(sys, e)) == ObjectOf(KeyOf(c, i)) && Step(sys, e).store != sys.store
  {
    hide WellFormed, Step, KeyOf;
  }

  lemma WatchersOfCell(c: Config, s: Store, s': Store, i: nat, kind: Kind)
    requires WellFormed(c) && Owned(c, s) && i < CELLS && Reconciled(kind)
    requires
      || i == ResourceCell(kind)
      || (Follows(kind, i) && KeyOf(c, if kind == ControlPlane then LB else SERVICE) in s)
      || (ActorOf(i) == Reconcile(kind) && !Unwatched(i) && (i == LB_STATUS || KeyOf(c, i) in s))
    ensures ResourceKey(c, kind) in Woken(s, s', KeyOf(c, i))
  {
    WatchedBy(i);
    ResourceCells(c);
    assert OwnedCell(c, s, LB) && OwnedCell(c, s, SERVICE) && OwnedCell(c, s, i);
    hide SecretNames, Distinct, WellFormed;
    if i == LB_STATUS || i == INGRESS || i == ResourceCell(kind) {
      assert ObjectOf(KeyOf(c, LB_STATUS)) == KeyOf(c, LB);
      assert ObjectOf(KeyOf(c, INGRESS)) == KeyOf(c, SERVICE);
    } else {
      hide NameOf, Owns;
      assert ObjectOf(KeyOf(c, i)) == KeyOf(c, i);
    }
  }

  /******* Every step keeps every reconciler covered *******/

  lemma StartCovers(c: Config, sys: Sys, k: Key, ok: bool)
    requires Consistent(c, sys) && HasSpec(c, sys.store)
    requires k in sys.pending && k.ns == c.ns && k in sys.store && Reconciled(k.kind)
    ensures var after := Step(sys, Start(k, ok));
      && after.store == sys.store
      && (k in after.pending || (k in after.running && OnTrack(c, sys.store, after.running[k])))
  {
    assert k.name == c.name;
    assert Typed(k.kind, sys.store[k].body) by { StoredIsTyped(c, sys.store, k); }
    hide WellFormed, StoreFits, FramesFit;
  }

  lemma StoredIsTyped(c: Config, s: Store, k: Key)
    requires WellFormed(c) && StoreFits(c, s) && k in s && k.ns == c.ns && Reconciled(k.kind)
    ensures Typed(k.kind, s[k].body)
  {
    ResourceCells(c);
    hide SecretNames, Distinct, PkiConforms, KasConforms, KcmConforms, Conforms;
    if k.kind != ControlPlane {
      var i := ResourceCell(k.kind);
      assert k == KeyOf(c, i);
      assert At(c, s, i) == Some(s[k].body);
    }
  }

  // The key of the reconciler is neither queued nor touched by this event itself.
  ghost predicate Bystander(c: Config, sys: Sys, e: Event, kind: Kind)
    requires WellFormed(c)
  {
    var k := ResourceKey(c, kind);
    && Reconciled(kind)
    && !((e.Act? || e.Start?) && e.key == k) && !e.Crash?
    && k !in Step(sys, e).pending
    && (k in Step(sys, e).running <==> k in sys.running)
    && (k in sys.running ==> Step(sys, e).running[k] == sys.running[k])
  }

  ghost predicate SameCells(c: Config, s: Store, s': Store)
    requires WellFormed(c)
  {
    forall i :: 0 <= i < CELLS ==> At(c, s', i) == At(c, s, i)
  }

  // An edit of the spec only concerns the ControlPlane reconciler.
  ghost predicate SameFor(c: Config, s: Store, s': Store, kind: Kind)
    requires WellFormed(c)
  {
    && HasSpec(c, s) && HasSpec(c, s') && SameCells(c, s, s')
    && (kind == ControlPlane ==> Spec(c, s') == Spec(c, s))
  }

  lemma SameDid(c: Config, s: Store, s': Store, kind: Kind, n: nat)
    requires WellFormed(c) && Reconciled(kind) && SameFor(c, s, s', kind) && Did(c, s, kind, n)
    ensures Did(c, s', kind, n)
  {
    hide WellFormed, HasSpec, At, Derive, CellOf, IsSecret, Spec;
    forall q | 0 <= q < n && CellOf(kind, q) < CELLS && !IsSecret(CellOf(kind, q))
      ensures Good(c, s', CellOf(kind, q)) || Excused(c, s', CellOf(kind, q))
    {
      var i := CellOf(kind, q);
      CallIsOwn(kind, q);
      assert Prefix(c, s', i) == Prefix(c, s, i);
      if kind != ControlPlane {
        DeriveWithoutSpec(c, Spec(c, s), Spec(c, s'), i, Prefix(c, s, i));
      }
    }
  }

  lemma SameOnTrack(c: Config, s: Store, s': Store, f: Frame)
    requires WellFormed(c) && FrameFits(c, f) && SameFor(c, s, s', f.key.kind) && OnTrack(c, s, f)
    ensures OnTrack(c, s', f)
  {
    hide WellFormed, At, FrameFits, Did, StoreFits, SameCells;
    FitsReconciler(c, f);
    SameDid(c, s, s', f.key.kind, f.pc);
    SameResource(c, s, s', f);
    MemoryCell(f.key.kind);
    assert SameCells(c, s, s');
    assert forall i :: 0 <= i < CELLS ==> At(c, s', i) == At(c, s, i) by { CellsAreSame(c, s, s'); }
    hide SeenCell, HasSpec, Spec;
  }

  lemma CellsAreSame(c: Config, s: Store, s': Store)
    requires WellFormed(c) && SameCells(c, s, s')
    ensures forall i :: 0 <= i < CELLS ==> At(c, s', i) == At(c, s, i)
  {}

  lemma SameResource(c: Config, s: Store, s': Store, f: Frame)
    requires WellFormed(c) && FrameFits(c, f) && SameFor(c, s, s', f.key.kind)
    ensures BodyAt(s', f.key) == BodyAt(s, f.key)
  {
    ResourceCells(c);
    hide SecretNames, Distinct, ResourceFits;
    if f.key.kind != ControlPlane {
      assert f.key == KeyOf(c, ResourceCell(f.key.kind));
      assert At(c, s', ResourceCell(f.key.kind)) == At(c, s, ResourceCell(f.key.kind));
    }
  }

  lemma NoCellChanged(c: Config, sys: Sys, e: Event, kind: Kind)
    requires WellFormed(c) && FramesFit(c, sys) && SameFor(c, sys.store, Step(sys, e).store, kind)
    requires Bystander(c, sys, e, kind) && Covered(c, sys, kind)
    requires ResourceKey(c, kind) in sys.store
    requires ResourceKey(c, kind) !in sys.pending && ResourceKey(c, kind) !in sys.timers
    ensures Covered(c, Step(sys, e), kind)
  {
    hide WellFormed, Step, FrameFits, OnTrack, Did, HasSpec, SameCells, Spec;
    var k := ResourceKey(c, kind);
    if k in sys.running {
      SameOnTrack(c, sys.store, Step(sys, e).store, sys.running[k]);
    } else {
      SameDid(c, sys.store, Step(sys, e).store, kind, LAST);
    }
  }

  // Nobody else changes a watched cell of a reconciler without waking it.
  lemma NotItsCell(c: Config, sys: Sys, e: Event, kind: Kind, i: nat)
    requires WellFormed(c) && Consistent(c, sys) && Owned(c, sys.store) && Untouched(c, e) && i < CELLS
    requires At(c, Step(sys, e).store, i) != At(c, sys.store, i)
    requires Bystander(c, sys, e, kind)
    ensures ActorOf(i) != Reconcile(kind)
  {
    hide WellFormed, Step, Consistent, Calm, Owned, ActorOf, KeyOf, FrameFits, CallFits, CellOf, TamperedNow,
      IssuedNow, WrittenNow, At, RemovedNow, AssignedNow, Removes, Untouched;
    UntouchedKeepsPairs(c, e);
    CellChange(c, sys, e, i);
    if Removes(e) {
      RemovedWatched(c, sys, e, i);
      if ActorOf(i) == Reconcile(kind) {
        ChangeWakes(c, sys, e, i, kind);
      }
    } else if TamperedNow(c, sys, e, i) {
      TamperedCell(c, sys, e, i);
      if ActorOf(i) == Reconcile(kind) {
        ChangeWakes(c, sys, e, i, kind);
      }
    } else if IssuedNow(c, sys, e, i) {
      IssuedCell(c, sys, e, i);
    } else if AssignedNow(c, sys, e, i) {
      IngressIsProvided();
      AssignedCell(c, sys, e, i);
    } else {
      WriterIsActor(c, sys, e, i, sys.running[e.key]);
    }
  }

  // A key pair only changes by appearing.
  lemma PairAppears(c: Config, sys: Sys, e: Event, i: nat)
    requires WellFormed(c) && Consistent(c, sys) && Untouched(c, e) && i < CELLS
    requires At(c, Step(sys, e).store, i) != At(c, sys.store, i)
    ensures IsSecret(i) ==> At(c, sys.store, i).None?
  {
    hide WellFormed, Step, Consistent, Calm, ActorOf, KeyOf, TamperedNow, IssuedNow, WrittenNow, At, RemovedNow,
      AssignedNow, Removes, Untouched;
    UntouchedKeepsPairs(c, e);
    CellChange(c, sys, e, i);
    if Removes(e) {
      RemovedWatched(c, sys, e, i);
    } else if TamperedNow(c, sys, e, i) {
      TamperedCell(c, sys, e, i);
    } else if IssuedNow(c, sys, e, i) {
      IssuedCell(c, sys, e, i);
    } else if AssignedNow(c, sys, e, i) {
      IngressIsProvided();
      AssignedCell(c, sys, e, i);
    } else {
      WriterIsActor(c, sys, e, i, sys.running[e.key]);
    }
  }

  lemma AssignedCell(c: Config, sys: Sys, e: Event, i: nat)
    requires WellFormed(c) && i < CELLS && AssignedNow(c, sys, e, i)
    ensures i == INGRESS
  {
    hide WellFormed, Step, At, KeyOf;
  }

  lemma RemovedWatched(c: Config, sys: Sys, e: Event, i: nat)
    requires WellFormed(c) && i < CELLS && Untouched(c, e) && RemovedNow(c, sys, e, i)
    ensures !IsSecret(i) && !Unwatched(i) && KeyOf(c, i) in sys.store
  {
    hide WellFormed, Step, Calm, NameOf;
  }

  lemma IngressIsProvided()
    ensures ActorOf(INGRESS) == Provide && !IsSecret(INGRESS)
  {}

  lemma IssuedCell(c: Config, sys: Sys, e: Event, i: nat)
    requires WellFormed(c) && i < CELLS && IssuedNow(c, sys, e, i)
    ensures !ActorOf(i).Reconcile? && At(c, sys.store, i).None?
  {
    hide WellFormed, At, Issuable, KeyOf;
  }

  lemma TamperedCell(c: Config, sys: Sys, e: Event, i: nat)
    requires WellFormed(c) && i < CELLS && TamperedNow(c, sys, e, i)
    requires Untouched(c, e)
    ensures KeyOf(c, i) in sys.store && !IsSecret(i) && !Unwatched(i)
  {
    hide WellFormed, KeyOf, Calm;
  }

  lemma WriterIsActor(c: Config, sys: Sys, e: Event, i: nat, f: Frame)
    requires WellFormed(c) && Consistent(c, sys) && i < CELLS && WrittenNow(c, sys, e, i, f)
    ensures ActorOf(i) == Reconcile(f.key.kind) && !IsSecret(i)
    ensures e.key == f.key == ResourceKey(c, f.key.kind)
  {
    hide WellFormed, Step, StoreFits, ActorOf, CallFits, CellOf, At, ResourceFits;
    assert f.key == e.key;
    CallIsOwn(f.key.kind, f.pc);
  }

  // A followed status only changes unnoticed before the reconcile made its first call.
  lemma NotFollowed(c: Config, sys: Sys, e: Event, kind: Kind, i: nat, n: nat)
    requires WellFormed(c) && Owned(c, sys.store) && i < CELLS
    requires HasSpec(c, sys.store) && Did(c, sys.store, kind, n) && n > 0
    requires At(c, Step(sys, e).store, i) != At(c, sys.store, i)
    requires Bystander(c, sys, e, kind)
    ensures !Follows(kind, i)
  {
    hide WellFormed, Step, Owned, KeyOf, HasSpec, Good;
    if Follows(kind, i) {
      var first := if kind == ControlPlane then LB else SERVICE;
      assert CellOf(kind, 0) == first;
      assert Good(c, sys.store, first);
      GoodIsStored(c, sys.store, first);
      ChangeWakes(c, sys, e, i, kind);
    }
  }

  lemma GoodIsStored(c: Config, s: Store, i: nat)
    requires WellFormed(c) && HasSpec(c, s) && i < CELLS && Good(c, s, i)
    ensures KeyOf(c, i) in s
  {
    hide WellFormed, Derive, KeyOf;
  }

  // Two cells stand for the same object only if one is the status of the other.
  lemma SameObject(c: Config, i: nat, j: nat)
    requires WellFormed(c) && i < CELLS && j < CELLS && i != j && ObjectOf(KeyOf(c, i)) == ObjectOf(KeyOf(c, j))
    ensures {i, j} == {LB, LB_STATUS} || {i, j} == {SERVICE, INGRESS}
  {
    if i !in {LB_STATUS, INGRESS} && j !in {LB_STATUS, INGRESS} {
      DistinctKeys(c, i, j);
    }
    hide SecretNames, Distinct;
  }

  // A step changes at most two cells, the second one by a deletion.
  lemma ChangedPair(c: Config, sys: Sys, e: Event, i: nat) returns (i': nat)
    requires WellFormed(c) && i < CELLS && At(c, Step(sys, e).store, i) != At(c, sys.store, i)
    ensures i' < CELLS && At(c, Step(sys, e).store, i') != At(c, sys.store, i')
    ensures forall m :: 0 <= m < CELLS && m != i && m != i' ==> At(c, Step(sys, e).store, m) == At(c, sys.store, m)
  {
    hide WellFormed, Step, At, KeyOf, Removes, RemovedNow, ChangedKey;
    i' := i;
    if !Removes(e) {
      ChangedCell(c, sys, e, i);
    } else if m :| 0 <= m < CELLS && m != i && At(c, Step(sys, e).store, m) != At(c, sys.store, m) {
      i' := m;
      RemovedPair(c, sys, e, i, m);
      forall n | 0 <= n < CELLS && n != i && n != m
        ensures At(c, Step(sys, e).store, n) == At(c, sys.store, n)
      {
        if At(c, Step(sys, e).store, n) != At(c, sys.store, n) {
          RemovedPair(c, sys, e, i, n);
          RemovedPair(c, sys, e, m, n);
        }
      }
    }
  }

  lemma RemovedPair(c: Config, sys: Sys, e: Event, i: nat, j: nat)
    requires WellFormed(c) && Removes(e) && i < CELLS && j < CELLS && i != j
    requires At(c, Step(sys, e).store, i) != At(c, sys.store, i)
    requires At(c, Step(sys, e).store, j) != At(c, sys.store, j)
    ensures {i, j} == {LB, LB_STATUS} || {i, j} == {SERVICE, INGRESS}
  {
    hide WellFormed, Step, At, KeyOf;
    RemovedCell(c, sys, e, i);
    RemovedCell(c, sys, e, j);
    SameObject(c, i, j);
  }

  // Changed cells either wake the reconciler or do not concern it.
  lemma CellsChanged(c: Config, sys: Sys, e: Event, kind: Kind, i: nat)
    requires WellFormed(c) && Consistent(c, sys) && Owned(c, sys.store) && HasSpec(c, sys.store)
    requires Untouched(c, e) && i < CELLS && At(c, Step(sys, e).store, i) != At(c, sys.store, i)
    requires Bystander(c, sys, e, kind) && Covered(c, sys, kind)
    requires ResourceKey(c, kind) in sys.store
    requires ResourceKey(c, kind) !in sys.pending && ResourceKey(c, kind) !in sys.timers
    ensures HasSpec(c, Step(sys, e).store) && Covered(c, Step(sys, e), kind)
  {
    hide WellFormed, Step, OnTrack, Did, HasSpec, Consistent, Calm, At, Owned, FrameFits, Spec, KeyOf, ActorOf,
      ResourceCell, Follows, CellOf, IsSecret, Untouched;
    var k := ResourceKey(c, kind);
    var s, s' := sys.store, Step(sys, e).store;
    var i' := ChangedPair(c, sys, e, i);
    NotItsCell(c, sys, e, kind, i);
    NotItsCell(c, sys, e, kind, i');
    PairAppears(c, sys, e, i);
    PairAppears(c, sys, e, i');
    NotItsResource(c, sys, e, kind, i);
    NotItsResource(c, sys, e, kind, i');
    if k in sys.running {
      var f := sys.running[k];
      RunningFits(c, sys, k);
      if f.pc > 0 {
        OnTrackDid(c, s, f);
        NotFollowed(c, sys, e, kind, i, f.pc);
        NotFollowed(c, sys, e, kind, i', f.pc);
      }
      OnTrackStays(c, s, s', f, i, i');
    } else {
      NotFollowed(c, sys, e, kind, i, LAST);
      NotFollowed(c, sys, e, kind, i', LAST);
      NotItsCalls(kind, LAST, i, i');
      DidStays(c, s, s', kind, LAST, i, i');
    }
  }

  // Its resource has not changed, or it would have been woken; the spec stays as well.
  lemma NotItsResource(c: Config, sys: Sys, e: Event, kind: Kind, i: nat)
    requires WellFormed(c) && Owned(c, sys.store) && HasSpec(c, sys.store)
    requires Untouched(c, e) && i < CELLS && At(c, Step(sys, e).store, i) != At(c, sys.store, i)
    requires Bystander(c, sys, e, kind)
    ensures i != ResourceCell(kind)
    ensures BodyAt(Step(sys, e).store, ResourceKey(c, kind)) == BodyAt(sys.store, ResourceKey(c, kind))
    ensures HasSpec(c, Step(sys, e).store) && Spec(c, Step(sys, e).store) == Spec(c, sys.store)
  {
    hide Step, Owned, WellFormed, KeyOf, Untouched, ChangedKey, ResourceCell;
    SpecUntouched(c, sys, e, i);
    KindWithResource(kind);
    if kind != ControlPlane {
      ResourceAt(c, kind);
      if At(c, Step(sys, e).store, ResourceCell(kind)) != At(c, sys.store, ResourceCell(kind)) {
        ChangeWakes(c, sys, e, ResourceCell(kind), kind);
      }
    }
  }

  lemma KindWithResource(kind: Kind)
    requires Reconciled(kind)
    ensures if kind == ControlPlane then ResourceCell(kind) == CELLS else ResourceCell(kind) < CELLS
  {}

  lemma SpecUntouched(c: Config, sys: Sys, e: Event, i: nat)
    requires WellFormed(c) && HasSpec(c, sys.store) && Untouched(c, e)
    requires i < CELLS && At(c, Step(sys, e).store, i) != At(c, sys.store, i)
    ensures BodyAt(Step(sys, e).store, ControlPlaneKey(c)) == BodyAt(sys.store, ControlPlaneKey(c))
  {
    hide Step, WellFormed, NameOf, Calm, ChangedKey;
    if Removes(e) {
      OnlyRemoved(sys, e);
    } else {
      ChangedCell(c, sys, e, i);
      OneKeyChanges(sys, e);
    }
  }

  // Where the queue and the frame of a key come from if the event is not its own.
  lemma OthersLeaveIt(c: Config, sys: Sys, e: Event, kind: Kind)
    requires Reconciled(kind) && ResourceKey(c, kind) !in Step(sys, e).pending && !e.Crash?
    requires !((e.Act? || e.Start?) && e.key == ResourceKey(c, kind))
    requires WellFormed(c)
    ensures Bystander(c, sys, e, kind)
  {
    hide WellFormed, Exec, Woken, TargetKey, Put, Remove, Issuable;
  }

  lemma SpecChangeWakes(c: Config, sys: Sys, e: Event)
    requires WellFormed(c) && Consistent(c, sys) && Untouched(c, e) && HasSpec(c, sys.store)
    ensures HasSpec(c, Step(sys, e).store)
    ensures Spec(c, Step(sys, e).store) != Spec(c, sys.store) ==> ControlPlaneKey(c) in Step(sys, e).pending
  {
    hide Step, Consistent, StoreFits, Calm, WellFormed, Woken, KeyOf;
    UntouchedKeepsPairs(c, e);
    StepConsistent(c, sys, e);
    ConsistentStore(c, Step(sys, e));
    var k := ControlPlaneKey(c);
    if Removes(e) {
      OnlyRemoved(sys, e);
    } else {
      OneKeyChanges(sys, e);
      StoredIsTyped(c, Step(sys, e).store, k);
      if Step(sys, e).store[k] != sys.store[k] {
        WokenByChange(sys, e);
        SelfWoken(sys.store, Step(sys, e).store, k);
      }
    }
  }

  lemma CrashCovers(c: Config, sys: Sys, kind: Kind)
    requires WellFormed(c) && HasSpec(c, sys.store) && Reconciled(kind)
    ensures Step(sys, Crash).store == sys.store && Covered(c, Step(sys, Crash), kind)
  {
    hide WellFormed, OnTrack, Did;
  }

  lemma OwnStartCovers(c: Config, sys: Sys, kind: Kind, ok: bool)
    requires WellFormed(c) && Consistent(c, sys) && HasSpec(c, sys.store) && Reconciled(kind) && Covered(c, sys, kind)
    ensures var after := Step(sys, Start(ResourceKey(c, kind), ok));
      after.store == sys.store && Covered(c, after, kind)
  {
    hide WellFormed, OnTrack, Did, Consistent, HasSpec, Reconciled, Typed;
    var k := ResourceKey(c, kind);
    if k in sys.pending && k in sys.store {
      StartCovers(c, sys, k, ok);
    }
  }

  lemma OwnActCovers(c: Config, sys: Sys, kind: Kind, ok: bool)
    requires WellFormed(c) && Intact(c, sys) && HasSpec(c, sys.store) && Reconciled(kind) && Covered(c, sys, kind)
    requires var e := Act(ResourceKey(c, kind), ok); Reported(c, sys, e, {kind}) && HasSpec(c, Step(sys, e).store)
    ensures Covered(c, Step(sys, Act(ResourceKey(c, kind), ok)), kind)
  {
    hide WellFormed, OnTrack, Did, Consistent, HasSpec, Reconciled, Code, Step, Reached, FrameFits, StoreFits,
      Passing, Unneeded, Lenient;
    var k := ResourceKey(c, kind);
    var e := Act(k, ok);
    if k in sys.pending || k in sys.timers {
      QueuesKept(sys, e, k);
    } else if k !in sys.store {
      if k in Step(sys, e).store { AppearsQueued(sys, e, k); }
    } else if k !in sys.running {
      assert Step(sys, e) == sys by { StepIsAct(sys, k, ok); }
    } else if Lenient(Code(sys.running[k])) && !ok {
      DroppedCovers(c, sys, kind, Step(sys, e));
    } else {
      RunningFits(c, sys, k);
      RunningReached(c, sys, k);
      ConsistentStore(c, sys);
      ActCovers(c, sys, k, ok);
      assert Step(sys, e) == ActStep(sys, k, ok) by { StepIsAct(sys, k, ok); }
    }
  }

  lemma StepCovers(c: Config, sys: Sys, e: Event, kind: Kind)
    requires WellFormed(c) && Intact(c, sys) && HasSpec(c, sys.store) && Owned(c, sys.store)
    requires Untouched(c, e) && Reported(c, sys, e, {kind}) && Reconciled(kind) && Covered(c, sys, kind)
    ensures HasSpec(c, Step(sys, e).store) && Covered(c, Step(sys, e), kind)
  {
    hide WellFormed, Step, OnTrack, Did, HasSpec, Consistent, Calm, At, Owned, Spec, Reconciled, FramesFit, Untouched,
      Passing;
    SpecChangeWakes(c, sys, e);
    ConsistentStore(c, sys);
    var k, after := ResourceKey(c, kind), Step(sys, e);
    if e.Crash? {
      CrashCovers(c, sys, kind);
    } else if e.Start? && e.key == k {
      OwnStartCovers(c, sys, kind, e.ok);
    } else if e.Act? && e.key == k {
      OwnActCovers(c, sys, kind, e.ok);
    } else if k in sys.pending || k in sys.timers {
      QueuesKept(sys, e, k);
    } else if k !in sys.store {
      if k in after.store { AppearsQueued(sys, e, k); }
    } else if k !in after.pending {
      OthersLeaveIt(c, sys, e, kind);
      if i :| 0 <= i < CELLS && At(c, after.store, i) != At(c, sys.store, i) {
        CellsChanged(c, sys, e, kind, i);
      } else {
        NoCellChanged(c, sys, e, kind);
      }
    }
  }

  // What a reconcile creates, it owns.
  lemma CreatedObject(f: Frame, s: Store, ok: bool, k: Key)
    requires k !in s && k in Exec(f, s, ok).0 && k.kind != LoadbalancerStatus && f.key.kind != Service
    ensures Exec(f, s, ok).0[k].owner == Some(f.key)
  {
    ReportsAreStatuses(f);
    hide Code, Admits, Unchanged;
  }

  lemma ReportsAreStatuses(f: Frame)
    requires f.key.kind != Service
    ensures Code(f).Report? ==> Code(f).key.kind == LoadbalancerStatus
  {}

  lemma NewObject(c: Config, sys: Sys, e: Event, i: nat)
    requires WellFormed(c) && Consistent(c, sys) && Created(i) && e.Act? && e.key in sys.running
    requires WrittenNow(c, sys, e, i, sys.running[e.key])
    requires KeyOf(c, i) !in sys.store && KeyOf(c, i) in Step(sys, e).store
    ensures ActorOf(i).Reconcile? && Step(sys, e).store[KeyOf(c, i)].owner == Some(ResourceKey(c, ActorOf(i).kind))
  {
    hide Step, WellFormed, Consistent, Code, ActorOf, FrameFits, CallFits, KeyOf, Admits, Exec, At, WrittenNow,
      CellOf;
    var f := sys.running[e.key];
    WriterIsActor(c, sys, e, i, f);
    StoreOfStep(sys, e);
    WatchedBy(i);
    KeyIsLocal(c, i);
    ActsAreReconciled(c, sys, e.key);
    CreatedObject(f, sys.store, e.ok, KeyOf(c, i));
  }

  lemma ActsAreReconciled(c: Config, sys: Sys, k: Key)
    requires Consistent(c, sys) && k in sys.running && k.ns == c.ns
    ensures k.kind != Service
  {
    hide WellFormed, StoreFits, ResourceFits;
  }

  lemma StepOwned(c: Config, sys: Sys, e: Event)
    requires WellFormed(c) && Consistent(c, sys) && Calm(c, e) && Owned(c, sys.store)
    ensures Owned(c, Step(sys, e).store)
  {
    var s, s' := sys.store, Step(sys, e).store;
    forall i | 0 <= i < CELLS
      ensures OwnedCell(c, s', i)
    {
      StepOwnedCell(c, sys, e, i);
    }
    hide WellFormed, Step, OwnedCell, Consistent, Calm;
  }

  lemma StepOwnedCell(c: Config, sys: Sys, e: Event, i: nat)
    requires WellFormed(c) && Consistent(c, sys) && Calm(c, e) && Owned(c, sys.store) && i < CELLS
    ensures OwnedCell(c, Step(sys, e).store, i)
  {
    var s, s' := sys.store, Step(sys, e).store;
    hide WellFormed, Step, Consistent, Calm, KeyOf, At, IssuedNow, WrittenNow, TamperedNow, AssignedNow, ActorOf,
      IsSecret, Created, Removes, Exec, Owned, RemovedNow;
    KeyIsLocal(c, i);
    OwnedAt(c, s, i);
    if Created(i) && KeyOf(c, i) in s' {
      CreatedIsReconciled(i);
      if Removes(e) {
        OnlyRemoved(sys, e);
      } else if KeyOf(c, i) !in s {
        AppearedCell(c, s, s', i);
        CellChange(c, sys, e, i);
        CreatedByReconciler(c, sys, e, i);
        NewObject(c, sys, e, i);
      } else {
        OneKeyChanges(sys, e);
      }
    }
  }

  lemma OwnedAt(c: Config, s: Store, i: nat)
    requires WellFormed(c) && Owned(c, s) && i < CELLS
    ensures OwnedCell(c, s, i)
  {}

  lemma CreatedIsReconciled(i: nat)
    requires Created(i)
    ensures ActorOf(i).Reconcile?
  {}

  lemma AppearedCell(c: Config, s: Store, s': Store, i: nat)
    requires WellFormed(c) && i < CELLS && KeyOf(c, i) !in s && KeyOf(c, i) in s'
    ensures At(c, s', i) != At(c, s, i) && At(c, s, i).None?
  {}

  lemma CreatedByReconciler(c: Config, sys: Sys, e: Event, i: nat)
    requires WellFormed(c) && Created(i) && At(c, sys.store, i).None?
    ensures !IssuedNow(c, sys, e, i) && !AssignedNow(c, sys, e, i) && !TamperedNow(c, sys, e, i)
  {
    hide WellFormed, Step, At, KeyOf;
  }

  lemma StepAwake(c: Config, sys: Sys, e: Event, kinds: set<Kind>)
    requires WellFormed(c) && kinds <= RECONCILED
    requires Awake(c, sys, kinds) && Untouched(c, e) && Reported(c, sys, e, kinds)
    ensures Awake(c, Step(sys, e), kinds)
  {
    hide WellFormed, Step, Covered, HasSpec, Consistent, Calm, Owned, Code, Untouched, Passing, KeepsPairs;
    UntouchedKeepsPairs(c, e);
    StepIntact(c, sys, e);
    StepOwned(c, sys, e);
    SpecChangeWakes(c, sys, e);
    forall kind | kind in kinds
      ensures Covered(c, Step(sys, e), kind)
    {
      StepCovers(c, sys, e, kind);
    }
  }

  // Every step of the run leaves the unwatched objects alone.  A needed call may fail
  // unreported if the same reconcile is queued again before it ends: by changing another
  // object, by stopping at a gate or by anybody else.
  ghost predicate AllReported(c: Config, sys: Sys, es: seq<Event>, kinds: set<Kind>)
    requires WellFormed(c)
  {
    forall i :: 0 <= i < |es| ==>
      Untouched(c, es[i]) && (Reported(c, Run(sys, es[..i]), es[i], kinds) || (es[i].Act? && Retried(sys, es, i)))
  }

  // The reconcile of the kind in progress in state i has missed a call, but will be queued
  // again before it ends.
  ghost predicate Owing(c: Config, sys: Sys, es: seq<Event>, i: nat, kind: Kind)
    requires WellFormed(c) && i <= |es|
  {
    var k := ResourceKey(c, kind);
    exists m :: i < m <= |es| && RunsAgain(Run(sys, es[..m]), k) && KeepsRunning(sys, es, k, i, m)
  }

  lemma RunStep(sys: Sys, es: seq<Event>, n: nat)
    requires n < |es|
    ensures Run(sys, es[..n + 1]) == Step(Run(sys, es[..n]), es[n])
  {
    hide Step;
    assert es[..n + 1][..n] == es[..n];
  }

  lemma AgainIsCovered(c: Config, sys: Sys, kind: Kind)
    requires WellFormed(c) && HasSpec(c, sys.store) && RunsAgain(sys, ResourceKey(c, kind))
    ensures Covered(c, sys, kind)
  {
    hide WellFormed, HasSpec, OnTrack, Did;
  }

  // Whoever owes a call goes on owing it or is queued again.
  lemma OwingGoesOn(c: Config, sys: Sys, es: seq<Event>, i: nat, kind: Kind)
    requires WellFormed(c) && i < |es| && HasSpec(c, Run(sys, es[..i + 1]).store)
    requires Owing(c, sys, es, i, kind)
      || (es[i].Act? && es[i].key == ResourceKey(c, kind) && Retried(sys, es, i))
    ensures Covered(c, Run(sys, es[..i + 1]), kind) || Owing(c, sys, es, i + 1, kind)
  {
    hide WellFormed, HasSpec, Covered, Run, RunsAgain, ResourceKey;
    var k := ResourceKey(c, kind);
    if RunsAgain(Run(sys, es[..i + 1]), k) {
      AgainIsCovered(c, Run(sys, es[..i + 1]), kind);
    } else if Owing(c, sys, es, i, kind) {
      var m :| i < m <= |es| && RunsAgain(Run(sys, es[..m]), k) && KeepsRunning(sys, es, k, i, m);
      assert KeepsRunning(sys, es, k, i + 1, m);
    }
  }

  // Events other than a dropped call of the kind are reported as far as it is concerned.
  lemma ReportedToKind(c: Config, sys: Sys, e: Event, kinds: set<Kind>, kind: Kind)
    requires WellFormed(c) && kind in kinds && Intact(c, sys)
    requires Reported(c, sys, e, kinds) || !(e.Act? && e.key == ResourceKey(c, kind))
    ensures Reported(c, sys, e, {kind})
  {
    hide WellFormed, Unneeded, Code, Consistent, Passing, RunsAgain;
    if e.Act? && e.key.ns == c.ns && e.key in sys.running && e.key.kind == kind {
      IntactIsConsistent(c, sys);
      RunningFits(c, sys, e.key);
      NamedByConfig(c, sys.running[e.key]);
    }
  }

  lemma NamedByConfig(c: Config, f: Frame)
    requires WellFormed(c) && FrameFits(c, f)
    ensures f.key == ResourceKey(c, f.key.kind)
  {
    hide WellFormed, ResourceFits, CellFits;
  }

  ghost predicate Attentive(c: Config, sys: Sys, es: seq<Event>, i: nat, kinds: set<Kind>)
    requires WellFormed(c) && i <= |es|
  {
    var now := Run(sys, es[..i]);
    && Intact(c, now) && HasSpec(c, now.store) && Owned(c, now.store)
    && forall kind :: kind in kinds ==> Covered(c, now, kind) || Owing(c, sys, es, i, kind)
  }

  lemma StepAttentive(c: Config, sys: Sys, es: seq<Event>, i: nat, kinds: set<Kind>)
    requires WellFormed(c) && kinds <= RECONCILED && i < |es| && AllReported(c, sys, es, kinds)
    requires Attentive(c, sys, es, i, kinds)
    ensures Attentive(c, sys, es, i + 1, kinds)
  {
    hide WellFormed, Run, Step, Covered, HasSpec, Consistent, Calm, Owned, Code, Untouched, Passing, KeepsPairs,
      Owing, Intact, Reported, RECONCILED, ResourceKey, Retried;
    var now, e := Run(sys, es[..i]), es[i];
    RunStep(sys, es, i);
    UntouchedKeepsPairs(c, e);
    IntactIsConsistent(c, now);
    StepIntact(c, now, e);
    StepOwned(c, now, e);
    SpecChangeWakes(c, now, e);
    forall kind | kind in kinds
      ensures Covered(c, Step(now, e), kind) || Owing(c, sys, es, i + 1, kind)
    {
      if Owing(c, sys, es, i, kind) || (e.Act? && e.key == ResourceKey(c, kind) && Retried(sys, es, i)) {
        OwingGoesOn(c, sys, es, i, kind);
      } else {
        ReportedToKind(c, now, e, kinds, kind);
        KindsAreReconciled(kind);
        StepCovers(c, now, e, kind);
      }
    }
  }

  lemma IntactIsConsistent(c: Config, sys: Sys)
    requires Intact(c, sys)
    ensures Consistent(c, sys)
  {
    hide Consistent, Passing;
  }

  lemma KindsAreReconciled(kind: Kind)
    requires kind in RECONCILED
    ensures Reconciled(kind)
  {}

  lemma {:induction false} RunAttentive(c: Config, sys: Sys, es: seq<Event>, i: nat, kinds: set<Kind>)
    requires WellFormed(c) && kinds <= RECONCILED && i <= |es| && AllReported(c, sys, es, kinds) && Awake(c, sys, kinds)
    ensures Attentive(c, sys, es, i, kinds)
  {
    if i == 0 {
      hide WellFormed, Step, Covered, HasSpec, Intact, Owned, AllReported;
      assert es[..0] == [];
    } else {
      hide WellFormed, Awake, AllReported, Attentive, RECONCILED;
      RunAttentive(c, sys, es, i - 1, kinds);
      StepAttentive(c, sys, es, i - 1, kinds);
    }
  }

  // No wakeup is lost over any run in which every needed call of these reconcilers goes
  // through, is reported or is made good by a retry.
  lemma RunAwake(c: Config, sys: Sys, es: seq<Event>, kinds: set<Kind>)
    requires WellFormed(c) && kinds <= RECONCILED && Awake(c, sys, kinds) && AllReported(c, sys, es, kinds)
    ensures Awake(c, Run(sys, es), kinds)
  {
    hide WellFormed, Step, Covered, HasSpec, Intact, Owned, AllReported, RECONCILED;
    RunAttentive(c, sys, es, |es|, kinds);
    assert es[..|es|] == es;
  }

  // A restart of the operator on any store that fits is a good beginning.
  lemma RestartIsAwake(c: Config, sys: Sys)
    requires Consistent(c, sys) && HasSpec(c, sys.store) && Owned(c, sys.store)
    ensures Awake(c, Step(sys, Crash), RECONCILED)
  {
    hide WellFormed, HasSpec, Calm, Owned, OnTrack, Did, StoreFits, FramesFit, Reached;
    CrashIsCalm(c);
    StepConsistent(c, sys, Crash);
  }

  lemma CrashIsCalm(c: Config)
    requires WellFormed(c)
    ensures Calm(c, Crash)
  {}

  lemma DidGood(c: Config, s: Store, i: nat)
    requires WellFormed(c) && HasSpec(c, s) && i < CELLS && ActorOf(i).Reconcile? && Did(c, s, ActorOf(i).kind, LAST)
    ensures Good(c, s, i) || Excused(c, s, i)
  {
    hide WellFormed, HasSpec, Good, Excused, CellOf, ActorOf, CallOf;
    ActorIsReconciled(i);
    CallIsOwn(ActorOf(i).kind, CallOf(i));
  }

  lemma ActorIsReconciled(i: nat)
    requires i < CELLS && ActorOf(i).Reconcile?
    ensures ActorOf(i).kind in RECONCILED && Reconciled(ActorOf(i).kind) && !IsSecret(i)
    ensures ResourceCell(ActorOf(i).kind) <= CELLS
    ensures ResourceCell(ActorOf(i).kind) == CELLS ==> ActorOf(i).kind == ControlPlane
    ensures ResourceCell(ActorOf(i).kind) < CELLS ==>
      ActorOf(ResourceCell(ActorOf(i).kind)) == Reconcile(ControlPlane) && ResourceCell(ActorOf(i).kind) != LB_STATUS
  {}

  lemma ResourceAt(c: Config, kind: Kind)
    requires WellFormed(c) && ResourceCell(kind) < CELLS
    ensures KeyOf(c, ResourceCell(kind)) == ResourceKey(c, kind)
  {
    ResourceCells(c);
    hide WellFormed, KeyOf;
  }
}
