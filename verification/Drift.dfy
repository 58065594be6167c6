// What no reconciler hears of: changes of two objects that their writers do not watch.
// With these the control plane comes to rest away from its target, however long the
// operator works.
module Drift {
  import opened Api
  import opened Programs
  import opened Machine
  import opened Cells
  import opened Settling
  import opened Invariant
  import opened Termination
  import opened Convergence
  import opened Duties
  import opened Wakeup
  import opened Repose

  /******* Reconcilers that only wake themselves *******/

  const LEAVES: set<Kind> := {Pki, KubeAPIServer, KubeControllerManager, KubeScheduler}

  // Only reconcilers of the given kinds are queued, waiting or running.
  ghost predicate OnlyBusy(c: Config, sys: Sys, kinds: set<Kind>) {
    forall k: Key :: k.ns == c.ns && (k in sys.running || k in sys.pending || k in sys.timers) ==>
      k.kind in kinds && k == ResourceKey(c, k.kind)
  }

  // The operator and cert-manager at work in the namespace.
  ghost predicate Works(c: Config, e: Event)
    requires WellFormed(c)
  {
    (e.Start? || e.Act? || e.Fire? || e.Issue?) && e.key.ns == c.ns && Calm(c, e)
  }

  // A cell that neither the given reconcilers nor cert-manager write.
  predicate NotTheirs(kinds: set<Kind>, i: nat) {
    i < CELLS && !ActorOf(i).Sign? && (ActorOf(i).Reconcile? ==> ActorOf(i).kind !in kinds)
  }

  lemma LeafCell(kind: Kind, q: nat)
    requires kind in LEAVES && CellOf(kind, q) < CELLS && !IsSecret(CellOf(kind, q))
    ensures Created(CellOf(kind, q)) && ActorOf(CellOf(kind, q)) == Reconcile(kind) && kind != Service
    ensures !Reconciled(KindOf(CellOf(kind, q))) && KindOf(CellOf(kind, q)) !in {LoadbalancerStatus, ServiceStatus}
  {}

  // Pki, KubeAPIServer, KubeControllerManager and KubeScheduler reconcilers wake nobody else.
  lemma LeafWakes(c: Config, sys: Sys, k: Key, ok: bool)
    requires WellFormed(c) && Consistent(c, sys) && Owned(c, sys.store)
    requires k.kind in LEAVES && k == ResourceKey(c, k.kind) && k in sys.running
    ensures var f := sys.running[k];
      Exec(f, sys.store, ok).0 != sys.store ==> Woken(sys.store, Exec(f, sys.store, ok).0, TargetKey(f)) <= {k}
  {
    hide WellFormed, Consistent, Owned, FrameFits, Code, KeyOf, CellFits, CellOf, Woken, OwnedCell, Admits, LEAVES,
      Created, ActorOf, IsSecret, CallFits, Unchanged, TargetKey, Exec;
    var f := sys.running[k];
    RunningFits(c, sys, k);
    if Exec(f, sys.store, ok).0 != sys.store {
      if Code(f).Stop? { StopWritesNothing(f, sys.store, ok); }
      EveryCallFits(c, f);
      WrittenBody(c, f, sys.store, ok);
      var i := CellOf(f.key.kind, f.pc);
      LeafCell(f.key.kind, f.pc);
      OwnedAt(c, sys.store, i);
      LeafWrite(c, f, sys.store, ok, i);
    }
  }

  lemma LeafWrite(c: Config, f: Frame, s: Store, ok: bool, i: nat)
    requires WellFormed(c) && Created(i) && OwnedCell(c, s, i) && f.key == ResourceKey(c, ActorOf(i).kind)
    requires !Reconciled(KindOf(i)) && KindOf(i) !in {LoadbalancerStatus, ServiceStatus}
    requires !Code(f).Stop? && TargetKey(f) == KeyOf(c, i) && f.key.kind != Service
    ensures Woken(s, Exec(f, s, ok).0, TargetKey(f)) <= {f.key}
  {
    KeyIsLocal(c, i);
    ReportsAreStatuses(f);
    hide WellFormed, KeyOf, Code, Created, ActorOf, Admits, Unchanged, KindOf, ResourceKey, Reconciled;
    SelfOnly(s, Exec(f, s, ok).0, KeyOf(c, i), f.key);
  }

  lemma SelfOnly(s: Store, s': Store, w: Key, k: Key)
    requires !Reconciled(w.kind) && w.kind !in {LoadbalancerStatus, ServiceStatus}
    requires OwnerAt(s, w) in {None, Some(k)} && OwnerAt(s', w) in {None, Some(k)}
    ensures Woken(s, s', w) <= {k}
  {}

  // Issuing a key pair wakes nobody.
  lemma IssueWakesNobody(c: Config, sys: Sys, e: Event)
    requires WellFormed(c) && Consistent(c, sys) && Calm(c, e) && e.Issue? && e.key.ns == c.ns
    ensures Step(sys, e).pending == sys.pending && Step(sys, e).running == sys.running
    ensures Step(sys, e).timers == sys.timers
  {
    hide WellFormed, Consistent, Calm, Issuable, Woken;
    if Issuable(sys.store, e.key) {
      IssuedOnce(c, sys, e);
    }
  }

  lemma IssuedOnce(c: Config, sys: Sys, e: Event)
    requires WellFormed(c) && Consistent(c, sys) && Calm(c, e) && e.Issue? && e.key.ns == c.ns
    requires Issuable(sys.store, e.key)
    ensures var w := SecretKeyOf(sys.store, e.key);
      var s' := Put(sys.store, w, None, SecretBody(e.data));
      s' == sys.store || Woken(sys.store, s', w) == {}
  {
    var s, k := sys.store, e.key;
    var j := CertificateCell(c, k);
    var w := SecretKeyOf(s, k);
    SecretOfCertificate(c, j);
    SecretCells(j);
    assert At(c, s, CertCell(j)) == Some(s[k].body);
    assert CellFits(c, CertCell(j), s[k].body);
    assert w == KeyOf(c, SecretCell(j));
    if w in s {
      assert At(c, s, SecretCell(j)) == Some(s[w].body);
      assert CellFits(c, SecretCell(j), s[w].body);
      assert s[w].body == SecretBody(e.data);
    }
    hide WellFormed, Consistent, Calm, Issuable, CellFits, KeyOf;
  }

  lemma SecretCells(j: nat)
    requires j < 7
    ensures SecretCell(j) < CELLS && CertCell(j) < CELLS && IsSecret(SecretCell(j)) && IsCert(CertCell(j))
    ensures Which(SecretCell(j)) == j && Which(CertCell(j)) == j
    ensures KindOf(SecretCell(j)) == Secret && KindOf(CertCell(j)) == Certificate
  {}

  lemma BusyQueues(c: Config, sys: Sys, e: Event, kinds: set<Kind>)
    requires WellFormed(c) && Consistent(c, sys) && Owned(c, sys.store) && kinds <= LEAVES
    requires OnlyBusy(c, sys, kinds) && Works(c, e)
    ensures OnlyBusy(c, Step(sys, e), kinds)
  {
    hide WellFormed, Consistent, Owned, Exec, TargetKey, Woken, LEAVES, ResourceKey, Calm;
    if e.Issue? {
      IssueWakesNobody(c, sys, e);
    } else if e.Act? && e.key in sys.running {
      LeafWakes(c, sys, e.key, e.ok);
    }
  }

  // Their work leaves everybody else's cells alone.
  lemma BusyCells(c: Config, sys: Sys, e: Event, kinds: set<Kind>, i: nat)
    requires WellFormed(c) && Consistent(c, sys) && Works(c, e) && NotTheirs(kinds, i)
    requires e.Act? && e.key in sys.running ==> e.key.kind in kinds
    ensures At(c, Step(sys, e).store, i) == At(c, sys.store, i)
  {
    hide WellFormed, Consistent, Step, At, KeyOf, ActorOf, WrittenNow, IssuedNow, AssignedNow, TamperedNow, Calm;
    if At(c, Step(sys, e).store, i) != At(c, sys.store, i) {
      CellChange(c, sys, e, i);
      if IssuedNow(c, sys, e, i) {
        IssuedBySigner(c, sys, e, i);
      } else {
        NotTheEnvironment(c, sys, e, i);
        WriterIsActor(c, sys, e, i, sys.running[e.key]);
      }
      assert false;
    }
  }

  lemma ByTheBusy(c: Config, sys: Sys, e: Event, kinds: set<Kind>)
    requires WellFormed(c) && OnlyBusy(c, sys, kinds) && Works(c, e)
    ensures e.Act? && e.key in sys.running ==> e.key.kind in kinds
  {
    hide WellFormed, Calm, ResourceKey;
  }

  lemma IssuedBySigner(c: Config, sys: Sys, e: Event, i: nat)
    requires WellFormed(c) && i < CELLS && IssuedNow(c, sys, e, i)
    ensures ActorOf(i).Sign?
  {
    hide WellFormed, At, Issuable, KeyOf;
  }

  lemma NotTheEnvironment(c: Config, sys: Sys, e: Event, i: nat)
    requires WellFormed(c) && i < CELLS && Works(c, e)
    ensures !AssignedNow(c, sys, e, i) && !TamperedNow(c, sys, e, i)
  {
    hide WellFormed, At, Step, KeyOf, Calm;
  }

  lemma {:induction false} BusyRun(c: Config, sys: Sys, es: seq<Event>, kinds: set<Kind>)
    requires WellFormed(c) && Consistent(c, sys) && Owned(c, sys.store) && kinds <= LEAVES && OnlyBusy(c, sys, kinds)
    requires forall n :: 0 <= n < |es| ==> Works(c, es[n])
    ensures Consistent(c, Run(sys, es)) && Owned(c, Run(sys, es).store) && OnlyBusy(c, Run(sys, es), kinds)
    ensures forall i :: 0 <= i < CELLS && NotTheirs(kinds, i) ==> At(c, Run(sys, es).store, i) == At(c, sys.store, i)
    ensures forall i :: 0 <= i < CELLS && IsSecret(i) && At(c, sys.store, i).Some? ==>
      At(c, Run(sys, es).store, i) == At(c, sys.store, i)
  {
    hide WellFormed, Step, At, Consistent, Owned, OnlyBusy, LEAVES, NotTheirs, Calm, IsSecret;
    if es != [] {
      var n := |es| - 1;
      var before := Run(sys, es[..n]);
      BusyRun(c, sys, es[..n], kinds);
      StepConsistent(c, before, es[n]);
      StepOwned(c, before, es[n]);
      BusyQueues(c, before, es[n], kinds);
      ByTheBusy(c, before, es[n], kinds);
      forall i | 0 <= i < CELLS && NotTheirs(kinds, i)
        ensures At(c, Step(before, es[n]).store, i) == At(c, before.store, i)
      {
        BusyCells(c, before, es[n], kinds, i);
      }
      forall i | 0 <= i < CELLS && IsSecret(i) && At(c, sys.store, i).Some?
        ensures At(c, Step(before, es[n]).store, i) == At(c, before.store, i)
      {
        PairStays(c, before, es[n], i);
      }
    }
  }

  lemma PairStays(c: Config, sys: Sys, e: Event, i: nat)
    requires WellFormed(c) && Consistent(c, sys) && Works(c, e) && i < CELLS && IsSecret(i) && At(c, sys.store, i).Some?
    ensures At(c, Step(sys, e).store, i) == At(c, sys.store, i)
  {
    hide WellFormed, Consistent, Step, At, KeyOf, WrittenNow, IssuedNow, AssignedNow, TamperedNow, Calm, IsSecret;
    if At(c, Step(sys, e).store, i) != At(c, sys.store, i) {
      CellChange(c, sys, e, i);
      if IssuedNow(c, sys, e, i) {
        IssuedCell(c, sys, e, i);
      } else {
        NotTheEnvironment(c, sys, e, i);
        WriterIsActor(c, sys, e, i, sys.running[e.key]);
      }
      assert false;
    }
  }

  /******* The two objects that nobody repairs *******/

  lemma StoredFits(c: Config, s: Store, i: nat)
    requires WellFormed(c) && StoreFits(c, s) && i < CELLS && KeyOf(c, i) in s
    ensures CellFits(c, i, s[KeyOf(c, i)].body)
  {
    hide WellFormed, CellFits, KeyOf;
    assert At(c, s, i).Some?;
  }

  // A third party gives the object of cell i another body, or deletes it.
  predicate Disturbs(c: Config, i: nat, e: Event)
    requires WellFormed(c) && i < CELLS
  {
    (e.Tamper? && e.key == KeyOf(c, i) && CellFits(c, i, e.body)) || e == Delete(KeyOf(c, i))
  }

  function LeftBy(e: Event): Option<Body> {
    if e.Tamper? then Some(e.body) else None
  }

  lemma DisturbedCellHolds(c: Config, sys: Sys, i: nat, e: Event)
    requires WellFormed(c) && StoreFits(c, sys.store) && i < CELLS && KeyOf(c, i) in sys.store && Disturbs(c, i, e)
    ensures var after := Step(sys, e);
      && At(c, after.store, i) == LeftBy(e)
      && after.running == sys.running && after.timers == sys.timers
      && after.pending <= sys.pending + Woken(sys.store, after.store, KeyOf(c, i))
      && (KeyOf(c, i) in after.store ==> after.store[KeyOf(c, i)].owner == sys.store[KeyOf(c, i)].owner)
  {
    hide WellFormed, StoreFits, NameOf, Woken, SecretNames;
    NamesAreNotEmpty(c, i);
    StoredFits(c, sys.store, i);
  }

  lemma DisturbanceIsCalm(c: Config, i: nat, e: Event)
    requires WellFormed(c) && i < CELLS && Disturbs(c, i, e)
    ensures Calm(c, e)
  {
    hide WellFormed, CellFits, NameOf;
    if e.Tamper? { TamperIsCalm(c, i, e.body); }
  }

  lemma TamperIsCalm(c: Config, i: nat, body: Body)
    requires WellFormed(c) && i < CELLS && CellFits(c, i, body)
    ensures Calm(c, Tamper(KeyOf(c, i), body))
  {
    CellIsUnique(c, i, body);
    hide WellFormed, CellFits, NameOf;
    KeyIsLocal(c, i);
  }

  lemma AwakeFacts(c: Config, sys: Sys)
    requires Awake(c, sys, RECONCILED)
    ensures WellFormed(c) && Consistent(c, sys) && StoreFits(c, sys.store) && HasSpec(c, sys.store)
    ensures Owned(c, sys.store)
  {
    hide WellFormed, Covered, StoreFits, FramesFit;
  }

  // A changed or deleted konnectivity kubeconfig wakes nobody: the control plane stays at
  // rest with it.
  lemma KubeconfigDriftStays(c: Config, sys: Sys, e: Event)
    requires WellFormed(c) && Awake(c, sys, RECONCILED) && Quiet(c, sys)
    requires KeyOf(c, KONNECTIVITY_KUBECONFIG) in sys.store && Disturbs(c, KONNECTIVITY_KUBECONFIG, e)
    ensures At(c, Step(sys, e).store, KONNECTIVITY_KUBECONFIG) == LeftBy(e) && Quiet(c, Step(sys, e))
  {
    var i := KONNECTIVITY_KUBECONFIG;
    hide WellFormed, Step, KeyOf, At, CellFits, Awake, Disturbs;
    AwakeFacts(c, sys);
    DisturbedCellHolds(c, sys, i, e);
    OwnedAt(c, sys.store, i);
    WatchedBy(i);
    KeyIsLocal(c, i);
  }

  // A changed or deleted KubeScheduler resource wakes its own reconciler only, and however
  // long the operator then works, the ControlPlane reconciler never puts it right.
  lemma SchedulerDriftStays(c: Config, sys: Sys, e: Event, es: seq<Event>)
    requires WellFormed(c) && Awake(c, sys, RECONCILED) && Quiet(c, sys)
    requires KeyOf(c, KS) in sys.store && Disturbs(c, KS, e)
    requires forall n :: 0 <= n < |es| ==> Works(c, es[n])
    ensures var after := Run(Step(sys, e), es);
      At(c, after.store, KS) == LeftBy(e) && OnlyBusy(c, after, {KubeScheduler})
  {
    hide WellFormed, Step, KeyOf, At, CellFits, Awake, Owned, Consistent, Works, OnlyBusy, Disturbs;
    DriftBegins(c, sys, e);
    SchedulerActor();
    BusyRun(c, Step(sys, e), es, {KubeScheduler});
  }

  lemma SchedulerActor()
    ensures NotTheirs({KubeScheduler}, KS) && {KubeScheduler} <= LEAVES
  {}

  lemma DriftBegins(c: Config, sys: Sys, e: Event)
    requires WellFormed(c) && Awake(c, sys, RECONCILED) && Quiet(c, sys)
    requires KeyOf(c, KS) in sys.store && Disturbs(c, KS, e)
    ensures var after := Step(sys, e);
      && At(c, after.store, KS) == LeftBy(e)
      && Consistent(c, after) && Owned(c, after.store) && OnlyBusy(c, after, {KubeScheduler})
  {
    hide WellFormed, Step, KeyOf, At, CellFits, Awake, Consistent, Owned, Calm, Disturbs;
    AwakeFacts(c, sys);
    DisturbedCellHolds(c, sys, KS, e);
    DisturbanceIsCalm(c, KS, e);
    StepConsistent(c, sys, e);
    StepOwned(c, sys, e);
    OwnedAt(c, sys.store, KS);
    WatchedBy(KS);
    KeyIsLocal(c, KS);
    ResourceAt(c, KubeScheduler);
  }
}
