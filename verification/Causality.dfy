// The order in which things come into being, over all interleavings: no component runs
// before its key pairs are issued, no leaf certificate before the admin key pair, no key
// pair before its issuer and, whatever is deleted on the way, nothing of this before a
// control-plane IP was recorded.
module Causality {
  import opened Api
  import opened Programs
  import opened Machine
  import opened Integrity
  import opened History
  import opened Cells
  import opened Settling
  import opened Invariant
  import opened Termination

  ghost predicate Present(c: Config, s: Store, cells: set<nat>)
    requires WellFormed(c)
  {
    forall i :: i in cells ==> i < CELLS && At(c, s, i).Some?
  }

  // What must already be there when cell i is.
  function Before(i: nat): set<nat> {
    if IsSecret(i) then
      if Which(i) == CA then {CertCell(CA), ROOT_ISSUER}
      else {CertCell(Which(i)), CA_ISSUER, SecretCell(CA)}
    else if IsCert(i) && Which(i) > ADMIN then {SecretCell(ADMIN)}
    else if i == KAS_DEPLOYMENT then
      {SecretCell(KONNECTIVITY), SecretCell(CA), SecretCell(SERVER), SecretCell(ACCOUNTS), KONNECTIVITY_KUBECONFIG,
       EGRESS}
    else if i == KCM_DEPLOYMENT then {SecretCell(MANAGER), SecretCell(ACCOUNTS), SecretCell(CA), KCM_SECRET}
    else if i == KS_DEPLOYMENT then {SecretCell(SCHEDULER), KS_SECRET}
    else {}
  }

  ghost predicate Ordered(c: Config, s: Store)
    requires WellFormed(c)
  {
    forall i :: 0 <= i < CELLS && At(c, s, i).Some? ==> Present(c, s, Before(i))
  }

  // No object of the namespace is deleted.
  ghost predicate Lasting(c: Config, e: Event)
    requires WellFormed(c)
  {
    Calm(c, e) && (Removes(e) ==> e.key.ns != c.ns)
  }

  ghost predicate AllLasting(c: Config, es: seq<Event>)
    requires WellFormed(c)
  {
    forall i :: 0 <= i < |es| ==> Lasting(c, es[i])
  }

  // Reconciles in progress still have what their calls so far found or wrote.
  ghost predicate AllGated(c: Config, sys: Sys) {
    forall k :: k in sys.running && k.ns == c.ns ==> Gated(sys.running[k], sys.store)
  }

  ghost predicate Grown(c: Config, sys: Sys) {
    Consistent(c, sys) && AllGated(c, sys) && WellFormed(c) && Ordered(c, sys.store)
  }

  lemma LocalKeysStay(c: Config, sys: Sys, e: Event, k: Key)
    requires WellFormed(c) && Lasting(c, e) && k in sys.store && k.ns == c.ns
    ensures k in Step(sys, e).store
  {
    hide WellFormed, Step, Calm;
    if Removes(e) {
      OnlyRemoved(sys, e);
    } else {
      OneKeyChanges(sys, e);
    }
  }

  lemma EnsuredIsLocal(k: Key, body: Body, i: nat)
    ensures Ensured(k, body, i).Some? ==> Ensured(k, body, i).value.ns == k.ns
  {
    hide Code;
  }

  lemma StillGated(c: Config, sys: Sys, e: Event, f: Frame)
    requires WellFormed(c) && Lasting(c, e) && f.key.ns == c.ns && Gated(f, sys.store)
    ensures Gated(f, Step(sys, e).store)
  {
    hide WellFormed, Step, Lasting, Ensured;
    forall i | 0 <= i < f.pc && Ensured(f.key, f.body, i).Some?
      ensures Ensured(f.key, f.body, i).value in Step(sys, e).store
    {
      EnsuredIsLocal(f.key, f.body, i);
      LocalKeysStay(c, sys, e, Ensured(f.key, f.body, i).value);
    }
  }

  lemma StepGated(c: Config, sys: Sys, e: Event)
    requires WellFormed(c) && Consistent(c, sys) && Lasting(c, e) && AllGated(c, sys)
    ensures AllGated(c, Step(sys, e))
  {
    hide WellFormed, Consistent, Step, Lasting, Gated;
    var after := Step(sys, e);
    forall k | k in after.running && k.ns == c.ns
      ensures Gated(after.running[k], after.store)
    {
      FramesOfStep(sys, e, k);
      StoreOfStep(sys, e);
      if e.Act? && e.key == k {
        ExecGated(sys.running[k], sys.store, e.ok);
      } else if k in sys.running && after.running[k] == sys.running[k] {
        RunningFits(c, sys, k);
        StillGated(c, sys, e, sys.running[k]);
      } else {
        NothingGated(Begin(sys.store, k), after.store);
      }
      hide Exec, StoreAfter;
    }
  }

  lemma NothingGated(f: Frame, s: Store)
    requires f.pc == 0
    ensures Gated(f, s)
  {}

  lemma MorePresent(c: Config, sys: Sys, e: Event, cells: set<nat>)
    requires WellFormed(c) && Lasting(c, e) && Present(c, sys.store, cells)
    ensures Present(c, Step(sys, e).store, cells)
  {
    hide Lasting, Step, WellFormed, KeyOf;
    forall i | i in cells
      ensures i < CELLS && At(c, Step(sys, e).store, i).Some?
    {
      KeyIsLocal(c, i);
      LocalKeysStay(c, sys, e, KeyOf(c, i));
    }
  }

  lemma EnsuresCall(c: Config, f: Frame, i: nat)
    requires WellFormed(c) && FrameFits(c, f) && i < f.pc && Gates(f.key.kind, i)
    ensures Ensured(f.key, f.body, i).Some?
  {
    hide SecretNames, Distinct, Conforms, KCM_NAME, KS_NAME, KCM_KUBECONFIG, KS_CONFIG, EGRESS_CONFIG,
      GenerateDeployment, KcmWorkload, KsWorkload;
  }

  // The calls before a write that make sure of a Secret or a ConfigMap.
  predicate Gates(kind: Kind, i: nat) {
    match kind
    case Pki => i == 4
    case KubeAPIServer => i < 6
    case KubeControllerManager => i < 4
    case KubeScheduler => i < 2
    case _ => false
  }

  // The gates and strict writes before a write cover everything its cell depends on.
  lemma WrittenAfter(c: Config, s: Store, f: Frame)
    requires WellFormed(c) && FrameFits(c, f) && Gated(f, s) && CallFits(c, f) && !Code(f).Fetch?
    ensures Present(c, s, Before(CellOf(f.key.kind, f.pc)))
  {
    hide WellFormed, Gated, FrameFits, CellFits, Code, At, KeyOf, Before, Present;
    FitsReconciler(c, f);
    if f.key.kind in {ControlPlane, Loadbalancer} {
      NothingBefore(c, s, f.key.kind, f.pc);
    } else if f.key.kind == Pki {
      TrustAfter(c, s, f);
    } else {
      ComponentAfter(c, s, f);
    }
  }

  lemma NothingBefore(c: Config, s: Store, kind: Kind, pc: nat)
    requires WellFormed(c) && kind in {ControlPlane, Loadbalancer} && CellOf(kind, pc) < CELLS
    ensures Present(c, s, Before(CellOf(kind, pc)))
  {
    hide WellFormed, At;
  }

  lemma TrustAfter(c: Config, s: Store, f: Frame)
    requires WellFormed(c) && FrameFits(c, f) && Gated(f, s) && f.key.kind == Pki
    requires CellOf(Pki, f.pc) < CELLS && !IsSecret(CellOf(Pki, f.pc))
    ensures Present(c, s, Before(CellOf(Pki, f.pc)))
  {
    hide WellFormed, Gated, FrameFits, At;
    if f.pc > 4 {
      Gate(c, s, f, 4);
    }
  }

  lemma ComponentAfter(c: Config, s: Store, f: Frame)
    requires WellFormed(c) && FrameFits(c, f) && Gated(f, s)
    requires f.key.kind in {KubeAPIServer, KubeControllerManager, KubeScheduler}
    requires CellOf(f.key.kind, f.pc) < CELLS && !IsSecret(CellOf(f.key.kind, f.pc))
    ensures Present(c, s, Before(CellOf(f.key.kind, f.pc)))
  {
    hide WellFormed, Gated, FrameFits, At;
    if f.key.kind == KubeAPIServer && f.pc == 6 {
      Gate(c, s, f, 0);
      Gate(c, s, f, 1);
      Gate(c, s, f, 2);
      Gate(c, s, f, 3);
      Gate(c, s, f, 4);
      Gate(c, s, f, 5);
    } else if f.key.kind == KubeControllerManager && f.pc == 4 {
      Gate(c, s, f, 0);
      Gate(c, s, f, 1);
      Gate(c, s, f, 2);
      Gate(c, s, f, 3);
    } else if f.key.kind == KubeScheduler && f.pc == 2 {
      Gate(c, s, f, 0);
      Gate(c, s, f, 1);
    }
  }

  lemma Gate(c: Config, s: Store, f: Frame, i: nat)
    requires WellFormed(c) && FrameFits(c, f) && Gated(f, s) && i < f.pc && Gates(f.key.kind, i)
    ensures CellOf(f.key.kind, i) < CELLS && At(c, s, CellOf(f.key.kind, i)).Some?
  {
    EnsuresCall(c, f, i);
    var g := f.(pc := i);
    assert FrameFits(c, g);
    EnsuredIsCode(g);
    assert !Code(g).Stop?;
    EveryCallFits(c, g);
    hide Code, WellFormed, ResourceFits, Ensured, CellOf, CellFits, Gates;
  }

  lemma IssuedAfter(c: Config, sys: Sys, e: Event, i: nat)
    requires WellFormed(c) && Consistent(c, sys) && i < CELLS && IssuedNow(c, sys, e, i)
    ensures Present(c, sys.store, Before(i))
  {
    hide WellFormed, Consistent, At, KeyOf, Issuable, IsSecret, SignerThere;
    ConsistentStore(c, sys);
    IssuableCell(c, sys.store, i);
    IssuableCells(c, sys.store, i);
    SignerIsBefore(c, sys.store, i);
  }

  lemma SignerIsBefore(c: Config, s: Store, i: nat)
    requires WellFormed(c) && i < CELLS && IsSecret(i) && At(c, s, i - 1).Some? && SignerThere(c, s, Which(i))
    ensures Present(c, s, Before(i))
  {
    hide WellFormed, At;
  }

  lemma StepOrdered(c: Config, sys: Sys, e: Event)
    requires WellFormed(c) && Grown(c, sys) && Lasting(c, e)
    ensures Ordered(c, Step(sys, e).store)
  {
    hide WellFormed, Step, Consistent, AllGated, Lasting, Present, At, Before;
    var s, s' := sys.store, Step(sys, e).store;
    forall i | 0 <= i < CELLS && At(c, s', i).Some?
      ensures Present(c, s', Before(i))
    {
      if At(c, s, i).None? {
        AppearsAfter(c, sys, e, i);
      }
      MorePresent(c, sys, e, Before(i));
    }
  }

  lemma LastingIsCalm(c: Config, e: Event)
    requires WellFormed(c) && Lasting(c, e)
    ensures Calm(c, e)
  {}

  lemma AppearsAfter(c: Config, sys: Sys, e: Event, i: nat)
    requires WellFormed(c) && Consistent(c, sys) && AllGated(c, sys) && Lasting(c, e) && i < CELLS
    requires At(c, sys.store, i).None? && At(c, Step(sys, e).store, i).Some?
    ensures Present(c, sys.store, Before(i))
  {
    hide WellFormed, Step, Consistent, Lasting, Present, At, Before, Removes, IssuedNow, TamperedNow, AssignedNow,
      WrittenNow, KeyOf, Gated;
    LastingIsCalm(c, e);
    Appeared(c, sys, e, i);
    if IssuedNow(c, sys, e, i) {
      IssuedAfter(c, sys, e, i);
    } else if i == INGRESS {
      NothingBeforeIngress(c, sys.store);
    } else {
      WriterFacts(c, sys, e, i);
      WrittenAfter(c, sys.store, sys.running[e.key]);
    }
  }

  // A cell appears by issuance, by an address or by a call of a reconcile.
  lemma Appeared(c: Config, sys: Sys, e: Event, i: nat)
    requires WellFormed(c) && Consistent(c, sys) && Calm(c, e) && i < CELLS
    requires At(c, sys.store, i).None? && At(c, Step(sys, e).store, i).Some?
    ensures
      || IssuedNow(c, sys, e, i) || i == INGRESS
      || (e.Act? && e.key in sys.running && WrittenNow(c, sys, e, i, sys.running[e.key]))
  {
    hide WellFormed, Step, Consistent, Calm, At, IssuedNow, WrittenNow, KeyOf;
    CellChange(c, sys, e, i);
  }

  lemma WriterFacts(c: Config, sys: Sys, e: Event, i: nat)
    requires WellFormed(c) && AllGated(c, sys) && i < CELLS && e.Act? && e.key in sys.running
    requires WrittenNow(c, sys, e, i, sys.running[e.key])
    ensures var f := sys.running[e.key];
      && FrameFits(c, f) && CallFits(c, f) && !Code(f).Fetch? && Gated(f, sys.store) && CellOf(f.key.kind, f.pc) == i
  {
    hide WellFormed, Step, Gated, At, FrameFits, Code, CellOf, KeyOf, CellFits;
  }

  lemma NothingBeforeIngress(c: Config, s: Store)
    requires WellFormed(c)
    ensures Present(c, s, Before(INGRESS))
  {}

  lemma {:induction false} RunGrown(c: Config, sys: Sys, es: seq<Event>)
    requires WellFormed(c) && Grown(c, sys) && AllLasting(c, es)
    ensures Grown(c, Run(sys, es)) && Consistent(c, Run(sys, es)) && Ordered(c, Run(sys, es).store)
  {
    hide Consistent, Step, Lasting, Ordered, WellFormed, AllGated;
    if es != [] {
      var init, last := Run(sys, es[..|es| - 1]), es[|es| - 1];
      RunGrown(c, sys, es[..|es| - 1]);
      LastingIsCalm(c, last);
      StepConsistent(c, init, last);
      StepGated(c, init, last);
      StepOrdered(c, init, last);
    }
  }

  // A control plane that starts from scratch: no reconcile in progress, no certificate,
  // secret or workload yet.
  ghost predicate Pristine(c: Config, sys: Sys) {
    && Consistent(c, sys)
    && sys.running == map[]
    && forall i :: ROOT_ISSUER <= i < CELLS ==> At(c, sys.store, i).None?
  }

  lemma PristineIsGrown(c: Config, sys: Sys)
    requires Pristine(c, sys)
    ensures WellFormed(c) && Grown(c, sys)
  {
    hide Consistent, At, WellFormed;
    assert WellFormed(c) by { ConsistentStore(c, sys); }
  }

  /******* The control-plane IP comes first *******/

  // A non-empty IP was in Pki.spec in one of the first n + 1 states.
  ghost predicate IpRecorded(c: Config, sys: Sys, es: seq<Event>, n: nat)
    requires WellFormed(c) && n <= |es|
  {
    exists p :: Recorded(sys, es, n, KeyOf(c, PKI), PkiBody(p)) && p.controlPlaneIP != ""
  }

  // The leaf certificates, their key pairs and the Deployments of the components.
  predicate IsLeaf(i: nat) {
    || (i < CELLS && (IsCert(i) || IsSecret(i)) && Which(i) > ADMIN)
    || i in {KAS_DEPLOYMENT, KCM_DEPLOYMENT, KS_DEPLOYMENT}
  }

  predicate IsComponent(kind: Kind) {
    kind in {KubeAPIServer, KubeControllerManager, KubeScheduler}
  }

  // Something is there, or under way, that needs the IP.
  ghost predicate NeedsIp(c: Config, sys: Sys)
    requires WellFormed(c)
  {
    || (exists i :: 0 <= i < CELLS && IsLeaf(i) && At(c, sys.store, i).Some?)
    || (exists k :: k in sys.running && k.ns == c.ns && IsComponent(k.kind) && sys.running[k].pc > 0)
  }

  lemma LeafWriter(c: Config, f: Frame, i: nat)
    requires WellFormed(c) && FrameFits(c, f) && CallFits(c, f) && !Code(f).Fetch?
    requires CellOf(f.key.kind, f.pc) == i && IsLeaf(i)
    ensures
      || (f.key == KeyOf(c, PKI) && f.body.PkiBody? && f.body.pki.controlPlaneIP != "")
      || (IsComponent(f.key.kind) && f.pc > 0)
  {
    hide SecretNames, Distinct, KCM_NAME, KS_NAME, KCM_KUBECONFIG, KS_CONFIG, EGRESS_CONFIG;
  }

  // The first call of a component's reconcile is to fetch a leaf key pair.
  lemma FirstFetch(c: Config, f: Frame, s: Store, ok: bool)
    requires WellFormed(c) && FrameFits(c, f) && IsComponent(f.key.kind) && f.pc == 0
    requires Exec(f, s, ok).1.Next?
    ensures var i := CellOf(f.key.kind, 0); IsLeaf(i) && i < CELLS && At(c, s, i).Some?
  {
    FirstCallFetches(c, f);
    EveryCallFits(c, f);
    hide SecretNames, Distinct, Code, KeyOf, ResourceFits, CellFits;
  }

  lemma FirstCallFetches(c: Config, f: Frame)
    requires WellFormed(c) && FrameFits(c, f) && IsComponent(f.key.kind) && f.pc == 0
    ensures Code(f).Fetch? && CellOf(f.key.kind, 0) < CELLS && IsLeaf(CellOf(f.key.kind, 0))
  {
    hide SecretNames, Distinct;
  }

  // Whatever newly needs the IP came from something that needed it, or from a Pki that
  // has it.
  lemma NeedsIpBefore(c: Config, sys: Sys, e: Event)
    requires WellFormed(c) && Consistent(c, sys) && Calm(c, e) && NeedsIp(c, Step(sys, e))
    ensures
      || NeedsIp(c, sys)
      || (e.Act? && e.key in sys.running && e.key == KeyOf(c, PKI) && sys.running[e.key].body.PkiBody?
            && sys.running[e.key].body.pki.controlPlaneIP != "")
  {
    hide WellFormed, Consistent, Calm, Step, At, KeyOf, IsLeaf, IsComponent, WrittenNow, IssuedNow;
    var after := Step(sys, e);
    if i :| 0 <= i < CELLS && IsLeaf(i) && At(c, after.store, i).Some? {
      if At(c, sys.store, i).None? {
        LeafAppears(c, sys, e, i);
      }
    } else {
      var k :| k in after.running && k.ns == c.ns && IsComponent(k.kind) && after.running[k].pc > 0;
      FrameAdvances(c, sys, e, k);
    }
  }

  lemma LeafAppears(c: Config, sys: Sys, e: Event, i: nat)
    requires WellFormed(c) && Consistent(c, sys) && Calm(c, e) && i < CELLS && IsLeaf(i)
    requires At(c, sys.store, i).None? && At(c, Step(sys, e).store, i).Some?
    ensures
      || NeedsIp(c, sys)
      || (e.Act? && e.key in sys.running && e.key == KeyOf(c, PKI) && sys.running[e.key].body.PkiBody?
            && sys.running[e.key].body.pki.controlPlaneIP != "")
  {
    hide WellFormed, Consistent, Calm, Step, At, KeyOf, IsLeaf, IsComponent, WrittenNow, IssuedNow, CallFits,
      FrameFits, Code, CellOf;
    Appeared(c, sys, e, i);
    LeafOfPair(i);
    if IssuedNow(c, sys, e, i) {
      IssuedFrom(c, sys, e, i);
    } else {
      WriterIs(c, sys, e, i);
      LeafWriter(c, sys.running[e.key], i);
      ConsistentStore(c, sys);
      RunningFits(c, sys, e.key);
    }
  }

  lemma WriterIs(c: Config, sys: Sys, e: Event, i: nat)
    requires WellFormed(c) && i < CELLS && e.Act? && e.key in sys.running
    requires WrittenNow(c, sys, e, i, sys.running[e.key])
    ensures var f := sys.running[e.key];
      FrameFits(c, f) && CallFits(c, f) && !Code(f).Fetch? && CellOf(f.key.kind, f.pc) == i && e.key.ns == c.ns
  {
    hide WellFormed, Step, At, FrameFits, Code, CellOf, KeyOf, CellFits;
  }

  lemma LeafOfPair(i: nat)
    requires i < CELLS && IsLeaf(i)
    ensures i != INGRESS && (IsSecret(i) ==> IsLeaf(i - 1))
  {}

  lemma IssuedFrom(c: Config, sys: Sys, e: Event, i: nat)
    requires WellFormed(c) && i < CELLS && IssuedNow(c, sys, e, i)
    ensures IsSecret(i) && At(c, sys.store, i - 1).Some?
  {
    hide WellFormed, KeyOf;
  }

  lemma FrameAdvances(c: Config, sys: Sys, e: Event, k: Key)
    requires WellFormed(c) && Consistent(c, sys) && k in Step(sys, e).running && k.ns == c.ns && IsComponent(k.kind)
    requires Step(sys, e).running[k].pc > 0
    ensures NeedsIp(c, sys)
  {
    hide WellFormed, Consistent, Step, At, IsLeaf, IsComponent, Exec, CellOf, FrameFits;
    FramesOfStep(sys, e, k);
    if k in sys.running && sys.running[k].pc == 0 {
      var f := sys.running[k];
      RunningFits(c, sys, k);
      if e.Act? && e.key == k {
        FirstFetch(c, f, sys.store, e.ok);
      }
    }
  }

  // Leaf certificates, key pairs and workloads only ever come from a Pki with a recorded
  // IP, and no component reconcile gets past its first gate before, whatever is deleted on
  // the way.
  lemma {:induction false} LeavesFollowIp(c: Config, sys: Sys, es: seq<Event>, n: nat)
    requires WellFormed(c) && Pristine(c, sys) && AllCalm(c, es) && n <= |es|
    ensures Consistent(c, StateAt(sys, es, n))
    ensures NeedsIp(c, StateAt(sys, es, n)) ==> IpRecorded(c, sys, es, n)
  {
    hide WellFormed, Calm, Consistent, At, NeedsIp, IpRecorded, KeyOf, Recorded, Step;
    PristineIsGrown(c, sys);
    if n == 0 {
      assert es[..0] == [];
      PristineNeedsNothing(c, sys);
    } else {
      LeavesFollowIp(c, sys, es, n - 1);
      NextState(sys, es, n - 1);
      FramesAreRecorded(sys, es, n - 1);
      hide StateAt, Pristine;
      StepConsistent(c, StateAt(sys, es, n - 1), es[n - 1]);
      if NeedsIp(c, StateAt(sys, es, n)) {
        NeedsIpBefore(c, StateAt(sys, es, n - 1), es[n - 1]);
        StillRecorded(c, sys, es, n - 1);
      }
    }
  }

  lemma PristineNeedsNothing(c: Config, sys: Sys)
    requires WellFormed(c) && Pristine(c, sys)
    ensures !NeedsIp(c, sys)
  {
    hide WellFormed, Consistent, At;
  }

  lemma StillRecorded(c: Config, sys: Sys, es: seq<Event>, n: nat)
    requires WellFormed(c) && n < |es|
    ensures IpRecorded(c, sys, es, n) ==> IpRecorded(c, sys, es, n + 1)
    ensures forall p :: Recorded(sys, es, n, KeyOf(c, PKI), PkiBody(p)) && p.controlPlaneIP != "" ==>
      IpRecorded(c, sys, es, n + 1)
  {
    hide WellFormed, KeyOf, StateAt;
    forall p | Recorded(sys, es, n, KeyOf(c, PKI), PkiBody(p)) && p.controlPlaneIP != ""
      ensures IpRecorded(c, sys, es, n + 1)
    {
      assert Recorded(sys, es, n + 1, KeyOf(c, PKI), PkiBody(p));
    }
  }

  // If any component's Deployment exists, a non-empty control-plane IP was recorded
  // earlier in the run.
  lemma NoWorkloadWithoutIp(c: Config, sys: Sys, es: seq<Event>, i: nat)
    requires WellFormed(c) && Pristine(c, sys) && AllCalm(c, es)
    requires i in {KAS_DEPLOYMENT, KCM_DEPLOYMENT, KS_DEPLOYMENT}
    requires At(c, Run(sys, es).store, i).Some?
    ensures IpRecorded(c, sys, es, |es|)
  {
    hide WellFormed, Pristine, Calm, At, IpRecorded, Consistent, Run;
    LeavesFollowIp(c, sys, es, |es|);
    assert es[..|es|] == es;
    assert IsLeaf(i);
    assert NeedsIp(c, StateAt(sys, es, |es|));
  }

  lemma Earlier(c: Config, s: Store, i: nat, b: nat)
    requires WellFormed(c) && Ordered(c, s) && i < CELLS && At(c, s, i).Some? && b in Before(i)
    ensures b < CELLS && At(c, s, b).Some?
  {
    hide Before, At, WellFormed;
    assert Present(c, s, Before(i));
  }

  lemma TrustBefore(j: nat)
    requires j < 7
    ensures CertCell(j) in Before(SecretCell(j))
    ensures j != CA ==> SecretCell(CA) in Before(SecretCell(j)) && CA_ISSUER in Before(SecretCell(j))
    ensures j == CA ==> ROOT_ISSUER in Before(SecretCell(j))
    ensures j > ADMIN ==> SecretCell(ADMIN) in Before(CertCell(j))
  {
    assert Which(SecretCell(j)) == j && Which(CertCell(j)) == j;
  }

  // Any leaf key pair was preceded by the admin key pair, the CA key pair and both issuers.
  lemma IssuanceOrder(c: Config, sys: Sys, es: seq<Event>, j: nat)
    requires WellFormed(c) && Grown(c, sys) && AllLasting(c, es) && ADMIN < j < 7
    requires At(c, Run(sys, es).store, SecretCell(j)).Some?
    ensures var s := Run(sys, es).store;
      && At(c, s, SecretCell(ADMIN)).Some? && At(c, s, SecretCell(CA)).Some?
      && At(c, s, CA_ISSUER).Some? && At(c, s, ROOT_ISSUER).Some?
  {
    RunGrown(c, sys, es);
    var s := Run(sys, es).store;
    assert WellFormed(c);
    TrustBefore(j);
    TrustBefore(CA);
    hide Consistent, Calm, At, WellFormed, Ordered, Before, SecretCell, CertCell;
    Earlier(c, s, SecretCell(j), CertCell(j));
    Earlier(c, s, SecretCell(j), SecretCell(CA));
    Earlier(c, s, SecretCell(j), CA_ISSUER);
    Earlier(c, s, CertCell(j), SecretCell(ADMIN));
    Earlier(c, s, SecretCell(CA), ROOT_ISSUER);
  }

  // Once a KubeAPIServer reconcile has passed its konnectivity gate, a CA gate call that
  // goes through always finds its secret.
  lemma CaGateCannotFail(c: Config, sys: Sys, es: seq<Event>, k: Key)
    requires WellFormed(c) && Grown(c, sys) && AllLasting(c, es)
    requires k in Run(sys, es).running && k.ns == c.ns && k.kind == KubeAPIServer
    requires Run(sys, es).running[k].pc == 3
    ensures Exec(Run(sys, es).running[k], Run(sys, es).store, true).1.Next?
  {
    RunGrown(c, sys, es);
    var s, f := Run(sys, es).store, Run(sys, es).running[k];
    Gate(c, s, f, 0);
    EveryKasCall(c, f);
    EveryCallFits(c, f);
    hide Consistent, Calm, WellFormed, FrameFits, Reached, CellFits, Run, Code, Ordered;
    IssuanceOrder(c, sys, es, KONNECTIVITY);
    assert At(c, s, SecretCell(CA)).Some?;
  }

  lemma EveryKasCall(c: Config, f: Frame)
    requires WellFormed(c) && FrameFits(c, f) && f.key.kind == KubeAPIServer && f.pc == 3
    ensures Code(f).Fetch?
  {
    hide SecretNames, Distinct;
  }

  /******* The chain of trust *******/

  // Certificate k is signed with the key pair that certificate k' requests.
  predicate SignedBy(s: Store, k: Key, k': Key) {
    && k in s && s[k].body.CertificateBody? && k' in s && s[k'].body.CertificateBody?
    && k.kind == Certificate && k'.kind == Certificate && k.ns == k'.ns
    && var issuer := Key(Issuer, k.ns, s[k].body.certificate.issuer);
       && issuer in s && s[issuer].body == IssuerBody(SecretSigner(s[k'].body.certificate.secretName))
  }

  predicate SelfSignedRoot(s: Store, k: Key) {
    && k in s && s[k].body.CertificateBody?
    && var issuer := Key(Issuer, k.ns, s[k].body.certificate.issuer);
       issuer in s && s[issuer].body == IssuerBody(SelfSigned)
  }

  // In every state, following signers from any certificate of the namespace takes at most
  // one hop, to the CA certificate, which nothing else signs.
  lemma NoSigningCycle(c: Config, sys: Sys, es: seq<Event>, k: Key, k': Key)
    requires Consistent(c, sys) && AllCalm(c, es) && k.ns == c.ns
    requires SignedBy(Run(sys, es).store, k, k')
    ensures k' == KeyOf(c, CertCell(CA)) && k != k'
    ensures forall k'' :: !SignedBy(Run(sys, es).store, k', k'')
  {
    RunConsistent(c, sys, es);
    var s := Run(sys, es).store;
    OneSigner(c, s, k, k');
    forall k'' | SignedBy(s, k', k'')
      ensures false
    {
      OneSigner(c, s, k', k'');
    }
  }

  lemma OneSigner(c: Config, s: Store, k: Key, k': Key)
    requires WellFormed(c) && StoreFits(c, s) && k.ns == c.ns && SignedBy(s, k, k')
    ensures k' == KeyOf(c, CertCell(CA)) && k != k'
  {
    var i := CertificateCell(c, k);
    var j := CertificateCell(c, k');
    CertificateContents(c, s, i);
    CertificateContents(c, s, j);
    IssuerContents(c, s);
    hide StoreFits, CellFits, KeyOf;
    assert c.id.certs[j] == c.id.certs[CA] ==> j == CA by {
      assert SecretNames(c.id)[j] == c.id.certs[j] && SecretNames(c.id)[CA] == c.id.certs[CA];
    }
  }

  lemma CertificateContents(c: Config, s: Store, j: nat)
    requires WellFormed(c) && StoreFits(c, s) && j < 7
    ensures var k := KeyOf(c, CertCell(j));
      && k == Key(Certificate, c.ns, c.id.certs[j])
      && (k in s ==>
            && s[k].body.CertificateBody?
            && s[k].body.certificate.secretName == c.id.certs[j]
            && s[k].body.certificate.issuer == if j == CA then c.id.rootIssuer else c.id.certs[CA])
  {
    SecretOfCertificate(c, j);
    assert Which(CertCell(j)) == j;
    assert At(c, s, CertCell(j)).Some? ==> CellFits(c, CertCell(j), At(c, s, CertCell(j)).value);
    hide SecretNames, Distinct, StoreFits;
  }

  lemma IssuerContents(c: Config, s: Store)
    requires WellFormed(c) && StoreFits(c, s)
    ensures var root, ca := Key(Issuer, c.ns, c.id.rootIssuer), Key(Issuer, c.ns, c.id.certs[CA]);
      && root == KeyOf(c, ROOT_ISSUER) && ca == KeyOf(c, CA_ISSUER)
      && (root in s ==> s[root].body == IssuerBody(SelfSigned))
      && (ca in s ==> s[ca].body == IssuerBody(SecretSigner(c.id.certs[CA])))
  {
    hide SecretNames, Distinct;
    assert At(c, s, ROOT_ISSUER).Some? ==> CellFits(c, ROOT_ISSUER, At(c, s, ROOT_ISSUER).value);
    assert At(c, s, CA_ISSUER).Some? ==> CellFits(c, CA_ISSUER, At(c, s, CA_ISSUER).value);
  }

  // Every issued certificate has its whole chain in the store, down to the self-signed root.
  lemma IssuedChainsAreComplete(c: Config, sys: Sys, es: seq<Event>, j: nat)
    requires WellFormed(c) && Grown(c, sys) && AllLasting(c, es) && j < 7
    requires At(c, Run(sys, es).store, SecretCell(j)).Some?
    ensures var s := Run(sys, es).store;
      && SelfSignedRoot(s, KeyOf(c, CertCell(CA)))
      && (j != CA ==> SignedBy(s, KeyOf(c, CertCell(j)), KeyOf(c, CertCell(CA))))
  {
    RunGrown(c, sys, es);
    var s := Run(sys, es).store;
    CertificateContents(c, s, j);
    CertificateContents(c, s, CA);
    IssuerContents(c, s);
    TrustBefore(j);
    TrustBefore(CA);
    assert WellFormed(c);
    hide Consistent, Calm, WellFormed, CellFits, StoreFits, FramesFit, KeyOf, Run, Ordered, Before, SecretCell,
      CertCell;
    if j != CA {
      Earlier(c, s, SecretCell(j), SecretCell(CA));
      Earlier(c, s, SecretCell(j), CertCell(j));
      Earlier(c, s, SecretCell(j), CA_ISSUER);
    }
    Earlier(c, s, SecretCell(CA), CertCell(CA));
    Earlier(c, s, SecretCell(CA), ROOT_ISSUER);
  }
}
