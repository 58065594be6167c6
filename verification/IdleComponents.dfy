// An idle component reconciler has generated its Deployment from the current resource, in
// every run of the joint machine: whatever calls fail, whatever is edited, changed or
// deleted, and however often the operator restarts.
module IdleComponents {
  import opened Api
  import opened Programs
  import opened Machine

  predicate IsComponent(kind: Kind) {
    kind in {KubeAPIServer, KubeControllerManager, KubeScheduler}
  }

  // The Deployment that a component resource stands for.
  function DeploymentKey(k: Key, body: Body): Key {
    Key(Deployment, k.ns,
      if body.KasBody? then body.kas.deployment.name else if body.KcmBody? then KCM_NAME else KS_NAME)
  }

  function Generated(name: string, body: Body): Option<Body> {
    match body
    case KasBody(kas) => Some(DeploymentBody(GenerateDeployment(name, kas)))
    case KcmBody(kcm) => Some(DeploymentBody(KcmWorkload(name, kcm)))
    case KsBody(ks) => Some(DeploymentBody(KsWorkload(name, ks)))
    case _ => None
  }

  predicate Current(s: Store, k: Key)
    requires k in s
  {
    BodyAt(s, DeploymentKey(k, s[k].body)) == Generated(k.name, s[k].body)
  }

  // The call that writes the Deployment.
  function DeploymentCall(kind: Kind): nat {
    if kind == KubeAPIServer then 6 else if kind == KubeControllerManager then 4 else 2
  }

  // The resource is gone, or its key is queued or waiting, or a reconcile of the stored
  // resource is in progress and has not dealt with the Deployment or has made it current,
  // or the key is idle and the Deployment is current.
  ghost predicate Heeded(sys: Sys, k: Key) {
    || k !in sys.store || k in sys.pending || k in sys.timers
    || (if k in sys.running then OnCourse(sys.store, k, sys.running[k]) else Current(sys.store, k))
  }

  ghost predicate OnCourse(s: Store, k: Key, f: Frame)
    requires k in s
  {
    f.key == k && f.body == s[k].body && (f.pc > DeploymentCall(k.kind) ==> Current(s, k))
  }

  // The resource has the type of its kind.
  predicate TypedAt(s: Store, k: Key) {
    k in s ==> Typed(k.kind, s[k].body)
  }

  // The Deployment that the resource names, if present, is the resource's own.
  predicate OwnedAt(s: Store, k: Key) {
    k in s && DeploymentKey(k, s[k].body) in s ==> s[DeploymentKey(k, s[k].body)].owner == Some(k)
  }

  // The Deployment that the resource names in s is the same in s'.
  predicate SameDeployment(s: Store, s': Store, k: Key)
    requires k in s
  {
    BodyAt(s', DeploymentKey(k, s[k].body)) == BodyAt(s, DeploymentKey(k, s[k].body))
  }

  // A third party that writes the resource keeps its type.
  predicate KeepsType(e: Event, k: Key) {
    e.Tamper? && e.key == k ==> Typed(k.kind, e.body)
  }

  lemma ComponentWritesAreTyped(f: Frame)
    ensures (Code(f).Apply? || Code(f).Report?) && IsComponent(Code(f).key.kind) ==>
      Typed(Code(f).key.kind, Code(f).body)
  {
    hide GenerateDeployment, KcmWorkload, KsWorkload;
  }

  lemma StepTyped(sys: Sys, e: Event, k: Key)
    requires IsComponent(k.kind) && TypedAt(sys.store, k) && KeepsType(e, k)
    ensures TypedAt(Step(sys, e).store, k)
  {
    StoreOfStep(sys, e);
    hide Step, Code, Issuable, Typed;
    if e.Act? && e.key in sys.running {
      ComponentWritesAreTyped(sys.running[e.key]);
    }
  }

  // A change of the resource or of its Deployment queues the key.
  lemma ResourceWakes(sys: Sys, e: Event, k: Key)
    requires IsComponent(k.kind) && k in sys.store && k in Step(sys, e).store && !e.Crash?
    requires Step(sys, e).store[k].body != sys.store[k].body
    ensures k in Step(sys, e).pending
  {
    hide Step, Woken, ChangedKey;
    if Removes(e) {
      OnlyRemoved(sys, e);
    } else {
      OneKeyChanges(sys, e);
      WokenByChange(sys, e);
      SelfWoken(sys.store, Step(sys, e).store, k);
    }
  }

  lemma DeploymentWakes(sys: Sys, e: Event, k: Key)
    requires IsComponent(k.kind) && k in sys.store && k in Step(sys, e).store && !e.Crash?
    requires Step(sys, e).store[k].body == sys.store[k].body
    requires OwnedAt(sys.store, k) && OwnedAt(Step(sys, e).store, k)
    requires !SameDeployment(sys.store, Step(sys, e).store, k)
    ensures k in Step(sys, e).pending
  {
    var d := DeploymentKey(k, sys.store[k].body);
    hide Step, Woken, ChangedKey, DeploymentKey;
    if Removes(e) {
      OnlyRemoved(sys, e);
      RemovedIsKey(sys, e);
    } else {
      OneKeyChanges(sys, e);
    }
    WokenByChange(sys, e);
    OwnerWoken(sys.store, Step(sys, e).store, d, k);
  }

  lemma RemovedIsKey(sys: Sys, e: Event)
    requires Removes(e)
    ensures ChangedKey(sys, e) == e.key
  {}

  lemma OwnerWoken(s: Store, s': Store, d: Key, k: Key)
    requires d.kind == Deployment && IsComponent(k.kind)
    requires (d in s && s[d].owner == Some(k)) || (d in s' && s'[d].owner == Some(k))
    ensures k in Woken(s, s', d)
  {}

  /******* Its own calls *******/

  lemma ComponentCode(f: Frame)
    requires IsComponent(f.key.kind) && Typed(f.key.kind, f.body)
    ensures !Code(f).Report?
    ensures Code(f).Stop? ==> f.pc > DeploymentCall(f.key.kind)
    ensures Code(f).Apply? ==> Code(f).strict
    ensures f.pc == DeploymentCall(f.key.kind) ==>
      && Code(f).Apply? && Code(f).key == DeploymentKey(f.key, f.body)
      && Some(Code(f).body) == Generated(f.key.name, f.body)
  {
    hide GenerateDeployment, KcmWorkload, KsWorkload, KCM_NAME, KS_NAME;
  }

  // How one of its calls ends, given that it leaves resource and Deployment alone.
  lemma OwnCall(sys: Sys, k: Key, ok: bool)
    requires IsComponent(k.kind) && k in sys.running && k in sys.store && TypedAt(sys.store, k)
    requires OnCourse(sys.store, k, sys.running[k])
    requires var after := ActStep(sys, k, ok);
      && k in after.store && after.store[k].body == sys.store[k].body
      && SameDeployment(sys.store, after.store, k)
    ensures Heeded(ActStep(sys, k, ok), k)
  {
    var f, s := sys.running[k], sys.store;
    ComponentCode(f);
    ActQueues(sys, k, ok);
    CallEnds(f, s, ok);
    hide ActStep, Code, Exec, DeploymentKey, Generated, DeploymentCall, Typed;
  }

  lemma CallEnds(f: Frame, s: Store, ok: bool)
    requires !Code(f).Report? && (Code(f).Apply? ==> Code(f).strict)
    ensures var (s', p) := Exec(f, s, ok);
      && (p == Halt(Done) ==> Code(f) == Stop(Done))
      && (p.Next? ==> p.frame.key == f.key && p.frame.body == f.body && p.frame.pc == f.pc + 1)
      && (p.Next? && Code(f).Apply? ==> BodyAt(s', Code(f).key) == Some(Code(f).body))
  {
    hide Code;
  }

  /******* Every step keeps the key heeded *******/

  lemma StepHeeds(sys: Sys, e: Event, k: Key)
    requires IsComponent(k.kind) && Heeded(sys, k) && TypedAt(sys.store, k)
    requires OwnedAt(sys.store, k) && OwnedAt(Step(sys, e).store, k)
    ensures Heeded(Step(sys, e), k)
  {
    hide Step, DeploymentKey, Generated, OwnedAt, TypedAt, Reconciled;
    assert Reconciled(k.kind) by { ComponentIsReconciled(k.kind); }
    var after := Step(sys, e);
    if k !in after.store {
    } else if e.Crash? {
      CrashQueues(sys, k);
    } else if k !in sys.store {
      AppearsQueued(sys, e, k);
    } else if after.store[k].body != sys.store[k].body {
      ResourceWakes(sys, e, k);
    } else if !SameDeployment(sys.store, after.store, k) {
      DeploymentWakes(sys, e, k);
    } else if e.Start? && e.key == k {
      StartHeeds(sys, k, e.ok);
    } else if k in sys.pending || k in sys.timers {
      QueuesKept(sys, e, k);
    } else if e.Act? && e.key == k && k in sys.running {
      StepIsAct(sys, k, e.ok);
      OwnCall(sys, k, e.ok);
    } else {
      OtherStep(sys, e, k);
    }
  }

  lemma ComponentIsReconciled(kind: Kind)
    requires IsComponent(kind)
    ensures Reconciled(kind)
  {}

  lemma CrashQueues(sys: Sys, k: Key)
    requires IsComponent(k.kind) && k in Step(sys, Crash).store
    ensures k in Step(sys, Crash).pending
  {}

  lemma StartHeeds(sys: Sys, k: Key, ok: bool)
    requires IsComponent(k.kind) && k in sys.store && TypedAt(sys.store, k) && Heeded(sys, k)
    ensures Heeded(Step(sys, Start(k, ok)), k)
  {
    hide Current, Typed;
  }

  lemma OtherStep(sys: Sys, e: Event, k: Key)
    requires k in sys.store && Heeded(sys, k) && k !in sys.pending && k !in sys.timers && !e.Crash?
    requires !(e.key == k && (e.Start? || (e.Act? && k in sys.running)))
    requires k in Step(sys, e).store && Step(sys, e).store[k].body == sys.store[k].body
    requires SameDeployment(sys.store, Step(sys, e).store, k)
    ensures Heeded(Step(sys, e), k)
  {
    hide DeploymentKey, Generated, DeploymentCall;
    SameFrame(sys, e, k);
    hide Step;
  }

  lemma SameFrame(sys: Sys, e: Event, k: Key)
    requires !e.Crash? && !(e.key == k && (e.Start? || (e.Act? && k in sys.running)))
    ensures k in Step(sys, e).running <==> k in sys.running
    ensures k in sys.running ==> Step(sys, e).running[k] == sys.running[k]
  {
    hide Exec, Woken, TargetKey, Put, Remove, Issuable;
  }

  // In every run in which the Deployment that the resource names is never somebody else's
  // and third parties keep the type of the resource.
  lemma {:induction false} RunHeeds(sys: Sys, es: seq<Event>, k: Key)
    requires IsComponent(k.kind) && Heeded(sys, k) && TypedAt(sys.store, k)
    requires forall i :: 0 <= i < |es| ==> KeepsType(es[i], k)
    requires forall i :: 0 <= i <= |es| ==> OwnedAt(Run(sys, es[..i]).store, k)
    ensures Heeded(Run(sys, es), k) && TypedAt(Run(sys, es).store, k)
  {
    hide Step, Heeded, TypedAt, OwnedAt, KeepsType;
    if es != [] {
      var n := |es| - 1;
      assert forall i :: 0 <= i <= n ==> es[..n][..i] == es[..i];
      assert es[..n + 1] == es;
      RunHeeds(sys, es[..n], k);
      StepHeeds(Run(sys, es[..n]), es[n], k);
      StepTyped(Run(sys, es[..n]), es[n], k);
    }
  }

  // An idle KubeAPIServer, KubeControllerManager or KubeScheduler key whose resource still
  // exists means that the Deployment exists as generated from the current resource.
  lemma IdleComponentIsCurrent(sys: Sys, es: seq<Event>, k: Key)
    requires IsComponent(k.kind) && Heeded(sys, k) && TypedAt(sys.store, k)
    requires forall i :: 0 <= i < |es| ==> KeepsType(es[i], k)
    requires forall i :: 0 <= i <= |es| ==> OwnedAt(Run(sys, es[..i]).store, k)
    requires var now := Run(sys, es);
      k in now.store && k !in now.running && k !in now.pending && k !in now.timers
    ensures var s := Run(sys, es).store;
      Generated(k.name, s[k].body).Some? && BodyAt(s, DeploymentKey(k, s[k].body)) == Generated(k.name, s[k].body)
  {
    RunHeeds(sys, es, k);
    hide Run, DeploymentKey, OwnedAt;
  }
}
