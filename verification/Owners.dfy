// Controller references form a forest of depth two rooted at the ControlPlanes, in every
// state of every run, and garbage collection takes down whole trees.
module Owners {
  import opened Api
  import opened Programs
  import opened Machine

  function Depth(kind: Kind): nat {
    match kind
    case ControlPlane => 0
    case Loadbalancer => 1
    case Pki => 1
    case KubeAPIServer => 1
    case KubeControllerManager => 1
    case KubeScheduler => 1
    case _ => 2
  }

  // Who creates what.
  predicate Creates(parent: Kind, child: Kind) {
    match parent
    case ControlPlane => Depth(child) == 1
    case Loadbalancer => child == Service
    case Pki => child in {Issuer, Certificate, Secret}
    case KubeAPIServer => child in {Secret, ConfigMap, Deployment}
    case KubeControllerManager => child in {Secret, Deployment}
    case KubeScheduler => child in {Secret, Deployment}
    case _ => false
  }

  predicate ProperOwner(k: Key, o: Key) {
    o.ns == k.ns && Creates(o.kind, k.kind) && (o.kind == ControlPlane ==> o.name == k.name)
  }

  ghost predicate Forest(s: Store) {
    && (forall k :: k in s && s[k].owner.Some? ==> ProperOwner(k, s[k].owner.value))
    && (forall k :: k in s && Depth(k.kind) == 1 ==> s[k].owner.Some?)
  }

  ghost predicate OwnerInvariant(sys: Sys) {
    && Forest(sys.store)
    && forall k :: k in sys.running ==>
         sys.running[k].key == k && Typed(k.kind, sys.running[k].body)
  }

  lemma WritesAreProper(f: Frame)
    requires Typed(f.key.kind, f.body)
    ensures Code(f).Apply? ==> ProperOwner(Code(f).key, f.key)
    ensures Code(f).Report? ==> Depth(Code(f).key.kind) == 2
    ensures Code(f).Apply? || Code(f).Report? ==> Reconciled(f.key.kind)
  {}

  // A reconcile gives every object that it creates exactly one owner, itself, and never
  // touches the owner of an object that was there.
  lemma ExecOwners(f: Frame, s: Store, ok: bool)
    requires Forest(s) && Typed(f.key.kind, f.body)
    ensures var s' := Exec(f, s, ok).0;
      && Forest(s')
      && (forall k :: k in s ==> k in s' && s'[k].owner == s[k].owner)
      && (forall k :: k in s' && k !in s && Code(f).Apply? ==> k == Code(f).key && s'[k].owner == Some(f.key))
  {
    WritesAreProper(f);
    hide Code, Depth, Creates;
  }

  ghost predicate KeepsForest(s: Store, s': Store) {
    && Forest(s')
    && forall k :: k in s && k in s' ==> s'[k].owner == s[k].owner
  }

  lemma UnownedWrite(s: Store, k: Key, body: Body)
    requires Forest(s) && (k in s || Depth(k.kind) != 1)
    ensures KeepsForest(s, Put(s, k, None, body))
  {
    hide ProperOwner;
  }

  lemma Removal(s: Store, k: Key)
    requires Forest(s)
    ensures KeepsForest(s, Remove(s, k))
  {
    hide ProperOwner;
  }

  lemma StoreForest(sys: Sys, e: Event)
    requires OwnerInvariant(sys)
    ensures KeepsForest(sys.store, Step(sys, e).store)
  {
    StoreOfStep(sys, e);
    var s := sys.store;
    hide Exec, Forest, Put, Remove, Step;
    match e
    case Act(k, ok) => if k in sys.running { ExecOwners(sys.running[k], s, ok); }
    case Assign(k, ingress) => UnownedWrite(s, StatusKey(k), ServiceStatusBody(ingress));
    case Issue(k, data) => if Issuable(s, k) { UnownedWrite(s, SecretKeyOf(s, k), SecretBody(data)); }
    case Edit(k, spec) => if k.kind == ControlPlane { UnownedWrite(s, k, ControlPlaneBody(spec)); }
    case Tamper(k, body) => if k in s { UnownedWrite(s, k, body); }
    case Delete(k) => Removal(s, k);
    case Collect(k) => Removal(s, k);
    case _ =>
  }

  lemma StepOwners(sys: Sys, e: Event)
    requires OwnerInvariant(sys)
    ensures OwnerInvariant(Step(sys, e))
  {
    StoreForest(sys, e);
    var after := Step(sys, e);
    forall k | k in after.running
      ensures after.running[k].key == k && Typed(k.kind, after.running[k].body)
    {
      FramesOfStep(sys, e, k);
      hide Step, Code, Forest, Typed, Reconciled;
    }
  }

  // Every run keeps the forest: deletions, collections, failures, restarts included.
  lemma {:induction false} ForestIsKept(sys: Sys, es: seq<Event>)
    requires OwnerInvariant(sys)
    ensures OwnerInvariant(Run(sys, es))
  {
    if es != [] {
      ForestIsKept(sys, es[..|es| - 1]);
      StepOwners(Run(sys, es[..|es| - 1]), es[|es| - 1]);
    }
  }

  // The end of the owner chain of k.
  function Root(s: Store, k: Key): Key
    requires Forest(s)
    decreases Depth(k.kind)
  {
    if k in s && s[k].owner.Some? then Root(s, s[k].owner.value) else k
  }

  // Owner chains have at most two hops and end at a ControlPlane of the same namespace.
  lemma RootIsControlPlane(s: Store, k: Key)
    requires Forest(s) && k in s && s[k].owner.Some?
    ensures var o := s[k].owner.value;
      && Root(s, k).ns == k.ns
      && (Root(s, k) == o || (o in s && s[o].owner == Some(Root(s, k))))
      && (o in s ==> Root(s, k).kind == ControlPlane)
  {
    var o := s[k].owner.value;
    assert ProperOwner(k, o);
    assert Root(s, k) == Root(s, o);
    if o in s && s[o].owner.Some? {
      var p := s[o].owner.value;
      assert ProperOwner(o, p) && p.kind == ControlPlane;
      assert Root(s, o) == Root(s, p);
      assert Root(s, p) == p;
    }
  }

  // The garbage collector has nothing left to do.
  ghost predicate Collected(s: Store) {
    forall k :: k in s && s[k].owner.Some? ==> s[k].owner.value in s
  }

  lemma {:induction false} RootIsStored(s: Store, k: Key)
    requires Forest(s) && Collected(s) && k in s
    ensures Root(s, k) in s
    decreases Depth(k.kind)
  {
    if s[k].owner.Some? {
      assert ProperOwner(k, s[k].owner.value);
      RootIsStored(s, s[k].owner.value);
    }
  }

  // In any run, once the collector is done, an owned object has a living ControlPlane of
  // its namespace as root, even if reconciles in progress recreated objects meanwhile.
  lemma NoOrphans(sys: Sys, es: seq<Event>, k: Key)
    requires OwnerInvariant(sys)
    requires Collected(Run(sys, es).store)
    requires k in Run(sys, es).store && Run(sys, es).store[k].owner.Some?
    ensures OwnerInvariant(Run(sys, es))
    ensures var s := Run(sys, es).store;
      Root(s, k) in s && Root(s, k).kind == ControlPlane && Root(s, k).ns == k.ns
  {
    ForestIsKept(sys, es);
    var s := Run(sys, es).store;
    RootIsControlPlane(s, k);
    RootIsStored(s, k);
  }

  lemma {:induction false} CollectingShrinks(sys: Sys, es: seq<Event>)
    requires forall i :: 0 <= i < |es| ==> es[i].Collect?
    ensures var s := Run(sys, es).store;
      forall k :: k in s ==> k in sys.store && s[k] == sys.store[k]
  {
    if es != [] {
      CollectingShrinks(sys, es[..|es| - 1]);
      StoreOfStep(Run(sys, es[..|es| - 1]), es[|es| - 1]);
    }
  }

  lemma {:induction false} RootMustLive(s: Store, s': Store, k: Key)
    requires Forest(s) && Forest(s') && Collected(s') && k in s'
    requires forall j :: j in s' ==> j in s && s'[j] == s[j]
    ensures Root(s, k) in s'
    decreases Depth(k.kind)
  {
    if s[k].owner.Some? {
      assert ProperOwner(k, s[k].owner.value);
      RootMustLive(s, s', s[k].owner.value);
    }
  }

  // Deleting a ControlPlane and collecting leaves none of its descendants.
  lemma DeletionTakesTheTree(sys: Sys, cp: Key, es: seq<Event>, k: Key)
    requires OwnerInvariant(sys) && cp.kind == ControlPlane
    requires forall i :: 0 <= i < |es| ==> es[i].Collect?
    requires Collected(Run(Step(sys, Delete(cp)), es).store)
    requires k in sys.store && Root(sys.store, k) == cp
    ensures k !in Run(Step(sys, Delete(cp)), es).store
  {
    var deleted := Step(sys, Delete(cp));
    StepOwners(sys, Delete(cp));
    StoreOfStep(sys, Delete(cp));
    assert cp !in deleted.store;
    assert forall j :: j in deleted.store ==> j in sys.store && deleted.store[j] == sys.store[j];
    hide Step, Run, Remove, Forest, Collected, Root;
    ForestIsKept(deleted, es);
    CollectingShrinks(deleted, es);
    if k in Run(deleted, es).store {
      RootMustLive(sys.store, Run(deleted, es).store, k);
    }
  }
}
