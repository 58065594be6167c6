// The joint state machine: one shared store, the reconciles in progress, the work queues
// and the requeue timers.  A step is one API call of one reconciler or one move of the
// environment, so every interleaving of the six reconcilers is a run.
module Machine {
  import opened Api
  import opened Programs

  datatype Sys = Sys(store: Store, running: map<Key, Frame>, pending: set<Key>, timers: set<Key>)

  datatype Event =
    | Start(key: Key, ok: bool)                // a worker takes a queued key and reads its custom resource
    | Act(key: Key, ok: bool)                  // the next call of the reconcile in progress
    | Fire(key: Key)                           // a RequeueAfter delay expires
    | Resync(key: Key)                         // the informer replays an object
    | Crash                                    // the operator restarts
    | Assign(key: Key, ingress: seq<string>)   // the provider sets a Service's ingress
    | Issue(key: Key, data: SecretData)        // cert-manager issues a Certificate
    | Edit(key: Key, spec: ControlPlaneSpec)   // the user writes a ControlPlane
    | Tamper(key: Key, body: Body)             // a third party changes an existing object
    | Delete(key: Key)
    | Collect(key: Key)                        // garbage collection of an object whose owner is gone

  // What a reconciler Owns (SetupWithManager).  KubeScheduler is missing from the
  // ControlPlane's list, Secret from the KubeAPIServer's.
  predicate Owns(controller: Kind, kind: Kind) {
    match controller
    case ControlPlane => kind in {Pki, KubeAPIServer, KubeControllerManager, Loadbalancer}
    case Loadbalancer => kind == Service
    case Pki => kind in {Certificate, Issuer, Secret}
    case KubeAPIServer => kind in {Deployment, ConfigMap}
    case KubeControllerManager => kind in {Deployment, Secret}
    case KubeScheduler => kind in {Secret, Deployment}
    case _ => false
  }

  function OwnerAt(s: Store, k: Key): Option<Key> {
    if k in s then s[k].owner else None
  }

  function Watcher(owner: Option<Key>, k: Key): set<Key> {
    if owner.Some? && Owns(owner.value.kind, k.kind) then {owner.value} else {}
  }

  // The keys that a change at k enqueues: For the object itself, Owns its owner.
  function Woken(s: Store, s': Store, k: Key): set<Key> {
    var o := ObjectOf(k);
    (if Reconciled(o.kind) then {o} else {}) + Watcher(OwnerAt(s, o), o) + Watcher(OwnerAt(s', o), o)
  }

  // The store after a write at k; watchers hear of it only if something changed.
  function Commit(sys: Sys, s': Store, k: Key): Sys {
    if s' == sys.store then sys
    else sys.(store := s', pending := sys.pending + Woken(sys.store, s', k))
  }

  function Remove(s: Store, k: Key): Store {
    if k.kind in {Loadbalancer, Service} then s - {k, StatusKey(k)} else s - {k}
  }

  // cert-manager signs once the issuer exists and, for a CA issuer, its key pair does.
  predicate Issuable(s: Store, k: Key) {
    && k.kind == Certificate
    && k in s
    && s[k].body.CertificateBody?
    && var issuer := Key(Issuer, k.ns, s[k].body.certificate.issuer);
       && issuer in s
       && s[issuer].body.IssuerBody?
       && (s[issuer].body.signer.SecretSigner? ==> Key(Secret, k.ns, s[issuer].body.signer.secretName) in s)
  }

  function SecretKeyOf(s: Store, k: Key): Key
    requires k in s && s[k].body.CertificateBody?
  {
    Key(Secret, k.ns, s[k].body.certificate.secretName)
  }

  function TargetKey(f: Frame): Key {
    if Code(f).Stop? then f.key else Code(f).key
  }

  // The worker keeps the frame, or drops it and files the key as the outcome says.
  function Requeue(sys: Sys, k: Key, progress: Progress): Sys {
    match progress
    case Next(f) => sys.(running := sys.running[k := f])
    case Halt(Done) => sys.(running := sys.running - {k})
    case Halt(RequeueAfter) => sys.(running := sys.running - {k}, timers := sys.timers + {k})
    case Halt(Failed) => sys.(running := sys.running - {k}, pending := sys.pending + {k})
  }

  function ActStep(sys: Sys, k: Key, ok: bool): Sys
    requires k in sys.running
  {
    var f := sys.running[k];
    var (s', progress) := Exec(f, sys.store, ok);
    var after := Commit(sys, s', TargetKey(f));
    Requeue(after, k, progress)
  }

  // A queued key is taken by at most one worker; a failing read puts it back.
  function StartStep(sys: Sys, k: Key, ok: bool): Sys {
    if k !in sys.pending || k in sys.running || !ok then sys
    else
      var taken := sys.(pending := sys.pending - {k});
      if k in sys.store && Reconciled(k.kind) && Typed(k.kind, sys.store[k].body)
      then taken.(running := taken.running[k := Begin(sys.store, k)])
      else taken
  }

  // An event that is not enabled leaves the state as it is.
  function Step(sys: Sys, e: Event): Sys {
    var s := sys.store;
    match e
    case Start(k, ok) => StartStep(sys, k, ok)
    case Act(k, ok) => if k in sys.running then ActStep(sys, k, ok) else sys
    case Fire(k) =>
      if k in sys.timers then sys.(timers := sys.timers - {k}, pending := sys.pending + {k}) else sys
    case Resync(k) => sys.(pending := sys.pending + {k})
    case Crash => sys.(running := map[], timers := {}, pending := set k | k in s && Reconciled(k.kind))
    case Assign(k, ingress) =>
      if k.kind == Service && k in s
      then Commit(sys, Put(s, StatusKey(k), None, ServiceStatusBody(ingress)), StatusKey(k))
      else sys
    case Issue(k, data) =>
      if Issuable(s, k)
      then Commit(sys, Put(s, SecretKeyOf(s, k), None, SecretBody(data)), SecretKeyOf(s, k))
      else sys
    case Edit(k, spec) =>
      if k.kind == ControlPlane then Commit(sys, Put(s, k, None, ControlPlaneBody(spec)), k) else sys
    case Tamper(k, body) =>
      if k in s && Admits(s, k, body) then Commit(sys, Put(s, k, None, body), k) else sys
    case Delete(k) => Commit(sys, Remove(s, k), k)
    case Collect(k) =>
      if k in s && s[k].owner.Some? && s[k].owner.value !in s then Commit(sys, Remove(s, k), k) else sys
  }

  function Run(sys: Sys, es: seq<Event>): Sys {
    if es == [] then sys else Step(Run(sys, es[..|es| - 1]), es[|es| - 1])
  }

  lemma {:induction false} RunConcat(sys: Sys, a: seq<Event>, b: seq<Event>)
    ensures Run(sys, a + b) == Run(Run(sys, a), b)
    decreases |b|
  {
    if b == [] {
      assert a + b == a;
    } else {
      RunConcat(sys, a, b[..|b| - 1]);
      assert (a + b)[..|a + b| - 1] == a + b[..|b| - 1];
    }
  }

  lemma StepIsAct(sys: Sys, k: Key, ok: bool)
    ensures Step(sys, Act(k, ok)) == if k in sys.running then ActStep(sys, k, ok) else sys
  {}

  // Where the frames of the next state come from.
  lemma FramesOfStep(sys: Sys, e: Event, k: Key)
    requires k in Step(sys, e).running
    ensures
      || (k in sys.running && !(e.Act? && e.key == k) && Step(sys, e).running[k] == sys.running[k])
      || (e.Start? && e.key == k && k in sys.store && Reconciled(k.kind) && Typed(k.kind, sys.store[k].body)
            && Step(sys, e).running[k] == Begin(sys.store, k))
      || (e.Act? && e.key == k && k in sys.running
            && Exec(sys.running[k], sys.store, e.ok).1 == Next(Step(sys, e).running[k]))
  {
    hide Exec, Woken, Put, Remove, Issuable;
  }

  // Which store the next state has.
  function StoreAfter(sys: Sys, e: Event): Store {
    var s := sys.store;
    match e
    case Act(k, ok) => if k in sys.running then Exec(sys.running[k], s, ok).0 else s
    case Assign(k, ingress) =>
      if k.kind == Service && k in s then Put(s, StatusKey(k), None, ServiceStatusBody(ingress)) else s
    case Issue(k, data) => if Issuable(s, k) then Put(s, SecretKeyOf(s, k), None, SecretBody(data)) else s
    case Edit(k, spec) => if k.kind == ControlPlane then Put(s, k, None, ControlPlaneBody(spec)) else s
    case Tamper(k, body) => if k in s && Admits(s, k, body) then Put(s, k, None, body) else s
    case Delete(k) => Remove(s, k)
    case Collect(k) => if k in s && s[k].owner.Some? && s[k].owner.value !in s then Remove(s, k) else s
    case _ => s
  }

  lemma StoreOfStep(sys: Sys, e: Event)
    ensures Step(sys, e).store == StoreAfter(sys, e)
  {
    hide Exec, Woken, Put, Remove, Issuable;
  }

  // The key that an event may write; deletions aside, no other key changes.
  function ChangedKey(sys: Sys, e: Event): Key
    requires !e.Crash?
  {
    match e
    case Act(k, _) => if k in sys.running then TargetKey(sys.running[k]) else k
    case Assign(k, _) => StatusKey(k)
    case Issue(k, _) => if Issuable(sys.store, k) then SecretKeyOf(sys.store, k) else k
    case Start(k, _) => k
    case Fire(k) => k
    case Resync(k) => k
    case Edit(k, _) => k
    case Tamper(k, _) => k
    case Delete(k) => k
    case Collect(k) => k
  }

  predicate Removes(e: Event) {
    e.Delete? || e.Collect?
  }

  lemma OneKeyChanges(sys: Sys, e: Event)
    requires !Removes(e)
    ensures sys.store.Keys <= Step(sys, e).store.Keys
    ensures forall k :: (e.Crash? || k != ChangedKey(sys, e)) ==>
      (k in Step(sys, e).store <==> k in sys.store) && (k in sys.store ==> Step(sys, e).store[k] == sys.store[k])
    ensures forall k :: k in sys.store ==> Step(sys, e).store[k].owner == sys.store[k].owner
  {
    StoreOfStep(sys, e);
    hide Step, Code, Issuable;
  }

  // A deletion takes one object, with its status, and changes nothing else.
  lemma OnlyRemoved(sys: Sys, e: Event)
    requires Removes(e)
    ensures forall k :: k in Step(sys, e).store ==> k in sys.store && Step(sys, e).store[k] == sys.store[k]
    ensures forall k :: k in sys.store && k !in Step(sys, e).store ==> k == e.key || ObjectOf(k) == e.key
    ensures Step(sys, e).running == sys.running && sys.pending <= Step(sys, e).pending
    ensures Step(sys, e).timers == sys.timers
  {
    StoreOfStep(sys, e);
    hide Woken;
  }

  /******* Queues *******/

  lemma SameWatchers(s: Store, s': Store, k: Key, k': Key)
    requires ObjectOf(k) == ObjectOf(k')
    ensures Woken(s, s', k) == Woken(s, s', k')
  {}

  // Whatever an event changes, it wakes the watchers of the changed key.
  lemma WokenByChange(sys: Sys, e: Event)
    requires !e.Crash? && Step(sys, e).store != sys.store
    ensures Woken(sys.store, Step(sys, e).store, ChangedKey(sys, e)) <= Step(sys, e).pending
  {
    hide Exec, Woken, Put, Remove, Issuable, TargetKey;
  }

  // Queued keys stay queued until a worker takes them.
  lemma QueuesKept(sys: Sys, e: Event, k: Key)
    requires k in sys.pending || k in sys.timers
    ensures
      || k in Step(sys, e).pending || k in Step(sys, e).timers
      || (e.Crash? && !(k in sys.store && Reconciled(k.kind)))
      || (e.Start? && e.key == k && e.ok)
  {
    hide Exec, Woken, TargetKey, Put, Remove, Issuable;
  }

  lemma ActQueues(sys: Sys, k: Key, ok: bool)
    requires k in sys.running
    ensures var after := ActStep(sys, k, ok);
      var (s', p) := Exec(sys.running[k], sys.store, ok);
      && after.store == s'
      && (p == Halt(RequeueAfter) ==> k in after.timers)
      && (p == Halt(Failed) ==> k in after.pending)
      && (p == Halt(Done) ==> k !in after.running)
      && (p.Next? ==> k in after.running && after.running[k] == p.frame)
  {
    hide Exec, Woken, TargetKey;
  }

  lemma SelfWoken(s: Store, s': Store, k: Key)
    requires Reconciled(k.kind)
    ensures k in Woken(s, s', k)
  {}

  // A custom resource that appears is queued.
  lemma AppearsQueued(sys: Sys, e: Event, k: Key)
    requires Reconciled(k.kind) && k !in sys.store && k in Step(sys, e).store
    ensures k in Step(sys, e).pending
  {
    if Removes(e) {
      StoreOfStep(sys, e);
      assert false;
    }
    hide Step, Woken;
    OneKeyChanges(sys, e);
    WokenByChange(sys, e);
    SelfWoken(sys.store, Step(sys, e).store, k);
  }
}
