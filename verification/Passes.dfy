// Whole failure-free reconciles: what one leaves alone, and that a second one in a row
// changes nothing, early returns at closed gates included.
module Passes {
  import opened Api
  import opened LabelMaps
  import opened Programs

  // The keys written by the rest of a failure-free reconcile.
  function Written(f: Frame, s: Store): set<Key>
    decreases LAST - f.pc
  {
    if Code(f).Stop? then {}
    else
      var (s', progress) := Exec(f, s, true);
      (if Writes(f, s) then {Code(f).key} else {}) +
      (if progress.Next? then Written(progress.frame, s') else {})
  }

  predicate Writes(f: Frame, s: Store) {
    || (Code(f).Apply? && Admits(s, Code(f).key, Code(f).body))
    || (Code(f).Report? && Unchanged(f, s))
  }

  function Rest(f: Frame, s: Store): Store {
    Finish(f, s, ALWAYS, 0).0
  }

  lemma {:induction false} CallCountIsIrrelevant(f: Frame, s: Store, m: nat, n: nat)
    ensures Finish(f, s, ALWAYS, m).0 == Finish(f, s, ALWAYS, n).0
    ensures Finish(f, s, ALWAYS, m).1 == Finish(f, s, ALWAYS, n).1
    decreases LAST - f.pc
  {
    hide Code, Exec;
    if !Code(f).Stop? {
      var (s', progress) := Exec(f, s, true);
      if progress.Next? {
        CallAdvances(f, s);
        CallCountIsIrrelevant(progress.frame, s', m + 1, n + 1);
      }
    }
  }

  lemma CallAdvances(f: Frame, s: Store)
    ensures Exec(f, s, true).1.Next? ==> Exec(f, s, true).1.frame.pc == f.pc + 1 && f.pc < LAST
  {
    hide ControlPlaneCode, LoadbalancerCode, PkiCode, KasCode, KcmCode, KsCode;
  }

  // One call, then the rest.
  lemma Unfold(f: Frame, s: Store)
    ensures Code(f).Stop? ==> Rest(f, s) == s && Written(f, s) == {}
    ensures !Code(f).Stop? ==>
      var (s', progress) := Exec(f, s, true);
      && Rest(f, s) == (if progress.Next? then Rest(progress.frame, s') else s')
      && Written(f, s) == (if Writes(f, s) then {Code(f).key} else {}) +
                          (if progress.Next? then Written(progress.frame, s') else {})
  {
    hide Code, Exec;
    if !Code(f).Stop? {
      var (s', progress) := Exec(f, s, true);
      if progress.Next? {
        CallCountIsIrrelevant(progress.frame, s', 0, 1);
      }
    }
  }

  lemma OneCall(f: Frame, s: Store)
    ensures var s' := Exec(f, s, true).0;
      if Writes(f, s) then
        s' == Put(s, Code(f).key, if Code(f).Apply? then Some(f.key) else None, Code(f).body)
      else s' == s
  {
    hide Code;
  }

  // A reconcile touches exactly the keys it writes, and keeps every owner.
  lemma {:induction false} OnlyWritten(f: Frame, s: Store)
    ensures forall k :: k !in Written(f, s) ==> (k in Rest(f, s) <==> k in s)
    ensures forall k :: k !in Written(f, s) && k in s ==> Rest(f, s)[k] == s[k]
    ensures forall k :: k in Written(f, s) ==> k in Rest(f, s)
    ensures forall k :: k in s ==> k in Rest(f, s) && Rest(f, s)[k].owner == s[k].owner
    decreases LAST - f.pc
  {
    Unfold(f, s);
    OneCall(f, s);
    CallAdvances(f, s);
    hide Code, Exec, Written, Writes, Rest;
    if !Code(f).Stop? {
      var (s', progress) := Exec(f, s, true);
      if progress.Next? {
        OnlyWritten(progress.frame, s');
      }
    }
  }

  /******* The fixed write set of each reconciler *******/

  // The kinds of the keys that a reconcile of a body may write.
  predicate MayWrite(body: Body, kind: Kind) {
    match body
    case ControlPlaneBody(_) => kind in {Loadbalancer, Pki, KubeAPIServer, KubeControllerManager, KubeScheduler}
    case LoadbalancerBody(_) => kind in {Service, LoadbalancerStatus}
    case PkiBody(_) => kind in {Issuer, Certificate, Secret}
    case KasBody(_) => kind in {Secret, ConfigMap, Deployment}
    case KcmBody(_) => kind in {Secret, Deployment}
    case KsBody(_) => kind in {Secret, Deployment}
    case _ => false
  }

  // The secrets, config maps and deployments that a component reconciler may write.
  predicate MayWriteKey(k: Key, body: Body, w: Key) {
    && w.ns == k.ns
    && MayWrite(body, w.kind)
    && (body.PkiBody? && w.kind == Secret ==> w.name == KubeconfigName(body.pki.admin))
    && (body.KasBody? ==>
          && (w.kind == Secret ==> w.name == KubeconfigName(body.kas.tls.konnectivity))
          && (w.kind == ConfigMap ==> w.name == EGRESS_CONFIG)
          && (w.kind == Deployment ==> w.name == body.kas.deployment.name))
    && (body.KcmBody? ==> w.name == if w.kind == Secret then KCM_KUBECONFIG else KCM_NAME)
    && (body.KsBody? ==> w.name == if w.kind == Secret then KS_CONFIG else KS_NAME)
    && (body.ControlPlaneBody? ==> w.name == k.name)
    && (w.kind == LoadbalancerStatus ==> w == StatusKey(Key(Loadbalancer, k.ns, k.name)))
  }

  lemma WritesInWriteSet(f: Frame)
    requires f.body.LoadbalancerBody? ==> f.key.kind == Loadbalancer
    ensures Code(f).Apply? || Code(f).Report? ==> MayWriteKey(f.key, f.body, Code(f).key)
  {
    hide KCM_NAME, KCM_KUBECONFIG, KS_NAME, KS_CONFIG, EGRESS_CONFIG, GenerateDeployment, KcmWorkload, KsWorkload;
  }

  lemma {:induction false} WriteSet(f: Frame, s: Store)
    requires f.body.LoadbalancerBody? ==> f.key.kind == Loadbalancer
    ensures forall w :: w in Written(f, s) ==> MayWriteKey(f.key, f.body, w)
    decreases LAST - f.pc
  {
    Unfold(f, s);
    CallAdvances(f, s);
    WritesInWriteSet(f);
    if !Code(f).Stop? {
      var (s', progress) := Exec(f, s, true);
      hide Code, Written, MayWriteKey;
      if progress.Next? {
        assert progress.frame.key == f.key && progress.frame.body == f.body;
        WriteSet(progress.frame, s');
      }
    }
  }

  /******* A second reconcile in a row *******/

  // A reconciler must not overwrite the key pair that it reads: only the fixed secret
  // names of two reconcilers make that possible.
  predicate ReadsApart(body: Body) {
    && (body.KcmBody? ==> body.kcm.tls.kubeControllerManager != KCM_KUBECONFIG)
    && (body.KsBody? ==> body.ks.tls != KS_CONFIG)
  }

  // Where the remembered result of call f.pc comes from.
  function RememberedKey(f: Frame): Key
    requires !Code(f).Stop?
  {
    if Code(f).Fetch? then Code(f).key else StatusKey(Code(f).key)
  }

  lemma RememberedIsNotWritten(f: Frame)
    requires !Code(f).Stop? && f.pc == Remembered(f.body) && ReadsApart(f.body)
    ensures !MayWriteKey(f.key, f.body, RememberedKey(f))
  {
    hide EGRESS_CONFIG, GenerateDeployment, KcmWorkload, KsWorkload, KCM_NAME, KS_NAME, KCM_KUBECONFIG, KS_CONFIG;
    match f.body
    case PkiBody(pki) => assert |KubeconfigName(pki.admin)| != |pki.admin|;
    case KasBody(kas) => assert |KubeconfigName(kas.tls.konnectivity)| != |kas.tls.konnectivity|;
    case _ =>
  }

  // Nothing follows the write of a Deployment or of a status.
  lemma LastWrites(f: Frame, s: Store)
    requires Writes(f, s)
    requires Code(f).Report? || Code(f).body.DeploymentBody?
    ensures Exec(f, s, true).1.Next? && Code(Exec(f, s, true).1.frame).Stop?
  {
    hide GenerateDeployment, KcmWorkload, KsWorkload;
  }

  // The second reconcile, in state (g, t), keeps step with the first, in state (f, s),
  // which ends with the store final.
  ghost predicate InStep(f: Frame, s: Store, g: Frame, t: Store, final: Store) {
    && final == Rest(f, s)
    && g == f.(status := g.status)
    && t.Keys == final.Keys
    && (forall k :: k in t ==> t[k].owner == final[k].owner)
    && (forall k :: k in t && (k !in Written(f, s) || k.kind in {Deployment, LoadbalancerStatus}) ==> t[k] == final[k])
    && (f.body.LoadbalancerBody? ==>
          && f.key.kind == Loadbalancer
          && Unchanged(g, final)
          && (Code(f).Stop? || Unchanged(f, s)))
  }

  lemma SameResult(f: Frame, s: Store, g: Frame, t: Store, final: Store)
    requires InStep(f, s, g, t, final) && ReadsApart(f.body) && !Code(f).Stop?
    ensures f.pc == Remembered(f.body) ==>
      BodyAt(t, RememberedKey(f)) == BodyAt(s, RememberedKey(f))
  {
    if f.pc == Remembered(f.body) {
      RememberedIsNotWritten(f);
      WriteSet(f, s);
      OnlyWritten(f, s);
      hide Code, MayWriteKey, Rest, Written;
      assert RememberedKey(f) in t <==> RememberedKey(f) in final;
    }
  }

  lemma KindsOfWrites(f: Frame)
    ensures Code(f).Report? ==> Code(f).key == StatusKey(f.key) && f.body.LoadbalancerBody?
    ensures Code(f).Apply? && Code(f).body.DeploymentBody? ==> Code(f).key.kind == Deployment && Code(f).strict
  {}

  lemma FinalWrite(f: Frame, s: Store)
    requires Writes(f, s)
    requires Code(f).Report? || Code(f).body.DeploymentBody?
    ensures Code(f).key in Rest(f, s) && Rest(f, s)[Code(f).key].body == Code(f).body
  {
    LastWrites(f, s);
    OneCall(f, s);
    Unfold(f, s);
    Unfold(Exec(f, s, true).1.frame, Exec(f, s, true).0);
    hide Code, Exec, Rest, Written;
  }

  lemma ClosedGate(f: Frame, s: Store)
    requires !Code(f).Stop? && !Writes(f, s)
    requires Code(f).Fetch? ==> Code(f).key !in s
    requires Code(f).Apply? ==> Code(f).strict
    ensures Rest(f, s) == s && Written(f, s) == {}
  {
    Unfold(f, s);
    hide Code, Rest, Written;
  }

  lemma SameAnswer(f: Frame, s: Store, g: Frame, t: Store, final: Store)
    requires InStep(f, s, g, t, final) && !Code(f).Stop?
    ensures Code(g) == Code(f)
    ensures Code(f).Fetch? ==> (Code(f).key in t <==> Code(f).key in s)
    ensures Writes(g, t) == Writes(f, s)
    ensures Writes(f, s) && (Code(f).Report? || Code(f).body.DeploymentBody?) ==>
      BodyAt(t, Code(f).key) == Some(Code(f).body)
  {
    var a := Code(f);
    assert Code(g) == a;
    KindsOfWrites(f);
    OnlyWritten(f, s);
    if Writes(f, s) && (a.Report? || a.body.DeploymentBody?) {
      FinalWrite(f, s);
    } else if (a.Fetch? && a.key !in s) || (!a.Fetch? && !Writes(f, s) && (a.Apply? ==> a.strict)) {
      ClosedGate(f, s);
      assert t == final;
    }
    if a.Report? {
      WriteSet(f, s);
    }
    hide Code, Rest, Written, Exec;
  }

  lemma {:induction false} SecondPass(f: Frame, s: Store, g: Frame, t: Store, final: Store)
    requires InStep(f, s, g, t, final) && ReadsApart(f.body)
    ensures Rest(g, t) == final
    decreases LAST - f.pc
  {
    Unfold(f, s);
    Unfold(g, t);
    if Code(f).Stop? {
      assert Code(g).Stop?;
      assert t == final;
    } else {
      SameAnswer(f, s, g, t, final);
      SameResult(f, s, g, t, final);
      var (s', p) := Exec(f, s, true);
      var (t', q) := Exec(g, t, true);
      if p.Next? {
        CallAdvances(f, s);
        NextInStep(f, s, g, t, final);
        SecondPass(p.frame, s', q.frame, t', final);
      } else {
        hide Code;
        assert t == final;
      }
    }
  }

  lemma NextInStep(f: Frame, s: Store, g: Frame, t: Store, final: Store)
    requires InStep(f, s, g, t, final) && ReadsApart(f.body) && !Code(f).Stop?
    requires Exec(f, s, true).1.Next?
    ensures Exec(g, t, true).1.Next?
    ensures InStep(Exec(f, s, true).1.frame, Exec(f, s, true).0, Exec(g, t, true).1.frame, Exec(g, t, true).0, final)
  {
    SameAnswer(f, s, g, t, final);
    SameResult(f, s, g, t, final);
    var (s', p) := Exec(f, s, true);
    var (t', q) := Exec(g, t, true);
    SameFrames(f, s, g, t);
    Unfold(f, s);
    LoadbalancerInStep(f, s, g, final);
    if Writes(f, s) {
      AfterWrite(f, s, g, t, final);
    } else {
      OneCall(f, s);
      OneCall(g, t);
    }
    hide Code, Rest, Written, Exec, Unchanged, Writes;
  }

  lemma SameFrames(f: Frame, s: Store, g: Frame, t: Store)
    requires g == f.(status := g.status) && !Code(f).Stop? && Code(g) == Code(f)
    requires Code(f).Fetch? ==> (Code(f).key in t <==> Code(f).key in s)
    requires Writes(g, t) == Writes(f, s)
    requires f.pc == Remembered(f.body) ==> BodyAt(t, RememberedKey(f)) == BodyAt(s, RememberedKey(f))
    requires Exec(f, s, true).1.Next?
    ensures Exec(g, t, true).1.Next?
    ensures Exec(g, t, true).1.frame == Exec(f, s, true).1.frame.(status := g.status)
    ensures Exec(f, s, true).1.frame.status == f.status
    ensures Exec(f, s, true).1.frame.body == f.body && Exec(f, s, true).1.frame.key == f.key
  {
    hide Code;
  }

  lemma LoadbalancerInStep(f: Frame, s: Store, g: Frame, final: Store)
    requires !Code(f).Stop? && Exec(f, s, true).1.Next? && g == f.(status := g.status)
    requires f.body.LoadbalancerBody? ==>
      f.key.kind == Loadbalancer && Unchanged(g, final) && Unchanged(f, s)
    ensures var (s', p) := Exec(f, s, true);
      f.body.LoadbalancerBody? ==> Code(p.frame).Stop? || Unchanged(p.frame, s')
  {
    if f.body.LoadbalancerBody? {
      WritesInWriteSet(f);
      OneCall(f, s);
      KindsOfWrites(f);
      if Writes(f, s) && Code(f).Report? {
        LastWrites(f, s);
      }
      hide Code;
    }
  }

  lemma AfterWrite(f: Frame, s: Store, g: Frame, t: Store, final: Store)
    requires InStep(f, s, g, t, final) && !Code(f).Stop?
    requires Writes(f, s) && Writes(g, t) && Code(g) == Code(f) && Exec(f, s, true).1.Next?
    requires Code(f).Report? || Code(f).body.DeploymentBody? ==> BodyAt(t, Code(f).key) == Some(Code(f).body)
    ensures var (s', p) := Exec(f, s, true);
      var t' := Exec(g, t, true).0;
      && t'.Keys == final.Keys
      && (forall k :: k in t' ==> t'[k].owner == final[k].owner)
      && (forall k :: k in t' && (k !in Written(p.frame, s') || k.kind in {Deployment, LoadbalancerStatus}) ==>
            t'[k] == final[k])
  {
    var (s', p) := Exec(f, s, true);
    var t' := Exec(g, t, true).0;
    Unfold(f, s);
    OneCall(f, s);
    OneCall(g, t);
    OnlyWritten(f, s);
    OnlyWritten(p.frame, s');
    var w := Code(f).key;
    KindsOfWrites(f);
    DeploymentKeys(f);
    hide Code, Rest, Written, Exec, Writes, Unchanged;
    assert w in final && t' == t[w := Object(t[w].owner, Code(f).body)];
  }

  lemma DeploymentKeys(f: Frame)
    requires f.body.LoadbalancerBody? ==> f.key.kind == Loadbalancer
    ensures Code(f).Apply? && Code(f).key.kind == Deployment ==> Code(f).body.DeploymentBody?
    ensures Code(f).Apply? ==> Code(f).key.kind != LoadbalancerStatus
  {}

  // A second failure-free reconcile in a row changes nothing at all.
  lemma Idempotent(s: Store, k: Key)
    requires k in s ==> ReadsApart(s[k].body)
    ensures Pass(Pass(s, k), k) == Pass(s, k)
  {
    if k in s && Reconciled(k.kind) && Typed(k.kind, s[k].body) {
      var f := Begin(s, k);
      var final := Rest(f, s);
      WriteSet(f, s);
      OnlyWritten(f, s);
      hide Code, Rest, Written, Finish;
      assert !MayWrite(f.body, k.kind);
      assert final[k] == s[k];
      SecondPass(f, s, Begin(final, k), final, final);
    }
  }

  /******* Exactly when: the fixed names of two reconcilers *******/

  predicate KcmGatesOpen(s: Store, k: Key, kcm: KcmSpec) {
    && Key(Secret, k.ns, kcm.tls.kubeControllerManager) in s
    && Key(Secret, k.ns, kcm.tls.serviceAccounts) in s
    && Key(Secret, k.ns, kcm.tls.ca) in s
  }

  function KcmKubeconfigOf(s: Store, k: Key, kcm: KcmSpec): Body {
    KubeconfigSecret(SeenSecret(BodyAt(s, Key(Secret, k.ns, kcm.tls.kubeControllerManager))), UrlOf(kcm.service))
  }

  lemma RestFetches(f: Frame, s: Store, w: Key)
    requires Code(f) == Fetch(w) && w in s
    ensures Rest(f, s) == Rest(Advance(f, Some(s[w].body)), s)
  {
    Unfold(f, s);
    hide Code, Rest;
  }

  lemma RestApplies(f: Frame, s: Store, w: Key, body: Body)
    requires Code(f) == Apply(w, body, true) && Admits(s, w, body)
    ensures Rest(f, s) == Rest(Advance(f, BodyAt(s, StatusKey(w))), Put(s, w, Some(f.key), body))
  {
    Unfold(f, s);
    hide Code, Rest, Admits, Put;
  }

  lemma RestStops(f: Frame, s: Store)
    requires Code(f).Stop?
    ensures Rest(f, s) == s
  {
    Unfold(f, s);
    hide Code, Rest;
  }

  // Nothing but an empty name is rejected for objects without a selector.
  lemma NamedIsAdmitted(s: Store, w: Key, body: Body)
    requires w.name != "" && !body.DeploymentBody?
    ensures Admits(s, w, body)
  {}

  lemma StillAdmitted(s: Store, w: Key, b: Body, owner: Key, d: Key, body: Body)
    requires Admits(s, d, body) && w != d
    ensures Admits(Put(s, w, Some(owner), b), d, body)
  {}

  lemma KcmPass(s: Store, k: Key, kcm: KcmSpec)
    requires k.kind == KubeControllerManager && BodyAt(s, k) == Some(KcmBody(kcm))
    requires KcmGatesOpen(s, k, kcm)
    requires Admits(s, Key(Deployment, k.ns, KCM_NAME), DeploymentBody(KcmWorkload(k.name, kcm)))
    ensures Pass(s, k) ==
      Put(Put(s, Key(Secret, k.ns, KCM_KUBECONFIG), Some(k), KcmKubeconfigOf(s, k, kcm)),
        Key(Deployment, k.ns, KCM_NAME), Some(k), DeploymentBody(KcmWorkload(k.name, kcm)))
  {
    assert KCM_KUBECONFIG != "" && KCM_NAME != "";
    hide KcmWorkload, KCM_NAME, KCM_KUBECONFIG, Finish, KubeconfigSecret, Admits, Put;
    var ns := k.ns;
    var f0 := Begin(s, k);
    RestFetches(f0, s, Key(Secret, ns, kcm.tls.kubeControllerManager));
    var f1 := Advance(f0, BodyAt(s, Key(Secret, ns, kcm.tls.kubeControllerManager)));
    RestFetches(f1, s, Key(Secret, ns, kcm.tls.serviceAccounts));
    RestFetches(f1.(pc := 2), s, Key(Secret, ns, kcm.tls.ca));
    var w, b := Key(Secret, ns, KCM_KUBECONFIG), KcmKubeconfigOf(s, k, kcm);
    NamedIsAdmitted(s, w, b);
    RestApplies(f1.(pc := 3), s, w, b);
    var s1 := Put(s, w, Some(k), b);
    var d, workload := Key(Deployment, ns, KCM_NAME), DeploymentBody(KcmWorkload(k.name, kcm));
    StillAdmitted(s, w, b, k, d, workload);
    RestApplies(f1.(pc := 4), s1, d, workload);
    RestStops(f1.(pc := 5), Put(s1, d, Some(k), workload));
  }

  // The kube-controller-manager reconcile is idempotent on every store if and only if the
  // key pair it is told to read is not the secret it writes.
  lemma KcmIdempotentExactly(k: Key, kcm: KcmSpec)
    requires k.kind == KubeControllerManager
    ensures kcm.tls.kubeControllerManager != KCM_KUBECONFIG <==>
      forall s :: BodyAt(s, k) == Some(KcmBody(kcm)) ==> Pass(Pass(s, k), k) == Pass(s, k)
  {
    if kcm.tls.kubeControllerManager != KCM_KUBECONFIG {
      forall s | BodyAt(s, k) == Some(KcmBody(kcm))
        ensures Pass(Pass(s, k), k) == Pass(s, k)
      {
        Idempotent(s, k);
      }
    } else {
      var s := SelfReading(k, kcm);
      assert BodyAt(s, k) == Some(KcmBody(kcm)) && Pass(Pass(s, k), k) != Pass(s, k);
    }
  }

  // A concrete store on which reading its own output makes the second pass drop the key.
  lemma SelfReading(k: Key, kcm: KcmSpec) returns (s: Store)
    requires k.kind == KubeControllerManager && kcm.tls.kubeControllerManager == KCM_KUBECONFIG
    ensures BodyAt(s, k) == Some(KcmBody(kcm)) && Pass(Pass(s, k), k) != Pass(s, k)
  {
    assert KCM_NAME != "";
    hide KCM_NAME, KCM_KUBECONFIG, KcmWorkload, Pass;
    var secret, dep := Key(Secret, k.ns, KCM_KUBECONFIG), Key(Deployment, k.ns, KCM_NAME);
    s := map[
      k := Object(None, KcmBody(kcm)),
      Key(Secret, k.ns, kcm.tls.serviceAccounts) := Object(None, SecretBody(map[])),
      Key(Secret, k.ns, kcm.tls.ca) := Object(None, SecretBody(map[])),
      secret := Object(None, SecretBody(map[TlsKey := Bytes("key")]))];
    KcmPass(s, k, kcm);
    var s1 := Pass(s, k);
    KcmPass(s1, k, kcm);
    assert s1[secret].body == KcmKubeconfigOf(s, k, kcm);
    assert Pass(s1, k)[secret].body == KcmKubeconfigOf(s1, k, kcm);
    assert s1[secret].body.data[KubeconfigYml].config.clientKey == "key";
    assert Pass(s1, k)[secret].body.data[KubeconfigYml].config.clientKey == "";
  }

  function SchedulerSecretOf(s: Store, k: Key, ks: KsSpec): Body {
    SchedulerSecret(SeenSecret(BodyAt(s, Key(Secret, k.ns, ks.tls))), UrlOf(ks.service))
  }

  lemma KsPass(s: Store, k: Key, ks: KsSpec)
    requires k.kind == KubeScheduler && BodyAt(s, k) == Some(KsBody(ks)) && Key(Secret, k.ns, ks.tls) in s
    requires Admits(s, Key(Deployment, k.ns, KS_NAME), DeploymentBody(KsWorkload(k.name, ks)))
    ensures Pass(s, k) ==
      Put(Put(s, Key(Secret, k.ns, KS_CONFIG), Some(k), SchedulerSecretOf(s, k, ks)),
        Key(Deployment, k.ns, KS_NAME), Some(k), DeploymentBody(KsWorkload(k.name, ks)))
  {
    assert KS_CONFIG != "" && KS_NAME != "";
    hide KsWorkload, KS_NAME, KS_CONFIG, Finish, SchedulerSecret, Admits, Put;
    var ns := k.ns;
    var f0 := Begin(s, k);
    RestFetches(f0, s, Key(Secret, ns, ks.tls));
    var f1 := Advance(f0, BodyAt(s, Key(Secret, ns, ks.tls)));
    var w, b := Key(Secret, ns, KS_CONFIG), SchedulerSecretOf(s, k, ks);
    NamedIsAdmitted(s, w, b);
    RestApplies(f1, s, w, b);
    var s1 := Put(s, w, Some(k), b);
    var d, workload := Key(Deployment, ns, KS_NAME), DeploymentBody(KsWorkload(k.name, ks));
    StillAdmitted(s, w, b, k, d, workload);
    RestApplies(f1.(pc := 2), s1, d, workload);
    RestStops(f1.(pc := 3), Put(s1, d, Some(k), workload));
  }

  // The kube-scheduler reconcile is idempotent on every store under the same condition.
  lemma KsIdempotentExactly(k: Key, ks: KsSpec)
    requires k.kind == KubeScheduler
    ensures ks.tls != KS_CONFIG <==>
      forall s :: BodyAt(s, k) == Some(KsBody(ks)) ==> Pass(Pass(s, k), k) == Pass(s, k)
  {
    if ks.tls != KS_CONFIG {
      forall s | BodyAt(s, k) == Some(KsBody(ks))
        ensures Pass(Pass(s, k), k) == Pass(s, k)
      {
        Idempotent(s, k);
      }
    } else {
      var s := SelfReadingScheduler(k, ks);
      assert BodyAt(s, k) == Some(KsBody(ks)) && Pass(Pass(s, k), k) != Pass(s, k);
    }
  }

  // The store on which the scheduler's second pass drops the key.
  lemma SelfReadingScheduler(k: Key, ks: KsSpec) returns (s: Store)
    requires k.kind == KubeScheduler && ks.tls == KS_CONFIG
    ensures BodyAt(s, k) == Some(KsBody(ks)) && Pass(Pass(s, k), k) != Pass(s, k)
  {
    assert KS_NAME != "";
    hide KS_NAME, KS_CONFIG, KsWorkload, Pass;
    var secret, dep := Key(Secret, k.ns, KS_CONFIG), Key(Deployment, k.ns, KS_NAME);
    s := map[
      k := Object(None, KsBody(ks)),
      secret := Object(None, SecretBody(map[TlsKey := Bytes("key")]))];
    KsPass(s, k, ks);
    var s1 := Pass(s, k);
    KsPass(s1, k, ks);
    assert s1[secret].body == SchedulerSecretOf(s, k, ks);
    assert Pass(s1, k)[secret].body == SchedulerSecretOf(s1, k, ks);
    assert s1[secret].body.data[KubeconfigYml].config.clientKey == "key";
    assert Pass(s1, k)[secret].body.data[KubeconfigYml].config.clientKey == "";
  }

  // So a second reconcile changes nothing, on any store, exactly for the resources whose
  // input is not one of the two fixed output secrets.
  lemma IdempotentExactly(k: Key, body: Body)
    requires Reconciled(k.kind) && Typed(k.kind, body)
    ensures ReadsApart(body) <==> forall s :: BodyAt(s, k) == Some(body) ==> Pass(Pass(s, k), k) == Pass(s, k)
  {
    hide Pass, KCM_KUBECONFIG, KS_CONFIG;
    if body.KcmBody? {
      KcmIdempotentExactly(k, body.kcm);
    } else if body.KsBody? {
      KsIdempotentExactly(k, body.ks);
    } else {
      forall s | BodyAt(s, k) == Some(body)
        ensures Pass(Pass(s, k), k) == Pass(s, k)
      {
        Idempotent(s, k);
      }
    }
  }
}
