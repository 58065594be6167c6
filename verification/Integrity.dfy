// What every run keeps, whatever the interleaving and whatever calls fail: reconciles
// only get past a gate whose object exists, stored Deployments mount objects that exist,
// and API-server certificates carry the addresses of a Pki that was really recorded.
module Integrity {
  import opened Api
  import opened Programs
  import opened Machine
  import opened Passes

  // What a volume can mount.
  predicate Mountable(k: Key) {
    k.kind in {Secret, ConfigMap}
  }

  // No Secret or ConfigMap is deleted, and only the operator writes Deployments.
  predicate KeepsMountable(e: Event) {
    && (Removes(e) ==> !Mountable(e.key))
    && (e.Tamper? ==> e.key.kind != Deployment)
  }

  ghost predicate AllKeepMountable(es: seq<Event>) {
    forall i :: 0 <= i < |es| ==> KeepsMountable(es[i])
  }

  /******* Gates *******/

  // The object that call number i of a reconcile fetches; without it the reconcile ends.
  function Needed(k: Key, body: Body, i: nat): Option<Key> {
    var a := Code(Frame(k, body, None, i, None));
    if a.Fetch? then Some(a.key) else None
  }

  ghost predicate Reached(f: Frame, s: Store) {
    forall i :: 0 <= i < f.pc && Needed(f.key, f.body, i).Some? ==> Needed(f.key, f.body, i).value in s
  }

  lemma NeededIsCode(f: Frame)
    ensures Needed(f.key, f.body, f.pc) == if Code(f).Fetch? then Some(Code(f).key) else None
  {}

  lemma ExecReached(f: Frame, s: Store, ok: bool)
    requires Reached(f, s)
    ensures var (s', progress) := Exec(f, s, ok);
      && s.Keys <= s'.Keys
      && (progress.Next? ==>
            && progress.frame.key == f.key && progress.frame.body == f.body && progress.frame.pc == f.pc + 1
            && Reached(progress.frame, s'))
  {
    NeededIsCode(f);
    hide Code, Needed;
  }

  // The Secret or ConfigMap that is there once call number i went through: fetched, or
  // written by a call whose error is returned.
  function Ensured(k: Key, body: Body, i: nat): Option<Key> {
    var a := Code(Frame(k, body, None, i, None));
    if (a.Fetch? || (a.Apply? && a.strict)) && Mountable(a.key) then Some(a.key) else None
  }

  ghost predicate Gated(f: Frame, s: Store) {
    forall i :: 0 <= i < f.pc && Ensured(f.key, f.body, i).Some? ==> Ensured(f.key, f.body, i).value in s
  }

  lemma EnsuredIsCode(f: Frame)
    ensures Ensured(f.key, f.body, f.pc) ==
      if (Code(f).Fetch? || (Code(f).Apply? && Code(f).strict)) && Mountable(Code(f).key) then Some(Code(f).key)
      else None
  {}

  lemma ExecGated(f: Frame, s: Store, ok: bool)
    requires Gated(f, s)
    ensures var (s', progress) := Exec(f, s, ok);
      && s.Keys <= s'.Keys
      && (progress.Next? ==> progress.frame.key == f.key && progress.frame.body == f.body && Gated(progress.frame, s'))
  {
    EnsuredIsCode(f);
    hide Code, Ensured, Mountable;
  }

  /******* Mounted volumes *******/

  const HARD_CODED: set<Volume> := {SecretVolume(KCM_NAME), SecretVolume(SERVICE_ACCOUNTS)}

  predicate Exists(s: Store, ns: string, v: Volume) {
    match v
    case SecretVolume(name) => Key(Secret, ns, name) in s
    case ConfigMapVolume(name) => Key(ConfigMap, ns, name) in s
    case EmptyDirVolume => true
  }

  ghost predicate Mounted(s: Store, ns: string, w: Workload, excused: set<Volume>) {
    forall v :: v in w.volumes ==> w.volumes[v] in excused || Exists(s, ns, w.volumes[v])
  }

  ghost predicate AllMounted(s: Store, excused: set<Volume>) {
    forall k :: k in s && k.kind == Deployment && s[k].body.DeploymentBody? ==>
      Mounted(s, k.ns, s[k].body.workload, excused)
  }

  // The spec of a KubeControllerManager names the secrets that its Deployment mounts.
  predicate NamesHardCoded(body: Body) {
    body.KcmBody? ==>
      body.kcm.tls.kubeControllerManager == KCM_NAME && body.kcm.tls.serviceAccounts == SERVICE_ACCOUNTS
  }

  ghost predicate StoredNamesHardCoded(s: Store) {
    forall k :: k in s ==> NamesHardCoded(s[k].body)
  }

  ghost predicate MountInvariant(sys: Sys, excused: set<Volume>) {
    && AllMounted(sys.store, excused)
    && forall k :: k in sys.running ==>
         && sys.running[k].key == k
         && Gated(sys.running[k], sys.store)
         && (HARD_CODED <= excused || NamesHardCoded(sys.running[k].body))
  }

  lemma MoreObjects(s: Store, s': Store, excused: set<Volume>)
    requires forall k :: k in s && Mountable(k) ==> k in s'
    requires AllMounted(s, excused)
    requires forall k :: k in s' && k.kind == Deployment ==> k in s && s[k].body == s'[k].body
    ensures AllMounted(s', excused)
  {
    forall k | k in s' && k.kind == Deployment && s'[k].body.DeploymentBody?
      ensures Mounted(s', k.ns, s'[k].body.workload, excused)
    {
      assert Mounted(s, k.ns, s[k].body.workload, excused);
    }
  }

  // A Deployment is only written once all the objects it mounts have been seen.
  lemma WrittenWorkloadIsMounted(f: Frame, s: Store, excused: set<Volume>)
    requires Gated(f, s)
    requires HARD_CODED <= excused || NamesHardCoded(f.body)
    requires Code(f).Apply? && Code(f).body.DeploymentBody?
    ensures Mounted(s, f.key.ns, Code(f).body.workload, excused)
  {
    hide KCM_NAME, SERVICE_ACCOUNTS, KCM_KUBECONFIG, KS_CONFIG, KS_NAME, EGRESS_CONFIG;
    var ns := f.key.ns;
    match f.body
    case KasBody(kas) =>
      assert Ensured(f.key, f.body, 0) == Some(Key(Secret, ns, kas.tls.konnectivity));
      assert Ensured(f.key, f.body, 1) == Some(Key(Secret, ns, KubeconfigName(kas.tls.konnectivity)));
      assert Ensured(f.key, f.body, 2) == Some(Key(ConfigMap, ns, EGRESS_CONFIG));
      assert Ensured(f.key, f.body, 3) == Some(Key(Secret, ns, kas.tls.ca));
      assert Ensured(f.key, f.body, 4) == Some(Key(Secret, ns, kas.tls.kubeAPIServer));
      assert Ensured(f.key, f.body, 5) == Some(Key(Secret, ns, kas.tls.serviceAccounts));
    case KcmBody(kcm) =>
      assert Ensured(f.key, f.body, 0) == Some(Key(Secret, ns, kcm.tls.kubeControllerManager));
      assert Ensured(f.key, f.body, 1) == Some(Key(Secret, ns, kcm.tls.serviceAccounts));
      assert Ensured(f.key, f.body, 2) == Some(Key(Secret, ns, kcm.tls.ca));
      assert Ensured(f.key, f.body, 3) == Some(Key(Secret, ns, KCM_KUBECONFIG));
    case KsBody(ks) =>
      assert Ensured(f.key, f.body, 0) == Some(Key(Secret, ns, ks.tls));
      assert Ensured(f.key, f.body, 1) == Some(Key(Secret, ns, KS_CONFIG));
    case _ => assert false;
  }

  lemma ExecMounted(f: Frame, s: Store, ok: bool, excused: set<Volume>)
    requires AllMounted(s, excused) && Gated(f, s)
    requires HARD_CODED <= excused || NamesHardCoded(f.body)
    ensures AllMounted(Exec(f, s, ok).0, excused)
  {
    var s' := Exec(f, s, ok).0;
    ExecGated(f, s, ok);
    if Code(f).Apply? && Code(f).body.DeploymentBody? {
      WrittenWorkloadIsMounted(f, s, excused);
    }
    hide Code, Gated, HARD_CODED, NamesHardCoded;
    forall d | d in s' && d.kind == Deployment && s'[d].body.DeploymentBody?
      ensures Mounted(s', d.ns, s'[d].body.workload, excused)
    {
      if d in s && s[d].body == s'[d].body {
        assert Mounted(s, d.ns, s[d].body.workload, excused);
      } else {
        assert Mounted(s, d.ns, s'[d].body.workload, excused);
      }
    }
  }

  lemma StoreMounted(sys: Sys, e: Event, excused: set<Volume>)
    requires MountInvariant(sys, excused) && KeepsMountable(e)
    ensures forall k :: k in sys.store && Mountable(k) ==> k in Step(sys, e).store
    ensures AllMounted(Step(sys, e).store, excused)
  {
    StoreOfStep(sys, e);
    if e.Act? && e.key in sys.running {
      ExecGated(sys.running[e.key], sys.store, e.ok);
      ExecMounted(sys.running[e.key], sys.store, e.ok, excused);
    } else {
      hide AllMounted, HARD_CODED, Issuable;
      MoreObjects(sys.store, StoreAfter(sys, e), excused);
    }
  }

  lemma FramesGated(sys: Sys, e: Event, excused: set<Volume>)
    requires MountInvariant(sys, excused) && KeepsMountable(e)
    requires HARD_CODED <= excused || StoredNamesHardCoded(sys.store)
    ensures MountInvariant(Step(sys, e), excused)
  {
    StoreMounted(sys, e, excused);
    StoreOfStep(sys, e);
    var after := Step(sys, e);
    forall k | k in after.running
      ensures after.running[k].key == k && Gated(after.running[k], after.store)
      ensures HARD_CODED <= excused || NamesHardCoded(after.running[k].body)
    {
      FramesOfStep(sys, e, k);
      if k in sys.running {
        ExecGated(sys.running[k], sys.store, e.Act? && e.ok);
      }
      hide Step, StoreAfter, Ensured, AllMounted, HARD_CODED;
    }
  }

  // Every object named by a volume of a stored Deployment exists, in every run that
  // deletes no Secret and no ConfigMap.  The two hard-coded names of the
  // KubeControllerManager are excused unless its stored spec always carried them.
  lemma {:induction false} VolumesExist(sys: Sys, es: seq<Event>, excused: set<Volume>)
    requires MountInvariant(sys, excused) && AllKeepMountable(es)
    requires
      || HARD_CODED <= excused
      || forall i :: 0 <= i <= |es| ==> StoredNamesHardCoded(Run(sys, es[..i]).store)
    ensures MountInvariant(Run(sys, es), excused)
  {
    if es != [] {
      var n := |es| - 1;
      assert forall i :: 0 <= i <= n ==> es[..n][..i] == es[..i];
      VolumesExist(sys, es[..n], excused);
      FramesGated(Run(sys, es[..n]), es[n], excused);
    }
  }

  /******* Exactly when the KubeControllerManager's Deployment mounts what exists *******/

  lemma KcmMountsExactly(s: Store, k: Key, kcm: KcmSpec)
    requires k.kind == KubeControllerManager && BodyAt(s, k) == Some(KcmBody(kcm))
    requires KcmGatesOpen(s, k, kcm)
    requires Admits(s, Key(Deployment, k.ns, KCM_NAME), DeploymentBody(KcmWorkload(k.name, kcm)))
    ensures Mounted(Pass(s, k), k.ns, KcmWorkload(k.name, kcm), {}) <==>
      Key(Secret, k.ns, KCM_NAME) in s && Key(Secret, k.ns, SERVICE_ACCOUNTS) in s
  {
    KcmPass(s, k, kcm);
    assert KCM_NAME != KCM_KUBECONFIG && SERVICE_ACCOUNTS != KCM_KUBECONFIG by {
      assert |KCM_NAME| != |KCM_KUBECONFIG| && |SERVICE_ACCOUNTS| != |KCM_KUBECONFIG|;
    }
    var w, after := KcmWorkload(k.name, kcm), Pass(s, k);
    hide Pass, KCM_NAME, KCM_KUBECONFIG, SERVICE_ACCOUNTS;
    assert w.volumes == map[
      KubeconfigVolume := SecretVolume(KCM_KUBECONFIG), ManagerVolume := SecretVolume(KCM_NAME),
      AccountsVolume := SecretVolume(SERVICE_ACCOUNTS), CaVolume := SecretVolume(kcm.tls.ca)];
    assert ManagerVolume in w.volumes && AccountsVolume in w.volumes;
    assert Key(Secret, k.ns, KCM_KUBECONFIG) in after;
  }

  // The secrets that are there whenever a KubeControllerManager reconcile writes its
  // Deployment: the three it has fetched and the one it has written.
  function KcmSecrets(kcm: KcmSpec): set<string> {
    {kcm.tls.kubeControllerManager, kcm.tls.serviceAccounts, kcm.tls.ca, KCM_KUBECONFIG}
  }

  // The stores on which a reconcile of the spec passes its gates and may write.
  ghost predicate KcmMayRun(s: Store, k: Key, kcm: KcmSpec) {
    && BodyAt(s, k) == Some(KcmBody(kcm)) && KcmGatesOpen(s, k, kcm)
    && Admits(s, Key(Deployment, k.ns, KCM_NAME), DeploymentBody(KcmWorkload(k.name, kcm)))
  }

  // For a spec: its Deployment mounts what exists on every store if and only if the two
  // fixed names are among those secrets.
  lemma KcmMountsAlways(k: Key, kcm: KcmSpec)
    requires k.kind == KubeControllerManager
    ensures KCM_NAME in KcmSecrets(kcm) && SERVICE_ACCOUNTS in KcmSecrets(kcm) <==>
      forall s :: KcmMayRun(s, k, kcm) ==> Mounted(Pass(s, k), k.ns, KcmWorkload(k.name, kcm), {})
  {
    FixedNames();
    hide KCM_NAME, KCM_KUBECONFIG, SERVICE_ACCOUNTS, Pass, KcmWorkload, Mounted;
    if KCM_NAME in KcmSecrets(kcm) && SERVICE_ACCOUNTS in KcmSecrets(kcm) {
      forall s | KcmMayRun(s, k, kcm)
        ensures Mounted(Pass(s, k), k.ns, KcmWorkload(k.name, kcm), {})
      {
        KcmMountsExactly(s, k, kcm);
      }
    } else {
      var s: Store := map[
        k := Object(None, KcmBody(kcm)),
        Key(Secret, k.ns, kcm.tls.kubeControllerManager) := Object(None, SecretBody(map[])),
        Key(Secret, k.ns, kcm.tls.serviceAccounts) := Object(None, SecretBody(map[])),
        Key(Secret, k.ns, kcm.tls.ca) := Object(None, SecretBody(map[]))];
      assert KcmMayRun(s, k, kcm);
      KcmMountsExactly(s, k, kcm);
    }
  }

  lemma FixedNames()
    ensures KCM_NAME != "" && KCM_NAME != KCM_KUBECONFIG && SERVICE_ACCOUNTS != KCM_KUBECONFIG
  {
    assert |KCM_NAME| != |KCM_KUBECONFIG| && |SERVICE_ACCOUNTS| != |KCM_KUBECONFIG|;
  }

  // A spec that passes every gate and still yields a Deployment with missing secrets.
  lemma KcmCanDangle(k: Key) returns (s: Store, kcm: KcmSpec)
    requires k.kind == KubeControllerManager
    ensures BodyAt(s, k) == Some(KcmBody(kcm)) && KcmGatesOpen(s, k, kcm)
    ensures BodyAt(Pass(s, k), Key(Deployment, k.ns, KCM_NAME)) == Some(DeploymentBody(KcmWorkload(k.name, kcm)))
    ensures !Mounted(Pass(s, k), k.ns, KcmWorkload(k.name, kcm), {})
  {
    kcm := KcmSpec("v1", KcmTls("ca", "kcm", "sa"), DeploymentSpec("", 1, map[]), ServiceRef("", 0));
    s := map[
      k := Object(None, KcmBody(kcm)),
      Key(Secret, k.ns, "kcm") := Object(None, SecretBody(map[])),
      Key(Secret, k.ns, "sa") := Object(None, SecretBody(map[])),
      Key(Secret, k.ns, "ca") := Object(None, SecretBody(map[]))];
    assert KCM_NAME != "" && |KCM_NAME| > 3 && |SERVICE_ACCOUNTS| > 3;
    hide KCM_NAME, KCM_KUBECONFIG, SERVICE_ACCOUNTS, Pass, KcmWorkload;
    KcmMountsExactly(s, k, kcm);
    KcmPass(s, k, kcm);
  }
}
