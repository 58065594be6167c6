// The six Reconcile methods over a client of the API server, each proved to be a run of
// its program: same store, same outcome, same number of API calls, for every pattern of
// failing calls.
module Reconcilers {
  import opened Api
  import opened LabelMaps
  import opened Programs

  // What one reconcile of the custom resource at k does, call number n first.
  function ReconcileRun(s: Store, k: Key, oks: nat -> bool, n: nat): (Store, Outcome, nat) {
    if !oks(n) then (s, Failed, n + 1)
    else if k !in s then (s, Done, n + 1)
    else Finish(Begin(s, k), s, oks, n + 1)
  }

  lemma Return(f: Frame, s: Store, oks: nat -> bool, n: nat)
    requires Code(f).Stop?
    ensures Finish(f, s, oks, n) == (s, Code(f).outcome, n)
  {}

  // A client of the API server.  Call number n goes through exactly when oks(n).
  class Client {
    var store: Store
    var calls: nat
    const oks: nat -> bool

    constructor (store: Store, oks: nat -> bool)
      ensures this.store == store && this.oks == oks && calls == 0
    {
      this.store := store;
      this.oks := oks;
      calls := 0;
    }

    // ok is false for a failing call; a missing object is an answer.
    method Get(k: Key) returns (ok: bool, body: Option<Body>)
      modifies this`calls
      ensures calls == old(calls) + 1
      ensures ok == oks(old(calls))
      ensures body == if ok then BodyAt(store, k) else None
    {
      ok := oks(calls);
      calls := calls + 1;
      body := if ok then BodyAt(store, k) else None;
    }

    // The status is the one read back with the object; None stands for an empty one.
    method CreateOrPatch(k: Key, owner: Key, body: Body) returns (ok: bool, status: Option<Body>)
      modifies this`store, this`calls
      ensures calls == old(calls) + 1
      ensures ok == (oks(old(calls)) && Admits(old(store), k, body))
      ensures store == if ok then Put(old(store), k, Some(owner), body) else old(store)
      ensures status == if ok then BodyAt(old(store), StatusKey(k)) else None
    {
      ok := oks(calls) && Admits(store, k, body);
      calls := calls + 1;
      status := None;
      if ok {
        status := BodyAt(store, StatusKey(k));
        var o := if k in store then store[k].owner else Some(owner);
        store := store[k := Object(o, body)];
      }
    }

    method UpdateStatus(read: Frame, status: Body) returns (ok: bool)
      modifies this`store, this`calls
      ensures calls == old(calls) + 1
      ensures ok == (oks(old(calls)) && Unchanged(read, old(store)))
      ensures store == if ok then Put(old(store), StatusKey(read.key), None, status) else old(store)
    {
      ok := oks(calls) && Unchanged(read, store);
      calls := calls + 1;
      if ok {
        store := Put(store, StatusKey(read.key), None, status);
      }
    }

    // Get as call f.pc of a reconcile whose state is f.
    method Fetch(ghost f: Frame, k: Key) returns (found: Option<Body>, ghost f': Frame)
      requires Code(f) == Action.Fetch(k)
      modifies this`calls
      ensures found.Some? ==>
        f' == Advance(f, found) && Finish(f', store, oks, calls) == Finish(f, store, oks, old(calls))
      ensures found.None? ==> (store, RequeueAfter, calls) == Finish(f, store, oks, old(calls))
    {
      var ok;
      ok, found := Get(k);
      f' := Advance(f, found);
    }

    // CreateOrPatch as call f.pc, for a caller that returns its error.
    method Apply(ghost f: Frame, k: Key, owner: Key, body: Body)
      returns (ok: bool, status: Option<Body>, ghost f': Frame)
      requires Code(f) == Action.Apply(k, body, true) && f.key == owner
      modifies this`store, this`calls
      ensures ok ==>
        f' == Advance(f, status) && Finish(f', store, oks, calls) == Finish(f, old(store), oks, old(calls))
      ensures !ok ==> (store, Failed, calls) == Finish(f, old(store), oks, old(calls))
    {
      ok, status := CreateOrPatch(k, owner, body);
      f' := Advance(f, status);
    }

    // Status().Update as call f.pc; the caller drops the error.
    method Report(ghost f: Frame, read: Frame, status: Body)
      requires f.key == read.key && f.body == read.body && f.status == read.status
      requires Code(f) == Action.Report(StatusKey(f.key), status) && Code(Advance(f, None)) == Stop(Done)
      modifies this`store, this`calls
      ensures (store, Done, calls) == Finish(f, old(store), oks, old(calls))
    {
      var _ := UpdateStatus(read, status);
    }
  }

  class ControlPlaneReconciler {
    const client: Client

    constructor (client: Client)
      ensures this.client == client
    {
      this.client := client;
    }

    method Reconcile(k: Key) returns (outcome: Outcome)
      requires k.kind == ControlPlane
      requires k in client.store ==> client.store[k].body.ControlPlaneBody?
      modifies client
      ensures (client.store, outcome, client.calls)
           == ReconcileRun(old(client.store), k, client.oks, old(client.calls))
    {
      hide Finish;
      var ok, read := client.Get(k);
      if !ok { return Failed; }
      if read.None? { return Done; }
      var cp := read.value.controlPlane;
      ghost var f := Begin(client.store, k);

      var status;
      ok, status, f := client.Apply(f, Key(Loadbalancer, k.ns, k.name), k, LoadbalancerBody(cp.loadbalancer));
      if !ok { return Failed; }
      var ip := SeenIP(status);

      var pki := cp.pki.(controlPlaneIP := ip);
      ok, status, f := client.Apply(f, Key(Pki, k.ns, k.name), k, PkiBody(pki));
      if !ok { return Failed; }

      var kas := DeriveKubeAPIServer(cp, ip);
      ok, status, f := client.Apply(f, Key(KubeAPIServer, k.ns, k.name), k, KasBody(kas));
      if !ok { return Failed; }

      var version := CoalesceString([cp.kubeControllerManager.version, cp.version]);
      var kcm := cp.kubeControllerManager.(version := version);
      ok, status, f := client.Apply(f, Key(KubeControllerManager, k.ns, k.name), k, KcmBody(kcm));
      if !ok { return Failed; }

      version := CoalesceString([cp.kubeScheduler.version, cp.version]);
      var ks := cp.kubeScheduler.(version := version);
      ok, status, f := client.Apply(f, Key(KubeScheduler, k.ns, k.name), k, KsBody(ks));
      if !ok { return Failed; }
      Return(f, client.store, client.oks, client.calls);
      return Done;
    }

    // the KubeAPIServer closure; the label loop on real, aliased maps is in LabelAliasing
    method DeriveKubeAPIServer(cp: ControlPlaneSpec, ip: string) returns (kas: KasSpec)
      ensures kas == KasFor(cp, ip)
    {
      kas := cp.kubeAPIServer;
      var merged := Overlay(kas.deployment.labels, cp.loadbalancer.selectors);
      kas := kas.(deployment := kas.deployment.(labels := merged));
      kas := kas.(options := kas.options.(advertiseAddress := ip));
      var version := CoalesceString([cp.kubeAPIServer.version, cp.version]);
      kas := kas.(version := version);
    }
  }

  class LoadbalancerReconciler {
    const client: Client

    constructor (client: Client)
      ensures this.client == client
    {
      this.client := client;
    }

    method Reconcile(k: Key) returns (outcome: Outcome)
      requires k.kind == Loadbalancer
      requires k in client.store ==> client.store[k].body.LoadbalancerBody?
      modifies client
      ensures (client.store, outcome, client.calls)
           == ReconcileRun(old(client.store), k, client.oks, old(client.calls))
    {
      hide Finish;
      var ok, read := client.Get(k);
      if !ok { return Failed; }
      if read.None? { return Done; }
      var lb := read.value.loadbalancer;
      var asRead := Begin(client.store, k);
      ghost var f := asRead;

      var labels := Overlay(map[NAME_LABEL := "kube-apiserver"], lb.selectors);
      var status;
      ok, status, f := client.Apply(f, Key(Service, k.ns, lb.name), k, ServiceBody(lb.port, labels));
      if !ok { return Failed; }

      var ingress := SeenIngress(status);
      if |ingress| > 0 {
        client.Report(f, asRead, LoadbalancerStatusBody(ingress[0]));
      } else {
        Return(f, client.store, client.oks, client.calls);
      }
      return Done;
    }
  }

  class PkiReconciler {
    const client: Client

    constructor (client: Client)
      ensures this.client == client
    {
      this.client := client;
    }

    // The caller ignores the error.
    method CreateOrPatch(k: Key, owner: Key, body: Body, ghost f: Frame) returns (ghost f': Frame)
      requires Code(f) == Apply(k, body, false) && f.key == owner
      requires f.pc != Remembered(f.body)
      modifies client
      ensures f' == f.(pc := f.pc + 1)
      ensures Finish(f', client.store, client.oks, client.calls)
           == Finish(f, old(client.store), client.oks, old(client.calls))
    {
      var _, _ := client.CreateOrPatch(k, owner, body);
      f' := f.(pc := f.pc + 1);
    }

    method Reconcile(k: Key) returns (outcome: Outcome)
      requires k.kind == Pki
      requires k in client.store ==> client.store[k].body.PkiBody?
      modifies client
      ensures (client.store, outcome, client.calls)
           == ReconcileRun(old(client.store), k, client.oks, old(client.calls))
    {
      hide Finish;
      var ok, read := client.Get(k);
      if !ok { return Failed; }
      if read.None? { return Done; }
      var pki := read.value.pki;
      ghost var f := Begin(client.store, k);

      f := CreateAuthority(k, pki, f);

      var secret;
      secret, f := client.Fetch(f, Key(Secret, k.ns, pki.admin));
      if secret.None? { return RequeueAfter; }

      var host := Https(pki.controlPlaneIP, 6443);
      f := CreateOrPatch(Key(Secret, k.ns, KubeconfigName(pki.admin)), k,
        KubeconfigSecret(SeenSecret(secret), host), f);

      if pki.controlPlaneIP == "" {
        Return(f, client.store, client.oks, client.calls);
        return RequeueAfter;
      }

      f := CreateLeaves(k, pki, f);
      Return(f, client.store, client.oks, client.calls);
      return Done;
    }

    // the root and CA issuers, the CA and admin certificates
    method CreateAuthority(k: Key, pki: PkiSpec, ghost f: Frame) returns (ghost f': Frame)
      requires f.key == k && f.body == PkiBody(pki) && f.pc == 0
      modifies client
      ensures f' == f.(pc := 4)
      ensures Finish(f', client.store, client.oks, client.calls)
           == Finish(f, old(client.store), client.oks, old(client.calls))
    {
      hide Finish;
      f' := CreateOrPatch(Key(Issuer, k.ns, pki.name), k, IssuerBody(SelfSigned), f);
      f' := CreateOrPatch(Key(Certificate, k.ns, pki.ca), k,
        CertificateBody(CertificateSpec(RootAuthority, [], ["localhost"], pki.ca, pki.name)), f');
      f' := CreateOrPatch(Key(Issuer, k.ns, pki.ca), k, IssuerBody(SecretSigner(pki.ca)), f');
      f' := CreateOrPatch(Key(Certificate, k.ns, pki.admin), k,
        CertificateBody(CertificateSpec(ClusterAdmin, [], [], pki.admin, pki.ca)), f');
    }

    // the five certificates behind the address gate
    method CreateLeaves(k: Key, pki: PkiSpec, ghost f: Frame) returns (ghost f': Frame)
      requires f.key == k && f.body == PkiBody(pki) && f.pc == 6 && pki.controlPlaneIP != ""
      modifies client
      ensures f' == f.(pc := 11)
      ensures Finish(f', client.store, client.oks, client.calls)
           == Finish(f, old(client.store), client.oks, old(client.calls))
    {
      hide Finish;
      f' := CreateOrPatch(Key(Certificate, k.ns, pki.kubeAPIServer.name), k,
        CertificateBody(CertificateSpec(ApiServer,
          pki.kubeAPIServer.ipAddresses + [pki.controlPlaneIP],
          pki.kubeAPIServer.dnsNames + [pki.controlPlaneIP],
          pki.kubeAPIServer.name, pki.ca)), f);
      f' := CreateOrPatch(Key(Certificate, k.ns, pki.serviceAccounts), k,
        CertificateBody(CertificateSpec(ServiceAccountKeys, [], [], pki.serviceAccounts, pki.ca)), f');
      f' := CreateOrPatch(Key(Certificate, k.ns, pki.kubeControllerManager), k,
        CertificateBody(CertificateSpec(ControllerManager, [], [], pki.kubeControllerManager, pki.ca)), f');
      f' := CreateOrPatch(Key(Certificate, k.ns, pki.kubeScheduler), k,
        CertificateBody(CertificateSpec(Scheduler, [], [], pki.kubeScheduler, pki.ca)), f');
      f' := CreateOrPatch(Key(Certificate, k.ns, pki.konnectivity), k,
        CertificateBody(CertificateSpec(KonnectivityServer, [], [], pki.konnectivity, pki.ca)), f');
    }
  }

  class KubeAPIServerReconciler {
    const client: Client

    constructor (client: Client)
      ensures this.client == client
    {
      this.client := client;
    }

    method Reconcile(k: Key) returns (outcome: Outcome)
      requires k.kind == KubeAPIServer
      requires k in client.store ==> client.store[k].body.KasBody?
      modifies client
      ensures (client.store, outcome, client.calls)
           == ReconcileRun(old(client.store), k, client.oks, old(client.calls))
    {
      hide Finish, EGRESS_CONFIG, GenerateDeployment;
      var ok, read := client.Get(k);
      if !ok { return Failed; }
      if read.None? { return Done; }
      var kas := read.value.kas;
      ghost var f := Begin(client.store, k);

      var konnectivity, status;
      konnectivity, f := client.Fetch(f, Key(Secret, k.ns, kas.tls.konnectivity));
      if konnectivity.None? { return RequeueAfter; }

      ok, status, f := client.Apply(f, Key(Secret, k.ns, KubeconfigName(kas.tls.konnectivity)), k,
        KubeconfigSecret(SeenSecret(konnectivity), Https("kube-apiserver", 6443)));
      if !ok { return Failed; }

      ok, status, f := client.Apply(f, Key(ConfigMap, k.ns, EGRESS_CONFIG), k,
        ConfigMapBody(EgressSelectorConfiguration));
      if !ok { return Failed; }

      var open;
      open, f := CheckSecrets(k, kas, f);
      if !open { return RequeueAfter; }

      ok, status, f := client.Apply(f, Key(Deployment, k.ns, kas.deployment.name), k,
        DeploymentBody(GenerateDeployment(k.name, kas)));
      if !ok { return Failed; }
      Return(f, client.store, client.oks, client.calls);
      return Done;
    }

    // the CA, APIServer and ServiceAccounts gates
    method CheckSecrets(k: Key, kas: KasSpec, ghost f: Frame) returns (open: bool, ghost f': Frame)
      requires f.key == k && f.body == KasBody(kas) && f.pc == 3
      modifies client`calls
      ensures open ==> f' == f.(pc := 6)
      ensures open ==>
        Finish(f', client.store, client.oks, client.calls) == Finish(f, client.store, client.oks, old(client.calls))
      ensures !open ==>
        (client.store, RequeueAfter, client.calls) == Finish(f, client.store, client.oks, old(client.calls))
    {
      var secret;
      secret, f' := client.Fetch(f, Key(Secret, k.ns, kas.tls.ca));
      if secret.None? { return false, f'; }
      secret, f' := client.Fetch(f', Key(Secret, k.ns, kas.tls.kubeAPIServer));
      if secret.None? { return false, f'; }
      secret, f' := client.Fetch(f', Key(Secret, k.ns, kas.tls.serviceAccounts));
      if secret.None? { return false, f'; }
      return true, f';
    }
  }

  class KubeControllerManagerReconciler {
    const client: Client

    constructor (client: Client)
      ensures this.client == client
    {
      this.client := client;
    }

    method Reconcile(k: Key) returns (outcome: Outcome)
      requires k.kind == KubeControllerManager
      requires k in client.store ==> client.store[k].body.KcmBody?
      modifies client
      ensures (client.store, outcome, client.calls)
           == ReconcileRun(old(client.store), k, client.oks, old(client.calls))
    {
      hide Finish, KCM_NAME, KCM_KUBECONFIG, KcmWorkload;
      var ok, read := client.Get(k);
      if !ok { return Failed; }
      if read.None? { return Done; }
      var kcm := read.value.kcm;
      ghost var f := Begin(client.store, k);

      var keyPair, status;
      keyPair, f := CheckSecrets(k, kcm, f);
      if keyPair.None? { return RequeueAfter; }

      ok, status, f := client.Apply(f, Key(Secret, k.ns, KCM_KUBECONFIG), k,
        KubeconfigSecret(SeenSecret(keyPair), UrlOf(kcm.service)));
      if !ok { return Failed; }

      var workload := MakeWorkload(k.name, kcm);
      ok, status, f := client.Apply(f, Key(Deployment, k.ns, KCM_NAME), k, DeploymentBody(workload));
      if !ok { return Failed; }
      Return(f, client.store, client.oks, client.calls);
      return Done;
    }

    // the three gates; the first key pair is kept
    method CheckSecrets(k: Key, kcm: KcmSpec, ghost f: Frame) returns (keyPair: Option<Body>, ghost f': Frame)
      requires f.key == k && f.body == KcmBody(kcm) && f.pc == 0
      modifies client`calls
      ensures keyPair.Some? ==> f' == f.(pc := 3, seen := keyPair)
      ensures keyPair.Some? ==>
        Finish(f', client.store, client.oks, client.calls) == Finish(f, client.store, client.oks, old(client.calls))
      ensures keyPair.None? ==>
        (client.store, RequeueAfter, client.calls) == Finish(f, client.store, client.oks, old(client.calls))
    {
      keyPair, f' := client.Fetch(f, Key(Secret, k.ns, kcm.tls.kubeControllerManager));
      if keyPair.None? { return; }
      var secret;
      secret, f' := client.Fetch(f', Key(Secret, k.ns, kcm.tls.serviceAccounts));
      if secret.None? { return None, f'; }
      secret, f' := client.Fetch(f', Key(Secret, k.ns, kcm.tls.ca));
      if secret.None? { return None, f'; }
    }

    // the labels and spec assigned by the Deployment's closure
    method MakeWorkload(name: string, kcm: KcmSpec) returns (w: Workload)
      ensures w == KcmWorkload(name, kcm)
    {
      var labels := MakeLabels(KCM_NAME, name, kcm.deployment.labels);
      w := Workload(labels, kcm.deployment.replicas, labels, labels,
        map[
          KubeconfigVolume := SecretVolume(KCM_KUBECONFIG),
          ManagerVolume := SecretVolume(KCM_NAME),
          AccountsVolume := SecretVolume(SERVICE_ACCOUNTS),
          CaVolume := SecretVolume(kcm.tls.ca)],
        Image(KubeControllerManagerImage, kcm.version), NoArguments);
    }
  }

  class KubeSchedulerReconciler {
    const client: Client

    constructor (client: Client)
      ensures this.client == client
    {
      this.client := client;
    }

    method Reconcile(k: Key) returns (outcome: Outcome)
      requires k.kind == KubeScheduler
      requires k in client.store ==> client.store[k].body.KsBody?
      modifies client
      ensures (client.store, outcome, client.calls)
           == ReconcileRun(old(client.store), k, client.oks, old(client.calls))
    {
      hide Finish;
      var ok, read := client.Get(k);
      if !ok { return Failed; }
      if read.None? { return Done; }
      var ks := read.value.ks;
      ghost var f := Begin(client.store, k);

      var keyPair, status;
      keyPair, f := client.Fetch(f, Key(Secret, k.ns, ks.tls));
      if keyPair.None? { return RequeueAfter; }

      ok, status, f := client.Apply(f, Key(Secret, k.ns, KS_CONFIG), k,
        SchedulerSecret(SeenSecret(keyPair), UrlOf(ks.service)));
      if !ok { return Failed; }

      var workload := MakeWorkload(k.name, ks);
      ok, status, f := client.Apply(f, Key(Deployment, k.ns, KS_NAME), k, DeploymentBody(workload));
      if !ok { return Failed; }
      Return(f, client.store, client.oks, client.calls);
      return Done;
    }

    // the labels and spec assigned by the Deployment's closure
    method MakeWorkload(name: string, ks: KsSpec) returns (w: Workload)
      ensures w == KsWorkload(name, ks)
    {
      var labels := MakeLabels(KS_NAME, name, map[]);
      w := Workload(labels, ks.deployment.replicas, labels, labels,
        map[KubeconfigVolume := SecretVolume(KS_CONFIG), SchedulerVolume := SecretVolume(ks.tls)],
        Image(KubeSchedulerImage, ks.version), NoArguments);
    }
  }
}
