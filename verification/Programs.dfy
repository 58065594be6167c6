// Every Reconcile, once it has read its custom resource, is a straight-line program of
// API calls.  Code gives the call at a program counter, Exec performs one call, and
// Finish runs a reconcile to its return.
module Programs {
  import opened Api
  import opened LabelMaps

  const EGRESS_CONFIG := "konnectivity-egress"
  const KCM_NAME := "kube-controller-manager"
  const KCM_KUBECONFIG := "kube-controller-manager-kubeconfig"
  const SERVICE_ACCOUNTS := "service-accounts"
  const KS_NAME := "kube-scheduler"
  const KS_CONFIG := "kube-scheduler-config"

  // No program is longer than this.
  const LAST := 12

  /******* Objects written by the reconcilers *******/

  function KubeconfigName(secret: string): string {
    secret + "-kubeconfig"
  }

  function KubeconfigSecret(tls: SecretData, server: Url): Body {
    SecretBody(map[KubeconfigYml := Marshalled(GenerateKubeconfig(tls, server))])
  }

  function SchedulerSecret(tls: SecretData, server: Url): Body {
    SecretBody(map[
      KubeconfigYml := Marshalled(GenerateKubeconfig(tls, server)),
      ConfigJson := SchedulerConfiguration])
  }

  function GenerateDeployment(name: string, kas: KasSpec): Workload {
    var l := WithDefaults("kube-apiserver", name, kas.deployment.labels);
    Workload(l, kas.deployment.replicas, l, l,
      map[
        CaVolume := SecretVolume(kas.tls.ca),
        AccountsVolume := SecretVolume(kas.tls.serviceAccounts),
        ServerVolume := SecretVolume(kas.tls.kubeAPIServer),
        EgressVolume := ConfigMapVolume(EGRESS_CONFIG),
        KonnectivityVolume := SecretVolume(KubeconfigName(kas.tls.konnectivity)),
        SocketVolume := EmptyDirVolume],
      Image(KubeApiServerImage, kas.version),
      ServerArguments(kas.deployment.replicas, kas.options.advertiseAddress,
        kas.options.serviceClusterIpRange, kas.etcdServers))
  }

  function KcmWorkload(name: string, kcm: KcmSpec): Workload {
    var l := WithDefaults(KCM_NAME, name, kcm.deployment.labels);
    Workload(l, kcm.deployment.replicas, l, l,
      map[
        KubeconfigVolume := SecretVolume(KCM_KUBECONFIG),
        ManagerVolume := SecretVolume(KCM_NAME),
        AccountsVolume := SecretVolume(SERVICE_ACCOUNTS),
        CaVolume := SecretVolume(kcm.tls.ca)],
      Image(KubeControllerManagerImage, kcm.version), NoArguments)
  }

  function KsWorkload(name: string, ks: KsSpec): Workload {
    var l := WithDefaults(KS_NAME, name, map[]);
    Workload(l, ks.deployment.replicas, l, l,
      map[KubeconfigVolume := SecretVolume(KS_CONFIG), SchedulerVolume := SecretVolume(ks.tls)],
      Image(KubeSchedulerImage, ks.version), NoArguments)
  }

  // The child specs projected out of a ControlPlane.
  function KasFor(cp: ControlPlaneSpec, ip: string): KasSpec {
    var kas := cp.kubeAPIServer;
    kas.(
      deployment := kas.deployment.(labels := kas.deployment.labels + cp.loadbalancer.selectors),
      options := kas.options.(advertiseAddress := ip),
      version := Coalesce([kas.version, cp.version]))
  }

  function KcmFor(cp: ControlPlaneSpec): KcmSpec {
    cp.kubeControllerManager.(version := Coalesce([cp.kubeControllerManager.version, cp.version]))
  }

  function KsFor(cp: ControlPlaneSpec): KsSpec {
    cp.kubeScheduler.(version := Coalesce([cp.kubeScheduler.version, cp.version]))
  }

  /******* Frames and actions *******/

  // A reconcile in progress: the custom resource as it was read, the program counter,
  // and the one object that later closures still look at (the Loadbalancer's or the
  // Service's status after its patch, or the key pair fetched at a gate).
  datatype Frame = Frame(key: Key, body: Body, status: Option<Body>, pc: nat, seen: Option<Body>)

  datatype Outcome = Done | RequeueAfter | Failed

  datatype Action =
    | Fetch(key: Key)
    | Apply(key: Key, body: Body, strict: bool)
    | Report(key: Key, body: Body)
    | Stop(outcome: Outcome)

  datatype Progress = Next(frame: Frame) | Halt(outcome: Outcome)

  // lb.Status.IP as read back by the ControlPlane reconciler
  function SeenIP(seen: Option<Body>): string {
    if seen.Some? && seen.value.LoadbalancerStatusBody? then seen.value.ip else ""
  }

  function SeenIngress(seen: Option<Body>): seq<string> {
    if seen.Some? && seen.value.ServiceStatusBody? then seen.value.ingress else []
  }

  function SeenSecret(seen: Option<Body>): SecretData {
    if seen.Some? && seen.value.SecretBody? then seen.value.data else map[]
  }

  function ControlPlaneCode(k: Key, cp: ControlPlaneSpec, pc: nat, seen: Option<Body>): (a: Action)
    ensures !a.Stop? ==> a.key.ns == k.ns
    ensures LAST <= pc ==> a.Stop?
  {
    match pc
    case 0 => Apply(Key(Loadbalancer, k.ns, k.name), LoadbalancerBody(cp.loadbalancer), true)
    case 1 => Apply(Key(Pki, k.ns, k.name), PkiBody(cp.pki.(controlPlaneIP := SeenIP(seen))), true)
    case 2 => Apply(Key(KubeAPIServer, k.ns, k.name), KasBody(KasFor(cp, SeenIP(seen))), true)
    case 3 => Apply(Key(KubeControllerManager, k.ns, k.name), KcmBody(KcmFor(cp)), true)
    case 4 => Apply(Key(KubeScheduler, k.ns, k.name), KsBody(KsFor(cp)), true)
    case _ => Stop(Done)
  }

  function LoadbalancerCode(k: Key, lb: LoadbalancerSpec, pc: nat, seen: Option<Body>): (a: Action)
    ensures !a.Stop? ==> a.key.ns == k.ns
    ensures LAST <= pc ==> a.Stop?
  {
    match pc
    case 0 => Apply(Key(Service, k.ns, lb.name), ServiceBody(lb.port, ServiceSelector(lb.selectors)), true)
    case 1 =>
      var ingress := SeenIngress(seen);
      if ingress != [] then Report(StatusKey(k), LoadbalancerStatusBody(ingress[0])) else Stop(Done)
    case _ => Stop(Done)
  }

  // The Pki reconciler drops the error of every CreateOrPatch.
  function PkiCode(k: Key, pki: PkiSpec, pc: nat, seen: Option<Body>): (a: Action)
    ensures !a.Stop? ==> a.key.ns == k.ns
    ensures LAST <= pc ==> a.Stop?
  {
    var ip := pki.controlPlaneIP;
    match pc
    case 0 => Apply(Key(Issuer, k.ns, pki.name), IssuerBody(SelfSigned), false)
    case 1 =>
      Apply(Key(Certificate, k.ns, pki.ca),
        CertificateBody(CertificateSpec(RootAuthority, [], ["localhost"], pki.ca, pki.name)), false)
    case 2 => Apply(Key(Issuer, k.ns, pki.ca), IssuerBody(SecretSigner(pki.ca)), false)
    case 3 =>
      Apply(Key(Certificate, k.ns, pki.admin),
        CertificateBody(CertificateSpec(ClusterAdmin, [], [], pki.admin, pki.ca)), false)
    case 4 => Fetch(Key(Secret, k.ns, pki.admin))
    case 5 =>
      Apply(Key(Secret, k.ns, KubeconfigName(pki.admin)),
        KubeconfigSecret(SeenSecret(seen), Https(ip, 6443)), false)
    case 6 =>
      if ip == "" then Stop(RequeueAfter)
      else
        Apply(Key(Certificate, k.ns, pki.kubeAPIServer.name),
          CertificateBody(CertificateSpec(ApiServer,
            pki.kubeAPIServer.ipAddresses + [ip], pki.kubeAPIServer.dnsNames + [ip],
            pki.kubeAPIServer.name, pki.ca)), false)
    case 7 =>
      Apply(Key(Certificate, k.ns, pki.serviceAccounts),
        CertificateBody(CertificateSpec(ServiceAccountKeys, [], [], pki.serviceAccounts, pki.ca)), false)
    case 8 =>
      Apply(Key(Certificate, k.ns, pki.kubeControllerManager),
        CertificateBody(CertificateSpec(ControllerManager, [], [], pki.kubeControllerManager, pki.ca)), false)
    case 9 =>
      Apply(Key(Certificate, k.ns, pki.kubeScheduler),
        CertificateBody(CertificateSpec(Scheduler, [], [],
          pki.kubeScheduler, pki.ca)), false)
    case 10 =>
      Apply(Key(Certificate, k.ns, pki.konnectivity),
        CertificateBody(CertificateSpec(KonnectivityServer, [], [], pki.konnectivity, pki.ca)), false)
    case _ => Stop(Done)
  }

  function KasCode(k: Key, kas: KasSpec, pc: nat, seen: Option<Body>): (a: Action)
    ensures !a.Stop? ==> a.key.ns == k.ns
    ensures LAST <= pc ==> a.Stop?
  {
    match pc
    case 0 => Fetch(Key(Secret, k.ns, kas.tls.konnectivity))
    case 1 =>
      Apply(Key(Secret, k.ns, KubeconfigName(kas.tls.konnectivity)),
        KubeconfigSecret(SeenSecret(seen), Https("kube-apiserver", 6443)), true)
    case 2 => Apply(Key(ConfigMap, k.ns, EGRESS_CONFIG), ConfigMapBody(EgressSelectorConfiguration), true)
    case 3 => Fetch(Key(Secret, k.ns, kas.tls.ca))
    case 4 => Fetch(Key(Secret, k.ns, kas.tls.kubeAPIServer))
    case 5 => Fetch(Key(Secret, k.ns, kas.tls.serviceAccounts))
    case 6 =>
      Apply(Key(Deployment, k.ns, kas.deployment.name), DeploymentBody(GenerateDeployment(k.name, kas)), true)
    case _ => Stop(Done)
  }

  function KcmCode(k: Key, kcm: KcmSpec, pc: nat, seen: Option<Body>): (a: Action)
    ensures !a.Stop? ==> a.key.ns == k.ns
    ensures LAST <= pc ==> a.Stop?
  {
    match pc
    case 0 => Fetch(Key(Secret, k.ns, kcm.tls.kubeControllerManager))
    case 1 => Fetch(Key(Secret, k.ns, kcm.tls.serviceAccounts))
    case 2 => Fetch(Key(Secret, k.ns, kcm.tls.ca))
    case 3 =>
      Apply(Key(Secret, k.ns, KCM_KUBECONFIG), KubeconfigSecret(SeenSecret(seen), UrlOf(kcm.service)), true)
    case 4 => Apply(Key(Deployment, k.ns, KCM_NAME), DeploymentBody(KcmWorkload(k.name, kcm)), true)
    case _ => Stop(Done)
  }

  function KsCode(k: Key, ks: KsSpec, pc: nat, seen: Option<Body>): (a: Action)
    ensures !a.Stop? ==> a.key.ns == k.ns
    ensures LAST <= pc ==> a.Stop?
  {
    match pc
    case 0 => Fetch(Key(Secret, k.ns, ks.tls))
    case 1 => Apply(Key(Secret, k.ns, KS_CONFIG), SchedulerSecret(SeenSecret(seen), UrlOf(ks.service)), true)
    case 2 => Apply(Key(Deployment, k.ns, KS_NAME), DeploymentBody(KsWorkload(k.name, ks)), true)
    case _ => Stop(Done)
  }

  function Code(f: Frame): (a: Action)
    ensures !a.Stop? ==> a.key.ns == f.key.ns
    ensures LAST <= f.pc ==> a.Stop?
  {
    match f.body
    case ControlPlaneBody(cp) => ControlPlaneCode(f.key, cp, f.pc, f.seen)
    case LoadbalancerBody(lb) => LoadbalancerCode(f.key, lb, f.pc, f.seen)
    case PkiBody(pki) => PkiCode(f.key, pki, f.pc, f.seen)
    case KasBody(kas) => KasCode(f.key, kas, f.pc, f.seen)
    case KcmBody(kcm) => KcmCode(f.key, kcm, f.pc, f.seen)
    case KsBody(ks) => KsCode(f.key, ks, f.pc, f.seen)
    case _ => Stop(Done)
  }

  // The call whose result later closures look at.
  function Remembered(body: Body): nat {
    if body.PkiBody? then 4 else 0
  }

  /******* The API server *******/

  // Empty names and changes of a Deployment's selector are rejected.
  predicate Admits(s: Store, k: Key, body: Body) {
    && k.name != ""
    && (k in s && s[k].body.DeploymentBody? && body.DeploymentBody? ==>
          body.workload.selector == s[k].body.workload.selector)
  }

  // controllerutil.CreateOrPatch: the fetch replaces the in-memory object, so an owner
  // set beforehand takes effect on creation only.
  function Put(s: Store, k: Key, owner: Option<Key>, body: Body): Store {
    s[k := Object(if k in s then s[k].owner else owner, body)]
  }

  function Begin(s: Store, k: Key): Frame
    requires k in s
  {
    Frame(k, s[k].body, if k.kind == Loadbalancer then BodyAt(s, StatusKey(k)) else None, 0, None)
  }

  function Advance(f: Frame, result: Option<Body>): Frame {
    f.(pc := f.pc + 1, seen := if f.pc == Remembered(f.body) then result else f.seen)
  }

  // Status().Update carries the resource version of the read, so it conflicts when the
  // custom resource has changed since.
  predicate Unchanged(f: Frame, s: Store) {
    f.key in s && s[f.key].body == f.body && BodyAt(s, StatusKey(f.key)) == f.status
  }

  // One API call; ok says whether the call itself goes through.
  function Exec(f: Frame, s: Store, ok: bool): (Store, Progress) {
    match Code(f)
    case Fetch(k) =>
      if ok && k in s then (s, Next(Advance(f, Some(s[k].body)))) else (s, Halt(RequeueAfter))
    case Apply(k, body, strict) =>
      if ok && Admits(s, k, body) then
        (Put(s, k, Some(f.key), body), Next(Advance(f, BodyAt(s, StatusKey(k)))))
      else if strict then (s, Halt(Failed))
      else (s, Next(Advance(f, None)))
    case Report(k, body) =>
      if ok && Unchanged(f, s) then (Put(s, k, None, body), Next(Advance(f, None))) else (s, Halt(Done))
    case Stop(outcome) => (s, Halt(outcome))
  }

  // A status update whose read has been overtaken changes nothing, and nobody is told.
  lemma StaleStatusIsRefused(f: Frame, s: Store, ok: bool)
    requires Code(f).Report?
    requires BodyAt(s, f.key) != Some(f.body) || BodyAt(s, StatusKey(f.key)) != f.status
    ensures Exec(f, s, ok) == (s, Halt(Done))
  {}

  // The rest of a reconcile without interference; call number n succeeds when oks(n).
  function Finish(f: Frame, s: Store, oks: nat -> bool, n: nat): (Store, Outcome, nat)
    decreases LAST - f.pc
  {
    if Code(f).Stop? then (s, Code(f).outcome, n)
    else
      var (s', progress) := Exec(f, s, oks(n));
      match progress
      case Halt(outcome) => (s', outcome, n + 1)
      case Next(f') => Finish(f', s', oks, n + 1)
  }

  // A whole failure-free reconcile of the custom resource at k.
  const ALWAYS: nat -> bool := n => true

  function Pass(s: Store, k: Key): Store {
    if k in s && Reconciled(k.kind) && Typed(k.kind, s[k].body)
    then Finish(Begin(s, k), s, ALWAYS, 0).0
    else s
  }
}
