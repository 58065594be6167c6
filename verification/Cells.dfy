// The objects that one ControlPlane gives rise to, as numbered cells in dependency order.
// Derive says what a cell should hold given only the cells before it; Target solves these
// equations.  This is the reference that the reconcilers' programs are measured against.
module Cells {
  import opened Api
  import opened LabelMaps
  import opened Programs

  /******* What must not change while a control plane settles *******/

  // The names that a ControlPlane spec hands to its components, and the pod labels that
  // become immutable selectors.
  datatype Identity = Identity(
    loadbalancer: string,
    rootIssuer: string,
    certs: seq<string>,
    kasDeployment: string,
    kasLabels: Labels,
    kcmLabels: Labels)

  // Positions in Identity.certs
  const CA := 0
  const ADMIN := 1
  const SERVER := 2
  const ACCOUNTS := 3
  const MANAGER := 4
  const SCHEDULER := 5
  const KONNECTIVITY := 6

  // One control plane of a namespace: its identity, the key pairs that cert-manager
  // issues for the seven certificates and the ingress of its Service.
  datatype Config = Config(ns: string, name: string, id: Identity, ingress: seq<string>, issued: seq<SecretData>)

  function SecretNames(id: Identity): seq<string>
    requires |id.certs| == 7
  {
    id.certs + [KubeconfigName(id.certs[ADMIN]), KubeconfigName(id.certs[KONNECTIVITY]), KCM_KUBECONFIG, KS_CONFIG]
  }

  predicate Distinct(names: seq<string>) {
    forall i, j :: 0 <= i < j < |names| ==> names[i] != names[j]
  }

  predicate WellFormed(c: Config) {
    && |c.id.certs| == 7 && |c.issued| == 7
    && c.name != "" && c.id.loadbalancer != "" && c.id.rootIssuer != "" && c.id.kasDeployment != ""
    && (forall i :: 0 <= i < 7 ==> c.id.certs[i] != "")
    && c.id.rootIssuer != c.id.certs[CA]
    && c.id.kasDeployment != KCM_NAME && c.id.kasDeployment != KS_NAME
    && Distinct(SecretNames(c.id))
  }

  // Specs that carry the identity.
  predicate PkiConforms(id: Identity, pki: PkiSpec)
    requires |id.certs| == 7
  {
    && pki.name == id.rootIssuer
    && [pki.ca, pki.admin, pki.kubeAPIServer.name, pki.serviceAccounts, pki.kubeControllerManager,
        pki.kubeScheduler, pki.konnectivity] == id.certs
  }

  predicate KasConforms(id: Identity, kas: KasSpec)
    requires |id.certs| == 7
  {
    && kas.deployment.name == id.kasDeployment
    && kas.deployment.labels == id.kasLabels
    && kas.tls == KasTls(id.certs[CA], id.certs[SERVER], id.certs[ACCOUNTS], id.certs[KONNECTIVITY])
  }

  predicate KcmConforms(id: Identity, kcm: KcmSpec)
    requires |id.certs| == 7
  {
    && kcm.deployment.labels == id.kcmLabels
    && kcm.tls == KcmTls(id.certs[CA], id.certs[MANAGER], id.certs[ACCOUNTS])
  }

  predicate Conforms(id: Identity, cp: ControlPlaneSpec)
    requires |id.certs| == 7
  {
    && cp.loadbalancer.name == id.loadbalancer
    && PkiConforms(id, cp.pki)
    && KasConforms(id, KasFor(cp, ""))
    && KcmConforms(id, KcmFor(cp))
    && cp.kubeScheduler.tls == id.certs[SCHEDULER]
  }

  // The identity of a spec; a spec whose TLS names match its Pki names conforms to it.
  function IdentityOf(cp: ControlPlaneSpec): (id: Identity)
    ensures |id.certs| == 7
    ensures Conforms(id, cp) <==>
      && cp.kubeAPIServer.tls ==
           KasTls(cp.pki.ca, cp.pki.kubeAPIServer.name, cp.pki.serviceAccounts, cp.pki.konnectivity)
      && cp.kubeControllerManager.tls == KcmTls(cp.pki.ca, cp.pki.kubeControllerManager, cp.pki.serviceAccounts)
      && cp.kubeScheduler.tls == cp.pki.kubeScheduler
  {
    Identity(cp.loadbalancer.name, cp.pki.name,
      [cp.pki.ca, cp.pki.admin, cp.pki.kubeAPIServer.name, cp.pki.serviceAccounts, cp.pki.kubeControllerManager,
       cp.pki.kubeScheduler, cp.pki.konnectivity],
      cp.kubeAPIServer.deployment.name,
      cp.kubeAPIServer.deployment.labels + cp.loadbalancer.selectors,
      cp.kubeControllerManager.deployment.labels)
  }

  /******* Cells *******/

  const LB := 0
  const SERVICE := 1
  const INGRESS := 2
  const LB_STATUS := 3
  const PKI := 4
  const KAS := 5
  const KCM := 6
  const KS := 7
  const ROOT_ISSUER := 8
  const CA_ISSUER := 9
  // certificate j is cell 10 + 2 * j, its secret the next one
  const CERTS := 10
  const ADMIN_KUBECONFIG := 24
  const KONNECTIVITY_KUBECONFIG := 25
  const EGRESS := 26
  const KAS_DEPLOYMENT := 27
  const KCM_SECRET := 28
  const KCM_DEPLOYMENT := 29
  const KS_SECRET := 30
  const KS_DEPLOYMENT := 31
  const CELLS := 32

  function CertCell(j: nat): nat { CERTS + 2 * j }
  function SecretCell(j: nat): nat { CERTS + 2 * j + 1 }

  predicate IsCert(i: nat) { CERTS <= i < ADMIN_KUBECONFIG && (i - CERTS) % 2 == 0 }
  predicate IsSecret(i: nat) { CERTS <= i < ADMIN_KUBECONFIG && (i - CERTS) % 2 == 1 }
  function Which(i: nat): nat requires CERTS <= i < ADMIN_KUBECONFIG { (i - CERTS) / 2 }

  function ControlPlaneKey(c: Config): Key { Key(ControlPlane, c.ns, c.name) }

  function KindOf(i: nat): Kind
    requires i < CELLS
  {
    if i == LB then Loadbalancer
    else if i == SERVICE then Service
    else if i == INGRESS then ServiceStatus
    else if i == LB_STATUS then LoadbalancerStatus
    else if i == PKI then Pki
    else if i == KAS then KubeAPIServer
    else if i == KCM then KubeControllerManager
    else if i == KS then KubeScheduler
    else if i == ROOT_ISSUER || i == CA_ISSUER then Issuer
    else if IsCert(i) then Certificate
    else if i == EGRESS then ConfigMap
    else if i == KAS_DEPLOYMENT || i == KCM_DEPLOYMENT || i == KS_DEPLOYMENT then Deployment
    else Secret
  }

  // Position of a secret cell in SecretNames
  function SecretIndex(i: nat): nat
    requires i < CELLS && KindOf(i) == Secret
  {
    if i < ADMIN_KUBECONFIG then Which(i)
    else if i == ADMIN_KUBECONFIG then 7
    else if i == KONNECTIVITY_KUBECONFIG then 8
    else if i == KCM_SECRET then 9
    else 10
  }

  function NameOf(c: Config, i: nat): string
    requires WellFormed(c) && i < CELLS
  {
    match KindOf(i)
    case Service => c.id.loadbalancer
    case ServiceStatus => c.id.loadbalancer
    case Issuer => if i == ROOT_ISSUER then c.id.rootIssuer else c.id.certs[CA]
    case Certificate => c.id.certs[Which(i)]
    case Secret => SecretNames(c.id)[SecretIndex(i)]
    case ConfigMap => EGRESS_CONFIG
    case Deployment =>
      if i == KAS_DEPLOYMENT then c.id.kasDeployment else if i == KCM_DEPLOYMENT then KCM_NAME else KS_NAME
    case _ => c.name
  }

  function KeyOf(c: Config, i: nat): Key
    requires WellFormed(c) && i < CELLS
  {
    Key(KindOf(i), c.ns, NameOf(c, i))
  }

  lemma DistinctKeys(c: Config, i: nat, j: nat)
    requires WellFormed(c) && i < CELLS && j < CELLS && i != j
    ensures KeyOf(c, i) != KeyOf(c, j)
  {
    assert KCM_NAME != KS_NAME by { assert |KCM_NAME| != |KS_NAME|; }
    hide KCM_NAME, KS_NAME, KCM_KUBECONFIG, KS_CONFIG, EGRESS_CONFIG, KubeconfigName;
    var names := SecretNames(c.id);
    if KindOf(i) == KindOf(j) == Secret {
      assert SecretIndex(i) != SecretIndex(j);
      assert names[SecretIndex(i)] != names[SecretIndex(j)];
    } else if KindOf(i) == KindOf(j) == Certificate {
      assert Which(i) != Which(j);
      assert names[Which(i)] == c.id.certs[Which(i)] && names[Which(j)] == c.id.certs[Which(j)];
      assert names[Which(i)] != names[Which(j)];
    }
  }

  lemma IngressKey(c: Config)
    requires WellFormed(c)
    ensures StatusKey(KeyOf(c, SERVICE)) == KeyOf(c, INGRESS)
  {
    hide SecretNames, Distinct;
  }

  function At(c: Config, s: Store, i: nat): Option<Body>
    requires WellFormed(c) && i < CELLS
  {
    BodyAt(s, KeyOf(c, i))
  }

  // What the store holds in the first n cells.
  function Prefix(c: Config, s: Store, n: nat): seq<Option<Body>>
    requires WellFormed(c) && n <= CELLS
  {
    seq(n, i requires 0 <= i < n => At(c, s, i))
  }

  /******* The dependency equations *******/

  // The seven certificates, as a table.
  function SubjectOf(j: nat): Subject {
    match j
    case 0 => RootAuthority
    case 1 => ClusterAdmin
    case 2 => ApiServer
    case 3 => ServiceAccountKeys
    case 4 => ControllerManager
    case 5 => Scheduler
    case _ => KonnectivityServer
  }

  function CertificateFor(c: Config, pki: PkiSpec, j: nat): CertificateSpec
    requires WellFormed(c) && j < 7
  {
    CertificateSpec(
      SubjectOf(j),
      if j == SERVER then pki.kubeAPIServer.ipAddresses + [pki.controlPlaneIP] else [],
      if j == CA then ["localhost"]
      else if j == SERVER then pki.kubeAPIServer.dnsNames + [pki.controlPlaneIP] else [],
      c.id.certs[j],
      if j == CA then c.id.rootIssuer else c.id.certs[CA])
  }

  // The body that cell i should have, from the earlier cells only; None while the gates
  // before it are closed.
  function Derive(c: Config, cp: ControlPlaneSpec, i: nat, p: seq<Option<Body>>): Option<Body>
    requires WellFormed(c) && i < CELLS && |p| == i
  {
    if i == LB then Some(LoadbalancerBody(cp.loadbalancer))
    else if i < PKI then DeriveEndpoint(c, i, p)
    else if i == PKI then Some(PkiBody(cp.pki.(controlPlaneIP := SeenIP(p[LB_STATUS]))))
    else if i == KAS then Some(KasBody(KasFor(cp, SeenIP(p[LB_STATUS]))))
    else if i == KCM then Some(KcmBody(KcmFor(cp)))
    else if i == KS then Some(KsBody(KsFor(cp)))
    else if i < ADMIN_KUBECONFIG then DeriveTrust(c, i, p)
    else DeriveComponent(c, i, p)
  }

  function DeriveEndpoint(c: Config, i: nat, p: seq<Option<Body>>): Option<Body>
    requires WellFormed(c) && LB < i < PKI && |p| == i
  {
    if i == SERVICE then
      if p[LB].Some? && p[LB].value.LoadbalancerBody?
      then Some(ServiceBody(p[LB].value.loadbalancer.port, ServiceSelector(p[LB].value.loadbalancer.selectors)))
      else None
    else if i == INGRESS then
      if p[SERVICE].Some? then Some(ServiceStatusBody(c.ingress)) else None
    else
      if p[LB].Some? && SeenIngress(p[INGRESS]) != []
      then Some(LoadbalancerStatusBody(SeenIngress(p[INGRESS])[0]))
      else None
  }

  function DeriveTrust(c: Config, i: nat, p: seq<Option<Body>>): Option<Body>
    requires WellFormed(c) && ROOT_ISSUER <= i < ADMIN_KUBECONFIG && |p| == i
  {
    if IsSecret(i) then
      if p[i - 1].Some? &&
         (if Which(i) == CA then p[ROOT_ISSUER].Some? else p[CA_ISSUER].Some? && p[SecretCell(CA)].Some?)
      then Some(SecretBody(c.issued[Which(i)]))
      else None
    else if !(p[PKI].Some? && p[PKI].value.PkiBody?) then None
    else if i == ROOT_ISSUER then Some(IssuerBody(SelfSigned))
    else if i == CA_ISSUER then Some(IssuerBody(SecretSigner(c.id.certs[CA])))
    else if Which(i) <= ADMIN || (p[SecretCell(ADMIN)].Some? && p[PKI].value.pki.controlPlaneIP != "") then
      Some(CertificateBody(CertificateFor(c, p[PKI].value.pki, Which(i))))
    else None
  }

  function DeriveComponent(c: Config, i: nat, p: seq<Option<Body>>): Option<Body>
    requires WellFormed(c) && ADMIN_KUBECONFIG <= i < CELLS && |p| == i
  {
    if i == ADMIN_KUBECONFIG then
      if p[PKI].Some? && p[PKI].value.PkiBody? && p[SecretCell(ADMIN)].Some?
      then Some(KubeconfigSecret(SeenSecret(p[SecretCell(ADMIN)]), Https(p[PKI].value.pki.controlPlaneIP, 6443)))
      else None
    else if i <= KAS_DEPLOYMENT then
      if !(p[KAS].Some? && p[KAS].value.KasBody? && p[SecretCell(KONNECTIVITY)].Some?) then None
      else if i == KONNECTIVITY_KUBECONFIG then
        Some(KubeconfigSecret(SeenSecret(p[SecretCell(KONNECTIVITY)]), Https("kube-apiserver", 6443)))
      else if i == EGRESS then Some(ConfigMapBody(EgressSelectorConfiguration))
      else if p[SecretCell(CA)].Some? && p[SecretCell(SERVER)].Some? && p[SecretCell(ACCOUNTS)].Some? then
        Some(DeploymentBody(GenerateDeployment(c.name, p[KAS].value.kas)))
      else None
    else if i <= KCM_DEPLOYMENT then
      if !(p[KCM].Some? && p[KCM].value.KcmBody? && p[SecretCell(MANAGER)].Some? &&
           p[SecretCell(ACCOUNTS)].Some? && p[SecretCell(CA)].Some?) then None
      else if i == KCM_SECRET then
        Some(KubeconfigSecret(SeenSecret(p[SecretCell(MANAGER)]), UrlOf(p[KCM].value.kcm.service)))
      else Some(DeploymentBody(KcmWorkload(c.name, p[KCM].value.kcm)))
    else
      if !(p[KS].Some? && p[KS].value.KsBody? && p[SecretCell(SCHEDULER)].Some?) then None
      else if i == KS_SECRET then
        Some(SchedulerSecret(SeenSecret(p[SecretCell(SCHEDULER)]), UrlOf(p[KS].value.ks.service)))
      else Some(DeploymentBody(KsWorkload(c.name, p[KS].value.ks)))
  }

  // The solution of the equations.
  function Solution(c: Config, cp: ControlPlaneSpec, n: nat): (p: seq<Option<Body>>)
    requires WellFormed(c) && n <= CELLS
    ensures |p| == n
  {
    if n == 0 then []
    else
      var p := Solution(c, cp, n - 1);
      p + [Derive(c, cp, n - 1, p)]
  }

  function Target(c: Config, cp: ControlPlaneSpec, i: nat): Option<Body>
    requires WellFormed(c) && i < CELLS
  {
    Derive(c, cp, i, Solution(c, cp, i))
  }

  // A sequence that satisfies the equations is the solution.
  lemma {:induction false} UniqueSolution(c: Config, cp: ControlPlaneSpec, p: seq<Option<Body>>)
    requires WellFormed(c) && |p| <= CELLS
    requires forall i :: 0 <= i < |p| ==> p[i] == Derive(c, cp, i, p[..i])
    ensures p == Solution(c, cp, |p|)
  {
    hide Derive, WellFormed;
    if p != [] {
      var n := |p| - 1;
      assert forall i :: 0 <= i < n ==> p[..n][..i] == p[..i];
      UniqueSolution(c, cp, p[..n]);
      assert p == p[..n] + [p[n]];
    }
  }

  lemma {:induction false} SolutionAt(c: Config, cp: ControlPlaneSpec, n: nat, i: nat)
    requires WellFormed(c) && i < n <= CELLS
    ensures Solution(c, cp, n)[i] == Target(c, cp, i)
    ensures Solution(c, cp, n)[..i] == Solution(c, cp, i)
  {
    hide Derive, WellFormed;
    if i < n - 1 {
      SolutionAt(c, cp, n - 1, i);
    }
  }
}
