// What a control plane at rest consists of, object by object, from the user's spec, the
// assigned address and the issued key pairs alone.  The predicates name neither a program
// nor an equation: they are what the programs are for.
module Manifest {
  import opened Api
  import opened LabelMaps
  import opened Programs
  import opened Machine
  import opened Cells
  import opened Invariant
  import opened Convergence
  import opened Duties
  import opened Versions
  import opened Addresses
  import IdleComponents

  ghost predicate Stored(s: Store, kind: Kind, ns: string, name: string, body: Body) {
    BodyAt(s, Key(kind, ns, name)) == Some(body)
  }

  // The component's own version, or else the control plane's.
  function Tag(own: string, all: string): string {
    if own != "" then own else all
  }

  /******* Custom resources *******/

  // The component resources that a spec asks for; their key pairs are those of its Pki.
  function ServerSpec(cp: ControlPlaneSpec, ip: string): KasSpec {
    var kas, pki := cp.kubeAPIServer, cp.pki;
    KasSpec(
      Tag(kas.version, cp.version),
      kas.etcdServers,
      DeploymentSpec(kas.deployment.name, kas.deployment.replicas, kas.deployment.labels + cp.loadbalancer.selectors),
      KasTls(pki.ca, pki.kubeAPIServer.name, pki.serviceAccounts, pki.konnectivity),
      KasOptions(ip, kas.options.serviceClusterIpRange))
  }

  function ManagerSpec(cp: ControlPlaneSpec): KcmSpec {
    var kcm, pki := cp.kubeControllerManager, cp.pki;
    KcmSpec(
      Tag(kcm.version, cp.version),
      KcmTls(pki.ca, pki.kubeControllerManager, pki.serviceAccounts),
      kcm.deployment,
      kcm.service)
  }

  function SchedulerSpec(cp: ControlPlaneSpec): KsSpec {
    var ks := cp.kubeScheduler;
    KsSpec(Tag(ks.version, cp.version), ks.service, cp.pki.kubeScheduler, ks.deployment)
  }

  ghost predicate ResourcesStored(ns: string, name: string, cp: ControlPlaneSpec, ip: string, s: Store) {
    && Stored(s, Loadbalancer, ns, name, LoadbalancerBody(cp.loadbalancer))
    && Stored(s, LoadbalancerStatus, ns, name, LoadbalancerStatusBody(ip))
    && Stored(s, Pki, ns, name, PkiBody(cp.pki.(controlPlaneIP := ip)))
    && Stored(s, KubeAPIServer, ns, name, KasBody(ServerSpec(cp, ip)))
    && Stored(s, KubeControllerManager, ns, name, KcmBody(ManagerSpec(cp)))
    && Stored(s, KubeScheduler, ns, name, KsBody(SchedulerSpec(cp)))
  }

  /******* The load balancer's Service *******/

  function LabelAt(m: Labels, l: string): Option<string> {
    if l in m then Some(m[l]) else None
  }

  ghost predicate ServiceStored(ns: string, lb: LoadbalancerSpec, ingress: seq<string>, s: Store) {
    && Stored(s, ServiceStatus, ns, lb.name, ServiceStatusBody(ingress))
    && var b := BodyAt(s, Key(Service, ns, lb.name));
       && b.Some? && b.value.ServiceBody? && b.value.port == lb.port
       && forall l :: LabelAt(b.value.selector, l) ==
            if l in lb.selectors then Some(lb.selectors[l])
            else if l == "app.kubernetes.io/name" then Some("kube-apiserver")
            else None
  }

  /******* Issuers, certificates, key pairs *******/

  ghost predicate TrustStored(ns: string, pki: PkiSpec, ip: string, issued: seq<SecretData>, s: Store) {
    var server := pki.kubeAPIServer;
    && |issued| == 7
    && Stored(s, Issuer, ns, pki.name, IssuerBody(SelfSigned))
    && Stored(s, Issuer, ns, pki.ca, IssuerBody(SecretSigner(pki.ca)))
    && Certified(s, ns, CertificateSpec(RootAuthority, [], ["localhost"], pki.ca, pki.name), issued[0])
    && Certified(s, ns, CertificateSpec(ClusterAdmin, [], [], pki.admin, pki.ca), issued[1])
    && Certified(s, ns,
         CertificateSpec(ApiServer, server.ipAddresses + [ip], server.dnsNames + [ip], server.name, pki.ca), issued[2])
    && Certified(s, ns, CertificateSpec(ServiceAccountKeys, [], [], pki.serviceAccounts, pki.ca), issued[3])
    && Certified(s, ns, CertificateSpec(ControllerManager, [], [], pki.kubeControllerManager, pki.ca), issued[4])
    && Certified(s, ns, CertificateSpec(Scheduler, [], [], pki.kubeScheduler, pki.ca), issued[5])
    && Certified(s, ns, CertificateSpec(KonnectivityServer, [], [], pki.konnectivity, pki.ca), issued[6])
  }

  // A certificate is named like the secret that it asks for, and the secret holds the pair.
  ghost predicate Certified(s: Store, ns: string, spec: CertificateSpec, pair: SecretData) {
    && Stored(s, Certificate, ns, spec.secretName, CertificateBody(spec))
    && Stored(s, Secret, ns, spec.secretName, SecretBody(pair))
  }

  /******* Kubeconfigs and configuration *******/

  ghost predicate ConfigsStored(ns: string, cp: ControlPlaneSpec, ip: string, issued: seq<SecretData>, s: Store) {
    var kcm, ks := cp.kubeControllerManager.service, cp.kubeScheduler.service;
    && |issued| == 7
    && ConfigStored(s, ns, cp.pki.admin + "-kubeconfig", issued[1], ip, 6443)
    && ConfigStored(s, ns, cp.pki.konnectivity + "-kubeconfig", issued[6], "kube-apiserver", 6443)
    && ConfigStored(s, ns, "kube-controller-manager-kubeconfig", issued[4], kcm.name, kcm.port)
    && SchedulerConfigStored(s, ns, "kube-scheduler-config", issued[5], ks.name, ks.port)
    && Stored(s, ConfigMap, ns, "konnectivity-egress", ConfigMapBody(EgressSelectorConfiguration))
  }

  // Nothing but a kubeconfig.
  ghost predicate ConfigStored(s: Store, ns: string, name: string, pair: SecretData, host: string, port: nat) {
    var b := BodyAt(s, Key(Secret, ns, name));
    Presents(b, pair, host, port) && b.value.data.Keys == {KubeconfigYml}
  }

  // A kubeconfig and the scheduler's configuration.
  ghost predicate SchedulerConfigStored(s: Store, ns: string, name: string, pair: SecretData, host: string, port: nat) {
    var b := BodyAt(s, Key(Secret, ns, name));
    && Presents(b, pair, host, port) && b.value.data.Keys == {KubeconfigYml, ConfigJson}
    && b.value.data[ConfigJson] == SchedulerConfiguration
  }

  /******* Deployments *******/

  // The given labels, then instance and name.
  ghost predicate Labelled(m: Labels, given: Labels, component: string, instance: string) {
    forall l :: LabelAt(m, l) ==
      if l in given then Some(given[l])
      else if l == "app.kubernetes.io/instance" then Some(instance)
      else if l == "app.kubernetes.io/name" then Some(component)
      else None
  }

  // The Deployment and its pods are labelled alike, and it selects its own pods.
  ghost predicate Selects(w: Workload, given: Labels, component: string, instance: string) {
    && Labelled(w.labels, given, component, instance)
    && Labelled(w.podLabels, given, component, instance)
    && Labelled(w.selector, given, component, instance)
    && forall l :: l in w.selector ==> l in w.podLabels && w.podLabels[l] == w.selector[l]
  }

  ghost predicate ServerRuns(w: Workload, name: string, kas: KasSpec) {
    && Selects(w, kas.deployment.labels, "kube-apiserver", name)
    && w.replicas == kas.deployment.replicas
    && w.volumes == map[
         CaVolume := SecretVolume(kas.tls.ca),
         AccountsVolume := SecretVolume(kas.tls.serviceAccounts),
         ServerVolume := SecretVolume(kas.tls.kubeAPIServer),
         EgressVolume := ConfigMapVolume("konnectivity-egress"),
         KonnectivityVolume := SecretVolume(kas.tls.konnectivity + "-kubeconfig"),
         SocketVolume := EmptyDirVolume]
    && w.image == Image(KubeApiServerImage, kas.version)
    && w.arguments == ServerArguments(
         kas.deployment.replicas, kas.options.advertiseAddress, kas.options.serviceClusterIpRange, kas.etcdServers)
  }

  ghost predicate ManagerRuns(w: Workload, name: string, kcm: KcmSpec) {
    && Selects(w, kcm.deployment.labels, "kube-controller-manager", name)
    && w.replicas == kcm.deployment.replicas
    && w.volumes == map[
         KubeconfigVolume := SecretVolume("kube-controller-manager-kubeconfig"),
         ManagerVolume := SecretVolume("kube-controller-manager"),
         AccountsVolume := SecretVolume("service-accounts"),
         CaVolume := SecretVolume(kcm.tls.ca)]
    && w.image == Image(KubeControllerManagerImage, kcm.version)
    && w.arguments == NoArguments
  }

  // The scheduler's own labels are ignored.
  ghost predicate SchedulerRuns(w: Workload, name: string, ks: KsSpec) {
    && Selects(w, map[], "kube-scheduler", name)
    && w.replicas == ks.deployment.replicas
    && w.volumes == map[
         KubeconfigVolume := SecretVolume("kube-scheduler-config"),
         SchedulerVolume := SecretVolume(ks.tls)]
    && w.image == Image(KubeSchedulerImage, ks.version)
    && w.arguments == NoArguments
  }

  ghost predicate WorkloadsStored(ns: string, name: string, cp: ControlPlaneSpec, ip: string, s: Store) {
    var kas, kcm, ks := BodyAt(s, Key(Deployment, ns, cp.kubeAPIServer.deployment.name)),
      BodyAt(s, Key(Deployment, ns, "kube-controller-manager")), BodyAt(s, Key(Deployment, ns, "kube-scheduler"));
    && kas.Some? && kas.value.DeploymentBody? && ServerRuns(kas.value.workload, name, ServerSpec(cp, ip))
    && kcm.Some? && kcm.value.DeploymentBody? && ManagerRuns(kcm.value.workload, name, ManagerSpec(cp))
    && ks.Some? && ks.value.DeploymentBody? && SchedulerRuns(ks.value.workload, name, SchedulerSpec(cp))
  }

  /******* The keys *******/

  lemma ResourceNames(c: Config, cp: ControlPlaneSpec)
    requires WellFormed(c) && Conforms(c.id, cp)
    ensures KeyOf(c, LB) == Key(Loadbalancer, c.ns, c.name)
    ensures KeyOf(c, LB_STATUS) == Key(LoadbalancerStatus, c.ns, c.name)
    ensures KeyOf(c, PKI) == Key(Pki, c.ns, c.name) && KeyOf(c, KAS) == Key(KubeAPIServer, c.ns, c.name)
    ensures KeyOf(c, KCM) == Key(KubeControllerManager, c.ns, c.name)
    ensures KeyOf(c, KS) == Key(KubeScheduler, c.ns, c.name)
    ensures KeyOf(c, SERVICE) == Key(Service, c.ns, cp.loadbalancer.name)
    ensures KeyOf(c, INGRESS) == Key(ServiceStatus, c.ns, cp.loadbalancer.name)
  {
    hide SecretNames, Distinct, Coalesce, KCM_NAME, KS_NAME, EGRESS_CONFIG;
  }

  lemma ObjectNames(c: Config, cp: ControlPlaneSpec)
    requires WellFormed(c) && Conforms(c.id, cp)
    ensures KeyOf(c, KAS_DEPLOYMENT) == Key(Deployment, c.ns, cp.kubeAPIServer.deployment.name)
    ensures KeyOf(c, KCM_DEPLOYMENT) == Key(Deployment, c.ns, "kube-controller-manager")
    ensures KeyOf(c, KS_DEPLOYMENT) == Key(Deployment, c.ns, "kube-scheduler")
    ensures KeyOf(c, ROOT_ISSUER) == Key(Issuer, c.ns, cp.pki.name)
    ensures KeyOf(c, CA_ISSUER) == Key(Issuer, c.ns, cp.pki.ca)
    ensures KeyOf(c, EGRESS) == Key(ConfigMap, c.ns, "konnectivity-egress")
  {
    hide SecretNames, Distinct, Coalesce;
  }

  lemma ConfigNames(c: Config, cp: ControlPlaneSpec)
    requires WellFormed(c) && Conforms(c.id, cp)
    ensures KeyOf(c, ADMIN_KUBECONFIG) == Key(Secret, c.ns, cp.pki.admin + "-kubeconfig")
    ensures KeyOf(c, KONNECTIVITY_KUBECONFIG) == Key(Secret, c.ns, cp.pki.konnectivity + "-kubeconfig")
    ensures KeyOf(c, KCM_SECRET) == Key(Secret, c.ns, "kube-controller-manager-kubeconfig")
    ensures KeyOf(c, KS_SECRET) == Key(Secret, c.ns, "kube-scheduler-config")
  {
    hide Distinct, Coalesce;
  }

  // The names of the certificates and key pairs, in the order of the identity.
  function PairNames(pki: PkiSpec): seq<string> {
    [pki.ca, pki.admin, pki.kubeAPIServer.name, pki.serviceAccounts, pki.kubeControllerManager, pki.kubeScheduler,
     pki.konnectivity]
  }

  lemma CertificateNames(c: Config, cp: ControlPlaneSpec, j: nat)
    requires WellFormed(c) && Conforms(c.id, cp) && j < 7
    ensures SecretCell(j) < CELLS && CertCell(j) < CELLS
    ensures KeyOf(c, CertCell(j)) == Key(Certificate, c.ns, PairNames(cp.pki)[j])
    ensures KeyOf(c, SecretCell(j)) == Key(Secret, c.ns, PairNames(cp.pki)[j])
    ensures c.id.certs == PairNames(cp.pki) && c.id.rootIssuer == cp.pki.name
  {
    SecretOfCertificate(c, j);
    hide SecretNames, Distinct, Coalesce, NameOf;
  }

  /******* At the target *******/

  lemma TagIsFirst(own: string, all: string)
    ensures Coalesce([own, all]) == Tag(own, all)
  {
    var v := Coalesce([own, all]);
    assert [own, all][0] == own && [own, all][1] == all;
  }

  lemma TargetIsStored(c: Config, cp: ControlPlaneSpec, s: Store, i: nat, kind: Kind, name: string)
    requires WellFormed(c) && AtTarget(c, cp, s) && i < CELLS && KeyOf(c, i) == Key(kind, c.ns, name)
    ensures BodyAt(s, Key(kind, c.ns, name)) == Target(c, cp, i)
  {
    hide WellFormed, Target, KeyOf;
  }

  // The spec's TLS names are those of its Pki.
  predicate NamesAgree(cp: ControlPlaneSpec) {
    var pki := cp.pki;
    && cp.kubeAPIServer.tls == KasTls(pki.ca, pki.kubeAPIServer.name, pki.serviceAccounts, pki.konnectivity)
    && cp.kubeControllerManager.tls == KcmTls(pki.ca, pki.kubeControllerManager, pki.serviceAccounts)
    && cp.kubeScheduler.tls == pki.kubeScheduler
  }

  lemma ConformingNames(c: Config, cp: ControlPlaneSpec)
    requires WellFormed(c) && Conforms(c.id, cp)
    ensures NamesAgree(cp)
  {
    hide SecretNames, Distinct, Coalesce;
  }

  lemma Projections(cp: ControlPlaneSpec, ip: string)
    requires NamesAgree(cp)
    ensures KasFor(cp, ip) == ServerSpec(cp, ip) && KcmFor(cp) == ManagerSpec(cp) && KsFor(cp) == SchedulerSpec(cp)
  {
    hide Coalesce;
    TagIsFirst(cp.kubeAPIServer.version, cp.version);
    TagIsFirst(cp.kubeControllerManager.version, cp.version);
    TagIsFirst(cp.kubeScheduler.version, cp.version);
  }

  lemma TargetKeepsResources(c: Config, cp: ControlPlaneSpec, s: Store)
    requires WellFormed(c) && Addressed(c) && Conforms(c.id, cp) && AtTarget(c, cp, s)
    ensures ResourcesStored(c.ns, c.name, cp, c.ingress[0], s)
  {
    hide WellFormed, Target, KeyOf, AtTarget, Conforms, KasFor, KcmFor, KsFor, ServerSpec, ManagerSpec, SchedulerSpec,
      NamesAgree;
    ConformingNames(c, cp);
    Projections(cp, c.ingress[0]);
    ResourceNames(c, cp);
    TargetResources(c, cp);
    TargetStatus(c, cp);
    TargetIsStored(c, cp, s, LB, Loadbalancer, c.name);
    TargetIsStored(c, cp, s, LB_STATUS, LoadbalancerStatus, c.name);
    TargetIsStored(c, cp, s, PKI, Pki, c.name);
    TargetIsStored(c, cp, s, KAS, KubeAPIServer, c.name);
    TargetIsStored(c, cp, s, KCM, KubeControllerManager, c.name);
    TargetIsStored(c, cp, s, KS, KubeScheduler, c.name);
  }

  lemma TargetIngress(c: Config, cp: ControlPlaneSpec)
    requires WellFormed(c) && Addressed(c)
    ensures Target(c, cp, INGRESS) == Some(ServiceStatusBody(c.ingress))
  {
    hide WellFormed, Solution, DeriveTrust, DeriveComponent;
    SolutionAlive(c, cp, INGRESS);
    TargetDerives(c, cp, INGRESS);
    hide Target;
  }

  lemma TargetKeepsService(c: Config, cp: ControlPlaneSpec, s: Store)
    requires WellFormed(c) && Addressed(c) && Conforms(c.id, cp) && AtTarget(c, cp, s)
    ensures ServiceStored(c.ns, cp.loadbalancer, c.ingress, s)
  {
    hide WellFormed, Target, KeyOf, AtTarget, Conforms;
    ResourceNames(c, cp);
    TargetService(c, cp);
    TargetIngress(c, cp);
    TargetIsStored(c, cp, s, SERVICE, Service, cp.loadbalancer.name);
    TargetIsStored(c, cp, s, INGRESS, ServiceStatus, cp.loadbalancer.name);
  }

  lemma TargetIssuers(c: Config, cp: ControlPlaneSpec)
    requires WellFormed(c) && Addressed(c)
    ensures Target(c, cp, ROOT_ISSUER) == Some(IssuerBody(SelfSigned))
    ensures Target(c, cp, CA_ISSUER) == Some(IssuerBody(SecretSigner(c.id.certs[CA])))
  {
    SolutionAlive(c, cp, ROOT_ISSUER);
    SolutionAlive(c, cp, CA_ISSUER);
    TargetDerives(c, cp, ROOT_ISSUER);
    TargetDerives(c, cp, CA_ISSUER);
    hide WellFormed, Solution, Target, DeriveEndpoint, DeriveComponent;
  }

  lemma TargetCertificate(c: Config, cp: ControlPlaneSpec, j: nat)
    requires WellFormed(c) && Addressed(c) && j < 7
    ensures Target(c, cp, CertCell(j)) ==
      Some(CertificateBody(CertificateFor(c, cp.pki.(controlPlaneIP := c.ingress[0]), j)))
  {
    var i := CertCell(j);
    assert IsCert(i) && Which(i) == j;
    SolutionAlive(c, cp, i);
    TargetResources(c, cp);
    SolutionAt(c, cp, i, PKI);
    TargetDerives(c, cp, i);
    hide WellFormed, Solution, Target, DeriveEndpoint, DeriveComponent, CertificateFor;
  }

  lemma TargetCertifies(c: Config, cp: ControlPlaneSpec, s: Store, j: nat)
    requires WellFormed(c) && Addressed(c) && Conforms(c.id, cp) && AtTarget(c, cp, s) && j < 7
    ensures var spec := CertificateFor(c, cp.pki.(controlPlaneIP := c.ingress[0]), j);
      spec.secretName == PairNames(cp.pki)[j] && Certified(s, c.ns, spec, c.issued[j])
  {
    CertificateNames(c, cp, j);
    TargetCertificate(c, cp, j);
    TargetSecret(c, cp, j);
    TargetIsStored(c, cp, s, CertCell(j), Certificate, PairNames(cp.pki)[j]);
    TargetIsStored(c, cp, s, SecretCell(j), Secret, PairNames(cp.pki)[j]);
    hide WellFormed, Target, KeyOf, AtTarget, Conforms;
  }

  lemma TargetKeepsTrust(c: Config, cp: ControlPlaneSpec, s: Store)
    requires WellFormed(c) && Addressed(c) && Conforms(c.id, cp) && AtTarget(c, cp, s)
    ensures TrustStored(c.ns, cp.pki, c.ingress[0], c.issued, s)
  {
    assert |c.issued| == 7;
    hide WellFormed, Target, KeyOf, AtTarget, Conforms, Certified;
    ObjectNames(c, cp);
    TargetIssuers(c, cp);
    CertificateNames(c, cp, CA);
    TargetIsStored(c, cp, s, ROOT_ISSUER, Issuer, cp.pki.name);
    TargetIsStored(c, cp, s, CA_ISSUER, Issuer, cp.pki.ca);
    TargetCertifies(c, cp, s, CA);
    TargetCertifies(c, cp, s, ADMIN);
    TargetCertifies(c, cp, s, SERVER);
    TargetCertifies(c, cp, s, ACCOUNTS);
    TargetCertifies(c, cp, s, MANAGER);
    TargetCertifies(c, cp, s, SCHEDULER);
    TargetCertifies(c, cp, s, KONNECTIVITY);
  }

  lemma TargetEgress(c: Config, cp: ControlPlaneSpec)
    requires WellFormed(c) && Addressed(c)
    ensures Target(c, cp, EGRESS) == Some(ConfigMapBody(EgressSelectorConfiguration))
  {
    hide WellFormed, Solution, DeriveEndpoint, DeriveTrust, KubeconfigSecret;
    SolutionAlive(c, cp, EGRESS);
    TargetDerives(c, cp, EGRESS);
    hide Target;
  }

  lemma OnlyKubeconfig(s: Store, ns: string, name: string, pair: SecretData, server: Url)
    requires BodyAt(s, Key(Secret, ns, name)) == Some(KubeconfigSecret(pair, server))
    ensures ConfigStored(s, ns, name, pair, server.host, server.port)
  {
    KubeconfigPresents(KubeconfigSecret(pair, server), pair, server);
    hide Presents, GenerateKubeconfig;
  }

  lemma KubeconfigAndConfiguration(s: Store, ns: string, name: string, pair: SecretData, server: Url)
    requires BodyAt(s, Key(Secret, ns, name)) == Some(SchedulerSecret(pair, server))
    ensures SchedulerConfigStored(s, ns, name, pair, server.host, server.port)
  {
    KubeconfigPresents(SchedulerSecret(pair, server), pair, server);
    hide Presents, GenerateKubeconfig;
  }

  lemma TargetKeepsConfigs(c: Config, cp: ControlPlaneSpec, s: Store)
    requires WellFormed(c) && Addressed(c) && Conforms(c.id, cp) && AtTarget(c, cp, s)
    ensures ConfigsStored(c.ns, cp, c.ingress[0], c.issued, s)
  {
    assert |c.issued| == 7;
    hide WellFormed, Target, KeyOf, AtTarget, Conforms, BodyAt, KubeconfigSecret, SchedulerSecret, ConfigStored,
      SchedulerConfigStored;
    ConfigNames(c, cp);
    ObjectNames(c, cp);
    KubeconfigTargets(c, cp);
    TargetEgress(c, cp);
    var kcm, ks := UrlOf(cp.kubeControllerManager.service), UrlOf(cp.kubeScheduler.service);
    TargetIsStored(c, cp, s, ADMIN_KUBECONFIG, Secret, cp.pki.admin + "-kubeconfig");
    OnlyKubeconfig(s, c.ns, cp.pki.admin + "-kubeconfig", c.issued[ADMIN], Https(c.ingress[0], 6443));
    TargetIsStored(c, cp, s, KONNECTIVITY_KUBECONFIG, Secret, cp.pki.konnectivity + "-kubeconfig");
    OnlyKubeconfig(s, c.ns, cp.pki.konnectivity + "-kubeconfig", c.issued[KONNECTIVITY], Https("kube-apiserver", 6443));
    TargetIsStored(c, cp, s, KCM_SECRET, Secret, "kube-controller-manager-kubeconfig");
    OnlyKubeconfig(s, c.ns, "kube-controller-manager-kubeconfig", c.issued[MANAGER], kcm);
    TargetIsStored(c, cp, s, KS_SECRET, Secret, "kube-scheduler-config");
    KubeconfigAndConfiguration(s, c.ns, "kube-scheduler-config", c.issued[SCHEDULER], ks);
    TargetIsStored(c, cp, s, EGRESS, ConfigMap, "konnectivity-egress");
  }

  // Key by key, what the defaults overridden by the given labels are.
  lemma DefaultsAreLabelled(component: string, instance: string, given: Labels)
    ensures Labelled(WithDefaults(component, instance, given), given, component, instance)
  {
    forall l
      ensures LabelAt(WithDefaults(component, instance, given), l) == PodLabel(component, instance, given, l)
    {
      PodLabelAt(component, instance, given, l);
    }
    hide WithDefaults;
  }

  lemma GeneratedServer(name: string, kas: KasSpec)
    ensures ServerRuns(GenerateDeployment(name, kas), name, kas)
  {
    hide Labelled, WithDefaults;
    DefaultsAreLabelled("kube-apiserver", name, kas.deployment.labels);
  }

  lemma GeneratedManager(name: string, kcm: KcmSpec)
    ensures ManagerRuns(KcmWorkload(name, kcm), name, kcm)
  {
    hide Labelled, WithDefaults;
    DefaultsAreLabelled("kube-controller-manager", name, kcm.deployment.labels);
  }

  lemma GeneratedScheduler(name: string, ks: KsSpec)
    ensures SchedulerRuns(KsWorkload(name, ks), name, ks)
  {
    hide Labelled, WithDefaults;
    DefaultsAreLabelled("kube-scheduler", name, map[]);
  }

  lemma TargetKeepsWorkloads(c: Config, cp: ControlPlaneSpec, s: Store)
    requires WellFormed(c) && Addressed(c) && Conforms(c.id, cp) && AtTarget(c, cp, s)
    ensures WorkloadsStored(c.ns, c.name, cp, c.ingress[0], s)
  {
    hide WellFormed, Target, KeyOf, AtTarget, Conforms, BodyAt, ServerRuns, ManagerRuns, SchedulerRuns, NamesAgree,
      GenerateDeployment, KcmWorkload, KsWorkload, KasFor, KcmFor, KsFor, ServerSpec, ManagerSpec, SchedulerSpec;
    ObjectNames(c, cp);
    ConformingNames(c, cp);
    TargetWorkloads(c, cp);
    Projections(cp, c.ingress[0]);
    TargetIsStored(c, cp, s, KAS_DEPLOYMENT, Deployment, cp.kubeAPIServer.deployment.name);
    TargetIsStored(c, cp, s, KCM_DEPLOYMENT, Deployment, "kube-controller-manager");
    TargetIsStored(c, cp, s, KS_DEPLOYMENT, Deployment, "kube-scheduler");
    GeneratedServer(c.name, ServerSpec(cp, c.ingress[0]));
    GeneratedManager(c.name, ManagerSpec(cp));
    GeneratedScheduler(c.name, SchedulerSpec(cp));
  }

  /******* At rest *******/

  // After any run, once the control plane is at rest, the namespace holds what the current
  // spec, the address and the issued key pairs ask for, all of it.
  lemma RestIsManifest(c: Config, sys: Sys, es: seq<Event>)
    requires WellFormed(c) && Addressed(c) && ComesToRest(c, sys, es)
    ensures var s := Run(sys, es).store;
      && HasSpec(c, s)
      && var cp, ip := Spec(c, s), c.ingress[0];
         && ResourcesStored(c.ns, c.name, cp, ip, s)
         && ServiceStored(c.ns, cp.loadbalancer, c.ingress, s)
         && TrustStored(c.ns, cp.pki, ip, c.issued, s)
         && ConfigsStored(c.ns, cp, ip, c.issued, s)
         && WorkloadsStored(c.ns, c.name, cp, ip, s)
  {
    hide WellFormed, ComesToRest, HasSpec, Run, AtTarget, Spec, ResourcesStored, ServiceStored, TrustStored,
      ConfigsStored, WorkloadsStored, Conforms;
    RestIsTarget(c, sys, es);
    RestConforms(c, sys, es);
    var s := Run(sys, es).store;
    var cp := Spec(c, s);
    TargetKeepsResources(c, cp, s);
    TargetKeepsService(c, cp, s);
    TargetKeepsTrust(c, cp, s);
    TargetKeepsConfigs(c, cp, s);
    TargetKeepsWorkloads(c, cp, s);
  }

  // So the API server and the scheduler mount the key pairs that were issued to them.  The
  // controller manager mounts the CA, but its own key pair and the service-account keys
  // exactly when these bear one of the two names that its reconciler has fixed.
  lemma OwnVolumes(c: Config, cp: ControlPlaneSpec, w: Workload, name: string)
    requires WellFormed(c) && Conforms(c.id, cp) && ManagerRuns(w, name, ManagerSpec(cp))
    ensures w.volumes[CaVolume] == SecretVolume(cp.pki.ca)
    ensures SecretVolume(cp.pki.kubeControllerManager) in w.volumes.Values <==>
      cp.pki.kubeControllerManager in {"kube-controller-manager", "service-accounts"}
    ensures SecretVolume(cp.pki.serviceAccounts) in w.volumes.Values <==>
      cp.pki.serviceAccounts in {"kube-controller-manager", "service-accounts"}
  {
    assert cp.pki.ca != cp.pki.kubeControllerManager && cp.pki.ca != cp.pki.serviceAccounts
      && cp.pki.kubeControllerManager != "kube-controller-manager-kubeconfig"
      && cp.pki.serviceAccounts != "kube-controller-manager-kubeconfig" by {
      PairsAreApart(c, cp);
    }
    hide WellFormed, Conforms, Selects;
    assert w.volumes[KubeconfigVolume] == SecretVolume("kube-controller-manager-kubeconfig");
    assert w.volumes[ManagerVolume] == SecretVolume("kube-controller-manager");
    assert w.volumes[AccountsVolume] == SecretVolume("service-accounts");
    assert w.volumes.Keys == {KubeconfigVolume, ManagerVolume, AccountsVolume, CaVolume};
  }

  lemma PairsAreApart(c: Config, cp: ControlPlaneSpec)
    requires WellFormed(c) && Conforms(c.id, cp)
    ensures cp.pki.ca != cp.pki.kubeControllerManager && cp.pki.ca != cp.pki.serviceAccounts
    ensures cp.pki.kubeControllerManager != "kube-controller-manager-kubeconfig"
    ensures cp.pki.serviceAccounts != "kube-controller-manager-kubeconfig"
  {
    CertificateNames(c, cp, CA);
    var names := SecretNames(c.id);
    assert names[CA] == cp.pki.ca && names[MANAGER] == cp.pki.kubeControllerManager
        && names[ACCOUNTS] == cp.pki.serviceAccounts && names[9] == "kube-controller-manager-kubeconfig";
    assert names[CA] != names[MANAGER] && names[CA] != names[ACCOUNTS];
    assert names[MANAGER] != names[9] && names[ACCOUNTS] != names[9];
    hide SecretNames, Conforms, Distinct;
  }

  // In runs of any events, what an idle component's Deployment runs.
  lemma IdleComponentRuns(sys: Sys, es: seq<Event>, k: Key)
    requires IdleComponents.IsComponent(k.kind)
    requires IdleComponents.Heeded(sys, k) && IdleComponents.TypedAt(sys.store, k)
    requires forall i :: 0 <= i < |es| ==> IdleComponents.KeepsType(es[i], k)
    requires forall i :: 0 <= i <= |es| ==> IdleComponents.OwnedAt(Run(sys, es[..i]).store, k)
    requires var now := Run(sys, es);
      k in now.store && k !in now.running && k !in now.pending && k !in now.timers
    ensures var s := Run(sys, es).store;
      match s[k].body
      case KasBody(kas) =>
        exists w :: Stored(s, Deployment, k.ns, kas.deployment.name, DeploymentBody(w)) && ServerRuns(w, k.name, kas)
      case KcmBody(kcm) =>
        exists w ::
          Stored(s, Deployment, k.ns, "kube-controller-manager", DeploymentBody(w)) && ManagerRuns(w, k.name, kcm)
      case KsBody(ks) =>
        exists w :: Stored(s, Deployment, k.ns, "kube-scheduler", DeploymentBody(w)) && SchedulerRuns(w, k.name, ks)
      case _ => false
  {
    IdleComponents.IdleComponentIsCurrent(sys, es, k);
    hide Run, ServerRuns, ManagerRuns, SchedulerRuns, GenerateDeployment, KcmWorkload, KsWorkload;
    var s := Run(sys, es).store;
    match s[k].body
    case KasBody(kas) =>
      GeneratedServer(k.name, kas);
      assert Stored(s, Deployment, k.ns, kas.deployment.name, DeploymentBody(GenerateDeployment(k.name, kas)));
    case KcmBody(kcm) =>
      GeneratedManager(k.name, kcm);
      assert Stored(s, Deployment, k.ns, "kube-controller-manager", DeploymentBody(KcmWorkload(k.name, kcm)));
    case KsBody(ks) =>
      GeneratedScheduler(k.name, ks);
      assert Stored(s, Deployment, k.ns, "kube-scheduler", DeploymentBody(KsWorkload(k.name, ks)));
    case _ =>
  }
}
