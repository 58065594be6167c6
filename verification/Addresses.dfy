// What reaches whom in a settled control plane: one address everywhere, and each client
// with its own issued key pair.
module Addresses {
  import opened Api
  import opened LabelMaps
  import opened Programs
  import opened Machine
  import opened Cells
  import opened Invariant
  import opened Convergence
  import opened Duties
  import opened Wakeup
  import opened Repose
  import opened Versions

  /******* The target of the certificates and kubeconfigs *******/

  lemma TargetSecret(c: Config, cp: ControlPlaneSpec, j: nat)
    requires WellFormed(c) && Addressed(c) && j < 7
    ensures Target(c, cp, SecretCell(j)) == Some(SecretBody(c.issued[j]))
  {
    var i := SecretCell(j);
    assert IsSecret(i) && Which(i) == j;
    SolutionAlive(c, cp, i);
    hide WellFormed, Solution, DeriveEndpoint, DeriveComponent;
  }

  lemma TargetStatus(c: Config, cp: ControlPlaneSpec)
    requires WellFormed(c) && Addressed(c)
    ensures Target(c, cp, LB_STATUS) == Some(LoadbalancerStatusBody(Address(c)))
  {
    SolutionAlive(c, cp, LB_STATUS);
    hide WellFormed, Solution, DeriveTrust, DeriveComponent;
  }

  lemma TargetServerCertificate(c: Config, cp: ControlPlaneSpec)
    requires WellFormed(c) && Addressed(c)
    ensures Target(c, cp, CertCell(SERVER)) == Some(CertificateBody(CertificateSpec(ApiServer,
      cp.pki.kubeAPIServer.ipAddresses + [Address(c)], cp.pki.kubeAPIServer.dnsNames + [Address(c)],
      c.id.certs[SERVER], c.id.certs[CA])))
  {
    var i := CertCell(SERVER);
    SolutionAlive(c, cp, i);
    TargetResources(c, cp);
    SolutionAt(c, cp, i, PKI);
    hide WellFormed, Solution, DeriveEndpoint, DeriveComponent;
  }

  // The kubeconfig of a secret presents a key pair to https://host:port: its certificate
  // followed by the authority, its key, and the authority to check the server by.
  ghost predicate Presents(b: Option<Body>, pair: SecretData, host: string, port: nat) {
    && b.Some? && b.value.SecretBody? && KubeconfigYml in b.value.data && b.value.data[KubeconfigYml].Marshalled?
    && var k := b.value.data[KubeconfigYml].config;
       && k.server.host == host && k.server.port == port
       && forall crt, key, ca ::
            Holds(pair, TlsCrt, crt) && Holds(pair, TlsKey, key) && Holds(pair, CaCrt, ca) ==>
              k.clientCertificate == crt + ca && k.clientKey == key && k.authority == ca
  }

  lemma KubeconfigPresents(b: Body, pair: SecretData, server: Url)
    requires b.SecretBody? && KubeconfigYml in b.data
    requires b.data[KubeconfigYml] == Marshalled(GenerateKubeconfig(pair, server))
    ensures Presents(Some(b), pair, server.host, server.port)
  {
    hide Holds, GenerateKubeconfig;
    forall crt, key, ca | Holds(pair, TlsCrt, crt) && Holds(pair, TlsKey, key) && Holds(pair, CaCrt, ca)
      ensures var k := b.data[KubeconfigYml].config;
        && k.server == server
        && k.clientCertificate == crt + ca && k.clientKey == key && k.authority == ca
    {
      KubeconfigContents(pair, server, crt, key, ca);
    }
    SameServer(pair, server);
  }

  lemma SameServer(pair: SecretData, server: Url)
    ensures GenerateKubeconfig(pair, server).server == server
  {}

  // What the four secrets with kubeconfigs hold.
  lemma KubeconfigTargets(c: Config, cp: ControlPlaneSpec)
    requires WellFormed(c) && Addressed(c)
    ensures Target(c, cp, ADMIN_KUBECONFIG) == Some(KubeconfigSecret(c.issued[ADMIN], Https(Address(c), 6443)))
    ensures Target(c, cp, KONNECTIVITY_KUBECONFIG)
         == Some(KubeconfigSecret(c.issued[KONNECTIVITY], Https("kube-apiserver", 6443)))
    ensures Target(c, cp, KCM_SECRET)
         == Some(KubeconfigSecret(c.issued[MANAGER], UrlOf(cp.kubeControllerManager.service)))
    ensures Target(c, cp, KS_SECRET) == Some(SchedulerSecret(c.issued[SCHEDULER], UrlOf(cp.kubeScheduler.service)))
  {
    AdminTarget(c, cp);
    KonnectivityTarget(c, cp);
    ManagerTarget(c, cp);
    SchedulerTarget(c, cp);
    hide WellFormed, Target, KubeconfigSecret, SchedulerSecret;
  }

  lemma TargetKubeconfigs(c: Config, cp: ControlPlaneSpec)
    requires WellFormed(c) && Addressed(c)
    ensures Presents(Target(c, cp, ADMIN_KUBECONFIG), c.issued[ADMIN], c.ingress[0], 6443)
    ensures Presents(Target(c, cp, KONNECTIVITY_KUBECONFIG), c.issued[KONNECTIVITY], "kube-apiserver", 6443)
    ensures var service := cp.kubeControllerManager.service;
      Presents(Target(c, cp, KCM_SECRET), c.issued[MANAGER], service.name, service.port)
    ensures var service := cp.kubeScheduler.service;
      Presents(Target(c, cp, KS_SECRET), c.issued[SCHEDULER], service.name, service.port)
  {
    KubeconfigTargets(c, cp);
    var kcm, ks := UrlOf(cp.kubeControllerManager.service), UrlOf(cp.kubeScheduler.service);
    KubeconfigPresents(Target(c, cp, ADMIN_KUBECONFIG).value, c.issued[ADMIN], Https(Address(c), 6443));
    KubeconfigPresents(Target(c, cp, KONNECTIVITY_KUBECONFIG).value, c.issued[KONNECTIVITY],
      Https("kube-apiserver", 6443));
    KubeconfigPresents(Target(c, cp, KCM_SECRET).value, c.issued[MANAGER], kcm);
    KubeconfigPresents(Target(c, cp, KS_SECRET).value, c.issued[SCHEDULER], ks);
    hide Presents, Target, GenerateKubeconfig;
  }

  lemma AdminTarget(c: Config, cp: ControlPlaneSpec)
    requires WellFormed(c) && Addressed(c)
    ensures Target(c, cp, ADMIN_KUBECONFIG) == Some(KubeconfigSecret(c.issued[ADMIN], Https(Address(c), 6443)))
  {
    hide WellFormed, Solution, DeriveEndpoint, DeriveTrust;
    SolutionAlive(c, cp, ADMIN_KUBECONFIG);
    TargetResources(c, cp);
    TargetSecret(c, cp, ADMIN);
    SolutionAt(c, cp, ADMIN_KUBECONFIG, PKI);
    SolutionAt(c, cp, ADMIN_KUBECONFIG, SecretCell(ADMIN));
    TargetDerives(c, cp, ADMIN_KUBECONFIG);
    hide Target;
  }

  lemma KonnectivityTarget(c: Config, cp: ControlPlaneSpec)
    requires WellFormed(c) && Addressed(c)
    ensures Target(c, cp, KONNECTIVITY_KUBECONFIG)
         == Some(KubeconfigSecret(c.issued[KONNECTIVITY], Https("kube-apiserver", 6443)))
  {
    hide WellFormed, Solution, DeriveEndpoint, DeriveTrust;
    SolutionAlive(c, cp, KONNECTIVITY_KUBECONFIG);
    TargetResources(c, cp);
    TargetSecret(c, cp, KONNECTIVITY);
    SolutionAt(c, cp, KONNECTIVITY_KUBECONFIG, KAS);
    SolutionAt(c, cp, KONNECTIVITY_KUBECONFIG, SecretCell(KONNECTIVITY));
    TargetDerives(c, cp, KONNECTIVITY_KUBECONFIG);
    hide Target;
  }

  lemma ManagerTarget(c: Config, cp: ControlPlaneSpec)
    requires WellFormed(c) && Addressed(c)
    ensures Target(c, cp, KCM_SECRET)
         == Some(KubeconfigSecret(c.issued[MANAGER], UrlOf(cp.kubeControllerManager.service)))
  {
    hide WellFormed, Solution, DeriveEndpoint, DeriveTrust;
    SolutionAlive(c, cp, KCM_SECRET);
    TargetResources(c, cp);
    TargetSecret(c, cp, MANAGER);
    SolutionAt(c, cp, KCM_SECRET, KCM);
    SolutionAt(c, cp, KCM_SECRET, SecretCell(MANAGER));
    TargetDerives(c, cp, KCM_SECRET);
    hide Target;
  }

  lemma SchedulerTarget(c: Config, cp: ControlPlaneSpec)
    requires WellFormed(c) && Addressed(c)
    ensures Target(c, cp, KS_SECRET) == Some(SchedulerSecret(c.issued[SCHEDULER], UrlOf(cp.kubeScheduler.service)))
  {
    hide WellFormed, Solution, DeriveEndpoint, DeriveTrust;
    SolutionAlive(c, cp, KS_SECRET);
    TargetResources(c, cp);
    TargetSecret(c, cp, SCHEDULER);
    SolutionAt(c, cp, KS_SECRET, KS);
    SolutionAt(c, cp, KS_SECRET, SecretCell(SCHEDULER));
    TargetDerives(c, cp, KS_SECRET);
    hide Target;
  }

  /******* At rest *******/

  lemma AtTargetAt(c: Config, cp: ControlPlaneSpec, s: Store, i: nat)
    requires WellFormed(c) && AtTarget(c, cp, s) && i < CELLS
    ensures At(c, s, i) == Target(c, cp, i)
  {}

  // The provider's first address is the one in the load balancer's status, in the Pki, in
  // the admin kubeconfig, in the API server's certificate and in its arguments, next to
  // the settings of the current spec.
  lemma OneAddressEverywhere(c: Config, sys: Sys, es: seq<Event>)
    requires WellFormed(c) && Addressed(c) && ComesToRest(c, sys, es)
    ensures var s, ip := Run(sys, es).store, c.ingress[0];
      && HasSpec(c, s)
      && var cp := Spec(c, s);
         && At(c, s, LB_STATUS) == Some(LoadbalancerStatusBody(ip))
         && At(c, s, PKI) == Some(PkiBody(cp.pki.(controlPlaneIP := ip)))
         && Presents(At(c, s, ADMIN_KUBECONFIG), c.issued[ADMIN], ip, 6443)
         && var cert, pods := At(c, s, CertCell(SERVER)), At(c, s, KAS_DEPLOYMENT);
            && cert.Some? && cert.value.CertificateBody? && pods.Some? && pods.value.DeploymentBody?
            && cert.value.certificate.ipAddresses == cp.pki.kubeAPIServer.ipAddresses + [ip]
            && cert.value.certificate.dnsNames == cp.pki.kubeAPIServer.dnsNames + [ip]
            && pods.value.workload.arguments ==
                 ServerArguments(cp.kubeAPIServer.deployment.replicas, ip,
                   cp.kubeAPIServer.options.serviceClusterIpRange, cp.kubeAPIServer.etcdServers)
            && pods.value.workload.replicas == cp.kubeAPIServer.deployment.replicas
  {
    hide WellFormed, ComesToRest, HasSpec, Spec, Run, At, Target, Presents, AtTarget, Coalesce, CertCell;
    RestIsTarget(c, sys, es);
    var s := Run(sys, es).store;
    var cp := Spec(c, s);
    TargetStatus(c, cp);
    TargetResources(c, cp);
    TargetKubeconfigs(c, cp);
    TargetServerCertificate(c, cp);
    TargetWorkloads(c, cp);
    CertificateIsCell();
    AtTargetAt(c, cp, s, LB_STATUS);
    AtTargetAt(c, cp, s, PKI);
    AtTargetAt(c, cp, s, ADMIN_KUBECONFIG);
    AtTargetAt(c, cp, s, CertCell(SERVER));
    AtTargetAt(c, cp, s, KAS_DEPLOYMENT);
  }

  lemma CertificateIsCell()
    ensures CertCell(SERVER) < CELLS
  {}

  // Each kubeconfig presents the key pair that was issued to its client, to its server.
  lemma OwnKeyPairs(c: Config, sys: Sys, es: seq<Event>)
    requires WellFormed(c) && Addressed(c) && ComesToRest(c, sys, es)
    ensures var s := Run(sys, es).store;
      && HasSpec(c, s)
      && var kcm, ks := Spec(c, s).kubeControllerManager.service, Spec(c, s).kubeScheduler.service;
         && Presents(At(c, s, ADMIN_KUBECONFIG), c.issued[ADMIN], c.ingress[0], 6443)
         && Presents(At(c, s, KONNECTIVITY_KUBECONFIG), c.issued[KONNECTIVITY], "kube-apiserver", 6443)
         && Presents(At(c, s, KCM_SECRET), c.issued[MANAGER], kcm.name, kcm.port)
         && Presents(At(c, s, KS_SECRET), c.issued[SCHEDULER], ks.name, ks.port)
  {
    hide WellFormed, ComesToRest, HasSpec, Spec, Run, At, Target, Presents, AtTarget;
    RestIsTarget(c, sys, es);
    var s := Run(sys, es).store;
    TargetKubeconfigs(c, Spec(c, s));
    AtTargetAt(c, Spec(c, s), s, ADMIN_KUBECONFIG);
    AtTargetAt(c, Spec(c, s), s, KONNECTIVITY_KUBECONFIG);
    AtTargetAt(c, Spec(c, s), s, KCM_SECRET);
    AtTargetAt(c, Spec(c, s), s, KS_SECRET);
  }

  lemma RestConforms(c: Config, sys: Sys, es: seq<Event>)
    requires WellFormed(c) && ComesToRest(c, sys, es)
    ensures HasSpec(c, Run(sys, es).store) && Conforms(c.id, Spec(c, Run(sys, es).store))
  {
    hide WellFormed, Awake, AllReported, Quiet, EnvironmentDone, Run, RECONCILED, Conforms, Consistent, Passing;
    RunAwake(c, sys, es, RECONCILED);
    AwakeHasSpec(c, Run(sys, es));
    ConsistentStore(c, Run(sys, es));
  }
}
