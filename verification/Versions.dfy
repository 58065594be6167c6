// What a settled control plane looks like: one image tag per component, pods that the
// load balancer reaches, and edits of versions that no selector notices.
module Versions {
  import opened Api
  import opened LabelMaps
  import opened Programs
  import opened Machine
  import opened Cells
  import opened Convergence
  import opened Duties
  import opened Wakeup
  import opened Repose

  const COMPONENTS: set<Kind> := {KubeAPIServer, KubeControllerManager, KubeScheduler}

  // The Deployment of a component.
  function DeploymentCell(kind: Kind): nat
    requires kind in COMPONENTS
  {
    if kind == KubeAPIServer then KAS_DEPLOYMENT
    else if kind == KubeControllerManager then KCM_DEPLOYMENT
    else KS_DEPLOYMENT
  }

  /******* The target, spelled out *******/

  function Address(c: Config): string
    requires Addressed(c)
  {
    c.ingress[0]
  }

  lemma TargetResources(c: Config, cp: ControlPlaneSpec)
    requires WellFormed(c) && Addressed(c)
    ensures Target(c, cp, LB) == Some(LoadbalancerBody(cp.loadbalancer))
    ensures Target(c, cp, PKI) == Some(PkiBody(cp.pki.(controlPlaneIP := Address(c))))
    ensures Target(c, cp, KAS) == Some(KasBody(KasFor(cp, Address(c))))
    ensures Target(c, cp, KCM) == Some(KcmBody(KcmFor(cp)))
    ensures Target(c, cp, KS) == Some(KsBody(KsFor(cp)))
  {
    SolutionAlive(c, cp, PKI);
    SolutionAlive(c, cp, KAS);
    hide WellFormed, Solution, DeriveEndpoint, DeriveTrust, DeriveComponent, KasFor, KcmFor, KsFor;
  }

  lemma TargetService(c: Config, cp: ControlPlaneSpec)
    requires WellFormed(c) && Addressed(c)
    ensures Target(c, cp, SERVICE)
         == Some(ServiceBody(cp.loadbalancer.port, ServiceSelector(cp.loadbalancer.selectors)))
  {
    TargetResources(c, cp);
    SolutionAt(c, cp, SERVICE, LB);
    hide WellFormed, Solution, DeriveTrust, DeriveComponent, ServiceSelector;
  }

  lemma TargetServer(c: Config, cp: ControlPlaneSpec)
    requires WellFormed(c) && Addressed(c)
    ensures Target(c, cp, KAS_DEPLOYMENT) == Some(DeploymentBody(GenerateDeployment(c.name, KasFor(cp, Address(c)))))
  {
    hide WellFormed, Solution, DeriveTrust, DeriveEndpoint, GenerateDeployment, KcmWorkload, KsWorkload, KasFor,
      KcmFor, KsFor, EGRESS_CONFIG, KCM_KUBECONFIG, KS_CONFIG, KubeconfigSecret, SchedulerSecret;
    TargetResources(c, cp);
    SolutionAlive(c, cp, KAS_DEPLOYMENT);
    SolutionAt(c, cp, KAS_DEPLOYMENT, KAS);
    TargetDerives(c, cp, KAS_DEPLOYMENT);
    hide Target, Typed;
  }

  lemma TargetManager(c: Config, cp: ControlPlaneSpec)
    requires WellFormed(c) && Addressed(c)
    ensures Target(c, cp, KCM_DEPLOYMENT) == Some(DeploymentBody(KcmWorkload(c.name, KcmFor(cp))))
  {
    hide WellFormed, Solution, DeriveTrust, DeriveEndpoint, GenerateDeployment, KcmWorkload, KsWorkload, KasFor,
      KcmFor, KsFor, EGRESS_CONFIG, KCM_KUBECONFIG, KS_CONFIG, KubeconfigSecret, SchedulerSecret;
    TargetResources(c, cp);
    SolutionAlive(c, cp, KCM_DEPLOYMENT);
    SolutionAt(c, cp, KCM_DEPLOYMENT, KCM);
    TargetDerives(c, cp, KCM_DEPLOYMENT);
    hide Target, Typed;
  }

  lemma TargetScheduler(c: Config, cp: ControlPlaneSpec)
    requires WellFormed(c) && Addressed(c)
    ensures Target(c, cp, KS_DEPLOYMENT) == Some(DeploymentBody(KsWorkload(c.name, KsFor(cp))))
  {
    hide WellFormed, Solution, DeriveTrust, DeriveEndpoint, GenerateDeployment, KcmWorkload, KsWorkload, KasFor,
      KcmFor, KsFor, EGRESS_CONFIG, KCM_KUBECONFIG, KS_CONFIG, KubeconfigSecret, SchedulerSecret;
    TargetResources(c, cp);
    SolutionAlive(c, cp, KS_DEPLOYMENT);
    SolutionAt(c, cp, KS_DEPLOYMENT, KS);
    TargetDerives(c, cp, KS_DEPLOYMENT);
    hide Target, Typed;
  }

  // The three workloads of a settled control plane.
  lemma TargetWorkloads(c: Config, cp: ControlPlaneSpec)
    requires WellFormed(c) && Addressed(c)
    ensures Target(c, cp, KAS_DEPLOYMENT) == Some(DeploymentBody(GenerateDeployment(c.name, KasFor(cp, Address(c)))))
    ensures Target(c, cp, KCM_DEPLOYMENT) == Some(DeploymentBody(KcmWorkload(c.name, KcmFor(cp))))
    ensures Target(c, cp, KS_DEPLOYMENT) == Some(DeploymentBody(KsWorkload(c.name, KsFor(cp))))
  {
    TargetServer(c, cp);
    TargetManager(c, cp);
    TargetScheduler(c, cp);
  }

  /******* Version synchronisation *******/

  // What a component runs: its own version, else that of the control plane.
  function EffectiveVersion(cp: ControlPlaneSpec, kind: Kind): string {
    match kind
    case KubeAPIServer => Coalesce([cp.kubeAPIServer.version, cp.version])
    case KubeControllerManager => Coalesce([cp.kubeControllerManager.version, cp.version])
    case _ => Coalesce([cp.kubeScheduler.version, cp.version])
  }

  function TagAt(c: Config, s: Store, kind: Kind): Option<string>
    requires WellFormed(c) && kind in COMPONENTS
  {
    var b := At(c, s, DeploymentCell(kind));
    if b.Some? && b.value.DeploymentBody? then Some(b.value.workload.image.tag) else None
  }

  // A run from a covered state, through edits, failures, restarts and interference with the
  // watched objects, to a state in which nobody has anything left to do.
  ghost predicate ComesToRest(c: Config, sys: Sys, es: seq<Event>)
    requires WellFormed(c)
  {
    && Awake(c, sys, RECONCILED) && AllReported(c, sys, es, RECONCILED)
    && Quiet(c, Run(sys, es)) && EnvironmentDone(c, Run(sys, es).store)
  }

  lemma RestIsTarget(c: Config, sys: Sys, es: seq<Event>)
    requires WellFormed(c) && Addressed(c) && ComesToRest(c, sys, es)
    ensures HasSpec(c, Run(sys, es).store) && AtTarget(c, Spec(c, Run(sys, es).store), Run(sys, es).store)
  {
    hide WellFormed, Awake, AllReported, Quiet, EnvironmentDone, HasSpec, Run, RECONCILED, AtTarget;
    RunAwake(c, sys, es, RECONCILED);
    QuietIsTarget(c, Run(sys, es));
  }

  // After any series of edits, failures and restarts, once the control plane is at rest
  // every component runs the first non-empty of its own version and the control plane's.
  lemma ImagesFollowVersions(c: Config, sys: Sys, es: seq<Event>, kind: Kind)
    requires WellFormed(c) && Addressed(c) && kind in COMPONENTS
    requires ComesToRest(c, sys, es)
    ensures var s := Run(sys, es).store;
      && HasSpec(c, s)
      && TagAt(c, s, kind) == Some(EffectiveVersion(Spec(c, s), kind))
  {
    hide WellFormed, ComesToRest, HasSpec, Run, At, Spec, Target;
    RestIsTarget(c, sys, es);
    var s := Run(sys, es).store;
    var cp := Spec(c, s);
    TargetWorkloads(c, cp);
    assert At(c, s, DeploymentCell(kind)) == Target(c, cp, DeploymentCell(kind));
  }

  // cp' is cp with other versions.
  predicate SameButVersions(cp: ControlPlaneSpec, cp': ControlPlaneSpec) {
    cp' == cp.(
      version := cp'.version,
      kubeAPIServer := cp.kubeAPIServer.(version := cp'.kubeAPIServer.version),
      kubeControllerManager := cp.kubeControllerManager.(version := cp'.kubeControllerManager.version),
      kubeScheduler := cp.kubeScheduler.(version := cp'.kubeScheduler.version))
  }

  // The component whose versions show in cell i, if any.
  function VersionedBy(i: nat): Option<Kind> {
    if i == KAS || i == KAS_DEPLOYMENT then Some(KubeAPIServer)
    else if i == KCM || i == KCM_DEPLOYMENT then Some(KubeControllerManager)
    else if i == KS || i == KS_DEPLOYMENT then Some(KubeScheduler)
    else None
  }

  predicate Unaffected(cp: ControlPlaneSpec, cp': ControlPlaneSpec, i: nat) {
    VersionedBy(i).Some? ==> EffectiveVersion(cp', VersionedBy(i).value) == EffectiveVersion(cp, VersionedBy(i).value)
  }

  lemma SameChildren(cp: ControlPlaneSpec, cp': ControlPlaneSpec, ip: string)
    requires SameButVersions(cp, cp')
    ensures Unaffected(cp, cp', KAS) ==> KasFor(cp', ip) == KasFor(cp, ip)
    ensures Unaffected(cp, cp', KCM) ==> KcmFor(cp') == KcmFor(cp)
    ensures Unaffected(cp, cp', KS) ==> KsFor(cp') == KsFor(cp)
    ensures cp'.loadbalancer == cp.loadbalancer && cp'.pki == cp.pki
  {
    hide Coalesce;
  }

  ghost predicate ResourcesThere(p: seq<Option<Body>>)
    requires KS < |p|
  {
    && p[KAS].Some? && p[KAS].value.KasBody?
    && p[KCM].Some? && p[KCM].value.KcmBody?
    && p[KS].Some? && p[KS].value.KsBody?
  }

  // The equations see a version through the resource of its component only.
  lemma ResourcesIgnoreVersions(c: Config, cp: ControlPlaneSpec, cp': ControlPlaneSpec, i: nat,
                                p: seq<Option<Body>>, q: seq<Option<Body>>)
    requires WellFormed(c) && SameButVersions(cp, cp') && i <= KS && |p| == |q| == i && Unaffected(cp, cp', i)
    requires forall j :: 0 <= j < i && Unaffected(cp, cp', j) ==> p[j] == q[j]
    ensures Derive(c, cp', i, q) == Derive(c, cp, i, p)
  {
    hide WellFormed, Coalesce, KasFor, KcmFor, KsFor, DeriveTrust, DeriveComponent, DeriveEndpoint, SameButVersions,
      EffectiveVersion;
    if i < PKI {
      SameChildren(cp, cp', "");
      assert p == q;
    } else {
      assert p[LB_STATUS] == q[LB_STATUS];
      SameChildren(cp, cp', SeenIP(p[LB_STATUS]));
    }
  }

  lemma TrustIgnoresVersions(c: Config, i: nat, p: seq<Option<Body>>, q: seq<Option<Body>>)
    requires WellFormed(c) && KS < i < ADMIN_KUBECONFIG && |p| == |q| == i
    requires forall j :: 0 <= j < i && VersionedBy(j).None? ==> p[j] == q[j]
    ensures DeriveTrust(c, i, q) == DeriveTrust(c, i, p)
  {
    hide WellFormed, CertificateFor;
  }

  lemma ComponentIgnoresVersions(c: Config, i: nat, p: seq<Option<Body>>, q: seq<Option<Body>>)
    requires WellFormed(c) && ADMIN_KUBECONFIG <= i < CELLS && |p| == |q| == i
    requires forall j :: 0 <= j < i && VersionedBy(j).None? ==> p[j] == q[j]
    requires ResourcesThere(p) && ResourcesThere(q)
    requires p[KCM].value.kcm.service == q[KCM].value.kcm.service && p[KS].value.ks.service == q[KS].value.ks.service
    requires i == KAS_DEPLOYMENT ==> p[KAS] == q[KAS]
    requires i == KCM_DEPLOYMENT ==> p[KCM] == q[KCM]
    requires i == KS_DEPLOYMENT ==> p[KS] == q[KS]
    ensures DeriveComponent(c, i, q) == DeriveComponent(c, i, p)
  {
    hide WellFormed, KubeconfigSecret, SchedulerSecret, GenerateDeployment, KcmWorkload, KsWorkload, KCM_KUBECONFIG,
      KS_CONFIG, EGRESS_CONFIG, KCM_NAME, KS_NAME;
  }

  // An edit of versions moves the target in nothing but the resources and Deployments of
  // the components whose effective version it changes.
  lemma {:induction false} VersionEditsAreLocal(c: Config, cp: ControlPlaneSpec, cp': ControlPlaneSpec, n: nat)
    requires WellFormed(c) && Addressed(c) && SameButVersions(cp, cp') && n <= CELLS
    ensures forall i :: 0 <= i < n && Unaffected(cp, cp', i) ==> Target(c, cp', i) == Target(c, cp, i)
  {
    hide WellFormed, Derive, SameButVersions, Unaffected, EffectiveVersion, Target;
    if n > 0 {
      VersionEditsAreLocal(c, cp, cp', n - 1);
      if Unaffected(cp, cp', n - 1) {
        VersionEditAt(c, cp, cp', n - 1);
      }
    }
  }

  lemma VersionEditAt(c: Config, cp: ControlPlaneSpec, cp': ControlPlaneSpec, i: nat)
    requires WellFormed(c) && Addressed(c) && SameButVersions(cp, cp') && i < CELLS && Unaffected(cp, cp', i)
    requires forall j :: 0 <= j < i && Unaffected(cp, cp', j) ==> Target(c, cp', j) == Target(c, cp, j)
    ensures Target(c, cp', i) == Target(c, cp, i)
  {
    var p, q := Solution(c, cp, i), Solution(c, cp', i);
    forall j | 0 <= j < i
      ensures p[j] == Target(c, cp, j) && q[j] == Target(c, cp', j)
    {
      SolutionAt(c, cp, i, j);
      SolutionAt(c, cp', i, j);
    }
    TargetDerives(c, cp, i);
    TargetDerives(c, cp', i);
    if i <= KS {
      hide WellFormed, Derive, SameButVersions, Unaffected, Target, Solution;
      ResourcesIgnoreVersions(c, cp, cp', i, p, q);
    } else {
      TargetResources(c, cp);
      TargetResources(c, cp');
      assert p[KCM].value.kcm.service == q[KCM].value.kcm.service && p[KS].value.ks.service == q[KS].value.ks.service;
      hide WellFormed, SameButVersions, Target, Solution, DeriveTrust, DeriveEndpoint, DeriveComponent, KasFor,
        KcmFor, KsFor, EffectiveVersion;
      if i < ADMIN_KUBECONFIG {
        TrustIgnoresVersions(c, i, p, q);
      } else {
        ComponentIgnoresVersions(c, i, p, q);
      }
    }
  }

  // Such an edit keeps the identity, so every run may contain it.
  lemma VersionEditsAreCalm(c: Config, cp: ControlPlaneSpec, cp': ControlPlaneSpec)
    requires WellFormed(c) && SameButVersions(cp, cp')
    ensures IdentityOf(cp') == IdentityOf(cp)
    ensures Conforms(c.id, cp') <==> Conforms(c.id, cp)
    ensures Conforms(c.id, cp) ==> Untouched(c, Edit(ControlPlaneKey(c), cp'))
  {
    hide WellFormed, Coalesce;
  }

  function Selectors(cp: ControlPlaneSpec, name: string, ip: string): seq<Labels> {
    [GenerateDeployment(name, KasFor(cp, ip)).selector, KcmWorkload(name, KcmFor(cp)).selector,
     KsWorkload(name, KsFor(cp)).selector]
  }

  // A store that rejects changes of selectors accepts every Deployment of the new versions
  // over one of the old, whatever the address.
  lemma SelectorsIgnoreVersions(cp: ControlPlaneSpec, cp': ControlPlaneSpec, name: string, ip: string, ip': string)
    requires SameButVersions(cp, cp')
    ensures Selectors(cp', name, ip') == Selectors(cp, name, ip)
  {
    hide Coalesce;
  }

  // The pod label l, if any.
  function PodLabel(component: string, instance: string, more: Labels, l: string): Option<string> {
    if l in more then Some(more[l])
    else if l == INSTANCE_LABEL then Some(instance)
    else if l == NAME_LABEL then Some(component)
    else None
  }

  // The pod labels made of had and of has are the same, one by one.
  ghost predicate SamePodLabels(component: string, instance: string, had: Labels, has: Labels) {
    forall l :: PodLabel(component, instance, has, l) == PodLabel(component, instance, had, l)
  }

  // Any other edit is accepted exactly when it leaves the API server's pod labels, built
  // from the user's labels and the load balancer's selectors, as they are.
  lemma AcceptedExactly(s: Store, k: Key, cp: ControlPlaneSpec, cp': ControlPlaneSpec,
                        name: string, ip: string, ip': string)
    requires k.name != "" && BodyAt(s, k) == Some(DeploymentBody(GenerateDeployment(name, KasFor(cp, ip))))
    ensures Admits(s, k, DeploymentBody(GenerateDeployment(name, KasFor(cp', ip')))) <==>
      SamePodLabels("kube-apiserver", name,
        cp.kubeAPIServer.deployment.labels + cp.loadbalancer.selectors,
        cp'.kubeAPIServer.deployment.labels + cp'.loadbalancer.selectors)
  {
    hide Coalesce;
    var had, has := cp.kubeAPIServer.deployment.labels + cp.loadbalancer.selectors,
                    cp'.kubeAPIServer.deployment.labels + cp'.loadbalancer.selectors;
    SameDefaults("kube-apiserver", name, had, has);
    hide WithDefaults, SamePodLabels;
  }

  lemma PodLabelAt(component: string, instance: string, more: Labels, l: string)
    ensures var pod := WithDefaults(component, instance, more);
      PodLabel(component, instance, more, l) == if l in pod then Some(pod[l]) else None
  {
    hide NAME_LABEL, INSTANCE_LABEL;
  }

  lemma SameDefaults(component: string, instance: string, had: Labels, has: Labels)
    ensures WithDefaults(component, instance, has) == WithDefaults(component, instance, had) <==>
      SamePodLabels(component, instance, had, has)
  {
    var a, b := WithDefaults(component, instance, has), WithDefaults(component, instance, had);
    forall l: string
      ensures PodLabel(component, instance, has, l) == if l in a then Some(a[l]) else None
      ensures PodLabel(component, instance, had, l) == if l in b then Some(b[l]) else None
    {
      PodLabelAt(component, instance, has, l);
      PodLabelAt(component, instance, had, l);
    }
    hide WithDefaults, PodLabel;
  }

  /******* The load balancer and the pods *******/

  // At rest, the load balancer reaches the API server exactly when the name label is not
  // taken away from its pods by the user's labels alone.
  lemma ServiceReachesServersExactly(c: Config, sys: Sys, es: seq<Event>)
    requires WellFormed(c) && Addressed(c)
    requires ComesToRest(c, sys, es)
    ensures var s := Run(sys, es).store;
      && HasSpec(c, s)
      && var service, pods := At(c, s, SERVICE), At(c, s, KAS_DEPLOYMENT);
         var selectors, user := Spec(c, s).loadbalancer.selectors, Spec(c, s).kubeAPIServer.deployment.labels;
         && service.Some? && service.value.ServiceBody? && pods.Some? && pods.value.DeploymentBody?
         && (Matches(service.value.selector, pods.value.workload.podLabels) <==>
               NAME_LABEL in selectors || NAME_LABEL !in user || user[NAME_LABEL] == "kube-apiserver")
  {
    hide WellFormed, ComesToRest, HasSpec, Run, At, Spec, Target, WithDefaults, ServiceSelector, Matches, NAME_LABEL,
      Coalesce;
    RestIsTarget(c, sys, es);
    var s := Run(sys, es).store;
    var cp := Spec(c, s);
    TargetService(c, cp);
    TargetWorkloads(c, cp);
    assert At(c, s, SERVICE) == Target(c, cp, SERVICE) && At(c, s, KAS_DEPLOYMENT) == Target(c, cp, KAS_DEPLOYMENT);
    SelectorAgreement(c.name, cp.loadbalancer.selectors, cp.kubeAPIServer.deployment.labels);
  }

  // The Service selects no pod of another component unless a name label is redefined.
  ghost predicate NoneCaptured(c: Config, s: Store)
    requires WellFormed(c)
  {
    && HasSpec(c, s)
    && var service := At(c, s, SERVICE);
       var selectors, kcm := Spec(c, s).loadbalancer.selectors, Spec(c, s).kubeControllerManager.deployment.labels;
       && service.Some? && service.value.ServiceBody?
       && (NAME_LABEL !in selectors && NAME_LABEL !in kcm ==>
             !Matches(service.value.selector, WithDefaults(KCM_NAME, c.name, kcm)))
       && (NAME_LABEL !in selectors ==> !Matches(service.value.selector, WithDefaults(KS_NAME, c.name, map[])))
       && At(c, s, KCM_DEPLOYMENT).Some? && At(c, s, KCM_DEPLOYMENT).value.DeploymentBody?
       && At(c, s, KCM_DEPLOYMENT).value.workload.podLabels == WithDefaults(KCM_NAME, c.name, kcm)
       && At(c, s, KS_DEPLOYMENT).Some? && At(c, s, KS_DEPLOYMENT).value.DeploymentBody?
       && At(c, s, KS_DEPLOYMENT).value.workload.podLabels == WithDefaults(KS_NAME, c.name, map[])
  }

  lemma TargetCapturesNone(c: Config, s: Store)
    requires WellFormed(c) && Addressed(c) && HasSpec(c, s) && AtTarget(c, Spec(c, s), s)
    ensures NoneCaptured(c, s)
  {
    assert KCM_NAME != "kube-apiserver" && KS_NAME != "kube-apiserver" by {
      assert |KCM_NAME| != |"kube-apiserver"| && KS_NAME[5] != "kube-apiserver"[5];
    }
    hide WellFormed, HasSpec, At, Spec, Target, WithDefaults, ServiceSelector, Matches, NAME_LABEL, Coalesce,
      KCM_NAME, KS_NAME;
    var cp := Spec(c, s);
    TargetService(c, cp);
    TargetManager(c, cp);
    TargetScheduler(c, cp);
    assert At(c, s, SERVICE) == Target(c, cp, SERVICE) && At(c, s, KCM_DEPLOYMENT) == Target(c, cp, KCM_DEPLOYMENT);
    assert At(c, s, KS_DEPLOYMENT) == Target(c, cp, KS_DEPLOYMENT);
    CaptureExactly(KCM_NAME, c.name, cp.loadbalancer.selectors, cp.kubeControllerManager.deployment.labels);
    CaptureExactly(KS_NAME, c.name, cp.loadbalancer.selectors, map[]);
  }

  // At rest, no pod of another component is captured.
  lemma NoCapture(c: Config, sys: Sys, es: seq<Event>)
    requires WellFormed(c) && Addressed(c)
    requires ComesToRest(c, sys, es)
    ensures NoneCaptured(c, Run(sys, es).store)
  {
    hide WellFormed, ComesToRest, HasSpec, Run, AtTarget, NoneCaptured;
    RestIsTarget(c, sys, es);
    TargetCapturesNone(c, Run(sys, es).store);
  }
}
