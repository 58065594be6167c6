// One control plane inside the joint machine: the invariant that ties every stored object
// and every reconcile in progress to the cells, and what a single step can change.
module Settling {
  import opened Api
  import opened LabelMaps
  import opened Programs
  import opened Integrity
  import opened Cells

  // The cell that call pc of a reconciler reads or writes.
  function CellOf(kind: Kind, pc: nat): nat {
    match kind
    case ControlPlane => if pc == 0 then LB else if pc < 5 then PKI + (pc - 1) else CELLS
    case Loadbalancer => if pc == 0 then SERVICE else if pc == 1 then LB_STATUS else CELLS
    case Pki =>
      if pc == 0 then ROOT_ISSUER else if pc == 1 then CertCell(CA) else if pc == 2 then CA_ISSUER
      else if pc == 3 then CertCell(ADMIN) else if pc == 4 then SecretCell(ADMIN)
      else if pc == 5 then ADMIN_KUBECONFIG else if pc < 11 then CertCell(pc - 4) else CELLS
    case KubeAPIServer =>
      if pc == 0 then SecretCell(KONNECTIVITY) else if pc == 1 then KONNECTIVITY_KUBECONFIG
      else if pc == 2 then EGRESS else if pc == 3 then SecretCell(CA) else if pc == 4 then SecretCell(SERVER)
      else if pc == 5 then SecretCell(ACCOUNTS) else if pc == 6 then KAS_DEPLOYMENT else CELLS
    case KubeControllerManager =>
      if pc == 0 then SecretCell(MANAGER) else if pc == 1 then SecretCell(ACCOUNTS)
      else if pc == 2 then SecretCell(CA) else if pc == 3 then KCM_SECRET
      else if pc == 4 then KCM_DEPLOYMENT else CELLS
    case KubeScheduler =>
      if pc == 0 then SecretCell(SCHEDULER) else if pc == 1 then KS_SECRET
      else if pc == 2 then KS_DEPLOYMENT else CELLS
    case _ => CELLS
  }

  // The custom resource behind a cell that a reconciler writes; CELLS for the user's.
  function ResourceCell(kind: Kind): nat {
    match kind
    case Loadbalancer => LB
    case Pki => PKI
    case KubeAPIServer => KAS
    case KubeControllerManager => KCM
    case KubeScheduler => KS
    case _ => CELLS
  }

  // What may be stored in a cell while specs keep the identity.
  predicate CellFits(c: Config, i: nat, b: Body)
    requires WellFormed(c) && i < CELLS
  {
    && Typed(KindOf(i), b)
    && (i == LB ==> b.loadbalancer.name == c.id.loadbalancer)
    && (i == PKI ==> PkiConforms(c.id, b.pki))
    && (i == KAS ==> KasConforms(c.id, b.kas))
    && (i == KCM ==> KcmConforms(c.id, b.kcm))
    && (i == KS ==> b.ks.tls == c.id.certs[SCHEDULER])
    && (i == ROOT_ISSUER ==> b.signer == SelfSigned)
    && (i == CA_ISSUER ==> b.signer == SecretSigner(c.id.certs[CA]))
    && (IsCert(i) ==>
          && b.certificate.secretName == c.id.certs[Which(i)]
          && b.certificate.issuer == if Which(i) == CA then c.id.rootIssuer else c.id.certs[CA])
    && (IsSecret(i) ==> b.data == c.issued[Which(i)])
    && (i == KAS_DEPLOYMENT ==> b.workload.selector == WithDefaults("kube-apiserver", c.name, c.id.kasLabels))
    && (i == KCM_DEPLOYMENT ==> b.workload.selector == WithDefaults(KCM_NAME, c.name, c.id.kcmLabels))
    && (i == KS_DEPLOYMENT ==> b.workload.selector == WithDefaults(KS_NAME, c.name, map[]))
  }

  predicate ResourceFits(c: Config, kind: Kind, b: Body)
    requires WellFormed(c)
  {
    match kind
    case ControlPlane => b.ControlPlaneBody? && Conforms(c.id, b.controlPlane)
    case Loadbalancer => CellFits(c, LB, b)
    case Pki => CellFits(c, PKI, b)
    case KubeAPIServer => CellFits(c, KAS, b)
    case KubeControllerManager => CellFits(c, KCM, b)
    case KubeScheduler => CellFits(c, KS, b)
    case _ => false
  }

  // Where the remembered object of a reconcile lives.
  function SeenCell(kind: Kind): nat {
    match kind
    case ControlPlane => LB_STATUS
    case Loadbalancer => INGRESS
    case Pki => SecretCell(ADMIN)
    case KubeAPIServer => SecretCell(KONNECTIVITY)
    case KubeControllerManager => SecretCell(MANAGER)
    case _ => SecretCell(SCHEDULER)
  }

  predicate FrameFits(c: Config, f: Frame)
    requires WellFormed(c)
  {
    && Reconciled(f.key.kind) && f.key.ns == c.ns && f.key.name == c.name
    && ResourceFits(c, f.key.kind, f.body)
    && (f.pc > Remembered(f.body) ==>
          var i := SeenCell(f.key.kind);
          && (f.seen.Some? ==> CellFits(c, i, f.seen.value))
          && (IsSecret(i) ==> f.seen.Some?))
    && (f.key.kind == Pki && f.pc > 6 ==> f.body.pki.controlPlaneIP != "")
  }

  lemma FitsReconciler(c: Config, f: Frame)
    requires WellFormed(c) && FrameFits(c, f)
    ensures Reconciled(f.key.kind)
  {}

  // The call of a fitting reconcile is about its cell, and writes what fits there.
  ghost predicate CallFits(c: Config, f: Frame)
    requires WellFormed(c)
  {
    var i := CellOf(f.key.kind, f.pc);
    && i < CELLS
    && !Code(f).Stop?
    && Code(f).key == KeyOf(c, i)
    && (Code(f).Fetch? <==> IsSecret(i))
    && (!Code(f).Fetch? ==> CellFits(c, i, Code(f).body))
  }

  lemma EndpointCallFits(c: Config, f: Frame)
    requires WellFormed(c) && FrameFits(c, f) && !Code(f).Stop?
    requires f.key.kind in {ControlPlane, Loadbalancer}
    ensures CallFits(c, f)
  {
    hide KCM_NAME, KS_NAME, KCM_KUBECONFIG, KS_CONFIG, EGRESS_CONFIG, PkiCode, KasCode, KcmCode, KsCode,
      KubeconfigName, Distinct;
  }

  lemma TrustCallFits(c: Config, f: Frame)
    requires WellFormed(c) && FrameFits(c, f) && !Code(f).Stop?
    requires f.key.kind in {Pki}
    ensures CallFits(c, f)
  {
    hide KCM_NAME, KS_NAME, KCM_KUBECONFIG, KS_CONFIG, EGRESS_CONFIG, ControlPlaneCode, LoadbalancerCode, KasCode,
      KcmCode, KsCode, Distinct;
  }

  lemma KasCallFits(c: Config, f: Frame)
    requires WellFormed(c) && FrameFits(c, f) && !Code(f).Stop? && f.key.kind == KubeAPIServer
    ensures CallFits(c, f)
  {
    hide KCM_NAME, KS_NAME, KCM_KUBECONFIG, KS_CONFIG, EGRESS_CONFIG, ControlPlaneCode, LoadbalancerCode, PkiCode,
      KcmCode, KsCode, Distinct;
  }

  lemma KcmCallFits(c: Config, f: Frame)
    requires WellFormed(c) && FrameFits(c, f) && !Code(f).Stop? && f.key.kind == KubeControllerManager
    ensures CallFits(c, f)
  {
    hide KCM_NAME, KS_NAME, KCM_KUBECONFIG, KS_CONFIG, EGRESS_CONFIG, ControlPlaneCode, LoadbalancerCode, PkiCode,
      KasCode, KsCode, Distinct;
  }

  lemma KsCallFits(c: Config, f: Frame)
    requires WellFormed(c) && FrameFits(c, f) && !Code(f).Stop? && f.key.kind == KubeScheduler
    ensures CallFits(c, f)
  {
    hide KCM_NAME, KS_NAME, KCM_KUBECONFIG, KS_CONFIG, EGRESS_CONFIG, ControlPlaneCode, LoadbalancerCode, PkiCode,
      KasCode, KcmCode, Distinct;
  }

  lemma EveryCallFits(c: Config, f: Frame)
    requires WellFormed(c) && FrameFits(c, f) && !Code(f).Stop?
    ensures CallFits(c, f)
  {
    hide CallFits, Code, WellFormed, ResourceFits, CellFits;
    match f.key.kind
    case ControlPlane => EndpointCallFits(c, f);
    case Loadbalancer => EndpointCallFits(c, f);
    case Pki => TrustCallFits(c, f);
    case KubeAPIServer => KasCallFits(c, f);
    case KubeControllerManager => KcmCallFits(c, f);
    case KubeScheduler => KsCallFits(c, f);
  }

  /******* A reconcile with current reads writes what the equations say *******/

  ghost predicate Fresh(c: Config, s: Store, f: Frame)
    requires WellFormed(c)
  {
    && BodyAt(s, f.key) == Some(f.body)
    && (f.pc > Remembered(f.body) ==> f.seen == At(c, s, SeenCell(f.key.kind)))
  }

  ghost predicate Derives(c: Config, cp: ControlPlaneSpec, s: Store, f: Frame)
    requires WellFormed(c)
  {
    var i := CellOf(f.key.kind, f.pc);
    i < CELLS && !Code(f).Stop? && !Code(f).Fetch? && Derive(c, cp, i, Prefix(c, s, i)) == Some(Code(f).body)
  }

  ghost predicate Ready(c: Config, cp: ControlPlaneSpec, s: Store, f: Frame) {
    && WellFormed(c) && FrameFits(c, f) && Fresh(c, s, f) && Reached(f, s)
    && (f.body.ControlPlaneBody? ==> f.body.controlPlane == cp)
    && !Code(f).Stop? && !Code(f).Fetch?
  }

  // The object behind call i of a reconcile that got past it.
  lemma GatePassed(c: Config, s: Store, f: Frame, i: nat)
    requires WellFormed(c) && FrameFits(c, f) && Reached(f, s) && i < f.pc
    requires Needed(f.key, f.body, i).Some?
    ensures CellOf(f.key.kind, i) < CELLS && At(c, s, CellOf(f.key.kind, i)).Some?
  {
    var g := f.(pc := i);
    assert FrameFits(c, g);
    NeededIsCode(g);
    EveryCallFits(c, g);
    hide Code, WellFormed, ResourceFits, Needed, CellOf, CellFits;
  }

  lemma EndpointDerives(c: Config, cp: ControlPlaneSpec, s: Store, f: Frame)
    requires Ready(c, cp, s, f) && f.key.kind in {ControlPlane, Loadbalancer}
    ensures Derives(c, cp, s, f)
  {
    hide PkiCode, KasCode, KcmCode, KsCode, SecretNames, Distinct, Reached;
    if f.key.kind == Loadbalancer {
      assert f.key == KeyOf(c, LB);
    }
  }

  lemma TrustDerives(c: Config, cp: ControlPlaneSpec, s: Store, f: Frame)
    requires Ready(c, cp, s, f) && f.key.kind == Pki
    ensures Derives(c, cp, s, f)
  {
    if f.pc > 4 {
      GatePassed(c, s, f, 4);
    }
    assert f.key == KeyOf(c, PKI);
    hide ControlPlaneCode, LoadbalancerCode, KasCode, KcmCode, KsCode, SecretNames, Distinct, Reached, Needed,
      KCM_NAME, KS_NAME, EGRESS_CONFIG;
    assert At(c, s, PKI) == Some(f.body);
  }

  lemma KasConfigDerives(c: Config, cp: ControlPlaneSpec, s: Store, f: Frame)
    requires Ready(c, cp, s, f) && f.key.kind == KubeAPIServer && f.pc <= 5
    ensures Derives(c, cp, s, f)
  {
    hide LoadbalancerCode, PkiCode, KcmCode, KsCode;
    GatePassed(c, s, f, 0);
    assert f.key == KeyOf(c, KAS);
    hide ControlPlaneCode, SecretNames, Distinct, Reached, Needed, KCM_NAME, KS_NAME, EGRESS_CONFIG,
      GenerateDeployment, CellFits, DeriveEndpoint, DeriveTrust;
    assert At(c, s, KAS) == Some(f.body);
  }

  lemma KasDeploymentDerives(c: Config, cp: ControlPlaneSpec, s: Store, f: Frame)
    requires Ready(c, cp, s, f) && f.key.kind == KubeAPIServer && f.pc > 5
    ensures Derives(c, cp, s, f)
  {
    hide LoadbalancerCode, PkiCode, KcmCode, KsCode;
    GatePassed(c, s, f, 0);
    GatePassed(c, s, f, 3);
    GatePassed(c, s, f, 4);
    GatePassed(c, s, f, 5);
    assert f.key == KeyOf(c, KAS);
    hide ControlPlaneCode, SecretNames, Distinct, Reached, Needed, KCM_NAME, KS_NAME, EGRESS_CONFIG,
      GenerateDeployment, CellFits, DeriveEndpoint, DeriveTrust;
    assert At(c, s, KAS) == Some(f.body);
  }

  lemma KasDerives(c: Config, cp: ControlPlaneSpec, s: Store, f: Frame)
    requires Ready(c, cp, s, f) && f.key.kind == KubeAPIServer
    ensures Derives(c, cp, s, f)
  {
    hide Ready, Derives;
    if f.pc <= 5 {
      KasConfigDerives(c, cp, s, f);
    } else {
      KasDeploymentDerives(c, cp, s, f);
    }
  }

  lemma KcmDerives(c: Config, cp: ControlPlaneSpec, s: Store, f: Frame)
    requires Ready(c, cp, s, f) && f.key.kind == KubeControllerManager
    ensures Derives(c, cp, s, f)
  {
    GatePassed(c, s, f, 0);
    GatePassed(c, s, f, 1);
    GatePassed(c, s, f, 2);
    assert f.key == KeyOf(c, KCM);
    hide ControlPlaneCode, LoadbalancerCode, PkiCode, KasCode, KsCode, SecretNames, Distinct, Reached, Needed,
      KCM_NAME, KCM_KUBECONFIG, KS_NAME, EGRESS_CONFIG, KcmWorkload, CellFits;
    assert At(c, s, KCM) == Some(f.body);
  }

  lemma KsDerives(c: Config, cp: ControlPlaneSpec, s: Store, f: Frame)
    requires Ready(c, cp, s, f) && f.key.kind == KubeScheduler
    ensures Derives(c, cp, s, f)
  {
    GatePassed(c, s, f, 0);
    assert f.key == KeyOf(c, KS);
    hide ControlPlaneCode, LoadbalancerCode, PkiCode, KasCode, KcmCode, SecretNames, Distinct, Reached, Needed,
      KCM_NAME, KS_NAME, KS_CONFIG, EGRESS_CONFIG, KsWorkload, CellFits;
    assert At(c, s, KS) == Some(f.body);
  }

  lemma FreshDerives(c: Config, cp: ControlPlaneSpec, s: Store, f: Frame)
    requires Ready(c, cp, s, f)
    ensures Derives(c, cp, s, f)
  {
    hide Derives;
    match f.key.kind
    case ControlPlane => EndpointDerives(c, cp, s, f);
    case Loadbalancer => EndpointDerives(c, cp, s, f);
    case Pki => TrustDerives(c, cp, s, f);
    case KubeAPIServer => KasDerives(c, cp, s, f);
    case KubeControllerManager => KcmDerives(c, cp, s, f);
    case KubeScheduler => KsDerives(c, cp, s, f);
  }
}
