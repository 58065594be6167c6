// The control plane shipped as a sample meets every assumption of the other modules, and
// so does its namespace right after the installation.
module Samples {
  import opened Api
  import opened LabelMaps
  import opened Programs
  import opened Machine
  import opened Passes
  import opened Integrity
  import opened Cells
  import opened Settling
  import opened Invariant
  import opened Causality
  import opened Convergence
  import opened Duties
  import opened FairRuns

  const CUSTOM: Labels := map["cluster.custom" := "foo"]
  const SERVER_NAME := "kube-apiserver"

  const PKI_SAMPLE := PkiSpec("pki", "", "ca", SERVICE_ACCOUNTS, "admin",
    ServerCertSpec(SERVER_NAME, ["127.0.0.1", "10.0.0.1", "10.32.0.1"],
      ["localhost", "kubernetes", "kubernetes.default", "kubernetes.default.svc",
       "kubernetes.default.svc.cluster.local", "kubernetes.default.cluster.local", SERVER_NAME]),
    KCM_NAME, KS_NAME, "konnectivity")

  const SAMPLE := ControlPlaneSpec("v1.27.5",
    LoadbalancerSpec(SERVER_NAME, 6443, CUSTOM),
    PKI_SAMPLE,
    KasSpec("", "etcd-client:2379", DeploymentSpec(SERVER_NAME, 3, CUSTOM),
      KasTls("ca", SERVER_NAME, SERVICE_ACCOUNTS, "konnectivity"), KasOptions("", "10.32.0.0/24")),
    KcmSpec("", KcmTls("ca", KCM_NAME, SERVICE_ACCOUNTS), DeploymentSpec(KCM_NAME, 3, CUSTOM),
      ServiceRef(SERVER_NAME, 6443)),
    KsSpec("", ServiceRef(SERVER_NAME, 6443), KS_NAME, DeploymentSpec(KS_NAME, 3, CUSTOM)))

  // The sample in its namespace, behind an address that the provider will assign.
  function SampleConfig(address: string, issued: seq<SecretData>): Config {
    Config("demo", "demo-control-plane", IdentityOf(SAMPLE), [address], issued)
  }

  lemma SampleNames()
    ensures Distinct(SecretNames(IdentityOf(SAMPLE)))
    ensures forall i :: 0 <= i < 7 ==> IdentityOf(SAMPLE).certs[i] != ""
  {
    var names := SecretNames(IdentityOf(SAMPLE));
    assert names == ["ca", "admin", SERVER_NAME, SERVICE_ACCOUNTS, KCM_NAME, KS_NAME, "konnectivity",
                     KubeconfigName("admin"), KubeconfigName("konnectivity"), KCM_KUBECONFIG, KS_CONFIG];
    assert |"-kubeconfig"| == 11;
    var lengths := [2, 5, 14, 16, 23, 14, 12, 16, 23, 34, 21];
    assert |"ca"| == 2 && |"admin"| == 5 && |"konnectivity"| == 12;
    assert |SERVER_NAME| == 14 && |SERVICE_ACCOUNTS| == 16 && |KCM_NAME| == 23 && |KS_NAME| == 14;
    assert |KCM_KUBECONFIG| == 34 && |KS_CONFIG| == 21;
    assert SERVER_NAME[5] == 'a' && KS_NAME[5] == 's';
    assert SERVICE_ACCOUNTS[0] == 's' && KubeconfigName("admin")[0] == 'a';
    assert KCM_NAME[1] == 'u' && KubeconfigName("konnectivity")[1] == 'o';
    hide SAMPLE, PKI_SAMPLE, SERVER_NAME, SERVICE_ACCOUNTS, KCM_NAME, KS_NAME, KCM_KUBECONFIG, KS_CONFIG,
      KubeconfigName, SecretNames, IdentityOf;
  }

  // The hypotheses of the settling theorems, of idempotence and of referential integrity.
  lemma SampleIsWellFormed(address: string, issued: seq<SecretData>)
    requires |issued| == 7 && address != ""
    ensures var c := SampleConfig(address, issued);
      WellFormed(c) && Addressed(c) && Conforms(c.id, SAMPLE)
    ensures NamesHardCoded(KcmBody(KcmFor(SAMPLE)))
    ensures ReadsApart(KcmBody(KcmFor(SAMPLE))) && ReadsApart(KsBody(KsFor(SAMPLE)))
  {
    SampleNames();
    assert SERVER_NAME != KCM_NAME && SERVER_NAME != KS_NAME && SERVER_NAME != "" by {
      assert |SERVER_NAME| != |KCM_NAME| && SERVER_NAME[5] != KS_NAME[5];
    }
    assert KCM_NAME != KCM_KUBECONFIG && KS_NAME != KS_CONFIG by {
      assert |KCM_NAME| != |KCM_KUBECONFIG| && |KS_NAME| != |KS_CONFIG|;
    }
    assert "pki" != "ca" && "pki" != "" by { assert |"pki"| == 3 && |"ca"| == 2; }
    assert "demo-control-plane" != "" by { assert |"demo-control-plane"| == 18; }
    assert IdentityOf(SAMPLE).certs[CA] == "ca";
    hide SERVER_NAME, SERVICE_ACCOUNTS, KCM_NAME, KS_NAME, KCM_KUBECONFIG, KS_CONFIG, CUSTOM, SecretNames, Distinct,
      Coalesce;
  }

  // A namespace that holds nothing but its ControlPlane, just created.
  function Installed(c: Config, cp: ControlPlaneSpec): Sys {
    Sys(map[ControlPlaneKey(c) := Object(None, ControlPlaneBody(cp))], map[], {ControlPlaneKey(c)}, {})
  }

  // It is a good beginning for every theorem about runs.
  lemma InstalledIsAttended(c: Config, cp: ControlPlaneSpec)
    requires WellFormed(c) && Conforms(c.id, cp)
    ensures Attended(c, cp, Installed(c, cp)) && Pristine(c, Installed(c, cp))
  {
    var sys := Installed(c, cp);
    forall i | 0 <= i < CELLS
      ensures KeyOf(c, i) !in sys.store
    {
      CellKinds(i);
      KeyIsLocal(c, i);
    }
    hide WellFormed, KeyOf, Conforms, Created, ActorOf, CellFits;
    assert StoreFits(c, sys.store) && Consistent(c, sys) && Intact(c, sys);
    assert Owned(c, sys.store);
  }

  lemma CellKinds(i: nat)
    requires i < CELLS
    ensures KindOf(i) != ControlPlane
  {}
}
