// What the processes of a control plane at rest read.  The command lines of the containers
// name files; a file is reached through a mount of the container, a volume of the pod and
// an entry of the secret that the volume names.  Mounts and flags are constants of the
// source, volumes and secrets are what the reconcilers have stored.
module Files {
  import opened Api
  import opened LabelMaps
  import opened Machine
  import opened Cells
  import opened Convergence
  import opened Duties
  import opened Versions
  import opened Addresses
  import opened Manifest

  datatype Container = KonnectivityProxy | ApiServerProcess | ManagerProcess | SchedulerProcess

  datatype Directory =
    | ServerDir        // /var/lib/kubernetes/tls/kube-apiserver
    | AccountsDir      // /var/lib/kubernetes/tls/sa
    | EgressDir        // /etc/kubernetes/konnectivity-egress
    | SocketDir        // /etc/kubernetes/konnectivity-socket
    | KonnectivityDir  // /etc/kubernetes/konnectivity
    | ProxyTlsDir      // /etc/kubernetes/tls
    | ManagerDir       // /var/lib/kubernetes/tls/kcm
    | CaDir            // /var/lib/kubernetes/tls/ca
    | SchedulerDir     // /var/lib/kubernetes/tls/ks
    | AuthDir          // /var/lib/kubernetes/auth
    | SystemDir        // /etc/ssl/certs

  // Which volume a container mounts at a directory.
  function MountAt(container: Container, d: Directory): Option<VolumeName> {
    match container
    case KonnectivityProxy =>
      if d == SocketDir then Some(SocketVolume)
      else if d == KonnectivityDir then Some(KonnectivityVolume)
      else if d == ProxyTlsDir then Some(ServerVolume)
      else None
    case ApiServerProcess =>
      if d == AccountsDir then Some(AccountsVolume)
      else if d == ServerDir then Some(ServerVolume)
      else if d == SocketDir then Some(SocketVolume)
      else if d == EgressDir then Some(EgressVolume)
      else None
    case ManagerProcess =>
      if d == SystemDir || d == ManagerDir then Some(ManagerVolume)
      else if d == CaDir then Some(CaVolume)
      else if d == AuthDir then Some(KubeconfigVolume)
      else if d == AccountsDir then Some(AccountsVolume)
      else None
    case SchedulerProcess =>
      if d == SystemDir || d == SchedulerDir then Some(SchedulerVolume)
      else if d == AuthDir then Some(KubeconfigVolume)
      else None
  }

  // The flags that name a file; those of one group name the same one.
  datatype Flag =
    | TlsCertFile             // also the kubelet and proxy client certificates, --cluster-cert
    | TlsPrivateKeyFile       // also the kubelet and proxy client keys, --cluster-key
    | ClientCaFile            // also --requestheader-client-ca-file, --root-ca-file
    | AccountKeyFile          // --service-account-key-file
    | AccountSigningKeyFile   // --service-account-signing-key-file, --service-account-private-key-file
    | EgressConfigFile        // --egress-selector-config-file
    | KubeconfigFile          // --kubeconfig, --authentication-kubeconfig, --authorization-kubeconfig
    | ClusterSigningCertFile
    | ClusterSigningKeyFile
    | SchedulerConfigFile     // --config

  datatype File = SecretFile(dir: Directory, entry: Entry) | EgressYaml

  function FileOf(container: Container, flag: Flag): Option<File> {
    match (container, flag)
    case (KonnectivityProxy, TlsCertFile) => Some(SecretFile(ProxyTlsDir, TlsCrt))
    case (KonnectivityProxy, TlsPrivateKeyFile) => Some(SecretFile(ProxyTlsDir, TlsKey))
    case (KonnectivityProxy, KubeconfigFile) => Some(SecretFile(KonnectivityDir, KubeconfigYml))
    case (ApiServerProcess, TlsCertFile) => Some(SecretFile(ServerDir, TlsCrt))
    case (ApiServerProcess, TlsPrivateKeyFile) => Some(SecretFile(ServerDir, TlsKey))
    case (ApiServerProcess, ClientCaFile) => Some(SecretFile(ServerDir, CaCrt))
    case (ApiServerProcess, AccountKeyFile) => Some(SecretFile(AccountsDir, TlsCrt))
    case (ApiServerProcess, AccountSigningKeyFile) => Some(SecretFile(AccountsDir, TlsKey))
    case (ApiServerProcess, EgressConfigFile) => Some(EgressYaml)
    case (ManagerProcess, TlsCertFile) => Some(SecretFile(ManagerDir, TlsCrt))
    case (ManagerProcess, TlsPrivateKeyFile) => Some(SecretFile(ManagerDir, TlsKey))
    case (ManagerProcess, ClientCaFile) => Some(SecretFile(ManagerDir, CaCrt))
    case (ManagerProcess, AccountSigningKeyFile) => Some(SecretFile(AccountsDir, TlsKey))
    case (ManagerProcess, KubeconfigFile) => Some(SecretFile(AuthDir, KubeconfigYml))
    case (ManagerProcess, ClusterSigningCertFile) => Some(SecretFile(CaDir, TlsCrt))
    case (ManagerProcess, ClusterSigningKeyFile) => Some(SecretFile(CaDir, TlsKey))
    case (SchedulerProcess, TlsCertFile) => Some(SecretFile(SchedulerDir, TlsCrt))
    case (SchedulerProcess, TlsPrivateKeyFile) => Some(SecretFile(SchedulerDir, TlsKey))
    case (SchedulerProcess, ClientCaFile) => Some(SecretFile(SchedulerDir, CaCrt))
    case (SchedulerProcess, KubeconfigFile) => Some(SecretFile(AuthDir, KubeconfigYml))
    case (SchedulerProcess, SchedulerConfigFile) => Some(SecretFile(AuthDir, ConfigJson))
    case _ => None
  }

  function EntryAt(data: SecretData, e: Entry): Option<Blob> {
    if e in data then Some(data[e]) else None
  }

  // What the container finds at the flag's file when it runs as w in the namespace.
  function Content(s: Store, ns: string, w: Workload, container: Container, flag: Flag): Option<Blob> {
    var file := FileOf(container, flag);
    if file.None? || file.value.EgressYaml? then None
    else
      var v := MountAt(container, file.value.dir);
      if v.None? || v.value !in w.volumes || !w.volumes[v.value].SecretVolume? then None
      else
        var b := BodyAt(s, Key(Secret, ns, w.volumes[v.value].secretName));
        if b.Some? && b.value.SecretBody? then EntryAt(b.value.data, file.value.entry) else None
  }

  function EgressContent(s: Store, ns: string, w: Workload, container: Container): Option<ConfigData> {
    var v := MountAt(container, EgressDir);
    if FileOf(container, EgressConfigFile) != Some(EgressYaml) || v.None? || v.value !in w.volumes
       || !w.volumes[v.value].ConfigMapVolume? then None
    else
      var b := BodyAt(s, Key(ConfigMap, ns, w.volumes[v.value].configMap));
      if b.Some? && b.value.ConfigMapBody? then Some(b.value.config) else None
  }

  // A kubeconfig that presents the pair to the server.
  ghost predicate Leads(content: Option<Blob>, pair: SecretData, host: string, port: nat) {
    content.Some? && Presents(Some(SecretBody(map[KubeconfigYml := content.value])), pair, host, port)
  }

  // Certificate, key and authority files are those of the pair.
  ghost predicate Serves(s: Store, ns: string, w: Workload, container: Container, pair: SecretData) {
    && Content(s, ns, w, container, TlsCertFile) == EntryAt(pair, TlsCrt)
    && Content(s, ns, w, container, TlsPrivateKeyFile) == EntryAt(pair, TlsKey)
    && (FileOf(container, ClientCaFile).Some? ==> Content(s, ns, w, container, ClientCaFile) == EntryAt(pair, CaCrt))
  }

  // A file of a mounted secret has the contents of the secret's entry.
  lemma Reads(s: Store, ns: string, w: Workload, container: Container, flag: Flag, v: VolumeName, name: string,
              data: SecretData)
    requires FileOf(container, flag).Some? && FileOf(container, flag).value.SecretFile?
    requires MountAt(container, FileOf(container, flag).value.dir) == Some(v)
    requires v in w.volumes && w.volumes[v] == SecretVolume(name)
    requires Stored(s, Secret, ns, name, SecretBody(data))
    ensures Content(s, ns, w, container, flag) == EntryAt(data, FileOf(container, flag).value.entry)
  {
    hide FileOf, MountAt, EntryAt;
  }

  lemma ReadsKeyPair(s: Store, ns: string, w: Workload, container: Container, v: VolumeName, name: string,
                     data: SecretData)
    requires v == if container == SchedulerProcess then SchedulerVolume
                  else if container == ManagerProcess then ManagerVolume else ServerVolume
    requires v in w.volumes && w.volumes[v] == SecretVolume(name)
    requires Stored(s, Secret, ns, name, SecretBody(data))
    ensures Serves(s, ns, w, container, data)
  {
    hide Content, Stored, EntryAt;
    Reads(s, ns, w, container, TlsCertFile, v, name, data);
    Reads(s, ns, w, container, TlsPrivateKeyFile, v, name, data);
    if FileOf(container, ClientCaFile).Some? {
      Reads(s, ns, w, container, ClientCaFile, v, name, data);
    }
  }

  lemma ReadsKubeconfig(s: Store, ns: string, w: Workload, container: Container, v: VolumeName, name: string,
                        pair: SecretData, host: string, port: nat)
    requires container in {KonnectivityProxy, ManagerProcess, SchedulerProcess}
    requires v == if container == KonnectivityProxy then KonnectivityVolume else KubeconfigVolume
    requires v in w.volumes && w.volumes[v] == SecretVolume(name)
    requires Presents(BodyAt(s, Key(Secret, ns, name)), pair, host, port)
    ensures Leads(Content(s, ns, w, container, KubeconfigFile), pair, host, port)
  {
    var data := BodyAt(s, Key(Secret, ns, name)).value.data;
    Reads(s, ns, w, container, KubeconfigFile, v, name, data);
    hide Content, BodyAt, Stored, Holds;
  }

  // The key pairs that are mounted, under the names that the Pki gives them.
  lemma PairsStored(ns: string, pki: PkiSpec, ip: string, issued: seq<SecretData>, s: Store)
    requires TrustStored(ns, pki, ip, issued, s) && |issued| == 7
    ensures Stored(s, Secret, ns, pki.ca, SecretBody(issued[0]))
    ensures Stored(s, Secret, ns, pki.kubeAPIServer.name, SecretBody(issued[2]))
    ensures Stored(s, Secret, ns, pki.serviceAccounts, SecretBody(issued[3]))
    ensures Stored(s, Secret, ns, pki.kubeControllerManager, SecretBody(issued[4]))
    ensures Stored(s, Secret, ns, pki.kubeScheduler, SecretBody(issued[5]))
  {
    hide Stored;
  }

  lemma ConfigsPresent(ns: string, cp: ControlPlaneSpec, ip: string, issued: seq<SecretData>, s: Store)
    requires ConfigsStored(ns, cp, ip, issued, s)
    ensures |issued| == 7
    ensures Presents(BodyAt(s, Key(Secret, ns, cp.pki.konnectivity + "-kubeconfig")), issued[6], "kube-apiserver", 6443)
    ensures var service := cp.kubeControllerManager.service;
      Presents(BodyAt(s, Key(Secret, ns, "kube-controller-manager-kubeconfig")), issued[4], service.name, service.port)
    ensures var service := cp.kubeScheduler.service;
      SchedulerConfigStored(s, ns, "kube-scheduler-config", issued[5], service.name, service.port)
    ensures Stored(s, ConfigMap, ns, "konnectivity-egress", ConfigMapBody(EgressSelectorConfiguration))
  {
    hide BodyAt, Presents, Stored, SchedulerConfigStored;
  }

  // The API server serves with its own pair, checks tokens with the service-account
  // certificate and signs them with the key of the same pair; its konnectivity proxy serves
  // with the server's pair too and reports to the API server as konnectivity.
  ghost predicate ServerFilesRight(ns: string, issued: seq<SecretData>, s: Store, w: Workload)
    requires |issued| == 7
  {
    && Serves(s, ns, w, ApiServerProcess, issued[2]) && Serves(s, ns, w, KonnectivityProxy, issued[2])
    && Content(s, ns, w, ApiServerProcess, AccountKeyFile) == EntryAt(issued[3], TlsCrt)
    && Content(s, ns, w, ApiServerProcess, AccountSigningKeyFile) == EntryAt(issued[3], TlsKey)
    && Leads(Content(s, ns, w, KonnectivityProxy, KubeconfigFile), issued[6], "kube-apiserver", 6443)
    && EgressContent(s, ns, w, ApiServerProcess) == Some(EgressSelectorConfiguration)
  }

  lemma ServerFiles(ns: string, name: string, cp: ControlPlaneSpec, ip: string, issued: seq<SecretData>, s: Store,
                    w: Workload)
    requires TrustStored(ns, cp.pki, ip, issued, s) && ConfigsStored(ns, cp, ip, issued, s) && |issued| == 7
    requires ServerRuns(w, name, ServerSpec(cp, ip))
    ensures ServerFilesRight(ns, issued, s, w)
  {
    hide TrustStored, ConfigsStored, ServerRuns, Content, Stored, Serves, Leads, Presents, EntryAt;
    PairsStored(ns, cp.pki, ip, issued, s);
    ConfigsPresent(ns, cp, ip, issued, s);
    ServerVolumes(w, name, cp, ip);
    var pki := cp.pki;
    ReadsKeyPair(s, ns, w, ApiServerProcess, ServerVolume, pki.kubeAPIServer.name, issued[2]);
    ReadsKeyPair(s, ns, w, KonnectivityProxy, ServerVolume, pki.kubeAPIServer.name, issued[2]);
    Reads(s, ns, w, ApiServerProcess, AccountKeyFile, AccountsVolume, pki.serviceAccounts, issued[3]);
    Reads(s, ns, w, ApiServerProcess, AccountSigningKeyFile, AccountsVolume, pki.serviceAccounts, issued[3]);
    ReadsKubeconfig(s, ns, w, KonnectivityProxy, KonnectivityVolume, pki.konnectivity + "-kubeconfig", issued[6],
      "kube-apiserver", 6443);
    ReadsEgress(s, ns, w);
  }

  lemma ServerVolumes(w: Workload, name: string, cp: ControlPlaneSpec, ip: string)
    requires ServerRuns(w, name, ServerSpec(cp, ip))
    ensures ServerVolume in w.volumes && w.volumes[ServerVolume] == SecretVolume(cp.pki.kubeAPIServer.name)
    ensures AccountsVolume in w.volumes && w.volumes[AccountsVolume] == SecretVolume(cp.pki.serviceAccounts)
    ensures KonnectivityVolume in w.volumes
    ensures w.volumes[KonnectivityVolume] == SecretVolume(cp.pki.konnectivity + "-kubeconfig")
    ensures EgressVolume in w.volumes && w.volumes[EgressVolume] == ConfigMapVolume("konnectivity-egress")
  {
    hide Selects, Tag;
  }

  lemma ReadsEgress(s: Store, ns: string, w: Workload)
    requires EgressVolume in w.volumes && w.volumes[EgressVolume] == ConfigMapVolume("konnectivity-egress")
    requires Stored(s, ConfigMap, ns, "konnectivity-egress", ConfigMapBody(EgressSelectorConfiguration))
    ensures EgressContent(s, ns, w, ApiServerProcess) == Some(EgressSelectorConfiguration)
  {}

  // The controller manager signs with the CA's pair and presents its own.  What it serves
  // with, and the key that it signs tokens with, are its own exactly as its volumes say: by
  // the two fixed names.
  ghost predicate ManagerFilesRight(ns: string, cp: ControlPlaneSpec, issued: seq<SecretData>, s: Store, w: Workload)
    requires |issued| == 7
  {
    var service := cp.kubeControllerManager.service;
    && Content(s, ns, w, ManagerProcess, ClusterSigningCertFile) == EntryAt(issued[0], TlsCrt)
    && Content(s, ns, w, ManagerProcess, ClusterSigningKeyFile) == EntryAt(issued[0], TlsKey)
    && Leads(Content(s, ns, w, ManagerProcess, KubeconfigFile), issued[4], service.name, service.port)
    && (cp.pki.kubeControllerManager == "kube-controller-manager" ==> Serves(s, ns, w, ManagerProcess, issued[4]))
    && (cp.pki.serviceAccounts == "service-accounts" ==>
          Content(s, ns, w, ManagerProcess, AccountSigningKeyFile) == EntryAt(issued[3], TlsKey))
  }

  lemma ManagerFiles(ns: string, name: string, cp: ControlPlaneSpec, ip: string, issued: seq<SecretData>, s: Store,
                     w: Workload)
    requires TrustStored(ns, cp.pki, ip, issued, s) && ConfigsStored(ns, cp, ip, issued, s) && |issued| == 7
    requires ManagerRuns(w, name, ManagerSpec(cp))
    ensures ManagerFilesRight(ns, cp, issued, s, w)
  {
    hide TrustStored, ConfigsStored, ManagerRuns, Content, Stored, Serves, Leads, Presents, EntryAt;
    PairsStored(ns, cp.pki, ip, issued, s);
    ConfigsPresent(ns, cp, ip, issued, s);
    ManagerVolumes(w, name, cp);
    var pki, service := cp.pki, cp.kubeControllerManager.service;
    Reads(s, ns, w, ManagerProcess, ClusterSigningCertFile, CaVolume, pki.ca, issued[0]);
    Reads(s, ns, w, ManagerProcess, ClusterSigningKeyFile, CaVolume, pki.ca, issued[0]);
    ReadsKubeconfig(s, ns, w, ManagerProcess, KubeconfigVolume, "kube-controller-manager-kubeconfig", issued[4],
      service.name, service.port);
    if pki.kubeControllerManager == "kube-controller-manager" {
      ReadsKeyPair(s, ns, w, ManagerProcess, ManagerVolume, pki.kubeControllerManager, issued[4]);
    }
    if pki.serviceAccounts == "service-accounts" {
      Reads(s, ns, w, ManagerProcess, AccountSigningKeyFile, AccountsVolume, pki.serviceAccounts, issued[3]);
    }
  }

  lemma ManagerVolumes(w: Workload, name: string, cp: ControlPlaneSpec)
    requires ManagerRuns(w, name, ManagerSpec(cp))
    ensures CaVolume in w.volumes && w.volumes[CaVolume] == SecretVolume(cp.pki.ca)
    ensures ManagerVolume in w.volumes && w.volumes[ManagerVolume] == SecretVolume("kube-controller-manager")
    ensures AccountsVolume in w.volumes && w.volumes[AccountsVolume] == SecretVolume("service-accounts")
    ensures KubeconfigVolume in w.volumes
    ensures w.volumes[KubeconfigVolume] == SecretVolume("kube-controller-manager-kubeconfig")
  {
    hide Selects, Tag;
  }

  // The scheduler serves with its own pair, presents it, and finds its configuration.
  ghost predicate SchedulerFilesRight(ns: string, cp: ControlPlaneSpec, issued: seq<SecretData>, s: Store, w: Workload)
    requires |issued| == 7
  {
    var service := cp.kubeScheduler.service;
    && Serves(s, ns, w, SchedulerProcess, issued[5])
    && Leads(Content(s, ns, w, SchedulerProcess, KubeconfigFile), issued[5], service.name, service.port)
    && Content(s, ns, w, SchedulerProcess, SchedulerConfigFile) == Some(SchedulerConfiguration)
  }

  lemma SchedulerFiles(ns: string, name: string, cp: ControlPlaneSpec, ip: string, issued: seq<SecretData>, s: Store,
                       w: Workload)
    requires TrustStored(ns, cp.pki, ip, issued, s) && ConfigsStored(ns, cp, ip, issued, s) && |issued| == 7
    requires SchedulerRuns(w, name, SchedulerSpec(cp))
    ensures SchedulerFilesRight(ns, cp, issued, s, w)
  {
    hide TrustStored, ConfigsStored, SchedulerRuns, Content, Serves, Leads, Presents;
    PairsStored(ns, cp.pki, ip, issued, s);
    ConfigsPresent(ns, cp, ip, issued, s);
    SchedulerVolumes(w, name, cp);
    var pki, service := cp.pki, cp.kubeScheduler.service;
    ReadsKeyPair(s, ns, w, SchedulerProcess, SchedulerVolume, pki.kubeScheduler, issued[5]);
    ReadsConfiguration(s, ns, w, issued[5], service.name, service.port);
  }

  lemma SchedulerVolumes(w: Workload, name: string, cp: ControlPlaneSpec)
    requires SchedulerRuns(w, name, SchedulerSpec(cp))
    ensures SchedulerVolume in w.volumes && w.volumes[SchedulerVolume] == SecretVolume(cp.pki.kubeScheduler)
    ensures KubeconfigVolume in w.volumes && w.volumes[KubeconfigVolume] == SecretVolume("kube-scheduler-config")
  {
    hide Selects, Tag;
  }

  lemma ReadsConfiguration(s: Store, ns: string, w: Workload, pair: SecretData, host: string, port: nat)
    requires KubeconfigVolume in w.volumes && w.volumes[KubeconfigVolume] == SecretVolume("kube-scheduler-config")
    requires SchedulerConfigStored(s, ns, "kube-scheduler-config", pair, host, port)
    ensures Leads(Content(s, ns, w, SchedulerProcess, KubeconfigFile), pair, host, port)
    ensures Content(s, ns, w, SchedulerProcess, SchedulerConfigFile) == Some(SchedulerConfiguration)
  {
    var name := "kube-scheduler-config";
    var data := BodyAt(s, Key(Secret, ns, name)).value.data;
    hide Content, BodyAt;
    ReadsKubeconfig(s, ns, w, SchedulerProcess, KubeconfigVolume, name, pair, host, port);
    Reads(s, ns, w, SchedulerProcess, SchedulerConfigFile, KubeconfigVolume, name, data);
    hide Presents;
  }

  // After any run, once the control plane is at rest: what the containers of its three
  // stored Deployments find at the files that they are started with.
  lemma FilesAtRest(c: Config, sys: Sys, es: seq<Event>)
    requires WellFormed(c) && Addressed(c) && ComesToRest(c, sys, es)
    ensures var s := Run(sys, es).store;
      && HasSpec(c, s) && |c.issued| == 7
      && FilesRight(c.ns, Spec(c, s), c.issued, s)
  {
    assert |c.issued| == 7;
    hide WellFormed, ComesToRest, HasSpec, Run, Spec, ResourcesStored, ServiceStored, TrustStored, ConfigsStored,
      ServerRuns, ManagerRuns, SchedulerRuns, ServerFilesRight, ManagerFilesRight, SchedulerFilesRight, ServerSpec,
      ManagerSpec, SchedulerSpec, BodyAt;
    RestIsManifest(c, sys, es);
    var s := Run(sys, es).store;
    var cp, ip := Spec(c, s), c.ingress[0];
    var kas, kcm, ks := BodyAt(s, Key(Deployment, c.ns, cp.kubeAPIServer.deployment.name)),
      BodyAt(s, Key(Deployment, c.ns, "kube-controller-manager")), BodyAt(s, Key(Deployment, c.ns, "kube-scheduler"));
    ServerFiles(c.ns, c.name, cp, ip, c.issued, s, kas.value.workload);
    ManagerFiles(c.ns, c.name, cp, ip, c.issued, s, kcm.value.workload);
    SchedulerFiles(c.ns, c.name, cp, ip, c.issued, s, ks.value.workload);
  }

  ghost predicate FilesRight(ns: string, cp: ControlPlaneSpec, issued: seq<SecretData>, s: Store)
    requires |issued| == 7
  {
    var kas, kcm, ks := BodyAt(s, Key(Deployment, ns, cp.kubeAPIServer.deployment.name)),
      BodyAt(s, Key(Deployment, ns, "kube-controller-manager")), BodyAt(s, Key(Deployment, ns, "kube-scheduler"));
    && kas.Some? && kas.value.DeploymentBody? && kcm.Some? && kcm.value.DeploymentBody?
    && ks.Some? && ks.value.DeploymentBody?
    && ServerFilesRight(ns, issued, s, kas.value.workload)
    && ManagerFilesRight(ns, cp, issued, s, kcm.value.workload)
    && SchedulerFilesRight(ns, cp, issued, s, ks.value.workload)
  }
}
