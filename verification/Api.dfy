// The custom resources of the operator (api/v1alpha1) and the cluster objects it
// manages, as values.  A status subresource is stored under a key of its own.
module Api {

  datatype Option<+T> = None | Some(value: T)

  // Go's map[string]string; a nil map and an empty one serialise alike.
  type Labels = map<string, string>

  const NAME_LABEL := "app.kubernetes.io/name"
  const INSTANCE_LABEL := "app.kubernetes.io/instance"

  /******* Custom resource specs *******/

  datatype DeploymentSpec = DeploymentSpec(name: string, replicas: int, labels: Labels)

  datatype ServiceRef = ServiceRef(name: string, port: nat)

  datatype LoadbalancerSpec = LoadbalancerSpec(name: string, port: int, selectors: Labels)

  datatype ServerCertSpec = ServerCertSpec(name: string, ipAddresses: seq<string>, dnsNames: seq<string>)

  datatype PkiSpec = PkiSpec(
    name: string,
    controlPlaneIP: string,
    ca: string,
    serviceAccounts: string,
    admin: string,
    kubeAPIServer: ServerCertSpec,
    kubeControllerManager: string,
    kubeScheduler: string,
    konnectivity: string)

  datatype KasTls = KasTls(ca: string, kubeAPIServer: string, serviceAccounts: string, konnectivity: string)

  datatype KasOptions = KasOptions(advertiseAddress: string, serviceClusterIpRange: string)

  datatype KasSpec = KasSpec(
    version: string, etcdServers: string, deployment: DeploymentSpec, tls: KasTls, options: KasOptions)

  datatype KcmTls = KcmTls(ca: string, kubeControllerManager: string, serviceAccounts: string)

  datatype KcmSpec = KcmSpec(version: string, tls: KcmTls, deployment: DeploymentSpec, service: ServiceRef)

  datatype KsSpec = KsSpec(version: string, service: ServiceRef, tls: string, deployment: DeploymentSpec)

  datatype ControlPlaneSpec = ControlPlaneSpec(
    version: string,
    loadbalancer: LoadbalancerSpec,
    pki: PkiSpec,
    kubeAPIServer: KasSpec,
    kubeControllerManager: KcmSpec,
    kubeScheduler: KsSpec)

  /******* Objects of the cluster *******/

  datatype Kind =
    | ControlPlane
    | Loadbalancer
    | LoadbalancerStatus
    | Pki
    | KubeAPIServer
    | KubeControllerManager
    | KubeScheduler
    | Service
    | ServiceStatus
    | Issuer
    | Certificate
    | Secret
    | ConfigMap
    | Deployment

  datatype Key = Key(kind: Kind, ns: string, name: string)

  datatype Signer = SelfSigned | SecretSigner(secretName: string)

  // The constant part of each managed certificate: common name, organisations, CA bit.
  datatype Subject =
    | RootAuthority      // ca, isCA, DNS name localhost
    | ClusterAdmin       // cluster-admin, O=system:masters
    | ApiServer          // kube-apiserver, O=kubernetes
    | ServiceAccountKeys // kubernetes, O=Kubernetes
    | ControllerManager  // system:kube-controller-manager, same O
    | Scheduler          // system:kube-scheduler, same O
    | KonnectivityServer // system:konnectivity-server, no O

  datatype CertificateSpec = CertificateSpec(
    subject: Subject, ipAddresses: seq<string>, dnsNames: seq<string>, secretName: string, issuer: string)

  // https://host:port
  datatype Url = Https(host: string, port: nat)

  // The dynamic part of a clientcmd Config: one cluster, one user, one context.
  datatype Kubeconfig = Kubeconfig(
    server: Url, authority: string, clientCertificate: string, clientKey: string)

  // The entries that secrets have: tls.crt, tls.key, ca.crt, kubeconfig.yml, config.json
  datatype Entry = TlsCrt | TlsKey | CaCrt | KubeconfigYml | ConfigJson

  // Contents of one entry of a Secret.  Marshalling is a constructor, hence injective.
  datatype Blob = Bytes(bytes: string) | Marshalled(config: Kubeconfig) | SchedulerConfiguration

  type SecretData = map<Entry, Blob>

  // The egress YAML is a constant of the source.
  datatype ConfigData = EgressSelectorConfiguration | OtherConfig(text: string)

  // The names of volumes in their pod.
  datatype VolumeName =
    | CaVolume                // ca
    | AccountsVolume          // service-accounts
    | ServerVolume            // kube-apiserver
    | EgressVolume            // konnectivity-egress
    | KonnectivityVolume      // konnectivity-kubeconfig
    | SocketVolume            // konnectivity-socket
    | KubeconfigVolume        // kubeconfig
    | ManagerVolume           // kube-controller-manager
    | SchedulerVolume         // kube-scheduler

  datatype Volume = SecretVolume(secretName: string) | ConfigMapVolume(configMap: string) | EmptyDirVolume

  // registry.k8s.io/<component>:<tag>
  datatype Component = KubeApiServerImage | KubeControllerManagerImage | KubeSchedulerImage

  datatype Image = Image(component: Component, tag: string)

  // The arguments of the API server that depend on its custom resource.
  datatype Arguments =
    | NoArguments
    | ServerArguments(serverCount: int, advertiseAddress: string, serviceClusterIpRange: string, etcdServers: string)

  // The parts of an apps/v1 Deployment that depend on a custom resource.
  datatype Workload = Workload(
    labels: Labels,
    replicas: int,
    selector: Labels,
    podLabels: Labels,
    volumes: map<VolumeName, Volume>,
    image: Image,
    arguments: Arguments)

  datatype Body =
    | ControlPlaneBody(controlPlane: ControlPlaneSpec)
    | LoadbalancerBody(loadbalancer: LoadbalancerSpec)
    | LoadbalancerStatusBody(ip: string)
    | PkiBody(pki: PkiSpec)
    | KasBody(kas: KasSpec)
    | KcmBody(kcm: KcmSpec)
    | KsBody(ks: KsSpec)
    | ServiceBody(port: int, selector: Labels)
    | ServiceStatusBody(ingress: seq<string>)
    | IssuerBody(signer: Signer)
    | CertificateBody(certificate: CertificateSpec)
    | SecretBody(data: SecretData)
    | ConfigMapBody(config: ConfigData)
    | DeploymentBody(workload: Workload)

  datatype Object = Object(owner: Option<Key>, body: Body)

  type Store = map<Key, Object>

  // The kinds that one of the six reconcilers is registered For.
  predicate Reconciled(kind: Kind) {
    kind in {ControlPlane, Loadbalancer, Pki, KubeAPIServer, KubeControllerManager, KubeScheduler}
  }

  // The constructor that the scheme decodes a key of the given kind into.
  predicate Typed(kind: Kind, body: Body) {
    match kind
    case ControlPlane => body.ControlPlaneBody?
    case Loadbalancer => body.LoadbalancerBody?
    case LoadbalancerStatus => body.LoadbalancerStatusBody?
    case Pki => body.PkiBody?
    case KubeAPIServer => body.KasBody?
    case KubeControllerManager => body.KcmBody?
    case KubeScheduler => body.KsBody?
    case Service => body.ServiceBody?
    case ServiceStatus => body.ServiceStatusBody?
    case Issuer => body.IssuerBody?
    case Certificate => body.CertificateBody?
    case Secret => body.SecretBody?
    case ConfigMap => body.ConfigMapBody?
    case Deployment => body.DeploymentBody?
  }

  function BodyAt(s: Store, k: Key): Option<Body> {
    if k in s then Some(s[k].body) else None
  }

  // Where the status subresource of a Loadbalancer or a Service is kept.
  function StatusKey(k: Key): Key {
    Key(if k.kind == Service then ServiceStatus else LoadbalancerStatus, k.ns, k.name)
  }

  // The object that a key belongs to: a status key stands for its object.
  function ObjectOf(k: Key): Key {
    match k.kind
    case LoadbalancerStatus => Key(Loadbalancer, k.ns, k.name)
    case ServiceStatus => Key(Service, k.ns, k.name)
    case _ => k
  }
}
