# Verification of the kubeception operator

The operator hosts Kubernetes control planes inside a cluster.  Six reconcilers share one
object store with three outside actors: the provider that assigns an address to the
load-balancer Service, cert-manager that issues key pairs, and the user who edits
ControlPlanes.  This project models them as one state machine and proves what every
interleaving of their API calls keeps, and where it ends.

## How the model is built

- `Api.dfy`: custom resources, cluster objects and the store, a map from (kind, namespace,
  name) to object.  A status subresource has a key of its own.
- `Labels.dfy`, `Programs.dfy`: label maps, kubeconfigs, generated Deployments, and each
  `Reconcile` as a program of API calls.  `Code` gives the call at a program counter from
  the custom resource as it was read and the one object that later closures still look at;
  `Exec` performs one call, `Finish` runs to the return.
- `Reconcilers.dfy`: the six `Reconcile` methods in imperative form over a client object,
  each proved to be a run of its program for every pattern of failing calls.
- `Refinement.dfy`: such a method and a worker of the joint machine do the same, store and
  queues included.
- `Aliasing.dfy`: the shared Go maps and slices, deep copies and the in-place label merge.
- `Machine.dfy`: the joint machine.  A step is one API call of one reconciler, one move of a
  work queue or timer, a restart, or one move of the environment.
- `Cells.dfy`: the reference.  One control plane gives rise to 32 objects ("cells").
  `Derive` says what each should hold given only the cells before it; `Target` solves these
  equations.  `Settling.dfy` and `Invariant.dfy` tie stored objects and reconciles in
  progress to the cells.
- `Termination.dfy`, `Convergence.dfy`, `Duties.dfy`, `Wakeup.dfy`, `Repose.dfy`,
  `FairRuns.dfy`: bounded work, the unique resting place, no lost wakeups, and fair runs.
- `IdleComponents.dfy`: idle component reconcilers are up to date in runs of any events.
- `Retries.dfy`, `FailedCalls.dfy`, `Losses.dfy`: when a dropped error loses a wakeup, over
  any interleaving and for an undisturbed reconcile, and where that leads.
- `Drift.dfy`: the changes that nobody hears of.
- `AddressLag.dfy`, `StaleServer.dfy`: when the API server advertises the recorded address,
  and a run in which it does not.
- `Manifest.dfy`, `Files.dfy`: what a control plane at rest consists of, from the user's
  spec alone, and what its processes read.
- `Isolation.dfy`, `Owners.dfy`, `Integrity.dfy`, `History.dfy`, `Causality.dfy`,
  `Passes.dfy`, `Stabilisation.dfy`, `Versions.dfy`, `Addresses.dfy`: the other properties, by
  name.
- `Samples.dfy`: the shipped sample meets the assumptions.

`WellFormed` in `Cells.dfy` lists what names must satisfy: non-empty, pairwise distinct
certificate and derived secret names, a root issuer not named like the CA, a KAS Deployment
not named like the two fixed ones.  `Conforms` says that component TLS names match the Pki
names.  `Consistent` adds that the namespace holds one ControlPlane and its certificates.
`Intact` adds that the key pairs which a reconcile in progress has fetched are still there.

## Where the code does not do what one might expect

- The ControlPlane reconciler does not watch KubeSchedulers
  (controlplane_controller.go:204-211) and the KubeAPIServer reconciler does not watch
  Secrets (kubeapiserver_controller.go:223-228).  A KubeScheduler resource or konnectivity
  kubeconfig that is changed or deleted stays so while the operator is otherwise idle
  (`Drift.SchedulerDriftStays`, `Drift.KubeconfigDriftStays`).  Any other object that the
  reconcilers write is repaired, whether it was changed or deleted (`Wakeup.RunAwake`,
  `Repose.QuietIsTarget`).
- A failed status update of the load balancer is logged as to be retried in three seconds,
  but the reconcile returns without an error and without a delay
  (loadbalancer_controller.go:106-112), and the Pki reconciler drops every write error
  (pki_controller.go:316-329).  If such a call was needed, the wakeup is lost exactly when
  nothing queues the reconcile again before it ends, whatever interleaves
  (`Retries.LostExactly`).  A Pki reconcile that nothing interrupts queues itself by changing
  any of its objects and by stopping at a gate, so one failure among several needed calls, as
  in an installation, is made good; the wakeup is lost exactly when the admin secret is
  fetched, the address is known, something is missing and every call for something missing
  fails
  (`FailedCalls.PkiLostExactly`; `FailedCalls.LoadbalancerLostExactly` for the load
  balancer).  The control plane then comes to rest away from its target: a moved address is
  never passed on (`Losses.AddressChangeIsLost`), a load balancer stays without its address
  and the Pki at its gate (`Losses.StatusLossStays`, `Losses.StatusLossOutlasts`), what was
  missing of the Pki stays missing (`Losses.PkiLossStays`).
- The KubeControllerManager's and the KubeScheduler's output secrets have fixed names.  A
  spec that names them as input makes the second reconcile differ from the first
  (`Passes.IdempotentExactly`).
- Two volumes of the KubeControllerManager have fixed names, whatever the spec says, so its
  Deployment can mount secrets that do not exist (`Integrity.KcmMountsExactly`,
  `Integrity.KcmCanDangle`) and leave its own out (`Manifest.OwnVolumes`).
- The KubeScheduler reconciler ignores `deployment.labels`; it and the
  KubeControllerManager reconciler ignore `deployment.name`.
- The KubeAPIServer reconciler does not wait for an address, and single API calls
  interleave, so a KAS Deployment can for a while advertise another address than the Pki
  records (`StaleServer.ServerAddressLags`).  With the KubeAPIServer reconciler idle that is
  so exactly while the KubeAPIServer and Pki resources disagree
  (`AddressLag.AdvertisedExactly`), and never while the ControlPlane reconciler is idle too
  (`AddressLag.AdvertisedWhenIdle`).

## Model

| member | source | states |
|---|---|---|
| `LabelMaps.CoalesceString` | internal/controller/utils.go:83-90 | the loop returns the first non-empty argument, or nothing if all are empty |
| `LabelMaps.MakeLabels` | internal/controller/utils.go:69-81 | default labels overridden by the caller's, in whatever order the map is ranged over |
| `LabelMaps.Overlay` | internal/controller/loadbalancer_controller.go:82-88 | ranging over one map and assigning into another overrides it key by key |
| `LabelMaps.SelectorAgreement` | internal/controller/controlplane_controller.go:137-145 | the Service selects the API-server pods if and only if the name label is in the selectors, absent from the user's labels, or has the default value there |
| `LabelMaps.CaptureExactly` | internal/controller/kubecontrollermanager_controller.go:129-138 | exactly when a pod of another component matches the Service selector; never if neither side redefines the name label |
| `LabelMaps.KubeconfigContents` | internal/controller/utils.go:34-67 | the client certificate of a kubeconfig is tls.crt followed by ca.crt, its key is tls.key, its authority is ca.crt; a missing entry has no bytes |
| `LabelMaps.KubeconfigDeterminesKeyPair` | internal/controller/utils.go:34-67 | equal kubeconfigs mean equal server, authority, certificate and key, although certificate and authority are concatenated |
| `Reconcilers.Client.CreateOrPatch` | internal/controller/utils.go:92-105 | the owner set beforehand takes effect on creation only; a rejected or failing call leaves the store alone |
| `Reconcilers.ControlPlaneReconciler.Reconcile` | internal/controller/controlplane_controller.go:78-201 | for every pattern of failing calls, store, outcome and number of calls are those of the program: Loadbalancer, address read back, Pki, KubeAPIServer, KubeControllerManager, KubeScheduler |
| `Reconcilers.ControlPlaneReconciler.DeriveKubeAPIServer` | internal/controller/controlplane_controller.go:136-151 | the projected KubeAPIServer: merged labels, address fed back, version defaulted |
| `Reconcilers.LoadbalancerReconciler.Reconcile` | internal/controller/loadbalancer_controller.go:68-115 | for every pattern of failing calls, store, outcome and number of calls are those of the program: Service, then status from its first ingress, with the error of the status update dropped |
| `Reconcilers.PkiReconciler.Reconcile` | internal/controller/pki_controller.go:73-304 | for every pattern of failing calls, store, outcome and number of calls are those of the program: eleven calls with two gates, every write error dropped |
| `Reconcilers.PkiReconciler.CreateOrPatch` | internal/controller/pki_controller.go:316-329 | a dropped error lets the reconcile go on as after a success |
| `Reconcilers.KubeAPIServerReconciler.Reconcile` | internal/controller/kubeapiserver_controller.go:73-220 | for every pattern of failing calls, store, outcome and number of calls are those of the program: four gates, the first before two of the three writes |
| `Reconcilers.KubeAPIServerReconciler.CheckSecrets` | internal/controller/kubeapiserver_controller.go:145-162 | the three later gates, in order |
| `Reconcilers.KubeControllerManagerReconciler.Reconcile` | internal/controller/kubecontrollermanager_controller.go:72-231 | for every pattern of failing calls, store, outcome and number of calls are those of the program: three gates, kubeconfig, Deployment |
| `Reconcilers.KubeControllerManagerReconciler.MakeWorkload` | internal/controller/kubecontrollermanager_controller.go:125-149 | labels, selector, pod labels, volumes and image of the Deployment |
| `Reconcilers.KubeSchedulerReconciler.Reconcile` | internal/controller/kubescheduler_controller.go:76-215 | for every pattern of failing calls, store, outcome and number of calls are those of the program: one gate, configuration secret, Deployment |
| `Refinement.ReconcileIsARun` | internal/controller/controlplane_controller.go:78-201 | for every pattern of failing calls, the failing read and the absent resource included: a worker of the joint machine on the queued key leaves the store of the method, and the key is queued after an error, in the timers after RequeueAfter and nowhere after success, except that watchers of changed objects are queued |
| `Programs.StaleStatusIsRefused` | internal/controller/loadbalancer_controller.go:106-112 | a status update from a read that has been overtaken changes nothing and reports nothing |
| `LabelAliasing.Append` | internal/controller/pki_controller.go:198-199 | append, in place or not, adds one element and leaves what the old slice shows |
| `LabelAliasing.CopyMap` | api/v1alpha1/zz_generated.deepcopy.go:123-132 | the copy is fresh and equal; a nil map stays nil |
| `LabelAliasing.DeepCopyServerCert` | api/v1alpha1/zz_generated.deepcopy.go:606-618 | copied slices are fresh, equal, disjoint and without spare capacity |
| `LabelAliasing.DeepCopyControlPlane` | api/v1alpha1/zz_generated.deepcopy.go:88-95 | the copy of a spec is equal, map by map and list by list, and shares no map or slice with anything older |
| `LabelAliasing.MutateKubeAPIServer` | internal/controller/controlplane_controller.go:136-151 | the label loop writes through the shared map; the result is the user's labels overridden by the selectors |
| `LabelAliasing.MutateTwice` | internal/controller/controlplane_controller.go:136-151 | running the closure again on what it wrote to derives the same |
| `LabelAliasing.CachedControlPlane.Project` | internal/controller/controlplane_controller.go:80-151 | deep copy and aliased merge refine the projection on values and modify nothing that existed |
| `LabelAliasing.CachedControlPlane.ProjectAndProjectAgain` | internal/controller/controlplane_controller.go:80-151 | the cached ControlPlane keeps its contents, so a later reconcile derives the same |
| `LabelAliasing.RepeatedAddresses` | internal/controller/pki_controller.go:191-211 | after any series of reconciles the lists are the Pki's plus the last address; they never grow |
| `Cells.UniqueSolution` | internal/controller/controlplane_controller.go:90-198 | contents that satisfy the dependency equations are the target: it is unique |
| `Settling.FreshDerives` | internal/controller/pki_controller.go:88-301 | a reconcile whose reads are current writes what the equations say, for each of the six programs and each call |
| `Invariant.RunConsistent` | internal/controller/pki_controller.go:88-301 | in every run that keeps the identity, every stored object and every reconcile in progress fits it: edits, failures, restarts, third-party changes and deletions included |
| `Invariant.CellChange` | internal/controller/controlplane_controller.go:93-190 | one step changes at most one object of a control plane, for one of five causes; a deletion takes an object with its status |
| `Machine.OneKeyChanges` | internal/controller/utils.go:92-105 | a step that deletes nothing writes one key and never changes an owner |
| `Termination.StepMeasure` | internal/controller/controlplane_controller.go:90-198 | with spec, ingress and key pairs fixed, the measure never grows and every step that changes an object makes it smaller, whatever older specs, addresses and resources the reconciles in progress have read |
| `Termination.EffectiveStepsAreBounded` | internal/controller/pki_controller.go:88-301 | no run has more effective steps than the measure of its first state, reconciles that began before the last edit included |
| `Termination.OperatorWritesCells` | internal/controller/kubeapiserver_controller.go:92-177 | whatever a reconciler changes in the namespace is one of the 32 objects, so effective steps are all of its changes |
| `Convergence.StuckExactly` | internal/controller/pki_controller.go:161-185 | no reconciler, provider or cert-manager move changes anything if and only if every object that is asked for holds what its equation asks; in every store that fits, reachable or not, with or without an address |
| `Convergence.StuckExactlyAtTarget` | internal/controller/pki_controller.go:161-185 | with an address, that is the case if and only if every object holds the one target |
| `Convergence.Converges` | internal/controller/kubeapiserver_controller.go:86-162 | after n rounds in which each actor moves, in any order and number, the first n objects agree with their equations; after 32 rounds all do and nobody can move, and with an address every object holds the target |
| `Wakeup.RestartIsAwake` | internal/controller/controlplane_controller.go:204-212 | after a restart on any store that fits, every reconciler is covered |
| `Convergence.PassIsARun` | internal/controller/controlplane_controller.go:78-201 | a whole reconcile is a run of the joint machine, which links the two granularities |
| `Wakeup.RunAwake` | internal/controller/controlplane_controller.go:204-211 | in every run, through edits, failures, restarts, third-party changes and deletions, a reconciler that is neither queued, waiting nor running has nothing left to do, and one in progress did its work so far or is queued again; a needed call whose error is dropped may fail if the same reconcile is queued again before it ends |
| `IdleComponents.IdleComponentIsCurrent` | internal/controller/kubeapiserver_controller.go:223-228 | in runs of any events, deletions and edits of names and labels included: an idle KAS, KCM or KS key whose resource exists means that the Deployment is the one generated from the current resource |
| `Wakeup.ChangeWakes` | internal/controller/loadbalancer_controller.go:118-123 | changes and deletions of the resource, of the followed status and of watched objects queue their reconciler |
| `Repose.QuietIsTarget` | internal/controller/pki_controller.go:182-185 | a control plane with empty queues, nothing running and nothing to assign or issue holds its target |
| `Repose.QuietIsRight` | internal/controller/pki_controller.go:182-185 | the same without an ingress: every object that is asked for holds what its equation asks |
| `Drift.SchedulerDriftStays` | internal/controller/controlplane_controller.go:204-211 | a changed or deleted KubeScheduler resource is never put right, however long the operator works |
| `Drift.KubeconfigDriftStays` | internal/controller/kubeapiserver_controller.go:223-228 | a changed or deleted konnectivity kubeconfig wakes nobody |
| `Retries.CoveredExactly` | internal/controller/pki_controller.go:316-329 | right after its next call, a reconciler that was covered is so if and only if the call goes through, reports its error, was not needed, or the reconciler runs again anyway |
| `Retries.LostExactly` | internal/controller/pki_controller.go:306-329 | a needed call fails whose error is dropped: whatever interleaves until the reconcile ends, its wakeup is kept if and only if the reconcile is queued again before, by a later change of its own, by a gate or by anybody else |
| `FailedCalls.PkiLostExactly` | internal/controller/pki_controller.go:88-301 | an undisturbed Pki reconcile, for every pattern of failing calls: the wakeup is lost if and only if the gates are open, something is missing in the store before, and every remaining call for something missing fails |
| `FailedCalls.MissingMeans` | internal/controller/pki_controller.go:88-301 | missing is what a call of the reconcile would change: its object differs from the body of the call |
| `FailedCalls.LoadbalancerLostExactly` | internal/controller/loadbalancer_controller.go:80-115 | an undisturbed Loadbalancer reconcile: the wakeup is lost if and only if the Service needs nothing and goes through, there is an address that the status lacks, and the status update fails |
| `Losses.AddressChangeIsLost` | internal/controller/loadbalancer_controller.go:106-112 | from any control plane at rest: the provider moves the address, the one status update fails, and everybody is at rest again with the old address everywhere |
| `Losses.StatusLossStays` | internal/controller/loadbalancer_controller.go:106-112 | after a lost status update neither the status nor any custom resource changes, whatever the Pki and component reconcilers and cert-manager go on doing |
| `Losses.StatusLossOutlasts` | internal/controller/controlplane_controller.go:93-190 | nor does a busy ControlPlane reconciler find out, as long as its spec asks for the load balancer that there is |
| `Losses.PkiLossStays` | internal/controller/pki_controller.go:88-301 | if no needed call of a Pki reconcile with open gates goes through, however many there are, everything missing stays missing and the Pki is queued by nobody, whatever the component reconcilers and cert-manager do |
| `FairRuns.StillIsRight` | internal/controller/kubecontrollermanager_controller.go:88-101 | in a fair segment of single API calls without an effective step, every object agrees with its equation throughout, and with an address holds the target |
| `FairRuns.FairSegmentExists` | internal/controller/controlplane_controller.go:78-212 | from every state, whatever is queued or in progress, a run can go on with a fair segment |
| `FairRuns.FairRunsSettle` | internal/controller/kubescheduler_controller.go:92-95 | in a fair, failure-free run of interleaved API calls, every object agrees with its equation throughout all but a bounded number of segments |
| `FairRuns.FairRunsSettleForGood` | internal/controller/controlplane_controller.go:78-212 | in every unbounded fair run there is a segment from which on every object agrees with its equation, and with an address holds its target |
| `Isolation.ProjectionIsARun` | internal/controller/controlplane_controller.go:91-183 | projecting any run onto a namespace is a run of that namespace's events alone |
| `Isolation.StepsCommute` | internal/controller/pki_controller.go:88-286 | any two steps of different namespaces commute |
| `Causality.NoWorkloadWithoutIp` | internal/controller/pki_controller.go:182-301 | if a component's Deployment exists, a non-empty address was recorded in the Pki earlier in the run, whatever was deleted meanwhile |
| `Causality.LeavesFollowIp` | internal/controller/pki_controller.go:182-211 | if a leaf certificate, a leaf key pair or a component's Deployment exists, or a component reconcile has passed its first gate, a non-empty address was recorded in the Pki earlier in the run, whatever was deleted meanwhile |
| `Causality.IssuanceOrder` | internal/controller/pki_controller.go:88-185 | in every run that deletes nothing in the namespace, a leaf key pair implies the admin and CA key pairs and both issuers |
| `Causality.CaGateCannotFail` | internal/controller/kubeapiserver_controller.go:86-149 | past the konnectivity gate, a CA gate call that goes through finds its secret unless something was deleted |
| `Causality.NoSigningCycle` | internal/controller/pki_controller.go:102-155 | following signers takes at most one hop, to the CA certificate, which no other certificate signs, deletions included |
| `Causality.IssuedChainsAreComplete` | internal/controller/pki_controller.go:191-301 | in every run that deletes nothing in the namespace, every issued certificate has its chain in the store down to the self-signed root |
| `Integrity.VolumesExist` | internal/controller/kubeapiserver_controller.go:255-262 | in every run that deletes no Secret or ConfigMap, every one that a stored Deployment mounts exists, even when resources change in the middle of a reconcile |
| `Integrity.KcmMountsExactly` | internal/controller/kubecontrollermanager_controller.go:140-145 | the KCM Deployment mounts what exists if and only if the two fixed secrets do |
| `Integrity.KcmMountsAlways` | internal/controller/kubecontrollermanager_controller.go:88-149 | for a spec: the KCM Deployment mounts what exists on every store that passes the gates if and only if both fixed names are among the three gated secrets and the written one |
| `Integrity.KcmCanDangle` | internal/controller/kubecontrollermanager_controller.go:142-143 | a concrete store that passes all gates and yields a Deployment with missing secrets |
| `History.ServerCertificateSans` | internal/controller/pki_controller.go:191-211 | in every state of every run, an API-server certificate lists the addresses of one recorded Pki followed by its one non-empty address |
| `History.FramesAreRecorded` | internal/controller/kubeapiserver_controller.go:75-83 | a reconcile works on a body that its resource had at some point of the run |
| `Owners.ForestIsKept` | internal/controller/utils.go:92-105 | in every run, each created object has one owner, of its namespace and of the kind that creates it |
| `Owners.ExecOwners` | internal/controller/pki_controller.go:316-329 | a call owns what it creates and never touches the owner of what was there |
| `Owners.RootIsControlPlane` | internal/controller/controlplane_controller.go:93-185 | owner chains reach a ControlPlane of the same namespace within two hops |
| `Owners.NoOrphans` | internal/controller/loadbalancer_controller.go:125-138 | once the collector is done, every owned object has a living ControlPlane as root, even if reconciles recreated objects meanwhile |
| `Owners.DeletionTakesTheTree` | internal/controller/controlplane_controller.go:93-185 | deleting a ControlPlane and collecting leaves none of its descendants |
| `Passes.OnlyWritten` | internal/controller/kubecontrollermanager_controller.go:106-225 | a whole reconcile leaves every other key and every owner alone |
| `Passes.WriteSet` | internal/controller/kubescheduler_controller.go:100-210 | the keys that it may write are fixed by the resource |
| `Passes.IdempotentExactly` | internal/controller/controlplane_controller.go:78-201 | for each of the six resources: a second failure-free reconcile in a row changes nothing on every store, closed gates included, if and only if its input secret is not one of the two fixed output secrets |
| `Passes.KcmIdempotentExactly` | internal/controller/kubecontrollermanager_controller.go:88-116 | the KCM reconcile is idempotent on every store if and only if its input secret is not its fixed output secret |
| `Passes.SelfReading` | internal/controller/kubecontrollermanager_controller.go:106-116 | a concrete store on which the second reconcile loses the client key |
| `Passes.KsIdempotentExactly` | internal/controller/kubescheduler_controller.go:89-117 | the KubeScheduler reconcile is idempotent on every store if and only if its input secret is not its fixed output secret |
| `Passes.SelfReadingScheduler` | internal/controller/kubescheduler_controller.go:89-117 | a concrete store on which the second reconcile loses the client key |
| `Stabilisation.Stabilises` | internal/controller/kubeapiserver_controller.go:92-177 | from any store and for every spec, one full reconcile gives every managed object the body computed from the resource and the remembered object, and changes nothing else |
| `Stabilisation.Ends` | internal/controller/pki_controller.go:73-304 | every reconcile makes a fixed number of calls, at most 12 |
| `Versions.ImagesFollowVersions` | internal/controller/controlplane_controller.go:148-191 | after any series of edits, once at rest, each image tag is the component's own version or else the ControlPlane's |
| `Versions.VersionEditsAreLocal` | internal/controller/controlplane_controller.go:148-191 | an edit of versions moves nothing but the resources and Deployments of the components whose effective version changes |
| `Versions.VersionEditsAreCalm` | internal/controller/controlplane_controller.go:137-149 | an edit of versions keeps the identity, so all theorems about runs apply to it |
| `Versions.SelectorsIgnoreVersions` | internal/controller/kubeapiserver_controller.go:247-253 | no version or address changes a selector |
| `Versions.AcceptedExactly` | internal/controller/kubeapiserver_controller.go:247-253 | a store with immutable selectors accepts an edit if and only if it leaves every pod label of the API server as it is |
| `Versions.ServiceReachesServersExactly` | internal/controller/loadbalancer_controller.go:82-96 | at rest, after any run: the exact condition under which the stored Service selects the stored pods |
| `Versions.NoCapture` | internal/controller/kubescheduler_controller.go:143-152 | at rest, no pod of KCM or KS is captured unless a name label is redefined |
| `Addresses.OneAddressEverywhere` | internal/controller/loadbalancer_controller.go:106-112 | at rest, after any run: the provider's first address is the one in the load balancer's status, the Pki, the admin kubeconfig, both lists of the API server's certificate and the arguments of the API server, next to the current settings |
| `AddressLag.AdvertisedExactly` | internal/controller/kubeapiserver_controller.go:164-177 | in runs of any events, with the KubeAPIServer key idle: the Deployment advertises the address of the stored KubeAPIServer, so that of the Pki if and only if the two resources agree |
| `AddressLag.AdvertisedWhenIdle` | internal/controller/controlplane_controller.go:112-151 | with the ControlPlane and KubeAPIServer reconcilers idle, the Deployment advertises the address that the Pki records, whoever else is busy |
| `StaleServer.ServerAddressLags` | internal/controller/controlplane_controller.go:112-151 | from every fresh installation, a run without failures, edits or interference after which the Pki records the address and the API server advertises an empty one |
| `Addresses.OwnKeyPairs` | internal/controller/kubecontrollermanager_controller.go:106-116 | at rest, each of the four kubeconfigs presents the bytes issued to its client, certificate then authority, key and authority, to the host and port of its server in the current spec |
| `Manifest.RestIsManifest` | internal/controller/controlplane_controller.go:90-198 | at rest, after any run: every custom resource, the Service, both issuers, the seven certificates and key pairs, the kubeconfigs, the scheduler's two entries, the egress configuration and the three Deployments are under the names and with the contents that the current spec, the address and the issued pairs ask for, spelled out without programs or equations |
| `Manifest.Projections` | internal/controller/controlplane_controller.go:136-191 | the three component resources, field by field: labels overridden by the selectors, the address handed in, the version defaulted, and key pairs named as in the Pki |
| `Manifest.GeneratedServer` | internal/controller/kubeapiserver_controller.go:231-262 | the generated API-server Deployment: labels, pod labels and selector key by key, the selector matching its own pods, replicas, each of the six volumes by name, image and arguments |
| `Manifest.GeneratedManager` | internal/controller/kubecontrollermanager_controller.go:129-149 | the same for the controller manager with its four volumes, among them the kubeconfig that the reconcile writes |
| `Manifest.GeneratedScheduler` | internal/controller/kubescheduler_controller.go:143-160 | the same for the scheduler with its configuration and its key pair |
| `Manifest.IdleComponentRuns` | internal/controller/kubeapiserver_controller.go:223-228 | in runs of any events, what the Deployment of an idle component runs, in these terms |
| `Manifest.TargetKeepsTrust` | internal/controller/pki_controller.go:88-301 | at the target: the two issuers, and each certificate with its subject, addresses, secret and issuer, next to the issued pair |
| `Manifest.TargetKeepsConfigs` | internal/controller/kubescheduler_controller.go:100-130 | at the target: kubeconfig secrets hold a kubeconfig and nothing else, the scheduler's also its configuration |
| `Manifest.OwnVolumes` | internal/controller/kubecontrollermanager_controller.go:140-145 | the controller manager mounts the CA, and its own and the service-account key pair if and only if these bear one of the two fixed names |
| `Files.FilesAtRest` | internal/controller/kubeapiserver_controller.go:264-371 | at rest, the file flags of every container lead, through its mounts, the stored volumes and the stored secrets, to the issued entries: server and scheduler serve with their own pair, the API server checks tokens with the certificate and signs them with the key of one pair, the controller manager signs with the CA's, and with its own and the service-account key if these bear the fixed names |
| `Samples.SampleIsWellFormed` | config/samples/cluster_v1alpha1_controlplane.yaml:12-86 | the shipped sample meets the assumptions on names |
| `Samples.InstalledIsAttended` | internal/controller/controlplane_controller.go:204-212 | a namespace with just a ControlPlane meets the assumptions of the theorems about runs |

## Left out

- Termination.EffectiveStepsAreBounded: for a fixed spec without third-party edits or deletions, because each of those may cause new work.
- FairRuns.FairRunsSettle: segments must contain no restart and no failing call; the target may still be left for a while by a reconcile with stale reads, which is why it counts segments.
- Wakeup.RunAwake: nobody deletes the ControlPlane or an issued key pair, and third parties leave the two unwatched objects alone (see Drift); the identity of the spec is kept.
- Losses.StatusLossOutlasts: an edit of the load balancer's own spec, which queues it.
- Owners.DeletionTakesTheTree: owners are keys, where Kubernetes compares UIDs; a ControlPlane recreated under the same name before the collector ran adopts the old objects here, but not there.
- Integrity.VolumesExist: the two fixed names of the KubeControllerManager are excused unless its stored spec always carried them; third parties write no Deployment.
- IdleComponents.IdleComponentIsCurrent: the Deployment that the resource names must be its own when present, because nobody is told of changes to somebody else's.
- Causality.NoWorkloadWithoutIp: starts from a namespace without certificates, secrets and workloads.
- Causality.IssuanceOrder: in runs that delete nothing in the namespace, because a deleted issuer does not take its certificates along.
- LabelAliasing.DeepCopyControlPlane: object metadata, and the copies of lists and of the other generated types.
- The stale informer cache: a read returns the current object, and staleness comes from interleaved calls only.
- CreateOrPatch is one atomic step; between its read and its patch nothing interleaves, and its patch replaces the fields that the closures assign.
- A status update conflicts when resource or status differ from what was read; resource versions that changed and changed back are not told apart.
- Rotation of key pairs: in the settling theorems a certificate keeps the key pair it was issued.
- Container commands other than the file flags, ports, probes and the egress YAML, which are constants of the source; labels, selector, replicas, volumes, image tag and the arguments of the API server that depend on its resource are kept, mounts and file flags are in Files.
- Defaults that the API server fills in, fields of a Service that the cloud assigns, and errors of marshalling.
- Certificate key sizes and subjects beyond an enumeration; the contents of key pairs.
- The three-second delay: a timer that may fire at any later step.
- cmd/main.go, logging, metrics, leader election, RBAC, CRD and kustomize files.
