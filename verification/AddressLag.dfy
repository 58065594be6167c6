// The address in the API server's arguments.  It is the one of the stored KubeAPIServer, and
// so agrees with the Pki exactly as long as these two resources agree: always while the
// ControlPlane and KubeAPIServer reconcilers are idle, but not in the middle of a
// ControlPlane reconcile, because single API calls interleave.
module AddressLag {
  import opened Api
  import opened Programs
  import opened Machine
  import opened Cells
  import opened Invariant
  import opened Termination
  import opened Duties
  import opened Wakeup
  import IdleComponents

  // What the API server's Deployment advertises.
  function Advertised(b: Option<Body>): Option<string> {
    if b.Some? && b.value.DeploymentBody? && b.value.workload.arguments.ServerArguments?
    then Some(b.value.workload.arguments.advertiseAddress)
    else None
  }

  function RecordedAddress(s: Store, k: Key): Option<string> {
    var b := BodyAt(s, k);
    if b.Some? && b.value.PkiBody? then Some(b.value.pki.controlPlaneIP) else None
  }

  // While its reconciler is idle, the API server advertises what its resource says, so it
  // agrees with any Pki if and only if the two resources do: in runs of any events.
  lemma AdvertisedExactly(sys: Sys, es: seq<Event>, k: Key, p: Key)
    requires k.kind == KubeAPIServer && IdleComponents.Heeded(sys, k) && IdleComponents.TypedAt(sys.store, k)
    requires forall i :: 0 <= i < |es| ==> IdleComponents.KeepsType(es[i], k)
    requires forall i :: 0 <= i <= |es| ==> IdleComponents.OwnedAt(Run(sys, es[..i]).store, k)
    requires var now := Run(sys, es);
      k in now.store && k !in now.running && k !in now.pending && k !in now.timers
    ensures var s := Run(sys, es).store;
      && s[k].body.KasBody?
      && var d := BodyAt(s, IdleComponents.DeploymentKey(k, s[k].body));
         && Advertised(d) == Some(s[k].body.kas.options.advertiseAddress)
         && (Advertised(d) == RecordedAddress(s, p) <==>
               RecordedAddress(s, p) == Some(s[k].body.kas.options.advertiseAddress))
  {
    IdleComponents.IdleComponentIsCurrent(sys, es, k);
    IdleComponents.RunHeeds(sys, es, k);
    hide Run, IdleComponents.DeploymentKey, IdleComponents.OwnedAt, IdleComponents.Heeded;
  }

  // While the ControlPlane and KubeAPIServer reconcilers are both idle, the API server
  // advertises the address that the Pki records, whoever else is busy.
  lemma AdvertisedWhenIdle(c: Config, sys: Sys)
    requires WellFormed(c) && Awake(c, sys, {ControlPlane, KubeAPIServer})
    requires forall kind :: kind in {ControlPlane, KubeAPIServer} ==>
      var k := ResourceKey(c, kind); k !in sys.running && k !in sys.pending && k !in sys.timers
    ensures var s := sys.store;
      && At(c, s, PKI).Some? && At(c, s, PKI).value.PkiBody?
      && Advertised(At(c, s, KAS_DEPLOYMENT)) == Some(At(c, s, PKI).value.pki.controlPlaneIP)
  {
    hide WellFormed, At, KeyOf, Good, Spec, HasSpec, Prefix, Awake;
    var s := sys.store;
    IdleCells(c, sys);
    GoodResources(c, s);
    GoodServer(c, s);
  }

  lemma IdleCells(c: Config, sys: Sys)
    requires WellFormed(c) && Awake(c, sys, {ControlPlane, KubeAPIServer})
    requires forall kind :: kind in {ControlPlane, KubeAPIServer} ==>
      var k := ResourceKey(c, kind); k !in sys.running && k !in sys.pending && k !in sys.timers
    ensures HasSpec(c, sys.store) && Good(c, sys.store, PKI) && Good(c, sys.store, KAS)
    ensures Good(c, sys.store, KAS_DEPLOYMENT)
  {
    hide WellFormed, Intact, Owned, Good, HasSpec, OnTrack, Did, KeyOf;
    var s := sys.store;
    assert Covered(c, sys, ControlPlane) && Covered(c, sys, KubeAPIServer);
    ControlPlaneStored(c, s);
    DidGood(c, s, PKI);
    DidGood(c, s, KAS);
    GoodIsStored(c, s, KAS);
    ResourceCells(c);
    DidGood(c, s, KAS_DEPLOYMENT);
    hide Excused;
    NothingExcused(c, s);
  }

  lemma ControlPlaneStored(c: Config, s: Store)
    requires HasSpec(c, s)
    ensures ResourceKey(c, ControlPlane) in s
  {}

  lemma NothingExcused(c: Config, s: Store)
    requires WellFormed(c)
    ensures !Excused(c, s, PKI) && !Excused(c, s, KAS) && !Excused(c, s, KAS_DEPLOYMENT)
  {
    hide WellFormed;
  }

  lemma GoodResources(c: Config, s: Store)
    requires WellFormed(c) && HasSpec(c, s) && Good(c, s, PKI) && Good(c, s, KAS)
    ensures var ip := SeenIP(At(c, s, LB_STATUS));
      && At(c, s, PKI) == Some(PkiBody(Spec(c, s).pki.(controlPlaneIP := ip)))
      && At(c, s, KAS) == Some(KasBody(KasFor(Spec(c, s), ip)))
  {
    hide WellFormed, At, HasSpec, Spec, DeriveEndpoint, DeriveTrust, DeriveComponent, KasFor;
    assert Prefix(c, s, PKI)[LB_STATUS] == At(c, s, LB_STATUS);
    assert Prefix(c, s, KAS)[LB_STATUS] == At(c, s, LB_STATUS);
  }

  lemma GoodServer(c: Config, s: Store)
    requires WellFormed(c) && HasSpec(c, s) && Good(c, s, KAS_DEPLOYMENT)
    ensures At(c, s, KAS).Some? && At(c, s, KAS).value.KasBody?
    ensures Advertised(At(c, s, KAS_DEPLOYMENT)) == Some(At(c, s, KAS).value.kas.options.advertiseAddress)
  {
    hide WellFormed, At, HasSpec, Spec, DeriveEndpoint, DeriveTrust;
    assert Prefix(c, s, KAS_DEPLOYMENT)[KAS] == At(c, s, KAS);
  }
}
