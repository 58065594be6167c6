// Go's maps and slices are references and a struct copy shares them.  The ControlPlane
// reconciler writes labels through such a shared map, on an object that the client has
// deep-copied out of its cache.  Structs are values here whose reference fields point
// into the heap.
module LabelAliasing {
  import opened Api
  import opened LabelMaps
  import opened Programs

  /******* Maps and slices *******/

  class StringMap {
    var entries: Labels

    constructor ()
      ensures entries == map[]
    {
      entries := map[];
    }

    method Set(k: string, v: string)
      modifies this
      ensures entries == old(entries)[k := v]
    {
      entries := entries[k := v];
    }
  }

  ghost function MapRefs(m: StringMap?): set<object> {
    if m == null then {} else {m}
  }

  function Entries(m: StringMap?): Labels
    reads MapRefs(m)
  {
    if m == null then map[] else m.entries
  }

  // The first len elements of a backing array; the rest is spare capacity.
  datatype Slice = Nil | Slice(backing: array<string>, len: nat)

  ghost function SliceRefs(s: Slice): set<object> {
    if s.Nil? then {} else {s.backing}
  }

  ghost predicate SliceValid(s: Slice) {
    s.Slice? ==> s.len <= s.backing.Length
  }

  ghost function Elements(s: Slice): seq<string>
    requires SliceValid(s)
    reads SliceRefs(s)
  {
    if s.Nil? then [] else s.backing[..s.len]
  }

  // Go's append: in place while there is room, into a larger copy otherwise.
  method Append(s: Slice, v: string) returns (r: Slice)
    requires SliceValid(s)
    modifies SliceRefs(s)
    ensures SliceValid(r) && Elements(r) == old(Elements(s)) + [v]
    ensures Elements(s) == old(Elements(s))
    ensures r.Slice? && (r.backing in SliceRefs(s) || fresh(r.backing))
    ensures s.Nil? || s.len == s.backing.Length ==>
      fresh(r.backing) && (s.Slice? ==> s.backing[..] == old(s.backing[..]))
  {
    if s.Slice? && s.len < s.backing.Length {
      s.backing[s.len] := v;
      r := Slice(s.backing, s.len + 1);
    } else {
      var n := if s.Nil? then 0 else s.len;
      var a := new string[2 * n + 1](_ => "");
      for i := 0 to n
        invariant s.Slice? ==> s.backing[..] == old(s.backing[..])
        invariant a[..i] == Elements(s)[..i]
      {
        a[i] := s.backing[i];
      }
      a[n] := v;
      r := Slice(a, n + 1);
    }
  }

  /******* Structs *******/

  datatype DeploymentStruct = DeploymentStruct(name: string, replicas: int, labels: StringMap?)

  datatype LoadbalancerStruct = LoadbalancerStruct(name: string, port: int, selectors: StringMap?)

  datatype ServerCertStruct = ServerCertStruct(name: string, ipAddresses: Slice, dnsNames: Slice)

  // The other structs, as their value with one part kept by reference.
  datatype PkiStruct = PkiStruct(fields: PkiSpec, kubeAPIServer: ServerCertStruct)
  datatype KasStruct = KasStruct(fields: KasSpec, deployment: DeploymentStruct)
  datatype KcmStruct = KcmStruct(fields: KcmSpec, deployment: DeploymentStruct)
  datatype KsStruct = KsStruct(fields: KsSpec, deployment: DeploymentStruct)

  datatype ControlPlaneStruct = ControlPlaneStruct(
    version: string,
    loadbalancer: LoadbalancerStruct,
    pki: PkiStruct,
    kubeAPIServer: KasStruct,
    kubeControllerManager: KcmStruct,
    kubeScheduler: KsStruct)

  ghost function CertRefs(c: ServerCertStruct): set<object> {
    SliceRefs(c.ipAddresses) + SliceRefs(c.dnsNames)
  }

  // Everything that a struct refers to.
  ghost function Refs(s: ControlPlaneStruct): set<object> {
    MapRefs(s.loadbalancer.selectors) + CertRefs(s.pki.kubeAPIServer) + MapRefs(s.kubeAPIServer.deployment.labels)
    + MapRefs(s.kubeControllerManager.deployment.labels) + MapRefs(s.kubeScheduler.deployment.labels)
  }

  ghost predicate CertValid(c: ServerCertStruct) {
    SliceValid(c.ipAddresses) && SliceValid(c.dnsNames)
  }

  function DeploymentValue(d: DeploymentStruct): DeploymentSpec
    reads MapRefs(d.labels)
  {
    DeploymentSpec(d.name, d.replicas, Entries(d.labels))
  }

  function LoadbalancerValue(l: LoadbalancerStruct): LoadbalancerSpec
    reads MapRefs(l.selectors)
  {
    LoadbalancerSpec(l.name, l.port, Entries(l.selectors))
  }

  ghost function CertValue(c: ServerCertStruct): ServerCertSpec
    requires CertValid(c)
    reads CertRefs(c)
  {
    ServerCertSpec(c.name, Elements(c.ipAddresses), Elements(c.dnsNames))
  }

  function KasValue(k: KasStruct): KasSpec
    reads MapRefs(k.deployment.labels)
  {
    k.fields.(deployment := DeploymentValue(k.deployment))
  }

  // The value that a struct stands for, as it would be serialised.
  ghost function Value(s: ControlPlaneStruct): ControlPlaneSpec
    requires CertValid(s.pki.kubeAPIServer)
    reads Refs(s)
  {
    ControlPlaneSpec(
      s.version,
      LoadbalancerValue(s.loadbalancer),
      s.pki.fields.(kubeAPIServer := CertValue(s.pki.kubeAPIServer)),
      KasValue(s.kubeAPIServer),
      s.kubeControllerManager.fields.(deployment := DeploymentValue(s.kubeControllerManager.deployment)),
      s.kubeScheduler.fields.(deployment := DeploymentValue(s.kubeScheduler.deployment)))
  }

  /******* Deep copies *******/

  // for key, val := range in { out[key] = val }; a nil map stays nil
  method CopyMap(m: StringMap?) returns (r: StringMap?)
    ensures m == null <==> r == null
    ensures fresh(MapRefs(r)) && Entries(r) == Entries(m)
  {
    if m == null { return null; }
    var copy := new StringMap();
    var todo := m.entries.Keys;
    while todo != {}
      invariant todo <= m.entries.Keys
      invariant copy.entries.Keys == m.entries.Keys - todo
      invariant forall k :: k in copy.entries ==> copy.entries[k] == m.entries[k]
      decreases |todo|
    {
      var k :| k in todo;
      copy.Set(k, m.entries[k]);
      todo := todo - {k};
    }
    r := copy;
  }

  // A copy has no spare capacity.
  method CopySlice(s: Slice) returns (r: Slice)
    requires SliceValid(s)
    ensures SliceValid(r) && Elements(r) == Elements(s) && (r.Nil? <==> s.Nil?)
    ensures fresh(SliceRefs(r)) && (r.Slice? ==> r.len == r.backing.Length)
  {
    if s.Nil? { return Nil; }
    var a := new string[s.len](_ => "");
    for i := 0 to s.len
      invariant a[..i] == s.backing[..i]
    {
      a[i] := s.backing[i];
    }
    assert a[..s.len] == s.backing[..s.len];
    r := Slice(a, s.len);
  }

  method DeepCopyServerCert(c: ServerCertStruct) returns (r: ServerCertStruct)
    requires CertValid(c)
    ensures CertValid(r) && fresh(CertRefs(r)) && CertValue(r) == CertValue(c)
    ensures SliceRefs(r.ipAddresses) !! SliceRefs(r.dnsNames)
  {
    var ips := CopySlice(c.ipAddresses);
    var names := CopySlice(c.dnsNames);
    r := c.(ipAddresses := ips, dnsNames := names);
  }

  method DeepCopyDeployment(d: DeploymentStruct) returns (r: DeploymentStruct)
    ensures r.name == d.name && r.replicas == d.replicas
    ensures fresh(MapRefs(r.labels)) && Entries(r.labels) == Entries(d.labels)
  {
    var labels := CopyMap(d.labels);
    r := d.(labels := labels);
  }

  // The maps and lists of a spec, one after the other.
  method DeepCopyParts(s: ControlPlaneStruct)
    returns (selectors: StringMap?, cert: ServerCertStruct, kas: DeploymentStruct, kcm: DeploymentStruct,
             ks: DeploymentStruct)
    requires CertValid(s.pki.kubeAPIServer)
    ensures CertValid(cert) && CertValue(cert) == CertValue(s.pki.kubeAPIServer) && fresh(CertRefs(cert))
    ensures fresh(MapRefs(selectors)) && Entries(selectors) == Entries(s.loadbalancer.selectors)
    ensures SameButLabels(kas, s.kubeAPIServer.deployment) && fresh(MapRefs(kas.labels))
    ensures SameButLabels(kcm, s.kubeControllerManager.deployment) && fresh(MapRefs(kcm.labels))
    ensures SameButLabels(ks, s.kubeScheduler.deployment) && fresh(MapRefs(ks.labels))
    ensures Entries(kas.labels) == Entries(s.kubeAPIServer.deployment.labels)
    ensures Entries(kcm.labels) == Entries(s.kubeControllerManager.deployment.labels)
    ensures Entries(ks.labels) == Entries(s.kubeScheduler.deployment.labels)
    ensures selectors == null || selectors != kas.labels
  {
    hide CertValue;
    selectors := CopyMap(s.loadbalancer.selectors);
    kas := DeepCopyDeployment(s.kubeAPIServer.deployment);
    kcm := DeepCopyDeployment(s.kubeControllerManager.deployment);
    ks := DeepCopyDeployment(s.kubeScheduler.deployment);
    cert := DeepCopyServerCert(s.pki.kubeAPIServer);
  }

  predicate SameButLabels(d: DeploymentStruct, e: DeploymentStruct) {
    d.name == e.name && d.replicas == e.replicas
  }

  // The parts of two structs that the heap decides.
  ghost predicate SameContents(s: ControlPlaneStruct, r: ControlPlaneStruct)
    requires CertValid(s.pki.kubeAPIServer) && CertValid(r.pki.kubeAPIServer)
    reads Refs(s), Refs(r)
  {
    && Entries(r.loadbalancer.selectors) == Entries(s.loadbalancer.selectors)
    && CertValue(r.pki.kubeAPIServer) == CertValue(s.pki.kubeAPIServer)
    && Entries(r.kubeAPIServer.deployment.labels) == Entries(s.kubeAPIServer.deployment.labels)
    && Entries(r.kubeControllerManager.deployment.labels) == Entries(s.kubeControllerManager.deployment.labels)
    && Entries(r.kubeScheduler.deployment.labels) == Entries(s.kubeScheduler.deployment.labels)
  }

  ghost function WithoutRefs(s: ControlPlaneStruct): ControlPlaneStruct {
    s.(loadbalancer := s.loadbalancer.(selectors := null),
       pki := s.pki.(kubeAPIServer := ServerCertStruct("", Nil, Nil)),
       kubeAPIServer := s.kubeAPIServer.(deployment := s.kubeAPIServer.deployment.(labels := null)),
       kubeControllerManager :=
         s.kubeControllerManager.(deployment := s.kubeControllerManager.deployment.(labels := null)),
       kubeScheduler := s.kubeScheduler.(deployment := s.kubeScheduler.deployment.(labels := null)))
  }

  lemma SameValue(s: ControlPlaneStruct, r: ControlPlaneStruct)
    requires CertValid(s.pki.kubeAPIServer) && CertValid(r.pki.kubeAPIServer)
    requires SameContents(s, r) && WithoutRefs(s) == WithoutRefs(r)
    ensures Value(r) == Value(s)
  {
    hide Entries, CertValue;
  }

  // A copy has the same value, map by map and list by list, shares nothing with its source
  // or with anything else, and keeps its two kinds of labels apart.
  method DeepCopyControlPlane(s: ControlPlaneStruct) returns (r: ControlPlaneStruct)
    requires CertValid(s.pki.kubeAPIServer)
    ensures CertValid(r.pki.kubeAPIServer) && Value(r) == Value(s)
    ensures CertValue(r.pki.kubeAPIServer) == CertValue(s.pki.kubeAPIServer)
    ensures Entries(r.loadbalancer.selectors) == Entries(s.loadbalancer.selectors)
    ensures Entries(r.kubeAPIServer.deployment.labels) == Entries(s.kubeAPIServer.deployment.labels)
    ensures Entries(r.kubeControllerManager.deployment.labels) == Entries(s.kubeControllerManager.deployment.labels)
    ensures Entries(r.kubeScheduler.deployment.labels) == Entries(s.kubeScheduler.deployment.labels)
    ensures fresh(Refs(r))
    ensures fresh(MapRefs(r.loadbalancer.selectors)) && fresh(CertRefs(r.pki.kubeAPIServer))
    ensures fresh(MapRefs(r.kubeAPIServer.deployment.labels))
    ensures fresh(MapRefs(r.kubeControllerManager.deployment.labels))
    ensures fresh(MapRefs(r.kubeScheduler.deployment.labels))
    ensures r.loadbalancer.selectors == null || r.loadbalancer.selectors != r.kubeAPIServer.deployment.labels
  {
    hide Value, CertValue, Entries;
    var selectors, cert, kas, kcm, ks := DeepCopyParts(s);
    r := s.(
      loadbalancer := s.loadbalancer.(selectors := selectors),
      pki := s.pki.(kubeAPIServer := cert),
      kubeAPIServer := s.kubeAPIServer.(deployment := kas),
      kubeControllerManager := s.kubeControllerManager.(deployment := kcm),
      kubeScheduler := s.kubeScheduler.(deployment := ks));
    SameValue(s, r);
  }

  /******* The KubeAPIServer closure *******/

  // for k, v := range from { into[k] = v }
  method Merge(into: StringMap, from: StringMap?)
    requires from != into
    modifies into
    ensures into.entries == old(into.entries) + Entries(from)
  {
    if from == null { return; }
    ghost var base := into.entries;
    var todo := from.entries.Keys;
    while todo != {}
      invariant todo <= from.entries.Keys
      invariant into.entries == base + (map k | k in from.entries && k !in todo :: from.entries[k])
      decreases |todo|
    {
      var k :| k in todo;
      into.Set(k, from.entries[k]);
      todo := todo - {k};
    }
  }

  // The struct assignment shares the label map, so the loop writes into the ControlPlane
  // that the reconcile read; a nil map is replaced in the copy only.
  method MutateKubeAPIServer(cp: ControlPlaneStruct, lb: LoadbalancerStruct, ip: string) returns (kas: KasStruct)
    requires lb.selectors == null || lb.selectors != cp.kubeAPIServer.deployment.labels
    modifies MapRefs(cp.kubeAPIServer.deployment.labels)
    ensures KasValue(kas) == MergedValue(old(KasValue(cp.kubeAPIServer)), cp.version, old(Entries(lb.selectors)), ip)
    ensures var labels := cp.kubeAPIServer.deployment.labels;
      if labels == null then fresh(kas.deployment.labels)
      else kas.deployment.labels == labels && labels.entries == old(labels.entries) + old(Entries(lb.selectors))
  {
    kas := cp.kubeAPIServer;
    var labels := kas.deployment.labels;
    if labels == null {
      labels := new StringMap();
    }
    Merge(labels, lb.selectors);
    var version := CoalesceString([cp.kubeAPIServer.fields.version, cp.version]);
    kas := KasStruct(
      kas.fields.(options := kas.fields.options.(advertiseAddress := ip), version := version),
      kas.deployment.(labels := labels));
  }

  function MergedValue(kas: KasSpec, version: string, selectors: Labels, ip: string): KasSpec {
    kas.(
      deployment := kas.deployment.(labels := kas.deployment.labels + selectors),
      options := kas.options.(advertiseAddress := ip),
      version := Coalesce([kas.version, version]))
  }

  // Running the closure again on what it has already written to changes nothing.
  method MutateTwice(cp: ControlPlaneStruct, ip: string) returns (kas: KasStruct, again: KasStruct)
    requires cp.loadbalancer.selectors == null || cp.loadbalancer.selectors != cp.kubeAPIServer.deployment.labels
    modifies MapRefs(cp.kubeAPIServer.deployment.labels)
    ensures KasValue(kas) == KasValue(again)
         == MergedValue(old(KasValue(cp.kubeAPIServer)), cp.version, old(Entries(cp.loadbalancer.selectors)), ip)
  {
    hide Coalesce;
    var labels := cp.kubeAPIServer.deployment.labels;
    ghost var asked, selectors := Entries(labels), Entries(cp.loadbalancer.selectors);
    kas := MutateKubeAPIServer(cp, cp.loadbalancer, ip);
    again := MutateKubeAPIServer(cp, cp.loadbalancer, ip);
    assert asked + selectors + selectors == asked + selectors;
  }

  // The closure derives the KubeAPIServer that the specification asks for.
  method DeriveServer(cp: ControlPlaneStruct, ip: string) returns (kas: KasStruct, again: KasStruct)
    requires CertValid(cp.pki.kubeAPIServer)
    requires cp.loadbalancer.selectors == null || cp.loadbalancer.selectors != cp.kubeAPIServer.deployment.labels
    modifies MapRefs(cp.kubeAPIServer.deployment.labels)
    ensures KasValue(kas) == KasValue(again) == KasFor(old(Value(cp)), ip)
  {
    ProjectedValue(Value(cp), ip);
    PartsOfValue(cp);
    hide KasFor, MergedValue, Value;
    kas, again := MutateTwice(cp, ip);
  }

  lemma PartsOfValue(cp: ControlPlaneStruct)
    requires CertValid(cp.pki.kubeAPIServer)
    ensures Value(cp).kubeAPIServer == KasValue(cp.kubeAPIServer) && Value(cp).version == cp.version
    ensures Value(cp).loadbalancer.selectors == Entries(cp.loadbalancer.selectors)
  {}

  lemma ProjectedValue(cp: ControlPlaneSpec, ip: string)
    ensures KasFor(cp, ip) == MergedValue(cp.kubeAPIServer, cp.version, cp.loadbalancer.selectors, ip)
  {}

  twostate lemma ValueStays(s: ControlPlaneStruct)
    requires CertValid(s.pki.kubeAPIServer) && unchanged(Refs(s))
    ensures Value(s) == old(Value(s))
  {}

  // A ControlPlane in the client's cache.
  class CachedControlPlane {
    var spec: ControlPlaneStruct

    ghost predicate Valid()
      reads this
    {
      CertValid(spec.pki.kubeAPIServer)
    }

    ghost function Contents(): ControlPlaneSpec
      requires Valid()
      reads this, Refs(spec)
    {
      Value(spec)
    }

    // Reading the object hands out a deep copy, on which the closure works, once or again.
    // Nothing that existed before is modified.
    method Project(ip: string) returns (kas: KasStruct, again: KasStruct)
      requires Valid()
      ensures KasValue(kas) == KasValue(again) == KasFor(old(Contents()), ip)
    {
      hide KasFor, Value;
      var cp := DeepCopyControlPlane(spec);
      ValueStays(spec);
      kas, again := DeriveServer(cp, ip);
    }

    // So the cache keeps its contents, and the next reconcile derives the same again.
    method ProjectAndProjectAgain(ip: string) returns (kas: KasStruct, again: KasStruct)
      requires Valid()
      ensures Valid() && Contents() == old(Contents())
      ensures KasValue(again) == KasFor(old(Contents()), ip)
    {
      hide KasFor, Value;
      var unused;
      kas, unused := Project(ip);
      ValueStays(spec);
      again, unused := Project(ip);
      ValueStays(spec);
    }
  }

  /******* The API server's certificate *******/

  // append(list, ip), twice, on the lists of the Pki; with spare capacity both write into
  // the lists' own backing arrays, beyond what is visible.
  method ServerAddresses(cert: ServerCertStruct, ip: string) returns (ips: Slice, names: Slice)
    requires CertValid(cert) && SliceRefs(cert.ipAddresses) !! SliceRefs(cert.dnsNames)
    modifies CertRefs(cert)
    ensures SliceValid(ips) && Elements(ips) == old(Elements(cert.ipAddresses)) + [ip]
    ensures SliceValid(names) && Elements(names) == old(Elements(cert.dnsNames)) + [ip]
    ensures CertValue(cert) == old(CertValue(cert))
  {
    ips := Append(cert.ipAddresses, ip);
    names := Append(cert.dnsNames, ip);
  }

  // However many reconciles with whatever addresses came before, the last one lists its
  // own address only, and the Pki is as it was.
  method RepeatedAddresses(cert: ServerCertStruct, addresses: seq<string>) returns (ips: Slice, names: Slice)
    requires CertValid(cert) && SliceRefs(cert.ipAddresses) !! SliceRefs(cert.dnsNames)
    requires addresses != []
    modifies CertRefs(cert)
    ensures SliceValid(ips) && Elements(ips) == old(Elements(cert.ipAddresses)) + [addresses[|addresses| - 1]]
    ensures SliceValid(names) && Elements(names) == old(Elements(cert.dnsNames)) + [addresses[|addresses| - 1]]
    ensures CertValue(cert) == old(CertValue(cert))
  {
    ips, names := ServerAddresses(cert, addresses[0]);
    for i := 1 to |addresses|
      invariant CertValue(cert) == old(CertValue(cert))
      invariant SliceValid(ips) && Elements(ips) == old(Elements(cert.ipAddresses)) + [addresses[i - 1]]
      invariant SliceValid(names) && Elements(names) == old(Elements(cert.dnsNames)) + [addresses[i - 1]]
    {
      ips, names := ServerAddresses(cert, addresses[i]);
    }
  }
}
