// internal/controller/utils.go: label maps, version defaulting and kubeconfig generation,
// with the Service selector built by the load-balancer reconciler.
module LabelMaps {
  import opened Api

  // The labels that every reconciler starts from, overridden by the caller's.
  function WithDefaults(component: string, instance: string, more: Labels): Labels {
    map[NAME_LABEL := component, INSTANCE_LABEL := instance] + more
  }

  function ServiceSelector(selectors: Labels): Labels {
    map[NAME_LABEL := "kube-apiserver"] + selectors
  }

  // A selector matches a pod when the pod carries every one of its labels.
  predicate Matches(selector: Labels, pod: Labels) {
    forall k :: k in selector ==> k in pod && pod[k] == selector[k]
  }

  function Lookup(m: Labels, k: string, default: string): string {
    if k in m then m[k] else default
  }

  // First non-empty argument, or the empty string.
  function Coalesce(args: seq<string>): (v: string)
    ensures v == "" <==> forall i :: 0 <= i < |args| ==> args[i] == ""
    ensures v != "" ==>
      exists i :: 0 <= i < |args| && args[i] == v && forall j :: 0 <= j < i ==> args[j] == ""
  {
    if args == [] then ""
    else if args[0] != "" then args[0]
    else
      var rest := Coalesce(args[1..]);
      assert forall i :: 1 <= i < |args| ==> args[i] == args[1..][i - 1];
      assert rest != "" ==>
        exists i :: 1 <= i < |args| && args[i] == rest && forall j :: 0 <= j < i ==> args[j] == "" by {
        if rest != "" {
          var i :| 0 <= i < |args[1..]| && args[1..][i] == rest && forall j :: 0 <= j < i ==> args[1..][j] == "";
          assert args[i + 1] == rest;
          assert forall j :: 1 <= j < i + 1 ==> args[j] == args[1..][j - 1];
        }
      }
      rest
  }

  method CoalesceString(args: seq<string>) returns (v: string)
    ensures v == Coalesce(args)
  {
    ghost var n := |args|;
    for i := 0 to |args|
      invariant Coalesce(args) == Coalesce(args[i..])
    {
      if |args[i]| > 0 {
        return args[i];
      }
      assert args[i..][1..] == args[i + 1..];
    }
    return "";
  }

  // Go ranges over a map in an unspecified order.
  method MakeLabels(component: string, instance: string, more: Labels) returns (l: Labels)
    ensures l == WithDefaults(component, instance, more)
  {
    l := map[NAME_LABEL := component, INSTANCE_LABEL := instance];
    l := Overlay(l, more);
  }

  // for k, v := range more { base[k] = v }
  method Overlay(base: Labels, more: Labels) returns (l: Labels)
    ensures l == base + more
  {
    l := base;
    var todo := more.Keys;
    while todo != {}
      invariant todo <= more.Keys
      invariant l.Keys == base.Keys + (more.Keys - todo)
      invariant forall k :: k in more.Keys - todo ==> l[k] == more[k]
      invariant forall k :: k in base && k !in more.Keys - todo ==> l[k] == base[k]
      decreases |todo|
    {
      var k :| k in todo;
      l := l[k := more[k]];
      todo := todo - {k};
    }
  }

  // The load-balancer Service selects the API-server pods exactly when the name label is
  // not redefined to something else by the user's pod labels alone.
  lemma SelectorAgreement(instance: string, selectors: Labels, user: Labels)
    ensures Matches(ServiceSelector(selectors), WithDefaults("kube-apiserver", instance, user + selectors))
      <==> NAME_LABEL in selectors || NAME_LABEL !in user || user[NAME_LABEL] == "kube-apiserver"
  {}

  // A pod of another component is captured by the load balancer only if the selectors
  // or its own labels redefine the name label.
  lemma CaptureExactly(component: string, instance: string, selectors: Labels, more: Labels)
    requires component != "kube-apiserver"
    ensures NAME_LABEL !in selectors && NAME_LABEL !in more ==>
      !Matches(ServiceSelector(selectors), WithDefaults(component, instance, more))
    ensures Matches(ServiceSelector(selectors), WithDefaults(component, instance, more)) <==>
      && Lookup(selectors, NAME_LABEL, "kube-apiserver") == Lookup(more, NAME_LABEL, component)
      && Matches(selectors - {NAME_LABEL, INSTANCE_LABEL}, more)
      && (INSTANCE_LABEL in selectors ==> Lookup(more, INSTANCE_LABEL, instance) == selectors[INSTANCE_LABEL])
  {}

  /******* Kubeconfigs *******/

  // bytes of one entry; a missing entry reads as no bytes
  function EntryOf(data: SecretData, e: Entry): string {
    if e in data && data[e].Bytes? then data[e].bytes else ""
  }

  function GenerateKubeconfig(tls: SecretData, server: Url): Kubeconfig {
    Kubeconfig(server, EntryOf(tls, CaCrt), EntryOf(tls, TlsCrt) + EntryOf(tls, CaCrt), EntryOf(tls, TlsKey))
  }

  // The entry e of a secret has the given bytes; a missing entry has none.
  predicate Holds(data: SecretData, e: Entry, bytes: string) {
    if e in data then data[e] == Bytes(bytes) else bytes == ""
  }

  // The certificate chain is the certificate followed by its authority, the key is the key.
  lemma KubeconfigContents(tls: SecretData, server: Url, crt: string, key: string, ca: string)
    requires Holds(tls, TlsCrt, crt) && Holds(tls, TlsKey, key) && Holds(tls, CaCrt, ca)
    ensures var k := GenerateKubeconfig(tls, server);
      k.server == server && k.authority == ca && k.clientCertificate == crt + ca && k.clientKey == key
  {}

  // Two kubeconfigs are equal only when server and all three parts of the key pair are,
  // although certificate and authority are stored as one concatenation.
  lemma KubeconfigDeterminesKeyPair(a: SecretData, b: SecretData, serverA: Url, serverB: Url,
                                    crtA: string, keyA: string, caA: string, crtB: string, keyB: string, caB: string)
    requires Holds(a, TlsCrt, crtA) && Holds(a, TlsKey, keyA) && Holds(a, CaCrt, caA)
    requires Holds(b, TlsCrt, crtB) && Holds(b, TlsKey, keyB) && Holds(b, CaCrt, caB)
    ensures GenerateKubeconfig(a, serverA) == GenerateKubeconfig(b, serverB) <==>
      serverA == serverB && crtA == crtB && keyA == keyB && caA == caB
  {
    KubeconfigContents(a, serverA, crtA, keyA, caA);
    KubeconfigContents(b, serverB, crtB, keyB, caB);
    if GenerateKubeconfig(a, serverA) == GenerateKubeconfig(b, serverB) {
      CancelSuffix(crtA, crtB, caA);
    }
  }

  lemma CancelSuffix(a: string, b: string, suffix: string)
    requires a + suffix == b + suffix
    ensures a == b
  {
    assert |a| + |suffix| == |b| + |suffix|;
    assert a == (a + suffix)[..|a|] && b == (b + suffix)[..|b|];
  }

  function UrlOf(service: ServiceRef): Url {
    Https(service.name, service.port)
  }
}
