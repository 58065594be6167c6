// Where the contents of the store come from.  A reconcile works on a body that its custom
// resource once had, and an API-server certificate lists the addresses of one recorded
// Pki followed by its one control-plane IP, however often it is reconciled.
module History {
  import opened Api
  import opened Programs
  import opened Machine

  function StateAt(sys: Sys, es: seq<Event>, n: nat): Sys
    requires n <= |es|
  {
    Run(sys, es[..n])
  }

  // k had the body b in one of the first n + 1 states of the run.
  ghost predicate Recorded(sys: Sys, es: seq<Event>, n: nat, k: Key, b: Body)
    requires n <= |es|
  {
    exists i :: 0 <= i <= n && BodyAt(StateAt(sys, es, i).store, k) == Some(b)
  }

  lemma NextState(sys: Sys, es: seq<Event>, n: nat)
    requires n < |es|
    ensures StateAt(sys, es, n + 1) == Step(StateAt(sys, es, n), es[n])
  {
    assert es[..n + 1][..n] == es[..n];
  }

  ghost predicate FramesRecorded(sys: Sys, es: seq<Event>, n: nat)
    requires n <= |es|
  {
    var now := StateAt(sys, es, n);
    forall k :: k in now.running ==>
      now.running[k].key == k && Recorded(sys, es, n, k, now.running[k].body)
  }

  lemma {:induction false} FramesAreRecorded(sys: Sys, es: seq<Event>, n: nat)
    requires sys.running == map[] && n <= |es|
    ensures FramesRecorded(sys, es, n)
  {
    if n == 0 {
      assert es[..0] == [];
    } else {
      FramesAreRecorded(sys, es, n - 1);
      NextState(sys, es, n - 1);
      var before, now := StateAt(sys, es, n - 1), StateAt(sys, es, n);
      forall k | k in now.running
        ensures now.running[k].key == k && Recorded(sys, es, n, k, now.running[k].body)
      {
        FramesOfStep(before, es[n - 1], k);
        hide Step, Run, StateAt;
        if es[n - 1].Start? && es[n - 1].key == k && !(k in before.running) {
          assert BodyAt(before.store, k) == Some(now.running[k].body);
        } else {
          KeepsBody(before.running[k], before.store, es[n - 1].Act? && es[n - 1].ok);
          assert Recorded(sys, es, n - 1, k, now.running[k].body);
        }
      }
    }
  }

  lemma KeepsBody(f: Frame, s: Store, ok: bool)
    ensures var progress := Exec(f, s, ok).1;
      progress.Next? ==> progress.frame.key == f.key && progress.frame.body == f.body
  {
    hide Code;
  }

  /******* Subject alternative names *******/

  predicate SansFrom(c: CertificateSpec, p: PkiSpec) {
    && p.controlPlaneIP != ""
    && c.ipAddresses == p.kubeAPIServer.ipAddresses + [p.controlPlaneIP]
    && c.dnsNames == p.kubeAPIServer.dnsNames + [p.controlPlaneIP]
  }

  ghost predicate HasSource(sys: Sys, es: seq<Event>, n: nat, ns: string, c: CertificateSpec)
    requires n <= |es|
  {
    exists k: Key, p :: k.ns == ns && Recorded(sys, es, n, k, PkiBody(p)) && SansFrom(c, p)
  }

  ghost predicate ServerCertificatesHaveSources(sys: Sys, es: seq<Event>, n: nat)
    requires n <= |es|
  {
    var s := StateAt(sys, es, n).store;
    forall k :: k in s && s[k].body.CertificateBody? && s[k].body.certificate.subject == ApiServer ==>
      HasSource(sys, es, n, k.ns, s[k].body.certificate)
  }

  lemma WrittenServerCertificate(f: Frame)
    requires Code(f).Apply? && Code(f).body.CertificateBody?
    requires Code(f).body.certificate.subject == ApiServer
    ensures f.body.PkiBody? && SansFrom(Code(f).body.certificate, f.body.pki)
  {}

  // The only way for a certificate to change is a write of the Pki reconciler.
  lemma CertificateOrigin(sys: Sys, e: Event, k: Key)
    requires !(e.Tamper? && e.body.CertificateBody?)
    requires k in Step(sys, e).store && Step(sys, e).store[k].body.CertificateBody?
    ensures
      || BodyAt(sys.store, k) == Some(Step(sys, e).store[k].body)
      || (e.Act? && e.key in sys.running
            && Code(sys.running[e.key]) == Apply(k, Step(sys, e).store[k].body, false))
  {
    StoreOfStep(sys, e);
    if e.Act? && e.key in sys.running {
      OnlyPkiWritesCertificates(sys.running[e.key]);
    }
    hide Code, Issuable, Step;
  }

  lemma OnlyPkiWritesCertificates(f: Frame)
    ensures Code(f).Apply? && Code(f).body.CertificateBody? ==> !Code(f).strict && f.body.PkiBody?
    ensures Code(f).Report? ==> !Code(f).body.CertificateBody?
  {}

  lemma SourceOfNewCertificate(sys: Sys, es: seq<Event>, n: nat, k: Key)
    requires n < |es| && !(es[n].Tamper? && es[n].body.CertificateBody?)
    requires FramesRecorded(sys, es, n) && ServerCertificatesHaveSources(sys, es, n)
    requires BodyAt(StateAt(sys, es, n + 1).store, k).Some?
    requires var b := BodyAt(StateAt(sys, es, n + 1).store, k).value;
      b.CertificateBody? && b.certificate.subject == ApiServer
    ensures HasSource(sys, es, n + 1, k.ns, BodyAt(StateAt(sys, es, n + 1).store, k).value.certificate)
  {
    NextState(sys, es, n);
    var before, c := StateAt(sys, es, n), BodyAt(StateAt(sys, es, n + 1).store, k).value.certificate;
    CertificateOrigin(before, es[n], k);
    hide Step, Run, StateAt, Code;
    if BodyAt(before.store, k) == Some(CertificateBody(c)) {
      assert HasSource(sys, es, n, k.ns, c);
      var kp: Key, p :| kp.ns == k.ns && Recorded(sys, es, n, kp, PkiBody(p)) && SansFrom(c, p);
      assert Recorded(sys, es, n + 1, kp, PkiBody(p));
    } else {
      var f := before.running[es[n].key];
      WrittenServerCertificate(f);
      assert Recorded(sys, es, n, f.key, PkiBody(f.body.pki));
      assert Recorded(sys, es, n + 1, f.key, PkiBody(f.body.pki));
    }
  }

  // In every state of every run, deletions and third-party edits of other objects included.
  lemma {:induction false} ServerCertificateSans(sys: Sys, es: seq<Event>, n: nat)
    requires sys.running == map[] && n <= |es|
    requires forall i :: 0 <= i < |es| ==> !(es[i].Tamper? && es[i].body.CertificateBody?)
    requires forall k :: k in sys.store && sys.store[k].body.CertificateBody? ==>
      sys.store[k].body.certificate.subject != ApiServer
    ensures ServerCertificatesHaveSources(sys, es, n)
  {
    if n == 0 {
      assert es[..0] == [];
    } else {
      ServerCertificateSans(sys, es, n - 1);
      FramesAreRecorded(sys, es, n - 1);
      var s := StateAt(sys, es, n).store;
      forall k | k in s && s[k].body.CertificateBody? && s[k].body.certificate.subject == ApiServer
        ensures HasSource(sys, es, n, k.ns, s[k].body.certificate)
      {
        SourceOfNewCertificate(sys, es, n - 1, k);
      }
    }
  }
}
