// The invariant of a settling control plane, kept by every step that leaves its identity
// alone: specs may be edited, ingresses may change, objects may be deleted, calls may
// fail, third parties may tamper and the operator may restart.
module Invariant {
  import opened Api
  import opened Programs
  import opened Machine
  import opened Integrity
  import opened Cells
  import opened Settling

  ghost predicate StoreFits(c: Config, s: Store)
    requires WellFormed(c)
  {
    && (forall i :: 0 <= i < CELLS && At(c, s, i).Some? ==> CellFits(c, i, At(c, s, i).value))
    && (BodyAt(s, ControlPlaneKey(c)).Some? ==>
          ResourceFits(c, ControlPlane, BodyAt(s, ControlPlaneKey(c)).value))
    // the namespace holds one control plane and only its certificates
    && (forall k :: k in s && k.ns == c.ns && Reconciled(k.kind) ==> k.name == c.name)
    && (forall k :: k in s && k.ns == c.ns && k.kind == Certificate ==> k.name in c.id.certs)
  }

  ghost predicate FramesFit(c: Config, sys: Sys)
    requires WellFormed(c)
  {
    forall k :: k in sys.running ==>
      && sys.running[k].key == k
      && (k.ns == c.ns ==> FrameFits(c, sys.running[k]))
  }

  ghost predicate Consistent(c: Config, sys: Sys) {
    WellFormed(c) && StoreFits(c, sys.store) && FramesFit(c, sys)
  }

  // Events that respect the identity.  Other namespaces may do anything.
  ghost predicate Calm(c: Config, e: Event)
    requires WellFormed(c)
  {
    e.Crash? || e.key.ns != c.ns ||
    match e
    case Issue(k, data) => forall j :: 0 <= j < 7 && k == KeyOf(c, CertCell(j)) ==> data == c.issued[j]
    case Edit(k, spec) => k.name == c.name && Conforms(c.id, spec)
    case Tamper(k, body) =>
      k.kind != ControlPlane && forall i :: 0 <= i < CELLS && k == KeyOf(c, i) ==> CellFits(c, i, body)
    case _ => true
  }

  ghost predicate AllCalm(c: Config, es: seq<Event>)
    requires WellFormed(c)
  {
    forall i :: 0 <= i < |es| ==> Calm(c, es[i])
  }

  lemma CertificateCell(c: Config, k: Key) returns (j: nat)
    requires WellFormed(c) && k.kind == Certificate && k.ns == c.ns && k.name in c.id.certs
    ensures j < 7 && k == KeyOf(c, CertCell(j))
  {
    j :| 0 <= j < 7 && c.id.certs[j] == k.name;
    assert Which(CertCell(j)) == j;
  }

  lemma SecretOfCertificate(c: Config, j: nat)
    requires WellFormed(c) && j < 7
    ensures KeyOf(c, SecretCell(j)) == Key(Secret, c.ns, c.id.certs[j])
    ensures KeyOf(c, CertCell(j)) == Key(Certificate, c.ns, c.id.certs[j])
  {
    hide Distinct, KCM_KUBECONFIG, KS_CONFIG, KubeconfigName;
    assert Which(SecretCell(j)) == j && Which(CertCell(j)) == j;
  }

  // What an event writes in the namespace fits the cell of its key.
  ghost predicate WriteFits(c: Config, k: Key, b: Body)
    requires WellFormed(c)
  {
    && (forall i :: 0 <= i < CELLS && k == KeyOf(c, i) ==> CellFits(c, i, b))
    && (k == ControlPlaneKey(c) ==> ResourceFits(c, ControlPlane, b))
    && (k.ns == c.ns && Reconciled(k.kind) ==> k.name == c.name)
    && (k.ns == c.ns && k.kind == Certificate ==> k.name in c.id.certs)
  }

  lemma CellIsUnique(c: Config, i: nat, b: Body)
    requires WellFormed(c) && i < CELLS && CellFits(c, i, b)
    ensures forall j :: 0 <= j < CELLS && KeyOf(c, i) == KeyOf(c, j) ==> CellFits(c, j, b)
    ensures KeyOf(c, i) != ControlPlaneKey(c)
  {
    hide CellFits, NameOf;
    forall j | 0 <= j < CELLS && KeyOf(c, i) == KeyOf(c, j)
      ensures j == i
    {
      if i != j { DistinctKeys(c, i, j); }
    }
  }

  lemma CellWriteFits(c: Config, i: nat, b: Body)
    requires WellFormed(c) && i < CELLS && CellFits(c, i, b)
    ensures WriteFits(c, KeyOf(c, i), b)
  {
    CellIsUnique(c, i, b);
    hide CellFits, SecretNames, Distinct;
    if IsCert(i) {
      assert c.id.certs[Which(i)] in c.id.certs;
    }
  }

  lemma StoreStaysFit(c: Config, s: Store, s': Store, k: Key)
    requires WellFormed(c) && StoreFits(c, s)
    requires forall j :: j != k ==> BodyAt(s', j) == BodyAt(s, j)
    requires k in s' ==> WriteFits(c, k, s'[k].body) || BodyAt(s, k) == Some(s'[k].body)
    ensures StoreFits(c, s')
  {
    hide WellFormed, CellFits, ResourceFits, KeyOf, Reconciled;
    forall i | 0 <= i < CELLS && At(c, s', i).Some?
      ensures CellFits(c, i, At(c, s', i).value)
    {
      assert At(c, s, i) == At(c, s', i) || KeyOf(c, i) == k;
    }
    forall j | j in s' && j != k
      ensures j in s
    {
      assert BodyAt(s, j) == BodyAt(s', j);
    }
    assert BodyAt(s', ControlPlaneKey(c)) == BodyAt(s, ControlPlaneKey(c)) || ControlPlaneKey(c) == k;
  }

  ghost predicate Kept(c: Config, s: Store, s': Store, k: Key)
    requires WellFormed(c)
  {
    k in s' ==> WriteFits(c, k, s'[k].body) || BodyAt(s, k) == Some(s'[k].body)
  }

  lemma ElsewhereKept(c: Config, s: Store, s': Store, k: Key)
    requires WellFormed(c) && k.ns != c.ns
    ensures Kept(c, s, s', k)
  {
    hide CellFits, ResourceFits, SecretNames, Distinct;
  }

  lemma ActKept(c: Config, sys: Sys, k: Key, ok: bool)
    requires Consistent(c, sys) && k in sys.running
    ensures Kept(c, sys.store, Exec(sys.running[k], sys.store, ok).0, TargetKey(sys.running[k]))
  {
    var f := sys.running[k];
    var s', w := Exec(f, sys.store, ok).0, TargetKey(f);
    if k.ns != c.ns {
      hide WellFormed, Code;
      ElsewhereKept(c, sys.store, s', w);
    } else if !Code(f).Stop? {
      EveryCallFits(c, f);
      if !Code(f).Fetch? {
        CellWriteFits(c, CellOf(f.key.kind, f.pc), Code(f).body);
      }
      hide Code, WriteFits, FrameFits, CellOf, StoreFits, FramesFit, WellFormed;
    }
  }

  // Ingress status of the Service that the control plane owns, or of an unrelated one.
  lemma StatusFits(c: Config, k: Key, ingress: seq<string>)
    requires WellFormed(c) && k.kind == ServiceStatus
    ensures WriteFits(c, k, ServiceStatusBody(ingress))
  {
    hide SecretNames, Distinct;
  }

  lemma IssuedFits(c: Config, s: Store, k: Key, data: SecretData)
    requires WellFormed(c) && StoreFits(c, s) && k.ns == c.ns && Issuable(s, k)
    requires forall j :: 0 <= j < 7 && k == KeyOf(c, CertCell(j)) ==> data == c.issued[j]
    ensures WriteFits(c, SecretKeyOf(s, k), SecretBody(data))
  {
    var j := CertificateCell(c, k);
    SecretOfCertificate(c, j);
    assert At(c, s, CertCell(j)) == Some(s[k].body);
    assert CellFits(c, CertCell(j), s[k].body);
    assert Which(CertCell(j)) == j && Which(SecretCell(j)) == j;
    assert SecretKeyOf(s, k) == KeyOf(c, SecretCell(j));
    assert CellFits(c, SecretCell(j), SecretBody(data));
    CellWriteFits(c, SecretCell(j), SecretBody(data));
    hide WriteFits, StoreFits, CellFits, WellFormed;
  }

  lemma EnvironmentKept(c: Config, sys: Sys, e: Event)
    requires Consistent(c, sys) && Calm(c, e)
    requires e.Assign? || e.Issue? || e.Edit? || e.Tamper?
    requires e.key.ns == c.ns
    ensures Kept(c, sys.store, Step(sys, e).store, ChangedKey(sys, e))
  {
    StoreOfStep(sys, e);
    var s := sys.store;
    hide Step, CellFits, SecretNames, Distinct;
    match e
    case Assign(k, ingress) => if k.kind == Service { StatusFits(c, StatusKey(k), ingress); }
    case Issue(k, data) =>
      if Issuable(s, k) {
        IssuedFits(c, s, k, data);
        hide WriteFits, StoreFits, WellFormed, Issuable, CertCell;
      }
    case Edit(k, spec) =>
    case Tamper(k, body) =>
  }

  lemma StepStoreFits(c: Config, sys: Sys, e: Event)
    requires Consistent(c, sys) && Calm(c, e)
    ensures StoreFits(c, Step(sys, e).store)
  {
    var s' := Step(sys, e).store;
    StoreOfStep(sys, e);
    if e.Start? || e.Fire? || e.Resync? || e.Crash? {
      hide WellFormed, StoreFits, Step;
    } else if Removes(e) {
      RemovalFits(c, sys, e);
    } else {
      OneKeyChanges(sys, e);
      var w := ChangedKey(sys, e);
      if e.Act? {
        if e.key in sys.running {
          ActKept(c, sys, e.key, e.ok);
        } else {
          hide WellFormed, StoreFits, Step;
          assert s' == sys.store;
        }
      } else if e.key.ns == c.ns {
        EnvironmentKept(c, sys, e);
      } else {
        ElsewhereKept(c, sys.store, s', w);
      }
      hide WellFormed, StoreFits, Step, StoreAfter, ChangedKey, Exec, WriteFits;
      assert forall j :: j != w ==> BodyAt(s', j) == BodyAt(sys.store, j);
      StoreStaysFit(c, sys.store, s', w);
    }
  }

  lemma RemovalFits(c: Config, sys: Sys, e: Event)
    requires Consistent(c, sys) && Removes(e)
    ensures StoreFits(c, Step(sys, e).store)
  {
    hide Step, CellFits, ResourceFits, SecretNames, Distinct, KeyOf;
    OnlyRemoved(sys, e);
    var s, s' := sys.store, Step(sys, e).store;
    forall i | 0 <= i < CELLS && At(c, s', i).Some?
      ensures At(c, s', i) == At(c, s, i)
    {}
  }

  lemma StartFits(c: Config, s: Store, k: Key)
    requires WellFormed(c) && StoreFits(c, s)
    requires k in s && k.ns == c.ns && Reconciled(k.kind) && Typed(k.kind, s[k].body)
    ensures FrameFits(c, Begin(s, k))
  {
    hide SecretNames, Distinct, CellFits, Conforms, Needed;
    assert k.name == c.name;
    if k.kind != ControlPlane {
      var i := ResourceCell(k.kind);
      assert k == KeyOf(c, i);
      assert At(c, s, i) == Some(s[k].body);
    }
  }

  // What a call reads back is what its cell may hold.
  lemma SeenFits(c: Config, s: Store, f: Frame, ok: bool)
    requires WellFormed(c) && StoreFits(c, s) && FrameFits(c, f) && f.pc == Remembered(f.body)
    requires Exec(f, s, ok).1.Next?
    ensures var seen := Exec(f, s, ok).1.frame.seen;
      && seen == At(c, s, SeenCell(f.key.kind))
      && (seen.Some? ==> CellFits(c, SeenCell(f.key.kind), seen.value))
      && (IsSecret(SeenCell(f.key.kind)) ==> seen.Some?)
  {
    EveryCallFits(c, f);
    hide ControlPlaneCode, LoadbalancerCode, PkiCode, KasCode, KcmCode, KsCode, SecretNames, Distinct, CellFits,
      Conforms;
    RememberedCell(c, f);
    hide Code;
    assert At(c, s, SeenCell(f.key.kind)).Some? ==>
      CellFits(c, SeenCell(f.key.kind), At(c, s, SeenCell(f.key.kind)).value);
  }

  lemma RememberedCell(c: Config, f: Frame)
    requires WellFormed(c) && FrameFits(c, f) && f.pc == Remembered(f.body) && CallFits(c, f)
    ensures Code(f).Fetch? ==> Code(f).key == KeyOf(c, SeenCell(f.key.kind)) && IsSecret(SeenCell(f.key.kind))
    ensures !Code(f).Fetch? ==>
      && Code(f).Apply? && Code(f).strict
      && StatusKey(Code(f).key) == KeyOf(c, SeenCell(f.key.kind))
      && !IsSecret(SeenCell(f.key.kind))
  {
    hide SecretNames, Distinct, KubeconfigName, KCM_NAME, KS_NAME, KCM_KUBECONFIG, KS_CONFIG, EGRESS_CONFIG;
  }

  lemma AdvanceFits(c: Config, s: Store, f: Frame, ok: bool)
    requires WellFormed(c) && StoreFits(c, s) && FrameFits(c, f)
    requires Exec(f, s, ok).1.Next?
    ensures FrameFits(c, Exec(f, s, ok).1.frame)
  {
    hide Exec, CellFits, Code, StoreFits, WellFormed, ResourceFits, SeenCell, IsSecret;
    Advanced(f, s, ok);
    if f.key.kind == Pki { PkiGoesOn(c, f); }
    if f.pc == Remembered(f.body) {
      SeenFits(c, s, f, ok);
    }
  }

  // Past the address check, the address is not empty.
  lemma PkiGoesOn(c: Config, f: Frame)
    requires WellFormed(c) && FrameFits(c, f) && !Code(f).Stop? && f.key.kind == Pki
    ensures f.body.PkiBody? && (f.pc >= 6 ==> f.body.pki.controlPlaneIP != "")
  {
    hide WellFormed, PkiConforms;
  }

  lemma Advanced(f: Frame, s: Store, ok: bool)
    ensures var progress := Exec(f, s, ok).1;
      progress.Next? ==>
        && !Code(f).Stop?
        && progress.frame.key == f.key && progress.frame.body == f.body && progress.frame.pc == f.pc + 1
        && (f.pc != Remembered(f.body) ==> progress.frame.seen == f.seen)
  {
    hide Code;
  }

  lemma StepFramesFit(c: Config, sys: Sys, e: Event)
    requires Consistent(c, sys) && Calm(c, e)
    ensures FramesFit(c, Step(sys, e))
  {
    var after := Step(sys, e);
    StoreOfStep(sys, e);
    hide WellFormed, StoreFits, FrameFits, Step, ResourceFits;
    forall k | k in after.running
      ensures after.running[k].key == k
      ensures k.ns == c.ns ==> FrameFits(c, after.running[k])
    {
      FramesOfStep(sys, e, k);
      if e.Act? && e.key == k {
        Advanced(sys.running[k], sys.store, e.ok);
        if k.ns == c.ns {
          AdvanceFits(c, sys.store, sys.running[k], e.ok);
        }
      } else if k.ns == c.ns && !(k in sys.running && after.running[k] == sys.running[k]) {
        StartFits(c, sys.store, k);
      }
      hide Exec, StoreAfter;
    }
  }

  lemma StepConsistent(c: Config, sys: Sys, e: Event)
    requires Consistent(c, sys) && Calm(c, e)
    ensures Consistent(c, Step(sys, e))
  {
    hide WellFormed, StoreFits, FramesFit, Step, Calm;
    StepStoreFits(c, sys, e);
    StepFramesFit(c, sys, e);
  }

  lemma {:induction false} RunConsistent(c: Config, sys: Sys, es: seq<Event>)
    requires Consistent(c, sys) && AllCalm(c, es)
    ensures Consistent(c, Run(sys, es))
  {
    hide Consistent, Step, Calm;
    if es != [] {
      RunConsistent(c, sys, es[..|es| - 1]);
      StepConsistent(c, Run(sys, es[..|es| - 1]), es[|es| - 1]);
    }
  }

  /******* Gates stay passed while nobody deletes a key pair *******/

  ghost predicate Passing(c: Config, sys: Sys) {
    forall k :: k in sys.running && k.ns == c.ns ==> Reached(sys.running[k], sys.store)
  }

  ghost predicate Intact(c: Config, sys: Sys) {
    Consistent(c, sys) && Passing(c, sys)
  }

  ghost predicate KeepsPairs(c: Config, e: Event)
    requires WellFormed(c)
  {
    Removes(e) ==> forall i :: 0 <= i < CELLS && IsSecret(i) ==> e.key != KeyOf(c, i)
  }

  // The gates of a reconcile are key pairs.
  lemma GatesArePairs(c: Config, f: Frame, i: nat)
    requires WellFormed(c) && FrameFits(c, f) && i < f.pc && Needed(f.key, f.body, i).Some?
    ensures CellOf(f.key.kind, i) < CELLS && IsSecret(CellOf(f.key.kind, i))
    ensures Needed(f.key, f.body, i).value == KeyOf(c, CellOf(f.key.kind, i))
  {
    var g := f.(pc := i);
    assert FrameFits(c, g);
    NeededIsCode(g);
    EveryCallFits(c, g);
    hide Code, WellFormed, ResourceFits, Needed, CellOf, CellFits;
  }

  lemma StillReached(c: Config, sys: Sys, e: Event, k: Key)
    requires WellFormed(c) && Consistent(c, sys) && Calm(c, e) && KeepsPairs(c, e)
    requires k in sys.running && k.ns == c.ns && Reached(sys.running[k], sys.store)
    ensures Reached(sys.running[k], Step(sys, e).store)
  {
    hide Step, Consistent, FrameFits, WellFormed, CellOf, Needed, KeyOf, IsSecret;
    var f := sys.running[k];
    RunningFits(c, sys, k);
    if Removes(e) { OnlyRemoved(sys, e); } else { OneKeyChanges(sys, e); }
    forall i | 0 <= i < f.pc && Needed(f.key, f.body, i).Some?
      ensures Needed(f.key, f.body, i).value in Step(sys, e).store
    {
      GatesArePairs(c, f, i);
      KeyIsLocal(c, CellOf(f.key.kind, i));
      PairsHaveNoStatus(CellOf(f.key.kind, i));
    }
  }

  lemma PairsHaveNoStatus(i: nat)
    requires i < CELLS && IsSecret(i)
    ensures KindOf(i) == Secret
  {}

  lemma StepPassing(c: Config, sys: Sys, e: Event)
    requires WellFormed(c) && Consistent(c, sys) && Calm(c, e) && KeepsPairs(c, e) && Passing(c, sys)
    ensures Passing(c, Step(sys, e))
  {
    hide WellFormed, Consistent, Calm, KeepsPairs, Step, Reached;
    var after := Step(sys, e);
    forall k | k in after.running && k.ns == c.ns
      ensures Reached(after.running[k], after.store)
    {
      FramesOfStep(sys, e, k);
      StoreOfStep(sys, e);
      if e.Act? && e.key == k {
        ExecReached(sys.running[k], sys.store, e.ok);
      } else if k in sys.running && after.running[k] == sys.running[k] {
        StillReached(c, sys, e, k);
      } else {
        NothingReached(Begin(sys.store, k), after.store);
      }
      hide Exec, StoreAfter;
    }
  }

  lemma NothingReached(f: Frame, s: Store)
    requires f.pc == 0
    ensures Reached(f, s)
  {}

  lemma StepIntact(c: Config, sys: Sys, e: Event)
    requires WellFormed(c) && Intact(c, sys) && Calm(c, e) && KeepsPairs(c, e)
    ensures Intact(c, Step(sys, e))
  {
    hide WellFormed, Consistent, Calm, KeepsPairs, Step, Passing;
    StepConsistent(c, sys, e);
    StepPassing(c, sys, e);
  }

  lemma RunningReached(c: Config, sys: Sys, k: Key)
    requires Intact(c, sys) && k in sys.running && k.ns == c.ns
    ensures Reached(sys.running[k], sys.store)
  {
    hide Consistent, Reached;
  }

  /******* What can change a cell *******/

  ghost predicate IssuedNow(c: Config, sys: Sys, e: Event, i: nat)
    requires WellFormed(c) && i < CELLS
  {
    && e.Issue? && IsSecret(i) && At(c, sys.store, i).None?
    && Issuable(sys.store, e.key) && e.key == KeyOf(c, i - 1)
  }

  ghost predicate AssignedNow(c: Config, sys: Sys, e: Event, i: nat)
    requires WellFormed(c) && i < CELLS
  {
    && e.Assign? && i == INGRESS && e.key == KeyOf(c, SERVICE) && e.key in sys.store
    && At(c, Step(sys, e).store, i) == Some(ServiceStatusBody(e.ingress))
  }

  ghost predicate TamperedNow(c: Config, sys: Sys, e: Event, i: nat)
    requires WellFormed(c) && i < CELLS
  {
    e.Tamper? && e.key == KeyOf(c, i) && At(c, sys.store, i).Some? && !IsSecret(i)
  }

  // The reconcile in progress f writes its cell i.
  ghost predicate WrittenNow(c: Config, sys: Sys, e: Event, i: nat, f: Frame)
    requires WellFormed(c) && i < CELLS
  {
    && e.Act? && e.ok && e.key in sys.running && f == sys.running[e.key] && e.key.ns == c.ns
    && FrameFits(c, f) && CallFits(c, f)
    && i == CellOf(f.key.kind, f.pc) && !IsSecret(i)
    && At(c, Step(sys, e).store, i) == Some(Code(f).body)
  }

  lemma SameCell(c: Config, i: nat, j: nat)
    requires WellFormed(c) && i < CELLS && j < CELLS && KeyOf(c, i) == KeyOf(c, j)
    ensures i == j
  {
    if i != j { DistinctKeys(c, i, j); }
  }

  lemma SecretChange(c: Config, sys: Sys, e: Event, i: nat)
    requires Consistent(c, sys) && Calm(c, e) && i < CELLS
    requires e.Issue? && Issuable(sys.store, e.key) && SecretKeyOf(sys.store, e.key) == KeyOf(c, i)
    ensures IsSecret(i) && e.key == KeyOf(c, i - 1)
    ensures At(c, sys.store, i).Some? ==> At(c, sys.store, i) == At(c, Step(sys, e).store, i)
  {
    var s, k := sys.store, e.key;
    var j := CertificateCell(c, k);
    SecretOfCertificate(c, j);
    assert At(c, s, CertCell(j)) == Some(s[k].body);
    assert CellFits(c, CertCell(j), s[k].body);
    assert Which(CertCell(j)) == j && Which(SecretCell(j)) == j;
    SameCell(c, i, SecretCell(j));
    StoreOfStep(sys, e);
    if At(c, s, i).Some? {
      assert CellFits(c, i, At(c, s, i).value);
    }
    hide Step, WellFormed, Issuable, StoreFits, FramesFit, NameOf;
  }

  lemma RunningFits(c: Config, sys: Sys, k: Key)
    requires Consistent(c, sys) && k in sys.running && k.ns == c.ns
    ensures WellFormed(c) && sys.running[k].key == k
    ensures FrameFits(c, sys.running[k])
  {
    hide WellFormed, StoreFits, FrameFits;
  }

  lemma ConsistentStore(c: Config, sys: Sys)
    requires Consistent(c, sys)
    ensures WellFormed(c) && StoreFits(c, sys.store) && FramesFit(c, sys)
  {}

  lemma KeyIsLocal(c: Config, i: nat)
    requires WellFormed(c) && i < CELLS
    ensures KeyOf(c, i).ns == c.ns && KeyOf(c, i).kind == KindOf(i)
  {}

  lemma ActChange(c: Config, sys: Sys, e: Event, i: nat)
    requires Consistent(c, sys) && i < CELLS && e.Act? && e.key in sys.running
    requires At(c, Step(sys, e).store, i) != At(c, sys.store, i)
    requires TargetKey(sys.running[e.key]) == KeyOf(c, i)
    ensures WrittenNow(c, sys, e, i, sys.running[e.key])
  {
    hide Step, WellFormed, Consistent, FrameFits, CellFits, CallFits, Code, KeyOf, CellOf;
    var f := sys.running[e.key];
    StoreOfStep(sys, e);
    ConsistentStore(c, sys);
    KeyIsLocal(c, i);
    RunningFits(c, sys, e.key);
    EveryCallFits(c, f);
    WrittenBody(c, f, sys.store, e.ok);
    SameCell(c, i, CellOf(f.key.kind, f.pc));
  }

  lemma WrittenBody(c: Config, f: Frame, s: Store, ok: bool)
    requires WellFormed(c) && CallFits(c, f) && Exec(f, s, ok).0 != s
    ensures ok && CellOf(f.key.kind, f.pc) < CELLS && !IsSecret(CellOf(f.key.kind, f.pc))
    ensures TargetKey(f) == KeyOf(c, CellOf(f.key.kind, f.pc))
    ensures BodyAt(Exec(f, s, ok).0, TargetKey(f)) == Some(Code(f).body)
  {
    hide WellFormed, Code, KeyOf, CellFits, Admits, Unchanged;
  }

  lemma ChangedCell(c: Config, sys: Sys, e: Event, i: nat)
    requires WellFormed(c) && !Removes(e) && i < CELLS
    requires At(c, Step(sys, e).store, i) != At(c, sys.store, i)
    ensures !e.Crash? && ChangedKey(sys, e) == KeyOf(c, i)
    ensures At(c, Step(sys, e).store, i).Some?
    ensures forall j :: 0 <= j < CELLS && j != i ==> At(c, Step(sys, e).store, j) == At(c, sys.store, j)
  {
    hide WellFormed, Step, KeyOf, ChangedKey;
    var s, s' := sys.store, Step(sys, e).store;
    OneKeyChanges(sys, e);
    forall j | 0 <= j < CELLS && j != i
      ensures At(c, s', j) == At(c, s, j)
    {
      DistinctKeys(c, j, i);
    }
  }

  // The event deletes the object of cell i, or the object whose status it is.
  ghost predicate RemovedNow(c: Config, sys: Sys, e: Event, i: nat)
    requires WellFormed(c) && i < CELLS
  {
    && Removes(e) && e.key.ns == c.ns && (e.key == KeyOf(c, i) || e.key == ObjectOf(KeyOf(c, i)))
    && At(c, sys.store, i).Some? && At(c, Step(sys, e).store, i).None?
  }

  lemma RemovedCell(c: Config, sys: Sys, e: Event, i: nat)
    requires WellFormed(c) && Removes(e) && i < CELLS
    requires At(c, Step(sys, e).store, i) != At(c, sys.store, i)
    ensures RemovedNow(c, sys, e, i)
  {
    hide WellFormed, Step, KeyOf;
    KeyIsLocal(c, i);
    OnlyRemoved(sys, e);
  }

  lemma TamperChange(c: Config, sys: Sys, e: Event, i: nat)
    requires Consistent(c, sys) && Calm(c, e) && i < CELLS && e.Tamper? && e.key == KeyOf(c, i)
    requires At(c, Step(sys, e).store, i) != At(c, sys.store, i)
    ensures TamperedNow(c, sys, e, i)
  {
    StoreOfStep(sys, e);
    hide Step, NameOf;
    if At(c, sys.store, i).Some? {
      assert CellFits(c, i, At(c, sys.store, i).value);
    }
  }

  lemma AssignChange(c: Config, sys: Sys, e: Event, i: nat)
    requires Consistent(c, sys) && i < CELLS && e.Assign? && StatusKey(e.key) == KeyOf(c, i)
    requires At(c, Step(sys, e).store, i) != At(c, sys.store, i)
    ensures AssignedNow(c, sys, e, i)
  {
    StoreOfStep(sys, e);
    hide Step, SecretNames, Distinct, StoreFits, FramesFit;
  }

  lemma CellWritten(c: Config, sys: Sys, e: Event, i: nat)
    requires WellFormed(c) && Consistent(c, sys) && Calm(c, e) && !Removes(e) && i < CELLS
    requires At(c, Step(sys, e).store, i) != At(c, sys.store, i)
    ensures
      || IssuedNow(c, sys, e, i) || AssignedNow(c, sys, e, i) || TamperedNow(c, sys, e, i)
      || (e.Act? && e.key in sys.running && WrittenNow(c, sys, e, i, sys.running[e.key]))
  {
    hide WellFormed, Step, Consistent, WrittenNow, TamperedNow, AssignedNow, NameOf, Exec, Calm;
    ChangedCell(c, sys, e, i);
    StoreOfStep(sys, e);
    match e
    case Act(a, ok) => if a in sys.running { ActChange(c, sys, e, i); }
    case Issue(a, data) => if Issuable(sys.store, a) { SecretChange(c, sys, e, i); }
    case Tamper(a, body) => TamperChange(c, sys, e, i);
    case Assign(a, ingress) => AssignChange(c, sys, e, i);
    case _ =>
  }

  // Every change of a cell has one of five causes, and no other cell changes with it, but
  // for a status that is deleted with its object.
  lemma CellChange(c: Config, sys: Sys, e: Event, i: nat)
    requires Consistent(c, sys) && Calm(c, e) && i < CELLS
    requires At(c, Step(sys, e).store, i) != At(c, sys.store, i)
    ensures Removes(e) ==> RemovedNow(c, sys, e, i)
    ensures !Removes(e) ==>
      && At(c, Step(sys, e).store, i).Some?
      && (forall j :: 0 <= j < CELLS && j != i ==> At(c, Step(sys, e).store, j) == At(c, sys.store, j))
      && (IssuedNow(c, sys, e, i) || AssignedNow(c, sys, e, i) || TamperedNow(c, sys, e, i)
            || (e.Act? && e.key in sys.running && WrittenNow(c, sys, e, i, sys.running[e.key])))
  {
    hide WellFormed, Step, Consistent, WrittenNow, TamperedNow, AssignedNow, IssuedNow, RemovedNow, KeyOf, Calm, At;
    ConsistentStore(c, sys);
    if Removes(e) {
      RemovedCell(c, sys, e, i);
    } else {
      ChangedCell(c, sys, e, i);
      CellWritten(c, sys, e, i);
    }
  }
}
