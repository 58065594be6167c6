// A control plane at rest is at its target.
module Repose {
  import opened Api
  import opened Programs
  import opened Machine
  import opened Cells
  import opened Settling
  import opened Invariant
  import opened Termination
  import opened Convergence
  import opened Duties
  import opened Wakeup

  /******* A control plane at rest is at its target *******/

  // No reconcile in progress, queued or waiting in the namespace.
  ghost predicate Quiet(c: Config, sys: Sys) {
    forall k: Key :: k.ns == c.ns ==> k !in sys.running && k !in sys.pending && k !in sys.timers
  }

  // The provider and cert-manager have nothing left to do either.
  ghost predicate EnvironmentDone(c: Config, s: Store)
    requires WellFormed(c)
  {
    && (KeyOf(c, SERVICE) in s ==> At(c, s, INGRESS) == Some(ServiceStatusBody(c.ingress)))
    && forall j :: 0 <= j < 7 && Issuable(s, KeyOf(c, CertCell(j))) ==> At(c, s, SecretCell(j)).Some?
  }

  lemma RestingDid(c: Config, sys: Sys, kind: Kind)
    requires WellFormed(c) && Awake(c, sys, RECONCILED) && Quiet(c, sys) && kind in RECONCILED
    requires ResourceKey(c, kind) in sys.store
    ensures Did(c, sys.store, kind, LAST)
  {
    hide WellFormed, Consistent, HasSpec, OnTrack, Did, Owned;
    assert Covered(c, sys, kind);
  }

  lemma RestingGood(c: Config, sys: Sys, i: nat)
    requires WellFormed(c) && Awake(c, sys, RECONCILED) && Quiet(c, sys) && i < CELLS && ActorOf(i).Reconcile?
    ensures Good(c, sys.store, i) || Excused(c, sys.store, i)
  {
    hide WellFormed, Awake, Quiet, Did, Good, CellOf, ActorOf, ResourceCell, KeyOf, HasSpec;
    var kind := ActorOf(i).kind;
    ActorIsReconciled(i);
    AwakeHasSpec(c, sys);
    RestingDid(c, sys, ControlPlane);
    if kind != ControlPlane {
      var r := ResourceCell(kind);
      DidGood(c, sys.store, r);
      GoodIsStored(c, sys.store, r);
      ResourceAt(c, kind);
      RestingDid(c, sys, kind);
    }
    DidGood(c, sys.store, i);
  }

  lemma AwakeHasSpec(c: Config, sys: Sys)
    requires Awake(c, sys, RECONCILED)
    ensures Intact(c, sys) && HasSpec(c, sys.store) && ResourceKey(c, ControlPlane) in sys.store
  {
    hide WellFormed, Covered;
  }

  lemma IngressGood(c: Config, sys: Sys)
    requires WellFormed(c) && Awake(c, sys, RECONCILED) && Quiet(c, sys) && EnvironmentDone(c, sys.store)
    ensures HasSpec(c, sys.store) && Good(c, sys.store, INGRESS)
  {
    AwakeHasSpec(c, sys);
    RestingGood(c, sys, SERVICE);
    hide WellFormed, Awake, Quiet, Spec, HasSpec, DeriveTrust, DeriveComponent, KeyOf;
    GoodIsStored(c, sys.store, SERVICE);
    assert Prefix(c, sys.store, INGRESS)[SERVICE] == At(c, sys.store, SERVICE);
  }

  // The certificate, its issuer and the issuer's key pair are there.
  lemma SignerReady(c: Config, sys: Sys, i: nat)
    requires WellFormed(c) && Awake(c, sys, RECONCILED) && Quiet(c, sys) && i < CELLS && IsSecret(i)
    requires Which(i) != CA ==> At(c, sys.store, SecretCell(CA)).Some?
    ensures Issuable(sys.store, KeyOf(c, CertCell(Which(i)))) && i == SecretCell(Which(i)) && Which(i) < 7
    ensures HasSpec(c, sys.store)
    ensures Derive(c, Spec(c, sys.store), i, Prefix(c, sys.store, i)) == Some(SecretBody(c.issued[Which(i)]))
  {
    hide WellFormed, Awake, Quiet, Spec, HasSpec, KeyOf, Good, Derive, At, Issuable, SecretCell, CertCell, IsSecret,
      Prefix, ActorOf, Consistent;
    SecretAfterCert(i);
    AwakeHasSpec(c, sys);
    ConsistentStore(c, sys);
    CellGood(c, sys, i - 1);
    IssuersGood(c, sys);
    IssuableCells(c, sys.store, i);
    DerivedSecret(c, Spec(c, sys.store), sys.store, i);
  }

  lemma IssuersGood(c: Config, sys: Sys)
    requires WellFormed(c) && Awake(c, sys, RECONCILED) && Quiet(c, sys)
    ensures At(c, sys.store, ROOT_ISSUER).Some? && At(c, sys.store, CA_ISSUER).Some?
  {
    hide WellFormed, Awake, Quiet, Good, At;
    CellGood(c, sys, ROOT_ISSUER);
    CellGood(c, sys, CA_ISSUER);
  }

  lemma SecretGood(c: Config, sys: Sys, i: nat)
    requires WellFormed(c) && Awake(c, sys, RECONCILED) && Quiet(c, sys) && EnvironmentDone(c, sys.store)
    requires i < CELLS && IsSecret(i)
    ensures HasSpec(c, sys.store) && Good(c, sys.store, i)
    decreases i
  {
    hide WellFormed, Awake, Quiet, Spec, HasSpec, KeyOf, Good, Derive, At, Issuable, EnvironmentDone, SecretCell,
      CertCell, Prefix, IsSecret, Consistent;
    SecretAfterCert(i);
    AwakeHasSpec(c, sys);
    ConsistentStore(c, sys);
    if Which(i) != CA {
      SecretGood(c, sys, SecretCell(CA));
      GoodIsThere(c, sys.store, SecretCell(CA));
    }
    SignerReady(c, sys, i);
    AllIssued(c, sys.store, Which(i));
    IssuedContents(c, sys.store, i);
    GoodByDefinition(c, sys.store, i);
  }

  lemma SecretAfterCert(i: nat)
    requires i < CELLS && IsSecret(i)
    ensures Which(i) < 7 && i == SecretCell(Which(i)) && i - 1 == CertCell(Which(i)) && ActorOf(i - 1).Reconcile?
    ensures i - 1 != LB_STATUS
    ensures IsSecret(SecretCell(CA)) && (Which(i) != CA ==> SecretCell(CA) < i)
  {}

  lemma CellGood(c: Config, sys: Sys, i: nat)
    requires WellFormed(c) && Awake(c, sys, RECONCILED) && Quiet(c, sys)
    requires i < CELLS && ActorOf(i).Reconcile? && i != LB_STATUS
    ensures HasSpec(c, sys.store) && Good(c, sys.store, i) && At(c, sys.store, i).Some?
  {
    AwakeHasSpec(c, sys);
    RestingGood(c, sys, i);
    hide WellFormed, Awake, Quiet, Spec, HasSpec, Derive, At, ActorOf;
  }

  lemma GoodIsThere(c: Config, s: Store, i: nat)
    requires WellFormed(c) && HasSpec(c, s) && i < CELLS && Good(c, s, i)
    ensures At(c, s, i).Some?
  {}

  lemma AllIssued(c: Config, s: Store, j: nat)
    requires WellFormed(c) && EnvironmentDone(c, s) && j < 7 && Issuable(s, KeyOf(c, CertCell(j)))
    ensures At(c, s, SecretCell(j)).Some?
  {
    hide Issuable, WellFormed, KeyOf;
  }

  // No reconcile in progress, queued or waiting and nothing left to assign or to issue:
  // then every object of the control plane holds its target.
  lemma QuietIsTarget(c: Config, sys: Sys)
    requires WellFormed(c) && Awake(c, sys, RECONCILED) && Quiet(c, sys) && EnvironmentDone(c, sys.store)
    requires c.ingress != []
    ensures HasSpec(c, sys.store) && AtTarget(c, Spec(c, sys.store), sys.store)
  {
    hide WellFormed, Awake, Quiet, HasSpec, Good, Derive, EnvironmentDone, Spec;
    AwakeHasSpec(c, sys);
    var s, cp := sys.store, Spec(c, sys.store);
    var p := Prefix(c, s, CELLS);
    forall i | 0 <= i < CELLS
      ensures p[i] == Derive(c, cp, i, p[..i])
    {
      RestingCell(c, sys, i);
      assert p[..i] == Prefix(c, s, i);
      GoodMeans(c, s, i);
    }
    UniqueSolution(c, cp, p);
    forall i | 0 <= i < CELLS
      ensures At(c, s, i) == Target(c, cp, i)
    {
      SolutionAt(c, cp, CELLS, i);
      assert p[i] == At(c, s, i);
    }
  }

  // No reconcile in progress, queued or waiting and nothing left to assign or to issue:
  // then every cell agrees with its equation, even without an ingress.
  lemma QuietIsRight(c: Config, sys: Sys)
    requires WellFormed(c) && Awake(c, sys, RECONCILED) && Quiet(c, sys) && EnvironmentDone(c, sys.store)
    ensures HasSpec(c, sys.store) && Right(c, Spec(c, sys.store), sys.store, CELLS)
  {
    hide WellFormed, Awake, Quiet, HasSpec, Good, Derive, EnvironmentDone, Spec, Prefix;
    AwakeHasSpec(c, sys);
    forall i | 0 <= i < CELLS
      ensures Wrong(c, Spec(c, sys.store), sys.store, i) == 0
    {
      RestingCell(c, sys, i);
      if Good(c, sys.store, i) {
        GoodMeans(c, sys.store, i);
      } else {
        if Due(c, Spec(c, sys.store), sys.store, LB_STATUS) {
          DueEndpoint(c, Spec(c, sys.store), sys.store, LB_STATUS);
        }
      }
    }
  }

  lemma GoodMeans(c: Config, s: Store, i: nat)
    requires WellFormed(c) && HasSpec(c, s) && i < CELLS && Good(c, s, i)
    ensures At(c, s, i) == Derive(c, Spec(c, s), i, Prefix(c, s, i))
  {}

  lemma RestingCell(c: Config, sys: Sys, i: nat)
    requires WellFormed(c) && Awake(c, sys, RECONCILED) && Quiet(c, sys) && EnvironmentDone(c, sys.store) && i < CELLS
    ensures HasSpec(c, sys.store) && (Good(c, sys.store, i) || (i == LB_STATUS && Excused(c, sys.store, i)))
    ensures c.ingress != [] ==> Good(c, sys.store, i)
  {
    AwakeHasSpec(c, sys);
    hide WellFormed, Awake, Quiet, HasSpec, Good, EnvironmentDone, Spec, KeyOf;
    if i == INGRESS {
      IngressGood(c, sys);
    } else if IsSecret(i) {
      SecretGood(c, sys, i);
    } else {
      assert ActorOf(i).Reconcile?;
      RestingGood(c, sys, i);
      if i == LB_STATUS {
        IngressGood(c, sys);
        IngressAssigned(c, sys);
      }
    }
  }

  lemma IngressAssigned(c: Config, sys: Sys)
    requires WellFormed(c) && EnvironmentDone(c, sys.store)
    requires HasSpec(c, sys.store) && Awake(c, sys, RECONCILED) && Quiet(c, sys)
    ensures SeenIngress(At(c, sys.store, INGRESS)) == c.ingress
  {
    CellGood(c, sys, SERVICE);
    GoodIsStored(c, sys.store, SERVICE);
    hide WellFormed, Awake, Quiet, HasSpec, Good, Spec, KeyOf;
  }
}
