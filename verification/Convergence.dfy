// Convergence of whole, failure-free moves.  In any store whose cells fit the identity,
// no actor changes anything exactly when every cell agrees with its equation, and every
// schedule that lets each actor move once per round gets there after at most one round per
// cell.  With an address assigned, this state is the target.
module Convergence {
  import opened Api
  import opened Programs
  import opened Machine
  import opened Integrity
  import opened Passes
  import opened Cells
  import opened Settling
  import opened Invariant
  import opened Termination

  /******* The target is complete *******/

  // The provider has an address to give.
  predicate Addressed(c: Config) {
    c.ingress != [] && c.ingress[0] != ""
  }

  ghost predicate Alive(c: Config, p: seq<Option<Body>>)
    requires WellFormed(c) && Addressed(c) && |p| <= CELLS
  {
    forall j :: 0 <= j < |p| ==>
      && p[j].Some? && Typed(KindOf(j), p[j].value)
      && (j == INGRESS ==> p[j].value.ingress == c.ingress)
      && (j == LB_STATUS ==> p[j].value.ip == c.ingress[0])
      && (j == PKI ==> p[j].value.pki.controlPlaneIP == c.ingress[0])
  }

  lemma DerivedAlive(c: Config, cp: ControlPlaneSpec, i: nat, p: seq<Option<Body>>)
    requires WellFormed(c) && Addressed(c) && |p| == i < CELLS && Alive(c, p)
    ensures Alive(c, p + [Derive(c, cp, i, p)])
  {
    hide SecretNames, Distinct, WellFormed, KasFor, KcmFor, KsFor, CertificateFor, GenerateDeployment, KcmWorkload,
      KsWorkload, KCM_KUBECONFIG, KS_CONFIG, EGRESS_CONFIG, KCM_NAME, KS_NAME;
    var d := Derive(c, cp, i, p);
    if i < PKI {
      hide DeriveTrust, DeriveComponent;
    } else if i < ADMIN_KUBECONFIG {
      hide DeriveEndpoint, DeriveComponent;
    } else {
      hide DeriveEndpoint, DeriveTrust;
    }
    assert d.Some? && Typed(KindOf(i), d.value);
  }

  lemma {:induction false} SolutionAlive(c: Config, cp: ControlPlaneSpec, n: nat)
    requires WellFormed(c) && Addressed(c) && n <= CELLS
    ensures Alive(c, Solution(c, cp, n))
  {
    hide WellFormed, Derive;
    if n > 0 {
      SolutionAlive(c, cp, n - 1);
      hide Alive;
      DerivedAlive(c, cp, n - 1, Solution(c, cp, n - 1));
    }
  }

  /******* Right prefixes *******/

  // The first r cells agree with their equations, as far as these ask for something.
  ghost predicate Right(c: Config, cp: ControlPlaneSpec, s: Store, r: nat)
    requires WellFormed(c)
  {
    forall i :: 0 <= i < r && i < CELLS ==> Wrong(c, cp, s, i) == 0
  }

  // The equation of cell r asks for something.
  ghost predicate Due(c: Config, cp: ControlPlaneSpec, s: Store, r: nat)
    requires WellFormed(c) && r < CELLS
  {
    Derive(c, cp, r, Prefix(c, s, r)).Some?
  }

  ghost predicate WroteCell(c: Config, s: Store, s': Store, i: nat)
    requires WellFormed(c) && i < CELLS
  {
    forall j :: 0 <= j < CELLS && j != i ==> At(c, s', j) == At(c, s, j)
  }

  lemma SameBelow(c: Config, cp: ControlPlaneSpec, s: Store, s': Store, r: nat)
    requires WellFormed(c) && r <= CELLS && SameCellsBelow(c, s, s', r)
    ensures Right(c, cp, s, r) ==> Right(c, cp, s', r)
    ensures r < CELLS ==> Prefix(c, s', r) == Prefix(c, s, r) && Due(c, cp, s', r) == Due(c, cp, s, r)
  {
    hide WellFormed, At, Derive, Wrong;
    if r < CELLS {
      assert Prefix(c, s', r) == Prefix(c, s, r);
    }
    if Right(c, cp, s, r) {
      forall i | 0 <= i < r
        ensures Wrong(c, cp, s', i) == 0
      {
        SameWrong(c, cp, s, s', i);
      }
    }
  }

  // Writing what the equations say changes no cell of a right prefix, and extends it by
  // the cell right after it.
  lemma WriteRight(c: Config, cp: ControlPlaneSpec, s: Store, s': Store, i: nat, r: nat)
    requires WellFormed(c) && i < CELLS && r <= CELLS && Right(c, cp, s, r) && WroteCell(c, s, s', i)
    requires At(c, s', i).Some? && At(c, s', i) == Derive(c, cp, i, Prefix(c, s, i))
    ensures SameCellsBelow(c, s, s', r) && Right(c, cp, s', r)
    ensures i == r ==> Right(c, cp, s', r + 1)
  {
    hide WellFormed, At, Derive, Right;
    if i < r {
      WrongMeans(c, cp, s, i, r);
    }
    SameBelow(c, cp, s, s', r);
    if i == r {
      OneMoreRight(c, cp, s', r);
    }
  }

  lemma WrongMeans(c: Config, cp: ControlPlaneSpec, s: Store, i: nat, r: nat)
    requires WellFormed(c) && i < r && i < CELLS && Right(c, cp, s, r)
    ensures Derive(c, cp, i, Prefix(c, s, i)).Some? ==> At(c, s, i) == Derive(c, cp, i, Prefix(c, s, i))
  {
    hide WellFormed, At, Derive, Prefix;
    assert Wrong(c, cp, s, i) == 0;
  }

  lemma OneMoreRight(c: Config, cp: ControlPlaneSpec, s: Store, r: nat)
    requires WellFormed(c) && r < CELLS && Right(c, cp, s, r)
    requires Due(c, cp, s, r) ==> At(c, s, r) == Derive(c, cp, r, Prefix(c, s, r))
    ensures Right(c, cp, s, r + 1)
  {
    hide WellFormed, At, Derive, Prefix;
  }

  /******* With an address, right means settled *******/

  ghost predicate Settled(c: Config, cp: ControlPlaneSpec, s: Store, r: nat)
    requires WellFormed(c)
  {
    forall i :: 0 <= i < r && i < CELLS ==> At(c, s, i) == Target(c, cp, i)
  }

  lemma PrefixIsSolution(c: Config, cp: ControlPlaneSpec, s: Store, n: nat)
    requires WellFormed(c) && n <= CELLS && Settled(c, cp, s, n)
    ensures Prefix(c, s, n) == Solution(c, cp, n)
  {
    hide WellFormed, At, Derive, Solution, Target;
    forall i | 0 <= i < n
      ensures Prefix(c, s, n)[i] == Solution(c, cp, n)[i]
    {
      SolutionAt(c, cp, n, i);
    }
  }

  lemma TargetDerives(c: Config, cp: ControlPlaneSpec, r: nat)
    requires WellFormed(c) && r < CELLS
    ensures Target(c, cp, r) == Derive(c, cp, r, Solution(c, cp, r))
  {}

  // Every equation asks for something once the earlier cells are settled.
  lemma SettledIsDue(c: Config, cp: ControlPlaneSpec, s: Store, r: nat)
    requires WellFormed(c) && Addressed(c) && r < CELLS && Settled(c, cp, s, r)
    ensures Due(c, cp, s, r) && Derive(c, cp, r, Prefix(c, s, r)) == Target(c, cp, r)
  {
    hide WellFormed, At, Derive, Solution, Settled, Prefix, Alive, Target;
    PrefixIsSolution(c, cp, s, r);
    TargetDerives(c, cp, r);
    SolutionAlive(c, cp, r + 1);
    SolutionAt(c, cp, r + 1, r);
    AliveAt(c, Solution(c, cp, r + 1), r);
  }

  lemma AliveAt(c: Config, p: seq<Option<Body>>, j: nat)
    requires WellFormed(c) && Addressed(c) && j < |p| <= CELLS && Alive(c, p)
    ensures p[j].Some?
  {}

  lemma {:induction false} RightIsSettled(c: Config, cp: ControlPlaneSpec, s: Store, r: nat)
    requires WellFormed(c) && Addressed(c) && r <= CELLS
    ensures Right(c, cp, s, r) <==> Settled(c, cp, s, r)
  {
    hide WellFormed, At, Derive, Target, Prefix;
    if r > 0 {
      RightIsSettled(c, cp, s, r - 1);
      if Settled(c, cp, s, r - 1) {
        SettledIsDue(c, cp, s, r - 1);
        assert Wrong(c, cp, s, r - 1) == 0 <==> At(c, s, r - 1) == Target(c, cp, r - 1);
      }
    }
  }

  /******* One call of a failure-free reconcile *******/

  ghost predicate SpecIs(c: Config, cp: ControlPlaneSpec, s: Store) {
    BodyAt(s, ControlPlaneKey(c)) == Some(ControlPlaneBody(cp))
  }

  // A reconcile in progress that nothing has overtaken.
  ghost predicate Onward(c: Config, cp: ControlPlaneSpec, f: Frame, s: Store) {
    && WellFormed(c) && StoreFits(c, s) && SpecIs(c, cp, s)
    && FrameFits(c, f) && Reached(f, s) && Fresh(c, s, f)
    && (f.key.kind == Loadbalancer && f.pc <= 1 ==> f.status == At(c, s, LB_STATUS))
  }

  lemma OnwardIsReady(c: Config, cp: ControlPlaneSpec, f: Frame, s: Store)
    requires Onward(c, cp, f, s) && !Code(f).Stop? && !Code(f).Fetch?
    ensures Ready(c, cp, s, f)
  {
    assert f.body.ControlPlaneBody? ==> f.key.kind == ControlPlane by {
      hide WellFormed, StoreFits, Reached, Code, At, SeenCell, Conforms, PkiConforms, KasConforms, KcmConforms;
    }
    hide WellFormed, StoreFits, Reached, Code, At, SeenCell, CellFits;
  }

  // A fitting write is always admitted.
  lemma Admitted(c: Config, s: Store, f: Frame)
    requires WellFormed(c) && StoreFits(c, s) && FrameFits(c, f) && CallFits(c, f) && Code(f).Apply?
    ensures Admits(s, Code(f).key, Code(f).body)
  {
    var i := CellOf(f.key.kind, f.pc);
    NamesAreNotEmpty(c, i);
    hide WellFormed, FrameFits, Code, NameOf, StoreFits;
    assert At(c, s, i).Some? ==> CellFits(c, i, At(c, s, i).value) by { hide CellFits; assert StoreFits(c, s); }
  }

  lemma NamesAreNotEmpty(c: Config, i: nat)
    requires WellFormed(c) && i < CELLS
    ensures NameOf(c, i) != ""
  {
    hide Distinct;
    assert KCM_NAME != "" && KS_NAME != "" && KCM_KUBECONFIG != "" && KS_CONFIG != "" && EGRESS_CONFIG != "";
    hide KCM_NAME, KS_NAME, KCM_KUBECONFIG, KS_CONFIG, EGRESS_CONFIG;
  }

  // What a failure-free call leaves behind.
  ghost predicate Called(c: Config, cp: ControlPlaneSpec, f: Frame, s: Store)
    requires WellFormed(c) && !Code(f).Stop?
  {
    var (s', p) := Exec(f, s, true);
    var i := CellOf(f.key.kind, f.pc);
    && i < CELLS
    && StoreFits(c, s') && SpecIs(c, cp, s')
    && (Code(f).Fetch? ==> s' == s && IsSecret(i) && (At(c, s, i).Some? ==> p.Next?))
    && (!Code(f).Fetch? ==>
          && p.Next? && WroteCell(c, s, s', i)
          && At(c, s', i) == Derive(c, cp, i, Prefix(c, s, i)) && At(c, s', i).Some?)
    && (p.Next? ==> Onward(c, cp, p.frame, s') && p.frame.pc == f.pc + 1 && p.frame.key == f.key)
  }

  lemma WrittenCell(c: Config, cp: ControlPlaneSpec, f: Frame, s: Store)
    requires Onward(c, cp, f, s) && !Code(f).Stop? && !Code(f).Fetch?
    ensures CallFits(c, f)
    ensures var (s', p) := Exec(f, s, true);
      && p.Next?
      && s' == Put(s, KeyOf(c, CellOf(f.key.kind, f.pc)), if Code(f).Apply? then Some(f.key) else None, Code(f).body)
  {
    EveryCallFits(c, f);
    hide WellFormed, StoreFits, Reached, At, SeenCell, CellFits, FrameFits, CellOf, KeyOf;
    if Code(f).Apply? {
      Admitted(c, s, f);
    } else {
      ReportFollowsRead(c, cp, f, s);
    }
    hide Code, Admits;
  }

  lemma ReportFollowsRead(c: Config, cp: ControlPlaneSpec, f: Frame, s: Store)
    requires Onward(c, cp, f, s) && Code(f).Report?
    ensures Unchanged(f, s)
  {
    assert f.key.kind == Loadbalancer && f.pc <= 1 by {
      hide WellFormed, StoreFits, Reached, At, SeenCell, SecretNames;
    }
    hide Code, WellFormed, StoreFits, Reached, SeenCell, FrameFits, SecretNames;
    assert StatusKey(f.key) == KeyOf(c, LB_STATUS) by { assert FrameFits(c, f); }
  }

  lemma StoreAfterWrite(c: Config, cp: ControlPlaneSpec, s: Store, i: nat, owner: Option<Key>, b: Body)
    requires WellFormed(c) && StoreFits(c, s) && SpecIs(c, cp, s) && i < CELLS && CellFits(c, i, b)
    ensures var s' := Put(s, KeyOf(c, i), owner, b);
      && StoreFits(c, s') && SpecIs(c, cp, s') && WroteCell(c, s, s', i) && At(c, s', i) == Some(b)
  {
    var s' := Put(s, KeyOf(c, i), owner, b);
    CellWriteFits(c, i, b);
    CellIsUnique(c, i, b);
    hide WellFormed, CellFits, KeyOf, WriteFits, StoreFits;
    StoreStaysFit(c, s, s', KeyOf(c, i));
    forall j | 0 <= j < CELLS && j != i
      ensures At(c, s', j) == At(c, s, j)
    {
      DistinctKeys(c, j, i);
    }
  }

  lemma FetchIsCalled(c: Config, cp: ControlPlaneSpec, f: Frame, s: Store)
    requires Onward(c, cp, f, s) && Code(f).Fetch?
    ensures Called(c, cp, f, s)
  {
    var (s', p) := Exec(f, s, true);
    EveryCallFits(c, f);
    if p.Next? {
      AdvanceFits(c, s, f, true);
      FreshAfter(c, cp, f, s);
    }
    ExecReached(f, s, true);
    hide WellFormed, StoreFits, FrameFits, Reached, Code, CellFits, KeyOf, Fresh, CellOf;
  }

  // The write of a call changes neither the custom resource nor what was remembered.
  lemma FreshAfter(c: Config, cp: ControlPlaneSpec, f: Frame, s: Store)
    requires WellFormed(c) && Onward(c, cp, f, s) && !Code(f).Stop? && Exec(f, s, true).1.Next?
    requires forall j :: 0 <= j < CELLS && !(j == CellOf(f.key.kind, f.pc) && !Code(f).Fetch?) ==>
      At(c, Exec(f, s, true).0, j) == At(c, s, j)
    requires BodyAt(Exec(f, s, true).0, ControlPlaneKey(c)) == BodyAt(s, ControlPlaneKey(c))
    ensures Fresh(c, Exec(f, s, true).0, Exec(f, s, true).1.frame)
    ensures Exec(f, s, true).1.frame.key == f.key && Exec(f, s, true).1.frame.body == f.body
    ensures Exec(f, s, true).1.frame.status == f.status
  {
    hide Onward, StoreFits, FrameFits, Reached, CellFits, KeyOf, Code, SeenCell, CellOf, WellFormed;
    OnwardFits(c, cp, f, s);
    assert Fresh(c, s, f) by { OnwardIsFresh(c, cp, f, s); }
    EveryCallFits(c, f);
    if f.pc == Remembered(f.body) {
      SeenFits(c, s, f, true);
    }
    OwnCell(c, f);
    var (s', p) := Exec(f, s, true);
    assert p.frame.pc == f.pc + 1 && p.frame.body == f.body && p.frame.key == f.key;
    assert BodyAt(s', f.key) == BodyAt(s, f.key) by {
      if j :| 0 <= j < CELLS && j != CellOf(f.key.kind, f.pc) && f.key == KeyOf(c, j) {
        assert At(c, s', j) == At(c, s, j);
      }
    }
    assert At(c, s', SeenCell(f.key.kind)) == At(c, s, SeenCell(f.key.kind));
    assert f.pc > Remembered(f.body) ==> p.frame.seen == f.seen;
  }

  lemma OnwardIsFresh(c: Config, cp: ControlPlaneSpec, f: Frame, s: Store)
    requires WellFormed(c) && Onward(c, cp, f, s)
    ensures Fresh(c, s, f) && Reached(f, s)
  {}

  // A reconcile writes neither its own resource nor the cell it remembers.
  lemma OwnCell(c: Config, f: Frame)
    requires WellFormed(c) && FrameFits(c, f) && CellOf(f.key.kind, f.pc) < CELLS
    ensures f.key == ControlPlaneKey(c) ||
      exists j :: 0 <= j < CELLS && j != CellOf(f.key.kind, f.pc) && f.key == KeyOf(c, j)
    ensures SeenCell(f.key.kind) < CELLS
    ensures CellOf(f.key.kind, f.pc) == SeenCell(f.key.kind) ==> IsSecret(CellOf(f.key.kind, f.pc))
  {
    hide SecretNames, Distinct, ResourceFits, CellFits;
    if f.key.kind != ControlPlane {
      assert f.key == KeyOf(c, ResourceCell(f.key.kind));
    }
  }

  lemma WriteIsCalled(c: Config, cp: ControlPlaneSpec, f: Frame, s: Store)
    requires Onward(c, cp, f, s) && !Code(f).Stop? && !Code(f).Fetch?
    ensures Called(c, cp, f, s)
  {
    var (s', p) := Exec(f, s, true);
    var i := CellOf(f.key.kind, f.pc);
    WrittenCell(c, cp, f, s);
    StoreAfterWrite(c, cp, s, i, if Code(f).Apply? then Some(f.key) else None, Code(f).body);
    AdvanceFits(c, s, f, true);
    ExecReached(f, s, true);
    OnwardIsReady(c, cp, f, s);
    FreshDerives(c, cp, s, f);
    hide WellFormed, StoreFits, FrameFits, Reached, Code, CellFits, KeyOf, Fresh, CellOf, Exec, Derive, Prefix, At;
    FreshAfter(c, cp, f, s);
    StatusIsLast(c, f, s);
  }

  lemma StatusIsLast(c: Config, f: Frame, s: Store)
    requires WellFormed(c) && FrameFits(c, f) && !Code(f).Stop? && CellOf(f.key.kind, f.pc) < CELLS
    ensures f.key.kind == Loadbalancer && f.pc == 0 ==> CellOf(f.key.kind, f.pc) != LB_STATUS
  {
    hide WellFormed, FrameFits, Code;
  }

  lemma EveryCallIsCalled(c: Config, cp: ControlPlaneSpec, f: Frame, s: Store)
    requires Onward(c, cp, f, s) && !Code(f).Stop?
    ensures Called(c, cp, f, s)
  {
    hide Onward, Called, Code;
    if Code(f).Fetch? {
      FetchIsCalled(c, cp, f, s);
    } else {
      WriteIsCalled(c, cp, f, s);
    }
  }

  /******* Whole reconciles *******/

  lemma CallKeeps(c: Config, cp: ControlPlaneSpec, f: Frame, s: Store, r: nat)
    requires WellFormed(c) && Onward(c, cp, f, s) && !Code(f).Stop? && r <= CELLS && Right(c, cp, s, r)
    ensures var (s', p) := Exec(f, s, true);
      && StoreFits(c, s') && SpecIs(c, cp, s') && SameCellsBelow(c, s, s', r) && Right(c, cp, s', r)
      && (p.Next? ==> Onward(c, cp, p.frame, s'))
    ensures !Code(f).Fetch? && CellOf(f.key.kind, f.pc) == r < CELLS ==>
      Exec(f, s, true).1.Next? && Right(c, cp, Exec(f, s, true).0, r + 1)
  {
    EveryCallIsCalled(c, cp, f, s);
    hide WellFormed, Onward, Code, Exec, Right, At, Derive, Prefix, StoreFits;
    if !Code(f).Fetch? {
      WriteRight(c, cp, s, Exec(f, s, true).0, CellOf(f.key.kind, f.pc), r);
    }
  }

  // A reconcile that nothing overtakes never touches what is right.
  lemma {:induction false} RestKeeps(c: Config, cp: ControlPlaneSpec, f: Frame, s: Store, r: nat)
    requires WellFormed(c) && Onward(c, cp, f, s) && r <= CELLS && Right(c, cp, s, r)
    ensures StoreFits(c, Rest(f, s)) && SpecIs(c, cp, Rest(f, s))
    ensures SameCellsBelow(c, s, Rest(f, s), r) && Right(c, cp, Rest(f, s), r)
    decreases LAST - f.pc
  {
    hide WellFormed, Onward, Code, Exec, Right, StoreFits, Rest, Written, SpecIs, At;
    Unfold(f, s);
    CallAdvances(f, s);
    if !Code(f).Stop? {
      var (s', p) := Exec(f, s, true);
      CallKeeps(c, cp, f, s, r);
      if p.Next? {
        RestKeeps(c, cp, p.frame, s', r);
      }
    } else {
      OnwardFits(c, cp, f, s);
    }
  }

  lemma OnwardFits(c: Config, cp: ControlPlaneSpec, f: Frame, s: Store)
    requires WellFormed(c) && Onward(c, cp, f, s)
    ensures StoreFits(c, s) && SpecIs(c, cp, s) && FrameFits(c, f)
  {}

  // What the equation of a cell asks for tells which gates are open.
  lemma DueEndpoint(c: Config, cp: ControlPlaneSpec, s: Store, r: nat)
    requires WellFormed(c) && r == LB_STATUS && Due(c, cp, s, r)
    ensures SeenIngress(At(c, s, INGRESS)) != [] && At(c, s, LB).Some?
  {
    hide WellFormed, At, DeriveTrust, DeriveComponent;
    var p := Prefix(c, s, r);
    assert p[INGRESS] == At(c, s, INGRESS) && p[LB] == At(c, s, LB);
  }

  lemma DueTrust(c: Config, cp: ControlPlaneSpec, s: Store, r: nat)
    requires WellFormed(c) && KS < r <= ADMIN_KUBECONFIG && !IsSecret(r) && Due(c, cp, s, r)
    ensures At(c, s, PKI).Some? && At(c, s, PKI).value.PkiBody?
    ensures r == ADMIN_KUBECONFIG || (IsCert(r) && Which(r) > ADMIN) ==> At(c, s, SecretCell(ADMIN)).Some?
    ensures IsCert(r) && Which(r) > ADMIN ==> At(c, s, PKI).value.pki.controlPlaneIP != ""
  {
    hide WellFormed, At, DeriveEndpoint, CertificateFor, KubeconfigSecret;
    var p := Prefix(c, s, r);
    assert p[PKI] == At(c, s, PKI);
    if r == ADMIN_KUBECONFIG || (IsCert(r) && Which(r) > ADMIN) {
      assert p[SecretCell(ADMIN)] == At(c, s, SecretCell(ADMIN));
    }
  }

  lemma DueComponent(c: Config, cp: ControlPlaneSpec, s: Store, r: nat)
    requires WellFormed(c) && ADMIN_KUBECONFIG < r < CELLS && Due(c, cp, s, r)
    ensures At(c, s, ResourceCell(ActorOf(r).kind)).Some?
    ensures r <= KAS_DEPLOYMENT ==> At(c, s, SecretCell(KONNECTIVITY)).Some?
    ensures r == KAS_DEPLOYMENT ==>
      At(c, s, SecretCell(CA)).Some? && At(c, s, SecretCell(SERVER)).Some? && At(c, s, SecretCell(ACCOUNTS)).Some?
    ensures r == KCM_SECRET || r == KCM_DEPLOYMENT ==>
      At(c, s, SecretCell(MANAGER)).Some? && At(c, s, SecretCell(ACCOUNTS)).Some? && At(c, s, SecretCell(CA)).Some?
    ensures r >= KS_SECRET ==> At(c, s, SecretCell(SCHEDULER)).Some?
  {
    hide WellFormed, At, DeriveEndpoint, DeriveTrust, KubeconfigSecret, SchedulerSecret, GenerateDeployment,
      KcmWorkload, KsWorkload, EGRESS_CONFIG;
    var p := Prefix(c, s, r);
    forall j | 0 <= j < r
      ensures p[j] == At(c, s, j)
    {}
  }

  // With cell r due, all gates before the call that writes it are open.
  lemma KeepsGoing(c: Config, cp: ControlPlaneSpec, f: Frame, s: Store, r: nat, q: nat)
    requires WellFormed(c) && Onward(c, cp, f, s) && r < CELLS && Due(c, cp, s, r)
    requires f.pc <= q && CellOf(f.key.kind, q) == r && !IsSecret(r)
    ensures !Code(f).Stop?
    ensures Code(f).Fetch? ==> f.pc < q && Exec(f, s, true).1.Next?
  {
    hide StoreFits, Reached, SecretNames, Distinct, At, Prefix, Fresh, SpecIs, GenerateDeployment, KcmWorkload,
      KsWorkload, KubeconfigSecret, SchedulerSecret, KCM_NAME, KS_NAME, KCM_KUBECONFIG, KS_CONFIG, EGRESS_CONFIG,
      Conforms, WellFormed, Due, Code, FrameFits, KeyOf, Called, Onward, IsSecret;
    OnwardFits(c, cp, f, s);
    FitsReconciler(c, f);
    OpenGates(c, cp, f, s, r, q);
    GoesOn(c, f, r, q);
    EveryCallIsCalled(c, cp, f, s);
    CalledFetch(c, cp, f, s);
  }

  lemma CalledFetch(c: Config, cp: ControlPlaneSpec, f: Frame, s: Store)
    requires WellFormed(c) && !Code(f).Stop? && Called(c, cp, f, s)
    ensures CellOf(f.key.kind, f.pc) < CELLS
    ensures Code(f).Fetch? && At(c, s, CellOf(f.key.kind, f.pc)).Some? ==> Exec(f, s, true).1.Next?
  {
    hide WellFormed, Code, Exec, Derive, Prefix, At, CellOf, StoreFits, Onward;
  }

  lemma OpenGates(c: Config, cp: ControlPlaneSpec, f: Frame, s: Store, r: nat, q: nat)
    requires WellFormed(c) && Onward(c, cp, f, s) && r < CELLS && Due(c, cp, s, r)
    requires f.pc <= q && CellOf(f.key.kind, q) == r && !IsSecret(r) && Reconciled(f.key.kind)
    ensures f.key.kind == Pki && q >= 6 ==> f.body.PkiBody? && f.body.pki.controlPlaneIP != ""
    ensures f.key.kind == Loadbalancer && f.pc == 1 ==> SeenIngress(f.seen) != []
    ensures CellOf(f.key.kind, f.pc) < CELLS && IsSecret(CellOf(f.key.kind, f.pc)) ==>
      At(c, s, CellOf(f.key.kind, f.pc)).Some?
  {
    hide StoreFits, Reached, At, Due, WellFormed, Code, FrameFits, KeyOf, Onward;
    OnwardIsFresh(c, cp, f, s);
    OnwardFits(c, cp, f, s);
    match f.key.kind
    case ControlPlane =>
    case Loadbalancer =>
      if q == 1 {
        DueEndpoint(c, cp, s, r);
        RemembersFirst(c, f);
      }
    case Pki =>
      DueTrust(c, cp, s, r);
      PkiAt(c, s, f);
      assert q >= 6 ==> Which(CertCell(q - 4)) == q - 4;
    case _ => DueComponent(c, cp, s, r);
  }

  lemma RemembersFirst(c: Config, f: Frame)
    requires WellFormed(c) && FrameFits(c, f) && f.key.kind == Loadbalancer
    ensures Remembered(f.body) == 0
  {
    hide WellFormed;
  }

  lemma PkiAt(c: Config, s: Store, f: Frame)
    requires WellFormed(c) && FrameFits(c, f) && f.key.kind == Pki && Fresh(c, s, f)
    ensures At(c, s, PKI) == Some(f.body)
  {
    ResourceCells(c);
    hide WellFormed, KeyOf, ResourceFits;
  }

  lemma GoesOn(c: Config, f: Frame, r: nat, q: nat)
    requires WellFormed(c) && FrameFits(c, f) && Reconciled(f.key.kind)
    requires f.pc <= q && CellOf(f.key.kind, q) == r < CELLS && !IsSecret(r)
    requires f.key.kind == Pki && q >= 6 ==> f.body.PkiBody? && f.body.pki.controlPlaneIP != ""
    requires f.key.kind == Loadbalancer && f.pc == 1 ==> SeenIngress(f.seen) != []
    ensures !Code(f).Stop?
    ensures Code(f).Fetch? ==> f.pc < q && IsSecret(CellOf(f.key.kind, f.pc))
  {
    hide SecretNames, Distinct, WellFormed, PkiConforms, KasConforms, KcmConforms, Conforms, GenerateDeployment,
      KcmWorkload, KsWorkload, KubeconfigSecret, SchedulerSecret, KCM_NAME, KS_NAME, KCM_KUBECONFIG, KS_CONFIG,
      EGRESS_CONFIG;
  }

  lemma {:induction false} RestExtends(c: Config, cp: ControlPlaneSpec, f: Frame, s: Store, r: nat, q: nat)
    requires WellFormed(c) && Onward(c, cp, f, s) && r < CELLS && Right(c, cp, s, r) && Due(c, cp, s, r)
    requires f.pc <= q && CellOf(f.key.kind, q) == r && !IsSecret(r)
    ensures Right(c, cp, Rest(f, s), r + 1)
    decreases LAST - f.pc
  {
    hide WellFormed, Onward, Code, Exec, Right, StoreFits, Rest, Written, SpecIs, Derive, At, Prefix, Due, CellOf;
    Unfold(f, s);
    CallAdvances(f, s);
    KeepsGoing(c, cp, f, s, r, q);
    CallKeeps(c, cp, f, s, r);
    CalledNext(c, cp, f, s);
    var (s', p) := Exec(f, s, true);
    if f.pc == q {
      RestKeeps(c, cp, p.frame, s', r + 1);
    } else {
      SameBelow(c, cp, s, s', r);
      RestExtends(c, cp, p.frame, s', r, q);
    }
  }

  lemma CalledNext(c: Config, cp: ControlPlaneSpec, f: Frame, s: Store)
    requires WellFormed(c) && Onward(c, cp, f, s) && !Code(f).Stop?
    ensures !Code(f).Fetch? ==> Exec(f, s, true).1.Next?
    ensures Exec(f, s, true).1.Next? ==>
      Exec(f, s, true).1.frame.pc == f.pc + 1 && Exec(f, s, true).1.frame.key == f.key
  {
    EveryCallIsCalled(c, cp, f, s);
    hide WellFormed, Onward, Code, Exec, StoreFits, Derive, At, Prefix, CellOf;
  }

  /******* Actors *******/

  type Index = j: nat | j < 7

  // Kinds without a reconciler do nothing.
  datatype Actor = Reconcile(kind: Kind) | Provide | Sign(certificate: Index)

  function Idle(s: Store): Sys {
    Sys(s, map[], {}, {})
  }

  function Environment(c: Config, a: Actor): Event
    requires WellFormed(c) && !a.Reconcile?
  {
    if a.Provide? then Assign(KeyOf(c, SERVICE), c.ingress)
    else Issue(KeyOf(c, CertCell(a.certificate)), c.issued[a.certificate])
  }

  // A whole failure-free reconcile, or one move of the provider or of cert-manager.
  function Move(c: Config, s: Store, a: Actor): Store
    requires WellFormed(c)
  {
    if a.Reconcile? then Pass(s, ResourceKey(c, a.kind)) else Step(Idle(s), Environment(c, a)).store
  }

  // Who writes cell r, and with which call.
  function ActorOf(r: nat): Actor
    requires r < CELLS
  {
    if r == INGRESS then Provide
    else if IsSecret(r) then Sign(Which(r))
    else if r == LB || PKI <= r <= KS then Reconcile(ControlPlane)
    else if r < PKI then Reconcile(Loadbalancer)
    else if r <= ADMIN_KUBECONFIG then Reconcile(Pki)
    else if r <= KAS_DEPLOYMENT then Reconcile(KubeAPIServer)
    else if r <= KCM_DEPLOYMENT then Reconcile(KubeControllerManager)
    else Reconcile(KubeScheduler)
  }

  function CallOf(r: nat): (q: nat)
    requires r < CELLS && ActorOf(r).Reconcile?
    ensures CellOf(ActorOf(r).kind, q) == r
  {
    if r == LB || r == SERVICE || r == ROOT_ISSUER then 0
    else if PKI <= r <= KS then r - PKI + 1
    else if r == LB_STATUS then 1
    else if r == CA_ISSUER then 2
    else if r < ADMIN_KUBECONFIG then
      var j := Which(r);
      assert r == CertCell(j);
      if j == CA then 1 else if j == ADMIN then 3 else j + 4
    else if r == ADMIN_KUBECONFIG then 5
    else if r == KONNECTIVITY_KUBECONFIG then 1
    else if r == EGRESS then 2
    else if r == KAS_DEPLOYMENT then 6
    else if r == KCM_SECRET then 3
    else if r == KCM_DEPLOYMENT then 4
    else if r == KS_SECRET then 1
    else 2
  }

  // What the actors may rely on.
  ghost predicate Sound(c: Config, cp: ControlPlaneSpec, s: Store) {
    WellFormed(c) && StoreFits(c, s) && SpecIs(c, cp, s)
  }

  lemma BeginsOnward(c: Config, cp: ControlPlaneSpec, s: Store, k: Key)
    requires Sound(c, cp, s) && k in s && k.ns == c.ns && Reconciled(k.kind) && Typed(k.kind, s[k].body)
    ensures Onward(c, cp, Begin(s, k), s)
  {
    StartFits(c, s, k);
    NothingReached(Begin(s, k), s);
    hide StoreFits, Reached, SecretNames, Distinct, CellFits, ResourceFits, SeenCell;
  }

  lemma SoundIsWellFormed(c: Config, cp: ControlPlaneSpec, s: Store)
    requires Sound(c, cp, s)
    ensures WellFormed(c)
  {}

  lemma MoveKeeps(c: Config, cp: ControlPlaneSpec, s: Store, a: Actor, r: nat)
    requires Sound(c, cp, s) && r <= CELLS && Right(c, cp, s, r)
    ensures Sound(c, cp, Move(c, s, a)) && Right(c, cp, Move(c, s, a), r) && SameCellsBelow(c, s, Move(c, s, a), r)
  {
    hide WellFormed, StoreFits, Right, Step, Onward, Code, Finish, Reconciled, At;
    if a.Reconcile? {
      var k := ResourceKey(c, a.kind);
      if k in s && Reconciled(k.kind) && Typed(k.kind, s[k].body) {
        BeginsOnward(c, cp, s, k);
        RestKeeps(c, cp, Begin(s, k), s, r);
      }
    } else {
      EnvironmentKeeps(c, cp, s, a, r);
    }
  }

  lemma IdleIsFixed(c: Config, cp: ControlPlaneSpec, s: Store, a: Actor)
    requires Sound(c, cp, s) && !a.Reconcile?
    ensures Fixed(c, cp, Idle(s)) && Steady(c, Environment(c, a))
  {
    hide WellFormed, StoreFits, Steady, Environment;
    EnvironmentIsSteady(c, a);
  }

  lemma EnvironmentIsSteady(c: Config, a: Actor)
    requires WellFormed(c) && !a.Reconcile?
    ensures Steady(c, Environment(c, a))
  {
    hide SecretNames, Distinct;
    if a.Sign? {
      forall j | 0 <= j < 7 && KeyOf(c, CertCell(a.certificate)) == KeyOf(c, CertCell(j))
        ensures j == a.certificate
      {
        SameCell(c, CertCell(j), CertCell(a.certificate));
      }
    }
  }

  lemma EnvironmentKeeps(c: Config, cp: ControlPlaneSpec, s: Store, a: Actor, r: nat)
    requires Sound(c, cp, s) && !a.Reconcile? && r <= CELLS && Right(c, cp, s, r)
    ensures Sound(c, cp, Move(c, s, a)) && Right(c, cp, Move(c, s, a), r) && SameCellsBelow(c, s, Move(c, s, a), r)
  {
    hide WellFormed, StoreFits, Right, Step, Environment, Fixed, Steady, Consistent, Calm, Derive, Prefix, At, Sound;
    SoundIsWellFormed(c, cp, s);
    var sys, e := Idle(s), Environment(c, a);
    IdleIsFixed(c, cp, s, a);
    NotAnAct(c, a);
    StepFixed(c, cp, sys, e);
    FixedIsSound(c, cp, Step(sys, e));
    if i :| 0 <= i < CELLS && At(c, Step(sys, e).store, i) != At(c, s, i) {
      ChangedCell(c, sys, e, i);
      WrittenAsDerived(c, cp, sys, e, i);
      WriteRight(c, cp, s, Step(sys, e).store, i, r);
    } else {
      SameBelow(c, cp, s, Step(sys, e).store, r);
    }
  }

  lemma NotAnAct(c: Config, a: Actor)
    requires WellFormed(c) && !a.Reconcile?
    ensures Environment(c, a).Assign? || Environment(c, a).Issue?
  {}

  lemma FixedIsSound(c: Config, cp: ControlPlaneSpec, sys: Sys)
    requires Fixed(c, cp, sys)
    ensures Sound(c, cp, sys.store)
  {}

  // Where the custom resource behind a due cell lives.
  lemma ResourceBehind(c: Config, cp: ControlPlaneSpec, s: Store, r: nat)
    requires Sound(c, cp, s) && r < CELLS && Due(c, cp, s, r) && ActorOf(r).Reconcile?
    ensures var k := ResourceKey(c, ActorOf(r).kind);
      Reconciled(k.kind) && k in s && Typed(k.kind, s[k].body)
  {
    hide StoreFits, WellFormed, Due, KeyOf, At, ActorOf;
    var kind := ActorOf(r).kind;
    ActorKind(r);
    if kind != ControlPlane {
      if r <= LB_STATUS {
        DueService(c, cp, s, r);
      } else if kind == Pki {
        DueTrust(c, cp, s, r);
      } else {
        DueComponent(c, cp, s, r);
      }
      StoredResource(c, s, kind);
    }
  }

  lemma ActorKind(r: nat)
    requires r < CELLS && ActorOf(r).Reconcile?
    ensures Reconciled(ActorOf(r).kind) && !IsSecret(r)
    ensures ActorOf(r).kind == Loadbalancer ==> r == SERVICE || r == LB_STATUS
    ensures ActorOf(r).kind == Pki ==> KS < r <= ADMIN_KUBECONFIG
    ensures ActorOf(r).kind !in {ControlPlane, Loadbalancer, Pki} ==> ADMIN_KUBECONFIG < r
    ensures r <= LB_STATUS && ActorOf(r).kind != ControlPlane ==> ActorOf(r).kind == Loadbalancer
  {}

  lemma DueService(c: Config, cp: ControlPlaneSpec, s: Store, r: nat)
    requires WellFormed(c) && (r == SERVICE || r == LB_STATUS) && Due(c, cp, s, r)
    ensures At(c, s, LB).Some?
  {
    hide WellFormed, At, DeriveTrust, DeriveComponent;
    assert Prefix(c, s, r)[LB] == At(c, s, LB);
  }

  lemma StoredResource(c: Config, s: Store, kind: Kind)
    requires WellFormed(c) && StoreFits(c, s) && Reconciled(kind) && kind != ControlPlane
    requires At(c, s, ResourceCell(kind)).Some?
    ensures ResourceKey(c, kind) in s && Typed(kind, s[ResourceKey(c, kind)].body)
  {
    ResourceCells(c);
    assert CellFits(c, ResourceCell(kind), At(c, s, ResourceCell(kind)).value);
    hide WellFormed, StoreFits, KeyOf, PkiConforms, KasConforms, KcmConforms;
  }

  // The provider or cert-manager moves as soon as its cell is due.
  lemma EnvironmentWrites(c: Config, cp: ControlPlaneSpec, s: Store, r: nat)
    requires Sound(c, cp, s) && r < CELLS && !ActorOf(r).Reconcile? && Due(c, cp, s, r)
    ensures At(c, Move(c, s, ActorOf(r)), r) == Derive(c, cp, r, Prefix(c, s, r))
  {
    hide WellFormed, StoreFits, Step, Derive, Prefix, Due, KeyOf;
    if r == INGRESS {
      ProviderWrites(c, cp, s);
    } else {
      SignerWrites(c, cp, s, r);
    }
  }

  lemma ProviderWrites(c: Config, cp: ControlPlaneSpec, s: Store)
    requires WellFormed(c) && Due(c, cp, s, INGRESS)
    ensures At(c, Step(Idle(s), Assign(KeyOf(c, SERVICE), c.ingress)).store, INGRESS)
         == Derive(c, cp, INGRESS, Prefix(c, s, INGRESS))
  {
    var e := Assign(KeyOf(c, SERVICE), c.ingress);
    StoreOfStep(Idle(s), e);
    hide Step, SecretNames, Distinct, DeriveTrust, DeriveComponent;
    assert Prefix(c, s, INGRESS)[SERVICE] == At(c, s, SERVICE);
  }

  lemma SignerWrites(c: Config, cp: ControlPlaneSpec, s: Store, r: nat)
    requires WellFormed(c) && StoreFits(c, s) && r < CELLS && IsSecret(r) && Due(c, cp, s, r)
    ensures At(c, Step(Idle(s), Environment(c, Sign(Which(r)))).store, r) == Derive(c, cp, r, Prefix(c, s, r))
  {
    hide WellFormed, StoreFits, Due, Step, Derive, Prefix, Issuable, KeyOf, SecretKeyOf;
    var j := Which(r);
    assert r == SecretCell(j) && r - 1 == CertCell(j);
    SignerGates(c, cp, s, r);
    IssuableCells(c, s, r);
    DerivedSecret(c, cp, s, r);
    SignedKey(c, s, j);
    StoreOfStep(Idle(s), Environment(c, Sign(j)));
  }

  // cert-manager writes the secret that the certificate names.
  lemma SignedKey(c: Config, s: Store, j: nat)
    requires WellFormed(c) && StoreFits(c, s) && j < 7 && Issuable(s, KeyOf(c, CertCell(j)))
    ensures SecretKeyOf(s, KeyOf(c, CertCell(j))) == KeyOf(c, SecretCell(j))
  {
    SecretOfCertificate(c, j);
    assert CellFits(c, CertCell(j), At(c, s, CertCell(j)).value);
    assert Which(CertCell(j)) == j;
    hide SecretNames, Distinct, StoreFits;
  }

  lemma SignerGates(c: Config, cp: ControlPlaneSpec, s: Store, r: nat)
    requires WellFormed(c) && r < CELLS && IsSecret(r) && Due(c, cp, s, r)
    ensures At(c, s, r - 1).Some? && SignerThere(c, s, Which(r))
  {
    hide WellFormed, At, KindOf, DeriveEndpoint, DeriveComponent;
    var p := Prefix(c, s, r);
    assert p[r - 1] == At(c, s, r - 1) && p[ROOT_ISSUER] == At(c, s, ROOT_ISSUER);
    if Which(r) != CA {
      assert p[CA_ISSUER] == At(c, s, CA_ISSUER) && p[SecretCell(CA)] == At(c, s, SecretCell(CA));
    }
  }

  // The actor of the cell after a right prefix makes it right.
  lemma MoveExtends(c: Config, cp: ControlPlaneSpec, s: Store, r: nat)
    requires Sound(c, cp, s) && r < CELLS && Right(c, cp, s, r)
    ensures Right(c, cp, Move(c, s, ActorOf(r)), r + 1)
  {
    hide WellFormed, StoreFits, Right, Step, Onward, Code, Finish, Reconciled, Due, ActorOf, CallOf, At, Sound,
      Derive, Prefix;
    var a := ActorOf(r);
    SoundIsWellFormed(c, cp, s);
    MoveKeeps(c, cp, s, a, r);
    SameBelow(c, cp, s, Move(c, s, a), r);
    if !Due(c, cp, s, r) {
      OneMoreRight(c, cp, Move(c, s, a), r);
    } else if a.Reconcile? {
      var k := ResourceKey(c, a.kind);
      ResourceBehind(c, cp, s, r);
      BeginsOnward(c, cp, s, k);
      ActorKind(r);
      RestExtends(c, cp, Begin(s, k), s, r, CallOf(r));
    } else {
      EnvironmentWrites(c, cp, s, r);
      OneMoreRight(c, cp, Move(c, s, a), r);
    }
  }

  /******* Deadlock freedom: where no actor can move *******/

  ghost predicate Changes(c: Config, s: Store, a: Actor)
    requires WellFormed(c)
  {
    exists i :: 0 <= i < CELLS && At(c, Move(c, s, a), i) != At(c, s, i)
  }

  // The first cell that is not right gives an actor that can move.
  lemma {:induction false} SomebodyMoves(c: Config, cp: ControlPlaneSpec, s: Store, r: nat) returns (a: Actor)
    requires WellFormed(c) && Sound(c, cp, s) && r <= CELLS && Right(c, cp, s, r) && !Right(c, cp, s, CELLS)
    ensures Changes(c, s, a)
    decreases CELLS - r
  {
    hide WellFormed, Sound, Move, At, Wrong, ActorOf;
    if Wrong(c, cp, s, r) == 0 {
      a := SomebodyMoves(c, cp, s, r + 1);
    } else {
      a := ActorOf(r);
      MoveExtends(c, cp, s, r);
      if !Changes(c, s, a) {
        SameBelow(c, cp, s, Move(c, s, a), r + 1);
        SameWrong(c, cp, s, Move(c, s, a), r);
      }
    }
  }

  // In any store that fits, reachable or not: no actor can change anything exactly when
  // every cell agrees with its equation.
  lemma StuckExactly(c: Config, cp: ControlPlaneSpec, s: Store)
    requires WellFormed(c) && Sound(c, cp, s)
    ensures Right(c, cp, s, CELLS) <==> forall a :: !Changes(c, s, a)
  {
    hide WellFormed, Sound, Move, At, Wrong, Changes;
    if Right(c, cp, s, CELLS) {
      forall a
        ensures !Changes(c, s, a)
      {
        MoveKeeps(c, cp, s, a, CELLS);
        SameIsStill(c, s, a);
      }
    } else {
      var a := SomebodyMoves(c, cp, s, 0);
    }
  }

  lemma SameIsStill(c: Config, s: Store, a: Actor)
    requires WellFormed(c) && SameCellsBelow(c, s, Move(c, s, a), CELLS)
    ensures !Changes(c, s, a)
  {
    hide WellFormed, Move, At;
  }

  ghost predicate AtTarget(c: Config, cp: ControlPlaneSpec, s: Store)
    requires WellFormed(c)
  {
    Settled(c, cp, s, CELLS)
  }

  // With an address assigned, that is exactly when every cell holds the one target.
  lemma StuckExactlyAtTarget(c: Config, cp: ControlPlaneSpec, s: Store)
    requires WellFormed(c) && Sound(c, cp, s) && Addressed(c)
    ensures AtTarget(c, cp, s) <==> forall a :: !Changes(c, s, a)
  {
    hide WellFormed, Sound, Right, Settled, Changes;
    StuckExactly(c, cp, s);
    RightIsSettled(c, cp, s, CELLS);
  }

  /******* Convergence *******/

  function Moves(c: Config, s: Store, round: seq<Actor>): Store
    requires WellFormed(c)
  {
    if round == [] then s else Move(c, Moves(c, s, round[..|round| - 1]), round[|round| - 1])
  }

  // Every actor moves at least once; the order is free.
  ghost predicate FairRound(round: seq<Actor>) {
    forall r :: 0 <= r < CELLS ==> ActorOf(r) in round
  }

  lemma {:induction false} RoundKeeps(c: Config, cp: ControlPlaneSpec, s: Store, round: seq<Actor>, r: nat)
    requires WellFormed(c) && Sound(c, cp, s) && r <= CELLS && Right(c, cp, s, r)
    ensures Sound(c, cp, Moves(c, s, round)) && Right(c, cp, Moves(c, s, round), r)
  {
    hide Sound, Right, Move, WellFormed, At;
    if round != [] {
      RoundKeeps(c, cp, s, round[..|round| - 1], r);
      MoveKeeps(c, cp, Moves(c, s, round[..|round| - 1]), round[|round| - 1], r);
    }
  }

  // The actor of the first wrong cell makes it right whenever its turn comes.
  lemma {:induction false} RoundExtends(c: Config, cp: ControlPlaneSpec, s: Store, round: seq<Actor>, r: nat)
    requires WellFormed(c) && Sound(c, cp, s) && r < CELLS && Right(c, cp, s, r)
    requires ActorOf(r) in round
    ensures Sound(c, cp, Moves(c, s, round)) && Right(c, cp, Moves(c, s, round), r + 1)
  {
    hide Sound, Right, Move, WellFormed, ActorOf, At;
    var init, last := round[..|round| - 1], round[|round| - 1];
    if ActorOf(r) in init {
      RoundExtends(c, cp, s, init, r);
      MoveKeeps(c, cp, Moves(c, s, init), last, r + 1);
    } else {
      RoundKeeps(c, cp, s, init, r);
      MoveExtends(c, cp, Moves(c, s, init), r);
      MoveKeeps(c, cp, Moves(c, s, init), last, r);
    }
  }

  function Rounds(c: Config, s: Store, rounds: seq<seq<Actor>>): Store
    requires WellFormed(c)
  {
    if rounds == [] then s else Moves(c, Rounds(c, s, rounds[..|rounds| - 1]), rounds[|rounds| - 1])
  }

  function AtMost(n: nat, m: nat): nat { if n <= m then n else m }

  // From any store that fits, after n fair rounds the first n cells agree with their
  // equations; after one round per cell all do, and from then on.
  lemma {:induction false} RoundsMakeRight(c: Config, cp: ControlPlaneSpec, s: Store, rounds: seq<seq<Actor>>)
    requires WellFormed(c) && Sound(c, cp, s)
    requires forall i :: 0 <= i < |rounds| ==> FairRound(rounds[i])
    ensures Sound(c, cp, Rounds(c, s, rounds))
    ensures Right(c, cp, Rounds(c, s, rounds), AtMost(|rounds|, CELLS))
  {
    hide Sound, At, WellFormed, ActorOf, Moves, Wrong;
    if rounds != [] {
      var n := |rounds| - 1;
      RoundsMakeRight(c, cp, s, rounds[..n]);
      var before := Rounds(c, s, rounds[..n]);
      if n < CELLS {
        assert ActorOf(n) in rounds[n];
        RoundExtends(c, cp, before, rounds[n], n);
      } else {
        RoundKeeps(c, cp, before, rounds[n], CELLS);
      }
    }
  }

  // So after one fair round per cell no actor can change anything, and with an address
  // assigned every cell holds the target.
  lemma Converges(c: Config, cp: ControlPlaneSpec, s: Store, rounds: seq<seq<Actor>>)
    requires WellFormed(c) && Sound(c, cp, s)
    requires forall i :: 0 <= i < |rounds| ==> FairRound(rounds[i])
    ensures Sound(c, cp, Rounds(c, s, rounds))
    ensures Right(c, cp, Rounds(c, s, rounds), AtMost(|rounds|, CELLS))
    ensures |rounds| >= CELLS ==> forall a :: !Changes(c, Rounds(c, s, rounds), a)
    ensures |rounds| >= CELLS && Addressed(c) ==> AtTarget(c, cp, Rounds(c, s, rounds))
  {
    hide WellFormed, Sound, Right, Settled, Changes, Rounds, FairRound;
    RoundsMakeRight(c, cp, s, rounds);
    if |rounds| >= CELLS {
      StuckExactly(c, cp, Rounds(c, s, rounds));
      if Addressed(c) {
        RightIsSettled(c, cp, Rounds(c, s, rounds), CELLS);
      }
    }
  }

  /******* A whole reconcile is a run of the joint machine *******/

  ghost predicate OneReconcile(es: seq<Event>, k: Key) {
    forall i :: 0 <= i < |es| ==> es[i] == Start(k, true) || es[i] == Act(k, true)
  }

  lemma RunOne(sys: Sys, e: Event, es: seq<Event>)
    ensures Run(sys, [e] + es) == Run(Step(sys, e), es)
  {
    RunConcat(sys, [e], es);
    assert Run(sys, [e]) == Step(Run(sys, []), e) by { assert [e][..0] == []; }
  }

  lemma OneAct(sys: Sys, k: Key)
    requires k in sys.running
    ensures var after := Step(sys, Act(k, true));
      var (s', p) := Exec(sys.running[k], sys.store, true);
      && after.store == s'
      && after.running == if p.Next? then sys.running[k := p.frame] else sys.running - {k}
  {
    hide Exec, Woken, TargetKey;
  }

  lemma {:induction false} RestIsARun(sys: Sys, k: Key) returns (es: seq<Event>)
    requires k in sys.running
    ensures OneReconcile(es, k)
    ensures Run(sys, es).store == Rest(sys.running[k], sys.store)
    ensures Run(sys, es).running == sys.running - {k}
    decreases LAST - sys.running[k].pc
  {
    var f := sys.running[k];
    var e := Act(k, true);
    var (s', p) := Exec(f, sys.store, true);
    OneAct(sys, k);
    Unfold(f, sys.store);
    assert Code(f).Stop? ==> p.Halt? && s' == sys.store;
    CallAdvances(f, sys.store);
    hide Exec, Step, Code, Rest, Written;
    if p.Next? {
      var rest := RestIsARun(Step(sys, e), k);
      es := [e] + rest;
      RunOne(sys, e, rest);
      assert sys.running[k := p.frame] - {k} == sys.running - {k};
    } else {
      es := [e] + [];
      RunOne(sys, e, []);
    }
  }

  // A queued key can be reconciled without interference, and this is what Move does.
  lemma PassIsARun(sys: Sys, k: Key) returns (es: seq<Event>)
    requires k in sys.pending && k !in sys.running
    ensures OneReconcile(es, k) && es != [] && es[0] == Start(k, true)
    ensures Run(sys, es).store == Pass(sys.store, k)
    ensures Run(sys, es).running == sys.running
  {
    var e := Start(k, true);
    var started := Step(sys, e);
    if k in started.running {
      var rest := RestIsARun(started, k);
      es := [e] + rest;
      RunOne(sys, e, rest);
      assert started.running - {k} == sys.running;
    } else {
      es := [e] + [];
      RunOne(sys, e, []);
    }
  }
}
