// A run in which the API server advertises another address than the Pki records: the
// control plane is installed and gets its address; the ControlPlane reconciler has passed it
// on to the Pki but not yet to the KubeAPIServer when cert-manager issues the key pairs and
// the KubeAPIServer reconciler writes its Deployment.
module StaleServer {
  import opened Api
  import opened Programs
  import opened Machine
  import opened Passes
  import opened Integrity
  import opened Cells
  import opened Settling
  import opened Invariant
  import opened Termination
  import opened Convergence
  import opened Duties
  import opened Wakeup
  import opened FairRuns
  import opened AddressLag
  import opened Samples

  /******* A whole reconcile does what its open gates allow *******/

  // The gates before call n are open.
  ghost predicate OpenUpTo(c: Config, s: Store, kind: Kind, body: Body, n: nat)
    requires WellFormed(c)
  {
    && (forall q :: 0 <= q < n && CellOf(kind, q) < CELLS && IsSecret(CellOf(kind, q)) ==>
          At(c, s, CellOf(kind, q)).Some?)
    && (kind == Pki && n > 6 ==> body.PkiBody? && body.pki.controlPlaneIP != "")
  }

  // Cells of other actors stay.
  ghost predicate OnlyOwn(c: Config, s: Store, s': Store, kind: Kind)
    requires WellFormed(c)
  {
    forall i :: 0 <= i < CELLS && ActorOf(i) != Reconcile(kind) ==> At(c, s', i) == At(c, s, i)
  }

  // A reconcile that nothing overtakes does all its calls before call n.
  lemma {:induction false} RestDid(c: Config, f: Frame, s: Store, n: nat)
    requires WellFormed(c) && StoreFits(c, s) && HasSpec(c, s) && FrameFits(c, f) && Reached(f, s) && OnTrack(c, s, f)
    requires OpenUpTo(c, s, f.key.kind, f.body, n) && n <= LAST
    ensures var s' := Rest(f, s);
      && StoreFits(c, s') && SpecIs(c, Spec(c, s), s') && HasSpec(c, s') && Spec(c, s') == Spec(c, s)
      && OnlyOwn(c, s, s', f.key.kind) && Did(c, s', f.key.kind, n)
    decreases LAST - f.pc
  {
    hide WellFormed, StoreFits, HasSpec, FrameFits, Reached, OnTrack, Code, Exec, Rest, Written, Onward, At, Did,
      Spec, OpenUpTo, OnlyOwn, SpecIs, CellOf;
    Unfold(f, s);
    CallAdvances(f, s);
    OnTrackIsOnward(c, s, f);
    OnwardFits(c, Spec(c, s), f, s);
    if !Code(f).Stop? && Exec(f, s, true).1.Next? {
      var (s', p) := Exec(f, s, true);
      CallDid(c, s, f);
      CallGoes(c, s, f, n);
      RestDid(c, p.frame, s', n);
      OwnOnward(c, s, s', Rest(f, s), f.key.kind);
    } else {
      Stays(c, s, f, n);
    }
  }

  lemma OwnOnward(c: Config, s: Store, s': Store, s'': Store, kind: Kind)
    requires WellFormed(c) && OnlyOwn(c, s, s', kind) && OnlyOwn(c, s', s'', kind)
    ensures OnlyOwn(c, s, s'', kind)
  {
    hide WellFormed, At, ActorOf;
  }

  // A call that goes through.
  lemma CallGoes(c: Config, s: Store, f: Frame, n: nat)
    requires WellFormed(c) && StoreFits(c, s) && HasSpec(c, s) && FrameFits(c, f) && Reached(f, s) && OnTrack(c, s, f)
    requires OpenUpTo(c, s, f.key.kind, f.body, n) && !Code(f).Stop? && Exec(f, s, true).1.Next?
    ensures var (s', p) := Exec(f, s, true);
      && StoreFits(c, s') && HasSpec(c, s') && Spec(c, s') == Spec(c, s)
      && FrameFits(c, p.frame) && Reached(p.frame, s') && p.frame.key == f.key && p.frame.body == f.body
      && OpenUpTo(c, s', f.key.kind, f.body, n) && OnlyOwn(c, s, s', f.key.kind)
  {
    hide WellFormed, StoreFits, HasSpec, FrameFits, Reached, OnTrack, Code, Exec, Onward, At, Did, Spec, CellOf,
      IsSecret, Derive, Prefix, ActorOf;
    OnTrackIsOnward(c, s, f);
    EveryCallIsCalled(c, Spec(c, s), f, s);
    FitsReconciler(c, f);
    var (s', p) := Exec(f, s, true);
    OnwardFits(c, Spec(c, s), p.frame, s');
    OnwardIsFresh(c, Spec(c, s), p.frame, s');
    SpecByStore(c, Spec(c, s), s');
    Advanced(f, s, true);
    if !Code(f).Fetch? {
      NotAPair(c, f);
      CallIsOwn(f.key.kind, f.pc);
      WroteOnly(c, s, s', CellOf(f.key.kind, f.pc));
      OwnWrite(c, s, s', f.key.kind, CellOf(f.key.kind, f.pc), f.body, n);
    }
  }

  lemma WroteOnly(c: Config, s: Store, s': Store, i: nat)
    requires WellFormed(c) && i < CELLS && WroteCell(c, s, s', i)
    ensures forall j :: 0 <= j < CELLS && j != i ==> At(c, s', j) == At(c, s, j)
  {}

  lemma SpecByStore(c: Config, cp: ControlPlaneSpec, s: Store)
    requires SpecIs(c, cp, s)
    ensures HasSpec(c, s) && Spec(c, s) == cp
  {}

  lemma OwnWrite(c: Config, s: Store, s': Store, kind: Kind, i: nat, body: Body, n: nat)
    requires WellFormed(c) && i < CELLS && WroteCell(c, s, s', i) && ActorOf(i) == Reconcile(kind) && !IsSecret(i)
    requires OpenUpTo(c, s, kind, body, n)
    ensures OnlyOwn(c, s, s', kind) && OpenUpTo(c, s', kind, body, n)
  {
    hide WellFormed, At, CellOf, IsSecret, ActorOf;
  }

  // A reconcile that ends here did all it could.
  lemma Stays(c: Config, s: Store, f: Frame, n: nat)
    requires WellFormed(c) && StoreFits(c, s) && HasSpec(c, s) && FrameFits(c, f) && Reached(f, s) && OnTrack(c, s, f)
    requires OpenUpTo(c, s, f.key.kind, f.body, n) && n <= LAST
    requires Code(f).Stop? || !Exec(f, s, true).1.Next?
    ensures Rest(f, s) == s && OnlyOwn(c, s, s, f.key.kind) && Did(c, s, f.key.kind, n)
  {
    hide WellFormed, StoreFits, HasSpec, FrameFits, Reached, OnTrack, Code, Exec, Onward, At, Spec, IsSecret, Derive,
      Prefix, Rest, Written, Did, OpenUpTo, CellOf, Good;
    Unfold(f, s);
    OnTrackDid(c, s, f);
    OnTrackIsOnward(c, s, f);
    if Code(f).Stop? {
      WhereItStops(c, f);
      if Code(f) == Stop(Done) {
        NothingLeft(c, s, f);
        DidLess(c, s, f.key.kind, LAST, n);
      } else {
        AddressGate(c, s, f, n);
        DidLess(c, s, f.key.kind, f.pc, n);
      }
    } else {
      EveryCallIsCalled(c, Spec(c, s), f, s);
      ClosedGate(c, s, f, n);
      DidLess(c, s, f.key.kind, f.pc, n);
    }
  }

  lemma DidLess(c: Config, s: Store, kind: Kind, m: nat, n: nat)
    requires WellFormed(c) && HasSpec(c, s) && Did(c, s, kind, m) && n <= m
    ensures Did(c, s, kind, n)
  {
    hide WellFormed, HasSpec, Good, CellOf, Excused, IsSecret;
  }

  lemma WhereItStops(c: Config, f: Frame)
    requires WellFormed(c) && FrameFits(c, f) && Code(f).Stop?
    ensures Code(f) == Stop(Done) ||
      (f.key.kind == Pki && f.pc == 6 && f.body.PkiBody? && f.body.pki.controlPlaneIP == "")
  {
    hide WellFormed;
  }

  lemma AddressGate(c: Config, s: Store, f: Frame, n: nat)
    requires WellFormed(c) && OpenUpTo(c, s, f.key.kind, f.body, n)
    requires f.key.kind == Pki && f.pc == 6 && f.body.PkiBody? && f.body.pki.controlPlaneIP == ""
    ensures n <= f.pc
  {
    hide WellFormed, At, CellOf;
  }

  lemma ClosedGate(c: Config, s: Store, f: Frame, n: nat)
    requires WellFormed(c) && OpenUpTo(c, s, f.key.kind, f.body, n)
    requires !Code(f).Stop? && !Exec(f, s, true).1.Next? && exists cp :: Called(c, cp, f, s)
    ensures Exec(f, s, true).0 == s && n <= f.pc
  {
    hide WellFormed, At, CellOf, Code, Exec, IsSecret, Derive, Prefix, StoreFits;
  }

  /******* Moves as runs *******/

  // A whole reconcile of a key that is not in progress.
  lemma TurnRun(c: Config, cp: ControlPlaneSpec, sys: Sys, kind: Kind, n: nat) returns (es: seq<Event>)
    requires WellFormed(c) && Sound(c, cp, sys.store) && Reconciled(kind) && n <= LAST
    requires var k := ResourceKey(c, kind);
      k in sys.store && k !in sys.running && OpenUpTo(c, sys.store, kind, sys.store[k].body, n)
    ensures AllGentle(c, es)
    ensures var after := Run(sys, es);
      && after.running == sys.running && Sound(c, cp, after.store)
      && OnlyOwn(c, sys.store, after.store, kind)
      && HasSpec(c, after.store) && Spec(c, after.store) == cp && Did(c, after.store, kind, n)
  {
    hide WellFormed, Sound, Step, Gentle, OpenUpTo, OnlyOwn, Did, HasSpec, Spec, Pass;
    var k := ResourceKey(c, kind);
    var queued := Step(sys, Resync(k));
    ResyncOnly(sys, k);
    var pass := PassIsARun(queued, k);
    RunOne(sys, Resync(k), pass);
    es := [Resync(k)] + pass;
    assert WorkFor(es, k);
    WorkIsGentle(c, es, k);
    PassDid(c, cp, sys.store, kind, n);
  }

  lemma ResyncOnly(sys: Sys, k: Key)
    ensures Step(sys, Resync(k)) == sys.(pending := sys.pending + {k})
  {}

  lemma PassDid(c: Config, cp: ControlPlaneSpec, s: Store, kind: Kind, n: nat)
    requires WellFormed(c) && Sound(c, cp, s) && Reconciled(kind) && n <= LAST
    requires ResourceKey(c, kind) in s && OpenUpTo(c, s, kind, s[ResourceKey(c, kind)].body, n)
    ensures var s' := Pass(s, ResourceKey(c, kind));
      Sound(c, cp, s') && OnlyOwn(c, s, s', kind) && HasSpec(c, s') && Spec(c, s') == cp && Did(c, s', kind, n)
  {
    hide WellFormed, StoreFits, HasSpec, FrameFits, Reached, OpenUpTo, OnlyOwn, Code, Finish, Fresh, At;
    var k := ResourceKey(c, kind);
    StoredIsTyped(c, s, k);
    BeginsOnward(c, cp, s, k);
    SpecByStore(c, cp, s);
    OnwardFits(c, cp, Begin(s, k), s);
    OnwardIsFresh(c, cp, Begin(s, k), s);
    assert Did(c, s, kind, 0) by { hide Good, CellOf; }
    OnwardOnTrack(c, cp, Begin(s, k), s);
    RestDid(c, Begin(s, k), s, n);
  }

  // cert-manager issues a key pair.
  lemma SignRun(c: Config, cp: ControlPlaneSpec, sys: Sys, j: Index)
    requires WellFormed(c) && Sound(c, cp, sys.store)
    requires At(c, sys.store, CertCell(j)).Some? && SignerThere(c, sys.store, j)
    ensures var e := Environment(c, Sign(j));
      var after := Step(sys, e);
      && Gentle(c, e) && after.running == sys.running && Sound(c, cp, after.store)
      && At(c, after.store, SecretCell(j)).Some?
      && forall i :: 0 <= i < CELLS && i != SecretCell(j) ==> At(c, after.store, i) == At(c, sys.store, i)
  {
    hide WellFormed, StoreFits, Step, At, KeyOf, Steady, SignerThere, Derive, Prefix, Issuable, ChangedKey;
    var e, s, r := Environment(c, Sign(j)), sys.store, SecretCell(j);
    assert Which(r) == j && IsSecret(r) && r - 1 == CertCell(j) && r < CELLS;
    EnvironmentIsSteady(c, Sign(j));
    NotAnAct(c, Sign(j));
    MovesKeepFrames(sys, [e]);
    OneEvent(sys, e);
    SameStoreMove(c, sys, Sign(j));
    SoundParts(c, cp, s);
    RightFromNothing(c, cp, s);
    MoveKeeps(c, cp, s, Sign(j), 0);
    DerivedSecret(c, cp, s, r);
    SignerWrites(c, cp, s, r);
    IssuableCells(c, s, r);
    SignedKey(c, s, j);
    forall i | 0 <= i < CELLS && i != r
      ensures At(c, Step(sys, e).store, i) == At(c, s, i)
    {
      if At(c, Step(sys, e).store, i) != At(c, s, i) {
        ChangedCell(c, sys, e, i);
        IssueKey(c, sys, j);
        SameCell(c, i, r);
      }
    }
  }

  lemma OneEvent(sys: Sys, e: Event)
    ensures Run(sys, [e]) == Step(sys, e)
  {
    hide Step;
    assert [e][..0] == [];
  }

  lemma SoundParts(c: Config, cp: ControlPlaneSpec, s: Store)
    requires Sound(c, cp, s)
    ensures StoreFits(c, s) && SpecIs(c, cp, s)
  {}

  lemma RightFromNothing(c: Config, cp: ControlPlaneSpec, s: Store)
    requires WellFormed(c)
    ensures Right(c, cp, s, 0)
  {
    hide WellFormed;
  }

  lemma IssueKey(c: Config, sys: Sys, j: Index)
    requires WellFormed(c) && Issuable(sys.store, KeyOf(c, CertCell(j)))
    ensures ChangedKey(sys, Environment(c, Sign(j))) == SecretKeyOf(sys.store, KeyOf(c, CertCell(j)))
  {
    hide WellFormed, KeyOf, Issuable;
  }

  // The provider assigns the address.
  lemma ProvideRun(c: Config, cp: ControlPlaneSpec, sys: Sys)
    requires WellFormed(c) && Sound(c, cp, sys.store) && At(c, sys.store, SERVICE).Some?
    ensures var e := Environment(c, Provide);
      var after := Step(sys, e);
      && Gentle(c, e) && after.running == sys.running && Sound(c, cp, after.store)
      && At(c, after.store, INGRESS) == Some(ServiceStatusBody(c.ingress))
      && forall i :: 0 <= i < CELLS && i != INGRESS ==> At(c, after.store, i) == At(c, sys.store, i)
  {
    hide WellFormed, StoreFits, Step, At, KeyOf, Steady, Derive, Prefix;
    var e, s := Environment(c, Provide), sys.store;
    EnvironmentIsSteady(c, Provide);
    NotAnAct(c, Provide);
    MovesKeepFrames(sys, [e]);
    OneEvent(sys, e);
    SameStoreMove(c, sys, Provide);
    RightFromNothing(c, cp, s);
    MoveKeeps(c, cp, s, Provide, 0);
    DerivedIngress(c, cp, s);
    ProviderWrites(c, cp, s);
    IngressKey(c);
    forall i | 0 <= i < CELLS && i != INGRESS
      ensures At(c, Step(sys, e).store, i) == At(c, s, i)
    {
      if At(c, Step(sys, e).store, i) != At(c, s, i) {
        ChangedCell(c, sys, e, i);
        SameCell(c, i, INGRESS);
      }
    }
  }

  lemma DerivedIngress(c: Config, cp: ControlPlaneSpec, s: Store)
    requires WellFormed(c) && At(c, s, SERVICE).Some?
    ensures Derive(c, cp, INGRESS, Prefix(c, s, INGRESS)) == Some(ServiceStatusBody(c.ingress))
    ensures Due(c, cp, s, INGRESS)
  {
    hide WellFormed, At, DeriveTrust, DeriveComponent;
    assert Prefix(c, s, INGRESS)[SERVICE] == At(c, s, SERVICE);
  }

  // A ControlPlane reconcile hands the address to the Pki and goes no further yet.
  function HandOver(c: Config): seq<Event> {
    var k := ControlPlaneKey(c);
    [Resync(k), Start(k, true), Act(k, true), Act(k, true)]
  }

  lemma HandOverRun(c: Config, cp: ControlPlaneSpec, sys: Sys, ip: string)
    requires WellFormed(c) && Sound(c, cp, sys.store) && ControlPlaneKey(c) !in sys.running
    requires At(c, sys.store, LB_STATUS) == Some(LoadbalancerStatusBody(ip))
    ensures AllGentle(c, HandOver(c))
    ensures var k, after := ControlPlaneKey(c), Run(sys, HandOver(c));
      && Sound(c, cp, after.store)
      && k in after.running && after.running == sys.running[k := after.running[k]] && after.running[k].pc == 2
      && At(c, after.store, PKI) == Some(PkiBody(cp.pki.(controlPlaneIP := ip)))
      && forall i :: 0 <= i < CELLS && i != LB && i != PKI ==> At(c, after.store, i) == At(c, sys.store, i)
  {
    hide WellFormed, StoreFits, Step, At, KeyOf, Gentle, Run, Onward, Exec, Derive, Code, SpecIs;
    var k := ControlPlaneKey(c);
    var es := HandOver(c);
    assert WorkFor(es, k);
    WorkIsGentle(c, es, k);
    var queued := Step(sys, es[0]);
    var started := Step(queued, es[1]);
    var first := Step(started, es[2]);
    FourSteps(sys, es[0], es[1], es[2], es[3]);
    ResyncOnly(sys, k);
    SpecStarts(c, cp, queued);
    SoundParts(c, cp, sys.store);
    FirstCall(c, cp, started, ip);
    SecondCall(c, cp, first, ip);
  }

  lemma FourSteps(sys: Sys, a: Event, b: Event, d: Event, e: Event)
    ensures Run(sys, [a, b, d, e]) == Step(Step(Step(Step(sys, a), b), d), e)
  {
    hide Step;
    RunOne(sys, a, [b, d, e]);
    RunOne(Step(sys, a), b, [d, e]);
    RunOne(Step(Step(sys, a), b), d, [e]);
    OneEvent(Step(Step(Step(sys, a), b), d), e);
    assert [a, b, d, e] == [a] + [b, d, e] && [b, d, e] == [b] + [d, e] && [d, e] == [d] + [e];
  }

  lemma SpecStarts(c: Config, cp: ControlPlaneSpec, sys: Sys)
    requires WellFormed(c) && Sound(c, cp, sys.store)
    requires ControlPlaneKey(c) in sys.pending && ControlPlaneKey(c) !in sys.running
    ensures var k := ControlPlaneKey(c);
      var after := Step(sys, Start(k, true));
      && after.store == sys.store && k in sys.store
      && after.running == sys.running[k := Begin(sys.store, k)]
      && Onward(c, cp, Begin(sys.store, k), sys.store)
  {
    BeginsOnward(c, cp, sys.store, ControlPlaneKey(c));
    hide WellFormed, StoreFits, Onward;
  }

  // The ControlPlane's frame at its call q.
  ghost predicate AtCall(c: Config, cp: ControlPlaneSpec, sys: Sys, q: nat) {
    var k := ControlPlaneKey(c);
    && k in sys.running && sys.running[k].key == k && sys.running[k].pc == q
    && Onward(c, cp, sys.running[k], sys.store)
  }

  lemma FirstCall(c: Config, cp: ControlPlaneSpec, sys: Sys, ip: string)
    requires WellFormed(c) && AtCall(c, cp, sys, 0)
    requires At(c, sys.store, LB_STATUS) == Some(LoadbalancerStatusBody(ip))
    ensures var k, after := ControlPlaneKey(c), Step(sys, Act(ControlPlaneKey(c), true));
      && AtCall(c, cp, after, 1) && after.running == sys.running[k := after.running[k]]
      && forall i :: 0 <= i < CELLS && i != LB ==> At(c, after.store, i) == At(c, sys.store, i)
  {
    hide WellFormed, StoreFits, Step, At, KeyOf, Onward, Exec, Derive, Code, Prefix, SpecIs;
    var k := ControlPlaneKey(c);
    var f := sys.running[k];
    OneAct(sys, k);
    SpecCalls(c, cp, f, sys.store);
    EveryCallIsCalled(c, cp, f, sys.store);
    WroteOnly(c, sys.store, Exec(f, sys.store, true).0, LB);
  }

  lemma SpecCalls(c: Config, cp: ControlPlaneSpec, f: Frame, s: Store)
    requires WellFormed(c) && Onward(c, cp, f, s) && f.key == ControlPlaneKey(c) && f.pc <= 1
    ensures !Code(f).Stop? && !Code(f).Fetch? && CellOf(f.key.kind, f.pc) == if f.pc == 0 then LB else PKI
  {
    OnwardFits(c, cp, f, s);
    hide Onward, WellFormed, StoreFits, KasFor;
  }

  lemma SecondCall(c: Config, cp: ControlPlaneSpec, sys: Sys, ip: string)
    requires WellFormed(c) && AtCall(c, cp, sys, 1)
    requires At(c, sys.store, LB_STATUS) == Some(LoadbalancerStatusBody(ip))
    ensures var k, after := ControlPlaneKey(c), Step(sys, Act(ControlPlaneKey(c), true));
      && AtCall(c, cp, after, 2) && Sound(c, cp, after.store) && after.running == sys.running[k := after.running[k]]
      && At(c, after.store, PKI) == Some(PkiBody(cp.pki.(controlPlaneIP := ip)))
      && forall i :: 0 <= i < CELLS && i != PKI ==> At(c, after.store, i) == At(c, sys.store, i)
  {
    hide WellFormed, StoreFits, Step, At, KeyOf, Onward, Exec, Derive, Code, Prefix, SpecIs;
    var k := ControlPlaneKey(c);
    var f := sys.running[k];
    OneAct(sys, k);
    SpecCalls(c, cp, f, sys.store);
    EveryCallIsCalled(c, cp, f, sys.store);
    OnwardFits(c, cp, f, sys.store);
    WroteOnly(c, sys.store, Exec(f, sys.store, true).0, PKI);
    DerivedPki(c, cp, sys.store, ip);
  }

  lemma DerivedPki(c: Config, cp: ControlPlaneSpec, s: Store, ip: string)
    requires WellFormed(c) && At(c, s, LB_STATUS) == Some(LoadbalancerStatusBody(ip))
    ensures Derive(c, cp, PKI, Prefix(c, s, PKI)) == Some(PkiBody(cp.pki.(controlPlaneIP := ip)))
  {
    hide WellFormed, At, DeriveEndpoint, DeriveTrust, DeriveComponent;
    assert Prefix(c, s, PKI)[LB_STATUS] == At(c, s, LB_STATUS);
  }

  /******* The run *******/

  // Run first, then second.
  lemma Then(c: Config, sys: Sys, first: seq<Event>, second: seq<Event>)
    requires WellFormed(c) && AllGentle(c, first) && AllGentle(c, second)
    ensures AllGentle(c, first + second) && Run(sys, first + second) == Run(Run(sys, first), second)
  {
    hide WellFormed, Gentle, Run;
    RunConcat(sys, first, second);
  }

  lemma ThenOne(c: Config, sys: Sys, first: seq<Event>, e: Event)
    requires WellFormed(c) && AllGentle(c, first) && Gentle(c, e)
    ensures AllGentle(c, first + [e]) && Run(sys, first + [e]) == Step(Run(sys, first), e)
  {
    hide WellFormed, Gentle, Step;
    Then(c, sys, first, [e]);
    OneEvent(Run(sys, first), e);
  }

  lemma NoGates(c: Config, s: Store, kind: Kind, body: Body)
    requires WellFormed(c) && kind in {ControlPlane, Loadbalancer}
    ensures OpenUpTo(c, s, kind, body, LAST)
  {
    hide WellFormed, At;
  }

  // The cell of a reconciler that did all its calls.
  lemma GoodCell(c: Config, s: Store, kind: Kind, i: nat)
    requires WellFormed(c) && HasSpec(c, s) && i < CELLS && ActorOf(i) == Reconcile(kind) && Did(c, s, kind, LAST)
    requires i != LB_STATUS || SeenIngress(At(c, s, INGRESS)) != []
    ensures Good(c, s, i) && At(c, s, i).Some? && KeyOf(c, i) in s
  {
    hide WellFormed, HasSpec, Did, At, Good, ActorOf, KeyOf;
    DidGood(c, s, i);
    GoodIsStored(c, s, i);
    GoodIsSome(c, s, i);
  }

  lemma GoodIsSome(c: Config, s: Store, i: nat)
    requires WellFormed(c) && HasSpec(c, s) && i < CELLS && Good(c, s, i)
    ensures At(c, s, i).Some? && At(c, s, i) == Derive(c, Spec(c, s), i, Prefix(c, s, i))
  {}

  // A ControlPlane reconcile without an address.
  lemma Install(c: Config, cp: ControlPlaneSpec) returns (es: seq<Event>)
    requires WellFormed(c) && Conforms(c.id, cp)
    ensures AllGentle(c, es)
    ensures var after := Run(Installed(c, cp), es);
      && after.running == map[] && Sound(c, cp, after.store)
      && At(c, after.store, LB).Some? && KeyOf(c, LB) in after.store && KeyOf(c, PKI) in after.store
      && At(c, after.store, KAS) == Some(KasBody(KasFor(cp, "")))
      && At(c, after.store, LB_STATUS).None?
  {
    hide WellFormed, Conforms, Sound, Gentle, OpenUpTo, OnlyOwn, Did, HasSpec, At, Good, Run, KeyOf, KasFor, Attended,
      Spec;
    var sys := Installed(c, cp);
    InstalledIsSound(c, cp);
    NoGates(c, sys.store, ControlPlane, ControlPlaneBody(cp));
    es := TurnRun(c, cp, sys, ControlPlane, LAST);
    var s := Run(sys, es).store;
    OthersKeep(c, sys.store, s, ControlPlane);
    GoodCell(c, s, ControlPlane, LB);
    GoodCell(c, s, ControlPlane, PKI);
    GoodCell(c, s, ControlPlane, KAS);
    GoodResources(c, s);
  }

  lemma InstalledIsSound(c: Config, cp: ControlPlaneSpec)
    requires WellFormed(c) && Conforms(c.id, cp)
    ensures Sound(c, cp, Installed(c, cp).store) && ResourceKey(c, ControlPlane) in Installed(c, cp).store
    ensures Installed(c, cp).store[ResourceKey(c, ControlPlane)].body == ControlPlaneBody(cp)
    ensures At(c, Installed(c, cp).store, LB_STATUS).None?
  {
    InstalledIsAttended(c, cp);
    AttendedFacts(c, cp, Installed(c, cp));
    hide WellFormed, Sound, Attended, Conforms;
    KeyIsLocal(c, LB_STATUS);
    hide NameOf;
  }

  lemma OthersKeep(c: Config, s: Store, s': Store, kind: Kind)
    requires WellFormed(c) && OnlyOwn(c, s, s', kind)
    ensures forall i :: 0 <= i < CELLS && ActorOf(i) != Reconcile(kind) ==> At(c, s', i) == At(c, s, i)
  {}

  // The load balancer gets its address.
  lemma GetAddress(c: Config, cp: ControlPlaneSpec, sys: Sys) returns (es: seq<Event>)
    requires WellFormed(c) && Addressed(c) && Sound(c, cp, sys.store) && sys.running == map[]
    requires KeyOf(c, LB) in sys.store && At(c, sys.store, LB).Some?
    ensures AllGentle(c, es)
    ensures var after := Run(sys, es);
      && after.running == map[] && Sound(c, cp, after.store)
      && At(c, after.store, LB_STATUS) == Some(LoadbalancerStatusBody(c.ingress[0]))
      && forall i :: 0 <= i < CELLS && i !in {SERVICE, INGRESS, LB_STATUS} ==>
           At(c, after.store, i) == At(c, sys.store, i)
  {
    hide WellFormed, Sound, Gentle, OpenUpTo, OnlyOwn, Did, HasSpec, At, Good, Run, KeyOf, Spec, Step, Environment,
      Derive, Prefix;
    ResourceCells(c);
    NoGates(c, sys.store, Loadbalancer, sys.store[KeyOf(c, LB)].body);
    var first := TurnRun(c, cp, sys, Loadbalancer, LAST);
    var s1 := Run(sys, first);
    OthersKeep(c, sys.store, s1.store, Loadbalancer);
    GoodCell(c, s1.store, Loadbalancer, SERVICE);
    var e := Environment(c, Provide);
    ProvideRun(c, cp, s1);
    ThenOne(c, sys, first, e);
    var s2 := Step(s1, e);
    StoredAgain(c, s2.store, LB);
    NoGates(c, s2.store, Loadbalancer, s2.store[KeyOf(c, LB)].body);
    var second := TurnRun(c, cp, s2, Loadbalancer, LAST);
    var s3 := Run(s2, second);
    OthersKeep(c, s2.store, s3.store, Loadbalancer);
    Then(c, sys, first + [e], second);
    GoodCell(c, s3.store, Loadbalancer, LB_STATUS);
    GoodIsSome(c, s3.store, LB_STATUS);
    DerivedStatus(c, cp, s3.store);
    es := first + [e] + second;
  }

  lemma StoredAgain(c: Config, s: Store, i: nat)
    requires WellFormed(c) && i < CELLS && At(c, s, i).Some?
    ensures KeyOf(c, i) in s
  {}

  lemma DerivedStatus(c: Config, cp: ControlPlaneSpec, s: Store)
    requires WellFormed(c) && Addressed(c) && At(c, s, INGRESS) == Some(ServiceStatusBody(c.ingress))
    requires At(c, s, LB).Some?
    ensures Derive(c, cp, LB_STATUS, Prefix(c, s, LB_STATUS)) == Some(LoadbalancerStatusBody(c.ingress[0]))
  {
    hide WellFormed, At, DeriveTrust, DeriveComponent;
    assert Prefix(c, s, LB_STATUS)[INGRESS] == At(c, s, INGRESS) && Prefix(c, s, LB_STATUS)[LB] == At(c, s, LB);
  }

  lemma DidCell(c: Config, s: Store, kind: Kind, n: nat, q: nat)
    requires WellFormed(c) && HasSpec(c, s) && Did(c, s, kind, n) && q < n
    requires CellOf(kind, q) < CELLS && !IsSecret(CellOf(kind, q)) && CellOf(kind, q) != LB_STATUS
    ensures At(c, s, CellOf(kind, q)).Some?
  {
    hide WellFormed, HasSpec, At, Derive, CellOf, IsSecret;
  }

  // The custom resources and the load balancer's objects are the same.
  ghost predicate SameResources(c: Config, s: Store, s': Store)
    requires WellFormed(c)
  {
    SameCellsBelow(c, s, s', ROOT_ISSUER)
  }

  lemma OwnIsLater(c: Config, s: Store, s': Store, kind: Kind)
    requires WellFormed(c) && OnlyOwn(c, s, s', kind) && kind !in {ControlPlane, Loadbalancer}
    ensures SameResources(c, s, s')
    ensures forall j :: 0 <= j < 7 ==> At(c, s', SecretCell(j)) == At(c, s, SecretCell(j))
  {
    hide WellFormed, At;
  }

  // The Pki without an address sets up the authority and asks for the admin key pair.
  lemma IssueAuthority(c: Config, cp: ControlPlaneSpec, sys: Sys) returns (es: seq<Event>)
    requires WellFormed(c) && Sound(c, cp, sys.store) && sys.running == map[] && KeyOf(c, PKI) in sys.store
    ensures AllGentle(c, es)
    ensures var after := Run(sys, es);
      && after.running == map[] && Sound(c, cp, after.store) && SameResources(c, sys.store, after.store)
      && At(c, after.store, SecretCell(CA)).Some? && At(c, after.store, SecretCell(ADMIN)).Some?
  {
    hide WellFormed, Sound, Gentle, OpenUpTo, OnlyOwn, Did, HasSpec, At, Run, KeyOf, Spec, Step, Environment, CellOf;
    ResourceCells(c);
    FirstCallsAreOpen(c, sys.store, sys.store[KeyOf(c, PKI)].body);
    var first := TurnRun(c, cp, sys, Pki, 4);
    var s1 := Run(sys, first);
    OwnIsLater(c, sys.store, s1.store, Pki);
    AuthorityCells(c, s1.store);
    var e, e' := Environment(c, Sign(CA)), Environment(c, Sign(ADMIN));
    SignRun(c, cp, s1, CA);
    ThenOne(c, sys, first, e);
    var s2 := Step(s1, e);
    SignRun(c, cp, s2, ADMIN);
    ThenOne(c, sys, first + [e], e');
    es := first + [e] + [e'];
  }

  lemma FirstCallsAreOpen(c: Config, s: Store, body: Body)
    requires WellFormed(c)
    ensures OpenUpTo(c, s, Pki, body, 4)
  {
    hide WellFormed, At;
  }

  lemma AuthorityCells(c: Config, s: Store)
    requires WellFormed(c) && HasSpec(c, s) && Did(c, s, Pki, 4)
    ensures At(c, s, CertCell(CA)).Some? && At(c, s, CertCell(ADMIN)).Some?
    ensures At(c, s, ROOT_ISSUER).Some? && At(c, s, CA_ISSUER).Some?
  {
    hide WellFormed, HasSpec, At, Did;
    DidCell(c, s, Pki, 4, 0);
    DidCell(c, s, Pki, 4, 1);
    DidCell(c, s, Pki, 4, 2);
    DidCell(c, s, Pki, 4, 3);
  }

  // The issuer of all certificates but the CA can sign, and they are all there.
  ghost predicate Requested(c: Config, s: Store)
    requires WellFormed(c)
  {
    && At(c, s, CA_ISSUER).Some? && At(c, s, SecretCell(CA)).Some?
    && forall j :: 0 <= j < 7 ==> At(c, s, CertCell(j)).Some?
  }

  // cert-manager issues the key pairs from number j on.
  lemma {:induction false} SignRest(c: Config, cp: ControlPlaneSpec, sys: Sys, j: nat) returns (es: seq<Event>)
    requires WellFormed(c) && Sound(c, cp, sys.store) && 1 <= j <= 7 && Requested(c, sys.store)
    requires forall i :: 0 <= i < j ==> At(c, sys.store, SecretCell(i)).Some?
    ensures AllGentle(c, es)
    ensures var after := Run(sys, es);
      && after.running == sys.running && Sound(c, cp, after.store) && SameResources(c, sys.store, after.store)
      && forall i :: 0 <= i < 7 ==> At(c, after.store, SecretCell(i)).Some?
    decreases 7 - j
  {
    hide WellFormed, Sound, Gentle, At, Run, Step, Environment;
    if j == 7 {
      es := [];
      NothingRun(sys);
    } else {
      var e := Environment(c, Sign(j));
      SignRun(c, cp, sys, j);
      var rest := SignRest(c, cp, Step(sys, e), j + 1);
      OneEvent(sys, e);
      OneIsGentle(c, e);
      Then(c, sys, [e], rest);
      es := [e] + rest;
    }
  }

  lemma NothingRun(sys: Sys)
    ensures Run(sys, []) == sys
  {}

  lemma OneIsGentle(c: Config, e: Event)
    requires WellFormed(c) && Gentle(c, e)
    ensures AllGentle(c, [e])
  {
    hide WellFormed, Gentle;
  }

  // The Pki with an address asks for all key pairs, and they are issued.
  lemma IssueLeaves(c: Config, cp: ControlPlaneSpec, sys: Sys) returns (es: seq<Event>)
    requires WellFormed(c) && Sound(c, cp, sys.store) && ResourceKey(c, Pki) !in sys.running
    requires At(c, sys.store, PKI).Some? && At(c, sys.store, PKI).value.PkiBody?
    requires At(c, sys.store, PKI).value.pki.controlPlaneIP != ""
    requires At(c, sys.store, SecretCell(CA)).Some? && At(c, sys.store, SecretCell(ADMIN)).Some?
    ensures AllGentle(c, es)
    ensures var after := Run(sys, es);
      && after.running == sys.running && Sound(c, cp, after.store) && SameResources(c, sys.store, after.store)
      && forall i :: 0 <= i < 7 ==> At(c, after.store, SecretCell(i)).Some?
  {
    hide WellFormed, Sound, Gentle, OpenUpTo, OnlyOwn, Did, HasSpec, At, Run, KeyOf, Spec, Step, Requested;
    StoredAgain(c, sys.store, PKI);
    ResourceCells(c);
    PkiIsOpen(c, sys.store);
    var first := TurnRun(c, cp, sys, Pki, LAST);
    var s1 := Run(sys, first);
    OwnIsLater(c, sys.store, s1.store, Pki);
    AllRequested(c, s1.store);
    var rest := SignRest(c, cp, s1, 2);
    Then(c, sys, first, rest);
    es := first + rest;
  }

  lemma PkiIsOpen(c: Config, s: Store)
    requires WellFormed(c) && At(c, s, PKI).Some? && At(c, s, PKI).value.PkiBody?
    requires At(c, s, PKI).value.pki.controlPlaneIP != "" && At(c, s, SecretCell(ADMIN)).Some?
    ensures KeyOf(c, PKI) in s && OpenUpTo(c, s, Pki, s[KeyOf(c, PKI)].body, LAST)
  {
    hide WellFormed, NameOf;
  }

  lemma AllRequested(c: Config, s: Store)
    requires WellFormed(c) && HasSpec(c, s) && Did(c, s, Pki, LAST) && At(c, s, SecretCell(CA)).Some?
    ensures Requested(c, s)
  {
    hide WellFormed, HasSpec, At, Did;
    DidCell(c, s, Pki, LAST, 2);
    forall j | 0 <= j < 7
      ensures At(c, s, CertCell(j)).Some?
    {
      DidCell(c, s, Pki, LAST, if j == CA then 1 else if j == ADMIN then 3 else j + 4);
    }
  }

  // The KubeAPIServer reconciler finds all its key pairs.
  lemma WriteServer(c: Config, cp: ControlPlaneSpec, sys: Sys) returns (es: seq<Event>)
    requires WellFormed(c) && Sound(c, cp, sys.store) && ResourceKey(c, KubeAPIServer) !in sys.running
    requires At(c, sys.store, KAS).Some? && At(c, sys.store, KAS).value.KasBody?
    requires forall i :: 0 <= i < 7 ==> At(c, sys.store, SecretCell(i)).Some?
    ensures AllGentle(c, es)
    ensures var after := Run(sys, es);
      && SameResources(c, sys.store, after.store)
      && Advertised(At(c, after.store, KAS_DEPLOYMENT)) ==
           Some(At(c, sys.store, KAS).value.kas.options.advertiseAddress)
  {
    hide WellFormed, Sound, Gentle, OpenUpTo, OnlyOwn, Did, HasSpec, At, Run, KeyOf, Spec, Step, Good, Advertised;
    StoredAgain(c, sys.store, KAS);
    ResourceCells(c);
    ServerIsOpen(c, sys.store, sys.store[KeyOf(c, KAS)].body);
    es := TurnRun(c, cp, sys, KubeAPIServer, LAST);
    var s := Run(sys, es).store;
    OwnIsLater(c, sys.store, s, KubeAPIServer);
    GoodCell(c, s, KubeAPIServer, KAS_DEPLOYMENT);
    GoodServer(c, s);
  }

  lemma ServerIsOpen(c: Config, s: Store, body: Body)
    requires WellFormed(c) && forall i :: 0 <= i < 7 ==> At(c, s, SecretCell(i)).Some?
    ensures OpenUpTo(c, s, KubeAPIServer, body, LAST)
  {
    hide WellFormed, At;
    assert At(c, s, SecretCell(CA)).Some? && At(c, s, SecretCell(SERVER)).Some?;
    assert At(c, s, SecretCell(ACCOUNTS)).Some? && At(c, s, SecretCell(KONNECTIVITY)).Some?;
  }

  // From every fresh installation there is a run without a failure, an edit or interference
  // after which the Pki records the address and the API server advertises an empty one.
  lemma ServerAddressLags(c: Config, cp: ControlPlaneSpec) returns (es: seq<Event>)
    requires WellFormed(c) && Addressed(c) && Conforms(c.id, cp)
    ensures AllGentle(c, es)
    ensures var s := Run(Installed(c, cp), es).store;
      && At(c, s, PKI) == Some(PkiBody(cp.pki.(controlPlaneIP := c.ingress[0])))
      && Advertised(At(c, s, KAS_DEPLOYMENT)) == Some("") && c.ingress[0] != ""
  {
    hide WellFormed, Conforms, Sound, Gentle, At, Run, KeyOf, Advertised, Installed, HandOver;
    var sys := Installed(c, cp);
    var a := Install(c, cp);
    var s1 := Run(sys, a);
    var b := GetAddress(c, cp, s1);
    Then(c, sys, a, b);
    var s2 := Run(s1, b);
    StillStored(c, s1.store, s2.store);
    var d := IssueAuthority(c, cp, s2);
    Then(c, sys, a + b, d);
    var s3 := Run(s2, d);
    HandOverRun(c, cp, s3, c.ingress[0]);
    Then(c, sys, a + b + d, HandOver(c));
    var s4 := Run(s3, HandOver(c));
    var e := IssueLeaves(c, cp, s4);
    Then(c, sys, a + b + d + HandOver(c), e);
    var s5 := Run(s4, e);
    var f := WriteServer(c, cp, s5);
    Then(c, sys, a + b + d + HandOver(c) + e, f);
    es := a + b + d + HandOver(c) + e + f;
  }

  lemma StillStored(c: Config, s: Store, s': Store)
    requires WellFormed(c) && KeyOf(c, PKI) in s && At(c, s', PKI) == At(c, s, PKI)
    ensures KeyOf(c, PKI) in s'
  {}
}
