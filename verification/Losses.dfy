// Where lost wakeups lead: the control plane comes to rest away from its target, and what
// was missed stays missing however long the operator goes on working.
module Losses {
  import opened Api
  import opened Programs
  import opened Machine
  import opened Integrity
  import opened Cells
  import opened Settling
  import opened Invariant
  import opened Termination
  import opened Convergence
  import opened Duties
  import opened Wakeup
  import opened FailedCalls
  import opened Repose
  import opened Drift

  /******* A lost status update *******/

  // The reconcile of kind is about to make a needed call whose error it drops, and besides
  // it only reconcilers of the given kinds are busy.
  ghost predicate AboutToLose(c: Config, sys: Sys, kind: Kind, kinds: set<Kind>)
    requires WellFormed(c)
  {
    && Poised(c, sys, kind) && Owned(c, sys.store)
    && kinds <= LEAVES && kind !in kinds && OnlyBusy(c, sys, kinds + {kind})
    && var f := sys.running[ResourceKey(c, kind)];
       Lenient(Code(f)) && !Unneeded(c, sys.store, f)
  }

  lemma AboutToLoseFacts(c: Config, sys: Sys, kind: Kind, kinds: set<Kind>)
    requires WellFormed(c) && AboutToLose(c, sys, kind, kinds)
    ensures Poised(c, sys, kind) && Intact(c, sys) && Consistent(c, sys) && Owned(c, sys.store) && HasSpec(c, sys.store)
    ensures Lenient(Code(sys.running[ResourceKey(c, kind)]))
    ensures !Unneeded(c, sys.store, sys.running[ResourceKey(c, kind)])
    ensures kinds <= LEAVES && kind !in kinds && OnlyBusy(c, sys, kinds + {kind})
    ensures var f := sys.running[ResourceKey(c, kind)];
      var i := CellOf(kind, f.pc);
      && f.key == ResourceKey(c, kind) && FrameFits(c, f) && Onward(c, Spec(c, sys.store), f, sys.store)
      && i < CELLS && !IsSecret(i) && At(c, sys.store, i) != Some(Code(f).body)
      && Derive(c, Spec(c, sys.store), i, Prefix(c, sys.store, i)) == Some(Code(f).body)
  {
    hide WellFormed, Intact, OnTrack, HasSpec, OnlyBusy, Owned, Code, Lenient, Unneeded, At, CellOf, Prefix, Derive,
      FrameFits, Onward, Consistent;
    PoisedFacts(c, sys, kind);
    NeededExactly(c, sys, kind);
    UnneededMeans(c, sys.store, sys.running[ResourceKey(c, kind)]);
  }

  // One failed status update, and the load balancer stays without its address: nobody is
  // queued for it, whatever the Pki and component reconcilers and cert-manager go on doing.
  // If nobody else was busy, everybody is at rest now.
  lemma StatusLossStays(c: Config, cp: ControlPlaneSpec, sys: Sys, kinds: set<Kind>, es: seq<Event>)
    requires WellFormed(c) && AboutToLose(c, sys, Loadbalancer, kinds)
    requires forall n :: 0 <= n < |es| ==> Works(c, es[n])
    ensures var after := Run(Step(sys, Act(ResourceKey(c, Loadbalancer), false)), es);
      && OnlyBusy(c, after, kinds)
      && At(c, after.store, LB_STATUS) == At(c, sys.store, LB_STATUS)
      && Wrong(c, cp, after.store, LB_STATUS) == 1 && (Addressed(c) ==> !AtTarget(c, cp, after.store))
    ensures var after := Run(Step(sys, Act(ResourceKey(c, Loadbalancer), false)), es);
      forall i :: 0 <= i <= KS ==> At(c, after.store, i) == At(c, sys.store, i)
  {
    hide WellFormed, AboutToLose, Poised, Intact, Consistent, HasSpec, OnlyBusy, Owned, Code, Lenient, Unneeded, At,
      Derive, FrameFits, Onward, Works, Step, Spec, Wrong, Unneeded;
    var k := ResourceKey(c, Loadbalancer);
    AboutToLoseFacts(c, sys, Loadbalancer, kinds);
    PoisedKind(c, sys, Loadbalancer);
    var f, lost := sys.running[k], Step(sys, Act(k, false));
    WhoIsLenient(c, f);
    LossEndsIt(c, sys, kinds);
    BusyRun(c, lost, es, kinds);
    LeafKinds(kinds);
    assert Wrong(c, Spec(c, sys.store), sys.store, LB_STATUS) == 1 by { WrongByValue(c, sys.store, f); }
    StatusWithoutSpec(c, Spec(c, sys.store), cp, sys.store);
    SameWrong(c, cp, sys.store, Run(lost, es).store, LB_STATUS);
    OffTarget(c, cp, Run(lost, es).store, LB_STATUS);
  }

  // The load balancer is idle and as the spec has it, and no ControlPlane reconcile is about
  // to write another one.
  ghost predicate Bypassed(c: Config, sys: Sys)
    requires WellFormed(c)
  {
    var k := ControlPlaneKey(c);
    && HasSpec(c, sys.store) && Owned(c, sys.store) && OnlyBusy(c, sys, LEAVES + {ControlPlane})
    && At(c, sys.store, LB) == Some(LoadbalancerBody(Spec(c, sys.store).loadbalancer))
    && (k in sys.running && sys.running[k].pc == 0 ==>
          && sys.running[k].body.ControlPlaneBody?
          && sys.running[k].body.controlPlane.loadbalancer == Spec(c, sys.store).loadbalancer)
  }

  // What a ControlPlane reconcile writes past the load balancer wakes neither the load
  // balancer nor anybody but the children and itself.
  lemma ControlPlaneWakes(c: Config, sys: Sys, ok: bool)
    requires WellFormed(c) && Consistent(c, sys) && Bypassed(c, sys) && ControlPlaneKey(c) in sys.running
    ensures var f := sys.running[ControlPlaneKey(c)];
      Exec(f, sys.store, ok).0 != sys.store ==>
        && f.pc > 0
        && forall w :: w in Woken(sys.store, Exec(f, sys.store, ok).0, TargetKey(f)) ==>
             w == ControlPlaneKey(c) || (w.kind in LEAVES && w == ResourceKey(c, w.kind))
  {
    hide WellFormed, Consistent, FrameFits, Code, KeyOf, CellFits, CellOf, Woken, OwnedCell, Admits, LEAVES, Created,
      IsSecret, CallFits, Unchanged, TargetKey, Exec, Bypassed, At, ActorOf;
    var k := ControlPlaneKey(c);
    var f, s := sys.running[k], sys.store;
    RunningFits(c, sys, k);
    if Exec(f, s, ok).0 != s {
      if Code(f).Stop? { StopWritesNothing(f, s, ok); }
      EveryCallFits(c, f);
      WrittenBody(c, f, s, ok);
      if f.pc == 0 {
        SameLoadbalancer(c, sys);
        WritesSomething(f, s, ok);
        assert false;
      }
      var i := CellOf(ControlPlane, f.pc);
      ChildCell(f.pc);
      BypassedOwned(c, sys);
      OwnedAt(c, s, i);
      ChildWrite(c, f, s, ok, i);
    }
  }

  lemma BypassedOwned(c: Config, sys: Sys)
    requires WellFormed(c) && Bypassed(c, sys)
    ensures HasSpec(c, sys.store) && Owned(c, sys.store) && OnlyBusy(c, sys, LEAVES + {ControlPlane})
  {
    hide WellFormed, HasSpec, Owned, OnlyBusy, At;
  }

  lemma SameLoadbalancer(c: Config, sys: Sys)
    requires WellFormed(c) && Bypassed(c, sys) && ControlPlaneKey(c) in sys.running
    requires var f := sys.running[ControlPlaneKey(c)];
      f.key == ControlPlaneKey(c) && f.pc == 0 && FrameFits(c, f) && CallFits(c, f)
    ensures var f := sys.running[ControlPlaneKey(c)];
      !Code(f).Stop? && !Code(f).Fetch? && BodyAt(sys.store, TargetKey(f)) == Some(Code(f).body)
  {
    hide WellFormed, HasSpec, Owned, OnlyBusy, FrameFits, CellFits, KeyOf;
  }

  lemma ChildCell(q: nat)
    requires q > 0 && CellOf(ControlPlane, q) < CELLS
    ensures var i := CellOf(ControlPlane, q);
      && PKI <= i <= KS && Created(i) && ActorOf(i) == Reconcile(ControlPlane)
      && KindOf(i) in LEAVES && i == ResourceCell(KindOf(i))
  {}

  lemma ChildWrite(c: Config, f: Frame, s: Store, ok: bool, i: nat)
    requires WellFormed(c) && PKI <= i <= KS && OwnedCell(c, s, i) && Created(i)
    requires ActorOf(i) == Reconcile(ControlPlane)
    requires KindOf(i) in LEAVES && i == ResourceCell(KindOf(i)) && f.key == ControlPlaneKey(c)
    requires !Code(f).Stop? && TargetKey(f) == KeyOf(c, i)
    ensures forall w :: w in Woken(s, Exec(f, s, ok).0, TargetKey(f)) ==>
      w == ControlPlaneKey(c) || (w.kind in LEAVES && w == ResourceKey(c, w.kind))
  {
    KeyIsLocal(c, i);
    ReportsAreStatuses(f);
    ResourceAt(c, KindOf(i));
    hide WellFormed, KeyOf, Code, Created, Admits, Unchanged, KindOf, LEAVES, ResourceCell;
    WokenByChild(s, Exec(f, s, ok).0, KeyOf(c, i), f.key);
  }

  lemma WokenByChild(s: Store, s': Store, w: Key, k: Key)
    requires w.kind !in {LoadbalancerStatus, ServiceStatus}
    requires OwnerAt(s, w) in {None, Some(k)} && OwnerAt(s', w) in {None, Some(k)}
    ensures Woken(s, s', w) <= {w, k}
  {}

  lemma BypassedQueues(c: Config, sys: Sys, e: Event)
    requires WellFormed(c) && Consistent(c, sys) && Bypassed(c, sys) && Works(c, e)
    ensures OnlyBusy(c, Step(sys, e), LEAVES + {ControlPlane})
  {
    hide WellFormed, Consistent, Owned, Exec, TargetKey, Woken, LEAVES, Calm, Bypassed, HasSpec;
    BypassedOwned(c, sys);
    if e.Issue? {
      IssueWakesNobody(c, sys, e);
    } else if e.Act? && e.key in sys.running {
      if e.key == ControlPlaneKey(c) {
        ControlPlaneWakes(c, sys, e.ok);
      } else {
        LeafWakes(c, sys, e.key, e.ok);
      }
    }
  }

  lemma BypassedCells(c: Config, sys: Sys, e: Event, i: nat)
    requires WellFormed(c) && Consistent(c, sys) && Bypassed(c, sys) && Works(c, e) && i <= LB_STATUS
    ensures At(c, Step(sys, e).store, i) == At(c, sys.store, i)
  {
    hide WellFormed, Consistent, Step, At, KeyOf, Bypassed, Calm, LEAVES, Works, Exec, HasSpec, TargetKey;
    BypassedOwned(c, sys);
    if i == LB {
      if At(c, Step(sys, e).store, LB) != At(c, sys.store, LB) {
        LoadbalancerWriter(c, sys, e);
        ControlPlaneWakes(c, sys, e.ok);
        assert false;
      }
    } else {
      FirstCells(i);
      ActsOfKinds(c, sys, e);
      BusyCells(c, sys, e, LEAVES + {ControlPlane}, i);
    }
  }

  lemma FirstCells(i: nat)
    requires LB < i <= LB_STATUS
    ensures NotTheirs(LEAVES + {ControlPlane}, i)
  {}

  lemma ActsOfKinds(c: Config, sys: Sys, e: Event)
    requires WellFormed(c) && OnlyBusy(c, sys, LEAVES + {ControlPlane}) && Works(c, e)
    ensures e.Act? && e.key in sys.running ==> e.key.kind in LEAVES + {ControlPlane}
  {
    hide WellFormed, Calm, LEAVES;
  }

  // The load balancer is written by call 0 of the ControlPlane only.
  lemma LoadbalancerWriter(c: Config, sys: Sys, e: Event)
    requires WellFormed(c) && Consistent(c, sys) && Works(c, e)
    requires At(c, Step(sys, e).store, LB) != At(c, sys.store, LB)
    ensures e.Act? && e.key == ControlPlaneKey(c) && e.key in sys.running && sys.running[e.key].pc == 0
    ensures Exec(sys.running[e.key], sys.store, e.ok).0 != sys.store
  {
    hide WellFormed, Consistent, Step, At, KeyOf, WrittenNow, IssuedNow, AssignedNow, TamperedNow, Calm, CellOf,
      CallFits, FrameFits, Exec, ActorOf;
    WorksIsCalm(c, e);
    WorksRemovesNothing(c, e);
    CellChange(c, sys, e, LB);
    NotTheEnvironment(c, sys, e, LB);
    NotAPairCell(c, sys, e);
    WriterIsActor(c, sys, e, LB, sys.running[e.key]);
    FirstActor();
    WrittenCall(c, sys, e);
    StoreOfStep(sys, e);
  }

  lemma WorksRemovesNothing(c: Config, e: Event)
    requires WellFormed(c) && Works(c, e)
    ensures !Removes(e)
  {
    hide WellFormed, Calm;
  }

  lemma NotAPairCell(c: Config, sys: Sys, e: Event)
    requires WellFormed(c)
    ensures !IssuedNow(c, sys, e, LB)
  {
    hide WellFormed, At, Issuable, KeyOf;
  }

  lemma FirstActor()
    ensures ActorOf(LB) == Reconcile(ControlPlane) && forall q :: CellOf(ControlPlane, q) == LB ==> q == 0
  {}

  lemma WrittenCall(c: Config, sys: Sys, e: Event)
    requires WellFormed(c) && e.Act? && e.key in sys.running && WrittenNow(c, sys, e, LB, sys.running[e.key])
    ensures CellOf(sys.running[e.key].key.kind, sys.running[e.key].pc) == LB
  {
    hide WellFormed, Step, At, KeyOf, CellOf, CallFits, FrameFits;
  }

  lemma StepBypassed(c: Config, sys: Sys, e: Event)
    requires WellFormed(c) && Consistent(c, sys) && Bypassed(c, sys) && Works(c, e)
    ensures Consistent(c, Step(sys, e)) && Bypassed(c, Step(sys, e))
  {
    hide WellFormed, Consistent, Step, Calm, OnlyBusy, LEAVES, HasSpec, Owned, At, KeyOf;
    WorksIsCalm(c, e);
    StepConsistent(c, sys, e);
    StepOwned(c, sys, e);
    BypassedQueues(c, sys, e);
    BypassedCells(c, sys, e, LB);
    WorksIsSteady(c, e);
    SpecStays(c, sys, e);
    SpecStillThere(c, sys.store, Step(sys, e).store);
    if ControlPlaneKey(c) in Step(sys, e).running && Step(sys, e).running[ControlPlaneKey(c)].pc == 0 {
      NewFrame(c, sys, e);
    }
  }

  lemma WorksIsSteady(c: Config, e: Event)
    requires WellFormed(c) && Works(c, e)
    ensures Steady(c, e)
  {
    hide WellFormed, Calm, KeyOf;
  }

  lemma SpecStillThere(c: Config, s: Store, s': Store)
    requires HasSpec(c, s) && BodyAt(s', ControlPlaneKey(c)) == BodyAt(s, ControlPlaneKey(c))
    ensures HasSpec(c, s') && Spec(c, s') == Spec(c, s)
  {}

  // A frame before its first call was there, or has just read the spec.
  lemma NewFrame(c: Config, sys: Sys, e: Event)
    requires WellFormed(c) && Bypassed(c, sys) && HasSpec(c, sys.store)
    requires var k := ControlPlaneKey(c); k in Step(sys, e).running && Step(sys, e).running[k].pc == 0
    ensures var f := Step(sys, e).running[ControlPlaneKey(c)];
      f.body.ControlPlaneBody? && f.body.controlPlane.loadbalancer == Spec(c, sys.store).loadbalancer
  {
    var k := ControlPlaneKey(c);
    FramesOfStep(sys, e, k);
    if e.Act? && e.key == k && k in sys.running {
      Advanced(sys.running[k], sys.store, e.ok);
    }
    hide WellFormed, Step, Exec, Owned, OnlyBusy, At;
  }

  lemma {:induction false} RunBypasses(c: Config, sys: Sys, es: seq<Event>)
    requires WellFormed(c) && Consistent(c, sys) && Bypassed(c, sys) && forall n :: 0 <= n < |es| ==> Works(c, es[n])
    ensures Consistent(c, Run(sys, es)) && Bypassed(c, Run(sys, es))
    ensures SameCellsBelow(c, sys.store, Run(sys, es).store, PKI)
  {
    hide WellFormed, Consistent, Bypassed, Step, Works, At;
    if es != [] {
      var n := |es| - 1;
      var before := Run(sys, es[..n]);
      RunBypasses(c, sys, es[..n]);
      StepBypassed(c, before, es[n]);
      forall i | 0 <= i < PKI
        ensures At(c, Step(before, es[n]).store, i) == At(c, before.store, i)
      {
        BypassedCells(c, before, es[n], i);
      }
    }
  }

  // Neither does the ControlPlane reconciler find out about a lost status update, as long as
  // its spec asks for the load balancer that there is: it may create and change all other
  // resources, but wakes nobody who would write the status.
  lemma StatusLossOutlasts(c: Config, cp: ControlPlaneSpec, sys: Sys, es: seq<Event>)
    requires WellFormed(c) && Consistent(c, sys) && Bypassed(c, sys)
    requires HasSpec(c, sys.store) && Wrong(c, Spec(c, sys.store), sys.store, LB_STATUS) == 1
    requires forall n :: 0 <= n < |es| ==> Works(c, es[n])
    ensures var k, after := ResourceKey(c, Loadbalancer), Run(sys, es);
      && k !in after.running && k !in after.pending && k !in after.timers
      && At(c, after.store, LB_STATUS) == At(c, sys.store, LB_STATUS)
      && Wrong(c, cp, after.store, LB_STATUS) == 1 && (Addressed(c) ==> !AtTarget(c, cp, after.store))
  {
    hide WellFormed, Consistent, Bypassed, Step, Works, At, Wrong, Run, HasSpec, Spec;
    RunBypasses(c, sys, es);
    IdleLoadbalancer(c, Run(sys, es));
    StatusWithoutSpec(c, Spec(c, sys.store), cp, sys.store);
    SameWrong(c, cp, sys.store, Run(sys, es).store, LB_STATUS);
    OffTarget(c, cp, Run(sys, es).store, LB_STATUS);
  }

  lemma IdleLoadbalancer(c: Config, sys: Sys)
    requires WellFormed(c) && Bypassed(c, sys)
    ensures var k := ResourceKey(c, Loadbalancer); k !in sys.running && k !in sys.pending && k !in sys.timers
  {
    hide WellFormed, HasSpec, Owned, At;
  }

  lemma OffTarget(c: Config, cp: ControlPlaneSpec, s: Store, i: nat)
    requires WellFormed(c) && i < CELLS && Wrong(c, cp, s, i) == 1
    ensures !Right(c, cp, s, CELLS) && (Addressed(c) ==> !AtTarget(c, cp, s))
  {
    hide WellFormed, Wrong, Settled;
    if Addressed(c) { RightIsSettled(c, cp, s, CELLS); }
  }

  lemma WrongByValue(c: Config, s: Store, f: Frame)
    requires WellFormed(c) && HasSpec(c, s) && CellOf(f.key.kind, f.pc) < CELLS && Lenient(Code(f))
    requires var i := CellOf(f.key.kind, f.pc);
      At(c, s, i) != Some(Code(f).body) && Derive(c, Spec(c, s), i, Prefix(c, s, i)) == Some(Code(f).body)
    ensures Wrong(c, Spec(c, s), s, CellOf(f.key.kind, f.pc)) == 1
  {}

  lemma StatusWithoutSpec(c: Config, cp: ControlPlaneSpec, cp': ControlPlaneSpec, s: Store)
    requires WellFormed(c)
    ensures Wrong(c, cp', s, LB_STATUS) == Wrong(c, cp, s, LB_STATUS)
  {
    hide WellFormed, At, DeriveEndpoint, DeriveTrust, DeriveComponent;
    DeriveWithoutSpec(c, cp, cp', LB_STATUS, Prefix(c, s, LB_STATUS));
  }

  lemma LossEndsIt(c: Config, sys: Sys, kinds: set<Kind>)
    requires WellFormed(c) && AboutToLose(c, sys, Loadbalancer, kinds)
    ensures var after := Step(sys, Act(ResourceKey(c, Loadbalancer), false));
      && after.store == sys.store && Consistent(c, after) && Owned(c, after.store) && OnlyBusy(c, after, kinds)
  {
    hide WellFormed, AboutToLose, Intact, Consistent, HasSpec, Owned, Code, Lenient, Unneeded, At, Step, FrameFits,
      Onward, OnTrack, Calm;
    var k := ResourceKey(c, Loadbalancer);
    AboutToLoseFacts(c, sys, Loadbalancer, kinds);
    WhoIsLenient(c, sys.running[k]);
    Dropped(sys, k);
    ActIsCalm(c, Act(k, false));
    StepConsistent(c, sys, Act(k, false));
    assert Poised(c, sys, Loadbalancer);
  }

  lemma ActIsCalm(c: Config, e: Event)
    requires WellFormed(c) && e.Act?
    ensures Calm(c, e)
  {
    hide WellFormed;
  }

  lemma LeafKinds(kinds: set<Kind>)
    requires kinds <= LEAVES
    ensures forall i :: 0 <= i <= KS ==> NotTheirs(kinds, i)
  {}

  // The provider moves a control plane at rest to another address, and the one status
  // update that should tell fails.
  function MoveAddress(c: Config, ip: string): seq<Event>
    requires WellFormed(c)
  {
    var k := ResourceKey(c, Loadbalancer);
    [Assign(KeyOf(c, SERVICE), [ip]), Start(k, true), Act(k, true), Act(k, false)]
  }

  // Then everybody is at rest again, and every object but the Service's status still has
  // the old address.
  lemma AddressChangeIsLost(c: Config, sys: Sys, ip: string)
    requires WellFormed(c) && Awake(c, sys, RECONCILED) && Quiet(c, sys)
    requires At(c, sys.store, INGRESS) != Some(ServiceStatusBody([ip]))
    ensures var after := Run(sys, MoveAddress(c, ip));
      && Quiet(c, after)
      && At(c, after.store, INGRESS) == Some(ServiceStatusBody([ip]))
      && forall i :: 0 <= i < CELLS && i != INGRESS ==> At(c, after.store, i) == At(c, sys.store, i)
  {
    hide WellFormed, Awake, Step, At, KeyOf, ResourceKey, Run, Onward;
    var es, k := MoveAddress(c, ip), ResourceKey(c, Loadbalancer);
    var moved := Step(sys, es[0]);
    var started := Step(moved, es[1]);
    var called := Step(started, es[2]);
    FourEvents(sys, es[0], es[1], es[2], es[3]);
    AssignWakes(c, sys, ip);
    MovedStoreFits(c, sys, ip);
    TurnStarts(c, sys, moved);
    ServiceIsCurrent(c, sys, moved.store, started);
    StatusIsNext(c, moved.store, called, ip);
    Dropped(called, k);
  }

  lemma MovedStoreFits(c: Config, sys: Sys, ip: string)
    requires WellFormed(c) && Awake(c, sys, RECONCILED) && Quiet(c, sys)
    ensures var s' := Step(sys, Assign(KeyOf(c, SERVICE), [ip])).store;
      StoreFits(c, s') && ResourceKey(c, Loadbalancer) in s'
  {
    hide WellFormed, Awake, Quiet, HasSpec, Good, Consistent, Owned, StoreFits, KeyOf, Step, Calm;
    var e := Assign(KeyOf(c, SERVICE), [ip]);
    RestingService(c, sys);
    AssignIsCalm(c, e);
    StepConsistent(c, sys, e);
    ConsistentStore(c, Step(sys, e));
    OneKeyChanges(sys, e);
  }

  lemma AssignIsCalm(c: Config, e: Event)
    requires WellFormed(c) && e.Assign?
    ensures Calm(c, e)
  {
    hide WellFormed;
  }

  // The load balancer's first call changes nothing and reads the new address back.
  lemma ServiceIsCurrent(c: Config, sys: Sys, s: Store, started: Sys)
    requires WellFormed(c) && Awake(c, sys, RECONCILED) && Quiet(c, sys) && HasSpec(c, sys.store)
    requires SameCellsBelow(c, sys.store, s, INGRESS) && started.store == s
    requires var k := ResourceKey(c, Loadbalancer);
      && k in s && started.running == sys.running[k := Begin(s, k)]
      && Onward(c, Spec(c, sys.store), Begin(s, k), s)
    ensures var k := ResourceKey(c, Loadbalancer);
      var called := Step(started, Act(k, true));
      && called.store == s && called.pending == started.pending && called.timers == started.timers
      && k in called.running && called.running == sys.running[k := called.running[k]]
      && called.running[k].pc == 1 && Onward(c, Spec(c, sys.store), called.running[k], s)
      && called.running[k].key == k
  {
    hide WellFormed, Awake, Quiet, HasSpec, Good, Owned, Onward, Step, Code, Exec, At, Derive, Prefix, StoreFits,
      Spec, KeyOf;
    var k := ResourceKey(c, Loadbalancer);
    var f, cp := Begin(s, k), Spec(c, sys.store);
    RestingService(c, sys);
    GoodMeans(c, sys.store, SERVICE);
    SameBelow(c, cp, sys.store, s, SERVICE);
    ServiceCall(c, cp, f, s);
    EveryCallIsCalled(c, cp, f, s);
    if Exec(f, s, true).0 != s {
      WritesSomething(f, s, true);
      assert false;
    }
    SilentCall(started, k);
  }

  lemma ServiceCall(c: Config, cp: ControlPlaneSpec, f: Frame, s: Store)
    requires WellFormed(c) && Onward(c, cp, f, s) && f.key.kind == Loadbalancer && f.pc == 0
    ensures !Code(f).Stop? && !Code(f).Fetch? && CellOf(f.key.kind, f.pc) == SERVICE
    ensures TargetKey(f) == KeyOf(c, SERVICE)
    ensures forall s' :: BodyAt(s', TargetKey(f)) == At(c, s', SERVICE)
  {
    OnwardFits(c, cp, f, s);
    hide Onward, SecretNames, Distinct, StoreFits;
  }

  lemma StatusIsNext(c: Config, s: Store, called: Sys, ip: string)
    requires WellFormed(c) && At(c, s, INGRESS) == Some(ServiceStatusBody([ip]))
    requires var k := ResourceKey(c, Loadbalancer);
      && k in called.running && called.running[k].key == k && called.running[k].pc == 1
      && exists cp :: Onward(c, cp, called.running[k], s)
    ensures Code(called.running[ResourceKey(c, Loadbalancer)]).Report?
  {
    var f := called.running[ResourceKey(c, Loadbalancer)];
    var cp :| Onward(c, cp, f, s);
    OnwardFits(c, cp, f, s);
    OnwardIsFresh(c, cp, f, s);
    hide Onward, WellFormed, StoreFits, At;
  }

  lemma FourEvents(sys: Sys, a: Event, b: Event, d: Event, e: Event)
    ensures Run(sys, [a, b, d, e]) == Step(Step(Step(Step(sys, a), b), d), e)
  {
    hide Step;
    assert [a, b, d, e][..3] == [a, b, d] && [a, b, d][..2] == [a, b] && [a, b][..1] == [a] && [a][..0] == [];
    assert Run(sys, [a]) == Step(sys, a);
    assert Run(sys, [a, b]) == Step(Run(sys, [a]), b);
    assert Run(sys, [a, b, d]) == Step(Run(sys, [a, b]), d);
  }

  // Its Service and its load balancer are there.
  lemma RestingService(c: Config, sys: Sys)
    requires WellFormed(c) && Awake(c, sys, RECONCILED) && Quiet(c, sys)
    ensures HasSpec(c, sys.store) && Owned(c, sys.store) && Consistent(c, sys) && StoreFits(c, sys.store)
    ensures Good(c, sys.store, SERVICE) && KeyOf(c, SERVICE) in sys.store
    ensures ResourceKey(c, Loadbalancer) in sys.store
  {
    hide WellFormed, Awake, Quiet, HasSpec, Good, Owned, Consistent, KeyOf, StoreFits, ResourceKey;
    AwakeFacts(c, sys);
    CellGood(c, sys, SERVICE);
    CellGood(c, sys, LB);
    GoodIsStored(c, sys.store, SERVICE);
    GoodIsStored(c, sys.store, LB);
    ResourceCells(c);
  }

  lemma AssignWakes(c: Config, sys: Sys, ip: string)
    requires WellFormed(c) && Awake(c, sys, RECONCILED) && Quiet(c, sys)
    requires At(c, sys.store, INGRESS) != Some(ServiceStatusBody([ip]))
    ensures var after := Step(sys, Assign(KeyOf(c, SERVICE), [ip]));
      && after.running == sys.running && after.timers == sys.timers
      && after.pending == sys.pending + {ResourceKey(c, Loadbalancer)}
      && At(c, after.store, INGRESS) == Some(ServiceStatusBody([ip]))
      && BodyAt(after.store, ControlPlaneKey(c)) == BodyAt(sys.store, ControlPlaneKey(c))
      && forall i :: 0 <= i < CELLS && i != INGRESS ==> At(c, after.store, i) == At(c, sys.store, i)
  {
    hide WellFormed, Awake, Quiet, HasSpec, Good, Consistent, NameOf, Owned, StoreFits;
    RestingService(c, sys);
    OwnedAt(c, sys.store, SERVICE);
    WatchedBy(SERVICE);
    assert StatusKey(KeyOf(c, SERVICE)) == KeyOf(c, INGRESS) by { IngressKey(c); }
    forall i | 0 <= i < CELLS && i != INGRESS
      ensures KeyOf(c, i) != KeyOf(c, INGRESS)
    {
      DistinctKeys(c, i, INGRESS);
    }
  }

  lemma TurnStarts(c: Config, sys: Sys, moved: Sys)
    requires WellFormed(c) && Awake(c, sys, RECONCILED) && Quiet(c, sys)
    requires moved.running == sys.running && moved.timers == sys.timers
    requires moved.pending == sys.pending + {ResourceKey(c, Loadbalancer)}
    requires BodyAt(moved.store, ControlPlaneKey(c)) == BodyAt(sys.store, ControlPlaneKey(c))
    requires StoreFits(c, moved.store)
    requires ResourceKey(c, Loadbalancer) in moved.store
    ensures var k := ResourceKey(c, Loadbalancer);
      var started := Step(moved, Start(k, true));
      && started.store == moved.store && started.pending == sys.pending && started.timers == sys.timers
      && started.running == sys.running[k := Begin(moved.store, k)]
      && HasSpec(c, sys.store) && Onward(c, Spec(c, sys.store), Begin(moved.store, k), moved.store)
  {
    hide WellFormed, Awake, HasSpec, Consistent, Owned, StoreFits, Onward, Good, Sound;
    var k := ResourceKey(c, Loadbalancer);
    RestingService(c, sys);
    StoredIsTyped(c, moved.store, k);
    assert Sound(c, Spec(c, sys.store), moved.store) by { SpecIsStored(c, sys.store, moved.store); }
    BeginsOnward(c, Spec(c, sys.store), moved.store, k);
  }

  lemma SpecIsStored(c: Config, s: Store, s': Store)
    requires WellFormed(c) && HasSpec(c, s) && StoreFits(c, s')
    requires BodyAt(s', ControlPlaneKey(c)) == BodyAt(s, ControlPlaneKey(c))
    ensures Sound(c, Spec(c, s), s')
  {
    hide WellFormed, StoreFits;
  }

  /******* Lost objects of the Pki *******/

  // The Pki reconcile is idle, or in progress with its gates open.
  ghost predicate PassedOver(c: Config, sys: Sys)
    requires WellFormed(c)
  {
    var k := ResourceKey(c, Pki);
    && k !in sys.pending && k !in sys.timers && At(c, sys.store, SecretCell(ADMIN)).Some?
    && (k in sys.running ==> sys.running[k].body.PkiBody? && sys.running[k].body.pki.controlPlaneIP != "")
  }

  // The next event makes no needed call of the Pki go through, and no gate call fail.
  ghost predicate Misses(c: Config, sys: Sys, e: Event)
    requires WellFormed(c)
  {
    var k := ResourceKey(c, Pki);
    e.Act? && e.key == k && k in sys.running ==>
      && (Code(sys.running[k]).Fetch? ==> e.ok)
      && (Lenient(Code(sys.running[k])) && e.ok ==> Unneeded(c, sys.store, sys.running[k]))
  }

  lemma OwnCallPasses(c: Config, sys: Sys, ok: bool)
    requires WellFormed(c) && Consistent(c, sys) && PassedOver(c, sys)
    requires Misses(c, sys, Act(ResourceKey(c, Pki), ok))
    ensures Step(sys, Act(ResourceKey(c, Pki), ok)).store == sys.store
    ensures PassedOver(c, Step(sys, Act(ResourceKey(c, Pki), ok)))
  {
    hide WellFormed, Consistent, Step, Code, FrameFits, At, KeyOf, CellOf, Unneeded;
    var k := ResourceKey(c, Pki);
    if k in sys.running {
      var f := sys.running[k];
      RunningFits(c, sys, k);
      PkiCall(c, f);
      if f.pc > 10 {
        StopStep(sys, k, ok);
      } else if f.pc == 4 {
        StoredBody(c, sys.store, SecretCell(ADMIN));
        FetchStep(sys, k, ok);
      } else if ok {
        UnneededMeans(c, sys.store, f);
        StoredBody(c, sys.store, CellOf(Pki, f.pc));
        IdleCall(sys, k, ok);
      } else {
        Dropped(sys, k);
      }
    } else {
      StepIsAct(sys, k, ok);
    }
  }

  lemma OthersPass(c: Config, sys: Sys, e: Event, kinds: set<Kind>)
    requires WellFormed(c) && Consistent(c, sys) && Owned(c, sys.store) && kinds <= LEAVES && Pki !in kinds
    requires OnlyBusy(c, sys, kinds + {Pki}) && Works(c, e) && PassedOver(c, sys)
    requires !(e.Act? && e.key == ResourceKey(c, Pki))
    ensures PassedOver(c, Step(sys, e))
  {
    hide WellFormed, Consistent, Owned, Step, At, Works, LEAVES, OnlyBusy, IsSecret;
    OthersQueue(c, sys, e, kinds);
    AdminIsAPair();
    PairStays(c, sys, e, SecretCell(ADMIN));
  }

  lemma AdminIsAPair()
    ensures SecretCell(ADMIN) < CELLS && IsSecret(SecretCell(ADMIN))
  {}

  // Other reconcilers neither queue the Pki nor touch its reconcile.
  lemma OthersQueue(c: Config, sys: Sys, e: Event, kinds: set<Kind>)
    requires WellFormed(c) && Consistent(c, sys) && Owned(c, sys.store) && kinds <= LEAVES
    requires OnlyBusy(c, sys, kinds + {Pki}) && Works(c, e)
    requires var k := ResourceKey(c, Pki); k !in sys.pending && k !in sys.timers && !(e.Act? && e.key == k)
    ensures var k, after := ResourceKey(c, Pki), Step(sys, e);
      && k !in after.pending && k !in after.timers
      && (k in after.running <==> k in sys.running) && (k in sys.running ==> after.running[k] == sys.running[k])
  {
    hide WellFormed, Consistent, Owned, Exec, TargetKey, Woken, ResourceKey, Calm;
    if e.Issue? {
      IssueWakesNobody(c, sys, e);
    } else if e.Act? && e.key in sys.running {
      LeafWakes(c, sys, e.key, e.ok);
    }
  }

  lemma OthersAct(c: Config, sys: Sys, e: Event, kinds: set<Kind>)
    requires WellFormed(c) && OnlyBusy(c, sys, kinds + {Pki}) && Works(c, e)
    requires !(e.Act? && e.key == ResourceKey(c, Pki))
    ensures e.Act? && e.key in sys.running ==> e.key.kind in kinds
  {
    hide WellFormed, Calm;
  }

  // Every event of the run misses what the Pki needs.
  ghost predicate AllMiss(c: Config, sys: Sys, es: seq<Event>)
    requires WellFormed(c)
  {
    forall n :: 0 <= n < |es| ==> Works(c, es[n]) && Misses(c, Run(sys, es[..n]), es[n])
  }

  lemma {:induction false} RunPassesOver(c: Config, sys: Sys, es: seq<Event>, kinds: set<Kind>)
    requires WellFormed(c) && Consistent(c, sys) && Owned(c, sys.store) && kinds <= LEAVES && Pki !in kinds
    requires OnlyBusy(c, sys, kinds + {Pki}) && PassedOver(c, sys) && AllMiss(c, sys, es)
    ensures Consistent(c, Run(sys, es)) && Owned(c, Run(sys, es).store)
    ensures OnlyBusy(c, Run(sys, es), kinds + {Pki}) && PassedOver(c, Run(sys, es))
    ensures forall i :: 0 <= i < CELLS && NotTheirs(kinds, i) ==> At(c, Run(sys, es).store, i) == At(c, sys.store, i)
    ensures At(c, Run(sys, es).store, SecretCell(ADMIN)) == At(c, sys.store, SecretCell(ADMIN))
  {
    hide WellFormed, Step, At, Consistent, Owned, OnlyBusy, LEAVES, NotTheirs, Works, IsSecret, Misses, ResourceKey;
    AdminIsAPair();
    if es != [] {
      var n := |es| - 1;
      var before := Run(sys, es[..n]);
      var k := ResourceKey(c, Pki);
      assert forall m :: 0 <= m <= n ==> es[..n][..m] == es[..m];
      assert AllMiss(c, sys, es[..n]);
      RunPassesOver(c, sys, es[..n], kinds);
      WorksIsCalm(c, es[n]);
      StepConsistent(c, before, es[n]);
      StepOwned(c, before, es[n]);
      PkiIsLeaf();
      BusyQueues(c, before, es[n], kinds + {Pki});
      var own := es[n].Act? && es[n].key == k;
      if own {
        OwnCallPasses(c, before, es[n].ok);
      } else {
        OthersPass(c, before, es[n], kinds);
        OthersAct(c, before, es[n], kinds);
      }
      forall i | 0 <= i < CELLS && NotTheirs(kinds, i)
        ensures At(c, Step(before, es[n]).store, i) == At(c, before.store, i)
      {
        if !own { BusyCells(c, before, es[n], kinds, i); }
      }
      AdminStored(c, before);
      PairStays(c, before, es[n], SecretCell(ADMIN));
    }
  }

  lemma AdminStored(c: Config, sys: Sys)
    requires WellFormed(c) && PassedOver(c, sys)
    ensures At(c, sys.store, SecretCell(ADMIN)).Some?
  {
    hide WellFormed, At;
  }

  lemma PkiIsLeaf()
    ensures Pki in LEAVES
  {}

  lemma WorksIsCalm(c: Config, e: Event)
    requires WellFormed(c) && Works(c, e)
    ensures Calm(c, e)
  {
    hide WellFormed, Calm;
  }

  // The equations of the Pki's objects look at the Pki and at the admin key pair only.
  lemma PkiDerives(c: Config, cp: ControlPlaneSpec, cp': ControlPlaneSpec, s: Store, s': Store, i: nat)
    requires WellFormed(c) && i < CELLS && ActorOf(i) == Reconcile(Pki)
    requires At(c, s', PKI) == At(c, s, PKI) && At(c, s', SecretCell(ADMIN)) == At(c, s, SecretCell(ADMIN))
    requires At(c, s, PKI).Some? && At(c, s, PKI).value.PkiBody? && At(c, s, PKI).value.pki.controlPlaneIP != ""
    requires At(c, s, SecretCell(ADMIN)).Some?
    ensures Due(c, cp, s, i)
    ensures Derive(c, cp', i, Prefix(c, s', i)) == Derive(c, cp, i, Prefix(c, s, i))
  {
    hide WellFormed, At, DeriveEndpoint, CertificateFor, KubeconfigSecret;
    var p, p' := Prefix(c, s, i), Prefix(c, s', i);
    assert p[PKI] == At(c, s, PKI) && p'[PKI] == At(c, s', PKI);
    if SecretCell(ADMIN) < i {
      assert p[SecretCell(ADMIN)] == At(c, s, SecretCell(ADMIN));
      assert p'[SecretCell(ADMIN)] == At(c, s', SecretCell(ADMIN));
    }
  }

  lemma PkiCells(kinds: set<Kind>, q: nat)
    requires kinds <= LEAVES && Pki !in kinds && q <= 10 && q != 4
    ensures CellOf(Pki, q) < CELLS && ActorOf(CellOf(Pki, q)) == Reconcile(Pki) && NotTheirs(kinds, CellOf(Pki, q))
    ensures NotTheirs(kinds, PKI)
  {}

  // A Pki reconcile is current and its gates are open, but of its calls none that is needed
  // goes through.  Then everything that was missing stays missing and nobody is queued for
  // it, whatever the component reconcilers and cert-manager do meanwhile and afterwards.
  lemma PkiLossStays(c: Config, cp: ControlPlaneSpec, sys: Sys, kinds: set<Kind>, es: seq<Event>)
    requires WellFormed(c) && Underway(c, sys) && HasSpec(c, sys.store) && kinds <= LEAVES && Pki !in kinds
    requires OnlyBusy(c, sys, kinds + {Pki}) && PassedOver(c, sys) && AllMiss(c, sys, es)
    ensures var k, after := ResourceKey(c, Pki), Run(sys, es);
      OnlyBusy(c, after, kinds + {Pki}) && k !in after.pending && k !in after.timers
    ensures forall q: nat :: Missing(c, sys.store, q) ==> Wrong(c, cp, Run(sys, es).store, CellOf(Pki, q)) == 1
    ensures Addressed(c) && (exists q: nat :: Missing(c, sys.store, q)) ==> !AtTarget(c, cp, Run(sys, es).store)
  {
    hide WellFormed, Consistent, HasSpec, OnlyBusy, Owned, Code, At, Derive, FrameFits, Onward, Works, Step, Spec,
      Wrong, Prefix, NotTheirs, LEAVES, CellOf, Run, AllMiss, Settled, Good, Underway, PassedOver;
    UnderwayFacts(c, sys);
    RunPassesOver(c, sys, es, kinds);
    NobodyQueued(c, Run(sys, es));
    forall q: nat | Missing(c, sys.store, q)
      ensures Wrong(c, cp, Run(sys, es).store, CellOf(Pki, q)) == 1
      ensures !Right(c, cp, Run(sys, es).store, CELLS) && (Addressed(c) ==> !AtTarget(c, cp, Run(sys, es).store))
    {
      PkiCells(kinds, q);
      AdminStored(c, sys);
      PkiIsThere(c, sys);
      PkiDerives(c, Spec(c, sys.store), cp, sys.store, Run(sys, es).store, CellOf(Pki, q));
      MissingIsWrong(c, cp, sys.store, Run(sys, es).store, q);
      OffTarget(c, cp, Run(sys, es).store, CellOf(Pki, q));
    }
  }

  lemma NobodyQueued(c: Config, sys: Sys)
    requires WellFormed(c) && PassedOver(c, sys)
    ensures ResourceKey(c, Pki) !in sys.pending && ResourceKey(c, Pki) !in sys.timers
  {}

  lemma PkiIsThere(c: Config, sys: Sys)
    requires WellFormed(c) && Underway(c, sys) && PassedOver(c, sys)
    ensures At(c, sys.store, PKI).Some? && At(c, sys.store, PKI).value.PkiBody?
    ensures At(c, sys.store, PKI).value.pki.controlPlaneIP != ""
  {
    hide WellFormed, Intact, HasSpec, Owned, KeyOf, Reached, Onward;
    UnderwayFacts(c, sys);
    ResourceCells(c);
    hide FrameFits;
  }

  lemma MissingIsWrong(c: Config, cp: ControlPlaneSpec, s: Store, s': Store, q: nat)
    requires WellFormed(c) && HasSpec(c, s) && Missing(c, s, q) && Due(c, Spec(c, s), s, CellOf(Pki, q))
    requires var i := CellOf(Pki, q);
      && At(c, s', i) == At(c, s, i)
      && Derive(c, cp, i, Prefix(c, s', i)) == Derive(c, Spec(c, s), i, Prefix(c, s, i))
    ensures Wrong(c, cp, s', CellOf(Pki, q)) == 1
  {
    hide WellFormed, HasSpec, At, Derive, CellOf;
  }
}
