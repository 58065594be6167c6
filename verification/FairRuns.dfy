// Fair runs settle at the granularity of single API calls.  A run is cut into segments in
// which every queued reconciler gets a turn and the environment moves; in all but a bounded
// number of these segments every cell agrees with its equation throughout, however the
// calls interleave.
module FairRuns {
  import opened Api
  import opened Programs
  import opened Machine
  import opened Integrity
  import opened Cells
  import opened Settling
  import opened Invariant
  import opened Termination
  import opened Convergence
  import opened Duties
  import opened Wakeup
  import opened Repose

  // Nobody edits, restarts or tampers, and calls of the namespace go through.
  ghost predicate Gentle(c: Config, e: Event)
    requires WellFormed(c)
  {
    Steady(c, e) && !e.Crash? && (e.Act? && e.key.ns == c.ns ==> e.ok)
  }

  ghost predicate AllGentle(c: Config, es: seq<Event>)
    requires WellFormed(c)
  {
    forall i :: 0 <= i < |es| ==> Gentle(c, es[i])
  }

  // The state of a control plane whose spec is fixed and whose reconcilers are covered.
  ghost predicate Attended(c: Config, cp: ControlPlaneSpec, sys: Sys) {
    WellFormed(c) && Fixed(c, cp, sys) && Awake(c, sys, RECONCILED)
  }

  lemma GentleStep(c: Config, cp: ControlPlaneSpec, sys: Sys, e: Event)
    requires WellFormed(c) && Attended(c, cp, sys) && Gentle(c, e)
    ensures Attended(c, cp, Step(sys, e))
  {
    hide WellFormed, Step, Awake, Fixed, Steady, RECONCILED, Code;
    StepFixed(c, cp, sys, e);
    SteadyIsUntouched(c, e);
    StepAwake(c, sys, e, RECONCILED);
  }

  lemma SteadyIsUntouched(c: Config, e: Event)
    requires WellFormed(c) && Steady(c, e)
    ensures Untouched(c, e)
  {
    hide WellFormed, Calm, NameOf, KindOf;
  }

  lemma {:induction false} GentleRun(c: Config, cp: ControlPlaneSpec, sys: Sys, es: seq<Event>)
    requires WellFormed(c) && Attended(c, cp, sys) && AllGentle(c, es)
    ensures Attended(c, cp, Run(sys, es))
  {
    hide WellFormed, Step, Attended, Gentle;
    if es != [] {
      GentleRun(c, cp, sys, es[..|es| - 1]);
      GentleStep(c, cp, Run(sys, es[..|es| - 1]), es[|es| - 1]);
    }
  }

  /******* Segments in which nothing happens to the cells *******/

  ghost predicate Constant(c: Config, sys: Sys, es: seq<Event>)
    requires WellFormed(c)
  {
    forall n :: 0 <= n <= |es| ==> SameCells(c, sys.store, Run(sys, es[..n]).store)
  }

  lemma {:induction false} NoEffectIsConstant(c: Config, sys: Sys, es: seq<Event>)
    requires WellFormed(c) && EffectiveSteps(c, sys, es) == 0
    ensures Constant(c, sys, es)
  {
    hide WellFormed, Step, At;
    if es == [] {
      assert es[..0] == [];
    } else {
      var m := |es| - 1;
      NoEffectIsConstant(c, sys, es[..m]);
      assert forall n :: 0 <= n <= m ==> es[..m][..n] == es[..n];
      assert es[..m + 1] == es && es[..m][..m] == es[..m];
      assert Run(sys, es) == Step(Run(sys, es[..m]), es[m]);
      assert SameCells(c, sys.store, Run(sys, es[..m]).store) by {
        assert SameCells(c, sys.store, Run(sys, es[..m][..m]).store);
      }
    }
  }

  lemma ConstantTail(c: Config, sys: Sys, es: seq<Event>)
    requires WellFormed(c) && es != [] && Constant(c, sys, es)
    ensures SameCells(c, sys.store, Step(sys, es[0]).store)
    ensures Constant(c, Step(sys, es[0]), es[1..])
    ensures Run(sys, es) == Run(Step(sys, es[0]), es[1..])
  {
    hide WellFormed, Step, At;
    forall n | 0 <= n <= |es| - 1
      ensures Run(Step(sys, es[0]), es[1..][..n]) == Run(sys, es[..n + 1])
    {
      assert [es[0]] + es[1..][..n] == es[..n + 1];
      RunOne(sys, es[0], es[1..][..n]);
    }
    assert es[1..][..0] == [] && es[..|es|] == es && es[1..][..|es| - 1] == es[1..];
    assert Run(Step(sys, es[0]), es[1..][..0]) == Step(sys, es[0]);
    forall n | 0 <= n <= |es| - 1
      ensures SameCells(c, Step(sys, es[0]).store, Run(Step(sys, es[0]), es[1..][..n]).store)
    {
      assert SameCells(c, sys.store, Run(sys, es[..n + 1]).store);
      assert SameCells(c, sys.store, Run(sys, es[..0 + 1]).store);
    }
  }

  /******* A turn of a reconciler *******/

  // The reconcile of k in progress will write cell i yet.
  ghost predicate Heading(c: Config, cp: ControlPlaneSpec, sys: Sys, k: Key, i: nat)
    requires WellFormed(c)
  {
    && i < CELLS && ActorOf(i) == Reconcile(k.kind) && k.ns == c.ns
    && k in sys.running && sys.running[k].key == k && sys.running[k].pc <= CallOf(i)
    && Onward(c, cp, sys.running[k], sys.store)
  }

  // The cells below i are right and the equation of cell i asks for something.
  ghost predicate Next(c: Config, cp: ControlPlaneSpec, s: Store, i: nat)
    requires WellFormed(c)
  {
    i < CELLS && Right(c, cp, s, i) && Due(c, cp, s, i)
  }

  // Steps of others that change no cell leave it on its way.
  lemma OthersKeepHeading(c: Config, cp: ControlPlaneSpec, sys: Sys, e: Event, k: Key, i: nat)
    requires WellFormed(c) && Attended(c, cp, sys) && Gentle(c, e) && Heading(c, cp, sys, k, i)
    requires !(e.Act? && e.key == k) && SameCells(c, sys.store, Step(sys, e).store)
    ensures Heading(c, cp, Step(sys, e), k, i)
  {
    hide WellFormed, Step, Attended, Steady, FrameFits, Reached, Code, ActorOf, CallOf, StoreFits, At, Fixed, Intact,
      Consistent;
    GentleStep(c, cp, sys, e);
    AttendedFacts(c, cp, sys);
    AttendedFacts(c, cp, Step(sys, e));
    StillRunning(sys, e, k);
    var f := sys.running[k];
    RunningFits(c, Step(sys, e), k);
    RunningReached(c, Step(sys, e), k);
    SameFresh(c, cp, sys.store, Step(sys, e).store, f);
  }

  lemma AttendedFacts(c: Config, cp: ControlPlaneSpec, sys: Sys)
    requires Attended(c, cp, sys)
    ensures WellFormed(c) && Intact(c, sys) && Consistent(c, sys)
    ensures SpecIs(c, cp, sys.store) && StoreFits(c, sys.store) && Sound(c, cp, sys.store)
  {
    hide WellFormed, Awake, StoreFits, FramesFit, Passing;
  }

  lemma StillRunning(sys: Sys, e: Event, k: Key)
    requires k in sys.running && !(e.Act? && e.key == k) && !e.Crash?
    ensures k in Step(sys, e).running && Step(sys, e).running[k] == sys.running[k]
  {
    hide Exec, Woken, TargetKey, Put, Remove, Issuable;
  }

  lemma SameFresh(c: Config, cp: ControlPlaneSpec, s: Store, s': Store, f: Frame)
    requires WellFormed(c) && SameCells(c, s, s') && Onward(c, cp, f, s)
    requires StoreFits(c, s') && SpecIs(c, cp, s') && Reached(f, s')
    ensures Onward(c, cp, f, s')
  {
    hide WellFormed, At, StoreFits, Reached, SeenCell, Fresh;
    OnwardFits(c, cp, f, s);
    OnwardIsFresh(c, cp, f, s);
    FitsReconciler(c, f);
    MemoryCell(f.key.kind);
    FreshStays(c, cp, s, s', f);
    hide FrameFits;
  }

  lemma FreshStays(c: Config, cp: ControlPlaneSpec, s: Store, s': Store, f: Frame)
    requires WellFormed(c) && SameCells(c, s, s') && FrameFits(c, f) && SpecIs(c, cp, s) && SpecIs(c, cp, s')
    requires Fresh(c, s, f) && SeenCell(f.key.kind) < CELLS
    ensures Fresh(c, s', f)
  {
    assert SameFor(c, s, s', f.key.kind) by { hide WellFormed, SameCells, FrameFits, Fresh; }
    SameResource(c, s, s', f);
    hide WellFormed, At, FrameFits, SeenCell;
  }

  // Its own call either writes the cell or brings it closer.
  lemma OwnCallHeads(c: Config, cp: ControlPlaneSpec, sys: Sys, k: Key, i: nat)
    requires WellFormed(c) && Heading(c, cp, sys, k, i) && Next(c, cp, sys.store, i)
    ensures var after := Step(sys, Act(k, true));
      if sys.running[k].pc == CallOf(i) then Right(c, cp, after.store, i + 1) else Heading(c, cp, after, k, i)
  {
    hide WellFormed, ActorOf, CallOf, Onward, Code, Exec, Right, Due, Step, StoreFits, CellOf, IsSecret, Reconciled;
    var f, s := sys.running[k], sys.store;
    OneAct(sys, k);
    ActorIsReconciled(i);
    CallOfCell(i);
    KeepsGoing(c, cp, f, s, i, CallOf(i));
    CallKeeps(c, cp, f, s, i);
    CalledNext(c, cp, f, s);
  }

  lemma CallOfCell(i: nat)
    requires i < CELLS && ActorOf(i).Reconcile?
    ensures CellOf(ActorOf(i).kind, CallOf(i)) == i
  {
    hide ActorOf, CallOf, CellOf;
  }

  // A turn that runs to its end amid steps that change no cell has put the cell right.
  lemma {:induction false} TurnRights(c: Config, cp: ControlPlaneSpec, sys: Sys, es: seq<Event>, k: Key, i: nat)
    requires WellFormed(c) && Attended(c, cp, sys) && AllGentle(c, es) && Constant(c, sys, es)
    requires Heading(c, cp, sys, k, i) && Next(c, cp, sys.store, i)
    requires k !in Run(sys, es).running
    ensures Right(c, cp, sys.store, i + 1)
    decreases |es|
  {
    hide WellFormed, Attended, Step, Right, Due, Constant, CallOf, ActorOf, Onward, SameCells, Steady;
    assert es != [];
    var e := es[0];
    var next := Step(sys, e);
    ConstantTail(c, sys, es);
    GentleStep(c, cp, sys, e);
    SameRight(c, cp, sys.store, next.store, i);
    if e.Act? && e.key == k {
      assert e == Act(k, true);
      OwnCallHeads(c, cp, sys, k, i);
    } else {
      OthersKeepHeading(c, cp, sys, e, k, i);
    }
    if !(e.Act? && e.key == k && sys.running[k].pc == CallOf(i)) {
      TurnRights(c, cp, next, es[1..], k, i);
    }
    SameRight(c, cp, next.store, sys.store, i + 1);
  }

  lemma SameRight(c: Config, cp: ControlPlaneSpec, s: Store, s': Store, r: nat)
    requires WellFormed(c) && r <= CELLS && (SameCells(c, s, s') || SameCells(c, s', s))
    ensures Right(c, cp, s, r) ==> Right(c, cp, s', r)
    ensures r < CELLS ==> Due(c, cp, s', r) == Due(c, cp, s, r)
  {
    hide WellFormed, At, Right, Due;
    SameBelow(c, cp, s, s', r);
  }

  /******* Fair segments *******/

  // A worker takes k at step a.
  ghost predicate TakenAt(sys: Sys, es: seq<Event>, k: Key, a: nat) {
    a < |es| && es[a] == Start(k, true) && k in Run(sys, es[..a]).pending && k !in Run(sys, es[..a]).running
  }

  // A worker takes k at step a, and the reconcile is over at the end of the segment.
  ghost predicate TurnAt(sys: Sys, es: seq<Event>, k: Key, a: nat) {
    TakenAt(sys, es, k, a) && k !in Run(sys, es).running
  }

  // A reconciler that is queued, waiting or running has a full turn.
  ghost predicate Served(c: Config, sys: Sys, es: seq<Event>, kind: Kind) {
    var k := ResourceKey(c, kind);
    k in sys.pending || k in sys.timers || k in sys.running ==> exists a: nat :: TurnAt(sys, es, k, a)
  }

  ghost predicate FairSegment(c: Config, sys: Sys, es: seq<Event>)
    requires WellFormed(c)
  {
    && AllGentle(c, es)
    && (forall kind :: kind in RECONCILED ==> Served(c, sys, es, kind))
    && forall a: Actor :: !a.Reconcile? ==> Environment(c, a) in es
  }

  lemma Suffix(c: Config, sys: Sys, es: seq<Event>, a: nat)
    requires WellFormed(c) && a <= |es| && Constant(c, sys, es)
    ensures SameCells(c, sys.store, Run(sys, es[..a]).store)
    ensures Constant(c, Run(sys, es[..a]), es[a..])
    ensures Run(Run(sys, es[..a]), es[a..]) == Run(sys, es)
  {
    hide WellFormed, Step, At;
    var mid := Run(sys, es[..a]);
    assert es[..a] + es[a..] == es;
    RunConcat(sys, es[..a], es[a..]);
    forall n | 0 <= n <= |es| - a
      ensures SameCells(c, mid.store, Run(mid, es[a..][..n]).store)
    {
      assert es[..a] + es[a..][..n] == es[..a + n];
      RunConcat(sys, es[..a], es[a..][..n]);
      assert SameCells(c, sys.store, Run(sys, es[..a + n]).store);
      assert SameCells(c, sys.store, Run(sys, es[..a]).store);
    }
  }

  lemma TurnBegins(c: Config, cp: ControlPlaneSpec, sys: Sys, k: Key, i: nat)
    requires WellFormed(c) && Attended(c, cp, sys) && Next(c, cp, sys.store, i)
    requires ActorOf(i).Reconcile? && k == ResourceKey(c, ActorOf(i).kind)
    requires k in sys.pending && k !in sys.running
    ensures Step(sys, Start(k, true)).store == sys.store && Heading(c, cp, Step(sys, Start(k, true)), k, i)
  {
    hide WellFormed, Attended, Right, Due, Onward, ActorOf, CallOf, StoreFits, Code, Sound;
    AttendedFacts(c, cp, sys);
    ActorIsReconciled(i);
    ResourceBehind(c, cp, sys.store, i);
    BeginsOnward(c, cp, sys.store, k);
  }

  lemma AttendedStart(c: Config, cp: ControlPlaneSpec, sys: Sys, es: seq<Event>, a: nat)
    requires WellFormed(c) && Attended(c, cp, sys) && AllGentle(c, es) && a < |es|
    ensures Attended(c, cp, Run(sys, es[..a])) && Attended(c, cp, Step(Run(sys, es[..a]), es[a]))
    ensures AllGentle(c, es[a..][1..])
  {
    hide WellFormed, Attended, Gentle, Step;
    GentleRun(c, cp, sys, es[..a]);
    GentleStep(c, cp, Run(sys, es[..a]), es[a]);
  }

  lemma TurnRightsCell(c: Config, cp: ControlPlaneSpec, sys: Sys, es: seq<Event>, a: nat, i: nat)
    requires WellFormed(c) && Attended(c, cp, sys) && AllGentle(c, es) && Constant(c, sys, es)
    requires Next(c, cp, sys.store, i) && ActorOf(i).Reconcile?
    requires TurnAt(sys, es, ResourceKey(c, ActorOf(i).kind), a)
    ensures Right(c, cp, sys.store, i + 1)
  {
    hide WellFormed, Attended, Right, Due, Constant, ActorOf, Step, SameCells, Heading, AllGentle;
    var k := ResourceKey(c, ActorOf(i).kind);
    var mid := Run(sys, es[..a]);
    var next := Step(mid, es[a]);
    AttendedStart(c, cp, sys, es, a);
    Suffix(c, sys, es, a);
    ConstantTail(c, mid, es[a..]);
    SameRight(c, cp, sys.store, mid.store, i);
    TurnBegins(c, cp, mid, k, i);
    TurnRights(c, cp, next, es[a..][1..], k, i);
    SameRight(c, cp, mid.store, sys.store, i + 1);
  }

  // A reconciler that is idle has put its cells right already.
  lemma IdleIsRight(c: Config, cp: ControlPlaneSpec, sys: Sys, i: nat)
    requires WellFormed(c) && Attended(c, cp, sys) && Next(c, cp, sys.store, i) && ActorOf(i).Reconcile?
    requires var k := ResourceKey(c, ActorOf(i).kind);
      k !in sys.pending && k !in sys.timers && k !in sys.running
    ensures Right(c, cp, sys.store, i + 1)
  {
    hide WellFormed, Right, Due, ActorOf, StoreFits, Attended, HasSpec, Did, Good, Sound, Derive, At, Prefix,
      RECONCILED;
    var s := sys.store;
    AttendedFacts(c, cp, sys);
    ActorIsReconciled(i);
    ResourceBehind(c, cp, s, i);
    IdleDid(c, cp, sys, ActorOf(i).kind);
    DidGood(c, s, i);
    if Good(c, s, i) {
      GoodMeans(c, s, i);
    } else {
      DueEndpoint(c, cp, s, i);
      assert false;
    }
    OneMoreRight(c, cp, s, i);
  }

  lemma IdleDid(c: Config, cp: ControlPlaneSpec, sys: Sys, kind: Kind)
    requires WellFormed(c) && Attended(c, cp, sys) && kind in RECONCILED && ResourceKey(c, kind) in sys.store
    requires var k := ResourceKey(c, kind); k !in sys.pending && k !in sys.timers && k !in sys.running
    ensures HasSpec(c, sys.store) && Spec(c, sys.store) == cp && Did(c, sys.store, kind, LAST)
  {
    hide WellFormed, Consistent, Passing, OnTrack, Did, Owned, RECONCILED;
    assert Covered(c, sys, kind);
  }

  // The provider or cert-manager moved and changed nothing.
  lemma MovedIsRight(c: Config, cp: ControlPlaneSpec, sys: Sys, es: seq<Event>, a: nat, i: nat)
    requires WellFormed(c) && Attended(c, cp, sys) && AllGentle(c, es) && Constant(c, sys, es)
    requires i < CELLS && !ActorOf(i).Reconcile? && Right(c, cp, sys.store, i)
    requires a < |es| && es[a] == Environment(c, ActorOf(i))
    ensures Right(c, cp, sys.store, i + 1)
  {
    hide WellFormed, Attended, Right, Constant, ActorOf, Step, SameCells, AllGentle, Environment, Sound;
    var mid := Run(sys, es[..a]);
    AttendedStart(c, cp, sys, es, a);
    AttendedFacts(c, cp, mid);
    Suffix(c, sys, es, a);
    ConstantTail(c, mid, es[a..]);
    SameRight(c, cp, sys.store, mid.store, i);
    MoveExtends(c, cp, mid.store, i);
    SameStoreMove(c, mid, ActorOf(i));
    SameRight(c, cp, Step(mid, es[a]).store, mid.store, i + 1);
    SameRight(c, cp, mid.store, sys.store, i + 1);
  }

  lemma SameStoreMove(c: Config, sys: Sys, a: Actor)
    requires WellFormed(c) && !a.Reconcile?
    ensures Step(sys, Environment(c, a)).store == Move(c, sys.store, a)
  {
    StoreOfStep(sys, Environment(c, a));
    StoreOfStep(Idle(sys.store), Environment(c, a));
    hide WellFormed, Step, KeyOf, Issuable;
  }

  lemma NextCell(c: Config, cp: ControlPlaneSpec, sys: Sys, es: seq<Event>, i: nat)
    requires WellFormed(c) && Attended(c, cp, sys) && FairSegment(c, sys, es) && Constant(c, sys, es)
    requires i < CELLS && Right(c, cp, sys.store, i)
    ensures Right(c, cp, sys.store, i + 1)
  {
    hide WellFormed, Attended, Right, Due, Constant, ActorOf, Environment, TurnAt, AllGentle, RECONCILED;
    var actor := ActorOf(i);
    if !actor.Reconcile? {
      assert Environment(c, actor) in es;
      var a :| 0 <= a < |es| && es[a] == Environment(c, actor);
      MovedIsRight(c, cp, sys, es, a, i);
    } else if Due(c, cp, sys.store, i) {
      ActorIsReconciled(i);
      var k := ResourceKey(c, actor.kind);
      assert Served(c, sys, es, actor.kind);
      if a: nat :| TurnAt(sys, es, k, a) {
        TurnRightsCell(c, cp, sys, es, a, i);
      } else {
        IdleIsRight(c, cp, sys, i);
      }
    } else {
      OneMoreRight(c, cp, sys.store, i);
    }
  }

  lemma {:induction false} StillSegment(c: Config, cp: ControlPlaneSpec, sys: Sys, es: seq<Event>, i: nat)
    requires WellFormed(c) && Attended(c, cp, sys) && FairSegment(c, sys, es) && Constant(c, sys, es)
    requires i <= CELLS
    ensures Right(c, cp, sys.store, i)
  {
    hide WellFormed, Attended, FairSegment, Constant, Wrong;
    if i > 0 {
      StillSegment(c, cp, sys, es, i - 1);
      hide Right;
      NextCell(c, cp, sys, es, i - 1);
    }
  }

  ghost predicate RightThroughout(c: Config, cp: ControlPlaneSpec, sys: Sys, es: seq<Event>)
    requires WellFormed(c)
  {
    forall n :: 0 <= n <= |es| ==> Right(c, cp, Run(sys, es[..n]).store, CELLS)
  }

  // A fair segment without an effective step: there is nothing left to do.
  lemma StillIsRight(c: Config, cp: ControlPlaneSpec, sys: Sys, es: seq<Event>)
    requires WellFormed(c) && Attended(c, cp, sys) && FairSegment(c, sys, es)
    requires EffectiveSteps(c, sys, es) == 0
    ensures RightThroughout(c, cp, sys, es)
    ensures Addressed(c) ==> forall n :: 0 <= n <= |es| ==> AtTarget(c, cp, Run(sys, es[..n]).store)
  {
    hide WellFormed, Attended, FairSegment, Right, Settled, SameCells, Run, EffectiveSteps;
    NoEffectIsConstant(c, sys, es);
    StillSegment(c, cp, sys, es, CELLS);
    forall n | 0 <= n <= |es|
      ensures Right(c, cp, Run(sys, es[..n]).store, CELLS)
      ensures Addressed(c) ==> AtTarget(c, cp, Run(sys, es[..n]).store)
    {
      SameRight(c, cp, sys.store, Run(sys, es[..n]).store, CELLS);
      if Addressed(c) { RightIsSettled(c, cp, Run(sys, es[..n]).store, CELLS); }
    }
  }

  /******* Fair segments exist *******/

  // What a worker does for k.
  ghost predicate WorkFor(es: seq<Event>, k: Key) {
    forall i :: 0 <= i < |es| ==> es[i] in {Start(k, true), Act(k, true), Resync(k)}
  }

  // Whatever the state, a worker can finish what is in progress for k and give it a turn.
  lemma OneTurn(sys: Sys, k: Key) returns (es: seq<Event>, a: nat)
    ensures WorkFor(es, k) && TakenAt(sys, es, k, a)
    ensures Run(sys, es).running == sys.running - {k}
  {
    hide Step, Pass;
    var rest := [];
    if k in sys.running {
      rest := RestIsARun(sys, k);
    }
    var mid := Run(sys, rest);
    var queued := Step(mid, Resync(k));
    ResyncQueues(mid, k);
    var pass := PassIsARun(queued, k);
    RunOne(mid, Resync(k), pass);
    RunOne(mid, Resync(k), []);
    RunConcat(sys, rest, [Resync(k)] + pass);
    RunConcat(sys, rest, [Resync(k)] + []);
    es, a := rest + ([Resync(k)] + pass), |rest| + 1;
    assert es[..a] == rest + ([Resync(k)] + []);
  }

  lemma ResyncQueues(sys: Sys, k: Key)
    ensures Step(sys, Resync(k)).running == sys.running && k in Step(sys, Resync(k)).pending
  {}

  ghost predicate HasTurn(sys: Sys, es: seq<Event>, k: Key) {
    exists a: nat :: TakenAt(sys, es, k, a)
  }

  lemma TakenEarlier(sys: Sys, first: seq<Event>, second: seq<Event>, k: Key)
    requires HasTurn(sys, first, k) || HasTurn(Run(sys, first), second, k)
    ensures HasTurn(sys, first + second, k)
  {
    hide Step, Run;
    if a: nat :| TakenAt(sys, first, k, a) {
      assert (first + second)[..a] == first[..a];
      assert TakenAt(sys, first + second, k, a);
    } else {
      var b: nat :| TakenAt(Run(sys, first), second, k, b);
      assert (first + second)[..|first| + b] == first + second[..b];
      RunConcat(sys, first, second[..b]);
      assert TakenAt(sys, first + second, k, |first| + b);
    }
  }

  lemma WorkIsGentle(c: Config, es: seq<Event>, k: Key)
    requires WellFormed(c) && WorkFor(es, k)
    ensures AllGentle(c, es)
  {
    hide WellFormed, KeyOf;
    forall i | 0 <= i < |es|
      ensures Gentle(c, es[i])
    {
      assert es[i] in {Start(k, true), Act(k, true), Resync(k)};
    }
  }

  lemma {:induction false} Turns(c: Config, sys: Sys, kinds: seq<Kind>) returns (es: seq<Event>)
    requires WellFormed(c)
    ensures AllGentle(c, es)
    ensures forall kind :: kind in kinds ==> HasTurn(sys, es, ResourceKey(c, kind))
    ensures forall k :: k in Run(sys, es).running ==>
      k in sys.running && forall kind :: kind in kinds ==> k != ResourceKey(c, kind)
    decreases |kinds|
  {
    hide WellFormed, Step, Run, Gentle, HasTurn, ResourceKey;
    if kinds == [] {
      es := [];
      NoEvents(sys);
    } else {
      var k := ResourceKey(c, kinds[0]);
      var first, a := OneTurn(sys, k);
      WorkIsGentle(c, first, k);
      assert HasTurn(sys, first, k) by { TurnTaken(sys, first, k, a); }
      var second := Turns(c, Run(sys, first), kinds[1..]);
      es := first + second;
      RunConcat(sys, first, second);
      forall kind | kind in kinds
        ensures HasTurn(sys, es, ResourceKey(c, kind))
      {
        assert kind == kinds[0] || kind in kinds[1..];
        TakenEarlier(sys, first, second, ResourceKey(c, kind));
      }
    }
  }

  lemma NoEvents(sys: Sys)
    ensures Run(sys, []) == sys
  {}

  lemma TurnTaken(sys: Sys, es: seq<Event>, k: Key, a: nat)
    requires TakenAt(sys, es, k, a)
    ensures HasTurn(sys, es, k)
  {}

  // One move of the provider and one of cert-manager for each certificate.
  function EnvironmentMoves(c: Config): seq<Event>
    requires WellFormed(c)
  {
    [Environment(c, Provide)] + seq(7, j requires 0 <= j < 7 => Environment(c, Sign(j)))
  }

  lemma MovesAreGentle(c: Config)
    requires WellFormed(c)
    ensures AllGentle(c, EnvironmentMoves(c)) && |EnvironmentMoves(c)| == 8
    ensures forall i :: 0 <= i < 8 ==> EnvironmentMoves(c)[i].Assign? || EnvironmentMoves(c)[i].Issue?
    ensures forall a: Actor :: !a.Reconcile? ==> Environment(c, a) in EnvironmentMoves(c)
  {
    hide WellFormed, Steady, Environment;
    var es := EnvironmentMoves(c);
    forall i | 0 <= i < 8
      ensures (es[i].Assign? || es[i].Issue?) && Gentle(c, es[i])
    {
      var actor := if i == 0 then Provide else Sign(i - 1);
      NotAnAct(c, actor);
      EnvironmentIsSteady(c, actor);
    }
    forall a: Actor | !a.Reconcile?
      ensures Environment(c, a) in es
    {
      assert Environment(c, a) == es[if a.Provide? then 0 else a.certificate + 1];
    }
  }

  lemma {:induction false} MovesKeepFrames(sys: Sys, es: seq<Event>)
    requires forall i :: 0 <= i < |es| ==> es[i].Assign? || es[i].Issue?
    ensures Run(sys, es).running == sys.running
  {
    hide Woken, Put, Issuable;
    if es != [] {
      MovesKeepFrames(sys, es[..|es| - 1]);
    }
  }

  const ALL_KINDS := [ControlPlane, Loadbalancer, Pki, KubeAPIServer, KubeControllerManager, KubeScheduler]

  // From every state, whatever is in progress, the run can go on with a fair segment.
  lemma FairSegmentExists(c: Config, sys: Sys) returns (es: seq<Event>)
    requires WellFormed(c)
    ensures FairSegment(c, sys, es)
  {
    hide WellFormed, Step, Run, Gentle, HasTurn, ResourceKey, EnvironmentMoves, TakenAt, Environment;
    var turns := Turns(c, sys, ALL_KINDS);
    var moves := EnvironmentMoves(c);
    es := turns + moves;
    MovesAreGentle(c);
    MovesKeepFrames(Run(sys, turns), moves);
    RunConcat(sys, turns, moves);
    forall kind | kind in RECONCILED
      ensures Served(c, sys, es, kind)
    {
      var k := ResourceKey(c, kind);
      assert kind in ALL_KINDS;
      TakenEarlier(sys, turns, moves, k);
      TakenOnce(sys, es, k);
    }
  }

  lemma TakenOnce(sys: Sys, es: seq<Event>, k: Key)
    requires HasTurn(sys, es, k) && k !in Run(sys, es).running
    ensures exists a: nat :: TurnAt(sys, es, k, a)
  {
    hide TakenAt;
    var a: nat :| TakenAt(sys, es, k, a);
    assert TurnAt(sys, es, k, a);
  }

  /******* Fair runs *******/

  function RunAll(sys: Sys, segments: seq<seq<Event>>): Sys {
    if segments == [] then sys
    else Run(RunAll(sys, segments[..|segments| - 1]), segments[|segments| - 1])
  }

  ghost predicate FairRun(c: Config, sys: Sys, segments: seq<seq<Event>>)
    requires WellFormed(c)
  {
    forall m :: 0 <= m < |segments| ==> FairSegment(c, RunAll(sys, segments[..m]), segments[m])
  }

  // The number of segments in which some cell is wrong at some moment.
  ghost function Restless(c: Config, cp: ControlPlaneSpec, sys: Sys, segments: seq<seq<Event>>): nat
    requires WellFormed(c)
  {
    if segments == [] then 0
    else
      var init, last := segments[..|segments| - 1], segments[|segments| - 1];
      Restless(c, cp, sys, init) + if RightThroughout(c, cp, RunAll(sys, init), last) then 0 else 1
  }

  lemma SegmentCost(c: Config, cp: ControlPlaneSpec, sys: Sys, es: seq<Event>)
    requires WellFormed(c) && Attended(c, cp, sys) && FairSegment(c, sys, es)
    ensures Attended(c, cp, Run(sys, es))
    ensures Measure(c, cp, Run(sys, es)) + (if RightThroughout(c, cp, sys, es) then 0 else 1) <= Measure(c, cp, sys)
  {
    GentleSegment(c, sys, es);
    hide WellFormed, FairSegment, RightThroughout, Measure, EffectiveSteps, Run, Fixed, Awake, AllGentle, AllSteady;
    assert Fixed(c, cp, sys);
    GentleRun(c, cp, sys, es);
    EffectiveStepsAreBounded(c, cp, sys, es);
    if EffectiveSteps(c, sys, es) == 0 {
      StillIsRight(c, cp, sys, es);
    }
  }

  lemma GentleSegment(c: Config, sys: Sys, es: seq<Event>)
    requires WellFormed(c) && FairSegment(c, sys, es)
    ensures AllGentle(c, es) && AllSteady(c, es)
  {
    hide WellFormed, Steady, Served, Environment;
  }

  // In all but at most Measure of the segments of a fair run every cell agrees with its
  // equation from beginning to end, so every long enough fair run settles, whatever its
  // schedule.
  lemma {:induction false} FairRunsSettle(c: Config, cp: ControlPlaneSpec, sys: Sys, segments: seq<seq<Event>>)
    requires WellFormed(c) && Attended(c, cp, sys) && FairRun(c, sys, segments)
    ensures Attended(c, cp, RunAll(sys, segments))
    ensures Restless(c, cp, sys, segments) + Measure(c, cp, RunAll(sys, segments)) <= Measure(c, cp, sys)
  {
    hide WellFormed, Attended, FairSegment, Measure, RightThroughout;
    if segments != [] {
      var m := |segments| - 1;
      assert forall n :: 0 <= n <= m ==> segments[..m][..n] == segments[..n];
      FairRunsSettle(c, cp, sys, segments[..m]);
      SegmentCost(c, cp, RunAll(sys, segments[..m]), segments[m]);
    }
  }

  /******* Unbounded runs *******/

  // The first n segments of an unbounded sequence.
  function First(segments: nat -> seq<Event>, n: nat): seq<seq<Event>> {
    seq(n, m requires 0 <= m => segments(m))
  }

  // Every segment is fair in the state that it starts from.
  ghost predicate FairForever(c: Config, sys: Sys, segments: nat -> seq<Event>)
    requires WellFormed(c)
  {
    forall n: nat :: FairSegment(c, RunAll(sys, First(segments, n)), segments(n))
  }

  ghost predicate RightIn(c: Config, cp: ControlPlaneSpec, sys: Sys, segments: nat -> seq<Event>, n: nat)
    requires WellFormed(c)
  {
    RightThroughout(c, cp, RunAll(sys, First(segments, n)), segments(n))
  }

  lemma NextSegment(c: Config, cp: ControlPlaneSpec, sys: Sys, segments: nat -> seq<Event>, n: nat)
    requires WellFormed(c)
    ensures Restless(c, cp, sys, First(segments, n + 1)) ==
      Restless(c, cp, sys, First(segments, n)) + if RightIn(c, cp, sys, segments, n) then 0 else 1
  {
    hide WellFormed, RightThroughout, RunAll;
    assert First(segments, n + 1)[..n] == First(segments, n);
  }

  lemma {:induction false} MoreRestless(c: Config, cp: ControlPlaneSpec, sys: Sys, segments: nat -> seq<Event>,
                                        n: nat, m: nat)
    requires WellFormed(c) && n <= m
    ensures Restless(c, cp, sys, First(segments, n)) <= Restless(c, cp, sys, First(segments, m))
    decreases m - n
  {
    hide WellFormed, Restless, First;
    if n < m {
      MoreRestless(c, cp, sys, segments, n, m - 1);
      NextSegment(c, cp, sys, segments, m - 1);
    }
  }

  lemma FirstIsFair(c: Config, sys: Sys, segments: nat -> seq<Event>, n: nat)
    requires WellFormed(c) && FairForever(c, sys, segments)
    ensures FairRun(c, sys, First(segments, n))
  {
    hide WellFormed, FairSegment, RunAll;
    forall m | 0 <= m < n
      ensures FairSegment(c, RunAll(sys, First(segments, n)[..m]), First(segments, n)[m])
    {
      assert First(segments, n)[..m] == First(segments, m);
    }
  }

  // The search ends because only so many segments are restless.
  lemma {:induction false} SettlesAfter(c: Config, cp: ControlPlaneSpec, sys: Sys, segments: nat -> seq<Event>, n: nat)
    returns (from: nat)
    requires WellFormed(c) && Attended(c, cp, sys) && FairForever(c, sys, segments)
    ensures forall m: nat :: from <= m ==> RightIn(c, cp, sys, segments, m)
    decreases Measure(c, cp, sys) - Restless(c, cp, sys, First(segments, n))
  {
    hide WellFormed, Attended, FairForever, Restless, First, Measure, RightIn, RunAll;
    if m: nat :| n <= m && !RightIn(c, cp, sys, segments, m) {
      NextSegment(c, cp, sys, segments, m);
      MoreRestless(c, cp, sys, segments, n, m);
      FirstIsFair(c, sys, segments, m + 1);
      FairRunsSettle(c, cp, sys, First(segments, m + 1));
      from := SettlesAfter(c, cp, sys, segments, m + 1);
    } else {
      from := n;
    }
  }

  // In every unbounded fair run there is a segment from which on every object agrees with
  // its equation for good, and with an address holds its target.
  lemma FairRunsSettleForGood(c: Config, cp: ControlPlaneSpec, sys: Sys, segments: nat -> seq<Event>)
    returns (from: nat)
    requires WellFormed(c) && Attended(c, cp, sys) && FairForever(c, sys, segments)
    ensures forall m: nat :: from <= m ==> RightIn(c, cp, sys, segments, m)
    ensures Addressed(c) ==>
      forall m: nat :: from <= m ==> AtTarget(c, cp, RunAll(sys, First(segments, m)).store)
  {
    hide WellFormed, Attended, FairForever, Right, Settled, RunAll, First;
    from := SettlesAfter(c, cp, sys, segments, 0);
    if Addressed(c) {
      forall m: nat | from <= m
        ensures AtTarget(c, cp, RunAll(sys, First(segments, m)).store)
      {
        assert RightIn(c, cp, sys, segments, m);
        RightAtStart(c, cp, RunAll(sys, First(segments, m)), segments(m));
        RightIsSettled(c, cp, RunAll(sys, First(segments, m)).store, CELLS);
      }
    }
  }

  lemma RightAtStart(c: Config, cp: ControlPlaneSpec, sys: Sys, es: seq<Event>)
    requires WellFormed(c) && RightThroughout(c, cp, sys, es)
    ensures Right(c, cp, sys.store, CELLS)
  {
    hide WellFormed, Right, Step;
    assert es[..0] == [];
  }
}
