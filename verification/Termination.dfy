// With the ControlPlane spec, the ingress and the issued key pairs fixed, the number of
// effective writes is bounded, whatever the interleaving, however stale the reads and
// whichever calls fail.  The measure reads one digit per cell and one per possible lag of
// a reconcile behind the cells it read, most significant first.
module Termination {
  import opened Api
  import opened Programs
  import opened Machine
  import opened Integrity
  import opened Cells
  import opened Settling
  import opened Invariant

  /******* Numbers by digits *******/

  const BASE := 64

  function Value(digits: seq<nat>): nat {
    if digits == [] then 0 else Value(digits[..|digits| - 1]) * BASE + digits[|digits| - 1]
  }

  ghost predicate PointwiseAtMost(a: seq<nat>, b: seq<nat>) {
    |a| == |b| && forall i :: 0 <= i < |a| ==> a[i] <= b[i]
  }

  lemma {:induction false} ValueMonotone(a: seq<nat>, b: seq<nat>)
    requires PointwiseAtMost(a, b)
    ensures Value(a) <= Value(b)
  {
    if a != [] {
      ValueMonotone(a[..|a| - 1], b[..|b| - 1]);
    }
  }

  // A smaller digit after digits that did not grow makes the number smaller.
  lemma {:induction false} ValueDecreases(a: seq<nat>, b: seq<nat>, r: nat)
    requires |a| == |b| && r < |a| && a[r] < b[r]
    requires forall i :: 0 <= i < r ==> a[i] <= b[i]
    requires forall i :: 0 <= i < |a| ==> a[i] < BASE
    ensures Value(a) < Value(b)
    decreases |a|
  {
    var n := |a| - 1;
    if r == n {
      ValueMonotone(a[..n], b[..n]);
    } else {
      ValueDecreases(a[..n], b[..n], r);
    }
  }

  /******* Digits *******/

  // Calls left to a reconcile.
  function Left(f: Frame): nat {
    if f.pc <= LAST then LAST + 1 - f.pc else 0
  }

  function ResourceKey(c: Config, kind: Kind): Key { Key(kind, c.ns, c.name) }

  // Calls left to a reconcile whose custom resource has changed since it was read.
  function BehindResource(c: Config, sys: Sys, kind: Kind): nat {
    var k := ResourceKey(c, kind);
    if k in sys.running && BodyAt(sys.store, k) != Some(sys.running[k].body) then Left(sys.running[k]) else 0
  }

  // Calls left to a reconcile whose remembered status has changed since it was read.
  function BehindStatus(c: Config, sys: Sys, kind: Kind): nat
    requires WellFormed(c)
  {
    var k := ResourceKey(c, kind);
    if k in sys.running && sys.running[k].pc > 0 && sys.running[k].seen != At(c, sys.store, SeenCell(kind))
    then Left(sys.running[k])
    else 0
  }

  // The lag that comes just before cell i.
  function Lag(c: Config, sys: Sys, i: nat): nat
    requires WellFormed(c)
  {
    if i == LB then BehindResource(c, sys, ControlPlane)
    else if i == SERVICE then BehindResource(c, sys, Loadbalancer)
    else if i == LB_STATUS then BehindStatus(c, sys, Loadbalancer)
    else if i == PKI then BehindStatus(c, sys, ControlPlane)
    else if i == ROOT_ISSUER then
      BehindResource(c, sys, Pki) + BehindResource(c, sys, KubeAPIServer) +
      BehindResource(c, sys, KubeControllerManager) + BehindResource(c, sys, KubeScheduler)
    else 0
  }

  function Wrong(c: Config, cp: ControlPlaneSpec, s: Store, i: nat): nat
    requires WellFormed(c) && i < CELLS
  {
    var d := Derive(c, cp, i, Prefix(c, s, i));
    if d.Some? && At(c, s, i) != d then 1 else 0
  }

  function Digit(c: Config, cp: ControlPlaneSpec, sys: Sys, r: nat): nat
    requires WellFormed(c) && r < 2 * CELLS
  {
    if r % 2 == 0 then Lag(c, sys, r / 2) else Wrong(c, cp, sys.store, r / 2)
  }

  function Digits(c: Config, cp: ControlPlaneSpec, sys: Sys): seq<nat>
    requires WellFormed(c)
  {
    seq(2 * CELLS, r requires 0 <= r < 2 * CELLS => Digit(c, cp, sys, r))
  }

  function Measure(c: Config, cp: ControlPlaneSpec, sys: Sys): nat
    requires WellFormed(c)
  {
    Value(Digits(c, cp, sys))
  }

  lemma DigitsAreSmall(c: Config, cp: ControlPlaneSpec, sys: Sys)
    requires WellFormed(c)
    ensures forall r :: 0 <= r < 2 * CELLS ==> Digits(c, cp, sys)[r] < BASE
  {
    hide WellFormed, At, Derive;
  }

  /******* Steps *******/

  // The stored spec is fixed; reconciles in progress may have read an older one.
  ghost predicate Fixed(c: Config, cp: ControlPlaneSpec, sys: Sys) {
    Intact(c, sys) && BodyAt(sys.store, ControlPlaneKey(c)) == Some(ControlPlaneBody(cp))
  }

  // Nobody edits the namespace or deletes from it, and the provider assigns the one ingress.
  ghost predicate Steady(c: Config, e: Event)
    requires WellFormed(c)
  {
    && Calm(c, e)
    && (e.Crash? || e.key.ns != c.ns ||
         (!e.Edit? && !e.Tamper? && !Removes(e) &&
            (e.Assign? && e.key == KeyOf(c, SERVICE) ==> e.ingress == c.ingress)))
  }

  lemma FixedAndSteady(c: Config, cp: ControlPlaneSpec, sys: Sys, e: Event)
    requires WellFormed(c) && Fixed(c, cp, sys) && Steady(c, e)
    ensures Intact(c, sys) && Consistent(c, sys) && Calm(c, e) && KeepsPairs(c, e)
    ensures Removes(e) ==> e.key.ns != c.ns
  {
    hide WellFormed, Consistent, Passing, Calm, NameOf, KindOf;
  }

  // A steady step that changes a cell deletes nothing.
  lemma SteadyChange(c: Config, cp: ControlPlaneSpec, sys: Sys, e: Event, i: nat)
    requires WellFormed(c) && Fixed(c, cp, sys) && Steady(c, e) && i < CELLS
    requires At(c, Step(sys, e).store, i) != At(c, sys.store, i)
    ensures !Removes(e)
  {
    hide WellFormed, Fixed, Steady, Step, At, KeyOf, Calm, Consistent;
    FixedAndSteady(c, cp, sys, e);
    if Removes(e) {
      RemovedCell(c, sys, e, i);
    }
  }

  ghost predicate SameCellsBelow(c: Config, s: Store, s': Store, n: nat)
    requires WellFormed(c)
  {
    forall j :: 0 <= j < n && j < CELLS ==> At(c, s', j) == At(c, s, j)
  }

  lemma SameWrong(c: Config, cp: ControlPlaneSpec, s: Store, s': Store, i: nat)
    requires WellFormed(c) && i < CELLS && SameCellsBelow(c, s, s', i + 1)
    ensures Wrong(c, cp, s', i) == Wrong(c, cp, s, i)
  {
    hide WellFormed, At, Derive;
    assert Prefix(c, s', i) == Prefix(c, s, i);
  }

  // How a frame of the next state lags behind, compared with the one before.
  lemma FrameLag(c: Config, sys: Sys, e: Event, k: Key)
    requires k in Step(sys, e).running
    ensures
      || (k in sys.running && Step(sys, e).running[k].body == sys.running[k].body &&
            (Step(sys, e).running[k] == sys.running[k] || Step(sys, e).running[k].pc == sys.running[k].pc + 1))
      || (Step(sys, e).running[k].pc == 0 && BodyAt(sys.store, k) == Some(Step(sys, e).running[k].body)
            && Step(sys, e).store == sys.store)
  {
    FramesOfStep(sys, e, k);
    StoreOfStep(sys, e);
    if e.Act? && e.key == k && k in sys.running {
      Advanced(sys.running[k], sys.store, e.ok);
    }
    hide Step, Exec;
  }

  lemma ResourceLag(c: Config, sys: Sys, e: Event, kind: Kind)
    requires BodyAt(Step(sys, e).store, ResourceKey(c, kind)) == BodyAt(sys.store, ResourceKey(c, kind))
    ensures BehindResource(c, Step(sys, e), kind) <= BehindResource(c, sys, kind)
    ensures e.Act? && e.key == ResourceKey(c, kind) && 0 < BehindResource(c, sys, kind) ==>
      BehindResource(c, Step(sys, e), kind) < BehindResource(c, sys, kind)
  {
    var k := ResourceKey(c, kind);
    if k in Step(sys, e).running {
      FrameLag(c, sys, e, k);
      FramesOfStep(sys, e, k);
      if e.Act? && e.key == k && k in sys.running {
        Advanced(sys.running[k], sys.store, e.ok);
      }
    }
    hide Step, Exec;
  }

  lemma StatusLag(c: Config, sys: Sys, e: Event, kind: Kind)
    requires Consistent(c, sys) && kind in {ControlPlane, Loadbalancer}
    requires At(c, Step(sys, e).store, SeenCell(kind)) == At(c, sys.store, SeenCell(kind))
    ensures BehindStatus(c, Step(sys, e), kind) <= BehindStatus(c, sys, kind)
    ensures e.Act? && e.key == ResourceKey(c, kind) && 0 < BehindStatus(c, sys, kind) ==>
      BehindStatus(c, Step(sys, e), kind) < BehindStatus(c, sys, kind)
  {
    var k := ResourceKey(c, kind);
    if k in Step(sys, e).running {
      FrameLag(c, sys, e, k);
      FramesOfStep(sys, e, k);
      if e.Act? && e.key == k && k in sys.running {
        var f := sys.running[k];
        Advanced(f, sys.store, e.ok);
        assert Remembered(f.body) == 0 by { hide WellFormed, StoreFits, Conforms; assert FrameFits(c, f); }
        if f.pc == 0 {
          SeenFits(c, sys.store, f, e.ok);
        }
      }
    }
    hide Step, Exec, WellFormed, At, StoreFits, FramesFit;
  }

  ghost predicate SpecKept(c: Config, sys: Sys, e: Event) {
    BodyAt(Step(sys, e).store, ControlPlaneKey(c)) == BodyAt(sys.store, ControlPlaneKey(c))
  }

  // No lag grows as long as the spec and the cells before it stay.
  lemma LagDoesNotGrow(c: Config, sys: Sys, e: Event, i: nat)
    requires Consistent(c, sys) && SpecKept(c, sys, e) && SameCellsBelow(c, sys.store, Step(sys, e).store, i)
    ensures Lag(c, Step(sys, e), i) <= Lag(c, sys, i)
  {
    var s, s' := sys.store, Step(sys, e).store;
    ResourceCells(c);
    if i == LB {
      ResourceLag(c, sys, e, ControlPlane);
    } else if i == SERVICE {
      assert At(c, s', LB) == At(c, s, LB);
      ResourceLag(c, sys, e, Loadbalancer);
    } else if i == LB_STATUS {
      assert At(c, s', INGRESS) == At(c, s, INGRESS);
      StatusLag(c, sys, e, Loadbalancer);
    } else if i == PKI {
      assert At(c, s', LB_STATUS) == At(c, s, LB_STATUS);
      StatusLag(c, sys, e, ControlPlane);
    } else if i == ROOT_ISSUER {
      assert At(c, s', PKI) == At(c, s, PKI) && At(c, s', KAS) == At(c, s, KAS);
      assert At(c, s', KCM) == At(c, s, KCM) && At(c, s', KS) == At(c, s, KS);
      ResourceLag(c, sys, e, Pki);
      ResourceLag(c, sys, e, KubeAPIServer);
      ResourceLag(c, sys, e, KubeControllerManager);
      ResourceLag(c, sys, e, KubeScheduler);
    }
    hide Step, WellFormed, StoreFits, FramesFit, BehindResource, BehindStatus;
  }

  lemma ResourceCells(c: Config)
    requires WellFormed(c)
    ensures KeyOf(c, LB) == ResourceKey(c, Loadbalancer) && KeyOf(c, PKI) == ResourceKey(c, Pki)
    ensures KeyOf(c, KAS) == ResourceKey(c, KubeAPIServer) && KeyOf(c, KS) == ResourceKey(c, KubeScheduler)
    ensures KeyOf(c, KCM) == ResourceKey(c, KubeControllerManager)
  {
    hide SecretNames, Distinct;
  }

  lemma DigitsDoNotGrow(c: Config, cp: ControlPlaneSpec, sys: Sys, e: Event, r: nat)
    requires Consistent(c, sys) && SpecKept(c, sys, e)
    requires r < 2 * CELLS && SameCellsBelow(c, sys.store, Step(sys, e).store, (r + 1) / 2)
    ensures Digit(c, cp, Step(sys, e), r) <= Digit(c, cp, sys, r)
  {
    if r % 2 == 0 {
      LagDoesNotGrow(c, sys, e, r / 2);
    } else {
      SameWrong(c, cp, sys.store, Step(sys, e).store, r / 2);
    }
    hide Step, WellFormed, StoreFits, FramesFit, Lag, Wrong;
  }

  // Where the lag of a reconciler behind its resource, or behind the status it follows,
  // is counted.
  function ResourceLagAt(kind: Kind): nat {
    if kind == ControlPlane then LB else if kind == Loadbalancer then SERVICE else ROOT_ISSUER
  }

  function StatusLagAt(kind: Kind): nat {
    if kind == ControlPlane then PKI else LB_STATUS
  }

  ghost predicate Lags(c: Config, sys: Sys, kind: Kind, l: nat)
    requires WellFormed(c)
  {
    || (l == ResourceLagAt(kind) && 0 < BehindResource(c, sys, kind))
    || (kind in {ControlPlane, Loadbalancer} && l == StatusLagAt(kind) && 0 < BehindStatus(c, sys, kind))
  }

  // A reconcile whose reads are out of date lags; the cell it writes comes later.
  lemma OutOfDate(c: Config, cp: ControlPlaneSpec, sys: Sys, f: Frame) returns (l: nat)
    requires WellFormed(c) && Fixed(c, cp, sys)
    requires f.key in sys.running && f == sys.running[f.key] && f.key.ns == c.ns
    requires CallFits(c, f) && !Code(f).Fetch? && !Fresh(c, sys.store, f)
    ensures l <= CellOf(f.key.kind, f.pc) && l < CELLS
    ensures f.key == ResourceKey(c, f.key.kind) && Reconciled(f.key.kind) && Lags(c, sys, f.key.kind, l)
  {
    hide Fixed, Consistent, WellFormed, StoreFits, FrameFits, CallFits, Reached, Code, At, SeenCell, CellFits, CellOf;
    var kind := f.key.kind;
    l := ResourceLagAt(kind);
    InProgress(c, cp, sys, f);
    WritesAfter(f.key.kind, f.pc);
    if BodyAt(sys.store, f.key) == Some(f.body) {
      if kind in {ControlPlane, Loadbalancer} {
        l := StatusLagAt(kind);
      } else {
        SeenIsCurrent(c, sys.store, f);
        assert false;
      }
    }
  }

  lemma InProgress(c: Config, cp: ControlPlaneSpec, sys: Sys, f: Frame)
    requires Fixed(c, cp, sys) && f.key in sys.running && f == sys.running[f.key] && f.key.ns == c.ns
    requires CallFits(c, f)
    ensures WellFormed(c) && StoreFits(c, sys.store) && FrameFits(c, f) && Reached(f, sys.store)
    ensures f.key == ResourceKey(c, f.key.kind) && Reconciled(f.key.kind) && f.pc < LAST
    ensures CellOf(f.key.kind, f.pc) < CELLS
    ensures f.key.kind in {ControlPlane, Loadbalancer} ==> Remembered(f.body) == 0
  {
    assert f.pc < LAST by {
      hide ControlPlaneCode, LoadbalancerCode, PkiCode, KasCode, KcmCode, KsCode, WellFormed, StoreFits, FrameFits;
    }
    hide WellFormed, StoreFits, Reached, Code, CellOf, Conforms;
    RunningReached(c, sys, f.key);
  }

  // Whatever a reconcile writes comes after the cells that it reads.
  lemma WritesAfter(kind: Kind, pc: nat)
    requires Reconciled(kind) && CellOf(kind, pc) < CELLS
    ensures kind == Loadbalancer ==> SERVICE <= CellOf(kind, pc) && (pc > 0 ==> LB_STATUS <= CellOf(kind, pc))
    ensures kind == ControlPlane && pc > 0 ==> PKI <= CellOf(kind, pc)
    ensures kind !in {ControlPlane, Loadbalancer} ==> ROOT_ISSUER <= CellOf(kind, pc)
  {}

  // A key pair that a reconcile has fetched is the one that is stored.
  lemma SeenIsCurrent(c: Config, s: Store, f: Frame)
    requires WellFormed(c) && StoreFits(c, s) && FrameFits(c, f) && Reached(f, s)
    requires f.key.kind !in {ControlPlane, Loadbalancer} && f.pc > Remembered(f.body)
    ensures f.seen == At(c, s, SeenCell(f.key.kind))
  {
    var i := SeenCell(f.key.kind);
    RememberedGate(c, f);
    GatePassed(c, s, f, Remembered(f.body));
    assert At(c, s, i).Some? && CellFits(c, i, At(c, s, i).value) && CellFits(c, i, f.seen.value) by {
      hide SecretNames, Distinct, ResourceFits, Reached, NameOf, CellFits;
    }
    hide SecretNames, Distinct, StoreFits, FrameFits, Reached, NameOf, Needed;
  }

  lemma RememberedGate(c: Config, f: Frame)
    requires WellFormed(c) && FrameFits(c, f) && f.key.kind !in {ControlPlane, Loadbalancer}
    ensures Needed(f.key, f.body, Remembered(f.body)).Some?
    ensures CellOf(f.key.kind, Remembered(f.body)) == SeenCell(f.key.kind)
  {
    hide SecretNames, Distinct, PkiConforms, KasConforms, KcmConforms, Conforms;
  }

  lemma WrongDrops(c: Config, cp: ControlPlaneSpec, s: Store, s': Store, i: nat)
    requires WellFormed(c) && i < CELLS && SameCellsBelow(c, s, s', i)
    requires At(c, s', i).Some? && At(c, s', i) != At(c, s, i)
    requires Derive(c, cp, i, Prefix(c, s, i)) == At(c, s', i)
    ensures Wrong(c, cp, s', i) < Wrong(c, cp, s, i)
  {
    hide WellFormed, At, Derive;
    assert Prefix(c, s', i) == Prefix(c, s, i);
  }

  // The digit that drops when cell i is written.
  lemma Pivot(c: Config, cp: ControlPlaneSpec, sys: Sys, e: Event, i: nat) returns (r: nat)
    requires WellFormed(c) && Fixed(c, cp, sys) && Steady(c, e) && i < CELLS
    requires At(c, Step(sys, e).store, i) != At(c, sys.store, i)
    ensures r <= 2 * i + 1
    ensures Digit(c, cp, Step(sys, e), r) < Digit(c, cp, sys, r)
  {
    hide WellFormed, Step, Lag, Wrong, At, Fixed, Steady, Consistent, Calm, WrittenByLaggard, WrittenNow, Derive,
      Prefix, IssuedNow, AssignedNow, TamperedNow, KeyOf, SpecKept, Removes;
    FixedAndSteady(c, cp, sys, e);
    SpecStays(c, sys, e);
    SteadyChange(c, cp, sys, e, i);
    CellChange(c, sys, e, i);
    if WrittenByLaggard(c, sys, e, i) {
      var l := LaggingWrite(c, cp, sys, e, i);
      r := 2 * l;
    } else {
      WrittenAsDerived(c, cp, sys, e, i);
      WrongDrops(c, cp, sys.store, Step(sys, e).store, i);
      r := 2 * i + 1;
    }
  }

  lemma LaggingWrite(c: Config, cp: ControlPlaneSpec, sys: Sys, e: Event, i: nat) returns (l: nat)
    requires WellFormed(c) && Fixed(c, cp, sys) && i < CELLS && WrittenByLaggard(c, sys, e, i)
    requires SpecKept(c, sys, e) && SameCellsBelow(c, sys.store, Step(sys, e).store, i)
    ensures l <= i && Lag(c, Step(sys, e), l) < Lag(c, sys, l)
  {
    hide WellFormed, Step, Lag, At, FrameFits, Consistent, KeyOf, ResourceKey, Fresh, Code, CellOf, Passing, CellFits,
      BehindResource, BehindStatus, Reconciled, Lags, SpecKept;
    var f := sys.running[e.key];
    RunningFits(c, sys, e.key);
    l := OutOfDate(c, cp, sys, f);
    LagDrops(c, sys, e, e.key.kind, l);
  }

  ghost predicate WrittenByLaggard(c: Config, sys: Sys, e: Event, i: nat)
    requires WellFormed(c) && i < CELLS
  {
    && e.Act? && e.key in sys.running
    && WrittenNow(c, sys, e, i, sys.running[e.key])
    && !Fresh(c, sys.store, sys.running[e.key])
  }

  // Each call of a reconcile that lags uses up some of its lag.
  lemma LagDrops(c: Config, sys: Sys, e: Event, kind: Kind, l: nat)
    requires Consistent(c, sys) && SpecKept(c, sys, e) && SameCellsBelow(c, sys.store, Step(sys, e).store, l)
    requires e.Act? && e.key == ResourceKey(c, kind) && Reconciled(kind) && Lags(c, sys, kind, l)
    ensures Lag(c, Step(sys, e), l) < Lag(c, sys, l)
  {
    hide Step, WellFormed, Consistent, BehindResource, BehindStatus, ResourceKey, KeyOf, At;
    var s, s' := sys.store, Step(sys, e).store;
    ConsistentStore(c, sys);
    ResourceCells(c);
    if l == LB {
      SpecLag(c, sys, e);
    } else if l == SERVICE {
      SameResourceAt(c, s, s', LB);
      ResourceLag(c, sys, e, Loadbalancer);
    } else if l == LB_STATUS {
      SeenCells();
      StatusLag(c, sys, e, Loadbalancer);
    } else if l == PKI {
      SeenCells();
      StatusLag(c, sys, e, ControlPlane);
    } else {
      SameResourceAt(c, s, s', PKI);
      SameResourceAt(c, s, s', KAS);
      SameResourceAt(c, s, s', KCM);
      SameResourceAt(c, s, s', KS);
      ResourceLag(c, sys, e, Pki);
      ResourceLag(c, sys, e, KubeAPIServer);
      ResourceLag(c, sys, e, KubeControllerManager);
      ResourceLag(c, sys, e, KubeScheduler);
    }
  }

  lemma SeenCells()
    ensures SeenCell(Loadbalancer) == INGRESS && SeenCell(ControlPlane) == LB_STATUS
  {}

  lemma SpecLag(c: Config, sys: Sys, e: Event)
    requires SpecKept(c, sys, e)
    ensures BehindResource(c, Step(sys, e), ControlPlane) <= BehindResource(c, sys, ControlPlane)
    ensures e.Act? && e.key == ResourceKey(c, ControlPlane) && 0 < BehindResource(c, sys, ControlPlane) ==>
      BehindResource(c, Step(sys, e), ControlPlane) < BehindResource(c, sys, ControlPlane)
  {
    hide Step, BehindResource;
    ResourceLag(c, sys, e, ControlPlane);
  }

  lemma SameResourceAt(c: Config, s: Store, s': Store, i: nat)
    requires WellFormed(c) && i < CELLS && At(c, s', i) == At(c, s, i)
    ensures BodyAt(s', KeyOf(c, i)) == BodyAt(s, KeyOf(c, i))
  {}

  // Any other change of a cell makes it what the equations say.
  lemma WrittenAsDerived(c: Config, cp: ControlPlaneSpec, sys: Sys, e: Event, i: nat)
    requires WellFormed(c) && Fixed(c, cp, sys) && Steady(c, e) && i < CELLS
    requires At(c, Step(sys, e).store, i) != At(c, sys.store, i)
    requires !WrittenByLaggard(c, sys, e, i)
    ensures At(c, Step(sys, e).store, i).Some?
    ensures Derive(c, cp, i, Prefix(c, sys.store, i)) == At(c, Step(sys, e).store, i)
  {
    hide WellFormed, Step, Derive, Prefix, At, Calm, Consistent, KeyOf, TamperedNow, WrittenNow, Fixed, Steady,
      IssuedNow, WrittenByLaggard, AssignedNow, Removes;
    FixedAndSteady(c, cp, sys, e);
    SteadyChange(c, cp, sys, e, i);
    CellChange(c, sys, e, i);
    SteadyCauses(c, sys, e, i);
    if IssuedNow(c, sys, e, i) {
      IssuedAsDerived(c, cp, sys, e, i);
    } else if AssignedNow(c, sys, e, i) {
      AssignedAsDerived(c, cp, sys, e, i);
    } else {
      WrittenFresh(c, cp, sys, e, i);
    }
  }

  lemma SteadyCauses(c: Config, sys: Sys, e: Event, i: nat)
    requires WellFormed(c) && Steady(c, e) && i < CELLS
    ensures !TamperedNow(c, sys, e, i)
    ensures AssignedNow(c, sys, e, i) ==> e.ingress == c.ingress
  {
    hide WellFormed, Step, At, Calm, NameOf;
    KeyIsLocal(c, i);
    KeyIsLocal(c, SERVICE);
  }

  lemma WrittenFresh(c: Config, cp: ControlPlaneSpec, sys: Sys, e: Event, i: nat)
    requires WellFormed(c) && Fixed(c, cp, sys) && i < CELLS
    requires e.Act? && e.key in sys.running && WrittenNow(c, sys, e, i, sys.running[e.key])
    requires !WrittenByLaggard(c, sys, e, i)
    ensures Derive(c, cp, i, Prefix(c, sys.store, i)) == At(c, Step(sys, e).store, i)
  {
    hide Step, WellFormed, Fixed, Derive, Prefix, At, Ready, FrameFits, Code, CellOf, CellFits, KeyOf;
    IsReady(c, cp, sys, e, i);
    FreshDerives(c, cp, sys.store, sys.running[e.key]);
  }

  lemma IsReady(c: Config, cp: ControlPlaneSpec, sys: Sys, e: Event, i: nat)
    requires WellFormed(c) && Fixed(c, cp, sys) && i < CELLS
    requires e.Act? && e.key in sys.running && WrittenNow(c, sys, e, i, sys.running[e.key])
    requires !WrittenByLaggard(c, sys, e, i)
    ensures Ready(c, cp, sys.store, sys.running[e.key])
  {
    hide Step, WellFormed, Derive, Prefix, At, FrameFits, Reached, Code, CellOf, CellFits, KeyOf, Consistent, Passing;
    var f := sys.running[e.key];
    RunningFits(c, sys, e.key);
    RunningReached(c, sys, e.key);
    ControlPlaneFrames(c, f);
  }

  lemma ControlPlaneFrames(c: Config, f: Frame)
    requires WellFormed(c) && FrameFits(c, f)
    ensures f.body.ControlPlaneBody? ==> f.key == ControlPlaneKey(c)
  {
    hide WellFormed, PkiConforms, KasConforms, KcmConforms, Conforms;
  }

  lemma AssignedAsDerived(c: Config, cp: ControlPlaneSpec, sys: Sys, e: Event, i: nat)
    requires WellFormed(c) && i < CELLS && AssignedNow(c, sys, e, i) && e.ingress == c.ingress
    ensures Derive(c, cp, i, Prefix(c, sys.store, i)) == At(c, Step(sys, e).store, i)
  {
    hide Step, WellFormed, DeriveTrust, DeriveComponent, NameOf;
    assert Prefix(c, sys.store, i)[SERVICE] == At(c, sys.store, SERVICE);
  }

  lemma IssuedAsDerived(c: Config, cp: ControlPlaneSpec, sys: Sys, e: Event, i: nat)
    requires Consistent(c, sys) && Calm(c, e) && i < CELLS && IssuedNow(c, sys, e, i)
    requires At(c, Step(sys, e).store, i).Some?
    ensures Derive(c, cp, i, Prefix(c, sys.store, i)) == At(c, Step(sys, e).store, i)
  {
    hide Derive, WellFormed, Step, Calm, Consistent, At, KeyOf, Issuable, Prefix, IsSecret;
    var s := sys.store;
    StepConsistent(c, sys, e);
    ConsistentStore(c, sys);
    ConsistentStore(c, Step(sys, e));
    IssuedContents(c, Step(sys, e).store, i);
    IssuableCell(c, s, i);
    IssuableCells(c, s, i);
    DerivedSecret(c, cp, s, i);
  }

  lemma IssuedContents(c: Config, s: Store, i: nat)
    requires WellFormed(c) && StoreFits(c, s) && i < CELLS && IsSecret(i) && At(c, s, i).Some?
    ensures At(c, s, i) == Some(SecretBody(c.issued[Which(i)]))
  {
    assert CellFits(c, i, At(c, s, i).value);
    hide WellFormed, StoreFits, At;
  }

  lemma IssuableCell(c: Config, s: Store, i: nat)
    requires WellFormed(c) && i < CELLS && IsSecret(i)
    ensures Issuable(s, KeyOf(c, i - 1)) ==> At(c, s, i - 1).Some?
  {
    hide WellFormed, KeyOf;
  }

  // The issuer of certificate j can sign.
  predicate SignerThere(c: Config, s: Store, j: nat)
    requires WellFormed(c) && j < 7
  {
    if j == CA then At(c, s, ROOT_ISSUER).Some?
    else At(c, s, CA_ISSUER).Some? && At(c, s, SecretCell(CA)).Some?
  }

  lemma DerivedSecret(c: Config, cp: ControlPlaneSpec, s: Store, i: nat)
    requires WellFormed(c) && i < CELLS && IsSecret(i) && At(c, s, i - 1).Some?
    ensures Derive(c, cp, i, Prefix(c, s, i)) ==
      if SignerThere(c, s, Which(i)) then Some(SecretBody(c.issued[Which(i)])) else None
  {
    hide At, SecretNames, Distinct;
    var p := Prefix(c, s, i);
    assert p[i - 1] == At(c, s, i - 1) && p[ROOT_ISSUER] == At(c, s, ROOT_ISSUER);
    if Which(i) != CA {
      assert p[CA_ISSUER] == At(c, s, CA_ISSUER) && p[SecretCell(CA)] == At(c, s, SecretCell(CA));
    }
  }

  // cert-manager signs when the certificate, its issuer and the issuer's key pair are there.
  lemma IssuableCells(c: Config, s: Store, i: nat)
    requires WellFormed(c) && StoreFits(c, s) && i < CELLS && IsSecret(i)
    requires At(c, s, i - 1).Some?
    ensures Issuable(s, KeyOf(c, i - 1)) <==> SignerThere(c, s, Which(i))
  {
    var j, k := Which(i), KeyOf(c, i - 1);
    SecretOfCertificate(c, j);
    SecretOfCertificate(c, CA);
    assert i == SecretCell(j) && i - 1 == CertCell(j) && Which(CertCell(j)) == j;
    assert CellFits(c, CertCell(j), At(c, s, CertCell(j)).value);
    assert At(c, s, ROOT_ISSUER).Some? ==> CellFits(c, ROOT_ISSUER, At(c, s, ROOT_ISSUER).value);
    assert At(c, s, CA_ISSUER).Some? ==> CellFits(c, CA_ISSUER, At(c, s, CA_ISSUER).value);
    hide SecretNames, Distinct, StoreFits;
    var issuer := if j == CA then ROOT_ISSUER else CA_ISSUER;
    assert KeyOf(c, issuer) == Key(Issuer, c.ns, s[k].body.certificate.issuer);
  }

  /******* Bounded work *******/

  // The step changes what the namespace holds of the control plane.
  ghost predicate Effective(c: Config, sys: Sys, e: Event)
    requires WellFormed(c)
  {
    exists i :: 0 <= i < CELLS && At(c, Step(sys, e).store, i) != At(c, sys.store, i)
  }

  lemma StepMeasure(c: Config, cp: ControlPlaneSpec, sys: Sys, e: Event)
    requires WellFormed(c) && Fixed(c, cp, sys) && Steady(c, e)
    ensures Measure(c, cp, Step(sys, e)) <= Measure(c, cp, sys)
    ensures Effective(c, sys, e) ==> Measure(c, cp, Step(sys, e)) < Measure(c, cp, sys)
  {
    hide WellFormed, Step, Fixed, Steady, Consistent, Calm, At, Digit, Value, KeyOf, SpecKept, Removes;
    FixedAndSteady(c, cp, sys, e);
    SpecStays(c, sys, e);
    DigitsAreSmall(c, cp, Step(sys, e));
    if i :| 0 <= i < CELLS && At(c, Step(sys, e).store, i) != At(c, sys.store, i) {
      SteadyChange(c, cp, sys, e, i);
      ChangedCell(c, sys, e, i);
      var r := Pivot(c, cp, sys, e, i);
      forall q | 0 <= q < r
        ensures Digit(c, cp, Step(sys, e), q) <= Digit(c, cp, sys, q)
      {
        DigitsDoNotGrow(c, cp, sys, e, q);
      }
      ValueDecreases(Digits(c, cp, Step(sys, e)), Digits(c, cp, sys), r);
    } else {
      forall q | 0 <= q < 2 * CELLS
        ensures Digit(c, cp, Step(sys, e), q) <= Digit(c, cp, sys, q)
      {
        DigitsDoNotGrow(c, cp, sys, e, q);
      }
      ValueMonotone(Digits(c, cp, Step(sys, e)), Digits(c, cp, sys));
    }
  }

  lemma NobodyWritesControlPlanes(f: Frame)
    ensures Code(f).Apply? || Code(f).Report? ==> Code(f).key.kind != ControlPlane
  {}

  lemma SpecStays(c: Config, sys: Sys, e: Event)
    requires WellFormed(c) && Steady(c, e)
    ensures SpecKept(c, sys, e)
  {
    hide WellFormed, Step, Code, At, KeyOf, CellFits;
    if Removes(e) {
      OnlyRemoved(sys, e);
    } else {
      OneKeyChanges(sys, e);
      StoreOfStep(sys, e);
      if e.Act? && e.key in sys.running {
        NobodyWritesControlPlanes(sys.running[e.key]);
      }
      hide Issuable;
    }
  }

  lemma StepFixed(c: Config, cp: ControlPlaneSpec, sys: Sys, e: Event)
    requires WellFormed(c) && Fixed(c, cp, sys) && Steady(c, e)
    ensures Fixed(c, cp, Step(sys, e))
  {
    hide WellFormed, Step, Consistent, Steady, Calm, Intact;
    FixedAndSteady(c, cp, sys, e);
    StepIntact(c, sys, e);
    SpecStays(c, sys, e);
  }

  ghost predicate AllSteady(c: Config, es: seq<Event>)
    requires WellFormed(c)
  {
    forall i :: 0 <= i < |es| ==> Steady(c, es[i])
  }

  ghost function EffectiveSteps(c: Config, sys: Sys, es: seq<Event>): nat
    requires WellFormed(c)
  {
    if es == [] then 0
    else
      var init := es[..|es| - 1];
      EffectiveSteps(c, sys, init) + if Effective(c, Run(sys, init), es[|es| - 1]) then 1 else 0
  }

  // No run, however long and however it interleaves, restarts or fails, has more
  // effective steps than the measure of its first state.
  lemma {:induction false} EffectiveStepsAreBounded(c: Config, cp: ControlPlaneSpec, sys: Sys, es: seq<Event>)
    requires WellFormed(c) && Fixed(c, cp, sys) && AllSteady(c, es)
    ensures Fixed(c, cp, Run(sys, es))
    ensures EffectiveSteps(c, sys, es) + Measure(c, cp, Run(sys, es)) <= Measure(c, cp, sys)
  {
    hide WellFormed, Step, Fixed, Steady, Measure, Effective;
    if es != [] {
      var init, last := es[..|es| - 1], es[|es| - 1];
      EffectiveStepsAreBounded(c, cp, sys, init);
      StepMeasure(c, cp, Run(sys, init), last);
      StepFixed(c, cp, Run(sys, init), last);
    }
  }

  // Whatever a reconciler of the namespace changes in the store is one of the cells.
  lemma OperatorWritesCells(c: Config, sys: Sys, e: Event)
    requires WellFormed(c) && Consistent(c, sys)
    requires e.Act? && e.key.ns == c.ns && Step(sys, e).store != sys.store
    ensures Effective(c, sys, e)
  {
    hide Step, Code, KeyOf, CellFits, WellFormed, Consistent, FrameFits, Reached, CallFits, CellOf, Exec, TargetKey;
    StoreOfStep(sys, e);
    var f := sys.running[e.key];
    RunningFits(c, sys, e.key);
    assert !Code(f).Stop? by { StopWritesNothing(f, sys.store, e.ok); }
    EveryCallFits(c, f);
    WrittenBody(c, f, sys.store, e.ok);
    WritesSomething(f, sys.store, e.ok);
    var i := CellOf(f.key.kind, f.pc);
    assert At(c, Step(sys, e).store, i) != At(c, sys.store, i);
  }

  lemma StopWritesNothing(f: Frame, s: Store, ok: bool)
    ensures Code(f).Stop? ==> Exec(f, s, ok).0 == s
  {
    hide Code;
  }

  // A write that changes the store changes the body at its key.
  lemma WritesSomething(f: Frame, s: Store, ok: bool)
    requires Exec(f, s, ok).0 != s
    ensures BodyAt(Exec(f, s, ok).0, TargetKey(f)) != BodyAt(s, TargetKey(f))
  {
    hide Code, Admits, Unchanged;
  }
}
