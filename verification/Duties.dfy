// What a reconciler has to do.  A cell is good when it holds what its equation asks for, a
// reconciler is covered when it has made its cells good or will be run again.  A change
// elsewhere leaves its work done, a call does the next part of it, and a failing call whose
// error is dropped leaves a gap exactly when the call was needed.
module Duties {
  import opened Api
  import opened Programs
  import opened Machine
  import opened Integrity
  import opened Cells
  import opened Settling
  import opened Invariant
  import opened Termination
  import opened Convergence

  /******* What a cell depends on *******/

  // p and q differ in cell j only, and an absent key pair may have appeared there.
  ghost predicate DifferAt(p: seq<Option<Body>>, q: seq<Option<Body>>, j: nat) {
    && |p| == |q|
    && (forall i :: 0 <= i < |p| && i != j ==> p[i] == q[i])
    && (IsSecret(j) && j < |p| ==> p[j].None?)
  }

  // Whose status a reconciler follows.
  predicate Follows(kind: Kind, j: nat) {
    (kind == ControlPlane && j == LB_STATUS) || (kind == Loadbalancer && j == INGRESS)
  }

  // The equation of a cell looks at its resource, at one status and at key pairs.
  lemma DeriveReads(c: Config, cp: ControlPlaneSpec, i: nat, p: seq<Option<Body>>, q: seq<Option<Body>>, j: nat)
    requires WellFormed(c) && i < CELLS && |p| == i && ActorOf(i).Reconcile?
    requires DifferAt(p, q, j)
    requires j != ResourceCell(ActorOf(i).kind) && !Follows(ActorOf(i).kind, j)
    requires Derive(c, cp, i, p).Some?
    ensures Derive(c, cp, i, q) == Derive(c, cp, i, p)
  {
    hide SecretNames, Distinct, WellFormed, KasFor, KcmFor, KsFor, CertificateFor, KubeconfigSecret, SchedulerSecret,
      GenerateDeployment, KcmWorkload, KsWorkload, KCM_KUBECONFIG, KS_CONFIG, EGRESS_CONFIG, KCM_NAME, KS_NAME;
    if i <= KS {
      hide DeriveTrust, DeriveComponent;
    } else if i < ADMIN_KUBECONFIG {
      hide DeriveEndpoint, DeriveComponent;
    } else {
      hide DeriveEndpoint, DeriveTrust;
    }
    assert Derive(c, cp, i, q) == Derive(c, cp, i, p);
  }

  // Only the ControlPlane reconciler looks at the user's spec.
  lemma DeriveWithoutSpec(c: Config, cp: ControlPlaneSpec, cp': ControlPlaneSpec, i: nat, p: seq<Option<Body>>)
    requires WellFormed(c) && i < CELLS && |p| == i && ActorOf(i) != Reconcile(ControlPlane)
    ensures Derive(c, cp', i, p) == Derive(c, cp, i, p)
  {
    hide SecretNames, Distinct, WellFormed, DeriveEndpoint, DeriveTrust, DeriveComponent;
  }

  /******* Reconcilers that have nothing left to do *******/

  ghost predicate HasSpec(c: Config, s: Store) {
    ControlPlaneKey(c) in s && s[ControlPlaneKey(c)].body.ControlPlaneBody?
  }

  function Spec(c: Config, s: Store): ControlPlaneSpec
    requires HasSpec(c, s)
  {
    s[ControlPlaneKey(c)].body.controlPlane
  }

  // Cell i is there and holds what the equations say.
  ghost predicate Good(c: Config, s: Store, i: nat)
    requires WellFormed(c) && HasSpec(c, s) && i < CELLS
  {
    At(c, s, i).Some? && At(c, s, i) == Derive(c, Spec(c, s), i, Prefix(c, s, i))
  }

  // A load balancer without an ingress has no status to report yet.
  ghost predicate Excused(c: Config, s: Store, i: nat)
    requires WellFormed(c)
  {
    i == LB_STATUS && SeenIngress(At(c, s, INGRESS)) == []
  }

  // The first n calls of a reconciler would change nothing.
  ghost predicate Did(c: Config, s: Store, kind: Kind, n: nat)
    requires WellFormed(c) && HasSpec(c, s)
  {
    forall q :: 0 <= q < n && CellOf(kind, q) < CELLS && !IsSecret(CellOf(kind, q)) ==>
      Good(c, s, CellOf(kind, q)) || Excused(c, s, CellOf(kind, q))
  }

  // A reconcile in progress that nothing has overtaken and that did its work so far.
  ghost predicate OnTrack(c: Config, s: Store, f: Frame)
    requires WellFormed(c) && HasSpec(c, s)
  {
    && Fresh(c, s, f)
    && (f.key.kind == Loadbalancer && f.pc <= 1 ==> f.status == At(c, s, LB_STATUS))
    && Did(c, s, f.key.kind, f.pc)
  }

  ghost predicate Covered(c: Config, sys: Sys, kind: Kind)
    requires WellFormed(c) && HasSpec(c, sys.store)
  {
    var k := ResourceKey(c, kind);
    || k !in sys.store || k in sys.pending || k in sys.timers
    || (if k in sys.running then OnTrack(c, sys.store, sys.running[k]) else Did(c, sys.store, kind, LAST))
  }

  ghost predicate OwnedCell(c: Config, s: Store, i: nat)
    requires WellFormed(c)
  {
    Created(i) && KeyOf(c, i) in s ==> s[KeyOf(c, i)].owner == Some(ResourceKey(c, ActorOf(i).kind))
  }

  // The objects that the reconcilers created are theirs.
  ghost predicate Owned(c: Config, s: Store)
    requires WellFormed(c)
  {
    forall i :: 0 <= i < CELLS ==> OwnedCell(c, s, i)
  }

  // The cells that come into being by a CreateOrPatch.
  predicate Created(i: nat) {
    i < CELLS && ActorOf(i).Reconcile? && i != LB_STATUS
  }

  const RECONCILED: set<Kind> := {ControlPlane, Loadbalancer, Pki, KubeAPIServer, KubeControllerManager, KubeScheduler}

  /******* Changes that leave the work done *******/

  // Only the cells j and j' changed; key pairs among them appeared.
  ghost predicate OnlyTwo(c: Config, s: Store, s': Store, j: nat, j': nat)
    requires WellFormed(c) && j < CELLS && j' < CELLS
  {
    && (forall i :: 0 <= i < CELLS && i != j && i != j' ==> At(c, s', i) == At(c, s, i))
    && (IsSecret(j) ==> At(c, s, j).None?) && (IsSecret(j') ==> At(c, s, j').None?)
  }

  // A reconciler does not look at cell j.
  predicate Ignores(kind: Kind, j: nat) {
    j != ResourceCell(kind) && !Follows(kind, j)
  }

  // What the equation of a cell asks for stays, as long as its reconciler ignores the changes.
  lemma DeriveStays(c: Config, cp: ControlPlaneSpec, s: Store, s': Store, i: nat, j: nat, j': nat)
    requires WellFormed(c) && i < CELLS && j < CELLS && j' < CELLS && i != j && i != j'
    requires OnlyTwo(c, s, s', j, j') && Derive(c, cp, i, Prefix(c, s, i)).Some?
    requires ActorOf(i).Reconcile? && Ignores(ActorOf(i).kind, j) && Ignores(ActorOf(i).kind, j')
    ensures Derive(c, cp, i, Prefix(c, s', i)) == Derive(c, cp, i, Prefix(c, s, i))
  {
    hide WellFormed, At, Derive, ActorOf, ResourceCell, Follows;
    var p, q := Prefix(c, s, i), Prefix(c, s', i);
    assert forall k :: 0 <= k < i ==> p[k] == At(c, s, k) && q[k] == At(c, s', k);
    var m := if j < i then p[j := q[j]] else p;
    DeriveReads(c, cp, i, p, m, j);
    if j' == j {
      assert m == q;
    } else {
      DeriveReads(c, cp, i, m, q, j');
    }
  }

  lemma GoodStays(c: Config, s: Store, s': Store, i: nat, j: nat, j': nat)
    requires WellFormed(c) && HasSpec(c, s) && HasSpec(c, s') && i < CELLS && j < CELLS && j' < CELLS && i != j
    requires i != j'
    requires Good(c, s, i) && OnlyTwo(c, s, s', j, j')
    requires ActorOf(i).Reconcile? && Ignores(ActorOf(i).kind, j) && Ignores(ActorOf(i).kind, j')
    requires Spec(c, s') == Spec(c, s)
    ensures Good(c, s', i)
  {
    hide WellFormed, HasSpec, At, Derive, ActorOf, Ignores, Prefix;
    DeriveStays(c, Spec(c, s), s, s', i, j, j');
    CellKept(c, s, s', i, j, j');
  }

  lemma CellKept(c: Config, s: Store, s': Store, i: nat, j: nat, j': nat)
    requires WellFormed(c) && i < CELLS && j < CELLS && j' < CELLS && i != j && i != j' && OnlyTwo(c, s, s', j, j')
    ensures At(c, s', i) == At(c, s, i)
  {
    hide WellFormed, At;
  }

  lemma CallIsOwn(kind: Kind, q: nat)
    requires Reconciled(kind) && CellOf(kind, q) < CELLS && !IsSecret(CellOf(kind, q))
    ensures ActorOf(CellOf(kind, q)) == Reconcile(kind)
    ensures CellOf(kind, q) != ResourceCell(kind) && !Follows(kind, CellOf(kind, q))
    ensures forall q' :: 0 <= q' && CellOf(kind, q') == CellOf(kind, q) ==> q' == q
    ensures q < LAST
  {}

  lemma DidStays(c: Config, s: Store, s': Store, kind: Kind, n: nat, j: nat, j': nat)
    requires WellFormed(c) && HasSpec(c, s) && HasSpec(c, s') && Reconciled(kind) && j < CELLS && j' < CELLS
    requires Did(c, s, kind, n) && OnlyTwo(c, s, s', j, j')
    requires Ignores(kind, j) && Ignores(kind, j')
    requires forall q :: 0 <= q < n && CellOf(kind, q) in {j, j'} ==> IsSecret(CellOf(kind, q))
    requires Spec(c, s') == Spec(c, s)
    ensures Did(c, s', kind, n)
  {
    hide WellFormed, HasSpec, At, Good, ActorOf, ResourceCell, CellOf, Spec, IsSecret, Ignores;
    forall q | 0 <= q < n && CellOf(kind, q) < CELLS && !IsSecret(CellOf(kind, q))
      ensures Good(c, s', CellOf(kind, q)) || Excused(c, s', CellOf(kind, q))
    {
      var i := CellOf(kind, q);
      CallIsOwn(kind, q);
      if Good(c, s, i) {
        GoodStays(c, s, s', i, j, j');
      } else {
        StatusIsLoadbalancers(i, kind);
        IngressStays(c, s, s', j, j');
      }
    }
  }

  lemma IngressStays(c: Config, s: Store, s': Store, j: nat, j': nat)
    requires WellFormed(c) && j < CELLS && j' < CELLS && OnlyTwo(c, s, s', j, j')
    requires Ignores(Loadbalancer, j) && Ignores(Loadbalancer, j')
    ensures At(c, s', INGRESS) == At(c, s, INGRESS)
  {
    hide WellFormed, At;
  }

  lemma StatusIsLoadbalancers(i: nat, kind: Kind)
    requires i < CELLS && ActorOf(i) == Reconcile(kind) && i == LB_STATUS
    ensures kind == Loadbalancer
  {}

  lemma FrameMemory(c: Config, s: Store, s': Store, f: Frame, j: nat, j': nat)
    requires WellFormed(c) && FrameFits(c, f) && j < CELLS && j' < CELLS && Fresh(c, s, f) && OnlyTwo(c, s, s', j, j')
    requires BodyAt(s', f.key) == BodyAt(s, f.key)
    requires (!Follows(f.key.kind, j) && !Follows(f.key.kind, j')) || f.pc == 0
    requires ActorOf(j) != Reconcile(f.key.kind) && ActorOf(j') != Reconcile(f.key.kind)
    ensures Fresh(c, s', f)
    ensures At(c, s', LB_STATUS) == At(c, s, LB_STATUS) || f.key.kind != Loadbalancer
  {
    hide WellFormed, At, CellFits;
    assert Reconciled(f.key.kind);
    MemoryCell(f.key.kind);
    hide ResourceFits, SeenCell;
  }

  lemma MemoryCell(kind: Kind)
    requires Reconciled(kind)
    ensures SeenCell(kind) < CELLS
    ensures Follows(kind, SeenCell(kind)) || IsSecret(SeenCell(kind))
  {}

  // A frame that did part of its work stays on track when something else changes.
  lemma OnTrackStays(c: Config, s: Store, s': Store, f: Frame, j: nat, j': nat)
    requires WellFormed(c) && HasSpec(c, s) && HasSpec(c, s') && FrameFits(c, f) && j < CELLS && j' < CELLS
    requires OnTrack(c, s, f) && OnlyTwo(c, s, s', j, j')
    requires BodyAt(s', f.key) == BodyAt(s, f.key)
    requires j != ResourceCell(f.key.kind) && j' != ResourceCell(f.key.kind)
    requires (!Follows(f.key.kind, j) && !Follows(f.key.kind, j')) || f.pc == 0
    requires ActorOf(j) != Reconcile(f.key.kind) && ActorOf(j') != Reconcile(f.key.kind)
    requires Spec(c, s') == Spec(c, s)
    ensures OnTrack(c, s', f)
  {
    FrameMemory(c, s, s', f, j, j');
    FitsReconciler(c, f);
    hide WellFormed, HasSpec, At, ResourceCell, Spec, FrameFits, Good, OnlyTwo;
    if f.pc > 0 {
      NotItsCalls(f.key.kind, f.pc, j, j');
      DidStays(c, s, s', f.key.kind, f.pc, j, j');
    }
  }

  lemma NotItsCalls(kind: Kind, n: nat, j: nat, j': nat)
    requires Reconciled(kind) && j < CELLS && j' < CELLS
    requires ActorOf(j) != Reconcile(kind) && ActorOf(j') != Reconcile(kind)
    ensures forall q :: 0 <= q < n && CellOf(kind, q) in {j, j'} ==> IsSecret(CellOf(kind, q))
  {
    hide ActorOf, CellOf, IsSecret, Reconciled;
    forall q | 0 <= q < n && CellOf(kind, q) in {j, j'}
      ensures IsSecret(CellOf(kind, q))
    {
      if !IsSecret(CellOf(kind, q)) {
        CallIsOwn(kind, q);
      }
    }
  }

  /******* The calls of a reconcile *******/

  lemma OnTrackIsOnward(c: Config, s: Store, f: Frame)
    requires WellFormed(c) && StoreFits(c, s) && HasSpec(c, s) && FrameFits(c, f) && Reached(f, s) && OnTrack(c, s, f)
    ensures Onward(c, Spec(c, s), f, s)
  {
    hide WellFormed, StoreFits, FrameFits, Reached, Fresh, Did;
  }

  // A reconcile that ends well did everything.
  lemma NothingLeft(c: Config, s: Store, f: Frame)
    requires WellFormed(c) && HasSpec(c, s) && FrameFits(c, f) && OnTrack(c, s, f)
    requires Code(f) == Stop(Done)
    ensures Did(c, s, f.key.kind, LAST)
  {
    EndOfCode(c, f);
    hide WellFormed, HasSpec, Good, Code, CellOf, At, FrameFits, CellFits;
    assert f.key.kind == Loadbalancer && f.pc == 1 ==> f.seen == At(c, s, INGRESS);
  }

  lemma EndOfCode(c: Config, f: Frame)
    requires WellFormed(c) && FrameFits(c, f) && Code(f) == Stop(Done)
    ensures
      if f.key.kind == Loadbalancer && f.pc == 1 then
        && SeenIngress(f.seen) == [] && f.pc > Remembered(f.body)
        && CellOf(f.key.kind, 1) == LB_STATUS && (forall q :: 2 <= q ==> CellOf(f.key.kind, q) >= CELLS)
      else forall q :: f.pc <= q ==> CellOf(f.key.kind, q) >= CELLS
  {
    hide WellFormed, GenerateDeployment, KcmWorkload, KsWorkload;
  }

  // A call that goes through keeps the reconcile on track.
  lemma CallDid(c: Config, s: Store, f: Frame)
    requires WellFormed(c) && StoreFits(c, s) && HasSpec(c, s) && FrameFits(c, f) && Reached(f, s) && OnTrack(c, s, f)
    requires !Code(f).Stop? && Exec(f, s, true).1.Next?
    ensures var (s', p) := Exec(f, s, true);
      HasSpec(c, s') && p.frame.key == f.key && OnTrack(c, s', p.frame)
  {
    hide WellFormed, StoreFits, FrameFits, Reached, OnTrack, Code, Exec, Onward, Did;
    var cp := Spec(c, s);
    var (s', p) := Exec(f, s, true);
    var i := CellOf(f.key.kind, f.pc);
    OnTrackIsOnward(c, s, f);
    EveryCallIsCalled(c, cp, f, s);
    FitsReconciler(c, f);
    OnTrackDid(c, s, f);
    if Code(f).Fetch? {
      DidFetch(c, s, f.key.kind, f.pc);
    } else {
      assert !IsSecret(i) by { EveryCallFits(c, f); }
      DidWrite(c, s, s', f.key.kind, f.pc);
    }
    OnwardOnTrack(c, cp, p.frame, s');
  }

  lemma OnTrackDid(c: Config, s: Store, f: Frame)
    requires WellFormed(c) && HasSpec(c, s) && OnTrack(c, s, f)
    ensures Did(c, s, f.key.kind, f.pc)
  {}

  lemma OnwardOnTrack(c: Config, cp: ControlPlaneSpec, f: Frame, s: Store)
    requires WellFormed(c) && HasSpec(c, s) && Onward(c, cp, f, s) && Did(c, s, f.key.kind, f.pc)
    ensures OnTrack(c, s, f)
  {
    hide WellFormed, StoreFits, FrameFits, Reached, Fresh, Did;
  }

  lemma DidFetch(c: Config, s: Store, kind: Kind, q: nat)
    requires WellFormed(c) && HasSpec(c, s) && Did(c, s, kind, q)
    requires CellOf(kind, q) < CELLS && IsSecret(CellOf(kind, q))
    ensures Did(c, s, kind, q + 1)
  {
    hide WellFormed, HasSpec, Good, CellOf, IsSecret;
  }

  lemma DidWrite(c: Config, s: Store, s': Store, kind: Kind, q: nat)
    requires WellFormed(c) && HasSpec(c, s) && Did(c, s, kind, q) && Reconciled(kind)
    requires CellOf(kind, q) < CELLS && !IsSecret(CellOf(kind, q))
    requires var i := CellOf(kind, q);
      && SpecIs(c, Spec(c, s), s') && WroteCell(c, s, s', i)
      && At(c, s', i).Some? && At(c, s', i) == Derive(c, Spec(c, s), i, Prefix(c, s, i))
    ensures HasSpec(c, s') && Did(c, s', kind, q + 1)
  {
    var i := CellOf(kind, q);
    hide WellFormed, Good, Derive, CellOf, At, Did, IsSecret;
    CallIsOwn(kind, q);
    assert Spec(c, s') == Spec(c, s);
    DidStays(c, s, s', kind, q, i, i);
    assert Prefix(c, s', i) == Prefix(c, s, i);
    GoodByDefinition(c, s', i);
    DidMore(c, s', kind, q);
  }

  lemma GoodByDefinition(c: Config, s: Store, i: nat)
    requires WellFormed(c) && HasSpec(c, s) && i < CELLS
    requires At(c, s, i).Some? && At(c, s, i) == Derive(c, Spec(c, s), i, Prefix(c, s, i))
    ensures Good(c, s, i)
  {}

  lemma DidMore(c: Config, s: Store, kind: Kind, q: nat)
    requires WellFormed(c) && HasSpec(c, s) && Did(c, s, kind, q)
    requires CellOf(kind, q) < CELLS && Good(c, s, CellOf(kind, q))
    ensures Did(c, s, kind, q + 1)
  {
    hide WellFormed, HasSpec, Good, CellOf, IsSecret;
  }

  // What the next call of a reconcile leaves for its key, however it ends.
  lemma ActCovers(c: Config, sys: Sys, k: Key, ok: bool)
    requires WellFormed(c) && StoreFits(c, sys.store) && HasSpec(c, sys.store) && k in sys.running
    requires var f := sys.running[k];
      && f.key == k && FrameFits(c, f) && Reached(f, sys.store) && OnTrack(c, sys.store, f)
      && (Lenient(Code(f)) ==> ok)
    ensures var after := ActStep(sys, k, ok);
      || k in after.pending || k in after.timers
      || (HasSpec(c, after.store) &&
            if k in after.running then OnTrack(c, after.store, after.running[k]) else Did(c, after.store, k.kind, LAST))
  {
    var f, s := sys.running[k], sys.store;
    var after := ActStep(sys, k, ok);
    hide WellFormed, StoreFits, FrameFits, Reached, OnTrack, Onward, Did, Commit, TargetKey;
    ActQueues(sys, k, ok);
    if Code(f).Stop? {
      if Code(f).outcome == Done {
        NothingLeft(c, s, f);
      }
    } else if Exec(f, s, ok).1.Next? {
      if ok {
        hide Exec, Code;
        CallDid(c, s, f);
      } else {
        assert false;
      }
    } else if ok && Lenient(Code(f)) {
      OnTrackIsOnward(c, s, f);
      EveryCallIsCalled(c, Spec(c, s), f, s);
      assert false;
    }
  }

  /******* Dropped errors *******/

  // A call whose error the reconciler drops.
  predicate Lenient(a: Action) {
    a.Report? || (a.Apply? && !a.strict)
  }

  // A reconcile that nothing has overtaken, with its key neither queued nor waiting.
  ghost predicate Poised(c: Config, sys: Sys, kind: Kind) {
    && WellFormed(c) && Intact(c, sys) && HasSpec(c, sys.store) && Reconciled(kind)
    && var k := ResourceKey(c, kind);
       && k in sys.store && k in sys.running && k !in sys.pending && k !in sys.timers
       && OnTrack(c, sys.store, sys.running[k])
  }

  lemma PoisedFacts(c: Config, sys: Sys, kind: Kind)
    requires Poised(c, sys, kind)
    ensures WellFormed(c) && Intact(c, sys) && Consistent(c, sys) && StoreFits(c, sys.store) && HasSpec(c, sys.store)
    ensures Covered(c, sys, kind)
    ensures var f := sys.running[ResourceKey(c, kind)];
      && f.key == ResourceKey(c, kind) && FrameFits(c, f) && Reached(f, sys.store)
      && Onward(c, Spec(c, sys.store), f, sys.store) && Did(c, sys.store, kind, f.pc)
  {
    hide WellFormed, Consistent, OnTrack, HasSpec, Did, StoreFits, FrameFits, Reached, Onward, Passing, Spec;
    var k := ResourceKey(c, kind);
    ConsistentStore(c, sys);
    RunningFits(c, sys, k);
    RunningReached(c, sys, k);
    OnTrackIsOnward(c, sys.store, sys.running[k]);
    OnTrackDid(c, sys.store, sys.running[k]);
  }

  // The cell that the next call of a reconcile writes holds the body of the call already.
  ghost predicate Unneeded(c: Config, s: Store, f: Frame)
    requires WellFormed(c)
  {
    var i := CellOf(f.key.kind, f.pc);
    i < CELLS && Lenient(Code(f)) && At(c, s, i) == Some(Code(f).body)
  }

  lemma UnneededMeans(c: Config, s: Store, f: Frame)
    requires WellFormed(c) && CellOf(f.key.kind, f.pc) < CELLS && Lenient(Code(f))
    ensures Unneeded(c, s, f) <==> At(c, s, CellOf(f.key.kind, f.pc)) == Some(Code(f).body)
  {}

  // The call of an on-track reconcile is needed unless its cell holds the body already.
  lemma NeededExactly(c: Config, sys: Sys, kind: Kind)
    requires Poised(c, sys, kind) && Lenient(Code(sys.running[ResourceKey(c, kind)]))
    ensures var f := sys.running[ResourceKey(c, kind)];
      var i := CellOf(kind, f.pc);
      && i < CELLS && f.pc < LAST && !IsSecret(i)
      && (Good(c, sys.store, i) <==> At(c, sys.store, i) == Some(Code(f).body))
      && Derive(c, Spec(c, sys.store), i, Prefix(c, sys.store, i)) == Some(Code(f).body)
  {
    hide WellFormed, Intact, Consistent, OnTrack, HasSpec, Did, FrameFits, Reached, Onward, Code, At, Derive, Prefix,
      Spec, CellOf, Ready, IsSecret, StoreFits, Reconciled;
    PoisedFacts(c, sys, kind);
    var f := sys.running[ResourceKey(c, kind)];
    OnwardIsReady(c, Spec(c, sys.store), f, sys.store);
    FreshDerives(c, Spec(c, sys.store), sys.store, f);
    NotAPair(c, f);
    CallIsOwn(kind, f.pc);
  }

  lemma NotAPair(c: Config, f: Frame)
    requires WellFormed(c) && FrameFits(c, f) && !Code(f).Stop? && !Code(f).Fetch?
    ensures CellOf(f.key.kind, f.pc) < CELLS && !IsSecret(CellOf(f.key.kind, f.pc))
  {
    hide WellFormed, FrameFits, Code, CellOf, IsSecret;
    EveryCallFits(c, f);
  }

  // Who drops errors: the Loadbalancer reconciler its status update, which is its last
  // call, and the Pki reconciler every CreateOrPatch.
  lemma WhoIsLenient(c: Config, f: Frame)
    requires WellFormed(c) && FrameFits(c, f) && Lenient(Code(f))
    ensures f.key.kind in {Loadbalancer, Pki}
    ensures f.key.kind == Loadbalancer ==>
      && Code(f).Report? && f.pc == 1 && f.pc > Remembered(f.body) && SeenIngress(f.seen) != []
      && CellOf(f.key.kind, f.pc) == LB_STATUS
      && forall q :: 2 <= q ==> CellOf(f.key.kind, q) >= CELLS
    ensures f.key.kind == Pki ==>
      Code(f).Apply? && !Code(f).strict && f.pc != Remembered(f.body) && CellOf(f.key.kind, f.pc) != LB_STATUS
  {
    hide WellFormed;
  }

  lemma DidExactly(c: Config, s: Store, kind: Kind, q: nat)
    requires WellFormed(c) && HasSpec(c, s) && Did(c, s, kind, q)
    requires CellOf(kind, q) < CELLS && !IsSecret(CellOf(kind, q)) && !Excused(c, s, CellOf(kind, q))
    ensures Did(c, s, kind, q + 1) <==> Good(c, s, CellOf(kind, q))
  {
    hide WellFormed, HasSpec, Good, CellOf, IsSecret, Excused;
  }

  lemma DidLast(c: Config, s: Store, kind: Kind)
    requires WellFormed(c) && HasSpec(c, s) && forall q :: 2 <= q ==> CellOf(kind, q) >= CELLS
    ensures Did(c, s, kind, LAST) <==> Did(c, s, kind, 2)
  {
    hide WellFormed, HasSpec, Good, CellOf, IsSecret, Excused;
  }

  // What a dropped error leaves behind.
  lemma Dropped(sys: Sys, k: Key)
    requires k in sys.running && Lenient(Code(sys.running[k]))
    ensures var f := sys.running[k];
      Step(sys, Act(k, false)) ==
        sys.(running := if Code(f).Report? then sys.running - {k} else sys.running[k := Advance(f, None)])
  {
    hide Code, Woken, TargetKey;
  }

  lemma DroppedCovers(c: Config, sys: Sys, kind: Kind, after: Sys)
    requires WellFormed(c) && Poised(c, sys, kind) && Lenient(Code(sys.running[ResourceKey(c, kind)]))
    requires HasSpec(c, after.store) && after == Step(sys, Act(ResourceKey(c, kind), false))
    ensures Covered(c, after, kind) <==> Unneeded(c, sys.store, sys.running[ResourceKey(c, kind)])
  {
    hide WellFormed, Intact, Consistent, OnTrack, HasSpec, Did, FrameFits, Reached, Onward, Code, At, Step, Lenient,
      Good, CellOf, IsSecret, Excused, StoreFits, Reconciled, Spec, Derive, Unneeded;
    var k := ResourceKey(c, kind);
    var f, s := sys.running[k], sys.store;
    PoisedFacts(c, sys, kind);
    NeededExactly(c, sys, kind);
    UnneededMeans(c, s, f);
    WhoIsLenient(c, f);
    NotExcused(c, sys, kind);
    DidExactly(c, s, kind, f.pc);
    Dropped(sys, k);
    if kind == Loadbalancer {
      DidLast(c, s, kind);
    } else {
      GoesOnTrack(c, s, f);
    }
  }

  lemma NotExcused(c: Config, sys: Sys, kind: Kind)
    requires Poised(c, sys, kind) && Lenient(Code(sys.running[ResourceKey(c, kind)]))
    ensures !Excused(c, sys.store, CellOf(kind, sys.running[ResourceKey(c, kind)].pc))
  {
    hide WellFormed, Intact, Consistent, HasSpec, Did, FrameFits, Reached, Onward, Code, At, Lenient, CellOf,
      StoreFits, Reconciled, Spec;
    PoisedFacts(c, sys, kind);
    WhoIsLenient(c, sys.running[ResourceKey(c, kind)]);
  }

  lemma GoesOnTrack(c: Config, s: Store, f: Frame)
    requires WellFormed(c) && HasSpec(c, s) && OnTrack(c, s, f) && f.key.kind == Pki && f.pc != Remembered(f.body)
    ensures OnTrack(c, s, Advance(f, None)) <==> Did(c, s, Pki, f.pc + 1)
  {
    hide WellFormed, HasSpec, Did, At, SeenCell;
  }

  lemma PoisedKind(c: Config, sys: Sys, kind: Kind)
    requires Poised(c, sys, kind)
    ensures Reconciled(kind) && ResourceKey(c, kind) in sys.running && ResourceKey(c, kind) in sys.store
    ensures ResourceKey(c, kind) !in sys.pending && ResourceKey(c, kind) !in sys.timers
  {
    hide WellFormed, Intact, OnTrack, HasSpec, Reconciled;
  }
}
