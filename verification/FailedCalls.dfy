// An undisturbed reconcile some of whose calls fail.  Whether it loses its wakeup can be
// read off the store before it: what is missing, whether the gates are open, and whether
// every call for something missing fails.
module FailedCalls {
  import opened Api
  import opened Programs
  import opened Machine
  import opened Integrity
  import opened Cells
  import opened Settling
  import opened Invariant
  import opened Termination
  import opened Convergence
  import opened Duties
  import opened Wakeup
  import opened Retries

  /******* The calls of one key *******/

  // The next calls of the reconcile of k; call number i goes through if oks[i].
  function Acts(k: Key, oks: seq<bool>): seq<Event> {
    seq(|oks|, i requires 0 <= i < |oks| => Act(k, oks[i]))
  }

  lemma FirstAct(sys: Sys, k: Key, oks: seq<bool>)
    requires oks != []
    ensures Run(sys, Acts(k, oks)) == Run(Step(sys, Act(k, oks[0])), Acts(k, oks[1..]))
  {
    assert Acts(k, oks) == [Act(k, oks[0])] + Acts(k, oks[1..]);
    RunOne(sys, Act(k, oks[0]), Acts(k, oks[1..]));
  }

  lemma ActAdvances(sys: Sys, k: Key, ok: bool)
    ensures Step(sys, Act(k, ok)).running.Keys <= sys.running.Keys
    ensures k in Step(sys, Act(k, ok)).running ==>
      Step(sys, Act(k, ok)).running[k].pc == sys.running[k].pc + 1 && sys.running[k].pc < LAST
  {
    if k in sys.running {
      ShortCode(sys.running[k]);
      Advanced(sys.running[k], sys.store, ok);
      ActQueues(sys, k, ok);
      StepIsAct(sys, k, ok);
    }
    hide Exec, Woken, TargetKey, ActStep;
  }

  lemma ShortCode(f: Frame)
    ensures f.pc >= LAST ==> Code(f).Stop?
  {}

  // Thirteen calls end every reconcile, and whoever runs again does so at the end.
  lemma {:induction false} ActsEnd(c: Config, sys: Sys, k: Key, oks: seq<bool>)
    requires WellFormed(c) && Consistent(c, sys) && HasSpec(c, sys.store) && Reconciled(k.kind)
    requires k in sys.running ==> sys.running[k].pc <= LAST && |oks| + sys.running[k].pc > LAST
    ensures var after := Run(sys, Acts(k, oks));
      && k !in after.running && HasSpec(c, after.store)
      && (RunsAgain(sys, k) ==> RunsAgain(after, k))
    decreases |oks|
  {
    hide WellFormed, Consistent, HasSpec, Step, RunsAgain, Reconciled, Untouched;
    if oks == [] {
      assert Acts(k, oks) == [];
    } else {
      var e := Act(k, oks[0]);
      FirstAct(sys, k, oks);
      ActIsUntouched(c, e);
      StepConsistent(c, sys, e);
      SpecChangeWakes(c, sys, e);
      ActAdvances(sys, k, oks[0]);
      if k !in sys.running {
        StepIsAct(sys, k, oks[0]);
      } else if RunsAgain(sys, k) {
        AgainStays(sys, e, k);
      }
      ActsEnd(c, Step(sys, e), k, oks[1..]);
    }
  }

  // The key is queued after the first call: then it is so at the end.
  lemma QueuedToTheEnd(c: Config, sys: Sys, kind: Kind, oks: seq<bool>)
    requires WellFormed(c) && Consistent(c, sys) && HasSpec(c, sys.store) && oks != [] && Reconciled(kind)
    requires var k := ResourceKey(c, kind);
      && k in sys.running && sys.running[k].pc <= LAST && |oks| + sys.running[k].pc > LAST
      && RunsAgain(Step(sys, Act(k, oks[0])), k)
    ensures var after := Run(sys, Acts(ResourceKey(c, kind), oks)); HasSpec(c, after.store) && Covered(c, after, kind)
  {
    hide WellFormed, Consistent, HasSpec, Step, Run, Covered, RunsAgain, Acts, Untouched, Reconciled;
    var k := ResourceKey(c, kind);
    var e := Act(k, oks[0]);
    FirstAct(sys, k, oks);
    ActIsUntouched(c, e);
    StepConsistent(c, sys, e);
    SpecChangeWakes(c, sys, e);
    ActAdvances(sys, k, oks[0]);
    ActsEnd(c, Step(sys, e), k, oks[1..]);
    AgainIsCovered(c, Run(sys, Acts(k, oks)), kind);
  }

  lemma {:induction false} IdleActs(sys: Sys, k: Key, oks: seq<bool>)
    requires k !in sys.running
    ensures Run(sys, Acts(k, oks)) == sys
    decreases |oks|
  {
    hide Step;
    if oks == [] {
      assert Acts(k, oks) == [];
    } else {
      FirstAct(sys, k, oks);
      StepIsAct(sys, k, oks[0]);
      IdleActs(sys, k, oks[1..]);
    }
  }

  /******* The Pki reconcile *******/

  // A Pki reconcile of the stored resource is in progress, its key neither queued nor waiting.
  ghost predicate Underway(c: Config, sys: Sys) {
    && WellFormed(c) && Intact(c, sys) && HasSpec(c, sys.store) && Owned(c, sys.store)
    && var k := ResourceKey(c, Pki);
       k in sys.running && !RunsAgain(sys, k) && Fresh(c, sys.store, sys.running[k])
  }

  lemma UnderwayFacts(c: Config, sys: Sys)
    requires Underway(c, sys)
    ensures WellFormed(c) && Intact(c, sys) && Consistent(c, sys) && HasSpec(c, sys.store) && Owned(c, sys.store)
    ensures StoreFits(c, sys.store)
    ensures var k := ResourceKey(c, Pki);
      && k in sys.running && !RunsAgain(sys, k)
      && var f := sys.running[k];
         && f.key == k && FrameFits(c, f) && f.body.PkiBody? && Fresh(c, sys.store, f) && Reached(f, sys.store)
         && Onward(c, Spec(c, sys.store), f, sys.store)
  {
    hide WellFormed, Consistent, HasSpec, Owned, Passing, Fresh, Reached, StoreFits, RunsAgain, FramesFit, FrameFits,
      Onward, Spec;
    var k := ResourceKey(c, Pki);
    IntactIsConsistent(c, sys);
    ConsistentStore(c, sys);
    RunningFits(c, sys, k);
    RunningReached(c, sys, k);
    PkiFrame(c, sys.running[k]);
    FreshIsOnward(c, sys.store, sys.running[k]);
  }

  lemma FreshIsOnward(c: Config, s: Store, f: Frame)
    requires WellFormed(c) && StoreFits(c, s) && HasSpec(c, s) && FrameFits(c, f) && Reached(f, s) && Fresh(c, s, f)
    requires f.key.kind == Pki
    ensures Onward(c, Spec(c, s), f, s)
  {
    hide WellFormed, StoreFits, FrameFits, Reached, Fresh;
  }

  lemma PkiFrame(c: Config, f: Frame)
    requires WellFormed(c) && FrameFits(c, f) && f.key.kind == Pki
    ensures f.body.PkiBody? && (f.pc > 6 ==> f.body.pki.controlPlaneIP != "")
  {
    hide WellFormed;
  }

  // What call q of the Pki is for is not there as the equations ask.
  ghost predicate Missing(c: Config, s: Store, q: nat)
    requires WellFormed(c) && HasSpec(c, s)
  {
    q <= 10 && q != 4 && CellOf(Pki, q) < CELLS && !Good(c, s, CellOf(Pki, q))
  }

  // Call 4 is the admin gate, call 6 follows the address gate.
  lemma PkiCall(c: Config, f: Frame)
    requires WellFormed(c) && FrameFits(c, f) && f.key.kind == Pki && f.body.PkiBody?
    ensures Remembered(f.body) == 4
    ensures f.pc > 10 ==> Code(f) == Stop(Done)
    ensures f.pc == 4 ==> Code(f) == Fetch(KeyOf(c, SecretCell(ADMIN)))
    ensures f.pc == 6 && f.body.pki.controlPlaneIP == "" ==> Code(f) == Stop(RequeueAfter)
    ensures f.pc <= 10 && f.pc != 4 && !(f.pc == 6 && f.body.pki.controlPlaneIP == "") ==>
      && Code(f).Apply? && !Code(f).strict && CellOf(Pki, f.pc) < CELLS
      && Code(f).key == KeyOf(c, CellOf(Pki, f.pc))
  {
    if !Code(f).Stop? {
      EveryCallFits(c, f);
    }
    hide WellFormed, KeyOf, CellFits, PkiConforms;
  }

  lemma StillUnderway(c: Config, sys: Sys, ok: bool, g: Frame)
    requires WellFormed(c) && Underway(c, sys)
    requires var k := ResourceKey(c, Pki);
      var f := sys.running[k];
      && Step(sys, Act(k, ok)) == sys.(running := sys.running[k := g])
      && f.key.kind == Pki && g.body == f.body && g.key == f.key && g.pc == f.pc + 1 && Remembered(f.body) == 4
      && (if f.pc == 4 then g.seen == At(c, sys.store, SecretCell(ADMIN)) else g.seen == f.seen)
    ensures Underway(c, Step(sys, Act(ResourceKey(c, Pki), ok)))
  {
    hide WellFormed, Intact, Consistent, HasSpec, Owned, Step, Calm, At;
    var k := ResourceKey(c, Pki);
    ActIsUntouched(c, Act(k, ok));
    StepIntact(c, sys, Act(k, ok));
  }

  lemma NextPkiCall(c: Config, sys: Sys, ok: bool)
    requires WellFormed(c) && Underway(c, sys) && HasSpec(c, sys.store)
    requires var f := sys.running[ResourceKey(c, Pki)];
      f.pc <= 10 && f.pc != 4 && f.body.PkiBody? && !(f.pc == 6 && f.body.pki.controlPlaneIP == "")
    ensures var k := ResourceKey(c, Pki);
      var f, after := sys.running[k], Step(sys, Act(k, ok));
      if ok && Missing(c, sys.store, f.pc) then k in after.pending
      else
        && after == sys.(running := sys.running[k := f.(pc := f.pc + 1)])
        && Underway(c, after)
  {
    hide WellFormed, Underway, Intact, Consistent, HasSpec, Owned, Step, Code, At, CellOf, FrameFits, KeyOf, Good,
      Onward, Derive, Prefix, Spec, Fresh, Reached, StoreFits, Ready, Lenient;
    var k := ResourceKey(c, Pki);
    UnderwayFacts(c, sys);
    var f, s := sys.running[k], sys.store;
    PkiCall(c, f);
    OnwardIsReady(c, Spec(c, s), f, s);
    FreshDerives(c, Spec(c, s), s, f);
    var i := CellOf(Pki, f.pc);
    GoodByCell(c, s, i, Code(f).body);
    if ok && Missing(c, s, f.pc) {
      WrittenIsHeard(c, sys);
    } else {
      if Missing(c, s, f.pc) {
        LenientApply(f);
        Dropped(sys, k);
        assert Advance(f, None) == f.(pc := f.pc + 1);
      } else {
        StoredBody(c, s, i);
        IdleCall(sys, k, ok);
      }
      StillUnderway(c, sys, ok, f.(pc := f.pc + 1));
    }
  }

  lemma LenientApply(f: Frame)
    ensures Code(f).Apply? && !Code(f).strict ==> Lenient(Code(f))
  {
    hide Code;
  }

  lemma StoredBody(c: Config, s: Store, i: nat)
    requires WellFormed(c) && i < CELLS
    ensures BodyAt(s, KeyOf(c, i)) == At(c, s, i)
  {}

  lemma GoodByCell(c: Config, s: Store, i: nat, b: Body)
    requires WellFormed(c) && HasSpec(c, s) && i < CELLS && Derive(c, Spec(c, s), i, Prefix(c, s, i)) == Some(b)
    ensures Good(c, s, i) <==> At(c, s, i) == Some(b)
  {}

  // A call that writes what is stored changes nothing and tells nobody.
  lemma IdleCall(sys: Sys, k: Key, ok: bool)
    requires k in sys.running
    requires var f := sys.running[k];
      && f.pc != Remembered(f.body)
      && Code(f).Apply? && !Code(f).strict && BodyAt(sys.store, Code(f).key) == Some(Code(f).body)
    ensures Step(sys, Act(k, ok)) == sys.(running := sys.running[k := sys.running[k].(pc := sys.running[k].pc + 1)])
  {
    var f, s := sys.running[k], sys.store;
    assert Put(s, Code(f).key, Some(f.key), Code(f).body) == s;
    hide Code, Woken, Admits;
  }

  // A call that writes something new is heard of.
  lemma WrittenIsHeard(c: Config, sys: Sys)
    requires WellFormed(c) && Underway(c, sys) && HasSpec(c, sys.store)
    requires var f := sys.running[ResourceKey(c, Pki)];
      && !Code(f).Stop? && !Code(f).Fetch? && CellOf(Pki, f.pc) < CELLS
      && At(c, sys.store, CellOf(Pki, f.pc)) != Some(Code(f).body)
    ensures ResourceKey(c, Pki) in Step(sys, Act(ResourceKey(c, Pki), true)).pending
  {
    hide WellFormed, Underway, Intact, Consistent, HasSpec, Owned, Step, Code, At, CellOf, FrameFits, KeyOf, Good,
      Onward, Derive, Prefix, Spec, Fresh, Reached, StoreFits, ActorOf, Exec, IsSecret, Untouched;
    var k := ResourceKey(c, Pki);
    UnderwayFacts(c, sys);
    var f, s := sys.running[k], sys.store;
    var i := CellOf(Pki, f.pc);
    WrittenCell(c, Spec(c, s), f, s);
    NotAPair(c, f);
    CallIsOwn(Pki, f.pc);
    StepIsAct(sys, k, true);
    ActQueues(sys, k, true);
    CellByPut(c, f, s, i);
    PkiCell(i);
    ActIsUntouched(c, Act(k, true));
    OwnChangeWakes(c, sys, Act(k, true), i, Pki);
  }

  lemma CellByPut(c: Config, f: Frame, s: Store, i: nat)
    requires WellFormed(c) && i < CELLS
    requires !Code(f).Stop? && !Code(f).Fetch?
    requires exists owner :: Exec(f, s, true).0 == Put(s, KeyOf(c, i), owner, Code(f).body)
    ensures At(c, Exec(f, s, true).0, i) == Some(Code(f).body)
  {
    hide WellFormed, KeyOf, Code, Exec;
  }

  // The admin gate.
  lemma GateCall(c: Config, sys: Sys, ok: bool)
    requires WellFormed(c) && Underway(c, sys) && HasSpec(c, sys.store)
    requires sys.running[ResourceKey(c, Pki)].pc == 4
    ensures var k := ResourceKey(c, Pki);
      var f, after := sys.running[k], Step(sys, Act(k, ok));
      if ok && At(c, sys.store, SecretCell(ADMIN)).Some? then
        && after.store == sys.store && Underway(c, after) && k in after.running
        && after.running[k].pc == 5 && after.running[k].body == f.body
      else k in after.timers
  {
    hide WellFormed, Underway, Intact, Consistent, HasSpec, Owned, Step, Code, At, FrameFits, KeyOf, Onward, Spec,
      Fresh, Reached, StoreFits;
    var k := ResourceKey(c, Pki);
    UnderwayFacts(c, sys);
    var f, s := sys.running[k], sys.store;
    PkiCall(c, f);
    StoredBody(c, s, SecretCell(ADMIN));
    FetchStep(sys, k, ok);
    if ok && At(c, s, SecretCell(ADMIN)).Some? {
      StillUnderway(c, sys, ok, Advance(f, BodyAt(s, Code(f).key)));
    }
  }

  lemma FetchStep(sys: Sys, k: Key, ok: bool)
    requires k in sys.running && Code(sys.running[k]).Fetch?
    ensures var f := sys.running[k];
      var there := BodyAt(sys.store, Code(f).key);
      Step(sys, Act(k, ok)) ==
        if ok && there.Some? then sys.(running := sys.running[k := Advance(f, there)])
        else sys.(running := sys.running - {k}, timers := sys.timers + {k})
  {
    hide Code, Woken;
  }

  lemma StopStep(sys: Sys, k: Key, ok: bool)
    requires k in sys.running && Code(sys.running[k]).Stop?
    requires Code(sys.running[k]).outcome != Failed
    ensures Step(sys, Act(k, ok)) ==
      if Code(sys.running[k]).outcome == Done then sys.(running := sys.running - {k})
      else sys.(running := sys.running - {k}, timers := sys.timers + {k})
  {
    hide Code, Woken;
  }

  // The reconcile of frame f before its call q, while nothing changes.
  function Later(c: Config, s: Store, f: Frame, q: nat): Frame
    requires WellFormed(c)
  {
    f.(pc := q, seen := if f.pc <= 4 < q then At(c, s, SecretCell(ADMIN)) else f.seen)
  }

  // With open gates, what is missing is what the call would change.
  lemma MissingMeans(c: Config, sys: Sys, q: nat)
    requires WellFormed(c) && Underway(c, sys) && HasSpec(c, sys.store)
    requires var f := sys.running[ResourceKey(c, Pki)];
      && f.pc <= q <= 10 && q != 4 && f.body.PkiBody? && f.body.pki.controlPlaneIP != ""
      && (f.pc <= 4 ==> At(c, sys.store, SecretCell(ADMIN)).Some?)
    ensures var a := Code(Later(c, sys.store, sys.running[ResourceKey(c, Pki)], q));
      && a.Apply? && CellOf(Pki, q) < CELLS
      && (Missing(c, sys.store, q) <==> At(c, sys.store, CellOf(Pki, q)) != Some(a.body))
  {
    hide WellFormed, Underway, Intact, Consistent, HasSpec, Owned, Code, At, FrameFits, Onward, Spec, Fresh, Reached,
      StoreFits, Derive, Prefix, CellOf, Good, Ready, KeyOf;
    UnderwayFacts(c, sys);
    var s, f := sys.store, sys.running[ResourceKey(c, Pki)];
    var g := Later(c, s, f, q);
    LaterFits(c, s, f, q);
    FreshIsOnward(c, s, g);
    PkiCall(c, g);
    OnwardIsReady(c, Spec(c, s), g, s);
    FreshDerives(c, Spec(c, s), s, g);
    GoodByCell(c, s, CellOf(Pki, q), Code(g).body);
  }

  lemma LaterFits(c: Config, s: Store, f: Frame, q: nat)
    requires WellFormed(c) && StoreFits(c, s) && FrameFits(c, f) && Reached(f, s) && Fresh(c, s, f)
    requires f.key.kind == Pki && f.body.PkiBody? && f.pc <= q && f.body.pki.controlPlaneIP != ""
    requires f.pc <= 4 ==> At(c, s, SecretCell(ADMIN)).Some?
    ensures var g := Later(c, s, f, q);
      FrameFits(c, g) && Reached(g, s) && Fresh(c, s, g) && g.key.kind == Pki && g.body == f.body
  {
    hide SecretNames, Distinct, PkiConforms;
    assert At(c, s, SecretCell(ADMIN)).Some? ==> CellFits(c, SecretCell(ADMIN), At(c, s, SecretCell(ADMIN)).value);
    OnlyTheAdminGate(c, f);
    hide Needed;
    if q > 4 { AdminIsStored(c, s, f); }
  }

  lemma OnlyTheAdminGate(c: Config, f: Frame)
    requires WellFormed(c) && FrameFits(c, f) && f.key.kind == Pki
    ensures forall i: nat :: Needed(f.key, f.body, i) == if i == 4 then Some(KeyOf(c, SecretCell(ADMIN))) else None
  {
    PkiFrame(c, f);
    var g := f.(pc := 4);
    PkiCall(c, g);
    NeededIsCode(g);
    hide WellFormed, FrameFits, KeyOf;
    forall i: nat | i != 4
      ensures Needed(f.key, f.body, i).None?
    {
      FetchesOnce(f.key, f.body, i);
    }
    hide Needed;
  }

  lemma FetchesOnce(k: Key, body: Body, i: nat)
    requires body.PkiBody? && i != 4
    ensures Needed(k, body, i).None?
  {}

  lemma AdminIsStored(c: Config, s: Store, f: Frame)
    requires WellFormed(c) && FrameFits(c, f) && Reached(f, s) && f.key.kind == Pki
    requires f.pc <= 4 ==> At(c, s, SecretCell(ADMIN)).Some?
    ensures At(c, s, SecretCell(ADMIN)).Some? && KeyOf(c, SecretCell(ADMIN)) in s
  {
    OnlyTheAdminGate(c, f);
    hide Needed, FrameFits, NameOf;
    if f.pc > 4 {
      assert Needed(f.key, f.body, 4).value in s;
    }
  }

  // Gates open, something missing, and every remaining call for something missing fails.
  ghost predicate Forgotten(c: Config, s: Store, f: Frame, oks: seq<bool>)
    requires WellFormed(c) && HasSpec(c, s) && f.body.PkiBody? && |oks| + f.pc > LAST
  {
    && (f.pc <= 4 ==> oks[4 - f.pc] && At(c, s, SecretCell(ADMIN)).Some?)
    && f.body.pki.controlPlaneIP != ""
    && (forall q :: f.pc <= q <= 10 && Missing(c, s, q) ==> !oks[q - f.pc])
    && (exists q: nat :: Missing(c, s, q))
  }

  // Of a Pki reconcile that nothing interrupts, whichever calls fail: the wakeup is lost
  // exactly when the gates are open, something is missing, and every remaining call for
  // something missing fails.
  lemma {:induction false} PkiLostExactly(c: Config, sys: Sys, oks: seq<bool>)
    requires WellFormed(c) && Underway(c, sys) && HasSpec(c, sys.store)
    requires var f := sys.running[ResourceKey(c, Pki)]; f.body.PkiBody? && f.pc <= 11 && |oks| + f.pc > LAST
    ensures var k := ResourceKey(c, Pki);
      var after := Run(sys, Acts(k, oks));
      && k !in after.running && HasSpec(c, after.store)
      && (Covered(c, after, Pki) <==> !Forgotten(c, sys.store, sys.running[k], oks))
    decreases |oks|
  {
    hide WellFormed, Underway, Intact, Consistent, HasSpec, Owned, Step, Code, At, FrameFits, Onward, Spec, Fresh,
      Reached, StoreFits, Run, Covered, Missing, Acts;
    var k := ResourceKey(c, Pki);
    UnderwayFacts(c, sys);
    var f, s, e := sys.running[k], sys.store, Act(k, oks[0]);
    PkiCall(c, f);
    PkiFrame(c, f);
    FirstAct(sys, k, oks);
    ActsEnd(c, sys, k, oks);
    if f.pc > 10 {
      EndsUnasked(c, sys, oks);
    } else if f.pc == 6 && f.body.pki.controlPlaneIP == "" {
      StopStep(sys, k, oks[0]);
      QueuedToTheEnd(c, sys, Pki, oks);
    } else if f.pc == 4 {
      GateCall(c, sys, oks[0]);
      if oks[0] && At(c, s, SecretCell(ADMIN)).Some? {
        PkiLostExactly(c, Step(sys, e), oks[1..]);
        SameFate(c, s, f, Step(sys, e).running[k], oks);
      } else {
        QueuedToTheEnd(c, sys, Pki, oks);
      }
    } else {
      NextPkiCall(c, sys, oks[0]);
      if oks[0] && Missing(c, s, f.pc) {
        QueuedToTheEnd(c, sys, Pki, oks);
      } else {
        PkiLostExactly(c, Step(sys, e), oks[1..]);
        SameFate(c, s, f, Step(sys, e).running[k], oks);
      }
    }
  }

  // A call that decides nothing leaves the outcome to the rest.
  lemma SameFate(c: Config, s: Store, f: Frame, g: Frame, oks: seq<bool>)
    requires WellFormed(c) && HasSpec(c, s) && f.body.PkiBody? && f.pc <= 10 && |oks| + f.pc > LAST
    requires g.body == f.body && g.pc == f.pc + 1
    requires if f.pc == 4 then oks[0] && At(c, s, SecretCell(ADMIN)).Some? else !(oks[0] && Missing(c, s, f.pc))
    ensures Forgotten(c, s, g, oks[1..]) <==> Forgotten(c, s, f, oks)
  {
    hide WellFormed, HasSpec, At, Good, Missing;
    assert !Missing(c, s, 4) by { NoWriteAtGate(c, s); }
    assert forall n :: 0 <= n < |oks| - 1 ==> oks[1..][n] == oks[n + 1];
  }

  lemma NoWriteAtGate(c: Config, s: Store)
    requires WellFormed(c) && HasSpec(c, s)
    ensures !Missing(c, s, 4)
  {}

  // The reconcile ends and nobody has queued it.
  lemma EndsUnasked(c: Config, sys: Sys, oks: seq<bool>)
    requires WellFormed(c) && Underway(c, sys) && HasSpec(c, sys.store) && oks != []
    requires var f := sys.running[ResourceKey(c, Pki)]; f.pc == 11 && f.body.PkiBody? && |oks| + f.pc > LAST
    ensures var after := Run(sys, Acts(ResourceKey(c, Pki), oks));
      && HasSpec(c, after.store)
      && (Covered(c, after, Pki) <==> !Forgotten(c, sys.store, sys.running[ResourceKey(c, Pki)], oks))
  {
    hide WellFormed, Underway, Intact, Consistent, HasSpec, Owned, Step, Code, At, FrameFits, Onward, Spec, Fresh,
      Reached, StoreFits, Run, Acts, Good;
    var k := ResourceKey(c, Pki);
    UnderwayFacts(c, sys);
    PkiCall(c, sys.running[k]);
    PkiFrame(c, sys.running[k]);
    FirstAct(sys, k, oks);
    StopStep(sys, k, oks[0]);
    IdleActs(Step(sys, Act(k, oks[0])), k, oks[1..]);
    NothingMissing(c, sys.store);
    hide Did, Missing;
  }

  lemma NothingMissing(c: Config, s: Store)
    requires WellFormed(c) && HasSpec(c, s)
    ensures Did(c, s, Pki, LAST) <==> forall q: nat :: !Missing(c, s, q)
  {
    hide WellFormed, HasSpec, Good, At;
    if Did(c, s, Pki, LAST) {
      forall q: nat
        ensures !Missing(c, s, q)
      {}
    } else {
      var q :| 0 <= q < LAST && CellOf(Pki, q) < CELLS && !IsSecret(CellOf(Pki, q))
        && !(Good(c, s, CellOf(Pki, q)) || Excused(c, s, CellOf(Pki, q)));
      assert Missing(c, s, q);
    }
  }

  /******* The Loadbalancer reconcile *******/

  // The Service goes through unchanged, and the needed status update fails.
  ghost predicate StatusForgotten(c: Config, s: Store, f: Frame, oks: seq<bool>)
    requires WellFormed(c) && HasSpec(c, s) && f.pc <= 1 && |oks| > LAST
  {
    && (f.pc == 0 ==> oks[0] && Good(c, s, SERVICE))
    && SeenIngress(At(c, s, INGRESS)) != [] && !Good(c, s, LB_STATUS) && !oks[1 - f.pc]
  }

  // Of a Loadbalancer reconcile that nothing interrupts, whichever calls fail: the wakeup is
  // lost exactly when the Service needed nothing, there is an address that the status does
  // not have, and the status update fails.
  lemma LoadbalancerLostExactly(c: Config, sys: Sys, oks: seq<bool>)
    requires WellFormed(c) && Poised(c, sys, Loadbalancer) && Owned(c, sys.store) && HasSpec(c, sys.store)
    requires ResourceKey(c, Loadbalancer) in sys.running
    requires sys.running[ResourceKey(c, Loadbalancer)].pc <= 1 && |oks| > LAST + 1
    ensures var k := ResourceKey(c, Loadbalancer);
      var after := Run(sys, Acts(k, oks));
      && k !in after.running && HasSpec(c, after.store)
      && (Covered(c, after, Loadbalancer) <==> !StatusForgotten(c, sys.store, sys.running[k], oks))
  {
    hide WellFormed, Intact, Consistent, HasSpec, Owned, Step, Code, At, OnTrack, Run, Covered, Acts, Good, Poised;
    var k := ResourceKey(c, Loadbalancer);
    PoisedFacts(c, sys, Loadbalancer);
    var f := sys.running[k];
    FirstAct(sys, k, oks);
    ActsEnd(c, sys, k, oks);
    if f.pc == 1 {
      StatusCall(c, sys, oks);
    } else if oks[0] && Good(c, sys.store, SERVICE) {
      ServiceCall(c, sys);
      StatusCall(c, Step(sys, Act(k, true)), oks[1..]);
    } else {
      ServiceRetries(c, sys, oks[0]);
      QueuedToTheEnd(c, sys, Loadbalancer, oks);
    }
  }

  lemma LoadbalancerCode0(c: Config, f: Frame)
    requires WellFormed(c) && FrameFits(c, f) && f.key.kind == Loadbalancer
    ensures Remembered(f.body) == 0
    ensures f.pc == 0 ==>
      && Code(f).Apply? && Code(f).strict && CellOf(Loadbalancer, f.pc) == SERVICE
      && Code(f).key == KeyOf(c, SERVICE)
    ensures f.pc == 1 ==> if SeenIngress(f.seen) == [] then Code(f) == Stop(Done) else Code(f).Report?
    ensures f.pc >= 2 ==> Code(f) == Stop(Done)
  {
    if f.pc == 0 { EveryCallFits(c, f); }
    hide WellFormed, KeyOf;
  }

  // The Service is current: the call changes nothing and the reconcile goes on.
  lemma ServiceCall(c: Config, sys: Sys)
    requires WellFormed(c) && Poised(c, sys, Loadbalancer) && Owned(c, sys.store) && HasSpec(c, sys.store)
    requires ResourceKey(c, Loadbalancer) in sys.running
    requires sys.running[ResourceKey(c, Loadbalancer)].pc == 0 && Good(c, sys.store, SERVICE)
    ensures var k := ResourceKey(c, Loadbalancer);
      var after := Step(sys, Act(k, true));
      && after.store == sys.store && Poised(c, after, Loadbalancer)
      && k in after.running && after.running[k].pc == 1
  {
    hide WellFormed, Intact, Consistent, HasSpec, Owned, Step, Code, At, OnTrack, Run, Covered, Acts, Good, Onward,
      Derive, Prefix, Spec, Reached, StoreFits, FrameFits, Did, Exec, Calm, Untouched;
    var k := ResourceKey(c, Loadbalancer);
    PoisedFacts(c, sys, Loadbalancer);
    var f, s, e := sys.running[k], sys.store, Act(k, true);
    LoadbalancerCode0(c, f);
    ServiceIsWritten(c, s, f);
    SilentCall(sys, k);
    ActIsUntouched(c, e);
    StepIntact(c, sys, e);
    CallDid(c, s, f);
  }

  lemma ServiceIsWritten(c: Config, s: Store, f: Frame)
    requires WellFormed(c) && StoreFits(c, s) && HasSpec(c, s) && FrameFits(c, f) && Reached(f, s) && OnTrack(c, s, f)
    requires f.key.kind == Loadbalancer && f.pc == 0 && Good(c, s, SERVICE)
    ensures Exec(f, s, true).0 == s && Exec(f, s, true).1.Next? && Exec(f, s, true).1.frame.pc == 1
    ensures Exec(f, s, true).1.frame.key == f.key
  {
    hide WellFormed, HasSpec, Code, At, OnTrack, Good, Onward, Derive, Prefix, Spec, Reached, StoreFits, FrameFits,
      Exec, Ready;
    LoadbalancerCode0(c, f);
    OnTrackIsOnward(c, s, f);
    OnwardIsReady(c, Spec(c, s), f, s);
    FreshDerives(c, Spec(c, s), s, f);
    GoodByCell(c, s, SERVICE, Code(f).body);
    WrittenCell(c, Spec(c, s), f, s);
    StoredBody(c, s, SERVICE);
    PutSame(s, KeyOf(c, SERVICE), Some(f.key), Code(f).body);
    Advanced(f, s, true);
  }

  lemma PutSame(s: Store, k: Key, owner: Option<Key>, body: Body)
    requires BodyAt(s, k) == Some(body)
    ensures Put(s, k, owner, body) == s
  {}

  lemma SilentCall(sys: Sys, k: Key)
    requires k in sys.running && Exec(sys.running[k], sys.store, true).0 == sys.store
    requires Exec(sys.running[k], sys.store, true).1.Next?
    ensures Step(sys, Act(k, true)) == sys.(running := sys.running[k := Exec(sys.running[k], sys.store, true).1.frame])
  {
    hide Exec, Woken, TargetKey;
  }

  // A Service that has to be written queues the load balancer, and so does a failing call.
  lemma ServiceRetries(c: Config, sys: Sys, ok: bool)
    requires WellFormed(c) && Poised(c, sys, Loadbalancer) && Owned(c, sys.store) && HasSpec(c, sys.store)
    requires ResourceKey(c, Loadbalancer) in sys.running && sys.running[ResourceKey(c, Loadbalancer)].pc == 0
    requires !(ok && Good(c, sys.store, SERVICE))
    ensures ResourceKey(c, Loadbalancer) in Step(sys, Act(ResourceKey(c, Loadbalancer), ok)).pending
  {
    hide WellFormed, Intact, Consistent, HasSpec, Owned, Step, Code, At, OnTrack, Good, Onward, Derive, Prefix, Spec,
      Reached, StoreFits, FrameFits, Did, Exec, Untouched, Ready, KeyOf;
    var k := ResourceKey(c, Loadbalancer);
    PoisedFacts(c, sys, Loadbalancer);
    var f, s := sys.running[k], sys.store;
    LoadbalancerCode0(c, f);
    StepIsAct(sys, k, ok);
    ActQueues(sys, k, ok);
    if ok {
      OnwardIsReady(c, Spec(c, s), f, s);
      FreshDerives(c, Spec(c, s), s, f);
      GoodByCell(c, s, SERVICE, Code(f).body);
      WrittenCell(c, Spec(c, s), f, s);
      CellByPut(c, f, s, SERVICE);
      ActIsUntouched(c, Act(k, ok));
      OwnChangeWakes(c, sys, Act(k, ok), SERVICE, Loadbalancer);
    } else {
      StrictFails(f, s);
    }
  }

  lemma StrictFails(f: Frame, s: Store)
    requires Code(f).Apply? && Code(f).strict
    ensures Exec(f, s, false).1 == Halt(Failed)
  {
    hide Code;
  }

  lemma StatusCall(c: Config, sys: Sys, oks: seq<bool>)
    requires WellFormed(c) && Poised(c, sys, Loadbalancer) && HasSpec(c, sys.store) && |oks| > LAST
    requires ResourceKey(c, Loadbalancer) in sys.running && sys.running[ResourceKey(c, Loadbalancer)].pc == 1
    ensures var after := Run(sys, Acts(ResourceKey(c, Loadbalancer), oks));
      && HasSpec(c, after.store)
      && (Covered(c, after, Loadbalancer) <==>
            SeenIngress(At(c, sys.store, INGRESS)) == [] || Good(c, sys.store, LB_STATUS) || oks[0])
  {
    hide WellFormed, Intact, Consistent, HasSpec, Owned, Step, Code, At, OnTrack, Good, Onward, Spec, Reached,
      StoreFits, FrameFits, Did, Untouched, Covered, Run, Acts, RunsAgain, Unneeded, Derive, Prefix;
    var k := ResourceKey(c, Loadbalancer);
    PoisedFacts(c, sys, Loadbalancer);
    PoisedKind(c, sys, Loadbalancer);
    var f, e := sys.running[k], Act(k, oks[0]);
    LoadbalancerCode0(c, f);
    SeesIngress(c, sys.store, f);
    CoveredExactly(c, sys, Loadbalancer, oks[0]);
    if Lenient(Code(f)) {
      NeededExactly(c, sys, Loadbalancer);
      WhoIsLenient(c, f);
      UnneededMeans(c, sys.store, f);
      NotYetAgain(c, sys);
      if !oks[0] { Dropped(sys, k); }
    }
    FirstAct(sys, k, oks);
    ActIsUntouched(c, e);
    StepIntact(c, sys, e);
    ActAdvances(sys, k, oks[0]);
    LastCall(c, Step(sys, e), oks[1..]);
  }

  lemma NotYetAgain(c: Config, sys: Sys)
    requires Poised(c, sys, Loadbalancer)
    ensures !RunsAgain(sys, ResourceKey(c, Loadbalancer))
  {
    hide WellFormed, Intact, HasSpec, OnTrack;
  }

  lemma SeesIngress(c: Config, s: Store, f: Frame)
    requires WellFormed(c) && HasSpec(c, s) && Onward(c, Spec(c, s), f, s) && f.key.kind == Loadbalancer && f.pc == 1
    ensures f.seen == At(c, s, INGRESS)
  {
    OnwardIsFresh(c, Spec(c, s), f, s);
    OnwardFits(c, Spec(c, s), f, s);
    LoadbalancerCode0(c, f);
    hide WellFormed, Onward, At, FrameFits;
  }

  // After the status update nothing is decided any more.
  lemma LastCall(c: Config, sys: Sys, oks: seq<bool>)
    requires WellFormed(c) && Intact(c, sys) && HasSpec(c, sys.store) && oks != []
    requires var k := ResourceKey(c, Loadbalancer); k in sys.running ==> sys.running[k].pc == 2
    ensures var after := Run(sys, Acts(ResourceKey(c, Loadbalancer), oks));
      && HasSpec(c, after.store)
      && (Covered(c, sys, Loadbalancer) ==> Covered(c, after, Loadbalancer))
      && (ResourceKey(c, Loadbalancer) !in sys.running ==> after == sys)
  {
    hide WellFormed, Consistent, HasSpec, Step, Code, Covered, Run, Acts, Passing, FrameFits, Unneeded, RunsAgain;
    var k := ResourceKey(c, Loadbalancer);
    FirstAct(sys, k, oks);
    if k in sys.running {
      var f := sys.running[k];
      IntactIsConsistent(c, sys);
      RunningFits(c, sys, k);
      LoadbalancerCode0(c, f);
      StopStep(sys, k, oks[0]);
      if Covered(c, sys, Loadbalancer) { CoveredExactly(c, sys, Loadbalancer, oks[0]); }
    } else {
      StepIsAct(sys, k, oks[0]);
    }
    IdleActs(Step(sys, Act(k, oks[0])), k, oks[1..]);
  }
}
