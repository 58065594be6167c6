// The six Reconcile methods and the joint machine.  A worker that takes a queued key and
// makes the calls of its reconcile leaves the store that the method leaves, for every
// pattern of failing calls, and files the key as the method's result says.
module Refinement {
  import opened Api
  import opened Programs
  import opened Machine
  import opened Reconcilers

  // Whom the calls of a reconcile in progress wake, call number n first.
  function Wakes(f: Frame, s: Store, oks: nat -> bool, n: nat): set<Key>
    decreases LAST - f.pc
  {
    if Code(f).Stop? then {}
    else
      var (s', progress) := Exec(f, s, oks(n));
      (if s' == s then {} else Woken(s, s', Code(f).key)) +
      (if progress.Next? then Wakes(progress.frame, s', oks, n + 1) else {})
  }

  // The next m events of a worker on k.  Where the reconcile returns without a call, the
  // event is the return; after that nothing happens any more.
  function Calls(k: Key, oks: nat -> bool, n: nat, m: nat): seq<Event> {
    seq(m, i requires 0 <= i => Act(k, oks(n + i)))
  }

  // The state after a reconcile of k that began in sys: its frame is gone, the store and the
  // woken keys are those of its calls, and its own key is filed by the outcome.
  function Filed(sys: Sys, k: Key, s: Store, woken: set<Key>, outcome: Outcome): Sys {
    Sys(s,
      sys.running - {k},
      sys.pending + woken + (if outcome == Failed then {k} else {}),
      sys.timers + (if outcome == RequeueAfter then {k} else {}))
  }

  lemma NextEvent(sys: Sys, k: Key, oks: nat -> bool, n: nat, m: nat)
    requires m > 0
    ensures Run(sys, Calls(k, oks, n, m)) == Run(Step(sys, Act(k, oks(n))), Calls(k, oks, n + 1, m - 1))
  {
    hide Step;
    assert Calls(k, oks, n, m) == [Act(k, oks(n))] + Calls(k, oks, n + 1, m - 1);
    RunConcat(sys, [Act(k, oks(n))], Calls(k, oks, n + 1, m - 1));
    assert [Act(k, oks(n))][..0] == [];
    assert Run(sys, [Act(k, oks(n))]) == Step(sys, Act(k, oks(n)));
  }

  lemma {:induction false} NobodyWorks(sys: Sys, k: Key, oks: nat -> bool, n: nat, m: nat)
    requires k !in sys.running
    ensures Run(sys, Calls(k, oks, n, m)) == sys
    decreases m
  {
    if m == 0 {
      assert Calls(k, oks, n, m) == [];
    } else {
      NextEvent(sys, k, oks, n, m);
      StepIsAct(sys, k, oks(n));
      NobodyWorks(sys, k, oks, n + 1, m - 1);
    }
  }

  lemma ShortCode(f: Frame)
    ensures f.pc >= LAST ==> Code(f).Stop?
  {}

  // One call of the machine.
  lemma OneCall(sys: Sys, k: Key, ok: bool)
    requires k in sys.running && !Code(sys.running[k]).Stop?
    ensures var f := sys.running[k];
      var (s', progress) := Exec(f, sys.store, ok);
      var woken := if s' == sys.store then {} else Woken(sys.store, s', Code(f).key);
      var after := Step(sys, Act(k, ok));
      && (progress.Next? ==>
            && progress.frame.pc == f.pc + 1
            && after == Sys(s', sys.running[k := progress.frame], sys.pending + woken, sys.timers))
      && (progress.Halt? ==> after == Filed(sys, k, s', woken, progress.outcome))
  {
    hide Code, Woken;
  }

  lemma OneReturn(sys: Sys, k: Key, ok: bool)
    requires k in sys.running && Code(sys.running[k]).Stop?
    ensures Step(sys, Act(k, ok)) == Filed(sys, k, sys.store, {}, Code(sys.running[k]).outcome)
  {
    hide Code, Woken;
  }

  // The rest of a reconcile: as many events as it has calls, and one for its return.
  lemma {:induction false} RestIsFiled(sys: Sys, k: Key, oks: nat -> bool, n: nat, m: nat)
    requires k in sys.running && sys.running[k].pc <= LAST < m + sys.running[k].pc
    ensures var f := sys.running[k];
      var (s', outcome, _) := Finish(f, sys.store, oks, n);
      Run(sys, Calls(k, oks, n, m)) == Filed(sys, k, s', Wakes(f, sys.store, oks, n), outcome)
    decreases LAST - sys.running[k].pc
  {
    hide Step, Code, Exec, Woken;
    var f := sys.running[k];
    ShortCode(f);
    NextEvent(sys, k, oks, n, m);
    if Code(f).Stop? {
      OneReturn(sys, k, oks(n));
      NobodyWorks(Step(sys, Act(k, oks(n))), k, oks, n + 1, m - 1);
    } else {
      OneCall(sys, k, oks(n));
      var (s', progress) := Exec(f, sys.store, oks(n));
      if progress.Next? {
        RestIsFiled(Step(sys, Act(k, oks(n))), k, oks, n + 1, m - 1);
        assert sys.running[k := progress.frame] - {k} == sys.running - {k};
      } else {
        NobodyWorks(Step(sys, Act(k, oks(n))), k, oks, n + 1, m - 1);
      }
    }
  }

  // A worker on the queued key k, whose read is call number n.
  function Worker(k: Key, oks: nat -> bool, n: nat, m: nat): seq<Event> {
    [Start(k, oks(n))] + Calls(k, oks, n + 1, m)
  }

  // Whom the whole reconcile wakes: nobody if the read fails or finds nothing.
  function WokenBy(s: Store, k: Key, oks: nat -> bool, n: nat): set<Key> {
    if oks(n) && k in s then Wakes(Begin(s, k), s, oks, n + 1) else {}
  }

  // The method's store, and the key where the method's result sends it: back into the queue
  // after an error, a failing read included, into the timers to be retried later, nowhere
  // when it is done or its resource is gone.  Besides, whoever watches a changed object is
  // queued.
  lemma ReconcileIsARun(sys: Sys, k: Key, oks: nat -> bool, n: nat, m: nat)
    requires k in sys.pending && k !in sys.running && Reconciled(k.kind)
    requires k in sys.store ==> Typed(k.kind, sys.store[k].body)
    requires m > LAST
    ensures var (s', outcome, _) := ReconcileRun(sys.store, k, oks, n);
      var after := Run(sys, Worker(k, oks, n, m));
      var woken := WokenBy(sys.store, k, oks, n);
      && after.store == s' && after.running == sys.running
      && after.pending == (sys.pending - {k}) + woken + (if outcome == Failed then {k} else {})
      && after.timers == sys.timers + (if outcome == RequeueAfter then {k} else {})
  {
    hide Code, Exec, Woken, Typed, Reconciled;
    var taken := Step(sys, Start(k, oks(n)));
    TakenFirst(sys, k, oks, n, m);
    if oks(n) && k in sys.store {
      RestIsFiled(taken, k, oks, n + 1, m);
      assert taken.running - {k} == sys.running;
    } else {
      NobodyWorks(taken, k, oks, n + 1, m);
    }
    hide Step;
  }

  lemma TakenFirst(sys: Sys, k: Key, oks: nat -> bool, n: nat, m: nat)
    ensures Run(sys, Worker(k, oks, n, m)) == Run(Step(sys, Start(k, oks(n))), Calls(k, oks, n + 1, m))
  {
    hide Step;
    var e := Start(k, oks(n));
    RunConcat(sys, [e], Calls(k, oks, n + 1, m));
    assert [e][..0] == [];
    assert Run(sys, [e]) == Step(sys, e);
  }
}
