// Tenants do not interfere: everything that happens in one namespace is a run of that
// namespace alone, and steps of different namespaces commute.
module Isolation {
  import opened Api
  import opened Programs
  import opened Machine

  function InNs<V>(m: map<Key, V>, ns: string): map<Key, V> {
    map k | k in m && k.ns == ns :: m[k]
  }

  function KeysIn(s: set<Key>, ns: string): set<Key> {
    set k | k in s && k.ns == ns
  }

  function Project(sys: Sys, ns: string): Sys {
    Sys(InNs(sys.store, ns), InNs(sys.running, ns), KeysIn(sys.pending, ns), KeysIn(sys.timers, ns))
  }

  // None for the restart of the operator, which concerns every namespace.
  function NsOf(e: Event): Option<string> {
    if e.Crash? then None else Some(e.key.ns)
  }

  // the events that concern one namespace
  function Relevant(es: seq<Event>, ns: string): seq<Event> {
    if es == [] then []
    else
      var rest, last := Relevant(es[..|es| - 1], ns), es[|es| - 1];
      if NsOf(last) in {None, Some(ns)} then rest + [last] else rest
  }

  // Frames are filed under their own key, and owners live where their dependents do.
  ghost predicate Local(sys: Sys) {
    && (forall k :: k in sys.running ==> sys.running[k].key == k)
    && OwnersLocal(sys.store)
  }

  ghost predicate OwnersLocal(s: Store) {
    forall k :: k in s && s[k].owner.Some? ==> s[k].owner.value.ns == k.ns
  }

  ghost predicate AgreeOutside(s: Store, s': Store, ns: string) {
    forall k: Key :: k.ns != ns ==> (k in s <==> k in s') && (k in s ==> s[k] == s'[k])
  }

  lemma SameStore(s: Store, s': Store, ns: string)
    requires AgreeOutside(s, s', ns)
    ensures InNs(s', ns) == InNs(s, ns) <==> s' == s
    ensures forall m :: m != ns ==> InNs(s', m) == InNs(s, m)
  {
    if InNs(s', ns) == InNs(s, ns) {
      forall j
        ensures j in s' <==> j in s
        ensures j in s ==> s'[j] == s[j]
      {
        assert j.ns == ns ==> (j in InNs(s', ns) <==> j in s') && (j in InNs(s, ns) <==> j in s);
      }
      assert s' == s;
    }
  }

  lemma WokenLocal(s: Store, s': Store, k: Key)
    requires OwnersLocal(s) && OwnersLocal(s')
    ensures forall w :: w in Woken(s, s', k) ==> w.ns == k.ns
    ensures Woken(InNs(s, k.ns), InNs(s', k.ns), k) == Woken(s, s', k)
  {
    hide Owns, Reconciled;
    assert ObjectOf(k).ns == k.ns;
  }

  lemma CommitLocal(sys: Sys, s': Store, k: Key, ns: string)
    requires OwnersLocal(sys.store) && OwnersLocal(s')
    requires AgreeOutside(sys.store, s', k.ns)
    ensures k.ns != ns ==> Project(Commit(sys, s', k), ns) == Project(sys, ns)
    ensures k.ns == ns ==> Project(Commit(sys, s', k), ns) == Commit(Project(sys, ns), InNs(s', ns), k)
  {
    hide Woken, OwnersLocal, AgreeOutside;
    SameStore(sys.store, s', k.ns);
    WokenLocal(sys.store, s', k);
    var w := Woken(sys.store, s', k);
    assert KeysIn(sys.pending + w, ns) == if k.ns == ns then KeysIn(sys.pending, ns) + w else KeysIn(sys.pending, ns);
  }

  lemma ExecLocal(f: Frame, s: Store, ok: bool)
    requires OwnersLocal(s)
    ensures OwnersLocal(Exec(f, s, ok).0)
    ensures AgreeOutside(s, Exec(f, s, ok).0, f.key.ns)
    ensures Exec(f, InNs(s, f.key.ns), ok).1 == Exec(f, s, ok).1
    ensures Exec(f, InNs(s, f.key.ns), ok).0 == InNs(Exec(f, s, ok).0, f.key.ns)
  {
    hide Code;
    assert StatusKey(f.key).ns == f.key.ns;
    if !Code(f).Stop? {
      SameAnswers(f, s);
      hide Admits, Unchanged;
      if Code(f).Apply? {
        PutInNs(s, Code(f).key, Some(f.key), Code(f).body);
      } else if Code(f).Report? {
        PutInNs(s, Code(f).key, None, Code(f).body);
      }
    }
  }

  lemma SameAnswers(f: Frame, s: Store)
    requires !Code(f).Stop?
    ensures var t := InNs(s, f.key.ns);
      && BodyAt(t, Code(f).key) == BodyAt(s, Code(f).key)
      && BodyAt(t, StatusKey(Code(f).key)) == BodyAt(s, StatusKey(Code(f).key))
      && Unchanged(f, t) == Unchanged(f, s)
      && (Code(f).Apply? ==> Admits(t, Code(f).key, Code(f).body) == Admits(s, Code(f).key, Code(f).body))
  {
    hide Code;
    var t := InNs(s, f.key.ns);
    assert StatusKey(f.key).ns == f.key.ns;
    assert BodyAt(t, f.key) == BodyAt(s, f.key) && BodyAt(t, StatusKey(f.key)) == BodyAt(s, StatusKey(f.key));
    assert BodyAt(t, Code(f).key) == BodyAt(s, Code(f).key);
  }

  lemma PutInNs(s: Store, k: Key, owner: Option<Key>, body: Body)
    requires OwnersLocal(s) && (owner.Some? ==> owner.value.ns == k.ns)
    ensures OwnersLocal(Put(s, k, owner, body)) && AgreeOutside(s, Put(s, k, owner, body), k.ns)
    ensures Put(InNs(s, k.ns), k, owner, body) == InNs(Put(s, k, owner, body), k.ns)
  {}

  lemma TargetIsLocal(f: Frame)
    ensures TargetKey(f).ns == f.key.ns
  {
    hide Code;
  }

  lemma NextKeepsKey(f: Frame, s: Store, ok: bool)
    ensures var p := Exec(f, s, ok).1; p.Next? ==> p.frame.key == f.key
  {
    hide Code;
  }

  lemma FrameInside(sys: Sys, k: Key, ns: string)
    requires k in sys.running && k.ns == ns
    ensures k in InNs(sys.running, ns) && InNs(sys.running, ns)[k] == sys.running[k]
  {}

  lemma RequeueIsLocal(after: Sys, k: Key, progress: Progress)
    requires Local(after) && (progress.Next? ==> progress.frame.key == k)
    ensures Local(Requeue(after, k, progress))
  {
    hide OwnersLocal;
  }

  lemma ActLocal(sys: Sys, k: Key, ok: bool, ns: string)
    requires Local(sys) && k in sys.running
    ensures Local(ActStep(sys, k, ok))
    ensures k.ns != ns ==> Project(ActStep(sys, k, ok), ns) == Project(sys, ns)
    ensures k.ns == ns ==> Project(ActStep(sys, k, ok), ns) == ActStep(Project(sys, ns), k, ok)
  {
    hide Exec, Code, AgreeOutside, OwnersLocal, TargetKey, InNs, KeysIn, Requeue, Woken;
    var f := sys.running[k];
    var (s', progress) := Exec(f, sys.store, ok);
    ExecLocal(f, sys.store, ok);
    TargetIsLocal(f);
    NextKeepsKey(f, sys.store, ok);
    if k.ns == ns { FrameInside(sys, k, ns); }
    var after := Commit(sys, s', TargetKey(f));
    CommitLocal(sys, s', TargetKey(f), ns);
    RequeueIsLocal(after, k, progress);
    hide Commit;
    RequeueLocal(after, k, ns, progress);
  }

  lemma MapLocal<V>(m: map<Key, V>, k: Key, v: V, ns: string)
    ensures InNs(m[k := v], ns) == if k.ns == ns then InNs(m, ns)[k := v] else InNs(m, ns)
  {}

  lemma MapWithout<V>(m: map<Key, V>, k: Key, ns: string)
    ensures InNs(m - {k}, ns) == if k.ns == ns then InNs(m, ns) - {k} else InNs(m, ns)
  {}

  lemma SetLocal(s: set<Key>, k: Key, ns: string)
    ensures KeysIn(s + {k}, ns) == if k.ns == ns then KeysIn(s, ns) + {k} else KeysIn(s, ns)
    ensures KeysIn(s - {k}, ns) == if k.ns == ns then KeysIn(s, ns) - {k} else KeysIn(s, ns)
  {}

  lemma RequeueLocal(after: Sys, k: Key, ns: string, progress: Progress)
    ensures k.ns != ns ==> Project(Requeue(after, k, progress), ns) == Project(after, ns)
    ensures k.ns == ns ==> Project(Requeue(after, k, progress), ns) == Requeue(Project(after, ns), k, progress)
  {
    hide InNs, KeysIn;
    MapWithout(after.running, k, ns);
    if progress.Next? {
      MapLocal(after.running, k, progress.frame, ns);
    }
    SetLocal(after.timers, k, ns);
    SetLocal(after.pending, k, ns);
  }

  lemma PutLocal(sys: Sys, k: Key, body: Body, ns: string)
    requires Local(sys)
    ensures var r := Commit(sys, Put(sys.store, k, None, body), k);
      && Local(r)
      && (k.ns != ns ==> Project(r, ns) == Project(sys, ns))
      && (k.ns == ns ==>
            Project(r, ns) == Commit(Project(sys, ns), Put(InNs(sys.store, ns), k, None, body), k))
  {
    hide Woken, InNs, KeysIn, Put, OwnersLocal, AgreeOutside;
    PutInNs(sys.store, k, None, body);
    CommitLocal(sys, Put(sys.store, k, None, body), k, ns);
  }

  lemma RemoveInNs(s: Store, k: Key)
    requires OwnersLocal(s)
    ensures OwnersLocal(Remove(s, k)) && AgreeOutside(s, Remove(s, k), k.ns)
    ensures Remove(InNs(s, k.ns), k) == InNs(Remove(s, k), k.ns)
  {}

  lemma RemoveLocal(sys: Sys, k: Key, ns: string)
    requires Local(sys)
    ensures var r := Commit(sys, Remove(sys.store, k), k);
      && Local(r)
      && (k.ns != ns ==> Project(r, ns) == Project(sys, ns))
      && (k.ns == ns ==> Project(r, ns) == Commit(Project(sys, ns), Remove(InNs(sys.store, ns), k), k))
  {
    hide Woken, InNs, KeysIn, Remove, OwnersLocal, AgreeOutside;
    RemoveInNs(sys.store, k);
    CommitLocal(sys, Remove(sys.store, k), k, ns);
  }

  // What an event does to a namespace: nothing from outside, the same from inside.
  ghost predicate LocalStep(sys: Sys, e: Event, ns: string) {
    && Local(Step(sys, e))
    && (!e.Crash? && e.key.ns != ns ==> Project(Step(sys, e), ns) == Project(sys, ns))
    && (!e.Crash? && e.key.ns == ns ==> Project(Step(sys, e), ns) == Step(Project(sys, ns), e))
  }

  lemma SameInside(sys: Sys, ns: string, k: Key)
    requires k.ns == ns
    ensures k in InNs(sys.store, ns) <==> k in sys.store
    ensures k in sys.store ==> InNs(sys.store, ns)[k] == sys.store[k]
  {}

  lemma SameQueues(sys: Sys, ns: string, k: Key)
    requires k.ns == ns
    ensures k in KeysIn(sys.pending, ns) <==> k in sys.pending
    ensures k in KeysIn(sys.timers, ns) <==> k in sys.timers
    ensures k in InNs(sys.running, ns) <==> k in sys.running
  {}

  lemma StartsSame(sys: Sys, k: Key, ns: string)
    requires k.ns == ns && k in sys.store
    ensures k in InNs(sys.store, ns) && Begin(InNs(sys.store, ns), k) == Begin(sys.store, k)
    ensures InNs(sys.store, ns)[k].body == sys.store[k].body
  {
    assert StatusKey(k).ns == ns;
    assert BodyAt(InNs(sys.store, ns), StatusKey(k)) == BodyAt(sys.store, StatusKey(k));
  }

  lemma StartLocal(sys: Sys, k: Key, ok: bool, ns: string)
    requires Local(sys)
    ensures LocalStep(sys, Start(k, ok), ns)
  {
    if k.ns == ns {
      SameQueues(sys, ns, k);
      SameInside(sys, ns, k);
      if k in sys.store { StartsSame(sys, k, ns); }
    }
    SetLocal(sys.pending, k, ns);
    if k in sys.store {
      MapLocal(sys.running, k, Begin(sys.store, k), ns);
    }
    if k in sys.store { LocalBegin(sys, k); }
    hide InNs, KeysIn, Begin, OwnersLocal, Typed, Reconciled;
  }

  lemma LocalBegin(sys: Sys, k: Key)
    requires k in sys.store
    ensures Begin(sys.store, k).key == k
  {}

  lemma FireLocal(sys: Sys, k: Key, ns: string)
    requires Local(sys)
    ensures LocalStep(sys, Fire(k), ns)
  {
    if k.ns == ns { SameQueues(sys, ns, k); }
    SetLocal(sys.pending, k, ns);
    SetLocal(sys.timers, k, ns);
    hide InNs, KeysIn, OwnersLocal;
  }

  lemma ResyncLocal(sys: Sys, k: Key, ns: string)
    requires Local(sys)
    ensures LocalStep(sys, Resync(k), ns)
  {
    SetLocal(sys.pending, k, ns);
    hide InNs, KeysIn, OwnersLocal;
  }

  lemma CrashLocal(sys: Sys, ns: string)
    requires Local(sys)
    ensures Local(Step(sys, Crash))
    ensures Project(Step(sys, Crash), ns) == Step(Project(sys, ns), Crash)
  {
    hide Reconciled;
  }

  lemma AssignStep(sys: Sys, k: Key, ingress: seq<string>)
    ensures Step(sys, Assign(k, ingress)) ==
      if k.kind == Service && k in sys.store
      then Commit(sys, Put(sys.store, StatusKey(k), None, ServiceStatusBody(ingress)), StatusKey(k))
      else sys
  {}

  lemma IssueStep(sys: Sys, k: Key, data: SecretData)
    ensures Step(sys, Issue(k, data)) ==
      if Issuable(sys.store, k)
      then Commit(sys, Put(sys.store, SecretKeyOf(sys.store, k), None, SecretBody(data)), SecretKeyOf(sys.store, k))
      else sys
  {
    hide Commit, Put;
  }

  lemma EditStep(sys: Sys, k: Key, spec: ControlPlaneSpec)
    ensures Step(sys, Edit(k, spec)) ==
      if k.kind == ControlPlane then Commit(sys, Put(sys.store, k, None, ControlPlaneBody(spec)), k) else sys
  {}

  lemma TamperStep(sys: Sys, k: Key, body: Body)
    ensures Step(sys, Tamper(k, body)) ==
      if k in sys.store && Admits(sys.store, k, body) then Commit(sys, Put(sys.store, k, None, body), k) else sys
  {}

  lemma AssignLocal(sys: Sys, k: Key, ingress: seq<string>, ns: string)
    requires Local(sys)
    ensures LocalStep(sys, Assign(k, ingress), ns)
  {
    hide Step, Commit, Put, InNs, KeysIn, Local;
    AssignStep(sys, k, ingress);
    AssignStep(Project(sys, ns), k, ingress);
    if k.ns == ns { SameInside(sys, ns, k); }
    PutLocal(sys, StatusKey(k), ServiceStatusBody(ingress), ns);
  }

  lemma IssueLocal(sys: Sys, k: Key, data: SecretData, ns: string)
    requires Local(sys)
    ensures LocalStep(sys, Issue(k, data), ns)
  {
    hide Step, Commit, Put, InNs, KeysIn, Local;
    IssueStep(sys, k, data);
    IssueStep(Project(sys, ns), k, data);
    if k.ns == ns { SameIssuance(sys, k, ns); }
    if Issuable(sys.store, k) {
      PutLocal(sys, SecretKeyOf(sys.store, k), SecretBody(data), ns);
    }
  }

  lemma SameIssuance(sys: Sys, k: Key, ns: string)
    requires k.ns == ns
    ensures Issuable(InNs(sys.store, ns), k) <==> Issuable(sys.store, k)
    ensures Issuable(sys.store, k) ==> SecretKeyOf(InNs(sys.store, ns), k) == SecretKeyOf(sys.store, k)
  {
    forall j: Key | j.ns == ns
      ensures j in InNs(sys.store, ns) <==> j in sys.store
      ensures j in sys.store ==> InNs(sys.store, ns)[j] == sys.store[j]
    {
      SameInside(sys, ns, j);
    }
    hide InNs;
  }

  lemma EditLocal(sys: Sys, k: Key, spec: ControlPlaneSpec, ns: string)
    requires Local(sys)
    ensures LocalStep(sys, Edit(k, spec), ns)
  {
    hide Step, Commit, Put, InNs, KeysIn, Local;
    EditStep(sys, k, spec);
    EditStep(Project(sys, ns), k, spec);
    PutLocal(sys, k, ControlPlaneBody(spec), ns);
  }

  lemma TamperLocal(sys: Sys, k: Key, body: Body, ns: string)
    requires Local(sys)
    ensures LocalStep(sys, Tamper(k, body), ns)
  {
    hide Step, Commit, Put, InNs, KeysIn, Local;
    TamperStep(sys, k, body);
    TamperStep(Project(sys, ns), k, body);
    if k.ns == ns { SameInside(sys, ns, k); }
    PutLocal(sys, k, body, ns);
  }

  lemma WriteEventLocal(sys: Sys, e: Event, ns: string)
    requires Local(sys)
    requires e.Assign? || e.Issue? || e.Edit? || e.Tamper?
    ensures LocalStep(sys, e, ns)
  {
    hide LocalStep, Local;
    match e
    case Assign(k, ingress) => AssignLocal(sys, k, ingress, ns);
    case Issue(k, data) => IssueLocal(sys, k, data, ns);
    case Edit(k, spec) => EditLocal(sys, k, spec, ns);
    case Tamper(k, body) => TamperLocal(sys, k, body, ns);
  }

  lemma RemoveEventLocal(sys: Sys, e: Event, ns: string)
    requires Local(sys) && Removes(e)
    ensures Local(Step(sys, e))
    ensures e.key.ns != ns ==> Project(Step(sys, e), ns) == Project(sys, ns)
    ensures e.key.ns == ns ==> Project(Step(sys, e), ns) == Step(Project(sys, ns), e)
  {
    var s, t, k := sys.store, InNs(sys.store, ns), e.key;
    assert k.ns == ns && k in s && s[k].owner.Some? ==> s[k].owner.value.ns == ns;
    assert forall j :: j in t <==> j in s && j.ns == ns;
    assert forall j :: j in t ==> t[j] == s[j];
    hide Commit, Remove, InNs, KeysIn, Local;
    RemoveLocal(sys, k, ns);
  }

  lemma StepLocal(sys: Sys, e: Event, ns: string)
    requires Local(sys)
    ensures Local(Step(sys, e))
    ensures NsOf(e) !in {None, Some(ns)} ==> Project(Step(sys, e), ns) == Project(sys, ns)
    ensures NsOf(e) in {None, Some(ns)} ==> Project(Step(sys, e), ns) == Step(Project(sys, ns), e)
  {
    match e
    case Start(k, ok) => StartLocal(sys, k, ok, ns);
    case Fire(k) => FireLocal(sys, k, ns);
    case Resync(k) => ResyncLocal(sys, k, ns);
    case Crash => CrashLocal(sys, ns);
    case Act(k, ok) =>
      assert k.ns == ns ==> (k in InNs(sys.running, ns) <==> k in sys.running);
      if k in sys.running { ActLocal(sys, k, ok, ns); }
      hide ActStep;
    case Delete(_) => RemoveEventLocal(sys, e, ns);
    case Collect(_) => RemoveEventLocal(sys, e, ns);
    case _ => WriteEventLocal(sys, e, ns);
  }

  // Projecting any run onto a namespace is itself a run, of the events of that namespace.
  lemma {:induction false} ProjectionIsARun(sys: Sys, es: seq<Event>, ns: string)
    requires Local(sys)
    ensures Local(Run(sys, es))
    ensures Project(Run(sys, es), ns) == Run(Project(sys, ns), Relevant(es, ns))
  {
    if es != [] {
      var init, last := es[..|es| - 1], es[|es| - 1];
      ProjectionIsARun(sys, init, ns);
      StepLocal(Run(sys, init), last, ns);
      var r := Relevant(init, ns);
      assert (r + [last])[..|r + [last]| - 1] == r;
    }
  }

  lemma SameProjections(a: Sys, b: Sys)
    requires forall ns :: Project(a, ns) == Project(b, ns)
    ensures a == b
  {
    forall k: Key
      ensures k in a.store <==> k in b.store
      ensures k in a.store ==> a.store[k] == b.store[k]
      ensures k in a.running <==> k in b.running
      ensures k in a.running ==> a.running[k] == b.running[k]
      ensures k in a.pending <==> k in b.pending
      ensures k in a.timers <==> k in b.timers
    {
      var p, q := Project(a, k.ns), Project(b, k.ns);
      assert k in p.store <==> k in a.store;
      assert k in q.store <==> k in b.store;
      assert k in p.running <==> k in a.running;
      assert k in q.running <==> k in b.running;
      assert k in p.pending <==> k in a.pending;
      assert k in q.pending <==> k in b.pending;
      assert k in p.timers <==> k in a.timers;
      assert k in q.timers <==> k in b.timers;
    }
    assert a.store == b.store && a.running == b.running;
  }

  // Steps of different namespaces commute, whatever they are.
  lemma StepsCommute(sys: Sys, e: Event, e': Event)
    requires Local(sys)
    requires !e.Crash? && !e'.Crash? && e.key.ns != e'.key.ns
    ensures Step(Step(sys, e), e') == Step(Step(sys, e'), e)
  {
    var a, b := Step(Step(sys, e), e'), Step(Step(sys, e'), e);
    forall ns
      ensures Project(a, ns) == Project(b, ns)
    {
      StepLocal(sys, e, ns);
      StepLocal(sys, e', ns);
      StepLocal(Step(sys, e), e', ns);
      StepLocal(Step(sys, e'), e, ns);
    }
    SameProjections(a, b);
  }
}
