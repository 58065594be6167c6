// Self-stabilisation: whatever the store holds, one undisturbed reconcile with open gates
// leaves every object that it manages with the body its program asks for, computed from
// the custom resource and the one object it remembers, and nothing else changes.
module Stabilisation {
  import opened Api
  import opened Programs
  import opened Passes

  // The object whose contents the reconcile of k remembers, as the store has it.
  function Memory(s: Store, k: Key): Option<Body>
    requires k in s
  {
    var f := Begin(s, k).(pc := Remembered(s[k].body));
    if Code(f).Stop? then None else BodyAt(s, RememberedKey(f))
  }

  // The reconcile of k before its call number i.
  function FrameAt(s: Store, k: Key, i: nat): Frame
    requires k in s
  {
    Begin(s, k).(pc := i, seen := if i > Remembered(s[k].body) then Memory(s, k) else None)
  }

  // Call number i of the reconcile of k.
  function Call(s: Store, k: Key, i: nat): Action
    requires k in s
  {
    Code(FrameAt(s, k, i))
  }

  // The gates are open and the API server accepts what would be written.
  ghost predicate Open(s: Store, k: Key)
    requires k in s
  {
    forall i :: 0 <= i < LAST ==>
      && (Call(s, k, i).Fetch? ==> Call(s, k, i).key in s)
      && (Call(s, k, i).Apply? ==> Admits(s, Call(s, k, i).key, Call(s, k, i).body))
  }

  // The reconcile makes exactly n calls.
  ghost predicate Length(s: Store, k: Key, n: nat)
    requires k in s
  {
    Call(s, k, n).Stop? && forall i :: 0 <= i < n ==> !Call(s, k, i).Stop?
  }

  predicate IsWrite(a: Action) {
    a.Apply? || a.Report?
  }

  function StateAfter(s: Store, k: Key, n: nat): Store
    requires k in s
  {
    if n == 0 then s
    else
      var t, a := StateAfter(s, k, n - 1), Call(s, k, n - 1);
      if IsWrite(a) then Put(t, a.key, if a.Apply? then Some(k) else None, a.body) else t
  }

  // What the calls so far have left alone.
  ghost predicate Undisturbed(s: Store, k: Key, t: Store)
    requires k in s
  {
    && s.Keys <= t.Keys
    && (forall w :: !MayWriteKey(k, s[k].body, w) ==> BodyAt(t, w) == BodyAt(s, w))
    && (forall w: Key :: w.kind in {Deployment, LoadbalancerStatus} ==> BodyAt(t, w) == BodyAt(s, w))
  }

  predicate Reconcilable(s: Store, k: Key) {
    k in s && Reconciled(k.kind) && Typed(k.kind, s[k].body)
  }

  // A Deployment or a status is written last.
  lemma LastIsLast(s: Store, k: Key, i: nat)
    requires Reconcilable(s, k) && IsWrite(Call(s, k, i)) && Call(s, k, i).key.kind in {Deployment, LoadbalancerStatus}
    ensures Call(s, k, i + 1).Stop?
  {
    hide GenerateDeployment, KcmWorkload, KsWorkload, Memory;
  }

  lemma {:induction false} StaysUndisturbed(s: Store, k: Key, n: nat)
    requires Reconcilable(s, k) && !Call(s, k, n).Stop? && forall i :: 0 <= i < n ==> !Call(s, k, i).Stop?
    ensures Undisturbed(s, k, StateAfter(s, k, n))
  {
    hide Code, MayWriteKey, Memory;
    if n > 0 {
      StaysUndisturbed(s, k, n - 1);
      if IsWrite(Call(s, k, n - 1)) {
        WritesInWriteSet(FrameAt(s, k, n - 1));
        if Call(s, k, n - 1).key.kind in {Deployment, LoadbalancerStatus} {
          LastIsLast(s, k, n - 1);
        }
      }
    }
  }

  // No call before the remembered one touches what it looks at.
  lemma MemoryHolds(s: Store, k: Key)
    requires Reconcilable(s, k)
    requires var n := Remembered(s[k].body);
      !Call(s, k, n).Stop? && Undisturbed(s, k, StateAfter(s, k, n))
    ensures var n := Remembered(s[k].body);
      BodyAt(StateAfter(s, k, n), RememberedKey(FrameAt(s, k, n))) == Memory(s, k)
  {
    if s[k].body.PkiBody? {
      RememberedIsNotWritten(FrameAt(s, k, Remembered(s[k].body)));
    }
    hide Code, MayWriteKey;
  }

  lemma StillAdmitted(s: Store, k: Key, t: Store, i: nat)
    requires Reconcilable(s, k) && Undisturbed(s, k, t) && Call(s, k, i).Apply?
    requires Admits(s, Call(s, k, i).key, Call(s, k, i).body)
    ensures Admits(t, Call(s, k, i).key, Call(s, k, i).body)
  {
    var w := Call(s, k, i).key;
    KindOfCall(s, k, i);
    hide Code, Call, MayWriteKey, FrameAt;
    assert w.kind == Deployment ==> BodyAt(t, w) == BodyAt(s, w);
  }

  lemma KindOfCall(s: Store, k: Key, i: nat)
    requires k in s
    ensures Call(s, k, i).Apply? && Call(s, k, i).body.DeploymentBody? ==> Call(s, k, i).key.kind == Deployment
    ensures Call(s, k, i).Report? ==>
      Call(s, k, i).key == StatusKey(k) && s[k].body.LoadbalancerBody? && i != Remembered(s[k].body)
  {
    hide GenerateDeployment, KcmWorkload, KsWorkload, Memory;
  }

  lemma StillUnchanged(s: Store, k: Key, t: Store, i: nat)
    requires Reconcilable(s, k) && Undisturbed(s, k, t) && Call(s, k, i).Report?
    ensures Unchanged(FrameAt(s, k, i), t)
  {
    KindOfCall(s, k, i);
    assert k.kind == Loadbalancer && !MayWriteKey(k, s[k].body, k);
    assert BodyAt(t, k) == BodyAt(s, k);
    assert BodyAt(t, StatusKey(k)) == BodyAt(s, StatusKey(k));
    hide Code, Call, MayWriteKey, Memory;
  }

  // A call goes through, and what it remembers is what was there first.
  lemma CallGoesThrough(s: Store, k: Key, n: nat)
    requires Reconcilable(s, k) && Open(s, k) && n < LAST && !Call(s, k, n).Stop?
    requires Undisturbed(s, k, StateAfter(s, k, n))
    ensures Exec(FrameAt(s, k, n), StateAfter(s, k, n), true) == (StateAfter(s, k, n + 1), Next(FrameAt(s, k, n + 1)))
  {
    var f, t := FrameAt(s, k, n), StateAfter(s, k, n);
    KindOfCall(s, k, n);
    if n == Remembered(s[k].body) {
      MemoryHolds(s, k);
    }
    if Call(s, k, n).Apply? {
      StillAdmitted(s, k, t, n);
    } else if Call(s, k, n).Report? {
      StillUnchanged(s, k, t, n);
    }
    hide Code, MayWriteKey, Memory, Admits, Unchanged;
  }

  lemma {:induction false} RestFrom(s: Store, k: Key, n: nat, i: nat)
    requires Reconcilable(s, k) && Open(s, k) && Length(s, k, n) && i <= n
    ensures Rest(FrameAt(s, k, i), StateAfter(s, k, i)) == StateAfter(s, k, n)
    decreases n - i
  {
    Unfold(FrameAt(s, k, i), StateAfter(s, k, i));
    if i < n {
      ShortCode(s, k, i);
      StaysUndisturbed(s, k, i);
      CallGoesThrough(s, k, i);
      RestFrom(s, k, n, i + 1);
    }
    hide Code, Rest, Written, Exec, StateAfter;
  }

  lemma ShortCode(s: Store, k: Key, i: nat)
    requires k in s && !Call(s, k, i).Stop?
    ensures i < LAST
  {
    hide ControlPlaneCode, LoadbalancerCode, PkiCode, KasCode, KcmCode, KsCode, Memory;
  }

  // Call i writes a key that no later call of the n writes.
  ghost predicate LastWrite(s: Store, k: Key, i: nat, n: nat)
    requires k in s
  {
    && i < n && IsWrite(Call(s, k, i))
    && forall j :: i < j < n && IsWrite(Call(s, k, j)) ==> Call(s, k, j).key != Call(s, k, i).key
  }

  ghost predicate NeverWritten(s: Store, k: Key, w: Key, n: nat)
    requires k in s
  {
    forall j :: 0 <= j < n && IsWrite(Call(s, k, j)) ==> Call(s, k, j).key != w
  }

  // What a call writes stays until a later call writes the same key.
  lemma {:induction false} WriteStays(s: Store, k: Key, i: nat, n: nat)
    requires k in s && LastWrite(s, k, i, n)
    ensures BodyAt(StateAfter(s, k, n), Call(s, k, i).key) == Some(Call(s, k, i).body)
    decreases n
  {
    hide Call;
    if i < n - 1 {
      WriteStays(s, k, i, n - 1);
    }
  }

  lemma {:induction false} OthersStay(s: Store, k: Key, w: Key, n: nat)
    requires k in s && NeverWritten(s, k, w, n)
    ensures w in StateAfter(s, k, n) <==> w in s
    ensures w in s ==> StateAfter(s, k, n)[w] == s[w]
  {
    hide Call;
    if n > 0 {
      OthersStay(s, k, w, n - 1);
    }
  }

  // From any store: after one full reconcile of n calls, the last write to each key has
  // its way, and every other key is as it was.
  lemma Stabilises(s: Store, k: Key, n: nat)
    requires Reconcilable(s, k) && Open(s, k) && Length(s, k, n)
    ensures forall i :: LastWrite(s, k, i, n) ==> BodyAt(Pass(s, k), Call(s, k, i).key) == Some(Call(s, k, i).body)
    ensures forall w :: NeverWritten(s, k, w, n) ==>
      (w in Pass(s, k) <==> w in s) && (w in s ==> Pass(s, k)[w] == s[w])
  {
    RestFrom(s, k, n, 0);
    assert FrameAt(s, k, 0) == Begin(s, k);
    assert Pass(s, k) == StateAfter(s, k, n);
    hide Pass, Call, StateAfter, Rest, Open, Length, FrameAt;
    forall i | LastWrite(s, k, i, n)
      ensures BodyAt(Pass(s, k), Call(s, k, i).key) == Some(Call(s, k, i).body)
    {
      WriteStays(s, k, i, n);
    }
    forall w | NeverWritten(s, k, w, n)
      ensures (w in Pass(s, k) <==> w in s) && (w in s ==> Pass(s, k)[w] == s[w])
    {
      OthersStay(s, k, w, n);
    }
  }

  // Every reconcile has such an end.
  lemma Ends(s: Store, k: Key) returns (n: nat)
    requires k in s
    ensures n <= LAST && Length(s, k, n)
  {
    n := 0;
    while !Call(s, k, n).Stop?
      invariant n <= LAST
      invariant forall i :: 0 <= i < n ==> !Call(s, k, i).Stop?
      decreases LAST - n
    {
      ShortCode(s, k, n);
      n := n + 1;
    }
  }
}
