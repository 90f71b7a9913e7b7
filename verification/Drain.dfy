/** If no new requests arrive, everyone gets to the end. */
module Drain {
  import opened CanonicalJson
  import opened PaymentNetwork
  import opened Protocol
  import opened Safety
  import opened Changes
  import opened Progress

  /** All requests have numbers below `n`. */
  predicate Below(s: State, n: nat) {
    forall p :: p in s.procs ==> p < n
  }

  /** How many steps the requests below `n` can still take together. */
  function TotalLeft(s: State, n: nat): nat {
    if n == 0 then 0
    else TotalLeft(s, n - 1) + if n - 1 in s.procs then Left(s.procs[n - 1].pc) else 0
  }

  predicate NoStarts(acts: seq<Action>, i: nat) {
    forall j :: i <= j < |acts| ==> !acts[j].Start?
  }

  predicate AllOver(s: State) {
    forall p :: p in s.procs ==> IsOver(s.procs[p].pc)
  }

  lemma {:induction false} TotalStep(s: State, t: State, p: nat, n: nat)
    requires p in s.procs && p in t.procs && t.procs == s.procs[p := t.procs[p]]
    requires Left(t.procs[p].pc) < Left(s.procs[p].pc)
    ensures if p < n then TotalLeft(t, n) < TotalLeft(s, n) else TotalLeft(t, n) == TotalLeft(s, n)
  {
    hide Left;
    if n > 0 {
      TotalStep(s, t, p, n - 1);
    }
  }

  /** A step of a request that is already there. */
  lemma StepDrains(env: Env, s: State, a: Action, n: nat)
    requires !a.Start? && Below(s, n)
    requires Enabled(s, a)
    ensures Below(Step(env, s, a), n) && Step(env, s, a).procs.Keys == s.procs.Keys
    ensures TotalLeft(Step(env, s, a), n) < TotalLeft(s, n)
  {
    hide Enabled, Step, Left;
    StepChanges(env, s, a);
    StepUses(env, s, a, a.p);
    TotalStep(s, Step(env, s, a), a.p, n);
  }

  /** Without new requests a run is no longer than the work that was left. */
  lemma {:induction false} RunsDrain(env: Env, acts: seq<Action>, i: nat, n: nat)
    requires IsRun(env, acts) && i <= |acts| && IsRun(env, acts[..i]) && NoStarts(acts, i)
    requires Below(Exec(env, acts[..i]), n)
    ensures Below(Exec(env, acts), n) && Exec(env, acts).procs.Keys == Exec(env, acts[..i]).procs.Keys
    ensures |acts| - i + TotalLeft(Exec(env, acts), n) <= TotalLeft(Exec(env, acts[..i]), n)
  {
    hide Step, Enabled, Below, TotalLeft;
    if i == |acts| {
      assert acts[..i] == acts;
    } else {
      var before := acts[..|acts| - 1];
      assert before[..i] == acts[..i];
      RunsDrain(env, before, i, n);
      StepDrains(env, Exec(env, before), acts[|acts| - 1], n);
    }
  }

  /** When nothing but new requests can happen, everyone is at the end. */
  lemma StuckIsOver(env: Env, s: State)
    requires forall a :: Enabled(s, a) ==> a.Start?
    requires HashShape(env.sha) && Reachable(env, s)
    ensures AllOver(s)
  {
    hide HashShape, Reachable, Enabled, NextAction, IsOver;
    forall p | p in s.procs
      ensures IsOver(s.procs[p].pc)
    {
      if !IsOver(s.procs[p].pc) {
        var q := NoDeadlock(env, s, p, TimedOut);
        NextIsNoStart(q, s.procs[q].pc, TimedOut);
      }
    }
  }

  /** Every run without new requests is bounded, and if it cannot be prolonged without them, everyone is at the end. */
  lemma MaximalRunsFinish(env: Env, acts: seq<Action>, i: nat, n: nat)
    requires IsRun(env, acts) && i <= |acts| && IsRun(env, acts[..i]) && NoStarts(acts, i)
    requires Below(Exec(env, acts[..i]), n) && HashShape(env.sha)
    ensures |acts| - i <= TotalLeft(Exec(env, acts[..i]), n)
    ensures (forall a :: Enabled(Exec(env, acts), a) ==> a.Start?) ==> AllOver(Exec(env, acts))
  {
    hide HashShape, Enabled, IsRun, Exec, Below, TotalLeft, AllOver, NoStarts;
    RunsDrain(env, acts, i, n);
    if forall a :: Enabled(Exec(env, acts), a) ==> a.Start? {
      StuckIsOver(env, Exec(env, acts));
    }
  }

  lemma {:induction false} RunToEnd(env: Env, run: seq<Action>, n: nat, h: HttpOutcome) returns (acts: seq<Action>)
    requires IsRun(env, run) && Below(Exec(env, run), n) && HashShape(env.sha)
    ensures run <= acts && IsRun(env, acts) && NoStarts(acts, |run|) && AllOver(Exec(env, acts))
    decreases TotalLeft(Exec(env, run), n)
  {
    hide HashShape, Enabled, IsRun, Exec, Step, Below, TotalLeft, NextAction, IsOver;
    var s := Exec(env, run);
    if p :| p in s.procs && !IsOver(s.procs[p].pc) {
      var q := NoDeadlock(env, s, p, h);
      var a := NextAction(q, s.procs[q].pc, h);
      NextIsNoStart(q, s.procs[q].pc, h);
      OneMore(env, run, a);
      StepDrains(env, s, a, n);
      acts := RunToEnd(env, run + [a], n, h);
      assert acts[|run|] == a;
    } else {
      acts := run;
    }
  }

  lemma NextIsNoStart(p: nat, pc: Pc, h: HttpOutcome)
    requires !IsOver(pc)
    ensures !NextAction(p, pc, h).Start?
  {
  }

  lemma Bound(numbers: set<nat>) returns (n: nat)
    ensures forall p :: p in numbers ==> p < n
  {
    if numbers == {} {
      n := 0;
    } else {
      var p :| p in numbers;
      var m := Bound(numbers - {p});
      n := if p < m then m else p + 1;
      assert forall q :: q in numbers ==> q == p || q in numbers - {p};
    }
  }

  /** From every reachable state, whatever the network answers, there is a continuation without new requests at whose
      end every request has been answered or has crashed; no request is ever beyond help. */
  lemma EveryoneFinishes(env: Env, s: State, h: HttpOutcome) returns (t: State)
    requires HashShape(env.sha) && Reachable(env, s)
    ensures Continues(env, s, t) && t.procs.Keys == s.procs.Keys && AllOver(t)
  {
    hide HashShape, IsRun, Exec, Below, AllOver, NoStarts;
    var run :| IsRun(env, run) && Exec(env, run) == s;
    var n := Bound(s.procs.Keys);
    InBound(s, n);
    var acts := RunToEnd(env, run, n, h);
    t := Exec(env, acts);
    assert acts[..|run|] == run;
    RunsDrain(env, acts, |run|, n);
  }

  lemma InBound(s: State, n: nat)
    requires forall p :: p in s.procs.Keys ==> p < n
    ensures Below(s, n)
  {
  }
}
