/** A request that stopped before completing leaves its key in progress for ever; nothing calls the network for it. */
module Abandoned {
  import opened CanonicalJson
  import opened Schema
  import opened Authorization
  import opened Store
  import opened Protocol
  import opened Invariant
  import opened Steps
  import opened Safety
  import opened Changes

  /** The request has stopped working: it crashed, or only its reply is still to be sent. */
  predicate Stopped(pc: Pc) {
    IsOver(pc) || pc.Replying?
  }

  /** The key is in progress and the request that reserved it has stopped. */
  ghost predicate Stuck(s: State, k: string, r: RecordRow) {
    && k in s.ledger.db.recs && s.ledger.db.recs[k] == r && r.processing == IN_PROGRESS
    && k in s.ledger.owner && s.ledger.owner[k] in s.procs
    && Stopped(s.procs[s.ledger.owner[k]].pc)
  }

  /** Calls added between two states are not for this key. */
  ghost predicate NoCallsFor(s: State, t: State, k: string) {
    forall i :: |s.calls| <= i < |t.calls| ==> t.calls[i] in t.procs && t.procs[t.calls[i]].req.keyHash != k
  }

  lemma WorkerOwns(env: Env, s: State, p: nat, pr: Proc, k: string)
    requires p in s.procs && s.procs[p] == pr && k in s.ledger.owner && k in s.ledger.db.recs
    requires pr.pc == Calling || pr.pc.CommittingFinish? || pr.pc == CommittingReserve
    requires Inv(env, s)
    ensures pr.req.keyHash == k ==> s.ledger.owner[k] == p
    ensures pr.pc == CommittingReserve ==> pr.req.keyHash != k && pr.recs.Keys == {pr.req.keyHash}
    ensures pr.pc.CommittingFinish? ==> pr.recs.Keys == {pr.req.keyHash}
  {
    hide Inv, ProcOk, LinOk;
    GetProc(env, s, p, pr);
    WorkerFacts(env, s.ledger, p, pr);
  }

  lemma WorkerFacts(env: Env, L: Ledger, p: nat, pr: Proc)
    requires ProcOk(env, L, p, pr)
    ensures pr.pc == Calling || pr.pc.CommittingFinish? ==> pr.req.keyHash in L.owner && L.owner[pr.req.keyHash] == p
    ensures pr.pc == CommittingReserve ==> pr.req.keyHash !in L.db.recs && pr.recs.Keys == {pr.req.keyHash}
    ensures pr.pc.CommittingFinish? ==> pr.recs.Keys == {pr.req.keyHash}
  {
    hide GoodRequest, ResultHolds, InsertFits, InsertChecks, CreatedRow, NewRecord, UpdatedRow, CompletedRecord, FinishError;
    hide TransactionFree;
  }

  lemma StepStaysStuck(env: Env, s: State, a: Action, k: string, r: RecordRow)
    requires Enabled(s, a) && Stuck(s, k, r)
    requires Inv(env, s)
    ensures Stuck(Step(env, s, a), k, r) && NoCallsFor(s, Step(env, s, a), k)
  {
    hide Inv, Step, Enabled, Stopped, Moves, Pipeline;
    StepHasShape(env, s, a);
    if a.Call? || a.CommitReserve? || a.CommitFinish? {
      WorkerStaysStuck(env, s, a, s.procs[a.p], k, r);
    } else {
      if a.p == s.ledger.owner[k] {
        MovesStayStopped(a, Step(env, s, a).log, s.procs[a.p], Step(env, s, a).procs[a.p]);
      }
    }
  }

  lemma MovesStayStopped(a: Action, log: seq<Event>, pr: Proc, next: Proc)
    requires Moves(a, log, pr, next) && Stopped(pr.pc)
    ensures Stopped(next.pc)
  {
    hide FinishOf;
  }

  /** The call and the two commits are for keys other than a stuck one. */
  lemma WorkerElsewhere(env: Env, s: State, a: Action, pr: Proc, k: string, r: RecordRow)
    requires a.Call? || a.CommitReserve? || a.CommitFinish?
    requires Enabled(s, a) && a.p in s.procs && s.procs[a.p] == pr && Stuck(s, k, r)
    requires Inv(env, s)
    ensures pr.req.keyHash != k && s.ledger.owner[k] != a.p
    ensures !a.Call? ==> pr.recs.Keys == {pr.req.keyHash}
  {
    hide Inv, Waiting;
    WorkerOwns(env, s, a.p, pr, k);
  }

  lemma WorkerStaysStuck(env: Env, s: State, a: Action, pr: Proc, k: string, r: RecordRow)
    requires a.Call? || a.CommitReserve? || a.CommitFinish?
    requires Enabled(s, a) && a.p in s.procs && s.procs[a.p] == pr && Stuck(s, k, r)
    requires Inv(env, s)
    ensures Stuck(Step(env, s, a), k, r) && NoCallsFor(s, Step(env, s, a), k)
  {
    hide Inv, Waiting, Stopped, FinishOf, RolledBack, Returned, Failed;
    WorkerElsewhere(env, s, a, pr, k, r);
  }

  lemma {:induction false} RunStaysStuck(env: Env, acts: seq<Action>, i: nat, k: string, r: RecordRow)
    requires HashShape(env.sha) && IsRun(env, acts) && i <= |acts| && IsRun(env, acts[..i])
    requires Stuck(Exec(env, acts[..i]), k, r)
    ensures Stuck(Exec(env, acts), k, r) && NoCallsFor(Exec(env, acts[..i]), Exec(env, acts), k)
  {
    hide Step, Enabled, Inv, HashShape, Stuck, NoCallsFor;
    if i == |acts| {
      assert acts[..i] == acts;
      NoCallsYet(Exec(env, acts), k);
    } else {
      var before := acts[..|acts| - 1];
      assert before[..i] == acts[..i];
      RunStaysStuck(env, before, i, k, r);
      RunsKeep(env, before);
      var s, a := Exec(env, before), acts[|acts| - 1];
      StepStaysStuck(env, s, a, k, r);
      StepChanges(env, s, a);
      RunsExtend(env, before, i);
      CallsSince(Exec(env, acts[..i]), s, Step(env, s, a), k);
    }
  }

  lemma NoCallsYet(s: State, k: string)
    ensures NoCallsFor(s, s, k)
  {
  }

  lemma CallsSince(s: State, m: State, t: State, k: string)
    requires NoCallsFor(s, m, k) && NoCallsFor(m, t, k) && s.calls <= m.calls && m.calls <= t.calls
    requires forall p :: p in m.procs ==> p in t.procs && t.procs[p].req == m.procs[p].req
    ensures NoCallsFor(s, t, k)
  {
    forall i | |s.calls| <= i < |t.calls|
      ensures t.calls[i] in t.procs && t.procs[t.calls[i]].req.keyHash != k
    {
      if i < |m.calls| {
        assert t.calls[i] == m.calls[i];
      }
    }
  }

  /** An abandoned key blocks further calls and nothing more: in every continuation its record is unchanged, and no
      call is made for it. */
  lemma AbandonedStaysBlocked(env: Env, s: State, t: State, k: string, r: RecordRow)
    requires Stuck(s, k, r)
    requires HashShape(env.sha) && Continues(env, s, t)
    ensures k in t.ledger.db.recs && t.ledger.db.recs[k] == r
    ensures NoCallsFor(s, t, k)
  {
    hide IsRun, Exec, HashShape, NoCallsFor;
    var acts: seq<Action>, i: nat :| i <= |acts| && IsRun(env, acts) && IsRun(env, acts[..i])
      && Exec(env, acts[..i]) == s && Exec(env, acts) == t;
    RunStaysStuck(env, acts, i, k, r);
  }
}
