/** What a step can change, and what only grows, over the runs of the protocol. */
module Changes {
  import opened Results
  import opened CanonicalJson
  import opened Schema
  import opened Authorization
  import opened Store
  import opened Protocol
  import opened Invariant
  import opened Safety
  import Steps

  /** The history fields of a later state extend those of an earlier one, and no request changes its identity. */
  ghost predicate Later(s: State, t: State) {
    && s.log <= t.log && s.calls <= t.calls && s.replies <= t.replies
    && (forall p :: p in s.procs ==> p in t.procs && t.procs[p].req == s.procs[p].req && t.procs[p].started == s.procs[p].started)
    && (forall p :: p in t.procs && p !in s.procs ==> t.procs[p].started >= |s.log|)
  }

  // ---------- The shape of a step ----------

  /** The reservation has returned, and the request goes on accordingly. */
  predicate Answered(next: Proc) {
    && next.result.Some?
    && next.pc == if next.result.value == Acquired then Calling else Replying(Refused(next.result.value))
  }

  /** The request will report a persistence error. */
  predicate Failing(pr: Proc, next: Proc) {
    next.pc == Replying(ServerError) && next.result == pr.result
  }

  predicate At(pr: Proc, next: Proc, from: Pc, to: Pc) {
    pr.pc == from && next.pc == to && next.result == pr.result
  }

  /** From where to where each action takes its request; what `handle_authorization` does, without the data. */
  predicate Moves(a: Action, log: seq<Event>, pr: Proc, next: Proc) {
    match a
    case Start(_, _, _) => false
    case SelectKey(_) =>
      pr.pc == SelectingKey && (Answered(next) || Failing(pr, next) || At(pr, next, SelectingKey, InsertingTransaction))
    case InsertTransaction(_) =>
      && pr.pc == InsertingTransaction
      && (|| Failing(pr, next) || At(pr, next, InsertingTransaction, InsertingRecord)
          || At(pr, next, InsertingTransaction, RequeryingKey))
    case InsertRecord(_) =>
      && pr.pc == InsertingRecord
      && (|| Failing(pr, next) || At(pr, next, InsertingRecord, CommittingReserve)
          || At(pr, next, InsertingRecord, RequeryingKey))
    case CommitReserve(_, _) => pr.pc == CommittingReserve && (Answered(next) || Failing(pr, next))
    case RequeryKey(_) =>
      pr.pc == RequeryingKey && (Answered(next) || Failing(pr, next) || At(pr, next, RequeryingKey, RequeryingTransaction))
    case RequeryTransaction(_) =>
      pr.pc == RequeryingTransaction && (Failing(pr, next) || (Answered(next) && next.result == Some(TransactionIdConflict)))
    case Call(_) => At(pr, next, Calling, Awaiting)
    case Return(_, _) =>
      && pr.pc == Awaiting && next.result == pr.result
      && (next.pc.UpdatingTransaction? || next.pc == Replying(ServerError) || next.pc == Crashed)
    case UpdateTransaction(_) =>
      pr.pc.UpdatingTransaction? && (Failing(pr, next) || At(pr, next, pr.pc, UpdatingRecord(pr.pc.c)))
    case UpdateRecord(_) =>
      pr.pc.UpdatingRecord? && (Failing(pr, next) || At(pr, next, pr.pc, CommittingFinish(pr.pc.c)))
    case CommitFinish(p, _) =>
      && pr.pc.CommittingFinish?
      && (|| Failing(pr, next)
          || (At(pr, next, pr.pc, Replying(Fresh(pr.pc.c))) && Finished(p, FinishOf(next, pr.pc.c)) in log))
    case SendReply(_) => pr.pc.Replying? && At(pr, next, pr.pc, Replied)
    case Fail(_) => InDatabase(pr.pc) && Failing(pr, next)
    case Crash(_) => !IsOver(pr.pc) && At(pr, next, pr.pc, Crashed)
  }

  /** A step changes the request that takes it and no other, and only a returning call changes what it carries; only
      the commits change the tables, only calls and replies the histories of these. */
  ghost predicate StepShape(env: Env, s: State, a: Action, t: State) {
    && a.p in t.procs && t.procs == s.procs[a.p := t.procs[a.p]]
    && s.log <= t.log
    && (a.CommitReserve? || a.CommitFinish? || t.ledger == s.ledger)
    && t.calls == (if a.Call? then s.calls + [a.p] else s.calls)
    && var next := t.procs[a.p];
    if a.Start? then
      && a.p !in s.procs && next.http.None? && next.completion.None? && next.started == |s.log|
      && next.pc == SelectingKey && t.replies == s.replies && next.key == a.key
      && next.req.keyHash == env.sha(a.key) && next.req.payload == a.payload
    else
      && a.p in s.procs
      && var pr := s.procs[a.p];
      && next.req == pr.req && next.key == pr.key && next.started == pr.started && Moves(a, t.log, pr, next)
      && t.replies == (if a.SendReply? then s.replies + [Reply(a.p, pr.pc.answer)] else s.replies)
      && (if a.Return? then next.http == Some(a.http) && next.completion == Pipeline(env.digit, Id(pr), a.http)
          else next.http == pr.http && next.completion == pr.completion)
  }

  /** The start of a request and its selects. */
  predicate Selects(a: Action) {
    a.Start? || a.SelectKey? || a.RequeryKey? || a.RequeryTransaction?
  }

  /** The two inserts and their commit. */
  predicate Inserts(a: Action) {
    a.InsertTransaction? || a.InsertRecord? || a.CommitReserve?
  }

  /** The end of the call, the two updates and their commit. */
  predicate Completes(a: Action) {
    a.Return? || a.UpdateTransaction? || a.UpdateRecord? || a.CommitFinish?
  }

  lemma SelectShape(env: Env, s: State, a: Action)
    requires Selects(a)
    requires Enabled(s, a)
    ensures StepShape(env, s, a, Step(env, s, a))
  {
    hide Pipeline, ValidPayload, Waiting, Classify, TransactionFits, TransactionChecks, RecordFits, RecordChecks;
    hide MatchesTransaction, MatchesRecord, GoodTransaction, GoodRecord, CreatedRow, NewRecord, UpdatedRow, CompletedRecord;
    hide Committed, Encode, FinishOf, DoInsertTransaction, DoInsertRecord, DoCommitReserve;
    hide DoCall, DoReturn, DoUpdateTransaction, DoUpdateRecord, DoCommitFinish, DoSendReply;
    match a
    case Start(_, _, _) =>
    case SelectKey(_) =>
    case RequeryKey(_) =>
    case RequeryTransaction(_) =>
  }

  lemma InsertShape(env: Env, s: State, a: Action)
    requires Inserts(a)
    requires Enabled(s, a)
    ensures StepShape(env, s, a, Step(env, s, a))
  {
    hide Pipeline, ValidPayload, Waiting, Classify, TransactionFits, TransactionChecks, RecordFits, RecordChecks;
    hide MatchesTransaction, MatchesRecord, GoodTransaction, GoodRecord, CreatedRow, NewRecord, UpdatedRow, CompletedRecord;
    hide Committed, RequestOf, FinishOf, DoStart, DoSelectKey, DoRequeryKey, DoRequeryTransaction;
    hide DoCall, DoReturn, DoUpdateTransaction, DoUpdateRecord, DoCommitFinish, DoSendReply;
    match a
    case InsertTransaction(_) =>
    case InsertRecord(_) =>
    case CommitReserve(_, _) =>
  }

  lemma FinishIsLogged(s: State, p: nat, pr: Proc, c: Completion, acknowledged: bool)
    ensures var t := DoCommitFinish(s, p, pr, c, acknowledged);
            p in t.procs && Finished(p, FinishOf(t.procs[p], c)) in t.log
  {
    hide Committed;
    assert Finished(p, FinishOf(pr, c)) in [Finished(p, FinishOf(pr, c))];
  }

  lemma CompleteShape(env: Env, s: State, a: Action)
    requires Completes(a)
    requires Enabled(s, a)
    ensures StepShape(env, s, a, Step(env, s, a))
  {
    hide Pipeline, ValidPayload, Waiting, Classify, TransactionFits, TransactionChecks, RecordFits, RecordChecks;
    hide MatchesTransaction, MatchesRecord, GoodTransaction, GoodRecord, CreatedRow, NewRecord, UpdatedRow, CompletedRecord;
    hide Committed, RequestOf, FinishOf, DoStart, DoSelectKey, DoInsertTransaction, DoInsertRecord, DoCommitReserve;
    hide DoRequeryKey, DoRequeryTransaction, DoCall, DoSendReply;
    match a
    case Return(_, _) =>
    case UpdateTransaction(_) =>
    case UpdateRecord(_) =>
    case CommitFinish(p, acknowledged) =>
      FinishIsLogged(s, p, s.procs[p], s.procs[p].pc.c, acknowledged);
  }

  lemma OtherShape(env: Env, s: State, a: Action)
    requires !Selects(a) && !Inserts(a) && !Completes(a)
    requires Enabled(s, a)
    ensures StepShape(env, s, a, Step(env, s, a))
  {
    hide Pipeline, ValidPayload, Waiting, Classify, TransactionFits, TransactionChecks, RecordFits, RecordChecks;
    hide MatchesTransaction, MatchesRecord, GoodTransaction, GoodRecord, CreatedRow, NewRecord, UpdatedRow, CompletedRecord;
    hide Committed, RequestOf, FinishOf, DoStart, DoSelectKey, DoInsertTransaction, DoInsertRecord, DoCommitReserve;
    hide DoRequeryKey, DoRequeryTransaction, DoReturn, DoUpdateTransaction, DoUpdateRecord, DoCommitFinish;
    match a
    case Call(_) =>
    case SendReply(_) =>
    case Fail(_) =>
    case Crash(_) =>
  }

  /** The one case split over all actions; what a step can change follows from its shape. */
  lemma StepHasShape(env: Env, s: State, a: Action)
    requires Enabled(s, a)
    ensures StepShape(env, s, a, Step(env, s, a))
  {
    hide Step, Enabled, StepShape;
    if Selects(a) {
      SelectShape(env, s, a);
    } else if Inserts(a) {
      InsertShape(env, s, a);
    } else if Completes(a) {
      CompleteShape(env, s, a);
    } else {
      OtherShape(env, s, a);
    }
  }

  /** What most of the proofs about runs need of that shape. */
  ghost predicate ChangesOwn(env: Env, s: State, a: Action, t: State) {
    && a.p in t.procs && t.procs == s.procs[a.p := t.procs[a.p]]
    && (if a.Start? then
          a.p !in s.procs && t.procs[a.p].http.None? && t.procs[a.p].completion.None? && t.procs[a.p].started == |s.log|
        else
          && a.p in s.procs && t.procs[a.p].req == s.procs[a.p].req && t.procs[a.p].started == s.procs[a.p].started
          && if a.Return? then
               && t.procs[a.p].http == Some(a.http)
               && t.procs[a.p].completion == Pipeline(env.digit, Id(s.procs[a.p]), a.http)
             else
               t.procs[a.p].http == s.procs[a.p].http && t.procs[a.p].completion == s.procs[a.p].completion)
    && s.log <= t.log && s.calls <= t.calls && s.replies <= t.replies
  }

  lemma StepChanges(env: Env, s: State, a: Action)
    requires Enabled(s, a)
    ensures ChangesOwn(env, s, a, Step(env, s, a))
  {
    hide Step, Enabled, Pipeline, Moves;
    StepHasShape(env, s, a);
  }

  lemma OneMore(env: Env, run: seq<Action>, a: Action)
    requires IsRun(env, run) && Enabled(Exec(env, run), a)
    ensures IsRun(env, run + [a]) && Exec(env, run + [a]) == Step(env, Exec(env, run), a)
  {
    hide Step, Enabled;
    assert (run + [a])[..|run|] == run;
  }

  lemma {:induction false} RunsExtend(env: Env, acts: seq<Action>, i: nat)
    requires IsRun(env, acts) && i <= |acts|
    ensures IsRun(env, acts[..i])
    ensures Later(Exec(env, acts[..i]), Exec(env, acts))
  {
    hide Step, Enabled;
    if i == |acts| {
      assert acts[..i] == acts;
    } else {
      var before := acts[..|acts| - 1];
      RunsExtend(env, before, i);
      assert before[..i] == acts[..i];
      StepChanges(env, Exec(env, before), acts[|acts| - 1]);
    }
  }

  /** `t` is reached by a run that went through `s`. */
  ghost predicate Continues(env: Env, s: State, t: State) {
    exists acts: seq<Action>, i: nat :: i <= |acts| && IsRun(env, acts) && IsRun(env, acts[..i])
      && Exec(env, acts[..i]) == s && Exec(env, acts) == t
  }

  lemma ContinuesLater(env: Env, s: State, t: State)
    requires Continues(env, s, t)
    ensures Later(s, t) && Reachable(env, s) && Reachable(env, t)
  {
    hide IsRun, Exec, Later;
    var acts: seq<Action>, i: nat :| i <= |acts| && IsRun(env, acts) && IsRun(env, acts[..i])
      && Exec(env, acts[..i]) == s && Exec(env, acts) == t;
    RunsExtend(env, acts, i);
  }

  /** Rows are never removed, records only move from in progress to completed, and a completed record is never
      changed; replies and network calls are never taken back. */
  lemma RowsOnlyAdvance(env: Env, s: State, t: State)
    requires HashShape(env.sha) && Continues(env, s, t)
    ensures Grows(s.ledger.db, t.ledger.db) && s.calls <= t.calls && s.replies <= t.replies
  {
    hide Continues, HashShape, Reachable, Inv, SystemOk, Legal, Replay, Grows;
    ContinuesLater(env, s, t);
    Safe(env, s);
    Safe(env, t);
    assert t.log[..|s.log|] == s.log && t.log[..|t.log|] == t.log;
    HistoryGrows(t.log, |s.log|, |t.log|);
  }

  /** The order of the history respects real time: a reservation that returned before another request started takes
      effect before it. */
  lemma RealTimeOrder(env: Env, s: State, t: State, p: nat, q: nat)
    requires p in s.procs && s.procs[p].result.Some? && q !in s.procs
    requires p in t.procs && q in t.procs && t.procs[q].result.Some?
    requires HashShape(env.sha) && Continues(env, s, t)
    ensures s.procs[p].lin.Some? && t.procs[q].lin.Some? && t.procs[p].lin == s.procs[p].lin
    ensures t.procs[p].lin.value < t.procs[q].lin.value
  {
    hide Continues, HashShape, Reachable, Inv, SystemOk, Legal, Replay, LogOk;
    ContinuesLater(env, s, t);
    Linearizable(env, s);
    Linearizable(env, t);
    Safe(env, t);
    assert LinOk(t.log, p, t.procs[p]) by {
      LinOf(t, p);
    }
  }

  lemma LinOf(t: State, p: nat)
    requires LogOk(t) && p in t.procs
    ensures LinOk(t.log, p, t.procs[p])
  {
    hide LinOk, Legal, Replay;
  }

  /** A repeated request, over a whole run: it stays in progress for a while and then gets one and the same response
      for ever; a refused payload is never served. */
  lemma RepeatedRequest(env: Env, s: State, t: State, p: nat, q: nat)
    requires p in s.procs && s.procs[p].result.Some? && q !in s.procs
    requires p in t.procs && q in t.procs && t.procs[q].result.Some?
    requires t.procs[p].req == t.procs[q].req
    requires s.procs[p].result.value != TransactionIdConflict || CollisionFree(env.sha, Payloads(t))
    requires HashShape(env.sha) && Continues(env, s, t)
    ensures Follows(s.procs[p].result.value, t.procs[q].result.value)
  {
    hide Continues, HashShape, Reachable, Inv, SystemOk, Replay, LogOk, Follows, CollisionFree, Payloads;
    ContinuesLater(env, s, t);
    Linearizable(env, s);
    Linearizable(env, t);
    RealTimeOrder(env, s, t, p, q);
    var i, j := t.procs[p].lin.value, t.procs[q].lin.value;
    assert t.log[i] == s.log[i];
    hide Legal;
    if s.procs[p].result.value != TransactionIdConflict {
      AnswersOverTime(t.log, i, j);
    } else {
      LogDistinguished(env, t, t.procs[p]);
      RefusalIsFinal(t.log, i, j);
    }
  }

  /** Without collisions no other payload of the run has the fingerprint of this request. */
  lemma LogDistinguished(env: Env, t: State, pr: Proc)
    requires pr in t.procs.Values
    requires HashShape(env.sha) && Reachable(env, t) && CollisionFree(env.sha, Payloads(t))
    ensures Distinguished(t.log, pr.req)
  {
    hide HashShape, Reachable, Inv, ProcOk, SystemOk, Legal, Replay, CollisionFree, Encode, GoodRequest;
    Safe(env, t);
    var p :| p in t.procs && t.procs[p] == pr;
    GetGood(env, t, p);
    forall i | 0 <= i < |t.log| && t.log[i].Reserved? && t.log[i].req.fingerprint == pr.req.fingerprint
      ensures t.log[i].req.payload == pr.req.payload
    {
      var o := t.log[i].pid;
      assert LinOk(t.log, o, t.procs[o]);
      GetGood(env, t, o);
      GoodFingerprint(env, t.procs[o].req);
      GoodFingerprint(env, pr.req);
      assert t.procs[o].req.payload in Payloads(t) && pr.req.payload in Payloads(t);
      FingerprintExact(env.sha, Payloads(t), t.procs[o].req.payload, pr.req.payload);
    }
  }

  lemma GetGood(env: Env, t: State, p: nat)
    requires p in t.procs
    requires Inv(env, t)
    ensures GoodRequest(env, t.procs[p].req)
  {
    hide Inv, ProcOk, LinOk, GoodRequest;
    Steps.GetProc(env, t, p, t.procs[p]);
    Steps.RequestOk(env, t.ledger, p, t.procs[p]);
  }
}
