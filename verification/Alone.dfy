/** A request that runs while nobody else does: the machine of concurrent requests then does what the sequential
    orchestrator does, so every outcome the other results speak of is reached by a run. */
module Alone {
  import opened Results
  import opened CanonicalJson
  import opened PaymentNetwork
  import opened Schema
  import opened Authorization
  import opened Store
  import opened Protocol
  import opened Safety
  import opened Changes
  import opened Progress
  import opened Coordinator
  import Lifecycle
  import Steps

  /** No session but that of `p` has uncommitted rows. */
  ghost predicate Quiet(s: State, p: nat) {
    forall q :: q in s.procs && q != p ==> s.procs[q].txns == map[] && s.procs[q].recs == map[]
  }

  /** Nobody delays the request, and its step leaves the others quiet. */
  lemma StepAlone(env: Env, s: State, p: nat, h: HttpOutcome)
    requires p in s.procs && !IsOver(s.procs[p].pc) && Quiet(s, p)
    ensures var a := NextAction(p, s.procs[p].pc, h);
            && a.p == p && Enabled(s, a)
            && p in Step(env, s, a).procs && Quiet(Step(env, s, a), p)
  {
    var a := NextAction(p, s.procs[p].pc, h);
    assert a.p == p && Enabled(s, a) by {
      hide ValidPayload;
    }
    hide Step, Enabled;
    StepChanges(env, s, a);
  }

  /** Lets the request take its own steps to the end. */
  ghost function Solo(env: Env, s: State, p: nat, h: HttpOutcome): State
    requires p in s.procs && Quiet(s, p)
    decreases LeftOf(s, p)
  {
    if IsOver(s.procs[p].pc) then s
    else
      var a := NextAction(p, s.procs[p].pc, h);
      StepAlone(env, s, p, h);
      StepUses(env, s, a, p);
      Solo(env, Step(env, s, a), p, h)
  }

  /** The tables, the replies and the calls after the request has run to its end. */
  ghost predicate EndsWith(env: Env, s: State, p: nat, h: HttpOutcome, db: Database, a: Answer, calls: seq<nat>)
    requires p in s.procs && Quiet(s, p)
  {
    var t := Solo(env, s, p, h);
    t.ledger.db == db && t.replies == s.replies + [Reply(p, a)] && t.calls == s.calls + calls
  }

  lemma Next(env: Env, s: State, p: nat, h: HttpOutcome, a: Action)
    requires p in s.procs && !IsOver(s.procs[p].pc) && Quiet(s, p)
    requires a == NextAction(p, s.procs[p].pc, h)
    ensures Enabled(s, a) && p in Step(env, s, a).procs && Quiet(Step(env, s, a), p)
    ensures Solo(env, s, p, h) == Solo(env, Step(env, s, a), p, h)
  {
    hide Step, Enabled, Quiet, NextAction;
    StepAlone(env, s, p, h);
  }

  lemma FromReplying(env: Env, s: State, p: nat, pr: Proc, h: HttpOutcome, a: Answer)
    requires p in s.procs && s.procs[p] == pr && Quiet(s, p) && pr.pc == Replying(a)
    ensures EndsWith(env, s, p, h, s.ledger.db, a, [])
  {
    hide DoStart, DoSelectKey, DoInsertTransaction, DoInsertRecord, DoCommitReserve, DoRequeryKey, DoRequeryTransaction;
    hide DoCall, DoReturn, DoUpdateTransaction, DoUpdateRecord, DoCommitFinish, Waiting, ValidPayload;
    hide Quiet, Enabled;
    Next(env, s, p, h, SendReply(p));
    assert Step(env, s, SendReply(p)) == DoSendReply(s, p, pr, a);
    hide Step, NextAction;
  }

  /** What follows a step that sends no reply. */
  lemma Prepend(env: Env, s: State, p: nat, h: HttpOutcome, a: Action, made: seq<nat>,
                db: Database, answer: Answer, calls: seq<nat>)
    requires p in s.procs && !IsOver(s.procs[p].pc) && Quiet(s, p)
    requires a == NextAction(p, s.procs[p].pc, h)
    requires Enabled(s, a) && p in Step(env, s, a).procs && Quiet(Step(env, s, a), p)
    requires Step(env, s, a).replies == s.replies && Step(env, s, a).calls == s.calls + made
    requires EndsWith(env, Step(env, s, a), p, h, db, answer, calls)
    ensures made == [] ==> EndsWith(env, s, p, h, db, answer, calls)
    ensures calls == [] ==> EndsWith(env, s, p, h, db, answer, made)
  {
    hide Step, Enabled, Quiet, NextAction;
    Next(env, s, p, h, a);
  }

  // ---------- Completion ----------

  function Finishing(db: Database, f: Finish, c: Completion): (Database, Answer) {
    (AtomicFinish(db, f), if FinishError(db, f).None? then Fresh(c) else ServerError)
  }

  lemma FromCommittingFinish(env: Env, s: State, p: nat, pr: Proc, h: HttpOutcome, c: Completion)
    requires p in s.procs && s.procs[p] == pr && Quiet(s, p) && pr.pc == CommittingFinish(c)
    ensures EndsWith(env, s, p, h, Committed(s.ledger.db, pr), Fresh(c), [])
  {
    hide DoStart, DoSelectKey, DoInsertTransaction, DoInsertRecord, DoCommitReserve, DoRequeryKey, DoRequeryTransaction;
    hide DoCall, DoReturn, DoUpdateTransaction, DoUpdateRecord, DoSendReply, Waiting, ValidPayload;
    var a := CommitFinish(p, true);
    Next(env, s, p, h, a);
    assert Step(env, s, a) == DoCommitFinish(s, p, pr, c, true);
    hide Step, Enabled, NextAction, IsOver;
    hide Quiet, EndsWith;
    FromReplying(env, Step(env, s, a), p, Step(env, s, a).procs[p], h, Fresh(c));
    Prepend(env, s, p, h, a, [], Committed(s.ledger.db, pr), Fresh(c), []);
  }

  /** Both rows written: committing them is the atomic completion. */
  lemma WritesAreFinish(db: Database, pr: Proc, f: Finish)
    requires MatchesTransaction(db, f) && GoodTransaction(db, f) && MatchesRecord(db, f) && GoodRecord(db, f)
    requires f.completion.txn.version == f.expectedVersion + 1
    requires pr.txns == map[f.completion.txn.id := UpdatedRow(db.txns[f.completion.txn.id], f.completion)]
    requires pr.recs == map[f.keyHash := CompletedRecord(db.recs[f.keyHash], f.completion.envelope)]
    ensures FinishError(db, f).None? && Committed(db, pr) == AtomicFinish(db, f)
  {
    hide GoodTransaction, GoodRecord, UpdatedRow, CompletedRecord;
  }

  lemma RecordStep(s: State, p: nat, pr: Proc, c: Completion)
    requires pr.pc == UpdatingRecord(c) && c.txn.version == 1
    requires var f := FinishOf(pr, c);
             && MatchesTransaction(s.ledger.db, f) && GoodTransaction(s.ledger.db, f)
             && pr.recs == map[] && pr.txns == map[c.txn.id := UpdatedRow(s.ledger.db.txns[c.txn.id], c)]
    ensures var t := DoUpdateRecord(s, p, pr, c);
            && p in t.procs && t == Put(s, p, t.procs[p])
            && if FinishError(s.ledger.db, FinishOf(pr, c)).Some? then t.procs[p].pc == Replying(ServerError)
               else t.procs[p].pc == CommittingFinish(c)
                    && Committed(s.ledger.db, t.procs[p]) == AtomicFinish(s.ledger.db, FinishOf(pr, c))
  {
    hide GoodTransaction, GoodRecord, UpdatedRow, CompletedRecord, AtomicFinish, Committed;
    var f := FinishOf(pr, c);
    if MatchesRecord(s.ledger.db, f) && GoodRecord(s.ledger.db, f) {
      WritesAreFinish(s.ledger.db, DoUpdateRecord(s, p, pr, c).procs[p], f);
    }
  }

  lemma FromUpdatingRecord(env: Env, s: State, p: nat, pr: Proc, h: HttpOutcome, c: Completion)
    requires p in s.procs && s.procs[p] == pr && Quiet(s, p) && pr.pc == UpdatingRecord(c)
    requires c.txn.version == 1
    requires var f := FinishOf(pr, c);
             && MatchesTransaction(s.ledger.db, f) && GoodTransaction(s.ledger.db, f)
             && pr.recs == map[] && pr.txns == map[c.txn.id := UpdatedRow(s.ledger.db.txns[c.txn.id], c)]
    ensures var (db, answer) := Finishing(s.ledger.db, FinishOf(pr, c), c);
            EndsWith(env, s, p, h, db, answer, [])
  {
    hide DoStart, DoSelectKey, DoInsertTransaction, DoInsertRecord, DoCommitReserve, DoRequeryKey, DoRequeryTransaction;
    hide DoCall, DoReturn, DoUpdateTransaction, DoCommitFinish, DoSendReply, Waiting, ValidPayload;
    var a := UpdateRecord(p);
    Next(env, s, p, h, a);
    assert Step(env, s, a) == DoUpdateRecord(s, p, pr, c);
    hide Step, Enabled, NextAction, IsOver;
    hide Quiet, EndsWith, MatchesTransaction, MatchesRecord, GoodTransaction, GoodRecord, UpdatedRow, CompletedRecord;
    hide DoUpdateRecord, FinishError, Committed, Waiting;
    var t := Step(env, s, a);
    RecordStep(s, p, pr, c);
    if t.procs[p].pc == Replying(ServerError) {
      FromReplying(env, t, p, t.procs[p], h, ServerError);
      Prepend(env, s, p, h, a, [], s.ledger.db, ServerError, []);
    } else {
      FromCommittingFinish(env, t, p, t.procs[p], h, c);
      Prepend(env, s, p, h, a, [], Committed(t.ledger.db, t.procs[p]), Fresh(c), []);
    }
  }

  lemma TransactionStep(s: State, p: nat, pr: Proc, c: Completion)
    requires pr.pc == UpdatingTransaction(c) && c.txn.version == 1 && pr.recs == map[] && pr.txns == map[]
    ensures var t := DoUpdateTransaction(s, p, pr, c);
            var f := FinishOf(pr, c);
            && p in t.procs && t == Put(s, p, t.procs[p]) && t.procs[p].req == pr.req
            && if t.procs[p].pc == Replying(ServerError) then FinishError(s.ledger.db, f).Some?
               else
                 && t.procs[p].pc == UpdatingRecord(c) && t.procs[p].recs == map[]
                 && MatchesTransaction(s.ledger.db, f) && GoodTransaction(s.ledger.db, f)
                 && t.procs[p].txns == map[c.txn.id := UpdatedRow(s.ledger.db.txns[c.txn.id], c)]
  {
    hide GoodTransaction, GoodRecord, UpdatedRow, CompletedRecord;
  }

  lemma FromUpdatingTransaction(env: Env, s: State, p: nat, pr: Proc, h: HttpOutcome, c: Completion)
    requires p in s.procs && s.procs[p] == pr && Quiet(s, p) && pr.pc == UpdatingTransaction(c)
    requires c.txn.version == 1 && pr.recs == map[] && pr.txns == map[]
    ensures var (db, answer) := Finishing(s.ledger.db, FinishOf(pr, c), c);
            EndsWith(env, s, p, h, db, answer, [])
  {
    hide DoStart, DoSelectKey, DoInsertTransaction, DoInsertRecord, DoCommitReserve, DoRequeryKey, DoRequeryTransaction;
    hide DoCall, DoReturn, DoUpdateRecord, DoCommitFinish, DoSendReply, Waiting, ValidPayload;
    var a := UpdateTransaction(p);
    Next(env, s, p, h, a);
    assert Step(env, s, a) == DoUpdateTransaction(s, p, pr, c);
    hide Step, Enabled, NextAction, IsOver;
    hide Quiet, EndsWith, MatchesRecord, GoodTransaction, GoodRecord, UpdatedRow, CompletedRecord;
    hide DoUpdateTransaction, FinishError, Waiting;
    var t := Step(env, s, a);
    TransactionStep(s, p, pr, c);
    if t.procs[p].pc == Replying(ServerError) {
      FromReplying(env, t, p, t.procs[p], h, ServerError);
      Prepend(env, s, p, h, a, [], s.ledger.db, ServerError, []);
    } else {
      FromUpdatingRecord(env, t, p, t.procs[p], h, c);
      var (db, answer) := Finishing(s.ledger.db, FinishOf(pr, c), c);
      Prepend(env, s, p, h, a, [], db, answer, []);
    }
  }

  // ---------- The call ----------

  /** What the pipeline makes of the response. */
  predicate Carried(env: Env, pr: Proc, h: HttpOutcome, c: Completion) {
    Pipeline(env.digit, Id(pr), h) == Some(c) && c.txn.version == 1
  }

  lemma ReturnStep(env: Env, s: State, p: nat, pr: Proc, h: HttpOutcome, c: Completion)
    requires Carried(env, pr, h, c)
    ensures var t := DoReturn(env, s, p, pr, h);
            && p in t.procs && t == Put(s, p, t.procs[p]) && t.procs[p].req == pr.req && t.procs[p].pc == UpdatingTransaction(c)
            && t.procs[p].txns == pr.txns && t.procs[p].recs == pr.recs && c.txn.version == 1
  {
    hide Pipeline;
  }

  lemma FromAwaiting(env: Env, s: State, p: nat, pr: Proc, h: HttpOutcome, c: Completion)
    requires p in s.procs && s.procs[p] == pr && Quiet(s, p) && pr.pc == Awaiting
    requires pr.recs == map[] && pr.txns == map[]
    requires Carried(env, pr, h, c)
    ensures var (db, answer) := Finishing(s.ledger.db, FinishOf(pr, c), c);
            EndsWith(env, s, p, h, db, answer, [])
  {
    hide EndsWith, Pipeline, Finishing, AtomicFinish, FinishError, Failed;
    hide DoStart, DoSelectKey, DoInsertTransaction, DoInsertRecord, DoCommitReserve, DoRequeryKey, DoRequeryTransaction;
    hide DoCall, DoUpdateTransaction, DoUpdateRecord, DoCommitFinish, DoSendReply, Waiting, ValidPayload;
    var a := Return(p, h);
    Next(env, s, p, h, a);
    assert Step(env, s, a) == DoReturn(env, s, p, pr, h);
    hide Step, Enabled, NextAction, IsOver, Quiet, DoReturn, Carried;
    ReturnStep(env, s, p, pr, h, c);
    var t := Step(env, s, a);
    FromUpdatingTransaction(env, t, p, t.procs[p], h, c);
    var (db, answer) := Finishing(s.ledger.db, FinishOf(pr, c), c);
    Prepend(env, s, p, h, a, [], db, answer, []);
  }

  lemma FromCalling(env: Env, s: State, p: nat, pr: Proc, h: HttpOutcome, c: Completion)
    requires p in s.procs && s.procs[p] == pr && Quiet(s, p) && pr.pc == Calling
    requires pr.recs == map[] && pr.txns == map[]
    requires Carried(env, pr, h, c)
    ensures var (db, answer) := Finishing(s.ledger.db, FinishOf(pr, c), c);
            EndsWith(env, s, p, h, db, answer, [p])
  {
    hide EndsWith, Pipeline, Finishing, AtomicFinish, FinishError, Failed;
    hide DoStart, DoSelectKey, DoInsertTransaction, DoInsertRecord, DoCommitReserve, DoRequeryKey, DoRequeryTransaction;
    hide DoReturn, DoUpdateTransaction, DoUpdateRecord, DoCommitFinish, DoSendReply, Waiting, ValidPayload;
    var a := Call(p);
    Next(env, s, p, h, a);
    assert Step(env, s, a) == DoCall(s, p, pr);
    hide Step, Enabled, NextAction, IsOver, Quiet, Carried;
    var t := Step(env, s, a);
    FromAwaiting(env, t, p, t.procs[p], h, c);
    var (db, answer) := Finishing(s.ledger.db, FinishOf(pr, c), c);
    Prepend(env, s, p, h, a, [p], db, answer, []);
  }

  // ---------- Reservation ----------

  /** What remains of `handle_authorization` after the reservation; `c` is the completion if there is a call. */
  function AfterReserve(db: Database, r: Result<Reservation, PersistenceError>, req: Request, c: Completion):
    (Database, Answer, bool)
  {
    match r
    case Err(_) => (db, ServerError, false)
    case Ok(x) =>
      if x != Acquired then (db, Refused(x), false)
      else
        var (db1, answer) := Finishing(db, Finish(req.keyHash, 0, c), c);
        (db1, answer, true)
  }

  /** The request ends as the atomic reservation and what follows it prescribe. */
  ghost predicate EndsAsReserved(env: Env, s: State, p: nat, pr: Proc, h: HttpOutcome, c: Completion)
    requires p in s.procs && Quiet(s, p)
  {
    var (db1, r) := AtomicReserve(s.ledger.db, pr.req);
    var (db, answer, called) := AfterReserve(db1, r, pr.req, c);
    EndsWith(env, s, p, h, db, answer, if called then [p] else [])
  }

  /** A step that only moves the request along. */
  lemma Along(env: Env, s: State, p: nat, h: HttpOutcome, a: Action, c: Completion)
    requires p in s.procs && !IsOver(s.procs[p].pc) && Quiet(s, p)
    requires a == NextAction(p, s.procs[p].pc, h)
    requires Enabled(s, a) && p in Step(env, s, a).procs && Quiet(Step(env, s, a), p)
    requires Step(env, s, a).replies == s.replies && Step(env, s, a).calls == s.calls
    requires Step(env, s, a).ledger.db == s.ledger.db && Step(env, s, a).procs[p].req == s.procs[p].req
    requires EndsAsReserved(env, Step(env, s, a), p, Step(env, s, a).procs[p], h, c)
    ensures EndsAsReserved(env, s, p, s.procs[p], h, c)
  {
    hide Step, Enabled, Quiet, NextAction, EndsWith, AtomicReserve, AfterReserve;
    var (db1, r) := AtomicReserve(s.ledger.db, s.procs[p].req);
    var (db, answer, called) := AfterReserve(db1, r, s.procs[p].req, c);
    Prepend(env, s, p, h, a, [], db, answer, if called then [p] else []);
  }

  /** A refusal or an error is all that happens. */
  lemma Answered(env: Env, s: State, p: nat, pr: Proc, h: HttpOutcome, a: Answer, c: Completion)
    requires p in s.procs && s.procs[p] == pr && Quiet(s, p) && pr.pc == Replying(a)
    requires AtomicReserve(s.ledger.db, pr.req).0 == s.ledger.db
    requires AtomicReserve(s.ledger.db, pr.req).1 != Ok(Acquired)
    requires match AtomicReserve(s.ledger.db, pr.req).1 case Ok(r) => a == Refused(r) case Err(_) => a == ServerError
    ensures EndsAsReserved(env, s, p, pr, h, c)
  {
    hide Quiet, EndsWith, AtomicReserve;
    FromReplying(env, s, p, pr, h, a);
  }

  lemma FromRequeryingTransaction(env: Env, s: State, p: nat, pr: Proc, h: HttpOutcome, c: Completion)
    requires p in s.procs && s.procs[p] == pr && Quiet(s, p) && pr.pc == RequeryingTransaction
    requires Unexplained(s.ledger.db, pr)
    ensures EndsAsReserved(env, s, p, pr, h, c)
  {
    hide DoStart, DoSelectKey, DoInsertTransaction, DoInsertRecord, DoCommitReserve, DoRequeryKey, DoCall;
    hide DoReturn, DoUpdateTransaction, DoUpdateRecord, DoCommitFinish, DoSendReply, Waiting, ValidPayload;
    var a := RequeryTransaction(p);
    Next(env, s, p, h, a);
    assert Step(env, s, a) == DoRequeryTransaction(s, p, pr);
    hide Step, Enabled, NextAction, IsOver, Quiet, AtomicReserve, EndsAsReserved;
    var t := Step(env, s, a);
    Answered(env, t, p, t.procs[p], h, t.procs[p].pc.answer, c);
    Along(env, s, p, h, a, c);
  }

  /** The key does not explain the violation; the transaction id does if it is taken. */
  predicate Unexplained(db: Database, pr: Proc) {
    && pr.req.keyHash !in db.recs
    && AtomicReserve(db, pr.req) == (db, if Id(pr) in db.txns then Ok(TransactionIdConflict) else Err(UnexplainedViolation))
  }

  lemma FromRequeryingKey(env: Env, s: State, p: nat, pr: Proc, h: HttpOutcome, c: Completion)
    requires p in s.procs && s.procs[p] == pr && Quiet(s, p) && pr.pc == RequeryingKey
    requires Unexplained(s.ledger.db, pr)
    ensures EndsAsReserved(env, s, p, pr, h, c)
  {
    hide DoStart, DoSelectKey, DoInsertTransaction, DoInsertRecord, DoCommitReserve, DoRequeryTransaction, DoCall;
    hide DoReturn, DoUpdateTransaction, DoUpdateRecord, DoCommitFinish, DoSendReply, Waiting, ValidPayload;
    var a := RequeryKey(p);
    Next(env, s, p, h, a);
    assert Step(env, s, a) == DoRequeryKey(s, p, pr);
    hide Step, Enabled, NextAction, IsOver, Quiet, AtomicReserve, EndsAsReserved;
    var t := Step(env, s, a);
    FromRequeryingTransaction(env, t, p, t.procs[p], h, c);
    Along(env, s, p, h, a, c);
  }

  lemma CommitStep(s: State, p: nat, pr: Proc)
    requires pr.txns == map[Id(pr) := CreatedRow(pr.req.payload)] && pr.recs == map[pr.req.keyHash := NewRecord(pr.req)]
    ensures var t := DoCommitReserve(s, p, pr, true);
            && t.ledger.db == Inserted(s.ledger.db, pr.req) && t.replies == s.replies && t.calls == s.calls
            && p in t.procs && t.procs[p].pc == Calling && t.procs[p].txns == map[] && t.procs[p].recs == map[]
            && t.procs[p].req == pr.req
  {
    hide CreatedRow, NewRecord;
  }

  lemma AcquiredEnds(env: Env, s: State, p: nat, pr: Proc, h: HttpOutcome, c: Completion, db: Database, answer: Answer)
    requires p in s.procs && Quiet(s, p)
    requires AtomicReserve(s.ledger.db, pr.req) == (Inserted(s.ledger.db, pr.req), Ok(Acquired))
    requires (db, answer) == Finishing(Inserted(s.ledger.db, pr.req), FinishOf(pr, c), c)
    requires EndsWith(env, s, p, h, db, answer, [p])
    ensures EndsAsReserved(env, s, p, pr, h, c)
  {
    hide Quiet, AtomicReserve, Inserted, EndsWith, Finishing;
  }

  lemma FromCommittingReserve(env: Env, s: State, p: nat, pr: Proc, h: HttpOutcome, c: Completion)
    requires p in s.procs && s.procs[p] == pr && Quiet(s, p) && pr.pc == CommittingReserve
    requires AtomicReserve(s.ledger.db, pr.req) == (Inserted(s.ledger.db, pr.req), Ok(Acquired))
    requires pr.txns == map[Id(pr) := CreatedRow(pr.req.payload)] && pr.recs == map[pr.req.keyHash := NewRecord(pr.req)]
    requires Carried(env, pr, h, c)
    ensures EndsAsReserved(env, s, p, pr, h, c)
  {
    hide AtomicReserve, Inserted, EndsWith, EndsAsReserved, Pipeline, CreatedRow, NewRecord, Finishing, Linearized, Returned;
    hide DoStart, DoSelectKey, DoInsertTransaction, DoInsertRecord, DoRequeryKey, DoRequeryTransaction, DoCall;
    hide DoReturn, DoUpdateTransaction, DoUpdateRecord, DoCommitFinish, DoSendReply, Waiting, ValidPayload;
    var a := CommitReserve(p, true);
    Next(env, s, p, h, a);
    assert Step(env, s, a) == DoCommitReserve(s, p, pr, true);
    hide Step, Enabled, NextAction, IsOver, Quiet, DoCommitReserve;
    var t := Step(env, s, a);
    CommitStep(s, p, pr);
    FromCalling(env, t, p, t.procs[p], h, c);
    var (db, answer) := Finishing(t.ledger.db, FinishOf(t.procs[p], c), c);
    Prepend(env, s, p, h, a, [], db, answer, [p]);
    AcquiredEnds(env, s, p, pr, h, c, db, answer);
  }

  lemma InsertRecordStep(s: State, p: nat, pr: Proc)
    requires pr.req.keyHash !in s.ledger.db.recs && Id(pr) !in s.ledger.db.txns
    requires TransactionFits(Id(pr), CreatedRow(pr.req.payload)) && TransactionChecks(Id(pr), CreatedRow(pr.req.payload))
    requires pr.txns == map[Id(pr) := CreatedRow(pr.req.payload)] && pr.recs == map[]
    ensures var t := DoInsertRecord(s, p, pr);
            var (db, r) := AtomicReserve(s.ledger.db, pr.req);
            && p in t.procs && t == Put(s, p, t.procs[p]) && t.procs[p].req == pr.req
            && match r
               case Ok(x) =>
                 && x == Acquired && t.procs[p].pc == CommittingReserve && db == Inserted(s.ledger.db, pr.req)
                 && t.procs[p].txns == pr.txns && t.procs[p].recs == map[pr.req.keyHash := NewRecord(pr.req)]
               case Err(DatabaseFailure) => t.procs[p].pc == Replying(ServerError) && db == s.ledger.db
               case Err(e) => t.procs[p].pc == RequeryingKey && e == UnexplainedViolation && db == s.ledger.db
  {
    hide CreatedRow, NewRecord, Inserted, TransactionFits, TransactionChecks, RecordFits, RecordChecks;
  }

  lemma FromInsertingRecord(env: Env, s: State, p: nat, pr: Proc, h: HttpOutcome, c: Completion)
    requires p in s.procs && s.procs[p] == pr && Quiet(s, p) && pr.pc == InsertingRecord
    requires pr.req.keyHash !in s.ledger.db.recs && Id(pr) !in s.ledger.db.txns
    requires TransactionFits(Id(pr), CreatedRow(pr.req.payload)) && TransactionChecks(Id(pr), CreatedRow(pr.req.payload))
    requires pr.txns == map[Id(pr) := CreatedRow(pr.req.payload)] && pr.recs == map[]
    requires Carried(env, pr, h, c)
    ensures EndsAsReserved(env, s, p, pr, h, c)
  {
    hide DoStart, DoSelectKey, DoInsertTransaction, DoCommitReserve, DoRequeryKey, DoRequeryTransaction, DoCall;
    hide DoReturn, DoUpdateTransaction, DoUpdateRecord, DoCommitFinish, DoSendReply, Waiting, ValidPayload;
    var a := InsertRecord(p);
    Next(env, s, p, h, a);
    assert Step(env, s, a) == DoInsertRecord(s, p, pr);
    hide Step, Enabled, NextAction, IsOver;
    hide Quiet, EndsAsReserved, Pipeline, CreatedRow, NewRecord, Inserted, TransactionFits, TransactionChecks, Waiting;
    hide DoInsertRecord, AtomicReserve;
    InsertRecordStep(s, p, pr);
    var t := Step(env, s, a);
    if t.procs[p].pc == CommittingReserve {
      FromCommittingReserve(env, t, p, t.procs[p], h, c);
    } else if t.procs[p].pc == RequeryingKey {
      FromRequeryingKey(env, t, p, t.procs[p], h, c);
    } else {
      Answered(env, t, p, t.procs[p], h, ServerError, c);
    }
    Along(env, s, p, h, a, c);
  }

  lemma InsertTransactionStep(s: State, p: nat, pr: Proc)
    requires pr.req.keyHash !in s.ledger.db.recs && pr.txns == map[] && pr.recs == map[]
    ensures var t := DoInsertTransaction(s, p, pr);
            var row := CreatedRow(pr.req.payload);
            && p in t.procs && t == Put(s, p, t.procs[p]) && t.procs[p].req == pr.req
            && if !TransactionFits(Id(pr), row) then
                 t.procs[p].pc == Replying(ServerError) && AtomicReserve(s.ledger.db, pr.req) == (s.ledger.db, Err(DatabaseFailure))
               else if Id(pr) in s.ledger.db.txns || !TransactionChecks(Id(pr), row) then
                 && t.procs[p].pc == RequeryingKey
                 && AtomicReserve(s.ledger.db, pr.req)
                    == (s.ledger.db, if Id(pr) in s.ledger.db.txns then Ok(TransactionIdConflict) else Err(UnexplainedViolation))
               else
                 t.procs[p].pc == InsertingRecord && t.procs[p].txns == map[Id(pr) := row] && t.procs[p].recs == map[]
  {
    hide CreatedRow, NewRecord, Inserted, TransactionFits, TransactionChecks, RecordFits, RecordChecks;
  }

  lemma FromInsertingTransaction(env: Env, s: State, p: nat, pr: Proc, h: HttpOutcome, c: Completion)
    requires p in s.procs && s.procs[p] == pr && Quiet(s, p) && pr.pc == InsertingTransaction
    requires pr.req.keyHash !in s.ledger.db.recs && pr.txns == map[] && pr.recs == map[]
    requires Carried(env, pr, h, c)
    ensures EndsAsReserved(env, s, p, pr, h, c)
  {
    hide DoStart, DoSelectKey, DoInsertRecord, DoCommitReserve, DoRequeryKey, DoRequeryTransaction, DoCall;
    hide DoReturn, DoUpdateTransaction, DoUpdateRecord, DoCommitFinish, DoSendReply, Waiting, ValidPayload;
    var a := InsertTransaction(p);
    Next(env, s, p, h, a);
    assert Step(env, s, a) == DoInsertTransaction(s, p, pr);
    hide Step, Enabled, NextAction, IsOver;
    hide Quiet, EndsAsReserved, Pipeline, CreatedRow, NewRecord, Inserted, TransactionFits, TransactionChecks, Waiting;
    hide DoInsertTransaction, AtomicReserve;
    InsertTransactionStep(s, p, pr);
    var t := Step(env, s, a);
    if t.procs[p].pc == InsertingRecord {
      FromInsertingRecord(env, t, p, t.procs[p], h, c);
    } else if t.procs[p].pc == RequeryingKey {
      FromRequeryingKey(env, t, p, t.procs[p], h, c);
    } else {
      Answered(env, t, p, t.procs[p], h, ServerError, c);
    }
    Along(env, s, p, h, a, c);
  }

  lemma SelectKeyStep(s: State, p: nat, pr: Proc)
    ensures var t := DoSelectKey(s, p, pr);
            && p in t.procs && t.ledger == s.ledger && t.replies == s.replies && t.calls == s.calls && t.procs[p].req == pr.req
            && if pr.req.keyHash !in s.ledger.db.recs then
                 t.procs[p].pc == InsertingTransaction && t.procs[p].txns == pr.txns && t.procs[p].recs == pr.recs
               else
                 && AtomicReserve(s.ledger.db, pr.req).0 == s.ledger.db
                 && match AtomicReserve(s.ledger.db, pr.req).1
                    case Ok(r) => r != Acquired && t.procs[p].pc == Replying(Refused(r))
                    case Err(_) => t.procs[p].pc == Replying(ServerError)
  {
    hide Inserted, TransactionFits, TransactionChecks, RecordFits, RecordChecks, CreatedRow, NewRecord, StoredEnvelope;
  }

  lemma FromSelectingKey(env: Env, s: State, p: nat, pr: Proc, h: HttpOutcome, c: Completion)
    requires p in s.procs && s.procs[p] == pr && Quiet(s, p) && pr.pc == SelectingKey
    requires pr.txns == map[] && pr.recs == map[]
    requires Carried(env, pr, h, c)
    ensures EndsAsReserved(env, s, p, pr, h, c)
  {
    hide DoStart, DoInsertTransaction, DoInsertRecord, DoCommitReserve, DoRequeryKey, DoRequeryTransaction, DoCall;
    hide DoReturn, DoUpdateTransaction, DoUpdateRecord, DoCommitFinish, DoSendReply, Waiting, ValidPayload;
    var a := SelectKey(p);
    Next(env, s, p, h, a);
    assert Step(env, s, a) == DoSelectKey(s, p, pr);
    hide Step, Enabled, NextAction, IsOver, Quiet, EndsAsReserved, Pipeline, AtomicReserve, DoSelectKey;
    SelectKeyStep(s, p, pr);
    var t := Step(env, s, a);
    if pr.req.keyHash in s.ledger.db.recs {
      Answered(env, t, p, t.procs[p], h, t.procs[p].pc.answer, c);
    } else {
      FromInsertingTransaction(env, t, p, t.procs[p], h, c);
    }
    Along(env, s, p, h, a, c);
  }

  // ---------- The whole request ----------

  /** The sequential orchestrator in terms of the completion. */
  lemma HandledSplit(env: Env, db: Database, req: Request, h: HttpOutcome, c: Completion)
    requires Pipeline(env.digit, req.payload.transactionId, h) == Some(c)
    ensures Handled(db, req, env.digit, h) == AfterReserve(AtomicReserve(db, req).0, AtomicReserve(db, req).1, req, c)
  {
    hide Pipeline, Inserted, AtomicFinish, FinishError, Classify, CreatedRow, NewRecord;
    hide TransactionFits, TransactionChecks, RecordFits, RecordChecks;
  }

  lemma {:induction false} SoloRuns(env: Env, run: seq<Action>, p: nat, h: HttpOutcome) returns (acts: seq<Action>)
    requires IsRun(env, run) && p in Exec(env, run).procs && Quiet(Exec(env, run), p)
    ensures run <= acts && IsRun(env, acts) && IsRun(env, acts[..|run|])
    ensures Exec(env, acts[..|run|]) == Exec(env, run) && Exec(env, acts) == Solo(env, Exec(env, run), p, h)
    decreases LeftOf(Exec(env, run), p)
  {
    hide Step, Enabled, Quiet, NextAction, IsRun, Exec, IsOver, LeftOf;
    var s := Exec(env, run);
    if IsOver(s.procs[p].pc) {
      acts := run;
    } else {
      var a := NextAction(p, s.procs[p].pc, h);
      Next(env, s, p, h, a);
      StepUses(env, s, a, p);
      StepAlone(env, s, p, h);
      OneMore(env, run, a);
      acts := SoloRuns(env, run + [a], p, h);
    }
    assert acts[..|run|] == run;
  }

  lemma StartStep(env: Env, s: State, p: nat, key: string, payload: Payload)
    requires p !in s.procs && ValidPayload(payload)
    requires forall q :: q in s.procs ==> s.procs[q].txns == map[] && s.procs[q].recs == map[]
    ensures var a := Start(p, key, payload);
            && Enabled(s, a)
            && var t := Step(env, s, a);
            && t.ledger == s.ledger && t.replies == s.replies && t.calls == s.calls && p in t.procs && Quiet(t, p)
            && t.procs[p].pc == SelectingKey && t.procs[p].txns == map[] && t.procs[p].recs == map[]
            && t.procs[p].req == RequestOf(env, key, payload)
  {
    hide ValidPayload, RequestOf;
  }

  lemma RequestIsHashed(env: Env, key: string, payload: Payload)
    ensures RequestOf(env, key, payload) == Hashed(env.sha, key, payload)
  {
  }

  lemma SoloContinues(env: Env, s: State, a: Action, p: nat, h: HttpOutcome)
    requires Enabled(s, a) && p in Step(env, s, a).procs && Quiet(Step(env, s, a), p)
    requires Reachable(env, s)
    ensures Continues(env, s, Solo(env, Step(env, s, a), p, h))
  {
    hide Step, Enabled, Quiet, Solo, IsRun, Exec;
    var run :| IsRun(env, run) && Exec(env, run) == s;
    OneMore(env, run, a);
    var acts := SoloRuns(env, run + [a], p, h);
    assert acts[..|run|] == run;
  }

  /** From any reachable state in which no session has uncommitted rows, a new request that runs alone leaves the
      tables, sends the reply and makes the call that the sequential orchestrator prescribes. */
  lemma AloneIsHandled(env: Env, s: State, p: nat, key: string, payload: Payload, h: HttpOutcome) returns (t: State)
    requires p !in s.procs && ValidPayload(payload)
    requires forall q :: q in s.procs ==> s.procs[q].txns == map[] && s.procs[q].recs == map[]
    requires Reachable(env, s)
    ensures Continues(env, s, t)
    ensures var (db, answer, called) := Handled(s.ledger.db, Hashed(env.sha, key, payload), env.digit, h);
            && t.ledger.db == db && t.replies == s.replies + [Reply(p, answer)]
            && t.calls == s.calls + if called then [p] else []
  {
    hide Step, Enabled, Reachable, Continues, AtomicReserve, Handled, RequestOf, Storable, Pipeline, AfterReserve, Quiet;
    hide ValidPayload, Lifecycle.NonBlank, Solo;
    var a := Start(p, key, payload);
    StartStep(env, s, p, key, payload);
    var u := Step(env, s, a);
    t := Solo(env, u, p, h);
    Steps.ValidName(payload);
    RequestIsHashed(env, key, payload);
    PipelineStorable(env.digit, payload.transactionId, h);
    var c := Pipeline(env.digit, payload.transactionId, h).value;
    StorableVersion(payload.transactionId, c);
    FromSelectingKey(env, u, p, u.procs[p], h, c);
    HandledSplit(env, s.ledger.db, RequestOf(env, key, payload), h, c);
    SoloContinues(env, s, a, p, h);
  }
}
