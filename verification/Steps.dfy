/** Every step of the protocol keeps the invariant: the steps that commit nothing. */
module Steps {
  import opened Results
  import opened CanonicalJson
  import opened Envelopes
  import opened Schema
  import opened Authorization
  import opened Store
  import opened Protocol
  import opened Invariant
  import Columns

  /** A validated request whose rows fit the columns satisfies every check constraint. */
  lemma RequestMeetsChecks(env: Env, req: Request)
    requires GoodRequest(env, req) && TransactionFits(req.payload.transactionId, CreatedRow(req.payload))
    ensures InsertFits(req) && InsertChecks(req)
  {
    hide TransactionFits, IsHex64, ValidPayload;
    Columns.NewRecordFits(req);
    InsertMeetsChecks(req);
  }

  /** A request that gives up its session holds nothing. */
  lemma CleanApart(s: State, p: nat, pr: Proc)
    requires Clean(pr)
    ensures forall q :: q in s.procs && q != p ==> Apart(pr, s.procs[q]) && Apart(s.procs[q], pr)
  {
  }

  /** What a local step may do to the history fields. */
  predicate SameHistory(pr: Proc, next: Proc) {
    && next.req == pr.req && next.started == pr.started && next.lin == pr.lin
    && (next.result == pr.result || (pr.pc == RequeryingTransaction && next.result == Some(TransactionIdConflict)))
    && (Unlinearized(next.pc) ==> Unlinearized(pr.pc))
    && (next.pc == RequeryingTransaction ==> pr.pc == RequeryingTransaction)
    && (!Uncalled(pr.pc) ==> !Uncalled(next.pc))
  }

  lemma LinStays(log: seq<Event>, p: nat, pr: Proc, next: Proc)
    requires LinOk(log, p, pr) && SameHistory(pr, next)
    ensures LinOk(log, p, next)
  {
  }

  /** A step that changes only the state of request `p`. */
  lemma StepLocally(env: Env, s: State, p: nat, next: Proc)
    requires p in s.procs && SameHistory(s.procs[p], next)
    requires next.completion == s.procs[p].completion || Owns(s.ledger, p, next.req)
    requires forall q :: q in s.procs && q != p ==> Apart(next, s.procs[q]) && Apart(s.procs[q], next)
    requires ProcOk(env, s.ledger, p, next)
    requires Inv(env, s)
    ensures Inv(env, Put(s, p, next))
  {
    hide ProcOk, SystemOk, Owns, Apart, Unlinearized, Uncalled, LinOk, Legal, Replay;
    assert LinOk(s.log, p, s.procs[p]);
    LinStays(s.log, p, s.procs[p], next);
    LocalKeeps(env, s, p, next);
  }

  lemma GetProc(env: Env, s: State, p: nat, pr: Proc)
    requires p in s.procs && s.procs[p] == pr
    requires Inv(env, s)
    ensures ProcOk(env, s.ledger, p, pr) && LinOk(s.log, p, pr)
  {
    hide ProcOk, LinOk, LedgerOk, LocksOk, CallsOk, RepliesOk, Legal, Replay;
  }

  lemma GaveUp(env: Env, L: Ledger, p: nat, pr: Proc, pc: Pc, e: Option<PersistenceError>)
    requires ProcOk(env, L, p, pr) && pc in {Crashed, Replying(ServerError)}
    requires e == pr.error || e == Some(DatabaseFailure)
    ensures ProcOk(env, L, p, RolledBack(pr, pc).(error := e))
  {
    hide GoodRequest, ResultHolds, TransactionFree, RecordFree, InsertFits, Owns, Carries, FinishError;
    hide CreatedRow, UpdatedRow, CompletedRecord, NewRecord;
  }

  /** A crash, or a failed statement or commit. */
  lemma GiveUp(env: Env, s: State, p: nat, pr: Proc, pc: Pc, e: Option<PersistenceError>)
    requires p in s.procs && s.procs[p] == pr && pc in {Crashed, Replying(ServerError)}
    requires e == pr.error || e == Some(DatabaseFailure)
    requires Inv(env, s)
    ensures Inv(env, Put(s, p, RolledBack(pr, pc).(error := e)))
  {
    hide Inv, ProcOk, Owns, LinOk;
    var next := RolledBack(pr, pc).(error := e);
    GetProc(env, s, p, pr);
    GaveUp(env, s.ledger, p, pr, pc, e);
    CleanApart(s, p, next);
    StepLocally(env, s, p, next);
  }

  // ---------- Reserve ----------

  lemma GetLedger(env: Env, s: State)
    requires Inv(env, s)
    ensures LedgerOk(env, s.ledger, s.procs) && LocksOk(s.procs)
  {
    hide LedgerOk, LocksOk, ProcsOk, CallsOk, RepliesOk, LogOk;
  }

  lemma NotYetLinearized(log: seq<Event>, p: nat, pr: Proc)
    requires LinOk(log, p, pr) && Unlinearized(pr.pc)
    ensures pr.lin.None? && pr.result.None?
  {
  }

  lemma SelectFinds(env: Env, s: State, p: nat, pr: Proc, rec: RecordRow) returns (r: Reservation)
    requires p in s.procs && s.procs[p] == pr && pr.pc in {SelectingKey, RequeryingKey}
    requires pr.req.keyHash in s.ledger.db.recs && s.ledger.db.recs[pr.req.keyHash] == rec
    requires Inv(env, s)
    ensures Classify(rec, pr.req.fingerprint) == Ok(r)
    ensures r != Acquired && Clean(pr) && ProcOk(env, s.ledger, p, Returned(pr, r))
    ensures pr.lin.None?
  {
    hide Inv, LinOk, LedgerOk, ProcOk, Classify, LocksOk, ResultHolds;
    GetLedger(env, s);
    GetProc(env, s, p, s.procs[p]);
    NotYetLinearized(s.log, p, pr);
    RecordClassifies(env, s.ledger, s.procs, pr.req);
    r := Classify(rec, pr.req.fingerprint).value;
    ClassificationHolds(s.ledger, p, pr.req, r);
    AnsweredOk(env, s.ledger, p, pr, r);
  }

  /** A select that finds the record answers with its classification, which takes effect there and then. */
  lemma ClassifiedKeeps(env: Env, s: State, p: nat, pr: Proc)
    requires p in s.procs && s.procs[p] == pr && pr.pc in {SelectingKey, RequeryingKey}
    requires pr.req.keyHash in s.ledger.db.recs
    requires Inv(env, s)
    ensures Inv(env, Classified(s, p, pr))
  {
    hide Inv, ProcOk, Classify, Owns;
    var r := SelectFinds(env, s, p, pr, s.ledger.db.recs[pr.req.keyHash]);
    CleanApart(s, p, Returned(pr, r));
    hide Apart, Clean;
    LinearizeKeeps(env, s, p, Returned(pr, r), r);
  }

  /** Handing a refusal to the client. */
  lemma AnsweredOk(env: Env, L: Ledger, p: nat, pr: Proc, r: Reservation)
    requires ProcOk(env, L, p, pr) && pr.pc in {SelectingKey, RequeryingKey, RequeryingTransaction}
    requires ResultHolds(L, p, pr.req, r) && r != Acquired
    ensures Clean(pr) && ProcOk(env, L, p, Returned(pr, r))
  {
    hide GoodRequest, ResultHolds, InsertFits;
  }

  /** Every committed record can be classified. */
  lemma RecordClassifies(env: Env, L: Ledger, procs: map<nat, Proc>, req: Request)
    requires LedgerOk(env, L, procs) && req.keyHash in L.db.recs
    ensures Classify(L.db.recs[req.keyHash], req.fingerprint).Ok?
  {
    hide GoodRequest, InsertFits, InsertChecks, Storable, CreatedRow, UpdatedRow, Persisted, StoredEnvelope;
    assert RecordOk(env, L, procs, req.keyHash);
  }

  lemma ClassificationHolds(L: Ledger, p: nat, req: Request, r: Reservation)
    requires req.keyHash in L.db.recs && Classify(L.db.recs[req.keyHash], req.fingerprint) == Ok(r)
    ensures ResultHolds(L, p, req, r) && r != Acquired && r != TransactionIdConflict
  {
    hide StoredEnvelope;
  }

  lemma SelectKeyKeeps(env: Env, s: State, p: nat, pr: Proc)
    requires p in s.procs && s.procs[p] == pr && pr.pc == SelectingKey
    requires Inv(env, s)
    ensures Inv(env, DoSelectKey(s, p, pr))
  {
    hide Inv, LinOk, Classified;
    if pr.req.keyHash in s.ledger.db.recs {
      ClassifiedKeeps(env, s, p, pr);
    } else {
      var next := pr.(pc := InsertingTransaction);
      GetProc(env, s, p, s.procs[p]);
      hide GoodRequest, ResultHolds;
      CleanApart(s, p, next);
      hide Apart;
      StepLocally(env, s, p, next);
    }
  }

  /** Nobody else holds the rows a statement that does not wait writes. */
  lemma NotWaiting(s: State, p: nat, pr: Proc)
    requires p in s.procs && s.procs[p] == pr && !Waiting(s, p)
    ensures pr.pc == InsertingTransaction ==>
              forall q :: q in s.procs && q != p ==> Id(pr) !in s.procs[q].txns
    ensures pr.pc == InsertingRecord ==>
              forall q :: q in s.procs && q != p ==> pr.req.keyHash !in s.procs[q].recs
    ensures pr.pc.UpdatingTransaction? && MatchesTransaction(s.ledger.db, FinishOf(pr, pr.pc.c)) ==>
              forall q :: q in s.procs && q != p ==> pr.pc.c.txn.id !in s.procs[q].txns
    ensures pr.pc.UpdatingRecord? && MatchesRecord(s.ledger.db, FinishOf(pr, pr.pc.c)) ==>
              forall q :: q in s.procs && q != p ==> pr.req.keyHash !in s.procs[q].recs
  {
    forall q | q in s.procs && q != p
      ensures !WaitsFor(s, p, q)
    {
    }
    assert forall q :: q in s.procs && q != p ==> !WaitsFor(s, p, q);
  }

  lemma FitsParts(req: Request)
    requires InsertFits(req)
    ensures TransactionFits(req.payload.transactionId, CreatedRow(req.payload)) && RecordFits(req.keyHash, NewRecord(req))
  {
    hide TransactionFits, RecordFits;
  }

  lemma ChecksParts(req: Request)
    requires InsertFits(req) && InsertChecks(req)
    ensures TransactionFits(req.payload.transactionId, CreatedRow(req.payload))
    ensures TransactionChecks(req.payload.transactionId, CreatedRow(req.payload))
    ensures RecordFits(req.keyHash, NewRecord(req)) && RecordChecks(req.keyHash, NewRecord(req))
  {
    hide TransactionFits, TransactionChecks, RecordFits, RecordChecks;
  }

  /** A uniqueness violation sends the request to a fresh session. */
  lemma ViolationOk(env: Env, L: Ledger, p: nat, pr: Proc)
    requires ProcOk(env, L, p, pr) && InsertFits(pr.req)
    requires pr.req.keyHash in L.db.recs || Id(pr) in L.db.txns
    ensures ProcOk(env, L, p, RolledBack(pr, RequeryingKey))
  {
    hide GoodRequest, ResultHolds, InsertFits, TransactionFree, RecordFree, Owns, Carries, FinishError, AnswerHolds;
  }

  lemma TransactionInsertedOk(env: Env, L: Ledger, p: nat, pr: Proc)
    requires ProcOk(env, L, p, pr) && pr.pc == InsertingTransaction && TransactionFree(L, pr)
    ensures ProcOk(env, L, p, pr.(pc := InsertingRecord, txns := pr.txns[Id(pr) := CreatedRow(pr.req.payload)]))
    ensures Clean(pr)
  {
    hide GoodRequest, ResultHolds, TransactionFits, TransactionChecks, CreatedRow;
  }

  lemma InsertTransactionKeeps(env: Env, s: State, p: nat, pr: Proc)
    requires p in s.procs && s.procs[p] == pr && pr.pc == InsertingTransaction && !Waiting(s, p)
    requires Inv(env, s)
    ensures Inv(env, DoInsertTransaction(s, p, pr))
  {
    var row := CreatedRow(pr.req.payload);
    hide Inv, LinOk, TransactionFits, TransactionChecks, CreatedRow, Waiting, ProcOk, InsertFits, InsertChecks, Owns;
    hide GoodRequest, RecordFits, RecordChecks, NewRecord;
    if !TransactionFits(Id(pr), row) {
      GiveUp(env, s, p, pr, Replying(ServerError), Some(DatabaseFailure));
    } else {
      GetProc(env, s, p, s.procs[p]);
      RequestOk(env, s.ledger, p, pr);
      RequestMeetsChecks(env, pr.req);
      ChecksParts(pr.req);
      if Id(pr) in s.ledger.db.txns {
        var next := RolledBack(pr, RequeryingKey);
        ViolationOk(env, s.ledger, p, pr);
        CleanApart(s, p, next);
        StepLocally(env, s, p, next);
      } else {
        var next := pr.(pc := InsertingRecord, txns := pr.txns[Id(pr) := row]);
        TransactionInsertedOk(env, s.ledger, p, pr);
        NotWaiting(s, p, pr);
        StepLocally(env, s, p, next);
      }
    }
  }

  lemma RequestOk(env: Env, L: Ledger, p: nat, pr: Proc)
    requires ProcOk(env, L, p, pr)
    ensures GoodRequest(env, pr.req)
  {
    hide GoodRequest, PcOk, ResultHolds;
  }

  lemma RecordInsertedOk(env: Env, L: Ledger, p: nat, pr: Proc)
    requires ProcOk(env, L, p, pr) && pr.pc == InsertingRecord && RecordFree(L, pr)
    ensures ProcOk(env, L, p, pr.(pc := CommittingReserve, recs := pr.recs[pr.req.keyHash := NewRecord(pr.req)]))
    ensures pr.recs == map[]
  {
    hide GoodRequest, ResultHolds, TransactionFits, TransactionChecks, InsertFits, InsertChecks, CreatedRow, NewRecord;
  }

  /** Before the record is inserted the transaction row is written, fits and meets its constraints. */
  lemma InsertingRecordFacts(env: Env, L: Ledger, p: nat, pr: Proc)
    requires ProcOk(env, L, p, pr) && pr.pc == InsertingRecord
    ensures TransactionFits(Id(pr), CreatedRow(pr.req.payload)) && Id(pr) in pr.txns && pr.recs == map[]
    ensures GoodRequest(env, pr.req)
  {
    hide GoodRequest, ResultHolds, TransactionFits, TransactionChecks, CreatedRow;
  }

  lemma GetApart(env: Env, s: State, p: nat, pr: Proc)
    requires p in s.procs && s.procs[p] == pr
    requires Inv(env, s)
    ensures forall q :: q in s.procs && q != p ==> Apart(pr, s.procs[q]) && Apart(s.procs[q], pr)
  {
    hide Inv, LedgerOk, Apart;
    GetLedger(env, s);
  }

  lemma InsertRecordKeeps(env: Env, s: State, p: nat, pr: Proc)
    requires p in s.procs && s.procs[p] == pr && pr.pc == InsertingRecord && !Waiting(s, p)
    requires Inv(env, s)
    ensures Inv(env, DoInsertRecord(s, p, pr))
  {
    var key, row := pr.req.keyHash, NewRecord(pr.req);
    hide Inv, LinOk, TransactionFits, TransactionChecks, RecordFits, RecordChecks, InsertFits, InsertChecks;
    hide CreatedRow, NewRecord, Waiting, ProcOk, GoodRequest, Owns;
    GetProc(env, s, p, s.procs[p]);
    InsertingRecordFacts(env, s.ledger, p, pr);
    RequestMeetsChecks(env, pr.req);
    ChecksParts(pr.req);
    if key in s.ledger.db.recs {
      var next := RolledBack(pr, RequeryingKey);
      ViolationOk(env, s.ledger, p, pr);
      CleanApart(s, p, next);
      StepLocally(env, s, p, next);
    } else {
      var next := pr.(pc := CommittingReserve, recs := pr.recs[key := row]);
      RecordInsertedOk(env, s.ledger, p, pr);
      NotWaiting(s, p, pr);
      GetApart(env, s, p, pr);
      StepLocally(env, s, p, next);
    }
  }

  /** Neither the key nor its record is there, so the violation was on a transaction that another key owns. */
  lemma RequeryMisses(env: Env, L: Ledger, p: nat, pr: Proc)
    requires ProcOk(env, L, p, pr) && pr.pc == RequeryingKey && pr.req.keyHash !in L.db.recs
    requires Id(pr) in L.db.txns ==> TransactionOk(L, Id(pr))
    ensures Clean(pr) && Id(pr) in L.db.txns
    ensures ProcOk(env, L, p, pr.(pc := RequeryingTransaction))
    ensures AtomicReserve(L.db, pr.req) == (L.db, Ok(TransactionIdConflict))
  {
    hide GoodRequest, InsertFits, InsertChecks, TransactionFits, TransactionChecks, RecordFits, RecordChecks;
    FitsParts(pr.req);
  }

  lemma RequeryKeyKeeps(env: Env, s: State, p: nat, pr: Proc)
    requires p in s.procs && s.procs[p] == pr && pr.pc == RequeryingKey
    requires Inv(env, s)
    ensures Inv(env, DoRequeryKey(s, p, pr))
  {
    var next := pr.(pc := RequeryingTransaction);
    hide Inv, LinOk, Classified, Owns, ProcOk, AtomicReserve, TransactionOk;
    if pr.req.keyHash in s.ledger.db.recs {
      ClassifiedKeeps(env, s, p, pr);
    } else {
      GetProc(env, s, p, s.procs[p]);
      NotYetLinearized(s.log, p, pr);
      assert Id(pr) in s.ledger.db.txns ==> TransactionOk(s.ledger, Id(pr)) by {
        GetLedger(env, s);
      }
      RequeryMisses(env, s.ledger, p, pr);
      CleanApart(s, p, next);
      hide Apart, Clean;
      LinearizeKeeps(env, s, p, next, TransactionIdConflict);
    }
  }

  lemma RefusedForId(env: Env, L: Ledger, p: nat, pr: Proc)
    requires ProcOk(env, L, p, pr) && pr.pc == RequeryingTransaction
    ensures Id(pr) in L.db.txns && Clean(pr) && ProcOk(env, L, p, Returned(pr, TransactionIdConflict))
  {
    hide GoodRequest;
  }

  lemma RequeryTransactionKeeps(env: Env, s: State, p: nat, pr: Proc)
    requires p in s.procs && s.procs[p] == pr && pr.pc == RequeryingTransaction
    requires Inv(env, s)
    ensures Inv(env, DoRequeryTransaction(s, p, pr))
  {
    hide Inv, LinOk, ProcOk;
    GetProc(env, s, p, s.procs[p]);
    RefusedForId(env, s.ledger, p, pr);
    var next := Returned(pr, TransactionIdConflict);
    CleanApart(s, p, next);
    hide Apart, Owns, Clean;
    StepLocally(env, s, p, next);
  }

  // ---------- The network call and the updates ----------

  lemma ValidName(payload: Payload)
    requires ValidPayload(payload)
    ensures Lifecycle.NonBlank(payload.transactionId)
  {
  }

  lemma ReturnedOk(env: Env, L: Ledger, p: nat, pr: Proc, h: PaymentNetwork.HttpOutcome, c: Completion)
    requires ProcOk(env, L, p, pr) && pr.pc == Awaiting && Storable(Id(pr), c)
    ensures Clean(pr) && Owns(L, p, pr.req)
    ensures ProcOk(env, L, p, pr.(http := Some(h), completion := Some(c), pc := UpdatingTransaction(c)))
  {
    hide GoodRequest, Owns, Storable, ResultHolds;
  }

  lemma ReturnKeeps(env: Env, s: State, p: nat, pr: Proc, h: PaymentNetwork.HttpOutcome)
    requires p in s.procs && s.procs[p] == pr && pr.pc == Awaiting
    requires Inv(env, s)
    ensures Inv(env, DoReturn(env, s, p, pr, h))
  {
    hide Inv, LinOk, Pipeline, Storable, ValidPayload, ProcOk, Owns;
    GetProc(env, s, p, s.procs[p]);
    RequestOk(env, s.ledger, p, pr);
    ValidName(pr.req.payload);
    hide GoodRequest;
    PipelineStorable(env.digit, Id(pr), h);
    var c := Pipeline(env.digit, Id(pr), h).value;
    StorableVersion(Id(pr), c);
    ReturnedOk(env, s.ledger, p, pr, h, c);
    var next := pr.(http := Some(h), completion := Some(c), pc := UpdatingTransaction(c));
    CleanApart(s, p, next);
    hide Apart, Clean;
    StepLocally(env, s, p, next);
  }

  /** The guard of the transaction update holds when it is executed. */
  lemma UpdateTransactionMatches(env: Env, L: Ledger, p: nat, pr: Proc, c: Completion)
    requires ProcOk(env, L, p, pr) && pr.pc == UpdatingTransaction(c)
    ensures MatchesTransaction(L.db, FinishOf(pr, c)) && c.txn.id == Id(pr) && c.txn.version == 1 && Clean(pr)
    ensures L.db.txns[Id(pr)] == CreatedRow(pr.req.payload)
    ensures GoodTransaction(L.db, FinishOf(pr, c)) ==>
              ProcOk(env, L, p, pr.(pc := UpdatingRecord(c),
                                    txns := pr.txns[Id(pr) := UpdatedRow(CreatedRow(pr.req.payload), c)]))
  {
    hide GoodRequest, Storable, ResultHolds, InsertFits, InsertChecks, UpdatedRow, NewRecord, GoodTransaction;
    StorableVersion(Id(pr), c);
  }

  lemma UpdateTransactionKeeps(env: Env, s: State, p: nat, pr: Proc, c: Completion)
    requires p in s.procs && s.procs[p] == pr && pr.pc == UpdatingTransaction(c) && !Waiting(s, p)
    requires Inv(env, s)
    ensures Inv(env, DoUpdateTransaction(s, p, pr, c))
  {
    var f := FinishOf(pr, c);
    hide Inv, LinOk, ProcOk, GoodTransaction, UpdatedRow, CreatedRow, Waiting, Owns, Storable;
    GetProc(env, s, p, s.procs[p]);
    UpdateTransactionMatches(env, s.ledger, p, pr, c);
    if !GoodTransaction(s.ledger.db, f) {
      GiveUp(env, s, p, pr, Replying(ServerError), Some(DatabaseFailure));
    } else {
      NotWaiting(s, p, pr);
      StepLocally(env, s, p, pr.(pc := UpdatingRecord(c), txns := pr.txns[Id(pr) := UpdatedRow(CreatedRow(pr.req.payload), c)]));
    }
  }

  /** The guard of the record update holds when it is executed. */
  lemma UpdateRecordMatches(env: Env, L: Ledger, p: nat, pr: Proc, c: Completion)
    requires ProcOk(env, L, p, pr) && pr.pc == UpdatingRecord(c)
    ensures MatchesTransaction(L.db, FinishOf(pr, c)) && MatchesRecord(L.db, FinishOf(pr, c))
    ensures L.db.recs[pr.req.keyHash] == NewRecord(pr.req) && pr.recs == map[]
    ensures c.txn.version == 1 && GoodTransaction(L.db, FinishOf(pr, c))
  {
    hide GoodRequest, Storable, ResultHolds, InsertFits, InsertChecks, UpdatedRow, GoodTransaction;
    StorableVersion(Id(pr), c);
  }

  lemma RecordUpdatedOk(env: Env, L: Ledger, p: nat, pr: Proc, c: Completion)
    requires ProcOk(env, L, p, pr) && pr.pc == UpdatingRecord(c)
    requires FinishError(L.db, FinishOf(pr, c)).None?
    ensures ProcOk(env, L, p, pr.(pc := CommittingFinish(c),
                                  recs := pr.recs[pr.req.keyHash := CompletedRecord(NewRecord(pr.req), c.envelope)]))
  {
    hide GoodRequest, ResultHolds, Owns, UpdatedRow, CompletedRecord, NewRecord, CreatedRow, FinishError, Storable;
  }

  lemma UpdateRecordKeeps(env: Env, s: State, p: nat, pr: Proc, c: Completion)
    requires p in s.procs && s.procs[p] == pr && pr.pc == UpdatingRecord(c) && !Waiting(s, p)
    requires Inv(env, s)
    ensures Inv(env, DoUpdateRecord(s, p, pr, c))
  {
    var key, f := pr.req.keyHash, FinishOf(pr, c);
    hide Inv, LinOk, ProcOk, GoodRecord, GoodTransaction, CompletedRecord, NewRecord, Waiting, Owns, Storable;
    GetProc(env, s, p, s.procs[p]);
    UpdateRecordMatches(env, s.ledger, p, pr, c);
    if !GoodRecord(s.ledger.db, f) {
      GiveUp(env, s, p, pr, Replying(ServerError), Some(DatabaseFailure));
    } else {
      NotWaiting(s, p, pr);
      GetApart(env, s, p, pr);
      assert FinishError(s.ledger.db, f).None?;
      RecordUpdatedOk(env, s.ledger, p, pr, c);
      StepLocally(env, s, p, pr.(pc := CommittingFinish(c), recs := pr.recs[key := CompletedRecord(NewRecord(pr.req), c.envelope)]));
    }
  }
}
