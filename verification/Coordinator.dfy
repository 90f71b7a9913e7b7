/** The coordinator and the orchestrator as the code runs them: statement by statement, for one request with the
    database to itself.  The concurrent runs are those of module Protocol; both rest on the atomic steps of Store. */
module Coordinator {
  import opened Results
  import opened CanonicalJson
  import opened Envelopes
  import opened PaymentNetwork
  import opened Schema
  import opened Authorization
  import opened Store
  import opened Protocol
  import opened Replies
  import Columns
  import Lifecycle

  /** The statements and commits that can raise SQLAlchemyError. */
  datatype Statement =
    | KeySelect | TransactionInsert | RecordInsert | ReserveCommit | KeyRequery | TransactionRequery
    | TransactionUpdate | RecordUpdate | FinishCommit

  /** Which statements fail, and whether a successful commit is reported as failed. */
  datatype Faults = Faults(failing: set<Statement>, lostAck: bool)

  const NO_FAULTS := Faults({}, false)

  class SqlCoordinator {
    var txns: map<string, TransactionRow>
    var recs: map<string, RecordRow>

    function Tables(): Database
      reads this
    {
      Database(txns, recs)
    }

    constructor ()
      ensures Tables() == EMPTY
    {
      txns, recs := map[], map[];
    }

    /** A result means that exactly the atomic reservation happened; an error leaves both tables as they were, unless
        only the acknowledgement of the commit was lost. */
    method Reserve(req: Request, faults: Faults) returns (r: Result<Reservation, PersistenceError>)
      modifies this
      ensures r.Ok? ==> (Tables(), r) == AtomicReserve(old(Tables()), req)
      ensures r.Err? && !faults.lostAck ==> Tables() == old(Tables())
      ensures Tables() == old(Tables()) || Tables() == AtomicReserve(old(Tables()), req).0
      ensures faults == NO_FAULTS ==> (Tables(), r) == AtomicReserve(old(Tables()), req)
      ensures r == Ok(Acquired) ==>
                var p := req.payload;
                && p.transactionId !in old(txns) && req.keyHash !in old(recs)
                && txns == old(txns)[p.transactionId := TransactionRow(p.merchantId, p.amount, p.currency,
                                                                       Lifecycle.CREATED, None, 0, None, None, None)]
                && recs == old(recs)[req.keyHash := RecordRow(req.fingerprint, IN_PROGRESS, p.transactionId, None, None, None)]
      ensures r.Ok? && r != Ok(Acquired) ==> Tables() == old(Tables())
    {
      var id := req.payload.transactionId;
      if KeySelect in faults.failing {
        return Err(DatabaseFailure);
      }
      if req.keyHash in recs {
        return Classify(recs[req.keyHash], req.fingerprint);
      }
      // The session's uncommitted writes.
      var newTxns, newRecs := txns, recs;
      var violated := false;
      var row := CreatedRow(req.payload);
      if TransactionInsert in faults.failing || !TransactionFits(id, row) {
        return Err(DatabaseFailure);
      }
      if id in newTxns || !TransactionChecks(id, row) {
        violated := true;
      } else {
        newTxns := newTxns[id := row];
        var rec := NewRecord(req);
        if RecordInsert in faults.failing || !RecordFits(req.keyHash, rec) {
          return Err(DatabaseFailure);
        }
        if req.keyHash in newRecs || !RecordChecks(req.keyHash, rec) {
          violated := true;
        } else {
          newRecs := newRecs[req.keyHash := rec];
        }
      }
      if !violated {
        if ReserveCommit in faults.failing {
          return Err(DatabaseFailure);
        }
        txns, recs := newTxns, newRecs;
        return if faults.lostAck then Err(DatabaseFailure) else Ok(Acquired);
      }
      // Rolled back; look again in a fresh session.
      if KeyRequery in faults.failing {
        return Err(DatabaseFailure);
      }
      // With nobody else there the key is still absent; Protocol.DoRequeryKey has the other case.
      assert req.keyHash !in recs;
      if TransactionRequery in faults.failing {
        return Err(DatabaseFailure);
      }
      if id in txns {
        return Ok(TransactionIdConflict);
      }
      return Err(UnexplainedViolation);
    }

    /** Success means that exactly the atomic completion happened; an error leaves both tables as they were, unless
        only the acknowledgement of the commit was lost. */
    method Complete(f: Finish, faults: Faults) returns (e: Option<PersistenceError>)
      modifies this
      ensures e.None? ==> FinishError(old(Tables()), f).None? && Tables() == AtomicFinish(old(Tables()), f)
      ensures e.Some? && !faults.lostAck ==> Tables() == old(Tables())
      ensures Tables() == old(Tables()) || Tables() == AtomicFinish(old(Tables()), f)
      ensures faults == NO_FAULTS ==> e == FinishError(old(Tables()), f)
      ensures e.None? ==>
                var c := f.completion;
                && c.txn.id in old(txns) && f.keyHash in old(recs)
                && old(txns)[c.txn.id].version == f.expectedVersion && c.txn.version == f.expectedVersion + 1
                && old(recs)[f.keyHash].transactionId == c.txn.id && old(recs)[f.keyHash].processing == IN_PROGRESS
                && txns == old(txns)[c.txn.id := old(txns)[c.txn.id].(
                     status := c.txn.status, pending := c.txn.pending, version := c.txn.version,
                     networkReference := c.networkReference, authorizationCode := c.authorizationCode,
                     declineCode := c.declineCode)]
                && recs == old(recs)[f.keyHash := old(recs)[f.keyHash].(
                     processing := COMPLETED, statusCode := Some(c.envelope.status), body := Some(c.envelope.body),
                     headers := Persisted(c.envelope.headers))]
    {
      var id := f.completion.txn.id;
      if f.completion.txn.version != f.expectedVersion + 1 {
        return Some(VersionMismatch);
      }
      var allowed := FilterHeaders(f.completion.envelope.headers);
      assert allowed == Allowlisted(f.completion.envelope.headers);
      var persisted := if allowed == [] then None else Some(allowed);

      if TransactionUpdate in faults.failing {
        return Some(DatabaseFailure);
      }
      if id !in txns || txns[id].version != f.expectedVersion {
        return Some(TransactionRowCount);
      }
      var row := UpdatedRow(txns[id], f.completion);
      if !TransactionFits(id, row) || !TransactionChecks(id, row) {
        return Some(DatabaseFailure);
      }
      var newTxns := txns[id := row];

      if RecordUpdate in faults.failing {
        return Some(DatabaseFailure);
      }
      if f.keyHash !in recs || recs[f.keyHash].transactionId != id || recs[f.keyHash].processing != IN_PROGRESS {
        return Some(RecordRowCount);
      }
      var rec := recs[f.keyHash].(processing := COMPLETED, statusCode := Some(f.completion.envelope.status),
        body := Some(f.completion.envelope.body), headers := persisted);
      if !RecordFits(f.keyHash, rec) || !RecordChecks(f.keyHash, rec) {
        return Some(DatabaseFailure);
      }
      var newRecs := recs[f.keyHash := rec];

      if FinishCommit in faults.failing {
        return Some(DatabaseFailure);
      }
      txns, recs := newTxns, newRecs;
      return if faults.lostAck then Some(DatabaseFailure) else None;
    }
  }

  /** What one request does to the tables and answers, when the database works and nobody else is there. */
  function Handled(db: Database, req: Request, dv: char -> int, h: HttpOutcome): (Database, Answer, bool) {
    match AtomicReserve(db, req)
    case (_, Err(_)) => (db, ServerError, false)
    case (db1, Ok(r)) =>
      if r != Acquired then (db1, Refused(r), false)
      else
        match Pipeline(dv, req.payload.transactionId, h)
        case None => (db1, ServerError, true)
        case Some(c) =>
          var f := Finish(req.keyHash, 0, c);
          (AtomicFinish(db1, f), if FinishError(db1, f).None? then Fresh(c) else ServerError, true)
  }

  /** A retry, whatever the network would say to it, changes nothing and calls nobody: it repeats a refusal, replays a
      stored response, or finds the key in progress because the first outcome could not be stored. */
  lemma RetryIsSafe(db: Database, req: Request, dv: char -> int, h: HttpOutcome, again: HttpOutcome)
    ensures var (db1, first, called) := Handled(db, req, dv, h);
            && Handled(db1, req, dv, again)
               == (db1,
                   if !called then first
                   else if first.Fresh? then Refused(Completed(first.completion.envelope.(isReplay := true)))
                   else Refused(InProgress),
                   false)
  {
    hide Pipeline, InsertFits, InsertChecks, TransactionFits, TransactionChecks, RecordFits, RecordChecks;
    hide GoodTransaction, GoodRecord;
    var (db1, first, called) := Handled(db, req, dv, h);
    if called && first.Fresh? {
      Columns.PipelineIsStorable(dv, req.payload.transactionId, h, first.completion);
      ReplayRoundTrip(req.payload.transactionId, NewRecord(req), first.completion);
    }
  }

  /** What the source hashes into a request. */
  function Hashed(sha: string -> string, key: string, payload: Payload): Request {
    Request(sha(key), sha(Encode(payload)), payload)
  }

  /** After a request that reached the network, the same transaction id under another key is refused, and so is another
      payload under the same key; neither calls the network. */
  lemma ReuseIsRefused(db: Database, sha: string -> string, dv: char -> int, key: string, payload: Payload, h: HttpOutcome,
                       otherKey: string, other: Payload, again: HttpOutcome)
    requires Handled(db, Hashed(sha, key, payload), dv, h).2
    ensures var db1 := Handled(db, Hashed(sha, key, payload), dv, h).0;
            && (sha(otherKey) !in db1.recs && other.transactionId == payload.transactionId
                && TransactionFits(other.transactionId, CreatedRow(other)) ==>
                  Handled(db1, Hashed(sha, otherKey, other), dv, again) == (db1, Refused(TransactionIdConflict), false))
            && (otherKey == key && sha(Encode(other)) != sha(Encode(payload)) ==>
                  Handled(db1, Hashed(sha, otherKey, other), dv, again) == (db1, Refused(IdempotencyConflict), false))
  {
    hide Pipeline, InsertFits, InsertChecks, TransactionFits, TransactionChecks, RecordFits, RecordChecks;
    hide GoodTransaction, GoodRecord, Encode, StoredEnvelope;
  }

  /** `handle_authorization`, for one request on a working database; `h` is the network's response if it is called. */
  method HandleAuthorization(coordinator: SqlCoordinator, env: Env, key: string, payload: Payload, h: HttpOutcome)
    returns (envelope: Envelope, called: bool)
    modifies coordinator
    ensures var (db, answer, calls) := Handled(old(coordinator.Tables()), Hashed(env.sha, key, payload), env.digit, h);
            coordinator.Tables() == db && envelope == EnvelopeOf(answer) && called == calls
  {
    hide EnvelopeOf, Authorize, Encode, ExitFor, CompletionFor, Classify, InsertFits, InsertChecks, FinishError;
    var req := RequestOf(env, key, payload);
    var reservation := coordinator.Reserve(req, NO_FAULTS);
    if reservation.Err? {
      return EnvelopeOf(ServerError), false;
    }
    if reservation.value != Acquired {
      return EnvelopeOf(Refused(reservation.value)), false;
    }
    called := true;
    var exit := Execute(payload.transactionId, Authorize(env.digit, h));
    var completion := CompletionFor(exit);
    assert completion == Pipeline(env.digit, req.payload.transactionId, h);
    if completion.None? {
      return EnvelopeOf(ServerError), true;
    }
    var c := completion.value;
    var error := coordinator.Complete(Finish(req.keyHash, 0, c), NO_FAULTS);
    envelope := if error.None? then EnvelopeOf(Fresh(c)) else EnvelopeOf(ServerError);
  }
}
