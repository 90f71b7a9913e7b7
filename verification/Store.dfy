/** The two coordinator operations as atomic steps on the database, and laws of every sequence of them. */
module Store {
  import opened Results
  import opened CanonicalJson
  import opened Envelopes
  import opened Schema
  import opened Authorization
  import Lifecycle
  import Text

  datatype Reservation =
    | Acquired
    | InProgress
    | Completed(envelope: Envelope)
    | IdempotencyConflict
    | TransactionIdConflict

  /** An answer the orchestrator passes on instead of calling the network. */
  type Refusal = r: Reservation | r != Acquired witness InProgress

  datatype PersistenceError =
    | DatabaseFailure          // a statement or commit raised SQLAlchemyError
    | UnexplainedViolation     // neither the key nor the transaction id explains the violation
    | CorruptRecord            // a completed record without its stored response
    | VersionMismatch          // the transaction's version is not the expected one plus one
    | TransactionRowCount      // the guarded transaction update matched no row
    | RecordRowCount           // the guarded record update matched no row

  /** What a request asks the coordinator to reserve. */
  datatype Request = Request(keyHash: string, fingerprint: string, payload: Payload)

  function CreatedRow(p: Payload): TransactionRow {
    TransactionRow(p.merchantId, p.amount, p.currency, Lifecycle.CREATED, None, 0, None, None, None)
  }

  function NewRecord(req: Request): RecordRow {
    RecordRow(req.fingerprint, IN_PROGRESS, req.payload.transactionId, None, None, None)
  }

  function StoredEnvelope(status: int, body: map<string, PaymentNetwork.Json>, headers: Option<Headers>): Envelope {
    Envelope(status, body, Restored(headers), true, if status >= 400 then PROBLEM_JSON else JSON)
  }

  function Classify(r: RecordRow, fingerprint: string): Result<Reservation, PersistenceError> {
    if r.fingerprint != fingerprint then Ok(IdempotencyConflict)
    else if r.processing == IN_PROGRESS then Ok(InProgress)
    else if r.statusCode.None? || r.body.None? then Err(CorruptRecord)
    else Ok(Completed(StoredEnvelope(r.statusCode.value, r.body.value, r.headers)))
  }

  /** What a record is answered with, case by case. */
  lemma ClassifyCases(r: RecordRow, fingerprint: string)
    ensures Classify(r, fingerprint) == Ok(IdempotencyConflict) <==> r.fingerprint != fingerprint
    ensures Classify(r, fingerprint) == Ok(InProgress) <==> r.fingerprint == fingerprint && r.processing == IN_PROGRESS
    ensures forall e :: Classify(r, fingerprint) == Ok(Completed(e)) ==>
              && r.fingerprint == fingerprint && r.processing == COMPLETED
              && r.statusCode == Some(e.status) && r.body == Some(e.body) && e.isReplay
              && e.headers == (if r.headers.Some? then r.headers.value else [])
              && e.mediaType == (if e.status >= 400 then "application/problem+json" else "application/json")
    ensures Classify(r, fingerprint).Err? ==> !PayloadIntegrity(r)
  {
  }

  predicate InsertFits(req: Request) {
    TransactionFits(req.payload.transactionId, CreatedRow(req.payload)) && RecordFits(req.keyHash, NewRecord(req))
  }

  predicate InsertChecks(req: Request) {
    TransactionChecks(req.payload.transactionId, CreatedRow(req.payload)) && RecordChecks(req.keyHash, NewRecord(req))
  }

  function Inserted(db: Database, req: Request): Database {
    Database(db.txns[req.payload.transactionId := CreatedRow(req.payload)], db.recs[req.keyHash := NewRecord(req)])
  }

  /** `reserve` as one indivisible step. */
  function AtomicReserve(db: Database, req: Request): (Database, Result<Reservation, PersistenceError>) {
    if req.keyHash in db.recs then (db, Classify(db.recs[req.keyHash], req.fingerprint))
    else if !TransactionFits(req.payload.transactionId, CreatedRow(req.payload)) then (db, Err(DatabaseFailure))
    else if req.payload.transactionId in db.txns then (db, Ok(TransactionIdConflict))
    else if !TransactionChecks(req.payload.transactionId, CreatedRow(req.payload)) then (db, Err(UnexplainedViolation))
    else if !RecordFits(req.keyHash, NewRecord(req)) then (db, Err(DatabaseFailure))
    else if !RecordChecks(req.keyHash, NewRecord(req)) then (db, Err(UnexplainedViolation))
    else (Inserted(db, req), Ok(Acquired))
  }

  // ---------- Completion ----------

  /** Arguments of `complete`, in general unrelated to any reservation. */
  datatype Finish = Finish(keyHash: string, expectedVersion: int, completion: Completion)

  function UpdatedRow(t: TransactionRow, c: Completion): TransactionRow {
    t.(status := c.txn.status, pending := c.txn.pending, version := c.txn.version,
       networkReference := c.networkReference, authorizationCode := c.authorizationCode, declineCode := c.declineCode)
  }

  function CompletedRecord(r: RecordRow, e: Envelope): RecordRow {
    r.(processing := COMPLETED, statusCode := Some(e.status), body := Some(e.body), headers := Persisted(e.headers))
  }

  /** The WHERE clauses of the two updates. */
  predicate MatchesTransaction(db: Database, f: Finish) {
    f.completion.txn.id in db.txns && db.txns[f.completion.txn.id].version == f.expectedVersion
  }

  predicate MatchesRecord(db: Database, f: Finish) {
    && f.keyHash in db.recs
    && db.recs[f.keyHash].transactionId == f.completion.txn.id
    && db.recs[f.keyHash].processing == IN_PROGRESS
  }

  /** The updated rows suit the columns and the check constraints. */
  predicate GoodTransaction(db: Database, f: Finish)
    requires MatchesTransaction(db, f)
  {
    var t := UpdatedRow(db.txns[f.completion.txn.id], f.completion);
    TransactionFits(f.completion.txn.id, t) && TransactionChecks(f.completion.txn.id, t)
  }

  predicate GoodRecord(db: Database, f: Finish)
    requires MatchesRecord(db, f)
  {
    var r := CompletedRecord(db.recs[f.keyHash], f.completion.envelope);
    RecordFits(f.keyHash, r) && RecordChecks(f.keyHash, r)
  }

  /** The error `complete` raises, if any, when it runs alone on a working database. */
  function FinishError(db: Database, f: Finish): Option<PersistenceError> {
    if f.completion.txn.version != f.expectedVersion + 1 then Some(VersionMismatch)
    else if !MatchesTransaction(db, f) then Some(TransactionRowCount)
    else if !GoodTransaction(db, f) then Some(DatabaseFailure)
    else if !MatchesRecord(db, f) then Some(RecordRowCount)
    else if !GoodRecord(db, f) then Some(DatabaseFailure)
    else None
  }

  /** `complete` as one indivisible step. */
  function AtomicFinish(db: Database, f: Finish): Database {
    if FinishError(db, f).Some? then db
    else
      var id := f.completion.txn.id;
      Database(db.txns[id := UpdatedRow(db.txns[id], f.completion)],
               db.recs[f.keyHash := CompletedRecord(db.recs[f.keyHash], f.completion.envelope)])
  }

  // ---------- Histories ----------

  /** A reservation that was answered, or a completion that succeeded. */
  datatype Event =
    | Reserved(pid: nat, req: Request, answer: Reservation)
    | Finished(pid: nat, finish: Finish)

  function After(db: Database, e: Event): Database {
    match e
    case Reserved(_, req, _) => AtomicReserve(db, req).0
    case Finished(_, f) => AtomicFinish(db, f)
  }

  /** The event is what the atomic operation does in this database. */
  predicate Explains(db: Database, e: Event) {
    match e
    case Reserved(_, req, answer) => AtomicReserve(db, req).1 == Ok(answer)
    case Finished(_, f) => FinishError(db, f).None?
  }

  /** The database after a history that starts from empty tables. */
  function Replay(log: seq<Event>): Database {
    if log == [] then EMPTY else After(Replay(log[..|log| - 1]), log[|log| - 1])
  }

  /** A sequential history of the atomic operations. */
  ghost predicate Legal(log: seq<Event>) {
    forall i :: 0 <= i < |log| ==> Explains(Replay(log[..i]), log[i])
  }

  lemma ReplaySnoc(log: seq<Event>, e: Event)
    ensures Replay(log + [e]) == After(Replay(log), e)
    ensures Legal(log) && Explains(Replay(log), e) ==> Legal(log + [e])
  {
    assert (log + [e])[..|log|] == log;
    if Legal(log) && Explains(Replay(log), e) {
      forall i | 0 <= i < |log + [e]|
        ensures Explains(Replay((log + [e])[..i]), (log + [e])[i])
      {
        if i < |log| {
          assert (log + [e])[..i] == log[..i];
        }
      }
    }
  }

  // ---------- Laws of one step ----------

  /** What the transaction is about: who is paid, how much, in which currency. */
  predicate SameTerms(t: TransactionRow, u: TransactionRow) {
    u.merchantId == t.merchantId && u.amount == t.amount && u.currency == t.currency
  }

  /** The row is about what the request asked for. */
  predicate TermsOf(t: TransactionRow, p: Payload) {
    t.merchantId == p.merchantId && t.amount == p.amount && t.currency == p.currency
  }

  /** Rows are never removed; a record keeps its fingerprint and transaction, and once completed everything. */
  ghost predicate Grows(a: Database, b: Database) {
    && (forall k :: k in a.recs ==>
          && k in b.recs
          && b.recs[k].fingerprint == a.recs[k].fingerprint && b.recs[k].transactionId == a.recs[k].transactionId
          && (a.recs[k].processing == COMPLETED ==> b.recs[k] == a.recs[k]))
    && (forall t :: t in a.txns ==> t in b.txns && b.txns[t].version >= a.txns[t].version && SameTerms(a.txns[t], b.txns[t]))
  }

  /** Each record has its own transaction and each transaction its record. */
  ghost predicate Paired(db: Database) {
    && (forall k :: k in db.recs ==> db.recs[k].transactionId in db.txns)
    && (forall j, k :: j in db.recs && k in db.recs && db.recs[j].transactionId == db.recs[k].transactionId ==> j == k)
    && (forall t :: t in db.txns ==> exists k :: k in db.recs && db.recs[k].transactionId == t)
  }

  /** In-progress goes with version zero, completed with version one. */
  ghost predicate VersionsAgree(db: Database) {
    forall k :: k in db.recs ==>
      && db.recs[k].transactionId in db.txns
      && db.txns[db.recs[k].transactionId].version == (if db.recs[k].processing == IN_PROGRESS then 0 else 1)
  }

  lemma StepGrows(db: Database, e: Event)
    ensures Grows(db, After(db, e))
  {
  }

  lemma InsertPaired(db: Database, req: Request)
    requires Paired(db) && req.keyHash !in db.recs && req.payload.transactionId !in db.txns
    ensures Paired(Inserted(db, req))
  {
    var next := Inserted(db, req);
    forall t | t in next.txns
      ensures exists k :: k in next.recs && next.recs[k].transactionId == t
    {
      if t in db.txns {
        var k :| k in db.recs && db.recs[k].transactionId == t;
        assert next.recs[k].transactionId == t;
      } else {
        assert next.recs[req.keyHash].transactionId == t;
      }
    }
  }

  lemma FinishPaired(db: Database, f: Finish)
    requires Paired(db)
    ensures Paired(AtomicFinish(db, f))
  {
    hide GoodTransaction, GoodRecord;
    var next := AtomicFinish(db, f);
    assert next.recs.Keys == db.recs.Keys && next.txns.Keys == db.txns.Keys;
    assert forall k :: k in db.recs ==> next.recs[k].transactionId == db.recs[k].transactionId;
    forall t | t in next.txns
      ensures exists k :: k in next.recs && next.recs[k].transactionId == t
    {
      var k :| k in db.recs && db.recs[k].transactionId == t;
      assert next.recs[k].transactionId == t;
    }
  }

  lemma StepPaired(db: Database, e: Event)
    requires Paired(db)
    ensures Paired(After(db, e))
  {
    match e
    case Reserved(_, req, _) =>
      if After(db, e) != db {
        InsertPaired(db, req);
      }
    case Finished(_, f) =>
      FinishPaired(db, f);
  }

  lemma StepVersions(db: Database, e: Event)
    requires Paired(db) && VersionsAgree(db)
    ensures VersionsAgree(After(db, e))
  {
    hide GoodTransaction, GoodRecord, TransactionFits, TransactionChecks, RecordFits, RecordChecks, StoredEnvelope;
  }

  // ---------- Laws of whole histories ----------

  lemma {:induction false} HistoryPaired(log: seq<Event>)
    ensures Paired(Replay(log)) && VersionsAgree(Replay(log))
  {
    if log != [] {
      HistoryPaired(log[..|log| - 1]);
      StepPaired(Replay(log[..|log| - 1]), log[|log| - 1]);
      StepVersions(Replay(log[..|log| - 1]), log[|log| - 1]);
    }
  }

  lemma GrowsTransitive(a: Database, b: Database, c: Database)
    requires Grows(a, b) && Grows(b, c)
    ensures Grows(a, c)
  {
  }

  lemma {:induction false} HistoryGrows(log: seq<Event>, i: nat, j: nat)
    requires i <= j <= |log|
    ensures Grows(Replay(log[..i]), Replay(log[..j]))
    decreases j
  {
    if i < j {
      HistoryGrows(log, i, j - 1);
      assert log[..j][..j - 1] == log[..j - 1];
      StepGrows(Replay(log[..j - 1]), log[j - 1]);
      GrowsTransitive(Replay(log[..i]), Replay(log[..j - 1]), Replay(log[..j]));
    }
  }

  /** The database just after event `i` of a history. */
  lemma AfterEvent(log: seq<Event>, i: nat)
    requires i < |log|
    ensures Replay(log[..i + 1]) == After(Replay(log[..i]), log[i])
  {
    assert log[..i + 1][..i] == log[..i];
  }

  /** Which later answers can follow an answer to the same key and fingerprint. */
  predicate Follows(earlier: Reservation, later: Reservation) {
    match earlier
    case Acquired => later.InProgress? || later.Completed?
    case InProgress => later.InProgress? || later.Completed?
    case Completed(_) => later == earlier
    case IdempotencyConflict => later == IdempotencyConflict
    case TransactionIdConflict => later == TransactionIdConflict || later == IdempotencyConflict
  }

  /** Over time one key and payload gets "in progress" for a while and then one and the same replay for ever; a
      conflicting payload never becomes a replay. */
  lemma AnswersOverTime(log: seq<Event>, i: nat, j: nat)
    requires Legal(log) && i < j < |log| && log[i].Reserved? && log[j].Reserved?
    requires log[i].req.keyHash == log[j].req.keyHash && log[i].req.fingerprint == log[j].req.fingerprint
    requires !log[i].answer.TransactionIdConflict?
    ensures Follows(log[i].answer, log[j].answer)
  {
    hide TransactionFits, TransactionChecks, RecordFits, RecordChecks, StoredEnvelope, CreatedRow, AtomicFinish, FinishError;
    AfterEvent(log, i);
    HistoryGrows(log, i + 1, j);
    assert Explains(Replay(log[..i]), log[i]) && Explains(Replay(log[..j]), log[j]);
  }

  lemma RecordKept(a: Database, b: Database, k: string)
    requires k in a.recs && Grows(a, b)
    ensures k in b.recs
    ensures b.recs[k].fingerprint == a.recs[k].fingerprint && b.recs[k].transactionId == a.recs[k].transactionId
    ensures a.recs[k].processing == COMPLETED ==> b.recs[k] == a.recs[k]
    ensures forall t :: t in a.txns ==> t in b.txns && SameTerms(a.txns[t], b.txns[t])
  {
  }

  /** Only an acquired reservation adds a record. */
  lemma RecordAppears(db: Database, e: Event, k: string)
    requires Explains(db, e) && k !in db.recs && k in After(db, e).recs
    ensures e.Reserved? && e.answer.Acquired? && e.req.keyHash == k
    ensures After(db, e).recs[k].fingerprint == e.req.fingerprint
    ensures After(db, e).recs[k].transactionId == e.req.payload.transactionId
    ensures e.req.payload.transactionId in After(db, e).txns
    ensures TermsOf(After(db, e).txns[e.req.payload.transactionId], e.req.payload)
  {
    hide TransactionFits, TransactionChecks, RecordFits, RecordChecks, UpdatedRow, CompletedRecord;
    hide GoodTransaction, GoodRecord;
  }

  /** Every record was written by an acquired reservation of the history, and its transaction is still about what that
      request asked for. */
  lemma {:induction false} RecordOrigin(log: seq<Event>, k: string) returns (m: nat)
    requires Legal(log) && k in Replay(log).recs
    ensures m < |log| && log[m].Reserved? && log[m].answer.Acquired? && log[m].req.keyHash == k
    ensures Replay(log).recs[k].fingerprint == log[m].req.fingerprint
    ensures Replay(log).recs[k].transactionId == log[m].req.payload.transactionId
    ensures log[m].req.payload.transactionId in Replay(log).txns
    ensures TermsOf(Replay(log).txns[log[m].req.payload.transactionId], log[m].req.payload)
  {
    hide Explains, After, Grows;
    var before := log[..|log| - 1];
    assert Explains(Replay(before), log[|log| - 1]);
    if k in Replay(before).recs {
      assert Legal(before) by {
        assert forall i :: 0 <= i < |before| ==> before[..i] == log[..i];
      }
      m := RecordOrigin(before, k);
      StepGrows(Replay(before), log[|log| - 1]);
      RecordKept(Replay(before), Replay(log), k);
    } else {
      RecordAppears(Replay(before), log[|log| - 1], k);
      m := |log| - 1;
    }
  }

  /** No other payload in the history has the fingerprint of this request. */
  ghost predicate Distinguished(log: seq<Event>, req: Request) {
    forall i :: 0 <= i < |log| && log[i].Reserved? && log[i].req.fingerprint == req.fingerprint ==>
      log[i].req.payload == req.payload
  }

  lemma OwnedElsewhere(log: seq<Event>, req: Request, other: string)
    requires Legal(log) && Distinguished(log, req)
    requires other != req.keyHash && other in Replay(log).recs
    requires Replay(log).recs[other].transactionId == req.payload.transactionId
    ensures req.keyHash in Replay(log).recs ==> Replay(log).recs[req.keyHash].fingerprint != req.fingerprint
  {
    HistoryPaired(log);
    if req.keyHash in Replay(log).recs && Replay(log).recs[req.keyHash].fingerprint == req.fingerprint {
      var m := RecordOrigin(log, req.keyHash);
      assert false;
    }
  }

  lemma RefusedOwner(db: Database, req: Request) returns (other: string)
    requires Paired(db) && AtomicReserve(db, req).1 == Ok(TransactionIdConflict)
    ensures other != req.keyHash && other in db.recs && db.recs[other].transactionId == req.payload.transactionId
    ensures req.keyHash !in db.recs && TransactionFits(req.payload.transactionId, CreatedRow(req.payload))
  {
    assert req.keyHash !in db.recs;
    other :| other in db.recs && db.recs[other].transactionId == req.payload.transactionId;
  }

  lemma PrefixLegal(log: seq<Event>, j: nat)
    requires Legal(log) && j <= |log|
    ensures Legal(log[..j])
  {
    assert forall n :: 0 <= n < j ==> log[..j][..n] == log[..n];
  }

  /** A request refused for its transaction id is refused whenever it is sent again. */
  lemma RefusalIsFinal(log: seq<Event>, i: nat, j: nat)
    requires Legal(log) && i < j < |log| && log[i].Reserved? && log[j].Reserved?
    requires log[i].req == log[j].req && log[i].answer.TransactionIdConflict?
    requires Distinguished(log, log[i].req)
    ensures Follows(log[i].answer, log[j].answer)
  {
    var req := log[i].req;
    assert Explains(Replay(log[..i]), log[i]);
    HistoryPaired(log[..i]);
    var other := RefusedOwner(Replay(log[..i]), req);
    HistoryGrows(log, i, j);
    PrefixLegal(log, j);
    assert Distinguished(log[..j], req);
    OwnedElsewhere(log[..j], req, other);
    RefusedAgain(Replay(log[..j]), log[j], other);
  }

  lemma RefusedAgain(db: Database, e: Event, other: string)
    requires e.Reserved? && Explains(db, e) && TransactionFits(e.req.payload.transactionId, CreatedRow(e.req.payload))
    requires other in db.recs && db.recs[other].transactionId in db.txns
    requires db.recs[other].transactionId == e.req.payload.transactionId
    requires e.req.keyHash in db.recs ==> db.recs[e.req.keyHash].fingerprint != e.req.fingerprint
    ensures e.answer == TransactionIdConflict || e.answer == IdempotencyConflict
  {
  }

  /** At most one reservation is ever acquired per key and per transaction id. */
  lemma AcquiredOnce(log: seq<Event>, i: nat, j: nat)
    requires Legal(log) && i < j < |log| && log[i].Reserved? && log[j].Reserved?
    requires log[i].answer.Acquired? && log[j].answer.Acquired?
    ensures log[i].req.keyHash != log[j].req.keyHash
    ensures log[i].req.payload.transactionId != log[j].req.payload.transactionId
  {
    AfterEvent(log, i);
    HistoryGrows(log, i + 1, j);
    assert Explains(Replay(log[..i]), log[i]) && Explains(Replay(log[..j]), log[j]);
    assert Replay(log[..i + 1]) == Inserted(Replay(log[..i]), log[i].req);
  }

  /** A completion finds its record in progress and leaves it completed. */
  lemma FinishMarks(db: Database, f: Finish)
    requires FinishError(db, f).None?
    ensures f.keyHash in db.recs && db.recs[f.keyHash].processing == IN_PROGRESS
    ensures db.recs[f.keyHash].transactionId == f.completion.txn.id
    ensures f.keyHash in AtomicFinish(db, f).recs && AtomicFinish(db, f).recs[f.keyHash].processing == COMPLETED
    ensures AtomicFinish(db, f).recs[f.keyHash].transactionId == f.completion.txn.id
  {
    hide GoodTransaction, GoodRecord, UpdatedRow;
  }

  /** With arbitrary arguments, at most one completion succeeds per key and per transaction. */
  lemma FinishedOnce(log: seq<Event>, i: nat, j: nat)
    requires Legal(log) && i < j < |log| && log[i].Finished? && log[j].Finished?
    ensures log[i].finish.keyHash != log[j].finish.keyHash
    ensures log[i].finish.completion.txn.id != log[j].finish.completion.txn.id
  {
    assert Explains(Replay(log[..i]), log[i]) && Explains(Replay(log[..j]), log[j]);
    hide FinishError, AtomicFinish, Replay, Legal, Grows, VersionsAgree;
    FinishMarks(Replay(log[..i]), log[i].finish);
    FinishMarks(Replay(log[..j]), log[j].finish);
    AfterEvent(log, i);
    HistoryGrows(log, i + 1, j);
    RecordKept(Replay(log[..i + 1]), Replay(log[..j]), log[i].finish.keyHash);
    HistoryPaired(log[..j]);
  }

  /** A success raises the version of its row by exactly one and touches one row of each table. */
  lemma FinishEffect(db: Database, f: Finish)
    requires FinishError(db, f).None?
    ensures var next := AtomicFinish(db, f);
            var id := f.completion.txn.id;
            && next.txns.Keys == db.txns.Keys && next.recs.Keys == db.recs.Keys
            && next.txns[id].version == db.txns[id].version + 1
            && (forall t :: t in db.txns && t != id ==> next.txns[t] == db.txns[t])
            && (forall k :: k in db.recs && k != f.keyHash ==> next.recs[k] == db.recs[k])
  {
  }

  // ---------- Storing and replaying ----------

  /** A completion the pipeline produced is replayed exactly as it was sent, apart from the replay flag. */
  lemma ReplayRoundTrip(id: string, r: RecordRow, c: Completion)
    requires Storable(id, c)
    ensures Classify(CompletedRecord(r, c.envelope), r.fingerprint)
         == Ok(Completed(c.envelope.(isReplay := true)))
  {
  }

  /** The rows the code itself writes satisfy every check constraint. */
  lemma InsertMeetsChecks(req: Request)
    requires ValidPayload(req.payload) && IsHex64(req.keyHash) && IsHex64(req.fingerprint) && InsertFits(req)
    ensures InsertChecks(req)
  {
  }

  lemma CompletionMeetsChecks(req: Request, c: Completion)
    requires InsertChecks(req) && Storable(req.payload.transactionId, c)
    ensures TransactionChecks(req.payload.transactionId, UpdatedRow(CreatedRow(req.payload), c))
    ensures RecordChecks(req.keyHash, CompletedRecord(NewRecord(req), c.envelope))
  {
    hide IsHex64, IsUpper3, Text.BTrim, Lifecycle.NonBlank, LastMatch, RETRY_AFTER, ValidPayload;
    hide FitsText, FitsJsonb, FitsBody, FitsHeaders, Restored, JSON, PROBLEM_JSON;
  }
}
