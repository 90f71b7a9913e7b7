/** What clients are told, over every run of the protocol. */
module Replies {
  import opened Results
  import opened CanonicalJson
  import opened Envelopes
  import opened PaymentNetwork
  import opened Schema
  import opened Authorization
  import opened Store
  import opened Protocol
  import opened Invariant
  import opened Safety
  import opened Changes
  import opened Answers
  import Columns
  import Lifecycle

  const IDEMPOTENCY_CONFLICT := "urn:problem-type:idempotency-conflict"
  const IN_PROGRESS_CONFLICT := "urn:problem-type:idempotency-in-progress"
  const TRANSACTION_ID_CONFLICT := "urn:problem-type:transaction-id-conflict"

  function DifferentPayload(): Envelope {
    Problem(409, IDEMPOTENCY_CONFLICT, "Idempotency Conflict",
            "The request payload does not match the original request for this idempotency key.", [])
  }

  function StillInProgress(): Envelope {
    Problem(409, IN_PROGRESS_CONFLICT, "Idempotency Request In Progress",
            "A request with this idempotency key is currently being processed.", [(RETRY_AFTER, "1")])
  }

  function IdTaken(): Envelope {
    Problem(409, TRANSACTION_ID_CONFLICT, "Transaction ID Conflict",
            "The provided transaction_id already exists under a different idempotency key.", [])
  }

  function DatabaseTrouble(): Envelope {
    Problem(500, "urn:problem-type:internal-persistence-error", "Internal Server Error",
            "A persistence error occurred while processing the transaction.", [])
  }

  /** The orchestrator's reply to a reservation it did not acquire. */
  function RefusalEnvelope(r: Refusal): Envelope {
    match r
    case Completed(e) => e
    case IdempotencyConflict => DifferentPayload()
    case InProgress => StillInProgress()
    case TransactionIdConflict => IdTaken()
  }

  /** The response a client receives. */
  function EnvelopeOf(a: Answer): Envelope {
    match a
    case Refused(r) => RefusalEnvelope(r)
    case Fresh(c) => c.envelope
    case ServerError => DatabaseTrouble()
  }

  /** Responses that report the outcome of an authorization. */
  predicate Final(status: int) {
    status in {201, 202, 502, 503}
  }

  /** The problem type tells the three refusals apart. */
  function RefusalOf(kind: Json): Option<Refusal> {
    if kind == String(IDEMPOTENCY_CONFLICT) then Some(IdempotencyConflict)
    else if kind == String(IN_PROGRESS_CONFLICT) then Some(InProgress)
    else if kind == String(TRANSACTION_ID_CONFLICT) then Some(TransactionIdConflict)
    else None
  }

  lemma DifferentPayloadShape()
    ensures var e := DifferentPayload();
            e.status == 409 && e.headers == [] && !e.isReplay && Has(e.body, "type", String(IDEMPOTENCY_CONFLICT))
  {
    hide IDEMPOTENCY_CONFLICT, IN_PROGRESS_CONFLICT, TRANSACTION_ID_CONFLICT, RETRY_AFTER;
  }

  lemma StillInProgressShape()
    ensures var e := StillInProgress();
            && e.status == 409 && e.headers == [(RETRY_AFTER, "1")] && !e.isReplay
            && Has(e.body, "type", String(IN_PROGRESS_CONFLICT))
  {
    hide IDEMPOTENCY_CONFLICT, IN_PROGRESS_CONFLICT, TRANSACTION_ID_CONFLICT, RETRY_AFTER;
  }

  lemma IdTakenShape()
    ensures var e := IdTaken();
            e.status == 409 && e.headers == [] && !e.isReplay && Has(e.body, "type", String(TRANSACTION_ID_CONFLICT))
  {
    hide IDEMPOTENCY_CONFLICT, IN_PROGRESS_CONFLICT, TRANSACTION_ID_CONFLICT, RETRY_AFTER;
  }

  lemma DatabaseTroubleShape()
    ensures DatabaseTrouble().status == 500
  {
  }

  /** The responses to the requests that are told nothing about an outcome. */
  lemma RefusalResponses()
    ensures IsProblem(EnvelopeOf(Refused(IdempotencyConflict)), 409, "urn:problem-type:idempotency-conflict",
                      "Idempotency Conflict",
                      "The request payload does not match the original request for this idempotency key.", [])
    ensures IsProblem(EnvelopeOf(Refused(TransactionIdConflict)), 409, "urn:problem-type:transaction-id-conflict",
                      "Transaction ID Conflict",
                      "The provided transaction_id already exists under a different idempotency key.", [])
  {
    hide IsProblem, Problem;
    ProblemIs(409, IDEMPOTENCY_CONFLICT, "Idempotency Conflict",
              "The request payload does not match the original request for this idempotency key.", []);
    ProblemIs(409, TRANSACTION_ID_CONFLICT, "Transaction ID Conflict",
              "The provided transaction_id already exists under a different idempotency key.", []);
  }

  lemma TroubleResponses()
    ensures IsProblem(EnvelopeOf(Refused(InProgress)), 409, "urn:problem-type:idempotency-in-progress",
                      "Idempotency Request In Progress",
                      "A request with this idempotency key is currently being processed.", [("Retry-After", "1")])
    ensures IsProblem(EnvelopeOf(ServerError), 500, "urn:problem-type:internal-persistence-error", "Internal Server Error",
                      "A persistence error occurred while processing the transaction.", [])
  {
    hide IsProblem, Problem;
    ProblemIs(409, IN_PROGRESS_CONFLICT, "Idempotency Request In Progress",
              "A request with this idempotency key is currently being processed.", [(RETRY_AFTER, "1")]);
    ProblemIs(500, "urn:problem-type:internal-persistence-error", "Internal Server Error",
              "A persistence error occurred while processing the transaction.", []);
  }

  lemma KindsDiffer()
    ensures IDEMPOTENCY_CONFLICT != IN_PROGRESS_CONFLICT
    ensures IDEMPOTENCY_CONFLICT != TRANSACTION_ID_CONFLICT
    ensures IN_PROGRESS_CONFLICT != TRANSACTION_ID_CONFLICT
  {
    assert IDEMPOTENCY_CONFLICT[17] == 'i' && IN_PROGRESS_CONFLICT[17] == 'i' && TRANSACTION_ID_CONFLICT[17] == 't';
    assert IDEMPOTENCY_CONFLICT[29] == 'c' && IN_PROGRESS_CONFLICT[29] == 'i';
  }

  function KindOf(r: Refusal): string
    requires !r.Completed?
  {
    match r
    case IdempotencyConflict => IDEMPOTENCY_CONFLICT
    case InProgress => IN_PROGRESS_CONFLICT
    case TransactionIdConflict => TRANSACTION_ID_CONFLICT
  }

  lemma KindRecovered(r: Refusal)
    requires !r.Completed?
    ensures RefusalOf(String(KindOf(r))) == Some(r)
  {
    KindsDiffer();
    hide IDEMPOTENCY_CONFLICT, IN_PROGRESS_CONFLICT, TRANSACTION_ID_CONFLICT;
  }

  /** A refusal is never mistaken for a final reply, only "in progress" invites a retry, and exactly one refusal has
      the problem type the client reads. */
  lemma RefusalKind(r: Refusal, kind: Json)
    requires !r.Completed? && Has(RefusalEnvelope(r).body, "type", kind)
    ensures RefusalEnvelope(r).status == 409 && !Final(409) && !RefusalEnvelope(r).isReplay
    ensures LastMatch(RefusalEnvelope(r).headers).Some? <==> r == InProgress
    ensures RefusalOf(kind) == Some(r)
  {
    hide IDEMPOTENCY_CONFLICT, IN_PROGRESS_CONFLICT, TRANSACTION_ID_CONFLICT, RETRY_AFTER, RefusalOf, IsRetryAfter;
    hide DifferentPayload, StillInProgress, IdTaken;
    DifferentPayloadShape();
    StillInProgressShape();
    IdTakenShape();
    CanonicalNameMatches();
    KindRecovered(r);
  }

  /** Every outcome of a call is reported by a final response. */
  lemma OutcomesAreFinal(dv: char -> int, id: string, h: HttpOutcome, c: Completion)
    requires Pipeline(dv, id, h) == Some(c)
    ensures Final(EnvelopeOf(Fresh(c)).status)
  {
    hide Pipeline;
    Columns.PipelineIsStorable(dv, id, h, c);
    hide Lifecycle.NonBlank, Persisted, Restored;
  }

  /** The stored response of a key. */
  predicate StoredAs(L: Ledger, key: string, e: Envelope) {
    && key in L.db.recs && L.db.recs[key].processing == COMPLETED
    && L.db.recs[key].statusCode.Some? && L.db.recs[key].body.Some?
    && SameResponse(e, StoredEnvelope(L.db.recs[key].statusCode.value, L.db.recs[key].body.value, L.db.recs[key].headers))
  }

  /** A final reply is the committed response of its key. */
  lemma FinalIsStored(L: Ledger, p: nat, req: Request, a: Answer)
    requires AnswerHolds(L, p, req, a)
    ensures Final(EnvelopeOf(a).status) ==> StoredAs(L, req.keyHash, EnvelopeOf(a))
  {
    hide DifferentPayload, StillInProgress, IdTaken, DatabaseTrouble, Storable, Persisted, Restored, InsertFits, InsertChecks;
    DifferentPayloadShape();
    StillInProgressShape();
    IdTakenShape();
    DatabaseTroubleShape();
    match a
    case ServerError =>
    case Fresh(c) =>
      ReplayRoundTrip(req.payload.transactionId, NewRecord(req), c);
    case Refused(r) =>
      match r
      case Completed(e) =>
      case _ =>
  }

  /** All final replies for one key agree in status, body, headers and media type, whoever asked and whenever. */
  lemma StableReplies(env: Env, s: State, i: nat, j: nat, p: nat, q: nat)
    requires i < |s.replies| && j < |s.replies| && p == s.replies[i].pid && q == s.replies[j].pid
    requires p in s.procs && q in s.procs && s.procs[p].req.keyHash == s.procs[q].req.keyHash
    requires Final(EnvelopeOf(s.replies[i].answer).status) && Final(EnvelopeOf(s.replies[j].answer).status)
    requires HashShape(env.sha) && Reachable(env, s)
    ensures SameResponse(EnvelopeOf(s.replies[i].answer), EnvelopeOf(s.replies[j].answer))
  {
    hide AnswerHolds, EnvelopeOf, Reachable, HashShape;
    ReplyHolds(env, s, i);
    ReplyHolds(env, s, j);
    FinalIsStored(s.ledger, p, s.procs[p].req, s.replies[i].answer);
    FinalIsStored(s.ledger, q, s.procs[q].req, s.replies[j].answer);
  }

  lemma ReplyHolds(env: Env, s: State, i: nat)
    requires i < |s.replies|
    requires HashShape(env.sha) && Reachable(env, s)
    ensures s.replies[i].pid in s.procs
    ensures AnswerHolds(s.ledger, s.replies[i].pid, s.procs[s.replies[i].pid].req, s.replies[i].answer)
  {
    hide AnswerHolds, Reachable, HashShape, ProcsOk, LedgerOk, LocksOk, CallsOk, LogOk, Inv;
    Safe(env, s);
    assert ReplyOk(s.ledger, s.procs, s.replies[i]);
  }

  /** A final response is committed before it is sent. */
  lemma DurableBeforeSent(env: Env, s: State, p: nat, pr: Proc, a: Answer)
    requires p in s.procs && s.procs[p] == pr && pr.pc == Replying(a)
    requires HashShape(env.sha) && Reachable(env, s)
    ensures Final(EnvelopeOf(a).status) ==> StoredAs(s.ledger, pr.req.keyHash, EnvelopeOf(a))
  {
    hide AnswerHolds, EnvelopeOf, Reachable, HashShape, Inv, ProcOk, Invariant.LinOk, StoredAs;
    Safe(env, s);
    Steps.GetProc(env, s, p, pr);
    Commits.RepliedOk(env, s.ledger, p, pr, a);
    FinalIsStored(s.ledger, p, pr.req, a);
  }

  // ---------- After a final reply ----------

  /** The record classifies to this response for every request with this fingerprint. */
  predicate ReplaysAs(db: Database, req: Request, e: Envelope) {
    && req.keyHash in db.recs && db.recs[req.keyHash].processing == COMPLETED
    && Classify(db.recs[req.keyHash], req.fingerprint) == Ok(Completed(e))
  }

  lemma FinalReplays(L: Ledger, p: nat, req: Request, a: Answer)
    requires AnswerHolds(L, p, req, a) && Final(EnvelopeOf(a).status)
    ensures ReplaysAs(L.db, req, EnvelopeOf(a).(isReplay := true))
  {
    hide DifferentPayload, StillInProgress, IdTaken, DatabaseTrouble, Storable, Persisted, Restored, InsertFits, InsertChecks;
    DifferentPayloadShape();
    StillInProgressShape();
    IdTakenShape();
    DatabaseTroubleShape();
    match a
    case ServerError =>
    case Fresh(c) =>
      ReplayRoundTrip(req.payload.transactionId, NewRecord(req), c);
    case Refused(r) =>
      match r
      case Completed(e) =>
      case _ =>
  }

  lemma ReplaysLater(db: Database, later: Database, req: Request, e: Envelope)
    requires Grows(db, later) && ReplaysAs(db, req, e)
    ensures AtomicReserve(later, req).1 == Ok(Completed(e))
  {
    hide Classify;
  }

  /** Once a final reply has been sent, the same request, started later, is answered by that very response, marked as a
      replay: it can no longer be told that its key is in progress, nor be refused. */
  lemma ReplayedForEver(env: Env, s: State, t: State, i: nat, p: nat, q: nat)
    requires i < |s.replies| && p == s.replies[i].pid && p in s.procs && Final(EnvelopeOf(s.replies[i].answer).status)
    requires q !in s.procs && q in t.procs && t.procs[q].req == s.procs[p].req && t.procs[q].result.Some?
    requires HashShape(env.sha) && Continues(env, s, t)
    ensures t.procs[q].result == Some(Completed(EnvelopeOf(s.replies[i].answer).(isReplay := true)))
  {
    hide AnswerHolds, EnvelopeOf, Reachable, HashShape, Continues, Final, ReplaysAs, Legal, Replay, Grows, AtomicReserve;
    ContinuesLater(env, s, t);
    ReplyHolds(env, s, i);
    FinalReplays(s.ledger, p, s.procs[p].req, s.replies[i].answer);
    Linearizable(env, s);
    Linearizable(env, t);
    var n := t.procs[q].lin.value;
    HistoryGrows(t.log, |s.log|, n);
    assert t.log[..|s.log|] == s.log;
    ReplaysLater(s.ledger.db, Replay(t.log[..n]), s.procs[p].req, EnvelopeOf(s.replies[i].answer).(isReplay := true));
    ResultWasExplained(t.log, q, t.procs[q], t.procs[q].result.value);
  }

  // ---------- From the network's response to the stored rows ----------

  /** What a request carries after the call is what the pipeline made of the response it got. */
  ghost predicate Served(env: Env, procs: map<nat, Proc>) {
    forall p :: p in procs && procs[p].completion.Some? ==>
      procs[p].http.Some? && Pipeline(env.digit, Id(procs[p]), procs[p].http.value) == procs[p].completion
  }

  lemma StepServes(env: Env, s: State, a: Action)
    requires Enabled(s, a) && Served(env, s.procs)
    ensures Served(env, Step(env, s, a).procs)
  {
    hide Pipeline, ValidPayload, Enabled;
    StepChanges(env, s, a);
  }

  lemma {:induction false} RunsServe(env: Env, acts: seq<Action>)
    requires IsRun(env, acts)
    ensures Served(env, Exec(env, acts).procs)
  {
    hide Served, Step, Enabled;
    if acts == [] {
      NobodyServed(env);
    } else {
      RunsServe(env, acts[..|acts| - 1]);
      StepServes(env, Exec(env, acts[..|acts| - 1]), acts[|acts| - 1]);
    }
  }

  lemma NobodyServed(env: Env)
    ensures Served(env, map[])
  {
  }

  /** The network's response, the stored rows and the replayed envelope of a completed key. */
  ghost predicate OutcomeOf(env: Env, db: Database, k: string, id: string, h: HttpOutcome, c: Completion) {
    && Pipeline(env.digit, id, h) == Some(c)
    && k in db.recs && db.recs[k].transactionId == id && id in db.txns
    && Classify(db.recs[k], db.recs[k].fingerprint) == Ok(Completed(c.envelope.(isReplay := true)))
    && db.txns[id].status == c.txn.status && db.txns[id].pending == c.txn.pending && db.txns[id].version == c.txn.version
    && db.txns[id].networkReference == c.networkReference && db.txns[id].authorizationCode == c.authorizationCode
    && db.txns[id].declineCode == c.declineCode
  }

  /** Every completed key was completed with the outcome of the one response its owner received. */
  lemma EndToEnd(env: Env, s: State, k: string)
    requires k in s.ledger.db.recs && s.ledger.db.recs[k].processing == COMPLETED
    requires HashShape(env.sha) && Reachable(env, s)
    ensures k in s.ledger.owner && s.ledger.owner[k] in s.procs
    ensures var pr := s.procs[s.ledger.owner[k]];
            && Lifecycle.NonBlank(Id(pr)) && pr.http.Some? && pr.completion.Some?
            && OutcomeOf(env, s.ledger.db, k, Id(pr), pr.http.value, pr.completion.value)
  {
    hide Inv, HashShape, Pipeline, ProcsOk, LocksOk, CallsOk, RepliesOk, LogOk, Lifecycle.NonBlank, RecordOk;
    assert Served(env, s.procs) by {
      hide Served, IsRun, Exec;
      var acts :| IsRun(env, acts) && Exec(env, acts) == s;
      RunsServe(env, acts);
    }
    hide Reachable;
    Safe(env, s);
    CompletedRows(env, s.ledger, s.procs, k);
  }

  lemma CompletedRows(env: Env, L: Ledger, procs: map<nat, Proc>, k: string)
    requires RecordOk(env, L, procs, k) && L.db.recs[k].processing == COMPLETED && Served(env, procs)
    ensures k in L.owner && L.owner[k] in procs
    ensures var pr := procs[L.owner[k]];
            && Lifecycle.NonBlank(Id(pr)) && pr.http.Some? && pr.completion.Some?
            && OutcomeOf(env, L.db, k, Id(pr), pr.http.value, pr.completion.value)
  {
    hide Pipeline, InsertFits, InsertChecks, ValidPayload, Storable, Lifecycle.NonBlank, Persisted, StoredEnvelope, IsHex64;
    var pr := procs[L.owner[k]];
    Steps.ValidName(pr.req.payload);
    ReplayRoundTrip(Id(pr), NewRecord(pr.req), pr.completion.value);
  }

  /** What a client that reads the stored body can rely on. */
  predicate BodyTells(body: map<string, Json>, id: string, t: TransactionRow) {
    && (t.status != Lifecycle.FAILED ==>
          && Has(body, "transaction_id", String(id)) && Has(body, "version", Int(t.version))
          && Has(body, "status", String(StatusName(t.status))))
    && (t.status == Lifecycle.AUTHORIZED ==>
          && t.networkReference.Some? && Has(body, "network_reference", String(t.networkReference.value))
          && t.authorizationCode.Some? && Has(body, "authorization_code", String(t.authorizationCode.value)))
    && (t.status == Lifecycle.DECLINED ==>
          t.declineCode.Some? && Has(body, "decline_code", String(t.declineCode.value)))
  }

  /** A stored authorization or decline was given by a conforming 200 response, whose stripped reference and codes are
      in the row; the stored body, and so every replay, tells the row as it is. */
  lemma ResultsAreCarried(env: Env, s: State, k: string, t: TransactionRow, h: HttpOutcome)
    requires k in s.ledger.db.recs && s.ledger.db.recs[k].processing == COMPLETED
    requires k in s.ledger.owner && s.ledger.owner[k] in s.procs && s.procs[s.ledger.owner[k]].http == Some(h)
    requires s.ledger.db.recs[k].transactionId in s.ledger.db.txns
    requires t == s.ledger.db.txns[s.ledger.db.recs[k].transactionId]
    requires HashShape(env.sha) && Reachable(env, s)
    ensures s.ledger.db.recs[k].body.Some?
    ensures BodyTells(s.ledger.db.recs[k].body.value, s.ledger.db.recs[k].transactionId, t)
    ensures t.status == Lifecycle.AUTHORIZED ==>
              && t.networkReference.Some? && t.authorizationCode.Some? && t.declineCode.None?
              && ApprovedBy(h, t.networkReference.value, t.authorizationCode.value)
    ensures t.status == Lifecycle.DECLINED ==>
              && t.declineCode.Some? && t.networkReference.None? && t.authorizationCode.None?
              && DeclinedBy(h, t.declineCode.value)
  {
    hide HashShape, Reachable, Pipeline, Lifecycle.NonBlank, ApprovedBy, DeclinedBy, StoredEnvelope, Has, BodyTells;
    EndToEnd(env, s, k);
    var pr := s.procs[s.ledger.owner[k]];
    var c := pr.completion.value;
    CarriedUnchanged(env, Id(pr), h, c, t);
    StoredBody(s.ledger.db.recs[k], c.envelope);
  }

  /** A verdict of the network that the columns cannot hold is never stored: the key of the request that received it
      stays in progress. */
  lemma UnkeepableNeverCompletes(env: Env, s: State, k: string, h: HttpOutcome)
    requires k in s.ledger.owner && s.ledger.owner[k] in s.procs && s.procs[s.ledger.owner[k]].http == Some(h)
    requires !Columns.KeepableResponse(h)
    requires HashShape(env.sha) && Reachable(env, s)
    ensures k in s.ledger.db.recs && s.ledger.db.recs[k].processing == IN_PROGRESS
  {
    hide HashShape, Reachable, Pipeline, Lifecycle.NonBlank, StoredEnvelope, Columns.KeepableResponse, Legal, Replay;
    OwnedIsRecorded(env, s, k);
    if s.ledger.db.recs[k].processing == COMPLETED {
      EndToEnd(env, s, k);
      var pr := s.procs[s.ledger.owner[k]];
      Linearizable(env, s);
      Columns.HistoryFits(s.log);
      RowKeeps(s.ledger.db, Id(pr), pr.completion.value);
      Columns.KeepableIff(env.digit, Id(pr), h, pr.completion.value);
    }
  }

  lemma RowKeeps(db: Database, id: string, c: Completion)
    requires Columns.RowsFit(db) && id in db.txns
    requires db.txns[id].networkReference == c.networkReference && db.txns[id].authorizationCode == c.authorizationCode
    requires db.txns[id].declineCode == c.declineCode
    ensures Columns.Keepable(c)
  {
    hide FitsText;
  }

  lemma OwnedIsRecorded(env: Env, s: State, k: string)
    requires k in s.ledger.owner
    requires HashShape(env.sha) && Reachable(env, s)
    ensures k in s.ledger.db.recs
  {
    hide HashShape, Reachable, Inv, LogOk, ProcsOk, LocksOk, CallsOk, RepliesOk, RecordOk, TransactionOk;
    Safe(env, s);
  }

  /** The stored status of a completed key, for every response its owner may have received. */
  lemma StoredStatusIff(env: Env, s: State, k: string, t: TransactionRow, h: HttpOutcome)
    requires k in s.ledger.db.recs && s.ledger.db.recs[k].processing == COMPLETED
    requires k in s.ledger.owner && s.ledger.owner[k] in s.procs && s.procs[s.ledger.owner[k]].http == Some(h)
    requires s.ledger.db.recs[k].transactionId in s.ledger.db.txns
    requires t == s.ledger.db.txns[s.ledger.db.recs[k].transactionId]
    requires HashShape(env.sha) && Reachable(env, s)
    ensures t.status == Lifecycle.FAILED <==> h.Response? && 400 <= h.status < 500 && h.status != 408
    ensures t.status == Lifecycle.DECLINED <==> exists code :: DeclinedBy(h, code)
    ensures t.status == Lifecycle.AUTHORIZED <==> exists reference, code :: ApprovedBy(h, reference, code)
    ensures t.status !in {Lifecycle.FAILED, Lifecycle.DECLINED, Lifecycle.AUTHORIZED} ==>
              t.status == Lifecycle.PENDING_RECONCILIATION && t.pending == Some(Lifecycle.AUTHORIZATION)
  {
    hide HashShape, Reachable, Pipeline, Lifecycle.NonBlank, ApprovedBy, DeclinedBy, StoredEnvelope;
    EndToEnd(env, s, k);
    var pr := s.procs[s.ledger.owner[k]];
    StatusIff(env.digit, Id(pr), h, pr.completion.value);
  }

  lemma StoredBody(r: RecordRow, e: Envelope)
    requires Classify(r, r.fingerprint) == Ok(Completed(e.(isReplay := true)))
    ensures r.body == Some(e.body)
  {
  }

  lemma CarriedUnchanged(env: Env, id: string, h: HttpOutcome, c: Completion, t: TransactionRow)
    requires Lifecycle.NonBlank(id) && Pipeline(env.digit, id, h) == Some(c)
    requires t.status == c.txn.status && t.version == c.txn.version && t.networkReference == c.networkReference
    requires t.authorizationCode == c.authorizationCode && t.declineCode == c.declineCode
    ensures BodyTells(c.envelope.body, id, t)
    ensures t.status == Lifecycle.AUTHORIZED ==>
              && t.networkReference.Some? && t.authorizationCode.Some? && t.declineCode.None?
              && ApprovedBy(h, t.networkReference.value, t.authorizationCode.value)
    ensures t.status == Lifecycle.DECLINED ==>
              && t.declineCode.Some? && t.networkReference.None? && t.authorizationCode.None?
              && DeclinedBy(h, t.declineCode.value)
  {
    BodyTellsTransaction(id, Authorize(env.digit, h), c);
    PipelineStorable(env.digit, id, h);
    StorableVersion(id, c);
    hide Has, ApprovedBy, DeclinedBy, Lifecycle.NonBlank, Pipeline, Storable, StatusName;
    ResultIff(env.digit, id, h, c, "", "");
    if c.txn.status == Lifecycle.AUTHORIZED {
      ResultIff(env.digit, id, h, c, c.networkReference.value, c.authorizationCode.value);
    } else if c.txn.status == Lifecycle.DECLINED {
      ResultIff(env.digit, id, h, c, "", c.declineCode.value);
    }
  }
}
