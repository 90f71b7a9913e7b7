/** What the columns of the two tables refuse: which validated requests can be reserved, which outcomes completed. */
module Columns {
  import opened Results
  import opened CanonicalJson
  import opened Envelopes
  import opened PaymentNetwork
  import opened Schema
  import opened Authorization
  import opened Store
  import Decimal
  import Lifecycle
  import Text

  // ---------- Reservation ----------

  /** Validated payloads that the columns can hold: the schema bounds neither the amount nor, because of the final
      newline, the length of the currency, and it lets U+0000 through. */
  predicate Holdable(p: Payload) {
    && p.amount < 0x8000_0000_0000_0000 && |p.currency| == 3
    && '\0' !in p.transactionId && '\0' !in p.merchantId
  }

  lemma FitsIff(p: Payload)
    requires ValidPayload(p)
    ensures TransactionFits(p.transactionId, CreatedRow(p)) <==> Holdable(p)
  {
    assert '\0' !in p.currency;
  }

  /** A final newline is accepted by the schema and refused by the column, whatever the rest of the payload is. */
  lemma NewlineDoesNotFit(p: Payload)
    requires ValidPayload(p.(currency := "USD"))
    ensures ValidPayload(p.(currency := "USD\n"))
    ensures TransactionFits(p.transactionId, CreatedRow(p.(currency := "USD"))) <==>
              p.amount < 0x8000_0000_0000_0000 && '\0' !in p.transactionId && '\0' !in p.merchantId
    ensures !TransactionFits(p.transactionId, CreatedRow(p.(currency := "USD\n")))
  {
    FitsIff(p.(currency := "USD"));
    FitsIff(p.(currency := "USD\n"));
  }

  /** So is U+0000 inside an id: neither white space nor too long, but no character of a column. */
  lemma NulDoesNotFit(p: Payload, front: string, back: string)
    requires p.transactionId == front + "\0" + back
    requires ValidPayload(p.(transactionId := front + "x" + back)) && front != "" && back != ""
    ensures ValidPayload(p) && !TransactionFits(p.transactionId, CreatedRow(p))
  {
    assert p.transactionId[|front|] == '\0';
    assert p.transactionId[0] == (front + "x" + back)[0];
  }

  /** Concrete requests of each kind: a newline after the currency, U+0000 in an id, an amount of 2^63. */
  lemma UnholdableWitnesses()
    ensures var p := Payload(100, "USD\n", "m", "tok_test_1", "t");
            ValidPayload(p) && !TransactionFits(p.transactionId, CreatedRow(p))
    ensures var p := Payload(100, "USD", "m", "tok_test_1", "a" + "\0" + "b");
            ValidPayload(p) && !TransactionFits(p.transactionId, CreatedRow(p))
    ensures var p := Payload(0x8000_0000_0000_0000, "USD", "m", "tok_test_1", "t");
            ValidPayload(p) && !TransactionFits(p.transactionId, CreatedRow(p))
  {
    var p := Payload(100, "USD", "m", "tok_test_1", "t");
    assert p.paymentToken[..9] == TOKEN_PREFIX;
    assert ValidPayload(p);
    NewlineDoesNotFit(p);
    NulDoesNotFit(p.(transactionId := "a" + "\0" + "b"), "a", "b");
  }

  /** Exactly when a validated request is acquired. */
  lemma AcquiredIff(db: Database, req: Request)
    requires ValidPayload(req.payload) && IsHex64(req.keyHash) && IsHex64(req.fingerprint)
    ensures AtomicReserve(db, req).1 == Ok(Acquired)
       <==> req.keyHash !in db.recs && req.payload.transactionId !in db.txns && Holdable(req.payload)
  {
    FitsIff(req.payload);
    hide TransactionFits, TransactionChecks, RecordFits, RecordChecks, ValidPayload, IsHex64, Holdable;
    if TransactionFits(req.payload.transactionId, CreatedRow(req.payload)) {
      NewRecordFits(req);
      InsertMeetsChecks(req);
    }
  }

  lemma NewRecordFits(req: Request)
    requires IsHex64(req.keyHash) && IsHex64(req.fingerprint)
    requires TransactionFits(req.payload.transactionId, CreatedRow(req.payload))
    ensures InsertFits(req)
  {
    HexFits(req.keyHash);
    HexFits(req.fingerprint);
  }

  lemma HexFits(s: string)
    requires IsHex64(s)
    ensures FitsText(64, s)
  {
  }

  // ---------- Completion ----------

  /** Outcomes whose reference and codes the columns can hold. */
  predicate Keepable(c: Completion) {
    Varchar(128, c.networkReference) && Varchar(128, c.authorizationCode) && Varchar(128, c.declineCode)
  }

  const TRANSACTION_ID := "transaction_id"
  const STATUS := "status"
  const VERSION := "version"
  const NETWORK_REFERENCE := "network_reference"
  const AUTHORIZATION_CODE := "authorization_code"
  const DECLINE_CODE := "decline_code"
  const PENDING_OPERATION := "pending_operation"
  const TYPE := "type"
  const TITLE := "title"
  const DETAIL := "detail"

  lemma NamesFit()
    ensures '\0' !in TRANSACTION_ID && '\0' !in STATUS && '\0' !in VERSION && '\0' !in NETWORK_REFERENCE
    ensures '\0' !in AUTHORIZATION_CODE && '\0' !in DECLINE_CODE && '\0' !in PENDING_OPERATION
    ensures '\0' !in TYPE && '\0' !in TITLE && '\0' !in DETAIL
  {
  }

  /** The bodies with their field names named. */
  lemma ResultBodies(txn: Lifecycle.Snapshot, reference: Option<string>, code: Option<string>)
    ensures AuthorizedBody(txn, reference, code)
         == map[TRANSACTION_ID := String(txn.id), STATUS := String("AUTHORIZED"), VERSION := Int(txn.version),
                NETWORK_REFERENCE := OrEmpty(reference), AUTHORIZATION_CODE := OrEmpty(code)]
    ensures DeclinedBody(txn, code)
         == map[TRANSACTION_ID := String(txn.id), STATUS := String("DECLINED"), VERSION := Int(txn.version),
                DECLINE_CODE := OrEmpty(code)]
    ensures PendingBody(txn)
         == map[TRANSACTION_ID := String(txn.id), STATUS := String("PENDING_RECONCILIATION"), VERSION := Int(txn.version),
                PENDING_OPERATION := String("AUTHORIZATION")]
  {
  }

  lemma ProblemBody(status: int, kind: string, title: string, detail: string, headers: Headers)
    ensures Problem(status, kind, title, detail, headers).body
         == map[TYPE := String(kind), TITLE := String(title), STATUS := Int(status), DETAIL := String(detail)]
  {
  }

  lemma PutString(body: map<string, Json>, name: string, value: string)
    requires FitsBody(body) && '\0' !in name && '\0' !in value
    ensures FitsBody(body[name := String(value)])
  {
    var next := body[name := String(value)];
    forall k | k in next
      ensures '\0' !in k && FitsJsonb(next[k])
    {
      if k != name {
        assert next[k] == body[k];
      }
    }
  }

  lemma PutInt(body: map<string, Json>, name: string, value: int)
    requires FitsBody(body) && '\0' !in name
    ensures FitsBody(body[name := Int(value)])
  {
    var next := body[name := Int(value)];
    forall k | k in next
      ensures '\0' !in k && FitsJsonb(next[k])
    {
      if k != name {
        assert next[k] == body[k];
      }
    }
  }

  /** The fields every result has. */
  function ResultHead(txn: Lifecycle.Snapshot, status: string): map<string, Json> {
    map[][TRANSACTION_ID := String(txn.id)][STATUS := String(status)][VERSION := Int(txn.version)]
  }

  lemma HeadFits(txn: Lifecycle.Snapshot, status: string)
    requires '\0' !in txn.id && '\0' !in status
    ensures FitsBody(ResultHead(txn, status))
  {
    NamesFit();
    hide TRANSACTION_ID, STATUS, VERSION, FitsJsonb;
    PutString(map[], TRANSACTION_ID, txn.id);
    PutString(map[][TRANSACTION_ID := String(txn.id)], STATUS, status);
    PutInt(map[][TRANSACTION_ID := String(txn.id)][STATUS := String(status)], VERSION, txn.version);
  }

  function Shown(s: Option<string>): string {
    if s.Some? then s.value else ""
  }

  lemma AuthorizedBodyFits(txn: Lifecycle.Snapshot, reference: Option<string>, code: Option<string>)
    requires '\0' !in txn.id && Varchar(128, reference) && Varchar(128, code)
    ensures FitsBody(AuthorizedBody(txn, reference, code))
  {
    NamesFit();
    ResultBodies(txn, reference, code);
    assert '\0' !in "AUTHORIZED";
    HeadFits(txn, "AUTHORIZED");
    hide TRANSACTION_ID, STATUS, VERSION, NETWORK_REFERENCE, AUTHORIZATION_CODE, AuthorizedBody, FitsBody;
    var head := ResultHead(txn, "AUTHORIZED");
    PutString(head, NETWORK_REFERENCE, Shown(reference));
    PutString(head[NETWORK_REFERENCE := OrEmpty(reference)], AUTHORIZATION_CODE, Shown(code));
  }

  lemma DeclinedBodyFits(txn: Lifecycle.Snapshot, code: Option<string>)
    requires '\0' !in txn.id && Varchar(128, code)
    ensures FitsBody(DeclinedBody(txn, code))
  {
    NamesFit();
    ResultBodies(txn, None, code);
    assert '\0' !in "DECLINED";
    HeadFits(txn, "DECLINED");
    hide TRANSACTION_ID, STATUS, VERSION, DECLINE_CODE, DeclinedBody, FitsBody;
    PutString(ResultHead(txn, "DECLINED"), DECLINE_CODE, Shown(code));
  }

  lemma PendingBodyFits(txn: Lifecycle.Snapshot)
    requires '\0' !in txn.id
    ensures FitsBody(PendingBody(txn))
  {
    NamesFit();
    ResultBodies(txn, None, None);
    assert '\0' !in "PENDING_RECONCILIATION" && '\0' !in "AUTHORIZATION";
    HeadFits(txn, "PENDING_RECONCILIATION");
    hide TRANSACTION_ID, STATUS, VERSION, PENDING_OPERATION, PendingBody, FitsBody;
    PutString(ResultHead(txn, "PENDING_RECONCILIATION"), PENDING_OPERATION, "AUTHORIZATION");
  }

  lemma ProblemFits(status: int, kind: string, title: string, detail: string, headers: Headers)
    requires '\0' !in kind && '\0' !in title && '\0' !in detail
    ensures FitsBody(Problem(status, kind, title, detail, headers).body)
  {
    NamesFit();
    ProblemBody(status, kind, title, detail, headers);
    hide TYPE, TITLE, STATUS, DETAIL, Problem, FitsJsonb;
    PutString(map[], TYPE, kind);
    PutString(map[][TYPE := String(kind)], TITLE, title);
    PutInt(map[][TYPE := String(kind)][TITLE := String(title)], STATUS, status);
    PutString(map[][TYPE := String(kind)][TITLE := String(title)][STATUS := Int(status)], DETAIL, detail);
  }

  lemma PrintFits(n: int)
    ensures '\0' !in Decimal.Print(n)
  {
    var digits := Decimal.PrintNat(if n < 0 then -n else n);
    assert forall i :: 0 <= i < |digits| ==> Decimal.IsDigit(digits[i]);
  }

  lemma RateLimitedTexts()
    ensures '\0' !in RATE_LIMITED_TYPE && '\0' !in RATE_LIMITED_TITLE && '\0' !in RATE_LIMITED_DETAIL
  {
  }

  lemma RejectedTexts()
    ensures '\0' !in REJECTED_TYPE && '\0' !in REJECTED_TITLE && '\0' !in REJECTED_DETAIL
  {
    RejectedType();
    RejectedTitle();
    hide REJECTED_TYPE, REJECTED_TITLE;
  }

  lemma RejectedType()
    ensures '\0' !in REJECTED_TYPE
  {
  }

  lemma RejectedTitle()
    ensures '\0' !in REJECTED_TITLE
  {
  }

  lemma ProblemsFit(retryAfter: int)
    ensures FitsBody(RateLimitedProblem(retryAfter).body) && FitsBody(RejectedProblem().body)
  {
    hide Problem, FitsBody, RATE_LIMITED_TYPE, RATE_LIMITED_TITLE, RATE_LIMITED_DETAIL;
    hide REJECTED_TYPE, REJECTED_TITLE, REJECTED_DETAIL;
    RateLimitedTexts();
    RejectedTexts();
    ProblemFits(503, RATE_LIMITED_TYPE, RATE_LIMITED_TITLE, RATE_LIMITED_DETAIL, [(RETRY_AFTER, Decimal.Print(retryAfter))]);
    ProblemFits(502, REJECTED_TYPE, REJECTED_TITLE, REJECTED_DETAIL, []);
  }

  /** Bodies and headers never stand in the way of storing an outcome. */
  lemma EnvelopeFits(dv: char -> int, id: string, h: HttpOutcome, c: Completion)
    requires '\0' !in id && Pipeline(dv, id, h) == Some(c) && Keepable(c)
    ensures FitsBody(c.envelope.body) && FitsHeaders(c.envelope.headers)
  {
    hide FitsBody, Problem, AuthorizedBody, DeclinedBody, PendingBody, Lifecycle.NonBlank;
    hide RATE_LIMITED_TYPE, RATE_LIMITED_TITLE, RATE_LIMITED_DETAIL, REJECTED_TYPE, REJECTED_TITLE, REJECTED_DETAIL;
    var answer := Authorize(dv, h);
    hide Authorize;
    match answer
    case Authorized(_, _) => AuthorizedBodyFits(c.txn, c.networkReference, c.authorizationCode);
    case Declined(_) => DeclinedBodyFits(c.txn, c.declineCode);
    case RateLimited(retryAfter) =>
      ProblemsFit(retryAfter);
      Authorization.ProblemShapes(retryAfter);
      PrintFits(retryAfter);
      NameFits();
    case Rejected =>
      ProblemsFit(1);
      Authorization.ProblemShapes(1);
    case Timeout => PendingBodyFits(c.txn);
    case InvalidResponse => PendingBodyFits(c.txn);
    case Unavailable => PendingBodyFits(c.txn);
  }

  lemma NameFits()
    ensures '\0' !in RETRY_AFTER
  {
  }

  lemma CompletedRecordFits(req: Request, c: Completion)
    requires RecordFits(req.keyHash, NewRecord(req)) && Storable(req.payload.transactionId, c)
    requires FitsBody(c.envelope.body) && FitsHeaders(c.envelope.headers)
    ensures RecordFits(req.keyHash, CompletedRecord(NewRecord(req), c.envelope))
  {
    hide FitsText, FitsBody, FitsHeaders, Allowlisted, Lifecycle.NonBlank;
  }

  lemma UpdatedRowFits(req: Request, c: Completion)
    requires TransactionFits(req.payload.transactionId, CreatedRow(req.payload)) && c.txn.version == 1
    ensures TransactionFits(req.payload.transactionId, UpdatedRow(CreatedRow(req.payload), c)) <==> Keepable(c)
  {
    hide FitsText;
  }

  /** Right after a reservation its outcome can be stored exactly when the columns can hold the reference and the codes;
      otherwise the completion fails and the key stays in progress. */
  lemma CompletedIff(db: Database, req: Request, dv: char -> int, h: HttpOutcome, c: Completion)
    requires AtomicReserve(db, req).1 == Ok(Acquired) && Pipeline(dv, req.payload.transactionId, h) == Some(c)
    ensures FinishError(Inserted(db, req), Finish(req.keyHash, 0, c))
         == if Keepable(c) then None else Some(DatabaseFailure)
  {
    hide Pipeline, TransactionFits, TransactionChecks, RecordFits, RecordChecks, Storable, Keepable, FitsBody, FitsHeaders;
    AcquiredFits(db, req);
    PipelineIsStorable(dv, req.payload.transactionId, h, c);
    StorableVersion(req.payload.transactionId, c);
    CompletionMeetsChecks(req, c);
    UpdatedRowFits(req, c);
    if Keepable(c) {
      NoNulInId(req);
      EnvelopeFits(dv, req.payload.transactionId, h, c);
      CompletedRecordFits(req, c);
    }
  }

  lemma AcquiredFits(db: Database, req: Request)
    requires AtomicReserve(db, req).1 == Ok(Acquired)
    ensures TransactionFits(req.payload.transactionId, CreatedRow(req.payload)) && RecordFits(req.keyHash, NewRecord(req))
    ensures InsertChecks(req)
  {
    hide TransactionFits, TransactionChecks, RecordFits, RecordChecks, StoredEnvelope;
  }

  lemma NoNulInId(req: Request)
    requires TransactionFits(req.payload.transactionId, CreatedRow(req.payload))
    ensures '\0' !in req.payload.transactionId
  {
  }

  lemma PipelineIsStorable(dv: char -> int, id: string, h: HttpOutcome, c: Completion)
    requires Pipeline(dv, id, h) == Some(c)
    ensures Storable(id, c)
  {
    hide Authorize, Storable;
    if Lifecycle.NonBlank(id) {
      PipelineStorable(dv, id, h);
    }
  }

  /** The same condition on the response: whatever the network approves or declines must fit. */
  ghost predicate KeepableResponse(h: HttpOutcome) {
    && (forall reference, code :: ApprovedBy(h, reference, code) ==> FitsText(128, reference) && FitsText(128, code))
    && (forall code :: DeclinedBy(h, code) ==> FitsText(128, code))
  }

  lemma KeepableIff(dv: char -> int, id: string, h: HttpOutcome, c: Completion)
    requires Lifecycle.NonBlank(id) && Pipeline(dv, id, h) == Some(c)
    ensures Keepable(c) <==> KeepableResponse(h)
  {
    hide Pipeline, Lifecycle.NonBlank, ApprovedBy, DeclinedBy, FitsText, Has;
    PipelineStorable(dv, id, h);
    hide Storable;
    StatusIff(dv, id, h, c);
    forall reference, code | ApprovedBy(h, reference, code)
      ensures c.networkReference == Some(reference) && c.authorizationCode == Some(code) && c.declineCode.None?
    {
      ResultIff(dv, id, h, c, reference, code);
    }
    forall code | DeclinedBy(h, code)
      ensures c.declineCode == Some(code) && c.networkReference.None? && c.authorizationCode.None?
    {
      ResultIff(dv, id, h, c, "", code);
    }
    ResultIff(dv, id, h, c, "", "");
    if c.networkReference.Some? && c.authorizationCode.Some? {
      ResultIff(dv, id, h, c, c.networkReference.value, c.authorizationCode.value);
    }
    if c.declineCode.Some? {
      ResultIff(dv, id, h, c, "", c.declineCode.value);
    }
  }

  /** An approval whose reference has 129 characters. */
  lemma OverlongWitness()
    ensures var reference := seq(129, _ => 'a');
            var h := Response(200, Parsed(Object(map["outcome" := String("AUTHORIZED"),
                                                     "network_reference" := String(reference),
                                                     "authorization_code" := String("c")])), None);
            ApprovedBy(h, reference, "c") && !KeepableResponse(h)
  {
    var reference := seq(129, _ => 'a');
    assert Text.Strip(reference) == reference && Text.Strip("c") == "c";
    assert !FitsText(128, reference);
    var fields := map["outcome" := String("AUTHORIZED"), "network_reference" := String(reference),
                      "authorization_code" := String("c")];
    assert |"outcome"| == 7 && |"network_reference"| == 17 && |"authorization_code"| == 18;
    assert Field(fields, "network_reference") == Some(reference) && Field(fields, "authorization_code") == Some("c");
    FieldIff(fields, "network_reference", reference);
    FieldIff(fields, "authorization_code", "c");
    assert ApprovedBy(Response(200, Parsed(Object(fields)), None), reference, "c");
  }

  // ---------- Histories ----------

  /** All rows fit their columns. */
  ghost predicate RowsFit(db: Database) {
    && (forall t :: t in db.txns ==> TransactionFits(t, db.txns[t]))
    && (forall k :: k in db.recs ==> RecordFits(k, db.recs[k]))
  }

  lemma StepFits(db: Database, e: Event)
    requires RowsFit(db)
    ensures RowsFit(After(db, e))
  {
    hide TransactionFits, TransactionChecks, RecordFits, RecordChecks, CreatedRow, NewRecord, UpdatedRow, CompletedRecord;
    hide Classify;
  }

  lemma {:induction false} HistoryFits(log: seq<Event>)
    ensures RowsFit(Replay(log))
  {
    hide RowsFit, After;
    if log == [] {
      NothingMisfits();
    } else {
      HistoryFits(log[..|log| - 1]);
      StepFits(Replay(log[..|log| - 1]), log[|log| - 1]);
    }
  }

  lemma NothingMisfits()
    ensures RowsFit(EMPTY)
  {
  }
}
