/** One authorization: calling the network, moving the transaction, and mapping the exit to an envelope. */
module Authorization {
  import opened Results
  import opened Lifecycle
  import opened PaymentNetwork
  import opened Envelopes
  import Decimal
  import RetryAfter

  /** The normal and raised exits of `execute`. */
  datatype Exit =
    | Result(txn: Snapshot, networkReference: Option<string>, authorizationCode: Option<string>, declineCode: Option<string>)
    | RateLimitExceeded(txn: Snapshot, retryAfter: int)
    | DownstreamRejected(txn: Snapshot)
    | Raised(error: DomainError)

  /** The exit for each answer of the network. */
  function ExitFor(id: string, answer: PortOutcome): Exit {
    var created := Snapshot(id, CREATED, 0, None);
    var pending := Snapshot(id, PENDING_RECONCILIATION, 1, Some(AUTHORIZATION));
    if !WellFormed(created) then Raised(InvalidInvariant)
    else
      match answer
      case Authorized(reference, code) => Result(Snapshot(id, AUTHORIZED, 1, None), Some(reference), Some(code), None)
      case Declined(code) => Result(Snapshot(id, DECLINED, 1, None), None, None, Some(code))
      case RateLimited(retryAfter) => RateLimitExceeded(Snapshot(id, FAILED, 1, None), retryAfter)
      case Rejected => DownstreamRejected(Snapshot(id, FAILED, 1, None))
      case _ => Result(pending, None, None, None)
  }

  /** `execute`, with the network's answer given; the transaction goes through its own guarded methods. */
  method Execute(id: string, answer: PortOutcome) returns (exit: Exit)
    ensures exit == ExitFor(id, answer)
  {
    hide NonBlank;
    var r := Transaction.Create(Snapshot(id, CREATED, 0, None));
    if r.Err? {
      return Raised(r.error);
    }
    var transaction := r.value;
    var e: Option<DomainError>;
    match answer {
      case Timeout =>
        e := transaction.MarkPendingReconciliation(AUTHORIZATION);
        exit := Result(transaction.View(), None, None, None);
      case InvalidResponse =>
        e := transaction.MarkPendingReconciliation(AUTHORIZATION);
        exit := Result(transaction.View(), None, None, None);
      case Unavailable =>
        e := transaction.MarkPendingReconciliation(AUTHORIZATION);
        exit := Result(transaction.View(), None, None, None);
      case RateLimited(retryAfter) =>
        e := transaction.TransitionTo(FAILED);
        exit := RateLimitExceeded(transaction.View(), retryAfter);
      case Rejected =>
        e := transaction.TransitionTo(FAILED);
        exit := DownstreamRejected(transaction.View());
      case Authorized(reference, code) =>
        e := transaction.TransitionTo(AUTHORIZED);
        exit := Result(transaction.View(), Some(reference), Some(code), None);
      case Declined(code) =>
        e := transaction.TransitionTo(DECLINED);
        exit := Result(transaction.View(), None, None, Some(code));
    }
    assert e == None;
  }

  // ---------- From the exit to what is stored and sent ----------

  /** Arguments of the completing call. */
  datatype Completion = Completion(
    txn: Snapshot, envelope: Envelope,
    networkReference: Option<string>, authorizationCode: Option<string>, declineCode: Option<string>)

  function OrEmpty(s: Option<string>): Json {
    String(if s.Some? then s.value else "")
  }

  function AuthorizedBody(txn: Snapshot, reference: Option<string>, code: Option<string>): map<string, Json> {
    map["transaction_id" := String(txn.id), "status" := String("AUTHORIZED"), "version" := Int(txn.version),
        "network_reference" := OrEmpty(reference), "authorization_code" := OrEmpty(code)]
  }

  function DeclinedBody(txn: Snapshot, code: Option<string>): map<string, Json> {
    map["transaction_id" := String(txn.id), "status" := String("DECLINED"), "version" := Int(txn.version),
        "decline_code" := OrEmpty(code)]
  }

  function PendingBody(txn: Snapshot): map<string, Json> {
    map["transaction_id" := String(txn.id), "status" := String("PENDING_RECONCILIATION"), "version" := Int(txn.version),
        "pending_operation" := String("AUTHORIZATION")]
  }

  function MapResult(exit: Exit): Envelope
    requires exit.Result?
  {
    var txn := exit.txn;
    if txn.status == AUTHORIZED then
      Envelope(201, AuthorizedBody(txn, exit.networkReference, exit.authorizationCode), [], false, JSON)
    else if txn.status == DECLINED then Envelope(201, DeclinedBody(txn, exit.declineCode), [], false, JSON)
    else Envelope(202, PendingBody(txn), [], false, JSON)
  }

  const RATE_LIMITED_TYPE := "urn:problem-type:provider-rate-limited"
  const RATE_LIMITED_TITLE := "Downstream rate limit exceeded"
  const RATE_LIMITED_DETAIL := "Downstream payment network " + "rate limit exceeded."
  const REJECTED_TYPE := "urn:problem-type:downstream-rejected"
  const REJECTED_TITLE := "Payment network request rejected"
  const REJECTED_DETAIL := "The payment network rejected " + "the authorization request."

  function RateLimitedProblem(retryAfter: int): Envelope {
    Problem(503, RATE_LIMITED_TYPE, RATE_LIMITED_TITLE, RATE_LIMITED_DETAIL, [(RETRY_AFTER, Decimal.Print(retryAfter))])
  }

  function RejectedProblem(): Envelope {
    Problem(502, REJECTED_TYPE, REJECTED_TITLE, REJECTED_DETAIL, [])
  }

  function CompletionFor(exit: Exit): Option<Completion> {
    match exit
    case Result(txn, reference, authorization, decline) =>
      Some(Completion(txn, MapResult(exit), reference, authorization, decline))
    case RateLimitExceeded(txn, retryAfter) => Some(Completion(txn, RateLimitedProblem(retryAfter), None, None, None))
    case DownstreamRejected(txn) => Some(Completion(txn, RejectedProblem(), None, None, None))
    case Raised(_) => None
  }

  /** The whole pipeline behind one network call. */
  function Pipeline(dv: char -> int, id: string, h: HttpOutcome): Option<Completion> {
    CompletionFor(ExitFor(id, Authorize(dv, h)))
  }

  // ---------- What the pipeline guarantees ----------

  predicate Has(body: map<string, Json>, name: string, value: Json) {
    name in body && body[name] == value
  }

  /** A problem document with exactly these members, and its response. */
  predicate IsProblem(e: Envelope, status: int, kind: string, title: string, detail: string, headers: Headers) {
    && e.status == status && e.headers == headers && !e.isReplay && e.mediaType == "application/problem+json"
    && e.body.Keys == {"type", "title", "status", "detail"}
    && Has(e.body, "type", String(kind)) && Has(e.body, "title", String(title))
    && Has(e.body, "status", Int(status)) && Has(e.body, "detail", String(detail))
  }

  lemma ProblemIs(status: int, kind: string, title: string, detail: string, headers: Headers)
    ensures IsProblem(Problem(status, kind, title, detail, headers), status, kind, title, detail, headers)
  {
  }

  /** The responses for the two outcomes that are no result. */
  lemma FailureResponses(retryAfter: int)
    ensures IsProblem(RateLimitedProblem(retryAfter), 503, "urn:problem-type:provider-rate-limited",
                      "Downstream rate limit exceeded", "Downstream payment network " + "rate limit exceeded.",
                      [("Retry-After", Decimal.Print(retryAfter))])
    ensures IsProblem(RejectedProblem(), 502, "urn:problem-type:downstream-rejected", "Payment network request rejected",
                      "The payment network rejected " + "the authorization request.", [])
  {
    hide IsProblem, Problem;
    ProblemIs(503, RATE_LIMITED_TYPE, RATE_LIMITED_TITLE, RATE_LIMITED_DETAIL, [(RETRY_AFTER, Decimal.Print(retryAfter))]);
    ProblemIs(502, REJECTED_TYPE, REJECTED_TITLE, REJECTED_DETAIL, []);
  }

  /** A completion the coordinator can store: version one, a legal status and pending pair, a final response code
      that goes with the status, and only headers that survive storage. */
  predicate Storable(id: string, c: Completion) {
    && c.txn.id == id && c.txn.version == 1 && WellFormed(c.txn)
    && (c.txn.status == PENDING_RECONCILIATION ==> c.txn.pending == Some(AUTHORIZATION))
    && (match c.envelope.status
        case 201 => c.txn.status in {AUTHORIZED, DECLINED}
        case 202 => c.txn.status == PENDING_RECONCILIATION
        case 502 => c.txn.status == FAILED
        case 503 => c.txn.status == FAILED
        case _ => false)
    && Restored(Persisted(c.envelope.headers)) == c.envelope.headers
    && !c.envelope.isReplay
    && c.envelope.mediaType == (if c.envelope.status >= 400 then PROBLEM_JSON else JSON)
  }

  lemma StorableVersion(id: string, c: Completion)
    requires Storable(id, c)
    ensures c.txn.version == 1 && c.txn.id == id
  {
    hide Restored, Persisted;
  }

  /** What the two problem responses have in common. */
  lemma ProblemShapes(retryAfter: int)
    ensures var e := RateLimitedProblem(retryAfter);
            && e.status == 503 && e.mediaType == PROBLEM_JSON && !e.isReplay
            && e.headers == [(RETRY_AFTER, Decimal.Print(retryAfter))]
            && Has(e.body, "status", Int(503)) && Has(e.body, "type", String("urn:problem-type:provider-rate-limited"))
    ensures var e := RejectedProblem();
            && e.status == 502 && e.mediaType == PROBLEM_JSON && !e.isReplay && e.headers == []
            && Has(e.body, "status", Int(502)) && Has(e.body, "type", String("urn:problem-type:downstream-rejected"))
  {
  }

  lemma ExitStorable(id: string, answer: PortOutcome)
    requires NonBlank(id)
    ensures CompletionFor(ExitFor(id, answer)).Some? && Storable(id, CompletionFor(ExitFor(id, answer)).value)
  {
    hide RateLimitedProblem, RejectedProblem, Problem, AuthorizedBody, DeclinedBody, PendingBody, NonBlank;
    hide Allowlisted, IsRetryAfter, Persisted, Restored, RETRY_AFTER, JSON, PROBLEM_JSON;
    HeadersRoundTrip([]);
    if answer.RateLimited? {
      ProblemShapes(answer.retryAfter);
      HeadersRoundTrip(RateLimitedProblem(answer.retryAfter).headers);
    } else {
      ProblemShapes(1);
    }
  }

  /** Every exit of `execute`, normal or raised by the service, yields a storable completion. */
  lemma PipelineStorable(dv: char -> int, id: string, h: HttpOutcome)
    requires NonBlank(id)
    ensures Pipeline(dv, id, h).Some? && Storable(id, Pipeline(dv, id, h).value)
  {
    ExitStorable(id, Authorize(dv, h));
  }

  /** A 200 that approves: reference and code are what is left of its fields without the white space around them. */
  ghost predicate ApprovedBy(h: HttpOutcome, reference: string, code: string) {
    && h.Response? && h.status == 200 && h.body.Parsed? && h.body.json.Object?
    && var data := h.body.json.fields;
    && "outcome" in data && data["outcome"] == String("AUTHORIZED")
    && FieldIs(data, "network_reference", reference) && FieldIs(data, "authorization_code", code)
  }

  ghost predicate DeclinedBy(h: HttpOutcome, code: string) {
    && h.Response? && h.status == 200 && h.body.Parsed? && h.body.json.Object?
    && var data := h.body.json.fields;
    && "outcome" in data && data["outcome"] == String("DECLINED") && FieldIs(data, "decline_code", code)
  }

  lemma ApprovedIff(dv: char -> int, h: HttpOutcome, reference: string, code: string)
    ensures ApprovedBy(h, reference, code) <==> Authorize(dv, h) == Authorized(reference, code)
  {
    if h.Response? && h.body.Parsed? && h.body.json.Object? {
      FieldIff(h.body.json.fields, "network_reference", reference);
      FieldIff(h.body.json.fields, "authorization_code", code);
    }
    hide FieldIs, Field;
  }

  lemma DeclinedIff(dv: char -> int, h: HttpOutcome, code: string)
    ensures DeclinedBy(h, code) <==> Authorize(dv, h) == Declined(code)
  {
    if h.Response? && h.body.Parsed? && h.body.json.Object? {
      FieldIff(h.body.json.fields, "decline_code", code);
      OutcomesDiffer();
    }
    hide FieldIs, Field;
  }

  lemma OutcomesDiffer()
    ensures "AUTHORIZED" != "DECLINED"
  {
    assert |"AUTHORIZED"| == 10;
  }

  /** `x or ""`. */
  lemma MissingIsEmpty(x: string)
    ensures OrEmpty(Some(x)) == String(x) && OrEmpty(None) == String("")
  {
  }

  /** What the three result bodies say. */
  lemma BodyShapes(txn: Snapshot, reference: Option<string>, code: Option<string>)
    ensures var body := AuthorizedBody(txn, reference, code);
            && Has(body, "transaction_id", String(txn.id)) && Has(body, "version", Int(txn.version))
            && Has(body, "status", String("AUTHORIZED"))
            && Has(body, "network_reference", OrEmpty(reference)) && Has(body, "authorization_code", OrEmpty(code))
  {
  }

  lemma OtherBodyShapes(txn: Snapshot, code: Option<string>)
    ensures var body := DeclinedBody(txn, code);
            && Has(body, "transaction_id", String(txn.id)) && Has(body, "version", Int(txn.version))
            && Has(body, "status", String("DECLINED")) && Has(body, "decline_code", OrEmpty(code))
    ensures var body := PendingBody(txn);
            && Has(body, "transaction_id", String(txn.id)) && Has(body, "version", Int(txn.version))
            && Has(body, "status", String("PENDING_RECONCILIATION"))
            && Has(body, "pending_operation", String("AUTHORIZATION"))
  {
  }

  /** AUTHORIZED comes from an approving 200 and DECLINED from a declining one, and from nothing else; reference and
      codes are carried unchanged into the row and the body. */
  lemma ResultIff(dv: char -> int, id: string, h: HttpOutcome, c: Completion, reference: string, code: string)
    requires NonBlank(id) && Pipeline(dv, id, h) == Some(c)
    ensures ApprovedBy(h, reference, code)
       <==> c.txn.status == AUTHORIZED && c.networkReference == Some(reference) && c.authorizationCode == Some(code)
    ensures c.txn.status == AUTHORIZED ==>
              && c.networkReference.Some? && c.authorizationCode.Some? && c.declineCode.None?
              && Has(c.envelope.body, "network_reference", String(c.networkReference.value))
              && Has(c.envelope.body, "authorization_code", String(c.authorizationCode.value))
    ensures DeclinedBy(h, code) <==> c.txn.status == DECLINED && c.declineCode == Some(code)
    ensures c.txn.status == DECLINED ==>
              && c.declineCode.Some? && c.networkReference.None? && c.authorizationCode.None?
              && Has(c.envelope.body, "decline_code", String(c.declineCode.value))
  {
    hide RateLimitedProblem, RejectedProblem, AuthorizedBody, DeclinedBody, PendingBody, Has, ApprovedBy, DeclinedBy;
    hide Authorize, NonBlank;
    ApprovedIff(dv, h, reference, code);
    DeclinedIff(dv, h, code);
    BodyShapes(c.txn, c.networkReference, c.authorizationCode);
    OtherBodyShapes(c.txn, c.declineCode);
  }

  /** The stored status, reference and codes, by the answer of the network. */
  lemma CompletionByAnswer(id: string, answer: PortOutcome)
    requires NonBlank(id)
    ensures var c := CompletionFor(ExitFor(id, answer)).value;
            && (c.txn.status == AUTHORIZED <==> answer.Authorized?)
            && (c.txn.status == DECLINED <==> answer.Declined?)
            && (c.txn.status == FAILED <==> answer.RateLimited? || answer.Rejected?)
            && (c.envelope.status == 503 <==> answer.RateLimited?)
            && (c.txn == Snapshot(id, PENDING_RECONCILIATION, 1, Some(AUTHORIZATION))
                <==> answer.Timeout? || answer.InvalidResponse? || answer.Unavailable?)
            && (c.txn.status in {FAILED, PENDING_RECONCILIATION} ==>
                  c.networkReference.None? && c.authorizationCode.None? && c.declineCode.None?)
  {
    hide RateLimitedProblem, RejectedProblem, AuthorizedBody, DeclinedBody, PendingBody, NonBlank;
    ProblemShapes(if answer.RateLimited? then answer.retryAfter else 1);
    match answer
    case Authorized(_, _) =>
    case Declined(_) =>
    case RateLimited(_) =>
    case Rejected =>
    case Timeout =>
    case InvalidResponse =>
    case Unavailable =>
  }

  /** The answer of the network, case by case. */
  lemma AnswerByResponse(dv: char -> int, h: HttpOutcome)
    ensures var answer := Authorize(dv, h);
            && (answer.RateLimited? <==> h.Response? && h.status == 429)
            && (answer.RateLimited? || answer.Rejected? <==> h.Response? && 400 <= h.status < 500 && h.status != 408)
            && (answer.Timeout? <==> h.TimedOut? || (h.Response? && h.status == 408))
            && (answer.Unavailable? <==> h.TransportFailed? || (h.Response? && h.status != 200 && !(400 <= h.status < 500)))
            && (answer.Authorized? <==> exists reference, code :: ApprovedBy(h, reference, code))
            && (answer.Declined? <==> exists code :: DeclinedBy(h, code))
  {
    var answer := Authorize(dv, h);
    hide ApprovedBy, DeclinedBy;
    if answer.Authorized? {
      ApprovedIff(dv, h, answer.networkReference, answer.authorizationCode);
    }
    if answer.Declined? {
      DeclinedIff(dv, h, answer.declineCode);
    }
    forall reference, code | ApprovedBy(h, reference, code)
      ensures answer.Authorized?
    {
      ApprovedIff(dv, h, reference, code);
    }
    forall code | DeclinedBy(h, code)
      ensures answer.Declined?
    {
      DeclinedIff(dv, h, code);
    }
  }

  /** The four outcomes side by side: which response leads to which stored status, that there is no other, which
      response is answered by 503, and that nothing but a result stores a reference or a code. */
  lemma StatusIff(dv: char -> int, id: string, h: HttpOutcome, c: Completion)
    requires NonBlank(id) && Pipeline(dv, id, h) == Some(c)
    ensures c.txn.status == FAILED <==> h.Response? && 400 <= h.status < 500 && h.status != 408
    ensures c.txn.status == DECLINED <==> exists code :: DeclinedBy(h, code)
    ensures c.txn.status == AUTHORIZED <==> exists reference, code :: ApprovedBy(h, reference, code)
    ensures c.txn == Snapshot(id, PENDING_RECONCILIATION, 1, Some(AUTHORIZATION))
       <==> c.txn.status !in {FAILED, DECLINED, AUTHORIZED}
    ensures c.envelope.status == 503 <==> h.Response? && h.status == 429
    ensures c.txn.status in {FAILED, PENDING_RECONCILIATION} ==>
              c.networkReference.None? && c.authorizationCode.None? && c.declineCode.None?
  {
    hide NonBlank, DeclinedBy, ApprovedBy, ExitFor, CompletionFor, Authorize;
    CompletionByAnswer(id, Authorize(dv, h));
    AnswerByResponse(dv, h);
  }

  function StatusName(s: Status): string {
    match s
    case CREATED => "CREATED"
    case AUTHORIZED => "AUTHORIZED"
    case DECLINED => "DECLINED"
    case CAPTURED => "CAPTURED"
    case REFUNDED => "REFUNDED"
    case PENDING_RECONCILIATION => "PENDING_RECONCILIATION"
    case FAILED => "FAILED"
  }

  /** The body sent to the client tells the transaction as it is stored. */
  lemma BodyTellsTransaction(id: string, answer: PortOutcome, c: Completion)
    requires CompletionFor(ExitFor(id, answer)) == Some(c)
    ensures c.txn.status != FAILED ==>
              && Has(c.envelope.body, "transaction_id", String(c.txn.id))
              && Has(c.envelope.body, "status", String(StatusName(c.txn.status)))
              && Has(c.envelope.body, "version", Int(c.txn.version))
    ensures c.txn.status == DECLINED && c.declineCode.Some? ==>
              Has(c.envelope.body, "decline_code", String(c.declineCode.value))
    ensures c.txn.status == PENDING_RECONCILIATION ==> Has(c.envelope.body, "pending_operation", String("AUTHORIZATION"))
    ensures c.envelope.mediaType == if c.txn.status == FAILED then "application/problem+json" else "application/json"
    ensures c.txn.status == FAILED ==>
              && Has(c.envelope.body, "status", Int(c.envelope.status))
              && Has(c.envelope.body, "type",
                     String(if c.envelope.status == 503 then "urn:problem-type:provider-rate-limited"
                            else "urn:problem-type:downstream-rejected"))
  {
    hide RateLimitedProblem, RejectedProblem, AuthorizedBody, DeclinedBody, PendingBody, Has;
    BodyShapes(c.txn, c.networkReference, c.authorizationCode);
    OtherBodyShapes(c.txn, c.declineCode);
    ProblemShapes(if answer.RateLimited? then answer.retryAfter else 1);
    match answer
    case Authorized(_, _) =>
    case Declined(_) =>
    case RateLimited(_) =>
    case Rejected =>
    case Timeout =>
    case InvalidResponse =>
    case Unavailable =>
  }

  /** The delay sent to the client after a 429 is the sanitised one, and survives being parsed again; a printed delay
      of up to a minute is passed on as it is. */
  lemma RateLimitDelay(dv: char -> int, id: string, h: HttpOutcome)
    requires RetryAfter.DigitTable(dv) && NonBlank(id) && h.Response? && h.status == 429
    ensures var c := Pipeline(dv, id, h).value;
            && |c.envelope.headers| == 1 && c.envelope.headers[0].0 == "Retry-After"
            && RetryAfter.ParseRetryAfter(dv, Some(c.envelope.headers[0].1)) == RetryAfter.ParseRetryAfter(dv, h.retryAfter)
    ensures forall n: nat :: 1 <= n <= 60 && h.retryAfter == Some(Decimal.PrintNat(n)) ==>
              Pipeline(dv, id, h).value.envelope.headers[0].1 == Decimal.PrintNat(n)
    ensures h.retryAfter.None? ==> Pipeline(dv, id, h).value.envelope.headers[0].1 == Decimal.PrintNat(1)
  {
    hide RateLimitedProblem, RejectedProblem, AuthorizedBody, DeclinedBody, PendingBody, NonBlank;
    ProblemShapes(RetryAfter.ParseRetryAfter(dv, h.retryAfter));
    RetryAfter.FixedPoint(dv, h.retryAfter);
    forall n: nat | 1 <= n <= 60
      ensures RetryAfter.ParseRetryAfter(dv, Some(Decimal.PrintNat(n))) == n
    {
      RetryAfter.PrintedDelay(dv, n);
    }
    assert h.retryAfter.None? ==> RetryAfter.ParseRetryAfter(dv, h.retryAfter) == 1;
    hide RetryAfter.ParseRetryAfter, Decimal.PrintNat;
  }
}
