/** The HTTP adapter: from what the network did to a typed port outcome. */
module PaymentNetwork {
  import opened Results
  import RetryAfter
  import Text

  datatype Json =
    | Null
    | Bool(b: bool)
    | Int(n: int)
    | Real(x: real)
    | String(s: string)
    | Array(items: seq<Json>)
    | Object(fields: map<string, Json>)

  datatype Body = NotJson | Parsed(json: Json)

  /** The end of one POST: a timeout, a transport error, or a response with any status integer. */
  datatype HttpOutcome = TimedOut | TransportFailed | Response(status: int, body: Body, retryAfter: Option<string>)

  /** Results and errors of the payment network port. */
  datatype PortOutcome =
    | Authorized(networkReference: string, authorizationCode: string)
    | Declined(declineCode: string)
    | Timeout
    | InvalidResponse
    | Unavailable
    | RateLimited(retryAfter: int)
    | Rejected

  /** A field that is a string with something left after stripping, stripped. */
  function Field(fields: map<string, Json>, name: string): Option<string> {
    if name in fields && fields[name].String? && Text.Strip(fields[name].s) != ""
    then Some(Text.Strip(fields[name].s)) else None
  }

  /** The field is a text of which exactly this is left, and not nothing, when white space is cut off its ends. */
  ghost predicate FieldIs(fields: map<string, Json>, name: string, value: string) {
    name in fields && fields[name].String? && value != "" && Text.StripsTo(fields[name].s, value)
  }

  lemma FieldIff(fields: map<string, Json>, name: string, value: string)
    ensures Field(fields, name) == Some(value) <==> FieldIs(fields, name, value)
  {
    if name in fields && fields[name].String? {
      Text.StripIff(fields[name].s, value);
    }
  }

  function HandleOk(body: Body): PortOutcome {
    if body.NotJson? || !body.json.Object? then InvalidResponse
    else
      var data := body.json.fields;
      if "outcome" in data && data["outcome"] == String("AUTHORIZED") then
        match (Field(data, "network_reference"), Field(data, "authorization_code"))
        case (Some(reference), Some(code)) => Authorized(reference, code)
        case _ => InvalidResponse
      else if "outcome" in data && data["outcome"] == String("DECLINED") then
        match Field(data, "decline_code")
        case Some(code) => Declined(code)
        case None => InvalidResponse
      else InvalidResponse
  }

  function HandleResponse(dv: char -> int, status: int, body: Body, retryAfter: Option<string>): PortOutcome {
    if status == 200 then HandleOk(body)
    else if status == 429 then RateLimited(RetryAfter.ParseRetryAfter(dv, retryAfter))
    else if status == 408 then Timeout
    else if 400 <= status < 500 then Rejected
    else Unavailable
  }

  function Authorize(dv: char -> int, h: HttpOutcome): PortOutcome {
    match h
    case TimedOut => Timeout
    case TransportFailed => Unavailable
    case Response(status, body, retryAfter) => HandleResponse(dv, status, body, retryAfter)
  }
}
