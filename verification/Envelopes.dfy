/** Response envelopes, and the header allow-list applied before one is stored. */
module Envelopes {
  import opened Results
  import opened PaymentNetwork
  import Text

  /** A Python dict of strings, as its items in insertion order. */
  type Headers = seq<(string, string)>

  datatype Envelope = Envelope(
    status: int, body: map<string, Json>, headers: Headers, isReplay: bool, mediaType: string)

  const JSON := "application/json"
  const PROBLEM_JSON := "application/problem+json"

  function Problem(status: int, kind: string, title: string, detail: string, headers: Headers): Envelope {
    Envelope(status,
             map["type" := String(kind), "title" := String(title), "status" := Int(status), "detail" := String(detail)],
             headers, false, PROBLEM_JSON)
  }

  /** Equal up to the replay flag. */
  predicate SameResponse(a: Envelope, b: Envelope) {
    a.(isReplay := b.isReplay) == b
  }

  // ---------- Header allow-list ----------

  const RETRY_AFTER := "Retry-After"

  predicate IsRetryAfter(name: string) {
    Text.LowersTo(name, "retry-after")
  }

  /** `d[k] = v` on a dict. */
  function DictSet(d: Headers, k: string, v: string): Headers {
    if d == [] then [(k, v)]
    else if d[0].0 == k then [(k, v)] + d[1..]
    else [d[0]] + DictSet(d[1..], k, v)
  }

  /** Index of the last header named Retry-After in any letter case. */
  function LastMatch(headers: Headers): (r: Option<nat>)
    ensures r.Some? ==> r.value < |headers| && IsRetryAfter(headers[r.value].0)
    ensures r.Some? ==> forall i :: r.value < i < |headers| ==> !IsRetryAfter(headers[i].0)
    ensures r.None? ==> forall i :: 0 <= i < |headers| ==> !IsRetryAfter(headers[i].0)
  {
    if headers == [] then None
    else if IsRetryAfter(headers[|headers| - 1].0) then Some(|headers| - 1)
    else LastMatch(headers[..|headers| - 1])
  }

  function Allowlisted(headers: Headers): Headers {
    match LastMatch(headers)
    case None => []
    case Some(i) => [(RETRY_AFTER, headers[i].1)]
  }

  /** The filter loop keeps one header at most: Retry-After, with the value of its last occurrence. */
  method FilterHeaders(headers: Headers) returns (allowed: Headers)
    ensures LastMatch(headers).None? ==> allowed == []
    ensures LastMatch(headers).Some? ==> allowed == [(RETRY_AFTER, headers[LastMatch(headers).value].1)]
  {
    allowed := [];
    for i := 0 to |headers|
      invariant allowed == Allowlisted(headers[..i])
    {
      assert headers[..i + 1][..i] == headers[..i];
      var (name, value) := headers[i];
      if IsRetryAfter(name) {
        allowed := DictSet(allowed, RETRY_AFTER, value);
      }
    }
    assert headers[..|headers|] == headers;
  }

  lemma CanonicalNameMatches()
    ensures IsRetryAfter(RETRY_AFTER)
  {
    var low := "retry-after";
    assert RETRY_AFTER[0] == 'R' && RETRY_AFTER[6] == 'A';
    assert forall i :: 0 <= i < |low| && i != 0 && i != 6 ==> RETRY_AFTER[i] == low[i];
    assert forall i :: 0 <= i < |low| ==> !('A' <= low[i] <= 'Z');
  }

  /** The name in any mixture of cases, and nothing else. */
  lemma AnyCase(name: string)
    ensures IsRetryAfter(name)
       <==> |name| == 11 && forall i :: 0 <= i < 11 ==> name[i] == "retry-after"[i] || name[i] == "RETRY-AFTER"[i]
  {
    var low, up := "retry-after", "RETRY-AFTER";
    forall i | 0 <= i < 11
      ensures forall c: char :: Text.LowerAscii(c) == low[i] <==> c == low[i] || c == up[i]
    {
      CasePair(i);
    }
  }

  lemma CasePair(i: nat)
    requires i < 11
    ensures "RETRY-AFTER"[i] == "retry-after"[i] == '-'
         || ('a' <= "retry-after"[i] <= 'z' && "retry-after"[i] as int == "RETRY-AFTER"[i] as int + 32)
  {
  }

  /** Filtering twice is filtering once. */
  lemma AllowlistIdempotent(headers: Headers)
    ensures Allowlisted(Allowlisted(headers)) == Allowlisted(headers)
  {
    CanonicalNameMatches();
  }

  /** The value of the nullable `stored_headers` column. */
  function Persisted(headers: Headers): Option<Headers> {
    var allowed := Allowlisted(headers);
    if allowed == [] then None else Some(allowed)
  }

  /** `stored_headers or {}`. */
  function Restored(stored: Option<Headers>): Headers {
    if stored.Some? then stored.value else []
  }

  /** What is written and read back is the allow-listed part, whether or not it is empty. */
  lemma HeadersRoundTrip(headers: Headers)
    ensures Restored(Persisted(headers)) == headers
       <==> headers == [] || (|headers| == 1 && headers[0].0 == RETRY_AFTER)
  {
    CanonicalNameMatches();
  }
}
