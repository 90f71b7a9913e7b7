/** Request validation, the two tables and their column types and check constraints. */
module Schema {
  import opened Results
  import opened CanonicalJson
  import opened Envelopes
  import opened PaymentNetwork
  import Lifecycle
  import Text

  // ---------- Requests ----------

  const TOKEN_PREFIX := "tok_test_"

  predicate IsUpper3(s: string) {
    |s| == 3 && forall i :: 0 <= i < 3 ==> 'A' <= s[i] <= 'Z'
  }

  /** Python's `^[A-Z]{3}$`, whose `$` also matches before one final newline. */
  predicate IsCurrency(s: string) {
    IsUpper3(s) || (|s| == 4 && IsUpper3(s[..3]) && s[3] == '\n')
  }

  function ValidateName(s: string): Option<string> {
    var stripped := Text.Strip(s);
    if stripped == "" || |stripped| > 128 then None else Some(stripped)
  }

  function ValidateToken(s: string): Option<string> {
    var stripped := ValidateName(s);
    if stripped.Some? && TOKEN_PREFIX <= stripped.value then stripped else None
  }

  /** The request validators; None is a rejected request. */
  function Validate(raw: Payload): Option<Payload> {
    match (ValidateName(raw.transactionId), ValidateName(raw.merchantId), ValidateToken(raw.paymentToken))
    case (Some(id), Some(merchant), Some(token)) =>
      if raw.amount > 0 && IsCurrency(raw.currency)
      then Some(Payload(raw.amount, raw.currency, merchant, token, id)) else None
    case _ => None
  }

  predicate IsName(s: string) {
    Text.Stripped(s) && 1 <= |s| <= 128
  }

  /** What a command can rely on after validation. */
  predicate ValidPayload(p: Payload) {
    && IsName(p.transactionId) && IsName(p.merchantId) && IsName(p.paymentToken) && TOKEN_PREFIX <= p.paymentToken
    && p.amount > 0 && IsCurrency(p.currency)
  }

  /** The valid payloads are exactly the results of validation, and validation leaves them alone. */
  lemma ValidIff(p: Payload)
    ensures ValidPayload(p) <==> Validate(p) == Some(p)
    ensures forall raw :: Validate(raw) == Some(p) ==> ValidPayload(p)
  {
  }

  /** Three capital letters, and possibly a newline. */
  ghost predicate CurrencyText(s: string) {
    exists a, b, c :: 'A' <= a <= 'Z' && 'A' <= b <= 'Z' && 'A' <= c <= 'Z' && (s == [a, b, c] || s == [a, b, c, '\n'])
  }

  lemma CurrencyIff(s: string)
    ensures IsCurrency(s) <==> CurrencyText(s)
  {
    if IsCurrency(s) {
      assert s == [s[0], s[1], s[2]] || s == [s[0], s[1], s[2], '\n'];
    }
  }

  /** What is left of the text without the white space around it is not empty and not too long. */
  ghost predicate NameFrom(raw: string, name: string) {
    Text.StripsTo(raw, name) && 1 <= |name| <= 128
  }

  lemma ValidateNameIff(raw: string, name: string)
    ensures ValidateName(raw) == Some(name) <==> NameFrom(raw, name)
  {
    Text.StripIff(raw, name);
  }

  /** Exactly which requests are accepted, and as what. */
  lemma ValidateIff(raw: Payload, p: Payload)
    ensures Validate(raw) == Some(p)
       <==> && NameFrom(raw.transactionId, p.transactionId) && NameFrom(raw.merchantId, p.merchantId)
            && NameFrom(raw.paymentToken, p.paymentToken) && "tok_test_" <= p.paymentToken
            && raw.amount > 0 && p.amount == raw.amount && CurrencyText(raw.currency) && p.currency == raw.currency
  {
    ValidateNameIff(raw.transactionId, p.transactionId);
    ValidateNameIff(raw.merchantId, p.merchantId);
    ValidateNameIff(raw.paymentToken, p.paymentToken);
    CurrencyIff(raw.currency);
    hide ValidateName, NameFrom, CurrencyText, IsCurrency;
  }

  // ---------- Tables ----------

  datatype TransactionRow = TransactionRow(
    merchantId: string, amount: int, currency: string,
    status: Lifecycle.Status, pending: Option<Lifecycle.PendingOperation>, version: int,
    networkReference: Option<string>, authorizationCode: Option<string>, declineCode: Option<string>)

  datatype Processing = IN_PROGRESS | COMPLETED

  datatype RecordRow = RecordRow(
    fingerprint: string, processing: Processing, transactionId: string,
    statusCode: Option<int>, body: Option<map<string, Json>>, headers: Option<Headers>)

  /** The primary keys are the keys of the two maps. */
  datatype Database = Database(txns: map<string, TransactionRow>, recs: map<string, RecordRow>)

  const EMPTY := Database(map[], map[])

  // ---------- Column types ----------

  /** PostgreSQL's character types hold any character but U+0000. */
  predicate FitsText(n: nat, s: string) {
    |s| <= n && '\0' !in s
  }

  predicate Varchar(n: nat, s: Option<string>) {
    s.Some? ==> FitsText(n, s.value)
  }

  /** Neither does JSONB hold U+0000, in any string or field name. */
  predicate FitsJsonb(j: Json) {
    match j
    case String(s) => '\0' !in s
    case Array(items) => forall x :: x in items ==> FitsJsonb(x)
    case Object(fields) => forall k :: k in fields ==> '\0' !in k && FitsJsonb(fields[k])
    case _ => true
  }

  predicate FitsBody(body: map<string, Json>) {
    forall k :: k in body ==> '\0' !in k && FitsJsonb(body[k])
  }

  predicate FitsHeaders(headers: Headers) {
    forall i :: 0 <= i < |headers| ==> '\0' !in headers[i].0 && '\0' !in headers[i].1
  }

  /** Values the columns can hold; anything else makes the statement fail before any constraint is looked at. */
  predicate TransactionFits(id: string, t: TransactionRow) {
    && FitsText(128, id) && FitsText(128, t.merchantId) && FitsText(3, t.currency)
    && -0x8000_0000_0000_0000 <= t.amount < 0x8000_0000_0000_0000
    && -0x8000_0000 <= t.version < 0x8000_0000
    && Varchar(128, t.networkReference) && Varchar(128, t.authorizationCode) && Varchar(128, t.declineCode)
  }

  predicate RecordFits(key: string, r: RecordRow) {
    && FitsText(64, key) && FitsText(64, r.fingerprint) && FitsText(128, r.transactionId)
    && (r.statusCode.Some? ==> -0x8000_0000 <= r.statusCode.value < 0x8000_0000)
    && (r.body.Some? ==> FitsBody(r.body.value))
    && (r.headers.Some? ==> FitsHeaders(r.headers.value))
  }

  // ---------- Check constraints ----------

  predicate TransactionChecks(id: string, t: TransactionRow) {
    && 1 <= |Text.BTrim(id)| <= 128
    && 1 <= |Text.BTrim(t.merchantId)| <= 128
    && t.amount > 0
    && IsUpper3(t.currency)
    && t.version >= 0
    && (t.status == Lifecycle.PENDING_RECONCILIATION <==> t.pending.Some?)
  }

  predicate PayloadIntegrity(r: RecordRow) {
    match r.processing
    case COMPLETED => r.statusCode.Some? && r.body.Some?
    case IN_PROGRESS => r.statusCode.None? && r.body.None? && r.headers.None?
  }

  predicate RecordChecks(key: string, r: RecordRow) {
    && IsHex64(key) && IsHex64(r.fingerprint)
    && PayloadIntegrity(r)
    && (r.statusCode.Some? ==> 100 <= r.statusCode.value <= 599)
    && (r.headers.Some? ==> forall i :: 0 <= i < |r.headers.value| ==> r.headers.value[i].0 == RETRY_AFTER)
  }

  /** What the columns of transactions refuse. */
  lemma TransactionColumnsRefuse(id: string, t: TransactionRow)
    ensures |id| > 128 || |t.merchantId| > 128 || |t.currency| > 3 ==> !TransactionFits(id, t)
    ensures '\0' in id || '\0' in t.merchantId || '\0' in t.currency ==> !TransactionFits(id, t)
    ensures t.amount >= 0x8000_0000_0000_0000 || t.amount < -0x8000_0000_0000_0000 ==> !TransactionFits(id, t)
    ensures t.version >= 0x8000_0000 || t.version < -0x8000_0000 ==> !TransactionFits(id, t)
    ensures (exists s :: Some(s) in {t.networkReference, t.authorizationCode, t.declineCode} && (|s| > 128 || '\0' in s)) ==>
              !TransactionFits(id, t)
  {
  }

  /** What the columns of records refuse. */
  lemma RecordColumnsRefuse(key: string, r: RecordRow)
    ensures |key| > 64 || |r.fingerprint| > 64 || |r.transactionId| > 128 ==> !RecordFits(key, r)
    ensures '\0' in key || '\0' in r.fingerprint || '\0' in r.transactionId ==> !RecordFits(key, r)
    ensures r.statusCode.Some? && (r.statusCode.value >= 0x8000_0000 || r.statusCode.value < -0x8000_0000) ==> !RecordFits(key, r)
    ensures r.body.Some? && (exists k, s :: k in r.body.value && ('\0' in k || (r.body.value[k] == String(s) && '\0' in s))) ==>
              !RecordFits(key, r)
    ensures r.headers.Some?
            && (exists i :: 0 <= i < |r.headers.value| && ('\0' in r.headers.value[i].0 || '\0' in r.headers.value[i].1)) ==>
              !RecordFits(key, r)
  {
  }

  /** What the constraints on transactions keep out. */
  lemma TransactionChecksRefuse(id: string, t: TransactionRow)
    ensures (forall i :: 0 <= i < |id| ==> id[i] == ' ') ==> !TransactionChecks(id, t)
    ensures (forall i :: 0 <= i < |t.merchantId| ==> t.merchantId[i] == ' ') ==> !TransactionChecks(id, t)
    ensures Text.Stripped(id) && |id| > 128 ==> !TransactionChecks(id, t)
    ensures Text.Stripped(t.merchantId) && |t.merchantId| > 128 ==> !TransactionChecks(id, t)
    ensures t.amount <= 0 || t.version < 0 || |t.currency| != 3 ==> !TransactionChecks(id, t)
    ensures (exists i :: 0 <= i < |t.currency| && !('A' <= t.currency[i] <= 'Z')) ==> !TransactionChecks(id, t)
    ensures (t.status == Lifecycle.PENDING_RECONCILIATION) != t.pending.Some? ==> !TransactionChecks(id, t)
  {
  }

  /** What the constraints on records keep out. */
  lemma RecordChecksRefuse(key: string, r: RecordRow)
    ensures |key| != 64 || |r.fingerprint| != 64 ==> !RecordChecks(key, r)
    ensures (exists i :: 0 <= i < |key| && key[i] !in "0123456789abcdef") ==> !RecordChecks(key, r)
    ensures (exists i :: 0 <= i < |r.fingerprint| && r.fingerprint[i] !in "0123456789abcdef") ==> !RecordChecks(key, r)
    ensures r.processing == COMPLETED && (r.statusCode.None? || r.body.None?) ==> !RecordChecks(key, r)
    ensures r.processing == IN_PROGRESS && (r.statusCode.Some? || r.body.Some? || r.headers.Some?) ==> !RecordChecks(key, r)
    ensures r.statusCode.Some? && !(100 <= r.statusCode.value <= 599) ==> !RecordChecks(key, r)
    ensures r.headers.Some? && (exists i :: 0 <= i < |r.headers.value| && r.headers.value[i].0 != "Retry-After") ==>
              !RecordChecks(key, r)
  {
    forall s: string, i | IsHex64(s) && 0 <= i < |s|
      ensures s[i] in "0123456789abcdef"
    {
      HexIsDigit(s[i]);
    }
  }

  lemma HexIsDigit(c: char)
    requires HexValue(c).Some?
    ensures c in "0123456789abcdef"
  {
    HexInOrder(HexValue(c).value);
    assert HexChar(HexValue(c).value) == c;
    HexLength();
  }
}
