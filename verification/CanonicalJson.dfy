/** The canonical request text that is hashed into the fingerprint (`json.dumps` with sorted keys, compact
    separators and `ensure_ascii`), and a decoder that shows the text to be unambiguous.

    Dafny's `char` ranges over the Unicode scalar values, so payload strings hold no lone surrogates. */
module CanonicalJson {
  import opened Results
  import opened Decimal

  /** The request fields the fingerprint covers. */
  datatype Payload = Payload(
    amount: int, currency: string, merchantId: string, paymentToken: string, transactionId: string)

  // ---------- Escaping, section 7 of RFC 8259 ----------

  function HexChar(d: nat): (c: char)
    requires d < 16
    ensures ' ' <= c <= '~'
  {
    if d < 10 then CharOf(d) else ('a' as int + d - 10) as char
  }

  function HexValue(c: char): Option<nat> {
    if IsDigit(c) then Some(DigitOf(c))
    else if 'a' <= c <= 'f' then Some(c as int - 'a' as int + 10)
    else None
  }

  function Hex4(n: nat): (s: string)
    requires n < 0x10000
    ensures |s| == 4 && forall i :: 0 <= i < 4 ==> ' ' <= s[i] <= '~'
  {
    [HexChar(n / 4096), HexChar(n / 256 % 16), HexChar(n / 16 % 16), HexChar(n % 16)]
  }

  function Unicode(n: nat): (s: string)
    requires n < 0x10000
    ensures |s| == 6 && s[0] == '\\' && s[1] == 'u' && s[2..] == Hex4(n)
    ensures forall i :: 0 <= i < |s| ==> ' ' <= s[i] <= '~'
  {
    "\\u" + Hex4(n)
  }

  /** UTF-16 code units of a character above U+FFFF. */
  function High(n: nat): (h: nat)
    requires 0x10000 <= n < 0x110000
    ensures 0xD800 <= h < 0xDC00
  {
    0xD800 + (n - 0x10000) / 0x400
  }

  function Low(n: nat): (l: nat)
    requires 0x10000 <= n < 0x110000
    ensures 0xDC00 <= l < 0xE000
  {
    0xDC00 + (n - 0x10000) % 0x400
  }

  /** The letter after the backslash, for the characters with a two-character escape. */
  function ShortLetter(c: char): Option<char> {
    if c == '"' then Some('"')
    else if c == '\\' then Some('\\')
    else if c == '\n' then Some('n')
    else if c == '\r' then Some('r')
    else if c == '\t' then Some('t')
    else if c == '\U{0C}' then Some('f')
    else if c == '\U{08}' then Some('b')
    else None
  }

  function ShortMeaning(letter: char): (r: Option<char>)
    ensures forall c: char :: ShortLetter(c) == Some(letter) ==> r == Some(c)
    ensures letter == 'u' ==> r == None
  {
    if letter == '"' then Some('"')
    else if letter == '\\' then Some('\\')
    else if letter == 'n' then Some('\n')
    else if letter == 'r' then Some('\r')
    else if letter == 't' then Some('\t')
    else if letter == 'f' then Some('\U{0C}')
    else if letter == 'b' then Some('\U{08}')
    else None
  }

  function Escape(c: char): (s: string)
    ensures s != "" && s[0] != '"'
    ensures forall i :: 0 <= i < |s| ==> ' ' <= s[i] <= '~'
  {
    var n := c as int;
    if ShortLetter(c).Some? then ['\\', ShortLetter(c).value]
    else if ' ' <= c <= '~' then [c]
    else if n < 0x10000 then Unicode(n)
    else Unicode(High(n)) + Unicode(Low(n))
  }

  function EscapeAll(s: string): (r: string)
    ensures forall i :: 0 <= i < |r| ==> ' ' <= r[i] <= '~'
  {
    if s == "" then "" else Escape(s[0]) + EscapeAll(s[1..])
  }

  function Quote(s: string): (r: string)
    ensures forall i :: 0 <= i < |r| ==> ' ' <= r[i] <= '~'
  {
    "\"" + EscapeAll(s) + "\""
  }

  // ---------- The text ----------

  /** The fixed texts before the five values. */
  datatype Labels = Labels(amount: string, currency: string, merchant: string, token: string, transaction: string)

  /** The five keys in sorted order. */
  const LABELS := Labels(
    "{\"amount\":", ",\"currency\":", ",\"merchant_id\":", ",\"payment_token\":", ",\"transaction_id\":")

  function EncodeWith(k: Labels, p: Payload): string {
    k.amount + (Print(p.amount)
    + (k.currency + (Quote(p.currency)
    + (k.merchant + (Quote(p.merchantId)
    + (k.token + (Quote(p.paymentToken)
    + (k.transaction + (Quote(p.transactionId)
    + "}")))))))))
  }

  /** The canonical text. */
  function Encode(p: Payload): string {
    EncodeWith(LABELS, p)
  }

  // ---------- A decoder ----------

  function ReadHex4(t: string): Option<nat> {
    if |t| < 4 then None
    else
      match (HexValue(t[0]), HexValue(t[1]), HexValue(t[2]), HexValue(t[3]))
      case (Some(a), Some(b), Some(c), Some(d)) => Some(4096 * a + 256 * b + 16 * c + d)
      case _ => None
  }

  function ReadUnicode(t: string): Option<nat> {
    if |t| >= 2 && t[0] == '\\' && t[1] == 'u' then ReadHex4(t[2..]) else None
  }

  /** The first character a text stands for, and the text after it. */
  function ReadChar(t: string): (r: Option<(char, string)>)
    ensures r.Some? ==> |r.value.1| < |t|
  {
    if t == "" || t[0] == '"' then None
    else if t[0] != '\\' then Some((t[0], t[1..]))
    else if |t| >= 2 && ShortMeaning(t[1]).Some? then Some((ShortMeaning(t[1]).value, t[2..]))
    else
      match ReadUnicode(t)
      case None => None
      case Some(n) =>
        if n < 0xD800 || 0xE000 <= n < 0x10000 then Some((n as char, t[6..]))
        else if 0xD800 <= n < 0xDC00 then
          match ReadUnicode(t[6..])
          case Some(m) =>
            if 0xDC00 <= m < 0xE000
            then Some(((0x10000 + 0x400 * (n - 0xD800) + (m - 0xDC00)) as char, t[12..]))
            else None
          case None => None
        else None
  }

  /** Characters up to the closing quote, and the text after the quote. */
  function ReadChars(t: string): Option<(string, string)>
    decreases |t|
  {
    if t != "" && t[0] == '"' then Some(("", t[1..]))
    else
      match ReadChar(t)
      case None => None
      case Some((c, rest)) =>
        match ReadChars(rest)
        case None => None
        case Some((s, after)) => Some(([c] + s, after))
  }

  function ReadQuoted(t: string): Option<(string, string)> {
    if t != "" && t[0] == '"' then ReadChars(t[1..]) else None
  }

  function DigitPrefix(t: string): (k: nat)
    ensures k <= |t| && AllDigits(t[..k])
    ensures k < |t| ==> !IsDigit(t[k])
  {
    if t == "" || !IsDigit(t[0]) then 0 else 1 + DigitPrefix(t[1..])
  }

  function ReadInt(t: string): Option<(int, string)> {
    if t != "" && t[0] == '-' then
      var k := DigitPrefix(t[1..]);
      Some((0 - Value(t[1..][..k]), t[1..][k..]))
    else
      var k := DigitPrefix(t);
      Some((Value(t[..k]), t[k..]))
  }

  function Expect(word: string, t: string): Option<string> {
    if word <= t then Some(t[|word|..]) else None
  }

  function ReadField(key: string, t: string): Option<(string, string)> {
    match Expect(key, t)
    case None => None
    case Some(rest) => ReadQuoted(rest)
  }

  function DecodeWith(k: Labels, t: string): Option<Payload> {
    match Expect(k.amount, t) case None => None case Some(t1) =>
    match ReadInt(t1) case None => None case Some((amount, t2)) =>
    match ReadField(k.currency, t2) case None => None case Some((currency, t3)) =>
    match ReadField(k.merchant, t3) case None => None case Some((merchant, t4)) =>
    match ReadField(k.token, t4) case None => None case Some((token, t5)) =>
    match ReadField(k.transaction, t5) case None => None case Some((id, t6)) =>
    if t6 == "}" then Some(Payload(amount, currency, merchant, token, id)) else None
  }

  function Decode(t: string): Option<Payload> {
    DecodeWith(LABELS, t)
  }

  // ---------- Reading back what was written ----------

  lemma HexDigits(n: nat)
    requires n < 0x10000
    ensures n == 4096 * (n / 4096) + 256 * (n / 256 % 16) + 16 * (n / 16 % 16) + n % 16
  {
    assert n / 256 == n / 16 / 16 && n / 4096 == n / 256 / 16;
    assert n == 16 * (n / 16) + n % 16;
    assert n / 16 == 16 * (n / 256) + n / 16 % 16;
  }

  lemma ReadHex4Of(n: nat, t: string)
    requires n < 0x10000 && |t| >= 4 && t[..4] == Hex4(n)
    ensures ReadHex4(t) == Some(n)
  {
    assert t[0] == t[..4][0] && t[1] == t[..4][1] && t[2] == t[..4][2] && t[3] == t[..4][3];
    HexDigits(n);
  }

  lemma UnicodeRoundTrip(n: nat, rest: string)
    requires n < 0x10000
    ensures ReadUnicode(Unicode(n) + rest) == Some(n)
    ensures (Unicode(n) + rest)[6..] == rest
  {
    var t := Unicode(n) + rest;
    assert t[2..][..4] == Unicode(n)[2..];
    ReadHex4Of(n, t[2..]);
  }

  lemma ShortRoundTrip(c: char, rest: string)
    requires ShortLetter(c).Some?
    ensures ReadChar(Escape(c) + rest) == Some((c, rest))
  {
    var t := Escape(c) + rest;
    assert t[0] == '\\' && t[1] == ShortLetter(c).value && t[2..] == rest;
  }

  lemma BasicRoundTrip(c: char, rest: string)
    requires ShortLetter(c).None? && !(' ' <= c <= '~') && c as int < 0x10000
    ensures ReadChar(Escape(c) + rest) == Some((c, rest))
  {
    UnicodeRoundTrip(c as int, rest);
    assert (Escape(c) + rest)[1] == 'u';
  }

  lemma ReadSurrogates(h: nat, l: nat, t: string, rest: string)
    requires 0xD800 <= h < 0xDC00 && 0xDC00 <= l < 0xE000
    requires t == Unicode(h) + (Unicode(l) + rest)
    ensures ReadChar(t) == Some(((0x10000 + 0x400 * (h - 0xD800) + (l - 0xDC00)) as char, rest))
  {
    UnicodeRoundTrip(h, Unicode(l) + rest);
    UnicodeRoundTrip(l, rest);
    assert t[0] == Unicode(h)[0] && t[1] == Unicode(h)[1];
    assert t[12..] == t[6..][6..];
  }

  lemma SurrogateRoundTrip(c: char, rest: string)
    requires c as int >= 0x10000
    ensures ReadChar(Escape(c) + rest) == Some((c, rest))
  {
    var h, l := High(c as int), Low(c as int);
    var t := Unicode(h) + (Unicode(l) + rest);
    assert Escape(c) + rest == t by {
      assert ShortLetter(c).None? && !(' ' <= c <= '~');
      assert Escape(c) == Unicode(h) + Unicode(l);
    }
    ReadSurrogates(h, l, t, rest);
  }

  lemma CharRoundTrip(c: char, rest: string)
    ensures ReadChar(Escape(c) + rest) == Some((c, rest))
  {
    if ShortLetter(c).Some? {
      ShortRoundTrip(c, rest);
    } else if ' ' <= c <= '~' {
      assert ([c] + rest)[1..] == rest;
    } else if c as int < 0x10000 {
      BasicRoundTrip(c, rest);
    } else {
      SurrogateRoundTrip(c, rest);
    }
  }

  lemma {:induction false} StringRoundTrip(s: string, rest: string)
    ensures ReadChars(EscapeAll(s) + "\"" + rest) == Some((s, rest))
  {
    var t := EscapeAll(s) + "\"" + rest;
    if s == "" {
      assert t[1..] == rest;
    } else {
      var tail := EscapeAll(s[1..]) + "\"" + rest;
      assert t == Escape(s[0]) + tail;
      CharRoundTrip(s[0], tail);
      StringRoundTrip(s[1..], rest);
      assert [s[0]] + s[1..] == s;
    }
  }

  lemma FieldRoundTrip(key: string, s: string, rest: string)
    ensures ReadField(key, key + (Quote(s) + rest)) == Some((s, rest))
  {
    var t := key + (Quote(s) + rest);
    assert t[|key|..] == Quote(s) + rest;
    assert (Quote(s) + rest)[1..] == EscapeAll(s) + "\"" + rest;
    StringRoundTrip(s, rest);
  }

  lemma {:induction false} DigitPrefixOf(s: string, rest: string)
    requires AllDigits(s) && (rest == "" || !IsDigit(rest[0]))
    ensures DigitPrefix(s + rest) == |s|
  {
    if s == "" {
      assert s + rest == rest;
    } else {
      assert (s + rest)[1..] == s[1..] + rest;
      DigitPrefixOf(s[1..], rest);
    }
  }

  lemma DigitsRoundTrip(m: nat, t: string, rest: string)
    requires t == PrintNat(m) + rest && (rest == "" || !IsDigit(rest[0]))
    ensures var k := DigitPrefix(t);
            k <= |t| && t[..k] == PrintNat(m) && t[k..] == rest && Value(t[..k]) == m && t != "" && t[0] != '-'
  {
    DigitPrefixOf(PrintNat(m), rest);
    ValuePrintNat(m);
    hide Value, PrintNat, DigitPrefix;
    assert t[..|PrintNat(m)|] == PrintNat(m) && t[|PrintNat(m)|..] == rest;
    assert IsDigit(PrintNat(m)[0]);
  }

  lemma IntRoundTrip(n: int, rest: string)
    requires rest == "" || !IsDigit(rest[0])
    ensures ReadInt(Print(n) + rest) == Some((n, rest))
  {
    hide Value, PrintNat, DigitPrefix, AllDigits;
    var m := if n < 0 then -n else n;
    var t := PrintNat(m) + rest;
    DigitsRoundTrip(m, t, rest);
    if n < 0 {
      assert (Print(n) + rest)[1..] == t;
    }
  }

  lemma RoundTripWith(k: Labels, p: Payload)
    requires k.currency != "" && !IsDigit(k.currency[0])
    ensures DecodeWith(k, EncodeWith(k, p)) == Some(p)
  {
    var t6 := "}";
    var t5 := k.transaction + (Quote(p.transactionId) + t6);
    var t4 := k.token + (Quote(p.paymentToken) + t5);
    var t3 := k.merchant + (Quote(p.merchantId) + t4);
    var t2 := k.currency + (Quote(p.currency) + t3);
    var t1 := Print(p.amount) + t2;
    assert (k.amount + t1)[|k.amount|..] == t1;
    IntRoundTrip(p.amount, t2);
    FieldRoundTrip(k.currency, p.currency, t3);
    FieldRoundTrip(k.merchant, p.merchantId, t4);
    FieldRoundTrip(k.token, p.paymentToken, t5);
    FieldRoundTrip(k.transaction, p.transactionId, t6);
  }

  /** The decoder recovers all five fields: the text determines the payload. */
  lemma RoundTrip(p: Payload)
    ensures Decode(Encode(p)) == Some(p)
  {
    RoundTripWith(LABELS, p);
  }

  lemma Injective(p: Payload, q: Payload)
    ensures Encode(p) == Encode(q) <==> p == q
  {
    RoundTrip(p);
    RoundTrip(q);
  }

  predicate Printable(s: string) {
    forall i :: 0 <= i < |s| ==> ' ' <= s[i] <= '~'
  }

  lemma PrintableJoin(s: string, t: string)
    requires Printable(s) && Printable(t)
    ensures Printable(s + t)
  {
  }

  lemma PrintableInt(n: int)
    ensures Printable(Print(n))
  {
    var digits := PrintNat(if n < 0 then -n else n);
    assert forall i :: 0 <= i < |digits| ==> IsDigit(digits[i]);
  }

  lemma PrintableField(name: string, s: string, rest: string)
    requires Printable(name) && Printable(rest)
    ensures Printable(name + (Quote(s) + rest))
  {
    assert Printable(Quote(s));
    hide Printable;
    PrintableJoin(Quote(s), rest);
    PrintableJoin(name, Quote(s) + rest);
  }

  lemma PrintableWith(k: Labels, p: Payload)
    requires Printable(k.amount) && Printable(k.currency) && Printable(k.merchant) && Printable(k.token)
    requires Printable(k.transaction)
    ensures Printable(EncodeWith(k, p))
  {
    assert Printable("}");
    hide Printable, Quote, Print;
    var t5 := k.transaction + (Quote(p.transactionId) + "}");
    var t4 := k.token + (Quote(p.paymentToken) + t5);
    var t3 := k.merchant + (Quote(p.merchantId) + t4);
    var t2 := k.currency + (Quote(p.currency) + t3);
    PrintableField(k.transaction, p.transactionId, "}");
    PrintableField(k.token, p.paymentToken, t5);
    PrintableField(k.merchant, p.merchantId, t4);
    PrintableField(k.currency, p.currency, t3);
    PrintableInt(p.amount);
    PrintableJoin(Print(p.amount), t2);
    PrintableJoin(k.amount, Print(p.amount) + t2);
  }

  /** The text is printable ASCII, so its UTF-8 bytes are its characters. */
  lemma PrintableAscii(p: Payload)
    ensures Printable(Encode(p))
  {
    PrintableWith(LABELS, p);
  }

  // ---------- The text as JSON, sections 4 and 7 of RFC 8259 ----------

  const HEX := "0123456789abcdef"

  lemma HexInOrder(d: nat)
    requires d < 16
    ensures HexChar(d) == HEX[d]
  {
  }

  /** Four hexadecimal digits and the number they stand for. */
  ghost predicate FourHex(t: string, n: int) {
    exists a, b, c, d :: 0 <= a < 16 && 0 <= b < 16 && 0 <= c < 16 && 0 <= d < 16
      && t == [HEX[a], HEX[b], HEX[c], HEX[d]] && n == 4096 * a + 256 * b + 16 * c + d
  }

  /** The text stands for the character inside a JSON string: unescaped, by one of the eight short escapes, by its code,
      or by the codes of its surrogate pair. */
  ghost predicate Denotes(t: string, c: char) {
    || (t == [c] && c >= ' ' && c != '"' && c != '\\')
    || (|t| == 2 && t[0] == '\\'
        && (t[1], c) in {('"', '"'), ('\\', '\\'), ('/', '/'), ('b', '\U{08}'), ('f', '\U{0C}'), ('n', '\n'), ('r', '\r'),
                         ('t', '\t')})
    || (|t| == 6 && t[..2] == "\\u" && FourHex(t[2..], c as int))
    || (|t| == 12 && t[..2] == "\\u" && t[6..8] == "\\u"
        && exists h, l :: FourHex(t[2..6], h) && FourHex(t[8..], l) && 0xD800 <= h < 0xDC00 && 0xDC00 <= l < 0xE000
             && c as int == 0x10000 + (h - 0xD800) * 0x400 + (l - 0xDC00))
  }

  /** The text stands for the string, character by character. */
  ghost predicate DenotesAll(t: string, s: string)
    decreases |s|
  {
    if s == "" then t == ""
    else exists k :: 0 < k <= |t| && Denotes(t[..k], s[0]) && DenotesAll(t[k..], s[1..])
  }

  lemma FourDigits(a: nat, b: nat, c: nat, d: nat)
    requires a < 16 && b < 16 && c < 16 && d < 16
    ensures FourHex([HexChar(a), HexChar(b), HexChar(c), HexChar(d)], 4096 * a + 256 * b + 16 * c + d)
  {
    HexInOrder(a);
    HexInOrder(b);
    HexInOrder(c);
    HexInOrder(d);
    hide HEX, HexChar;
    HexLength();
    assert [HexChar(a), HexChar(b), HexChar(c), HexChar(d)] == [HEX[a], HEX[b], HEX[c], HEX[d]];
  }

  lemma HexLength()
    ensures |HEX| == 16
  {
  }

  lemma Hex4Denotes(n: nat)
    requires n < 0x10000
    ensures FourHex(Hex4(n), n)
  {
    HexDigits(n);
    FourDigits(n / 4096, n / 256 % 16, n / 16 % 16, n % 16);
    hide FourHex;
  }

  lemma ShortDenotes(c: char)
    requires ShortLetter(c).Some?
    ensures Denotes(['\\', ShortLetter(c).value], c)
  {
  }

  lemma CodeDenotes(c: char)
    requires c as int < 0x10000
    ensures Denotes(Unicode(c as int), c)
  {
    Hex4Denotes(c as int);
  }

  lemma PairDenotes(c: char)
    requires c as int >= 0x10000
    ensures Denotes(Unicode(High(c as int)) + Unicode(Low(c as int)), c)
  {
    var h, l := High(c as int), Low(c as int);
    Hex4Denotes(h);
    Hex4Denotes(l);
    var t := Unicode(h) + Unicode(l);
    assert t[2..6] == Hex4(h) && t[8..] == Hex4(l) && t[..2] == "\\u" && t[6..8] == "\\u";
    hide FourHex;
  }

  /** Every escape stands for its character. */
  lemma EscapeDenotes(c: char)
    ensures Denotes(Escape(c), c)
  {
    if ShortLetter(c).Some? {
      ShortDenotes(c);
    } else if ' ' <= c <= '~' {
    } else if c as int < 0x10000 {
      CodeDenotes(c);
    } else {
      PairDenotes(c);
    }
  }

  /** Which of its forms a character gets: visible ASCII stands for itself, seven characters have a short escape, and
      everything else is written by its code or its surrogate pair. */
  lemma EscapeForm(c: char)
    ensures |Escape(c)| == 1 <==> ' ' <= c <= '~' && c != '"' && c != '\\'
    ensures |Escape(c)| == 2 <==> c in {'"', '\\', '\U{08}', '\U{0C}', '\n', '\r', '\t'}
    ensures |Escape(c)| == 12 <==> c as int >= 0x10000
    ensures |Escape(c)| in {1, 2, 6, 12}
  {
  }

  /** Between its quotes, a quoted string stands for the string. */
  lemma {:induction false} QuoteDenotes(s: string)
    ensures Quote(s)[0] == '"' && Quote(s)[|Quote(s)| - 1] == '"' && Quote(s)[1..|Quote(s)| - 1] == EscapeAll(s)
    ensures DenotesAll(EscapeAll(s), s)
  {
    if s != "" {
      EscapeDenotes(s[0]);
      QuoteDenotes(s[1..]);
      var k := |Escape(s[0])|;
      assert EscapeAll(s)[..k] == Escape(s[0]) && EscapeAll(s)[k..] == EscapeAll(s[1..]);
      hide Denotes;
    }
  }

  function Member(name: string, value: string): string {
    "\"" + name + "\":" + value
  }

  lemma FirstLabels()
    ensures LABELS.amount == "{" + Member("amount", "") && LABELS.currency == "," + Member("currency", "")
  {
  }

  lemma MerchantLabel()
    ensures LABELS.merchant == "," + Member("merchant_id", "")
  {
  }

  lemma TokenLabel()
    ensures LABELS.token == "," + Member("payment_token", "")
  {
  }

  lemma TransactionLabel()
    ensures LABELS.transaction == "," + Member("transaction_id", "")
  {
  }

  lemma MemberSplit(name: string, value: string)
    ensures Member(name, "") + value == Member(name, value)
  {
  }

  /** The text is a JSON object with the five names in ascending order and no white space. */
  lemma EncodeIsObject(p: Payload)
    ensures Encode(p)
         == "{" + Member("amount", Print(p.amount)) + "," + Member("currency", Quote(p.currency))
            + "," + Member("merchant_id", Quote(p.merchantId)) + "," + Member("payment_token", Quote(p.paymentToken))
            + "," + Member("transaction_id", Quote(p.transactionId)) + "}"
    ensures "amount"[0] < "currency"[0] < "merchant_id"[0] < "payment_token"[0] < "transaction_id"[0]
  {
    FirstLabels();
    MerchantLabel();
    TokenLabel();
    TransactionLabel();
    MemberSplit("amount", Print(p.amount));
    MemberSplit("currency", Quote(p.currency));
    MemberSplit("merchant_id", Quote(p.merchantId));
    MemberSplit("payment_token", Quote(p.paymentToken));
    MemberSplit("transaction_id", Quote(p.transactionId));
    hide Member, Quote, Print, LABELS;
  }

  // ---------- Fingerprint and key hash ----------

  /** Nothing is assumed of the hash but the shape of its output. */
  ghost predicate HashShape(sha: string -> string) {
    forall s: string :: IsHex64(sha(s))
  }

  predicate IsHex64(s: string) {
    |s| == 64 && forall i :: 0 <= i < 64 ==> HexValue(s[i]).Some?
  }

  function Fingerprint(sha: string -> string, p: Payload): string {
    sha(Encode(p))
  }

  /** No two of the given payloads have texts that collide. */
  ghost predicate CollisionFree(sha: string -> string, payloads: set<Payload>) {
    forall p, q :: p in payloads && q in payloads && sha(Encode(p)) == sha(Encode(q)) ==> Encode(p) == Encode(q)
  }

  /** With a hash that does not collide on them, two payloads have the same fingerprint only if they are equal. */
  lemma FingerprintExact(sha: string -> string, payloads: set<Payload>, p: Payload, q: Payload)
    requires CollisionFree(sha, payloads) && p in payloads && q in payloads
    ensures Fingerprint(sha, p) == Fingerprint(sha, q) <==> p == q
  {
    Injective(p, q);
  }
}
