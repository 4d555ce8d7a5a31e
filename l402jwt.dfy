/** The `L402JWT` credential: a record of six optional fields, builder methods
    and decoders that update it in place, the challenge payload and header it
    produces, and three predicates over it.

    Each operation is given twice: as a step function on the `Credential` value
    (the fields before, the fields after and whether the call returned or threw),
    and as a method of class `L402JWT` that updates the fields one assignment at
    a time and is proved to agree with its step function. The predicates only
    read fields, so they are functions of the `Credential` value. */
module L402Jwt {
  import opened Js
  import opened Utils

  const PaymentHashSection := "payment_hash"

  const NoPaymentHash := "Specify a payment hash to generate a L402JWT"
  const CouldNotDecodeJwt := "Could not decode JWT"
  const NoAuthorizationHeader := "No authorization header passed"
  const InvalidAuthorizationHeader := "Invalid L402JWT authorization header"
  const CouldNotDecodeToken := "Could not decode token"

  /** The JWT payload: whatever `jwt.decode` returns, cast without checking, so
      every field may be missing. */
  datatype Payload = Payload(paymentHash: Option<string>, bodyHash: Option<string>, expiresAt: Option<int>)

  /** `jwt.sign(payload, secret)`: a compact token, or the error it throws. */
  type Signer = (Payload, string) -> Result<string>

  /** `jwt.decode(token, { json: true })`: `None` stands for both a `null`
      result and a thrown error, which the callers treat alike. */
  type Decoder = string -> Option<Payload>

  /** The six fields of an `L402JWT` object. */
  datatype Credential = Credential(
    paymentHash: Option<string>,
    paymentRequest: Option<string>,
    preimage: Option<string>,
    bodyHash: Option<string>,
    expiresAt: Option<int>,
    token: Option<string>)

  /** A freshly constructed object: every field `undefined`. */
  const Blank := Credential(None, None, None, None, None, None)

  /** What one call does: the fields afterwards, and whether it returned or threw. */
  datatype Step = Step(after: Credential, outcome: Result<()>)

  /** A method that returns `this` on success. */
  function Returning<T>(outcome: Result<()>, self: T): Result<T> {
    if outcome.Ok? then Ok(self) else Err(outcome.message)
  }

  // ---------------------------------------------------------------------------
  // createJWT and getChallengeHeader

  /** The payload `createJWT` signs: `paymentHash` always, `bodyHash` only when
      truthy, `expiresAt` only when truthy; a falsy `paymentHash` throws. */
  function ChallengePayload(c: Credential): (r: Result<Payload>)
    ensures r.Err? <==> !Truthy(c.paymentHash)
    ensures r.Err? ==> r.message == NoPaymentHash
    ensures r.Ok? ==> Truthy(r.value.paymentHash) && r.value.paymentHash == c.paymentHash
    ensures r.Ok? ==> (r.value.bodyHash.Some? <==> Truthy(c.bodyHash))
    ensures r.Ok? && r.value.bodyHash.Some? ==> r.value.bodyHash == c.bodyHash
    ensures r.Ok? ==> (r.value.expiresAt.Some? <==> TruthyNumber(c.expiresAt))
    ensures r.Ok? && r.value.expiresAt.Some? ==> r.value.expiresAt == c.expiresAt
  {
    if !Truthy(c.paymentHash) then Err(NoPaymentHash)
    else
      var bare := Payload(c.paymentHash, None, None);
      var withBody := if Truthy(c.bodyHash) then bare.(bodyHash := c.bodyHash) else bare;
      Ok(if TruthyNumber(c.expiresAt) then withBody.(expiresAt := c.expiresAt) else withBody)
  }

  /** `createJWT(secret)`: sign the challenge payload. */
  function CreateJwt(c: Credential, secret: string, sign: Signer): (r: Result<string>)
    ensures !Truthy(c.paymentHash) ==> r == Err(NoPaymentHash)
    ensures Truthy(c.paymentHash) ==> r == sign(ChallengePayload(c).value, secret)
  {
    var payload := ChallengePayload(c);
    if payload.Err? then Err(payload.message) else sign(payload.value, secret)
  }

  const Quote := '"'
  const ChallengeOpening := "L402 JWT=" + [Quote]
  const InvoiceOpening := [Quote] + ", invoice=" + [Quote]

  /** `getChallengeHeader(secret)`: `L402 JWT="<token>", invoice="<invoice>`,
      with no closing quote, and `undefined` printed for a missing invoice. */
  function ChallengeHeader(c: Credential, secret: string, sign: Signer): (r: Result<string>)
    ensures CreateJwt(c, secret, sign).Err? ==> r == Err(CreateJwt(c, secret, sign).message)
    ensures r.Ok? <==> CreateJwt(c, secret, sign).Ok?
    ensures r.Ok? ==>
      r.value == ChallengeOpening + CreateJwt(c, secret, sign).value + InvoiceOpening + Render(c.paymentRequest)
  {
    var jwt := CreateJwt(c, secret, sign);
    if jwt.Err? then Err(jwt.message)
    else Ok(ChallengeOpening + jwt.value + InvoiceOpening + Render(c.paymentRequest))
  }

  /** The number of `"` characters in a string. */
  function Quotes(s: string): nat {
    multiset(s)[Quote]
  }

  lemma QuoteFree(s: string)
    requires Quote !in s
    ensures Quotes(s) == 0
  {
  }

  /** `L402 JWT="<jwt>", invoice="<inv>` with quote-free values holds exactly
      three quotes and ends with `inv`. */
  lemma HeaderText(jwt: string, inv: string)
    requires Quote !in jwt && Quote !in inv
    ensures var h := ChallengeOpening + jwt + InvoiceOpening + inv;
      Quotes(h) == 3 && |inv| <= |h| && h[|h| - |inv|..] == inv
  {
    assert Quote !in "L402 JWT=" && Quote !in ", invoice=";
    QuoteFree("L402 JWT=");
    QuoteFree(", invoice=");
    QuoteFree(jwt);
    QuoteFree(inv);
    var h := ChallengeOpening + jwt + InvoiceOpening + inv;
    assert h == (ChallengeOpening + jwt + InvoiceOpening) + inv;
  }

  /** When neither the token nor the invoice contains a quote (a base64url token
      and a bech32 invoice never do), the challenge header holds three quotes: the
      invoice's value is opened and never closed. It ends with the invoice text,
      which is `undefined` when there is none. */
  lemma ChallengeHeaderUnterminated(c: Credential, secret: string, sign: Signer)
    requires ChallengeHeader(c, secret, sign).Ok?
    requires Quote !in CreateJwt(c, secret, sign).value && Quote !in Render(c.paymentRequest)
    ensures Quotes(ChallengeHeader(c, secret, sign).value) == 3
    ensures var h := ChallengeHeader(c, secret, sign).value; var inv := Render(c.paymentRequest);
      |inv| <= |h| && h[|h| - |inv|..] == inv
  {
    HeaderText(CreateJwt(c, secret, sign).value, Render(c.paymentRequest));
  }

  /** The challenge payload never carries a falsy field: a missing or empty body
      hash and a missing or zero expiry are left out, not sent empty. */
  lemma ChallengePayloadOmitsFalsy(c: Credential)
    requires Truthy(c.paymentHash)
    ensures ChallengePayload(c) == Ok(Payload(
      c.paymentHash,
      if Truthy(c.bodyHash) then c.bodyHash else None,
      if TruthyNumber(c.expiresAt) then c.expiresAt else None))
  {
  }

  // ---------------------------------------------------------------------------
  // Builders

  /** `createFromBolt11(invoice)`: `paymentRequest` is set first; then the
      decoder runs and `paymentHash` becomes the value of the first
      `payment_hash` section (`undefined` when there is none). If the decoder
      throws, the error propagates with `paymentRequest` already set. */
  function FromBolt11(c: Credential, invoice: string, decode: Bolt11Decoder): (s: Step)
    ensures s.after == c.(paymentRequest := Some(invoice), paymentHash := s.after.paymentHash)
    ensures s.outcome.Ok? <==> decode(invoice).Ok?
    ensures s.outcome.Err? ==> s.outcome.message == decode(invoice).message && s.after.paymentHash == c.paymentHash
    ensures s.outcome.Ok? ==> s.after.paymentHash == FirstSection(PaymentHashSection, decode(invoice).value)
  {
    var c := c.(paymentRequest := Some(invoice));
    match decode(invoice)
    case Err(message) => Step(c, Err(message))
    case Ok(sections) => Step(c.(paymentHash := FirstSection(PaymentHashSection, sections)), Ok(()))
  }

  /** `addBodyHashRestriction(body)`: bind the hash of the body, overwriting any
      earlier binding. */
  function WithBodyHash(c: Credential, hash: Hash, body: string): (r: Credential)
    ensures r.bodyHash == Some(hash(body))
    ensures r.(bodyHash := c.bodyHash) == c
  {
    c.(bodyHash := Some(hash(body)))
  }

  /** `addExpiry(seconds)`: the expiry is the current unix time plus `seconds`. */
  function WithExpiry(c: Credential, now: int, seconds: int): (r: Credential)
    ensures r.expiresAt == Some(now + seconds)
    ensures r.(expiresAt := c.expiresAt) == c
  {
    c.(expiresAt := Some(now + seconds))
  }

  /** Binding the same body twice is binding it once; a later binding replaces an
      earlier one. */
  lemma BodyHashIdempotent(c: Credential, hash: Hash, body: string, other: string)
    ensures WithBodyHash(WithBodyHash(c, hash, body), hash, body) == WithBodyHash(c, hash, body)
    ensures WithBodyHash(WithBodyHash(c, hash, other), hash, body) == WithBodyHash(c, hash, body)
  {
  }

  // ---------------------------------------------------------------------------
  // Decoders

  /** `createFromJwt(token)`: copy `paymentHash`, and `bodyHash` when truthy, from
      the decoded payload. `expiresAt` is never stored (the statement that reads
      it has no effect). Every failure becomes "Could not decode JWT", and the
      call returns nothing. */
  function JwtStep(c: Credential, token: string, decode: Decoder): (s: Step)
    ensures s.outcome.Err? <==> decode(token).None? || !Truthy(decode(token).value.paymentHash)
    ensures s.outcome.Err? ==> s == Step(c, Err(CouldNotDecodeJwt))
    ensures s.outcome.Ok? ==> s.after.paymentHash == decode(token).value.paymentHash && Truthy(s.after.paymentHash)
    ensures s.outcome.Ok? ==>
      s.after.bodyHash == (if Truthy(decode(token).value.bodyHash) then decode(token).value.bodyHash else c.bodyHash)
    ensures s.after == c.(paymentHash := s.after.paymentHash, bodyHash := s.after.bodyHash)
  {
    match decode(token)
    case None => Step(c, Err(CouldNotDecodeJwt))
    case Some(payload) =>
      if !Truthy(payload.paymentHash) then Step(c, Err(CouldNotDecodeJwt))
      else
        var copied := c.(paymentHash := payload.paymentHash);
        Step(if Truthy(payload.bodyHash) then copied.(bodyHash := payload.bodyHash) else copied, Ok(()))
  }

  /** `createFromAuthHeader(header)`: take the last space-separated segment of
      the header, split it on `:` and bind its first two pieces as the token and
      the preimage; decode the token and copy `paymentHash` (and `bodyHash` when
      truthy) from its payload; store the preimage and the token. The three shape
      checks throw their own messages; anything wrong with the payload becomes
      "Could not decode token". A failed call changes no field. */
  function AuthHeaderStep(c: Credential, header: string, decode: Decoder): (s: Step)
    ensures s.outcome.Err? ==> s.after == c
    ensures s.outcome.Err? ==>
      s.outcome.message in {NoAuthorizationHeader, InvalidAuthorizationHeader, CouldNotDecodeToken}
    ensures s.outcome == Err(NoAuthorizationHeader) <==> header == ""
    ensures s.after.expiresAt == c.expiresAt && s.after.paymentRequest == c.paymentRequest
    ensures s.outcome.Ok? ==> Truthy(s.after.paymentHash) && Truthy(s.after.preimage) && Truthy(s.after.token)
    ensures s.outcome.Ok? ==>
      decode(s.after.token.value).Some? && decode(s.after.token.value).value.paymentHash == s.after.paymentHash
    ensures s.outcome.Ok? ==>
      var pieces := Split(Pop(Split(header, ' ')).value, ':');
      |pieces| >= 2 && decode(pieces[0]).Some? &&
      var payload := decode(pieces[0]).value;
      s.after == c.(paymentHash := payload.paymentHash, preimage := Some(pieces[1]), token := Some(pieces[0]),
                    bodyHash := if Truthy(payload.bodyHash) then payload.bodyHash else c.bodyHash)
  {
    if header == "" then Step(c, Err(NoAuthorizationHeader))
    else
      var segment := Pop(Split(header, ' '));
      if !Truthy(segment) then Step(c, Err(InvalidAuthorizationHeader))
      else
        var pieces := Split(segment.value, ':');
        var token, preimage := At(pieces, 0), At(pieces, 1);
        if !Truthy(token) || !Truthy(preimage) then Step(c, Err(InvalidAuthorizationHeader))
        else
          var payload := decode(token.value);
          if payload.None? || !Truthy(payload.value.paymentHash) || !Truthy(preimage) then
            Step(c, Err(CouldNotDecodeToken))
          else
            var copied := c.(paymentHash := payload.value.paymentHash, preimage := preimage, token := token);
            Step(if Truthy(payload.value.bodyHash) then copied.(bodyHash := payload.value.bodyHash) else copied, Ok(()))
  }

  // ---------------------------------------------------------------------------
  // Predicates

  /** `isPaid()`: both fields truthy and the hash of the preimage equal to the
      payment hash. */
  function IsPaid(c: Credential, hash: Hash): (r: bool)
    ensures r ==> Truthy(c.paymentHash) && Truthy(c.preimage)
    ensures r <==> Truthy(c.preimage) && hash(c.preimage.value) != "" && c.paymentHash == Some(hash(c.preimage.value))
  {
    if !Truthy(c.paymentHash) || !Truthy(c.preimage) then false
    else hash(c.preimage.value) == c.paymentHash.value
  }

  /** `isExpired(now)`: true when there is no expiry (absent or 0); otherwise
      true while `now` is still BEFORE the expiry, so the comparison is the
      opposite of what the name says. */
  function IsExpired(c: Credential, now: int): (r: bool)
    ensures !TruthyNumber(c.expiresAt) ==> r
    ensures TruthyNumber(c.expiresAt) ==> (r <==> now < c.expiresAt.value)
  {
    if !TruthyNumber(c.expiresAt) then true
    else now < c.expiresAt.value
  }

  /** `isValidBody(body)`: true whenever a body hash is bound, whatever the body.
      With no hash bound it compares the body's hash to `undefined` (or to `""`),
      which a non-empty digest never equals. */
  function IsValidBody(c: Credential, hash: Hash, body: string): (r: bool)
    ensures Truthy(c.bodyHash) ==> r
    ensures hash(body) != "" ==> (r <==> Truthy(c.bodyHash))
    ensures c.bodyHash.None? ==> !r
  {
    if Truthy(c.bodyHash) then true
    else Some(hash(body)) == c.bodyHash
  }

  // ---------------------------------------------------------------------------
  // Properties that relate several operations

  /** `addExpiry` with a positive duration makes `isExpired` true at the same
      instant, and it stays true until the expiry passes; once it has passed,
      `isExpired` is false. */
  lemma ExpiryIsInverted(c: Credential, now: int, seconds: int, later: int)
    requires now >= 0 && seconds > 0
    ensures IsExpired(WithExpiry(c, now, seconds), now)
    ensures later < now + seconds ==> IsExpired(WithExpiry(c, now, seconds), later)
    ensures now + seconds <= later ==> !IsExpired(WithExpiry(c, now, seconds), later)
  {
  }

  /** An expiry one second in the past reports not expired, one an hour ahead
      reports expired, and no expiry reports expired. */
  lemma ExpiryExamples(c: Credential, now: int)
    requires now > 1
    ensures !IsExpired(c.(expiresAt := Some(now - 1)), now)
    ensures IsExpired(c.(expiresAt := Some(now + 3600)), now)
    ensures IsExpired(c.(expiresAt := None), now) && IsExpired(c.(expiresAt := Some(0)), now)
  {
  }

  /** Once a body is bound, every body is accepted; with none bound, no body is. */
  lemma BodyIsIgnored(c: Credential, hash: Hash, body: string, other: string)
    requires hash(body) != "" && hash(other) != ""
    ensures IsValidBody(WithBodyHash(c, hash, body), hash, body)
    ensures IsValidBody(WithBodyHash(c, hash, body), hash, other)
    ensures !IsValidBody(c.(bodyHash := None), hash, other)
    ensures IsValidBody(c, hash, body) == IsValidBody(c, hash, other)
  {
  }

  /** A preimage whose hash is the payment hash pays; any preimage with a different
      hash does not. */
  lemma PaidByPreimage(c: Credential, hash: Hash, preimage: string, other: string)
    requires preimage != "" && hash(preimage) != ""
    ensures IsPaid(c.(paymentHash := Some(hash(preimage)), preimage := Some(preimage)), hash)
    ensures hash(other) != hash(preimage) ==>
      !IsPaid(c.(paymentHash := Some(hash(preimage)), preimage := Some(other)), hash)
    ensures !IsPaid(c.(preimage := None), hash) && !IsPaid(c.(paymentHash := None), hash)
  {
  }

  /** Signing the challenge and decoding the token again (`createJWT` then
      `createFromJwt`, with a decoder that inverts the signer) recovers the
      payment hash and a truthy body hash, but never the expiry: the receiving
      credential keeps whatever `expiresAt` it had. */
  lemma JwtRoundTrip(c: Credential, receiver: Credential, secret: string, sign: Signer, decode: Decoder)
    requires CreateJwt(c, secret, sign).Ok?
    requires decode(CreateJwt(c, secret, sign).value) == Some(ChallengePayload(c).value)
    ensures var s := JwtStep(receiver, CreateJwt(c, secret, sign).value, decode);
      s.outcome.Ok? &&
      s.after.paymentHash == c.paymentHash &&
      s.after.bodyHash == (if Truthy(c.bodyHash) then c.bodyHash else receiver.bodyHash) &&
      s.after.expiresAt == receiver.expiresAt
  {
  }

  // ---------------------------------------------------------------------------
  // The proof header, `[<scheme> ]<token>:<preimage>[:<more>]`

  /** Text a header may hold before its last segment: nothing, or anything that
      ends in a space (the scheme word, which is discarded). */
  predicate Lead(s: string) {
    s == [] || s[|s| - 1] == ' '
  }

  /** Text a header may hold after the preimage: nothing, or further `:`-pieces,
      with no space. */
  predicate Tail(s: string) {
    ' ' !in s && (s == [] || s[0] == ':')
  }

  /** A piece of header text that holds neither a space nor a colon. */
  predicate Plain(s: string) {
    ' ' !in s && ':' !in s
  }

  /** A proof header: `lead`, the token, `:`, the preimage and `tail`. The header
      a client sends after paying is `ProofHeader(scheme + " ", token, preimage, "")`. */
  function ProofHeader(lead: string, token: string, preimage: string, tail: string): string {
    lead + token + ":" + preimage + tail
  }

  /** The last space-separated segment of `lead + seg` is `seg` when `seg` has no
      space and `lead` is empty or ends in a space. */
  lemma LastSegment(lead: string, seg: string)
    requires Lead(lead) && ' ' !in seg
    ensures Pop(Split(lead + seg, ' ')) == Some(seg)
  {
    SplitWithoutSeparator(seg, ' ');
    if lead == [] {
      assert lead + seg == seg;
    } else {
      var front := lead[..|lead| - 1];
      assert lead + seg == front + [' '] + seg;
      SplitAppend(front, ' ', seg);
    }
  }

  /** The first two `:`-pieces of `token:preimage` followed by a tail are the
      token and the preimage; the tail's pieces come after them. */
  lemma LeadingPieces(token: string, preimage: string, tail: string)
    requires ':' !in token && ':' !in preimage && Tail(tail)
    ensures At(Split(token + ":" + preimage + tail, ':'), 0) == Some(token)
    ensures At(Split(token + ":" + preimage + tail, ':'), 1) == Some(preimage)
  {
    SplitWithoutSeparator(token, ':');
    SplitWithoutSeparator(preimage, ':');
    if tail == [] {
      assert token + ":" + preimage + tail == token + [':'] + preimage;
      SplitAppend(token, ':', preimage);
    } else {
      var rest := tail[1..];
      assert token + ":" + preimage + tail == token + [':'] + (preimage + [':'] + rest);
      SplitAppend(token, ':', preimage + [':'] + rest);
      SplitAppend(preimage, ':', rest);
    }
  }

  /** The last segment of a proof header, and its token and preimage pieces. */
  lemma HeaderPieces(lead: string, token: string, preimage: string, tail: string)
    requires Lead(lead) && Plain(token) && Plain(preimage) && Tail(tail)
    ensures var segment := Pop(Split(ProofHeader(lead, token, preimage, tail), ' '));
      segment == Some(token + ":" + preimage + tail) &&
      At(Split(segment.value, ':'), 0) == Some(token) && At(Split(segment.value, ':'), 1) == Some(preimage)
  {
    var seg := token + ":" + preimage + tail;
    assert ' ' !in seg;
    assert ProofHeader(lead, token, preimage, tail) == lead + seg;
    LastSegment(lead, seg);
    LeadingPieces(token, preimage, tail);
  }

  /** What a successful `createFromAuthHeader` stores: the token holds no colon,
      and neither the token nor the preimage holds a space. */
  lemma {:induction false} AuthHeaderPiecesArePlain(c: Credential, header: string, decode: Decoder)
    requires AuthHeaderStep(c, header, decode).outcome.Ok?
    ensures var a := AuthHeaderStep(c, header, decode).after;
      Plain(a.token.value) && ' ' !in a.preimage.value
  {
    var segment := Pop(Split(header, ' ')).value;
    var pieces := Split(segment, ':');
    assert ' ' !in segment;
    PiecesAvoid(segment, ':', ' ');
    assert ' ' !in pieces[0] && ':' !in pieces[0] && ' ' !in pieces[1];
  }

  /** A well-formed proof header is parsed into exactly its token and preimage,
      with or without a scheme word, whatever that word says, and ignoring any
      pieces after a second `:`; the payload's fields are copied. */
  lemma AuthHeaderParses(
    c: Credential, lead: string, token: string, preimage: string, tail: string, decode: Decoder)
    requires Lead(lead) && Tail(tail)
    requires token != "" && preimage != "" && Plain(token) && Plain(preimage)
    requires decode(token).Some? && Truthy(decode(token).value.paymentHash)
    ensures var payload := decode(token).value;
      AuthHeaderStep(c, ProofHeader(lead, token, preimage, tail), decode) == Step(
        c.(paymentHash := payload.paymentHash, preimage := Some(preimage), token := Some(token),
           bodyHash := if Truthy(payload.bodyHash) then payload.bodyHash else c.bodyHash),
        Ok(()))
  {
    HeaderPieces(lead, token, preimage, tail);
  }

  /** A non-empty header whose last segment has no colon (no `:preimage` part)
      is rejected as invalid, and nothing changes. */
  lemma AuthHeaderWithoutPreimage(c: Credential, lead: string, segment: string, decode: Decoder)
    requires Lead(lead) && Plain(segment) && lead + segment != ""
    ensures AuthHeaderStep(c, lead + segment, decode) == Step(c, Err(InvalidAuthorizationHeader))
  {
    LastSegment(lead, segment);
    SplitWithoutSeparator(segment, ':');
  }

  /** A header ending in a space has an empty last segment and is rejected as
      invalid, and nothing changes. */
  lemma AuthHeaderTrailingSpace(c: Credential, scheme: string, decode: Decoder)
    ensures AuthHeaderStep(c, scheme + " ", decode) == Step(c, Err(InvalidAuthorizationHeader))
  {
    LastSegment(scheme + " ", "");
    assert scheme + " " + "" == scheme + " ";
  }

  /** An empty token or an empty preimage is rejected as invalid, and nothing
      changes. */
  lemma AuthHeaderEmptyPiece(
    c: Credential, lead: string, token: string, preimage: string, tail: string, decode: Decoder)
    requires Lead(lead) && Tail(tail) && Plain(token) && Plain(preimage) && (token == "" || preimage == "")
    ensures AuthHeaderStep(c, ProofHeader(lead, token, preimage, tail), decode) ==
      Step(c, Err(InvalidAuthorizationHeader))
  {
    HeaderPieces(lead, token, preimage, tail);
  }

  /** A well-shaped header whose token does not decode to a payload with a
      payment hash fails with the single "Could not decode token" error, and
      nothing changes. */
  lemma AuthHeaderUndecodable(
    c: Credential, lead: string, token: string, preimage: string, tail: string, decode: Decoder)
    requires Lead(lead) && Tail(tail)
    requires token != "" && preimage != "" && Plain(token) && Plain(preimage)
    requires decode(token).None? || !Truthy(decode(token).value.paymentHash)
    ensures AuthHeaderStep(c, ProofHeader(lead, token, preimage, tail), decode) == Step(c, Err(CouldNotDecodeToken))
  {
    HeaderPieces(lead, token, preimage, tail);
  }

  /** The whole flow: an invoice whose `payment_hash` section holds `h` yields a
      challenge token; a client that knows a preimage of `h` sends
      `<scheme> <token>:<preimage>`, and a fresh credential parsed from that header
      is paid. It carries no expiry, so it also reports itself expired. */
  lemma PaidEndToEnd(
    invoice: string, bolt11: Bolt11Decoder, secret: string, sign: Signer, decode: Decoder,
    hash: Hash, scheme: string, preimage: string, now: int)
    requires bolt11(invoice).Ok?
    requires FirstSection(PaymentHashSection, bolt11(invoice).value) == Some(hash(preimage))
    requires hash(preimage) != "" && preimage != "" && Plain(preimage)
    requires var issued := FromBolt11(Blank, invoice, bolt11).after;
      CreateJwt(issued, secret, sign).Ok? &&
      decode(CreateJwt(issued, secret, sign).value) == Some(ChallengePayload(issued).value)
    requires var t := CreateJwt(FromBolt11(Blank, invoice, bolt11).after, secret, sign).value; t != "" && Plain(t)
    ensures var t := CreateJwt(FromBolt11(Blank, invoice, bolt11).after, secret, sign).value;
      var s := AuthHeaderStep(Blank, ProofHeader(scheme + " ", t, preimage, ""), decode);
      s.outcome.Ok? && IsPaid(s.after, hash) && IsExpired(s.after, now)
  {
    var issued := FromBolt11(Blank, invoice, bolt11).after;
    var t := CreateJwt(issued, secret, sign).value;
    AuthHeaderParses(Blank, scheme + " ", t, preimage, "", decode);
  }

  // ---------------------------------------------------------------------------
  // The object

  /** An `L402JWT` object. Its methods assign its fields in place and return
      `this`; each is proved to leave the fields as its step function says. */
  class L402JWT {
    var paymentHash: Option<string>
    var paymentRequest: Option<string>
    var preimage: Option<string>
    var bodyHash: Option<string>
    var expiresAt: Option<int>
    var token: Option<string>

    /** The fields as one value. */
    function Value(): Credential
      reads this
    {
      Credential(paymentHash, paymentRequest, preimage, bodyHash, expiresAt, token)
    }

    /** `new L402JWT()`: every field starts out `undefined`. */
    constructor ()
      ensures Value() == Blank
    {
      paymentHash, paymentRequest, preimage := None, None, None;
      bodyHash, expiresAt, token := None, None, None;
    }

    method CreateFromBolt11(invoice: string, decode: Bolt11Decoder) returns (r: Result<L402JWT>)
      modifies this
      ensures var s := FromBolt11(old(Value()), invoice, decode);
        Value() == s.after && r == Returning(s.outcome, this)
    {
      paymentRequest := Some(invoice);
      var section := GetBolt11Section(PaymentHashSection, invoice, decode);
      if section.Err? {
        return Err(section.message);
      }
      paymentHash := section.value;
      return Ok(this);
    }

    method CreateFromJwt(jwt: string, decode: Decoder) returns (r: Result<()>)
      modifies this
      ensures var s := JwtStep(old(Value()), jwt, decode);
        Value() == s.after && r == s.outcome
    {
      var payload := decode(jwt);
      if payload.None? || !Truthy(payload.value.paymentHash) {
        return Err(CouldNotDecodeJwt);
      }
      paymentHash := payload.value.paymentHash;
      if Truthy(payload.value.bodyHash) {
        bodyHash := payload.value.bodyHash;
      }
      return Ok(());
    }

    method CreateFromAuthHeader(header: string, decode: Decoder) returns (r: Result<L402JWT>)
      modifies this
      ensures var s := AuthHeaderStep(old(Value()), header, decode);
        Value() == s.after && r == Returning(s.outcome, this)
    {
      if header == "" {
        return Err(NoAuthorizationHeader);
      }
      var segment := Pop(Split(header, ' '));
      if !Truthy(segment) {
        return Err(InvalidAuthorizationHeader);
      }
      var pieces := Split(segment.value, ':');
      var tok, pre := At(pieces, 0), At(pieces, 1);
      if !Truthy(tok) || !Truthy(pre) {
        return Err(InvalidAuthorizationHeader);
      }
      var payload := decode(tok.value);
      if payload.None? || !Truthy(payload.value.paymentHash) || !Truthy(pre) {
        return Err(CouldNotDecodeToken);
      }
      paymentHash := payload.value.paymentHash;
      preimage := pre;
      token := tok;
      if Truthy(payload.value.bodyHash) {
        bodyHash := payload.value.bodyHash;
      }
      return Ok(this);
    }

    method AddBodyHashRestriction(body: string, hash: Hash) returns (r: L402JWT)
      modifies this
      ensures Value() == WithBodyHash(old(Value()), hash, body) && r == this
    {
      bodyHash := Some(hash(body));
      return this;
    }

    method AddExpiry(seconds: int, now: int) returns (r: L402JWT)
      modifies this
      ensures Value() == WithExpiry(old(Value()), now, seconds) && r == this
    {
      expiresAt := Some(now + seconds);
      return this;
    }
  }
}
