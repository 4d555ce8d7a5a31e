/** `isValidRequestHeader`: the same shape checks as `createFromAuthHeader`,
    followed by signature verification of the token. */
module Validation {
  import opened Js
  import opened L402Jwt

  /** `jwt.verify(token, secret)`: true when it returns, false when it throws. */
  type Verifier = (string, string) -> bool

  /** A verifier that accepts every token, to isolate the shape checks. */
  const AcceptAll: Verifier := (token: string, secret: string) => true

  /** `isValidRequestHeader(header, secret)`: `Some(false)` for a returned
      `false`, `None` for the `undefined` of falling off the end after a
      successful verification. It never returns `true`. */
  function IsValidRequestHeader(header: string, secret: string, verify: Verifier): (r: Option<bool>)
    ensures r != Some(true)
    ensures header == "" ==> r == Some(false)
    ensures r.None? ==> verify(At(Split(Pop(Split(header, ' ')).value, ':'), 0).value, secret)
  {
    if header == "" then Some(false)
    else
      var segment := Pop(Split(header, ' '));
      if !Truthy(segment) then Some(false)
      else
        var pieces := Split(segment.value, ':');
        var jwt, preimage := At(pieces, 0), At(pieces, 1);
        if !Truthy(jwt) || !Truthy(preimage) then Some(false)
        else if !verify(jwt.value, secret) then Some(false)
        else None
  }

  /** Before verification, `isValidRequestHeader` rejects exactly the headers
      that `createFromAuthHeader` rejects for their shape. */
  lemma SameShapeRejections(header: string, secret: string, c: Credential, decode: Decoder)
    ensures IsValidRequestHeader(header, secret, AcceptAll) == Some(false) <==>
      AuthHeaderStep(c, header, decode).outcome in {Err(NoAuthorizationHeader), Err(InvalidAuthorizationHeader)}
  {
  }

  /** For any verifier, a header that `createFromAuthHeader` rejects for its
      shape gives `false`; any other header is decided by verifying its first
      `:`-piece alone. */
  lemma ShapeRejectionsAnyVerifier(header: string, secret: string, c: Credential, decode: Decoder, verify: Verifier)
    ensures AuthHeaderStep(c, header, decode).outcome in {Err(NoAuthorizationHeader), Err(InvalidAuthorizationHeader)} ==>
      IsValidRequestHeader(header, secret, verify) == Some(false)
    ensures AuthHeaderStep(c, header, decode).outcome !in {Err(NoAuthorizationHeader), Err(InvalidAuthorizationHeader)} ==>
      IsValidRequestHeader(header, secret, verify) ==
        if verify(Split(Pop(Split(header, ' ')).value, ':')[0], secret) then None else Some(false)
  {
  }

  /** An empty token or an empty preimage is rejected whatever the verifier
      says, with or without a scheme word and with any pieces after a second `:`. */
  lemma RejectsEmptyPiece(
    lead: string, token: string, preimage: string, tail: string, secret: string, verify: Verifier)
    requires Lead(lead) && Tail(tail) && Plain(token) && Plain(preimage)
    requires token == "" || preimage == ""
    ensures IsValidRequestHeader(ProofHeader(lead, token, preimage, tail), secret, verify) == Some(false)
  {
    HeaderPieces(lead, token, preimage, tail);
  }

  /** Once the shape checks pass, the answer hangs on verification alone:
      `false` when it fails, `undefined` when it succeeds. This holds with or
      without a scheme word and with any pieces after a second `:`. */
  lemma VerificationDecides(
    lead: string, token: string, preimage: string, tail: string, secret: string, verify: Verifier)
    requires Lead(lead) && Tail(tail)
    requires token != "" && preimage != "" && Plain(token) && Plain(preimage)
    ensures IsValidRequestHeader(ProofHeader(lead, token, preimage, tail), secret, verify) ==
      if verify(token, secret) then None else Some(false)
  {
    HeaderPieces(lead, token, preimage, tail);
  }

  /** Pieces after a second `:` are ignored. */
  lemma ExtraPiecesIgnored(
    lead: string, token: string, preimage: string, tail: string, secret: string, verify: Verifier)
    requires Lead(lead) && Tail(tail) && Plain(token) && Plain(preimage)
    ensures IsValidRequestHeader(ProofHeader(lead, token, preimage, tail), secret, verify) ==
      IsValidRequestHeader(ProofHeader(lead, token, preimage, ""), secret, verify)
  {
    HeaderPieces(lead, token, preimage, tail);
    HeaderPieces(lead, token, preimage, "");
  }

  /** A non-empty header whose last segment has no `:preimage` part is rejected,
      whatever the verifier says. */
  lemma RejectsMissingPreimage(lead: string, segment: string, secret: string, verify: Verifier)
    requires Lead(lead) && Plain(segment) && lead + segment != ""
    ensures IsValidRequestHeader(lead + segment, secret, verify) == Some(false)
  {
    LastSegment(lead, segment);
    SplitWithoutSeparator(segment, ':');
  }

  /** A header ending in a space (an empty last segment) is rejected. */
  lemma RejectsTrailingSpace(scheme: string, secret: string, verify: Verifier)
    ensures IsValidRequestHeader(scheme + " ", secret, verify) == Some(false)
  {
    LastSegment(scheme + " ", "");
    assert scheme + " " + "" == scheme + " ";
  }
}
