# L402JWT credential core, modelled in Dafny

This project models the credential object of L402JWT-JS, a Lightning-payment-gated
HTTP authentication scheme (the L402 pattern), together with the header check
beside it. A server builds an `L402JWT` from a bolt11 invoice. It may bind a
request-body hash and an expiry. It signs a JWT challenge token and sends it in a
`L402 JWT="…", invoice="…` header. The client pays, learns the preimage and sends
`<scheme> <token>:<preimage>` back. The server parses that header into a fresh
`L402JWT` and asks `isPaid`, `isExpired` and `isValidBody`.

The model follows the code as written, not as its names suggest. It states four
surprising behaviours as proved properties:

- `isExpired` is true while the expiry is still in the future, and also when no expiry is set (`ExpiryIsInverted`).
- `isValidBody` accepts every body once a hash is bound, and rejects every body when none is bound (`BodyIsIgnored`).
- Neither decoder stores `expiresAt`, so an expiry never survives the round trip through the token (`JwtRoundTrip`).
- `isValidRequestHeader` never returns `true`. It returns `false` or falls off the end with `undefined` (`IsValidRequestHeader`).

## Structure

- `js.dfy`, module `Js`: the JavaScript semantics the code depends on.
  - `undefined` as `Option`. A thrown `Error` as `Result.Err(message)`.
  - Truthiness. An absent string and `""` are falsy. An absent number and `0` are falsy.
  - `split` with a one-character separator, with its inverse `Join`.
  - `pop`, array destructuring (`At`) and template rendering (`Render`, which prints `undefined` for a missing value).
- `utils.dfy`, module `Utils`: the bolt11 `Section` list and the reference function `FirstSection`. Also `GetBolt11Section`, a method with the source's index loop and early return.
- `l402jwt.dfy`, module `L402Jwt`:
  - the `Credential` value, which holds the six optional fields;
  - the JWT `Payload`;
  - one step function per operation, giving the fields after the call and whether it returned or threw;
  - the three predicates;
  - class `L402JWT`. Its methods assign the fields in place, return `this`, and are proved to agree with the step functions. `Value()` reads an object's fields as a `Credential`.
- `validation.dfy`, module `Validation`: `IsValidRequestHeader`, and lemmas that tie its shape checks to those of `createFromAuthHeader`.

External code becomes function parameters:

- SHA-256 is `Hash = string -> string`.
- `jwt.sign` is `Signer`, which returns a token or the error it throws.
- `jwt.decode(token, {json: true})` is `Decoder`. Its `None` covers both a `null` result and a thrown error, which the callers treat alike.
- `jwt.verify` is a `Verifier` predicate.
- The bolt11 decoder is `Bolt11Decoder`, which returns a section list or the error it throws.
- `Math.floor(Date.now() / 1000)` is the integer parameter `now`.

## Model

| member | source | states |
|---|---|---|
| `Js.Split` | src/L402JWT.ts:62-66 | `split` always yields at least one piece, and no piece contains the separator |
| `Js.JoinSplit` | src/L402JWT.ts:62-66 | joining the pieces of a split with the separator gives back the original string |
| `Js.SplitAppend` | src/validation.ts:7-11 | a separator between two strings splits exactly there: the pieces are those of the left part followed by those of the right part |
| `Js.SplitWithoutSeparator` | src/validation.ts:11 | a string without the separator splits into itself alone |
| `Js.PiecesAvoid` | src/L402JWT.ts:62-66 | a character absent from a string is absent from every piece of its split |
| `Js.Pop` | src/L402JWT.ts:62 | `pop` yields the last element, and `undefined` exactly when the array is empty |
| `Js.At` | src/L402JWT.ts:66 | a destructured name is bound to the element at its position, and to `undefined` past the end of the array |
| `Utils.FirstSection` | src/utils.ts:11-17 | `undefined` exactly when no section has the name; otherwise the value of a matching section with no match before it |
| `Utils.GetBolt11Section` | src/utils.ts:9-17 | a decoder error propagates; otherwise the loop returns `FirstSection` of the decoded list: the value at the first matching index, or `undefined` |
| `Utils.FirstMatchIsFirstSection` | src/utils.ts:11-14 | a matching index with no match before it is the one whose value is returned |
| `Utils.FirstSectionIgnoresTail` | src/utils.ts:11-14 | sections after the first match never affect the result |
| `L402Jwt.ChallengePayload` | src/L402JWT.ts:18-28 | throws the "Specify a payment hash" error exactly when `paymentHash` is falsy; otherwise the payload carries `paymentHash`, `bodyHash` exactly when it is truthy, and `expiresAt` exactly when it is truthy |
| `L402Jwt.ChallengePayloadOmitsFalsy` | src/L402JWT.ts:22-28 | the payload holds exactly the truthy fields, with nothing else and no empty placeholders |
| `L402Jwt.CreateJwt` | src/L402JWT.ts:18-30 | a falsy payment hash throws before signing; otherwise the result is whatever signing the payload gives, including a signing error |
| `L402Jwt.ChallengeHeader` | src/L402JWT.ts:92-96 | it throws exactly when `createJWT` throws, with the same error; otherwise the header is `L402 JWT="`, the token, `", invoice="` and the rendered invoice |
| `L402Jwt.ChallengeHeaderUnterminated` | src/L402JWT.ts:93-95 | with quote-free token and invoice the header has exactly three quotes, so the invoice's quote is never closed; the header ends with the invoice text, or with `undefined` when there is none |
| `L402Jwt.FromBolt11` | src/L402JWT.ts:32-36 | only `paymentRequest` (set to the invoice) and `paymentHash` change. `paymentHash` becomes the first `payment_hash` section, or `undefined` when there is none. A decoder error propagates after `paymentRequest` is already set |
| `L402Jwt.WithBodyHash` | src/L402JWT.ts:98-101 | only `bodyHash` changes, and it becomes the hash of the body |
| `L402Jwt.BodyHashIdempotent` | src/L402JWT.ts:98-101 | binding a body twice equals binding it once; a later binding replaces an earlier one |
| `L402Jwt.WithExpiry` | src/L402JWT.ts:103-106 | only `expiresAt` changes, and it becomes `now + seconds` |
| `L402Jwt.JwtStep` | src/L402JWT.ts:38-56 | fails with "Could not decode JWT" and no field changed exactly when the payload is missing or has a falsy `paymentHash`; otherwise copies `paymentHash`, copies `bodyHash` only when truthy, and changes nothing else (never `expiresAt`) |
| `L402Jwt.JwtRoundTrip` | src/L402JWT.ts:22-52 | decoding a signed challenge recovers its payment hash and a truthy body hash, but the receiver's `expiresAt` stays as it was |
| `L402Jwt.AuthHeaderStep` | src/L402JWT.ts:58-90 | every failure leaves all fields unchanged and carries one of the three messages. "No authorization header passed" occurs exactly for the empty header. `expiresAt` and `paymentRequest` never change. On success, take the last space-separated segment and its `:`-pieces. The token is the first piece and the preimage the second. `paymentHash` comes from the first piece's decoded payload. `bodyHash` is copied only when the payload's is truthy. No other field changes, and all three stored strings are truthy |
| `L402Jwt.AuthHeaderPiecesArePlain` | src/L402JWT.ts:62-79 | after success the stored token has no `:` and no space, and the preimage has no space |
| `L402Jwt.AuthHeaderParses` | src/L402JWT.ts:62-86 | `[<scheme> ]<token>:<preimage>[:<more>]` with plain non-empty pieces and a decodable token sets the token, the preimage, `paymentHash`, and `bodyHash` only if the payload has one. The scheme word may be absent or anything, and pieces after a second `:` are ignored |
| `L402Jwt.AuthHeaderTrailingSpace` | src/L402JWT.ts:62-65 | a header ending in a space has an empty last segment and is rejected as invalid, with no field changed |
| `L402Jwt.AuthHeaderWithoutPreimage` | src/L402JWT.ts:66-69 | a non-empty header whose last segment has no `:`, with or without a scheme word, is rejected as invalid, with no field changed |
| `L402Jwt.AuthHeaderEmptyPiece` | src/L402JWT.ts:66-69 | an empty token or an empty preimage is rejected as invalid, with no field changed, with or without a scheme word and whatever follows a second `:` |
| `L402Jwt.AuthHeaderUndecodable` | src/L402JWT.ts:70-89 | a well-shaped header, with or without a scheme word and whatever follows a second `:`, whose token does not decode to a payload with a payment hash fails with the single "Could not decode token" error, with no field changed |
| `L402Jwt.IsPaid` | src/L402JWT.ts:115-120 | true exactly when the preimage is non-empty, its hash is non-empty, and the payment hash equals that hash |
| `L402Jwt.PaidByPreimage` | src/L402JWT.ts:115-120 | a preimage whose hash is the payment hash pays; a preimage with a different hash does not; a missing hash or preimage never pays |
| `L402Jwt.IsExpired` | src/L402JWT.ts:108-113 | true when `expiresAt` is absent or 0; otherwise exactly `now < expiresAt` |
| `L402Jwt.ExpiryIsInverted` | src/L402JWT.ts:103-113 | after `addExpiry(s)` with `s > 0`, `isExpired` is true at the same instant and until the expiry, and false from the expiry on |
| `L402Jwt.ExpiryExamples` | src/L402JWT.ts:108-113 | an expiry one second ago is not expired; an expiry an hour ahead is expired; no expiry and a zero expiry are expired |
| `L402Jwt.IsValidBody` | src/L402JWT.ts:122-127 | a truthy body hash accepts; with a non-empty digest the result is exactly "a body hash is bound", independent of the body; with no body hash the result is false |
| `L402Jwt.BodyIsIgnored` | src/L402JWT.ts:98-127 | after `addBodyHashRestriction(b)` every body is valid, not only `b`; with no binding no body is; the answer never depends on the body |
| `L402Jwt.PaidEndToEnd` | src/L402JWT.ts:32-120 | invoice, then challenge token, then client header with a preimage of the invoice's payment hash, then a fresh credential: it is paid, and since it carries no expiry it also reports itself expired |
| `L402Jwt.LastSegment` | src/L402JWT.ts:62 | the last space-separated segment of `seg`, or of `<scheme> seg`, is `seg` when `seg` has no space |
| `L402Jwt.LeadingPieces` | src/L402JWT.ts:66 | the first two `:`-pieces of `token:preimage`, with or without further `:`-pieces, are the token and the preimage |
| `L402Jwt.HeaderPieces` | src/L402JWT.ts:62-66 | for a proof header, the last segment is `token:preimage[:<more>]` and its destructured pieces are the token and the preimage |
| `L402Jwt.L402JWT.constructor` | src/L402JWT.ts:10-16 | a new object has every field `undefined` |
| `L402Jwt.L402JWT.CreateFromBolt11` | src/L402JWT.ts:32-36 | the assignments leave the fields as `FromBolt11` says, and the method returns `this` or rethrows the decoder error |
| `L402Jwt.L402JWT.CreateFromJwt` | src/L402JWT.ts:38-56 | the fields end as `JwtStep` says; the method returns nothing, or the "Could not decode JWT" error |
| `L402Jwt.L402JWT.CreateFromAuthHeader` | src/L402JWT.ts:58-90 | the guard chain and assignments leave the fields as `AuthHeaderStep` says, and the method returns `this` or that step's error |
| `L402Jwt.L402JWT.AddBodyHashRestriction` | src/L402JWT.ts:98-101 | the fields end as `WithBodyHash` says, and the method returns `this` |
| `L402Jwt.L402JWT.AddExpiry` | src/L402JWT.ts:103-106 | the fields end as `WithExpiry` says, and the method returns `this` |
| `Validation.IsValidRequestHeader` | src/validation.ts:3-20 | never `true`; `false` for the empty header; `undefined` only when the token verifies |
| `Validation.SameShapeRejections` | src/validation.ts:4-14 | before verification it returns `false` exactly when `createFromAuthHeader` throws one of its two shape errors |
| `Validation.VerificationDecides` | src/validation.ts:15-20 | for a well-shaped header, with or without a scheme word and whatever follows a second `:`, the result is `false` when verification fails and `undefined` when it succeeds |
| `Validation.ExtraPiecesIgnored` | src/validation.ts:11-14 | pieces after a second `:` do not change the result |
| `Validation.ShapeRejectionsAnyVerifier` | src/validation.ts:4-20 | for every verifier, a header that `createFromAuthHeader` rejects for its shape gives `false`; any other header gives `false` or `undefined` as verifying its first `:`-piece fails or succeeds |
| `Validation.RejectsEmptyPiece` | src/validation.ts:11-14 | an empty token or an empty preimage gives `false` whatever the verifier says, with or without a scheme word and whatever follows a second `:` |
| `Validation.RejectsMissingPreimage` | src/validation.ts:11-14 | a non-empty header whose last segment has no `:` gives `false`, whatever the verifier says |
| `Validation.RejectsTrailingSpace` | src/validation.ts:7-10 | an empty last segment gives `false` |

## Left out

- SHA-256, `jsonwebtoken` (sign, decode, verify) and the bolt11 decoder are foreign code. They are uninterpreted parameters. No property of hashing, JSON encoding or signatures is claimed: no collision resistance, and no detection of a forged or tampered token.
- `getSHA256` (src/utils.ts:5-7) is only the `Hash` parameter, since it is a single foreign call.
- `console.log` in src/utils.ts:13 is output only and has no effect on results.
- `Date.now()` and `Math.floor(… / 1000)` are replaced by the integer `now`. Numbers are mathematical integers: no floating point, `NaN` or fractional seconds.
- The JWT payload is cast without checks, so its fields could hold JSON values of any type. The model allows only an absent value or a string, or for `expiresAt` an integer.
- Header arguments are typed `string`. A caller passing `undefined` at run time is not modelled.
- `pop` also removes the last element from the temporary array. Only its result is modelled, because the array is never used afterwards.
- Thrown errors are modelled by their message only. All of them are plain `Error`.
- The predicates and `getChallengeHeader` only read fields. They are functions of `L402JWT.Value()` rather than class members. `createJWT` is private and only read by `getChallengeHeader`, so it is the function `CreateJwt` too.
- `L402Jwt.IsValidBody`: its contract leaves one case open: no truthy hash is bound but `bodyHash` is `""` and the digest of the body is also `""`. The function body still decides it: the result is true exactly when the digest equals the stored `""`.
- The model follows the code where the method names suggest otherwise: expiry is inverted, the body check does nothing, decoding never stores `expiresAt`, there is no closing quote after the invoice, and `isValidRequestHeader` never returns `true`.
