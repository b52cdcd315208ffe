/**
 * The identity handshake shared by `validateServerIdentity` (both background scripts),
 * `tryServerConnection` and `testConnection` (the devtools panel): a candidate is accepted
 * only on an OK response whose JSON `signature` is exactly the protocol literal.
 */
module Handshake {
  import opened Protocol

  /** Which branch of the validator a response takes. */
  datatype Verdict =
    | Verified        // OK response with the exact signature
    | WrongSignature  // OK response, parsed, but another (or no) signature
    | HttpError       // a response whose `ok` is false
    | Thrown          // transport failure or a body that is not JSON: the catch branch

  function Classify(p: Probe): (v: Verdict)
    ensures v == Verified <==> p == Response(true, Json(Some(SIGNATURE)))
    ensures v == HttpError <==> p.Response? && !p.ok
    ensures v == Thrown <==> p.TransportError? || (p.Response? && p.ok && p.body.Malformed?)
  {
    match p
    case TransportError => Thrown
    case Response(ok, body) =>
      if !ok then HttpError
      else match body
        case Malformed => Thrown
        case Json(signature) =>
          if signature == Some(SIGNATURE) then Verified else WrongSignature
  }

  /** `validateServerIdentity`: true exactly for a verified handshake; every other path returns false. */
  function ValidateServerIdentity(p: Probe): (valid: bool)
    ensures valid <==> Classify(p) == Verified
  {
    match p
    case Response(true, Json(Some(s))) => s == SIGNATURE
    case _ => false
  }

  /** Signature exactness: any other string, including the empty one and case variants, is rejected. */
  lemma SignatureExactness(s: string)
    requires s != SIGNATURE
    ensures !ValidateServerIdentity(Response(true, Json(Some(s))))
    ensures Classify(Response(true, Json(Some(s)))) == WrongSignature
  {
  }

  /** A missing signature field is a rejection, not an error. */
  lemma MissingSignatureRejected()
    ensures Classify(Response(true, Json(None))) == WrongSignature
  {
  }

  /** A right signature does not rescue a response whose status is not OK. */
  lemma StatusCheckedFirst(body: Body)
    ensures !ValidateServerIdentity(Response(false, body))
  {
  }
}
