/**
  The token service (src/service/Authenticator), treated as an abstract
  signer: a token it issued decodes to the payload it was issued for; any other
  token is rejected. Signature keys, expiry and the token's wire format are not
  part of this model.
 */
module Authenticator {
  import opened Errors

  /** The payload of an access token: `{ id, role }`. */
  datatype AuthenticationData = AuthenticationData(id: string, role: string)

  /** A token string: one the service signed, or anything else a client sends. */
  datatype Token = Signed(payload: AuthenticationData) | Unverifiable(raw: string)

  const INVALID_TOKEN := "invalid token"

  /** `generateToken`: sign a payload. */
  function GenerateToken(data: AuthenticationData): Token {
    Signed(data)
  }

  /** `getData`: verify a token and return its payload; `jwt.verify` throws otherwise. */
  function GetData(token: Token): (r: Result<AuthenticationData>)
    ensures r.Ok? <==> token.Signed?
    ensures r.Err? ==> r.error.Untyped?
  {
    match token
    case Signed(payload) => Ok(payload)
    case Unverifiable(_) => Err(Untyped(INVALID_TOKEN))
  }

  /** What the service promises: a token decodes to the payload it was generated from. */
  lemma GetDataOfGenerated(data: AuthenticationData)
    ensures GetData(GenerateToken(data)) == Ok(data)
  {
  }
}
