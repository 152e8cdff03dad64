/**
 * The JWT claim set signed for one authentication: issuer, subject, subject
 * type, audience, unique id and expiry.
 */
module Claims {
  import opened Identity
  import opened Jti

  /** The `aud` claim: the token endpoint the assertion is meant for. */
  const Audience: string := "https://api.box.com/oauth2/token"

  const MicrosPerSecond: int := 1_000_000

  /** How long an assertion is valid after it is issued, in seconds. */
  const AssertionLifetime: int := 30

  /** Python's int() of a quotient: the integer part, rounding toward zero. */
  function TruncDiv(a: int, b: int): (q: int)
    requires b > 0
    ensures a >= 0 ==> q * b <= a < q * b + b
    ensures a < 0 ==> q * b - b < a <= q * b
  {
    if a >= 0 then a / b else -((-a) / b)
  }

  /**
   * The `exp` claim for a clock reading of `nowMicros` microseconds since the
   * epoch: the whole seconds from the epoch to 30 seconds after now.
   */
  function Expiry(nowMicros: int): (exp: int)
    ensures nowMicros % MicrosPerSecond == 0 ==> exp == nowMicros / MicrosPerSecond + AssertionLifetime
    ensures nowMicros + AssertionLifetime * MicrosPerSecond >= 0 ==>
      exp * MicrosPerSecond <= nowMicros + AssertionLifetime * MicrosPerSecond < (exp + 1) * MicrosPerSecond
    ensures nowMicros + AssertionLifetime * MicrosPerSecond < 0 ==>
      (exp - 1) * MicrosPerSecond < nowMicros + AssertionLifetime * MicrosPerSecond <= exp * MicrosPerSecond
  {
    TruncDiv(nowMicros + AssertionLifetime * MicrosPerSecond, MicrosPerSecond)
  }

  /** The claims jwt.encode receives: exactly these six keys. */
  datatype ClaimSet = ClaimSet(iss: string, sub: string, boxSubType: string, aud: string, jti: string, exp: int)

  /** The claim set for `subject`, issued by `clientId` at `nowMicros`, with the jti drawn from `entropy`. */
  function Claims(clientId: string, subject: Subject, entropy: Entropy, nowMicros: int): (c: ClaimSet)
    requires entropy.Valid()
    ensures c.iss == clientId && c.aud == Audience
    ensures c.sub == subject.id && c.boxSubType == subject.kind.Name()
    ensures c.boxSubType == "user" || c.boxSubType == "enterprise"
    ensures |c.jti| == entropy.randint(JtiMinLength, JtiMaxLength) && JtiMinLength <= |c.jti| <= JtiMaxLength
    ensures forall i :: 0 <= i < |c.jti| ==> IsAlnum(c.jti[i])
    ensures c.jti == MakeJti(|c.jti|, Indices(entropy, |c.jti|))
    ensures c.exp == Expiry(nowMicros)
  {
    ClaimSet(clientId, subject.id, subject.kind.Name(), Audience, DrawJti(entropy).jti, Expiry(nowMicros))
  }

  /** A clock reading on a whole second gives an expiry exactly 30 seconds later. */
  lemma ExpiryOfWholeSecond(nowSeconds: int)
    ensures Expiry(nowSeconds * MicrosPerSecond) == nowSeconds + AssertionLifetime
  {
  }
}
