/** Access tokens. The HMAC signature is abstracted: a token either carries claims the
    signing key vouches for (`Signed`) or fails signature or format checks (`Unverifiable`).
    Times are whole seconds since the epoch, as JWT `exp` claims are. */
module Security {
  import opened Wrappers
  import opened Models

  /** ACCESS_TOKEN_EXPIRE_MINUTES */
  const AccessTokenExpireMinutes: int := 60

  datatype Claims = Claims(sub: Option<Uuid>, exp: Option<int>)

  datatype Jwt = Signed(claims: Claims) | Unverifiable

  /** What `decode_token` hands to its caller: a 401 (`Invalid`), or the payload's subject. */
  datatype DecodeResult = Invalid | Payload(sub: Option<Uuid>)

  /** `create_access_token`: expiry is `now + expiresDelta`, or the default lifetime when no
      delta is given or the delta is zero (a zero `timedelta` is falsy). */
  function CreateAccessToken(subject: Uuid, now: int, expiresDelta: Option<int>): (t: Jwt)
    ensures t.Signed? && t.claims.sub == Some(subject) && t.claims.exp.Some?
    ensures expiresDelta.Some? && expiresDelta.value != 0 ==> t.claims.exp.value - now == expiresDelta.value
    ensures expiresDelta.None? || expiresDelta.value == 0 ==> t.claims.exp.value - now == AccessTokenExpireMinutes * 60
  {
    var delta := if expiresDelta.Some? && expiresDelta.value != 0 then expiresDelta.value
                 else AccessTokenExpireMinutes * 60;
    Signed(Claims(Some(subject), Some(now + delta)))
  }

  /** `decode_token` at time `now`: an unverifiable token, or one whose `exp` lies in the
      past, is rejected; otherwise the payload's subject is returned. */
  function DecodeToken(t: Jwt, now: int): (r: DecodeResult)
    ensures r.Payload? ==> t.Signed? && r.sub == t.claims.sub
    ensures r.Payload? <==> t.Signed? && (t.claims.exp.Some? ==> now <= t.claims.exp.value)
  {
    match t
    case Unverifiable => Invalid
    case Signed(claims) =>
      if claims.exp.Some? && claims.exp.value < now then Invalid else Payload(claims.sub)
  }

  /** A token issued at `issued` with lifetime `delta` decodes to its subject exactly until
      `issued + delta`, and is rejected afterwards. */
  lemma IssuedTokenLifetime(subject: Uuid, issued: int, delta: int, now: int)
    requires delta > 0 && issued <= now
    ensures DecodeToken(CreateAccessToken(subject, issued, Some(delta)), now)
            == if now <= issued + delta then Payload(Some(subject)) else Invalid
  {
  }

  /** With no delta (or a zero delta) the token lives for the default 60 minutes. */
  lemma DefaultLifetime(subject: Uuid, issued: int)
    ensures CreateAccessToken(subject, issued, None) == CreateAccessToken(subject, issued, Some(0))
    ensures DecodeToken(CreateAccessToken(subject, issued, None), issued + 3600) == Payload(Some(subject))
    ensures DecodeToken(CreateAccessToken(subject, issued, None), issued + 3601) == Invalid
  {
  }
}
