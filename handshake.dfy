/** The checks run on the query-string token of an incoming WebSocket upgrade,
    before the connection may enter the registry. */
module Handshake {
  import opened Common
  import opened Gates

  /** WebSocket close code 1008, "policy violation". */
  const PolicyViolation: int := 1008

  const InvalidUrl := "Invalid URL format"
  const TokenMissing := "Token not provided"
  const TokenInvalid := "Invalid token"
  const PayloadInvalid := "Invalid token payload"

  /** The request URL after `new URLSearchParams(url.split('?')[1])`:
      either that step threw, or it gives the `token` parameter (null when absent). */
  datatype UrlQuery = Malformed | Query(token: Option<Token>)

  /** The decoded claims of a token that `jwt.verify` accepted. */
  datatype Payload = Payload(userId: Option<UserId>)

  /** The auth collaborators as they answer at the time of one handshake:
      `jwt.verify` (None when it throws) and `isTokenBlacklisted`. */
  datatype Auth = Auth(verify: Token -> Option<Payload>, blacklisted: Token -> bool)

  datatype Verdict = Reject(code: int, reason: string) | Admit(userId: UserId)

  /** The handshake as the connection handler runs it: each check returns early
      with a policy-violation close. */
  function Validate(url: UrlQuery, auth: Auth): (v: Verdict)
    ensures v.Reject? ==> v.code == PolicyViolation
    ensures v.Admit? ==> v.userId != ""
  {
    if url.Malformed? then Reject(PolicyViolation, InvalidUrl)
    else if !Truthy(url.token) then Reject(PolicyViolation, TokenMissing)
    else
      var token := url.token.value;
      match auth.verify(token)
      case None => Reject(PolicyViolation, TokenInvalid)
      case Some(decoded) =>
        if auth.blacklisted(token) then Reject(PolicyViolation, TokenInvalid)
        else if !Truthy(decoded.userId) then Reject(PolicyViolation, PayloadInvalid)
        else Admit(decoded.userId.value)
  }

  /** The token presented, with "" standing for an absent one. */
  function Presented(url: UrlQuery): Token {
    if url.Query? && url.token.Some? then url.token.value else ""
  }

  /** The handshake policy as an ordered list of requirements: URL parses,
      token present, signature verifies, token not revoked, payload names a user. */
  function HandshakeChecks(url: UrlQuery, auth: Auth): seq<Check> {
    var token := Presented(url);
    var decoded := auth.verify(token);
    [ Check(url.Query?, InvalidUrl),
      Check(token != "", TokenMissing),
      Check(decoded.Some?, TokenInvalid),
      Check(!auth.blacklisted(token), TokenInvalid),
      Check(decoded.Some? && Truthy(decoded.value.userId), PayloadInvalid) ]
  }

  /** The handshake rejects with the reason of the first requirement that fails,
      and admits the token's user exactly when all of them hold. */
  lemma HandshakeFollowsPolicy(url: UrlQuery, auth: Auth)
    ensures var v, first := Validate(url, auth), FirstFailure(HandshakeChecks(url, auth));
      && (first.Some? ==> v == Reject(PolicyViolation, first.value))
      && (first.None? ==> v.Admit? && auth.verify(Presented(url)) == Some(Payload(Some(v.userId))))
  {
    var cs := HandshakeChecks(url, auth);
    if url.Malformed? {
      FirstFailureReportsFirst(cs, 0);
    } else if !Truthy(url.token) {
      FirstFailureReportsFirst(cs, 1);
    } else if auth.verify(Presented(url)).None? {
      FirstFailureReportsFirst(cs, 2);
    } else if auth.blacklisted(Presented(url)) {
      FirstFailureReportsFirst(cs, 3);
    } else if !Truthy(auth.verify(Presented(url)).value.userId) {
      FirstFailureReportsFirst(cs, 4);
    }
  }

  /** A missing or empty token is refused with "Token not provided", whatever the
      auth collaborators would say. */
  lemma MissingTokenRefused(token: Option<Token>, auth: Auth)
    requires !Truthy(token)
    ensures Validate(Query(token), auth) == Reject(PolicyViolation, TokenMissing)
  {
  }

  /** Verification comes before the blacklist: a token that does not verify is
      "Invalid token", and so is a verified but revoked one, whatever its claims. */
  lemma InvalidOrRevokedTokenRefused(token: Token, auth: Auth)
    requires token != ""
    requires auth.verify(token).None? || auth.blacklisted(token)
    ensures Validate(Query(Some(token)), auth) == Reject(PolicyViolation, TokenInvalid)
  {
  }

  /** A verified, non-revoked token without a user id claim is "Invalid token payload". */
  lemma ClaimlessTokenRefused(token: Token, auth: Auth)
    requires token != ""
    requires auth.verify(token).Some? && !auth.blacklisted(token)
    requires !Truthy(auth.verify(token).value.userId)
    ensures Validate(Query(Some(token)), auth) == Reject(PolicyViolation, PayloadInvalid)
  {
  }
}
