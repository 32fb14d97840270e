/** The Express middleware that guards authenticated routes: it reads the
    `Authorization` header, accepts only the exact prefix "Bearer ", verifies
    the rest as a token, and either sets `req.user` and calls `next` or answers
    401. */
module AuthMiddleware {
  import opened Primitives
  import opened Crypto
  import opened Credentials

  const BEARER_PREFIX: string := "Bearer "
  const UNAUTHORIZED: int := 401
  const NO_TOKEN_PROVIDED: string := "No token provided"
  const INVALID_OR_EXPIRED_TOKEN: string := "Invalid or expired token"

  /** The token in the header: present only when the header starts with
      "Bearer " exactly, and then everything after those seven characters. */
  function BearerToken(header: Option<string>): (r: Option<string>)
    ensures r.Some? <==> header.Some? && |header.value| >= |BEARER_PREFIX| && header.value[..|BEARER_PREFIX|] == BEARER_PREFIX
    ensures r.Some? ==> header.value == BEARER_PREFIX + r.value
  {
    if header.Some? && header.value != "" && BEARER_PREFIX <= header.value
    then Some(header.value[|BEARER_PREFIX|..])
    else None
  }

  /** The header a client sends is read back as the token it carries. */
  lemma BearerTokenRoundTrip(token: string)
    ensures BearerToken(Some(BEARER_PREFIX + token)) == Some(token)
  {
    assert (BEARER_PREFIX + token)[..|BEARER_PREFIX|] == BEARER_PREFIX;
    assert (BEARER_PREFIX + token)[|BEARER_PREFIX|..] == token;
  }

  /** The prefix is case-sensitive and needs its space: "bearer t", "Bearer"
      and "Bearer\tt" carry no token. */
  lemma BearerPrefixIsExact(token: string)
    ensures BearerToken(Some("bearer " + token)).None?
    ensures BearerToken(Some("Bearer")).None?
    ensures BearerToken(Some("Bearer\t" + token)).None?
  {
    assert ("bearer " + token)[0] == 'b';
    assert ("Bearer\t" + token)[6] == '\t';
  }

  /** What the middleware does with a request. */
  datatype Decision = Accept(user: Claims) | Reject(status: int, error: string)

  function Decide(header: Option<string>, jwt: Jwt<Claims>): (d: Decision)
    ensures d.Reject? ==> d.status == UNAUTHORIZED
    ensures d == Reject(UNAUTHORIZED, NO_TOKEN_PROVIDED) <==> BearerToken(header).None?
    ensures d == Reject(UNAUTHORIZED, INVALID_OR_EXPIRED_TOKEN) <==>
      BearerToken(header).Some? && jwt.verify(BearerToken(header).value).None?
    ensures d.Accept? <==> BearerToken(header).Some? && jwt.verify(BearerToken(header).value).Some?
    ensures d.Accept? ==> jwt.verify(BearerToken(header).value) == Some(d.user)
  {
    match BearerToken(header)
    case None => Reject(UNAUTHORIZED, NO_TOKEN_PROVIDED)
    case Some(token) =>
      match VerifyToken(jwt, token)
      case Ok(claims) => Accept(claims)
      case Err(_) => Reject(UNAUTHORIZED, INVALID_OR_EXPIRED_TOKEN)
  }

  /** A token the service signed, sent as "Bearer <token>", is accepted with
      the claims it was signed with. */
  lemma SignedTokenAccepted(jwt: Jwt<Claims>, claims: Claims, expiresIn: nat)
    requires RoundTrips(jwt)
    ensures Decide(Some(BEARER_PREFIX + jwt.sign(claims, expiresIn)), jwt) == Accept(claims)
  {
    BearerTokenRoundTrip(jwt.sign(claims, expiresIn));
  }

  /** The request and response the handler writes to, and how often it
      called `next`. */
  class Exchange {
    var user: Option<Claims>       // req.user
    var status: Option<int>        // res.status(...)
    var error: Option<string>      // the `error` field of the JSON body sent
    var nextCalls: nat

    constructor()
      ensures user == None && status == None && error == None && nextCalls == 0
    {
      user := None;
      status := None;
      error := None;
      nextCalls := 0;
    }
  }

  /** authMiddleware: on acceptance `req.user` is the decoded claims and
      `next` is called once, with no response written; on rejection the 401
      response is written, `req.user` is left alone and `next` is not called. */
  method Handle(x: Exchange, authorization: Option<string>, jwt: Jwt<Claims>)
    modifies x
    ensures Decide(authorization, jwt).Accept? ==>
      && x.user == Some(Decide(authorization, jwt).user) && x.nextCalls == old(x.nextCalls) + 1
      && x.status == old(x.status) && x.error == old(x.error)
    ensures Decide(authorization, jwt).Reject? ==>
      && x.user == old(x.user) && x.nextCalls == old(x.nextCalls)
      && x.status == Some(UNAUTHORIZED) && x.error == Some(Decide(authorization, jwt).error)
  {
    if authorization.None? || authorization.value == "" || !(BEARER_PREFIX <= authorization.value) {
      x.status := Some(UNAUTHORIZED);
      x.error := Some(NO_TOKEN_PROVIDED);
      return;
    }
    var token := authorization.value[7..];
    var decoded := VerifyToken(jwt, token);
    if decoded.Err? {
      x.status := Some(UNAUTHORIZED);
      x.error := Some(INVALID_OR_EXPIRED_TOKEN);
      return;
    }
    x.user := Some(decoded.value);
    x.nextCalls := x.nextCalls + 1;
  }
}
