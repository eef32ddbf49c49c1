/**
 * The `identifier` middleware of middlewares/identication.js: choose where
 * the token comes from, strip a `Bearer ` prefix, verify it and either pass
 * the decoded claims on or answer 401 with one of three error codes.
 */
module Identification {
  import opened Options
  import opened Strings
  import opened Crypto

  /** The request headers the middleware reads. */
  datatype Headers = Headers(client: Option<string>, authorization: Option<string>)

  /** What `jwt.verify(token, TOKEN_SECRET)` does: return the claims or throw one of its errors. */
  datatype VerifyOutcome =
    | Decoded(claims: Claims)
    | TokenExpiredError
    | JsonWebTokenError
    | OtherError

  /** The `error` code of a rejected request; `NoToken` stands for the response that carries none. */
  datatype Rejection = NoToken | TokenExpired | InvalidToken | AuthFailed

  /** Either `next()` with `req.user` set, or a response. */
  datatype AuthResult = Next(user: Claims) | Denied(status: nat, reason: Rejection)

  const NotBrowser := "not-browser"
  const BearerPrefix := "Bearer "

  /** The header `authorization` for a `client: not-browser` request, the `Authorization` cookie otherwise. */
  function SelectToken(headers: Headers, cookie: Option<string>): (token: Option<string>)
    ensures headers.client == Some(NotBrowser) ==> token == headers.authorization
    ensures headers.client != Some(NotBrowser) ==> token == cookie
  {
    if headers.client == Some(NotBrowser) then headers.authorization else cookie
  }

  /**
   * `token.startsWith('Bearer ') ? token.split(' ')[1] : token`: after the
   * prefix, the text up to the next space or the end.
   */
  function StripBearer(token: string): (r: string)
    ensures !StartsWith(token, BearerPrefix) ==> r == token
    ensures StartsWith(token, BearerPrefix) ==>
      var rest := token[|BearerPrefix|..];
      && ' ' !in r && |r| <= |rest| && r == rest[..|r|]
      && (|r| == |rest| || rest[|r|] == ' ')
  {
    if StartsWith(token, BearerPrefix) then
      var rest := token[|BearerPrefix|..];
      SplitAtFirst("Bearer", ' ', rest);
      assert token == "Bearer" + [' '] + rest;
      SplitFirstPart(rest, ' ');
      Split(token, ' ')[1]
    else
      token
  }

  /** The `Bearer ` cookie signin sets is reduced to the token itself, as long as the token has no space. */
  lemma StripBearerRoundTrip(token: string)
    requires ' ' !in token
    ensures StripBearer(BearerPrefix + token) == token
  {
    var t := BearerPrefix + token;
    assert StartsWith(t, BearerPrefix);
    assert t[|BearerPrefix|..] == token;
    assert t == "Bearer" + [' '] + token;
    SplitAtFirst("Bearer", ' ', token);
  }

  /** The whole middleware; `verify` stands for `jwt.verify` under the server's secret at the current time. */
  function Identifier(headers: Headers, cookie: Option<string>, verify: string -> VerifyOutcome): (r: AuthResult)
    ensures r.Denied? ==> r.status == 401
    ensures r.Next? <==> (
      var token := SelectToken(headers, cookie);
      token.Some? && token.value != [] && verify(StripBearer(token.value)).Decoded?)
    ensures r.Next? ==> verify(StripBearer(SelectToken(headers, cookie).value)) == Decoded(r.user)
    ensures r == Denied(401, NoToken) <==> (SelectToken(headers, cookie).None? || SelectToken(headers, cookie).value == [])
    ensures r == Denied(401, TokenExpired) <==> (
      var token := SelectToken(headers, cookie);
      token.Some? && token.value != [] && verify(StripBearer(token.value)) == TokenExpiredError)
    ensures r == Denied(401, InvalidToken) <==> (
      var token := SelectToken(headers, cookie);
      token.Some? && token.value != [] && verify(StripBearer(token.value)) == JsonWebTokenError)
  {
    match SelectToken(headers, cookie)
    case None => Denied(401, NoToken)
    case Some(token) =>
      if token == [] then Denied(401, NoToken)
      else
        match verify(StripBearer(token))
        case Decoded(claims) => Next(claims)
        case TokenExpiredError => Denied(401, TokenExpired)
        case JsonWebTokenError => Denied(401, InvalidToken)
        case OtherError => Denied(401, AuthFailed)
  }
}
