/**
 * The `GET /api/now-playing` handler: one token refresh, then at most one
 * playback query, mapped to the status and JSON body of the response.
 *
 * The two upstream calls are not performed here. Their replies are inputs, and
 * the handler's result records the requests it issues, in order, next to the
 * response it sends. A thrown exception anywhere in the `try` block ends in
 * the `catch`, which answers 500.
 */
module Proxy {
  import opened Wrappers
  import opened NowPlaying

  // ---------------------------------------------------------------------------
  // Upstream replies
  // ---------------------------------------------------------------------------

  /** The outcome of `response.json()`: the parsed value, or a rejected promise. */
  datatype Parsed<T> = Parsed(value: T) | ParseFailed

  /** The outcome of one `fetch`: rejected (network failure), or a status and a body. */
  datatype Reply<T> = NetworkFailure | Reply(status: int, body: Parsed<T>)

  /** `response.ok`: the status is in the range 200-299. */
  predicate Ok(status: int) { 200 <= status <= 299 }

  /** A JavaScript value interpolated into a template literal: `undefined`, `null` or a string. */
  datatype JsValue = Undefined | Null | Str(s: string)

  /** `${v}` */
  function Interpolate(v: JsValue): string
  {
    match v
    case Undefined => "undefined"
    case Null => "null"
    case Str(s) => s
  }

  /**
   * The parsed token body as `const { access_token } = ...` sees it: `null`,
   * where destructuring throws, or a value whose `access_token` is read.
   */
  datatype TokenBody = TokenNull | TokenObject(accessToken: JsValue)

  // ---------------------------------------------------------------------------
  // Requests and responses
  // ---------------------------------------------------------------------------

  /** The credentials read from the environment at start-up. */
  datatype Config = Config(clientId: string, clientSecret: string, refreshToken: string)

  /**
   * The requests sent upstream. The token request carries the text that
   * `Authorization: Basic` encodes in Base64 and the form fields before
   * URL-encoding; the playback request carries its `Authorization` header.
   */
  datatype UpstreamRequest =
    | TokenRequest(basicCredentials: string, form: seq<(string, string)>)
    | PlaybackRequest(authorization: string)

  datatype ResponseBody = ErrorBody(error: string) | SnapshotBody(snapshot: Snapshot)

  datatype Response = Response(status: int, body: ResponseBody)

  /** What one call of the handler does: the upstream requests, in order, and the response. */
  datatype Exchange = Exchange(issued: seq<UpstreamRequest>, response: Response)

  const NotPlayingMessage := "Currently Not Playing"
  const FetchFailedMessage := "Unable to Fetch Song"
  const InternalErrorMessage := "Internal Error"

  const InternalError := Response(500, ErrorBody(InternalErrorMessage))

  // ---------------------------------------------------------------------------
  // The two steps
  // ---------------------------------------------------------------------------

  /**
   * The token request of `getAccessToken`: Basic authentication over
   * `id:secret` and the refresh-token grant.
   */
  function TokenRequestOf(cfg: Config): UpstreamRequest
  {
    TokenRequest(cfg.clientId + ":" + cfg.clientSecret,
                 [("grant_type", "refresh_token"), ("refresh_token", cfg.refreshToken)])
  }

  /**
   * How the token endpoint reads Basic credentials (section 2 of RFC 7617):
   * the user-id ends at the first colon and the password is the rest.
   */
  function SplitCredentials(s: string): Option<(string, string)>
  {
    if s == [] then None
    else if s[0] == ':' then Some(([], s[1..]))
    else
      match SplitCredentials(s[1..])
      case None => None
      case Some((user, password)) => Some(([s[0]] + user, password))
  }

  lemma {:induction false} SplitJoinedCredentials(user: string, password: string)
    requires ':' !in user
    ensures SplitCredentials(user + ":" + password) == Some((user, password))
  {
    if user != [] {
      assert (user + ":" + password)[1..] == user[1..] + ":" + password;
      assert forall c :: c in user[1..] ==> c in user;
      SplitJoinedCredentials(user[1..], password);
      assert [user[0]] + user[1..] == user;
    } else {
      assert (user + ":" + password)[1..] == password;
    }
  }

  /**
   * `getAccessToken()` followed by `const { access_token } = ...`: the access
   * token, or `None` when something throws (the fetch is rejected, the status
   * is not ok, the body does not parse, or the body is `null`).
   */
  function AccessToken(reply: Reply<TokenBody>): (r: Option<JsValue>)
    ensures r.Some? <==>
      reply.Reply? && Ok(reply.status) && reply.body.Parsed? && reply.body.value.TokenObject?
    ensures r.Some? ==> r.value == reply.body.value.accessToken
  {
    match reply
    case NetworkFailure => None
    case Reply(status, body) =>
      if !Ok(status) then None
      else
        match body
        case ParseFailed => None
        case Parsed(TokenNull) => None
        case Parsed(TokenObject(token)) => Some(token)
  }

  /** The `Authorization` header of the playback query. */
  function BearerHeader(token: JsValue): string
  {
    "Bearer " + Interpolate(token)
  }

  /**
   * What the handler answers once the playback reply is in: 204 and 'not
   * playing' for status 204 (tested before `ok`, so that body is never read),
   * the upstream status and 'unable to fetch' for any other status outside
   * 200-299, the snapshot with status 200 otherwise, and 500 when reading or
   * normalising the body throws.
   */
  function PlaybackResponse(reply: Reply<Body>): Response
  {
    match reply
    case NetworkFailure => InternalError
    case Reply(status, body) =>
      if status == 204 then Response(204, ErrorBody(NotPlayingMessage))
      else if !Ok(status) then Response(status, ErrorBody(FetchFailedMessage))
      else
        match body
        case ParseFailed => InternalError
        case Parsed(song) =>
          match Normalize(song)
          case None => InternalError
          case Some(snap) => Response(200, SnapshotBody(snap))
  }

  /**
   * The handler: the token request is always issued first; the playback
   * query only when a token was obtained, carrying `Bearer <access_token>`.
   */
  function Handle(cfg: Config, token: Reply<TokenBody>, playback: Reply<Body>): (x: Exchange)
    ensures 1 <= |x.issued| <= 2
    ensures x.issued[0] == TokenRequestOf(cfg)
    ensures |x.issued| == 2 <==> AccessToken(token).Some?
    ensures |x.issued| == 2 ==> x.issued[1] == PlaybackRequest(BearerHeader(AccessToken(token).value))
    ensures |x.issued| == 1 ==> x.response == InternalError
  {
    match AccessToken(token)
    case None => Exchange([TokenRequestOf(cfg)], InternalError)
    case Some(accessToken) =>
      Exchange([TokenRequestOf(cfg), PlaybackRequest(BearerHeader(accessToken))], PlaybackResponse(playback))
  }

  // ---------------------------------------------------------------------------
  // Properties
  // ---------------------------------------------------------------------------

  /**
   * The decision table once a token is obtained, by playback status: 204 gives
   * 204 'not playing', any other status outside 200-299 passes through with
   * 'unable to fetch', and an ok status gives 200 with the normalised body or
   * 500 when the body cannot be read.
   */
  lemma PlaybackDispatch(cfg: Config, token: Reply<TokenBody>, playback: Reply<Body>)
    requires AccessToken(token).Some?
    ensures var r := Handle(cfg, token, playback).response;
      match playback
      case NetworkFailure => r == InternalError
      case Reply(status, body) =>
        if status == 204 then r == Response(204, ErrorBody("Currently Not Playing"))
        else if status < 200 || status > 299 then r == Response(status, ErrorBody("Unable to Fetch Song"))
        else if body.Parsed? && Normalize(body.value).Some? then
          r == Response(200, SnapshotBody(Normalize(body.value).value))
        else r == Response(500, ErrorBody("Internal Error"))
  {
  }

  /**
   * A failed token exchange answers 500 'Internal Error' and issues no
   * playback query.
   */
  lemma TokenFailureAnswers500(cfg: Config, token: Reply<TokenBody>, playback: Reply<Body>)
    requires token.NetworkFailure? || !Ok(token.status) || token.body.ParseFailed? || token.body.value.TokenNull?
    ensures Handle(cfg, token, playback) == Exchange([TokenRequestOf(cfg)], Response(500, ErrorBody("Internal Error")))
  {
  }

  /**
   * No credential reaches the response: the response does not depend on the
   * client id, the secret, the refresh token or the access token, only on
   * whether a token was obtained and on the playback reply.
   */
  lemma ResponseIndependentOfCredentials(
    cfg1: Config, token1: Reply<TokenBody>, cfg2: Config, token2: Reply<TokenBody>, playback: Reply<Body>)
    requires AccessToken(token1).Some? == AccessToken(token2).Some?
    ensures Handle(cfg1, token1, playback).response == Handle(cfg2, token2, playback).response
  {
  }

  /**
   * Every response either carries a snapshot with status 200 or one of the
   * three fixed error messages: a snapshot is sent exactly when the status is 200.
   */
  lemma ResponseShapes(cfg: Config, token: Reply<TokenBody>, playback: Reply<Body>)
    ensures var r := Handle(cfg, token, playback).response;
      (r.body.SnapshotBody? <==> r.status == 200) &&
      (r.body.ErrorBody? ==> r.body.error in {NotPlayingMessage, FetchFailedMessage, InternalErrorMessage})
  {
  }

  /**
   * The token endpoint reads back exactly the configured client id and secret
   * from the Basic credentials, provided the id holds no colon (which
   * section 2 of RFC 7617 forbids in a user-id); the form asks for the
   * refresh-token grant with the configured refresh token.
   */
  lemma TokenRequestCarriesCredentials(cfg: Config, token: Reply<TokenBody>, playback: Reply<Body>)
    requires ':' !in cfg.clientId
    ensures var req := Handle(cfg, token, playback).issued[0];
      && req.TokenRequest?
      && SplitCredentials(req.basicCredentials) == Some((cfg.clientId, cfg.clientSecret))
      && req.form == [("grant_type", "refresh_token"), ("refresh_token", cfg.refreshToken)]
  {
    SplitJoinedCredentials(cfg.clientId, cfg.clientSecret);
  }

  /**
   * The client id, secret and refresh token reach only the token endpoint:
   * every later request, and the response, are the same for any configuration.
   */
  lemma CredentialsReachOnlyTokenEndpoint(cfg1: Config, cfg2: Config, token: Reply<TokenBody>, playback: Reply<Body>)
    ensures Handle(cfg1, token, playback).issued[1..] == Handle(cfg2, token, playback).issued[1..]
    ensures Handle(cfg1, token, playback).response == Handle(cfg2, token, playback).response
  {
  }

  /** The token request is sent before any reply is known: it depends on no reply. */
  lemma TokenRequestPrecedesReplies(
    cfg: Config, token1: Reply<TokenBody>, playback1: Reply<Body>, token2: Reply<TokenBody>, playback2: Reply<Body>)
    ensures Handle(cfg, token1, playback1).issued[0] == Handle(cfg, token2, playback2).issued[0]
  {
  }

  /** A playback request carries the access token from the token reply, even an absent one. */
  lemma BearerCarriesToken(cfg: Config, playback: Reply<Body>, t: string)
    ensures Handle(cfg, Reply(200, Parsed(TokenObject(Str(t)))), playback).issued[1] ==
      PlaybackRequest("Bearer " + t)
    ensures Handle(cfg, Reply(200, Parsed(TokenObject(Undefined))), playback).issued[1] ==
      PlaybackRequest("Bearer undefined")
  {
  }
}
