/**
 * The client-credentials exchange shared by the three Cognito token managers
 * (admin backend, quickstart notebooks, SDK): the request sent to the user
 * pool's token endpoint, how an answer becomes a token and an expiry, and
 * the cache rule of get_token. Time is whole seconds; the POST is an answer
 * value the caller supplies.
 */
module CognitoTokens {
  import Text
  import opened Wrappers

  /** Seconds taken off expires_in to allow for latency. */
  const LatencyMargin: int := 60

  const GrantType: string := "client_credentials"
  const Scope: string := "genaifoundations/read"

  /** The form POST of _fetch_token_with_secret. */
  datatype TokenRequest = TokenRequest(url: string, authorization: string, grantType: string, clientId: string, scope: string)

  /** The token endpoint's answer: the POST raised, or a status with the JSON fields and the body text. */
  datatype TokenAnswer =
    | PostRaised(reason: string)
    | Answered(status: int, expiresIn: int, accessToken: string, text: string)

  /** What a token manager caches: the token (None before the first fetch) and its expiry. */
  datatype Cache = Cache(token: Option<string>, expiry: int)

  /** A new manager holds no token and expiry 0. */
  const Fresh: Cache := Cache(None, 0)

  /** The Basic credentials before base64 encoding: "<client_id>:<client_secret>". */
  function Credentials(clientId: string, clientSecret: string): (r: string)
    ensures |r| == |clientId| + 1 + |clientSecret|
    ensures r[..|clientId|] == clientId && r[|clientId|] == ':' && r[|clientId| + 1..] == clientSecret
  {
    clientId + ":" + clientSecret
  }

  /** The request for a client's token at a Cognito domain. */
  function Request(clientId: string, clientSecret: string, domain: string): (r: TokenRequest)
    ensures r.url == "https://" + domain + "/oauth2/token"
    ensures r.authorization == "Basic " + Credentials(clientId, clientSecret)
    ensures r.grantType == GrantType && r.scope == Scope && r.clientId == clientId
  {
    TokenRequest("https://" + domain + "/oauth2/token", "Basic " + Credentials(clientId, clientSecret), GrantType, clientId, Scope)
  }

  /** The message of the exception raised for a non-200 answer. */
  function FailureMessage(status: int, text: string): string
  {
    "Failed to get access token: " + Text.IntText(status) + " " + text
  }

  /**
   * The outcome of the exchange answered at second answeredAt: on 200 the access token and
   * the expiry answeredAt + expires_in - 60; otherwise the error raised.
   */
  function Exchange(answer: TokenAnswer, answeredAt: int): (r: Result<(string, int), string>)
    ensures r.Ok? <==> answer.Answered? && answer.status == 200
    ensures r.Ok? ==> r.value == (answer.accessToken, answeredAt + answer.expiresIn - LatencyMargin)
    ensures answer.Answered? && answer.status != 200 ==> r == Err(FailureMessage(answer.status, answer.text))
  {
    match answer
    case PostRaised(reason) => Err(reason)
    case Answered(status, expiresIn, accessToken, text) =>
      if status == 200 then Ok((accessToken, answeredAt + expiresIn - LatencyMargin))
      else Err(FailureMessage(status, text))
  }

  /** get_token fetches when there is no token yet or the clock has reached the expiry. */
  predicate NeedsFetch(c: Cache, now: int)
  {
    c.token.None? || now >= c.expiry
  }

  /**
   * get_token as a function of the cache, the clock and the fetch it would make: the cached
   * token while it is valid; otherwise the fetched token and expiry, or the error with the
   * cache as it was.
   */
  function Refreshed(c: Cache, now: int, fetched: Result<(string, int), string>): (r: (Result<string, string>, Cache))
    ensures !NeedsFetch(c, now) ==> r == (Ok(c.token.value), c)
    ensures NeedsFetch(c, now) && fetched.Ok? ==> r == (Ok(fetched.value.0), Cache(Some(fetched.value.0), fetched.value.1))
    ensures NeedsFetch(c, now) && fetched.Err? ==> r == (Err(fetched.error), c)
  {
    if !NeedsFetch(c, now) then (Ok(c.token.value), c)
    else match fetched
      case Ok((t, e)) => (Ok(t), Cache(Some(t), e))
      case Err(m) => (Err(m), c)
  }

  /** The first get_token of a new manager always fetches. */
  lemma FreshNeedsFetch(now: int)
    ensures NeedsFetch(Fresh, now)
  {
  }

  /**
   * After a 200 answer with expires_in above the margin, a get_token at any time before the
   * new expiry returns the fetched token and makes no second exchange.
   */
  lemma FetchedTokenReused(c: Cache, now: int, answer: TokenAnswer, answeredAt: int, later: int, next: Result<(string, int), string>)
    requires NeedsFetch(c, now) && answer.Answered? && answer.status == 200
    requires later < answeredAt + answer.expiresIn - LatencyMargin
    ensures var c1 := Refreshed(c, now, Exchange(answer, answeredAt)).1;
      !NeedsFetch(c1, later) && Refreshed(c1, later, next) == (Ok(answer.accessToken), c1)
  {
  }

  /** A token whose expires_in is at most 60 seconds is already expired when it arrives. */
  lemma ShortLivedTokenExpired(c: Cache, now: int, answer: TokenAnswer, answeredAt: int)
    requires NeedsFetch(c, now) && answer.Answered? && answer.status == 200 && answer.expiresIn <= LatencyMargin
    ensures NeedsFetch(Refreshed(c, now, Exchange(answer, answeredAt)).1, answeredAt)
  {
  }

  /** A failed exchange leaves the cache as it was, so the next call fetches again. */
  lemma FailedFetchRetries(c: Cache, now: int, answer: TokenAnswer, answeredAt: int)
    requires NeedsFetch(c, now) && !(answer.Answered? && answer.status == 200)
    ensures Refreshed(c, now, Exchange(answer, answeredAt)).1 == c
    ensures NeedsFetch(Refreshed(c, now, Exchange(answer, answeredAt)).1, now)
  {
  }
}
