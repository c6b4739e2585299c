/**
 * The quickstart notebooks' Cognito token manager. Its get_token refreshes
 * through a method the class does not define, so every refresh raises an
 * AttributeError; the corrected refresh goes through _fetch_token_with_secret,
 * which checks the HTTP status (raise_for_status) before the 200 test.
 */
module QuickstartTokens {
  import Text
  import opened Wrappers
  import CT = CognitoTokens

  /** The AttributeError raised by the call to the undefined _fetch_token. */
  const MissingFetch: string := "'CognitoTokenManager' object has no attribute '_fetch_token'"

  /** The HTTPError of raise_for_status, which fires for every status from 400 to 599. */
  function StatusError(status: int, url: string): string
  {
    Text.IntText(status) + (if status < 500 then " Client Error" else " Server Error") + " for url: " + url
  }

  /**
   * _fetch_token_with_secret: raise_for_status first, then the 200 test. A 4xx or 5xx answer
   * raises the HTTPError; any other non-200 answer raises the "Failed to get access token" error.
   */
  function CheckedExchange(answer: CT.TokenAnswer, url: string, answeredAt: int): (r: Result<(string, int), string>)
    ensures answer.Answered? && 400 <= answer.status < 600 ==> r == Err(StatusError(answer.status, url))
    ensures !(answer.Answered? && 400 <= answer.status < 600) ==> r == CT.Exchange(answer, answeredAt)
  {
    if answer.Answered? && 400 <= answer.status < 600 then Err(StatusError(answer.status, url))
    else CT.Exchange(answer, answeredAt)
  }

  /** raise_for_status changes only which error is raised: success and its token and expiry are as without it. */
  lemma CheckedExchangeAgrees(answer: CT.TokenAnswer, url: string, answeredAt: int)
    ensures CheckedExchange(answer, url, answeredAt).Ok? <==> CT.Exchange(answer, answeredAt).Ok?
    ensures CheckedExchange(answer, url, answeredAt).Ok? ==> CheckedExchange(answer, url, answeredAt) == CT.Exchange(answer, answeredAt)
  {
  }

  /** get_token as written: a needed refresh always raises, and the cache is left as it was. */
  function GetTokenAsWritten(c: CT.Cache, now: int): (r: (Result<string, string>, CT.Cache))
    ensures r.1 == c
    ensures r.0.Ok? <==> !CT.NeedsFetch(c, now)
  {
    CT.Refreshed(c, now, Err(MissingFetch))
  }

  /** As written, a new manager never serves a token: every call raises and the token stays None. */
  lemma NewManagerNeverServes(now: int, later: int)
    ensures GetTokenAsWritten(CT.Fresh, now) == (Err(MissingFetch), CT.Fresh)
    ensures GetTokenAsWritten(GetTokenAsWritten(CT.Fresh, now).1, later).0.Err?
  {
  }

  /** The corrected get_token: a needed refresh is the checked exchange. */
  function GetTokenCorrected(c: CT.Cache, now: int, answer: CT.TokenAnswer, url: string, answeredAt: int): (r: (Result<string, string>, CT.Cache))
    ensures !CT.NeedsFetch(c, now) ==> r == (Ok(c.token.value), c)
    ensures CT.NeedsFetch(c, now) ==> (r.0.Ok? <==> CheckedExchange(answer, url, answeredAt).Ok?)
    ensures r.0.Err? ==> r.1 == c
  {
    CT.Refreshed(c, now, CheckedExchange(answer, url, answeredAt))
  }

  /** Corrected, a new manager's first call returns the token of a 200 answer and caches it. */
  lemma CorrectedFirstCallServes(now: int, answer: CT.TokenAnswer, url: string, answeredAt: int)
    requires answer.Answered? && answer.status == 200
    ensures GetTokenCorrected(CT.Fresh, now, answer, url, answeredAt)
      == (Ok(answer.accessToken), CT.Cache(Some(answer.accessToken), answeredAt + answer.expiresIn - CT.LatencyMargin))
  {
    CheckedExchangeAgrees(answer, url, answeredAt);
  }

  /** The notebooks' token manager. */
  class TokenManager {
    var clientId: string
    var clientSecret: string
    var userPoolId: string
    var region: string
    var domain: string
    var token: Option<string>
    var expiry: int

    /** The cached token and expiry. */
    function Cached(): CT.Cache
      reads this
    {
      CT.Cache(token, expiry)
    }

    /** The manager keeps the given secret and starts with no token and expiry 0. */
    constructor(clientId: string, clientSecret: string, userPoolId: string, region: string, domain: string)
      ensures this.clientId == clientId && this.clientSecret == clientSecret
      ensures this.userPoolId == userPoolId && this.region == region && this.domain == domain
      ensures Cached() == CT.Fresh
    {
      this.clientId := clientId;
      this.clientSecret := clientSecret;
      this.userPoolId := userPoolId;
      this.region := region;
      this.token := None;
      this.expiry := 0;
      this.domain := domain;
    }

    /** _fetch_token_with_secret: the checked exchange; the expiry is set on success only. */
    method FetchTokenWithSecret(post: CT.TokenRequest -> CT.TokenAnswer, answeredAt: int) returns (r: Result<string, string>)
      modifies this
      ensures var req := CT.Request(clientId, clientSecret, domain);
        var x := CheckedExchange(post(req), req.url, answeredAt);
        (x.Ok? ==> r == Ok(x.value.0) && expiry == x.value.1) &&
        (x.Err? ==> r == Err(x.error) && expiry == old(expiry))
      ensures token == old(token) && clientId == old(clientId) && clientSecret == old(clientSecret)
      ensures userPoolId == old(userPoolId) && region == old(region) && domain == old(domain)
    {
      var req := CT.Request(clientId, clientSecret, domain);
      var answer := post(req);
      if answer.Answered? && 400 <= answer.status < 600 {
        return Err(StatusError(answer.status, req.url));
      }
      var x := CT.Exchange(answer, answeredAt);
      if x.Ok? {
        expiry := x.value.1;
        r := Ok(x.value.0);
      } else {
        r := Err(x.error);
      }
    }

    /** get_token as written: a needed refresh calls the undefined _fetch_token and raises. */
    method GetToken(now: int) returns (r: Result<string, string>)
      modifies this
      ensures (r, Cached()) == GetTokenAsWritten(old(Cached()), now)
      ensures clientId == old(clientId) && clientSecret == old(clientSecret)
      ensures userPoolId == old(userPoolId) && region == old(region) && domain == old(domain)
    {
      if token.None? || now >= expiry {
        r := Err(MissingFetch);
      } else {
        r := Ok(token.value);
      }
    }

    /** get_token refreshing through _fetch_token_with_secret, as the class evidently intends. */
    method GetTokenFixed(now: int, post: CT.TokenRequest -> CT.TokenAnswer, answeredAt: int) returns (r: Result<string, string>)
      modifies this
      ensures var req := CT.Request(old(clientId), old(clientSecret), old(domain));
        (r, Cached()) == GetTokenCorrected(old(Cached()), now, post(req), req.url, answeredAt)
      ensures clientId == old(clientId) && clientSecret == old(clientSecret)
      ensures userPoolId == old(userPoolId) && region == old(region) && domain == old(domain)
    {
      if token.None? || now >= expiry {
        r := FetchTokenWithSecret(post, answeredAt);
        if r.Ok? {
          token := Some(r.value);
        }
      } else {
        r := Ok(token.value);
      }
    }
  }
}
