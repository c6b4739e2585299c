/**
 * The admin backend's Cognito token manager: it caches the platform client's
 * token, reads the client secret from the user-pool client description before
 * every fetch, and checks a token's key id against the pool's public keys.
 * The Cognito description, the token POST, the public-key download and the
 * RSA verification are parameters.
 */
module AdminTokens {
  import opened Wrappers
  import CT = CognitoTokens

  /** What a fetch yields when the client description is read first and then used in the exchange. */
  function DescribedFetch(clientId: string, domain: string, describe: Result<string, string>,
                          post: CT.TokenRequest -> CT.TokenAnswer, answeredAt: int): (r: Result<(string, int), string>)
    ensures describe.Err? ==> r == Err(describe.error)
    ensures describe.Ok? ==> r == CT.Exchange(post(CT.Request(clientId, describe.value, domain)), answeredAt)
  {
    match describe
    case Err(e) => Err(e)
    case Ok(secret) => CT.Exchange(post(CT.Request(clientId, secret, domain)), answeredAt)
  }

  /** One entry of the pool's JWKS: its kid when it has one, and its key material. */
  datatype Jwk = Jwk(kid: Option<string>, material: string)

  /**
   * The key loop of validate_token_signature: the first key whose kid equals the header's
   * kid, None when no key matches, Err when a key or the header lacks "kid" (a KeyError).
   */
  function KeySearch(keys: seq<Jwk>, kid: Option<string>): Result<Option<Jwk>, string>
  {
    if keys == [] then Ok(None)
    else if keys[0].kid.None? || kid.None? then Err("KeyError: 'kid'")
    else if keys[0].kid == kid then Ok(Some(keys[0]))
    else KeySearch(keys[1..], kid)
  }

  /** A selected key is the first key carrying the header's kid. */
  lemma {:induction false} KeySearchFirst(keys: seq<Jwk>, kid: Option<string>)
    ensures KeySearch(keys, kid).Ok? && KeySearch(keys, kid).value.Some? ==>
      exists i :: 0 <= i < |keys| && keys[i] == KeySearch(keys, kid).value.value && keys[i].kid == kid && kid.Some? &&
        forall j :: 0 <= j < i ==> keys[j].kid != kid
    ensures (forall i :: 0 <= i < |keys| ==> keys[i].kid != kid) ==> !(KeySearch(keys, kid).Ok? && KeySearch(keys, kid).value.Some?)
  {
    if keys != [] && keys[0].kid.Some? && kid.Some? && keys[0].kid != kid {
      KeySearchFirst(keys[1..], kid);
      var r := KeySearch(keys, kid);
      if r.Ok? && r.value.Some? {
        var i :| 0 <= i < |keys[1..]| && keys[1..][i] == r.value.value && keys[1..][i].kid == kid && kid.Some? &&
          forall j :: 0 <= j < i ==> keys[1..][j].kid != kid;
        assert keys[i + 1] == r.value.value;
        assert forall j :: 0 <= j < i + 1 ==> keys[j].kid != kid by {
          forall j | 0 <= j < i + 1 ensures keys[j].kid != kid {
            if j > 0 {
              assert keys[j] == keys[1..][j - 1];
            }
          }
        }
      }
      if forall i :: 0 <= i < |keys| ==> keys[i].kid != kid {
        assert forall i :: 0 <= i < |keys[1..]| ==> keys[1..][i].kid != kid by {
          forall i | 0 <= i < |keys[1..]| ensures keys[1..][i].kid != kid {
            assert keys[1..][i] == keys[i + 1];
          }
        }
      }
    }
  }

  /**
   * validate_token_signature: true exactly when the keys were fetched, the token header was
   * read, the key search selected a key and that key verifies the token; every failure is false.
   */
  predicate SignatureValid(keys: Result<seq<Jwk>, string>, header: Result<Option<string>, string>, verifies: Jwk -> bool)
  {
    keys.Ok? && header.Ok? &&
    var found := KeySearch(keys.value, header.value);
    found.Ok? && found.value.Some? && verifies(found.value.value)
  }

  /** A token whose header kid no key carries is refused, whatever the verification would say. */
  lemma UnknownKidRefused(keys: seq<Jwk>, kid: Option<string>, verifies: Jwk -> bool)
    requires forall i :: 0 <= i < |keys| ==> keys[i].kid != kid
    ensures !SignatureValid(Ok(keys), Ok(kid), verifies)
  {
    KeySearchFirst(keys, kid);
  }

  /** The admin backend's token manager. */
  class TokenManager {
    var clientId: string
    var clientSecret: string
    var userPoolId: string
    var region: string
    var domain: string
    var token: Option<string>
    var expiry: int

    /** The cached token and expiry. */
    function Cached(): CT.Cache
      reads this
    {
      CT.Cache(token, expiry)
    }

    /** The secret argument is ignored: the manager starts with "" and no token. */
    constructor(clientId: string, clientSecret: string, userPoolId: string, region: string, domain: string)
      ensures this.clientId == clientId && this.clientSecret == ""
      ensures this.userPoolId == userPoolId && this.region == region && this.domain == domain
      ensures Cached() == CT.Fresh
    {
      this.clientId := clientId;
      this.clientSecret := "";
      this.userPoolId := userPoolId;
      this.region := region;
      this.token := None;
      this.expiry := 0;
      this.domain := domain;
    }

    /** validate_token_signature: the loop over the keys, breaking at the first matching kid. */
    method ValidateTokenSignature(keys: Result<seq<Jwk>, string>, header: Result<Option<string>, string>, verifies: Jwk -> bool)
      returns (valid: bool)
      ensures valid == SignatureValid(keys, header, verifies)
    {
      if keys.Err? || header.Err? {
        return false;
      }
      var ks := keys.value;
      var kid := header.value;
      var selected: Option<Jwk> := None;
      var i := 0;
      while i < |ks|
        invariant 0 <= i <= |ks|
        invariant selected.None? ==> KeySearch(ks, kid) == KeySearch(ks[i..], kid)
        invariant selected.Some? ==> KeySearch(ks, kid) == Ok(selected)
        decreases |ks| - i
      {
        if ks[i].kid.None? || kid.None? {
          return false;
        }
        if ks[i].kid == kid {
          selected := Some(ks[i]);
          break;
        }
        assert ks[i..][1..] == ks[i + 1..];
        i := i + 1;
      }
      if selected.Some? {
        valid := verifies(selected.value);
      } else {
        valid := false;
      }
    }

    /**
     * _fetch_token_with_secret: POST the client credentials; on 200 set the expiry and
     * return the access token, otherwise raise. The token itself is stored by the caller.
     */
    method FetchTokenWithSecret(post: CT.TokenRequest -> CT.TokenAnswer, answeredAt: int) returns (r: Result<string, string>)
      modifies this
      ensures var x := CT.Exchange(post(CT.Request(clientId, clientSecret, domain)), answeredAt);
        (x.Ok? ==> r == Ok(x.value.0) && expiry == x.value.1) &&
        (x.Err? ==> r == Err(x.error) && expiry == old(expiry))
      ensures token == old(token) && clientId == old(clientId) && clientSecret == old(clientSecret)
      ensures userPoolId == old(userPoolId) && region == old(region) && domain == old(domain)
    {
      var answer := post(CT.Request(clientId, clientSecret, domain));
      var x := CT.Exchange(answer, answeredAt);
      if x.Ok? {
        expiry := x.value.1;
        r := Ok(x.value.0);
      } else {
        r := Err(x.error);
      }
    }

    /** _fetch_token: store the secret read from the user-pool client, then fetch with it. */
    method FetchToken(describe: Result<string, string>, post: CT.TokenRequest -> CT.TokenAnswer, answeredAt: int)
      returns (r: Result<string, string>)
      modifies this
      ensures var x := DescribedFetch(old(clientId), old(domain), describe, post, answeredAt);
        (x.Ok? ==> r == Ok(x.value.0) && expiry == x.value.1) &&
        (x.Err? ==> r == Err(x.error) && expiry == old(expiry))
      ensures clientSecret == (if describe.Ok? then describe.value else old(clientSecret))
      ensures token == old(token) && clientId == old(clientId)
      ensures userPoolId == old(userPoolId) && region == old(region) && domain == old(domain)
    {
      if describe.Err? {
        return Err(describe.error);
      }
      clientSecret := describe.value;
      r := FetchTokenWithSecret(post, answeredAt);
    }

    /** get_token: the cached token while valid, otherwise a fetch whose token is cached. */
    method GetToken(now: int, describe: Result<string, string>, post: CT.TokenRequest -> CT.TokenAnswer, answeredAt: int)
      returns (r: Result<string, string>)
      modifies this
      ensures (r, Cached()) == CT.Refreshed(old(Cached()), now, DescribedFetch(old(clientId), old(domain), describe, post, answeredAt))
      ensures clientSecret == (if CT.NeedsFetch(old(Cached()), now) && describe.Ok? then describe.value else old(clientSecret))
      ensures clientId == old(clientId) && userPoolId == old(userPoolId) && region == old(region) && domain == old(domain)
    {
      if token.None? || now >= expiry {
        r := FetchToken(describe, post, answeredAt);
        if r.Ok? {
          token := Some(r.value);
        }
      } else {
        r := Ok(token.value);
      }
    }
  }
}
