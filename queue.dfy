/**
 * `PayoutsQueue`: the cached PayPal credential, the cached payout-method
 * catalog and the registry of per-user payout locks. The clock, the
 * gateways' answers and the JSON decoder of the product list are
 * parameters; times are whole seconds.
 */
module Queue {
  import opened Wrappers
  import opened Gateway
  import opened Catalog
  import opened Ids

  /** The identity of a lock handle (`Arc<Mutex<()>>`): two handles are the
      same lock exactly when their identities are equal. */
  type LockHandle = nat

  datatype PayPalCredentials = PayPalCredentials(accessToken: string, tokenType: string, expires: int)

  datatype PayoutMethods = PayoutMethods(options: seq<PayoutMethod>, expires: int)

  /** The answer to the OAuth token request: it could not be sent, its body
      did not have the token shape, or the token with its lifetime. */
  datatype TokenResponse =
    | TokenUnreachable
    | TokenMalformed
    | TokenGranted(accessToken: string, tokenType: string, expiresIn: int)

  /** The catalog is kept for six hours. */
  const CatalogLifetime: int := 6 * 60 * 60

  const AuthenticationFailed := Payments("Error while authenticating with PayPal")
  const AuthenticationMalformed := Payments("Error while authenticating with PayPal (deser error)")

  class PayoutsQueue {
    var credential: Option<PayPalCredentials>
    var payoutOptions: Option<PayoutMethods>
    var payoutsLocks: map<UserId, LockHandle>
    /** Every handle issued so far is below this bound; a new handle takes it. */
    var nextHandle: nat

    /** The registry hands out distinct handles to distinct users. */
    ghost predicate Valid()
      reads this
    {
      && (forall u :: u in payoutsLocks ==> payoutsLocks[u] < nextHandle)
      && (forall u, v :: u in payoutsLocks && v in payoutsLocks && u != v ==> payoutsLocks[u] != payoutsLocks[v])
    }

    constructor ()
      ensures Valid()
      ensures credential == None && payoutOptions == None && payoutsLocks == map[]
    {
      credential := None;
      payoutOptions := None;
      payoutsLocks := map[];
      nextHandle := 0;
    }

    /** `refresh_token`: a granted token replaces the cached credential and
        expires `expiresIn` seconds after `now`; a failure leaves the cache
        as it was. */
    method RefreshToken(now: int, response: TokenResponse) returns (r: Result<PayPalCredentials, ApiError>)
      modifies this`credential
      ensures old(Valid()) ==> Valid()
      ensures response.TokenGranted? ==>
        && r == Ok(PayPalCredentials(response.accessToken, response.tokenType, now + response.expiresIn))
        && credential == Some(r.value)
      ensures response.TokenUnreachable? ==> r == Err(AuthenticationFailed) && credential == old(credential)
      ensures response.TokenMalformed? ==> r == Err(AuthenticationMalformed) && credential == old(credential)
    {
      match response
      case TokenUnreachable =>
        r := Err(AuthenticationFailed);
      case TokenMalformed =>
        r := Err(AuthenticationMalformed);
      case TokenGranted(accessToken, tokenType, expiresIn) =>
        var newCreds := PayPalCredentials(accessToken, tokenType, now + expiresIn);
        credential := Some(newCreds);
        r := Ok(newCreds);
    }

    /** The credential lookup at the start of `make_paypal_request`: a
        cached credential whose expiry has not passed is used as it is;
        otherwise the token is refreshed, and any refresh failure becomes
        the plain authentication error. */
    method ValidCredential(now: int, token: TokenResponse) returns (r: Result<PayPalCredentials, ApiError>)
      modifies this`credential
      ensures old(Valid()) ==> Valid()
      ensures old(credential).Some? && old(credential).value.expires >= now ==>
        r == Ok(old(credential).value) && credential == old(credential)
      ensures !(old(credential).Some? && old(credential).value.expires >= now) ==>
        if token.TokenGranted? then
          && r == Ok(PayPalCredentials(token.accessToken, token.tokenType, now + token.expiresIn))
          && credential == Some(r.value)
        else r == Err(AuthenticationFailed) && credential == old(credential)
      ensures r.Ok? && (token.TokenGranted? ==> token.expiresIn >= 0) ==> r.value.expires >= now
    {
      if credential.Some? && !(credential.value.expires < now) {
        r := Ok(credential.value);
      } else {
        var refreshed := RefreshToken(now, token);
        if refreshed.Err? {
          r := Err(AuthenticationFailed);
        } else {
          r := refreshed;
        }
      }
    }

    /** `make_paypal_request` without the request itself: the credential
        lookup, then the classification of the response. */
    method MakePayPalRequest(now: int, token: TokenResponse, response: Option<HttpResponse>)
      returns (r: Result<Json, ApiError>)
      modifies this`credential
      ensures old(Valid()) ==> Valid()
      ensures old(credential).Some? && old(credential).value.expires >= now ==>
        r == ClassifyPayPal(response) && credential == old(credential)
      ensures !(old(credential).Some? && old(credential).value.expires >= now) ==>
        if token.TokenGranted? then
          && r == ClassifyPayPal(response)
          && credential == Some(PayPalCredentials(token.accessToken, token.tokenType, now + token.expiresIn))
        else r == Err(AuthenticationFailed) && credential == old(credential)
    {
      var credentials := ValidCredential(now, token);
      if credentials.Err? {
        return Err(credentials.error);
      }
      r := ClassifyPayPal(response);
    }

    /** `get_payout_methods`: a cached catalog whose expiry has not passed is
        returned as it is. Otherwise the product list is requested: the
        response is classified, decoded with `decodeProducts`, and the
        catalog built from it is stored with an expiry six hours after
        `now` and returned; any failure leaves the cache unchanged. */
    method GetPayoutMethods(
      now: int,
      response: Option<HttpResponse>,
      decodeProducts: Json -> Option<seq<Product>>,
      isoCodes: seq<string>)
      returns (r: Result<seq<PayoutMethod>, ApiError>)
      modifies this`payoutOptions
      ensures old(Valid()) ==> Valid()
      ensures old(payoutOptions).Some? && old(payoutOptions).value.expires >= now ==>
        r == Ok(old(payoutOptions).value.options) && payoutOptions == old(payoutOptions)
      ensures !(old(payoutOptions).Some? && old(payoutOptions).value.expires >= now) ==>
        match ClassifyTremendous(response)
        case Err(e) => r == Err(e) && payoutOptions == old(payoutOptions)
        case Ok(body) =>
          match decodeProducts(body)
          case None => r == Err(JsonError) && payoutOptions == old(payoutOptions)
          case Some(products) =>
            && payoutOptions == Some(PayoutMethods(CatalogOf(products, isoCodes), now + CatalogLifetime))
            && r == Ok(payoutOptions.value.options)
    {
      if payoutOptions.Some? && !(payoutOptions.value.expires < now) {
        r := Ok(payoutOptions.value.options);
        return;
      }
      var refreshed := RefreshPayoutMethods(now, response, decodeProducts, isoCodes);
      if refreshed.Err? {
        return Err(refreshed.error);
      }
      r := Ok(refreshed.value.options);
    }

    /** `refresh_payout_methods`: fetch, build and store the catalog. */
    method RefreshPayoutMethods(
      now: int,
      response: Option<HttpResponse>,
      decodeProducts: Json -> Option<seq<Product>>,
      isoCodes: seq<string>)
      returns (r: Result<PayoutMethods, ApiError>)
      modifies this`payoutOptions
      ensures old(Valid()) ==> Valid()
      ensures match ClassifyTremendous(response)
        case Err(e) => r == Err(e) && payoutOptions == old(payoutOptions)
        case Ok(body) =>
          match decodeProducts(body)
          case None => r == Err(JsonError) && payoutOptions == old(payoutOptions)
          case Some(products) =>
            && r == Ok(PayoutMethods(CatalogOf(products, isoCodes), now + CatalogLifetime))
            && payoutOptions == Some(r.value)
    {
      var classified := ClassifyTremendous(response);
      if classified.Err? {
        return Err(classified.error);
      }
      var decoded := decodeProducts(classified.value);
      if decoded.None? {
        return Err(JsonError);
      }
      var methods := BuildCatalog(decoded.value, isoCodes);
      var newOptions := PayoutMethods(methods, now + CatalogLifetime);
      payoutOptions := Some(newOptions);
      r := Ok(newOptions);
    }

    /** `lock_user_payouts`: the handle registered for `user`, or a new one
        registered now. Distinct users never share a handle. */
    method LockUserPayouts(user: UserId) returns (h: LockHandle)
      requires Valid()
      modifies this`payoutsLocks, this`nextHandle
      ensures Valid()
      ensures user in payoutsLocks && payoutsLocks[user] == h
      ensures user in old(payoutsLocks) ==>
        h == old(payoutsLocks)[user] && payoutsLocks == old(payoutsLocks) && nextHandle == old(nextHandle)
      ensures user !in old(payoutsLocks) ==>
        payoutsLocks == old(payoutsLocks)[user := h] && h !in old(payoutsLocks).Values
    {
      if user in payoutsLocks {
        h := payoutsLocks[user];
      } else {
        h := nextHandle;
        assert h !in payoutsLocks.Values by {
          forall u | u in payoutsLocks ensures payoutsLocks[u] != h {
          }
        }
        payoutsLocks := payoutsLocks[user := h];
        nextHandle := nextHandle + 1;
      }
    }
  }
}
