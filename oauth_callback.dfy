/**
 * The OAuth redirect target: it checks the query parameters, exchanges the
 * authorization code for tokens (an external call, here its result), and
 * upserts the credential record of the chat number given in the `phone`
 * parameter.
 */
module OAuthCallback {
  import opened Wrappers
  import opened GoogleAuth
  import opened Store

  /** The token set the code exchange returns; any field may be missing. */
  datatype ExchangedTokens = ExchangedTokens(accessToken: Option<string>, refreshToken: Option<string>, expiryDate: Option<int>)

  /** Where the browser is sent: the error page with its message, or the success page with the number. */
  datatype Redirect = ErrorPage(message: string) | SuccessPage(phone: string)

  const MissingParameters := "Missing parameters"
  const FailedToGetTokens := "Failed to get tokens"
  const DatabaseError := "Database error"
  const AuthenticationFailed := "Authentication failed"
  const OneHourMs := 3600000

  /** The `google_oauth_token` record stored for a usable exchange. */
  function StoredTokens(x: ExchangedTokens, now: int): (t: Tokens)
    requires Truthy(x.accessToken) && Truthy(x.refreshToken)
    ensures t.accessToken == x.accessToken.value && t.refreshToken == x.refreshToken.value
    ensures x.expiryDate.Some? && x.expiryDate.value != 0 ==> t.expiresAt == x.expiryDate.value
    ensures x.expiryDate.None? || x.expiryDate.value == 0 ==> t.expiresAt == now + OneHourMs
  {
    Tokens(x.accessToken.value, x.refreshToken.value,
           if x.expiryDate.Some? && x.expiryDate.value != 0 then x.expiryDate.value else now + OneHourMs)
  }

  /**
   * The callback on store `s`. `exchange` is the code exchange (`None` when
   * it throws), `storeFailed` whether the upsert reported an error, and
   * `state` the parameter the handler reads and never uses.
   */
  function Callback(s: Ledger, code: Option<string>, phone: Option<string>, state: Option<string>,
                    exchange: Option<ExchangedTokens>, storeFailed: bool, now: int): (r: (Ledger, Redirect))
    ensures !Truthy(code) || !Truthy(phone) ==> r == (s, ErrorPage(MissingParameters))
    ensures r.1.ErrorPage? ==> r.0 == s
    ensures r.1.ErrorPage? ==> r.1.message in {MissingParameters, FailedToGetTokens, DatabaseError, AuthenticationFailed}
    ensures Truthy(code) && Truthy(phone) && exchange.None? ==> r.1 == ErrorPage(AuthenticationFailed)
    ensures Truthy(code) && Truthy(phone) && exchange.Some? &&
            (!Truthy(exchange.value.accessToken) || !Truthy(exchange.value.refreshToken)) ==>
              r.1 == ErrorPage(FailedToGetTokens)
    ensures Truthy(code) && Truthy(phone) && exchange.Some? &&
            Truthy(exchange.value.accessToken) && Truthy(exchange.value.refreshToken) && storeFailed ==>
              r.1 == ErrorPage(DatabaseError)
    ensures r.1.SuccessPage? <==>
              Truthy(code) && Truthy(phone) && exchange.Some? && !storeFailed
              && Truthy(exchange.value.accessToken) && Truthy(exchange.value.refreshToken)
    ensures r.1.SuccessPage? ==> r.1.phone == phone.value && r.0 == Upsert(s, phone.value, StoredTokens(exchange.value, now))
    ensures LedgerValid(s) ==> LedgerValid(r.0)
  {
    if !Truthy(code) || !Truthy(phone) then (s, ErrorPage(MissingParameters))
    else
      match exchange
      case None => (s, ErrorPage(AuthenticationFailed))
      case Some(x) =>
        if !Truthy(x.accessToken) || !Truthy(x.refreshToken) then (s, ErrorPage(FailedToGetTokens))
        else if storeFailed then (s, ErrorPage(DatabaseError))
        else (Upsert(s, phone.value, StoredTokens(x, now)), SuccessPage(phone.value))
  }

  /** After a successful callback the number's stored credentials are exactly the exchanged ones. */
  lemma CallbackStoresExchangedTokens(s: Ledger, code: Option<string>, phone: Option<string>, state: Option<string>,
                                      exchange: Option<ExchangedTokens>, now: int)
    requires Callback(s, code, phone, state, exchange, false, now).1.SuccessPage?
    ensures var u := Callback(s, code, phone, state, exchange, false, now).0.users;
            phone.value in u && u[phone.value].tokens == StoredTokens(exchange.value, now)
            && forall p :: p in s.users && p != phone.value ==> p in u && u[p] == s.users[p]
  {
  }

  /** The `state` query parameter has no influence on the outcome. */
  /** The callback keeps user identifiers distinct; a number seen for the first time gets a fresh one. */
  lemma CallbackKeepsUserIds(s: Ledger, code: Option<string>, phone: Option<string>, state: Option<string>,
                             exchange: Option<ExchangedTokens>, storeFailed: bool, now: int)
    requires UserIdsValid(s)
    ensures var u := Callback(s, code, phone, state, exchange, storeFailed, now).0;
            UserIdsValid(u) &&
            forall p, q :: p in u.users && q in s.users && p !in s.users ==> u.users[p].id != s.users[q].id
  {
  }

  lemma CallbackIgnoresState(s: Ledger, code: Option<string>, phone: Option<string>, state1: Option<string>,
                             state2: Option<string>, exchange: Option<ExchangedTokens>, storeFailed: bool, now: int)
    ensures Callback(s, code, phone, state1, exchange, storeFailed, now)
         == Callback(s, code, phone, state2, exchange, storeFailed, now)
  {
  }

  /** The route handler: the store is written only on the success path. */
  method HandleCallback(db: Database, code: Option<string>, phone: Option<string>, state: Option<string>,
                        exchange: Option<ExchangedTokens>, storeFailed: bool, now: int)
    returns (r: Redirect)
    requires db.Valid()
    modifies db
    ensures db.Valid()
    ensures (db.State(), r) == Callback(old(db.State()), code, phone, state, exchange, storeFailed, now)
  {
    if !Truthy(code) || !Truthy(phone) {
      return ErrorPage(MissingParameters);
    }
    if exchange.None? {
      return ErrorPage(AuthenticationFailed);
    }
    var x := exchange.value;
    if !Truthy(x.accessToken) || !Truthy(x.refreshToken) {
      return ErrorPage(FailedToGetTokens);
    }
    if storeFailed {
      return ErrorPage(DatabaseError);
    }
    db.UpsertUser(phone.value, StoredTokens(x, now));
    r := SuccessPage(phone.value);
  }
}
