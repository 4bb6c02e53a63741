/**
 * The authorization-code flow: the authorize URL the user is sent to, the
 * anti-forgery state nonce it carries, and the check of the redirect the local
 * listener captured before its code is handed back.
 */
module Authorize {
  import opened Wrappers
  import opened Errors
  import opened Text
  import opened Config
  import opened Query

  const DefaultPort: int := 3000
  const AuthorizeEndpoint: string := "https://accounts.spotify.com/authorize?"
  const ResponseType: string := "code"

  /** The range the state nonce is drawn from: exactly the ten-digit numbers. */
  const NonceLow: int := 1000000000
  const NonceHigh: int := 9999999999

  /** An authorizer holds the checked credentials and the port of the local redirect listener. */
  datatype Authorizer = Authorizer(credentials: Credentials, port: int)

  /** Construction: raises when a credential is missing or empty; otherwise keeps the port, 3000 by default. */
  function NewAuthorizer(clientId: Option<string>, clientSecret: Option<string>, port: int := DefaultPort)
    : (r: Result<Authorizer, Error>)
    ensures r.Success? <==> Given(clientId) && Given(clientSecret)
    ensures r.Success? ==> r.value == Authorizer(Credentials(clientId.value, clientSecret.value), port)
    ensures r.Failure? ==> r.error == ValueError(MissingCredentials)
  {
    match LoadCredentials(clientId, clientSecret)
    case Failure(e) => Failure(e)
    case Success(c) => Success(Authorizer(c, port))
  }

  predicate ValidNonce(n: int) {
    NonceLow <= n <= NonceHigh
  }

  /** Every nonce in range is written with exactly ten decimal digits. */
  lemma NonceHasTenDigits(n: int)
    requires ValidNonce(n)
    ensures |IntToDecimal(n)| == 10 && AllDigits(IntToDecimal(n))
  {
    assert Pow10(9) == NonceLow;
    assert Pow10(10) == NonceHigh + 1;
    DecimalWidth(n, 10);
  }

  /** The redirect URI: the local listener's address, with no `&` to break the query it is sent in. */
  function RedirectUri(port: int): (uri: string)
    ensures |uri| > 17 && uri[..17] == "http://localhost:" && '&' !in uri
  {
    var digits := IntToDecimal(port);
    NoAmpersandInDecimal(port);
    assert forall i :: 17 <= i < 17 + |digits| ==> ("http://localhost:" + digits)[i] == digits[i - 17];
    "http://localhost:" + digits
  }

  /** The port reads back from the redirect URI's text after the colon. */
  lemma RedirectUriPort(port: int)
    ensures ParseInt(RedirectUri(port)[17..]) == Some(port)
  {
    var uri := RedirectUri(port);
    assert uri[17..] == IntToDecimal(port);
    IntToDecimalRoundTrip(port);
  }

  /** The authorize URL, written out field after field with no escaping. */
  function AuthorizeUrl(a: Authorizer, scope: string, nonce: int): (url: string)
    ensures var state := IntToDecimal(nonce); |url| > |state| && url[|url| - |state|..] == state
  {
    var written := AuthorizeEndpoint
      + "client_id=" + a.credentials.clientId
      + "&response_type=" + ResponseType
      + "&redirect_uri=" + RedirectUri(a.port)
      + "&scope=" + scope
      + "&state=";
    written + IntToDecimal(nonce)
  }

  /** The five fields of the authorize URL, in the order they are written. */
  function AuthorizeFields(a: Authorizer, scope: string, nonce: int): seq<(string, string)> {
    [("client_id", a.credentials.clientId), ("response_type", ResponseType),
     ("redirect_uri", RedirectUri(a.port)), ("scope", scope), ("state", IntToDecimal(nonce))]
  }

  lemma AuthorizeFieldsUnambiguous(a: Authorizer, scope: string, nonce: int)
    requires '&' !in a.credentials.clientId && '&' !in scope
    ensures Unambiguous(AuthorizeFields(a, scope, nonce))
  {
    NoAmpersandInDecimal(nonce);
  }

  /** The hand-written concatenation is the `&`-join of the five `key=value` fields. */
  lemma AuthorizeAssignments(a: Authorizer, scope: string, nonce: int)
    ensures Assignments(AuthorizeFields(a, scope, nonce))
         == ["client_id=" + a.credentials.clientId, "response_type=" + ResponseType,
             "redirect_uri=" + RedirectUri(a.port), "scope=" + scope, "state=" + IntToDecimal(nonce)]
  {
    var id, uri, state := a.credentials.clientId, RedirectUri(a.port), IntToDecimal(nonce);
    var r := Assignments([("client_id", id), ("response_type", ResponseType), ("redirect_uri", uri),
                          ("scope", scope), ("state", state)]);
    assert r == [r[0], r[1], r[2], r[3], r[4]];
    assert r[0] == "client_id" + "=" + id == "client_id=" + id;
    assert r[1] == "response_type" + "=" + ResponseType == "response_type=" + ResponseType;
    assert r[2] == "redirect_uri" + "=" + uri == "redirect_uri=" + uri;
    assert r[3] == "scope" + "=" + scope == "scope=" + scope;
    assert r[4] == "state" + "=" + state == "state=" + state;
  }

  /** Appending `&key=value` to a URL that is the prefix plus a joined query extends the join by one field. */
  lemma AppendField(url: string, prefix: string, joined: string, separatorAndKey: string, key: string, value: string)
    requires url == prefix + joined && separatorAndKey == "&" + key
    ensures url + separatorAndKey + value == prefix + (joined + "&" + (key + value))
  {
  }

  /** The five fields written one after another are the prefix and the `&`-join of the fields. */
  lemma WrittenFieldsAreJoin(id: string, uri: string, scope: string, state: string)
    ensures AuthorizeEndpoint + "client_id=" + id + "&response_type=" + ResponseType
              + "&redirect_uri=" + uri + "&scope=" + scope + "&state=" + state
         == AuthorizeEndpoint + Join(["client_id=" + id, "response_type=" + ResponseType,
                                      "redirect_uri=" + uri, "scope=" + scope, "state=" + state], "&")
  {
    var p0, p1, p2 := "client_id=" + id, "response_type=" + ResponseType, "redirect_uri=" + uri;
    var p3, p4 := "scope=" + scope, "state=" + state;
    var u0 := AuthorizeEndpoint + "client_id=" + id;
    AppendField(u0, AuthorizeEndpoint, p0, "&response_type=", "response_type=", ResponseType);
    var u1 := u0 + "&response_type=" + ResponseType;
    AppendField(u1, AuthorizeEndpoint, p0 + "&" + p1, "&redirect_uri=", "redirect_uri=", uri);
    var u2 := u1 + "&redirect_uri=" + uri;
    AppendField(u2, AuthorizeEndpoint, p0 + "&" + p1 + "&" + p2, "&scope=", "scope=", scope);
    var u3 := u2 + "&scope=" + scope;
    AppendField(u3, AuthorizeEndpoint, p0 + "&" + p1 + "&" + p2 + "&" + p3, "&state=", "state=", state);
    assert [p0] + [p1] == [p0, p1];
    assert [p0, p1] + [p2] == [p0, p1, p2];
    assert [p0, p1, p2] + [p3] == [p0, p1, p2, p3];
    assert [p0, p1, p2, p3] + [p4] == [p0, p1, p2, p3, p4];
    JoinSnoc([p0], p1, "&");
    JoinSnoc([p0, p1], p2, "&");
    JoinSnoc([p0, p1, p2], p3, "&");
    JoinSnoc([p0, p1, p2, p3], p4, "&");
  }

  lemma AuthorizeUrlIsJoin(a: Authorizer, scope: string, nonce: int)
    ensures AuthorizeUrl(a, scope, nonce) == AuthorizeEndpoint + Join(Assignments(AuthorizeFields(a, scope, nonce)), "&")
  {
    AuthorizeAssignments(a, scope, nonce);
    WrittenFieldsAreJoin(a.credentials.clientId, RedirectUri(a.port), scope, IntToDecimal(nonce));
  }

  /**
   * The URL is the fixed prefix and a query that reads back as `client_id`,
   * `response_type=code`, `redirect_uri=http://localhost:<port>`, `scope` and
   * `state=<nonce>`, in that order, provided the id and the scope hold no `&`.
   */
  lemma AuthorizeUrlFields(a: Authorizer, scope: string, nonce: int)
    requires '&' !in a.credentials.clientId && '&' !in scope
    ensures var url := AuthorizeUrl(a, scope, nonce);
      && |url| >= |AuthorizeEndpoint|
      && url[..|AuthorizeEndpoint|] == AuthorizeEndpoint
      && DecodeQuery(url[|AuthorizeEndpoint|..])
         == [("client_id", a.credentials.clientId), ("response_type", "code"),
             ("redirect_uri", "http://localhost:" + IntToDecimal(a.port)), ("scope", scope),
             ("state", IntToDecimal(nonce))]
  {
    var fields := AuthorizeFields(a, scope, nonce);
    AuthorizeFieldsUnambiguous(a, scope, nonce);
    AuthorizeUrlIsJoin(a, scope, nonce);
    var url := AuthorizeUrl(a, scope, nonce);
    assert url[|AuthorizeEndpoint|..] == Join(Assignments(fields), "&");
    QueryRoundTrip(fields);
  }

  /** What the listener captured: each parameter with its list of values, never an empty list. */
  type Captured = m: map<string, seq<string>> | forall k :: k in m ==> |m[k]| > 0
    witness map[]

  /**
   * The redirect check: the first `state` value must be the nonce's decimal text,
   * or the call raises; then the first `code` value is the result. A missing
   * parameter raises a KeyError.
   */
  function CheckRedirect(captured: Captured, nonce: int): (r: Result<string, Error>)
    ensures r.Success? <==> "state" in captured && captured["state"][0] == IntToDecimal(nonce) && "code" in captured
    ensures r.Success? ==> r.value == captured["code"][0]
    ensures "state" !in captured ==> r == Failure(KeyError("state"))
    ensures "state" in captured && captured["state"][0] != IntToDecimal(nonce) ==> r == Failure(ValueError(StateMismatch))
    ensures "state" in captured && captured["state"][0] == IntToDecimal(nonce) && "code" !in captured ==> r == Failure(KeyError("code"))
  {
    if "state" !in captured then Failure(KeyError("state"))
    else if captured["state"][0] != IntToDecimal(nonce) then Failure(ValueError(StateMismatch))
    else if "code" !in captured then Failure(KeyError("code"))
    else Success(captured["code"][0])
  }

  /** An accepted redirect's state reads back as exactly the nonce. */
  lemma AcceptedStateIsNonce(captured: Captured, nonce: int)
    requires CheckRedirect(captured, nonce).Success?
    ensures "state" in captured && ParseInt(captured["state"][0]) == Some(nonce)
  {
    IntToDecimalRoundTrip(nonce);
  }

  /** A redirect accepted for one nonce is refused, as a state mismatch, for every other nonce. */
  lemma ForgedStateRejected(captured: Captured, nonce: int, other: int)
    requires nonce != other && CheckRedirect(captured, other).Success?
    ensures CheckRedirect(captured, nonce) == Failure(ValueError(StateMismatch))
  {
    IntToDecimalInjective(nonce, other);
  }

  /** A redirect that echoes the nonce and carries a code yields that code. */
  lemma EchoedStateAccepted(nonce: int, code: string, extra: Captured)
    ensures var captured: Captured := extra["state" := [IntToDecimal(nonce)]]["code" := [code]];
      CheckRedirect(captured, nonce) == Success(code)
  {
  }

  /** One run of the flow: the URL requested, and the code or the exception. */
  datatype Attempt = Attempt(url: string, code: Result<string, Error>)

  /**
   * `authorize` with the drawn nonce and the parameters the listener captured:
   * the URL ends with the nonce's ten digits, and a code comes back only when the
   * captured state reads back as that same nonce.
   */
  function Authorize(a: Authorizer, scope: string, nonce: int, captured: Captured): (r: Attempt)
    requires ValidNonce(nonce)
    ensures |r.url| > 10 && AllDigits(r.url[|r.url| - 10..]) && ParseInt(r.url[|r.url| - 10..]) == Some(nonce)
    ensures r.code.Success? ==>
      && "state" in captured && "code" in captured
      && ParseInt(captured["state"][0]) == Some(nonce)
      && r.code.value == captured["code"][0]
    ensures "state" in captured && ParseInt(captured["state"][0]) != Some(nonce) ==> r.code == Failure(ValueError(StateMismatch))
    ensures r.url == AuthorizeUrl(a, scope, nonce) && r.code == CheckRedirect(captured, nonce)
  {
    NonceHasTenDigits(nonce);
    IntToDecimalRoundTrip(nonce);
    var url := AuthorizeUrl(a, scope, nonce);
    assert url[|url| - 10..] == IntToDecimal(nonce);
    Attempt(url, CheckRedirect(captured, nonce))
  }
}
