/**
 * The REST client: an object that caches one access token and its expiry, and
 * the requests its playlist wrappers send once the token has been prepared.
 * The token endpoint's answer and the wall clock come in as parameters.
 */
module ApiClient {
  import opened Wrappers
  import opened Errors
  import opened Text
  import opened Config
  import opened Query
  import opened Token

  const PlaylistsEndpoint: string := "https://api.spotify.com/v1/playlists/"

  /** Value of the Authorization header of every API request. */
  function BearerHeader(token: string): (h: string)
    ensures |h| == 7 + |token| && h[..7] == "Bearer " && h[7..] == token
  {
    "Bearer " + token
  }

  /** The optional parameters of `get_playlist`, in declared order. */
  function PlaylistParams(market: Option<string>, fields: Option<string>): seq<(string, Option<Arg>)> {
    [("market", StrArg(market)), ("fields", StrArg(fields))]
  }

  /** The optional parameters of `get_playlist_items`, in declared order. */
  function PlaylistItemsParams(market: Option<string>, fields: Option<string>, limit: Option<int>, offset: Option<int>)
    : seq<(string, Option<Arg>)>
  {
    [("market", StrArg(market)), ("fields", StrArg(fields)), ("limit", IntArg(limit)), ("offset", IntArg(offset))]
  }

  function StrArg(value: Option<string>): Option<Arg> {
    match value
    case None => None
    case Some(s) => Some(Str(s))
  }

  function IntArg(value: Option<int>): Option<Arg> {
    match value
    case None => None
    case Some(n) => Some(Int(n))
  }

  /** The URL of `get_playlist`: the playlist's URL, extended only when an option is given. */
  function PlaylistUrl(playlistId: string, market: Option<string>, fields: Option<string>): (url: string)
    ensures var base := PlaylistsEndpoint + playlistId;
      |url| >= |base| && url[..|base|] == base && (url == base <==> market.None? && fields.None?)
  {
    PlaylistQuery(market, fields);
    WithQuery(PlaylistsEndpoint + playlistId, PlaylistParams(market, fields))
  }

  /** The URL of `get_playlist_items`: the tracks URL, extended only when an option is given. */
  function PlaylistItemsUrl(playlistId: string, market: Option<string>, fields: Option<string>,
                            limit: Option<int>, offset: Option<int>): (url: string)
    ensures var base := PlaylistsEndpoint + playlistId + "/tracks";
      && |url| >= |base| && url[..|base|] == base
      && (url == base <==> market.None? && fields.None? && limit.None? && offset.None?)
  {
    PlaylistItemsQuery(market, fields, limit, offset);
    WithQuery(PlaylistsEndpoint + playlistId + "/tracks", PlaylistItemsParams(market, fields, limit, offset))
  }

  function CreatePlaylistUrl(userId: string): string {
    "https://api.spotify.com/v1/users/" + userId + "/playlists"
  }

  /** `get_playlist` keeps `market` then `fields`, each only when given. */
  lemma {:induction false} PlaylistQuery(market: Option<string>, fields: Option<string>)
    ensures Selected(PlaylistParams(market, fields))
         == OneParam("market", StrArg(market)) + OneParam("fields", StrArg(fields))
  {
    var p := PlaylistParams(market, fields);
    assert p == [p[0]] + [p[1]];
    SelectedConcat([p[0]], [p[1]]);
    SelectedOne(p[0].0, p[0].1);
    SelectedOne(p[1].0, p[1].1);
  }

  /** `get_playlist_items` keeps `market`, `fields`, `limit`, `offset` in that order, each only when given. */
  lemma {:induction false} PlaylistItemsQuery(market: Option<string>, fields: Option<string>,
                                              limit: Option<int>, offset: Option<int>)
    ensures Selected(PlaylistItemsParams(market, fields, limit, offset))
         == OneParam("market", StrArg(market)) + OneParam("fields", StrArg(fields))
          + OneParam("limit", IntArg(limit)) + OneParam("offset", IntArg(offset))
  {
    var p := PlaylistItemsParams(market, fields, limit, offset);
    assert p == [p[0]] + ([p[1]] + ([p[2]] + [p[3]]));
    SelectedConcat([p[2]], [p[3]]);
    SelectedConcat([p[1]], [p[2]] + [p[3]]);
    SelectedConcat([p[0]], [p[1]] + ([p[2]] + [p[3]]));
    SelectedOne(p[0].0, p[0].1);
    SelectedOne(p[1].0, p[1].1);
    SelectedOne(p[2].0, p[2].1);
    SelectedOne(p[3].0, p[3].1);
  }

  /**
   * The URL of `get_playlist`: the bare playlist URL when neither option is given,
   * otherwise a `?` and a query that reads back as the given options in order.
   */
  lemma PlaylistUrlMeaning(playlistId: string, market: Option<string>, fields: Option<string>)
    requires market.Some? ==> '&' !in market.value
    requires fields.Some? ==> '&' !in fields.value
    ensures var base := PlaylistsEndpoint + playlistId;
      var url := PlaylistUrl(playlistId, market, fields);
      && (market.None? && fields.None? ==> url == base)
      && (market.Some? || fields.Some? ==>
            |url| > |base| && url[..|base|] == base && url[|base|] == '?'
            && DecodeQuery(url[|base| + 1..])
               == OneParam("market", StrArg(market)) + OneParam("fields", StrArg(fields)))
  {
    var base, params := PlaylistsEndpoint + playlistId, PlaylistParams(market, fields);
    OneParamUnambiguous("market", StrArg(market));
    OneParamUnambiguous("fields", StrArg(fields));
    UnambiguousConcat(OneParam("market", StrArg(market)), OneParam("fields", StrArg(fields)));
    PlaylistQuery(market, fields);
    assert PlaylistUrl(playlistId, market, fields) == WithQuery(base, params);
    WithQueryMeaning(base, params);
  }

  /** The options of `get_playlist_items` read back unambiguously when the strings hold no `&`. */
  lemma PlaylistItemsOptionsUnambiguous(market: Option<string>, fields: Option<string>,
                                        limit: Option<int>, offset: Option<int>)
    requires market.Some? ==> '&' !in market.value
    requires fields.Some? ==> '&' !in fields.value
    ensures Unambiguous(OneParam("market", StrArg(market)) + OneParam("fields", StrArg(fields))
                        + OneParam("limit", IntArg(limit)) + OneParam("offset", IntArg(offset)))
  {
    var m, f := OneParam("market", StrArg(market)), OneParam("fields", StrArg(fields));
    var l, o := OneParam("limit", IntArg(limit)), OneParam("offset", IntArg(offset));
    OneParamUnambiguous("market", StrArg(market));
    OneParamUnambiguous("fields", StrArg(fields));
    OneParamUnambiguous("limit", IntArg(limit));
    OneParamUnambiguous("offset", IntArg(offset));
    UnambiguousConcat(m, f);
    UnambiguousConcat(m + f, l);
    UnambiguousConcat(m + f + l, o);
  }

  /** The same for `get_playlist_items`, whose integer options are written in decimal. */
  lemma PlaylistItemsUrlMeaning(playlistId: string, market: Option<string>, fields: Option<string>,
                                limit: Option<int>, offset: Option<int>)
    requires market.Some? ==> '&' !in market.value
    requires fields.Some? ==> '&' !in fields.value
    ensures var base := PlaylistsEndpoint + playlistId + "/tracks";
      var url := PlaylistItemsUrl(playlistId, market, fields, limit, offset);
      var given := OneParam("market", StrArg(market)) + OneParam("fields", StrArg(fields))
                 + OneParam("limit", IntArg(limit)) + OneParam("offset", IntArg(offset));
      && (given == [] ==> url == base)
      && (given != [] ==> |url| > |base| && url[..|base|] == base && url[|base|] == '?' && DecodeQuery(url[|base| + 1..]) == given)
  {
    var base := PlaylistsEndpoint + playlistId + "/tracks";
    var params := PlaylistItemsParams(market, fields, limit, offset);
    PlaylistItemsOptionsUnambiguous(market, fields, limit, offset);
    PlaylistItemsQuery(market, fields, limit, offset);
    assert PlaylistItemsUrl(playlistId, market, fields, limit, offset) == WithQuery(base, params);
    WithQueryMeaning(base, params);
  }

  /** The JSON body of `create_playlist`. */
  datatype PlaylistBody = PlaylistBody(name: string, description: Option<string>, isPublic: bool, collaborative: bool)

  const TokenEndpoint: string := "https://accounts.spotify.com/api/token"
  const GrantType: string := "authorization_code"

  /**
   * The token request: its URL, the `id:secret` text whose base64 form follows
   * `Basic ` in its header, and the grant type of its form body.
   */
  datatype TokenRequest = TokenRequest(url: string, basicCredentials: string, grantType: string)

  /** A request a wrapper would send: its URL, its Bearer header and, for a POST, its JSON body. */
  datatype Request =
    | GetRequest(url: string, authorization: string)
    | PostJson(url: string, authorization: string, body: PlaylistBody)

  class SpotifyApiClient {
    const credentials: Credentials
    var token: Option<string>
    var expiresAt: Option<int>
    /** The number of token requests sent so far. */
    ghost var exchanges: nat

    function State(): TokenState
      reads this
    {
      TokenState(token, expiresAt)
    }

    ghost predicate Valid()
      reads this
    {
      State().Consistent() && credentials.clientId != "" && credentials.clientSecret != ""
    }

    constructor (credentials: Credentials)
      requires credentials.clientId != "" && credentials.clientSecret != ""
      ensures Valid() && this.credentials == credentials
      ensures State() == Empty && exchanges == 0
    {
      this.credentials := credentials;
      token := None;
      expiresAt := None;
      exchanges := 0;
    }

    /** Construction: raises when a credential is missing or empty, else starts with an empty cache. */
    static method New(clientId: Option<string>, clientSecret: Option<string>) returns (r: Result<SpotifyApiClient, Error>)
      ensures r.Failure? <==> !(Given(clientId) && Given(clientSecret))
      ensures r.Failure? ==> r.error == ValueError(MissingCredentials)
      ensures r.Success? ==> fresh(r.value) && r.value.Valid() && r.value.State() == Empty
      ensures r.Success? ==> r.value.credentials == Credentials(clientId.value, clientSecret.value)
    {
      var loaded := LoadCredentials(clientId, clientSecret);
      match loaded
      case Failure(e) =>
        r := Failure(e);
      case Success(c) =>
        var client := new SpotifyApiClient(c);
        r := Success(client);
    }

    /**
     * `_get_new_token`: sends one token request, authenticated by the client's
     * `id:secret` text, then makes the state change `AfterExchange` describes.
     */
    method GetNewToken(e: Exchange) returns (r: Outcome<Error>, sent: TokenRequest)
      requires Valid()
      modifies this
      ensures Valid()
      ensures (State(), r) == AfterExchange(old(State()), e)
      ensures exchanges == old(exchanges) + 1
      ensures sent == TokenRequest(TokenEndpoint, BasicCredentials(credentials), GrantType)
      ensures ':' !in credentials.clientId ==>
        SplitFirst(sent.basicCredentials, ':') == (credentials.clientId, credentials.clientSecret)
    {
      sent := TokenRequest(TokenEndpoint, BasicCredentials(credentials), GrantType);
      if ':' !in credentials.clientId {
        BasicCredentialsSplit(credentials);
      }
      exchanges := exchanges + 1;
      match e
      case Rejected(status) =>
        r := Fail(HttpError(status));
      case Answered(receivedAt, accessToken) =>
        expiresAt := Some(receivedAt + TokenLifetime);
        if accessToken.None? {
          r := Fail(KeyError(AccessTokenKey));
        } else {
          token := accessToken;
          r := Pass;
        }
    }

    /**
     * `_prepare_token` at clock reading `now`: fetches exactly when `NeedsNewToken`
     * holds, so a fresh cache costs no request; on a normal return a token is held
     * that lasts at least the margin (given `ClockKeepsUp`).
     */
    method PrepareToken(now: int, e: Exchange) returns (r: Outcome<Error>)
      requires Valid()
      modifies this
      ensures Valid()
      ensures (State(), r) == Prepare(old(State()), now, e)
      ensures exchanges == old(exchanges) + if NeedsNewToken(old(State()), now) then 1 else 0
      ensures r.Pass? ==> token.Some?
      ensures r.Pass? && ClockKeepsUp(now, e) ==> now + RefreshMargin <= expiresAt.value
    {
      var sent;
      if !Held(token) {
        r, sent := GetNewToken(e);
      } else if expiresAt.value < now + RefreshMargin {
        r, sent := GetNewToken(e);
      } else {
        r := Pass;
      }
      PrepareHoldsToken(old(State()), now, e);
      if r.Pass? && ClockKeepsUp(now, e) {
        PrepareGuarantee(old(State()), now, e);
      }
    }

    /** `get_playlist`: prepares the token, then builds the GET request. */
    method GetPlaylist(now: int, e: Exchange, playlistId: string,
                       market: Option<string> := None, fields: Option<string> := None)
      returns (r: Result<Request, Error>)
      requires Valid()
      modifies this
      ensures Valid()
      ensures (State(), if r.Success? then Pass else Fail(r.error)) == Prepare(old(State()), now, e)
      ensures exchanges == old(exchanges) + if NeedsNewToken(old(State()), now) then 1 else 0
      ensures r.Success? ==> token.Some? && r.value == GetRequest(PlaylistUrl(playlistId, market, fields), BearerHeader(token.value))
    {
      var prepared := PrepareToken(now, e);
      if prepared.Fail? {
        return Failure(prepared.error);
      }
      r := Success(GetRequest(PlaylistUrl(playlistId, market, fields), BearerHeader(token.value)));
    }

    /** `get_playlist_items`: prepares the token, then builds the GET request. */
    method GetPlaylistItems(now: int, e: Exchange, playlistId: string,
                            market: Option<string> := None, fields: Option<string> := None,
                            limit: Option<int> := None, offset: Option<int> := None)
      returns (r: Result<Request, Error>)
      requires Valid()
      modifies this
      ensures Valid()
      ensures (State(), if r.Success? then Pass else Fail(r.error)) == Prepare(old(State()), now, e)
      ensures exchanges == old(exchanges) + if NeedsNewToken(old(State()), now) then 1 else 0
      ensures r.Success? ==>
        && token.Some?
        && r.value == GetRequest(PlaylistItemsUrl(playlistId, market, fields, limit, offset), BearerHeader(token.value))
    {
      var prepared := PrepareToken(now, e);
      if prepared.Fail? {
        return Failure(prepared.error);
      }
      r := Success(GetRequest(PlaylistItemsUrl(playlistId, market, fields, limit, offset), BearerHeader(token.value)));
    }

    /**
     * `create_playlist`: a collaborative public playlist is refused before the token
     * is touched or requested; every other combination prepares the token and
     * builds the POST request.
     */
    method CreatePlaylist(now: int, e: Exchange, userId: string, name: string,
                          description: Option<string> := None, isPublic: bool := true, collaborative: bool := false)
      returns (r: Result<Request, Error>)
      requires Valid()
      modifies this
      ensures Valid()
      ensures collaborative && isPublic ==>
        r == Failure(ValueError(CollaborativePublic)) && State() == old(State()) && exchanges == old(exchanges)
      ensures !(collaborative && isPublic) ==>
        && (State(), if r.Success? then Pass else Fail(r.error)) == Prepare(old(State()), now, e)
        && exchanges == old(exchanges) + (if NeedsNewToken(old(State()), now) then 1 else 0)
      ensures r.Success? ==>
        && token.Some?
        && r.value == PostJson(CreatePlaylistUrl(userId), BearerHeader(token.value),
                               PlaylistBody(name, description, isPublic, collaborative))
    {
      if collaborative && isPublic {
        return Failure(ValueError(CollaborativePublic));
      }
      var prepared := PrepareToken(now, e);
      if prepared.Fail? {
        return Failure(prepared.error);
      }
      r := Success(PostJson(CreatePlaylistUrl(userId), BearerHeader(token.value),
                            PlaylistBody(name, description, isPublic, collaborative)));
    }
  }
}
