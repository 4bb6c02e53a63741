# spotify-playlist-toolbox in Dafny

A verified model of the parts of the Spotify playlist toolbox that have behaviour
worth stating:

- the access-token cache of `SpotifyAPIClient`. Its two fields, the token and its
  expiry, start empty. `_prepare_token` fetches a new token when no truthy token is
  held, or when the held one expires within 600 s. `_get_new_token` stores the new
  token with an expiry one hour after the answer arrived;
- the requests the REST wrappers build once the token is prepared. The optional
  query parameters that are not `None` are kept in declared order and written
  `key=value`. They are joined with `&` behind a `?` only when at least one is
  left. `create_playlist` refuses a collaborative public playlist, and every
  request carries a `Bearer` header;
- the `Authorize` class and its authorization-code flow. Its constructor checks the
  credentials; `authorize` builds the authorize URL from five fixed fields. The state nonce has ten
  digits. The captured redirect is accepted only when its first `state` value is
  the nonce's decimal text, and the result is its first `code` value.

Files and modules:

- `wrappers.dfy` (`Wrappers`): Option, Result and Outcome.
- `errors.dfy` (`Errors`): the three exceptions raised, as data, with their messages.
- `text.dfy` (`Text`): Python's `str()` on integers, `sep.join`, `str.split`, and the
  decimal round trip.
- `config.dfy` (`Config`): the credential check both constructors make, and the
  `id:secret` text of the Basic header.
- `query.dfy` (`Query`): parameter selection, query strings, and the decoder that
  reads them back.
- `token.dfy` (`Token`): the token-cache rules on values.
- `api_client.dfy` (`ApiClient`): the class `SpotifyApiClient` with the token fields,
  its token methods and its three request-building wrappers.
- `authorize.dfy` (`Authorize`): the authorizer, its URL, the nonce and the redirect
  check.

The wall clock is an integer number of seconds. The code reads it twice: once in
the expiry comparison (`now`) and once after the token request returns. The
second reading travels with the request's outcome (`Exchange.Answered.receivedAt`).
The "valid for another 600 s" guarantee therefore holds when
`ClockKeepsUp`: the clock did not run back by more than 3000 s during the
request.

The code sets the expiry before it reads `access_token` from the answer. So an
answer without that key leaves the new expiry beside the old token, and then
raises a `KeyError`. A rejected request (non-success status) changes neither
field. An empty access token is falsy, so the next `_prepare_token` fetches
again. The idempotence lemma therefore needs a non-empty token.

The client has one fixed grant type: it always sends
`grant_type=authorization_code` (the `client_credentials` line is commented out at
`spotify_playlist_toolbox/api_client.py:39`). It keeps no refresh token, ignores
the answer's `expires_in` and fixes the lifetime at 3600 s. Every guard raises
`ValueError`: the credential check, the collaborative-public check and the state
mismatch.

No value is escaped. The query values of the REST wrappers, and `client_id` and
`scope` in the authorize URL, are written into the URL as they are. A value that
holds `&` therefore reads back as more than one parameter: `fields="a&market=Y"`
gives `?fields=a&market=Y`. Every statement below about what a query string or
URL decodes to carries the condition that its string values hold no `&`.

## Model

| member | source | states |
|---|---|---|
| `Config.LoadCredentials` | spotify_playlist_toolbox/api_client.py:14-17 | construction succeeds iff both client id and secret are present and non-empty; otherwise it raises ValueError with the fixed message; on success the credentials are exactly the given ones |
| `Config.BasicCredentialsSplit` | spotify_playlist_toolbox/api_client.py:32 | the `id:secret` text of the Basic header splits back into id and secret at its first colon when the id has none; `BasicCredentials` builds that text, and `GetNewToken` returns it in the request it sends |
| `ApiClient.SpotifyApiClient.New` | spotify_playlist_toolbox/api_client.py:11-19 | fails with the credential ValueError exactly when a credential is missing or empty; a new client holds no token and no expiry |
| `ApiClient.SpotifyApiClient.constructor` | spotify_playlist_toolbox/api_client.py:18-19 | both cache fields start as `None`, so the invariant "token held implies expiry held" holds |
| `Token.NeedsNewToken` | spotify_playlist_toolbox/api_client.py:21-26 | a fetch happens exactly when the cache is not fresh: no truthy token, or expiry strictly before now + 600 |
| `Token.EmptyFetches` | spotify_playlist_toolbox/api_client.py:18-23 | the cache left by construction always fetches |
| `Token.EmptyTokenFetches` | spotify_playlist_toolbox/api_client.py:22-23 | an empty-string token is treated as no token, whatever its expiry |
| `Token.MarginIsStrict` | spotify_playlist_toolbox/api_client.py:25-26 | a token expiring exactly at now + 600 is kept; one expiring a second earlier is replaced |
| `Token.AfterExchange` | spotify_playlist_toolbox/api_client.py:44-47 | a rejected request leaves both fields and raises HTTPError; an answer sets expiry = receivedAt + 3600; the call returns normally iff the answer has an access token, which becomes the token; otherwise the old token stays and the call raises `KeyError("access_token")`; the invariant is preserved |
| `Token.RejectionChangesNothing` | spotify_playlist_toolbox/api_client.py:44-46 | a failed token request leaves both fields untouched through `_prepare_token`, raising only if a fetch was due |
| `Token.CacheHitChangesNothing` | spotify_playlist_toolbox/api_client.py:21-26 | when no fetch is due, preparation returns normally, changes nothing and does not depend on the request's outcome |
| `Token.PrepareGuarantee` | spotify_playlist_toolbox/api_client.py:21-26 | after a normal return a token is held whose expiry is at least now + 600 (given the clock keeps up) |
| `Token.Prepare` | spotify_playlist_toolbox/api_client.py:21-26 | the state change of `_prepare_token`: it keeps "token held implies expiry held" and raises only when a fetch was due; `CacheHitChangesNothing`, `RejectionChangesNothing`, `PrepareGuarantee`, `PrepareHoldsToken` and `SecondCallIsCacheHit` state the rest |
| `Token.PrepareHoldsToken` | spotify_playlist_toolbox/api_client.py:21-47 | for a string access token: after a normal return some token is held, so the Bearer header is never built from `None` |
| `Token.SecondCallIsCacheHit` | spotify_playlist_toolbox/api_client.py:21-47 | idempotence: after a fetch answered at t with a non-empty token, a second preparation at t2 with t2 + 600 <= t + 3600 fetches nothing and changes nothing |
| `ApiClient.SpotifyApiClient.GetNewToken` | spotify_playlist_toolbox/api_client.py:28-47 | sends exactly one token request, to the token endpoint with grant type `authorization_code` and the `id:secret` text of the Basic header (which splits back into id and secret when the id has no colon), and leaves the fields as `AfterExchange` says |
| `ApiClient.SpotifyApiClient.PrepareToken` | spotify_playlist_toolbox/api_client.py:21-26 | the new state is `Prepare` of the old one; exactly one token request when `NeedsNewToken`, none otherwise; on normal return a token is held, valid for 600 s more when the clock keeps up |
| `ApiClient.BearerHeader` | spotify_playlist_toolbox/api_client.py:59-61 | the header is `Bearer ` followed by exactly the token |
| `ApiClient.SpotifyApiClient.GetPlaylist` | spotify_playlist_toolbox/api_client.py:49-64 | prepares the token (raising what preparation raises), then builds a GET of the playlist URL with the Bearer header of the prepared token |
| `ApiClient.SpotifyApiClient.GetPlaylistItems` | spotify_playlist_toolbox/api_client.py:66-81 | the same for the playlist's tracks URL with its four optional parameters |
| `ApiClient.SpotifyApiClient.CreatePlaylist` | spotify_playlist_toolbox/api_client.py:83-100 | collaborative and public together raise ValueError with the token state and request count unchanged; every other combination prepares the token and builds the POST to `CreatePlaylistUrl(userId)` (the user's playlists URL) with the given name, description and flags |
| `Query.Render` | spotify_playlist_toolbox/api_client.py:57 | the f-string writes a string value as it is and an integer value as decimal text that reads back as that integer |
| `Query.Selected` | spotify_playlist_toolbox/api_client.py:55 | nothing is kept exactly when every parameter is `None`; `SelectedOne` and `SelectedConcat` give which pairs are kept and in what order |
| `Query.SelectedOne` | spotify_playlist_toolbox/api_client.py:55 | a single parameter is kept, with its rendered value, iff it is not `None` |
| `Query.SelectedConcat` | spotify_playlist_toolbox/api_client.py:55 | selection keeps declared order: selecting from a concatenation concatenates the selections |
| `Query.QueryRoundTrip` | spotify_playlist_toolbox/api_client.py:57 | decoding the `&`-joined `key=value` pairs gives back exactly the pairs, for at least one pair, when no key or value holds `&` and no key holds `=` |
| `Query.WithQuery` | spotify_playlist_toolbox/api_client.py:56-57 | the URL starts with the endpoint and is the bare endpoint exactly when no parameter is kept; `WithQueryMeaning` states what the appended query holds |
| `Query.WithQueryMeaning` | spotify_playlist_toolbox/api_client.py:56-57 | with no parameter left the URL is the bare endpoint; otherwise it is the endpoint, a `?`, and, when no kept key or value holds `&` and no kept key holds `=`, a query that decodes to exactly the kept pairs in order |
| `ApiClient.PlaylistQuery` | spotify_playlist_toolbox/api_client.py:53-55 | `get_playlist` keeps `market` then `fields` (the parameter list `PlaylistParams`), each exactly when it is not `None` |
| `ApiClient.PlaylistItemsQuery` | spotify_playlist_toolbox/api_client.py:70-72 | `get_playlist_items` keeps `market`, `fields`, `limit`, `offset` (the parameter list `PlaylistItemsParams`) in that order, each exactly when it is not `None`, integers in decimal |
| `ApiClient.PlaylistUrl` | spotify_playlist_toolbox/api_client.py:51-57 | the URL of `get_playlist` starts with the playlist URL and is that URL exactly when neither option is given; `PlaylistUrlMeaning` states the query |
| `ApiClient.PlaylistItemsUrl` | spotify_playlist_toolbox/api_client.py:68-74 | the URL of `get_playlist_items` starts with the tracks URL and is that URL exactly when no option is given; `PlaylistItemsUrlMeaning` states the query |
| `ApiClient.PlaylistUrlMeaning` | spotify_playlist_toolbox/api_client.py:51-57 | the playlist URL is unchanged with no option given, else `?` plus a query decoding to the given options in order, provided neither `market` nor `fields` holds `&` |
| `ApiClient.PlaylistItemsUrlMeaning` | spotify_playlist_toolbox/api_client.py:68-74 | the same for the tracks URL and its four options, provided neither `market` nor `fields` holds `&` (the integer options never do) |
| `Text.IntToDecimal` | spotify_playlist_toolbox/authorize.py:25 | `str()` of an integer: non-empty, starting with `-` exactly when the integer is negative; `IntToDecimalRoundTrip` and `IntToDecimalInjective` state that it is read back uniquely |
| `Text.NatToDecimal` | spotify_playlist_toolbox/authorize.py:41 | `str()` of a non-negative integer is a non-empty digit string without a leading zero |
| `Text.IntToDecimalRoundTrip` | spotify_playlist_toolbox/authorize.py:41 | the decimal text of any integer reads back as that integer |
| `Text.IntToDecimalInjective` | spotify_playlist_toolbox/authorize.py:41 | two integers have the same decimal text iff they are equal |
| `Text.DecimalWidth` | spotify_playlist_toolbox/authorize.py:22 | a number in [10^(k-1), 10^k) has exactly k digits |
| `Text.Join` | spotify_playlist_toolbox/api_client.py:57 | `"&".join`: the result starts with the first part; `SplitJoin` states that it is undone by splitting |
| `Text.SplitJoin` | spotify_playlist_toolbox/api_client.py:57 | splitting the joined parts on the separator gives the parts back, for at least one part, when none holds it |
| `Authorize.NewAuthorizer` | spotify_playlist_toolbox/authorize.py:10-17 | fails with the credential ValueError exactly when a credential is missing or empty; otherwise keeps the credentials and the given port (3000 by default) |
| `Authorize.NonceHasTenDigits` | spotify_playlist_toolbox/authorize.py:22 | every nonce in [1000000000, 9999999999] is written with exactly ten digits |
| `Authorize.RedirectUri` | spotify_playlist_toolbox/authorize.py:24 | the redirect URI is `http://localhost:` followed by the port, and holds no `&` |
| `Authorize.RedirectUriPort` | spotify_playlist_toolbox/authorize.py:24 | the port reads back from the redirect URI's text after `http://localhost:` |
| `Authorize.AuthorizeUrl` | spotify_playlist_toolbox/authorize.py:20-25 | the written-out authorize URL ends with the nonce's decimal text; `AuthorizeUrlIsJoin` and `AuthorizeUrlFields` state the rest |
| `Authorize.AuthorizeUrlIsJoin` | spotify_playlist_toolbox/authorize.py:20-25 | the written-out URL is the fixed prefix followed by the `&`-join of the five `key=value` fields |
| `Authorize.AuthorizeUrlFields` | spotify_playlist_toolbox/authorize.py:20-25 | the URL decodes to exactly `client_id`, `response_type=code`, `redirect_uri=http://localhost:<port>`, `scope`, `state=<nonce>`, in that order, when id and scope hold no `&` |
| `Authorize.CheckRedirect` | spotify_playlist_toolbox/authorize.py:40-45 | succeeds iff the first `state` value equals the nonce's decimal text and a `code` is present; then the result is the first `code` value; a missing `state` raises `KeyError("state")`, a differing state the mismatch ValueError, and a matching state without a `code` raises `KeyError("code")` |
| `Authorize.AcceptedStateIsNonce` | spotify_playlist_toolbox/authorize.py:41 | an accepted redirect's state reads back as exactly the nonce |
| `Authorize.ForgedStateRejected` | spotify_playlist_toolbox/authorize.py:41-42 | a redirect accepted for one nonce is refused with the mismatch error for every other nonce |
| `Authorize.EchoedStateAccepted` | spotify_playlist_toolbox/authorize.py:41-48 | a redirect that echoes the nonce and carries a code yields that code |
| `Authorize.Authorize` | spotify_playlist_toolbox/authorize.py:19-48 | the requested URL is `AuthorizeUrl` and ends with the nonce's ten digits; the result is exactly `CheckRedirect` of the captured parameters; a code is returned only if the captured state reads back as the nonce, and it is the first captured code; a state that does not read back as the nonce raises the mismatch error |

## Left out

- All HTTP traffic: the token POST, the API GETs and POSTs, `raise_for_status` and `response.json()`. A token request is an abstract `Exchange`: rejected with a status, or answered with a clock reading and an optional access token. The wrappers return the request they would send, not the response.
- The GET of the authorize page in `authorize` and its status check, and the three `print` calls: I/O. The model assumes that request succeeded.
- The redirect listener (`_listen_on_port`, `HTTPServer`, the thread, the shutdown timer, `join`) and `parse_qs`: socket I/O and concurrency. The captured parameters are an input map from names to non-empty value lists.
- `load_dotenv`/`os.getenv`: the credentials are constructor arguments.
- `datetime.now()`/`timedelta`: integer seconds, passed in.
- `random.randint`: the nonce is an argument that must lie in the drawn range.
- Base64 encoding of the Basic header (RFC 4648 section 4) and the `Content-Type` header of the token request: the encoder is a library call. The modelled token request carries the `id:secret` text before encoding, and the grant type of its form body.
- `add_items_to_playlist`: the file ends before it sends anything, so it is not part of this model.
- A JSON `access_token` that is not a string. In the program a `null` one sets the token to `None` and returns normally, and the next request then carries `Bearer None`; the model types the access token as a string, so `PrepareHoldsToken` holds only for string tokens.
- F-string rendering of parameter values other than strings and integers: the model types them as strings and integers.
- Concurrent callers of the token cache: the code has no locking and the model is sequential.
