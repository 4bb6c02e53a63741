/**
 * The rules of the client's access-token cache, on values: when a new token is
 * fetched, what a token exchange leaves behind, and what a caller may rely on
 * after the cache has been prepared. Times are whole seconds of the wall clock.
 */
module Token {
  import opened Wrappers
  import opened Errors

  /** Lifetime the client assumes for every new token. */
  const TokenLifetime: int := 3600

  /** A held token is replaced once it expires within this many seconds. */
  const RefreshMargin: int := 600

  /** Key of the access token in the token endpoint's JSON answer. */
  const AccessTokenKey: string := "access_token"

  /** The two cache fields; both start as `None`. */
  datatype TokenState = TokenState(token: Option<string>, expiresAt: Option<int>) {
    /** A token is never held without an expiry. */
    predicate Consistent() {
      token.Some? ==> expiresAt.Some?
    }
  }

  const Empty: TokenState := TokenState(None, None)

  /**
   * How the token request ended: rejected with a non-success status, or answered,
   * with the clock read after the answer and the answer's access token (`None`
   * when the JSON has no such key).
   */
  datatype Exchange = Rejected(status: int) | Answered(receivedAt: int, accessToken: Option<string>)

  /** Python truthiness of the cached token: present and not the empty string. */
  predicate Held(token: Option<string>) {
    token.Some? && token.value != ""
  }

  /** A truthy token that stays valid for at least the margin after `now`. */
  predicate FreshAt(s: TokenState, now: int) {
    Held(s.token) && s.expiresAt.Some? && now + RefreshMargin <= s.expiresAt.value
  }

  /** The decision of `_prepare_token`: fetch when no truthy token is held or it expires too soon. */
  function NeedsNewToken(s: TokenState, now: int): (r: bool)
    requires s.Consistent()
    ensures r <==> !FreshAt(s, now)
  {
    if !Held(s.token) then true
    else s.expiresAt.value < now + RefreshMargin
  }

  /**
   * The state change of `_get_new_token`: a rejected request changes nothing; an
   * answered one sets the expiry first, then reads the access token, so a missing
   * key leaves the new expiry beside the old token.
   */
  function AfterExchange(s: TokenState, e: Exchange): (r: (TokenState, Outcome<Error>))
    ensures s.Consistent() ==> r.0.Consistent()
    ensures e.Rejected? ==> r == (s, Fail(HttpError(e.status)))
    ensures e.Answered? ==> r.0.expiresAt == Some(e.receivedAt + TokenLifetime)
    ensures r.1.Pass? <==> e.Answered? && e.accessToken.Some?
    ensures r.1.Pass? ==> r.0.token == e.accessToken
    ensures r.1.Fail? ==> r.0.token == s.token
    ensures e.Answered? && e.accessToken.None? ==> r.1 == Fail(KeyError(AccessTokenKey))
  {
    match e
    case Rejected(status) => (s, Fail(HttpError(status)))
    case Answered(t, None) => (TokenState(s.token, Some(t + TokenLifetime)), Fail(KeyError(AccessTokenKey)))
    case Answered(t, Some(access)) => (TokenState(Some(access), Some(t + TokenLifetime)), Pass)
  }

  /** The state change of `_prepare_token` at clock reading `now`; `e` is consulted only when it fetches. */
  function Prepare(s: TokenState, now: int, e: Exchange): (r: (TokenState, Outcome<Error>))
    requires s.Consistent()
    ensures r.0.Consistent()
    ensures r.1.Fail? ==> NeedsNewToken(s, now)
  {
    if NeedsNewToken(s, now) then AfterExchange(s, e) else (s, Pass)
  }

  /** The clock does not run back by more than the lifetime minus the margin during an exchange. */
  predicate ClockKeepsUp(now: int, e: Exchange) {
    e.Answered? ==> now + RefreshMargin <= e.receivedAt + TokenLifetime
  }

  /** An empty cache, as construction leaves it, always fetches. */
  lemma EmptyFetches(now: int)
    ensures NeedsNewToken(Empty, now)
  {
  }

  /** The comparison is strict: a token expiring exactly at the margin is kept, one second earlier is not. */
  lemma MarginIsStrict(token: string, now: int)
    requires token != ""
    ensures !NeedsNewToken(TokenState(Some(token), Some(now + RefreshMargin)), now)
    ensures NeedsNewToken(TokenState(Some(token), Some(now + RefreshMargin - 1)), now)
  {
  }

  /** An empty-string token counts as no token, whatever its expiry. */
  lemma EmptyTokenFetches(expiresAt: int, now: int)
    ensures NeedsNewToken(TokenState(Some(""), Some(expiresAt)), now)
  {
  }

  /** After a normal return a token is held and is good for at least the margin. */
  lemma PrepareGuarantee(s: TokenState, now: int, e: Exchange)
    requires s.Consistent() && ClockKeepsUp(now, e)
    requires Prepare(s, now, e).1.Pass?
    ensures var s' := Prepare(s, now, e).0;
      s'.token.Some? && s'.expiresAt.Some? && now + RefreshMargin <= s'.expiresAt.value
  {
  }

  /** A normal return always leaves some string token (possibly empty) to put in the Bearer header. */
  lemma PrepareHoldsToken(s: TokenState, now: int, e: Exchange)
    requires s.Consistent()
    ensures Prepare(s, now, e).1.Pass? ==> Prepare(s, now, e).0.token.Some?
  {
  }

  /** A cache hit neither changes the state nor depends on the exchange. */
  lemma CacheHitChangesNothing(s: TokenState, now: int, e: Exchange)
    requires s.Consistent() && !NeedsNewToken(s, now)
    ensures Prepare(s, now, e) == (s, Pass)
  {
  }

  /** A rejected token request leaves both fields as they were. */
  lemma RejectionChangesNothing(s: TokenState, now: int, status: int)
    requires s.Consistent()
    ensures Prepare(s, now, Rejected(status)).0 == s
    ensures Prepare(s, now, Rejected(status)).1 == if NeedsNewToken(s, now) then Fail(HttpError(status)) else Pass
  {
  }

  /**
   * Idempotence: after a fetch answered at `e1.receivedAt` with a non-empty token,
   * a second call at `t2` with `t2 + 600 <= receivedAt + 3600` fetches nothing
   * and changes nothing, whatever its exchange would have been.
   */
  lemma SecondCallIsCacheHit(s: TokenState, t1: int, e1: Exchange, t2: int, e2: Exchange)
    requires s.Consistent() && NeedsNewToken(s, t1)
    requires e1.Answered? && e1.accessToken.Some? && e1.accessToken.value != ""
    requires t2 + RefreshMargin <= e1.receivedAt + TokenLifetime
    ensures var s1 := Prepare(s, t1, e1).0;
      s1.Consistent() && !NeedsNewToken(s1, t2) && Prepare(s1, t2, e2) == (s1, Pass)
  {
  }
}
