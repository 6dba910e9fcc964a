/**
 * The Spotify access-token cache of the server (`getSpotifyToken`): two module-level
 * variables, the cached token and the instant (milliseconds) at which it expires. This module
 * states what one call does to them; the class in module Server holds the variables.
 */
module TokenCache {
  import opened Wrappers
  import opened Text

  /**
   * The two cache variables. `expiresAt == None` stands for JavaScript's NaN, which is what
   * `now + expires_in * 1000` gives when the token reply has no `expires_in`.
   */
  datatype TokenState = TokenState(cachedToken: Option<string>, expiresAt: Option<int>)

  /** `cachedToken = null` and `tokenExpiresAt = 0` when the server starts. */
  const InitialTokenState := TokenState(None, Some(0))

  /** What the token endpoint gave back: an error (network or JSON), or its two fields. */
  datatype TokenFetch =
    | FetchFailed
    | Granted(accessToken: Option<string>, expiresIn: Option<int>)

  /** What `getSpotifyToken` does for its caller. */
  datatype TokenResult =
    | Cached(token: string)           // returned from the cache, nothing fetched
    | Fetched(issued: Option<string>)  // fetched; the new cached value is returned
    | TokenFailed                     // the fetch threw; the caller's `catch` answers 500

  /** `cachedToken && now < tokenExpiresAt`: the cached token may be reused. */
  predicate IsFresh(s: TokenState, now: int) {
    Truthy(s.cachedToken) && s.expiresAt.Some? && now < s.expiresAt.value
  }

  /** The cache after a successful fetch at `now`. */
  function Refreshed(now: int, accessToken: Option<string>, expiresIn: Option<int>): TokenState {
    TokenState(accessToken, if expiresIn.Some? then Some(now + expiresIn.value * 1000) else None)
  }

  /** The cache after one call of `getSpotifyToken` at time `now`. */
  function NextTokenState(s: TokenState, now: int, fetch: TokenFetch): TokenState {
    if IsFresh(s, now) then s
    else match fetch
      case FetchFailed => s
      case Granted(token, expiresIn) => Refreshed(now, token, expiresIn)
  }

  /** What one call of `getSpotifyToken` at time `now` returns. */
  function TokenReply(s: TokenState, now: int, fetch: TokenFetch): TokenResult {
    if IsFresh(s, now) then Cached(s.cachedToken.value)
    else match fetch
      case FetchFailed => TokenFailed
      case Granted(token, _) => Fetched(token)
  }

  /** A fresh cache is used as it is: the cached token comes back and nothing changes. */
  lemma CacheHit(s: TokenState, now: int, fetch: TokenFetch)
    requires Truthy(s.cachedToken) && s.expiresAt.Some? && now < s.expiresAt.value
    ensures TokenReply(s, now, fetch) == Cached(s.cachedToken.value)
    ensures NextTokenState(s, now, fetch) == s
  {
  }

  /**
   * Otherwise the token is fetched: on success the cache holds the new token and expires
   * `expires_in` seconds after `now`, and the new token is returned; a failed fetch leaves the
   * cache as it was.
   */
  lemma CacheMiss(s: TokenState, now: int, fetch: TokenFetch)
    requires !IsFresh(s, now)
    ensures fetch.Granted? ==> TokenReply(s, now, fetch) == Fetched(fetch.accessToken)
    ensures fetch.Granted? && fetch.expiresIn.Some? ==>
      NextTokenState(s, now, fetch) == TokenState(fetch.accessToken, Some(now + fetch.expiresIn.value * 1000))
    ensures fetch.FetchFailed? ==> TokenReply(s, now, fetch) == TokenFailed && NextTokenState(s, now, fetch) == s
  {
  }

  /** The expiry is strict: at the expiry instant itself the token is fetched again. */
  lemma ExpiryIsStrict(s: TokenState, fetch: TokenFetch)
    requires s.expiresAt.Some?
    ensures !IsFresh(s, s.expiresAt.value)
    ensures !TokenReply(s, s.expiresAt.value, fetch).Cached?
  {
  }

  /** The server starts with an empty cache, so its first call always fetches. */
  lemma FirstCallFetches(now: int, fetch: TokenFetch)
    ensures !TokenReply(InitialTokenState, now, fetch).Cached?
  {
  }

  /**
   * A token fetched at `now` with a lifetime of `expiresIn` seconds is reused by every later
   * call strictly before `now + expiresIn * 1000`, whatever the token endpoint would say then.
   */
  lemma ReusedWithinLifetime(s: TokenState, now: int, token: string, expiresIn: int,
                             later: int, fetch: TokenFetch)
    requires !IsFresh(s, now) && token != ""
    requires now <= later < now + expiresIn * 1000
    ensures var s' := NextTokenState(s, now, Granted(Some(token), Some(expiresIn)));
      TokenReply(s', later, fetch) == Cached(token) && NextTokenState(s', later, fetch) == s'
  {
  }

  /** A reply without a usable token or lifetime is never reused: the next call fetches again. */
  lemma UnusableGrantNotReused(s: TokenState, now: int, token: Option<string>, expiresIn: Option<int>,
                               later: int, fetch: TokenFetch)
    requires !IsFresh(s, now)
    requires !Truthy(token) || expiresIn.None?
    ensures !TokenReply(NextTokenState(s, now, Granted(token, expiresIn)), later, fetch).Cached?
  {
  }
}
