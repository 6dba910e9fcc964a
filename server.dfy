/**
 * The server's mutable state, the Spotify token cache, and the two endpoints that consult it.
 * `POST /mood-palette` touches no state and is the function MoodPalette.MoodPaletteReply.
 * Clock readings and the replies of the external services are parameters.
 */
module Server {
  import opened Wrappers
  import opened Text
  import opened TokenCache
  import opened Catalog

  class Server {
    var cachedToken: Option<string>
    var tokenExpiresAt: Option<int>   // None stands for NaN

    function Cache(): TokenState
      reads this
    {
      TokenState(cachedToken, tokenExpiresAt)
    }

    constructor ()
      ensures Cache() == InitialTokenState
    {
      cachedToken := None;
      tokenExpiresAt := Some(0);
    }

    /**
     * `getSpotifyToken()` at time `now`; `fetch` is what the token endpoint answers if it
     * is asked. A fresh cache answers without fetching; otherwise the fetched token and its
     * expiry replace the cache.
     */
    method GetSpotifyToken(now: int, fetch: TokenFetch) returns (r: TokenResult)
      modifies this
      ensures Cache() == NextTokenState(old(Cache()), now, fetch)
      ensures r == TokenReply(old(Cache()), now, fetch)
      ensures r.Cached? <==> old(IsFresh(Cache(), now))
    {
      if Truthy(cachedToken) && tokenExpiresAt.Some? && now < tokenExpiresAt.value {
        return Cached(cachedToken.value);
      }
      match fetch {
        case FetchFailed =>
          return TokenFailed;
        case Granted(token, expiresIn) =>
          cachedToken := token;
          tokenExpiresAt := if expiresIn.Some? then Some(now + expiresIn.value * 1000) else None;
          return Fetched(cachedToken);
      }
    }

    /**
     * `GET /search?q=...`: a missing query is refused before the token is asked for;
     * otherwise the token is obtained and `spotify(q)` is the search result.
     */
    method Search(q: Option<string>, now: int, fetch: TokenFetch, spotify: string -> SpotifySearch)
      returns (r: SearchReply)
      modifies this
      ensures !Truthy(q) ==> r == SearchBadRequest && Cache() == old(Cache())
      ensures Truthy(q) ==> Cache() == NextTokenState(old(Cache()), now, fetch)
      ensures Truthy(q) ==>
        r == SearchReplyFor(q, !TokenReply(old(Cache()), now, fetch).TokenFailed?, spotify(q.value))
    {
      if !Truthy(q) {
        return SearchBadRequest;
      }
      var token := GetSpotifyToken(now, fetch);
      if token.TokenFailed? {
        return SearchFailed;
      }
      var search := spotify(q.value);
      r := SearchReplyFor(q, true, search);
    }

    /**
     * `POST /enrich`: after validation the normalised query goes to iTunes (`itunes`); the
     * best match supplies the fields; only when it has no artwork is the token obtained and
     * Spotify (`spotify`) asked with the same query.
     */
    method Enrich(title: Option<string>, artist: Option<string>, itunes: string -> ITunesSearch,
                  now: int, fetch: TokenFetch, spotify: string -> SpotifySearch)
      returns (r: EnrichReply)
      modifies this
      ensures !(Truthy(title) && Truthy(artist)) ==> r == EnrichBadRequest && Cache() == old(Cache())
      ensures Truthy(title) && Truthy(artist) ==>
        var query := NormaliseQuery(title.value, artist.value);
        var found := itunes(query);
        Cache() == (if NeedsFallback(title, artist, found) then NextTokenState(old(Cache()), now, fetch)
                    else old(Cache()))
        && r == EnrichReplyFor(title, artist, found,
                               FallbackFrom(!TokenReply(old(Cache()), now, fetch).TokenFailed?, spotify(query)))
    {
      if !Truthy(title) || !Truthy(artist) {
        return EnrichBadRequest;
      }
      var query := NormaliseQuery(title.value, artist.value);
      var found := itunes(query);
      if found.ITunesFailed? {
        return EnrichFailed;
      }
      if found.results == [] {
        return EnrichNotFound;
      }
      var best := BestMatch(found.results, artist.value);
      if best.None? {
        return EnrichFailed;
      }
      var track := best.value;
      var artwork := Or(track.artworkUrl100, "");
      if artwork == "" {
        var token := GetSpotifyToken(now, fetch);
        if token.TokenFailed? {
          return EnrichFailed;
        }
        var search := spotify(query);
        if search.SpotifyFailed? {
          return EnrichFailed;
        }
        artwork := if search.items == [] then "" else AlbumImage(search.items[0].albumImages);
      }
      r := EnrichedFields(track, title.value, artist.value, artwork);
    }
  }

  /**
   * Two searches inside the token's lifetime: the second one reuses the cached token and
   * leaves the cache as the first one set it.
   */
  method SearchTwice(server: Server, q: string, now: int, expiresIn: int, token: string,
                     later: int, fetch: TokenFetch, spotify: string -> SpotifySearch)
    returns (first: SearchReply, second: SearchReply)
    requires q != "" && token != "" && !IsFresh(server.Cache(), now)
    requires now <= later < now + expiresIn * 1000
    modifies server
    ensures server.Cache() == TokenState(Some(token), Some(now + expiresIn * 1000))
    ensures second == SearchReplyFor(Some(q), true, spotify(q))
  {
    first := server.Search(Some(q), now, Granted(Some(token), Some(expiresIn)), spotify);
    second := server.Search(Some(q), later, fetch, spotify);
  }
}
