/**
 * The catalog side of the server: the `/search` reply built from a Spotify track, and the
 * `/enrich` pipeline (query normalisation, the iTunes best-match rule, the artwork fallback
 * and the reply's field defaults). The token cache that both endpoints consult is in module
 * TokenCache; module Server strings the calls together.
 */
module Catalog {
  import opened Wrappers
  import opened Text

  /**
   * One Spotify search item, reduced to the fields the server reads. `artistNames` is `None`
   * when the item has no `artists`; `albumImages` is `None` when it has no `album`, and
   * `Some([])` when the album has no `images`.
   */
  datatype SpotifyTrack = SpotifyTrack(
    name: Option<string>,
    artistNames: Option<seq<string>>,
    previewUrl: Option<string>,
    albumImages: Option<seq<Option<string>>>)   // `album.images[*].url`

  /** Whether `/search` can read the item: `track.artists.map` and `track.album.images` do not throw. */
  predicate Readable(track: SpotifyTrack) {
    track.artistNames.Some? && track.albumImages.Some?
  }

  /** The Spotify search call: it failed (network or JSON), or `tracks.items` (`[]` if absent). */
  datatype SpotifySearch = SpotifyFailed | SpotifyItems(items: seq<SpotifyTrack>)

  /** `GET /search`. */
  datatype SearchReply =
    | SearchBadRequest      // 400 'Missing search query'
    | SearchNotFound        // 404 'Track not found'
    | SearchFailed          // 500 'Spotify search failed'
    | SearchFound(title: Option<string>, artist: string, previewUrl: Option<string>, artwork: string)

  /** `images?.[0]?.url || ''`. */
  function FirstImage(imageUrls: seq<Option<string>>): (r: string)
    ensures r != "" ==> |imageUrls| > 0 && imageUrls[0] == Some(r)
    ensures |imageUrls| > 0 && Truthy(imageUrls[0]) ==> r == imageUrls[0].value
  {
    if |imageUrls| > 0 then Or(imageUrls[0], "") else ""
  }

  /** `album?.images?.[0]?.url || ''`: as FirstImage, and `''` when there is no album. */
  function AlbumImage(album: Option<seq<Option<string>>>): (r: string)
    ensures album.None? ==> r == ""
    ensures album.Some? ==> r == FirstImage(album.value)
  {
    if album.Some? then FirstImage(album.value) else ""
  }

  /**
   * The `/search` reply once the query is present and a token was obtained (`tokenOk`):
   * the first item, its artists' names joined by `", "`, its first album image or `''`.
   * A first item without `artists` or without `album` throws, which answers 500.
   */
  function SearchReplyFor(q: Option<string>, tokenOk: bool, search: SpotifySearch): (r: SearchReply)
    ensures r == SearchBadRequest <==> !Truthy(q)
    ensures r == SearchFailed <==>
      Truthy(q) && (!tokenOk || search.SpotifyFailed? || (search.items != [] && !Readable(search.items[0])))
    ensures r == SearchNotFound <==> Truthy(q) && tokenOk && search.SpotifyItems? && search.items == []
    ensures r.SearchFound? <==>
      Truthy(q) && tokenOk && search.SpotifyItems? && search.items != [] && Readable(search.items[0])
    ensures r.SearchFound? ==>
      (search.SpotifyItems? && |search.items| > 0 && Readable(search.items[0])
       && r.title == search.items[0].name && r.previewUrl == search.items[0].previewUrl
       && r.artist == Join(search.items[0].artistNames.value, ", ")
       && r.artwork == FirstImage(search.items[0].albumImages.value))
  {
    if !Truthy(q) then SearchBadRequest
    else if !tokenOk then SearchFailed
    else match search
      case SpotifyFailed => SearchFailed
      case SpotifyItems(items) =>
        if items == [] then SearchNotFound
        else if !Readable(items[0]) then SearchFailed
        else
          var track := items[0];
          SearchFound(track.name, Join(track.artistNames.value, ", "), track.previewUrl,
                      FirstImage(track.albumImages.value))
  }

  /**
   * The artist line of a found track credited to several artists lists them in order: the
   * join of all but the last, `", "`, then the last; two characters of separator per pair.
   */
  lemma ArtistsJoinedInOrder(q: Option<string>, search: SpotifySearch)
    requires Truthy(q) && search.SpotifyItems? && |search.items| > 0 && Readable(search.items[0])
    requires |search.items[0].artistNames.value| > 1
    ensures var names := search.items[0].artistNames.value; var r := SearchReplyFor(q, true, search);
      r.SearchFound?
      && r.artist == Join(names[..|names| - 1], ", ") + ", " + names[|names| - 1]
      && |r.artist| == TotalLength(names) + 2 * (|names| - 1)
  {
    var names := search.items[0].artistNames.value;
    assert names == names[..|names| - 1] + [names[|names| - 1]];
    JoinSnoc(names[..|names| - 1], names[|names| - 1], ", ");
    JoinLength(names, ", ");
  }

  /** `s.replace(/[-_]/g, " ")`. */
  function ReplaceDashes(s: string): (r: string)
    ensures |r| == |s|
    ensures forall i :: 0 <= i < |s| ==> r[i] == if s[i] == '-' || s[i] == '_' then ' ' else s[i]
  {
    seq(|s|, i requires 0 <= i < |s| => if s[i] == '-' || s[i] == '_' then ' ' else s[i])
  }

  /**
   * The iTunes search term: `${title} ${artist}` with every `-` and `_` turned into a space,
   * then trimmed. It has no `-` or `_`, does not start or end with whitespace, and is no
   * longer than the two fields and the space between them.
   */
  function NormaliseQuery(title: string, artist: string): (r: string)
    ensures '-' !in r && '_' !in r
    ensures r == [] || (!IsWhitespace(r[0]) && !IsWhitespace(r[|r| - 1]))
    ensures |r| <= |title| + 1 + |artist|
    ensures r == Trim(ReplaceDashes(title + " " + artist))
  {
    var joined := ReplaceDashes(title + " " + artist);
    assert forall i :: 0 <= i < |joined| ==> joined[i] != '-' && joined[i] != '_';
    TrimKeepsAbsent(joined, '-');
    TrimKeepsAbsent(joined, '_');
    TrimEnds(joined);
    Trim(joined)
  }

  /** Normalising is idempotent: the normalised query is its own normal form. */
  lemma NormaliseQueryIdempotent(title: string, artist: string)
    ensures var q := NormaliseQuery(title, artist); Trim(ReplaceDashes(q)) == q
  {
    var q := NormaliseQuery(title, artist);
    assert ReplaceDashes(q) == q;
    TrimKeepsTrimmed(q);
  }

  /** One iTunes search result, reduced to the fields the server reads. */
  datatype ITunesTrack = ITunesTrack(
    trackName: Option<string>,
    artistName: Option<string>,
    collectionName: Option<string>,
    previewUrl: Option<string>,
    artworkUrl100: Option<string>,
    primaryGenreName: Option<string>)

  /** The iTunes search call: it failed (network or JSON), or its `results`. */
  datatype ITunesSearch = ITunesFailed | ITunesResults(results: seq<ITunesTrack>)

  /** `String(collectionName)`, as the regular expression's `test` sees it. */
  function CollectionText(name: Option<string>): string {
    if name.Some? then name.value else "undefined"
  }

  /** `/karaoke|cover|remix|tribute|live/i.test(name)`. */
  predicate HasExcludedKeyword(name: string) {
    var l := Lower(name);
    Contains(l, "karaoke") || Contains(l, "cover") || Contains(l, "remix")
    || Contains(l, "tribute") || Contains(l, "live")
  }

  /** A result the filter keeps: same artist (ignoring case) and no excluded keyword. */
  predicate Preferred(track: ITunesTrack, artist: string) {
    track.artistName.Some? && Lower(track.artistName.value) == Lower(artist)
    && !HasExcludedKeyword(CollectionText(track.collectionName))
  }

  /** The filter's test on one result: `None` when it throws (`undefined.toLowerCase()`). */
  function Keep(track: ITunesTrack, artist: string): (r: Option<bool>)
    ensures r.None? <==> track.artistName.None?
    ensures r == Some(true) <==> Preferred(track, artist)
  {
    if track.artistName.None? then None else Some(Preferred(track, artist))
  }

  /**
   * `xs.filter(test)` for a test that may throw: `None` when the test throws on some element;
   * otherwise the elements that pass, in their order.
   */
  function FilterOrThrow<T>(xs: seq<T>, test: T -> Option<bool>): (r: Option<seq<T>>)
    ensures r.None? <==> exists i :: 0 <= i < |xs| && test(xs[i]).None?
    ensures r.Some? ==> forall x :: x in r.value ==> x in xs && test(x) == Some(true)
    ensures r.Some? ==> forall i :: 0 <= i < |xs| && test(xs[i]) == Some(true) ==> xs[i] in r.value
    ensures r.Some? && r.value != [] ==>
      exists k :: 0 <= k < |xs| && xs[k] == r.value[0] && forall j :: 0 <= j < k ==> test(xs[j]) != Some(true)
  {
    if xs == [] then Some([])
    else if test(xs[0]).None? then None
    else
      var rest := xs[1..];
      assert forall i :: 1 <= i < |xs| ==> xs[i] == rest[i - 1];
      match FilterOrThrow(rest, test)
      case None => None
      case Some(kept) =>
        if test(xs[0]) == Some(true) then Some([xs[0]] + kept) else Some(kept)
  }

  /**
   * `filtered[0] || itunesData.results[0]`: the first result that passes the filter, or the
   * first result when none does; `None` when the filter throws, which it does as soon as one
   * result lacks `artistName`.
   */
  function BestMatch(results: seq<ITunesTrack>, artist: string): (r: Option<ITunesTrack>)
    requires results != []
    ensures r.None? <==> exists i :: 0 <= i < |results| && results[i].artistName.None?
    ensures r.Some? ==> r.value in results
    ensures r.Some? && (exists i :: 0 <= i < |results| && Preferred(results[i], artist)) ==>
      (Preferred(r.value, artist)
       && exists k :: 0 <= k < |results| && results[k] == r.value
                      && forall j :: 0 <= j < k ==> !Preferred(results[j], artist))
    ensures r.Some? && (forall i :: 0 <= i < |results| ==> !Preferred(results[i], artist)) ==>
      r.value == results[0]
  {
    match FilterOrThrow(results, t => Keep(t, artist))
    case None => None
    case Some(filtered) =>
      if filtered != [] then Some(filtered[0]) else Some(results[0])
  }

  /** Where the artwork of an `/enrich` reply comes from when iTunes has none. */
  datatype ArtworkFallback =
    | FallbackFailed                  // the token or the Spotify search threw: 500
    | FallbackImage(url: string)      // `spotifyJson.tracks?.items?.[0]?.album?.images?.[0]?.url || ''`

  /** The Spotify fallback, read off the search call. */
  function FallbackFrom(tokenOk: bool, search: SpotifySearch): (r: ArtworkFallback)
    ensures r.FallbackImage? <==> tokenOk && search.SpotifyItems?
    ensures r.FallbackImage? && r.url != "" ==> |search.items| > 0
    ensures r.FallbackImage? && |search.items| > 0 ==> r.url == AlbumImage(search.items[0].albumImages)
    ensures r.FallbackImage? && search.items == [] ==> r.url == ""
  {
    if !tokenOk then FallbackFailed
    else match search
      case SpotifyFailed => FallbackFailed
      case SpotifyItems(items) => FallbackImage(if items == [] then "" else AlbumImage(items[0].albumImages))
  }

  /** `POST /enrich`. */
  datatype EnrichReply =
    | EnrichBadRequest      // 400 'Missing title or artist'
    | EnrichNotFound        // 404 'No iTunes matches found'
    | EnrichFailed          // 500 'Failed to enrich song data'
    | Enriched(title: string, artist: string, previewUrl: Option<string>, artwork: string, genre: string)

  /** Whether the Spotify artwork fallback, and with it the token cache, is consulted. */
  predicate NeedsFallback(title: Option<string>, artist: Option<string>, itunes: ITunesSearch) {
    Truthy(title) && Truthy(artist) && itunes.ITunesResults? && itunes.results != []
    && var best := BestMatch(itunes.results, artist.value);
    best.Some? && !Truthy(best.value.artworkUrl100)
  }

  /** The reply's fields for the chosen track, with the request's fields as the last resort. */
  function EnrichedFields(best: ITunesTrack, title: string, artist: string, artwork: string): (r: EnrichReply)
    ensures r.Enriched? && r.artwork == artwork
    ensures title != "" ==> r.title != ""
    ensures artist != "" ==> r.artist != ""
    ensures r.genre != ""
    ensures r.previewUrl.None? || r.previewUrl.value != ""
    ensures r.title == (if Truthy(best.trackName) then best.trackName.value else title)
    ensures r.artist == (if Truthy(best.artistName) then best.artistName.value else artist)
    ensures r.previewUrl == (if Truthy(best.previewUrl) then best.previewUrl else None)
    ensures r.genre == (if Truthy(best.primaryGenreName) then best.primaryGenreName.value else "unknown")
  {
    Enriched(Or(best.trackName, title), Or(best.artistName, artist),
             if Truthy(best.previewUrl) then best.previewUrl else None,
             artwork, Or(best.primaryGenreName, "unknown"))
  }

  /**
   * `POST /enrich` given what iTunes answered for the normalised query and, when it is
   * consulted, what the Spotify artwork fallback gave.
   */
  function EnrichReplyFor(title: Option<string>, artist: Option<string>, itunes: ITunesSearch,
                          fallback: ArtworkFallback): (r: EnrichReply)
    ensures r == EnrichBadRequest <==> !Truthy(title) || !Truthy(artist)
    ensures r == EnrichNotFound <==> Truthy(title) && Truthy(artist) && itunes.ITunesResults? && itunes.results == []
    ensures r.Enriched? ==> r.title != "" && r.artist != "" && r.genre != ""
    ensures r.Enriched? ==>
      (Truthy(title) && Truthy(artist) && itunes.ITunesResults? && itunes.results != []
       && BestMatch(itunes.results, artist.value).Some?)
    ensures r.Enriched? ==>
      var best := BestMatch(itunes.results, artist.value).value;
      best in itunes.results && r == EnrichedFields(best, title.value, artist.value, r.artwork)
    ensures r.Enriched? ==>
      var best := BestMatch(itunes.results, artist.value).value;
      r.artwork == if Truthy(best.artworkUrl100) then best.artworkUrl100.value
                   else if fallback.FallbackImage? then fallback.url else ""
    ensures r.Enriched? && !NeedsFallback(title, artist, itunes) ==> r.artwork != ""
    ensures Truthy(title) && Truthy(artist) ==>
      (r == EnrichFailed <==>
         itunes.ITunesFailed?
         || (itunes.results != []
             && (BestMatch(itunes.results, artist.value).None?
                 || (NeedsFallback(title, artist, itunes) && fallback.FallbackFailed?))))
  {
    if !Truthy(title) || !Truthy(artist) then EnrichBadRequest
    else match itunes
      case ITunesFailed => EnrichFailed
      case ITunesResults(results) =>
        if results == [] then EnrichNotFound
        else match BestMatch(results, artist.value)
          case None => EnrichFailed
          case Some(best) =>
            var artwork := Or(best.artworkUrl100, "");
            if artwork != "" then EnrichedFields(best, title.value, artist.value, artwork)
            else match fallback
              case FallbackFailed => EnrichFailed
              case FallbackImage(url) => EnrichedFields(best, title.value, artist.value, url)
  }
}
