# MoodBoard-FM in Dafny

MoodBoard-FM turns a song (title and artist) into a colour mood board. Its Express
server asks a language model for a palette and a one-line mood description
(`POST /mood-palette`), looks the song up on Spotify (`GET /search`), and enriches it
from iTunes with a Spotify artwork fallback (`POST /enrich`). Both Spotify calls share an
access token that the server caches until it expires. The page script validates the form,
resets the page, waits for the three calls, then paints the gradient, the mood line and a
song-info block. A regenerate button, once a song has been submitted, submits the form again, re-reading its
fields.

This project models that core:

- `wrappers.dfy`: the `Option` type. It also stands for JavaScript's missing values (`null`,
  `undefined`, and NaN for the token expiry).
- `text.dfy` (module `Text`): the string operations the core relies on and their laws.
  These are `trim`, `split` on one character, `join`, ASCII `toLowerCase`, `includes`,
  and the truthiness of a possibly missing string.
- `token_cache.dfy` (module `TokenCache`): what one call of `getSpotifyToken` does to the
  cache and returns.
- `mood_palette.dfy` (module `MoodPalette`): the `/mood-palette` endpoint.
  - Validation.
  - The leftmost match of `\[[^\]]+\]`, specified independently.
  - The description line, proved equal to an independent reference definition.
- `catalog.dfy` (module `Catalog`): the `/search` reply and the `/enrich` pipeline.
  - Query normalisation.
  - The iTunes best match. The filter can throw, which is modelled.
  - The Spotify artwork fallback and the reply's field defaults.
- `server.dfy` (module `Server`): the server's mutable state as a class.
  - Its fields are the cached token and its expiry.
  - `GetSpotifyToken`, `Search` and `Enrich` change that state, and are proved against the
    functions above.
- `moodboard.dfy` (module `Moodboard`): the page.
  - `SubmitStep` and `RegenerateStep` are functions on a page state.
  - The class `MoodboardPage` performs the same handlers in place, field by field, proved
    equal to those functions.

The external services are parameters: the language model's reply, `JSON.parse`, the token
endpoint, Spotify search and iTunes search. So are the clock (`now`) and the outcome of the
page's three calls.

## Model

| member | source | states |
|---|---|---|
| `Text.Or` | server.js:159-163 | the JavaScript `or` of two strings: the left side exactly when it is present and non-empty, otherwise the fallback |
| `Text.Trim` | frontend/main.js:16-17 | `trim()` never lengthens a string |
| `Text.TrimShape` | server.js:80 | `trim()` keeps the slice between a whitespace prefix and a whitespace suffix, and yields `""` exactly when the string is all whitespace |
| `Text.TrimEnds` | server.js:126 | a trimmed string neither starts nor ends with whitespace |
| `Text.TrimKeepsTrimmed` | server.js:126 | a string already free of whitespace at both ends is unchanged by `trim()` |
| `Text.TrimEmpty` | frontend/main.js:16-18 | `trim()` is empty exactly for an all-whitespace value, which is what the `!title` check rejects |
| `Text.TrimKeepsAbsent` | server.js:126 | `trim()` only removes characters, so a character absent before is absent after |
| `Text.TrimIdempotent` | server.js:126 | trimming twice equals trimming once |
| `Text.Lower` | server.js:137 | `toLowerCase()` keeps the length, maps each character on its own, and leaves no upper-case ASCII letter |
| `Text.LowerIdempotent` | server.js:137 | lower-casing twice equals lower-casing once |
| `Text.JoinSnoc` | server.js:111 | `join(', ')` of a list with one more name is the old join, then the separator, then the new name |
| `Text.JoinLength` | server.js:111 | a join is as long as its parts plus one separator between each neighbouring pair |
| `Text.Split` | server.js:80 | `split("\n")` gives at least one piece, no piece holds the separator, and joining the pieces restores the text |
| `Text.SplitPrefix` | server.js:80 | splitting text after a separator-free prefix glues the prefix onto the first piece |
| `Text.SplitJoin` | server.js:80 | splitting the join of separator-free pieces gives the pieces back |
| `TokenCache.CacheHit` | server.js:28-29 | with a truthy cached token and `now` before the expiry, the cached token is returned and the cache is unchanged |
| `TokenCache.CacheMiss` | server.js:31-45 | otherwise a grant replaces the cache with the new token, expiring `expires_in * 1000` ms after `now`, and returns it; a failed fetch returns the failure and keeps the cache |
| `TokenCache.ExpiryIsStrict` | server.js:29 | at the expiry instant itself the cache is stale |
| `TokenCache.FirstCallFetches` | server.js:24-29 | the initial cache (`null`, `0`) is never fresh, so the first call fetches |
| `TokenCache.ReusedWithinLifetime` | server.js:29-45 | a token granted at `now` is returned by every later call before `now + expires_in * 1000`, whatever the endpoint would answer, and the cache stays put |
| `TokenCache.UnusableGrantNotReused` | server.js:29-44 | a grant with an empty token or no `expires_in` (NaN expiry) is never served from the cache |
| `MoodPalette.NextClose` | server.js:77 | the first `]` at or after a position, or none |
| `MoodPalette.SpanFrom` | server.js:77 | the regex search from a position finds a match and none to its left, and finds nothing only when no match starts there or later |
| `MoodPalette.PaletteSpan` | server.js:77 | `match(/\[[^\]]+\]/)` finds the leftmost match, and finds nothing exactly when no span of the pattern exists |
| `MoodPalette.PaletteText` | server.js:77-78 | the text `match[0]` handed to `JSON.parse`: exactly the leftmost span of the pattern, brackets included. It starts with `[`, ends with its only `]`, has at least one character inside, and is missing exactly when there is no match |
| `MoodPalette.SpanCloseUnique` | server.js:77 | a `[` has one closing `]` for the pattern |
| `MoodPalette.EmptyBracketsNoPalette` | server.js:77-78 | `[]` is not matched, so an empty bracket pair gives the empty palette |
| `MoodPalette.FirstDescriptionLine` | server.js:80-81 | the reference definition: the index of the first line that is not blank and holds neither `#` nor `[` |
| `MoodPalette.FilterThenFind` | server.js:80-81 | the filter of non-blank lines followed by `find` gives exactly the reference's line |
| `MoodPalette.DescriptionIn` | server.js:80-83 | the description is `""` exactly when no line qualifies; otherwise it is the first qualifying line |
| `MoodPalette.MoodDescription` | server.js:80-83 | the description is `""` exactly when no line of the reply's `\n`-split is a description line; otherwise it is the first such line, untrimmed. It never contains `#` or `[` |
| `MoodPalette.MoodPaletteReply` | server.js:57-88 | 400 exactly when title or artist is falsy. Otherwise 500 when the model's reply is unusable, and for a usable reply success exactly when there is no match or the matched span parses. The palette is then the parse of the leftmost span, or `[]` without a match, and the description is the reply's description line |
| `Catalog.FirstImage` | server.js:113 | the first album image's URL when that is present and non-empty, else `''` |
| `Catalog.AlbumImage` | server.js:155 | the artwork read through `album?.images?.[0]?.url` with an optional album: `''` without an album, else the first image's URL when it is present and non-empty |
| `Catalog.SearchReplyFor` | server.js:93-119 | 400 exactly for a falsy query; 404 exactly when there are no items; 500 exactly when the token or the search fails or the first item lacks `artists` or `album` (reading them throws); otherwise found, with the first item's name and preview, its artists joined by `", "` and its first album image |
| `Catalog.ArtistsJoinedInOrder` | server.js:111 | the artist line of a found track with several artists is the join of all but the last name, then `", "`, then the last name; it is as long as the names plus two characters per neighbouring pair |
| `Catalog.ReplaceDashes` | server.js:126 | `replace(/[-_]/g, " ")` turns each `-` and `_` into a space and changes nothing else |
| `Catalog.NormaliseQuery` | server.js:126 | the iTunes query is `${title} ${artist}` with `-` and `_` made spaces, then trimmed: it has no `-` or `_`, no whitespace at either end, and is no longer than `${title} ${artist}` |
| `Catalog.NormaliseQueryIdempotent` | server.js:126 | normalising the normalised query changes nothing |
| `Catalog.Keep` | server.js:136-139 | the filter test throws exactly for a result without `artistName`, and passes exactly the same-artist results with no excluded keyword |
| `Catalog.FilterOrThrow` | server.js:136-139 | `filter` with a throwing test fails exactly when the test throws on some element; otherwise every element kept passes, every passing element is kept, and the first kept element is the first passing one in source order |
| `Catalog.BestMatch` | server.js:136-141 | the earliest preferred result when one exists, else the first result; it throws exactly when some result lacks `artistName` |
| `Catalog.FallbackFrom` | server.js:149-156 | the Spotify artwork fallback fails exactly when the token or the search fails; otherwise it is the first item's first album image, or `''` without items or without an album (every step is optional-chained) |
| `Catalog.EnrichedFields` | server.js:158-164 | each reply field is the best match's truthy value, else the request's title or artist, `null`, or `'unknown'`; title, artist and genre are never empty |
| `Catalog.EnrichReplyFor` | server.js:121-170 | 400 exactly when title or artist is falsy; 404 exactly for no iTunes results; 500 exactly when iTunes fails, the filter throws, or a needed fallback fails. A success uses the best match and takes its artwork, else the fallback's; without a fallback the artwork is non-empty |
| `Server.Server.constructor` | server.js:24-25 | the cache starts as `null` with expiry `0` |
| `Server.Server.GetSpotifyToken` | server.js:27-46 | the new cache and the result are those of one call at `now`; the cached token is returned exactly when the cache was fresh |
| `Server.Server.Search` | server.js:93-119 | a falsy query is refused without touching the cache; otherwise the cache advances as one token call and the reply is `SearchReplyFor` of the token outcome and the search |
| `Server.Server.Enrich` | server.js:121-170 | invalid input leaves the cache alone; otherwise the token cache is consulted exactly when the best match lacks artwork, and the reply is `EnrichReplyFor` of the iTunes answer and the fallback |
| `Server.SearchTwice` | server.js:29-45 | a second search within the token's lifetime reuses the cached token and leaves the cache as the first search set it |
| `Moodboard.SongRequests` | frontend/main.js:30-34 | the palette is asked for first, then the enrichment for the same title and artist, then the Spotify search for `${title} ${artist}` |
| `Moodboard.SecondColor` | frontend/main.js:43 | the second colour when it is present and non-empty, else the first |
| `Moodboard.MergeSongInfo` | frontend/main.js:54-58 | title and artist come from Spotify, else the enrichment, else as typed (never empty); the preview only from the enrichment; the artwork from Spotify, else the enrichment, else `''` |
| `Moodboard.SongInfoBlock` | frontend/main.js:60-88 | a `song-info` container of the artwork image, the "title – artist" line, then the audio player exactly when there is a preview, else the no-preview note |
| `Moodboard.ValidatedSong` | frontend/main.js:16-18 | the song is accepted exactly when both trimmed fields are non-empty, and is the trimmed pair |
| `Moodboard.SubmitStep` | frontend/main.js:13-96 | invalid fields only add the alert. Otherwise the trimmed song becomes current, the three requests go out and loading ends hidden. The display is the error message on an exception, or the failure message with the reset colours on an empty palette. Otherwise the colours come from the palette and the display is the mood line, then the info block. |
| `Moodboard.RegenerateStep` | frontend/main.js:98-102 | without a current song nothing happens; with one it is exactly a submission |
| `Moodboard.DisplayOrder` | frontend/main.js:45-89 | after a palette and a lookup, the display is exactly the mood paragraph (when there is a description) followed by the info block, whose children are the image, the title line, then the player or the no-preview note |
| `Moodboard.EnrichmentAlwaysShowsInfo` | frontend/main.js:54 | an enrichment value (even `{}`) is truthy, so the info block is shown |
| `Moodboard.RegenerateRepeatsSong` | frontend/main.js:98-102 | regenerating right after an accepted submission sends the same three requests again |
| `Moodboard.RegenerateReadsFields` | frontend/main.js:98-100 | regenerating re-reads the edited form fields, as a fresh submission does |
| `Moodboard.MoodboardPage.constructor` | frontend/main.js:8-11 | the page starts with both inputs and the current song empty |
| `Moodboard.MoodboardPage.EditFields` | frontend/main.js:16-17 | typing changes only the two inputs the handler reads |
| `Moodboard.MoodboardPage.BeginSubmit` | frontend/main.js:16-27 | trim and validate (alert and stop), then record the song, show loading, clear the display and reset both colours |
| `Moodboard.MoodboardPage.FinishSubmit` | frontend/main.js:29-95 | send the three requests, render the responses, and hide loading in the `finally` |
| `Moodboard.MoodboardPage.ShowResponses` | frontend/main.js:36-39 | the catch's error message, the empty-palette message, or the palette rendering |
| `Moodboard.MoodboardPage.ShowPalette` | frontend/main.js:41-89 | set the two colours, then append the mood paragraph and the info block |
| `Moodboard.MoodboardPage.BuildSongInfo` | frontend/main.js:60-88 | the container built child by child is `SongInfoBlock` of the merged info |
| `Moodboard.MoodboardPage.Submit` | frontend/main.js:13-96 | the handler changes the page exactly as `SubmitStep` |
| `Moodboard.MoodboardPage.Regenerate` | frontend/main.js:98-102 | the button changes the page exactly as `RegenerateStep` |

## Left out

- Express wiring is not modelled: routing, CORS, body parsing, `listen`, status codes beyond the reply's kind, and logging.
- The OpenAI call and `buildMoodPrompt` are not modelled. The message content is a parameter (`None` when missing), and the prompt text affects nothing downstream.
- `fetch`, `res.json()`, `Date.now()`, the base64 credentials and `encodeURIComponent` are left out. The answers of the token endpoint, Spotify and iTunes are parameters, as is the clock.
- `JSON.parse` of the palette span is an opaque parameter returning a list of strings or failing. A parse yielding a non-array value is not modelled.
- `frontend/api.js` and `frontend/spotifySearch.js` are not part of this model. Their observable results are inputs to the page:
  - an enrichment object or `{}`;
  - a Spotify track or `null`;
  - the palette and description, already defaulted.
- The unused `id` field of the Spotify reply is dropped.
- Request fields are taken to be strings or missing. A truthy non-string `artist` would throw at `artist.toLowerCase()` (server.js:137) and give a 500; that path is not modelled.
- Spotify's answer does not depend on the token sent. The search is a function of the query alone. In the server, an undefined token (a grant without `access_token`) makes Spotify answer 401, which then reads as "not found" or as `''` artwork. The model gives the search whatever answer that parameter holds.
- Concurrency is not modelled. A click on regenerate while a submission is in flight, and late responses overwriting newer ones, fall outside it. Each submission is atomic.
- Moodboard.SubmitStep: an exception is taken to arise before anything is rendered, with the three requests sent. A throw from `getMoodPalette` would stop the other two calls, but that function catches its own errors. A throw after part of the display was built is not modelled.
- Styling is not modelled: the gradient's use of the colours, the loading indicator's look, the note's font size and the `controls` attribute.
- The CSS variables `--colorA` and `--colorB` are modelled as `""` before the first submission, and the loading indicator as hidden. The page's stylesheet, which sets their initial look, is not part of this model.
- Text.Lower: only ASCII letters are lower-cased. So `Catalog.Keep` and `Catalog.BestMatch` compare artist names with non-ASCII capitals more strictly than JavaScript's full Unicode case mapping. The `/i` keyword test is exact, since its keywords are ASCII and a non-Unicode `/i` folds nothing else onto them.
- TokenCache.CacheMiss: `expires_in` is a whole number of seconds. A fractional or non-numeric value, other than missing (NaN), is not modelled.
- The token is refetched whenever the cache is stale. Two concurrent requests fetching twice is not modelled.
