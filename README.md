# DeezerAPI client — a Dafny model

This project models the response-handling core of the `DeezerAPI` class of the
music-player page (`reluxe/assets/js/deezer-api.js`). The class searches the
Deezer catalogue by free-text query, falls back to the chart ("top tracks") when
the query is blank, and looks tracks up by id. It reshapes each provider track
into a flat record `{id, title, artist, duration, cover, audioSrc}` and keeps the
last result list in `tracks` and the last non-blank query in `currentQuery`.
For an absent query or a string query without lone surrogates, the class never
throws: a failed list request yields `[]` and a failed lookup yields `null`, and
on failure `tracks` keeps its old value.

The network is taken out. Each operation receives the value that `fetch`
followed by `response.json()` would have produced, as a `Response`:
- `TransportFailure`: the fetch was rejected or the body was not JSON.
- `ProviderError(message?)`: the body carried an `error` object.
- `Ok(payload)`: the payload is either a `{data: [...]}` list or a single track object.

Each operation also returns the `Request` it would have sent: search, chart or
single track. A `None` request means no network access took place.

Files:
- `wrappers.dfy`: `Option`.
- `js_text.dfy`: JavaScript's `trim` and its decimal rendering of non-negative integers, with round-trip lemmas.
- `duration.dfy`: `formatDuration`, its inverse `ParseDuration`, and the round trips in both directions.
- `tracks.dfy`: raw provider tracks, the record, and the raw→record mapping.
- `deezer_api.dfy`: the responses, the `DeezerAPI` class and its three operations.

The mapping is partial, as the JavaScript is. A raw track without an `artist` or
an `album` object makes `track.artist.name` or `track.album.cover_medium` throw a
TypeError inside the `try`. The whole `map` is then abandoned, so the call returns
`[]` (or `null` for a lookup) and `tracks` is untouched. A body of the wrong shape
ends the same way: a list endpoint answering with a single track has no
`data.data` to map, and a lookup answering with a list has no `artist`. Ids are
compared with `===`, so `TrackId` keeps numbers and strings apart.

## Model

| member | source | states |
|---|---|---|
| `JsText.TrimStart` | reluxe/assets/js/deezer-api.js:16 | the leading part `trim` drops is all whitespace, and what it keeps is a suffix that does not start with whitespace |
| `JsText.TrimEnd` | reluxe/assets/js/deezer-api.js:16 | the trailing part `trim` drops is all whitespace, and what it keeps is a prefix that does not end with whitespace |
| `JsText.Trim` | reluxe/assets/js/deezer-api.js:16 | `query.trim()` is empty exactly when every character of the query is JavaScript whitespace; otherwise it starts and ends with a non-whitespace character |
| `JsText.TrimIsSlice` | reluxe/assets/js/deezer-api.js:16 | what `trim` keeps is one contiguous slice of the input, with only whitespace before and after it |
| `JsText.Decimal` | reluxe/assets/js/deezer-api.js:82 | an interpolated integer below 2^53 is a canonical numeral (digits, non-empty, no leading zero), starting with '0' only for 0 |
| `JsText.DecimalRoundTrip` | reluxe/assets/js/deezer-api.js:82 | reading the numeral of `n` back gives `n` |
| `JsText.NumeralRoundTrip` | reluxe/assets/js/deezer-api.js:82 | every canonical numeral is the rendering of its value, so numerals and naturals correspond one to one |
| `Duration.FormatDuration` | reluxe/assets/js/deezer-api.js:79-83 | the result is the numeral of `seconds / 60`, then ':', then exactly two digits whose value is `seconds % 60` |
| `Duration.ParseDuration` | reluxe/assets/js/deezer-api.js:79-83 | an `m:ss` display reads back as `minutes * 60 + ss`, and anything else is rejected |
| `Duration.FormatThenParse` | reluxe/assets/js/deezer-api.js:79-83 | every formatted duration has the `m:ss` shape and parses back to the seconds it came from |
| `Duration.ParseThenFormat` | reluxe/assets/js/deezer-api.js:79-83 | every well-shaped `m:ss` display is the formatting of the seconds it denotes |
| `Duration.FormatDurationInjective` | reluxe/assets/js/deezer-api.js:79-83 | two different lengths never format alike |
| `Duration.PaddedExactlyBelowTen` | reluxe/assets/js/deezer-api.js:82 | the seconds field starts with a padding '0' exactly when `seconds % 60 < 10` |
| `Duration.FormatDurationExamples` | reluxe/assets/js/deezer-api.js:79-83 | 0, 65, 125, 599 and 3600 seconds show as `0:00`, `1:05`, `2:05`, `9:59` and `60:00` |
| `Tracks.CoverOf` | reluxe/assets/js/deezer-api.js:38 | the cover is never empty; it is `cover_medium` when that is present and non-empty, and otherwise the placeholder `./assets/images/fallback.svg` |
| `Tracks.Normalize` | reluxe/assets/js/deezer-api.js:33-40 | a raw track yields a record exactly when its `artist` and `album` objects are present |
| `Tracks.NormalizeFaithful` | reluxe/assets/js/deezer-api.js:33-40 | id, title, preview and `artist.name` are copied; the duration display parses back to the raw seconds; the cover follows the `||` fallback and is never empty |
| `Tracks.NormalizeAll` | reluxe/assets/js/deezer-api.js:62-69 | the list maps exactly when every element does; then it has one record per element, in order, each the element's own record |
| `Tracks.NormalizeAllDisplayInvariants` | reluxe/assets/js/deezer-api.js:62-69 | every record of a mapped list has an `m:ss` duration and a non-empty cover |
| `DeezerApi.ListResult` | reluxe/assets/js/deezer-api.js:24-42 | a list call succeeds exactly on an `Ok` list body whose elements all map; it then yields one record per element, in order |
| `DeezerApi.TrackResult` | reluxe/assets/js/deezer-api.js:93-112 | a lookup request succeeds exactly on an `Ok` single-track body that maps, and yields that track's record |
| `DeezerApi.IsBlankQuery` | reluxe/assets/js/deezer-api.js:16 | the blank-query test (absent, or empty after `trim`) holds exactly when the query is absent or made only of whitespace |
| `DeezerApi.FirstWithId` | reluxe/assets/js/deezer-api.js:87 | `find` gives the first index whose id is `===` to the key, and gives none exactly when no id matches |
| `DeezerApi.DeezerAPI.constructor` | reluxe/assets/js/deezer-api.js:9-12 | a new client has no tracks and an empty query |
| `DeezerApi.DeezerAPI.GetTopTracks` | reluxe/assets/js/deezer-api.js:50-76 | sends the chart request; on success `tracks` becomes the mapped list and that list is returned; on any failure `[]` is returned and `tracks` is kept; `currentQuery` never changes |
| `DeezerApi.DeezerAPI.SearchTracks` | reluxe/assets/js/deezer-api.js:15-47 | a blank query sends the chart request and leaves `currentQuery` alone; any other query is stored in `currentQuery` whether or not the request succeeds, and sends the search request; results and `tracks` as for the chart |
| `DeezerApi.DeezerAPI.GetTrackById` | reluxe/assets/js/deezer-api.js:86-113 | the first record in `tracks` with that id is returned and no request is sent; otherwise the single-track request is sent and its record, or `None`, is returned; neither field changes |
| `DeezerApi.BlankSearchIsTopTracks` | reluxe/assets/js/deezer-api.js:16-19 | a blank search and a chart request, from the same state and given the same response, send the same request, return the same list and leave the same state |
| `DeezerApi.ExampleListResult` | reluxe/assets/js/deezer-api.js:33-40 | the body `{data:[{id:1,title:"A",artist:{name:"B"},duration:125,album:{cover_medium:"x.jpg"},preview:"p.mp3"}]}` maps to the single record `{1,"A","B","2:05","x.jpg","p.mp3"}` |
| `DeezerApi.SearchThenLookup` | reluxe/assets/js/deezer-api.js:15-47 | a fresh client searching "a" with that body returns that record, and looking up id 1 afterwards returns it without a request |

## Left out

- The network: `fetch`, `response.json()`, the CORS-proxy and Deezer base URLs, and `encodeURIComponent`. Every response is an input value. A request is named by its endpoint and argument, not by its URL.
- `console.error` diagnostics. They have no effect on results or state.
- The provider's error message. `ProviderError` carries it, but it never reaches the caller.
- The global instance, the `DOMContentLoaded` wiring, the click and Enter listeners, the loading indicator and the `updatePlaylist` call. This is page code (lines 116-169).
- Overlapping asynchronous calls, where whichever response arrives last overwrites `tracks`. Each call is modelled as one atomic step.
- JavaScript number semantics of `Math.floor` and `%` on negative, fractional or `NaN` durations. A raw duration is a natural number.
- Duration.FormatDuration: exact only for durations up to `Number.MAX_SAFE_INTEGER` (2^53 - 1). JavaScript numbers are doubles, so larger durations are not held exactly, and from 10^21 on `${minutes}` is written in exponent form. The model writes every natural as a plain exact numeral.
- Raw field values other than the modelled kinds: a `title`, `preview` or `artist.name` that is missing or not a string, and ids that are neither numbers nor strings. A non-string truthy query is left out too; it would throw at `trim` before the `try`.
- A search query holding a lone UTF-16 surrogate. Dafny's `string` cannot hold one, because its characters are Unicode scalar values. For such a query, `encodeURIComponent` at line 22 throws a URIError outside the `try`, after line 21 has already set `currentQuery`. The call then rejects: no request is sent and `[]` is not returned.
- Aliasing. `searchTracks` and `getTopTracks` return the array object they have just stored in `this.tracks`. On a cache hit, `getTrackById` returns the record object stored in `this.tracks` itself, not a copy. The model returns equal values.
- Id uniqueness. The code does not enforce that ids within one result set are unique. `GetTrackById` returns the first match, as `find` does.
- Field names. The record's fields keep the code's names: `duration`, `cover` and `audioSrc`.
