# Catalog client of a music player, modelled in Dafny

The browser client talks to a music catalog through one service object,
`SpotifyApiService` (`src/services/spotifyApi.ts`). The model covers three parts.

- **The access-token cache.** The service stores the user's client id and
  secret in a storage entry. It obtains an access token with the OAuth 2.0
  client-credentials grant (section 4.4 of RFC 6749). It keeps that token in
  two fields, `accessToken` and `tokenExpiry`, until the clock reaches the
  expiry.
- **The request gate.** `makeRequest` sends the token in a bearer
  Authorization header (section 2.1 of RFC 6750). It refuses to send anything
  when no token is available.
- **Response shaping.** The service reshapes the catalog responses. The home
  page (`src/pages/Home.tsx`) formats track durations as `m:ss` and shows the
  first few items of two lists.

Files:

- `decimal.dfy` (module `Decimal`): decimal text of natural numbers, which is
  what JavaScript's number-to-string conversion gives for integers up to
  2^53. It also holds
  the parser that inverts it.
- `spotify_api.dfy` (module `SpotifyApi`): the record shapes and the response
  bodies. It defines `AccessTokenStep`, a pure function giving the outcome of
  one `getAccessToken` call, and `Gate`, the outcome of one `makeRequest`. It
  defines the shaping functions, the lemmas about all of these, and the class
  `SpotifyApiService`.
- `home.dfy` (module `Home`): `FormatDuration`, its parser partner
  `ParseClock`, and the two list truncations.

The class has the fields of the source:

- `stored`: the `spotify_credentials` storage entry, as an
  `Option<Credentials>`.
- `accessToken` and `tokenExpiry`.
- Two ghost logs: `tokenRequests` (every token request sent) and
  `apiRequests` (every catalog request sent, with its URL and Authorization
  header). The contracts use these logs to say whether a network call
  happened.

Each method's `ensures` ties the new fields and logs, and the value returned,
to `AccessTokenStep` and `Gate`. The lemmas then prove the cache's promises
about those functions.

The outside world is passed in as parameters:

- The clock reading at the freshness check is `now`.
- The token endpoint's answer is a `TokenReply`. It holds the HTTP reply and
  the clock reading taken after the body was read, which is the second
  `Date.now()` in the source.
- The catalog API's answer is an `HttpReply`.

`SwitchingCredentialsKeepsToken` is a client of the class. It shows that a
cached token survives a change of credentials, and that rejected credentials
still leave the service configured.

The code has no authorization-code redirect, no anti-forgery `state` check,
no refresh token and no expiry safety margin. It has no logout and no
fallback data. None of these appear in the model either.

## Model

| member | source | states |
|---|---|---|
| Decimal.FromNat | src/pages/Home.tsx:57 | the numeral of a natural is non-empty, all digits, with no leading zero; it has one digit exactly below 10 and at most two exactly below 100 |
| Decimal.ToNatFromNat | src/pages/Home.tsx:57 | parsing the numeral of n gives n back |
| SpotifyApi.BearerHeaderCarriesToken | src/services/spotifyApi.ts:79-83 | the Authorization header is `Bearer`, one space, then the token unchanged |
| SpotifyApi.ApiErrorMessageNamesStatus | src/services/spotifyApi.ts:85-87 | the upstream error message is the fixed prefix followed by the status in decimal, which parses back to the status; it differs from the missing-token message |
| SpotifyApi.ExpiryAt | src/services/spotifyApi.ts:66 | the expiry is `expires_in` seconds, in milliseconds, after the clock reading, so it is strictly later when `expires_in > 0` |
| SpotifyApi.NoCredentialsNoFetch | src/services/spotifyApi.ts:40-42 | with no credentials entry the call returns null, sends no token request and changes nothing, even while a cached token is fresh |
| SpotifyApi.FreshTokenReused | src/services/spotifyApi.ts:46-48 | a non-empty cached token before its expiry is returned unchanged, with no request and both fields unchanged |
| SpotifyApi.FetchExactlyWhenStale | src/services/spotifyApi.ts:46-58 | with credentials stored that `btoa` accepts, a token request is sent exactly when the cache is not fresh; at `now == tokenExpiry` it is sent, because the comparison is strict |
| SpotifyApi.UnencodableNeverFetch | src/services/spotifyApi.ts:50-58 | credentials with a character above U+00FF never cause a token request: `btoa` throws while the request is built, the `catch` (:69-72) returns null, and the cache is kept |
| SpotifyApi.EuroSignNotEncodable | src/services/spotifyApi.ts:55 | credentials holding a euro sign are rejected by `btoa`, so a stale cache with a granted reply still gives null, no request and an unchanged cache |
| SpotifyApi.GrantedTokenCached | src/services/spotifyApi.ts:64-68 | for encodable credentials, on a 2xx token response both fields take the new token and `readAt + expires_in*1000`, and the new token is returned |
| SpotifyApi.FailedFetchKeepsCache | src/services/spotifyApi.ts:60-72 | for encodable credentials, on a non-2xx token response or a network error the call returns null and both fields keep their previous values |
| SpotifyApi.CacheIgnoresCredentials | src/services/spotifyApi.ts:35-48 | while the cached token is fresh the outcome is the same whichever credentials are stored: the cache is not keyed to them |
| SpotifyApi.TokenServesUntilExpiry | src/services/spotifyApi.ts:46-48 | over any series of calls made before the expiry of a non-empty token, no token request is sent, every call returns that token, and the cache ends as it began |
| SpotifyApi.NoCredentialsNeverFetch | src/services/spotifyApi.ts:41-42 | over any series of calls with no credentials entry, nothing is sent, every call returns null, and the cache is untouched |
| SpotifyApi.GateOutcomes | src/services/spotifyApi.ts:75-90 | a request succeeds exactly when a usable token exists and the API answers 2xx, and then yields the body; with no usable token it fails with the missing-token error; any other status fails with that status |
| SpotifyApi.AttachAlbum | src/services/spotifyApi.ts:100-102 | every track of an album is kept, in order, with its `album` replaced by that album |
| SpotifyApi.NewReleaseTracks | src/services/spotifyApi.ts:99-104 | the flattened list is as long as the sum of the albums' track counts; albums without `tracks.items` contribute nothing |
| SpotifyApi.NewReleaseTrackAt | src/services/spotifyApi.ts:99-104 | track j of album i is at position (tracks of the albums before i) + j, with album i attached, so album order and track order are kept |
| SpotifyApi.NewReleaseTrackOrigin | src/services/spotifyApi.ts:99-104 | every returned track is track j of some album i, at that position, with album i attached |
| SpotifyApi.CategoryNames | src/services/spotifyApi.ts:112-115 | the result keeps length and order and holds exactly the categories' `name` fields |
| SpotifyApi.SpotifyApiService.constructor | src/services/spotifyApi.ts:31-33 | a new service has no token, expiry 0, sees whatever the storage already holds, and has sent nothing |
| SpotifyApi.SpotifyApiService.GetAccessToken | src/services/spotifyApi.ts:40-73 | the returned token, the new fields and the token requests sent are those of `AccessTokenStep`; a request is a `POST` to the token endpoint, form-encoded, with `clientId:clientSecret` as Basic credentials and the client-credentials body |
| SpotifyApi.SpotifyApiService.IsConfigured | src/services/spotifyApi.ts:117-119 | configured exactly when the storage entry is present; the source tests `!== null` here but truthiness at :42, which agree because the only writer (:36) stores non-empty JSON |
| SpotifyApi.SpotifyApiService.SetCredentials | src/services/spotifyApi.ts:35-38 | the entry is stored first, so the service is configured afterwards whatever the token endpoint answers; the cache then moves as one `getAccessToken` call |
| SpotifyApi.SpotifyApiService.MakeRequest | src/services/spotifyApi.ts:75-90 | without a usable token it fails with the missing-token error and sends no API request; otherwise it sends one request to the base URL followed by the endpoint, with the bearer header, and fails with the status on any non-2xx answer |
| SpotifyApi.SpotifyApiService.GetFeaturedPlaylists | src/services/spotifyApi.ts:92-95 | requests the featured-playlists endpoint with the limit and returns the playlists of the body, or the request's error |
| SpotifyApi.SpotifyApiService.GetNewReleases | src/services/spotifyApi.ts:97-105 | requests the new-releases endpoint with the limit and returns the flattened tracks of the albums, or the request's error |
| SpotifyApi.SpotifyApiService.SearchTracks | src/services/spotifyApi.ts:107-110 | requests the search endpoint with the encoded query, type `track` and the limit, and returns the tracks of the body, or the request's error |
| SpotifyApi.SpotifyApiService.GetCategories | src/services/spotifyApi.ts:112-115 | requests the categories endpoint with limit 50 and returns the category names, or the request's error |
| Home.PadStart | src/pages/Home.tsx:57 | the result has the larger of the width and the input's length, ends with the input, and has only the fill character in front |
| Home.PaddedSeconds | src/pages/Home.tsx:56-57 | a seconds count below 60 padded with `'0'` is exactly two digits and reads back as itself |
| Home.FormatDuration | src/pages/Home.tsx:54-58 | the text reads as `m:ss`: digits, one `':'`, exactly two digits; the minutes are `ms / 60000` (floor), written without leading zero (a zero minute is the single digit `0`), and the seconds `(ms % 60000) / 1000` (floor) |
| Home.WholeSeconds | src/pages/Home.tsx:55-56 | the minutes and the seconds shown are the whole seconds of the duration divided by 60 and taken modulo 60 |
| Home.FormatDurationBracket | src/pages/Home.tsx:55-56 | the seconds shown lie in 0..59, and minutes*60000 + seconds*1000 <= ms < minutes*60000 + seconds*1000 + 1000 |
| Home.FormatDurationAgreesOnWholeSeconds | src/pages/Home.tsx:54-58 | two durations format to the same text exactly when they have the same whole seconds: only the sub-second part is lost |
| Home.Prefix | src/pages/Home.tsx:77 | `slice(0, n)` keeps the first `min(n, length)` elements in their order |
| Home.KeptCategories | src/pages/Home.tsx:36 | the categories kept are the first `min(11, n)` names, in order |
| Home.TopGrid | src/pages/Home.tsx:77 | the top grid shows the first `min(6, n)` new releases, in order |
| Home.ShownCategories | src/pages/Home.tsx:36 | the names kept are those of the first `min(11, n)` categories of the response, in order |

## Left out

- The browser and transport APIs are inputs, not modelled code: `fetch`,
  `response.json()`, `localStorage`, `Date.now()` and `console.error`. Of
  `btoa` only its failure is modelled: it throws on a character above
  U+00FF. Token requests record the Basic credentials before their Base64
  encoding.
- The stored credentials are a structured `Credentials` value. The
  `JSON.parse` at `src/services/spotifyApi.ts:44` is left out. It sits
  outside the `try`, so in the source a malformed entry makes
  `getAccessToken` fail, and with it `makeRequest` and the four catalog
  queries. `setCredentials` cannot meet a malformed entry: it writes
  `JSON.stringify` of the credentials (:36) just before reading it back.
- The response bodies are the decoded, well-formed records. The source fails
  with a `TypeError` when a field it reads is missing, for example
  `data.albums`. The exception is the album's optional `tracks.items`, which
  is modelled.
- A failure of `response.json()` on the catalog response is not modelled.
  The same failure on a 2xx token response is caught in the source, and it
  has the same outcome as the `NetworkError` case: null, with the cache
  unchanged.
- The token response is always taken to have a string `access_token` and an
  integer `expires_in`. In the source a missing field gives `undefined` or
  `NaN`.
- The attached album is recorded in the `SpotifyTrack.album` shape: its name
  and images. The source attaches the whole album object. The spread
  `...track` also keeps fields beyond the declared record, which the model
  does not have.
- The `limit = 20` defaults of `getFeaturedPlaylists`, `getNewReleases` and
  `searchTracks` are not modelled: every caller gives the limit explicitly.
- `encodeURIComponent` in `searchTracks` is a foreign call. The model takes
  the encoded query as a parameter.
- Durations and limits are naturals. Fractional or negative values mean
  floating-point behaviour and JavaScript `%`, which are not modelled.
- Decimal.FromNat: gives the exact digits of every natural. JavaScript
  numbers are exact integers only up to 2^53. Above that, the division in
  `formatDuration` and the printed digits can differ from the exact ones, and
  from 10^21 the output switches to exponent notation. Neither is modelled.
- Concurrent calls are not modelled: each call runs to completion, so two
  `getAccessToken` calls cannot interleave. This covers `Promise.all` in
  `loadSpotifyData` (`src/pages/Home.tsx:28-32`) and the await points inside
  the service.
- React rendering, state hooks, toasts and routing are UI and are not
  modelled. This covers the rest of `Home.tsx` and all of the other pages
  and components.
- The setup form's whitespace check (`src/components/SpotifySetup.tsx:20`)
  only decides which toast to show, so it is left out.
- The static tables in `src/data/mockData.ts` have no behaviour and are left
  out.
