/** The catalog client of the music player: an access-token cache obtained
    with the OAuth 2.0 client-credentials grant (section 4.4 of RFC 6749), a
    request gate that sends the token as a bearer credential (section 2.1 of
    RFC 6750), and the shaping of the catalog responses into records. */
module SpotifyApi {
  import Decimal

  const BaseUrl: string := "https://api.spotify.com/v1"
  const TokenEndpoint: string := "https://accounts.spotify.com/api/token"
  /** The form-encoded body of the token request (section 4.4.2 of RFC 6749). */
  const ClientCredentialsBody: string := "grant_type=client_credentials"
  const NoTokenMessage: string := "No access token available"
  const ApiErrorPrefix: string := "Spotify API error: "

  datatype Option<T> = None | Some(value: T)

  // ---------------------------------------------------------------------------
  // Catalog records

  datatype Image = Image(url: string)
  datatype Artist = Artist(name: string)
  /** The album as a track carries it: its name and its artwork. */
  datatype AlbumRef = AlbumRef(name: string, images: seq<Image>)

  datatype SpotifyTrack = SpotifyTrack(
    id: string,
    name: string,
    artists: seq<Artist>,
    album: AlbumRef,
    durationMs: nat,
    previewUrl: Option<string>)

  datatype SpotifyPlaylist = SpotifyPlaylist(
    id: string,
    name: string,
    description: string,
    images: seq<Image>,
    tracksTotal: nat)

  /** What the user enters and the storage entry holds. */
  datatype Credentials = Credentials(clientId: string, clientSecret: string)

  // ---------------------------------------------------------------------------
  // Response bodies, already decoded from JSON

  /** An album's `tracks` object, whose `items` may be missing. */
  datatype TrackPage = TrackPage(items: Option<seq<SpotifyTrack>>)
  /** An album of the new-releases listing; its `tracks` may be missing. */
  datatype ReleaseAlbum = ReleaseAlbum(name: string, images: seq<Image>, tracks: Option<TrackPage>)
  datatype Category = Category(id: string, name: string)

  datatype NewReleasesBody = NewReleasesBody(albums: seq<ReleaseAlbum>)
  datatype FeaturedBody = FeaturedBody(playlists: seq<SpotifyPlaylist>)
  datatype SearchBody = SearchBody(tracks: seq<SpotifyTrack>)
  datatype CategoriesBody = CategoriesBody(categories: seq<Category>)
  /** The token response fields used (section 5.1 of RFC 6749); `expiresIn` is in seconds. */
  datatype TokenBody = TokenBody(accessToken: string, expiresIn: int)

  // ---------------------------------------------------------------------------
  // The transport, as inputs

  /** What a fetch yields: a response with a status and a decoded body, or a
      rejection before any response (network failure) with its message. */
  datatype HttpReply<B> = Responded(status: nat, body: B) | NetworkError(message: string)

  /** The `ok` flag of a fetch response: a 2xx status. */
  predicate IsOk(status: nat) {
    200 <= status <= 299
  }

  /** The token endpoint's answer, with the clock reading taken after its
      body was read (the second `Date.now()` of the token fetch). */
  datatype TokenReply = TokenReply(response: HttpReply<TokenBody>, readAt: int)

  /** A token request as sent: method, URL, Content-Type, the Basic
      credentials before their Base64 encoding, and the body. */
  datatype TokenRequest = TokenRequest(httpMethod: string, url: string, contentType: string, basicCredentials: string, body: string)
  /** A catalog request as sent: its URL and its Authorization header. */
  datatype ApiRequest = ApiRequest(url: string, authorization: string)

  /** The user-id and password pair of HTTP Basic authentication. */
  function BasicCredentials(c: Credentials): string {
    c.clientId + ":" + c.clientSecret
  }

  /** `btoa` accepts only strings whose every character is at most U+00FF
      and throws on any other. */
  predicate Latin1(s: string) {
    forall i :: 0 <= i < |s| ==> s[i] as int <= 255
  }

  /** The credentials can be put in the Basic header. */
  predicate Encodable(c: Credentials) {
    Latin1(BasicCredentials(c))
  }

  function TokenRequestFor(c: Credentials): TokenRequest {
    TokenRequest("POST", TokenEndpoint, "application/x-www-form-urlencoded", BasicCredentials(c), ClientCredentialsBody)
  }

  function BearerHeader(token: string): string {
    "Bearer " + token
  }

  /** The header is the scheme name, one space and the token itself. */
  lemma BearerHeaderCarriesToken(token: string)
    ensures var h := BearerHeader(token); h[..7] == "Bearer " && h[7..] == token
  {
  }

  // ---------------------------------------------------------------------------
  // Errors

  datatype Error =
    | NoAccessToken
    | ApiError(status: nat)
    | TransportError(message: string)

  datatype Result<T> = Ok(value: T) | Err(error: Error)

  /** The message of the error thrown for each failure. */
  function Message(e: Error): string {
    match e
    case NoAccessToken => NoTokenMessage
    case ApiError(status) => ApiErrorPrefix + Decimal.FromNat(status)
    case TransportError(m) => m
  }

  /** The message of an upstream failure names its status, and can be read
      back from it; it never reads as the missing-token message. */
  lemma ApiErrorMessageNamesStatus(status: nat)
    ensures var m := Message(ApiError(status));
      m[..|ApiErrorPrefix|] == ApiErrorPrefix
      && Decimal.AllDigits(m[|ApiErrorPrefix|..])
      && Decimal.ToNat(m[|ApiErrorPrefix|..]) == status
      && m != Message(NoAccessToken)
  {
    var m := Message(ApiError(status));
    assert m[|ApiErrorPrefix|..] == Decimal.FromNat(status);
    Decimal.ToNatFromNat(status);
    assert m[0] != NoTokenMessage[0];
  }

  // ---------------------------------------------------------------------------
  // The token cache, as a specification

  /** The two cache fields of the service. */
  datatype TokenCache = TokenCache(accessToken: Option<string>, tokenExpiry: int)

  /** The cache of a new service: no token, expiry 0. */
  const EmptyCache: TokenCache := TokenCache(None, 0)

  /** JavaScript truthiness of a `string | null`: present and not empty. */
  predicate Truthy(t: Option<string>) {
    t.Some? && t.value != ""
  }

  /** The cached token may be used at time `now` (milliseconds). */
  predicate Fresh(c: TokenCache, now: int) {
    Truthy(c.accessToken) && now < c.tokenExpiry
  }

  /** The absolute expiry (milliseconds) of a token valid `expiresIn` seconds
      from the clock reading `readAt` (milliseconds). */
  function ExpiryAt(readAt: int, expiresIn: int): (e: int)
    ensures expiresIn > 0 ==> e > readAt
    ensures e - readAt == expiresIn * 1000
  {
    readAt + expiresIn * 1000
  }

  /** One `getAccessToken` call: the new cache, the value returned, and
      whether a token request was sent. */
  datatype TokenOutcome = TokenOutcome(cache: TokenCache, token: Option<string>, fetched: bool)

  function AccessTokenStep(stored: Option<Credentials>, c: TokenCache, now: int, reply: TokenReply): TokenOutcome {
    if stored.None? then TokenOutcome(c, None, false)
    else if Fresh(c, now) then TokenOutcome(c, c.accessToken, false)
    else if !Encodable(stored.value) then TokenOutcome(c, None, false)
    else match reply.response
      case Responded(status, body) =>
        if IsOk(status) then
          TokenOutcome(TokenCache(Some(body.accessToken), ExpiryAt(reply.readAt, body.expiresIn)), Some(body.accessToken), true)
        else
          TokenOutcome(c, None, true)
      case NetworkError(_) => TokenOutcome(c, None, true)
  }

  /** Without a credentials entry nothing is fetched and null is returned,
      even while a cached token is still fresh. */
  lemma NoCredentialsNoFetch(c: TokenCache, now: int, reply: TokenReply)
    ensures AccessTokenStep(None, c, now, reply) == TokenOutcome(c, None, false)
  {
  }

  /** A fresh cached token is returned as it is, with no fetch. */
  lemma FreshTokenReused(creds: Credentials, c: TokenCache, now: int, reply: TokenReply)
    requires Fresh(c, now)
    ensures AccessTokenStep(Some(creds), c, now, reply) == TokenOutcome(c, c.accessToken, false)
  {
  }

  /** With encodable credentials stored, a fetch happens exactly when the
      cache is not fresh; in particular at the expiry instant itself. */
  lemma FetchExactlyWhenStale(creds: Credentials, c: TokenCache, now: int, reply: TokenReply)
    requires Encodable(creds)
    ensures AccessTokenStep(Some(creds), c, now, reply).fetched <==> !Fresh(c, now)
    ensures Truthy(c.accessToken) ==> AccessTokenStep(Some(creds), c, c.tokenExpiry, reply).fetched
  {
  }

  /** Credentials `btoa` rejects never cause a fetch: a stale cache then
      gives null, caught before the request is built, and the cache is kept. */
  lemma UnencodableNeverFetch(creds: Credentials, c: TokenCache, now: int, reply: TokenReply)
    requires !Encodable(creds)
    ensures var o := AccessTokenStep(Some(creds), c, now, reply);
      !o.fetched && o.cache == c
      && o.token == (if Fresh(c, now) then c.accessToken else None)
  {
  }

  /** A character above U+00FF, such as the euro sign, makes credentials
      unencodable: a granted reply is then never asked for or used. */
  lemma EuroSignNotEncodable()
    ensures !Encodable(Credentials("cl\U{20AC}nt", "s"))
    ensures AccessTokenStep(Some(Credentials("cl\U{20AC}nt", "s")), EmptyCache, 0,
                            TokenReply(Responded(200, TokenBody("t", 3600)), 0))
            == TokenOutcome(EmptyCache, None, false)
  {
    assert BasicCredentials(Credentials("cl\U{20AC}nt", "s"))[2] as int == 0x20AC;
  }

  /** For encodable credentials, a successful token response replaces both fields and the new token is
      returned; a positive lifetime puts the new expiry after the reading. */
  lemma GrantedTokenCached(creds: Credentials, c: TokenCache, now: int, reply: TokenReply)
    requires !Fresh(c, now) && Encodable(creds)
    requires reply.response.Responded? && IsOk(reply.response.status)
    ensures var o := AccessTokenStep(Some(creds), c, now, reply);
      var body := reply.response.body;
      o.fetched
      && o.token == Some(body.accessToken)
      && o.cache.accessToken == o.token
      && o.cache.tokenExpiry == reply.readAt + body.expiresIn * 1000
      && (body.expiresIn > 0 ==> o.cache.tokenExpiry > reply.readAt)
  {
  }

  /** For encodable credentials, a failed fetch (non-2xx status or network error) returns null and
      leaves both fields as they were. */
  lemma FailedFetchKeepsCache(creds: Credentials, c: TokenCache, now: int, reply: TokenReply)
    requires !Fresh(c, now) && Encodable(creds)
    requires reply.response.NetworkError? || !IsOk(reply.response.status)
    ensures AccessTokenStep(Some(creds), c, now, reply) == TokenOutcome(c, None, true)
  {
  }

  /** The cache is not keyed to the credentials: while the token is fresh,
      any two stored credentials give the same outcome. */
  lemma CacheIgnoresCredentials(a: Credentials, b: Credentials, c: TokenCache, now: int, ra: TokenReply, rb: TokenReply)
    requires Fresh(c, now)
    ensures AccessTokenStep(Some(a), c, now, ra) == AccessTokenStep(Some(b), c, now, rb)
  {
  }

  /** One call in a series of `getAccessToken` calls: when it happens and
      what the token endpoint would answer if asked. */
  datatype TokenCall = TokenCall(now: int, reply: TokenReply)

  /** The cache and the number of token requests after a series of calls. */
  datatype TokenRun = TokenRun(cache: TokenCache, fetches: nat, returned: seq<Option<string>>)

  function RunCalls(stored: Option<Credentials>, c: TokenCache, calls: seq<TokenCall>): (r: TokenRun)
    ensures |r.returned| == |calls|
    ensures r.fetches <= |calls|
    decreases |calls|
  {
    if calls == [] then TokenRun(c, 0, [])
    else
      var o := AccessTokenStep(stored, c, calls[0].now, calls[0].reply);
      var rest := RunCalls(stored, o.cache, calls[1..]);
      TokenRun(rest.cache, rest.fetches + (if o.fetched then 1 else 0), [o.token] + rest.returned)
  }

  /** A token issued with some expiry serves every call made before that
      expiry: no call of the series sends a request, each returns that token,
      and the cache ends as it began. */
  lemma {:induction false} TokenServesUntilExpiry(stored: Option<Credentials>, c: TokenCache, calls: seq<TokenCall>)
    requires Truthy(c.accessToken)
    requires forall i :: 0 <= i < |calls| ==> calls[i].now < c.tokenExpiry
    ensures var r := RunCalls(stored, c, calls);
      r.cache == c && r.fetches == 0
      && forall i :: 0 <= i < |calls| ==> r.returned[i] == (if stored.Some? then c.accessToken else None)
    decreases |calls|
  {
    if calls != [] {
      assert calls[0].now < c.tokenExpiry;
      TokenServesUntilExpiry(stored, c, calls[1..]);
    }
  }

  /** Without a credentials entry a series of calls sends nothing and
      returns null every time. */
  lemma {:induction false} NoCredentialsNeverFetch(c: TokenCache, calls: seq<TokenCall>)
    ensures var r := RunCalls(None, c, calls);
      r.cache == c && r.fetches == 0 && forall i :: 0 <= i < |calls| ==> r.returned[i] == None
    decreases |calls|
  {
    if calls != [] {
      NoCredentialsNeverFetch(c, calls[1..]);
    }
  }

  // ---------------------------------------------------------------------------
  // The request gate, as a specification

  /** What `makeRequest` yields for the token it got and the reply the
      catalog API would give. */
  function Gate<B>(token: Option<string>, reply: HttpReply<B>): Result<B> {
    if !Truthy(token) then Err(NoAccessToken)
    else match reply
      case Responded(status, body) => if IsOk(status) then Ok(body) else Err(ApiError(status))
      case NetworkError(m) => Err(TransportError(m))
  }

  /** The gate succeeds exactly when a usable token exists and the API
      answers with a 2xx status, and then yields the body unchanged; every
      other response status is reported as it came. */
  lemma GateOutcomes<B>(token: Option<string>, reply: HttpReply<B>)
    ensures Gate(token, reply).Ok? <==> Truthy(token) && reply.Responded? && IsOk(reply.status)
    ensures Gate(token, reply).Ok? ==> Gate(token, reply).value == reply.body
    ensures !Truthy(token) ==> Gate(token, reply) == Err(NoAccessToken)
    ensures Truthy(token) && reply.Responded? && !IsOk(reply.status) ==> Gate(token, reply) == Err(ApiError(reply.status))
  {
  }

  function NewReleasesEndpoint(limit: nat): string {
    "/browse/new-releases?limit=" + Decimal.FromNat(limit)
  }

  function FeaturedPlaylistsEndpoint(limit: nat): string {
    "/browse/featured-playlists?limit=" + Decimal.FromNat(limit)
  }

  /** `encodedQuery` is the query after URI-component encoding. */
  function SearchEndpoint(encodedQuery: string, limit: nat): string {
    "/search?q=" + encodedQuery + "&type=track&limit=" + Decimal.FromNat(limit)
  }

  const CategoriesEndpoint: string := "/browse/categories?limit=50"

  // ---------------------------------------------------------------------------
  // Response shaping

  /** `album.tracks?.items`, with a missing level read as no tracks. */
  function AlbumTracks(a: ReleaseAlbum): seq<SpotifyTrack> {
    match a.tracks
    case None => []
    case Some(page) =>
      match page.items
      case None => []
      case Some(items) => items
  }

  /** The track with its `album` replaced by the release it came from. */
  function WithAlbum(t: SpotifyTrack, a: ReleaseAlbum): SpotifyTrack {
    t.(album := AlbumRef(a.name, a.images))
  }

  /** The number of tracks the releases hold. */
  function TrackCount(albums: seq<ReleaseAlbum>): nat
    decreases |albums|
  {
    if albums == [] then 0 else |AlbumTracks(albums[0])| + TrackCount(albums[1..])
  }

  /** `items.map(track => ({...track, album}))`. */
  function AttachAlbum(items: seq<SpotifyTrack>, a: ReleaseAlbum): (r: seq<SpotifyTrack>)
    ensures |r| == |items|
    ensures forall i :: 0 <= i < |items| ==> r[i] == WithAlbum(items[i], a)
    decreases |items|
  {
    if items == [] then [] else [WithAlbum(items[0], a)] + AttachAlbum(items[1..], a)
  }

  /** The tracks of `getNewReleases`: every release's tracks, release by
      release, each carrying its own release as album. */
  function NewReleaseTracks(albums: seq<ReleaseAlbum>): (r: seq<SpotifyTrack>)
    ensures |r| == TrackCount(albums)
    decreases |albums|
  {
    if albums == [] then [] else AttachAlbum(AlbumTracks(albums[0]), albums[0]) + NewReleaseTracks(albums[1..])
  }

  lemma TrackCountPrefix(albums: seq<ReleaseAlbum>, i: nat)
    requires 0 < i <= |albums|
    ensures TrackCount(albums[..i]) == |AlbumTracks(albums[0])| + TrackCount(albums[1..][..i - 1])
  {
    assert albums[..i][1..] == albums[1..][..i - 1];
  }

  lemma {:induction false} TrackCountPrefixBound(albums: seq<ReleaseAlbum>, i: nat)
    requires i < |albums|
    ensures TrackCount(albums[..i]) + |AlbumTracks(albums[i])| <= TrackCount(albums)
    decreases i
  {
    if i > 0 {
      TrackCountPrefix(albums, i);
      TrackCountPrefixBound(albums[1..], i - 1);
    }
  }

  /** Track j of release i sits at position TrackCount(albums[..i]) + j,
      carrying release i as its album. */
  lemma {:induction false} NewReleaseTrackAt(albums: seq<ReleaseAlbum>, i: nat, j: nat)
    requires i < |albums| && j < |AlbumTracks(albums[i])|
    ensures TrackCount(albums[..i]) + j < |NewReleaseTracks(albums)|
    ensures NewReleaseTracks(albums)[TrackCount(albums[..i]) + j] == WithAlbum(AlbumTracks(albums[i])[j], albums[i])
    decreases i
  {
    TrackCountPrefixBound(albums, i);
    var head := AttachAlbum(AlbumTracks(albums[0]), albums[0]);
    if i == 0 {
      assert albums[..0] == [];
    } else {
      TrackCountPrefix(albums, i);
      NewReleaseTrackAt(albums[1..], i - 1, j);
      assert NewReleaseTracks(albums) == head + NewReleaseTracks(albums[1..]);
    }
  }

  /** Every returned track is some release's track, tagged with that release. */
  lemma {:induction false} NewReleaseTrackOrigin(albums: seq<ReleaseAlbum>, k: nat)
    requires k < |NewReleaseTracks(albums)|
    ensures exists i, j ::
              && 0 <= i < |albums| && 0 <= j < |AlbumTracks(albums[i])|
              && k == TrackCount(albums[..i]) + j
              && NewReleaseTracks(albums)[k] == WithAlbum(AlbumTracks(albums[i])[j], albums[i])
    decreases |albums|
  {
    var n0 := |AlbumTracks(albums[0])|;
    if k < n0 {
      assert albums[..0] == [];
      NewReleaseTrackAt(albums, 0, k);
    } else {
      NewReleaseTrackOrigin(albums[1..], k - n0);
      var i, j :| 0 <= i < |albums[1..]| && 0 <= j < |AlbumTracks(albums[1..][i])|
        && k - n0 == TrackCount(albums[1..][..i]) + j;
      TrackCountPrefix(albums, i + 1);
      NewReleaseTrackAt(albums, i + 1, j);
    }
  }

  /** The names of `getCategories`, in order. */
  function CategoryNames(items: seq<Category>): (r: seq<string>)
    ensures |r| == |items|
    ensures forall i :: 0 <= i < |items| ==> r[i] == items[i].name
    decreases |items|
  {
    if items == [] then [] else [items[0].name] + CategoryNames(items[1..])
  }

  /** A gate result with its success value shaped by `getNewReleases`. */
  function ShapeNewReleases(g: Result<NewReleasesBody>): Result<seq<SpotifyTrack>> {
    match g
    case Ok(body) => Ok(NewReleaseTracks(body.albums))
    case Err(e) => Err(e)
  }

  function ShapeCategories(g: Result<CategoriesBody>): Result<seq<string>> {
    match g
    case Ok(body) => Ok(CategoryNames(body.categories))
    case Err(e) => Err(e)
  }

  function ShapeFeatured(g: Result<FeaturedBody>): Result<seq<SpotifyPlaylist>> {
    match g
    case Ok(body) => Ok(body.playlists)
    case Err(e) => Err(e)
  }

  function ShapeSearch(g: Result<SearchBody>): Result<seq<SpotifyTrack>> {
    match g
    case Ok(body) => Ok(body.tracks)
    case Err(e) => Err(e)
  }

  // ---------------------------------------------------------------------------
  // The service object

  class SpotifyApiService {
    /** The `spotify_credentials` storage entry. */
    var stored: Option<Credentials>
    var accessToken: Option<string>
    var tokenExpiry: int
    /** Every token request sent, oldest first. */
    ghost var tokenRequests: seq<TokenRequest>
    /** Every catalog request sent, oldest first. */
    ghost var apiRequests: seq<ApiRequest>

    ghost function Cache(): TokenCache
      reads this
    {
      TokenCache(accessToken, tokenExpiry)
    }

    /** The token requests one `getAccessToken` call adds. */
    ghost function Sent(o: TokenOutcome, creds: Option<Credentials>): seq<TokenRequest> {
      if o.fetched && creds.Some? then [TokenRequestFor(creds.value)] else []
    }

    /** The storage entry is present (`!== null`). */
    function IsConfigured(): (r: bool)
      reads this
      ensures r <==> stored.Some?
    {
      stored != None
    }

    /** A service over a storage that may already hold credentials. */
    constructor (persisted: Option<Credentials>)
      ensures stored == persisted && Cache() == EmptyCache
      ensures tokenRequests == [] && apiRequests == []
    {
      stored := persisted;
      accessToken := None;
      tokenExpiry := 0;
      tokenRequests := [];
      apiRequests := [];
    }

    method GetAccessToken(now: int, reply: TokenReply) returns (token: Option<string>)
      modifies this`accessToken, this`tokenExpiry, this`tokenRequests
      ensures var o := AccessTokenStep(stored, old(Cache()), now, reply);
        token == o.token && Cache() == o.cache
        && tokenRequests == old(tokenRequests) + Sent(o, stored)
    {
      if stored.None? {
        return None;
      }
      var creds := stored.value;
      if Truthy(accessToken) && now < tokenExpiry {
        return accessToken;
      }
      if !Encodable(creds) {
        return None;
      }
      tokenRequests := tokenRequests + [TokenRequestFor(creds)];
      match reply.response {
        case NetworkError(_) =>
          return None;
        case Responded(status, body) =>
          if !IsOk(status) {
            return None;
          }
          accessToken := Some(body.accessToken);
          tokenExpiry := ExpiryAt(reply.readAt, body.expiresIn);
          return accessToken;
      }
    }

    /** Stores the entry first, then tries to obtain a token; never fails. */
    method SetCredentials(credentials: Credentials, now: int, reply: TokenReply)
      modifies this`stored, this`accessToken, this`tokenExpiry, this`tokenRequests
      ensures stored == Some(credentials) && IsConfigured()
      ensures var o := AccessTokenStep(Some(credentials), old(Cache()), now, reply);
        Cache() == o.cache && tokenRequests == old(tokenRequests) + Sent(o, stored)
    {
      stored := Some(credentials);
      var _ := GetAccessToken(now, reply);
    }

    method MakeRequest<B>(endpoint: string, now: int, tokenReply: TokenReply, reply: HttpReply<B>) returns (r: Result<B>)
      modifies this`accessToken, this`tokenExpiry, this`tokenRequests, this`apiRequests
      ensures var o := AccessTokenStep(stored, old(Cache()), now, tokenReply);
        Cache() == o.cache
        && tokenRequests == old(tokenRequests) + Sent(o, stored)
        && r == Gate(o.token, reply)
        && apiRequests == old(apiRequests)
             + (if Truthy(o.token) then [ApiRequest(BaseUrl + endpoint, BearerHeader(o.token.value))] else [])
    {
      var token := GetAccessToken(now, tokenReply);
      if !Truthy(token) {
        return Err(NoAccessToken);
      }
      apiRequests := apiRequests + [ApiRequest(BaseUrl + endpoint, BearerHeader(token.value))];
      match reply {
        case NetworkError(m) =>
          return Err(TransportError(m));
        case Responded(status, body) =>
          if !IsOk(status) {
            return Err(ApiError(status));
          }
          return Ok(body);
      }
    }

    method GetFeaturedPlaylists(limit: nat, now: int, tokenReply: TokenReply, reply: HttpReply<FeaturedBody>)
      returns (r: Result<seq<SpotifyPlaylist>>)
      modifies this`accessToken, this`tokenExpiry, this`tokenRequests, this`apiRequests
      ensures var o := AccessTokenStep(stored, old(Cache()), now, tokenReply);
        Cache() == o.cache
        && tokenRequests == old(tokenRequests) + Sent(o, stored)
        && r == ShapeFeatured(Gate(o.token, reply))
        && apiRequests == old(apiRequests)
             + (if Truthy(o.token) then [ApiRequest(BaseUrl + FeaturedPlaylistsEndpoint(limit), BearerHeader(o.token.value))] else [])
    {
      var data := MakeRequest(FeaturedPlaylistsEndpoint(limit), now, tokenReply, reply);
      r := ShapeFeatured(data);
    }

    method GetNewReleases(limit: nat, now: int, tokenReply: TokenReply, reply: HttpReply<NewReleasesBody>)
      returns (r: Result<seq<SpotifyTrack>>)
      modifies this`accessToken, this`tokenExpiry, this`tokenRequests, this`apiRequests
      ensures var o := AccessTokenStep(stored, old(Cache()), now, tokenReply);
        Cache() == o.cache
        && tokenRequests == old(tokenRequests) + Sent(o, stored)
        && r == ShapeNewReleases(Gate(o.token, reply))
        && apiRequests == old(apiRequests)
             + (if Truthy(o.token) then [ApiRequest(BaseUrl + NewReleasesEndpoint(limit), BearerHeader(o.token.value))] else [])
    {
      var data := MakeRequest(NewReleasesEndpoint(limit), now, tokenReply, reply);
      r := ShapeNewReleases(data);
    }

    method SearchTracks(encodedQuery: string, limit: nat, now: int, tokenReply: TokenReply, reply: HttpReply<SearchBody>)
      returns (r: Result<seq<SpotifyTrack>>)
      modifies this`accessToken, this`tokenExpiry, this`tokenRequests, this`apiRequests
      ensures var o := AccessTokenStep(stored, old(Cache()), now, tokenReply);
        Cache() == o.cache
        && tokenRequests == old(tokenRequests) + Sent(o, stored)
        && r == ShapeSearch(Gate(o.token, reply))
        && apiRequests == old(apiRequests)
             + (if Truthy(o.token) then [ApiRequest(BaseUrl + SearchEndpoint(encodedQuery, limit), BearerHeader(o.token.value))] else [])
    {
      var data := MakeRequest(SearchEndpoint(encodedQuery, limit), now, tokenReply, reply);
      r := ShapeSearch(data);
    }

    method GetCategories(now: int, tokenReply: TokenReply, reply: HttpReply<CategoriesBody>)
      returns (r: Result<seq<string>>)
      modifies this`accessToken, this`tokenExpiry, this`tokenRequests, this`apiRequests
      ensures var o := AccessTokenStep(stored, old(Cache()), now, tokenReply);
        Cache() == o.cache
        && tokenRequests == old(tokenRequests) + Sent(o, stored)
        && r == ShapeCategories(Gate(o.token, reply))
        && apiRequests == old(apiRequests)
             + (if Truthy(o.token) then [ApiRequest(BaseUrl + CategoriesEndpoint, BearerHeader(o.token.value))] else [])
    {
      var data := MakeRequest(CategoriesEndpoint, now, tokenReply, reply);
      r := ShapeCategories(data);
    }
  }

  /** A caller's view: a token obtained with one set of credentials keeps
      being used after the credentials are replaced, with no second token
      request, and rejected token requests leave the service configured. */
  method SwitchingCredentialsKeepsToken(a: Credentials, b: Credentials, anyReply: TokenReply)
    requires Encodable(a) && Encodable(b)
  {
    var s := new SpotifyApiService(None);
    assert !s.IsConfigured();
    var granted := TokenReply(Responded(200, TokenBody("tok", 3600)), 10);
    s.SetCredentials(a, 5, granted);
    assert s.accessToken == Some("tok") && s.tokenExpiry == 3600010;
    assert s.tokenRequests == [TokenRequestFor(a)];
    s.SetCredentials(b, 3600009, anyReply);
    assert s.accessToken == Some("tok") && |s.tokenRequests| == 1;
    var t := s.GetAccessToken(3600010, anyReply);
    assert |s.tokenRequests| == 2 && s.tokenRequests[1] == TokenRequestFor(b);

    var other := new SpotifyApiService(None);
    other.SetCredentials(b, 0, TokenReply(Responded(401, TokenBody("", 0)), 0));
    assert other.IsConfigured() && other.Cache() == EmptyCache;
    var r := other.GetCategories(1, TokenReply(NetworkError("offline"), 1), Responded(200, CategoriesBody([])));
    assert r == Err(NoAccessToken) && other.apiRequests == [];
  }
}
