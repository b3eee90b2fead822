/**
 * The Spotify helpers of src/utils/api.ts: the client-credentials guard of the
 * token request, the token-reuse rule of the related-artists request, and the
 * conversion of a Spotify artist into the game's artist record, which picks the
 * image closest to 300x300.
 */
module SpotifyApi {
  import opened Wrappers
  import opened ApiTypes

  datatype ApiError =
    | MissingCredentials               // thrown before any request is made
    | TokenRequestFailed(statusText: string)
    | EmptyImages(artistId: string)    // `reduce` of an empty list without initial value
    | UpstreamFailed(message: string)  // a failed call to Spotify's API

  /** Side length, in pixels, of the image the game would like to show. */
  const PreferredSize: int := 300

  function Abs(x: int): nat {
    if x < 0 then -x else x
  }

  /** L1 distance of an image's (width, height) from (300, 300). */
  function Distance(image: SpotifyImage): nat {
    Abs(image.width - PreferredSize) + Abs(image.height - PreferredSize)
  }

  /**
   * `k` is the position of an image of least distance, and every image before
   * it is strictly farther: the earliest of the closest images.
   */
  ghost predicate IsClosestIndex(images: seq<SpotifyImage>, k: int) {
    && 0 <= k < |images|
    && (forall j :: 0 <= j < |images| ==> Distance(images[k]) <= Distance(images[j]))
    && (forall j :: 0 <= j < k ==> Distance(images[j]) > Distance(images[k]))
  }

  /** At most one position is the earliest closest image. */
  lemma ClosestIndexUnique(images: seq<SpotifyImage>, k1: int, k2: int)
    requires IsClosestIndex(images, k1) && IsClosestIndex(images, k2)
    ensures k1 == k2
  {
    assert Distance(images[k1]) == Distance(images[k2]);
  }

  /**
   * The `reduce` over `images`: `closest` is the image kept so far and `i` the
   * next one to compare. A later image replaces the kept one only when it is
   * strictly closer.
   */
  function ClosestFrom(images: seq<SpotifyImage>, closest: nat, i: nat): (k: nat)
    requires closest < i <= |images|
    requires forall j :: 0 <= j < i ==> Distance(images[closest]) <= Distance(images[j])
    requires forall j :: 0 <= j < closest ==> Distance(images[j]) > Distance(images[closest])
    ensures IsClosestIndex(images, k)
    decreases |images| - i
  {
    if i == |images| then closest
    else if Distance(images[i]) < Distance(images[closest]) then ClosestFrom(images, i, i + 1)
    else ClosestFrom(images, closest, i + 1)
  }

  /** `reduce` without an initial value: the first image seeds the fold. */
  function ClosestImage(images: seq<SpotifyImage>): (k: nat)
    requires |images| > 0
    ensures IsClosestIndex(images, k)
  {
    ClosestFrom(images, 0, 1)
  }

  /**
   * `spotifyArtistToArtist`: keeps the id and name and takes the url of the
   * earliest closest image. An artist without images makes `reduce` throw.
   */
  function SpotifyArtistToArtist(artist: SpotifyArtist): (r: Result<Artist, ApiError>)
    ensures r.Err? <==> artist.images == []
    ensures r.Err? ==> r.error == EmptyImages(artist.id)
    ensures r.Ok? ==> r.value.id == artist.id && r.value.name == artist.name
    ensures r.Ok? ==> exists k :: IsClosestIndex(artist.images, k) && r.value.imageUrl == artist.images[k].url
  {
    if artist.images == [] then Err(EmptyImages(artist.id))
    else
      var k := ClosestImage(artist.images);
      Ok(Artist(artist.id, artist.name, artist.images[k].url))
  }

  /**
   * `spotifyArtists.map(spotifyArtistToArtist)`: converts every artist in order,
   * and throws at the first one that has no images.
   */
  function ConvertArtists(artists: seq<SpotifyArtist>): (r: Result<seq<Artist>, ApiError>)
    ensures r.Ok? <==> forall i :: 0 <= i < |artists| ==> artists[i].images != []
    ensures r.Ok? ==> |r.value| == |artists|
    ensures r.Ok? ==> forall i :: 0 <= i < |artists| ==> SpotifyArtistToArtist(artists[i]) == Ok(r.value[i])
    ensures r.Err? ==>
      exists i :: (0 <= i < |artists| && artists[i].images == [] && r.error == EmptyImages(artists[i].id)
                   && forall j :: 0 <= j < i ==> artists[j].images != [])
  {
    if artists == [] then Ok([])
    else
      match SpotifyArtistToArtist(artists[0])
      case Err(e) => Err(e)
      case Ok(first) =>
        match ConvertArtists(artists[1..])
        case Err(e) => Err(e)
        case Ok(rest) => Ok([first] + rest)
  }

  /** The process-wide client credentials, `SPOTIFY_CLIENT_ID` and `SPOTIFY_CLIENT_SECRET`. */
  datatype Credentials = Credentials(clientId: Option<string>, clientSecret: Option<string>)

  /** What the token endpoint answers to one request. */
  datatype TokenReply = TokenGranted(accessToken: string) | TokenRefused(statusText: string)

  /**
   * `getSpotifyAccessToken`: without both credentials it fails before any
   * request; otherwise it asks `endpoint` with the basic-auth pair
   * `clientId:clientSecret` and returns the granted token or fails with the
   * endpoint's status text.
   */
  function GetSpotifyAccessToken(env: Credentials, endpoint: string -> TokenReply): (r: Result<string, ApiError>)
    ensures !(Truthy(env.clientId) && Truthy(env.clientSecret)) ==> r == Err(MissingCredentials)
    ensures Truthy(env.clientId) && Truthy(env.clientSecret) ==>
      var reply := endpoint(env.clientId.value + ":" + env.clientSecret.value);
      (r.Ok? <==> reply.TokenGranted?) &&
      (r.Ok? ==> r.value == reply.accessToken) &&
      (r.Err? ==> r.error == TokenRequestFailed(reply.statusText))
  {
    if !Truthy(env.clientId) || !Truthy(env.clientSecret) then Err(MissingCredentials)
    else
      match endpoint(env.clientId.value + ":" + env.clientSecret.value)
      case TokenGranted(token) => Ok(token)
      case TokenRefused(statusText) => Err(TokenRequestFailed(statusText))
  }

  /**
   * The token `getSpotifyRelatedArtists` sends: the caller's token unless it is
   * missing or empty, in which case a fresh one is requested (`freshToken` is what that
   * request yields).
   */
  function TokenToUse(token: Option<string>, freshToken: Result<string, ApiError>): (r: Result<string, ApiError>)
    ensures Truthy(token) ==> r == Ok(token.value)
    ensures !Truthy(token) ==> r == freshToken
  {
    if !Truthy(token) then freshToken else Ok(token.value)
  }

  /** The related-artists endpoint of Spotify, as an oracle: artist id and bearer token to its answer. */
  type RelatedEndpoint = (string, string) -> Result<seq<SpotifyArtist>, ApiError>

  /** `getSpotifyRelatedArtists`: resolve the token, then ask the endpoint. */
  function GetSpotifyRelatedArtists(artistId: string, token: Option<string>, freshToken: Result<string, ApiError>,
                                    endpoint: RelatedEndpoint): (r: Result<seq<SpotifyArtist>, ApiError>)
    ensures Truthy(token) ==> r == endpoint(artistId, token.value)
    ensures !Truthy(token) && freshToken.Err? ==> r == Err(freshToken.error)
    ensures !Truthy(token) && freshToken.Ok? ==> r == endpoint(artistId, freshToken.value)
  {
    match TokenToUse(token, freshToken)
    case Err(e) => Err(e)
    case Ok(t) => endpoint(artistId, t)
  }
}
