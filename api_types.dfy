/**
 * The shapes exchanged by the game: the stored artist record, the game status,
 * the body of a `/play` response and the parts of a Spotify artist the game reads.
 */
module ApiTypes {
  import opened Wrappers

  /** An artist as stored by the game: the `{id, name, imageUrl}` record. */
  datatype Artist = Artist(id: string, name: string, imageUrl: string)

  /** Status of the game page; a `/play` response only ever carries `Play` or `Win`. */
  datatype Status = New | Play | Win

  type ResponseStatus = s: Status | s != New witness Play

  /**
   * A `/play` response. A winning response is `{status: "win"}` and leaves every
   * other field out; a normal one carries `relatedArtists` and, for a start,
   * the start and end artists, the session id and the access token.
   */
  datatype PlayResponse = PlayResponse(
    status: ResponseStatus,
    relatedArtists: Option<seq<Artist>>,
    startArtist: Option<Artist>,
    endArtist: Option<Artist>,
    sessionId: Option<string>,
    token: Option<string>)

  /** One entry of a Spotify artist's `images` list. */
  datatype SpotifyImage = SpotifyImage(height: int, url: string, width: int)

  /** The fields of a Spotify artist that the game reads. */
  datatype SpotifyArtist = SpotifyArtist(id: string, name: string, images: seq<SpotifyImage>)

  /** JavaScript truthiness of an optional string: present and not empty. */
  predicate Truthy(s: Option<string>) {
    s.Some? && s.value != ""
  }

  /** The `playResponseIsWinning` type guard. */
  predicate PlayResponseIsWinning(response: PlayResponse) {
    response.status == Win
  }
}
