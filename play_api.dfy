/**
 * The `/play` endpoint (src/pages/api/play.ts). A body with none of the keys
 * `artist`, `sessionId`, `token` starts a game: two random artists become the
 * start and the end of a new session. Any other body is a guess within a
 * session: the end artist wins; any other artist is answered with its related
 * artists from Spotify. The store and Spotify are parameters of the handler.
 */
module PlayApi {
  import opened Wrappers
  import opened ApiTypes
  import opened SpotifyApi

  /** A key of the JSON body: left out, set to `null`, or set to a value. */
  datatype Field<T> = Absent | Null | Value(value: T)

  /** The request body, read through the three keys the handler looks at. */
  datatype PlayBody = PlayBody(artist: Field<Artist>, sessionId: Field<string>, token: Field<string>)

  datatype Session = Session(id: string, startArtistId: string, endArtistId: string)

  datatype ReplyBody = Response(response: PlayResponse) | Message(message: string)

  datatype Reply = Reply(statusCode: nat, body: ReplyBody)

  /**
   * What the handler sees of the outside world: the token `getSpotifyAccessToken`
   * yields in this request, and the related-artists endpoint.
   */
  datatype Spotify = Spotify(accessToken: Result<string, ApiError>, relatedEndpoint: RelatedEndpoint)

  /** `["artist", "sessionId", "token"].every((k) => !(k in body))`. */
  predicate IsStart(body: PlayBody) {
    body.artist.Absent? && body.sessionId.Absent? && body.token.Absent?
  }

  /** `!sessionId` is false: the key holds a non-empty string. */
  predicate HasSessionId(body: PlayBody) {
    body.sessionId.Value? && body.sessionId.value != ""
  }

  /** `getRelatedArtists`: ask Spotify with `token`, then convert every answer in order. */
  function GetRelatedArtists(artistId: string, token: string, spotify: Spotify): (r: Result<seq<Artist>, ApiError>)
    ensures var answer := GetSpotifyRelatedArtists(artistId, Some(token), spotify.accessToken, spotify.relatedEndpoint);
      && (answer.Err? ==> r == Err(answer.error))
      && (answer.Ok? ==> r == ConvertArtists(answer.value))
  {
    match GetSpotifyRelatedArtists(artistId, Some(token), spotify.accessToken, spotify.relatedEndpoint)
    case Err(e) => Err(e)
    case Ok(found) => ConvertArtists(found)
  }

  /** `userToken ?? (await getSpotifyAccessToken())`: only a missing or `null` token is replaced. */
  function GuessToken(userToken: Field<string>, accessToken: Result<string, ApiError>): (r: Result<string, ApiError>)
    ensures userToken.Value? ==> r == Ok(userToken.value)
    ensures !userToken.Value? ==> r == accessToken
  {
    if userToken.Value? then Ok(userToken.value) else accessToken
  }

  /**
   * The bearer token of a guess's Spotify request is the caller's token when
   * it is a non-empty string, and a fresh one otherwise: `??` lets an empty
   * string through, but `getSpotifyRelatedArtists` then replaces it.
   */
  lemma GuessUsesCallersTokenIffNonEmpty(userToken: Field<string>, artistId: string, spotify: Spotify)
    requires GuessToken(userToken, spotify.accessToken).Ok?
    ensures var token := GuessToken(userToken, spotify.accessToken).value;
      GetSpotifyRelatedArtists(artistId, Some(token), spotify.accessToken, spotify.relatedEndpoint) ==
        if userToken.Value? && userToken.value != "" then spotify.relatedEndpoint(artistId, userToken.value)
        else if spotify.accessToken.Err? then Err(spotify.accessToken.error)
        else spotify.relatedEndpoint(artistId, spotify.accessToken.value)
  {
  }

  const InternalError := Reply(500, Message("Internal server error"))

  /** A database query that throws. */
  datatype StoreError = StoreFailed

  /**
   * What the handler sees of the database: the rows of the random two-row
   * query, the id the store gives a session it creates (or the failure of
   * `session.create`), and `session.findUnique` by id (`null` is `None`).
   */
  datatype Store = Store(
    randomArtists: Result<seq<Artist>, StoreError>,
    createSession: Result<string, StoreError>,
    findSession: string -> Result<Option<Session>, StoreError>)

  /**
   * `handler`. Besides the reply it returns the session it created and the
   * artist id whose related artists it asked Spotify for. A Prisma query runs
   * only once it is awaited or `then`-ed: the `session.create` of a start
   * runs when `Promise.all` takes it, that is after the access token was
   * granted, and then regardless of how the related-artists request ends.
   */
  method Handle(httpMethod: string, body: PlayBody, store: Store, spotify: Spotify)
    returns (reply: Reply, created: Option<Session>, lookup: Option<string>)
    // method check
    ensures reply.statusCode == 405 <==> httpMethod != "POST"
    ensures httpMethod != "POST" ==> created == None && lookup == None
    ensures reply.statusCode in {200, 405, 500}
    ensures reply.statusCode == 500 ==> reply == InternalError
    // start
    ensures httpMethod == "POST" && IsStart(body) && (store.randomArtists.Err? || |store.randomArtists.value| < 2) ==>
      reply == InternalError && created == None && lookup == None
    ensures httpMethod == "POST" && IsStart(body) && store.randomArtists.Ok? && |store.randomArtists.value| >= 2 ==>
      var startArtist, endArtist := store.randomArtists.value[0], store.randomArtists.value[1];
      && (spotify.accessToken.Err? ==> reply == InternalError && created == None && lookup == None)
      && (spotify.accessToken.Ok? ==>
            var token := spotify.accessToken.value;
            var related := GetRelatedArtists(startArtist.id, token, spotify);
            && lookup == Some(startArtist.id)
            && created == (if store.createSession.Ok? then Some(Session(store.createSession.value, startArtist.id, endArtist.id))
                           else None)
            && (store.createSession.Err? || related.Err? ==> reply == InternalError)
            && (store.createSession.Ok? && related.Ok? ==>
                  reply == Reply(200, Response(PlayResponse(Play, Some(related.value), Some(startArtist), Some(endArtist),
                                                            Some(store.createSession.value), Some(token))))))
    // guess
    ensures httpMethod == "POST" && !IsStart(body) ==> created == None
    ensures httpMethod == "POST" && !IsStart(body) && !HasSessionId(body) ==>
      reply == InternalError && lookup == None
    ensures httpMethod == "POST" && !IsStart(body) && HasSessionId(body)
            && !(store.findSession(body.sessionId.value).Ok? && store.findSession(body.sessionId.value).value.Some?) ==>
      reply == InternalError && lookup == None
    ensures httpMethod == "POST" && !IsStart(body) && HasSessionId(body)
            && store.findSession(body.sessionId.value).Ok? && store.findSession(body.sessionId.value).value.Some?
            && !body.artist.Value? ==>
      reply == InternalError && lookup == None
    ensures httpMethod == "POST" && !IsStart(body) && HasSessionId(body)
            && store.findSession(body.sessionId.value).Ok? && store.findSession(body.sessionId.value).value.Some?
            && body.artist.Value? ==>
      var session, artist := store.findSession(body.sessionId.value).value.value, body.artist.value;
      && (artist.id == session.endArtistId ==>
            reply == Reply(200, Response(PlayResponse(Win, None, None, None, None, None))) && lookup == None)
      && (artist.id != session.endArtistId ==>
            var token := GuessToken(body.token, spotify.accessToken);
            && (token.Err? ==> reply == InternalError && lookup == None)
            && (token.Ok? ==>
                  var related := GetRelatedArtists(artist.id, token.value, spotify);
                  && lookup == Some(artist.id)
                  && (related.Err? ==> reply == InternalError)
                  && (related.Ok? ==> reply == Reply(200, Response(PlayResponse(Play, Some(related.value),
                                                                                None, None, None, None))))))
  {
    created, lookup := None, None;
    if httpMethod != "POST" {
      return Reply(405, Message("Method not allowed. Use POST")), None, None;
    }
    if IsStart(body) {
      // the two unique random artists to start and end with
      if store.randomArtists.Err? || |store.randomArtists.value| < 2 {
        return InternalError, None, None;
      }
      var startArtist, endArtist := store.randomArtists.value[0], store.randomArtists.value[1];
      // the pending `session.create` has not run yet when the token request throws
      if spotify.accessToken.Err? {
        return InternalError, None, None;
      }
      var token := spotify.accessToken.value;
      lookup := Some(startArtist.id);
      var related := GetRelatedArtists(startArtist.id, token, spotify);
      if store.createSession.Ok? {
        created := Some(Session(store.createSession.value, startArtist.id, endArtist.id));
      }
      if store.createSession.Err? || related.Err? {
        return InternalError, created, lookup;
      }
      reply := Reply(200, Response(PlayResponse(Play, Some(related.value), Some(startArtist), Some(endArtist),
                                                Some(created.value.id), Some(token))));
    } else {
      if !HasSessionId(body) {
        return InternalError, None, None;
      }
      var found := store.findSession(body.sessionId.value);
      if found.Err? || found.value.None? {
        return InternalError, None, None;
      }
      var session := found.value.value;
      // reading `artist.id` for the play record throws when `artist` is missing
      if !body.artist.Value? {
        return InternalError, None, None;
      }
      var artist := body.artist.value;
      if artist.id == session.endArtistId {
        reply := Reply(200, Response(PlayResponse(Win, None, None, None, None, None)));
      } else {
        var token := GuessToken(body.token, spotify.accessToken);
        if token.Err? {
          return InternalError, None, None;
        }
        lookup := Some(artist.id);
        var related := GetRelatedArtists(artist.id, token.value, spotify);
        if related.Err? {
          return InternalError, None, lookup;
        }
        reply := Reply(200, Response(PlayResponse(Play, Some(related.value), None, None, None, None)));
      }
    }
  }
}
