/**
 * The game page (src/pages/index.tsx): its state fields, the transitions run
 * when a `/play` response arrives, the reset, the truncation of the guess list
 * when an earlier card is clicked, and the lookup of the picked artist.
 */
module PlayPage {
  import opened Wrappers
  import opened ApiTypes
  import PlayApi
  import UseTimer

  /** One step of the path: the artist reached and the related artists offered from it. */
  datatype Guess = Guess(artist: Artist, relatedArtists: seq<Artist>)

  /** What the page keeps from a start response to send with every guess. */
  datatype Parameters = Parameters(sessionId: string, token: string)

  /** `guesses.map((guess) => guess.relatedArtists).flat()`. */
  function Flatten(guesses: seq<Guess>): (r: seq<Artist>)
    ensures forall i, j :: 0 <= i < |guesses| && 0 <= j < |guesses[i].relatedArtists| ==>
      guesses[i].relatedArtists[j] in r
  {
    if guesses == [] then []
    else
      var rest := Flatten(guesses[1..]);
      assert forall i :: 1 <= i < |guesses| ==> guesses[i] == guesses[1..][i - 1];
      guesses[0].relatedArtists + rest
  }

  /** `k` is the first position whose artist has id `artistId`. */
  ghost predicate IsFirstMatch(artists: seq<Artist>, artistId: string, k: int) {
    && 0 <= k < |artists|
    && artists[k].id == artistId
    && forall j :: 0 <= j < k ==> artists[j].id != artistId
  }

  /** `Array.prototype.find` by artist id. */
  function Find(artists: seq<Artist>, artistId: string): (r: Option<Artist>)
    ensures r.None? <==> forall k :: 0 <= k < |artists| ==> artists[k].id != artistId
    ensures r.Some? ==> exists k :: IsFirstMatch(artists, artistId, k) && artists[k] == r.value
  {
    if artists == [] then None
    else if artists[0].id == artistId then
      assert IsFirstMatch(artists, artistId, 0);
      Some(artists[0])
    else
      var r := Find(artists[1..], artistId);
      assert forall k :: 1 <= k < |artists| ==> artists[k] == artists[1..][k - 1];
      assert r.Some? ==> exists k :: IsFirstMatch(artists, artistId, k) && artists[k] == r.value by {
        if r.Some? {
          var k :| IsFirstMatch(artists[1..], artistId, k) && artists[1..][k] == r.value;
          assert IsFirstMatch(artists, artistId, k + 1);
        }
      }
      r
  }

  /** `findPickedArtist`: the first artist with the id among all lists offered so far. */
  function FindPickedArtist(guesses: seq<Guess>, artistId: string): (r: Option<Artist>)
    ensures r.Some? ==> r.value.id == artistId
    ensures (exists i, j :: 0 <= i < |guesses| && 0 <= j < |guesses[i].relatedArtists|
                            && guesses[i].relatedArtists[j].id == artistId) ==> r.Some?
  {
    Find(Flatten(guesses), artistId)
  }

  /** Searching two lists one after the other is searching their concatenation. */
  lemma {:induction false} FindConcat(front: seq<Artist>, back: seq<Artist>, artistId: string)
    ensures Find(front + back, artistId) == if Find(front, artistId).Some? then Find(front, artistId) else Find(back, artistId)
  {
    if front != [] {
      assert (front + back)[1..] == front[1..] + back;
      FindConcat(front[1..], back, artistId);
    } else {
      assert front + back == back;
    }
  }

  /** Reference definition: scan the guesses in order and, in each, its related list in order. */
  function ScanGuesses(guesses: seq<Guess>, artistId: string): Option<Artist> {
    if guesses == [] then None
    else
      match Find(guesses[0].relatedArtists, artistId)
      case Some(a) => Some(a)
      case None => ScanGuesses(guesses[1..], artistId)
  }

  /** `findPickedArtist` agrees with the nested scan. */
  lemma {:induction false} FindPickedArtistScansInOrder(guesses: seq<Guess>, artistId: string)
    ensures FindPickedArtist(guesses, artistId) == ScanGuesses(guesses, artistId)
  {
    if guesses != [] {
      FindConcat(guesses[0].relatedArtists, Flatten(guesses[1..]), artistId);
      FindPickedArtistScansInOrder(guesses[1..], artistId);
    }
  }

  /** An artist offered by the last guess is always found, by its id. */
  lemma OfferedArtistIsFound(guesses: seq<Guess>, artist: Artist)
    requires guesses != [] && artist in guesses[|guesses| - 1].relatedArtists
    ensures FindPickedArtist(guesses, artist.id).Some?
    ensures FindPickedArtist(guesses, artist.id).value.id == artist.id
  {
  }

  /** The body the page posts for a guess: `{ artist, ...parameters! }`. */
  function GuessRequest(artist: Artist, parameters: Option<Parameters>): (r: PlayApi.PlayBody)
    ensures !PlayApi.IsStart(r)
    ensures r.artist == PlayApi.Value(artist)
    ensures parameters.Some? ==>
      r.sessionId == PlayApi.Value(parameters.value.sessionId) && r.token == PlayApi.Value(parameters.value.token)
    ensures parameters.None? ==> !PlayApi.HasSessionId(r)
  {
    match parameters
    case Some(p) => PlayApi.PlayBody(PlayApi.Value(artist), PlayApi.Value(p.sessionId), PlayApi.Value(p.token))
    case None => PlayApi.PlayBody(PlayApi.Value(artist), PlayApi.Absent, PlayApi.Absent)
  }

  /** `response.startArtist && response.endArtist && response.relatedArtists`. */
  predicate HasArtists(response: PlayResponse) {
    response.startArtist.Some? && response.endArtist.Some? && response.relatedArtists.Some?
  }

  /** `response.sessionId && response.token`. */
  predicate HasSessionData(response: PlayResponse) {
    Truthy(response.sessionId) && Truthy(response.token)
  }

  /**
   * A step of the path as the page holds it at run time: the non-null
   * assertion of `findPickedArtist(prev, artist.id)!` checks nothing, so the
   * artist is `undefined` (`None`) when the search finds nothing.
   */
  datatype StoredGuess = StoredGuess(artist: Option<Artist>, relatedArtists: seq<Artist>)

  /** The status, parameters and guesses of the page, as run time holds them. */
  datatype PageState = PageState(status: Status, parameters: Option<Parameters>, guesses: seq<StoredGuess>)

  function Stored(guesses: seq<Guess>): seq<StoredGuess> {
    seq(|guesses|, i requires 0 <= i < |guesses| => StoredGuess(Some(guesses[i].artist), guesses[i].relatedArtists))
  }

  /**
   * The `.then` of `handlePlay` as written, applied to the parameters and
   * guesses the page holds when the response arrives, whatever they are.
   */
  function PlayResponseAsWritten(parameters: Option<Parameters>, prev: seq<Guess>, artistId: string,
                                 response: PlayResponse): (r: PageState)
    ensures r.status == (if PlayResponseIsWinning(response) || response.relatedArtists.Some? then response.status else New)
    ensures r.status != New ==>
      && r.parameters == parameters && |r.guesses| == |prev| + 1
      && r.guesses[|prev|].artist == FindPickedArtist(prev, artistId)
      && r.guesses[..|prev|] == Stored(prev)
    ensures r.status == New ==> r == PageState(New, None, [])
  {
    var picked := FindPickedArtist(prev, artistId);
    if PlayResponseIsWinning(response) then PageState(Win, parameters, Stored(prev) + [StoredGuess(picked, [])])
    else if response.relatedArtists.Some? then
      PageState(Play, parameters, Stored(prev) + [StoredGuess(picked, response.relatedArtists.value)])
    else PageState(New, None, [])
  }

  /**
   * A response that arrives after "Reset session" meets no guesses and no
   * parameters. As written, the page then leaves `new` with a path whose only
   * artist is `undefined` (read by the render as `.artist.name`) and, in
   * `play`, without the session parameters every further guess needs.
   */
  lemma LateResponseAfterReset(artist: Artist, response: PlayResponse)
    requires PlayResponseIsWinning(response) || response.relatedArtists.Some?
    ensures var r := PlayResponseAsWritten(None, [], artist.id, response);
      && r.status != New && r.parameters == None
      && |r.guesses| == 1 && r.guesses[0].artist == None
  {
  }

  /** The state of the page component. */
  class Game {
    var status: Status
    var parameters: Option<Parameters>
    var guesses: seq<Guess>
    var endArtist: Option<Artist>
    const timer: UseTimer.Timer

    /**
     * A new game has no guesses and no session; a game in play has at least
     * one guess and its session parameters.
     */
    ghost predicate Valid()
      reads this
    {
      && (status == New ==> guesses == [] && parameters == None)
      && (status == Play ==> guesses != [] && parameters.Some?)
    }

    constructor ()
      ensures Valid() && status == New && parameters == None && guesses == [] && endArtist == None
      ensures fresh(timer) && timer.Valid() && timer.stack == [] && timer.time == 0
    {
      status, parameters, guesses, endArtist := New, None, [], None;
      timer := new UseTimer.Timer();
    }

    /** The artists offered for the next pick: the related list of the last guess. */
    function Offered(): (r: seq<Artist>)
      reads this
      ensures forall a :: a in r ==> FindPickedArtist(guesses, a.id).Some?
    {
      if guesses == [] then [] else guesses[|guesses| - 1].relatedArtists
    }

    /** `resetState`: back to the initial status, parameters and guesses, and a reset timer. */
    method ResetState()
      modifies this, timer
      ensures Valid() && status == New && parameters == None && guesses == [] && Offered() == []
      ensures endArtist == old(endArtist)
      ensures timer.stack == [] && timer.time == 0
    {
      status := New;
      parameters := None;
      guesses := [];
      timer.Reset();
    }

    /** `handleStart`, from the moment the start response arrives. */
    method HandleStart(response: PlayResponse)
      requires Valid() && status == New
      modifies this, timer
      ensures Valid()
      ensures PlayResponseIsWinning(response) ==>
        status == Win && guesses == old(guesses) && parameters == old(parameters) && endArtist == old(endArtist)
        && unchanged(timer)
      ensures response.status == Play && HasArtists(response) && HasSessionData(response) ==>
        && status == Play
        && guesses == [Guess(response.startArtist.value, response.relatedArtists.value)]
        && Offered() == response.relatedArtists.value
        && endArtist == response.endArtist
        && parameters == Some(Parameters(response.sessionId.value, response.token.value))
        && unchanged(timer)
      ensures response.status == Play && !(HasArtists(response) && HasSessionData(response)) ==>
        && status == New && parameters == None && guesses == []
        && timer.stack == [] && timer.time == 0
        && endArtist == (if HasArtists(response) then response.endArtist else old(endArtist))
    {
      status := response.status;
      if PlayResponseIsWinning(response) {
        return;
      }
      if HasArtists(response) {
        endArtist := response.endArtist;
        guesses := [Guess(response.startArtist.value, response.relatedArtists.value)];
      } else {
        ResetState();
        return;
      }
      if HasSessionData(response) {
        parameters := Some(Parameters(response.sessionId.value, response.token.value));
      } else {
        ResetState();
        return;
      }
    }

    /**
     * `handlePlay`, from the moment the response arrives. While the request
     * runs every card is disabled and only "Reset session" can be clicked, so
     * the game is either still in play with the clicked card on offer, or back
     * to `new`. The response to a guess made before a reset is discarded.
     */
    method HandlePlay(artist: Artist, response: PlayResponse)
      requires Valid()
      requires (status == Play && artist in Offered()) || status == New
      modifies this, timer
      ensures Valid()
      ensures old(status) == New ==> unchanged(this) && unchanged(timer)
      ensures old(status) == Play ==>
        var picked := FindPickedArtist(old(guesses), artist.id);
        && picked.Some? && picked.value.id == artist.id
        && (PlayResponseIsWinning(response) ==>
              && status == Win && guesses == old(guesses) + [Guess(picked.value, [])]
              && parameters == old(parameters) && unchanged(timer))
        && (!PlayResponseIsWinning(response) && response.relatedArtists.Some? ==>
              && status == Play && guesses == old(guesses) + [Guess(picked.value, response.relatedArtists.value)]
              && Offered() == response.relatedArtists.value
              && parameters == old(parameters) && unchanged(timer))
        && (!PlayResponseIsWinning(response) && response.relatedArtists.None? ==>
              && status == New && guesses == [] && parameters == None
              && timer.stack == [] && timer.time == 0)
      ensures endArtist == old(endArtist)
    {
      if status == New {
        return;
      }
      var picked := FindPickedArtist(guesses, artist.id).value;
      status := response.status;
      if PlayResponseIsWinning(response) {
        guesses := guesses + [Guess(picked, [])];
      } else if response.relatedArtists.Some? {
        guesses := guesses + [Guess(picked, response.relatedArtists.value)];
      } else {
        ResetState();
      }
    }

    /** Clicking the card of guess `i`: `prev.slice(0, i + 1)`. */
    method ClickPreviousCard(i: nat)
      requires Valid()
      modifies this`guesses
      ensures Valid()
      ensures guesses == old(guesses)[..if i + 1 < |old(guesses)| then i + 1 else |old(guesses)|]
    {
      guesses := guesses[..if i + 1 < |guesses| then i + 1 else |guesses|];
    }
  }
}
