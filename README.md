# Related Artists Speedrun — a Dafny model of the game logic

The game asks a player to walk from a random start artist to a random end artist
by repeatedly picking one of the current artist's related artists, against a
timer. This project models the deterministic logic around the network and the
database, module by module:

- `SpotifyApi` (src/utils/api.ts): the conversion of a Spotify artist into the
  game's `{id, name, imageUrl}` record, whose image is the earliest one closest
  to 300x300 in L1 distance; the credentials guard of the token request; the
  rule that a related-artists request reuses the caller's token unless it is
  missing or empty.
- `BulkCreateArtists` (src/pages/api/bulkCreateArtists.ts): record validation
  with JavaScript's `trim`, the order-keeping split into valid and invalid
  records, and the all-or-nothing insert.
- `UseTimer` (src/hooks/useTimer.ts): the class `Timer` with its append-only
  stack of `play`/`pause` entries, the push rule, the accumulation loop of a tick,
  and `reset`; the loop is proved against a fold, and the fold against a
  sum-of-play-intervals definition and time bounds.
- `PlayApi` (src/pages/api/play.ts): the `/play` handler as a method. Its inputs
  are the request, the database (the random query's rows, the outcome of
  `session.create`, `session.findUnique`) and the Spotify oracles, any of which
  may fail. It returns the reply, the session it created and the artist whose
  related artists it requested.
- `PlayPage` (src/pages/index.tsx): the class `Game` with the page state
  (`status`, `parameters`, `guesses`, `endArtist`, the timer), the transitions
  on start and play responses, the reset and the truncation on clicking an
  earlier card, and `findPickedArtist` proved against a nested in-order scan.
- `ApiTypes` and `Wrappers`: the shapes of src/types and the Option/Result helpers.

The related-artist lookup calls Spotify directly (src/pages/api/play.ts:11-16);
there is no cache.

## Model

| member | source | states |
|---|---|---|
| `ApiTypes.PlayResponseIsWinning` | src/utils/api.ts:67-69 | a response is winning iff its status is `win`; the page branches on it in both handlers |
| `SpotifyApi.ClosestIndexUnique` | src/utils/api.ts:59-62 | at most one position is the earliest image of least distance, so the choice is determined |
| `SpotifyApi.ClosestFrom` | src/utils/api.ts:55-63 | the reduce step, replacing the kept image only by a strictly closer one, ends on the earliest image of least distance |
| `SpotifyApi.ClosestImage` | src/utils/api.ts:55-63 | the reduce seeded with the first image returns the position of the earliest image minimising abs(width-300)+abs(height-300) |
| `SpotifyApi.SpotifyArtistToArtist` | src/utils/api.ts:53-66 | fails exactly when `images` is empty; otherwise id and name are copied and imageUrl is the url of the earliest closest image |
| `SpotifyApi.ConvertArtists` | src/pages/api/play.ts:13 | succeeds iff every artist has images, then converts each one in order; otherwise fails at the first artist without images |
| `SpotifyApi.GetSpotifyAccessToken` | src/utils/api.ts:7-34 | missing or empty client id or secret fails with MissingCredentials whatever the endpoint; otherwise the granted token or the endpoint's status text |
| `SpotifyApi.TokenToUse` | src/utils/api.ts:38 | the caller's token is used iff it is present and non-empty, otherwise the fresh token's outcome |
| `SpotifyApi.GetSpotifyRelatedArtists` | src/utils/api.ts:36-51 | asks the endpoint with the caller's non-empty token, or with a fresh one whose failure is propagated |
| `BulkCreateArtists.Trim` | src/pages/api/bulkCreateArtists.ts:17 | `s.trim()`: leading, then trailing white space removed; what it keeps and drops is stated by the three lemmas below |
| `BulkCreateArtists.TrimStartIsSuffix` | src/pages/api/bulkCreateArtists.ts:17 | leading trim keeps a suffix not starting with white space and drops only white space |
| `BulkCreateArtists.TrimEndIsPrefix` | src/pages/api/bulkCreateArtists.ts:17 | trailing trim keeps a prefix not ending with white space and drops only white space |
| `BulkCreateArtists.TrimEmptyIffBlank` | src/pages/api/bulkCreateArtists.ts:17-21 | `s.trim() === ""` iff every character of `s` is JavaScript white space |
| `BulkCreateArtists.ValidateArtistInput` | src/pages/api/bulkCreateArtists.ts:13-23 | the record is truthy and its id, name and imageUrl are strings that do not trim to empty; its character-level meaning is the next row |
| `BulkCreateArtists.ValidateArtistInputMeaning` | src/pages/api/bulkCreateArtists.ts:13-23 | a record is accepted iff it is truthy and id, name and imageUrl are strings each holding a non-white-space character |
| `BulkCreateArtists.ValidArtists` | src/pages/api/bulkCreateArtists.ts:36-38 | every record in the valid list passes validation |
| `BulkCreateArtists.InvalidArtists` | src/pages/api/bulkCreateArtists.ts:39-41 | every record in the invalid list fails validation |
| `BulkCreateArtists.PartitionIsExact` | src/pages/api/bulkCreateArtists.ts:33-42 | the two lists together hold each input record exactly as often as the input does |
| `BulkCreateArtists.ValidArtistsKeepOrder` | src/pages/api/bulkCreateArtists.ts:36-38 | the valid list of a concatenation is the concatenation of the valid lists, so input order is kept |
| `BulkCreateArtists.InvalidArtistsKeepOrder` | src/pages/api/bulkCreateArtists.ts:39-41 | the same for the invalid list |
| `BulkCreateArtists.AllValidIffNoInvalid` | src/pages/api/bulkCreateArtists.ts:44-53 | the invalid list is empty iff every record is valid, and then the valid list is the whole input |
| `BulkCreateArtists.Partition` | src/pages/api/bulkCreateArtists.ts:33-42 | the forEach loop yields exactly the valid and the invalid lists |
| `BulkCreateArtists.InsertBatch` | src/pages/api/bulkCreateArtists.ts:53-57 | one row per record in order, each record being exactly its row's three strings |
| `BulkCreateArtists.Handle` | src/pages/api/bulkCreateArtists.ts:25-69 | non-POST gives 405 and a non-array gives 400, both with no insert; any invalid record gives 400 with exactly the invalid records and no insert; otherwise the batch is the input projected in order, and the reply is 200 with the store's count or 500 |
| `UseTimer.Step` | src/hooks/useTimer.ts:44-52 | every entry leaves its status as the previous one; a `play` adds nothing; a `pause` adds its distance from the previous counted timestamp, which it becomes |
| `UseTimer.Run` | src/hooks/useTimer.ts:44-52 | over no entries the loop state is unchanged; otherwise its previous status is that of the last entry |
| `UseTimer.Finish` | src/hooks/useTimer.ts:54-56 | a paused timer adds nothing after the loop; a running one adds the non-negative time since its last counted entry |
| `UseTimer.ElapsedTime` | src/hooks/useTimer.ts:40-56 | an empty stack gives 0; a stack ending in `pause` gives the loop's total whatever the clock |
| `UseTimer.RunAppend` | src/hooks/useTimer.ts:44-52 | the loop over one more entry is one more loop step |
| `UseTimer.RepeatedPlayIgnored` | src/hooks/useTimer.ts:45-46 | a `play` after a counted `play` leaves the loop state and the total unchanged |
| `UseTimer.PauseAddsInterval` | src/hooks/useTimer.ts:47-51 | a `pause` entry adds its timestamp minus the previous counted timestamp and stops the clock |
| `UseTimer.PlayRestartsClock` | src/hooks/useTimer.ts:50-56 | a `play` after a counted `pause` adds `now` minus its own timestamp |
| `UseTimer.AlternatingElapsedTime` | src/hooks/useTimer.ts:40-56 | for strictly alternating entries starting with `play`, the total is the sum of the play intervals |
| `UseTimer.ElapsedTimeBounds` | src/hooks/useTimer.ts:24-56 | a stack starting with `play`, with sorted timestamps not after `now`, totals between 0 and `now` minus the first timestamp |
| `UseTimer.Timer.constructor` | src/hooks/useTimer.ts:21-22 | an empty stack and time 0 |
| `UseTimer.Timer.Push` | src/hooks/useTimer.ts:24-32 | no entry is pushed onto an empty stack while paused; otherwise exactly one entry with the clock and status is appended; the first entry stays `play`, and a clock not behind the last entry keeps the stack sorted |
| `UseTimer.Timer.Elapsed` | src/hooks/useTimer.ts:39-56 | the accumulation loop computes the fold of the stack at `now` |
| `UseTimer.Timer.Tick` | src/hooks/useTimer.ts:38-59 | a tick sets the time to the fold of the unchanged stack; on a valid sorted stack read no earlier than its last entry, the time is between 0 and the time since the first `play` |
| `UseTimer.Timer.Reset` | src/hooks/useTimer.ts:77-80 | the stack is emptied and the time set to 0 |
| `PlayApi.IsStart` | src/pages/api/play.ts:22 | a body is a start iff none of the keys `artist`, `sessionId`, `token` is present, a `null` value counting as present |
| `PlayApi.HasSessionId` | src/pages/api/play.ts:69 | `!sessionId` is false iff the key holds a non-empty string |
| `PlayApi.GetRelatedArtists` | src/pages/api/play.ts:11-16 | Spotify's failure is propagated; its answer is converted artist by artist |
| `PlayApi.GuessToken` | src/pages/api/play.ts:101 | `??`: the caller's token whenever the key holds a string, even an empty one; a fresh token only for a missing or null key |
| `PlayApi.GuessUsesCallersTokenIffNonEmpty` | src/pages/api/play.ts:101-102 | the Spotify request of a guess carries the caller's token iff it is a non-empty string, otherwise a fresh token |
| `PlayApi.Handle` | src/pages/api/play.ts:18-114 | 405 iff not POST; a start needs the random query to succeed with two rows (else 500, no session); a failing token request gives 500 before the lazy `session.create` runs, so no session; otherwise the session of the two ids is created iff the store accepts it, whatever Spotify answers, and the reply is `play` with both artists, the related list, the new session id and the token, or 500 if either failed; a guess without a session id, with a failing lookup or an unknown session, or without an artist gives 500; the end artist wins with no lookup; otherwise the related artists of the guessed id |
| `PlayPage.Flatten` | src/pages/index.tsx:234-236 | every artist offered by any guess is in the flattened list |
| `PlayPage.Find` | src/pages/index.tsx:237 | no result iff no artist has the id; otherwise the first artist with the id |
| `PlayPage.FindPickedArtist` | src/pages/index.tsx:233-237 | a found artist has the searched id, and an id offered by any guess is always found |
| `PlayPage.FindConcat` | src/pages/index.tsx:233-237 | searching a concatenation searches the first part, then the second |
| `PlayPage.FindPickedArtistScansInOrder` | src/pages/index.tsx:233-237 | findPickedArtist equals scanning the guesses in order, and each related list in order |
| `PlayPage.OfferedArtistIsFound` | src/pages/index.tsx:83-90 | an artist from the last guess's list is always found, with the same id, so the non-null assertion holds |
| `PlayPage.PlayResponseAsWritten` | src/pages/index.tsx:78-105 | the `.then` of `handlePlay` as written on any state: the status is the response's unless the list is missing (then `new` with nothing); otherwise one guess is appended whose artist is whatever `findPickedArtist(prev, id)` gives, possibly `undefined`, and the parameters are untouched |
| `PlayPage.LateResponseAfterReset` | src/pages/index.tsx:35-40 | after a reset, a winning or listed response leaves `new` with no parameters and one guess whose artist is `undefined` |
| `PlayPage.GuessRequest` | src/pages/index.tsx:78 | a guess request always holds `artist`, so the server never treats it as a start; without parameters it has no session id |
| `PlayPage.Game.Offered` | src/pages/index.tsx:158-159 | the cards offered for the next pick; every one of them is found again by `findPickedArtist` |
| `PlayPage.HasArtists` | src/pages/index.tsx:48 | a start response carries the start artist, the end artist and the related list |
| `PlayPage.HasSessionData` | src/pages/index.tsx:58 | a start response carries a truthy session id and a truthy token |
| `PlayPage.Game.constructor` | src/pages/index.tsx:19-23 | status `new`, no parameters, no guesses, no end artist, a fresh empty timer |
| `PlayPage.Game.ResetState` | src/pages/index.tsx:35-40 | status `new`, parameters null, no guesses, timer reset; the end artist is kept |
| `PlayPage.Game.HandleStart` | src/pages/index.tsx:42-74 | a complete response leaves one guess {start, related}, the end artist and the session parameters; missing artists or session data reset the state; a winning response only sets the status |
| `PlayPage.Game.HandlePlay` | src/pages/index.tsx:76-109 | with the game still in play: the picked artist is the first offered artist with the clicked id; a win appends it with an empty list; a play appends it with the response's list, which is then the offered list; no list resets; earlier guesses are kept. After a reset during the request: nothing changes (the corrected behaviour, see Findings) |
| `PlayPage.Game.ClickPreviousCard` | src/pages/index.tsx:182 | the guesses are cut to the first i+1 entries, as `slice` clamps |

## Left out

- The cached related-artist lookup, its race with Spotify, cancellation and backfill: the code has no such path.
- All HTTP: the token POST with its base64 basic-auth header, and the related-artists GET. Spotify is an oracle: a token outcome for the request and an endpoint function. Every token request within one request is assumed to yield the same outcome.
- SQL and Prisma themselves: the random two-row query, `session.create` and `session.findUnique` are oracles that may fail. `createMany` with `skipDuplicates` is an oracle too.
- The `play.create` calls that nobody awaits: their effect cannot be observed from the handler.
- `formatTime` and the division by 1000: they are floating point. The model keeps the time in integer milliseconds.
- `setInterval`, `useEffect` scheduling and the computation of `pause` from the status and loading flags: these are framework timing.
- Request bodies that are not JSON objects. The start request posts `null`; the model reads it as a body without keys.
- usePostPlay and useCallbackWithLoadingState: a rejected request never reaches the page's handlers, so the state stays unchanged. The loading flags are not modelled.
- The search endpoints (getArtists, searchArtistsByNames, getIds): these are network clients with one-second sleeps.
- Rendering, confetti, notifications, theme and layout.
- The `!closest` branch of the image fold: it cannot be taken, because every element of `images` is an object.
- Image sizes are integers; `null` sizes from Spotify are not modelled.
- The distinct start and end artists: these rest on the store's query returning two different rows. The handler does not check this.
- PlayPage.Game.HandlePlay: it requires the state to be one that can exist when a guess response arrives. That is status `play` with the clicked card on offer, or status `new` after "Reset session" (src/pages/index.tsx:213-219). That button is the only control not disabled while the request runs. Status `win` cannot occur then.
- PlayPage.Game.HandleStart: it requires status `new`, because the page shows the Start button only then.

## Findings

| source | as written | input that shows it | evidently intended | confidence | as-written member | corrected member |
|---|---|---|---|---|---|---|
| src/pages/index.tsx:78-93 | the `.then` of `handlePlay` applies its response to whatever state the page holds; "Reset session" (:213-219) has no `loading` prop, so it can empty the guesses while the request runs, and `findPickedArtist([], id)!` then stores an `undefined` artist, with status `play` or `win` and null parameters | click a card, then "Reset session" before the response arrives; the response is `{status: "play", relatedArtists: [...]}` | a response to a guess made before a reset is discarded and the page stays `new` | not executed; read from the code | `PlayPage.LateResponseAfterReset` | `PlayPage.Game.HandlePlay` |
