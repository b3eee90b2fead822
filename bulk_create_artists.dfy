/**
 * The `/bulkCreateArtists` endpoint (src/pages/api/bulkCreateArtists.ts):
 * every record of the posted `artists` array is checked; one bad record
 * rejects the whole batch with the list of bad records, otherwise all records
 * are handed to the store in one `createMany`.
 */
module BulkCreateArtists {
  import opened Wrappers
  import opened ApiTypes

  /** A property of a posted record, as `typeof` sees it. */
  datatype JsField = JsString(s: string) | NotString

  /**
   * One element of the posted array: a falsy value (`null`, `0`, `""`, ...) or
   * anything else, read through its `id`, `name` and `imageUrl` properties (a
   * truthy primitive has none of them: all three are `NotString`).
   */
  datatype JsRecord = Falsy | Record(id: JsField, name: JsField, imageUrl: JsField)

  /** The characters `String.prototype.trim` removes: white space and line terminators. */
  predicate IsJsWhitespace(c: char) {
    || c == '\t' || c == '\n' || c == '\U{000B}' || c == '\U{000C}' || c == '\r' || c == ' '
    || c == '\U{00A0}' || c == '\U{1680}' || ('\U{2000}' <= c <= '\U{200A}')
    || c == '\U{2028}' || c == '\U{2029}' || c == '\U{202F}' || c == '\U{205F}'
    || c == '\U{3000}' || c == '\U{FEFF}'
  }

  /** Every character is removed by trimming. */
  ghost predicate Blank(s: string) {
    forall i :: 0 <= i < |s| ==> IsJsWhitespace(s[i])
  }

  /** Drops leading white space. */
  function TrimStart(s: string): string {
    if s != [] && IsJsWhitespace(s[0]) then TrimStart(s[1..]) else s
  }

  /** Drops trailing white space. */
  function TrimEnd(s: string): string {
    if s != [] && IsJsWhitespace(s[|s| - 1]) then TrimEnd(s[..|s| - 1]) else s
  }

  /** `s.trim()`: white space removed from both ends. */
  function Trim(s: string): string {
    TrimEnd(TrimStart(s))
  }

  /** What `TrimStart` leaves is a suffix that does not start with white space; all it drops is white space. */
  lemma {:induction false} TrimStartIsSuffix(s: string)
    ensures var r := TrimStart(s);
      && |r| <= |s| && r == s[|s| - |r|..]
      && Blank(s[..|s| - |r|])
      && (r != [] ==> !IsJsWhitespace(r[0]))
  {
    if s != [] && IsJsWhitespace(s[0]) {
      TrimStartIsSuffix(s[1..]);
      var r := TrimStart(s[1..]);
      assert s[1..][..|s[1..]| - |r|] == s[1..|s| - |r|];
    }
  }

  /** What `TrimEnd` leaves is a prefix that does not end with white space; all it drops is white space. */
  lemma {:induction false} TrimEndIsPrefix(s: string)
    ensures var r := TrimEnd(s);
      && |r| <= |s| && r == s[..|r|]
      && Blank(s[|r|..])
      && (r != [] ==> !IsJsWhitespace(r[|r| - 1]))
  {
    if s != [] && IsJsWhitespace(s[|s| - 1]) {
      TrimEndIsPrefix(s[..|s| - 1]);
      var r := TrimEnd(s[..|s| - 1]);
      assert s[..|s| - 1][|r|..] == s[|r|..|s| - 1];
    }
  }

  /** `s.trim() !== ""` fails exactly when every character of `s` is white space. */
  lemma TrimEmptyIffBlank(s: string)
    ensures Trim(s) == "" <==> Blank(s)
  {
    TrimStartIsSuffix(s);
    var t := TrimStart(s);
    TrimEndIsPrefix(t);
    assert s == s[..|s| - |t|] + t;
    if t != [] {
      assert !IsJsWhitespace(s[|s| - |t|]);
    } else {
      assert s[..|s| - |t|] == s;
    }
  }

  /** A string property whose trimmed value is not empty. */
  predicate NonBlankString(f: JsField) {
    f.JsString? && Trim(f.s) != ""
  }

  /** `validateArtistInput`: the record is truthy and `id`, `name`, `imageUrl` are non-blank strings. */
  predicate ValidateArtistInput(artist: JsRecord) {
    artist.Record? && NonBlankString(artist.id) && NonBlankString(artist.name) && NonBlankString(artist.imageUrl)
  }

  /** A field that holds a string with at least one character trimming keeps. */
  ghost predicate HasVisibleText(f: JsField) {
    f.JsString? && exists i :: 0 <= i < |f.s| && !IsJsWhitespace(f.s[i])
  }

  /** The validation in terms of the characters of the three fields. */
  lemma ValidateArtistInputMeaning(artist: JsRecord)
    ensures ValidateArtistInput(artist) <==>
      artist.Record? && HasVisibleText(artist.id) && HasVisibleText(artist.name) && HasVisibleText(artist.imageUrl)
  {
    if artist.Record? {
      if artist.id.JsString? { TrimEmptyIffBlank(artist.id.s); }
      if artist.name.JsString? { TrimEmptyIffBlank(artist.name.s); }
      if artist.imageUrl.JsString? { TrimEmptyIffBlank(artist.imageUrl.s); }
    }
  }

  /** The records that `forEach` pushes onto `validArtists`, in input order. */
  function ValidArtists(artists: seq<JsRecord>): (r: seq<JsRecord>)
    ensures forall x :: x in r ==> ValidateArtistInput(x)
  {
    if artists == [] then []
    else
      var last := artists[|artists| - 1];
      ValidArtists(artists[..|artists| - 1]) + (if ValidateArtistInput(last) then [last] else [])
  }

  /** The records that `forEach` pushes onto `invalidArtists`, in input order. */
  function InvalidArtists(artists: seq<JsRecord>): (r: seq<JsRecord>)
    ensures forall x :: x in r ==> !ValidateArtistInput(x)
  {
    if artists == [] then []
    else
      var last := artists[|artists| - 1];
      InvalidArtists(artists[..|artists| - 1]) + (if ValidateArtistInput(last) then [] else [last])
  }

  /** Every record lands in exactly one of the two lists. */
  lemma {:induction false} PartitionIsExact(artists: seq<JsRecord>)
    ensures multiset(ValidArtists(artists)) + multiset(InvalidArtists(artists)) == multiset(artists)
  {
    if artists != [] {
      var init := artists[..|artists| - 1];
      PartitionIsExact(init);
      assert artists == init + [artists[|artists| - 1]];
    }
  }

  /** Splitting the input splits the valid list the same way: relative input order is kept. */
  lemma {:induction false} ValidArtistsKeepOrder(front: seq<JsRecord>, back: seq<JsRecord>)
    ensures ValidArtists(front + back) == ValidArtists(front) + ValidArtists(back)
    decreases |back|
  {
    if back == [] {
      assert front + back == front;
    } else {
      var init, last := back[..|back| - 1], back[|back| - 1];
      var whole := front + back;
      var kept := if ValidateArtistInput(last) then [last] else [];
      assert whole[..|whole| - 1] == front + init;
      assert whole[|whole| - 1] == last;
      calc {
        ValidArtists(whole);
        ValidArtists(front + init) + kept;
        { ValidArtistsKeepOrder(front, init); }
        (ValidArtists(front) + ValidArtists(init)) + kept;
        ValidArtists(front) + (ValidArtists(init) + kept);
        ValidArtists(front) + ValidArtists(back);
      }
    }
  }

  /** Splitting the input splits the invalid list the same way: relative input order is kept. */
  lemma {:induction false} InvalidArtistsKeepOrder(front: seq<JsRecord>, back: seq<JsRecord>)
    ensures InvalidArtists(front + back) == InvalidArtists(front) + InvalidArtists(back)
    decreases |back|
  {
    if back == [] {
      assert front + back == front;
    } else {
      var init, last := back[..|back| - 1], back[|back| - 1];
      var whole := front + back;
      var kept := if ValidateArtistInput(last) then [] else [last];
      assert whole[..|whole| - 1] == front + init;
      assert whole[|whole| - 1] == last;
      calc {
        InvalidArtists(whole);
        InvalidArtists(front + init) + kept;
        { InvalidArtistsKeepOrder(front, init); }
        (InvalidArtists(front) + InvalidArtists(init)) + kept;
        InvalidArtists(front) + (InvalidArtists(init) + kept);
        InvalidArtists(front) + InvalidArtists(back);
      }
    }
  }

  /** No invalid record exactly when all are valid, and then the valid list is the input. */
  lemma {:induction false} AllValidIffNoInvalid(artists: seq<JsRecord>)
    ensures InvalidArtists(artists) == [] <==> forall x :: x in artists ==> ValidateArtistInput(x)
    ensures InvalidArtists(artists) == [] ==> ValidArtists(artists) == artists
  {
    if artists != [] {
      var init := artists[..|artists| - 1];
      AllValidIffNoInvalid(init);
      assert artists == init + [artists[|artists| - 1]];
    }
  }

  /** The `forEach` loop that sorts the posted records into the two lists. */
  method Partition(artists: seq<JsRecord>) returns (validArtists: seq<JsRecord>, invalidArtists: seq<JsRecord>)
    ensures validArtists == ValidArtists(artists)
    ensures invalidArtists == InvalidArtists(artists)
  {
    validArtists, invalidArtists := [], [];
    for i := 0 to |artists|
      invariant validArtists == ValidArtists(artists[..i])
      invariant invalidArtists == InvalidArtists(artists[..i])
    {
      var artist := artists[i];
      assert artists[..i + 1][..i] == artists[..i];
      if ValidateArtistInput(artist) {
        validArtists := validArtists + [artist];
      } else {
        invalidArtists := invalidArtists + [artist];
      }
    }
    assert artists[..|artists|] == artists;
  }

  /** The row `createMany` receives for a valid record. */
  function ToArtist(artist: JsRecord): Artist
    requires ValidateArtistInput(artist)
  {
    Artist(artist.id.s, artist.name.s, artist.imageUrl.s)
  }

  /** `validArtists.map(...)`: the insert batch, one row per record, in order. */
  function InsertBatch(validArtists: seq<JsRecord>): (r: seq<Artist>)
    requires forall i :: 0 <= i < |validArtists| ==> ValidateArtistInput(validArtists[i])
    ensures |r| == |validArtists|
    ensures forall i :: 0 <= i < |r| ==>
      validArtists[i] == Record(JsString(r[i].id), JsString(r[i].name), JsString(r[i].imageUrl))
  {
    if validArtists == [] then []
    else
      var rest := InsertBatch(validArtists[1..]);
      assert forall i :: 1 <= i < |validArtists| ==> validArtists[i] == validArtists[1..][i - 1];
      [ToArtist(validArtists[0])] + rest
  }

  /** The `artists` property of the request body. */
  datatype ArtistsField = NotArray | Array(items: seq<JsRecord>)

  datatype BulkReplyBody =
    | Count(count: nat)
    | Error(error: string)
    | Rejected(error: string, invalidArtists: seq<JsRecord>)

  datatype BulkReply = BulkReply(statusCode: nat, body: BulkReplyBody)

  /** The store's `createMany` with `skipDuplicates`: the number of rows inserted, or a failure. */
  type CreateMany = seq<Artist> -> Result<nat, string>

  /**
   * `handler`: answers the request and returns the batch it handed to
   * `createMany` (`None` when nothing was inserted).
   */
  method Handle(httpMethod: string, artists: ArtistsField, createMany: CreateMany)
    returns (reply: BulkReply, inserted: Option<seq<Artist>>)
    ensures httpMethod != "POST" ==> reply.statusCode == 405 && inserted == None
    ensures httpMethod == "POST" && artists.NotArray? ==> reply.statusCode == 400 && inserted == None
    ensures httpMethod == "POST" && artists.Array? && InvalidArtists(artists.items) != [] ==>
      && reply.statusCode == 400
      && reply.body.Rejected? && reply.body.invalidArtists == InvalidArtists(artists.items)
      && inserted == None
    ensures httpMethod == "POST" && artists.Array? && InvalidArtists(artists.items) == [] ==>
      && inserted.Some?
      && |inserted.value| == |artists.items|
      && (forall i :: 0 <= i < |artists.items| ==>
            artists.items[i] == Record(JsString(inserted.value[i].id), JsString(inserted.value[i].name),
                                       JsString(inserted.value[i].imageUrl)))
      && (createMany(inserted.value).Ok? ==> reply == BulkReply(200, Count(createMany(inserted.value).value)))
      && (createMany(inserted.value).Err? ==> reply.statusCode == 500)
  {
    if httpMethod != "POST" {
      return BulkReply(405, Error("Method not allowed. Use POST")), None;
    }
    if artists.NotArray? {
      return BulkReply(400, Error("Invalid input. Expected an array of artists")), None;
    }
    var validArtists, invalidArtists := Partition(artists.items);
    if |invalidArtists| > 0 {
      return BulkReply(400, Rejected("Invalid input. Some artists have invalid fields", invalidArtists)), None;
    }
    AllValidIffNoInvalid(artists.items);
    var batch := InsertBatch(validArtists);
    inserted := Some(batch);
    match createMany(batch) {
      case Ok(count) => reply := BulkReply(200, Count(count));
      case Err(_) => reply := BulkReply(500, Error("Internal server error"));
    }
  }
}
