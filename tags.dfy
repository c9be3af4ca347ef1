/** The tag record built from the info dict (download_audio.py:364-374) and
    `set_metadata` (download_audio.py:57-168), which writes it into the
    audio file's tags. A tag container is a map from key to tag; mutagen's
    encoding of that map on disk is left to the library. */
module Tags {
  import opened Strings
  import opened PyValues
  import opened Cover
  import opened Wrappers

  /** The `metadata` dict. */
  datatype TagRecord = TagRecord(
    artist: Value, title: Value, album: Value, genre: Value, date: Value,
    trackNumber: Value, description: Value, thumbnail: Value, lyrics: Value)

  /** `metadata.get(key)`. */
  function Field(m: TagRecord, key: string): Value {
    match key
    case "artist" => m.artist
    case "title" => m.title
    case "album" => m.album
    case "genre" => m.genre
    case "date" => m.date
    case "track_number" => m.trackNumber
    case "description" => m.description
    case "thumbnail" => m.thumbnail
    case "lyrics" => m.lyrics
    case _ => Null
  }

  /** The record: `a or b` takes `b` when `a` is falsy, `get(k, d)` takes `d`
      only when `k` is missing. `lyrics` is what lyrics resolution returned,
      `None` for a `None` return. */
  function BuildTagRecord(info: Info, lyrics: Option<Value>): (m: TagRecord)
    ensures Truthy(Get(info, "artist")) ==> m.artist == info["artist"]
    ensures !Truthy(Get(info, "artist")) && "uploader" in info ==> m.artist == info["uploader"]
    ensures !Truthy(Get(info, "artist")) && "uploader" !in info ==> m.artist == Str("Unknown Artist")
    ensures Truthy(Get(info, "album")) ==> m.album == info["album"]
    ensures !Truthy(Get(info, "album")) && "playlist_title" in info ==> m.album == info["playlist_title"]
    ensures !Truthy(Get(info, "album")) && "playlist_title" !in info ==> m.album == Str("Unknown Album")
    ensures m.title == (if "title" in info then info["title"] else Str("Unknown Title"))
    ensures m.genre == (if "genre" in info then info["genre"] else Str("Unknown Genre"))
    ensures Truthy(Get(info, "release_date")) ==> m.date == info["release_date"]
    ensures !Truthy(Get(info, "release_date")) && Truthy(Get(info, "upload_date")) ==> m.date == info["upload_date"]
    ensures !Truthy(Get(info, "release_date")) && !Truthy(Get(info, "upload_date")) ==> m.date == Str("")
    ensures m.trackNumber == (if "track_number" in info then info["track_number"] else Str(""))
    ensures m.description == (if "description" in info then info["description"] else Str(""))
    ensures m.thumbnail == Get(info, "thumbnail")
    ensures m.lyrics == (if lyrics.Some? && Truthy(lyrics.value) then lyrics.value else Str(""))
  {
    TagRecord(
      artist := Or(Get(info, "artist"), GetOr(info, "uploader", Str("Unknown Artist"))),
      title := GetOr(info, "title", Str("Unknown Title")),
      album := Or(Get(info, "album"), GetOr(info, "playlist_title", Str("Unknown Album"))),
      genre := GetOr(info, "genre", Str("Unknown Genre")),
      date := Or(Or(Get(info, "release_date"), Get(info, "upload_date")), Str("")),
      trackNumber := GetOr(info, "track_number", Str("")),
      description := GetOr(info, "description", Str("")),
      thumbnail := Get(info, "thumbnail"),
      lyrics := match lyrics case Some(v) => (if Truthy(v) then v else Str("")) case None => Str(""))
  }

  /** The difference between the two defaults: an empty `artist` falls
      through to `uploader`, but an empty `uploader` or `genre` that is
      present is kept as it is. */
  lemma OrVersusGet()
    ensures BuildTagRecord(map["artist" := Str(""), "uploader" := Str("")], None).artist == Str("")
    ensures BuildTagRecord(map["artist" := Str("")], None).artist == Str("Unknown Artist")
    ensures BuildTagRecord(map["genre" := Str("")], None).genre == Str("")
    ensures BuildTagRecord(map[], None).genre == Str("Unknown Genre")
  {
  }

  /** An MP4 cover image's `imageformat`. */
  datatype CoverFormat = FormatJpeg | FormatPng

  /** What a key of a tag container holds. */
  datatype Tag =
    | Plain(value: Value)
    | TextFrame(encoding: int, text: Value)
    | CommentFrame(encoding: int, lang: string, desc: string, text: Value)
    | LyricsFrame(encoding: int, desc: string, text: Value)
    | PictureFrame(encoding: int, mime: string, kind: int, desc: string, data: Bytes)
    | TrackPairs(pairs: seq<(int, int)>)
    | Covers(covers: seq<(Bytes, CoverFormat)>)
    | AsfAttribute(name: string, value: Value)

  /** A FLAC picture block. */
  datatype Picture = Picture(kind: int, mime: string, desc: string, data: Bytes)

  /** ID3 text encoding 3 is UTF-8; picture type 3 is the front cover. */
  const Utf8: int := 3
  const FrontCover: int := 3

  /** The key mutagen gives the added APIC frame. */
  const ApicKey: string := "APIC:Thumbnail"

  /** One guarded assignment `if cond: audio[key] = tag`. */
  datatype Write = Write(cond: bool, key: string, tag: Tag)

  /** The tags after one guarded assignment. */
  function Step(tags: map<string, Tag>, w: Write): map<string, Tag> {
    if w.cond then tags[w.key := w.tag] else tags
  }

  /** The tags after the assignments, done in order. */
  function Apply(tags: map<string, Tag>, ws: seq<Write>): map<string, Tag>
    decreases |ws|
  {
    if ws == [] then tags else Step(Apply(tags, ws[..|ws| - 1]), ws[|ws| - 1])
  }

  /** No two assignments of a branch use the same key. */
  predicate DistinctKeys(ws: seq<Write>) {
    forall i, j :: 0 <= i < j < |ws| ==> ws[i].key != ws[j].key
  }

  /** One more assignment. */
  lemma ApplyStep(tags: map<string, Tag>, ws: seq<Write>, j: int)
    requires 0 <= j < |ws|
    ensures Apply(tags, ws[..j + 1]) == Step(Apply(tags, ws[..j]), ws[j])
  {
    assert ws[..j + 1][..j] == ws[..j];
  }

  /** Eight and nine assignments, one after the other. */
  lemma ApplyEight(tags: map<string, Tag>, ws: seq<Write>)
    requires |ws| == 8
    ensures Apply(tags, ws)
      == Step(Step(Step(Step(Step(Step(Step(Step(tags, ws[0]), ws[1]), ws[2]), ws[3]), ws[4]), ws[5]), ws[6]), ws[7])
  {
    assert ws[..8] == ws;
    ApplyStep(tags, ws, 0);
    ApplyStep(tags, ws, 1);
    ApplyStep(tags, ws, 2);
    ApplyStep(tags, ws, 3);
    ApplyStep(tags, ws, 4);
    ApplyStep(tags, ws, 5);
    ApplyStep(tags, ws, 6);
    ApplyStep(tags, ws, 7);
  }

  lemma ApplyNine(tags: map<string, Tag>, ws: seq<Write>)
    requires |ws| == 9
    ensures Apply(tags, ws) == Step(Apply(tags, ws[..8]), ws[8])
    ensures Apply(tags, ws[..8])
      == Step(Step(Step(Step(Step(Step(Step(Step(tags, ws[0]), ws[1]), ws[2]), ws[3]), ws[4]), ws[5]), ws[6]), ws[7])
  {
    assert ws[..9] == ws;
    ApplyStep(tags, ws, 8);
    ApplyEight(tags, ws[..8]);
  }

  /** The assignments only add to or override the tags they start from. */
  lemma {:induction false} ApplyOver(base: map<string, Tag>, ws: seq<Write>)
    ensures Apply(base, ws) == base + Apply(map[], ws)
    decreases |ws|
  {
    if ws == [] {
      assert base + map[] == base;
    } else {
      ApplyOver(base, ws[..|ws| - 1]);
    }
  }

  /** A key is set exactly when some assignment to it had a true condition. */
  lemma {:induction false} ApplyKeys(ws: seq<Write>)
    ensures Apply(map[], ws).Keys == set i | 0 <= i < |ws| && ws[i].cond :: ws[i].key
    decreases |ws|
  {
    if ws != [] {
      var init := ws[..|ws| - 1];
      ApplyKeys(init);
      assert forall i :: 0 <= i < |init| ==> init[i] == ws[i];
      var last := |ws| - 1;
      assert (set i | 0 <= i < |ws| && ws[i].cond :: ws[i].key)
        == (set i | 0 <= i < |init| && init[i].cond :: init[i].key) + (if ws[last].cond then {ws[last].key} else {});
    }
  }

  /** The value of a key is the tag of the last assignment to it. */
  lemma {:induction false} ApplyLastWins(tags: map<string, Tag>, ws: seq<Write>, i: int)
    requires 0 <= i < |ws| && ws[i].cond
    requires forall j :: i < j < |ws| ==> ws[j].key != ws[i].key
    ensures ws[i].key in Apply(tags, ws) && Apply(tags, ws)[ws[i].key] == ws[i].tag
    decreases |ws|
  {
    if i < |ws| - 1 {
      var init := ws[..|ws| - 1];
      assert init[i] == ws[i];
      ApplyLastWins(tags, init, i);
    }
  }

  /** In a branch with distinct keys, assignment `i` decides its key alone. */
  lemma WrittenExactly(ws: seq<Write>, i: int)
    requires DistinctKeys(ws) && 0 <= i < |ws|
    ensures ws[i].key in Apply(map[], ws) <==> ws[i].cond
    ensures ws[i].cond ==> Apply(map[], ws)[ws[i].key] == ws[i].tag
  {
    ApplyKeys(ws);
    if ws[i].cond {
      ApplyLastWins(map[], ws, i);
    }
  }

  /** The cover to embed: only when the record has a thumbnail and
      `process_image` gave back non-empty image data. */
  predicate HasCover(m: TagRecord, cover: Processed) {
    Truthy(m.thumbnail) && cover.Image? && cover.data != []
  }

  const FlacFields: seq<string> := ["artist", "title", "album", "genre", "date", "track_number", "description", "lyrics"]

  /** `key if key != 'track_number' else 'tracknumber'`. */
  function FlacName(key: string): string {
    if key != "track_number" then key else "tracknumber"
  }

  /** The FLAC loop's assignments, one per field name. */
  function FlacWrites(m: TagRecord): seq<Write> {
    seq(|FlacFields|, i requires 0 <= i < |FlacFields| =>
      Write(Truthy(Field(m, FlacFields[i])), FlacName(FlacFields[i]), Plain(Field(m, FlacFields[i]))))
  }

  function FlacUpdates(m: TagRecord): map<string, Tag> {
    Apply(map[], FlacWrites(m))
  }

  /** `clear_pictures` then `add_picture` when there is a cover. */
  function FlacPictures(pictures: seq<Picture>, m: TagRecord, cover: Processed): seq<Picture> {
    if HasCover(m, cover) then [Picture(FrontCover, cover.mime, "Thumbnail", cover.data)] else pictures
  }

  /** The APIC frame made from `process_image`'s result. */
  function ApicFrame(cover: Processed): Tag {
    match cover
    case Image(mime, data) => PictureFrame(Utf8, mime, FrontCover, "Thumbnail", data)
    case NoImage => PictureFrame(Utf8, "", FrontCover, "Thumbnail", [])
  }

  /** The mp3 branch's assignments. */
  function Mp3Writes(m: TagRecord, cover: Processed): seq<Write> {
    [ Write(Truthy(m.artist), "TPE1", TextFrame(Utf8, m.artist)),
      Write(Truthy(m.title), "TIT2", TextFrame(Utf8, m.title)),
      Write(Truthy(m.album), "TALB", TextFrame(Utf8, m.album)),
      Write(Truthy(m.genre), "TCON", TextFrame(Utf8, m.genre)),
      Write(Truthy(m.date), "TDRC", TextFrame(Utf8, Str(PyStr(m.date)))),
      Write(Truthy(m.trackNumber), "TRCK", TextFrame(Utf8, Str(PyStr(m.trackNumber)))),
      Write(Truthy(m.description), "COMM", CommentFrame(Utf8, "eng", "Description", m.description)),
      Write(Truthy(m.lyrics), "USLT", LyricsFrame(Utf8, "Lyrics", m.lyrics)),
      Write(HasCover(m, cover), ApicKey, ApicFrame(cover)) ]
  }

  function Mp3Updates(m: TagRecord, cover: Processed): map<string, Tag> {
    Apply(map[], Mp3Writes(m, cover))
  }

  /** `[(int(track_number), 0)]`. */
  function TrackTag(track: Value): Result<Tag> {
    match PyInt(track)
    case Ok(n) => Ok(TrackPairs([(n, 0)]))
    case Raise(e) => Raise(e)
  }

  /** `MP4Cover.FORMAT_JPEG if mime_type == 'image/jpeg' else MP4Cover.FORMAT_PNG`. */
  function Mp4CoverFormat(mime: string): CoverFormat {
    if mime == "image/jpeg" then FormatJpeg else FormatPng
  }

  /** The `covr` atom made from `process_image`'s result. */
  function CovrAtom(cover: Processed): Tag {
    match cover
    case Image(mime, data) => Covers([(data, Mp4CoverFormat(mime))])
    case NoImage => Covers([])
  }

  /** The `trkn` assignment, made when the track number is truthy and
      `int()` accepts it. */
  function TrknWrite(m: TagRecord): Write {
    var track := TrackTag(m.trackNumber);
    Write(Truthy(m.trackNumber) && track.Ok?, "trkn", if track.Ok? then track.value else TrackPairs([]))
  }

  /** The AAC/M4A branch's assignments when `int()` accepts the track number. */
  function Mp4Writes(m: TagRecord, cover: Processed): seq<Write> {
    [ Write(Truthy(m.artist), "\U{A9}ART", Plain(m.artist)),
      Write(Truthy(m.title), "\U{A9}nam", Plain(m.title)),
      Write(Truthy(m.album), "\U{A9}alb", Plain(m.album)),
      Write(Truthy(m.genre), "\U{A9}gen", Plain(m.genre)),
      Write(Truthy(m.date), "\U{A9}day", Plain(m.date)),
      TrknWrite(m),
      Write(Truthy(m.lyrics), "\U{A9}lyr", Plain(m.lyrics)),
      Write(HasCover(m, cover), "covr", CovrAtom(cover)) ]
  }

  /** The AAC/M4A updates; a truthy track number that `int()` rejects raises. */
  function Mp4Updates(m: TagRecord, cover: Processed): Result<map<string, Tag>> {
    if Truthy(m.trackNumber) && TrackTag(m.trackNumber).Raise? then Raise(TrackTag(m.trackNumber).error)
    else Ok(Apply(map[], Mp4Writes(m, cover)))
  }

  /** The wav branch's two ASF attributes. */
  function WavWrites(m: TagRecord): seq<Write> {
    [ Write(Truthy(m.artist), "Author", AsfAttribute("Author", m.artist)),
      Write(Truthy(m.title), "Title", AsfAttribute("Title", m.title)) ]
  }

  function WavUpdates(m: TagRecord): map<string, Tag> {
    Apply(map[], WavWrites(m))
  }

  /** The tags stored in a file. */
  datatype FileTags = FileTags(tags: map<string, Tag>, pictures: seq<Picture>)

  /** Opening the file with the format's tag reader: `OpenFailed(true)` is
      the `ID3NoHeaderError` the mp3 branch recovers from. */
  datatype OpenOutcome = Opened | OpenFailed(noId3Header: bool)

  /** `Saved`: `save` ran; `Abandoned`: an exception ended the branch and was
      caught at line 167; `NotImplemented`: the early return at line 165. */
  datatype WriteOutcome = Saved | Abandoned | NotImplemented

  /** What `set_metadata` leaves in the file. */
  function TagWrite(format: string, m: TagRecord, cover: Processed, open: OpenOutcome, before: FileTags): (WriteOutcome, FileTags) {
    if format == "flac" then
      if open.OpenFailed? then (Abandoned, before)
      else (Saved, FileTags(before.tags + FlacUpdates(m), FlacPictures(before.pictures, m, cover)))
    else if format == "mp3" then
      match open
      case Opened => (Saved, FileTags(before.tags + Mp3Updates(m, cover), before.pictures))
      case OpenFailed(noHeader) => if noHeader then (Saved, FileTags(Mp3Updates(m, cover), [])) else (Abandoned, before)
    else if format == "aac" || format == "m4a" then
      if open.OpenFailed? then (Abandoned, before)
      else
        match Mp4Updates(m, cover)
        case Raise(_) => (Abandoned, before)
        case Ok(u) => (Saved, FileTags(before.tags + u, before.pictures))
    else if format == "wav" then
      if open.OpenFailed? then (Abandoned, before)
      else (Saved, FileTags(before.tags + WavUpdates(m), before.pictures))
    else (NotImplemented, before)
  }

  lemma FlacDistinct(m: TagRecord)
    ensures DistinctKeys(FlacWrites(m))
  {
    var ws := FlacWrites(m);
    forall i, j | 0 <= i < j < |ws| ensures ws[i].key != ws[j].key {
      assert ws[i].key == FlacName(FlacFields[i]) && ws[j].key == FlacName(FlacFields[j]);
    }
  }

  /** FLAC: each field of the list is written under its own name
      (`track_number` as `tracknumber`) exactly when it is truthy, holding the
      value as given; nothing else is written. */
  lemma FlacFieldWritten(m: TagRecord, i: int)
    requires 0 <= i < |FlacFields|
    ensures var key := FlacFields[i];
      && (FlacName(key) in FlacUpdates(m) <==> Truthy(Field(m, key)))
      && (FlacName(key) in FlacUpdates(m) ==> FlacUpdates(m)[FlacName(key)] == Plain(Field(m, key)))
  {
    FlacDistinct(m);
    WrittenExactly(FlacWrites(m), i);
  }

  lemma FlacKeys(m: TagRecord)
    ensures FlacUpdates(m).Keys == set i | 0 <= i < |FlacFields| && Truthy(Field(m, FlacFields[i])) :: FlacName(FlacFields[i])
  {
    var ws := FlacWrites(m);
    ApplyKeys(ws);
    var a := set i | 0 <= i < |ws| && ws[i].cond :: ws[i].key;
    var b := set i | 0 <= i < |FlacFields| && Truthy(Field(m, FlacFields[i])) :: FlacName(FlacFields[i]);
    forall k ensures k in a <==> k in b {
      if k in a {
        var i :| 0 <= i < |ws| && ws[i].cond && ws[i].key == k;
        assert Truthy(Field(m, FlacFields[i])) && FlacName(FlacFields[i]) == k;
      }
      if k in b {
        var i :| 0 <= i < |FlacFields| && Truthy(Field(m, FlacFields[i])) && FlacName(FlacFields[i]) == k;
        assert ws[i].cond && ws[i].key == k;
      }
    }
  }

  lemma FlacRenamesTrackNumber(m: TagRecord)
    ensures "tracknumber" in FlacUpdates(m) <==> Truthy(m.trackNumber)
    ensures "tracknumber" in FlacUpdates(m) ==> FlacUpdates(m)["tracknumber"] == Plain(m.trackNumber)
    ensures "track_number" !in FlacUpdates(m) && "thumbnail" !in FlacUpdates(m)
  {
    FlacFieldWritten(m, 5);
    FlacKeys(m);
    forall i | 0 <= i < |FlacFields| ensures FlacName(FlacFields[i]) != "track_number" && FlacName(FlacFields[i]) != "thumbnail" {
    }
  }

  lemma Mp3Distinct(m: TagRecord, cover: Processed)
    ensures DistinctKeys(Mp3Writes(m, cover))
  {
  }

  /** mp3: each field goes to its ID3 frame when truthy, `date` and
      `track_number` as their `str()`. */
  lemma Mp3TextFrames(m: TagRecord, cover: Processed)
    ensures var u := Mp3Updates(m, cover);
      && ("TPE1" in u <==> Truthy(m.artist)) && ("TPE1" in u ==> u["TPE1"] == TextFrame(Utf8, m.artist))
      && ("TIT2" in u <==> Truthy(m.title)) && ("TIT2" in u ==> u["TIT2"] == TextFrame(Utf8, m.title))
      && ("TALB" in u <==> Truthy(m.album)) && ("TALB" in u ==> u["TALB"] == TextFrame(Utf8, m.album))
      && ("TCON" in u <==> Truthy(m.genre)) && ("TCON" in u ==> u["TCON"] == TextFrame(Utf8, m.genre))
      && ("TDRC" in u <==> Truthy(m.date)) && ("TDRC" in u ==> u["TDRC"] == TextFrame(Utf8, Str(PyStr(m.date))))
      && ("TRCK" in u <==> Truthy(m.trackNumber)) && ("TRCK" in u ==> u["TRCK"] == TextFrame(Utf8, Str(PyStr(m.trackNumber))))
  {
    var ws := Mp3Writes(m, cover);
    Mp3Distinct(m, cover);
    WrittenExactly(ws, 0);
    WrittenExactly(ws, 1);
    WrittenExactly(ws, 2);
    WrittenExactly(ws, 3);
    WrittenExactly(ws, 4);
    WrittenExactly(ws, 5);
  }

  lemma Mp3OtherFrames(m: TagRecord, cover: Processed)
    ensures var u := Mp3Updates(m, cover);
      && ("COMM" in u <==> Truthy(m.description))
      && ("COMM" in u ==> u["COMM"] == CommentFrame(Utf8, "eng", "Description", m.description))
      && ("USLT" in u <==> Truthy(m.lyrics)) && ("USLT" in u ==> u["USLT"] == LyricsFrame(Utf8, "Lyrics", m.lyrics))
      && (ApicKey in u <==> HasCover(m, cover))
      && (ApicKey in u ==> u[ApicKey] == PictureFrame(Utf8, cover.mime, FrontCover, "Thumbnail", cover.data))
  {
    var ws := Mp3Writes(m, cover);
    Mp3Distinct(m, cover);
    WrittenExactly(ws, 6);
    WrittenExactly(ws, 7);
    WrittenExactly(ws, 8);
  }

  lemma Mp3Keys(m: TagRecord, cover: Processed)
    ensures Mp3Updates(m, cover).Keys <= {"TPE1", "TIT2", "TALB", "TCON", "TDRC", "TRCK", "COMM", "USLT", ApicKey}
  {
    ApplyKeys(Mp3Writes(m, cover));
  }

  lemma Mp4Distinct(m: TagRecord, cover: Processed)
    ensures DistinctKeys(Mp4Writes(m, cover))
  {
  }

  /** AAC/M4A: the atoms written, never a description; the track number as
      the pair `(int(n), 0)`. */
  lemma Mp4Atoms(m: TagRecord, cover: Processed)
    requires Mp4Updates(m, cover).Ok?
    ensures var u := Mp4Updates(m, cover).value;
      && u.Keys <= {"\U{A9}ART", "\U{A9}nam", "\U{A9}alb", "\U{A9}gen", "\U{A9}day", "trkn", "\U{A9}lyr", "covr"}
      && ("\U{A9}ART" in u <==> Truthy(m.artist)) && ("\U{A9}ART" in u ==> u["\U{A9}ART"] == Plain(m.artist))
      && ("\U{A9}nam" in u <==> Truthy(m.title)) && ("\U{A9}nam" in u ==> u["\U{A9}nam"] == Plain(m.title))
      && ("\U{A9}alb" in u <==> Truthy(m.album)) && ("\U{A9}alb" in u ==> u["\U{A9}alb"] == Plain(m.album))
      && ("\U{A9}gen" in u <==> Truthy(m.genre)) && ("\U{A9}gen" in u ==> u["\U{A9}gen"] == Plain(m.genre))
      && ("\U{A9}day" in u <==> Truthy(m.date)) && ("\U{A9}day" in u ==> u["\U{A9}day"] == Plain(m.date))
      && ("\U{A9}lyr" in u <==> Truthy(m.lyrics)) && ("\U{A9}lyr" in u ==> u["\U{A9}lyr"] == Plain(m.lyrics))
      && ("trkn" in u <==> Truthy(m.trackNumber))
      && ("trkn" in u ==> PyInt(m.trackNumber).Ok? && u["trkn"] == TrackPairs([(PyInt(m.trackNumber).value, 0)]))
  {
    Mp4TextAtoms(m, cover);
    Mp4TrackAtom(m, cover);
  }

  /** The six text atoms of the AAC/M4A writes. */
  lemma Mp4TextAtoms(m: TagRecord, cover: Processed)
    ensures var u := Apply(map[], Mp4Writes(m, cover));
      && ("\U{A9}ART" in u <==> Truthy(m.artist)) && ("\U{A9}ART" in u ==> u["\U{A9}ART"] == Plain(m.artist))
      && ("\U{A9}nam" in u <==> Truthy(m.title)) && ("\U{A9}nam" in u ==> u["\U{A9}nam"] == Plain(m.title))
      && ("\U{A9}alb" in u <==> Truthy(m.album)) && ("\U{A9}alb" in u ==> u["\U{A9}alb"] == Plain(m.album))
      && ("\U{A9}gen" in u <==> Truthy(m.genre)) && ("\U{A9}gen" in u ==> u["\U{A9}gen"] == Plain(m.genre))
      && ("\U{A9}day" in u <==> Truthy(m.date)) && ("\U{A9}day" in u ==> u["\U{A9}day"] == Plain(m.date))
      && ("\U{A9}lyr" in u <==> Truthy(m.lyrics)) && ("\U{A9}lyr" in u ==> u["\U{A9}lyr"] == Plain(m.lyrics))
  {
    var ws := Mp4Writes(m, cover);
    Mp4Distinct(m, cover);
    PlainWritten(ws, 0, m.artist);
    PlainWritten(ws, 1, m.title);
    PlainWritten(ws, 2, m.album);
    PlainWritten(ws, 3, m.genre);
    PlainWritten(ws, 4, m.date);
    PlainWritten(ws, 6, m.lyrics);
  }

  /** The keys of the AAC/M4A writes and the `trkn` atom. */
  lemma Mp4TrackAtom(m: TagRecord, cover: Processed)
    requires Mp4Updates(m, cover).Ok?
    ensures var u := Apply(map[], Mp4Writes(m, cover));
      && u.Keys <= {"\U{A9}ART", "\U{A9}nam", "\U{A9}alb", "\U{A9}gen", "\U{A9}day", "trkn", "\U{A9}lyr", "covr"}
      && ("trkn" in u <==> Truthy(m.trackNumber))
      && ("trkn" in u ==> PyInt(m.trackNumber).Ok? && u["trkn"] == TrackPairs([(PyInt(m.trackNumber).value, 0)]))
  {
    var ws := Mp4Writes(m, cover);
    ApplyKeys(ws);
    Mp4Distinct(m, cover);
    WrittenExactly(ws, 5);
  }

  /** One `if metadata.get(k): audio[key] = v` among distinct keys. */
  lemma PlainWritten(ws: seq<Write>, i: int, v: Value)
    requires DistinctKeys(ws) && 0 <= i < |ws|
    requires ws[i] == Write(Truthy(v), ws[i].key, Plain(v))
    ensures ws[i].key in Apply(map[], ws) <==> Truthy(v)
    ensures ws[i].key in Apply(map[], ws) ==> Apply(map[], ws)[ws[i].key] == Plain(v)
  {
    WrittenExactly(ws, i);
  }

  /** The cover format is JPEG exactly for a JPEG MIME type. */
  lemma Mp4CoverAtom(m: TagRecord, cover: Processed)
    requires Mp4Updates(m, cover).Ok?
    ensures var u := Mp4Updates(m, cover).value;
      && ("covr" in u <==> HasCover(m, cover))
      && ("covr" in u ==> u["covr"] == Covers([(cover.data, Mp4CoverFormat(cover.mime))]))
      && ("covr" in u ==> (u["covr"].covers[0].1 == FormatJpeg <==> cover.mime == "image/jpeg"))
  {
    Mp4Distinct(m, cover);
    WrittenExactly(Mp4Writes(m, cover), 7);
  }

  /** The AAC/M4A branch fails exactly when the track number is truthy and
      `int()` rejects it. */
  lemma Mp4FailsOnTrackNumber(m: TagRecord, cover: Processed)
    ensures Mp4Updates(m, cover).Raise? <==> Truthy(m.trackNumber) && PyInt(m.trackNumber).Raise?
  {
  }

  /** A track number stored as its decimal string becomes that number in
      the first slot of `trkn`. */
  lemma Mp4TrackFromDecimal(m: TagRecord, cover: Processed, n: int)
    requires m.trackNumber == Str(IntToDecimal(n))
    ensures Mp4Updates(m, cover).Ok? && "trkn" in Mp4Updates(m, cover).value
    ensures Mp4Updates(m, cover).value["trkn"] == TrackPairs([(n, 0)])
  {
    IntOfStrRoundTrip(n);
    assert IntToDecimal(n) != [] by {
      if n < 0 { assert IntToDecimal(n)[0] == '-'; }
    }
    Mp4Distinct(m, cover);
    WrittenExactly(Mp4Writes(m, cover), 5);
  }

  /** A non-numeric track number abandons the whole branch, leaving the
      file as it was although the atoms before it had been set in memory. */
  lemma Mp4NonNumericTrackAbandons(m: TagRecord, cover: Processed, before: FileTags)
    requires m.trackNumber == Str("A1")
    ensures TagWrite("m4a", m, cover, Opened, before) == (Abandoned, before)
    ensures TagWrite("aac", m, cover, Opened, before) == (Abandoned, before)
  {
    var s := "A1";
    assert LeadingSpace(s) == 0 && TrailingSpace(s) == 0;
    assert Strip(s) == s;
    assert !IsDigitGroup(s);
  }

  /** wav: only `Author` and `Title`. */
  lemma WavAttributes(m: TagRecord)
    ensures var u := WavUpdates(m);
      && u.Keys <= {"Author", "Title"}
      && ("Author" in u <==> Truthy(m.artist)) && ("Author" in u ==> u["Author"] == AsfAttribute("Author", m.artist))
      && ("Title" in u <==> Truthy(m.title)) && ("Title" in u ==> u["Title"] == AsfAttribute("Title", m.title))
  {
    var ws := WavWrites(m);
    ApplyKeys(ws);
    WrittenExactly(ws, 0);
    WrittenExactly(ws, 1);
  }

  /** The outcome of each branch: a format without a branch changes nothing,
      a failure changes nothing, and a failure to open is a failure except
      for an mp3 file without an ID3 header. */
  lemma TagWriteOutcome(format: string, m: TagRecord, cover: Processed, open: OpenOutcome, before: FileTags)
    ensures format !in {"flac", "mp3", "aac", "m4a", "wav"} ==> TagWrite(format, m, cover, open, before) == (NotImplemented, before)
    ensures TagWrite(format, m, cover, open, before).0 != Saved ==> TagWrite(format, m, cover, open, before).1 == before
    ensures open.OpenFailed? && !(format == "mp3" && open.noId3Header) ==> TagWrite(format, m, cover, open, before).0 != Saved
  {
  }

  /** The saved mp3 tags are the updates over the tags read, or over an
      empty tag when the file had no ID3 header. */
  lemma TagWriteMp3(m: TagRecord, cover: Processed, open: OpenOutcome, before: FileTags, start: map<string, Tag>)
    requires open != OpenFailed(false)
    requires start == if open.Opened? then before.tags else map[]
    ensures TagWrite("mp3", m, cover, open, before)
      == (Saved, FileTags(start + Mp3Updates(m, cover), if open.Opened? then before.pictures else []))
  {
    assert map[] + Mp3Updates(m, cover) == Mp3Updates(m, cover);
  }

  /** The AAC/M4A branch of an opened file: abandoned when `int()` rejects
      a truthy track number, otherwise the updates over the tags read. */
  lemma TagWriteMp4(format: string, m: TagRecord, cover: Processed, before: FileTags)
    requires format == "aac" || format == "m4a"
    ensures Truthy(m.trackNumber) && PyInt(m.trackNumber).Raise? ==> TagWrite(format, m, cover, Opened, before) == (Abandoned, before)
    ensures !(Truthy(m.trackNumber) && PyInt(m.trackNumber).Raise?) ==>
      TagWrite(format, m, cover, Opened, before) == (Saved, FileTags(before.tags + Apply(map[], Mp4Writes(m, cover)), before.pictures))
  {
  }

  /** A saved branch keeps every tag it did not assign. */
  lemma SavedKeepsOtherTags(format: string, m: TagRecord, cover: Processed, before: FileTags, k: string)
    requires TagWrite(format, m, cover, Opened, before).0 == Saved
    requires k in before.tags
    ensures k in TagWrite(format, m, cover, Opened, before).1.tags
    ensures var u := TagWrite(format, m, cover, Opened, before).1.tags;
      u[k] == before.tags[k] || (format == "flac" && k in FlacUpdates(m)) || (format == "mp3" && k in Mp3Updates(m, cover))
      || (format in {"aac", "m4a"} && k in Mp4Updates(m, cover).value) || (format == "wav" && k in WavUpdates(m))
  {
  }

  /** The FLAC cover replaces every picture, and only when there is one to add. */
  lemma FlacCoverReplacesPictures(m: TagRecord, cover: Processed, before: FileTags)
    ensures var after := TagWrite("flac", m, cover, Opened, before).1;
      && (HasCover(m, cover) ==> after.pictures == [Picture(FrontCover, cover.mime, "Thumbnail", cover.data)])
      && (!HasCover(m, cover) ==> after.pictures == before.pictures)
  {
  }

  /** The mp3 assignments one after the other. */
  lemma Mp3Sequence(start: map<string, Tag>, m: TagRecord, cover: Processed)
    ensures Apply(start, Mp3Writes(m, cover))
      == Step(Step(Step(Step(Step(Step(Step(Step(Step(start,
           Write(Truthy(m.artist), "TPE1", TextFrame(Utf8, m.artist))),
           Write(Truthy(m.title), "TIT2", TextFrame(Utf8, m.title))),
           Write(Truthy(m.album), "TALB", TextFrame(Utf8, m.album))),
           Write(Truthy(m.genre), "TCON", TextFrame(Utf8, m.genre))),
           Write(Truthy(m.date), "TDRC", TextFrame(Utf8, Str(PyStr(m.date))))),
           Write(Truthy(m.trackNumber), "TRCK", TextFrame(Utf8, Str(PyStr(m.trackNumber))))),
           Write(Truthy(m.description), "COMM", CommentFrame(Utf8, "eng", "Description", m.description))),
           Write(Truthy(m.lyrics), "USLT", LyricsFrame(Utf8, "Lyrics", m.lyrics))),
           Write(HasCover(m, cover), ApicKey, ApicFrame(cover)))
  {
    ApplyNine(start, Mp3Writes(m, cover));
  }

  /** The AAC/M4A assignments one after the other. */
  lemma Mp4Sequence(start: map<string, Tag>, m: TagRecord, cover: Processed)
    ensures Apply(start, Mp4Writes(m, cover))
      == Step(Step(Step(Step(Step(Step(Step(Step(start,
           Write(Truthy(m.artist), "\U{A9}ART", Plain(m.artist))),
           Write(Truthy(m.title), "\U{A9}nam", Plain(m.title))),
           Write(Truthy(m.album), "\U{A9}alb", Plain(m.album))),
           Write(Truthy(m.genre), "\U{A9}gen", Plain(m.genre))),
           Write(Truthy(m.date), "\U{A9}day", Plain(m.date))),
           TrknWrite(m)),
           Write(Truthy(m.lyrics), "\U{A9}lyr", Plain(m.lyrics))),
           Write(HasCover(m, cover), "covr", CovrAtom(cover)))
  {
    ApplyEight(start, Mp4Writes(m, cover));
  }

  /** The tags of an audio file on disk. */
  class AudioFile {
    var tags: map<string, Tag>
    var pictures: seq<Picture>

    constructor (tags: map<string, Tag>, pictures: seq<Picture>)
      ensures this.tags == tags && this.pictures == pictures
    {
      this.tags := tags;
      this.pictures := pictures;
    }
  }

  /** A mutagen file object: the tags read from a file, edited in memory
      until `save` writes them back. */
  class TagEditor {
    var tags: map<string, Tag>
    var pictures: seq<Picture>

    /** `FLAC(path)`, `ID3(path)`, `MP4(path)`, `ASF(path)`. */
    constructor Open(file: AudioFile)
      ensures tags == file.tags && pictures == file.pictures
    {
      tags := file.tags;
      pictures := file.pictures;
    }

    /** `ID3()`: an empty tag. */
    constructor Fresh()
      ensures tags == map[] && pictures == []
    {
      tags := map[];
      pictures := [];
    }

    /** `audio[key] = tag`. */
    method Set(key: string, tag: Tag)
      modifies this
      ensures tags == old(tags)[key := tag] && pictures == old(pictures)
    {
      tags := tags[key := tag];
    }

    /** `if cond: audio[key] = tag`. */
    method Perform(w: Write)
      modifies this
      ensures tags == Step(old(tags), w) && pictures == old(pictures)
    {
      if w.cond {
        tags := tags[w.key := w.tag];
      }
    }

    method ClearPictures()
      modifies this
      ensures pictures == [] && tags == old(tags)
    {
      pictures := [];
    }

    method AddPicture(p: Picture)
      modifies this
      ensures pictures == old(pictures) + [p] && tags == old(tags)
    {
      pictures := pictures + [p];
    }

    /** `audio.save()`. */
    method Save(file: AudioFile)
      modifies file
      ensures file.tags == tags && file.pictures == pictures
    {
      file.tags := tags;
      file.pictures := pictures;
    }
  }

  /** `set_metadata`. `open` is what opening the file with the format's tag
      reader does, `cover` what `process_image` returns for the record's
      thumbnail (used only when the thumbnail is truthy). */
  method SetMetadata(file: AudioFile, m: TagRecord, format: string, open: OpenOutcome, cover: Processed)
    returns (outcome: WriteOutcome)
    modifies file
    ensures (outcome, FileTags(file.tags, file.pictures))
      == TagWrite(format, m, cover, open, FileTags(old(file.tags), old(file.pictures)))
  {
    if format == "flac" {
      outcome := SetFlac(file, m, open, cover);
    } else if format == "mp3" {
      outcome := SetMp3(file, m, open, cover);
    } else if format == "aac" || format == "m4a" {
      outcome := SetMp4(file, m, format, open, cover);
    } else if format == "wav" {
      outcome := SetWav(file, m, open, cover);
    } else {
      outcome := NotImplemented;
    }
  }

  /** The flac branch (lines 59-79). */
  method SetFlac(file: AudioFile, m: TagRecord, open: OpenOutcome, cover: Processed)
    returns (outcome: WriteOutcome)
    modifies file
    ensures (outcome, FileTags(file.tags, file.pictures))
      == TagWrite("flac", m, cover, open, FileTags(old(file.tags), old(file.pictures)))
  {
    if open.OpenFailed? {
      return Abandoned;
    }
    var audio := new TagEditor.Open(file);
    ghost var ws := FlacWrites(m);
    var i := 0;
    while i < |FlacFields|
      invariant 0 <= i <= |FlacFields|
      invariant audio.tags == Apply(file.tags, ws[..i]) && audio.pictures == file.pictures
      modifies audio
    {
      var key := FlacFields[i];
      audio.Perform(Write(Truthy(Field(m, key)), FlacName(key), Plain(Field(m, key))));
      ApplyStep(file.tags, ws, i);
      i := i + 1;
    }
    if Truthy(m.thumbnail) {
      if cover.Image? && cover.data != [] {
        audio.ClearPictures();
        audio.AddPicture(Picture(FrontCover, cover.mime, "Thumbnail", cover.data));
      }
    }
    assert ws[..|FlacFields|] == ws;
    ApplyOver(file.tags, ws);
    assert audio.tags == file.tags + FlacUpdates(m);
    assert audio.pictures == FlacPictures(file.pictures, m, cover);
    audio.Save(file);
    outcome := Saved;
  }

  /** The mp3 branch (lines 81-118). */
  method SetMp3(file: AudioFile, m: TagRecord, open: OpenOutcome, cover: Processed)
    returns (outcome: WriteOutcome)
    modifies file
    ensures (outcome, FileTags(file.tags, file.pictures))
      == TagWrite("mp3", m, cover, open, FileTags(old(file.tags), old(file.pictures)))
  {
    if open == OpenFailed(false) {
      return Abandoned;
    }
    var audio: TagEditor;
    if open.Opened? {
      audio := new TagEditor.Open(file);
    } else {
      // `ID3NoHeaderError`: start from an empty tag.
      audio := new TagEditor.Fresh();
    }
    ghost var start := audio.tags;
    audio.Perform(Write(Truthy(m.artist), "TPE1", TextFrame(Utf8, m.artist)));
    audio.Perform(Write(Truthy(m.title), "TIT2", TextFrame(Utf8, m.title)));
    audio.Perform(Write(Truthy(m.album), "TALB", TextFrame(Utf8, m.album)));
    audio.Perform(Write(Truthy(m.genre), "TCON", TextFrame(Utf8, m.genre)));
    audio.Perform(Write(Truthy(m.date), "TDRC", TextFrame(Utf8, Str(PyStr(m.date)))));
    audio.Perform(Write(Truthy(m.trackNumber), "TRCK", TextFrame(Utf8, Str(PyStr(m.trackNumber)))));
    audio.Perform(Write(Truthy(m.description), "COMM", CommentFrame(Utf8, "eng", "Description", m.description)));
    audio.Perform(Write(Truthy(m.lyrics), "USLT", LyricsFrame(Utf8, "Lyrics", m.lyrics)));
    audio.Perform(Write(HasCover(m, cover), ApicKey, ApicFrame(cover)));
    Mp3Sequence(start, m, cover);
    ApplyOver(start, Mp3Writes(m, cover));
    TagWriteMp3(m, cover, open, FileTags(file.tags, file.pictures), start);
    audio.Save(file);
    outcome := Saved;
  }

  /** The AAC/M4A branch (lines 120-146). */
  method SetMp4(file: AudioFile, m: TagRecord, format: string, open: OpenOutcome, cover: Processed)
    returns (outcome: WriteOutcome)
    requires format == "aac" || format == "m4a"
    modifies file
    ensures (outcome, FileTags(file.tags, file.pictures))
      == TagWrite(format, m, cover, open, FileTags(old(file.tags), old(file.pictures)))
  {
    if open.OpenFailed? {
      return Abandoned;
    }
    TagWriteMp4(format, m, cover, FileTags(file.tags, file.pictures));
    var audio := new TagEditor.Open(file);
    audio.Perform(Write(Truthy(m.artist), "\U{A9}ART", Plain(m.artist)));
    audio.Perform(Write(Truthy(m.title), "\U{A9}nam", Plain(m.title)));
    audio.Perform(Write(Truthy(m.album), "\U{A9}alb", Plain(m.album)));
    audio.Perform(Write(Truthy(m.genre), "\U{A9}gen", Plain(m.genre)));
    audio.Perform(Write(Truthy(m.date), "\U{A9}day", Plain(m.date)));
    ghost var before5 := audio.tags;
    if Truthy(m.trackNumber) {
      var n := PyInt(m.trackNumber);
      if n.Raise? {
        // `int()` raised: the branch ends before `save`.
        return Abandoned;
      }
      audio.Set("trkn", TrackPairs([(n.value, 0)]));
    }
    assert audio.tags == Step(before5, TrknWrite(m));
    audio.Perform(Write(Truthy(m.lyrics), "\U{A9}lyr", Plain(m.lyrics)));
    audio.Perform(Write(HasCover(m, cover), "covr", CovrAtom(cover)));
    Mp4Sequence(file.tags, m, cover);
    ApplyOver(file.tags, Mp4Writes(m, cover));
    audio.Save(file);
    outcome := Saved;
  }

  /** The wav branch (lines 148-161). */
  method SetWav(file: AudioFile, m: TagRecord, open: OpenOutcome, cover: Processed)
    returns (outcome: WriteOutcome)
    modifies file
    ensures (outcome, FileTags(file.tags, file.pictures))
      == TagWrite("wav", m, cover, open, FileTags(old(file.tags), old(file.pictures)))
  {
    if open.OpenFailed? {
      return Abandoned;
    }
    var audio := new TagEditor.Open(file);
    ghost var ws := WavWrites(m);
    audio.Perform(Write(Truthy(m.artist), "Author", AsfAttribute("Author", m.artist)));
    ApplyStep(file.tags, ws, 0);
    audio.Perform(Write(Truthy(m.title), "Title", AsfAttribute("Title", m.title)));
    ApplyStep(file.tags, ws, 1);
    assert ws[..2] == ws;
    ApplyOver(file.tags, ws);
    audio.Save(file);
    outcome := Saved;
  }
}
