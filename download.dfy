/** `download_audio` (download_audio.py:253-385): the format gate, the
    resolution of the downloaded file's path, and the order in which the
    lyrics, the tags and the lyrics sidecar follow. What yt-dlp, the file
    system and the tag library do enters as inputs. */
module Download {
  import opened Strings
  import opened Wrappers
  import opened PyValues
  import opened Paths
  import opened Formats
  import opened Cover
  import opened Lyrics
  import opened Tags

  /** `len(v)`. */
  function Len(v: Value): Result<nat> {
    match v
    case List(items) => Ok(|items|)
    case Dict(entries) => Ok(|entries|)
    case Str(s) => Ok(|s|)
    case _ => Raise(TypeError)
  }

  /** What `for x in v` visits: a list's items, a dict's keys, a string's
      characters. */
  function Elements(v: Value): (r: Result<seq<Value>>)
    ensures r.Ok? <==> Len(v).Ok?
    ensures r.Ok? ==> |r.value| == Len(v).value
  {
    match v
    case List(items) => Ok(items)
    case Dict(entries) => Ok(seq(|entries|, i requires 0 <= i < |entries| => Str(entries[i].0)))
    case Str(s) => Ok(seq(|s|, i requires 0 <= i < |s| => Str([s[i]])))
    case _ => Raise(TypeError)
  }

  /** `x.get(k)`: only a dict has `get`. */
  function ValueGet(v: Value, k: string): (r: Result<Value>)
    ensures r.Ok? <==> v.Dict?
    ensures v.Dict? && !DictHas(v.entries, k) ==> r.value == Null
    ensures v.Dict? ==> r.value == DictGet(v.entries, k)
    ensures !v.Dict? ==> r == Raise(AttributeError)
  {
    if v.Dict? then Ok(DictGet(v.entries, k)) else Raise(AttributeError)
  }

  /** The entry the loop stops at: a dict whose `ext` is the format. */
  predicate IsMatch(d: Value, format: string) {
    d.Dict? && DictGet(d.entries, "ext") == Str(format)
  }

  /** The loop over `requested_downloads`: the `filepath` of the first
      matching entry, `None` when the loop runs to its end. */
  function Scan(ds: seq<Value>, format: string): Result<Option<Value>>
    decreases |ds|
  {
    if ds == [] then Ok(None)
    else if !ds[0].Dict? then Raise(AttributeError)
    else if IsMatch(ds[0], format) then Ok(Some(DictGet(ds[0].entries, "filepath")))
    else Scan(ds[1..], format)
  }

  /** `final_file_path` after the first level (lines 330-335). */
  function FromRequested(info: Info, format: string): Result<Value> {
    if "requested_downloads" !in info then Ok(Null)
    else
      match Len(info["requested_downloads"])
      case Raise(e) => Raise(e)
      case Ok(n) =>
        if n == 0 then Ok(Null)
        else
          match Elements(info["requested_downloads"])
          case Raise(e) => Raise(e)
          case Ok(ds) =>
            match Scan(ds, format)
            case Raise(e) => Raise(e)
            case Ok(None) => Ok(Null)
            case Ok(Some(p)) => Ok(p)
  }

  /** The path built from the title when the info dict names no file. */
  function GuessedPath(info: Info, outDir: string, format: string): string {
    Join(outDir, PyStr(GetOr(info, "title", Str("Unknown_Title"))) + "." + format)
  }

  /** The second and third levels (lines 338-344). */
  function Fallback(info: Info, outDir: string, format: string): Value {
    var named := Or(Get(info, "filepath"), Get(info, "path"));
    if Truthy(named) then named else Str(GuessedPath(info, outDir, format))
  }

  /** The final file path, or the exception the first level raises. */
  function FinalPath(info: Info, outDir: string, format: string): Result<Value> {
    match FromRequested(info, format)
    case Raise(e) => Raise(e)
    case Ok(p) => if Truthy(p) then Ok(p) else Ok(Fallback(info, outDir, format))
  }

  /** Lines 330-344, with the `for … break` loop. */
  method ResolveFinalPath(info: Info, outDir: string, format: string) returns (r: Result<Value>)
    ensures r == FinalPath(info, outDir, format)
  {
    var finalPath := Null;
    if "requested_downloads" in info {
      var n := Len(info["requested_downloads"]);
      if n.Raise? {
        return Raise(n.error);
      }
      if n.value > 0 {
        var ds := Elements(info["requested_downloads"]).value;
        var i := 0;
        while i < |ds|
          invariant 0 <= i <= |ds|
          invariant Scan(ds[i..], format) == Scan(ds, format)
          invariant finalPath == Null
        {
          var ext := ValueGet(ds[i], "ext");
          if ext.Raise? {
            return Raise(ext.error);
          }
          if ext.value == Str(format) {
            finalPath := ValueGet(ds[i], "filepath").value;
            break;
          }
          assert ds[i..][1..] == ds[i + 1..];
          i := i + 1;
        }
        assert FromRequested(info, format) == Ok(finalPath);
      }
    }
    if !Truthy(finalPath) {
      finalPath := Or(Get(info, "filepath"), Get(info, "path"));
    }
    if !Truthy(finalPath) {
      var title := GetOr(info, "title", Str("Unknown_Title"));
      finalPath := Str(Join(outDir, PyStr(title) + "." + format));
    }
    return Ok(finalPath);
  }

  /** The loop stops at the first matching entry; nothing after it is read. */
  lemma {:induction false} ScanStopsAtFirstMatch(ds: seq<Value>, rest: seq<Value>, format: string)
    requires ds != [] && IsMatch(ds[|ds| - 1], format)
    requires forall j :: 0 <= j < |ds| - 1 ==> ds[j].Dict? && !IsMatch(ds[j], format)
    ensures Scan(ds + rest, format) == Ok(Some(DictGet(ds[|ds| - 1].entries, "filepath")))
    decreases |ds|
  {
    if |ds| > 1 {
      assert (ds + rest)[1..] == ds[1..] + rest;
      ScanStopsAtFirstMatch(ds[1..], rest, format);
    }
  }

  /** A loop over dicts none of which matches runs to its end. */
  lemma {:induction false} ScanNoMatch(ds: seq<Value>, format: string)
    requires forall j :: 0 <= j < |ds| ==> ds[j].Dict? && !IsMatch(ds[j], format)
    ensures Scan(ds, format) == Ok(None)
    decreases |ds|
  {
    if ds != [] {
      ScanNoMatch(ds[1..], format);
    }
  }

  /** An entry that is not a dict before any match raises `AttributeError`. */
  lemma {:induction false} ScanNonDict(ds: seq<Value>, format: string, i: int)
    requires 0 <= i < |ds| && !ds[i].Dict?
    requires forall j :: 0 <= j < i ==> ds[j].Dict? && !IsMatch(ds[j], format)
    ensures Scan(ds, format) == Raise(AttributeError)
    decreases |ds|
  {
    if i > 0 {
      ScanNonDict(ds[1..], format, i - 1);
    }
  }

  /** First level: the first entry whose `ext` is the format decides, even
      when its `filepath` is missing or empty; then the path falls back to
      the second level without looking at later entries. */
  lemma FirstMatchDecides(info: Info, outDir: string, format: string, ds: seq<Value>, rest: seq<Value>)
    requires ds != [] && IsMatch(ds[|ds| - 1], format)
    requires forall j :: 0 <= j < |ds| - 1 ==> ds[j].Dict? && !IsMatch(ds[j], format)
    requires "requested_downloads" in info && info["requested_downloads"] == List(ds + rest)
    ensures var p := DictGet(ds[|ds| - 1].entries, "filepath");
      FinalPath(info, outDir, format) == Ok(if Truthy(p) then p else Fallback(info, outDir, format))
  {
    ScanStopsAtFirstMatch(ds, rest, format);
  }

  /** No matching entry, or no entries at all: the first level gives nothing. */
  lemma NoMatchFallsBack(info: Info, outDir: string, format: string, ds: seq<Value>)
    requires forall j :: 0 <= j < |ds| ==> ds[j].Dict? && !IsMatch(ds[j], format)
    requires "requested_downloads" !in info || info["requested_downloads"] == List(ds)
    ensures FinalPath(info, outDir, format) == Ok(Fallback(info, outDir, format))
  {
    ScanNoMatch(ds, format);
  }

  /** Second and third levels: `filepath`, then `path`, then the guess from
      the title, `Unknown_Title` when the info dict has none. */
  lemma FallbackOrder(info: Info, outDir: string, format: string)
    ensures Truthy(Get(info, "filepath")) ==> Fallback(info, outDir, format) == info["filepath"]
    ensures !Truthy(Get(info, "filepath")) && Truthy(Get(info, "path")) ==> Fallback(info, outDir, format) == info["path"]
    ensures !Truthy(Get(info, "filepath")) && !Truthy(Get(info, "path")) ==>
      Fallback(info, outDir, format) == Str(GuessedPath(info, outDir, format))
    ensures "title" !in info ==> GuessedPath(info, outDir, format) == Join(outDir, "Unknown_Title." + format)
  {
    if "title" !in info {
      assert PyStr(Str("Unknown_Title")) + "." + format == "Unknown_Title." + format;
    }
  }

  /** The guessed path is the title with the format as extension, inside
      the output directory (one `/` after it) unless the title is absolute,
      and the title itself when it is. */
  lemma GuessedPathShape(info: Info, outDir: string, format: string)
    ensures var name := PyStr(GetOr(info, "title", Str("Unknown_Title"))) + "." + format;
      && EndsWith(GuessedPath(info, outDir, format), "." + format)
      && (StartsWith(name, "/") ==> GuessedPath(info, outDir, format) == name)
      && (!StartsWith(name, "/") ==>
            GuessedPath(info, outDir, format) == if outDir == "" || EndsWith(outDir, "/") then outDir + name else outDir + "/" + name)
  {
    NamedPathShape(outDir, PyStr(GetOr(info, "title", Str("Unknown_Title"))), format);
  }

  lemma NamedPathShape(outDir: string, title: string, format: string)
    ensures EndsWith(Join(outDir, title + "." + format), "." + format)
  {
    var name := title + "." + format;
    assert EndsWith(name, "." + format) by {
      assert name[|name| - |"." + format|..] == "." + format;
    }
    EndsWithTrans(Join(outDir, name), name, "." + format);
  }

  /** Whenever no exception is raised, the path is truthy, so
      `os.path.exists` always gets something to look for. */
  lemma FinalPathTruthy(info: Info, outDir: string, format: string)
    requires FinalPath(info, outDir, format).Ok?
    ensures Truthy(FinalPath(info, outDir, format).value)
  {
    if !Truthy(FromRequested(info, format).value) {
      FallbackTruthy(info, outDir, format);
    }
  }

  lemma FallbackTruthy(info: Info, outDir: string, format: string)
    ensures Truthy(Fallback(info, outDir, format))
  {
    GuessedPathShape(info, outDir, format);
  }

  /** A `requested_downloads` without a length (`None`, a number) raises
      `TypeError`; a list whose entries before the first match include a
      non-dict raises `AttributeError`. */
  lemma FinalPathErrors(info: Info, outDir: string, format: string, ds: seq<Value>, i: int)
    requires "requested_downloads" in info
    requires info["requested_downloads"].Null? || info["requested_downloads"].Bool? || info["requested_downloads"].Int?
      || (info["requested_downloads"] == List(ds) && 0 <= i < |ds| && !ds[i].Dict?
          && forall j :: 0 <= j < i ==> ds[j].Dict? && !IsMatch(ds[j], format))
    ensures !info["requested_downloads"].List? ==> FinalPath(info, outDir, format) == Raise(TypeError)
    ensures info["requested_downloads"].List? ==> FinalPath(info, outDir, format) == Raise(AttributeError)
  {
    if info["requested_downloads"].List? {
      ScanNonDict(ds, format, i);
    }
  }

  /** What `extract_info` did: `ExtractionFailed` is the `DownloadError`
      the script catches; `Extracted` gives the info dict. */
  datatype Extraction = ExtractionFailed | Extracted(info: Info)

  /** The `.lrc` file `save_lyrics_lrc` leaves. `open` creates the file
      before `write` runs, so lyrics that are not a string leave it empty. */
  datatype Sidecar = NoSidecar | SidecarWritten(path: string, text: string)

  /** How a run ends. `Unsupported` and `Missing` are `sys.exit(1)`,
      `DownloadReported` is the caught `DownloadError`, `Crashed` an
      exception nothing catches; `Finished` carries the path, the outcome of
      `set_metadata` (`None` when the second existence check failed) and the
      sidecar. */
  datatype Run =
    | Unsupported(exitCode: int)
    | DownloadReported
    | Crashed(error: PyError)
    | Missing(exitCode: int, path: Value)
    | Finished(path: Value, tagged: Option<WriteOutcome>, sidecar: Sidecar)

  /** Lines 380-381 and `save_lyrics_lrc`: the sidecar is written only when
      asked for and the lyrics are truthy; `splitext` of a path that is not
      a string raises inside the `try` and nothing is written. */
  function SidecarFor(createLrc: bool, path: Value, lyrics: Option<Value>): Sidecar {
    if createLrc && lyrics.Some? && Truthy(lyrics.value) && path.Str? then
      SidecarWritten(LrcPath(path.s), if lyrics.value.Str? then lyrics.value.s else "")
    else NoSidecar
  }

  /** The whole run. `present` and `presentAgain` are the two
      `os.path.exists` checks, `pass` the subtitle download, `open` what
      the tag library does on opening the file, `fetch` and `encoded` what
      the thumbnail download and the image library give `process_image`
      (taken as written, so only a JPEG-typed thumbnail becomes a cover),
      `before` the file's tags. */
  function Outcome(netloc: string, outDir: string, format: string, createLrc: bool, extraction: Extraction,
                   present: bool, pass: SubtitlePass, presentAgain: bool, open: OpenOutcome, fetch: Fetch, encoded: Option<Bytes>,
                   before: FileTags): (Run, FileTags)
  {
    if CheckFormat(format).Rejected? then (Unsupported(1), before)
    else
      match extraction
      case ExtractionFailed => (DownloadReported, before)
      case Extracted(info) =>
        match FinalPath(info, outDir, format)
        case Raise(e) => (Crashed(e), before)
        case Ok(path) =>
          if !present then (Missing(1, path), before)
          else
            match ResolveLyrics(info, outDir, IsYouTubeMusic(netloc), pass)
            case Raise(e) => (Crashed(e), before)
            case Ok(lyrics) =>
              if !presentAgain then (Finished(path, None, NoSidecar), before)
              else
                var written := TagWrite(format, BuildTagRecord(info, lyrics), ProcessImageAsWritten(fetch, encoded), open, before);
                (Finished(path, Some(written.0), SidecarFor(createLrc, path, lyrics)), written.1)
  }

  /** `download_audio`. */
  method DownloadAudio(netloc: string, outDir: string, format: string, createLrc: bool, extraction: Extraction,
                       present: bool, pass: SubtitlePass, presentAgain: bool, open: OpenOutcome, fetch: Fetch, encoded: Option<Bytes>,
                       file: AudioFile)
    returns (run: Run)
    modifies file
    ensures (run, FileTags(file.tags, file.pictures))
      == Outcome(netloc, outDir, format, createLrc, extraction, present, pass, presentAgain, open, fetch, encoded,
                 FileTags(old(file.tags), old(file.pictures)))
  {
    if CheckFormat(format).Rejected? {
      return Unsupported(1);
    }
    var isMusic := IsYouTubeMusic(netloc);
    if extraction.ExtractionFailed? {
      return DownloadReported;
    }
    var info := extraction.info;
    var path := ResolveFinalPath(info, outDir, format);
    if path.Raise? {
      return Crashed(path.error);
    }
    if !present {
      return Missing(1, path.value);
    }
    var lyrics := ResolveLyrics(info, outDir, isMusic, pass);
    if lyrics.Raise? {
      return Crashed(lyrics.error);
    }
    if !presentAgain {
      return Finished(path.value, None, NoSidecar);
    }
    var metadata := BuildTagRecord(info, lyrics.value);
    var cover := ProcessImageAsWritten(fetch, encoded);
    var outcome := SetMetadata(file, metadata, format, open, cover);
    run := Finished(path.value, Some(outcome), SidecarFor(createLrc, path.value, lyrics.value));
  }

  /** An unsupported format ends the run before anything else happens,
      whatever yt-dlp, the file system or the tag library would do. */
  lemma RejectedBeforeWork(netloc: string, outDir: string, format: string, createLrc: bool, extraction: Extraction,
                           present: bool, pass: SubtitlePass, presentAgain: bool, open: OpenOutcome, fetch: Fetch, encoded: Option<Bytes>,
                           before: FileTags)
    requires format !in SupportedFormats
    ensures Outcome(netloc, outDir, format, createLrc, extraction, present, pass, presentAgain, open, fetch, encoded, before)
      == (Unsupported(1), before)
  {
  }

  /** The file's tags change only through a saved `set_metadata`. */
  lemma TagsChangeOnlyWhenSaved(netloc: string, outDir: string, format: string, createLrc: bool, extraction: Extraction,
                                present: bool, pass: SubtitlePass, presentAgain: bool, open: OpenOutcome, fetch: Fetch, encoded: Option<Bytes>,
                                before: FileTags)
    ensures var (run, after) := Outcome(netloc, outDir, format, createLrc, extraction, present, pass, presentAgain, open, fetch, encoded, before);
      after != before ==> run.Finished? && run.tagged == Some(Saved)
  {
    if extraction.Extracted? && CheckFormat(format).Accepted? {
      var info := extraction.info;
      var lyrics := ResolveLyrics(info, outDir, IsYouTubeMusic(netloc), pass);
      if lyrics.Ok? {
        TagWriteOutcome(format, BuildTagRecord(info, lyrics.value), ProcessImageAsWritten(fetch, encoded), open, before);
      }
    }
  }

  /** A finished run tags the file with the record built from the info dict
      and the resolved lyrics, and writes a sidecar next to the audio file
      exactly when one was asked for and the lyrics are truthy. */
  lemma FinishedRun(netloc: string, outDir: string, format: string, createLrc: bool, info: Info,
                    pass: SubtitlePass, open: OpenOutcome, fetch: Fetch, encoded: Option<Bytes>, before: FileTags, b: string, x: string)
    requires FinalPath(info, outDir, format) == Ok(Str(b + "." + x))
    requires forall i :: 0 <= i < |x| ==> x[i] != '.' && x[i] != '/'
    requires HasNonDot(b, RFind(b, '/') + 1, |b|)
    requires ResolveLyrics(info, outDir, IsYouTubeMusic(netloc), pass).Ok?
    requires format in SupportedFormats
    ensures var lyrics := ResolveLyrics(info, outDir, IsYouTubeMusic(netloc), pass).value;
      var (run, after) := Outcome(netloc, outDir, format, createLrc, Extracted(info), true, pass, true, open, fetch, encoded, before);
      && run.Finished? && run.path == Str(b + "." + x)
      && (run.tagged.value, after) == TagWrite(format, BuildTagRecord(info, lyrics), ProcessImageAsWritten(fetch, encoded), open, before)
      && (run.sidecar.SidecarWritten? <==> createLrc && lyrics.Some? && Truthy(lyrics.value))
      && (run.sidecar.SidecarWritten? ==> run.sidecar.path == b + ".lrc")
  {
    var lyrics := ResolveLyrics(info, outDir, IsYouTubeMusic(netloc), pass).value;
    var written := TagWrite(format, BuildTagRecord(info, lyrics), ProcessImageAsWritten(fetch, encoded), open, before);
    var sidecar := SidecarFor(createLrc, Str(b + "." + x), lyrics);
    assert Outcome(netloc, outDir, format, createLrc, Extracted(info), true, pass, true, open, fetch, encoded, before)
      == (Finished(Str(b + "." + x), Some(written.0), sidecar), written.1);
    LrcReplacesExtension(b, x);
  }

  /** A file that is not found after the download ends the run with exit
      status 1 and leaves the tags alone. */
  lemma MissingFileExits(netloc: string, outDir: string, format: string, createLrc: bool, info: Info,
                         pass: SubtitlePass, presentAgain: bool, open: OpenOutcome, fetch: Fetch, encoded: Option<Bytes>, before: FileTags)
    requires format in SupportedFormats && FinalPath(info, outDir, format).Ok?
    ensures Outcome(netloc, outDir, format, createLrc, Extracted(info), false, pass, presentAgain, open, fetch, encoded, before)
      == (Missing(1, FinalPath(info, outDir, format).value), before)
  {
  }
}
