/** `download_subtitles_or_lyrics` (download_audio.py:170-237): the lyrics
    of a YouTube Music track come from the info dict; for a plain YouTube
    video they come from a caption file in the first preferred language,
    cleaned of its timing lines. The caption download, the existence checks
    and the file read enter as a `SubtitlePass` value. */
module Lyrics {
  import opened Strings
  import opened PyValues
  import opened Paths
  import opened Wrappers

  const PreferredLangs: seq<string> := ["ko", "ja", "en"]

  /** The music branch: `info.get('lyrics') or info.get('description', '')`,
      returned when truthy. */
  function MusicLyrics(info: Info): (r: Option<Value>)
    ensures Truthy(Get(info, "lyrics")) ==> r == Some(info["lyrics"])
    ensures !Truthy(Get(info, "lyrics")) && Truthy(Get(info, "description")) ==> r == Some(info["description"])
    ensures r == None <==> !Truthy(Get(info, "lyrics")) && !Truthy(Get(info, "description"))
  {
    var lyrics := Or(Get(info, "lyrics"), GetOr(info, "description", Str("")));
    if Truthy(lyrics) then Some(lyrics) else None
  }

  /** `info.get('subtitles') or info.get('automatic_captions')`. */
  function CaptionTable(info: Info): Value {
    Or(Get(info, "subtitles"), Get(info, "automatic_captions"))
  }

  /** Uploaded subtitles win whenever they are truthy; an empty table falls
      through to the automatic captions. */
  lemma CaptionTableChoice(info: Info)
    ensures Truthy(Get(info, "subtitles")) ==> CaptionTable(info) == info["subtitles"]
    ensures !Truthy(Get(info, "subtitles")) ==> CaptionTable(info) == Get(info, "automatic_captions")
  {
  }

  /** A right operand of `in` that does not raise. */
  predicate IsContainer(v: Value) {
    v.Str? || v.List? || v.Dict?
  }

  predicate Present(lang: string, table: Value) {
    In(lang, table) == Ok(true)
  }

  /** `next((l for l in langs if l in table), None)`. */
  function FirstPresent(langs: seq<string>, table: Value): Result<Option<string>> {
    if langs == [] then Ok(None)
    else
      match In(langs[0], table)
      case Raise(e) => Raise(e)
      case Ok(found) => if found then Ok(Some(langs[0])) else FirstPresent(langs[1..], table)
  }

  function SelectLanguage(table: Value): Result<Option<string>> {
    FirstPresent(PreferredLangs, table)
  }

  /** `langs[i]` is present in the table and no earlier language is. */
  predicate ChosenAt(langs: seq<string>, table: Value, i: int) {
    0 <= i < |langs| && Present(langs[i], table) && forall j :: 0 <= j < i ==> !Present(langs[j], table)
  }

  lemma {:induction false} FirstPresentPicksFirst(langs: seq<string>, table: Value, i: int)
    requires IsContainer(table) && ChosenAt(langs, table, i)
    ensures FirstPresent(langs, table) == Ok(Some(langs[i]))
    decreases i
  {
    if i > 0 {
      assert In(langs[0], table) == Ok(false);
      forall j | 0 <= j < i - 1 ensures !Present(langs[1..][j], table) {
        assert langs[1..][j] == langs[j + 1];
      }
      FirstPresentPicksFirst(langs[1..], table, i - 1);
    }
  }

  lemma {:induction false} FirstPresentNone(langs: seq<string>, table: Value)
    requires IsContainer(table)
    requires forall j :: 0 <= j < |langs| ==> !Present(langs[j], table)
    ensures FirstPresent(langs, table) == Ok(None)
    decreases |langs|
  {
    if langs != [] {
      assert In(langs[0], table) == Ok(false);
      assert forall j :: 0 <= j < |langs| - 1 ==> langs[1..][j] == langs[j + 1];
      FirstPresentNone(langs[1..], table);
    }
  }

  /** Whatever the language choice returns is right: a chosen language is
      the first present one, `None` means none is present, and it raises only
      when the table is not a container. */
  lemma {:induction false} FirstPresentSound(langs: seq<string>, table: Value)
    ensures var r := FirstPresent(langs, table);
      r.Ok? && r.value.Some? ==> exists i :: ChosenAt(langs, table, i) && langs[i] == r.value.value
    ensures FirstPresent(langs, table) == Ok(None) ==> forall j :: 0 <= j < |langs| ==> !Present(langs[j], table)
    ensures FirstPresent(langs, table).Raise? ==> !IsContainer(table) && langs != []
    decreases |langs|
  {
    if langs != [] {
      var r := FirstPresent(langs, table);
      match In(langs[0], table)
      case Raise(e) =>
      case Ok(found) =>
        if found {
          assert ChosenAt(langs, table, 0);
        } else {
          FirstPresentSound(langs[1..], table);
          assert forall j :: 0 <= j < |langs| - 1 ==> langs[1..][j] == langs[j + 1];
          if r.Ok? && r.value.Some? {
            var i :| ChosenAt(langs[1..], table, i) && langs[1..][i] == r.value.value;
            assert ChosenAt(langs, table, i + 1);
          }
          if r == Ok(None) {
            forall j | 0 <= j < |langs| ensures !Present(langs[j], table) {
              if j > 0 { assert langs[j] == langs[1..][j - 1]; }
            }
          }
        }
    }
  }

  /** The preference order ko, ja, en over a caption table. */
  lemma SelectLanguageOrder(table: Value)
    requires IsContainer(table)
    ensures Present("ko", table) ==> SelectLanguage(table) == Ok(Some("ko"))
    ensures !Present("ko", table) && Present("ja", table) ==> SelectLanguage(table) == Ok(Some("ja"))
    ensures !Present("ko", table) && !Present("ja", table) && Present("en", table) ==> SelectLanguage(table) == Ok(Some("en"))
    ensures !Present("ko", table) && !Present("ja", table) && !Present("en", table) ==> SelectLanguage(table) == Ok(None)
  {
    var langs := PreferredLangs;
    if Present("ko", table) {
      FirstPresentPicksFirst(langs, table, 0);
    } else if Present("ja", table) {
      FirstPresentPicksFirst(langs, table, 1);
    } else if Present("en", table) {
      FirstPresentPicksFirst(langs, table, 2);
    } else {
      FirstPresentNone(langs, table);
    }
  }

  datatype SubtitleKind = Vtt | Srt

  function Suffix(kind: SubtitleKind): string {
    match kind
    case Vtt => ".vtt"
    case Srt => ".srt"
  }

  /** `os.path.join(output_dir, f"{title}.{lang}.vtt")` and its `.srt` twin. */
  function SubtitlePath(outDir: string, title: Value, lang: string, kind: SubtitleKind): string {
    Join(outDir, PyStr(title) + "." + lang + Suffix(kind))
  }

  /** The existence checks: the `.vtt` file is taken whenever it exists. */
  function ChooseSubtitle(vttExists: bool, srtExists: bool): (k: Option<SubtitleKind>)
    ensures k == Some(Vtt) <==> vttExists
    ensures k == Some(Srt) <==> !vttExists && srtExists
    ensures k == None <==> !vttExists && !srtExists
  {
    if vttExists then Some(Vtt) else if srtExists then Some(Srt) else None
  }

  /** The two timecode patterns, with `#` standing for `\d`. */
  const VttTimecode: string := "##:##:##.### --> ##:##:##.###"
  const SrtTimecode: string := "##:##:##,### --> ##:##:##,###"

  /** The pattern `t` matches at the start of `s`. */
  predicate MatchesAt(s: string, t: string) {
    |t| <= |s| && forall k :: 0 <= k < |t| ==> if t[k] == '#' then IsDigit(s[k]) else s[k] == t[k]
  }

  /** `re.sub(t, '', s)` for a fixed-length pattern: scanning left to right,
      each match is deleted and the scan resumes after it. */
  function RemovePattern(s: string, t: string): string
    requires t != []
    decreases |s|
  {
    if s == [] then []
    else if MatchesAt(s, t) then RemovePattern(s[|t|..], t)
    else [s[0]] + RemovePattern(s[1..], t)
  }

  /** The index of the first newline in `s` at or after `k`. */
  function NewlineFrom(s: string, k: nat): (j: Option<nat>)
    ensures j.Some? ==> k <= j.value < |s| && s[j.value] == '\n' && forall i :: k <= i < j.value ==> s[i] != '\n'
    ensures j.None? ==> forall i :: k <= i < |s| ==> s[i] != '\n'
    decreases |s| - k
  {
    if k >= |s| then None else if s[k] == '\n' then Some(k) else NewlineFrom(s, k + 1)
  }

  /** The length of the match of `WEBVTT.*\n` at the start of `s`: `.` stops
      at the first newline, which the match must then take. */
  function HeaderLength(s: string): (n: Option<nat>)
    ensures n.Some? ==> 6 < n.value <= |s| && StartsWith(s, "WEBVTT") && s[n.value - 1] == '\n'
    ensures n.Some? ==> forall i :: 6 <= i < n.value - 1 ==> s[i] != '\n'
    ensures n.None? <==> !StartsWith(s, "WEBVTT") || forall i :: 6 <= i < |s| ==> s[i] != '\n'
  {
    if StartsWith(s, "WEBVTT") then
      match NewlineFrom(s, 6)
      case Some(j) => Some(j + 1)
      case None => None
    else None
  }

  /** `re.sub(r'WEBVTT.*\n', '', s, flags=re.MULTILINE)`. */
  function StripHeaders(s: string): string
    decreases |s|
  {
    if s == [] then []
    else
      match HeaderLength(s)
      case Some(n) => StripHeaders(s[n..])
      case None => [s[0]] + StripHeaders(s[1..])
  }

  /** The length of the run of digits at the start of `s`. */
  function DigitRun(s: string): (n: nat)
    ensures n <= |s| && (forall i :: 0 <= i < n ==> IsDigit(s[i])) && (n == |s| || !IsDigit(s[n]))
  {
    if s != [] && IsDigit(s[0]) then 1 + DigitRun(s[1..]) else 0
  }

  /** `\d+\n` matches at the start of `s`: greedy `\d+` can only give back
      digits, so the match exists exactly when the whole run is followed by a
      newline. */
  predicate NumberLineAt(s: string) {
    0 < DigitRun(s) < |s| && s[DigitRun(s)] == '\n'
  }

  /** `re.sub(r'\d+\n', '', s, flags=re.MULTILINE)`. */
  function StripNumberLines(s: string): string
    decreases |s|
  {
    if s == [] then []
    else if NumberLineAt(s) then StripNumberLines(s[DigitRun(s) + 1..])
    else [s[0]] + StripNumberLines(s[1..])
  }

  /** The `.vtt` passes (lines 213-214). */
  function CleanVtt(content: string): string {
    RemovePattern(StripHeaders(content), VttTimecode)
  }

  /** The `.srt` passes (lines 216-217). */
  function CleanSrt(content: string): string {
    RemovePattern(StripNumberLines(content), SrtTimecode)
  }

  /** Lines 212-218: the passes are chosen by the file name's suffix and the
      result is stripped; with neither suffix `lyrics` would be unbound. */
  function CleanFile(path: string, content: string): Result<string> {
    if EndsWith(path, ".vtt") then Ok(Strip(CleanVtt(content)))
    else if EndsWith(path, ".srt") then Ok(Strip(CleanSrt(content)))
    else Raise(NameError)
  }

  /** The caption download and the file checks: `PassFailed` when the
      download raised `DownloadError`; otherwise whether each file exists and
      the text of the one that is read. */
  datatype SubtitlePass = PassFailed | PassDone(vttExists: bool, srtExists: bool, content: string)

  /** `download_subtitles_or_lyrics`. `Ok(None)` is a `None` return; a raised
      error propagates to the caller. */
  function ResolveLyrics(info: Info, outDir: string, isMusic: bool, pass: SubtitlePass): (r: Result<Option<Value>>)
    ensures isMusic ==> r == Ok(MusicLyrics(info))
    ensures !isMusic && !Truthy(CaptionTable(info)) ==> r == Ok(None)
    ensures !isMusic && SelectLanguage(CaptionTable(info)) == Ok(None) ==> r == Ok(None)
    ensures !isMusic && r.Ok? && r.value.Some? ==> r.value.value.Str?
    ensures !isMusic && Truthy(CaptionTable(info)) && SelectLanguage(CaptionTable(info)).Raise? ==>
      r == Raise(SelectLanguage(CaptionTable(info)).error)
    ensures !isMusic && Truthy(CaptionTable(info)) && SelectLanguage(CaptionTable(info)).Ok?
            && SelectLanguage(CaptionTable(info)).value.Some? ==>
      var lang := SelectLanguage(CaptionTable(info)).value.value;
      && ("webpage_url" !in info ==> r == Raise(KeyError))
      && ("webpage_url" in info && pass.PassFailed? ==> r == Ok(None))
      && ("webpage_url" in info && pass.PassDone? && "title" !in info ==> r == Raise(KeyError))
      && (var found := "webpage_url" in info && pass.PassDone? && "title" in info;
          && (found && ChooseSubtitle(pass.vttExists, pass.srtExists).None? ==> r == Ok(None))
          && (found && ChooseSubtitle(pass.vttExists, pass.srtExists).Some? ==>
                var kind := ChooseSubtitle(pass.vttExists, pass.srtExists).value;
                r == Ok(Some(Str(Strip(if kind == Vtt then CleanVtt(pass.content) else CleanSrt(pass.content)))))))
  {
    if isMusic then Ok(MusicLyrics(info))
    else
      var table := CaptionTable(info);
      if !Truthy(table) then Ok(None)
      else
        match SelectLanguage(table)
        case Raise(e) => Raise(e)
        case Ok(None) => Ok(None)
        case Ok(Some(lang)) =>
          if "webpage_url" !in info then Raise(KeyError)
          else
            match pass
            case PassFailed => Ok(None)
            case PassDone(vttExists, srtExists, content) =>
              if "title" !in info then Raise(KeyError)
              else
                match ChooseSubtitle(vttExists, srtExists)
                case None => Ok(None)
                case Some(kind) =>
                  ChosenFileIsCleaned(outDir, info["title"], lang, kind, content);
                  match CleanFile(SubtitlePath(outDir, info["title"], lang, kind), content)
                  case Raise(e) => Raise(e)
                  case Ok(text) => Ok(Some(Str(text)))
  }

  /** The file found is always cleaned by the passes for its own kind, so the
      unbound-name case cannot happen. */
  lemma ChosenFileIsCleaned(outDir: string, title: Value, lang: string, kind: SubtitleKind, content: string)
    ensures CleanFile(SubtitlePath(outDir, title, lang, kind), content)
      == Ok(Strip(if kind == Vtt then CleanVtt(content) else CleanSrt(content)))
  {
    var stem := PyStr(title) + "." + lang;
    assert SubtitlePath(outDir, title, lang, kind) == Join(outDir, stem + Suffix(kind));
    JoinedSuffix(outDir, stem, kind);
  }

  /** A joined path keeps the suffix of its last part, and the two suffixes
      exclude each other. */
  lemma JoinedSuffix(outDir: string, stem: string, kind: SubtitleKind)
    ensures EndsWith(Join(outDir, stem + Suffix(kind)), Suffix(kind))
    ensures kind == Srt ==> !EndsWith(Join(outDir, stem + Suffix(kind)), ".vtt")
  {
    var name := stem + Suffix(kind);
    var path := Join(outDir, name);
    assert EndsWith(name, Suffix(kind)) by {
      assert name[|name| - 4..] == Suffix(kind);
    }
    EndsWithTrans(path, name, Suffix(kind));
    if kind == Srt {
      SuffixesDiffer(path);
    }
  }

  lemma SuffixesDiffer(path: string)
    requires EndsWith(path, ".srt")
    ensures !EndsWith(path, ".vtt")
  {
    assert ".srt"[1] != ".vtt"[1];
  }

  /** A YouTube video whose caption table has none of ko, ja, en yields no
      lyrics. */
  lemma NoPreferredLanguageNoLyrics(info: Info, outDir: string, pass: SubtitlePass)
    requires IsContainer(CaptionTable(info))
    requires !Present("ko", CaptionTable(info)) && !Present("ja", CaptionTable(info)) && !Present("en", CaptionTable(info))
    ensures ResolveLyrics(info, outDir, false, pass) == Ok(None)
  {
    SelectLanguageOrder(CaptionTable(info));
  }

  /** Lyrics taken from a caption file have no white space at either end. */
  lemma CaptionLyricsAreStripped(info: Info, outDir: string, pass: SubtitlePass)
    requires ResolveLyrics(info, outDir, false, pass).Ok? && ResolveLyrics(info, outDir, false, pass).value.Some?
    ensures var t := ResolveLyrics(info, outDir, false, pass).value.value.s;
      t == [] || (!IsSpace(t[0]) && !IsSpace(t[|t| - 1]))
  {
    var table := CaptionTable(info);
    var lang := SelectLanguage(table).value.value;
    var kind := ChooseSubtitle(pass.vttExists, pass.srtExists).value;
    ChosenFileIsCleaned(outDir, info["title"], lang, kind, pass.content);
    StripSpec(if kind == Vtt then CleanVtt(pass.content) else CleanSrt(pass.content));
  }

  /** Each pass only deletes characters. */
  lemma {:induction false} RemovePatternDeletes(s: string, t: string)
    requires t != []
    ensures IsSubsequence(RemovePattern(s, t), s)
    decreases |s|
  {
    if s != [] {
      if MatchesAt(s, t) {
        RemovePatternDeletes(s[|t|..], t);
        assert s == s[..|t|] + s[|t|..];
        SubsequenceSkip(RemovePattern(s[|t|..], t), s[..|t|], s[|t|..]);
      } else {
        RemovePatternDeletes(s[1..], t);
        assert s == [s[0]] + s[1..];
        SubsequenceKeep(s[0], RemovePattern(s[1..], t), s[1..]);
      }
    }
  }

  lemma {:induction false} StripHeadersDeletes(s: string)
    ensures IsSubsequence(StripHeaders(s), s)
    decreases |s|
  {
    if s != [] {
      match HeaderLength(s)
      case Some(n) =>
        StripHeadersDeletes(s[n..]);
        assert s == s[..n] + s[n..];
        SubsequenceSkip(StripHeaders(s[n..]), s[..n], s[n..]);
      case None =>
        StripHeadersDeletes(s[1..]);
        assert s == [s[0]] + s[1..];
        SubsequenceKeep(s[0], StripHeaders(s[1..]), s[1..]);
    }
  }

  lemma {:induction false} StripNumberLinesDeletes(s: string)
    ensures IsSubsequence(StripNumberLines(s), s)
    decreases |s|
  {
    if s != [] {
      if NumberLineAt(s) {
        var n := DigitRun(s) + 1;
        StripNumberLinesDeletes(s[n..]);
        assert s == s[..n] + s[n..];
        SubsequenceSkip(StripNumberLines(s[n..]), s[..n], s[n..]);
      } else {
        StripNumberLinesDeletes(s[1..]);
        assert s == [s[0]] + s[1..];
        SubsequenceKeep(s[0], StripNumberLines(s[1..]), s[1..]);
      }
    }
  }

  /** A text in which the pattern matches nowhere is left as it is. */
  lemma {:induction false} RemovePatternNoMatch(s: string, t: string)
    requires t != []
    requires forall i :: 0 <= i < |s| ==> !MatchesAt(s[i..], t)
    ensures RemovePattern(s, t) == s
    decreases |s|
  {
    if s != [] {
      assert s[0..] == s;
      forall i | 0 <= i < |s| - 1 ensures !MatchesAt(s[1..][i..], t) {
        assert s[1..][i..] == s[i + 1..];
      }
      RemovePatternNoMatch(s[1..], t);
    }
  }

  lemma {:induction false} StripHeadersNoMatch(s: string)
    requires forall i :: 0 <= i < |s| ==> !StartsWith(s[i..], "WEBVTT")
    ensures StripHeaders(s) == s
    decreases |s|
  {
    if s != [] {
      assert s[0..] == s;
      forall i | 0 <= i < |s| - 1 ensures !StartsWith(s[1..][i..], "WEBVTT") {
        assert s[1..][i..] == s[i + 1..];
      }
      StripHeadersNoMatch(s[1..]);
    }
  }

  /** A text without a newline has no number line. */
  lemma {:induction false} StripNumberLinesNoNewline(s: string)
    requires '\n' !in s
    ensures StripNumberLines(s) == s
    decreases |s|
  {
    if s != [] {
      StripNumberLinesNoNewline(s[1..]);
    }
  }

  /** A header line, whatever follows `WEBVTT` on it, is removed whole. */
  lemma HeaderLineRemoved(x: string, rest: string)
    requires forall i :: 0 <= i < |x| ==> x[i] != '\n'
    ensures StripHeaders("WEBVTT" + x + "\n" + rest) == StripHeaders(rest)
  {
    var s := "WEBVTT" + x + "\n" + rest;
    assert s[..6] == "WEBVTT";
    assert s[6 + |x|] == '\n';
    assert forall i :: 6 <= i < 6 + |x| ==> s[i] == x[i - 6];
    assert NewlineFrom(s, 6) == Some(6 + |x|);
    assert s[7 + |x|..] == rest;
  }

  /** A timecode at the front is removed whole. */
  lemma TimecodeRemoved(m: string, rest: string, t: string)
    requires t != [] && |m| == |t| && MatchesAt(m, t)
    ensures RemovePattern(m + rest, t) == RemovePattern(rest, t)
  {
    assert (m + rest)[|t|..] == rest;
  }

  /** After the SRT number pass no digit is followed by a newline: every run
      of digits that ended a line is gone. */
  predicate NoDigitBeforeNewline(s: string) {
    forall k :: 0 <= k < |s| - 1 && IsDigit(s[k]) ==> s[k + 1] != '\n'
  }

  lemma {:induction false} StripNumberLinesLeavesNoNumberLine(s: string)
    ensures NoDigitBeforeNewline(StripNumberLines(s))
    decreases |s|
  {
    if s != [] {
      if NumberLineAt(s) {
        StripNumberLinesLeavesNoNumberLine(s[DigitRun(s) + 1..]);
      } else {
        var tail := s[1..];
        var r := StripNumberLines(tail);
        StripNumberLinesLeavesNoNumberLine(tail);
        if IsDigit(s[0]) && r != [] {
          assert DigitRun(s) == 1 + DigitRun(tail);
          if IsDigit(tail[0]) {
            assert !NumberLineAt(tail);
          } else {
            assert DigitRun(tail) == 0;
            assert tail[0] != '\n';
          }
          assert r[0] == tail[0];
        }
        var out := [s[0]] + r;
        forall k | 0 <= k < |out| - 1 && IsDigit(out[k]) ensures out[k + 1] != '\n' {
          if k > 0 {
            assert out[k] == r[k - 1] && out[k + 1] == r[k];
          }
        }
      }
    }
  }

  lemma {:induction false} DigitRunPrefix(a: string, b: string)
    requires a != [] && !IsDigit(a[|a| - 1])
    ensures DigitRun(a + b) == DigitRun(a)
    decreases |a|
  {
    if IsDigit(a[0]) {
      assert (a + b)[1..] == a[1..] + b;
      DigitRunPrefix(a[1..], b);
    }
  }

  /** The number pass works line-piece by line-piece: a text cut after a
      character that is not a digit is cleaned in its two halves. */
  lemma {:induction false} StripNumberLinesSplit(a: string, b: string)
    requires a == [] || !IsDigit(a[|a| - 1])
    ensures StripNumberLines(a + b) == StripNumberLines(a) + StripNumberLines(b)
    decreases |a|
  {
    if a == [] {
      assert a + b == b;
    } else {
      var s := a + b;
      NumberLinePrefix(a, b);
      var n := DigitRun(a);
      if NumberLineAt(a) {
        var a' := a[n + 1..];
        assert s[n + 1..] == a' + b;
        assert a' == [] || a'[|a'| - 1] == a[|a| - 1];
        StripNumberLinesSplit(a', b);
        assert StripNumberLines(s) == StripNumberLines(a' + b);
      } else {
        var a' := a[1..];
        assert s[1..] == a' + b;
        assert a' == [] || a'[|a'| - 1] == a[|a| - 1];
        StripNumberLinesSplit(a', b);
        assert StripNumberLines(s) == [s[0]] + StripNumberLines(a' + b);
        ConcatAssoc([a[0]], StripNumberLines(a'), StripNumberLines(b));
      }
    }
  }

  lemma NumberLinePrefix(a: string, b: string)
    requires a != [] && !IsDigit(a[|a| - 1])
    ensures DigitRun(a + b) == DigitRun(a) < |a|
    ensures NumberLineAt(a + b) == NumberLineAt(a)
  {
    DigitRunPrefix(a, b);
    var n := DigitRun(a);
    assert (a + b)[n] == a[n];
  }

  /** The timecode pass works piecewise across a cut just after a newline:
      a pattern without a newline cannot match across it. */
  lemma {:induction false} RemovePatternSplit(a: string, b: string, t: string)
    requires t != [] && '\n' !in t
    requires a == [] || a[|a| - 1] == '\n'
    ensures RemovePattern(a + b, t) == RemovePattern(a, t) + RemovePattern(b, t)
    decreases |a|
  {
    if a == [] {
      assert a + b == b;
    } else {
      var s := a + b;
      MatchBeforeNewline(a, b, t);
      if MatchesAt(a, t) {
        var a' := a[|t|..];
        assert s[|t|..] == a' + b;
        assert a'[|a'| - 1] == a[|a| - 1];
        RemovePatternSplit(a', b, t);
      } else {
        var a' := a[1..];
        assert s[1..] == a' + b;
        assert a' == [] || a'[|a'| - 1] == a[|a| - 1];
        RemovePatternSplit(a', b, t);
        assert RemovePattern(s, t) == [s[0]] + RemovePattern(a' + b, t);
        ConcatAssoc([a[0]], RemovePattern(a', t), RemovePattern(b, t));
      }
    }
  }

  /** A match at the start of `a + b` lies inside `a` when `a` ends in a
      newline and the pattern has none. */
  lemma MatchBeforeNewline(a: string, b: string, t: string)
    requires '\n' !in t
    requires a != [] && a[|a| - 1] == '\n'
    ensures MatchesAt(a + b, t) == MatchesAt(a, t)
    ensures MatchesAt(a, t) ==> |t| < |a|
  {
    var k := |a| - 1;
    assert (a + b)[k] == '\n';
    if |t| > k {
      assert t[k] != '\n';
      assert !MatchesAt(a + b, t);
      assert !MatchesAt(a, t);
    } else {
      assert forall i :: 0 <= i < |t| ==> (a + b)[i] == a[i];
    }
  }

  /** The header pass works piecewise across a cut just after a newline. */
  lemma {:induction false} StripHeadersSplit(a: string, b: string)
    requires a == [] || a[|a| - 1] == '\n'
    ensures StripHeaders(a + b) == StripHeaders(a) + StripHeaders(b)
    decreases |a|
  {
    if a == [] {
      assert a + b == b;
    } else {
      var n, p := StripHeadersPeel(a, b);
      StripHeadersSplit(a[n..], b);
      ConcatAssoc(p, StripHeaders(a[n..]), StripHeaders(b));
    }
  }

  /** One step of the header pass on `a + b` is the same step on `a`. */
  lemma StripHeadersPeel(a: string, b: string) returns (n: nat, p: string)
    requires a != [] && a[|a| - 1] == '\n'
    ensures 0 < n <= |a| && (a[n..] == [] || a[|a| - 1] == a[n..][|a[n..]| - 1])
    ensures StripHeaders(a + b) == p + StripHeaders(a[n..] + b)
    ensures StripHeaders(a) == p + StripHeaders(a[n..])
  {
    var s := a + b;
    HeaderBeforeNewline(a, b);
    var h := HeaderLength(a);
    if h.Some? {
      n, p := h.value, [];
      assert s[n..] == a[n..] + b;
      assert StripHeaders(s) == StripHeaders(a[n..] + b);
      assert StripHeaders(a) == StripHeaders(a[n..]);
      EmptyConcat(StripHeaders(a[n..] + b));
      EmptyConcat(StripHeaders(a[n..]));
    } else {
      n, p := 1, [a[0]];
      assert s[1..] == a[1..] + b;
    }
  }


  /** A header match at the start of `a + b` is the one at the start of `a`
      when `a` ends in a newline. */
  lemma HeaderBeforeNewline(a: string, b: string)
    requires a != [] && a[|a| - 1] == '\n'
    ensures HeaderLength(a + b) == HeaderLength(a)
    ensures HeaderLength(a).Some? ==> HeaderLength(a).value <= |a|
  {
    var s := a + b;
    if |a| <= 6 {
      assert s[|a| - 1] == '\n';
      assert "WEBVTT"[|a| - 1] != '\n';
      assert !StartsWith(s, "WEBVTT");
      assert !StartsWith(a, "WEBVTT");
    } else {
      assert s[..6] == a[..6];
      NewlineBefore(a, b, 6);
    }
  }

  lemma {:induction false} NewlineBefore(a: string, b: string, k: nat)
    requires k < |a| && a[|a| - 1] == '\n'
    ensures NewlineFrom(a + b, k) == NewlineFrom(a, k)
    decreases |a| - k
  {
    assert (a + b)[k] == a[k];
    if a[k] != '\n' {
      NewlineBefore(a, b, k + 1);
    }
  }

  /** Every `WEBVTT…` line that starts a line of the file is removed whole,
      wherever it is. */
  lemma HeaderLineRemovedAnywhere(before: string, x: string, rest: string)
    requires before == [] || before[|before| - 1] == '\n'
    requires forall i :: 0 <= i < |x| ==> x[i] != '\n'
    ensures StripHeaders(before + ("WEBVTT" + x + "\n" + rest)) == StripHeaders(before) + StripHeaders(rest)
  {
    StripHeadersSplit(before, "WEBVTT" + x + "\n" + rest);
    HeaderLineRemoved(x, rest);
  }

  /** Every timecode that starts a line of the file is removed whole,
      wherever it is. */
  lemma TimecodeRemovedAnywhere(before: string, m: string, rest: string, t: string)
    requires t != [] && '\n' !in t && |m| == |t| && MatchesAt(m, t)
    requires before == [] || before[|before| - 1] == '\n'
    ensures RemovePattern(before + (m + rest), t) == RemovePattern(before, t) + RemovePattern(rest, t)
  {
    RemovePatternSplit(before, m + rest, t);
    TimecodeRemoved(m, rest, t);
  }

  /** Neither timecode pattern holds a newline. */
  lemma TimecodesHaveNoNewline()
    ensures '\n' !in VttTimecode && '\n' !in SrtTimecode
  {
  }

  /** The SRT quirk: `\d+\n` also takes the milliseconds and the newline off
      the end of every timecode line. */
  lemma SrtTimecodeLineLosesMillis(line: string, rest: string)
    requires |line| == |SrtTimecode| && MatchesAt(line, SrtTimecode)
    ensures StripNumberLines(line + "\n" + rest) == line[..26] + StripNumberLines(rest)
  {
    var p := line[..26];
    var d := line[26..];
    assert line + "\n" + rest == p + (d + "\n" + rest);
    SrtTimecodeParts(line);
    StripNumberLinesSplit(p, d + "\n" + rest);
    StripNumberLinesNoNewline(p);
    DigitsThenNewline(d, rest);
  }

  /** A matched SRT timecode: no newline and a comma at the end of its first
      26 characters, digits after them. */
  lemma SrtTimecodeParts(line: string)
    requires |line| == |SrtTimecode| && MatchesAt(line, SrtTimecode)
    ensures line[25] == ',' && '\n' !in line[..26]
    ensures forall i :: 26 <= i < |line| ==> IsDigit(line[i])
  {
    assert SrtTimecode[25] == ',';
    assert forall i :: 26 <= i < |SrtTimecode| ==> SrtTimecode[i] == '#';
    assert '\n' !in SrtTimecode;
    forall i | 0 <= i < 26 ensures line[i] != '\n' {
      assert SrtTimecode[i] in SrtTimecode;
    }
    assert forall i :: 0 <= i < 26 ==> line[..26][i] == line[i];
  }

  lemma {:induction false} DigitRunOfDigits(d: string, t: string)
    requires forall i :: 0 <= i < |d| ==> IsDigit(d[i])
    requires t != [] && !IsDigit(t[0])
    ensures DigitRun(d + t) == |d|
    decreases |d|
  {
    if d == [] {
      assert d + t == t;
    } else {
      assert (d + t)[1..] == d[1..] + t;
      DigitRunOfDigits(d[1..], t);
    }
  }

  /** A run of digits ending its line goes together with the newline. */
  lemma DigitsThenNewline(d: string, rest: string)
    requires d != [] && forall i :: 0 <= i < |d| ==> IsDigit(d[i])
    ensures StripNumberLines(d + "\n" + rest) == StripNumberLines(rest)
  {
    var s := d + "\n" + rest;
    assert s == d + ("\n" + rest);
    DigitRunOfDigits(d, "\n" + rest);
    assert s[|d|] == '\n';
    assert s[|d| + 1..] == rest;
  }

  /** ... so the SRT timecode pattern no longer matches what is left of the
      line when the next line does not start with a digit. */
  lemma SrtTimecodeSurvives(line: string, rest: string)
    requires |line| == |SrtTimecode| && MatchesAt(line, SrtTimecode)
    requires rest == [] || !IsDigit(rest[0])
    ensures !MatchesAt(line[..26] + rest, SrtTimecode)
  {
    if |line[..26] + rest| >= |SrtTimecode| {
      assert (line[..26] + rest)[26] == rest[0];
      assert SrtTimecode[26] == '#';
    }
  }

  lemma NoDigitNoMatch(s: string, t: string)
    requires t != [] && t[0] == '#'
    requires forall i :: 0 <= i < |s| ==> !IsDigit(s[i])
    ensures RemovePattern(s, t) == s
  {
    forall i | 0 <= i < |s| ensures !MatchesAt(s[i..], t) {
      assert s[i..][0] == s[i];
    }
    RemovePatternNoMatch(s, t);
  }

  /** A text without the letter `W` has no header to remove. */
  lemma NoMarkerLetter(s: string)
    requires 'W' !in s
    ensures StripHeaders(s) == s
  {
    forall i | 0 <= i < |s| ensures !StartsWith(s[i..], "WEBVTT") {
      assert s[i..][0] == s[i];
    }
    StripHeadersNoMatch(s);
  }

  /** A line of text that the VTT passes leave alone. */
  predicate PlainText(text: string) {
    && text != [] && !IsSpace(text[0]) && !IsSpace(text[|text| - 1])
    && 'W' !in text
    && forall i :: 0 <= i < |text| ==> !IsDigit(text[i])
  }

  /** A VTT file with a bare header and one cue cleans to the cue's text. */
  lemma VttCueCleaned(tc: string, text: string)
    requires |tc| == |VttTimecode| && MatchesAt(tc, VttTimecode)
    requires PlainText(text)
    ensures Strip(CleanVtt("WEBVTT\n\n" + tc + "\n" + text + "\n")) == text
  {
    var body := "\n" + tc + "\n" + text + "\n";
    VttCueHeader(tc, text, body);
    VttCueTimecode(tc, text, body);
    StripCue(text);
  }

  lemma VttCueHeader(tc: string, text: string, body: string)
    requires |tc| == |VttTimecode| && MatchesAt(tc, VttTimecode)
    requires PlainText(text)
    requires body == "\n" + tc + "\n" + text + "\n"
    ensures StripHeaders("WEBVTT\n\n" + tc + "\n" + text + "\n") == body
  {
    TimecodeHasNoMarker(tc);
    assert 'W' !in body;
    assert "WEBVTT\n\n" + tc + "\n" + text + "\n" == "WEBVTT\n" + body;
    BareHeaderRemoved(body);
  }

  /** A bare header line in front of a text without headers is removed. */
  lemma BareHeaderRemoved(body: string)
    requires 'W' !in body
    ensures StripHeaders("WEBVTT\n" + body) == body
  {
    assert "WEBVTT\n" + body == "WEBVTT" + "" + "\n" + body;
    HeaderLineRemoved("", body);
    NoMarkerLetter(body);
  }

  lemma TimecodeHasNoMarker(tc: string)
    requires |tc| == |VttTimecode| && MatchesAt(tc, VttTimecode)
    ensures 'W' !in tc
  {
    assert 'W' !in VttTimecode;
    forall i | 0 <= i < |tc| ensures tc[i] != 'W' {
      assert VttTimecode[i] in VttTimecode;
    }
  }

  lemma VttCueTimecode(tc: string, text: string, body: string)
    requires |tc| == |VttTimecode| && MatchesAt(tc, VttTimecode)
    requires PlainText(text)
    requires body == "\n" + tc + "\n" + text + "\n"
    ensures RemovePattern(body, VttTimecode) == "\n\n" + text + "\n"
  {
    var rest := "\n" + text + "\n";
    TextLineKept(text, rest);
    assert body == ['\n'] + (tc + rest);
    assert "\n\n" + text + "\n" == ['\n'] + rest;
    assert VttTimecode[0] == '#';
    CueTimecodeRemoved(tc, rest, VttTimecode);
  }

  /** A timecode line after a newline is removed and the rest kept. */
  lemma CueTimecodeRemoved(tc: string, rest: string, t: string)
    requires t != [] && t[0] == '#' && |tc| == |t| && MatchesAt(tc, t)
    requires RemovePattern(rest, t) == rest
    ensures RemovePattern(['\n'] + (tc + rest), t) == ['\n'] + rest
  {
    NonDigitKept('\n', tc + rest, t);
    TimecodeRemoved(tc, rest, t);
  }

  /** A character that is not a digit cannot start a timecode. */
  lemma NonDigitKept(c: char, s: string, t: string)
    requires t != [] && t[0] == '#' && !IsDigit(c)
    ensures RemovePattern([c] + s, t) == [c] + RemovePattern(s, t)
  {
    assert ([c] + s)[1..] == s;
    assert !MatchesAt([c] + s, t);
  }

  lemma TextLineKept(text: string, rest: string)
    requires PlainText(text) && rest == "\n" + text + "\n"
    ensures RemovePattern(rest, VttTimecode) == rest
  {
    assert forall i :: 0 <= i < |rest| ==> !IsDigit(rest[i]);
    NoDigitNoMatch(rest, VttTimecode);
  }

  lemma StripCue(text: string)
    requires text != [] && !IsSpace(text[0]) && !IsSpace(text[|text| - 1])
    ensures Strip("\n\n" + text + "\n") == text
  {
    var s := "\n\n" + text + "\n";
    assert s[1..] == "\n" + text + "\n";
    assert s[1..][1..] == text + "\n";
    assert LeadingSpace(text + "\n") == 0;
    assert LeadingSpace(s) == 2;
    var t := s[2..];
    assert t == text + "\n";
    assert t[..|t| - 1] == text;
    assert TrailingSpace(t) == 1;
    assert s[2..|s| - 1] == text;
  }
}
