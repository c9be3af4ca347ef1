# youtube-music-downloader: the decision rules of `download_audio.py`

`download_audio.py` downloads the audio of a YouTube or YouTube Music link
with yt-dlp, converts it with FFmpeg, and tags the result with mutagen. It
uses the extractor's metadata, a square-cropped thumbnail and lyrics. Most of
the script is glue between those libraries. This project models the rules the
script itself decides, and proves what they promise:

- **Format gate, quality table, host check** (`Formats`). Only mp3, aac, flac,
  wav and m4a pass the gate; anything else exits with status 1. The codec is
  mapped to yt-dlp's `preferredquality`. A link counts as YouTube Music when
  `music.youtube.com` occurs anywhere in the lower-cased netloc.
- **Final-path resolution** (`Download.ResolveFinalPath`, a loop with an early
  `break`). The path comes from the first `requested_downloads` entry whose
  `ext` is the format, then from `filepath`, then `path`. Failing those, it is
  `output_dir/title.format`, where the title defaults to `Unknown_Title`. The
  exceptions this code can raise are modelled too.
- **The tag record** (`Tags.BuildTagRecord`). It is built with the script's
  defaults. `a or b` and `dict.get(k, d)` are kept apart: the first treats a
  falsy value as missing, the second only a missing key.
- **Lyrics resolution** (`Lyrics`):
  - the YouTube Music fallback from `lyrics` to `description`;
  - the choice of caption table;
  - the first of ko, ja, en present in it;
  - the `.vtt`-before-`.srt` file choice;
  - the cleaning passes, written as hand-rolled versions of the four regular
    expressions.

  The SRT number-line pass `\d+\n` is modelled as written. It also removes the
  milliseconds and the newline at the end of every SRT timecode line, so
  afterwards the SRT timecode pattern usually finds nothing. Two lemmas show
  this: `Lyrics.SrtTimecodeLineLosesMillis` and `Lyrics.SrtTimecodeSurvives`.
- **Cover decisions** (`Cover`): the MIME type, the save format, and the
  centred square crop box, computed in exact reals as Python's `/` computes
  them. The run uses `process_image` as written
  (`Cover.ProcessImageAsWritten`), so only a thumbnail whose MIME type is
  `image/jpeg` becomes a cover. The corrected version, `Cover.ProcessImage`,
  is stated and proved beside it (see "## Findings").
- **Tag writes** (`Tags.SetMetadata` with one method per branch).
  - A `Tags.TagEditor` object stands for the mutagen file object. Each
    `if metadata.get(k): audio[key] = …` is one `Perform` of a guarded
    assignment on its `tags` map, in the source's order.
  - `Save` copies the edited tags into the `Tags.AudioFile`.
  - Each branch method is proved equal to the function
    `Tags.TagWrite`. Lemmas about `TagWrite` state which keys each format
    writes, under which names, with which values, and when a branch is
    abandoned. The AAC/M4A branch is abandoned when `int()` rejects the track
    number.
- **The sidecar path** (`Paths.LrcPath`): the `.lrc` path is built with
  POSIX `os.path.splitext`, in which a leading dot does not start an
  extension.
- **The run as a whole** (`Download.DownloadAudio`). It fixes the order of the
  steps above, the exits, and which failures stop which step.

Python values are modelled as `PyValues.Value` (None, bool, int, str, list,
and dict as an ordered association list). The info dict is a
`map<string, Value>`. A raised exception is a `Raise(error)` result. Wherever
the script asks yt-dlp, the file system, PIL or mutagen something, the answer
is a parameter:

- the extraction result;
- the two `os.path.exists` checks on the audio file;
- the subtitle pass, meaning whether each caption file exists and the text
  that is read;
- the thumbnail fetch and decode, and the encoder's output;
- whether the tag reader opened the file.

Two behaviours of the code that the model keeps:

- **Errors in lyrics resolution.** Only `DownloadError` is caught. A missing
  `webpage_url` or `title` key raises `KeyError` (lines 198 and 200), nothing
  catches it, and the model ends such a run with `Crashed`.
- **The sidecar.** Any truthy lyrics value is written. When that value is
  not a string the file is left empty, because `open` has already created it
  before `write` raises.

## Model

| member | source | states |
|---|---|---|
| `Formats.CheckFormat` | download_audio.py:263-267 | accepted exactly for mp3, aac, flac, wav, m4a; a rejection carries exit status 1 |
| `Formats.PreferredQuality` | download_audio.py:279-285 | the codec-to-quality table; its values are stated by `QualityOfAccepted` and `QualityOfRejected` |
| `Formats.IsYouTubeMusic` | download_audio.py:275 | the host check; what it means is stated by `IsYouTubeMusicMeans` |
| `Formats.QualityOfAccepted` | download_audio.py:279-285 | every accepted format has a table entry: 320 for mp3, 256 for aac and m4a, 0 for flac and wav, never `best` |
| `Formats.QualityOfRejected` | download_audio.py:279-285 | `best` is reached only by formats the gate rejects |
| `Formats.IsYouTubeMusicMeans` | download_audio.py:275 | the host check holds exactly when `music.youtube.com` occurs at some position of the netloc in any ASCII letter case |
| `Formats.MatchedHost` | download_audio.py:275 | an occurrence of the pattern at any position, in any letter case, makes the check true |
| `Formats.HostExampleUpperCase` | download_audio.py:275 | `MUSIC.YouTube.com` is recognised |
| `Formats.HostExampleOtherHost` | download_audio.py:275 | `www.youtube.com` is not recognised |
| `Strings.Contains` | download_audio.py:275 | Python's `p in s` on strings: true exactly when `p` occurs at some index of `s` |
| `Strings.Lower` | download_audio.py:32 | same length, each character lower-cased separately |
| `Download.ValueGet` | download_audio.py:333-334 | `x.get(k)` succeeds exactly on a dict, giving the value stored at `k` or `None` when `k` is missing; on anything else it raises `AttributeError` |
| `Download.Len` | download_audio.py:331 | `len()` of a list, dict or string; anything else raises `TypeError`; what it means for the loop is stated by `Elements` |
| `Download.Elements` | download_audio.py:332 | `for` over a value succeeds exactly when `len()` does, and visits as many elements as `len()` counts |
| `Download.IsMatch` | download_audio.py:333 | `download.get('ext') == audio_format`; stated by `ScanStopsAtFirstMatch` and `FirstMatchDecides` |
| `Download.Scan` | download_audio.py:332-335 | the `for … break` loop as a function, the invariant of `ResolveFinalPath`; stated by `ScanStopsAtFirstMatch`, `ScanNoMatch` and `ScanNonDict` |
| `Download.FromRequested` | download_audio.py:330-335 | the first level; stated by `FirstMatchDecides`, `NoMatchFallsBack` and `FinalPathErrors` |
| `Download.Fallback` | download_audio.py:338-344 | the second and third levels; stated by `FallbackOrder` and `FinalPathTruthy` |
| `Download.ResolveFinalPath` | download_audio.py:330-344 | the loop with `break` computes the three-level path `FinalPath`, including the exceptions it raises |
| `Download.FinalPath` | download_audio.py:330-344 | the three-level path rule that specifies `ResolveFinalPath`; stated by `FirstMatchDecides`, `NoMatchFallsBack`, `FallbackOrder`, `FinalPathTruthy` and `FinalPathErrors` |
| `Download.GuessedPath` | download_audio.py:343-344 | `join(output_dir, f"{title}.{format}")`; its shape is stated by `GuessedPathShape` |
| `Download.ScanStopsAtFirstMatch` | download_audio.py:332-335 | the loop stops at the first entry whose `ext` is the format; entries after it are never read |
| `Download.ScanNoMatch` | download_audio.py:332-335 | a loop over dicts none of which matches ends with no path |
| `Download.ScanNonDict` | download_audio.py:332-333 | a non-dict entry before any match raises `AttributeError` |
| `Download.FirstMatchDecides` | download_audio.py:330-339 | the matching entry's `filepath` is the path if truthy, even when a later entry would give one; otherwise the fallback applies |
| `Download.NoMatchFallsBack` | download_audio.py:331-339 | no `requested_downloads`, an empty one, or no match: the fallback decides |
| `Download.FallbackOrder` | download_audio.py:338-344 | `filepath` if truthy, else `path` if truthy, else the guessed path; `Unknown_Title` when there is no title |
| `Download.GuessedPathShape` | download_audio.py:343-344 | the guessed path ends in `.format`; it is the output directory, one `/` (unless the directory is empty or already ends in one) and `title.format`, or `title.format` alone when that is absolute |
| `Download.NamedPathShape` | download_audio.py:344 | joining `title.format` onto a directory keeps the `.format` suffix |
| `Download.FinalPathTruthy` | download_audio.py:338-347 | without an exception the final path is always truthy |
| `Download.FinalPathErrors` | download_audio.py:331-333 | a `requested_downloads` without a length raises `TypeError`; a non-dict entry before a match raises `AttributeError` |
| `Download.DownloadAudio` | download_audio.py:253-385 | the run and the file's tags afterwards are those of the function `Outcome`, which states the run step by step, with the thumbnail processed as line 49 is written |
| `Download.Outcome` | download_audio.py:253-385 | the whole run as a function that specifies `DownloadAudio`; stated by `RejectedBeforeWork`, `TagsChangeOnlyWhenSaved`, `FinishedRun` and `MissingFileExits` |
| `Download.SidecarFor` | download_audio.py:379-380 | the `.lrc` file; when it is written and at which path is stated by `FinishedRun` |
| `Download.RejectedBeforeWork` | download_audio.py:263-267 | an unsupported format exits with status 1 and leaves the file untouched, whatever the libraries would do |
| `Download.TagsChangeOnlyWhenSaved` | download_audio.py:363-376 | the file's tags change only in a finished run whose tag write was saved |
| `Download.FinishedRun` | download_audio.py:363-380 | a finished run tags the file with the record built from the info dict and the lyrics and the cover `process_image` gives as written; the sidecar is written exactly when `create_lrc` is set and the lyrics are truthy, at `base.lrc` |
| `Download.MissingFileExits` | download_audio.py:347-349 | a file missing after the download exits with status 1 and leaves the tags alone |
| `Tags.BuildTagRecord` | download_audio.py:364-374 | every field's default: artist, then uploader if the key is present, else `Unknown Artist`; the same for album with playlist_title; date from release_date, upload_date, then `''`; `get` defaults for title, genre, track_number and description; lyrics `''` unless truthy |
| `Tags.OrVersusGet` | download_audio.py:365-368 | an empty `artist` falls through while an empty `uploader` or `genre` is kept |
| `Tags.ApplyOver` | download_audio.py:62-64 | the assignments only add to or override the tags they start from |
| `Tags.ApplyKeys` | download_audio.py:62-64 | a key is set exactly when an assignment to it had a true condition |
| `Tags.ApplyLastWins` | download_audio.py:62-64 | a key holds the tag of the last assignment to it |
| `Tags.WrittenExactly` | download_audio.py:62-64 | with distinct keys, an assignment's key is present exactly when its condition held, holding its tag |
| `Tags.FlacFieldWritten` | download_audio.py:62-64 | each listed field is written under its own name exactly when it is truthy, holding the value as given |
| `Tags.FlacKeys` | download_audio.py:62-64 | the FLAC keys written are exactly the names of the truthy fields |
| `Tags.FlacRenamesTrackNumber` | download_audio.py:62-64 | `track_number` is written as `tracknumber`; neither `track_number` nor `thumbnail` is ever a key |
| `Tags.FlacCoverReplacesPictures` | download_audio.py:67-76 | with a cover, all pictures are replaced by one front-cover picture; without one, the pictures stay as they were |
| `Tags.Mp3TextFrames` | download_audio.py:88-99 | TPE1, TIT2, TALB, TCON, TDRC, TRCK are present exactly when their field is truthy, with UTF-8 text; date and track number as `str()` |
| `Tags.Mp3OtherFrames` | download_audio.py:100-115 | COMM with `eng`/`Description`, USLT with `Lyrics`, and the APIC front cover exactly when their source is present |
| `Tags.Mp3Keys` | download_audio.py:88-115 | no other ID3 key is written |
| `Tags.Mp4Atoms` | download_audio.py:123-136 | only the eight atoms, never a description; `©ART`, `©nam`, `©alb`, `©gen`, `©day` and `©lyr` each present exactly when artist, title, album, genre, date or lyrics is truthy, holding it; `trkn` is `[(int(n), 0)]` exactly when the track number is truthy |
| `Tags.Mp4CoverAtom` | download_audio.py:139-143 | `covr` is present exactly with a cover; its format is JPEG exactly for `image/jpeg`, else PNG |
| `Tags.Mp4FailsOnTrackNumber` | download_audio.py:133-134 | the AAC/M4A updates fail exactly when the track number is truthy and `int()` rejects it |
| `Tags.Mp4TrackFromDecimal` | download_audio.py:133-134 | a track number stored as a decimal string becomes that number in `trkn` |
| `Tags.Mp4NonNumericTrackAbandons` | download_audio.py:133-168 | a track number `A1` abandons the branch and leaves the file as it was |
| `Tags.WavAttributes` | download_audio.py:155-158 | only `Author` and `Title`, each exactly when truthy |
| `Tags.TagWrite` | download_audio.py:57-168 | what `set_metadata` leaves in the file; the method `SetMetadata` is proved equal to it; stated by `TagWriteOutcome`, `TagWriteMp3`, `TagWriteMp4`, `SavedKeepsOtherTags` and the per-format lemmas |
| `Tags.Mp4Writes` | download_audio.py:123-143 | the AAC/M4A assignments in order; what they write is stated by `Mp4Atoms` and `Mp4CoverAtom` |
| `Tags.Mp4Updates` | download_audio.py:120-145 | the AAC/M4A updates, or the `int()` failure; stated by `Mp4FailsOnTrackNumber`, `Mp4Atoms` and `Mp4TrackFromDecimal` |
| `Tags.Field` | download_audio.py:63 | `metadata.get(key)` on the record; stated by `FlacFieldWritten` |
| `Tags.HasCover` | download_audio.py:67-69 | a cover is embedded only for a truthy thumbnail whose processing gave non-empty data; stated by `FlacCoverReplacesPictures`, `Mp3OtherFrames` and `Mp4CoverAtom` |
| `Tags.FlacName` | download_audio.py:64 | `track_number` renamed to `tracknumber`; stated by `FlacRenamesTrackNumber` |
| `Tags.FlacWrites` | download_audio.py:62-64 | the loop's assignments, one per field name in order; stated by `FlacFieldWritten` and `FlacKeys` |
| `Tags.FlacUpdates` | download_audio.py:62-64 | what the loop leaves in the tags; stated by `FlacFieldWritten`, `FlacKeys` and `FlacRenamesTrackNumber` |
| `Tags.FlacPictures` | download_audio.py:67-76 | `clear_pictures` then `add_picture`; stated by `FlacCoverReplacesPictures` |
| `Tags.Mp3Writes` | download_audio.py:88-115 | the nine guarded frame assignments in order; stated by `Mp3TextFrames`, `Mp3OtherFrames` and `Mp3Keys` |
| `Tags.Mp3Updates` | download_audio.py:88-115 | what the mp3 branch leaves in the tags; stated by `Mp3TextFrames`, `Mp3OtherFrames` and `Mp3Keys` |
| `Tags.ApicFrame` | download_audio.py:109-115 | the front-cover APIC frame with UTF-8 encoding and description `Thumbnail`; stated by `Mp3OtherFrames` |
| `Tags.TrackTag` | download_audio.py:134 | `[(int(n), 0)]`, or the error `int()` raises; stated by `Mp4FailsOnTrackNumber` and `Mp4TrackFromDecimal` |
| `Tags.TrknWrite` | download_audio.py:133-134 | the `trkn` assignment; stated by `Mp4Atoms` |
| `Tags.Mp4CoverFormat` | download_audio.py:142 | JPEG for `image/jpeg`, otherwise PNG; stated by `Mp4CoverAtom` |
| `Tags.CovrAtom` | download_audio.py:142-143 | the one-element `covr` list; stated by `Mp4CoverAtom` |
| `Tags.WavWrites` | download_audio.py:155-158 | the two ASF assignments; stated by `WavAttributes` |
| `Tags.WavUpdates` | download_audio.py:155-158 | what the wav branch leaves in the tags; stated by `WavAttributes` |
| `Tags.AudioFile.constructor` | download_audio.py:60 | the file on disk holds the given tags and pictures |
| `Tags.TagWriteOutcome` | download_audio.py:57-168 | another format changes nothing; an abandoned branch changes nothing; a failed open abandons, except for an mp3 file without an ID3 header |
| `Tags.TagWriteMp3` | download_audio.py:82-117 | the saved ID3 tags are the updates over the tags read, or over an empty tag without a header |
| `Tags.TagWriteMp4` | download_audio.py:120-145 | abandoned exactly when `int()` rejects a truthy track number, otherwise the updates over the tags read |
| `Tags.SavedKeepsOtherTags` | download_audio.py:57-161 | a saved branch keeps every tag it did not assign |
| `Tags.TagEditor.Open` | download_audio.py:60 | the opened object holds the file's tags and pictures |
| `Tags.TagEditor.Fresh` | download_audio.py:85 | `ID3()` starts from an empty tag |
| `Tags.TagEditor.Set` | download_audio.py:134 | `audio[key] = tag` updates that key only |
| `Tags.TagEditor.Perform` | download_audio.py:88-89 | `if cond: audio[key] = tag` is one guarded assignment, pictures unchanged |
| `Tags.TagEditor.ClearPictures` | download_audio.py:75 | all pictures removed, tags unchanged |
| `Tags.TagEditor.AddPicture` | download_audio.py:76 | the picture is appended, tags unchanged |
| `Tags.TagEditor.Save` | download_audio.py:78 | the file receives the edited tags and pictures |
| `Tags.SetMetadata` | download_audio.py:57-168 | the outcome and the file's new tags are `TagWrite` of the old tags, for every format |
| `Tags.SetFlac` | download_audio.py:59-79 | the loop over field names and the picture replacement give `TagWrite` for flac |
| `Tags.SetMp3` | download_audio.py:81-118 | the nine guarded frame assignments give `TagWrite` for mp3, including the no-header case |
| `Tags.SetMp4` | download_audio.py:120-146 | the atom assignments give `TagWrite` for aac and m4a; `int()` failing returns before `save` |
| `Tags.SetWav` | download_audio.py:148-161 | the two ASF attributes give `TagWrite` for wav |
| `PyValues.In` | download_audio.py:186 | `lang in table`: key membership for a dict, element equality for a list, substring for a string, `TypeError` otherwise |
| `PyValues.PyInt` | download_audio.py:134 | `int(v)` on a bool, an int or a string of white space, a sign and digits with single underscores; stated by `IntOfStrRoundTrip` and `Mp4NonNumericTrackAbandons` |
| `PyValues.PyStr` | download_audio.py:97-99 | `str(v)`, which is `repr` for lists and dicts; stated by `ReprNoneIsNone` and `ReprExamples`, and used by `Mp3TextFrames` |
| `PyValues.Repr` | download_audio.py:97-99 | `repr` of a value: strings by `StrRepr`, lists as `[a, b]`, dicts as `{k: v}`; stated by `ReprExamples` |
| `PyValues.Truthy` | download_audio.py:63 | Python's `bool(v)`: `None`, `False`, `0` and empty containers are falsy; its use by `or` is stated by `Or` and `OrVersusGet` |
| `PyValues.Or` | download_audio.py:339 | `a or b` is one of its operands, `a` when that is truthy, and truthy exactly when either operand is |
| `PyValues.Get` | download_audio.py:339 | `info.get(k)`, `None` for a missing key; the difference from `get(k, d)` is stated by `OrVersusGet` |
| `PyValues.GetOr` | download_audio.py:343 | `info.get(k, d)`, the default only for a missing key; stated by `OrVersusGet` and `FallbackOrder` |
| `PyValues.DictGet` | download_audio.py:333-334 | `d.get(k)`: `None` when no entry has key `k`, otherwise the value of the first entry with key `k` |
| `PyValues.StrRepr` | download_audio.py:97-99 | `repr` of a string: the quote Python picks, with backslashes, that quote, tab, newline, carriage return and the other characters up to U+00FF that Python does not print escaped; stated by `StrReprRoundTrip`, `EscapedIsPrintable` and `ReprExamples` |
| `PyValues.StrReprRoundTrip` | download_audio.py:97-99 | the repr is its quote around a body that reads back, escape by escape, as the original string |
| `PyValues.EscapedIsPrintable` | download_audio.py:97-99 | the repr body has no raw control character, and every delimiting quote in it is preceded by a backslash |
| `PyValues.ReprExamples` | download_audio.py:97-99 | `'a\'b"c'` for `a'b"c`, `'x\\y'` for `x\y`, and `['a\nb']` as `str()` of a list holding `a`, newline, `b` |
| `PyValues.IntOfStrRoundTrip` | download_audio.py:134 | `int(str(n)) == n` for every integer |
| `PyValues.ReprNoneIsNone` | download_audio.py:97-99 | `str(None)` is `None` and `str(-12)` is `-12`, as the TDRC and TRCK frames store them |
| `Lyrics.MusicLyrics` | download_audio.py:173-181 | `lyrics` if truthy, else `description` if truthy; `None` exactly when both are falsy |
| `Lyrics.CaptionTableChoice` | download_audio.py:184 | uploaded subtitles win when truthy; otherwise the automatic captions |
| `Lyrics.FirstPresentPicksFirst` | download_audio.py:186 | the first present language is chosen |
| `Lyrics.FirstPresentNone` | download_audio.py:186 | with none present the choice is `None` |
| `Lyrics.FirstPresentSound` | download_audio.py:186 | a chosen language is the first present one, `None` means none is present, and the choice raises only on a non-container table |
| `Lyrics.SelectLanguageOrder` | download_audio.py:171-186 | ko before ja before en, `None` with none of them |
| `Lyrics.SelectLanguage` | download_audio.py:186 | the `next(...)` over ko, ja, en; stated by `SelectLanguageOrder` and `FirstPresentSound` |
| `Lyrics.CaptionTable` | download_audio.py:184 | `subtitles or automatic_captions`; stated by `CaptionTableChoice` |
| `Lyrics.FirstPresent` | download_audio.py:186 | the generator under `next(...)`; stated by `FirstPresentPicksFirst`, `FirstPresentNone` and `FirstPresentSound` |
| `Lyrics.SubtitlePath` | download_audio.py:200-201 | `join(output_dir, f"{title}.{lang}.vtt")` and its `.srt` twin; that the chosen path carries its own suffix is stated by `ChosenFileIsCleaned` |
| `Lyrics.ChooseSubtitle` | download_audio.py:202-206 | the `.vtt` file whenever it exists, the `.srt` file only when it alone exists, none otherwise |
| `Lyrics.ResolveLyrics` | download_audio.py:170-237 | the music branch is `MusicLyrics`; a falsy caption table or no preferred language gives `None`; after a language is chosen, a missing `webpage_url` or `title` raises `KeyError`, a failed download or no file gives `None`, and otherwise the lyrics are the stripped text of the chosen file after its own kind's passes |
| `Lyrics.ChosenFileIsCleaned` | download_audio.py:200-218 | the file found is cleaned by the passes of its own kind, so `lyrics` is never unbound |
| `Lyrics.NoPreferredLanguageNoLyrics` | download_audio.py:186-234 | captions only in other languages give no lyrics |
| `Lyrics.CaptionLyricsAreStripped` | download_audio.py:218 | caption lyrics have no white space at either end |
| `Strings.IsSpace` | download_audio.py:218 | the characters `str.isspace()` accepts, which `strip()` removes; stated by `StripSpec` |
| `Strings.Strip` | download_audio.py:218 | `str.strip()`; what it promises is stated by `StripSpec` |
| `Strings.StripSpec` | download_audio.py:218 | `strip()` removes white space only at the ends, and the result has none at either end |
| `Lyrics.CleanFile` | download_audio.py:212-218 | the passes chosen by the file's suffix, then `strip()`; stated by `ChosenFileIsCleaned` and `CaptionLyricsAreStripped` |
| `Lyrics.CleanVtt` | download_audio.py:213-214 | the header pass, then the VTT timecode pass; stated by `VttCueCleaned` and the pass lemmas below |
| `Lyrics.CleanSrt` | download_audio.py:216-217 | the number-line pass, then the SRT timecode pass; stated by `SrtTimecodeLineLosesMillis` and `SrtTimecodeSurvives` |
| `Lyrics.StripHeaders` | download_audio.py:213 | the `WEBVTT.*\n` substitution; stated by `StripHeadersDeletes`, `StripHeadersNoMatch`, `HeaderLineRemoved`, `StripHeadersSplit`, `HeaderLineRemovedAnywhere` and `NoMarkerLetter` |
| `Lyrics.RemovePattern` | download_audio.py:214-217 | the substitution of a fixed-length timecode pattern, scanning left to right; stated by `RemovePatternDeletes`, `RemovePatternNoMatch`, `TimecodeRemoved`, `RemovePatternSplit`, `TimecodeRemovedAnywhere` and `NoDigitNoMatch` |
| `Lyrics.StripNumberLines` | download_audio.py:216 | the `\d+\n` substitution; stated by `StripNumberLinesDeletes`, `StripNumberLinesNoNewline`, `StripNumberLinesLeavesNoNumberLine` and `DigitsThenNewline` |
| `Lyrics.HeaderLength` | download_audio.py:213 | a header match starts with `WEBVTT` and ends with the first newline after it; there is none exactly when the text does not start with `WEBVTT` or has no newline after it |
| `Lyrics.RemovePatternDeletes` | download_audio.py:214-217 | a timecode pass only deletes characters |
| `Lyrics.StripHeadersDeletes` | download_audio.py:213 | the header pass only deletes characters |
| `Lyrics.StripNumberLinesDeletes` | download_audio.py:216 | the number pass only deletes characters |
| `Lyrics.RemovePatternNoMatch` | download_audio.py:214-217 | a text where the pattern matches nowhere is unchanged |
| `Lyrics.StripHeadersNoMatch` | download_audio.py:213 | a text without `WEBVTT` is unchanged |
| `Lyrics.StripNumberLinesNoNewline` | download_audio.py:216 | a text without a newline is unchanged |
| `Lyrics.HeaderLineRemoved` | download_audio.py:213 | a `WEBVTT…\n` line is removed whole, whatever follows `WEBVTT` on it |
| `Lyrics.TimecodeRemoved` | download_audio.py:214 | a timecode at the front is removed whole |
| `Lyrics.RemovePatternSplit` | download_audio.py:214-217 | the timecode pass works piecewise across a cut just after a newline, for any pattern without a newline |
| `Lyrics.StripHeadersSplit` | download_audio.py:213 | the header pass works piecewise across a cut just after a newline |
| `Lyrics.HeaderLineRemovedAnywhere` | download_audio.py:213 | a `WEBVTT…\n` line that starts a line anywhere in the file is removed whole, and the passes on either side are independent |
| `Lyrics.TimecodeRemovedAnywhere` | download_audio.py:214 | a timecode that starts a line anywhere in the file is removed whole, and the passes on either side are independent |
| `Lyrics.TimecodesHaveNoNewline` | download_audio.py:214-217 | neither timecode pattern holds a newline, so the split applies to both |
| `Lyrics.NoDigitNoMatch` | download_audio.py:214 | a text without digits has no timecode |
| `Lyrics.NoMarkerLetter` | download_audio.py:213 | a text without `W` has no header |
| `Lyrics.StripNumberLinesLeavesNoNumberLine` | download_audio.py:216 | after the number pass, no digit is followed by a newline |
| `Lyrics.StripNumberLinesSplit` | download_audio.py:216 | the number pass works piecewise across a cut after a non-digit |
| `Lyrics.DigitsThenNewline` | download_audio.py:216 | a digit run ending its line is removed together with the newline |
| `Lyrics.SrtTimecodeLineLosesMillis` | download_audio.py:216-217 | the number pass removes the milliseconds and newline of an SRT timecode line |
| `Lyrics.SrtTimecodeSurvives` | download_audio.py:216-217 | what is left of the line then no longer matches the SRT timecode pattern |
| `Lyrics.VttCueCleaned` | download_audio.py:212-218 | a bare header and one cue clean to exactly the cue's text |
| `Cover.CropBox` | download_audio.py:39-44 | sides `min(w, h)`, inside the image, centred on the image's centre |
| `Cover.SquareCropIsWhole` | download_audio.py:39-44 | a square image gives the box `(0, 0, w, w)` |
| `Cover.CropKeepsShorterSide` | download_audio.py:39-44 | landscape keeps the full height, portrait the full width |
| `Cover.MimeFor` | download_audio.py:32-36 | the MIME type; stated by `MimeRule` |
| `Cover.SaveFormat` | download_audio.py:49 | the save format as intended; stated by `SaveFormatJpegIffJpegMime` |
| `Cover.SaveFormatAsWritten` | download_audio.py:49 | the save format as written, with no format for any non-JPEG MIME type; its effect is stated by `ProcessImageAsWritten` |
| `Cover.MimeRule` | download_audio.py:32-36 | webp gives `image/jpeg`; any other format `image/` plus its lower-cased name |
| `Cover.SaveFormatJpegIffJpegMime` | download_audio.py:49 | the corrected save format is JPEG exactly for a JPEG MIME type |
| `Cover.PlanFor` | download_audio.py:31-49 | a plan exists exactly when the format is named; it crops the centred square; it converts to RGB exactly for webp, and then types and saves as JPEG; the corrected save format is JPEG exactly for a JPEG MIME type |
| `Cover.ProcessImage` | download_audio.py:25-55 | an image comes back exactly when the fetch, the format and the encoding succeed; it carries `MimeFor` of the format and the encoded bytes |
| `Cover.ProcessImageAsWritten` | download_audio.py:25-55 | as written, an image comes back exactly when the fetch and the encoding succeed and the MIME type is `image/jpeg`; it is then typed `image/jpeg` and carries the encoded bytes |
| `Cover.PngThumbnailDroppedAsWritten` | download_audio.py:49 | as written, a PNG thumbnail gets no cover, while the corrected version gives `image/png` |
| `Cover.AsWrittenAgreesOnJpeg` | download_audio.py:49 | both versions agree on thumbnails whose MIME type is `image/jpeg` |
| `Paths.Join` | download_audio.py:344 | the joined path ends with the last part; an absolute last part replaces the directory; otherwise the directory and the part are joined with one `/`, added only when the directory is non-empty and does not end in one |
| `Paths.SplitExt` | download_audio.py:242 | POSIX `os.path.splitext`; stated by `SplitExtParts` |
| `Paths.LrcPath` | download_audio.py:242-243 | `f"{base}.lrc"`; stated by `LrcReplacesExtension`, `LrcAppendsWithoutExtension` and the three examples |
| `Paths.SplitExtParts` | download_audio.py:242 | base plus extension is the path; the extension is empty or a dot followed by no `.` and no `/` |
| `Paths.LrcReplacesExtension` | download_audio.py:242-243 | the sidecar path replaces only the final extension with `.lrc` |
| `Paths.LrcAppendsWithoutExtension` | download_audio.py:242-243 | with no extension, or only leading dots, `.lrc` is appended to the whole path |
| `Paths.LrcExampleMusic` | download_audio.py:242-243 | `/music/Song.flac` gives `/music/Song.lrc` |
| `Paths.LrcExampleDots` | download_audio.py:242-243 | `a.b/c.d.mp3` gives `a.b/c.d.lrc` |
| `Paths.LrcExampleLeadingDot` | download_audio.py:242-243 | `/music/.flac` gives `/music/.flac.lrc` |

## Left out

- The FFmpeg probe (lines 17-23), argparse and the `__main__` block (lines 388-407), all printing, and `sys.exit`: process plumbing. Exits are the `exitCode` of a run result.
- yt-dlp's extraction, download and subtitle pass (lines 196-198, 322-325): a foreign library and the network. The options dict (lines 296-320) is configuration handed to yt-dlp and is not modelled; its quality entry is `Formats.PreferredQuality`.
- The progress hook (lines 290-293): it never assigns `downloaded_file_path`, so it has no effect.
- `os.makedirs`, `os.listdir`, `os.remove` and file reads and writes: I/O. `os.path.exists` is a boolean input. The subtitle file's text is an input. The sidecar is the path and text that would be written.
- `urlparse` (line 274): a library parser. The netloc is a given string.
- `requests.get` and PIL's decode, convert, crop and encode (lines 27-29, 33, 45, 48-50): network and an image library. The decoded format and size, and the encoder's output, are inputs.
- mutagen's on-disk encoding, `save`, its APIC frame key (taken to be `APIC:Thumbnail`), and its checks of value types: a FLAC comment or ID3 text that is not a string raises inside mutagen. Every value is modelled as stored as given.
- Tags.TagWrite: for flac, mutagen's `save` rejects a Vorbis comment that is not a string. yt-dlp gives `track_number` as an int, so for a flac file with a track number the real `save` raises, the handler at line 167 catches it, and the file keeps its old tags. The model instead stores the int (`Tags.FlacFieldWritten`) and reports the write as saved.
- Tags.TagWrite: an MP4 file that mutagen opens without a tag atom (`audio.tags` is `None`) is modelled only through the `OpenFailed` outcome.
- Tags.SetMp4: the atoms set in memory before `int()` fails are dropped with the editor object, because the file is never saved. The method returns without modelling that memory.
- Formats.IsYouTubeMusic: `.lower()` is modelled on ASCII letters only. Python's full lower-casing gives the same answer for this pattern, as the function's comment explains.
- Strings.IsDigit: the regular-expression class `\d` is modelled as the ASCII digits. On `str`, Python also matches other Unicode decimal digits.
- Lyrics.RemovePattern: a header or a timecode at the start of any line of the file is proved removed whole (`Lyrics.HeaderLineRemovedAnywhere`, `Lyrics.TimecodeRemovedAnywhere`). A match that starts in the middle of a line is removed by the same left-to-right scan, but no lemma states it. The model does not claim that no match is left afterwards: deleting a match can join two pieces into a new one, exactly as `re.sub` leaves it.
- PyValues.Value: there is no float. So `int()` of a float track number, which truncates, and `str()` of a float, which the ID3 date and track frames would store, are not modelled.
- PyValues.PyInt: only ASCII digits are accepted. Python's `int()` also accepts other Unicode decimal digits.
- Download.Outcome: `os.path.exists` raises `TypeError` when the final path is a list or a dict, for example a list stored as `filepath` in the info dict (an int is taken as a file descriptor instead). The model takes the existence check as a boolean input, so that crash is not modelled.
- PyValues.Repr: characters above U+00FF that Python counts as non-printable (format and separator characters, unassigned code points) are kept as they are; Python writes them as `\u` or `\U` escapes. Below U+0100 the escapes are Python's.
- `os.path.abspath` on the output directory (line 399): a process-dependent library call. The output directory is a given string.

## Findings

| source | as written | input that shows it | evidently intended | confidence | as-written member | corrected member |
|---|---|---|---|---|---|---|
| download_audio.py:49 | the save format is `image.format` of the image after line 45 reassigned it to the crop result. PIL gives derived images no format, so `save` into a `BytesIO` without a name raises, and line 55 returns `(None, None)` | a 640×480 PNG thumbnail: no cover is embedded | save in the decoded thumbnail's own format (JPEG after the webp conversion) | not executed; relies on PIL leaving the format of cropped images unset | `Cover.PngThumbnailDroppedAsWritten` | `Cover.ProcessImage` |
