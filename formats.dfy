/** The format gate, the codec-to-quality table and the host check at the
    top of `download_audio` (download_audio.py:263-285). */
module Formats {
  import opened Strings

  const SupportedFormats: seq<string> := ["mp3", "aac", "flac", "wav", "m4a"]

  /** The gate: an unsupported format ends the run with exit status 1 before
      any directory is created or anything is downloaded. */
  datatype Gate = Accepted | Rejected(exitCode: int)

  function CheckFormat(format: string): (g: Gate)
    ensures g.Accepted? <==> format in {"mp3", "aac", "flac", "wav", "m4a"}
    ensures g.Rejected? ==> g.exitCode == 1
  {
    if format in SupportedFormats then Accepted else Rejected(1)
  }

  /** The `preferredquality` lookup, with `'best'` for a codec missing from it. */
  function PreferredQuality(format: string): string {
    match format
    case "mp3" => "320"
    case "aac" => "256"
    case "flac" => "0"
    case "wav" => "0"
    case "m4a" => "256"
    case _ => "best"
  }

  /** Every format the gate lets through has an entry in the quality table:
      320 for mp3, 256 for the AAC containers, 0 (lossless) for flac and wav;
      the `'best'` fallback is reached only by a format the gate rejects. */
  lemma QualityOfAccepted(format: string)
    requires CheckFormat(format).Accepted?
    ensures PreferredQuality(format) != "best"
    ensures format == "mp3" ==> PreferredQuality(format) == "320"
    ensures format == "aac" || format == "m4a" ==> PreferredQuality(format) == "256"
    ensures format == "flac" || format == "wav" ==> PreferredQuality(format) == "0"
  {
  }

  lemma QualityOfRejected(format: string)
    requires CheckFormat(format).Rejected?
    ensures PreferredQuality(format) == "best"
  {
  }

  const MusicHost: string := "music.youtube.com"

  /** `'music.youtube.com' in netloc.lower()`. Lower-casing only ASCII letters
      gives the same answer as Python's full lower-casing for this pattern:
      the only non-ASCII characters that lower-case to ASCII letters are the
      Kelvin sign (to `k`, absent from the pattern) and the dotted capital I
      (to `i` followed by a combining dot, which cannot continue the pattern). */
  function IsYouTubeMusic(netloc: string): bool {
    Contains(Lower(netloc), MusicHost)
  }

  predicate MatchesHostAt(netloc: string, i: int) {
    0 <= i <= |netloc| - |MusicHost| && forall k :: 0 <= k < |MusicHost| ==> LowerChar(netloc[i + k]) == MusicHost[k]
  }

  /** The check is a case-insensitive substring test, not a host comparison:
      it holds exactly when the pattern occurs somewhere in the netloc in any
      letter case. */
  lemma IsYouTubeMusicMeans(netloc: string)
    ensures IsYouTubeMusic(netloc) <==> exists i :: MatchesHostAt(netloc, i)
  {
    var s := Lower(netloc);
    forall i | 0 <= i <= |netloc| - |MusicHost|
      ensures OccursAt(s, MusicHost, i) <==> MatchesHostAt(netloc, i)
    {
      if MatchesHostAt(netloc, i) {
        assert s[i..i + |MusicHost|] == MusicHost;
      }
      if OccursAt(s, MusicHost, i) {
        forall k | 0 <= k < |MusicHost| ensures LowerChar(netloc[i + k]) == MusicHost[k] {
          assert s[i..i + |MusicHost|][k] == s[i + k];
        }
      }
    }
  }

  lemma HostExampleUpperCase()
    ensures IsYouTubeMusic("MUSIC.YouTube.com")
  {
    MatchedHost("MUSIC.YouTube.com", 0);
  }

  lemma MatchedHost(netloc: string, i: int)
    requires 0 <= i <= |netloc| - |MusicHost|
    requires forall k :: 0 <= k < |MusicHost| ==> LowerChar(netloc[i + k]) == MusicHost[k]
    ensures IsYouTubeMusic(netloc)
  {
    var s := Lower(netloc);
    assert s[i..i + |MusicHost|] == MusicHost;
    assert OccursAt(s, MusicHost, i);
  }

  lemma HostExampleOtherHost()
    ensures !IsYouTubeMusic("www.youtube.com")
  {
    assert |Lower("www.youtube.com")| < |MusicHost|;
  }
}
