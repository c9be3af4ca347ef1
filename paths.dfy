/** POSIX path helpers: `os.path.join` and `os.path.splitext` as the script
    uses them, and the lyrics sidecar path built from the audio path
    (download_audio.py:242-243). */
module Paths {
  import opened Strings

  /** `os.path.join(a, b)` on POSIX: an absolute `b` replaces `a`; otherwise
      the two are joined with one `/` unless `a` is empty or already ends in one. */
  function Join(a: string, b: string): (r: string)
    ensures EndsWith(r, b)
    ensures StartsWith(b, "/") ==> r == b
    ensures !StartsWith(b, "/") ==> StartsWith(r, a)
    ensures !StartsWith(b, "/") ==> r == (if a == "" || EndsWith(a, "/") then a + b else a + "/" + b)
  {
    if StartsWith(b, "/") then b
    else if a == "" || EndsWith(a, "/") then
      assert (a + b)[|a + b| - |b|..] == b && (a + b)[..|a|] == a;
      a + b
    else
      assert (a + "/" + b)[|a + "/" + b| - |b|..] == b && (a + "/" + b)[..|a|] == a;
      a + "/" + b
  }

  /** `s.rfind(c)`: the index of the last `c` in `s`, or -1 when there is none. */
  function RFind(s: string, c: char): (k: int)
    ensures -1 <= k < |s|
    ensures k >= 0 ==> s[k] == c
    ensures forall i :: k < i < |s| ==> s[i] != c
  {
    LastBefore(s, c, |s|)
  }

  /** The index of the last `c` in `s[..n]`, or -1. */
  function LastBefore(s: string, c: char, n: nat): (k: int)
    requires n <= |s|
    ensures -1 <= k < n
    ensures k >= 0 ==> s[k] == c
    ensures forall i :: k < i < n ==> s[i] != c
  {
    if n == 0 then -1 else if s[n - 1] == c then n - 1 else LastBefore(s, c, n - 1)
  }

  /** The last `c` is at `k` when `s[k]` is `c` and no `c` follows it. */
  lemma RFindIs(s: string, c: char, k: int)
    requires 0 <= k < |s| && s[k] == c
    requires forall i :: k < i < |s| ==> s[i] != c
    ensures RFind(s, c) == k
  {
  }

  /** Whether `p[lo..hi]` holds a character other than `.`. */
  predicate HasNonDot(p: string, lo: int, hi: int)
    requires 0 <= lo && hi <= |p|
  {
    exists i :: lo <= i < hi && p[i] != '.'
  }

  /** `os.path.splitext(p)` on POSIX: the extension is everything from the
      last `.` after the last `/`, unless the final component up to that dot
      is made of dots only (so a leading dot does not start an extension). */
  function SplitExt(p: string): (string, string) {
    var sep := RFind(p, '/');
    var dot := RFind(p, '.');
    if dot > sep && HasNonDot(p, sep + 1, dot) then (p[..dot], p[dot..]) else (p, "")
  }

  /** The `.lrc` sidecar path: `f"{base}.lrc"` with `base, _ = splitext(path)`. */
  function LrcPath(audioPath: string): string {
    SplitExt(audioPath).0 + ".lrc"
  }

  /** What `splitext` returns: the two parts put back together give the
      path; the extension is empty or a dot followed by no `.` and no `/`;
      when it is non-empty the final component of the base is not all dots. */
  lemma SplitExtParts(p: string)
    ensures SplitExt(p).0 + SplitExt(p).1 == p
    ensures var ext := SplitExt(p).1;
      ext == "" || (ext[0] == '.' && forall i :: 0 < i < |ext| ==> ext[i] != '.' && ext[i] != '/')
    ensures var base := SplitExt(p).0;
      SplitExt(p).1 != "" ==> HasNonDot(base, RFind(base, '/') + 1, |base|)
  {
    var sep := RFind(p, '/');
    var dot := RFind(p, '.');
    if dot > sep && HasNonDot(p, sep + 1, dot) {
      var base := p[..dot];
      var ext := p[dot..];
      assert base + ext == p;
      assert forall i :: 0 < i < |ext| ==> ext[i] == p[dot + i];
      assert RFind(base, '/') == sep by {
        RFindPrefix(p, '/', dot);
      }
      var w :| sep + 1 <= w < dot && p[w] != '.';
      assert base[w] != '.';
    }
  }

  /** A prefix that still contains the last `c` has it at the same index. */
  lemma RFindPrefix(p: string, c: char, n: int)
    requires 0 <= n <= |p|
    requires forall i :: n <= i < |p| ==> p[i] != c
    ensures RFind(p[..n], c) == RFind(p, c)
  {
    var k := RFind(p[..n], c);
    var m := RFind(p, c);
    assert k >= 0 ==> p[k] == c;
    assert m >= 0 ==> m < n && p[..n][m] == c;
  }

  /** The last `c` of `b + t`, when `t` has no `c`, is the last `c` of `b`. */
  lemma RFindConcat(b: string, t: string, c: char)
    requires forall i :: 0 <= i < |t| ==> t[i] != c
    ensures RFind(b + t, c) == RFind(b, c)
  {
    var p := b + t;
    assert p[..|b|] == b;
    RFindPrefix(p, c, |b|);
  }

  lemma SepOfNamed(b: string, x: string)
    requires forall i :: 0 <= i < |x| ==> x[i] != '.' && x[i] != '/'
    ensures RFind(b + "." + x, '/') == RFind(b, '/')
  {
    var t := "." + x;
    assert b + "." + x == b + t;
    assert forall i :: 0 <= i < |t| ==> t[i] != '/' by {
      forall i | 0 <= i < |t| ensures t[i] != '/' {
        if i > 0 { assert t[i] == x[i - 1]; }
      }
    }
    RFindConcat(b, t, '/');
  }

  lemma DotOfNamed(b: string, x: string)
    requires forall i :: 0 <= i < |x| ==> x[i] != '.' && x[i] != '/'
    ensures RFind(b + "." + x, '.') == |b|
  {
    var p := b + "." + x;
    forall i | |b| < i < |p| ensures p[i] != '.' {
      assert p[i] == x[i - |b| - 1];
    }
    RFindIs(p, '.', |b|);
  }

  /** `splitext` undoes appending an extension `.x` to a path whose final
      component has a character other than a dot. */
  lemma SplitExtOfNamed(b: string, x: string)
    requires forall i :: 0 <= i < |x| ==> x[i] != '.' && x[i] != '/'
    requires HasNonDot(b, RFind(b, '/') + 1, |b|)
    ensures SplitExt(b + "." + x) == (b, "." + x)
  {
    var p := b + "." + x;
    SepOfNamed(b, x);
    DotOfNamed(b, x);
    var sep := RFind(b, '/');
    var w :| sep + 1 <= w < |b| && b[w] != '.';
    assert p[w] == b[w];
    assert HasNonDot(p, sep + 1, |b|);
    assert p[..|b|] == b && p[|b|..] == "." + x;
  }

  /** The sidecar path replaces only the final extension by `.lrc`. */
  lemma LrcReplacesExtension(b: string, x: string)
    requires forall i :: 0 <= i < |x| ==> x[i] != '.' && x[i] != '/'
    requires HasNonDot(b, RFind(b, '/') + 1, |b|)
    ensures LrcPath(b + "." + x) == b + ".lrc"
  {
    SplitExtOfNamed(b, x);
  }

  /** A path whose final component has no extension (no dot, or only leading
      dots) gets `.lrc` appended to the whole path. */
  lemma LrcAppendsWithoutExtension(p: string)
    requires !HasNonDot(p, RFind(p, '/') + 1, if RFind(p, '.') > RFind(p, '/') then RFind(p, '.') else RFind(p, '/') + 1)
    ensures LrcPath(p) == p + ".lrc"
  {
  }

  lemma LrcExampleMusic()
    ensures LrcPath("/music/Song.flac") == "/music/Song.lrc"
  {
    RFindIs("/music/Song", '/', 6);
    assert "/music/Song"[7] != '.';
    LrcReplacesExtension("/music/Song", "flac");
    assert "/music/Song" + "." + "flac" == "/music/Song.flac";
  }

  lemma LrcExampleDots()
    ensures LrcPath("a.b/c.d.mp3") == "a.b/c.d.lrc"
  {
    RFindIs("a.b/c.d", '/', 3);
    assert "a.b/c.d"[4] != '.';
    LrcReplacesExtension("a.b/c.d", "mp3");
    assert "a.b/c.d" + "." + "mp3" == "a.b/c.d.mp3";
  }

  /** A leading dot does not start an extension. */
  lemma LrcExampleLeadingDot()
    ensures LrcPath("/music/.flac") == "/music/.flac.lrc"
  {
    var p := "/music/.flac";
    RFindIs(p, '/', 6);
    RFindIs(p, '.', 7);
    LrcAppendsWithoutExtension(p);
  }
}
