/** The scoring proxy's two decisions that are not I/O: whether a sound
    must be transcoded, judged from the probe tool's output lines, and the
    platform suffix of the bundled tool names. */
module Servlet {

  /** `sub` occurs in `s` starting at index `k`. */
  predicate OccursAt(s: string, sub: string, k: int)
  {
    0 <= k && k + |sub| <= |s| && s[k..k + |sub|] == sub
  }

  /** Java's `String.contains`: a literal substring test. */
  function Contains(s: string, sub: string): (r: bool)
    ensures r <==> exists k :: OccursAt(s, sub, k)
    decreases |s|
  {
    if |sub| > |s| then false
    else if s[..|sub|] == sub then
      assert OccursAt(s, sub, 0);
      true
    else
      var t := s[1..];
      assert forall k :: OccursAt(s, sub, k) ==> k > 0 && OccursAt(t, sub, k - 1) by {
        forall k | OccursAt(s, sub, k)
          ensures k > 0 && OccursAt(t, sub, k - 1)
        {
          assert k != 0;
          assert t[k - 1..k - 1 + |sub|] == s[k..k + |sub|];
        }
      }
      assert forall k :: OccursAt(t, sub, k) ==> OccursAt(s, sub, k + 1) by {
        forall k | OccursAt(t, sub, k)
          ensures OccursAt(s, sub, k + 1)
        {
          assert t[k..k + |sub|] == s[k + 1..k + 1 + |sub|];
        }
      }
      Contains(t, sub)
  }

  const SampleRate := ", 44100 Hz,"
  const Codec := " pcm_s16le "

  /** Some line of `lines` contains `sub`. */
  predicate AnyContains(lines: seq<string>, sub: string)
  {
    exists i :: 0 <= i < |lines| && Contains(lines[i], sub)
  }

  /** The decision: transcoding is needed unless some line announces the
      sample rate and some line, the same or another, announces the codec. */
  predicate NeedsTranscode(lines: seq<string>)
  {
    !(AnyContains(lines, SampleRate) && AnyContains(lines, Codec))
  }

  /** `needToTranscode`, over the lines the probe printed: two flags that
      only ever go from false to true. */
  method NeedToTranscode(lines: seq<string>) returns (r: bool)
    ensures r == NeedsTranscode(lines)
    ensures lines == [] ==> r
  {
    var isPCM := false;
    var is44100Hz := false;
    var i := 0;
    while i < |lines|
      invariant 0 <= i <= |lines|
      invariant is44100Hz == AnyContains(lines[..i], SampleRate)
      invariant isPCM == AnyContains(lines[..i], Codec)
    {
      AnyContainsSnoc(lines[..i], lines[i], SampleRate);
      AnyContainsSnoc(lines[..i], lines[i], Codec);
      assert lines[..i + 1] == lines[..i] + [lines[i]];
      is44100Hz := is44100Hz || Contains(lines[i], SampleRate);
      isPCM := isPCM || Contains(lines[i], Codec);
      i := i + 1;
    }
    assert lines[..i] == lines;
    r := !(isPCM && is44100Hz);
  }

  /** One more line finds `sub` exactly when it was found before or the new
      line holds it. */
  lemma AnyContainsSnoc(lines: seq<string>, line: string, sub: string)
    ensures AnyContains(lines + [line], sub) <==> AnyContains(lines, sub) || Contains(line, sub)
  {
    var all := lines + [line];
    if AnyContains(lines, sub) {
      var i :| 0 <= i < |lines| && Contains(lines[i], sub);
      assert all[i] == lines[i];
    }
    if Contains(line, sub) {
      assert all[|lines|] == line;
    }
    if AnyContains(all, sub) {
      var i :| 0 <= i < |all| && Contains(all[i], sub);
      if i < |lines| {
        assert all[i] == lines[i];
      }
    }
  }

  /** A marker is found in some line of a reordering exactly when it is
      found in some line of the original. */
  lemma AnyContainsIgnoresOrder(a: seq<string>, b: seq<string>, sub: string)
    requires multiset(a) == multiset(b)
    ensures AnyContains(a, sub) ==> AnyContains(b, sub)
  {
    if AnyContains(a, sub) {
      var i :| 0 <= i < |a| && Contains(a[i], sub);
      assert a[i] in multiset(a);
      assert a[i] in multiset(b);
      var j :| 0 <= j < |b| && b[j] == a[i];
    }
  }

  /** The flags are monotone, so the decision does not depend on the order
      of the lines. */
  lemma DecisionIgnoresOrder(a: seq<string>, b: seq<string>)
    requires multiset(a) == multiset(b)
    ensures NeedsTranscode(a) == NeedsTranscode(b)
  {
    AnyContainsIgnoresOrder(a, b, SampleRate);
    AnyContainsIgnoresOrder(b, a, SampleRate);
    AnyContainsIgnoresOrder(a, b, Codec);
    AnyContainsIgnoresOrder(b, a, Codec);
  }

  /** Once both markers have been seen, no further output changes the
      decision. */
  lemma MoreOutputKeepsDecision(a: seq<string>, b: seq<string>)
    requires !NeedsTranscode(a)
    ensures !NeedsTranscode(a + b)
  {
    var i :| 0 <= i < |a| && Contains(a[i], SampleRate);
    var j :| 0 <= j < |a| && Contains(a[j], Codec);
    assert (a + b)[i] == a[i] && (a + b)[j] == a[j];
  }

  /** The markers are matched with their delimiters: a line without a
      comma never announces the sample rate, whatever digits it holds. */
  lemma RateNeedsItsCommas(line: string)
    requires ',' !in line
    ensures !Contains(line, SampleRate)
  {
    forall k | 0 <= k < |line|
      ensures !OccursAt(line, SampleRate, k)
    {
      if k + |SampleRate| <= |line| {
        assert line[k] in line;
        assert line[k..k + |SampleRate|][0] == line[k] != SampleRate[0];
      }
    }
  }

  /** `init`: the architecture part of the tool names. */
  function ArchSuffix(osArch: string): (arch: string)
    ensures arch == "64" <==> Contains(osArch, "64")
    ensures arch == "32" <==> !Contains(osArch, "64")
  {
    if Contains(osArch, "64") then "64" else "32"
  }

  /** `init`: the operating-system part, macOS first, then Windows, then
      Linux, and empty for any other system. */
  function OsTag(isMac: bool, isWindows: bool, isLinux: bool): (os: string)
    ensures os == "mac" <==> isMac
    ensures os == "win" <==> !isMac && isWindows
    ensures os == "linux" <==> !isMac && !isWindows && isLinux
    ensures os == "" <==> !isMac && !isWindows && !isLinux
  {
    if isMac then "mac" else if isWindows then "win" else if isLinux then "linux" else ""
  }

  /** The two resource names `init` looks up. */
  datatype ToolNames = ToolNames(ffmpeg: string, ffprobe: string)

  const FfmpegPrefix := "resources/ffmpeg_"
  const FfprobePrefix := "resources/ffprobe_"

  function ResourceNames(isMac: bool, isWindows: bool, isLinux: bool, osArch: string): (names: ToolNames)
  {
    var platform := OsTag(isMac, isWindows, isLinux) + ArchSuffix(osArch);
    ToolNames(FfmpegPrefix + platform, FfprobePrefix + platform)
  }

  /** Both names carry the same platform suffix after their own prefix,
      and that suffix names the system and the word size: platforms whose
      system tag or word size differ get different tools. */
  lemma ResourceNamesIdentifyPlatform(m1: bool, w1: bool, l1: bool, arch1: string,
                                      m2: bool, w2: bool, l2: bool, arch2: string)
    ensures var n := ResourceNames(m1, w1, l1, arch1);
      && n.ffmpeg == FfmpegPrefix + n.ffprobe[|FfprobePrefix|..]
      && n.ffprobe[..|FfprobePrefix|] == FfprobePrefix
    ensures ResourceNames(m1, w1, l1, arch1) == ResourceNames(m2, w2, l2, arch2) <==>
      OsTag(m1, w1, l1) == OsTag(m2, w2, l2) && ArchSuffix(arch1) == ArchSuffix(arch2)
  {
    var os1, os2 := OsTag(m1, w1, l1), OsTag(m2, w2, l2);
    var a1, a2 := ArchSuffix(arch1), ArchSuffix(arch2);
    var n1, n2 := ResourceNames(m1, w1, l1, arch1), ResourceNames(m2, w2, l2, arch2);
    assert n1.ffprobe[|FfprobePrefix|..] == os1 + a1;
    if n1 == n2 {
      assert n1.ffmpeg[|FfmpegPrefix|..] == os1 + a1;
      assert n2.ffmpeg[|FfmpegPrefix|..] == os2 + a2;
      assert os1 + a1 == os2 + a2;
      assert |a1| == 2 && |a2| == 2;
      assert os1 == (os1 + a1)[..|os1 + a1| - 2];
      assert os2 == (os2 + a2)[..|os2 + a2| - 2];
      assert a1 == (os1 + a1)[|os1 + a1| - 2..];
      assert a2 == (os2 + a2)[|os2 + a2| - 2..];
    }
  }
}
