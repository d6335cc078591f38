/**
 * A player's reading of a media playlist (section 4 of RFC 8216), line by line and without a
 * look at how the store prints one, and what it reads in the playlists of the store.
 */
module PlaylistReader {
  import opened Wrappers
  import opened Text
  import opened Numbers
  import opened Playlists

  /** The lines of a text, each ended by a line feed. */
  function LinesOf(text: string): seq<string> {
    var parts := Split(text, '\n');
    AllButLast(parts)
  }

  datatype Segment = Segment(discontinuity: bool, duration: string, uri: string)

  /** `discontinuity` and `duration` are what has been read for the next segment. */
  datatype Reading = Reading(tags: seq<string>, segments: seq<Segment>, discontinuity: bool, duration: Option<string>, ended: bool)

  const NOTHING := Reading([], [], false, None, false)

  function Step(r: Reading, line: string): Reading {
    if line == "#EXT-X-DISCONTINUITY" then r.(discontinuity := true)
    else if line == "#EXT-X-ENDLIST" then r.(ended := true)
    else if "#EXTINF:" <= line then r.(duration := Some(Split(line[8..], ',')[0]))
    else if line != "" && line[0] != '#' && r.duration.Some? then
      r.(segments := r.segments + [Segment(r.discontinuity, r.duration.value, line)], discontinuity := false, duration := None)
    else r.(tags := r.tags + [line])
  }

  function ReadLines(lines: seq<string>): Reading {
    if lines == [] then NOTHING else Step(ReadLines(lines[..|lines| - 1]), lines[|lines| - 1])
  }

  function Read(text: string): Reading {
    ReadLines(LinesOf(text))
  }

  /** The number of thousandths a decimal number with three places names. */
  function ReadMilli(s: string): Option<nat> {
    var parts := Split(s, '.');
    if |parts| == 2 && parts[0] != "" && AllDigits(parts[0]) && |parts[1]| == 3 && AllDigits(parts[1])
    then Some(Value(parts[0]) * 1000 + Value(parts[1]))
    else None
  }

  // ---- Text by lines ----

  predicate Whole(text: string) {
    text == "" || text[|text| - 1] == '\n'
  }

  lemma {:induction false} SplitAppend(text: string, more: string, sep: char)
    requires text == "" || text[|text| - 1] == sep
    ensures Split(text + more, sep) == AllButLast(Split(text, sep)) + Split(more, sep)
    ensures text == "" || |Split(text, sep)| >= 2
  {
    if text == "" {
      assert text + more == more;
    } else {
      SplitAppend(text[1..], more, sep);
      SplitFirst(text, sep);
      SplitFirst(text + more, sep);
      assert (text + more)[1..] == text[1..] + more && (text + more)[0] == text[0];
      SameShape(text[0], Split(text[1..], sep), Split(more, sep));
    }
  }

  function AllButLast<T>(s: seq<T>): seq<T>
    requires |s| >= 1
  {
    s[..|s| - 1]
  }

  lemma SameShape(x: char, tail: seq<string>, parts: seq<string>)
    requires |tail| >= 1
    ensures AllButLast([[]] + tail) + parts == [[]] + (AllButLast(tail) + parts)
    ensures |tail| >= 2 ==>
              var all := AllButLast(tail) + parts;
              AllButLast([[x] + tail[0]] + tail[1..]) + parts == [[x] + all[0]] + all[1..]
  {
    assert AllButLast([[]] + tail) == [[]] + AllButLast(tail);
    if |tail| >= 2 {
      assert AllButLast([[x] + tail[0]] + tail[1..]) == [[x] + tail[0]] + AllButLast(tail)[1..];
    }
  }

  lemma SplitFirst(s: string, sep: char)
    requires s != ""
    ensures var rest := Split(s[1..], sep); Split(s, sep) == if s[0] == sep then [[]] + rest else [[s[0]] + rest[0]] + rest[1..]
  {
  }

  lemma WholeLine(text: string, line: string)
    requires Whole(text) && '\n' !in line
    ensures Whole(text + (line + "\n")) && LinesOf(text + (line + "\n")) == LinesOf(text) + [line]
  {
    SplitAppend(text, line + "\n", '\n');
    SplitCons(line, "", '\n');
    assert line + "\n" == line + ['\n'] + "";
    assert Split("", '\n') == [""];
  }

  lemma ReadLine(text: string, line: string)
    requires Whole(text) && '\n' !in line
    ensures Whole(text + (line + "\n")) && Read(text + (line + "\n")) == Step(Read(text), line)
  {
    WholeLine(text, line);
    var lines := LinesOf(text) + [line];
    assert lines[..|lines| - 1] == LinesOf(text);
  }

  // ---- What a line of each kind does ----

  lemma StepDiscontinuity(r: Reading)
    ensures Step(r, "#EXT-X-DISCONTINUITY") == r.(discontinuity := true)
  {
  }

  lemma StepEnd(r: Reading)
    ensures Step(r, "#EXT-X-ENDLIST") == r.(ended := true)
  {
    assert "#EXT-X-ENDLIST"[7] != "#EXT-X-DISCONTINUITY"[7];
  }

  lemma StepDuration(r: Reading, d: string)
    requires ',' !in d
    ensures Step(r, "#EXTINF:" + d + ",") == r.(duration := Some(d))
  {
    var line := "#EXTINF:" + d + ",";
    assert line[4] == 'I' && "#EXT-X-DISCONTINUITY"[4] == '-' && "#EXT-X-ENDLIST"[4] == '-';
    assert line[8..] == d + [','] + "";
    SplitCons(d, "", ',');
  }

  lemma StepName(r: Reading, line: string)
    requires line != "" && line[0] != '#' && r.duration.Some?
    ensures Step(r, line) == r.(segments := r.segments + [Segment(r.discontinuity, r.duration.value, line)],
                                discontinuity := false, duration := None)
  {
    assert "#EXT-X-DISCONTINUITY"[0] == '#' && "#EXT-X-ENDLIST"[0] == '#' && "#EXTINF:"[0] == '#';
  }

  /** Any other line is a tag; the fifth character tells those of the header apart, and the eighth. */
  predicate IsTag(line: string) {
    |line| >= 7 && line[0] == '#' && line[4] != 'I' && (|line| >= 8 ==> line[7] != 'D' && line[7] != 'E') && '\n' !in line
  }

  lemma StepTag(r: Reading, line: string)
    requires IsTag(line)
    ensures Step(r, line) == r.(tags := r.tags + [line])
  {
    assert |"#EXT-X-DISCONTINUITY"| == 20 && "#EXT-X-DISCONTINUITY"[7] == 'D';
    assert |"#EXT-X-ENDLIST"| == 14 && "#EXT-X-ENDLIST"[7] == 'E';
    assert "#EXTINF:"[4] == 'I';
  }

  lemma ReadTag(text: string, line: string, ended: string)
    requires Whole(text) && IsTag(line) && ended == line + "\n"
    ensures Whole(text + ended) && Read(text + ended) == Read(text).(tags := Read(text).tags + [line])
  {
    ReadLine(text, line);
    StepTag(Read(text), line);
  }

  // ---- Numbers ----

  lemma DigitsAreDigits(s: string, c: char)
    requires AllDigits(s) && !IsDigit(c)
    ensures c !in s
  {
  }

  lemma ReadParts(a: string, b: string)
    requires a != "" && |b| == 3 && AllDigits(a) && AllDigits(b)
    ensures ReadMilli(a + ['.'] + b) == Some(Value(a) * 1000 + Value(b))
  {
    DigitsAreDigits(a, '.');
    DigitsAreDigits(b, '.');
    SplitCons(a, b, '.');
    SplitCons(b, "", '.');
  }

  lemma PartsAvoid(a: string, b: string, c: char)
    requires AllDigits(a) && AllDigits(b) && !IsDigit(c) && c != '.'
    ensures c !in a + ['.'] + b
  {
  }

  lemma MilliReads(d: real)
    requires d >= 0.0
    ensures ReadMilli(Fixed3(d)) == Some(Milli(d)) && ',' !in Fixed3(d) && '\n' !in Fixed3(d)
  {
    ThousandthsRead(Milli(d));
  }

  lemma ThousandthsRead(m: nat)
    ensures ReadMilli(Thousandths(m)) == Some(m) && ',' !in Thousandths(m) && '\n' !in Thousandths(m)
  {
    var a, b := Digits(m / 1000), Pad3(m % 1000);
    ReadParts(a, b);
    PartsAvoid(a, b, ',');
    PartsAvoid(a, b, '\n');
    ValueDigits(m / 1000);
    ValuePad3(m % 1000);
  }

  // ---- What the playlist of a recording says ----

  /** The seconds of a chunk: measured, or else the length the agent announced, or else 30. */
  function Seconds(rec: Recording, i: nat): real {
    if i < |rec.chunkDurations| && rec.chunkDurations[i] > 0.0 then rec.chunkDurations[i] else Announced(rec) as real
  }

  function Announced(rec: Recording): int {
    if rec.chunkSecs > 0 then rec.chunkSecs else 30
  }

  /** The segment names its own chunk, shows its duration, and is marked after a chunk cut short. */
  ghost predicate SegmentFits(rec: Recording, i: nat, seg: Segment) {
    && |seg.uri| >= 9 && seg.uri[..9] == "segments/" && (i <= MAX_INT ==> ServedIndex(seg.uri[9..]) == Some(i))
    && seg.uri[9..] == SegmentName(i)
    && Seconds(rec, i) >= 0.0 && ReadMilli(seg.duration) == Some(Milli(Seconds(rec, i)))
    && (seg.discontinuity <==> i > 0 && 2.0 * Seconds(rec, i - 1) < Announced(rec) as real)
  }

  lemma NameFits(i: nat)
    ensures var uri := "segments/" + SegmentName(i);
            uri[..9] == "segments/" && uri[9..] == SegmentName(i) && uri[0] == 's' && '\n' !in uri
            && (i <= MAX_INT ==> ServedIndex(uri[9..]) == Some(i))
  {
    var uri := "segments/" + SegmentName(i);
    if i <= MAX_INT {
      SegmentNameReads(i);
    }
    DigitsAreDigits(Pad3(i), '\n');
    assert uri == "segments/" + Pad3(i) + ".ts";
    NoFeed("segments/", Pad3(i), ".ts");
  }

  lemma NoFeed(a: string, b: string, c: string)
    requires '\n' !in a && '\n' !in b && '\n' !in c
    ensures '\n' !in a + b + c
  {
  }

  /** One more segment, and nothing else. */
  ghost predicate Adds(rec: Recording, i: nat, r: Reading, r': Reading) {
    && |r'.segments| == |r.segments| + 1 && r' == r.(segments := r'.segments)
    && r'.segments[..|r.segments|] == r.segments && SegmentFits(rec, i, r'.segments[|r.segments|])
  }

  predicate BetweenSegments(r: Reading) {
    !r.discontinuity && r.duration.None?
  }

  function SegmentOf(rec: Recording, i: nat): Segment {
    Segment(i > 0 && 2.0 * Seconds(rec, i - 1) < Announced(rec) as real, Fixed3(Dur(rec, i)), "segments/" + SegmentName(i))
  }

  lemma SegmentOfFits(rec: Recording, i: nat)
    ensures SegmentFits(rec, i, SegmentOf(rec, i))
  {
    MilliReads(Dur(rec, i));
    NameFits(i);
  }

  lemma EntryReads(rec: Recording, text: string, i: nat)
    requires Whole(text) && BetweenSegments(Read(text))
    ensures Whole(text + Entry(rec, i)) && Adds(rec, i, Read(text), Read(text + Entry(rec, i)))
  {
    var marked := MarkerReads(rec, text, i);
    SegmentLinesRead(rec, marked, i);
    SegmentOfFits(rec, i);
    Associate(text, Marker(rec, i), InfLine(Dur(rec, i)), NameLine(i));
  }

  lemma SegmentLinesRead(rec: Recording, text: string, i: nat)
    requires Whole(text)
    ensures var text', r := text + InfLine(Dur(rec, i)) + NameLine(i), Read(text);
            Whole(text') && Read(text') == r.(segments := r.segments + [SegmentOf(rec, i).(discontinuity := r.discontinuity)],
                                              discontinuity := false, duration := None)
  {
    MilliReads(Dur(rec, i));
    NameFits(i);
    SegmentReads(text, Fixed3(Dur(rec, i)), "segments/" + SegmentName(i));
  }

  lemma SegmentReads(text: string, d: string, uri: string)
    requires Whole(text) && ',' !in d && '\n' !in d && '\n' !in uri && uri != "" && uri[0] != '#'
    ensures var text' := text + ("#EXTINF:" + d + ",\n") + (uri + "\n");
            var r := Read(text);
            Whole(text') && Read(text') == r.(segments := r.segments + [Segment(r.discontinuity, d, uri)],
                                              discontinuity := false, duration := None)
  {
    DurationReads(text, d);
    var timed := text + ("#EXTINF:" + d + ",\n");
    ReadLine(timed, uri);
    StepName(Read(timed), uri);
  }

  lemma DurationReads(text: string, d: string)
    requires Whole(text) && ',' !in d && '\n' !in d
    ensures var text' := text + ("#EXTINF:" + d + ",\n");
            Whole(text') && Read(text') == Read(text).(duration := Some(d))
  {
    NoFeed("#EXTINF:", d, ",");
    ReadLine(text, "#EXTINF:" + d + ",");
    StepDuration(Read(text), d);
    InfText(d);
  }

  lemma InfText(d: string)
    ensures "#EXTINF:" + d + "," + "\n" == "#EXTINF:" + d + ",\n"
  {
  }

  lemma Associate(text: string, marker: string, inf: string, name: string)
    ensures text + marker + inf + name == text + (marker + inf + name)
  {
  }

  /** The marker line, where there is one. */
  lemma MarkerReads(rec: Recording, text: string, i: nat) returns (marked: string)
    requires Whole(text) && !Read(text).discontinuity
    ensures marked == text + Marker(rec, i) && Whole(marked)
    ensures Read(marked) == Read(text).(discontinuity := i > 0 && 2.0 * Seconds(rec, i - 1) < Announced(rec) as real)
  {
    marked := text + Marker(rec, i);
    if Discontinuous(rec, i) {
      ReadLine(text, "#EXT-X-DISCONTINUITY");
      StepDiscontinuity(Read(text));
      assert "#EXT-X-DISCONTINUITY" + "\n" == "#EXT-X-DISCONTINUITY\n";
    } else {
      assert marked == text;
    }
  }

  lemma {:induction false} BodyReads(rec: Recording, head: string, n: nat)
    requires Whole(head) && BetweenSegments(Read(head)) && Read(head).segments == []
    ensures Whole(head + Body(rec, n)) && AllFit(rec, n, Read(head), Read(head + Body(rec, n)))
  {
    if n == 0 {
      assert head + Body(rec, 0) == head;
      NoneFits(rec, Read(head));
    } else {
      BodyReads(rec, head, n - 1);
      OneMoreReads(rec, Read(head), head + Body(rec, n - 1), n - 1);
      BodyStep(rec, n - 1, head);
    }
  }

  lemma NoneFits(rec: Recording, r: Reading)
    requires r.segments == []
    ensures AllFit(rec, 0, r, r)
  {
  }

  lemma OneMoreReads(rec: Recording, r: Reading, text: string, n: nat)
    requires Whole(text) && BetweenSegments(r) && AllFit(rec, n, r, Read(text))
    ensures Whole(text + Entry(rec, n)) && AllFit(rec, n + 1, r, Read(text + Entry(rec, n)))
  {
    EntryReads(rec, text, n);
    OneMoreFits(rec, n, r, Read(text), Read(text + Entry(rec, n)));
  }

  /** n segments, and nothing else. */
  ghost predicate AllFit(rec: Recording, n: nat, r: Reading, r': Reading) {
    && |r'.segments| == n && r' == r.(segments := r'.segments)
    && forall i: nat | i < n :: SegmentFits(rec, i, r'.segments[i])
  }

  lemma OneMoreFits(rec: Recording, n: nat, r: Reading, r': Reading, r'': Reading)
    requires AllFit(rec, n, r, r') && Adds(rec, n, r', r'')
    ensures AllFit(rec, n + 1, r, r'')
  {
    assert forall i: nat | i < n :: r''.segments[i] == r'.segments[i];
  }

  /** The tags of the header. */
  function Tags(target: nat): seq<string> {
    ["#EXTM3U", "#EXT-X-VERSION:3", "#EXT-X-TARGETDURATION:" + Digits(target), "#EXT-X-MEDIA-SEQUENCE:0"]
  }

  lemma TargetTag(target: nat)
    ensures IsTag("#EXT-X-TARGETDURATION:" + Digits(target))
  {
    DigitsAreDigits(Digits(target), '\n');
  }

  lemma FirstTags()
    ensures IsTag("#EXTM3U") && "#EXTM3U\n" == "#EXTM3U" + "\n"
    ensures IsTag("#EXT-X-VERSION:3") && "#EXT-X-VERSION:3\n" == "#EXT-X-VERSION:3" + "\n"
  {
  }

  lemma LastTag()
    ensures IsTag("#EXT-X-MEDIA-SEQUENCE:0") && "#EXT-X-MEDIA-SEQUENCE:0\n" == "#EXT-X-MEDIA-SEQUENCE:0" + "\n"
  {
  }

  lemma HeaderReads(target: nat)
    ensures Whole(Header(target)) && Read(Header(target)) == NOTHING.(tags := Tags(target))
  {
    FirstTags();
    TargetTag(target);
    LastTag();
    FourTags("#EXTM3U", "#EXTM3U\n", "#EXT-X-VERSION:3", "#EXT-X-VERSION:3\n",
             "#EXT-X-TARGETDURATION:" + Digits(target), "#EXT-X-TARGETDURATION:" + Digits(target) + "\n",
             "#EXT-X-MEDIA-SEQUENCE:0", "#EXT-X-MEDIA-SEQUENCE:0\n");
  }

  lemma FourTags(a: string, a': string, b: string, b': string, d: string, d': string, e: string, e': string)
    requires IsTag(a) && IsTag(b) && IsTag(d) && IsTag(e)
    requires a' == a + "\n" && b' == b + "\n" && d' == d + "\n" && e' == e + "\n"
    ensures Whole(a' + b' + d' + e') && Read(a' + b' + d' + e') == NOTHING.(tags := [a, b, d, e])
  {
    assert Split("", '\n') == [""];
    TwoTags("", a, a', b, b');
    assert "" + a' + b' == a' + b';
    TwoTags(a' + b', d, d', e, e');
  }

  lemma TwoTags(text: string, a: string, a': string, b: string, b': string)
    requires Whole(text) && IsTag(a) && IsTag(b) && a' == a + "\n" && b' == b + "\n"
    ensures Whole(text + a' + b') && Read(text + a' + b') == Read(text).(tags := Read(text).tags + [a, b])
  {
    ReadTag(text, a, a');
    ReadTag(text + a', b, b');
  }

  /** The target is the least whole number of seconds no chunk and not the announced length exceeds. */
  lemma TargetIsLeast(rec: Recording)
    ensures Announced(rec) <= Target(rec) && forall i: nat | i < rec.chunkCount :: Seconds(rec, i) <= Target(rec) as real
    ensures Target(rec) == Announced(rec) || exists i: nat | i < rec.chunkCount :: Seconds(rec, i) > (Target(rec) - 1) as real
  {
    var n, m := rec.chunkCount, MaxDur(rec, rec.chunkCount);
    assert forall i: nat :: Seconds(rec, i) == Dur(rec, i);
    if m == Announced(rec) as real {
      assert Target(rec) == Announced(rec);
    } else {
      var i :| 0 <= i < n && Dur(rec, i) == m;
      assert Seconds(rec, i) > (Target(rec) - 1) as real;
    }
  }

  lemma EndReads(text: string)
    requires Whole(text)
    ensures Read(text + "#EXT-X-ENDLIST\n") == Read(text).(ended := true)
  {
    ReadLine(text, "#EXT-X-ENDLIST");
    StepEnd(Read(text));
    assert "#EXT-X-ENDLIST" + "\n" == "#EXT-X-ENDLIST\n";
  }

  /**
   * A player that reads the playlist of a recording finds one segment for each counted chunk, in
   * order: it is requested under the number of its chunk, has the chunk's duration to the
   * nearest thousandth, and is marked as a discontinuity exactly after a chunk that was cut to
   * less than half the announced length. The playlist is ended exactly when the recording is.
   */
  lemma PlaylistReads(rec: Recording)
    ensures var r := Read(Playlist(rec));
            && |r.segments| == rec.chunkCount && (forall i: nat | i < rec.chunkCount :: SegmentFits(rec, i, r.segments[i]))
            && r.tags == Tags(Target(rec))
            && (r.ended <==> rec.status.StatusCompleted?)
  {
    var head := Header(Target(rec));
    HeaderReads(Target(rec));
    BodyReads(rec, head, rec.chunkCount);
    var text := head + Body(rec, rec.chunkCount);
    if rec.status.StatusCompleted? {
      EndReads(text);
    } else {
      assert Playlist(rec) == text;
    }
  }
}
