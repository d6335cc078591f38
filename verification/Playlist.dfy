/**
 * Recording metadata and the HLS playlist printed from it
 * (proxy/internal/recording/models.go and GeneratePlaylist in store.go).
 * Durations are real numbers.
 */
module Playlists {
  import opened Wrappers
  import opened Text
  import opened Numbers

  datatype Status = StatusRecording | StatusCompleted | StatusFailed

  datatype Recording = Recording(
    id: string,
    status: Status,
    startedAt: int,
    endedAt: Option<int>,
    durationSecs: int,
    chunkSecs: int,
    chunkCount: nat,
    chunkDurations: seq<real>,
    totalBytes: nat,
    eventCount: nat)

  /** What AppendChunk makes of the metadata. */
  function WithChunk(rec: Recording, duration: real, size: nat): Recording {
    rec.(chunkCount := rec.chunkCount + 1, totalBytes := rec.totalBytes + size,
         chunkDurations := rec.chunkDurations + [duration])
  }

  /** What Finalize makes of the metadata. */
  function Finished(rec: Recording, now: int): Recording {
    rec.(status := StatusCompleted, endedAt := Some(now), durationSecs := now - rec.startedAt)
  }

  /** A finished recording ended when it was finished, and lasted from its start to then. */
  lemma FinishRecordsEnd(rec: Recording, now: int)
    ensures var done := Finished(rec, now);
            && done.status == StatusCompleted && done.endedAt == Some(now) && done.startedAt + done.durationSecs == now
            && done.(status := rec.status, endedAt := rec.endedAt, durationSecs := rec.durationSecs) == rec
  {
  }

  /** A counted chunk comes after those counted before, with its own size and duration. */
  lemma ChunkIsRecorded(rec: Recording, duration: real, size: nat)
    requires rec.chunkCount == |rec.chunkDurations|
    ensures var more := WithChunk(rec, duration, size);
            && more.chunkCount == |more.chunkDurations| && rec.chunkDurations <= more.chunkDurations
            && more.chunkDurations[rec.chunkCount..] == [duration] && more.totalBytes - size == rec.totalBytes
            && more.(chunkCount := rec.chunkCount, chunkDurations := rec.chunkDurations, totalBytes := rec.totalBytes) == rec
  {
  }

  function SegmentName(i: nat): string {
    Pad3(i) + ".ts"
  }

  /** The chunk length the agent reported, or 30 for recordings that have none. */
  function DefaultSecs(rec: Recording): (n: nat)
    ensures n > 0
  {
    if rec.chunkSecs <= 0 then 30 else rec.chunkSecs
  }

  /** The duration printed for chunk i: the probed one if there is one. */
  function Dur(rec: Recording, i: nat): (d: real)
    ensures d > 0.0
  {
    if i < |rec.chunkDurations| && rec.chunkDurations[i] > 0.0 then rec.chunkDurations[i] else DefaultSecs(rec) as real
  }

  function MaxDur(rec: Recording, n: nat): (m: real)
    ensures m >= DefaultSecs(rec) as real
    ensures forall i | 0 <= i < n :: Dur(rec, i) <= m
    ensures m == DefaultSecs(rec) as real || exists i | 0 <= i < n :: Dur(rec, i) == m
  {
    if n == 0 then DefaultSecs(rec) as real
    else
      var m := MaxDur(rec, n - 1);
      if Dur(rec, n - 1) > m then Dur(rec, n - 1) else m
  }

  function Target(rec: Recording): (t: nat)
    ensures t > 0
  {
    Ceil(MaxDur(rec, rec.chunkCount))
  }

  /** A chunk shorter than half the default marks a restart, and the next one a discontinuity. */
  predicate Discontinuous(rec: Recording, i: nat) {
    i > 0 && 2.0 * Dur(rec, i - 1) < DefaultSecs(rec) as real
  }

  function Marker(rec: Recording, i: nat): string {
    if Discontinuous(rec, i) then "#EXT-X-DISCONTINUITY\n" else ""
  }

  function InfLine(d: real): string
    requires d >= 0.0
  {
    "#EXTINF:" + Fixed3(d) + ",\n"
  }

  function NameLine(i: nat): string {
    "segments/" + SegmentName(i) + "\n"
  }

  function Entry(rec: Recording, i: nat): string {
    Marker(rec, i) + InfLine(Dur(rec, i)) + NameLine(i)
  }

  /** The texts f(0), ..., f(n - 1) one after the other. */
  function Cat(f: nat -> string, n: nat): string {
    if n == 0 then "" else Cat(f, n - 1) + f(n - 1)
  }

  /** The entries of the first n chunks. */
  function Body(rec: Recording, n: nat): string {
    Cat((i: nat) => Entry(rec, i), n)
  }

  function Header(target: nat): string {
    "#EXTM3U\n" + "#EXT-X-VERSION:3\n" + ("#EXT-X-TARGETDURATION:" + Digits(target) + "\n") + "#EXT-X-MEDIA-SEQUENCE:0\n"
  }

  function Playlist(rec: Recording): string {
    Header(Target(rec)) + Body(rec, rec.chunkCount) + (if rec.status.StatusCompleted? then "#EXT-X-ENDLIST\n" else "")
  }

  /** The first loop of GeneratePlaylist: the duration of each chunk, and their maximum. */
  method ResolveDurations(rec: Recording) returns (durations: array<real>, maxDur: real)
    ensures fresh(durations) && durations.Length == rec.chunkCount
    ensures forall i | 0 <= i < rec.chunkCount :: durations[i] == Dur(rec, i)
    ensures maxDur == MaxDur(rec, rec.chunkCount)
  {
    var defaultDur := (if rec.chunkSecs <= 0 then 30 else rec.chunkSecs) as real;
    maxDur := defaultDur;
    durations := new real[rec.chunkCount];
    for i := 0 to rec.chunkCount
      invariant forall j | 0 <= j < i :: durations[j] == Dur(rec, j)
      invariant maxDur == MaxDur(rec, i)
    {
      var dur := defaultDur;
      if i < |rec.chunkDurations| && rec.chunkDurations[i] > 0.0 {
        dur := rec.chunkDurations[i];
      }
      durations[i] := dur;
      if dur > maxDur {
        maxDur := dur;
      }
    }
  }

  method EntryText(rec: Recording, durations: array<real>, i: nat) returns (b: string)
    requires durations.Length == rec.chunkCount && i < rec.chunkCount
    requires forall j | 0 <= j < rec.chunkCount :: durations[j] == Dur(rec, j)
    ensures b == Entry(rec, i)
  {
    b := "";
    if i > 0 && durations[i - 1] > 0.0 && durations[i - 1] < DefaultSecs(rec) as real * 0.5 {
      b := "#EXT-X-DISCONTINUITY\n";
    }
    b := b + InfLine(durations[i]) + NameLine(i);
  }

  /** The second loop: the text. */
  method Generate(rec: Recording) returns (b: string)
    ensures b == Playlist(rec)
  {
    var durations, maxDur := ResolveDurations(rec);
    b := Header(Ceil(maxDur));
    ghost var header := b;
    for i := 0 to rec.chunkCount
      invariant b == header + Body(rec, i)
      invariant forall j | 0 <= j < rec.chunkCount :: durations[j] == Dur(rec, j)
    {
      var entry := EntryText(rec, durations, i);
      b := b + entry;
      BodyStep(rec, i, header);
    }
    if rec.status.StatusCompleted? {
      b := b + "#EXT-X-ENDLIST\n";
    }
  }

  lemma BodyStep(rec: Recording, i: nat, header: string)
    ensures header + Body(rec, i) + Entry(rec, i) == header + Body(rec, i + 1)
  {
    var f := (j: nat) => Entry(rec, j);
    assert Cat(f, i + 1) == Cat(f, i) + f(i);
  }

  // ---- Append-only (section 6.2.1 of RFC 8216) ----

  /** The entries depend only on the durations before them and on the default. */
  lemma BodyAgrees(a: Recording, b: Recording, n: nat)
    requires DefaultSecs(a) == DefaultSecs(b) && forall i | 0 <= i < n :: Dur(a, i) == Dur(b, i)
    ensures Body(a, n) == Body(b, n)
  {
    var f, g := (i: nat) => Entry(a, i), (i: nat) => Entry(b, i);
    forall i: nat | i < n ensures f(i) == g(i) {
      EntryAgrees(a, b, i);
    }
    CatAgrees(f, g, n);
  }

  lemma EntryAgrees(a: Recording, b: Recording, i: nat)
    requires DefaultSecs(a) == DefaultSecs(b) && Dur(a, i) == Dur(b, i) && (i > 0 ==> Dur(a, i - 1) == Dur(b, i - 1))
    ensures Entry(a, i) == Entry(b, i)
  {
    assert Marker(a, i) == Marker(b, i);
  }

  lemma {:induction false} CatAgrees(f: nat -> string, g: nat -> string, n: nat)
    requires forall i: nat | i < n :: f(i) == g(i)
    ensures Cat(f, n) == Cat(g, n)
  {
    if n > 0 {
      CatAgrees(f, g, n - 1);
    }
  }

  lemma {:induction false} CatGrows(f: nat -> string, m: nat, n: nat)
    requires m <= n
    ensures Cat(f, m) <= Cat(f, n)
  {
    if m < n {
      CatGrows(f, m, n - 1);
    }
  }

  lemma BodyGrows(rec: Recording, m: nat, n: nat)
    requires m <= n
    ensures Body(rec, m) <= Body(rec, n)
  {
    CatGrows((i: nat) => Entry(rec, i), m, n);
  }

  /**
   * The printed entries stay a literal prefix whatever duration the next chunk turns out to
   * have, exactly for the recordings that have a duration on file for each counted chunk.
   */
  lemma AppendOnly(rec: Recording, size: nat)
    ensures (forall d: real :: Body(rec, rec.chunkCount) <= Body(WithChunk(rec, d, size), rec.chunkCount + 1))
            <==> rec.chunkCount <= |rec.chunkDurations|
  {
    var n := rec.chunkCount;
    if n <= |rec.chunkDurations| {
      forall d: real ensures Body(rec, n) <= Body(WithChunk(rec, d, size), n + 1) {
        var rec' := WithChunk(rec, d, size);
        BodyAgrees(rec, rec', n);
        BodyGrows(rec', n, n + 1);
      }
    } else {
      LateDurationRewrites(rec, WithChunk(rec, (DefaultSecs(rec) + 1) as real, size), size);
    }
  }

  /** Where durations are missing, a new one lands on an entry that was already printed. */
  lemma LateDurationRewrites(rec: Recording, rec': Recording, size: nat)
    requires |rec.chunkDurations| < rec.chunkCount
    requires rec' == WithChunk(rec, (DefaultSecs(rec) + 1) as real, size)
    ensures !(Body(rec, rec.chunkCount) <= Body(rec', rec.chunkCount + 1))
  {
    var a, b := LateBodies(rec, rec', size);
  }

  lemma LateBodies(rec: Recording, rec': Recording, size: nat) returns (a: string, b: string)
    requires |rec.chunkDurations| < rec.chunkCount
    requires rec' == WithChunk(rec, (DefaultSecs(rec) + 1) as real, size)
    ensures a == Body(rec, rec.chunkCount) && b == Body(rec', rec.chunkCount + 1) && !(a <= b)
  {
    SameUpTo(rec, rec', |rec.chunkDurations|);
    a, b := CutBoth(rec, rec', |rec.chunkDurations|, DefaultSecs(rec), rec.chunkCount);
  }

  /** Two bodies that are the same up to the seconds of entry k, and not there. */
  lemma CutBoth(rec: Recording, rec': Recording, k: nat, secs: nat, n: nat) returns (a: string, b: string)
    requires k < n && Dur(rec, k) == secs as real && Dur(rec', k) == (secs + 1) as real && UpToSeconds(rec, k) == UpToSeconds(rec', k)
    ensures a == Body(rec, n) && b == Body(rec', n + 1) && !(a <= b)
  {
    var before, before', x, y;
    a, before, x := CutAt(rec, k, n, secs);
    b, before', y := CutAt(rec', k, n + 1, secs + 1);
    SecondsTell(before, secs, x, secs + 1, y, a, b);
  }

  lemma CutAt(rec: Recording, k: nat, n: nat, secs: nat) returns (body: string, before: string, rest: string)
    requires k < n && Dur(rec, k) == secs as real
    ensures body == Body(rec, n) && before == UpToSeconds(rec, k) && body == before + (Digits(secs) + ['.'] + rest)
  {
    body, before := Body(rec, n), UpToSeconds(rec, k);
    rest := EntryAt(rec, k, n, secs);
  }

  /** The body up to the seconds of entry k. */
  function UpToSeconds(rec: Recording, k: nat): string {
    Body(rec, k) + Marker(rec, k) + "#EXTINF:"
  }

  /** The two playlists are the same before the seconds of entry k. */
  lemma SameUpTo(rec: Recording, rec': Recording, k: nat)
    requires k == |rec.chunkDurations| && DefaultSecs(rec') == DefaultSecs(rec)
    requires rec'.chunkDurations == rec.chunkDurations + [(DefaultSecs(rec) + 1) as real]
    ensures UpToSeconds(rec, k) == UpToSeconds(rec', k)
    ensures Dur(rec, k) == DefaultSecs(rec) as real && Dur(rec', k) == (DefaultSecs(rec) + 1) as real
  {
    BodyAgrees(rec, rec', k);
    assert Marker(rec, k) == Marker(rec', k);
  }

  /** Texts that print different whole seconds at the same place cannot continue each other. */
  lemma SecondsTell(common: string, m: nat, x: string, n: nat, y: string, a: string, b: string)
    requires m != n && a == common + (Digits(m) + ['.'] + x) && b == common + (Digits(n) + ['.'] + y)
    ensures !(a <= b)
  {
    ValueDigits(m);
    ValueDigits(n);
    if a <= b {
      assert a[|common|..] == Digits(m) + ['.'] + x && b[|common|..] == Digits(n) + ['.'] + y;
      SameHead(Digits(m), x, Digits(n), y, '.');
    }
  }

  /** The k-th entry of a body, cut open after the whole seconds of its duration. */
  lemma EntryAt(rec: Recording, k: nat, n: nat, secs: nat) returns (rest: string)
    requires k < n && Dur(rec, k) == secs as real
    ensures Body(rec, n) == UpToSeconds(rec, k) + (Digits(secs) + ['.'] + rest)
  {
    BodyGrows(rec, k + 1, n);
    var tail := Body(rec, n)[|Body(rec, k + 1)|..];
    var fraction := Pad3(0) + ",\n";
    rest := fraction + NameLine(k) + tail;
    Fixed3OfWhole(secs);
    assert InfLine(Dur(rec, k)) == "#EXTINF:" + (Digits(secs) + ['.'] + fraction);
    CutOpen(Body(rec, k), Marker(rec, k), "#EXTINF:", Digits(secs) + ['.'], fraction, NameLine(k), tail);
  }

  lemma CutOpen(a: string, m: string, inf: string, d: string, f: string, name: string, tail: string)
    ensures a + (m + (inf + (d + f)) + name) + tail == a + m + inf + (d + (f + name + tail))
  {
  }

  /** Finishing a recording only adds the end marker. */
  lemma FinishOnlyEnds(rec: Recording, now: int)
    requires rec.status.StatusRecording?
    ensures Target(Finished(rec, now)) == Target(rec)
    ensures Playlist(Finished(rec, now)) == Playlist(rec) + "#EXT-X-ENDLIST\n"
  {
    var done := Finished(rec, now);
    MaxAgrees(rec, done, rec.chunkCount);
    BodyAgrees(rec, done, rec.chunkCount);
    assert Playlist(rec) == Header(Target(rec)) + Body(rec, rec.chunkCount);
  }

  lemma {:induction false} MaxAgrees(a: Recording, b: Recording, n: nat)
    requires DefaultSecs(a) == DefaultSecs(b) && forall i | 0 <= i < n :: Dur(a, i) == Dur(b, i)
    ensures MaxDur(a, n) == MaxDur(b, n)
  {
    if n > 0 {
      MaxAgrees(a, b, n - 1);
    }
  }

  // ---- What changes a playlist that has ended (section 6.2.1 of RFC 8216) ----

  /** What the calls of the store do to the metadata of a recording when they succeed. */
  datatype Change = ChunkCounted(duration: real, size: nat) | EventsCounted(n: nat) | MarkedCompleted(now: int)

  function Changed(rec: Recording, c: Change): Recording {
    match c
    case ChunkCounted(duration, size) => WithChunk(rec, duration, size)
    case EventsCounted(n) => rec.(eventCount := rec.eventCount + n)
    case MarkedCompleted(now) => Finished(rec, now)
  }

  function ChangedAll(rec: Recording, changes: seq<Change>): Recording
    decreases |changes|
  {
    if changes == [] then rec else ChangedAll(Changed(rec, changes[0]), changes[1..])
  }

  lemma {:induction false} DigitsGrow(m: nat, n: nat)
    requires m <= n
    ensures |Digits(m)| <= |Digits(n)|
  {
    if n >= 10 {
      DigitsGrow(m / 10, n / 10);
    }
  }

  /** A counted chunk makes every playlist longer. */
  lemma ChunkLengthens(rec: Recording, d: real, size: nat)
    requires rec.chunkCount <= |rec.chunkDurations|
    ensures |Playlist(WithChunk(rec, d, size))| > |Playlist(rec)|
  {
    var rec', n := WithChunk(rec, d, size), rec.chunkCount;
    TargetNeverShrinks(rec, d, size);
    DigitsGrow(Target(rec), Target(rec'));
    HeaderLength(Target(rec));
    HeaderLength(Target(rec'));
    BodyAgrees(rec, rec', n);
    BodyLengthens(rec', n);
  }

  lemma HeaderLength(target: nat)
    ensures |Header(target)| == |Header(0)| - 1 + |Digits(target)|
  {
  }

  lemma BodyLengthens(rec: Recording, n: nat)
    ensures |Body(rec, n + 1)| > |Body(rec, n)|
  {
    assert Body(rec, n + 1) == Body(rec, n) + Entry(rec, n);
    assert |NameLine(n)| > 0;
  }

  /** Nothing else that happens to a completed recording shows in its playlist. */
  lemma OtherChangesDoNotShow(rec: Recording, c: Change)
    requires rec.status.StatusCompleted? && !c.ChunkCounted?
    ensures Playlist(Changed(rec, c)) == Playlist(rec)
  {
    var rec' := Changed(rec, c);
    MaxAgrees(rec, rec', rec.chunkCount);
    BodyAgrees(rec, rec', rec.chunkCount);
  }

  lemma {:induction false} CompletedGrows(rec: Recording, changes: seq<Change>)
    requires rec.status.StatusCompleted? && rec.chunkCount <= |rec.chunkDurations|
    ensures |Playlist(ChangedAll(rec, changes))| >= |Playlist(rec)|
    ensures (exists i | 0 <= i < |changes| :: changes[i].ChunkCounted?) ==> |Playlist(ChangedAll(rec, changes))| > |Playlist(rec)|
    ensures (forall i | 0 <= i < |changes| :: !changes[i].ChunkCounted?) ==> Playlist(ChangedAll(rec, changes)) == Playlist(rec)
    decreases |changes|
  {
    if changes != [] {
      var c := changes[0];
      if c.ChunkCounted? {
        ChunkLengthens(rec, c.duration, c.size);
      } else {
        OtherChangesDoNotShow(rec, c);
      }
      CompletedGrows(Changed(rec, c), changes[1..]);
      assert forall i | 1 <= i < |changes| :: changes[i] == changes[1..][i - 1];
    }
  }

  /** The playlist of a completed recording stays what it is exactly as long as no chunk is counted. */
  lemma CompletedStaysIffNoChunk(rec: Recording, changes: seq<Change>)
    requires rec.status.StatusCompleted? && rec.chunkCount <= |rec.chunkDurations|
    ensures Playlist(ChangedAll(rec, changes)) == Playlist(rec) <==> forall i | 0 <= i < |changes| :: !changes[i].ChunkCounted?
  {
    CompletedGrows(rec, changes);
  }

  // ---- EXT-X-TARGETDURATION (section 4.3.3.1 of RFC 8216) ----

  /** Every EXTINF value, as printed and as rounded to whole seconds, is at most the target. */
  lemma DurationsWithinTarget(rec: Recording, i: nat)
    requires i < rec.chunkCount
    ensures Milli(Dur(rec, i)) <= 1000 * Target(rec)
    ensures Nearest(Dur(rec, i)) <= Target(rec)
  {
    var d, t := Dur(rec, i), Target(rec);
    assert d <= t as real;
    assert d * 1000.0 <= (1000 * t) as real;
    NearestBelow(d * 1000.0, 1000 * t);
    NearestBelow(d, t);
  }

  lemma NearestBelow(x: real, n: int)
    requires x <= n as real
    ensures Nearest(x) <= n
  {
  }

  /** The target never shrinks as chunks arrive, whatever is on file. */
  lemma TargetNeverShrinks(rec: Recording, d: real, size: nat)
    ensures Target(rec) <= Target(WithChunk(rec, d, size))
  {
    var rec' := WithChunk(rec, d, size);
    var n := rec.chunkCount;
    if MaxDur(rec, n) > DefaultSecs(rec) as real {
      var i :| 0 <= i < n && Dur(rec, i) == MaxDur(rec, n);
      assert Dur(rec', i) == Dur(rec, i);
    }
    assert MaxDur(rec, n) <= MaxDur(rec', n + 1);
  }

  // ---- Segment names ----

  /** hlsSegment: the chunk file a requested segment name is served from. */
  function ServedIndex(segment: string): Option<int> {
    Atoi(TrimSuffix(segment, ".ts"))
  }

  /** Any decimal number in front of the extension is read, padded or not. */
  lemma DigitsRead(digits: string)
    requires digits != "" && AllDigits(digits) && Value(digits) <= MAX_INT
    ensures ServedIndex(digits + ".ts") == Some(Value(digits))
  {
    var name := digits + ".ts";
    assert name[|name| - 3..] == ".ts" && name[..|name| - 3] == digits;
    assert IsDigit(digits[0]);
  }

  /** The name in the playlist leads back to the chunk, and so to the file AppendChunk wrote. */
  lemma SegmentNameReads(i: nat)
    requires i <= MAX_INT
    ensures ServedIndex(SegmentName(i)) == Some(i)
  {
    ValuePad3(i);
    DigitsRead(Pad3(i));
  }

  /** The name is the decimal number of the chunk, in three digits or as many as it takes, and the extension. */
  lemma SegmentNameShape(i: nat)
    ensures var name := SegmentName(i);
            && |name| >= 6 && name[|name| - 3..] == ".ts"
            && AllDigits(name[..|name| - 3]) && Value(name[..|name| - 3]) == i
            && (|name| > 6 ==> name[0] != '0')
  {
    PadsToThree(i);
    assert SegmentName(i)[..|SegmentName(i)| - 3] == Pad3(i);
  }

  lemma SegmentNamesDiffer(i: nat, j: nat)
    requires i != j
    ensures SegmentName(i) != SegmentName(j)
  {
    if SegmentName(i) == SegmentName(j) {
      assert SegmentName(i)[..|SegmentName(i)| - 3] == Pad3(i);
      assert SegmentName(j)[..|SegmentName(j)| - 3] == Pad3(j);
      Pad3Injective(i, j);
    }
  }
}
