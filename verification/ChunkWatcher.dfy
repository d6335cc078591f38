/**
 * Chunk numbering and reporting of the screen recorder (agent/internal/capture/screen.go).
 *
 * ffmpeg writes chunk_NNN.ts files with rising numbers and is restarted now and then; a
 * watcher lists the directory, compares file names, and reports finished chunks.
 * onChunk is the log `reported`.
 */
module ChunkWatcher {
  import opened Wrappers
  import opened Numbers

  // ---- File names ----

  function Name(n: nat): string {
    "chunk_" + Pad3(n) + ".ts"
  }

  /** The < of Go strings. */
  predicate Before(s: string, t: string) {
    t != [] && (s == [] || s[0] < t[0] || (s[0] == t[0] && Before(s[1..], t[1..])))
  }

  lemma {:induction false} BeforeTransitive(a: string, b: string, c: string)
    requires Before(a, b) && Before(b, c)
    ensures Before(a, c)
  {
    if a != [] && a[0] == b[0] == c[0] {
      BeforeTransitive(a[1..], b[1..], c[1..]);
    }
  }

  lemma {:induction false} BeforeUnder(p: string, s: string, t: string)
    ensures Before(p + s, p + t) <==> Before(s, t)
  {
    if p == [] {
      assert p + s == s && p + t == t;
    } else {
      assert (p + s)[1..] == p[1..] + s && (p + t)[1..] == p[1..] + t;
      BeforeUnder(p[1..], s, t);
    }
  }

  lemma {:induction false} BeforeOver(s: string, t: string, x: string, y: string)
    requires |s| == |t| && Before(s, t)
    ensures Before(s + x, t + y)
  {
    if s != [] {
      assert (s + x)[0] == s[0] && (t + y)[0] == t[0];
      assert (s + x)[1..] == s[1..] + x && (t + y)[1..] == t[1..] + y;
      if !(s[0] < t[0]) {
        BeforeOver(s[1..], t[1..], x, y);
      }
    }
  }

  /** Among digit strings of one length, the order of strings is the order of numbers. */
  lemma {:induction false} SameLengthOrder(s: string, t: string)
    requires |s| == |t| && AllDigits(s) && AllDigits(t)
    ensures Value(s) < Value(t) ==> Before(s, t)
    ensures Value(s) == Value(t) ==> s == t
  {
    if s != [] {
      var n := |s| - 1;
      SameLengthOrder(s[..n], t[..n]);
      assert s == s[..n] + [s[n]] && t == t[..n] + [t[n]];
      if Value(s[..n]) < Value(t[..n]) {
        BeforeOver(s[..n], t[..n], [s[n]], [t[n]]);
      } else if Value(s) < Value(t) {
        BeforeUnder(s[..n], [s[n]], [t[n]]);
      }
    }
  }

  lemma NameOrder(i: nat, j: nat)
    requires i < j < 1000
    ensures Before(Name(i), Name(j)) && !Before(Name(j), Name(i)) && Name(i) != Name(j)
  {
    ValuePad3(i);
    ValuePad3(j);
    SameLengthOrder(Pad3(i), Pad3(j));
    BeforeOver(Pad3(i), Pad3(j), ".ts", ".ts");
    BeforeUnder("chunk_", Pad3(i) + ".ts", Pad3(j) + ".ts");
    assert Name(i) == "chunk_" + (Pad3(i) + ".ts") && Name(j) == "chunk_" + (Pad3(j) + ".ts");
    if Before(Name(j), Name(i)) {
      BeforeTransitive(Name(i), Name(j), Name(i));
      Irreflexive(Name(i));
    }
    Irreflexive(Name(i));
  }

  lemma {:induction false} Irreflexive(s: string)
    ensures !Before(s, s)
  {
    if s != [] {
      Irreflexive(s[1..]);
    }
  }

  /** The name of chunk 1000 sorts before those of the hundred chunks it follows. */
  lemma ThousandSortsEarly(n: nat)
    requires 900 <= n < 1000
    ensures Before(Name(1000), Name(n)) && !Before(Name(n), Name(1000))
  {
    var a, b := Pad3(n), Pad3(1000);
    assert b == Digits(1000) && Digits(1000) == Digits(100) + ['0'] && Digits(100) == Digits(10) + ['0'] && Digits(10) == ['1', '0'];
    assert a == Digits(n) && Digits(n) == Digits(n / 10) + [DigitChar(n % 10)];
    assert Digits(n / 10) == Digits(n / 100) + [DigitChar(n / 10 % 10)] && n / 100 == 9;
    assert Name(1000) == "chunk_" + (b + ".ts") && Name(n) == "chunk_" + (a + ".ts");
    BeforeUnder("chunk_", b + ".ts", a + ".ts");
    BeforeUnder("chunk_", a + ".ts", b + ".ts");
  }

  /** Chunk names sort as their numbers exactly as long as there are at most 1000 of them. */
  lemma NamesSortNumerically(n: nat)
    ensures (forall i: nat, j: nat | i < j < n :: Before(Name(i), Name(j))) <==> n <= 1000
  {
    if n <= 1000 {
      forall i: nat, j: nat | i < j < n ensures Before(Name(i), Name(j)) {
        NameOrder(i, j);
      }
    } else {
      ThousandSortsEarly(999);
    }
  }

  // ---- Listing the directory ----

  function InsertByName(x: nat, l: seq<nat>): (r: seq<nat>)
    ensures |r| == |l| + 1
  {
    if l == [] || !Before(Name(x), Name(l[|l| - 1])) then l + [x]
    else InsertByName(x, l[..|l| - 1]) + [l[|l| - 1]]
  }

  /** sort.Strings on the names of the given chunks. */
  function SortByName(l: seq<nat>): (r: seq<nat>)
    ensures |r| == |l|
  {
    if l == [] then [] else InsertByName(l[|l| - 1], SortByName(l[..|l| - 1]))
  }

  lemma LastApart(l: seq<nat>)
    requires l != []
    ensures multiset(l) == multiset(l[..|l| - 1]) + multiset{l[|l| - 1]}
  {
    assert l == l[..|l| - 1] + [l[|l| - 1]];
  }

  lemma {:induction false} InsertPermutes(x: nat, l: seq<nat>)
    ensures multiset(InsertByName(x, l)) == multiset(l) + multiset{x}
  {
    if l != [] {
      InsertPermutes(x, l[..|l| - 1]);
      LastApart(l);
    }
  }

  /** The listing shows each file of the directory once. */
  lemma {:induction false} SortPermutes(l: seq<nat>)
    ensures multiset(SortByName(l)) == multiset(l)
  {
    if l != [] {
      var init, x := l[..|l| - 1], l[|l| - 1];
      SortPermutes(init);
      InsertPermutes(x, SortByName(init));
      LastApart(l);
      assert SortByName(l) == InsertByName(x, SortByName(init));
    }
  }

  /** lo, lo + 1, ..., hi - 1 */
  function Range(lo: nat, hi: nat): (r: seq<nat>)
    ensures |r| == (if lo <= hi then hi - lo else 0) && forall i | 0 <= i < |r| :: r[i] == lo + i
  {
    if hi <= lo then [] else Range(lo, hi - 1) + [hi - 1]
  }

  lemma {:induction false} RangeIsSorted(n: nat)
    requires n <= 1000
    ensures SortByName(Range(0, n)) == Range(0, n)
  {
    if n > 0 {
      RangeIsSorted(n - 1);
      assert Range(0, n)[..n - 1] == Range(0, n - 1);
      if n > 1 {
        NameOrder(n - 2, n - 1);
      }
    }
  }

  // ---- Reporting ----

  /** chunk > lastReported, where None stands for the empty string the watcher starts with. */
  predicate Follows(x: nat, last: Option<nat>) {
    last.None? || Before(Name(last.value), Name(x))
  }

  /** What the watcher remembers after the first k chunks have been reported. */
  function LastOf(k: nat): Option<nat> {
    if k == 0 then None else Some(k - 1)
  }

  lemma FollowsInRange(x: nat, k: nat)
    requires x < 1000 && k <= 1000
    ensures Follows(x, LastOf(k)) <==> k <= x
  {
    if 0 < k <= x {
      NameOrder(k - 1, x);
    } else if x + 1 < k {
      NameOrder(x, k - 1);
    } else if x + 1 == k {
      Irreflexive(Name(x));
    }
  }

  /** What a tick reports of the finished chunks it lists, given the last one reported. */
  function Reports(l: seq<nat>, last: Option<nat>): seq<nat> {
    if l == [] then []
    else if Follows(l[0], last) then [l[0]] + Reports(l[1..], Some(l[0]))
    else Reports(l[1..], last)
  }

  function LastAfter(l: seq<nat>, last: Option<nat>): Option<nat> {
    if l == [] then last
    else LastAfter(l[1..], if Follows(l[0], last) then Some(l[0]) else last)
  }

  /** What the final pass reports. */
  function Remaining(l: seq<nat>, last: Option<nat>): seq<nat> {
    if l == [] then []
    else if Follows(l[0], last) then [l[0]] + Remaining(l[1..], last)
    else Remaining(l[1..], last)
  }

  lemma RangeTail(lo: nat, hi: nat)
    requires lo < hi
    ensures Range(lo, hi)[0] == lo && Range(lo, hi)[1..] == Range(lo + 1, hi)
    ensures Range(lo, hi) == [lo] + Range(lo + 1, hi)
  {
  }

  lemma RangeSplit(k: nat, n: nat)
    requires k <= n
    ensures Range(0, k) + Range(k, n) == Range(0, n)
    ensures n > 0 ==> Range(0, n)[..n - 1] == Range(0, n - 1)
  {
  }

  lemma {:induction false} ReportsOfRange(lo: nat, k: nat, hi: nat)
    requires lo <= hi && k <= hi <= 1000
    ensures Reports(Range(lo, hi), LastOf(k)) == Range(if lo <= k then k else lo, hi)
    ensures LastAfter(Range(lo, hi), LastOf(k)) == LastOf(if lo < hi then hi else k)
    decreases hi - lo
  {
    if lo < hi {
      RangeTail(lo, hi);
      FollowsInRange(lo, k);
      if k <= lo {
        ReportsOfRange(lo + 1, lo + 1, hi);
      } else {
        ReportsOfRange(lo + 1, k, hi);
      }
    }
  }

  lemma {:induction false} RemainingOfRange(lo: nat, k: nat, hi: nat)
    requires lo <= hi && k <= hi <= 1000
    ensures Remaining(Range(lo, hi), LastOf(k)) == Range(if lo <= k then k else lo, hi)
    decreases hi - lo
  {
    if lo < hi {
      RangeTail(lo, hi);
      FollowsInRange(lo, k);
      RemainingOfRange(lo + 1, k, hi);
    }
  }

  lemma ReportsStep(done: seq<nat>, l: seq<nat>, last: Option<nat>)
    requires l != []
    ensures var follows := Follows(l[0], last);
            && done + Reports(l, last) == (if follows then done + [l[0]] else done) + Reports(l[1..], if follows then Some(l[0]) else last)
            && LastAfter(l, last) == LastAfter(l[1..], if follows then Some(l[0]) else last)
  {
    Regroup(done, l[0], Reports(l[1..], Some(l[0])));
  }

  lemma ReportsFrom(done: seq<nat>, l: seq<nat>, i: nat, last: Option<nat>)
    requires i < |l|
    ensures var follows := Follows(l[i], last);
            && done + Reports(l[i..], last) == (if follows then done + [l[i]] else done) + Reports(l[i + 1..], if follows then Some(l[i]) else last)
            && LastAfter(l[i..], last) == LastAfter(l[i + 1..], if follows then Some(l[i]) else last)
  {
    ReportsStep(done, l[i..], last);
    assert l[i..][1..] == l[i + 1..];
  }

  lemma RemainingStep(done: seq<nat>, l: seq<nat>, last: Option<nat>)
    requires l != []
    ensures done + Remaining(l, last) == (if Follows(l[0], last) then done + [l[0]] else done) + Remaining(l[1..], last)
  {
    Regroup(done, l[0], Remaining(l[1..], last));
  }

  lemma Regroup(a: seq<nat>, x: nat, b: seq<nat>)
    ensures a + ([x] + b) == (a + [x]) + b
  {
  }

  // ---- The recorder ----

  /**
   * `disk` is the chunks on disk as they were first opened; `opening` is the number ffmpeg opens
   * next, which truncates a file that is there already.
   */
  datatype State = State(disk: seq<nat>, opening: nat, nextChunk: nat, last: Option<nat>, reported: seq<nat>)

  /** `listOk`: the directory could be read. */
  datatype Action = NewSegment | RestartFFmpeg(listOk: bool) | Tick(listOk: bool)

  const INIT := State([], 0, 0, None, [])

  /** listChunks, which answers nil when the directory cannot be read. */
  function Listing(s: State, listOk: bool): seq<nat> {
    if listOk then SortByName(s.disk) else []
  }

  function AfterTick(s: State): State {
    var chunks := SortByName(s.disk);
    if |chunks| < 2 then s
    else
      var finished := chunks[..|chunks| - 1];
      s.(reported := s.reported + Reports(finished, s.last), last := LastAfter(finished, s.last))
  }

  function Apply(s: State, a: Action): State {
    match a
    case NewSegment => s.(disk := if s.opening in s.disk then s.disk else s.disk + [s.opening], opening := s.opening + 1)
    case RestartFFmpeg(listOk) => s.(nextChunk := |Listing(s, listOk)|, opening := |Listing(s, listOk)|)
    case Tick(listOk) => if listOk then AfterTick(s) else s
  }

  function After(s: State, actions: seq<Action>): State
    decreases |actions|
  {
    if actions == [] then s else After(Apply(s, actions[0]), actions[1..])
  }

  /** The watcher's last words, when its context is cancelled. */
  function FinalReport(s: State, listOk: bool): seq<nat> {
    s.reported + Remaining(Listing(s, listOk), s.last)
  }

  class ScreenRecorder {
    var disk: seq<nat>
    var opening: nat
    var nextChunk: nat
    var lastReported: Option<nat>
    var reported: seq<nat>

    function View(): State
      reads this
    {
      State(disk, opening, nextChunk, lastReported, reported)
    }

    constructor ()
      ensures View() == INIT
    {
      disk, opening, nextChunk, lastReported, reported := [], 0, 0, None, [];
    }

    method ListChunks(listOk: bool) returns (chunks: seq<nat>)
      ensures chunks == Listing(View(), listOk)
      ensures listOk ==> multiset(chunks) == multiset(disk)
    {
      if !listOk {
        return [];
      }
      SortPermutes(disk);
      return SortByName(disk);
    }

    /** The number a restart begins with is that of no file exactly when the listing worked or there is none. */
    method RestartFFmpeg(listOk: bool)
      modifies this`nextChunk, this`opening
      ensures Contiguous(old(View())) ==> (opening !in disk <==> listOk || disk == []) && Contiguous(View())
      ensures View() == Apply(old(View()), Action.RestartFFmpeg(listOk))
    {
      var chunks := ListChunks(listOk);
      if Contiguous(View()) {
        RestartFreeIff(View(), listOk);
      }
      nextChunk := |chunks|;
      opening := nextChunk;
    }

    /** The loop of a tick over the finished chunks. */
    method ReportFinished(finished: seq<nat>)
      modifies this`reported, this`lastReported
      ensures reported == old(reported) + Reports(finished, old(lastReported))
      ensures lastReported == LastAfter(finished, old(lastReported))
    {
      var i := 0;
      while i < |finished|
        invariant 0 <= i <= |finished|
        invariant reported + Reports(finished[i..], lastReported) == old(reported) + Reports(finished, old(lastReported))
        invariant LastAfter(finished[i..], lastReported) == LastAfter(finished, old(lastReported))
      {
        ReportsFrom(reported, finished, i, lastReported);
        if Follows(finished[i], lastReported) {
          reported := reported + [finished[i]];
          lastReported := Some(finished[i]);
        }
        i := i + 1;
      }
    }

    /** One tick of watchChunks. */
    method Tick(listOk: bool)
      modifies this
      ensures View() == Apply(old(View()), Action.Tick(listOk))
    {
      var chunks := ListChunks(listOk);
      if |chunks| < 2 {
        return;
      }
      ReportFinished(chunks[..|chunks| - 1]);
    }

    method ReportRemaining(chunks: seq<nat>)
      modifies this`reported
      ensures reported == old(reported) + Remaining(chunks, lastReported)
    {
      var i := 0;
      while i < |chunks|
        invariant 0 <= i <= |chunks|
        invariant reported + Remaining(chunks[i..], lastReported) == old(reported) + Remaining(chunks, lastReported)
      {
        RemainingStep(reported, chunks[i..], lastReported);
        assert chunks[i..][1..] == chunks[i + 1..];
        if Follows(chunks[i], lastReported) {
          reported := reported + [chunks[i]];
        }
        i := i + 1;
      }
    }

    method ReportRemainingChunks(listOk: bool)
      modifies this`reported
      ensures reported == FinalReport(old(View()), listOk)
    {
      var chunks := ListChunks(listOk);
      ReportRemaining(chunks);
    }
  }

  // ---- Every sequence of segments, restarts and ticks ----

  /** Files are numbered without gaps, and the next one is at most one further. */
  ghost predicate Contiguous(s: State) {
    s.disk == Range(0, |s.disk|) && s.opening <= |s.disk|
  }

  /** So the next number is free exactly when it is the count of files. */
  lemma FreeIffDue(s: State)
    requires Contiguous(s)
    ensures s.opening !in s.disk <==> s.opening == |s.disk|
  {
    if s.opening < |s.disk| {
      assert s.disk[s.opening] == s.opening;
    }
  }

  /** A restart begins with the number of no file exactly when its listing works or there is no file. */
  lemma RestartFreeIff(s: State, listOk: bool)
    requires Contiguous(s)
    ensures var s' := Apply(s, Action.RestartFFmpeg(listOk));
            Contiguous(s') && (s'.opening !in s'.disk <==> listOk || s.disk == [])
  {
    FreeIffDue(Apply(s, Action.RestartFFmpeg(listOk)));
  }

  lemma SegmentOpens(s: State)
    requires Contiguous(s)
    ensures var s' := Apply(s, NewSegment); Contiguous(s') && |s.disk| <= |s'.disk| && (s.opening == |s.disk| ==> s'.opening == |s'.disk|)
  {
    FreeIffDue(s);
  }

  lemma {:induction false} NumbersStayContiguous(s: State, actions: seq<Action>)
    requires Contiguous(s)
    ensures Contiguous(After(s, actions)) && |s.disk| <= |After(s, actions).disk|
    decreases |actions|
  {
    if actions != [] {
      SegmentOpens(s);
      NumbersStayContiguous(Apply(s, actions[0]), actions[1..]);
    }
  }

  /** Each restart that finds files can list them. */
  ghost predicate RestartsList(s: State, actions: seq<Action>)
    decreases |actions|
  {
    actions == [] ||
    ((actions[0].RestartFFmpeg? ==> actions[0].listOk || s.disk == []) && RestartsList(Apply(s, actions[0]), actions[1..]))
  }

  /** Then the number ffmpeg opens next is never that of a file. */
  lemma {:induction false} RestartsNeverCollide(s: State, actions: seq<Action>)
    requires Contiguous(s) && s.opening == |s.disk| && RestartsList(s, actions)
    ensures var s' := After(s, actions); Contiguous(s') && s'.opening == |s'.disk| && s'.opening !in s'.disk
    decreases |actions|
  {
    if actions == [] {
      FreeIffDue(s);
    } else {
      SegmentOpens(s);
      RestartsNeverCollide(Apply(s, actions[0]), actions[1..]);
    }
  }

  /** The first k chunks have been reported, never the newest one. */
  ghost predicate ReportedUpTo(s: State, k: nat) {
    && Contiguous(s)
    && k <= (if |s.disk| == 0 then 0 else |s.disk| - 1)
    && s.reported == Range(0, k) && s.last == LastOf(k)
  }

  lemma TickOfRange(k: nat, n: nat)
    requires k < n <= 1000
    ensures var finished := SortByName(Range(0, n))[..n - 1];
            Reports(finished, LastOf(k)) == Range(k, n - 1) && LastAfter(finished, LastOf(k)) == LastOf(if n > 1 then n - 1 else k)
  {
    FinishedOfRange(n);
    ReportsOfRange(0, k, n - 1);
  }

  lemma FinishedOfRange(n: nat)
    requires 0 < n <= 1000
    ensures SortByName(Range(0, n))[..n - 1] == Range(0, n - 1)
  {
    RangeIsSorted(n);
  }

  lemma TickReports(s: State, k: nat) returns (k': nat)
    requires ReportedUpTo(s, k) && |s.disk| <= 1000
    ensures ReportedUpTo(AfterTick(s), k') && k <= k' && (|s.disk| >= 2 ==> k' == |s.disk| - 1)
  {
    var n := |s.disk|;
    if n < 2 {
      k' := k;
      RangeIsSorted(n);
    } else {
      k' := n - 1;
      TickOfRange(k, n);
      RangeSplit(k, n - 1);
    }
  }

  lemma {:induction false} RunReports(s: State, k: nat, actions: seq<Action>) returns (k': nat)
    requires ReportedUpTo(s, k) && |After(s, actions).disk| <= 1000
    ensures ReportedUpTo(After(s, actions), k')
    decreases |actions|
  {
    if actions == [] {
      k' := k;
    } else {
      var s' := Apply(s, actions[0]);
      SegmentOpens(s);
      NumbersStayContiguous(s', actions[1..]);
      var k1 := k;
      if actions[0].Tick? && actions[0].listOk {
        k1 := TickReports(s, k);
      }
      k' := RunReports(s', k1, actions[1..]);
    }
  }

  /**
   * While there are at most 1000 chunks, the final pass completes the reports to every chunk
   * file exactly once in numeric order, and no tick before it ever reported the newest chunk.
   */
  lemma EveryChunkOnce(actions: seq<Action>)
    requires |After(INIT, actions).disk| <= 1000
    ensures var s := After(INIT, actions);
            && FinalReport(s, true) == Range(0, |s.disk|)
            && (s.disk != [] ==> |s.disk| - 1 !in s.reported)
  {
    var s := After(INIT, actions);
    var k := RunReports(INIT, 0, actions);
    var n := |s.disk|;
    RangeIsSorted(n);
    RemainingOfRange(0, k, n);
    RangeSplit(k, n);
  }

  // ---- Beyond 1000 chunks ----

  /** Each chunk of the list sorts after the one before it. */
  ghost predicate Rising(l: seq<nat>) {
    forall i, j | 0 <= i < j < |l| :: Before(Name(l[i]), Name(l[j]))
  }

  /** What has been reported rises, and ends with the chunk the watcher remembers. */
  ghost predicate ReportsRise(reported: seq<nat>, last: Option<nat>) {
    Rising(reported) && last == if reported == [] then None else Some(reported[|reported| - 1])
  }

  lemma RiseByOne(reported: seq<nat>, last: Option<nat>, x: nat)
    requires ReportsRise(reported, last) && Follows(x, last)
    ensures ReportsRise(reported + [x], Some(x))
  {
    forall i | 0 <= i < |reported| ensures Before(Name(reported[i]), Name(x)) {
      if i < |reported| - 1 {
        BeforeTransitive(Name(reported[i]), Name(reported[|reported| - 1]), Name(x));
      }
    }
  }

  lemma {:induction false} ReportsKeepRising(reported: seq<nat>, l: seq<nat>, last: Option<nat>)
    requires ReportsRise(reported, last)
    ensures ReportsRise(reported + Reports(l, last), LastAfter(l, last))
    decreases |l|
  {
    if l == [] {
      assert reported + [] == reported;
    } else {
      ReportsStep(reported, l, last);
      if Follows(l[0], last) {
        RiseByOne(reported, last, l[0]);
        ReportsKeepRising(reported + [l[0]], l[1..], Some(l[0]));
      } else {
        ReportsKeepRising(reported, l[1..], last);
      }
    }
  }

  lemma {:induction false} RunKeepsRising(s: State, actions: seq<Action>)
    requires ReportsRise(s.reported, s.last)
    ensures ReportsRise(After(s, actions).reported, After(s, actions).last)
    decreases |actions|
  {
    if actions != [] {
      if actions[0].Tick? && actions[0].listOk && |SortByName(s.disk)| >= 2 {
        ReportsKeepRising(s.reported, SortByName(s.disk)[..|SortByName(s.disk)| - 1], s.last);
      }
      RunKeepsRising(Apply(s, actions[0]), actions[1..]);
    }
  }

  /** No chunk of the list sorts before an earlier one. */
  ghost predicate Sorted(l: seq<nat>) {
    forall i, j | 0 <= i < j < |l| :: !Before(Name(l[j]), Name(l[i]))
  }

  lemma {:induction false} BeforeTotal(s: string, t: string)
    ensures Before(s, t) || Before(t, s) || s == t
  {
    if s != [] && t != [] && s[0] == t[0] {
      BeforeTotal(s[1..], t[1..]);
      assert s == [s[0]] + s[1..] && t == [t[0]] + t[1..];
    }
  }

  /** Not sorting before is a transitive relation as well. */
  lemma NotBeforeTransitive(a: string, b: string, c: string)
    requires !Before(b, a) && !Before(c, b)
    ensures !Before(c, a)
  {
    if Before(c, a) {
      BeforeTotal(b, c);
      if b != c {
        BeforeTransitive(b, c, a);
      }
    }
  }

  lemma SortedWithLast(l: seq<nat>, z: nat)
    requires Sorted(l) && forall y | y in l :: !Before(Name(z), Name(y))
    ensures Sorted(l + [z])
  {
  }

  lemma SortedWithFirst(x: nat, l: seq<nat>)
    requires Sorted(l) && forall y | y in l :: !Before(Name(y), Name(x))
    ensures Sorted([x] + l)
  {
  }

  lemma {:induction false} InsertedAreThere(x: nat, l: seq<nat>)
    ensures forall y | y in InsertByName(x, l) :: y == x || y in l
  {
    if l != [] {
      InsertedAreThere(x, l[..|l| - 1]);
    }
  }

  lemma {:induction false} InsertSorts(x: nat, l: seq<nat>)
    requires Sorted(l)
    ensures Sorted(InsertByName(x, l))
  {
    if l != [] {
      var init, z := l[..|l| - 1], l[|l| - 1];
      assert l == init + [z];
      if Before(Name(x), Name(z)) {
        InsertSorts(x, init);
        InsertedAreThere(x, init);
        InsertedBelow(x, init, z);
        SortedWithLast(InsertByName(x, init), z);
      } else {
        AboveAll(x, init, z);
        SortedWithLast(l, x);
      }
    }
  }

  lemma AboveAll(x: nat, init: seq<nat>, z: nat)
    requires Sorted(init + [z]) && !Before(Name(x), Name(z))
    ensures forall y | y in init + [z] :: !Before(Name(x), Name(y))
  {
    var l := init + [z];
    forall i | 0 <= i < |init| ensures !Before(Name(x), Name(init[i])) {
      assert l[i] == init[i] && l[|init|] == z;
      NotBeforeTransitive(Name(init[i]), Name(z), Name(x));
    }
  }

  lemma InsertedBelow(x: nat, init: seq<nat>, z: nat)
    requires Sorted(init + [z]) && Before(Name(x), Name(z))
    requires forall y | y in InsertByName(x, init) :: y == x || y in init
    ensures forall y | y in InsertByName(x, init) :: !Before(Name(z), Name(y))
  {
    forall y | y in InsertByName(x, init) ensures !Before(Name(z), Name(y)) {
      if y in init {
        var i :| 0 <= i < |init| && init[i] == y;
        assert (init + [z])[i] == y && (init + [z])[|init|] == z;
      } else if Before(Name(z), Name(x)) {
        BeforeTransitive(Name(x), Name(z), Name(x));
        Irreflexive(Name(x));
      }
    }
  }

  /** The listing is in the order of the names. */
  lemma {:induction false} SortSorts(l: seq<nat>)
    ensures Sorted(SortByName(l))
  {
    if l != [] {
      SortSorts(l[..|l| - 1]);
      InsertSorts(l[|l| - 1], SortByName(l[..|l| - 1]));
    }
  }

  /** The final pass reports exactly what follows the last chunk reported before. */
  lemma {:induction false} RemainingFollow(l: seq<nat>, last: Option<nat>)
    ensures forall x :: x in Remaining(l, last) <==> x in l && Follows(x, last)
  {
    if l != [] {
      RemainingFollow(l[1..], last);
      assert l == [l[0]] + l[1..];
    }
  }

  lemma {:induction false} RemainingSorted(l: seq<nat>, last: Option<nat>)
    requires Sorted(l)
    ensures Sorted(Remaining(l, last))
  {
    if l != [] {
      RemainingSorted(l[1..], last);
      RemainingFollow(l[1..], last);
      SortedWithFirst(l[0], Remaining(l[1..], last));
    }
  }

  lemma ReportsThenRest(reported: seq<nat>, rest: seq<nat>, last: Option<nat>)
    requires ReportsRise(reported, last) && Sorted(rest) && forall x | x in rest :: Follows(x, last)
    ensures Sorted(reported + rest)
  {
    forall i, x | 0 <= i < |reported| && x in rest ensures !Before(Name(x), Name(reported[i])) {
      RiseByOne(reported, last, x);
      assert (reported + [x])[i] == reported[i] && (reported + [x])[|reported|] == x;
      Asymmetric(Name(reported[i]), Name(x));
    }
    RisingIsSorted(reported);
  }

  lemma Asymmetric(s: string, t: string)
    requires Before(s, t)
    ensures !Before(t, s)
  {
    if Before(t, s) {
      BeforeTransitive(s, t, s);
      Irreflexive(s);
    }
  }

  lemma RisingIsSorted(l: seq<nat>)
    requires Rising(l)
    ensures Sorted(l)
  {
    forall i, j | 0 <= i < j < |l| ensures !Before(Name(l[j]), Name(l[i])) {
      Asymmetric(Name(l[i]), Name(l[j]));
    }
  }

  /** In any run chunks are reported in the order of their names. */
  lemma ReportsGoByName(actions: seq<Action>, listOk: bool)
    ensures Sorted(FinalReport(After(INIT, actions), listOk))
  {
    var s := After(INIT, actions);
    RunKeepsRising(INIT, actions);
    SortSorts(s.disk);
    RemainingSorted(Listing(s, listOk), s.last);
    RemainingFollow(Listing(s, listOk), s.last);
    ReportsThenRest(s.reported, Remaining(Listing(s, listOk), s.last), s.last);
  }

  lemma NumericOrderIsNotByName(n: nat)
    requires n > 1000
    ensures !Sorted(Range(0, n))
  {
    ThousandSortsEarly(999);
    assert Range(0, n)[999] == 999 && Range(0, n)[1000] == 1000;
  }

  /**
   * Over any run of segments, restarts and ticks, ticks and final pass together report every
   * chunk file exactly once in numeric order if and only if there are at most 1000 of them and
   * the final pass can list them, if there are any. Listings that failed before do no harm.
   */
  lemma EveryChunkOnceIffThousand(actions: seq<Action>, listOk: bool)
    ensures var s := After(INIT, actions);
            FinalReport(s, listOk) == Range(0, |s.disk|) <==> |s.disk| <= 1000 && (listOk || s.disk == [])
  {
    var s := After(INIT, actions);
    if |s.disk| > 1000 {
      ReportsGoByName(actions, listOk);
      NumericOrderIsNotByName(|s.disk|);
    } else {
      EveryChunkOnce(actions);
      if !listOk && s.disk != [] {
        assert FinalReport(s, false) == s.reported;
        assert Range(0, |s.disk|)[|s.disk| - 1] == |s.disk| - 1;
      }
    }
  }

  // ---- What is lost for good ----

  /** The watcher has gone past the name of chunk x. */
  predicate Passed(x: nat, last: Option<nat>) {
    last.Some? && !Before(Name(last.value), Name(x))
  }

  lemma {:induction false} PassedStays(l: seq<nat>, last: Option<nat>, x: nat)
    requires Passed(x, last)
    ensures Passed(x, LastAfter(l, last)) && x !in Reports(l, last)
  {
    if l != [] {
      if Follows(l[0], last) {
        PassedFurther(x, last.value, l[0]);
        PassedStays(l[1..], Some(l[0]), x);
      } else {
        PassedStays(l[1..], last, x);
      }
    }
  }

  lemma PassedFurther(x: nat, last: nat, y: nat)
    requires !Before(Name(last), Name(x)) && Before(Name(last), Name(y))
    ensures !Before(Name(y), Name(x)) && x != y
  {
    if Before(Name(y), Name(x)) {
      BeforeTransitive(Name(last), Name(y), Name(x));
    }
  }

  /** A chunk whose name the watcher has passed without reporting it is never reported, in any continuation of the run. */
  lemma {:induction false} PassedIsLost(s: State, actions: seq<Action>, x: nat)
    requires Passed(x, s.last) && x !in s.reported
    ensures forall listOk :: x !in FinalReport(After(s, actions), listOk)
    decreases |actions|
  {
    if actions == [] {
      RemainingFollow(SortByName(s.disk), s.last);
      assert Remaining([], s.last) == [];
    } else {
      if actions[0].Tick? && actions[0].listOk && |SortByName(s.disk)| >= 2 {
        PassedStays(SortByName(s.disk)[..|SortByName(s.disk)| - 1], s.last, x);
      }
      PassedIsLost(Apply(s, actions[0]), actions[1..], x);
    }
  }

  function Repeat(a: Action, n: nat): seq<Action> {
    if n == 0 then [] else [a] + Repeat(a, n - 1)
  }

  lemma {:induction false} SegmentsOpen(s: State, n: nat, later: seq<Action>)
    requires Contiguous(s) && s.opening == |s.disk|
    ensures After(s, Repeat(NewSegment, n) + later)
            == After(s.(disk := Range(0, |s.disk| + n), opening := |s.disk| + n), later)
    decreases n
  {
    if n == 0 {
      assert Repeat(NewSegment, n) + later == later;
    } else {
      var all := Repeat(NewSegment, n) + later;
      assert all[0] == NewSegment && all[1..] == Repeat(NewSegment, n - 1) + later;
      SegmentOpens(s);
      FreeIffDue(s);
      SegmentsOpen(Apply(s, NewSegment), n - 1, later);
    }
  }

  /** After a thousand segments a tick reports the first 999 chunks, and the next segment opens chunk 1000. */
  lemma ThousandOpen(later: seq<Action>) returns (s: State)
    ensures After(INIT, Repeat(NewSegment, 1000) + ([Tick(true), NewSegment] + later)) == After(s, later)
    ensures Contiguous(s) && s.opening == 1001 == |s.disk| && s.last == Some(998) && s.reported == Range(0, 999)
  {
    SegmentsOpen(INIT, 1000, [Tick(true), NewSegment] + later);
    var full := State(Range(0, 1000), 1000, 0, None, []);
    var k := TickReports(full, 0);
    var ticked := AfterTick(full);
    assert ([Tick(true), NewSegment] + later)[1..] == [NewSegment] + later && ([NewSegment] + later)[1..] == later;
    s := Apply(ticked, NewSegment);
    SegmentOpens(ticked);
    FreeIffDue(ticked);
  }

  /** One more segment after those: chunk 1000 is on disk, and whatever follows never reports it. */
  lemma ThousandthChunkIsLost(later: seq<Action>)
    ensures var s := After(INIT, Repeat(NewSegment, 1000) + ([Tick(true), NewSegment] + later));
            1000 in s.disk && forall listOk :: 1000 !in FinalReport(s, listOk)
  {
    var s := ThousandOpen(later);
    ThousandSortsEarly(998);
    PassedIsLost(s, later, 1000);
    NumbersStayContiguous(s, later);
    assert After(s, later).disk[1000] == 1000;
  }
}
