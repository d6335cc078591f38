/**
 * From the agent to the store: handleChunk (agent/internal/capture/recorder.go) starts a
 * goroutine for each reported chunk, and the store numbers uploads as they arrive. An upload
 * that fails, or finds the recording gone, is not tried again.
 */
module ChunkUploads {
  import CW = ChunkWatcher
  import RS = RecordingStore

  /** `out` is the uploads on their way, oldest first; `arrived` is what the store counted, in order. */
  datatype State = State(reported: seq<nat>, out: seq<nat>, arrived: seq<nat>)

  datatype Action = Report(n: nat) | Arrive(i: nat) | Lose(i: nat)

  const INIT := State([], [], [])

  predicate Enabled(s: State, a: Action) {
    match a
    case Report(n) => n !in s.reported
    case Arrive(i) => i < |s.out|
    case Lose(i) => i < |s.out|
  }

  function Without(l: seq<nat>, i: nat): seq<nat>
    requires i < |l|
  {
    l[..i] + l[i + 1..]
  }

  function Apply(s: State, a: Action): State
    requires Enabled(s, a)
  {
    match a
    case Report(n) => s.(reported := s.reported + [n], out := s.out + [n])
    case Arrive(i) => s.(out := Without(s.out, i), arrived := s.arrived + [s.out[i]])
    case Lose(i) => s.(out := Without(s.out, i))
  }

  ghost predicate RunFrom(s: State, actions: seq<Action>)
    decreases |actions|
  {
    actions == [] || (Enabled(s, actions[0]) && RunFrom(Apply(s, actions[0]), actions[1..]))
  }

  function After(s: State, actions: seq<Action>): State
    requires RunFrom(s, actions)
    decreases |actions|
  {
    if actions == [] then s else After(Apply(s, actions[0]), actions[1..])
  }

  /** No upload is lost, and none arrives before an older one. */
  predicate InTurn(actions: seq<Action>) {
    forall i | 0 <= i < |actions| :: !actions[i].Lose? && (actions[i].Arrive? ==> actions[i].i == 0)
  }

  ghost predicate Distinct(l: seq<nat>) {
    forall i, j | 0 <= i < j < |l| :: l[i] != l[j]
  }

  /** What arrived and what is on its way is what was reported, in order. */
  ghost predicate Straight(s: State) {
    s.arrived + s.out == s.reported
  }

  /** Some place of the recording holds another chunk than it should, or some chunk is lost. */
  ghost predicate Broken(s: State) {
    || (exists k :: 0 <= k < |s.arrived| && k < |s.reported| && s.arrived[k] != s.reported[k])
    || (exists x :: x in s.reported && x !in s.arrived && x !in s.out)
  }

  ghost predicate Bounded(s: State) {
    Distinct(s.reported) && |s.arrived| + |s.out| <= |s.reported|
  }

  lemma StepBounded(s: State, a: Action)
    requires Enabled(s, a) && Bounded(s)
    ensures Bounded(Apply(s, a))
  {
  }

  lemma TurnKeepsStraight(s: State, a: Action)
    requires Enabled(s, a) && Straight(s) && !a.Lose? && (a.Arrive? ==> a.i == 0)
    ensures Straight(Apply(s, a))
  {
    if a.Arrive? {
      assert s.out == [s.out[0]] + s.out[1..];
      assert (s.arrived + [s.out[0]]) + s.out[1..] == s.arrived + ([s.out[0]] + s.out[1..]);
    }
  }

  lemma OutOfTurnBreaks(s: State, a: Action)
    requires Enabled(s, a) && Straight(s) && Bounded(s) && (a.Lose? || (a.Arrive? && a.i > 0))
    ensures Broken(Apply(s, a))
  {
    var s', n := Apply(s, a), |s.arrived|;
    assert forall j | 0 <= j < |s.out| :: s.reported[n + j] == s.out[j];
    assert forall j | 0 <= j < n :: s.reported[j] == s.arrived[j];
    if a.Arrive? {
      assert s'.arrived[n] == s.out[a.i] != s.reported[n];
    } else {
      var x := s.out[a.i];
      assert x == s.reported[n + a.i] && x in s'.reported && x !in s'.arrived;
      assert x !in s'.out;
    }
  }

  lemma OutAfter(l: seq<nat>, i: nat, x: nat)
    requires i < |l| && x !in l
    ensures x !in Without(l, i)
  {
  }

  lemma StaysBroken(s: State, a: Action)
    requires Enabled(s, a) && Bounded(s) && Broken(s)
    ensures Broken(Apply(s, a))
  {
    var s' := Apply(s, a);
    if k :| 0 <= k < |s.arrived| && k < |s.reported| && s.arrived[k] != s.reported[k] {
      assert s'.arrived[k] == s.arrived[k] && s'.reported[k] == s.reported[k];
    } else {
      var x :| x in s.reported && x !in s.arrived && x !in s.out;
      if !a.Report? {
        OutAfter(s.out, a.i, x);
      }
      assert x in s'.reported && x !in s'.arrived && x !in s'.out;
    }
  }

  lemma {:induction false} BrokenForGood(s: State, actions: seq<Action>)
    requires RunFrom(s, actions) && Bounded(s) && Broken(s)
    ensures Broken(After(s, actions)) && After(s, actions).arrived != After(s, actions).reported
    decreases |actions|
  {
    if actions != [] {
      StepBounded(s, actions[0]);
      StaysBroken(s, actions[0]);
      BrokenForGood(Apply(s, actions[0]), actions[1..]);
    }
  }

  lemma {:induction false} OrderIff(s: State, actions: seq<Action>)
    requires RunFrom(s, actions) && Bounded(s) && Straight(s) && After(s, actions).out == []
    ensures After(s, actions).arrived == After(s, actions).reported <==> InTurn(actions)
    decreases |actions|
  {
    if actions != [] {
      var a, rest := actions[0], actions[1..];
      StepBounded(s, a);
      assert InTurn(actions) <==> !a.Lose? && (a.Arrive? ==> a.i == 0) && InTurn(rest) by {
        assert forall i | 0 <= i < |rest| :: rest[i] == actions[i + 1];
        assert actions == [a] + rest;
      }
      if !a.Lose? && (a.Arrive? ==> a.i == 0) {
        TurnKeepsStraight(s, a);
        OrderIff(Apply(s, a), rest);
      } else {
        OutOfTurnBreaks(s, a);
        BrokenForGood(Apply(s, a), rest);
      }
    }
  }

  /**
   * Once no upload is on its way, the store holds the reported chunks in the order they were
   * reported if and only if each upload arrived in its turn and none was lost.
   */
  lemma UploadsInOrderIff(run: seq<Action>)
    requires RunFrom(INIT, run) && After(INIT, run).out == []
    ensures After(INIT, run).arrived == After(INIT, run).reported <==> InTurn(run)
  {
    OrderIff(INIT, run);
  }

  /** The contents of the chunks of a list. */
  function Contents(chunks: seq<nat>, content: nat -> RS.Bytes): (parts: seq<RS.Bytes>)
    ensures |parts| == |chunks| && forall i | 0 <= i < |chunks| :: parts[i] == content(chunks[i])
  {
    seq(|chunks|, i requires 0 <= i < |chunks| => content(chunks[i]))
  }

  /**
   * The whole way of a recording whose watcher reported all of its at most 1000 chunks: what the
   * store keeps, and so the video Finalize makes of it, is the chunks in numeric order if every
   * upload arrived in its turn; and only then, when the chunks can be told apart.
   */
  lemma KeptInNumericOrderIff(actions: seq<CW.Action>, run: seq<Action>, content: nat -> RS.Bytes)
    requires RunFrom(INIT, run) && After(INIT, run).out == []
    requires After(INIT, run).reported == CW.FinalReport(CW.After(CW.INIT, actions), true)
    requires |CW.After(CW.INIT, actions).disk| <= 1000
    ensures var kept, chunks := Contents(After(INIT, run).arrived, content), Contents(CW.Range(0, |CW.After(CW.INIT, actions).disk|), content);
            && (InTurn(run) ==> kept == chunks && RS.Flatten(kept) == RS.Flatten(chunks))
            && ((forall i, j | i != j :: content(i) != content(j)) ==> (kept == chunks <==> InTurn(run)))
  {
    CW.EveryChunkOnce(actions);
    UploadsInOrderIff(run);
    var s, n := After(INIT, run), |CW.After(CW.INIT, actions).disk|;
    var kept, chunks := Contents(s.arrived, content), Contents(CW.Range(0, n), content);
    if kept == chunks && forall i, j | i != j :: content(i) != content(j) {
      SameContents(s.arrived, CW.Range(0, n), content);
    }
  }

  lemma SameContents(a: seq<nat>, b: seq<nat>, content: nat -> RS.Bytes)
    requires Contents(a, content) == Contents(b, content) && forall i, j | i != j :: content(i) != content(j)
    ensures a == b
  {
    assert |a| == |Contents(b, content)| == |b|;
    forall i | 0 <= i < |a| ensures a[i] == b[i] {
      assert content(a[i]) == Contents(a, content)[i] == content(b[i]);
    }
  }

  /** Such a run: the final pass reports two chunks at once, and the second upload is faster. */
  lemma FasterUploadGoesFirst()
    ensures var run := [Report(0), Report(1), Arrive(1), Arrive(0)];
            RunFrom(INIT, run) && After(INIT, run) == State([0, 1], [], [1, 0])
  {
    var s1, s2, s3 := State([0], [0], []), State([0, 1], [0, 1], []), State([0, 1], [0], [1]);
    var s4 := State([0, 1], [], [1, 0]);
    assert Apply(INIT, Report(0)) == s1 && Apply(s1, Report(1)) == s2 && Apply(s2, Arrive(1)) == s3 && Apply(s3, Arrive(0)) == s4;
    RunCons(s3, Arrive(0), []);
    RunCons(s2, Arrive(1), [Arrive(0)]);
    RunCons(s1, Report(1), [Arrive(1), Arrive(0)]);
    RunCons(INIT, Report(0), [Report(1), Arrive(1), Arrive(0)]);
  }

  lemma RunCons(s: State, a: Action, rest: seq<Action>)
    requires Enabled(s, a) && RunFrom(Apply(s, a), rest)
    ensures RunFrom(s, [a] + rest) && After(s, [a] + rest) == After(Apply(s, a), rest)
  {
    assert ([a] + rest)[1..] == rest;
  }
}
