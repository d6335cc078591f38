/**
 * The event buffer of the agent's recorder (agent/internal/capture/recorder.go).
 *
 * Handlers append events under the lock; a flusher takes the whole buffer under the lock,
 * sends it without the lock, and puts it back in front when the send fails. The broker may
 * answer at any time that the recording is gone.
 */
module EventBuffer {
  import opened Wrappers

  type Event = nat

  /** What the recorder's lock protects. */
  datatype Queue = Queue(buffer: seq<Event>, gone: bool)

  datatype SendResult = Sent | SendFailed | RecordingGone

  function Appended(q: Queue, e: Event): Queue {
    q.(buffer := q.buffer + [e])
  }

  predicate NothingToFlush(q: Queue) {
    q.gone || q.buffer == []
  }

  function PutBack(q: Queue, events: seq<Event>): Queue {
    q.(buffer := events + q.buffer)
  }

  const GONE := Queue([], true)

  class Recorder {
    var eventBuffer: seq<Event>
    var gone: bool

    function Locked(): Queue
      reads this
    {
      Queue(eventBuffer, gone)
    }

    constructor ()
      ensures Locked() == Queue([], false)
    {
      eventBuffer, gone := [], false;
    }

    /** Nothing buffered before is lost or overtaken. */
    method Handle(e: Event)
      modifies this
      ensures Locked() == Appended(old(Locked()), e)
      ensures old(eventBuffer) <= eventBuffer && multiset(eventBuffer) == multiset(old(eventBuffer)) + multiset{e}
    {
      eventBuffer := eventBuffer + [e];
    }

    method MarkGone()
      modifies this
      ensures Locked() == GONE
    {
      gone := true;
      eventBuffer := [];
    }

    /** The first critical section of flushEvents: every buffered event is in the batch or still in the buffer. */
    method TakeBatch() returns (batch: Option<seq<Event>>)
      modifies this
      ensures multiset(old(eventBuffer)) == multiset(eventBuffer) + (if batch.Some? then multiset(batch.value) else multiset{})
      ensures batch.Some? ==> batch.value != [] && !gone
      ensures batch == if NothingToFlush(old(Locked())) then None else Some(old(eventBuffer))
      ensures Locked() == if batch.Some? then Queue([], false) else old(Locked())
    {
      if gone || |eventBuffer| == 0 {
        return None;
      }
      var events := eventBuffer;
      eventBuffer := [];
      return Some(events);
    }

    /** What flushEvents does with the answer: unless the recording is gone, what was not sent is buffered. */
    method AfterSend(events: seq<Event>, answer: SendResult)
      modifies this
      ensures !gone ==> multiset(eventBuffer) == multiset(old(eventBuffer)) + (if answer.Sent? then multiset{} else multiset(events))
      ensures gone <==> old(gone) || answer.RecordingGone?
      ensures Locked() == match answer
                          case Sent => old(Locked())
                          case SendFailed => PutBack(old(Locked()), events)
                          case RecordingGone => GONE
    {
      match answer {
        case Sent =>
        case SendFailed => eventBuffer := events + eventBuffer;
        case RecordingGone => MarkGone();
      }
    }

    /** flushEvents with nobody else at work in between. */
    method FlushEvents(answer: SendResult) returns (delivered: seq<Event>)
      modifies this
      ensures !old(gone) ==> match answer
                             case Sent => delivered == old(eventBuffer) && Locked() == Queue([], false)
                             case SendFailed => delivered == [] && Locked() == old(Locked())
                             case RecordingGone => delivered == [] && (if old(eventBuffer) == [] then Locked() == old(Locked()) else Locked() == GONE)
      ensures old(gone) ==> delivered == [] && Locked() == old(Locked())
    {
      delivered := [];
      var batch := TakeBatch();
      if batch.Some? {
        AfterSend(batch.value, answer);
        if answer.Sent? {
          delivered := batch.value;
        }
      }
    }
  }

  // ---- All interleavings of handlers, flushers and chunk uploads ----

  /** `accepted` and `delivered` record what was appended and what a send confirmed, in order. */
  datatype State = State(q: Queue, flights: seq<seq<Event>>, accepted: seq<Event>, delivered: seq<Event>, sends: nat)

  datatype Action =
    | Handle(e: Event)
    | Take                          // a flusher takes the buffer and starts a send
    | Finish(i: nat, answer: SendResult)
    | UploadGone                    // a chunk upload learns that the recording is gone

  const INIT := State(Queue([], false), [], [], [], 0)

  predicate Enabled(s: State, a: Action) {
    match a
    case Take => !NothingToFlush(s.q)
    case Finish(i, _) => i < |s.flights|
    case _ => true
  }

  function Without<T>(s: seq<T>, i: nat): seq<T>
    requires i < |s|
  {
    s[..i] + s[i + 1..]
  }

  function Apply(s: State, a: Action): State
    requires Enabled(s, a)
  {
    match a
    case Handle(e) => s.(q := Appended(s.q, e), accepted := s.accepted + [e])
    case Take => s.(q := Queue([], false), flights := s.flights + [s.q.buffer], sends := s.sends + 1)
    case Finish(i, answer) =>
      var rest := s.(flights := Without(s.flights, i));
      (match answer
       case Sent => rest.(delivered := s.delivered + s.flights[i])
       case SendFailed => rest.(q := PutBack(s.q, s.flights[i]))
       case RecordingGone => rest.(q := GONE))
    case UploadGone => s.(q := GONE)
  }

  ghost predicate RunFrom(s: State, actions: seq<Action>)
    decreases |actions|
  {
    actions == [] || (Enabled(s, actions[0]) && RunFrom(Apply(s, actions[0]), actions[1..]))
  }

  function After(s: State, actions: seq<Action>): State
    requires RunFrom(s, actions)
    decreases |actions|
  {
    if actions == [] then s else After(Apply(s, actions[0]), actions[1..])
  }

  function Flying(flights: seq<seq<Event>>): multiset<Event> {
    if flights == [] then multiset{} else multiset(flights[0]) + Flying(flights[1..])
  }

  lemma {:induction false} FlyingWithout(flights: seq<seq<Event>>, i: nat)
    requires i < |flights|
    ensures Flying(flights) == Flying(Without(flights, i)) + multiset(flights[i])
  {
    if i > 0 {
      FlyingWithout(flights[1..], i - 1);
      assert Without(flights, i) == [flights[0]] + Without(flights[1..], i - 1);
    } else {
      assert Without(flights, i) == flights[1..];
    }
  }

  lemma {:induction false} FlyingAppend(flights: seq<seq<Event>>, batch: seq<Event>)
    ensures Flying(flights + [batch]) == Flying(flights) + multiset(batch)
  {
    if flights == [] {
      assert flights + [batch] == [batch];
    } else {
      assert (flights + [batch])[1..] == flights[1..] + [batch];
      FlyingAppend(flights[1..], batch);
    }
  }

  /** Delivered, in flight and buffered events are together the accepted ones. */
  ghost predicate Conserved(s: State) {
    multiset(s.delivered) + Flying(s.flights) + multiset(s.q.buffer) == multiset(s.accepted)
  }

  lemma FinishConserves(s: State, i: nat)
    requires i < |s.flights|
    ensures var rest := Flying(Without(s.flights, i));
            multiset(s.delivered) + Flying(s.flights) + multiset(s.q.buffer)
            == multiset(s.delivered + s.flights[i]) + rest + multiset(s.q.buffer)
            == multiset(s.delivered) + rest + multiset(s.flights[i] + s.q.buffer)
  {
    FlyingWithout(s.flights, i);
  }

  lemma ConservedStep(s: State, a: Action)
    requires Enabled(s, a) && (s.q.gone || Conserved(s))
    ensures Apply(s, a).q.gone || Conserved(Apply(s, a))
  {
    ToldDropsBuffer(s, a);
  }

  /** Until the broker says the recording is gone no accepted event is lost or duplicated, whoever flushes. */
  lemma {:induction false} EventsConserved(s: State, actions: seq<Action>)
    requires RunFrom(s, actions) && (s.q.gone || Conserved(s))
    ensures After(s, actions).q.gone || Conserved(After(s, actions))
    decreases |actions|
  {
    if actions != [] {
      ConservedStep(s, actions[0]);
      EventsConserved(Apply(s, actions[0]), actions[1..]);
    }
  }

  /** Gone is for good, and no send starts after it. */
  lemma {:induction false} GoneForGood(s: State, actions: seq<Action>)
    requires RunFrom(s, actions) && s.q.gone
    ensures After(s, actions).q.gone && After(s, actions).sends == s.sends
    ensures |After(s, actions).flights| <= |s.flights|
    decreases |actions|
  {
    if actions != [] {
      GoneForGood(Apply(s, actions[0]), actions[1..]);
    }
  }

  /** A send or an upload is told that the recording is gone. */
  predicate TellsGone(a: Action) {
    a.UploadGone? || (a.Finish? && a.answer.RecordingGone?)
  }

  /** The recorder takes the recording for gone exactly when it has been told so. */
  lemma {:induction false} GoneIffTold(s: State, actions: seq<Action>)
    requires RunFrom(s, actions)
    ensures After(s, actions).q.gone <==> s.q.gone || exists i | 0 <= i < |actions| :: TellsGone(actions[i])
    decreases |actions|
  {
    if actions != [] {
      GoneIffTold(Apply(s, actions[0]), actions[1..]);
      assert actions == [actions[0]] + actions[1..];
      assert TellsGone(actions[0]) <==> Apply(s, actions[0]).q.gone && (!s.q.gone || TellsGone(actions[0]));
    }
  }

  /** Being told so drops what is buffered, and the batch of the send that was told; nothing else is dropped. */
  lemma ToldDropsBuffer(s: State, a: Action)
    requires Enabled(s, a)
    ensures TellsGone(a) ==> Apply(s, a).q.buffer == [] && Apply(s, a).delivered == s.delivered
    ensures !TellsGone(a) && Conserved(s) ==> Conserved(Apply(s, a))
  {
    if !TellsGone(a) {
      match a {
        case Handle(e) =>
        case Take => FlyingAppend(s.flights, s.q.buffer);
        case Finish(i, answer) => FinishConserves(s, i);
        case UploadGone =>
      }
    }
  }

  // ---- Order ----

  /** The batches on their way, oldest first. */
  function Concat(flights: seq<seq<Event>>): seq<Event> {
    if flights == [] then [] else flights[0] + Concat(flights[1..])
  }

  /** Delivered, in flight and buffered events are the accepted ones in the order they were accepted. */
  ghost predicate InOrder(s: State) {
    s.delivered + Concat(s.flights) + s.q.buffer == s.accepted
  }

  ghost predicate Distinct(events: seq<Event>) {
    forall i, j | 0 <= i < j < |events| :: events[i] != events[j]
  }

  ghost predicate NoEmptyBatch(s: State) {
    forall i | 0 <= i < |s.flights| :: s.flights[i] != []
  }

  lemma {:induction false} ConcatJoin(a: seq<seq<Event>>, b: seq<seq<Event>>)
    ensures Concat(a + b) == Concat(a) + Concat(b)
  {
    if a == [] {
      assert a + b == b;
    } else {
      ConcatJoin(a[1..], b);
      assert (a + b)[1..] == a[1..] + b && (a + b)[0] == a[0];
      assert Concat(a + b) == a[0] + (Concat(a[1..]) + Concat(b));
    }
  }

  /** What is ahead of a batch and what is behind it, with the batch and without it. */
  lemma ConcatAround(flights: seq<seq<Event>>, i: nat) returns (ahead: seq<Event>, behind: seq<Event>)
    requires i < |flights|
    ensures Concat(flights) == ahead + flights[i] + behind && Concat(Without(flights, i)) == ahead + behind
    ensures i == 0 ==> ahead == []
    ensures i > 0 ==> flights[0] <= ahead
    ensures i == |flights| - 1 ==> behind == []
    ensures i < |flights| - 1 ==> flights[i + 1] <= behind
  {
    ahead, behind := Concat(flights[..i]), Concat(flights[i + 1..]);
    assert flights == flights[..i] + ([flights[i]] + flights[i + 1..]);
    ConcatJoin(flights[..i], [flights[i]] + flights[i + 1..]);
    ConcatJoin([flights[i]], flights[i + 1..]);
    assert Concat([flights[i]]) == flights[i];
    ConcatJoin(flights[..i], flights[i + 1..]);
  }

  /** Moving a batch in front of what is ahead of it changes a sequence of distinct events. */
  lemma Overtaking(before: seq<Event>, ahead: seq<Event>, batch: seq<Event>, after: seq<Event>)
    requires Distinct(before + ahead + batch + after) && ahead != [] && batch != []
    ensures before + batch + ahead + after != before + ahead + batch + after
  {
    var n, all := |before|, before + ahead + batch + after;
    assert all[n] == ahead[0] && all[n + |ahead|] == batch[0];
    assert (before + batch + ahead + after)[n] == batch[0];
  }

  /** A batch may be confirmed only when it is the oldest one out, and put back only when it is the newest. */
  predicate Respects(s: State, a: Action)
    requires Enabled(s, a)
  {
    a.Finish? ==> (a.answer.Sent? ==> a.i == 0) && (a.answer.SendFailed? ==> a.i == |s.flights| - 1)
  }

  lemma SentKeepsOrderIffOldest(s: State, i: nat)
    requires i < |s.flights| && InOrder(s) && NoEmptyBatch(s) && Distinct(s.accepted)
    ensures InOrder(Apply(s, Finish(i, Sent))) <==> i == 0
  {
    var ahead, behind := ConcatAround(s.flights, i);
    var d, f, b := s.delivered, s.flights[i], s.q.buffer;
    assert s.accepted == d + ahead + f + (behind + b);
    assert d + f + (ahead + behind) + b == d + f + ahead + (behind + b);
    if i > 0 {
      assert s.flights[0] != [];
      Overtaking(d, ahead, f, behind + b);
    }
  }

  lemma PutBackKeepsOrderIffNewest(s: State, i: nat)
    requires i < |s.flights| && InOrder(s) && NoEmptyBatch(s) && Distinct(s.accepted)
    ensures InOrder(Apply(s, Finish(i, SendFailed))) <==> i == |s.flights| - 1
  {
    var ahead, behind := ConcatAround(s.flights, i);
    var d, f, b := s.delivered, s.flights[i], s.q.buffer;
    assert s.accepted == (d + ahead) + f + behind + b;
    assert d + (ahead + behind) + (f + b) == (d + ahead) + behind + f + b;
    if i < |s.flights| - 1 {
      assert s.flights[i + 1] != [];
      Overtaking(d + ahead, f, behind, b);
    }
  }

  /** The pieces of the order before and after a batch is confirmed or put back. */
  lemma Regroup(d: seq<Event>, ahead: seq<Event>, f: seq<Event>, behind: seq<Event>, b: seq<Event>)
    ensures d + (ahead + f + behind) + b == d + ahead + f + behind + b
    ensures ahead == [] ==> d + f + (ahead + behind) + b == d + ahead + f + behind + b
    ensures behind == [] ==> d + (ahead + behind) + (f + b) == d + ahead + f + behind + b
  {
  }

  lemma FinishKeepsOrder(s: State, i: nat, answer: SendResult)
    requires Enabled(s, Finish(i, answer)) && InOrder(s) && Respects(s, Finish(i, answer))
    ensures Apply(s, Finish(i, answer)).q.gone || InOrder(Apply(s, Finish(i, answer)))
  {
    var ahead, behind := ConcatAround(s.flights, i);
    Regroup(s.delivered, ahead, s.flights[i], behind, s.q.buffer);
  }

  lemma Associates(a: seq<Event>, b: seq<Event>, c: seq<Event>)
    ensures a + (b + c) + [] == a + b + c
  {
  }

  lemma TakeKeepsOrder(s: State)
    requires Enabled(s, Take) && InOrder(s)
    ensures InOrder(Apply(s, Take))
  {
    ConcatJoin(s.flights, [s.q.buffer]);
    assert Concat([s.q.buffer]) == s.q.buffer;
    Associates(s.delivered, Concat(s.flights), s.q.buffer);
  }

  /** A step that respects the order of the batches keeps the order of the events, distinct or not. */
  lemma RespectKeepsOrder(s: State, a: Action)
    requires Enabled(s, a) && InOrder(s) && Respects(s, a)
    ensures Apply(s, a).q.gone || InOrder(Apply(s, a))
  {
    match a {
      case Handle(e) => assert s.delivered + Concat(s.flights) + (s.q.buffer + [e]) == s.accepted + [e];
      case Take => TakeKeepsOrder(s);
      case Finish(i, answer) => FinishKeepsOrder(s, i, answer);
      case UploadGone =>
    }
  }

  lemma BatchesStayFull(s: State, a: Action)
    requires Enabled(s, a) && NoEmptyBatch(s)
    ensures NoEmptyBatch(Apply(s, a))
  {
  }

  /** One step keeps the order exactly when it respects the order of the batches. */
  lemma StepKeepsOrderIff(s: State, a: Action)
    requires Enabled(s, a) && !s.q.gone && InOrder(s) && NoEmptyBatch(s) && Distinct(s.accepted)
    ensures Apply(s, a).q.gone || InOrder(Apply(s, a)) <==> Respects(s, a)
  {
    if Respects(s, a) {
      RespectKeepsOrder(s, a);
    } else if a.answer.Sent? {
      SentKeepsOrderIffOldest(s, a.i);
    } else {
      PutBackKeepsOrderIffNewest(s, a.i);
    }
  }

  /** In every state of the run, up to the moment the recording is gone. */
  ghost predicate AlwaysInOrder(s: State, actions: seq<Action>)
    requires RunFrom(s, actions)
    decreases |actions|
  {
    (s.q.gone || InOrder(s)) && (actions == [] || AlwaysInOrder(Apply(s, actions[0]), actions[1..]))
  }

  ghost predicate AlwaysRespects(s: State, actions: seq<Action>)
    requires RunFrom(s, actions)
    decreases |actions|
  {
    actions == [] || s.q.gone || (Respects(s, actions[0]) && AlwaysRespects(Apply(s, actions[0]), actions[1..]))
  }

  lemma {:induction false} NothingLeftToOrder(s: State, actions: seq<Action>)
    requires RunFrom(s, actions) && s.q.gone
    ensures AlwaysInOrder(s, actions)
    decreases |actions|
  {
    if actions != [] {
      NothingLeftToOrder(Apply(s, actions[0]), actions[1..]);
    }
  }

  lemma {:induction false} AcceptedGrows(s: State, actions: seq<Action>)
    requires RunFrom(s, actions)
    ensures s.accepted <= After(s, actions).accepted
    decreases |actions|
  {
    if actions != [] {
      AcceptedGrows(Apply(s, actions[0]), actions[1..]);
    }
  }

  /**
   * With any number of flushers, and events that can be told apart: the order of the events is
   * kept throughout a run if and only if each confirmed batch was the oldest one out and each
   * batch put back was the newest one out.
   */
  lemma {:induction false} OrderKeptIffBatchesRespected(s: State, actions: seq<Action>)
    requires RunFrom(s, actions) && (s.q.gone || InOrder(s)) && NoEmptyBatch(s) && Distinct(After(s, actions).accepted)
    ensures AlwaysInOrder(s, actions) <==> AlwaysRespects(s, actions)
    decreases |actions|
  {
    if s.q.gone {
      NothingLeftToOrder(s, actions);
    } else if actions != [] {
      var s' := Apply(s, actions[0]);
      AcceptedGrows(s, actions);
      StepKeepsOrderIff(s, actions[0]);
      BatchesStayFull(s, actions[0]);
      if Respects(s, actions[0]) {
        OrderKeptIffBatchesRespected(s', actions[1..]);
      }
    }
  }

  /** Nobody starts a send while another one is out. */
  ghost predicate OneAtATime(s: State, actions: seq<Action>)
    requires RunFrom(s, actions)
    decreases |actions|
  {
    actions == [] || ((actions[0].Take? ==> s.flights == []) && OneAtATime(Apply(s, actions[0]), actions[1..]))
  }

  /** With one send out at a time there is nothing to respect, and events are delivered in the order they were accepted. */
  lemma {:induction false} SingleFlusherKeepsOrder(s: State, actions: seq<Action>)
    requires RunFrom(s, actions) && OneAtATime(s, actions) && |s.flights| <= 1 && (s.q.gone || InOrder(s))
    ensures AlwaysInOrder(s, actions) && AlwaysRespects(s, actions)
    decreases |actions|
  {
    if s.q.gone {
      NothingLeftToOrder(s, actions);
    } else if actions != [] {
      RespectKeepsOrder(s, actions[0]);
      SingleFlusherKeepsOrder(Apply(s, actions[0]), actions[1..]);
    }
  }

  /**
   * The periodic flusher and the last flush of Stop can overlap; then a put-back after the
   * other's success delivers the later event first.
   */
  lemma OverlappingFlushersReorder()
    ensures var run := [Handle(1), Take, Handle(2), Take] + [Finish(1, Sent), Finish(0, SendFailed), Take, Finish(0, Sent)];
            RunFrom(INIT, run) && After(INIT, run).accepted == [1, 2] && After(INIT, run).delivered == [2, 1]
  {
    var overlapped := State(Queue([], false), [[1], [2]], [1, 2], [], 2);
    BothOut(overlapped);
    var s5 := Apply(overlapped, Finish(1, Sent));
    assert s5.flights == [[1]];
    var s6 := Apply(s5, Finish(0, SendFailed));
    assert s6 == State(Queue([1], false), [], [1, 2], [2], 2);
    var s7 := Apply(s6, Take);
    assert s7 == State(Queue([], false), [[1]], [1, 2], [2], 3);
    RunCons(s7, Finish(0, Sent), []);
    RunCons(s6, Take, [Finish(0, Sent)]);
    RunCons(s5, Finish(0, SendFailed), [Take, Finish(0, Sent)]);
    RunCons(overlapped, Finish(1, Sent), [Finish(0, SendFailed), Take, Finish(0, Sent)]);
    RunThen(INIT, [Handle(1), Take, Handle(2), Take], [Finish(1, Sent), Finish(0, SendFailed), Take, Finish(0, Sent)]);
  }

  lemma BothOut(s: State)
    requires s == State(Queue([], false), [[1], [2]], [1, 2], [], 2)
    ensures var run := [Handle(1), Take, Handle(2), Take]; RunFrom(INIT, run) && After(INIT, run) == s
  {
    var s1 := State(Queue([1], false), [], [1], [], 0);
    var s2 := State(Queue([], false), [[1]], [1], [], 1);
    var s3 := State(Queue([2], false), [[1]], [1, 2], [], 1);
    assert Apply(INIT, Handle(1)) == s1 && Apply(s1, Take) == s2 && Apply(s2, Handle(2)) == s3 && Apply(s3, Take) == s;
    RunCons(s3, Take, []);
    RunCons(s2, Handle(2), [Take]);
    RunCons(s1, Take, [Handle(2), Take]);
    RunCons(INIT, Handle(1), [Take, Handle(2), Take]);
  }

  lemma {:induction false} RunThen(s: State, first: seq<Action>, second: seq<Action>)
    requires RunFrom(s, first) && RunFrom(After(s, first), second)
    ensures RunFrom(s, first + second) && After(s, first + second) == After(After(s, first), second)
    decreases |first|
  {
    if first == [] {
      assert first + second == second;
    } else {
      RunThen(Apply(s, first[0]), first[1..], second);
      assert (first + second)[1..] == first[1..] + second;
    }
  }

  lemma RunCons(s: State, a: Action, rest: seq<Action>)
    requires Enabled(s, a) && RunFrom(Apply(s, a), rest)
    ensures RunFrom(s, [a] + rest) && After(s, [a] + rest) == After(Apply(s, a), rest)
  {
    assert ([a] + rest)[1..] == rest;
  }
}
