/**
 * The gatekeeper's list of client connections and its Stop (proxy/internal/session/gatekeeper.go).
 *
 * The class keeps the list as a Go slice, that is a length over a backing array that append
 * and removeConn write in place. The transition system below it interleaves the accept loop,
 * the connection handlers and Stop.
 */
module Gatekeepers {

  type Conn = nat

  /** The list without the first occurrence of a connection. */
  function RemoveFirst(s: seq<Conn>, c: Conn): (r: seq<Conn>)
    ensures c !in s ==> r == s
    ensures c in s ==> |r| == |s| - 1 && multiset(r) == multiset(s) - multiset{c}
  {
    if s == [] then []
    else if s[0] == c then
      assert s == [s[0]] + s[1..];
      s[1..]
    else
      assert s == [s[0]] + s[1..];
      [s[0]] + RemoveFirst(s[1..], c)
  }

  lemma WithoutHead(s: seq<Conn>, i: nat)
    requires 0 < i < |s|
    ensures s[..i] + s[i + 1..] == [s[0]] + (s[1..][..i - 1] + s[1..][i..])
  {
    assert s[1..][i..] == s[i + 1..];
  }

  lemma {:induction false} RemoveFirstAt(s: seq<Conn>, c: Conn, i: nat)
    requires i < |s| && s[i] == c && c !in s[..i]
    ensures RemoveFirst(s, c) == s[..i] + s[i + 1..]
  {
    if i > 0 {
      assert s[0] == s[..i][0];
      assert s[1..][..i - 1] == s[..i][1..];
      RemoveFirstAt(s[1..], c, i - 1);
      WithoutHead(s, i);
    }
  }

  class Gatekeeper {
    var closed: bool
    var backing: array<Conn>
    var length: nat
    ghost var handedOut: set<array<Conn>>   // backing arrays that Stop still walks over

    ghost predicate Valid()
      reads this
    {
      length <= backing.Length && backing !in handedOut
    }

    function Tracked(): seq<Conn>
      requires Valid()
      reads this, backing
    {
      backing[..length]
    }

    constructor ()
      ensures Valid() && Tracked() == [] && !closed && handedOut == {}
    {
      closed, backing, length, handedOut := false, new Conn[0], 0, {};
    }

    /** clientConns = append(clientConns, conn) */
    method Track(conn: Conn)
      requires Valid()
      modifies this`backing, this`length, backing
      ensures Valid() && Tracked() == old(Tracked()) + [conn]
      ensures forall a | a in handedOut :: a[..] == old(a[..])
      ensures backing == old(backing) || fresh(backing)
    {
      if length == backing.Length {
        var bigger := new Conn[2 * length + 1];
        forall i | 0 <= i < length {
          bigger[i] := backing[i];
        }
        assert bigger[..length] == backing[..length];
        backing := bigger;
      }
      backing[length] := conn;
      length := length + 1;
      assert Tracked() == backing[..length - 1] + [conn];
    }

    /** append(s[:i], s[i+1:]...): everything behind place i moves down one place. */
    method ShiftDown(i: nat)
      requires Valid() && i < length
      modifies this`length, backing
      ensures Valid() && Tracked() == old(Tracked()[..i] + Tracked()[i + 1..])
    {
      forall j | i <= j < length - 1 {
        backing[j] := backing[j + 1];
      }
      length := length - 1;
    }

    method RemoveConn(conn: Conn)
      requires Valid()
      modifies this`length, backing
      ensures Valid() && Tracked() == RemoveFirst(old(Tracked()), conn)
      ensures forall a | a in handedOut :: a[..] == old(a[..])
    {
      for i := 0 to length
        invariant conn !in backing[..i] && length == old(length) && backing[..] == old(backing[..])
      {
        if backing[i] == conn {
          assert Tracked()[..i] == backing[..i];
          RemoveFirstAt(Tracked(), conn, i);
          ShiftDown(i);
          return;
        }
      }
    }

    /** The critical section of Stop: it keeps the old slice and leaves an empty one behind. */
    method BeginStop() returns (conns: array<Conn>, n: nat)
      requires Valid()
      modifies this
      ensures Valid() && closed && Tracked() == [] && fresh(backing)
      ensures handedOut == old(handedOut) + {conns} && n <= conns.Length
      ensures conns[..n] == old(Tracked()) && conns[..] == old(backing[..]) && conns == old(backing)
    {
      closed := true;
      conns, n := backing, length;
      backing, length := new Conn[0], 0;
      handedOut := handedOut + {conns};
    }
  }

  // ---- Accept loop, handlers and Stop, interleaved ----

  /**
   * How far a connection has got. Its handler reads and checks the first packet and dials the
   * proxy (Reading), may then bridge, and at the end removes the connection, closes it and signs
   * off, in this order.
   */
  datatype Stage = Listed | Reading | Bridging | Removed | SelfClosed | Finished

  datatype StopStage =
    | NotStopped
    | Closing(conns: seq<Conn>, next: nat, counted: set<Conn>, known: set<Conn>)
    | Waiting(conns: seq<Conn>, counted: set<Conn>, known: set<Conn>)
    | Returned(conns: seq<Conn>, counted: set<Conn>, known: set<Conn>)

  /**
   * `known` in a stop stage records which connections had been accepted when Stop took the list,
   * and `counted` whose handlers had been counted; no step tests them.
   */
  datatype State = State(list: seq<Conn>, stages: map<Conn, Stage>, closed: set<Conn>, waitCount: int, stop: StopStage)

  datatype Action =
    | Accepted(c: Conn)      // append to the list
    | Count(c: Conn)         // activeConns.Add(1) and the start of the handler
    | Bridges(c: Conn)       // validated, and the proxy has the first packet
    | HandlerRemoves(c: Conn)
    | HandlerCloses(c: Conn)
    | HandlerSignsOff(c: Conn)
    | StopBegins
    | StopCloses
    | StopWaits
    | StopReturns

  const INIT := State([], map[], {}, 0, NotStopped)

  predicate At(s: State, c: Conn, st: Stage) {
    c in s.stages && s.stages[c] == st
  }

  predicate Enabled(s: State, a: Action) {
    match a
    case Accepted(c) => c !in s.stages
    case Count(c) => At(s, c, Listed)
    case Bridges(c) => At(s, c, Reading)
    case HandlerRemoves(c) => At(s, c, Reading) || At(s, c, Bridging)
    case HandlerCloses(c) => At(s, c, Removed)
    case HandlerSignsOff(c) => At(s, c, SelfClosed)
    case StopBegins => s.stop.NotStopped?
    case StopCloses => s.stop.Closing? && s.stop.next < |s.stop.conns|
    case StopWaits => s.stop.Closing? && s.stop.next == |s.stop.conns|
    case StopReturns => s.stop.Waiting? && s.waitCount == 0
  }

  function Move(s: State, c: Conn, st: Stage): State {
    s.(stages := s.stages[c := st])
  }

  function Apply(s: State, a: Action): State
    requires Enabled(s, a)
  {
    match a
    case Accepted(c) => Move(s, c, Listed).(list := s.list + [c])
    case Count(c) => Move(s, c, Reading).(waitCount := s.waitCount + 1)
    case Bridges(c) => Move(s, c, Bridging)
    case HandlerRemoves(c) => Move(s, c, Removed).(list := RemoveFirst(s.list, c))
    case HandlerCloses(c) => Move(s, c, SelfClosed).(closed := s.closed + {c})
    case HandlerSignsOff(c) => Move(s, c, Finished).(waitCount := s.waitCount - 1)
    case StopBegins => s.(stop := Closing(s.list, 0, Counted(s.stages), s.stages.Keys), list := [])
    case StopCloses => s.(closed := s.closed + {s.stop.conns[s.stop.next]}, stop := s.stop.(next := s.stop.next + 1))
    case StopWaits => s.(stop := Waiting(s.stop.conns, s.stop.counted, s.stop.known))
    case StopReturns => s.(stop := Returned(s.stop.conns, s.stop.counted, s.stop.known))
  }

  /** The connections whose handler has been counted, and those whose handler is still at work. */
  function Counted(stages: map<Conn, Stage>): set<Conn> {
    set c | c in stages && stages[c] != Listed
  }

  function Busy(stages: map<Conn, Stage>): set<Conn> {
    set c | c in stages && stages[c] != Listed && stages[c] != Finished
  }

  predicate AtWork(st: Stage) {
    st != Listed && st != Finished
  }

  lemma BusyMoves(stages: map<Conn, Stage>, c: Conn, st: Stage)
    ensures var before := c in stages && AtWork(stages[c]);
            |Busy(stages[c := st])| == |Busy(stages)| + (if AtWork(st) then 1 else 0) - (if before then 1 else 0)
  {
    assert Busy(stages[c := st]) == if AtWork(st) then Busy(stages) + {c} else Busy(stages) - {c};
    assert c in stages && AtWork(stages[c]) ==> Busy(stages) + {c} == Busy(stages);
  }

  /** Those whose handler has not taken them off the list yet. */
  predicate OnList(st: Stage) {
    st == Listed || st == Reading || st == Bridging
  }

  /** The list Stop took away, of which the first `ClosedBy` are closed. */
  function Taken(stop: StopStage): seq<Conn> {
    if stop.NotStopped? then [] else stop.conns
  }

  function ClosedBy(stop: StopStage): nat {
    match stop
    case NotStopped => 0
    case Closing(_, next, _, _) => next
    case Waiting(conns, _, _) => |conns|
    case Returned(conns, _, _) => |conns|
  }

  ghost predicate Inv(s: State) {
    && s.waitCount == |Busy(s.stages)|
    && (forall c | c in s.stages && OnList(s.stages[c]) :: c in s.list || c in Taken(s.stop))
    && (forall c | c in s.list :: c in s.stages && OnList(s.stages[c]))
    && (forall c | c in s.stages && (s.stages[c] == SelfClosed || s.stages[c] == Finished) :: c in s.closed)
    && ClosedBy(s.stop) <= |Taken(s.stop)|
    && (forall i | 0 <= i < ClosedBy(s.stop) :: Taken(s.stop)[i] in s.closed)
    && (!s.stop.NotStopped? ==> s.stop.counted <= Counted(s.stages))
    && (s.stop.Returned? ==> s.stop.counted !! Busy(s.stages))
    && (forall c :: multiset(s.list)[c] <= 1)
  }

  lemma RemovalIsExact(list: seq<Conn>, c: Conn)
    requires forall x :: multiset(list)[x] <= 1
    ensures forall x :: x in RemoveFirst(list, c) <==> x in list && x != c
    ensures forall x :: multiset(RemoveFirst(list, c))[x] <= 1
  {
    forall x ensures x in RemoveFirst(list, c) <==> x in list && x != c {
      assert x in RemoveFirst(list, c) <==> multiset(RemoveFirst(list, c))[x] > 0;
      assert x in list <==> multiset(list)[x] > 0;
    }
  }

  lemma AcceptedKeeps(s: State, c: Conn)
    requires Inv(s) && Enabled(s, Accepted(c))
    ensures Inv(Apply(s, Accepted(c)))
  {
    BusyMoves(s.stages, c, Listed);
  }

  lemma RemovalKeeps(s: State, c: Conn)
    requires Inv(s) && Enabled(s, HandlerRemoves(c))
    ensures Inv(Apply(s, HandlerRemoves(c)))
  {
    BusyMoves(s.stages, c, Removed);
    RemovalIsExact(s.list, c);
  }

  lemma CountKeeps(s: State, c: Conn)
    requires Inv(s) && Enabled(s, Count(c))
    ensures Inv(Apply(s, Count(c)))
  {
    BusyMoves(s.stages, c, Reading);
  }

  lemma BridgesKeeps(s: State, c: Conn)
    requires Inv(s) && Enabled(s, Bridges(c))
    ensures Inv(Apply(s, Bridges(c)))
  {
    BusyMoves(s.stages, c, Bridging);
  }

  lemma HandlerStepKeeps(s: State, a: Action)
    requires Inv(s) && Enabled(s, a) && (a.HandlerCloses? || a.HandlerSignsOff?)
    ensures Inv(Apply(s, a))
  {
    BusyMoves(s.stages, a.c, if a.HandlerCloses? then SelfClosed else Finished);
  }

  lemma StopStepKeeps(s: State, a: Action)
    requires Inv(s) && Enabled(s, a) && (a.StopBegins? || a.StopCloses? || a.StopWaits? || a.StopReturns?)
    ensures Inv(Apply(s, a))
  {
    if a.StopReturns? {
      assert Busy(s.stages) == {};
    }
  }

  lemma StepKeeps(s: State, a: Action)
    requires Inv(s) && Enabled(s, a)
    ensures Inv(Apply(s, a))
  {
    if a.Accepted? {
      AcceptedKeeps(s, a.c);
    } else if a.HandlerRemoves? {
      RemovalKeeps(s, a.c);
    } else if a.Count? {
      CountKeeps(s, a.c);
    } else if a.Bridges? {
      BridgesKeeps(s, a.c);
    } else if a.HandlerCloses? || a.HandlerSignsOff? {
      HandlerStepKeeps(s, a);
    } else {
      StopStepKeeps(s, a);
    }
  }

  ghost predicate RunFrom(s: State, actions: seq<Action>)
    decreases |actions|
  {
    actions == [] || (Enabled(s, actions[0]) && RunFrom(Apply(s, actions[0]), actions[1..]))
  }

  function After(s: State, actions: seq<Action>): State
    requires RunFrom(s, actions)
    decreases |actions|
  {
    if actions == [] then s else After(Apply(s, actions[0]), actions[1..])
  }

  lemma {:induction false} RunKeeps(s: State, actions: seq<Action>)
    requires RunFrom(s, actions) && Inv(s)
    ensures Inv(After(s, actions))
    decreases |actions|
  {
    if actions != [] {
      StepKeeps(s, actions[0]);
      RunKeeps(Apply(s, actions[0]), actions[1..]);
    }
  }

  // ---- Connections that Stop does not know ----

  predicate Late(s: State, c: Conn) {
    !s.stop.NotStopped? && c in s.stages && c !in s.stop.known
  }

  /** The list holds only late connections once Stop has taken it, and only a handler or Stop closes a connection. */
  ghost predicate LateInv(s: State) {
    && (!s.stop.NotStopped? ==> forall c | c in s.list :: Late(s, c))
    && (!s.stop.NotStopped? ==> (forall c | c in Taken(s.stop) :: c in s.stop.known) && s.stop.known <= s.stages.Keys)
    && (forall c | c in s.closed :: c in Taken(s.stop) || At(s, c, SelfClosed) || At(s, c, Finished))
  }

  lemma RemovedWereThere(list: seq<Conn>, c: Conn)
    ensures forall x | x in RemoveFirst(list, c) :: x in list
  {
    forall x | x in RemoveFirst(list, c) ensures x in list {
      assert multiset(RemoveFirst(list, c))[x] > 0;
    }
  }

  lemma LateStep(s: State, a: Action)
    requires Inv(s) && LateInv(s) && Enabled(s, a)
    ensures LateInv(Apply(s, a))
  {
    if a.HandlerRemoves? {
      LateRemoval(s, a.c);
    } else if a.StopBegins? || a.StopCloses? || a.StopWaits? || a.StopReturns? {
      LateStop(s, a);
    }
  }

  lemma LateRemoval(s: State, c: Conn)
    requires LateInv(s) && Enabled(s, HandlerRemoves(c))
    ensures LateInv(Apply(s, HandlerRemoves(c)))
  {
    RemovedWereThere(s.list, c);
  }

  lemma LateStop(s: State, a: Action)
    requires Inv(s) && LateInv(s) && Enabled(s, a) && (a.StopBegins? || a.StopCloses? || a.StopWaits? || a.StopReturns?)
    ensures LateInv(Apply(s, a))
  {
  }

  lemma {:induction false} RunKeepsLate(s: State, actions: seq<Action>)
    requires RunFrom(s, actions) && Inv(s) && LateInv(s)
    ensures Inv(After(s, actions)) && LateInv(After(s, actions))
    decreases |actions|
  {
    if actions != [] {
      StepKeeps(s, actions[0]);
      LateStep(s, actions[0]);
      RunKeepsLate(Apply(s, actions[0]), actions[1..]);
    }
  }

  /** The wait counter is always the number of handlers counted and not signed off. */
  lemma WaitCountIsBusyHandlers(run: seq<Action>)
    requires RunFrom(INIT, run)
    ensures After(INIT, run).waitCount == |Busy(After(INIT, run).stages)|
  {
    RunKeeps(INIT, run);
  }

  /**
   * When Stop returns, every connection on the list it took is closed, and the handler of
   * every connection counted before it took the list is done and has closed its connection.
   */
  lemma StopLeavesNoHandler(run: seq<Action>, c: Conn)
    requires RunFrom(INIT, run) && After(INIT, run).stop.Returned?
    ensures var s := After(INIT, run);
            && (c in s.stop.conns ==> c in s.closed)
            && (c in s.stop.counted ==> At(s, c, Finished) && c in s.closed)
  {
    RunKeeps(INIT, run);
    var s := After(INIT, run);
    if c in s.stop.conns {
      var i :| 0 <= i < |s.stop.conns| && s.stop.conns[i] == c;
      assert Taken(s.stop)[i] in s.closed;
    }
    if c in s.stop.counted {
      assert c in Counted(s.stages) && c !in Busy(s.stages);
    }
  }

  /** Once Stop has taken the list, a counted connection that it does not close closes itself. */
  lemma UnlistedHandlersAreLeaving(run: seq<Action>, c: Conn)
    requires RunFrom(INIT, run) && !After(INIT, run).stop.NotStopped?
    requires var s := After(INIT, run); c in s.stop.counted && c !in s.stop.conns && c !in s.list
    ensures var s := After(INIT, run); At(s, c, Removed) || At(s, c, SelfClosed) || At(s, c, Finished)
  {
    RunKeeps(INIT, run);
    assert c in Counted(After(INIT, run).stages);
  }

  // ---- What Stop can wait for ----

  /**
   * While Stop waits, the handlers at work whose connection is still open are exactly those of
   * connections accepted after Stop took the list, and those that took themselves off the list
   * before and are about to close.
   */
  lemma OpenWhileStopWaits(run: seq<Action>, c: Conn)
    requires RunFrom(INIT, run) && After(INIT, run).stop.Waiting?
    ensures var s := After(INIT, run);
            c in Busy(s.stages) && c !in s.closed <==>
              ((At(s, c, Reading) || At(s, c, Bridging)) && Late(s, c)) || (At(s, c, Removed) && c !in s.stop.conns)
  {
    RunKeepsLate(INIT, run);
    WaitingCloses(After(INIT, run), c);
  }

  lemma WaitingCloses(s: State, c: Conn)
    requires Inv(s) && LateInv(s) && s.stop.Waiting?
    ensures c in Busy(s.stages) && c !in s.closed <==>
              ((At(s, c, Reading) || At(s, c, Bridging)) && Late(s, c)) || (At(s, c, Removed) && c !in s.stop.conns)
  {
    if c in s.stop.conns {
      var i :| 0 <= i < |s.stop.conns| && s.stop.conns[i] == c;
      assert Taken(s.stop)[i] in s.closed;
    }
  }

  /**
   * A step the program takes by itself: nobody connects or gets through to the bridge. A handler
   * that reads comes back by itself, since reading and dialling have deadlines; one that bridges
   * comes back only when its connection is closed.
   */
  predicate Unprompted(s: State, a: Action) {
    Enabled(s, a) && !a.Accepted? && !a.Bridges? && (a.HandlerRemoves? ==> At(s, a.c, Reading) || a.c in s.closed)
  }

  ghost predicate UnpromptedRun(s: State, actions: seq<Action>)
    decreases |actions|
  {
    actions == [] || (Unprompted(s, actions[0]) && UnpromptedRun(Apply(s, actions[0]), actions[1..]))
  }

  lemma {:induction false} UnpromptedIsRun(s: State, actions: seq<Action>)
    requires UnpromptedRun(s, actions)
    ensures RunFrom(s, actions)
    decreases |actions|
  {
    if actions != [] {
      UnpromptedIsRun(Apply(s, actions[0]), actions[1..]);
    }
  }

  /** Stop comes back without anybody's help. */
  ghost predicate CanReturn(s: State) {
    exists actions :: ReturnsBy(s, actions)
  }

  ghost predicate ReturnsBy(s: State, actions: seq<Action>) {
    UnpromptedRun(s, actions) && (UnpromptedIsRun(s, actions); After(s, actions).stop.Returned?)
  }

  /** A connection accepted after Stop took the list is bridged, so its handler waits for its client. */
  ghost predicate HeldUp(s: State) {
    exists c :: At(s, c, Bridging) && Late(s, c)
  }

  lemma ReturnsAfter(s: State, a: Action, rest: seq<Action>)
    requires Unprompted(s, a) && ReturnsBy(Apply(s, a), rest)
    ensures ReturnsBy(s, [a] + rest)
  {
    assert ([a] + rest)[1..] == rest;
    UnpromptedIsRun(Apply(s, a), rest);
    UnpromptedIsRun(s, [a] + rest);
  }

  /** The next step of a handler at work. */
  function NextStep(s: State, c: Conn): Action
    requires c in s.stages
  {
    match s.stages[c] case Reading => HandlerRemoves(c) case Bridging => HandlerRemoves(c) case Removed => HandlerCloses(c) case _ => HandlerSignsOff(c)
  }

  lemma NextStepUnprompted(s: State, c: Conn)
    requires Inv(s) && LateInv(s) && s.stop.Waiting? && !HeldUp(s) && c in Busy(s.stages)
    ensures Unprompted(s, NextStep(s, c))
  {
    WaitingCloses(s, c);
  }

  lemma NextStepMoves(s: State, c: Conn)
    requires c in Busy(s.stages)
    ensures var s' := Apply(s, NextStep(s, c));
            && s'.stop == s.stop && ToDo(s'.stages, c) == ToDo(s.stages, c) - 1
            && forall x | x != c :: ToDo(s'.stages, x) == ToDo(s.stages, x)
  {
  }

  /** A handler that is not held up comes a step nearer to its end. */
  lemma HandlerGoesOn(s: State, c: Conn)
    requires Inv(s) && LateInv(s) && s.stop.Waiting? && !HeldUp(s) && c in Busy(s.stages)
    ensures Unprompted(s, NextStep(s, c))
    ensures var s' := Apply(s, NextStep(s, c)); Inv(s') && LateInv(s') && !HeldUp(s')
  {
    NextStepUnprompted(s, c);
    StepKeeps(s, NextStep(s, c));
    LateStep(s, NextStep(s, c));
    NobodyNewHeldUp(s, NextStep(s, c), c);
  }

  lemma NobodyNewHeldUp(s: State, a: Action, c: Conn)
    requires Enabled(s, a) && !HeldUp(s) && (a == HandlerRemoves(c) || a == HandlerCloses(c) || a == HandlerSignsOff(c))
    ensures !HeldUp(Apply(s, a))
  {
    var s' := Apply(s, a);
    forall x ensures !(At(s', x, Bridging) && Late(s', x)) {
      assert !(At(s, x, Bridging) && Late(s, x));
    }
  }

  /** How many steps the handler of a connection still has before it. */
  function ToDo(stages: map<Conn, Stage>, c: Conn): nat {
    if c !in stages then 0
    else match stages[c] case Reading => 3 case Bridging => 3 case Removed => 2 case SelfClosed => 1 case _ => 0
  }

  lemma BusyHaveToDo(stages: map<Conn, Stage>, stages': map<Conn, Stage>, c: Conn)
    requires c in Busy(stages) && forall x | x != c :: ToDo(stages', x) == ToDo(stages, x)
    ensures Busy(stages') <= Busy(stages)
  {
    forall x | x in Busy(stages') ensures x in Busy(stages) {
      assert ToDo(stages', x) > 0;
    }
  }

  /** With nobody held up, the handlers at work finish one after the other, and then Stop returns. */
  lemma {:induction false} Drains(s: State, busy: set<Conn>) returns (actions: seq<Action>)
    requires Inv(s) && LateInv(s) && s.stop.Waiting? && !HeldUp(s) && Busy(s.stages) <= busy
    ensures ReturnsBy(s, actions)
    decreases |busy|, 0, 0
  {
    if Busy(s.stages) == {} {
      UnpromptedIsRun(s, [StopReturns]);
      assert [StopReturns][1..] == [];
      actions := [StopReturns];
    } else {
      var c :| c in Busy(s.stages);
      actions := DrainsOne(s, busy, c);
    }
  }

  /** The same, beginning with the handler of c. */
  lemma {:induction false} DrainsOne(s: State, busy: set<Conn>, c: Conn) returns (actions: seq<Action>)
    requires Inv(s) && LateInv(s) && s.stop.Waiting? && !HeldUp(s) && Busy(s.stages) <= busy && c in busy
    ensures ReturnsBy(s, actions)
    decreases |busy| - 1, 1, ToDo(s.stages, c)
  {
    if c !in Busy(s.stages) {
      assert |busy - {c}| == |busy| - 1;
      actions := Drains(s, busy - {c});
    } else {
      HandlerGoesOn(s, c);
      NextStepMoves(s, c);
      BusyHaveToDo(s.stages, Apply(s, NextStep(s, c)).stages, c);
      var rest := DrainsOne(Apply(s, NextStep(s, c)), busy, c);
      ReturnsAfter(s, NextStep(s, c), rest);
      actions := [NextStep(s, c)] + rest;
    }
  }

  /** A late connection that its client keeps open stays that way, and Stop waits on. */
  lemma HeldUpStep(s: State, a: Action, c: Conn)
    requires Inv(s) && LateInv(s) && Unprompted(s, a) && s.stop.Waiting? && At(s, c, Bridging) && Late(s, c)
    ensures Apply(s, a).stop == s.stop && At(Apply(s, a), c, Bridging) && Late(Apply(s, a), c)
  {
    WaitingCloses(s, c);
    assert c in Busy(s.stages);
  }

  lemma {:induction false} HeldUpForGood(s: State, actions: seq<Action>, c: Conn)
    requires Inv(s) && LateInv(s) && UnpromptedRun(s, actions) && s.stop.Waiting? && At(s, c, Bridging) && Late(s, c)
    ensures !ReturnsBy(s, actions)
    decreases |actions|
  {
    UnpromptedIsRun(s, actions);
    if actions != [] {
      HeldUpStep(s, actions[0], c);
      StepKeeps(s, actions[0]);
      LateStep(s, actions[0]);
      HeldUpForGood(Apply(s, actions[0]), actions[1..], c);
    }
  }

  /**
   * Once Stop waits, the program can bring it back without a client's help if and only if no
   * connection accepted after Stop took the list has got through to the bridge.
   */
  lemma StopReturnsIffNobodyHeldUp(run: seq<Action>)
    requires RunFrom(INIT, run) && After(INIT, run).stop.Waiting?
    ensures CanReturn(After(INIT, run)) <==> !HeldUp(After(INIT, run))
  {
    RunKeepsLate(INIT, run);
    var s := After(INIT, run);
    if HeldUp(s) {
      var c :| At(s, c, Bridging) && Late(s, c);
      forall actions | UnpromptedRun(s, actions) ensures !ReturnsBy(s, actions) {
        HeldUpForGood(s, actions, c);
      }
    } else {
      var actions := Drains(s, Busy(s.stages));
    }
  }

  /**
   * Such a run: a connection that Accept returned before Stop is put on the list after it, and
   * its client gets through to the bridge. While the handler still read, Stop was not held up.
   */
  lemma LateConnectionHoldsStop(c: Conn)
    ensures var run := [StopBegins, StopWaits, Accepted(c), Count(c)];
            RunFrom(INIT, run) && After(INIT, run).stop.Waiting? && CanReturn(After(INIT, run))
    ensures var run := [StopBegins, StopWaits, Accepted(c), Count(c), Bridges(c)];
            RunFrom(INIT, run) && After(INIT, run).stop.Waiting? && HeldUp(After(INIT, run)) && !CanReturn(After(INIT, run))
  {
    LateRun(c);
    var s := After(INIT, [StopBegins, StopWaits, Accepted(c), Count(c)]);
    assert !HeldUp(s);
    StopReturnsIffNobodyHeldUp([StopBegins, StopWaits, Accepted(c), Count(c)]);
    assert At(Apply(s, Bridges(c)), c, Bridging) && Late(Apply(s, Bridges(c)), c);
    StopReturnsIffNobodyHeldUp([StopBegins, StopWaits, Accepted(c), Count(c), Bridges(c)]);
  }

  lemma {:induction false} RunSnoc(s: State, actions: seq<Action>, a: Action)
    requires RunFrom(s, actions) && Enabled(After(s, actions), a)
    ensures RunFrom(s, actions + [a]) && After(s, actions + [a]) == Apply(After(s, actions), a)
    decreases |actions|
  {
    if actions == [] {
      assert [a][1..] == [];
      assert actions + [a] == [a];
    } else {
      assert (actions + [a])[1..] == actions[1..] + [a];
      RunSnoc(Apply(s, actions[0]), actions[1..], a);
    }
  }

  lemma LateRun(c: Conn)
    ensures var run := [StopBegins, StopWaits, Accepted(c), Count(c)];
            RunFrom(INIT, run) && After(INIT, run) == State([c], map[c := Reading], {}, 1, Waiting([], {}, {}))
    ensures var run := [StopBegins, StopWaits, Accepted(c), Count(c), Bridges(c)];
            RunFrom(INIT, run) && After(INIT, run) == State([c], map[c := Bridging], {}, 1, Waiting([], {}, {}))
  {
    RunSnoc(INIT, [], StopBegins);
    assert [] + [StopBegins] == [StopBegins];
    RunSnoc(INIT, [StopBegins], StopWaits);
    assert [StopBegins] + [StopWaits] == [StopBegins, StopWaits];
    assert Counted(INIT.stages) == {} && INIT.stages.Keys == {};
    assert After(INIT, [StopBegins, StopWaits]) == State([], map[], {}, 0, Waiting([], {}, {}));
    LateRunEnds(c);
  }

  lemma LateRunEnds(c: Conn)
    requires RunFrom(INIT, [StopBegins, StopWaits])
    requires After(INIT, [StopBegins, StopWaits]) == State([], map[], {}, 0, Waiting([], {}, {}))
    ensures var run := [StopBegins, StopWaits, Accepted(c), Count(c)];
            RunFrom(INIT, run) && After(INIT, run) == State([c], map[c := Reading], {}, 1, Waiting([], {}, {}))
    ensures var run := [StopBegins, StopWaits, Accepted(c), Count(c), Bridges(c)];
            RunFrom(INIT, run) && After(INIT, run) == State([c], map[c := Bridging], {}, 1, Waiting([], {}, {}))
  {
    var run2 := [StopBegins, StopWaits];
    RunSnoc(INIT, run2, Accepted(c));
    RunSnoc(INIT, run2 + [Accepted(c)], Count(c));
    RunSnoc(INIT, run2 + [Accepted(c)] + [Count(c)], Bridges(c));
    assert run2 + [Accepted(c)] + [Count(c)] == [StopBegins, StopWaits, Accepted(c), Count(c)];
    assert run2 + [Accepted(c)] + [Count(c)] + [Bridges(c)] == [StopBegins, StopWaits, Accepted(c), Count(c), Bridges(c)];
  }
}
