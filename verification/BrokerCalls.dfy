/**
 * Calls of the session manager from their first action to their last, with nobody else at work
 * in between, and the monitor that every live session has.
 */
module BrokerCalls {
  import opened Wrappers
  import opened PortPools
  import opened SessionTokens
  import opened Broker
  import opened BrokerInvariant

  // ---- TerminateSession as one function ----

  /** TerminateSession from its first critical section to its last. */
  function TeardownAlone(c: Config, s: State, g: Gid, id: Id): State
    requires id in s.objects
  {
    var closed := CloseChannel(Enter(s, g, id), g, id);
    Finish(ReleasePort(c, Move(closed, g, Stopped(id)), g, id), g, id)
  }

  /** From any state with the session registered, one call ends it, frees exactly its port and files it once. */
  lemma TeardownAloneEndsSession(c: Config, s: State, g: Gid, id: Id)
    requires Inv(c, s) && g in s.routines && s.routines[g] == Calling(id)
    requires id in s.active && !s.objects[id].phase.Terminating?
    ensures var o, s' := s.objects[id], TeardownAlone(c, s, g, id);
            && s'.objects == s.objects[id := ChannelClosed(Claimed(o, g)).(released := true, phase := Terminated)]
            && o.port in s.inUse && s'.inUse == s.inUse - {o.port}
            && s'.active == s.active - {id} && s'.history == s.history + [id]
            && s'.routines == s.routines[g := Done]
  {
    var o := s.objects[id];
    assert Sound(c, o, s.now);
    assert c.first <= o.port <= c.last;
    assert s.routines[g := Won(id)][g := Closed(id)][g := Stopped(id)][g := Released(id)][g := Done] == s.routines[g := Done];
  }

  // ---- Calls as sequences of actions ----

  /** The actions can be taken one after the other, and lead from s to s'. */
  ghost predicate Performs(c: Config, s: State, actions: seq<Action>, s': State)
    decreases |actions|
  {
    if actions == [] then s' == s
    else Enabled(c, s, actions[0]) && Performs(c, Apply(c, s, actions[0]), actions[1..], s')
  }

  lemma First(c: Config, s: State, a: Action, rest: seq<Action>, s': State)
    requires Enabled(c, s, a) && Performs(c, Apply(c, s, a), rest, s')
    ensures Performs(c, s, [a] + rest, s')
  {
    assert ([a] + rest)[1..] == rest;
  }

  lemma {:induction false} Joined(c: Config, s: State, xs: seq<Action>, m: State, ys: seq<Action>, s': State)
    requires Performs(c, s, xs, m) && Performs(c, m, ys, s')
    ensures Performs(c, s, xs + ys, s')
    decreases |xs|
  {
    if xs == [] {
      assert xs + ys == ys;
    } else {
      Joined(c, Apply(c, s, xs[0]), xs[1..], m, ys, s');
      First(c, s, xs[0], xs[1..] + ys, s');
      assert xs + ys == [xs[0]] + (xs[1..] + ys);
    }
  }

  /** Two actions, given what each does. */
  lemma Both(c: Config, s: State, a: Action, m: State, b: Action, s': State)
    requires Enabled(c, s, a) && Apply(c, s, a) == m && Enabled(c, m, b) && Apply(c, m, b) == s'
    ensures Performs(c, s, [a, b], s')
  {
    assert [a, b][1..] == [b] && [b][1..] == [];
  }

  // ---- TerminateSession ----

  function Teardown(g: Gid, id: Id): seq<Action> {
    [DoTerminate(g, id), DoEnter(g)] + ([DoCloseChannel(g), DoStopServices(g)] + [DoReleasePort(g), DoFinish(g)])
  }

  predicate At(s: State, g: Gid, r: Routine) {
    g in s.routines && s.routines[g] == r
  }

  lemma EnteringPerforms(c: Config, s: State, g: Gid, id: Id)
    requires Unborn(s, g)
    ensures Performs(c, s, [DoTerminate(g, id), DoEnter(g)], Enter(Move(s, g, Calling(id)), g, id))
  {
    Both(c, s, DoTerminate(g, id), Move(s, g, Calling(id)), DoEnter(g), Enter(Move(s, g, Calling(id)), g, id));
  }

  lemma StoppingPerforms(c: Config, s: State, g: Gid, id: Id)
    requires At(s, g, Won(id)) && id in s.objects
    ensures Performs(c, s, [DoCloseChannel(g), DoStopServices(g)], Move(CloseChannel(s, g, id), g, Stopped(id)))
  {
    Both(c, s, DoCloseChannel(g), CloseChannel(s, g, id), DoStopServices(g), Move(CloseChannel(s, g, id), g, Stopped(id)));
  }

  lemma FilingPerforms(c: Config, s: State, g: Gid, id: Id)
    requires At(s, g, Stopped(id)) && id in s.objects
    ensures Performs(c, s, [DoReleasePort(g), DoFinish(g)], Finish(ReleasePort(c, s, g, id), g, id))
  {
    Both(c, s, DoReleasePort(g), ReleasePort(c, s, g, id), DoFinish(g), Finish(ReleasePort(c, s, g, id), g, id));
  }

  lemma EnterWins(s: State, g: Gid, id: Id)
    requires id in s.active && id in s.objects && (s.objects[id].phase.Active? || s.objects[id].phase.Connected?)
    ensures At(Enter(s, g, id), g, Won(id)) && id in Enter(s, g, id).objects
  {
  }

  lemma TeardownPerforms(c: Config, s: State, g: Gid, id: Id)
    requires Unborn(s, g) && id in s.active && id in s.objects && (s.objects[id].phase.Active? || s.objects[id].phase.Connected?)
    ensures Performs(c, s, Teardown(g, id), TeardownAlone(c, Move(s, g, Calling(id)), g, id))
  {
    var calling := Move(s, g, Calling(id));
    EnteringPerforms(c, s, g, id);
    EnterWins(calling, g, id);
    var won := Enter(calling, g, id);
    StoppingPerforms(c, won, g, id);
    var stopped := Move(CloseChannel(won, g, id), g, Stopped(id));
    FilingPerforms(c, stopped, g, id);
    var s' := Finish(ReleasePort(c, stopped, g, id), g, id);
    Joined(c, won, [DoCloseChannel(g), DoStopServices(g)], stopped, [DoReleasePort(g), DoFinish(g)], s');
    Joined(c, s, [DoTerminate(g, id), DoEnter(g)], won, [DoCloseChannel(g), DoStopServices(g)] + [DoReleasePort(g), DoFinish(g)], s');
  }

  lemma TeardownKeepsRest(c: Config, s: State, g: Gid, id: Id)
    requires id in s.objects
    ensures var s' := TeardownAlone(c, s, g, id); s'.now == s.now && s'.shutdown == s.shutdown && s'.snapshot == s.snapshot
  {
  }

  lemma EndedOnce(c: Config, s: State, id: Id, g: Gid)
    requires Inv(c, s) && id in s.active && !s.objects[id].phase.Terminating?
    ensures id in s.objects && (s.objects[id].phase.Active? || s.objects[id].phase.Connected?)
    ensures ChannelClosed(Claimed(s.objects[id], g)).(released := true, phase := Terminated)
         == s.objects[id].(phase := Terminated, winner := Some(g), closes := 1, released := true)
  {
    assert Sound(c, s.objects[id], s.now);
  }

  /** The one session has ended and is filed, its port and no other is free, and nothing else has changed. */
  ghost predicate EndsOnly(s: State, s': State, g: Gid, id: Id)
    requires id in s.objects
  {
    var o := s.objects[id];
    && s'.objects == s.objects[id := o.(phase := Terminated, winner := Some(g), closes := 1, released := true)]
    && o.port in s.inUse && s'.inUse == s.inUse - {o.port}
    && s'.active == s.active - {id} && s'.history == s.history + [id]
    && s'.routines == s.routines[g := Done] && s'.now == s.now && s'.shutdown == s.shutdown && s'.snapshot == s.snapshot
  }

  lemma CallThenEnd(s: State, s': State, g: Gid, id: Id)
    requires id in s.objects && EndsOnly(Move(s, g, Calling(id)), s', g, id)
    ensures EndsOnly(s, s', g, id)
  {
    assert s.routines[g := Calling(id)][g := Done] == s.routines[g := Done];
  }

  lemma TeardownOf(c: Config, s: State, g: Gid, id: Id)
    requires Inv(c, s) && At(s, g, Calling(id)) && id in s.active && !s.objects[id].phase.Terminating?
    ensures EndsOnly(s, TeardownAlone(c, s, g, id), g, id)
  {
    EndedOnce(c, s, id, g);
    TeardownAloneEndsSession(c, s, g, id);
    TeardownKeepsRest(c, s, g, id);
  }

  /**
   * TerminateSession, called by anybody for a live session and left alone, ends that session,
   * gives back its port and no other, and files it once.
   */
  lemma TerminateCallEndsSession(c: Config, s: State, g: Gid, id: Id) returns (s': State)
    requires Inv(c, s) && Unborn(s, g) && id in s.active && !s.objects[id].phase.Terminating?
    ensures Performs(c, s, Teardown(g, id), s') && EndsOnly(s, s', g, id)
  {
    EndedOnce(c, s, id, g);
    TeardownPerforms(c, s, g, id);
    BirthKeeps(c, s, g, Calling(id));
    TeardownOf(c, Move(s, g, Calling(id)), g, id);
    s' := TeardownAlone(c, Move(s, g, Calling(id)), g, id);
    CallThenEnd(s, s', g, id);
  }

  // ---- CreateSession ----

  datatype Request = Request(id: Id, target: string, ip: string, value: string, ttl: int)

  function Made(c: Config, s: State, g: Gid, port: int, q: Request): State {
    NewSession(c, s, g, port, q.id, q.target, q.ip, q.value, q.ttl)
  }

  function MakeIt(g: Gid, q: Request): Action {
    DoNewSession(g, q.id, q.target, q.ip, q.value, q.ttl)
  }

  lemma AllocatingPerforms(c: Config, s: State, g: Gid, port: int)
    requires Unborn(s, g) && !s.shutdown && |s.active| < c.max && LowestFree(c.first, c.last, s.inUse) == Some(port)
    ensures Performs(c, s, [DoCreate(g), DoAllocate(g)], Allocate(c, Move(s, g, Checked), g))
    ensures At(Allocate(c, Move(s, g, Checked), g), g, Allocated(port))
  {
    Both(c, s, DoCreate(g), Move(s, g, Checked), DoAllocate(g), Allocate(c, Move(s, g, Checked), g));
  }

  lemma MakingPerforms(c: Config, s: State, g: Gid, port: int, q: Request)
    requires At(s, g, Allocated(port)) && q.id !in s.objects
    ensures Enabled(c, s, MakeIt(g, q)) && Apply(c, s, MakeIt(g, q)) == Made(c, s, g, port, q)
    ensures At(Made(c, s, g, port, q), g, Building(q.id, NeedConfig)) && q.id in Made(c, s, g, port, q).objects
  {
  }

  lemma AdvancePerforms(c: Config, s: State, g: Gid, id: Id)
    requires At(s, g, Building(id, NeedConfig)) && id in s.objects
    ensures Performs(c, s, [DoAdvance(g)], Move(s, g, Building(id, NeedProxy)))
    ensures Performs(c, s, [DoAdvance(g), DoAdvance(g)], Move(s, g, Building(id, NeedReady)))
  {
    var s' := Move(s, g, Building(id, NeedProxy));
    First(c, s, DoAdvance(g), [], s');
    assert s.routines[g := Building(id, NeedProxy)][g := Building(id, NeedReady)] == s.routines[g := Building(id, NeedReady)];
    Both(c, s, DoAdvance(g), s', DoAdvance(g), Move(s, g, Building(id, NeedReady)));
  }

  lemma ServingPerforms(c: Config, s: State, g: Gid, id: Id)
    requires At(s, g, Building(id, NeedReady)) && id in s.objects
    ensures var served := Advance(s, g, id, NeedReady);
            id in served.objects && At(served, g, Serving(id)) && Performs(c, s, [DoAdvance(g), DoRegister(g)], Register(served, g, id))
  {
    var served := Advance(s, g, id, NeedReady);
    Both(c, s, DoAdvance(g), served, DoRegister(g), Register(served, g, id));
  }

  lemma WatchingPerforms(c: Config, s: State, g: Gid, id: Id)
    requires At(s, g, Registered(id))
    ensures Performs(c, s, [DoStartMonitor(g)], Move(s, g, Watching(id)))
  {
    First(c, s, DoStartMonitor(g), [], Move(s, g, Watching(id)));
  }

  /** Config, proxy, readiness, registration and monitor, for a session object that has just been made. */
  function Completion(g: Gid): seq<Action> {
    [DoAdvance(g), DoAdvance(g)] + ([DoAdvance(g), DoRegister(g)] + [DoStartMonitor(g)])
  }

  function Completed(s: State, g: Gid, id: Id): State
    requires id in s.objects
  {
    Move(Register(Advance(Move(s, g, Building(id, NeedReady)), g, id, NeedReady), g, id), g, Watching(id))
  }

  lemma CompletionPerforms(c: Config, s: State, g: Gid, id: Id)
    requires At(s, g, Building(id, NeedConfig)) && id in s.objects
    ensures Performs(c, s, Completion(g), Completed(s, g, id))
  {
    var ready := Move(s, g, Building(id, NeedReady));
    AdvancePerforms(c, s, g, id);
    ServingPerforms(c, ready, g, id);
    var registered := Register(Advance(ready, g, id, NeedReady), g, id);
    WatchingPerforms(c, registered, g, id);
    Joined(c, ready, [DoAdvance(g), DoRegister(g)], registered, [DoStartMonitor(g)], Completed(s, g, id));
    Joined(c, s, [DoAdvance(g), DoAdvance(g)], ready, [DoAdvance(g), DoRegister(g)] + [DoStartMonitor(g)], Completed(s, g, id));
  }

  function Creation(g: Gid, q: Request): seq<Action> {
    [DoCreate(g), DoAllocate(g)] + ([MakeIt(g, q)] + Completion(g))
  }

  /** The new session is Active, as requested, on the port, and watched; nothing else has changed. */
  ghost predicate AddsOnly(c: Config, s: State, s': State, g: Gid, port: int, q: Request) {
    && s'.objects == s.objects[q.id := Session(q.target, q.ip, port, port + c.offset, TokenState(q.value, s.now + q.ttl, false),
                                               Active, None, true, 0, g, None, false, [])]
    && s'.inUse == s.inUse + {port} && s'.active == s.active + {q.id} && s'.history == s.history
    && s'.routines == s.routines[g := Watching(q.id)] && s'.now == s.now && s'.shutdown == s.shutdown && s'.snapshot == s.snapshot
  }

  lemma CompletedAdds(c: Config, s: State, g: Gid, port: int, q: Request)
    requires LowestFree(c.first, c.last, s.inUse) == Some(port) && q.id !in s.objects
    ensures var made := Made(c, Allocate(c, Move(s, g, Checked), g), g, port, q);
            q.id in made.objects && AddsOnly(c, s, Completed(made, g, q.id), g, port, q)
  {
    var made := MadeIs(c, s, g, port, q);
    CompletedIs(made, g, q.id);
    AddedIs(c, s, made, Completed(made, g, q.id), g, port, q);
  }

  lemma AddedIs(c: Config, s: State, made: State, s': State, g: Gid, port: int, q: Request)
    requires made.objects == s.objects[q.id := Fresh(c, g, port, q.target, q.ip, q.value, s.now + q.ttl)]
    requires made.routines == s.routines[g := Building(q.id, NeedConfig)]
    requires made.inUse == s.inUse + {port} && made.active == s.active && made.history == s.history
    requires made.now == s.now && made.shutdown == s.shutdown && made.snapshot == s.snapshot
    requires s'.objects == made.objects[q.id := made.objects[q.id].(serving := true, phase := Active)]
    requires s'.routines == made.routines[g := Watching(q.id)]
    requires s' == made.(objects := s'.objects, routines := s'.routines, active := made.active + {q.id})
    ensures AddsOnly(c, s, s', g, port, q)
  {
  }

  lemma MadeIs(c: Config, s: State, g: Gid, port: int, q: Request) returns (made: State)
    requires LowestFree(c.first, c.last, s.inUse) == Some(port) && q.id !in s.objects
    ensures made == Made(c, Allocate(c, Move(s, g, Checked), g), g, port, q)
    ensures made.objects == s.objects[q.id := Fresh(c, g, port, q.target, q.ip, q.value, s.now + q.ttl)]
    ensures made.routines == s.routines[g := Building(q.id, NeedConfig)]
    ensures made.inUse == s.inUse + {port} && made.active == s.active && made.history == s.history
    ensures made.now == s.now && made.shutdown == s.shutdown && made.snapshot == s.snapshot
  {
    made := Made(c, Allocate(c, Move(s, g, Checked), g), g, port, q);
  }

  lemma CompletedIs(s: State, g: Gid, id: Id)
    requires id in s.objects
    ensures var s' := Completed(s, g, id);
            && s'.objects == s.objects[id := s.objects[id].(serving := true, phase := Active)]
            && s'.routines == s.routines[g := Watching(id)]
            && s' == s.(objects := s'.objects, routines := s'.routines, active := s.active + {id})
  {
  }

  /**
   * CreateSession with room below the limit and a free port, when nothing fails and nobody
   * interferes, adds exactly the session that was asked for, on the lowest free port.
   */
  lemma CreateCallServes(c: Config, s: State, g: Gid, port: int, q: Request) returns (s': State)
    requires Unborn(s, g) && !s.shutdown && |s.active| < c.max
    requires LowestFree(c.first, c.last, s.inUse) == Some(port) && q.id !in s.objects
    ensures Performs(c, s, Creation(g, q), s') && AddsOnly(c, s, s', g, port, q)
  {
    AllocatingPerforms(c, s, g, port);
    var holding := Allocate(c, Move(s, g, Checked), g);
    MakingPerforms(c, holding, g, port, q);
    var made := Made(c, holding, g, port, q);
    CompletionPerforms(c, made, g, q.id);
    s' := Completed(made, g, q.id);
    First(c, holding, MakeIt(g, q), Completion(g), s');
    Joined(c, s, [DoCreate(g), DoAllocate(g)], holding, [MakeIt(g, q)] + Completion(g), s');
    CompletedAdds(c, s, g, port, q);
  }

  // ---- CreateSession that fails ----

  /** The actions up to the failure: none where it comes before there is a session object. */
  function Progress(g: Gid, q: Request, stage: Option<Stage>): seq<Action> {
    match stage
    case None => []
    case Some(NeedConfig) => [MakeIt(g, q)]
    case Some(NeedProxy) => [MakeIt(g, q)] + [DoAdvance(g)]
    case Some(NeedReady) => [MakeIt(g, q)] + [DoAdvance(g), DoAdvance(g)]
  }

  lemma ProgressPerforms(c: Config, s: State, g: Gid, port: int, q: Request, st: Stage)
    requires At(s, g, Allocated(port)) && q.id !in s.objects
    ensures Performs(c, s, Progress(g, q, Some(st)), Move(Made(c, s, g, port, q), g, Building(q.id, st)))
  {
    MakingPerforms(c, s, g, port, q);
    var made := Made(c, s, g, port, q);
    AdvancePerforms(c, made, g, q.id);
    match st {
      case NeedConfig =>
        assert Move(made, g, Building(q.id, NeedConfig)) == made;
        First(c, s, MakeIt(g, q), [], made);
        assert [MakeIt(g, q)] + [] == [MakeIt(g, q)];
      case NeedProxy => First(c, s, MakeIt(g, q), [DoAdvance(g)], Move(made, g, Building(q.id, NeedProxy)));
      case NeedReady => First(c, s, MakeIt(g, q), [DoAdvance(g), DoAdvance(g)], Move(made, g, Building(q.id, NeedReady)));
    }
  }

  lemma FailingEarlyPerforms(c: Config, s: State, g: Gid, port: int)
    requires At(s, g, Allocated(port))
    ensures Performs(c, s, [DoFail(g), DoGiveBack(g)], Free(c, Move(Move(s, g, Failing(port)), g, Done), port))
  {
    var failing := Move(s, g, Failing(port));
    Both(c, s, DoFail(g), failing, DoGiveBack(g), Free(c, Move(failing, g, Done), port));
  }

  lemma FailingLatePerforms(c: Config, s: State, g: Gid, id: Id, st: Stage, port: int)
    requires At(s, g, Building(id, st)) && id in s.objects && s.objects[id].port == port
    ensures Performs(c, s, [DoFail(g), DoGiveBack(g)], Free(c, Move(Abandon(s, g, id), g, Done), port))
  {
    var failing := Abandon(s, g, id);
    Both(c, s, DoFail(g), failing, DoGiveBack(g), Free(c, Move(failing, g, Done), port));
  }

  function FailingCreation(g: Gid, q: Request, stage: Option<Stage>): seq<Action> {
    [DoCreate(g), DoAllocate(g)] + (Progress(g, q, stage) + [DoFail(g), DoGiveBack(g)])
  }

  lemma BooksRestored(inUse: set<int>, owner: map<int, Holder>, port: int, h: Holder, k: Holder)
    requires port !in inUse && port !in owner
    ensures inUse + {port} - {port} == inUse
    ensures owner[port := h] - {port} == owner && owner[port := h][port := k][port := h] - {port} == owner
  {
  }

  lemma EarlyFailureUndoes(c: Config, s: State, g: Gid, port: int)
    requires port !in s.owner && LowestFree(c.first, c.last, s.inUse) == Some(port)
    ensures Free(c, Move(Move(Allocate(c, s, g), g, Failing(port)), g, Done), port) == Move(s, g, Done)
  {
    BooksRestored(s.inUse, s.owner, port, ByRoutine(g), ByRoutine(g));
    assert s.routines[g := Allocated(port)][g := Failing(port)][g := Done] == s.routines[g := Done];
  }

  lemma LateFailureUndoes(c: Config, s: State, g: Gid, port: int, q: Request, st: Stage)
    requires port !in s.owner && LowestFree(c.first, c.last, s.inUse) == Some(port) && q.id !in s.objects
    ensures var building := Move(Made(c, Allocate(c, s, g), g, port, q), g, Building(q.id, st));
            q.id in building.objects && Free(c, Move(Abandon(building, g, q.id), g, Done), port) == Move(s, g, Done)
  {
    var o := Fresh(c, g, port, q.target, q.ip, q.value, s.now + q.ttl);
    BooksRestored(s.inUse, s.owner, port, ByRoutine(g), BySession(q.id));
    assert s.objects[q.id := o] - {q.id} == s.objects;
    assert s.routines[g := Allocated(port)][g := Building(q.id, NeedConfig)][g := Building(q.id, st)][g := Failing(port)][g := Done]
        == s.routines[g := Done];
  }

  lemma FailsEarly(c: Config, s: State, g: Gid, port: int)
    requires At(s, g, Checked) && LowestFree(c.first, c.last, s.inUse) == Some(port) && port !in s.owner
    ensures Performs(c, Allocate(c, s, g), [DoFail(g), DoGiveBack(g)], Move(s, g, Done))
  {
    EarlyFailureUndoes(c, s, g, port);
    FailingEarlyPerforms(c, Allocate(c, s, g), g, port);
  }

  lemma FailsLate(c: Config, s: State, g: Gid, port: int, q: Request, st: Stage)
    requires At(s, g, Checked) && LowestFree(c.first, c.last, s.inUse) == Some(port) && q.id !in s.objects && port !in s.owner
    ensures Performs(c, Allocate(c, s, g), Progress(g, q, Some(st)) + [DoFail(g), DoGiveBack(g)], Move(s, g, Done))
  {
    var holding := Allocate(c, s, g);
    assert At(holding, g, Allocated(port)) && holding.objects == s.objects;
    ProgressPerforms(c, holding, g, port, q, st);
    var building := Move(Made(c, holding, g, port, q), g, Building(q.id, st));
    BuildingHas(c, holding, g, port, q, st);
    FailingLatePerforms(c, building, g, q.id, st, port);
    LateFailureUndoes(c, s, g, port, q, st);
    Joined(c, holding, Progress(g, q, Some(st)), building, [DoFail(g), DoGiveBack(g)], Move(s, g, Done));
  }

  lemma BuildingHas(c: Config, s: State, g: Gid, port: int, q: Request, st: Stage)
    ensures var building := Move(Made(c, s, g, port, q), g, Building(q.id, st));
            At(building, g, Building(q.id, st)) && q.id in building.objects && building.objects[q.id].port == port
  {
  }

  lemma MovedTwice(s: State, g: Gid, r: Routine, r': Routine)
    ensures Move(Move(s, g, r), g, r') == Move(s, g, r')
  {
    assert s.routines[g := r][g := r'] == s.routines[g := r'];
  }

  lemma FreeIsUnowned(c: Config, s: State, port: int)
    requires Inv(c, s) && LowestFree(c.first, c.last, s.inUse) == Some(port)
    ensures port !in s.owner
  {
  }

  /** CreateSession that fails behind the allocation, on any of the five paths, changes nothing but that the call is over. */
  lemma FailingCallLeavesNoTrace(c: Config, s: State, g: Gid, q: Request, stage: Option<Stage>)
    requires Inv(c, s) && Unborn(s, g) && !s.shutdown && |s.active| < c.max
    requires LowestFree(c.first, c.last, s.inUse).Some? && q.id !in s.objects
    ensures Performs(c, s, FailingCreation(g, q, stage), Move(s, g, Done))
  {
    var port, checked := LowestFree(c.first, c.last, s.inUse).value, Move(s, g, Checked);
    FreeIsUnowned(c, s, port);
    AllocatingPerforms(c, s, g, port);
    MovedTwice(s, g, Checked, Done);
    match stage {
      case None =>
        FailsEarly(c, checked, g, port);
        assert [] + [DoFail(g), DoGiveBack(g)] == [DoFail(g), DoGiveBack(g)];
      case Some(st) => FailsLate(c, checked, g, port, q, st);
    }
    Joined(c, s, [DoCreate(g), DoAllocate(g)], Allocate(c, checked, g), Progress(g, q, stage) + [DoFail(g), DoGiveBack(g)], Move(s, g, Done));
  }

  /** A handler that reads nothing, or cannot go on, leaves everything as it was. */
  lemma DroppedConnectionLeavesNoTrace(c: Config, s: State, g: Gid, id: Id)
    requires At(s, g, Connection(id)) || At(s, g, Admitted(id))
    ensures Performs(c, s, [DoDropConnection(g)], s.(routines := s.routines[g := Done]))
  {
    First(c, s, DoDropConnection(g), [], Move(s, g, Done));
  }

  // ---- The monitor ----

  /** The goroutine that made the session starts its monitor, is the monitor, or ends the session as the monitor. */
  predicate Watches(r: Routine, id: Id) {
    r == Registered(id) || r == Watching(id) || r == Calling(id)
  }

  predicate Running(o: Session) {
    o.phase.Active? || o.phase.Connected?
  }

  ghost predicate AllWatched(rs: Routines, os: Objects) {
    forall id | id in os && Running(os[id]) :: os[id].creator in rs && Watches(rs[os[id].creator], id)
  }

  /** A routine that watches no running session can move where it likes. */
  lemma MoveWatched(rs: Routines, os: Objects, g: Gid, r: Routine)
    requires AllWatched(rs, os)
    requires forall id | id in os && Running(os[id]) && os[id].creator == g :: g in rs && (Watches(rs[g], id) ==> Watches(r, id))
    ensures AllWatched(rs[g := r], os)
  {
  }

  /** A session can be rewritten that does not run afterwards, or ran before with the same creator. */
  lemma UpdateWatched(rs: Routines, os: Objects, id: Id, o': Session)
    requires AllWatched(rs, os)
    requires Running(o') ==> (id in os && Running(os[id]) && os[id].creator == o'.creator) || (o'.creator in rs && Watches(rs[o'.creator], id))
    ensures AllWatched(rs, os[id := o'])
  {
  }

  /** No session begins to run. */
  ghost predicate NoneBegins(os: Objects, os': Objects) {
    forall id | id in os' && Running(os'[id]) :: id in os && Running(os[id]) && os'[id].creator == os[id].creator
  }

  predicate OthersStay(rs: Routines, rs': Routines, g: Gid) {
    rs' == rs || (g in rs' && rs' == rs[g := rs'[g]])
  }

  /** A step of one routine that watches nothing, by which no session begins to run. */
  lemma BystanderStep(rs: Routines, os: Objects, rs': Routines, os': Objects, g: Gid)
    requires AllWatched(rs, os) && NoneBegins(os, os')
    requires OthersStay(rs, rs', g)
    requires g in rs ==> !rs[g].Registered? && !rs[g].Watching? && !rs[g].Calling?
    ensures AllWatched(rs', os')
  {
  }

  predicate IsBystander(a: Action) {
    IsMakers(a) || IsTerminators(a) || IsHandlers(a)
  }

  predicate IsMakers(a: Action) {
    a.DoCreate? || a.DoAllocate? || a.DoNewSession? || a.DoAdvance? || a.DoFail? || a.DoGiveBack?
  }

  predicate IsTerminators(a: Action) {
    a.DoCloseChannel? || a.DoStopServices? || a.DoReleasePort? || a.DoFinish?
  }

  predicate IsHandlers(a: Action) {
    a.DoAccept? || a.DoPresent? || a.DoDropConnection? || a.DoNotify?
  }

  lemma MakersBegin(c: Config, s: State, a: Action)
    requires Enabled(c, s, a) && IsMakers(a)
    ensures NoneBegins(s.objects, Apply(c, s, a).objects)
  {
  }

  lemma MakersLeaveOthers(c: Config, s: State, a: Action)
    requires Enabled(c, s, a) && IsMakers(a)
    ensures OthersStay(s.routines, Apply(c, s, a).routines, a.g)
  {
    if a.DoCreate? || a.DoNewSession? || a.DoGiveBack? {
      OneLeavesOthers(c, s, a);
    } else if a.DoAllocate? {
      AllocatingLeavesOthers(c, s, a.g);
    } else {
      BuildingLeavesOthers(c, s, a);
    }
  }

  lemma OneLeavesOthers(c: Config, s: State, a: Action)
    requires Enabled(c, s, a) && (a.DoCreate? || a.DoNewSession? || a.DoGiveBack?)
    ensures OthersStay(s.routines, Apply(c, s, a).routines, a.g)
  {
  }

  lemma AllocatingLeavesOthers(c: Config, s: State, g: Gid)
    requires Enabled(c, s, DoAllocate(g))
    ensures OthersStay(s.routines, Apply(c, s, DoAllocate(g)).routines, g)
  {
  }

  lemma BuildingLeavesOthers(c: Config, s: State, a: Action)
    requires Enabled(c, s, a) && (a.DoAdvance? || a.DoFail?)
    ensures OthersStay(s.routines, Apply(c, s, a).routines, a.g)
  {
  }

  lemma TerminatorsBegin(c: Config, s: State, a: Action)
    requires Enabled(c, s, a) && IsTerminators(a)
    ensures NoneBegins(s.objects, Apply(c, s, a).objects)
  {
  }

  lemma TerminatorsLeaveOthers(c: Config, s: State, a: Action)
    requires Enabled(c, s, a) && IsTerminators(a)
    ensures OthersStay(s.routines, Apply(c, s, a).routines, a.g)
  {
  }

  lemma HandlersBegin(c: Config, s: State, a: Action)
    requires Enabled(c, s, a) && IsHandlers(a)
    ensures NoneBegins(s.objects, Apply(c, s, a).objects)
  {
  }

  lemma HandlersLeaveOthers(c: Config, s: State, a: Action)
    requires Enabled(c, s, a) && IsHandlers(a)
    ensures OthersStay(s.routines, Apply(c, s, a).routines, a.g)
  {
  }

  lemma BystandersKeepWatch(c: Config, s: State, a: Action)
    requires Enabled(c, s, a) && AllWatched(s.routines, s.objects) && IsBystander(a)
    ensures AllWatched(Apply(c, s, a).routines, Apply(c, s, a).objects)
  {
    if IsMakers(a) {
      MakersBegin(c, s, a);
      MakersLeaveOthers(c, s, a);
    } else if IsTerminators(a) {
      TerminatorsBegin(c, s, a);
      TerminatorsLeaveOthers(c, s, a);
    } else {
      HandlersBegin(c, s, a);
      HandlersLeaveOthers(c, s, a);
    }
    BystanderStep(s.routines, s.objects, Apply(c, s, a).routines, Apply(c, s, a).objects, a.g);
  }

  lemma RegisterWatched(c: Config, s: State, g: Gid, id: Id)
    requires Inv(c, s) && g in s.routines && s.routines[g] == Serving(id) && AllWatched(s.routines, s.objects)
    ensures AllWatched(Register(s, g, id).routines, Register(s, g, id).objects)
  {
    assert Fits(g, Serving(id), s.objects[id]);
    MoveWatched(s.routines, s.objects, g, Registered(id));
    UpdateWatched(s.routines[g := Registered(id)], s.objects, id, s.objects[id].(phase := Active));
  }

  /** A caller of TerminateSession that leaves at once leaves no running session behind. */
  lemma EnterWatched(c: Config, s: State, g: Gid, id: Id)
    requires Inv(c, s) && g in s.routines && s.routines[g] == Calling(id) && AllWatched(s.routines, s.objects)
    ensures AllWatched(Enter(s, g, id).routines, Enter(s, g, id).objects)
  {
    if id in s.active && id in s.objects && Running(s.objects[id]) {
      UpdateWatched(s.routines, s.objects, id, Claimed(s.objects[id], g));
      MoveWatched(s.routines, s.objects[id := Claimed(s.objects[id], g)], g, Won(id));
    } else {
      assert id in s.objects ==> !Running(s.objects[id]);
      MoveWatched(s.routines, s.objects, g, Done);
    }
  }

  /** The monitor leaves its post only when the session has been ended, or to end it. */
  lemma MonitorWatched(c: Config, s: State, g: Gid, id: Id, a: Action)
    requires g in s.routines && id in s.objects && Sound(c, s.objects[id], s.now) && AllWatched(s.routines, s.objects)
    requires (a == DoStartMonitor(g) && s.routines[g] == Registered(id)) || ((a == DoMonitorQuit(g) || a == DoMonitorFire(g)) && s.routines[g] == Watching(id))
    requires Enabled(c, s, a)
    ensures AllWatched(Apply(c, s, a).routines, Apply(c, s, a).objects)
  {
    MoveWatched(s.routines, s.objects, g, if a.DoStartMonitor? then Watching(id) else if a.DoMonitorFire? then Calling(id) else Done);
  }

  lemma MonitorsKeepWatch(c: Config, s: State, a: Action)
    requires Inv(c, s) && Enabled(c, s, a) && AllWatched(s.routines, s.objects)
    requires a.DoStartMonitor? || a.DoMonitorQuit? || a.DoMonitorFire?
    ensures AllWatched(Apply(c, s, a).routines, Apply(c, s, a).objects)
  {
    var id := s.routines[a.g].id;
    assert Fits(a.g, s.routines[a.g], s.objects[id]) && Sound(c, s.objects[id], s.now);
    MonitorWatched(c, s, a.g, id, a);
  }

  lemma StepWatched(c: Config, s: State, a: Action)
    requires Inv(c, s) && Enabled(c, s, a) && AllWatched(s.routines, s.objects)
    ensures AllWatched(Apply(c, s, a).routines, Apply(c, s, a).objects)
  {
    if IsBystander(a) {
      BystandersKeepWatch(c, s, a);
    } else if a.DoRegister? {
      RegisterWatched(c, s, a.g, s.routines[a.g].id);
    } else if a.DoEnter? {
      EnterWatched(c, s, a.g, s.routines[a.g].id);
    } else if a.DoStartMonitor? || a.DoMonitorQuit? || a.DoMonitorFire? {
      MonitorsKeepWatch(c, s, a);
    } else if a.DoTerminate? {
      MoveWatched(s.routines, s.objects, a.g, Calling(a.id));
    }
  }

  /**
   * In every state of every run each Active or Connected session has the goroutine that made it
   * at its monitor, about to start it, or, when the proxy has exited or the time is up, about to
   * end the session: no session is left to run unwatched.
   */
  lemma {:induction false} EverySessionIsWatched(c: Config, r: seq<State>, i: nat)
    requires Run(c, r) && i < |r|
    ensures AllWatched(r[i].routines, r[i].objects)
  {
    if i > 0 {
      EverySessionIsWatched(c, r, i - 1);
      RunKeeps(c, r, i - 1);
      var a := StepTaken(c, r, i - 1);
      StepWatched(c, r[i - 1], a);
    }
  }
}
