/**
 * The way of one session from its making to its end, as its creator goes it: the same routine
 * starts the monitor, becomes it, and tears the session down when the proxy exits or time is up.
 */
module BrokerSolo {
  import opened Wrappers
  import PortPools
  import opened Broker

  /** The places on that way that have a next one. */
  predicate OnTheWay(id: Id, at: Routine) {
    || (at.Building? && at.id == id) || at == Serving(id) || at == Registered(id) || at == Watching(id) || at == Calling(id)
    || at == Won(id) || at == Closed(id) || at == Stopped(id) || at == Released(id)
  }

  function StepsLeft(at: Routine): nat {
    match at
    case Building(_, stage) => if stage.NeedConfig? then 11 else if stage.NeedProxy? then 10 else 9
    case Serving(_) => 8
    case Registered(_) => 7
    case Watching(_) => 6
    case Calling(_) => 5
    case Won(_) => 4
    case Closed(_) => 3
    case Stopped(_) => 2
    case Released(_) => 1
    case _ => 0
  }

  function NextAction(g: Gid, at: Routine): Action {
    match at
    case Building(_, _) => DoAdvance(g)
    case Serving(_) => DoRegister(g)
    case Registered(_) => DoStartMonitor(g)
    case Watching(_) => DoMonitorFire(g)
    case Calling(_) => DoEnter(g)
    case Won(_) => DoCloseChannel(g)
    case Closed(_) => DoStopServices(g)
    case Stopped(_) => DoReleasePort(g)
    case _ => DoFinish(g)
  }

  function NextPlace(at: Routine): Routine {
    match at
    case Building(id, stage) =>
      if stage.NeedConfig? then Building(id, NeedProxy) else if stage.NeedProxy? then Building(id, NeedReady) else Serving(id)
    case Serving(id) => Registered(id)
    case Registered(id) => Watching(id)
    case Watching(id) => Calling(id)
    case Calling(id) => Won(id)
    case Won(id) => Closed(id)
    case Closed(id) => Stopped(id)
    case Stopped(id) => Released(id)
    case _ => Done
  }

  /** What the step makes of the session. */
  function NextSession(g: Gid, at: Routine, o: Session): Session {
    match at
    case Building(_, stage) => if stage.NeedReady? then o.(serving := true) else o
    case Serving(_) => o.(phase := Active)
    case Calling(_) => Claimed(o, g)
    case Won(_) => ChannelClosed(o)
    case Stopped(_) => o.(released := true)
    case Released(_) => o.(phase := Terminated)
    case _ => o
  }

  /** The phase of the session while the routine is at a place. */
  function PhaseAt(at: Routine): Phase {
    match at
    case Building(_, _) => Creating
    case Serving(_) => Creating
    case Registered(_) => Active
    case Watching(_) => Active
    case Calling(_) => Active
    case Done => Terminated
    case _ => Terminating
  }

  lemma WayDown(id: Id, at: Routine)
    requires OnTheWay(id, at)
    ensures StepsLeft(at) > 0 && StepsLeft(NextPlace(at)) == StepsLeft(at) - 1
    ensures OnTheWay(id, NextPlace(at)) || NextPlace(at) == Done
    ensures StepsLeft(at) == 7 <==> at == Registered(id)
    ensures StepsLeft(at) == 2 <==> at == Stopped(id)
    ensures StepsLeft(at) >= 8 <==> PhaseAt(at).Creating?
    ensures StepsLeft(at) >= 9 <==> at.Building?
    ensures StepsLeft(at) == 1 <==> at == Released(id)
  {
  }

  /** The parts of a session its own way leaves alone. */
  predicate SameDeal(o: Session, o': Session) {
    && o'.target == o.target && o'.clientIP == o.clientIP && o'.port == o.port && o'.internalPort == o.internalPort
    && o'.token == o.token && o'.admissions == o.admissions && o'.connectedAt == o.connectedAt
  }

  lemma SessionGoes(g: Gid, id: Id, at: Routine, o: Session)
    requires OnTheWay(id, at) && o.phase == PhaseAt(at) && (!at.Building? ==> o.serving)
    ensures var o' := NextSession(g, at, o);
            SameDeal(o, o') && o'.phase == PhaseAt(NextPlace(at)) && (!NextPlace(at).Building? ==> o'.serving)
  {
  }

  /** What a step on the way changes, and what it leaves alone. */
  ghost predicate Goes(s: State, s': State, g: Gid, id: Id, at: Routine)
    requires id in s.objects
  {
    && s'.routines == s.routines[g := NextPlace(at)]
    && s'.objects == s.objects[id := NextSession(g, at, s.objects[id])]
    && s'.now == s.now && s'.shutdown == s.shutdown
    && s'.active == (if at.Serving? then s.active + {id} else if at.Released? then s.active - {id} else s.active)
    && (!at.Stopped? ==> s'.inUse == s.inUse)
  }

  lemma MakingGoes(c: Config, s: State, g: Gid, id: Id, at: Routine)
    requires g in s.routines && s.routines[g] == at && id in s.objects && ((at.Building? && at.id == id) || at == Serving(id))
    ensures Enabled(c, s, NextAction(g, at)) && Goes(s, Apply(c, s, NextAction(g, at)), g, id, at)
  {
    assert s.objects[id := s.objects[id]] == s.objects;
  }

  lemma WatchingGoes(c: Config, s: State, g: Gid, id: Id, at: Routine)
    requires g in s.routines && s.routines[g] == at && id in s.objects
    requires at == Registered(id) || at == Watching(id) || at == Closed(id)
    ensures Enabled(c, s, NextAction(g, at)) && Goes(s, Apply(c, s, NextAction(g, at)), g, id, at)
  {
    assert s.objects[id := s.objects[id]] == s.objects;
  }

  lemma EndingGoes(c: Config, s: State, g: Gid, id: Id, at: Routine)
    requires g in s.routines && s.routines[g] == at && id in s.objects
    requires at == Calling(id) || at == Won(id) || at == Stopped(id) || at == Released(id)
    requires at == Calling(id) ==> id in s.active && s.objects[id].phase.Active?
    ensures Enabled(c, s, NextAction(g, at)) && Goes(s, Apply(c, s, NextAction(g, at)), g, id, at)
    ensures at == Stopped(id) && c.first <= s.objects[id].port <= c.last ==>
              Apply(c, s, NextAction(g, at)).inUse == s.inUse - {s.objects[id].port}
  {
  }

  /** Every place has its next step, and the step does what NextPlace and NextSession say. */
  lemma StepGoes(c: Config, s: State, g: Gid, id: Id, at: Routine)
    requires g in s.routines && s.routines[g] == at && id in s.objects && OnTheWay(id, at)
    requires at == Calling(id) ==> id in s.active && s.objects[id].phase.Active?
    ensures Enabled(c, s, NextAction(g, at)) && Goes(s, Apply(c, s, NextAction(g, at)), g, id, at)
    ensures at == Stopped(id) && c.first <= s.objects[id].port <= c.last ==>
              Apply(c, s, NextAction(g, at)).inUse == s.inUse - {s.objects[id].port}
  {
    if at.Building? || at.Serving? {
      MakingGoes(c, s, g, id, at);
    } else if at.Registered? || at.Watching? || at.Closed? {
      WatchingGoes(c, s, g, id, at);
    } else {
      EndingGoes(c, s, g, id, at);
    }
  }

  // ---- The three steps before there is a session ----

  /** The request of a creation. */
  datatype Client = Client(ip: string, target: string, value: string)

  function Request(g: Gid, id: Id, u: Client): Action {
    DoNewSession(g, id, u.target, u.ip, u.value, 60)
  }

  lemma CheckPassed(c: Config, s: State, g: Gid)
    requires Unborn(s, g) && !s.shutdown && |s.active| < c.max
    ensures Enabled(c, s, DoCreate(g)) && Apply(c, s, DoCreate(g)) == s.(routines := s.routines[g := Checked])
  {
  }

  lemma PortTaken(c: Config, s: State, g: Gid, port: int)
    requires g in s.routines && s.routines[g] == Checked && PortPools.LowestFree(c.first, c.last, s.inUse) == Some(port)
    ensures Enabled(c, s, DoAllocate(g))
    ensures Apply(c, s, DoAllocate(g))
            == s.(routines := s.routines[g := Allocated(port)], inUse := s.inUse + {port}, owner := s.owner[port := ByRoutine(g)])
  {
  }

  lemma SessionMade(c: Config, s: State, g: Gid, id: Id, port: int, u: Client)
    requires g in s.routines && s.routines[g] == Allocated(port) && id !in s.objects
    ensures Enabled(c, s, Request(g, id, u))
    ensures var s' := Apply(c, s, Request(g, id, u));
            && s'.routines == s.routines[g := Building(id, NeedConfig)]
            && s'.objects == s.objects[id := Fresh(c, g, port, u.target, u.ip, u.value, s.now + 60)]
            && s'.now == s.now && s'.shutdown == s.shutdown && s'.active == s.active && s'.inUse == s.inUse
  {
  }
}
