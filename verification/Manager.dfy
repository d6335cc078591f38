/**
 * The session manager as its callers see it when calls do not overlap
 * (proxy/internal/session/manager.go); Broker.dfy has the interleavings.
 *
 * A Session is a value here. What the operating system answers during creation is the
 * CreateOutcome.
 */
module SessionManager {
  import opened Wrappers
  import opened Text
  import opened PortPools
  import B = Broker

  datatype Session = Session(id: string, userID: string, targetID: string, port: int, internalPort: int, phase: B.Phase)

  type Sessions = map<string, Session>

  datatype ManagerError = ShuttingDown | SessionLimitReached | PortsExhausted | CreationFailed | SessionNotFound

  /** The five ways creation can fail after the ports are allocated, or the fresh session id. */
  datatype CreateOutcome = NoSessionId | NoToken | NoConfig | ProxyNotStarted | ProxyNotReady | Works(id: string)

  /** Equal up to case, or equal to the local part of an email filter. */
  predicate MatchesUser(sessionUserID: string, filter: string) {
    EqualFold(sessionUserID, filter) ||
    match Index(filter, "@")
    case Some(i) => i > 0 && EqualFold(sessionUserID, filter[..i])
    case None => false
  }

  /** The name is the filter, or what stands before the first '@' of it, in any spelling. */
  ghost predicate NamesUser(userID: string, filter: string) {
    || ToLower(userID) == ToLower(filter)
    || exists local: string, domain: string ::
         local != "" && '@' !in local && filter == local + "@" + domain && ToLower(userID) == ToLower(local)
  }

  /** MatchesUser selects exactly the users a filter names. */
  lemma MatchesUserIff(userID: string, filter: string)
    ensures MatchesUser(userID, filter) <==> NamesUser(userID, filter)
  {
    EqualFoldIsEqualLower(userID, filter);
    IndexOfChar(filter, '@');
    if '@' in filter {
      var i := Index(filter, "@").value;
      EqualFoldIsEqualLower(userID, filter[..i]);
      if MatchesUser(userID, filter) && ToLower(userID) != ToLower(filter) {
        assert filter == filter[..i] + "@" + filter[i + 1..];
      }
    }
    forall local, domain | local != "" && '@' !in local && filter == local + "@" + domain && ToLower(userID) == ToLower(local)
      ensures MatchesUser(userID, filter)
    {
      CutAtFirst(filter, local, '@', domain);
      assert filter[..|local|] == local;
      EqualFoldIsEqualLower(userID, local);
    }
  }

  predicate Selected(s: Session, filter: string) {
    filter == "" || MatchesUser(s.userID, filter)
  }

  /** What a filter asks for: everything when it is empty, else the sessions of the user it names. */
  ghost predicate Wanted(s: Session, filter: string) {
    filter == "" || NamesUser(s.userID, filter)
  }

  lemma SelectedIffWanted(s: Session, filter: string)
    ensures Selected(s, filter) <==> Wanted(s, filter)
  {
    MatchesUserIff(s.userID, filter);
  }

  /** The sessions of a list that are asked for, in its order. */
  ghost function Those(l: seq<Session>, filter: string): seq<Session> {
    if l == [] then []
    else Those(l[..|l| - 1], filter) + (if Wanted(l[|l| - 1], filter) then [l[|l| - 1]] else [])
  }

  /** The list shows the sessions filed under the ids, each once. */
  ghost predicate Shows(sessions: Sessions, ids: set<string>, list: seq<Session>) {
    ids <= sessions.Keys && |list| == |ids| && forall s :: s in list <==> exists id :: id in ids && sessions[id] == s
  }

  lemma ShowsOneMore(sessions: Sessions, ids: set<string>, list: seq<Session>, id: string)
    requires Shows(sessions, ids, list) && id in sessions && id !in ids
    ensures Shows(sessions, ids + {id}, list + [sessions[id]])
  {
    forall s ensures s in list + [sessions[id]] <==> exists k :: k in ids + {id} && sessions[k] == s {
      if s in list {
        var k :| k in ids && sessions[k] == s;
        assert k in ids + {id};
      }
      if s == sessions[id] {
        assert id in ids + {id};
      }
    }
  }

  function Ended(s: Session): Session {
    s.(phase := B.Terminated)
  }

  /** The sessions in the map are live, filed under their id, and each holds its own port of the pool. */
  ghost predicate SessionsSound(sessions: Sessions, inUse: set<int>) {
    && (forall id | id in sessions :: sessions[id].id == id && (sessions[id].phase.Active? || sessions[id].phase.Connected?))
    && (forall id | id in sessions :: sessions[id].port in inUse)
    && (forall id, k | id in sessions && k in sessions && id != k :: sessions[id].port != sessions[k].port)
    && (forall p | p in inUse :: exists id :: id in sessions && sessions[id].port == p)
  }

  lemma AddSession(sessions: Sessions, inUse: set<int>, s: Session)
    requires SessionsSound(sessions, inUse) && s.id !in sessions && s.port !in inUse && s.phase.Active?
    ensures SessionsSound(sessions[s.id := s], inUse + {s.port})
  {
    var more := sessions[s.id := s];
    forall p | p in inUse + {s.port} ensures exists id :: id in more && more[id].port == p {
      if p == s.port {
        assert more[s.id].port == p;
      } else {
        var id :| id in sessions && sessions[id].port == p;
        assert more[id].port == p;
      }
    }
  }

  lemma DropSession(sessions: Sessions, inUse: set<int>, id: string)
    requires SessionsSound(sessions, inUse) && id in sessions
    ensures SessionsSound(sessions - {id}, inUse - {sessions[id].port})
  {
    var fewer := sessions - {id};
    forall p | p in inUse - {sessions[id].port} ensures exists k :: k in fewer && fewer[k].port == p {
      var k :| k in sessions && sessions[k].port == p;
      assert fewer[k].port == p;
    }
  }

  /** Each of the sessions there were before is still there, or in the history. */
  ghost predicate AllFiled(before: Sessions, sessions: Sessions, history: seq<Session>) {
    && (forall id | id in sessions :: id in before && sessions[id] == before[id])
    && (forall id | id in before && id !in sessions :: Ended(before[id]) in history)
  }

  lemma FiledOne(before: Sessions, sessions: Sessions, history: seq<Session>, id: string)
    requires AllFiled(before, sessions, history) && id in sessions
    ensures AllFiled(before, sessions - {id}, history + [Ended(sessions[id])]) && |sessions - {id}| == |sessions| - 1
  {
    assert (sessions - {id}).Keys == sessions.Keys - {id};
  }

  class Manager {
    const portPool: PortPool
    const maxConcurrentSessions: int
    var sessions: Sessions
    var history: seq<Session>
    var shutdown: bool

    ghost predicate Valid()
      reads this, portPool
    {
      && portPool.Valid()
      && SessionsSound(sessions, portPool.inUse.Keys)
      && forall s | s in history :: s.phase.Terminated?
    }

    constructor (portPool: PortPool, maxConcurrentSessions: int)
      requires portPool.Valid() && portPool.inUse == map[]
      ensures Valid() && sessions == map[] && history == [] && !shutdown && this.portPool == portPool
      ensures this.maxConcurrentSessions == maxConcurrentSessions
    {
      this.portPool, this.maxConcurrentSessions := portPool, maxConcurrentSessions;
      sessions, history, shutdown := map[], [], false;
    }

    method CreateSession(userID: string, hostname: string, outcome: CreateOutcome) returns (r: Result<Session, ManagerError>)
      requires Valid() && (outcome.Works? ==> outcome.id !in sessions)
      modifies this`sessions, portPool
      ensures Valid()
      ensures r.Ok? <==> !shutdown && old(|sessions|) < maxConcurrentSessions && outcome.Works?
                         && LowestFree(portPool.startPort, portPool.endPort, old(portPool.inUse.Keys)).Some?
      ensures r.Ok? ==> r.value == Session(outcome.id, userID, hostname, r.value.port, r.value.port + portPool.internalOffset, B.Active)
                        && LowestFree(portPool.startPort, portPool.endPort, old(portPool.inUse.Keys)) == Some(r.value.port)
                        && sessions == old(sessions)[outcome.id := r.value]
                        && portPool.inUse == old(portPool.inUse)[r.value.port := true]
      // every failure gives the port back, and says which check it came from
      ensures r.Err? ==> sessions == old(sessions) && portPool.inUse == old(portPool.inUse)
      ensures r == Err(ShuttingDown) <==> shutdown
      ensures r == Err(SessionLimitReached) <==> !shutdown && old(|sessions|) >= maxConcurrentSessions
      ensures r == Err(PortsExhausted) <==> !shutdown && old(|sessions|) < maxConcurrentSessions
                                            && LowestFree(portPool.startPort, portPool.endPort, old(portPool.inUse.Keys)).None?
      ensures r.Err? ==> r.error != SessionNotFound
    {
      if shutdown {
        return Err(ShuttingDown);
      }
      if |sessions| >= maxConcurrentSessions {
        return Err(SessionLimitReached);
      }
      r := Build(userID, hostname, outcome);
    }

    /** CreateSession past the limit check. */
    method Build(userID: string, hostname: string, outcome: CreateOutcome) returns (r: Result<Session, ManagerError>)
      requires Valid() && (outcome.Works? ==> outcome.id !in sessions)
      modifies this`sessions, portPool
      ensures Valid()
      ensures r.Ok? <==> outcome.Works? && LowestFree(portPool.startPort, portPool.endPort, old(portPool.inUse.Keys)).Some?
      ensures r.Ok? ==> r.value == Session(outcome.id, userID, hostname, r.value.port, r.value.port + portPool.internalOffset, B.Active)
                        && LowestFree(portPool.startPort, portPool.endPort, old(portPool.inUse.Keys)) == Some(r.value.port)
                        && sessions == old(sessions)[outcome.id := r.value]
                        && portPool.inUse == old(portPool.inUse)[r.value.port := true]
      ensures r.Err? ==> sessions == old(sessions) && portPool.inUse == old(portPool.inUse)
      ensures r.Err? ==> r.error.PortsExhausted? || r.error.CreationFailed?
      ensures r == Err(PortsExhausted) <==> LowestFree(portPool.startPort, portPool.endPort, old(portPool.inUse.Keys)).None?
    {
      var ports := portPool.Allocate();
      if ports.Err? {
        return Err(PortsExhausted);
      }
      var (externalPort, internalPort) := ports.value;
      if !outcome.Works? {
        GiveBack(externalPort, old(portPool.inUse));
        return Err(CreationFailed);
      }
      var session := Session(outcome.id, userID, hostname, externalPort, internalPort, B.Active);
      Register(session, old(portPool.inUse.Keys));
      return Ok(session);
    }

    /** The release on the failure paths: the pool is as it was before the allocation. */
    method GiveBack(port: int, ghost before: map<int, bool>)
      requires portPool.Valid() && port !in before && portPool.inUse == before[port := true]
      modifies portPool
      ensures portPool.Valid() && portPool.inUse == before
    {
      var released := portPool.Release(port);
      assert before[port := true] - {port} == before;
    }

    /** The last critical section of CreateSession; `before` is the ports in use before the allocation. */
    method Register(session: Session, ghost before: set<int>)
      requires portPool.Valid() && SessionsSound(sessions, before) && forall s | s in history :: s.phase.Terminated?
      requires session.id !in sessions && session.phase.Active? && session.port !in before
      requires portPool.inUse.Keys == before + {session.port}
      modifies this`sessions
      ensures Valid() && sessions == old(sessions)[session.id := session]
    {
      AddSession(sessions, before, session);
      sessions := sessions[session.id := session];
    }

    method TerminateSession(id: string) returns (r: Result<(), ManagerError>)
      requires Valid()
      modifies this`sessions, this`history, portPool
      ensures Valid()
      ensures r.Ok? <==> id in old(sessions)
      ensures r.Err? ==> r.error == SessionNotFound
      ensures r.Ok? ==> sessions == old(sessions) - {id} && history == old(history) + [old(sessions)[id].(phase := B.Terminated)]
                        && portPool.inUse == old(portPool.inUse) - {old(sessions)[id].port}
      ensures r.Err? ==> sessions == old(sessions) && history == old(history) && portPool.inUse == old(portPool.inUse)
    {
      if id !in sessions {
        return Err(SessionNotFound);
      }
      var session := sessions[id];
      if session.phase.Terminating? || session.phase.Terminated? {
        return Ok(());
      }
      var released := portPool.Release(session.port);
      DropSession(sessions, old(portPool.inUse.Keys), id);
      assert portPool.inUse.Keys == old(portPool.inUse.Keys) - {session.port};
      sessions := sessions - {id};
      history := history + [Ended(session)];
      return Ok(());
    }

    ghost function WantedIds(filter: string): set<string>
      reads this
    {
      set id | id in sessions && Wanted(sessions[id], filter)
    }

    /** The active sessions that are asked for, each once and in any order, then those of the history in its order. */
    method ListSessions(filter: string) returns (list: seq<Session>)
      ensures forall id | id in sessions && Wanted(sessions[id], filter) :: sessions[id] in list
      ensures forall s | s in history && Wanted(s, filter) :: s in list
      ensures forall s | s in list :: Wanted(s, filter) && ((exists id :: id in sessions && sessions[id] == s) || s in history)
      ensures var n := |WantedIds(filter)|;
              n <= |list| && Shows(sessions, WantedIds(filter), list[..n]) && list[n..] == Those(history, filter)
    {
      var active := ListActive(filter);
      var ended := ListHistory(filter);
      list := active + ended;
      assert list[..|active|] == active && list[|active|..] == ended;
      assert forall id | id in WantedIds(filter) :: sessions[id] in active;
    }

    /** The loop over the map. */
    method ListActive(filter: string) returns (list: seq<Session>)
      ensures Shows(sessions, WantedIds(filter), list)
    {
      list := [];
      var todo := sessions.Keys;
      ghost var listed: set<string> := {};
      while todo != {}
        invariant todo <= sessions.Keys && listed == WantedIds(filter) - todo
        invariant Shows(sessions, listed, list)
        decreases todo
      {
        var id :| id in todo;
        todo := todo - {id};
        SelectedIffWanted(sessions[id], filter);
        if Selected(sessions[id], filter) {
          ShowsOneMore(sessions, listed, list, id);
          list := list + [sessions[id]];
          listed := listed + {id};
        }
      }
      assert listed == WantedIds(filter);
    }

    /** The loop over the history. */
    method ListHistory(filter: string) returns (list: seq<Session>)
      ensures list == Those(history, filter)
      ensures forall s :: s in list <==> s in history && Wanted(s, filter)
    {
      list := [];
      for i := 0 to |history|
        invariant list == Those(history[..i], filter)
        invariant forall s :: s in list <==> s in history[..i] && Wanted(s, filter)
      {
        SelectedIffWanted(history[i], filter);
        assert history[..i + 1] == history[..i] + [history[i]];
        if Selected(history[i], filter) {
          list := list + [history[i]];
        }
      }
      assert history[..|history|] == history;
    }

    /** Shutdown with nothing else under way: every session moves to the history, once. */
    method Shutdown()
      requires Valid()
      modifies this, portPool
      ensures Valid() && shutdown && sessions == map[] && portPool.inUse.Keys == {}
      ensures old(history) <= history && |history| == |old(history)| + |old(sessions)|
      ensures forall id | id in old(sessions) :: old(sessions)[id].(phase := B.Terminated) in history
    {
      shutdown := true;
      while sessions.Keys != {}
        invariant Valid() && shutdown
        invariant old(history) <= history && |history| + |sessions| == |old(history)| + |old(sessions)|
        invariant AllFiled(old(sessions), sessions, history)
        decreases |sessions|
      {
        var id :| id in sessions.Keys;
        FiledOne(old(sessions), sessions, history, id);
        var r := TerminateSession(id);
      }
    }
  }
}
