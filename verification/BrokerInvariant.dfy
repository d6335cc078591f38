/**
 * The inductive invariant of the session lifecycle, and its preservation by every step.
 *
 * Almost every step moves one routine and rewrites at most one session. The lemmas named
 * ...Move and ...Update say what such a step must respect for each part of the invariant;
 * the lemmas named ...Keeps check it for the steps of the program.
 */
module BrokerInvariant {
  import opened Wrappers
  import opened PortPools
  import opened SessionTokens
  import opened Broker

  type Routines = map<Gid, Routine>
  type Objects = map<Id, Session>

  predicate Making(r: Routine) {
    r.Building? || r.Serving?
  }

  /** The terminator has won the session and has not finished with it. */
  predicate Tearing(r: Routine) {
    r.Won? || r.Closed? || r.Stopped? || r.Released?
  }

  /** The routine holds a port that no session object accounts for. */
  predicate Holding(r: Routine) {
    r.Allocated? || r.Failing?
  }

  /** The routine is entitled to expect its session object. */
  predicate Bound(r: Routine) {
    Making(r) || Tearing(r) || r.Registered? || r.Watching? || r.Connection? || r.Admitted?
  }

  /** What a routine at r knows about its session. */
  predicate Fits(g: Gid, r: Routine, o: Session) {
    match r
    case Building(_, _) => o.phase.Creating? && o.creator == g && !o.serving
    case Serving(_) => o.phase.Creating? && o.creator == g && o.serving
    case Registered(_) => !o.phase.Creating?
    case Watching(_) => !o.phase.Creating?
    case Won(_) => o.phase.Terminating? && o.winner == Some(g) && o.closes == 0 && !o.released
    case Closed(_) => o.phase.Terminating? && o.winner == Some(g) && o.closes == 1 && !o.released
    case Stopped(_) => o.phase.Terminating? && o.winner == Some(g) && o.closes == 1 && !o.released
    case Released(_) => o.phase.Terminating? && o.winner == Some(g) && o.closes == 1 && o.released
    case Connection(_) => o.serving
    case Admitted(_) => o.serving && |o.admissions| == 1 && o.admissions[0].who == g && o.connectedAt.None?
    case _ => true
  }

  ghost predicate RoutinesFit(rs: Routines, os: Objects) {
    forall g | g in rs && Bound(rs[g]) :: rs[g].id in os && Fits(g, rs[g], os[rs[g].id])
  }

  predicate Lawful(o: Session, a: Admission) {
    && (o.clientIP == "" || a.ip == o.clientIP)
    && a.target == o.target && a.value == o.token.value && a.at <= o.token.expiry
  }

  /** What holds of a session by itself: one-shot admission, and how far teardown can have got. */
  predicate Sound(c: Config, o: Session, now: int) {
    && o.internalPort == o.port + c.offset
    && |o.admissions| == (if o.token.consumed then 1 else 0)
    && (o.token.consumed ==> Lawful(o, o.admissions[0]) && o.admissions[0].at <= now)
    && (o.phase.Creating? || o.phase.Active? ==> o.connectedAt.None?)
    && (o.phase.Connected? ==> o.connectedAt.Some?)
    && (o.connectedAt.Some? ==> o.token.consumed && o.admissions[0].at <= o.connectedAt.value <= now)
    && (!o.phase.Creating? ==> o.serving)
    && (Rank(o.phase) < Rank(Terminating) ==> o.closes == 0 && !o.released && o.winner.None?)
    && (o.phase.Terminated? ==> o.closes == 1 && o.released)
  }

  /** A session being made or torn down has the one routine that does it. */
  predicate Backed(id: Id, o: Session, rs: Routines) {
    match o.phase
    case Creating => o.creator in rs && Making(rs[o.creator]) && rs[o.creator].id == id
    case Terminating => o.winner.Some? && o.winner.value in rs && Tearing(rs[o.winner.value]) && rs[o.winner.value].id == id
    case _ => true
  }

  ghost predicate ObjectsFit(c: Config, rs: Routines, os: Objects, now: int) {
    forall id | id in os :: Sound(c, os[id], now) && Backed(id, os[id], rs)
  }

  predicate Holds(rs: Routines, os: Objects, h: Holder, p: int) {
    match h
    case ByRoutine(g) => g in rs && Holding(rs[g]) && rs[g].port == p
    case BySession(id) => id in os && !os[id].released && os[id].port == p
  }

  /** Ports in use are exactly the held ones, and each has one holder. */
  ghost predicate PortsOwned(c: Config, inUse: set<int>, owner: map<int, Holder>, rs: Routines, os: Objects) {
    && owner.Keys == inUse
    && (forall p | p in owner :: c.first <= p <= c.last && Holds(rs, os, owner[p], p))
    && (forall g | g in rs && Holding(rs[g]) :: rs[g].port in owner && owner[rs[g].port] == ByRoutine(g))
    && (forall id | id in os && !os[id].released :: os[id].port in owner && owner[os[id].port] == BySession(id))
  }

  /** The active map and the history list are exactly what the phases say. */
  ghost predicate Registry(active: set<Id>, history: seq<Id>, os: Objects) {
    && (forall id :: id in active <==> id in os && Live(os[id].phase))
    && (forall id :: id in history <==> id in os && os[id].phase.Terminated?)
    && (forall i, j | 0 <= i < j < |history| :: history[i] != history[j])
  }

  /** Where the terminator that Shutdown started for a session can be. */
  predicate Swept(id: Id, r: Routine, o: Session) {
    && !o.phase.Creating?
    && (r == Calling(id) || r.Done? || (Tearing(r) && r.id == id))
    && (r.Done? ==> Rank(o.phase) >= Rank(Terminating))
  }

  ghost predicate ShutdownSees(shutdown: bool, snapshot: set<Id>, rs: Routines, os: Objects) {
    && (!shutdown ==> snapshot == {})
    && (forall id :: OfShutdown(id) in rs <==> id in snapshot)
    && (forall id | id in snapshot :: id in os && Swept(id, rs[OfShutdown(id)], os[id]))
  }

  ghost predicate Inv(c: Config, s: State) {
    && RoutinesFit(s.routines, s.objects)
    && ObjectsFit(c, s.routines, s.objects, s.now)
    && PortsOwned(c, s.inUse, s.owner, s.routines, s.objects)
    && Registry(s.active, s.history, s.objects)
    && ShutdownSees(s.shutdown, s.snapshot, s.routines, s.objects)
  }

  // ---- One routine moves ----

  /** The routine's old place backs no session and holds no port, or it keeps doing so. */
  predicate Quiet(rs: Routines, g: Gid, r: Routine) {
    && !Holding(r)
    && (g in rs ==>
          && !Holding(rs[g])
          && (Making(rs[g]) ==> Making(r) && r.id == rs[g].id)
          && (Tearing(rs[g]) ==> Tearing(r) && r.id == rs[g].id))
  }

  lemma ObjectsMove(c: Config, rs: Routines, os: Objects, now: int, g: Gid, r: Routine)
    requires ObjectsFit(c, rs, os, now)
    requires g in rs && Making(rs[g]) ==> Making(r) && r.id == rs[g].id
    requires g in rs && Tearing(rs[g]) ==> Tearing(r) && r.id == rs[g].id
    ensures ObjectsFit(c, rs[g := r], os, now)
  {
    forall id | id in os ensures Backed(id, os[id], rs[g := r]) {
      assert Backed(id, os[id], rs);
    }
  }

  lemma PortsMove(c: Config, inUse: set<int>, owner: map<int, Holder>, rs: Routines, os: Objects, g: Gid, r: Routine)
    requires PortsOwned(c, inUse, owner, rs, os)
    requires !Holding(r) && (g in rs ==> !Holding(rs[g]))
    ensures PortsOwned(c, inUse, owner, rs[g := r], os)
  {
    forall p | p in owner ensures Holds(rs[g := r], os, owner[p], p) {
      assert Holds(rs, os, owner[p], p);
    }
  }

  lemma RoutinesMove(rs: Routines, os: Objects, g: Gid, r: Routine)
    requires RoutinesFit(rs, os)
    requires Bound(r) ==> r.id in os && Fits(g, r, os[r.id])
    ensures RoutinesFit(rs[g := r], os)
  {
  }

  /** Shutdown's own terminators may only move as Swept allows. */
  predicate MayMove(rs: Routines, os: Objects, g: Gid, r: Routine) {
    g.Spawned? || (g in rs && g.id in os && Swept(g.id, r, os[g.id]))
  }

  lemma ShutdownMove(shutdown: bool, snapshot: set<Id>, rs: Routines, os: Objects, g: Gid, r: Routine)
    requires ShutdownSees(shutdown, snapshot, rs, os)
    requires MayMove(rs, os, g, r)
    ensures ShutdownSees(shutdown, snapshot, rs[g := r], os)
  {
    forall id ensures OfShutdown(id) in rs[g := r] <==> id in snapshot {
      assert OfShutdown(id) in rs <==> id in snapshot;
    }
  }

  lemma MoveKeeps(c: Config, s: State, g: Gid, r: Routine)
    requires Inv(c, s) && Quiet(s.routines, g, r)
    requires Bound(r) ==> r.id in s.objects && Fits(g, r, s.objects[r.id])
    requires MayMove(s.routines, s.objects, g, r)
    ensures Inv(c, Move(s, g, r))
  {
    var rs, os := s.routines, s.objects;
    RoutinesMove(rs, os, g, r);
    ObjectsMove(c, rs, os, s.now, g, r);
    PortsMove(c, s.inUse, s.owner, rs, os, g, r);
    ShutdownMove(s.shutdown, s.snapshot, rs, os, g, r);
  }

  // ---- One routine moves and rewrites the session it works on ----

  /** No routine other than g learns anything new about the session. */
  ghost predicate OthersUnmoved(g: Gid, o: Session, o': Session) {
    forall h, r | h != g && Fits(h, r, o) :: Fits(h, r, o')
  }

  lemma RoutinesUpdate(rs: Routines, os: Objects, g: Gid, r: Routine, id: Id, o': Session)
    requires RoutinesFit(rs, os) && id in os
    requires OthersUnmoved(g, os[id], o')
    requires Bound(r) ==> r.id == id && Fits(g, r, o')
    ensures RoutinesFit(rs[g := r], os[id := o'])
  {
    var rs', os' := rs[g := r], os[id := o'];
    forall h | h in rs' && Bound(rs'[h]) ensures rs'[h].id in os && Fits(h, rs'[h], os'[rs'[h].id]) {
      if h != g {
        assert Fits(h, rs[h], os[rs[h].id]);
      }
    }
  }

  lemma ObjectsUpdate(c: Config, rs: Routines, os: Objects, now: int, g: Gid, r: Routine, id: Id, o': Session)
    requires ObjectsFit(c, rs, os, now)
    requires g in rs && (Making(rs[g]) || Tearing(rs[g])) ==> rs[g].id == id
    requires Sound(c, o', now) && Backed(id, o', rs[g := r])
    ensures ObjectsFit(c, rs[g := r], os[id := o'], now)
  {
    var os' := os[id := o'];
    forall k | k in os' ensures Sound(c, os'[k], now) && Backed(k, os'[k], rs[g := r]) {
      if k != id {
        assert Backed(k, os[k], rs);
      }
    }
  }

  lemma PortsUpdate(c: Config, inUse: set<int>, owner: map<int, Holder>, rs: Routines, os: Objects, g: Gid, r: Routine, id: Id, o': Session)
    requires PortsOwned(c, inUse, owner, rs, os) && id in os
    requires !Holding(r) && (g in rs ==> !Holding(rs[g]))
    requires o'.port == os[id].port && o'.released == os[id].released
    ensures PortsOwned(c, inUse, owner, rs[g := r], os[id := o'])
  {
    forall p | p in owner ensures Holds(rs[g := r], os[id := o'], owner[p], p) {
      assert Holds(rs, os, owner[p], p);
    }
  }

  lemma ShutdownUpdate(shutdown: bool, snapshot: set<Id>, rs: Routines, os: Objects, g: Gid, r: Routine, id: Id, o': Session)
    requires ShutdownSees(shutdown, snapshot, rs, os) && id in os
    requires Rank(o'.phase) >= Rank(os[id].phase)
    requires MayMove(rs, os[id := o'], g, r)
    ensures ShutdownSees(shutdown, snapshot, rs[g := r], os[id := o'])
  {
    forall k ensures OfShutdown(k) in rs[g := r] <==> k in snapshot {
      assert OfShutdown(k) in rs <==> k in snapshot;
    }
  }

  lemma RegistryUpdate(active: set<Id>, history: seq<Id>, os: Objects, id: Id, o': Session)
    requires Registry(active, history, os) && id in os
    requires Live(o'.phase) == Live(os[id].phase) && o'.phase.Terminated? == os[id].phase.Terminated?
    ensures Registry(active, history, os[id := o'])
  {
  }

  /** A step by g on its session id that neither takes nor gives a port. */
  lemma UpdateKeeps(c: Config, s: State, g: Gid, r: Routine, id: Id, o': Session, active: set<Id>, history: seq<Id>)
    requires Inv(c, s) && id in s.objects
    requires g in s.routines && Bound(s.routines[g]) ==> s.routines[g].id == id
    requires !Holding(r) && (g in s.routines ==> !Holding(s.routines[g]))
    requires OthersUnmoved(g, s.objects[id], o')
    requires Bound(r) ==> r.id == id && Fits(g, r, o')
    requires Sound(c, o', s.now) && Backed(id, o', s.routines[g := r])
    requires o'.port == s.objects[id].port && o'.released == s.objects[id].released
    requires Rank(o'.phase) >= Rank(s.objects[id].phase)
    requires MayMove(s.routines, s.objects[id := o'], g, r)
    requires Registry(active, history, s.objects[id := o'])
    ensures Inv(c, Put(Move(s, g, r), id, o').(active := active, history := history))
  {
    var rs, os := s.routines, s.objects;
    RoutinesUpdate(rs, os, g, r, id, o');
    ObjectsUpdate(c, rs, os, s.now, g, r, id, o');
    PortsUpdate(c, s.inUse, s.owner, rs, os, g, r, id, o');
    ShutdownUpdate(s.shutdown, s.snapshot, rs, os, g, r, id, o');
  }

  /** The same for a step that leaves the session on the list it is on. */
  lemma TouchKeeps(c: Config, s: State, g: Gid, r: Routine, id: Id, o': Session)
    requires Inv(c, s) && id in s.objects && g in s.routines
    requires Bound(s.routines[g]) ==> s.routines[g].id == id
    requires !Holding(r) && !Holding(s.routines[g])
    requires OthersUnmoved(g, s.objects[id], o')
    requires Bound(r) ==> r.id == id && Fits(g, r, o')
    requires Sound(c, o', s.now) && Backed(id, o', s.routines[g := r])
    requires o'.port == s.objects[id].port && o'.released == s.objects[id].released
    requires Rank(o'.phase) >= Rank(s.objects[id].phase) && Live(o'.phase) == Live(s.objects[id].phase)
    requires o'.phase.Terminated? == s.objects[id].phase.Terminated?
    requires MayMove(s.routines, s.objects[id := o'], g, r)
    ensures Inv(c, Put(Move(s, g, r), id, o'))
  {
    RegistryUpdate(s.active, s.history, s.objects, id, o');
    UpdateKeeps(c, s, g, r, id, o', s.active, s.history);
    assert Put(Move(s, g, r), id, o').(active := s.active, history := s.history) == Put(Move(s, g, r), id, o');
  }

  // ---- The steps of CreateSession ----

  lemma CreateKeeps(c: Config, s: State, g: Gid)
    requires Inv(c, s) && Unborn(s, g)
    ensures Inv(c, Create(c, s, g))
  {
    MoveKeeps(c, s, g, Done);
    MoveKeeps(c, s, g, Checked);
  }

  lemma AllocateKeeps(c: Config, s: State, g: Gid)
    requires Inv(c, s) && g in s.routines && s.routines[g] == Checked
    ensures Inv(c, Allocate(c, s, g))
  {
    match LowestFree(c.first, c.last, s.inUse) {
      case None =>
        MoveKeeps(c, s, g, Done);
      case Some(port) =>
        var rs, os, r := s.routines, s.objects, Allocated(port);
        assert g.Spawned?;
        RoutinesMove(rs, os, g, r);
        ObjectsMove(c, rs, os, s.now, g, r);
        ShutdownMove(s.shutdown, s.snapshot, rs, os, g, r);
        PortsAllocate(c, s.inUse, s.owner, rs, os, g, port);
    }
  }

  lemma PortsAllocate(c: Config, inUse: set<int>, owner: map<int, Holder>, rs: Routines, os: Objects, g: Gid, port: int)
    requires PortsOwned(c, inUse, owner, rs, os)
    requires c.first <= port <= c.last && port !in inUse && g in rs && rs[g] == Checked
    ensures PortsOwned(c, inUse + {port}, owner[port := ByRoutine(g)], rs[g := Allocated(port)], os)
  {
    var rs', owner' := rs[g := Allocated(port)], owner[port := ByRoutine(g)];
    forall p | p in owner' ensures c.first <= p <= c.last && Holds(rs', os, owner'[p], p) {
      assert p != port ==> Holds(rs, os, owner[p], p);
    }
  }

  lemma NewSessionKeeps(c: Config, s: State, g: Gid, port: int, id: Id, target: string, ip: string, value: string, ttl: int)
    requires Inv(c, s) && g in s.routines && s.routines[g] == Allocated(port) && id !in s.objects
    ensures Inv(c, NewSession(c, s, g, port, id, target, ip, value, ttl))
  {
    var o := Fresh(c, g, port, target, ip, value, s.now + ttl);
    var r := Building(id, NeedConfig);
    FreshFits(c, s.routines, g, id, o, s.now);
    NewSessionIs(c, s, g, port, id, target, ip, value, ttl);
    ObjectAddedKeeps(c, s, g, r, id, o);
  }

  lemma NewSessionIs(c: Config, s: State, g: Gid, port: int, id: Id, target: string, ip: string, value: string, ttl: int)
    ensures NewSession(c, s, g, port, id, target, ip, value, ttl)
            == WithObject(s, g, Building(id, NeedConfig), id, Fresh(c, g, port, target, ip, value, s.now + ttl))
  {
  }

  function WithObject(s: State, g: Gid, r: Routine, id: Id, o: Session): State {
    s.(routines := s.routines[g := r], objects := s.objects[id := o], owner := s.owner[o.port := BySession(id)])
  }

  lemma FreshFits(c: Config, rs: Routines, g: Gid, id: Id, o: Session, now: int)
    requires o == Fresh(c, g, o.port, o.target, o.clientIP, o.token.value, o.token.expiry)
    ensures var r := Building(id, NeedConfig); Fits(g, r, o) && Sound(c, o, now) && Backed(id, o, rs[g := r])
  {
  }

  lemma ObjectAddedKeeps(c: Config, s: State, g: Gid, r: Routine, id: Id, o: Session)
    requires Inv(c, s) && id !in s.objects && g in s.routines && s.routines[g] == Allocated(o.port)
    requires r.Building? && r.id == id && Fits(g, r, o)
    requires Sound(c, o, s.now) && Backed(id, o, s.routines[g := r])
    ensures Inv(c, WithObject(s, g, r, id, o))
  {
    RoutinesNew(s.routines, s.objects, g, r, id, o);
    ObjectsNew(c, s.routines, s.objects, s.now, g, r, id, o);
    NewSessionBooks(c, s, g, r, id, o);
  }

  lemma NewSessionBooks(c: Config, s: State, g: Gid, r: Routine, id: Id, o: Session)
    requires PortsOwned(c, s.inUse, s.owner, s.routines, s.objects)
    requires Registry(s.active, s.history, s.objects)
    requires ShutdownSees(s.shutdown, s.snapshot, s.routines, s.objects)
    requires g in s.routines && s.routines[g] == Allocated(o.port) && !Holding(r)
    requires id !in s.objects && !o.released && o.phase.Creating?
    ensures PortsOwned(c, s.inUse, s.owner[o.port := BySession(id)], s.routines[g := r], s.objects[id := o])
    ensures Registry(s.active, s.history, s.objects[id := o])
    ensures ShutdownSees(s.shutdown, s.snapshot, s.routines[g := r], s.objects[id := o])
  {
    PortsHandOver(c, s.inUse, s.owner, s.routines, s.objects, g, r, id, o);
    RegistryNew(s.active, s.history, s.objects, id, o);
    ShutdownNew(s.shutdown, s.snapshot, s.routines, s.objects, g, r, id, o);
  }

  lemma RoutinesNew(rs: Routines, os: Objects, g: Gid, r: Routine, id: Id, o: Session)
    requires RoutinesFit(rs, os) && id !in os && r.Building? && r.id == id && Fits(g, r, o)
    ensures RoutinesFit(rs[g := r], os[id := o])
  {
  }

  lemma ObjectsNew(c: Config, rs: Routines, os: Objects, now: int, g: Gid, r: Routine, id: Id, o: Session)
    requires ObjectsFit(c, rs, os, now) && g in rs && !Making(rs[g]) && !Tearing(rs[g])
    requires Sound(c, o, now) && Backed(id, o, rs[g := r])
    ensures ObjectsFit(c, rs[g := r], os[id := o], now)
  {
    ObjectsMove(c, rs, os, now, g, r);
  }

  lemma ShutdownNew(shutdown: bool, snapshot: set<Id>, rs: Routines, os: Objects, g: Gid, r: Routine, id: Id, o: Session)
    requires ShutdownSees(shutdown, snapshot, rs, os) && id !in os && g in rs && rs[g].Allocated?
    ensures ShutdownSees(shutdown, snapshot, rs[g := r], os[id := o])
  {
    ShutdownMove(shutdown, snapshot, rs, os, g, r);
  }

  lemma RegistryNew(active: set<Id>, history: seq<Id>, os: Objects, id: Id, o: Session)
    requires Registry(active, history, os) && id !in os && o.phase.Creating?
    ensures Registry(active, history, os[id := o])
  {
  }

  /** The port a creator held alone passes to the session object it has made. */
  lemma PortsHandOver(c: Config, inUse: set<int>, owner: map<int, Holder>, rs: Routines, os: Objects, g: Gid, r: Routine, id: Id, o: Session)
    requires PortsOwned(c, inUse, owner, rs, os)
    requires g in rs && rs[g] == Allocated(o.port) && !Holding(r) && id !in os && !o.released
    ensures PortsOwned(c, inUse, owner[o.port := BySession(id)], rs[g := r], os[id := o])
  {
    var rs', os', owner' := rs[g := r], os[id := o], owner[o.port := BySession(id)];
    assert Holds(rs, os, owner[o.port], o.port);
    forall p | p in owner' ensures c.first <= p <= c.last && Holds(rs', os', owner'[p], p) {
      assert p != o.port ==> Holds(rs, os, owner[p], p);
    }
  }

  lemma AdvanceKeeps(c: Config, s: State, g: Gid, id: Id, stage: Stage)
    requires Inv(c, s) && g in s.routines && s.routines[g] == Building(id, stage)
    ensures Inv(c, Advance(s, g, id, stage))
  {
    match stage {
      case NeedConfig => MoveKeeps(c, s, g, Building(id, NeedProxy));
      case NeedProxy => MoveKeeps(c, s, g, Building(id, NeedReady));
      case NeedReady =>
        var o' := s.objects[id].(serving := true);
        TouchKeeps(c, s, g, Serving(id), id, o');
    }
  }

  lemma FailEarlyKeeps(c: Config, s: State, g: Gid, port: int)
    requires Inv(c, s) && g in s.routines && s.routines[g] == Allocated(port)
    ensures Inv(c, Move(s, g, Failing(port)))
  {
    var rs, os, r := s.routines, s.objects, Failing(port);
    assert g.Spawned?;
    RoutinesMove(rs, os, g, r);
    ObjectsMove(c, rs, os, s.now, g, r);
    ShutdownMove(s.shutdown, s.snapshot, rs, os, g, r);
    forall p | p in s.owner ensures Holds(rs[g := r], os, s.owner[p], p) {
      assert Holds(rs, os, s.owner[p], p);
    }
  }

  lemma AbandonKeeps(c: Config, s: State, g: Gid, id: Id, stage: Stage)
    requires Inv(c, s) && g in s.routines && s.routines[g] == Building(id, stage)
    ensures Inv(c, Abandon(s, g, id))
  {
    var rs, os := s.routines, s.objects;
    var r := Failing(os[id].port);
    assert g.Spawned?;
    RoutinesAbandon(rs, os, g, r, id, stage);
    ObjectsAbandon(c, rs, os, s.now, g, r, id);
    PortsAbandon(c, s.inUse, s.owner, rs, os, g, id);
    RegistryAbandon(s.active, s.history, os, id);
    ShutdownMove(s.shutdown, s.snapshot, rs, os, g, r);
  }

  /** Only the creator knows a session whose gatekeeper has not been started. */
  lemma RoutinesAbandon(rs: Routines, os: Objects, g: Gid, r: Routine, id: Id, stage: Stage)
    requires RoutinesFit(rs, os) && g in rs && rs[g] == Building(id, stage) && r.Failing?
    ensures RoutinesFit(rs[g := r], os - {id})
  {
    var rs', os' := rs[g := r], os - {id};
    assert Fits(g, rs[g], os[id]);
    forall h | h in rs' && Bound(rs'[h]) ensures rs'[h].id in os' && Fits(h, rs'[h], os'[rs'[h].id]) {
      assert Fits(h, rs[h], os[rs[h].id]);
    }
  }

  lemma ObjectsAbandon(c: Config, rs: Routines, os: Objects, now: int, g: Gid, r: Routine, id: Id)
    requires ObjectsFit(c, rs, os, now) && g in rs && rs[g].Building? && rs[g].id == id
    ensures ObjectsFit(c, rs[g := r], os - {id}, now)
  {
    var os' := os - {id};
    forall k | k in os' ensures Sound(c, os'[k], now) && Backed(k, os'[k], rs[g := r]) {
      assert Backed(k, os[k], rs);
    }
  }

  lemma PortsAbandon(c: Config, inUse: set<int>, owner: map<int, Holder>, rs: Routines, os: Objects, g: Gid, id: Id)
    requires PortsOwned(c, inUse, owner, rs, os) && g in rs && rs[g].Building? && id in os && !os[id].released
    ensures PortsOwned(c, inUse, owner[os[id].port := ByRoutine(g)], rs[g := Failing(os[id].port)], os - {id})
  {
    var rs', owner' := rs[g := Failing(os[id].port)], owner[os[id].port := ByRoutine(g)];
    forall p | p in owner' ensures c.first <= p <= c.last && Holds(rs', os - {id}, owner'[p], p) {
      assert Holds(rs, os, owner[p], p);
    }
  }

  lemma RegistryAbandon(active: set<Id>, history: seq<Id>, os: Objects, id: Id)
    requires Registry(active, history, os) && id in os && os[id].phase.Creating?
    ensures Registry(active, history, os - {id})
  {
  }

  lemma GiveBackKeeps(c: Config, s: State, g: Gid, port: int)
    requires Inv(c, s) && g in s.routines && s.routines[g] == Failing(port)
    ensures port in s.inUse && Inv(c, Free(c, Move(s, g, Done), port))
  {
    var rs, os := s.routines, s.objects;
    assert g.Spawned?;
    RoutinesMove(rs, os, g, Done);
    ObjectsMove(c, rs, os, s.now, g, Done);
    ShutdownMove(s.shutdown, s.snapshot, rs, os, g, Done);
    PortsGiveBack(c, s.inUse, s.owner, rs, os, g, port);
  }

  lemma PortsGiveBack(c: Config, inUse: set<int>, owner: map<int, Holder>, rs: Routines, os: Objects, g: Gid, port: int)
    requires PortsOwned(c, inUse, owner, rs, os) && g in rs && rs[g] == Failing(port)
    ensures PortsOwned(c, inUse - {port}, owner - {port}, rs[g := Done], os)
  {
    forall p | p in owner - {port} ensures Holds(rs[g := Done], os, owner[p], p) {
      assert Holds(rs, os, owner[p], p);
    }
  }

  lemma RegisterFits(c: Config, g: Gid, id: Id, o: Session, now: int)
    requires Sound(c, o, now) && Fits(g, Serving(id), o)
    ensures var o' := o.(phase := Active); OthersUnmoved(g, o, o') && Sound(c, o', now)
  {
  }

  lemma RegistryRegister(active: set<Id>, history: seq<Id>, os: Objects, id: Id, o': Session)
    requires Registry(active, history, os) && id in os && os[id].phase.Creating? && o'.phase.Active?
    ensures Registry(active + {id}, history, os[id := o'])
  {
  }

  lemma RegisterKeeps(c: Config, s: State, g: Gid, id: Id)
    requires Inv(c, s) && g in s.routines && s.routines[g] == Serving(id)
    ensures Inv(c, Register(s, g, id))
  {
    RegisterFits(c, g, id, s.objects[id], s.now);
    RegistryRegister(s.active, s.history, s.objects, id, s.objects[id].(phase := Active));
    UpdateKeeps(c, s, g, Registered(id), id, s.objects[id].(phase := Active), s.active + {id}, s.history);
  }

  // ---- The steps of TerminateSession ----

  lemma EnterFits(c: Config, g: Gid, id: Id, o: Session, now: int)
    requires Sound(c, o, now) && (o.phase.Active? || o.phase.Connected?)
    ensures OthersUnmoved(g, o, Claimed(o, g)) && Sound(c, Claimed(o, g), now) && Fits(g, Won(id), Claimed(o, g))
  {
  }

  lemma EnterKeeps(c: Config, s: State, g: Gid, id: Id)
    requires Inv(c, s) && g in s.routines && s.routines[g] == Calling(id)
    ensures Inv(c, Enter(s, g, id))
  {
    if id !in s.active || s.objects[id].phase.Terminating? {
      MoveKeeps(c, s, g, Done);
    } else {
      EnterFits(c, g, id, s.objects[id], s.now);
      TouchKeeps(c, s, g, Won(id), id, Claimed(s.objects[id], g));
    }
  }

  lemma CloseChannelFits(c: Config, g: Gid, id: Id, o: Session, now: int)
    requires Sound(c, o, now) && Fits(g, Won(id), o)
    ensures OthersUnmoved(g, o, ChannelClosed(o)) && Sound(c, ChannelClosed(o), now)
    ensures Fits(g, Closed(id), ChannelClosed(o))
  {
  }

  lemma CloseChannelKeeps(c: Config, s: State, g: Gid, id: Id)
    requires Inv(c, s) && g in s.routines && s.routines[g] == Won(id)
    ensures s.objects[id].closes == 0 && Inv(c, CloseChannel(s, g, id))
  {
    CloseChannelFits(c, g, id, s.objects[id], s.now);
    TouchKeeps(c, s, g, Closed(id), id, ChannelClosed(s.objects[id]));
  }

  lemma ReleasePortKeeps(c: Config, s: State, g: Gid, id: Id)
    requires Inv(c, s) && g in s.routines && s.routines[g] == Stopped(id)
    ensures s.objects[id].port in s.inUse && Inv(c, ReleasePort(c, s, g, id))
  {
    var rs, os, r := s.routines, s.objects, Released(id);
    var o := os[id];
    var o' := o.(released := true);
    RoutinesUpdate(rs, os, g, r, id, o');
    ObjectsUpdate(c, rs, os, s.now, g, r, id, o');
    RegistryUpdate(s.active, s.history, os, id, o');
    ShutdownUpdate(s.shutdown, s.snapshot, rs, os, g, r, id, o');
    PortsRelease(c, s.inUse, s.owner, rs, os, g, r, id, o');
  }

  lemma PortsRelease(c: Config, inUse: set<int>, owner: map<int, Holder>, rs: Routines, os: Objects, g: Gid, r: Routine, id: Id, o': Session)
    requires PortsOwned(c, inUse, owner, rs, os) && g in rs && !Holding(rs[g]) && !Holding(r)
    requires id in os && !os[id].released && o'.port == os[id].port && o'.released
    ensures o'.port in inUse && c.first <= o'.port <= c.last
    ensures PortsOwned(c, inUse - {o'.port}, owner - {o'.port}, rs[g := r], os[id := o'])
  {
    forall p | p in owner - {o'.port} ensures Holds(rs[g := r], os[id := o'], owner[p], p) {
      assert Holds(rs, os, owner[p], p);
    }
  }

  lemma FinishFits(c: Config, g: Gid, id: Id, o: Session, now: int)
    requires Sound(c, o, now) && Fits(g, Released(id), o)
    ensures var o' := o.(phase := Terminated); OthersUnmoved(g, o, o') && Sound(c, o', now)
  {
  }

  lemma FinishKeeps(c: Config, s: State, g: Gid, id: Id)
    requires Inv(c, s) && g in s.routines && s.routines[g] == Released(id)
    ensures id !in s.history && Inv(c, Finish(s, g, id))
  {
    var o' := s.objects[id].(phase := Terminated);
    FinishFits(c, g, id, s.objects[id], s.now);
    RegistryFinish(s.active, s.history, s.objects, id, o');
    UpdateKeeps(c, s, g, Done, id, o', s.active - {id}, s.history + [id]);
  }

  lemma RegistryFinish(active: set<Id>, history: seq<Id>, os: Objects, id: Id, o': Session)
    requires Registry(active, history, os) && id in os && Live(os[id].phase) && o'.phase.Terminated?
    ensures Registry(active - {id}, history + [id], os[id := o'])
  {
  }

  // ---- Shutdown ----

  lemma ShutdownKeeps(c: Config, s: State)
    requires Inv(c, s) && !s.shutdown
    ensures Inv(c, Shutdown(s))
  {
    var rs, os, rs' := s.routines, s.objects, s.routines + Sweepers(s.active);
    SweepersJoin(s.active, s.snapshot, rs, os);
    RoutinesGrow(rs, rs', os);
    ObjectsGrow(c, rs, rs', os, s.now);
    PortsGrow(c, s.inUse, s.owner, rs, rs', os);
    ShutdownStarts(s.active, s.history, rs, rs', os);
  }

  /** Nobody already running is disturbed, and the newcomers have only called TerminateSession. */
  ghost predicate Grown(rs: Routines, rs': Routines) {
    && (forall g | g in rs :: g in rs' && rs'[g] == rs[g])
    && (forall g | g in rs' && g !in rs :: rs'[g].Calling?)
  }

  lemma SweepersJoin(active: set<Id>, snapshot: set<Id>, rs: Routines, os: Objects)
    requires ShutdownSees(false, snapshot, rs, os)
    ensures Grown(rs, rs + Sweepers(active))
  {
    forall id ensures OfShutdown(id) !in rs {
      assert OfShutdown(id) in rs <==> id in snapshot;
    }
  }

  lemma RoutinesGrow(rs: Routines, rs': Routines, os: Objects)
    requires RoutinesFit(rs, os) && Grown(rs, rs')
    ensures RoutinesFit(rs', os)
  {
    forall g | g in rs' && Bound(rs'[g]) ensures rs'[g].id in os && Fits(g, rs'[g], os[rs'[g].id]) {
      assert g in rs && Bound(rs[g]);
    }
  }

  lemma ShutdownStarts(active: set<Id>, history: seq<Id>, rs: Routines, rs': Routines, os: Objects)
    requires ShutdownSees(false, {}, rs, os) && Registry(active, history, os)
    requires rs' == rs + Sweepers(active)
    ensures ShutdownSees(true, active, rs', os)
  {
    forall id ensures OfShutdown(id) in rs' <==> id in active {
      assert OfShutdown(id) !in rs;
    }
  }

  lemma ObjectsGrow(c: Config, rs: Routines, rs': Routines, os: Objects, now: int)
    requires ObjectsFit(c, rs, os, now) && Grown(rs, rs')
    ensures ObjectsFit(c, rs', os, now)
  {
    forall k | k in os ensures Backed(k, os[k], rs') {
      assert Backed(k, os[k], rs);
    }
  }

  lemma PortsGrow(c: Config, inUse: set<int>, owner: map<int, Holder>, rs: Routines, rs': Routines, os: Objects)
    requires PortsOwned(c, inUse, owner, rs, os) && Grown(rs, rs')
    ensures PortsOwned(c, inUse, owner, rs', os)
  {
    forall p | p in owner ensures Holds(rs', os, owner[p], p) {
      assert Holds(rs, os, owner[p], p);
    }
  }

  // ---- The steps of handleConnection ----

  lemma PresentFits(c: Config, g: Gid, id: Id, o: Session, a: Admission)
    requires Sound(c, o, a.at) && o.serving && a.who == g
    requires (o.clientIP == "" || a.ip == o.clientIP) && a.target == o.target && Check(o.token, a.value, a.at).Ok?
    ensures OthersUnmoved(g, o, Admit(o, a)) && Sound(c, Admit(o, a), a.at) && Fits(g, Admitted(id), Admit(o, a))
  {
  }

  lemma PresentKeeps(c: Config, s: State, g: Gid, id: Id, ip: string, target: string, value: string)
    requires Inv(c, s) && g in s.routines && s.routines[g] == Connection(id)
    ensures Inv(c, Present(s, g, id, ip, target, value))
  {
    var o := s.objects[id];
    if (o.clientIP != "" && ip != o.clientIP) || target != o.target || Check(o.token, value, s.now).Err? {
      MoveKeeps(c, s, g, Done);
    } else {
      AdmissionKeeps(c, s, g, id, Admission(g, ip, target, value, s.now));
    }
  }

  lemma AdmissionKeeps(c: Config, s: State, g: Gid, id: Id, a: Admission)
    requires Inv(c, s) && g in s.routines && s.routines[g] == Connection(id) && a.who == g && a.at == s.now
    requires var o := s.objects[id];
             (o.clientIP == "" || a.ip == o.clientIP) && a.target == o.target && Check(o.token, a.value, a.at).Ok?
    ensures Inv(c, Put(Move(s, g, Admitted(id)), id, Admit(s.objects[id], a)))
  {
    assert Fits(g, s.routines[g], s.objects[id]);
    assert Backed(id, s.objects[id], s.routines);
    PresentFits(c, g, id, s.objects[id], a);
    TouchKeeps(c, s, g, Admitted(id), id, Admit(s.objects[id], a));
  }

  lemma NotifyFits(c: Config, g: Gid, id: Id, o: Session, now: int)
    requires Sound(c, o, now) && Fits(g, Admitted(id), o)
    ensures OthersUnmoved(g, o, Greeted(o, now)) && Sound(c, Greeted(o, now), now)
  {
  }

  lemma NotifyBacked(rs: Routines, g: Gid, id: Id, o: Session, now: int)
    requires Backed(id, o, rs) && g in rs && rs[g] == Admitted(id)
    ensures Backed(id, Greeted(o, now), rs[g := Done])
  {
  }

  lemma NotifyKeeps(c: Config, s: State, g: Gid, id: Id)
    requires Inv(c, s) && g in s.routines && s.routines[g] == Admitted(id)
    ensures Inv(c, Notify(s, g, id))
  {
    var o' := Greeted(s.objects[id], s.now);
    NotifyFits(c, g, id, s.objects[id], s.now);
    NotifyBacked(s.routines, g, id, s.objects[id], s.now);
    TouchKeeps(c, s, g, Done, id, o');
  }

  lemma TickKeeps(c: Config, s: State, d: nat)
    requires Inv(c, s)
    ensures Inv(c, s.(now := s.now + d))
  {
  }

  // ---- Every step, every run ----

  lemma CreatorStepKeeps(c: Config, s: State, a: Action)
    requires Inv(c, s) && Enabled(c, s, a)
    requires a.DoCreate? || a.DoAllocate? || a.DoNewSession? || a.DoAdvance? || a.DoFail? || a.DoGiveBack? || a.DoRegister?
    ensures Inv(c, Apply(c, s, a))
  {
    match a {
      case DoCreate(g) => CreateKeeps(c, s, g);
      case DoAllocate(g) => AllocateKeeps(c, s, g);
      case DoNewSession(g, id, target, ip, value, ttl) => NewSessionKeeps(c, s, g, s.routines[g].port, id, target, ip, value, ttl);
      case DoAdvance(g) => AdvanceKeeps(c, s, g, s.routines[g].id, s.routines[g].stage);
      case DoFail(g) =>
        if s.routines[g].Allocated? {
          FailEarlyKeeps(c, s, g, s.routines[g].port);
        } else {
          AbandonKeeps(c, s, g, s.routines[g].id, s.routines[g].stage);
        }
      case DoGiveBack(g) => GiveBackKeeps(c, s, g, s.routines[g].port);
      case DoRegister(g) => RegisterKeeps(c, s, g, s.routines[g].id);
    }
  }

  /** The moves that touch nothing but the program counter. */
  predicate SmallMove(from: Routine, to: Routine) {
    || (from.Registered? && to == Watching(from.id))
    || (from.Watching? && (to == Done || to == Calling(from.id)))
    || (from.Closed? && to == Stopped(from.id))
    || ((from.Connection? || from.Admitted?) && to == Done)
  }

  lemma SmallMoveKeeps(c: Config, s: State, g: Gid, r: Routine)
    requires Inv(c, s) && g in s.routines && SmallMove(s.routines[g], r)
    ensures Inv(c, Move(s, g, r))
  {
    assert Fits(g, s.routines[g], s.objects[s.routines[g].id]);
    MoveKeeps(c, s, g, r);
  }

  lemma BirthKeeps(c: Config, s: State, g: Gid, r: Routine)
    requires Inv(c, s) && Unborn(s, g)
    requires r.Calling? || (r.Connection? && r.id in s.objects && s.objects[r.id].serving)
    ensures Inv(c, Move(s, g, r))
  {
    MoveKeeps(c, s, g, r);
  }

  lemma TerminatorStepKeeps(c: Config, s: State, a: Action)
    requires Inv(c, s) && Enabled(c, s, a)
    requires a.DoEnter? || a.DoCloseChannel? || a.DoReleasePort? || a.DoFinish?
    ensures Inv(c, Apply(c, s, a))
  {
    match a {
      case DoEnter(g) => EnterKeeps(c, s, g, s.routines[g].id);
      case DoCloseChannel(g) => CloseChannelKeeps(c, s, g, s.routines[g].id);
      case DoReleasePort(g) => ReleasePortKeeps(c, s, g, s.routines[g].id);
      case DoFinish(g) => FinishKeeps(c, s, g, s.routines[g].id);
    }
  }

  lemma OtherStepKeeps(c: Config, s: State, a: Action)
    requires Inv(c, s) && Enabled(c, s, a)
    requires a.DoTick? || a.DoStartMonitor? || a.DoMonitorQuit? || a.DoMonitorFire? || a.DoTerminate? || a.DoStopServices? || a.DoShutdown?
    ensures Inv(c, Apply(c, s, a))
  {
    match a {
      case DoTick(d) => TickKeeps(c, s, d);
      case DoStartMonitor(g) => SmallMoveKeeps(c, s, g, Watching(s.routines[g].id));
      case DoMonitorQuit(g) => SmallMoveKeeps(c, s, g, Done);
      case DoMonitorFire(g) => SmallMoveKeeps(c, s, g, Calling(s.routines[g].id));
      case DoTerminate(g, id) => BirthKeeps(c, s, g, Calling(id));
      case DoStopServices(g) => SmallMoveKeeps(c, s, g, Stopped(s.routines[g].id));
      case DoShutdown => ShutdownKeeps(c, s);
    }
  }

  lemma HandlerStepKeeps(c: Config, s: State, a: Action)
    requires Inv(c, s) && Enabled(c, s, a)
    requires a.DoAccept? || a.DoPresent? || a.DoDropConnection? || a.DoNotify?
    ensures Inv(c, Apply(c, s, a))
  {
    match a {
      case DoAccept(g, id) => BirthKeeps(c, s, g, Connection(id));
      case DoPresent(g, ip, target, value) => PresentKeeps(c, s, g, s.routines[g].id, ip, target, value);
      case DoDropConnection(g) => SmallMoveKeeps(c, s, g, Done);
      case DoNotify(g) => NotifyKeeps(c, s, g, s.routines[g].id);
    }
  }

  /** Every step of the program keeps the invariant. */
  lemma StepKeeps(c: Config, s: State, a: Action)
    requires Inv(c, s) && Enabled(c, s, a)
    ensures Inv(c, Apply(c, s, a))
  {
    if a.DoCreate? || a.DoAllocate? || a.DoNewSession? || a.DoAdvance? || a.DoFail? || a.DoGiveBack? || a.DoRegister? {
      CreatorStepKeeps(c, s, a);
    } else if a.DoEnter? || a.DoCloseChannel? || a.DoReleasePort? || a.DoFinish? {
      TerminatorStepKeeps(c, s, a);
    } else if a.DoAccept? || a.DoPresent? || a.DoDropConnection? || a.DoNotify? {
      HandlerStepKeeps(c, s, a);
    } else {
      OtherStepKeeps(c, s, a);
    }
  }

  /** The action behind the i-th step of a run. */
  lemma StepTaken(c: Config, r: seq<State>, i: nat) returns (a: Action)
    requires Run(c, r) && i + 1 < |r|
    ensures Enabled(c, r[i], a) && r[i + 1] == Apply(c, r[i], a)
  {
    assert StepAt(c, r, i);
    a :| Enabled(c, r[i], a) && r[i + 1] == Apply(c, r[i], a);
  }

  /** Any enabled action takes a run one step further. */
  lemma RunGoesOn(c: Config, r: seq<State>, a: Action) returns (r': seq<State>)
    requires Run(c, r) && Enabled(c, r[|r| - 1], a)
    ensures r' == r + [Apply(c, r[|r| - 1], a)] && Run(c, r')
  {
    r' := r + [Apply(c, r[|r| - 1], a)];
    forall i: nat | i + 1 < |r'| ensures StepAt(c, r', i) {
      if i + 1 < |r| {
        var b := StepTaken(c, r, i);
        assert Enabled(c, r'[i], b) && r'[i + 1] == Apply(c, r'[i], b);
      } else {
        assert Enabled(c, r'[i], a) && r'[i + 1] == Apply(c, r'[i], a);
      }
    }
  }

  lemma {:induction false} RunKeeps(c: Config, r: seq<State>, i: nat)
    requires Run(c, r) && i < |r|
    ensures Inv(c, r[i])
  {
    if i > 0 {
      RunKeeps(c, r, i - 1);
      var a := StepTaken(c, r, i - 1);
      StepKeeps(c, r[i - 1], a);
    }
  }
}
