/**
 * The session lifecycle as a transition system (proxy/internal/session/manager.go,
 * with the connection handlers of gatekeeper.go).
 *
 * Every goroutine that touches a session is a Routine with a program counter, and every
 * Action is one region the program runs under a lock, or one unlocked act on shared state.
 * A run is any interleaving of such actions. What sockets, processes and the file system
 * answer is chosen freely by the action.
 *
 * `owner`, `creator`, `winner`, `released` and `admissions` are history variables: no step
 * ever tests them.
 */
module Broker {
  import opened Wrappers
  import opened PortPools
  import opened SessionTokens

  /** A random session id; only its identity matters. */
  type Id = nat

  datatype Config = Config(first: int, last: int, offset: int, max: int)

  datatype Phase = Creating | Active | Connected | Terminating | Terminated

  function Rank(p: Phase): nat {
    match p
    case Creating => 0
    case Active => 1
    case Connected => 2
    case Terminating => 3
    case Terminated => 4
  }

  /** One goroutine; the shutdown terminators are named by the session they were started for. */
  datatype Gid = Spawned(n: nat) | OfShutdown(id: Id)

  datatype Admission = Admission(who: Gid, ip: string, target: string, value: string, at: int)

  datatype Session = Session(
    target: string,
    clientIP: string,
    port: int,
    internalPort: int,
    token: TokenState,
    phase: Phase,
    connectedAt: Option<int>,
    serving: bool,            // the gatekeeper has been started
    closes: nat,              // how often stopMonitor has been closed
    creator: Gid,
    winner: Option<Gid>,      // the terminator that moved it to Terminating
    released: bool,           // its port has been given back
    admissions: seq<Admission>)

  datatype Stage = NeedConfig | NeedProxy | NeedReady

  datatype Routine =
    // CreateSession
    | Checked                              // past the limit check
    | Allocated(port: int)                 // holds a port, no session object yet
    | Building(id: Id, stage: Stage)       // the session object exists, nobody else knows it
    | Serving(id: Id)                      // its gatekeeper runs, the session is not registered
    | Failing(port: int)                   // about to release the port and report an error
    | Registered(id: Id)                   // about to start the monitor
    // monitor
    | Watching(id: Id)
    // TerminateSession
    | Calling(id: Id)
    | Won(id: Id)
    | Closed(id: Id)
    | Stopped(id: Id)
    | Released(id: Id)
    // handleConnection
    | Connection(id: Id)
    | Admitted(id: Id)
    | Done

  datatype Holder = ByRoutine(g: Gid) | BySession(id: Id)

  datatype State = State(
    now: int,
    shutdown: bool,
    snapshot: set<Id>,        // the ids Shutdown collected
    inUse: set<int>,
    owner: map<int, Holder>,
    active: set<Id>,          // keys of Manager.sessions
    history: seq<Id>,
    objects: map<Id, Session>,
    routines: map<Gid, Routine>)

  datatype Action =
    | DoTick(d: nat)
    | DoCreate(g: Gid)
    | DoAllocate(g: Gid)
    | DoNewSession(g: Gid, id: Id, target: string, clientIP: string, value: string, ttl: int)
    | DoAdvance(g: Gid)
    | DoFail(g: Gid)
    | DoGiveBack(g: Gid)
    | DoRegister(g: Gid)
    | DoStartMonitor(g: Gid)
    | DoMonitorQuit(g: Gid)
    | DoMonitorFire(g: Gid)
    | DoTerminate(g: Gid, id: Id)
    | DoEnter(g: Gid)
    | DoCloseChannel(g: Gid)
    | DoStopServices(g: Gid)
    | DoReleasePort(g: Gid)
    | DoFinish(g: Gid)
    | DoShutdown
    | DoAccept(g: Gid, id: Id)
    | DoPresent(g: Gid, ip: string, target: string, value: string)
    | DoDropConnection(g: Gid)
    | DoNotify(g: Gid)

  const INIT := State(0, false, {}, {}, map[], {}, [], map[], map[])

  /** A goroutine that nobody has started yet. */
  predicate Unborn(s: State, g: Gid) {
    g.Spawned? && g !in s.routines
  }

  predicate Enabled(c: Config, s: State, a: Action) {
    match a
    case DoTick(_) => true
    case DoCreate(g) => Unborn(s, g)
    case DoAllocate(g) => g in s.routines && s.routines[g].Checked?
    // GenerateToken drew an id no session ever had
    case DoNewSession(g, id, _, _, _, _) => g in s.routines && s.routines[g].Allocated? && id !in s.objects
    case DoAdvance(g) => g in s.routines && s.routines[g].Building? && s.routines[g].id in s.objects
    case DoFail(g) => g in s.routines && (s.routines[g].Allocated? || (s.routines[g].Building? && s.routines[g].id in s.objects))
    case DoGiveBack(g) => g in s.routines && s.routines[g].Failing?
    case DoRegister(g) => g in s.routines && s.routines[g].Serving? && s.routines[g].id in s.objects
    case DoStartMonitor(g) => g in s.routines && s.routines[g].Registered?
    case DoMonitorQuit(g) => g in s.routines && s.routines[g].Watching? && s.routines[g].id in s.objects && s.objects[s.routines[g].id].closes > 0
    case DoMonitorFire(g) => g in s.routines && s.routines[g].Watching?
    case DoTerminate(g, _) => Unborn(s, g)
    case DoEnter(g) => g in s.routines && s.routines[g].Calling?
    case DoCloseChannel(g) => g in s.routines && s.routines[g].Won? && s.routines[g].id in s.objects
    case DoStopServices(g) => g in s.routines && s.routines[g].Closed?
    case DoReleasePort(g) => g in s.routines && s.routines[g].Stopped? && s.routines[g].id in s.objects
    case DoFinish(g) => g in s.routines && s.routines[g].Released? && s.routines[g].id in s.objects
    case DoShutdown => !s.shutdown
    case DoAccept(g, id) => Unborn(s, g) && id in s.objects && s.objects[id].serving
    case DoPresent(g, _, _, _) => g in s.routines && s.routines[g].Connection? && s.routines[g].id in s.objects
    case DoDropConnection(g) => g in s.routines && (s.routines[g].Connection? || s.routines[g].Admitted?)
    case DoNotify(g) => g in s.routines && s.routines[g].Admitted? && s.routines[g].id in s.objects
  }

  /** The routine g moves on to r. */
  function Move(s: State, g: Gid, r: Routine): State {
    s.(routines := s.routines[g := r])
  }

  function Put(s: State, id: Id, o: Session): State {
    s.(objects := s.objects[id := o])
  }

  /** PortPool.Release, whose error every caller ignores. */
  function Free(c: Config, s: State, port: int): State {
    if port < c.first || port > c.last || port !in s.inUse then s
    else s.(inUse := s.inUse - {port}, owner := s.owner - {port})
  }

  predicate Live(p: Phase) {
    p.Active? || p.Connected? || p.Terminating?
  }

  // ---- What happens to a session object ----

  function Fresh(c: Config, g: Gid, port: int, target: string, clientIP: string, value: string, expiry: int): Session {
    Session(target, clientIP, port, port + c.offset, TokenState(value, expiry, false),
            Creating, None, false, 0, g, None, false, [])
  }

  function Claimed(o: Session, g: Gid): Session {
    o.(phase := Terminating, winner := Some(g))
  }

  function ChannelClosed(o: Session): Session {
    o.(closes := o.closes + 1)
  }

  /** The token is consumed by the attempt that passes. */
  function Admit(o: Session, a: Admission): Session {
    o.(token := AfterCheck(o.token, a.value, a.at), admissions := o.admissions + [a])
  }

  /** The OnConnected callback. */
  function Greeted(o: Session, now: int): Session {
    if o.phase.Active? then o.(phase := Connected, connectedAt := Some(now)) else o
  }

  // ---- CreateSession ----

  function Create(c: Config, s: State, g: Gid): State {
    Move(s, g, if s.shutdown || |s.active| >= c.max then Done else Checked)
  }

  function Allocate(c: Config, s: State, g: Gid): State {
    match LowestFree(c.first, c.last, s.inUse)
    case None => Move(s, g, Done)
    case Some(port) =>
      Move(s, g, Allocated(port)).(inUse := s.inUse + {port}, owner := s.owner[port := ByRoutine(g)])
  }

  function NewSession(c: Config, s: State, g: Gid, port: int, id: Id, target: string, clientIP: string, value: string, ttl: int): State {
    var o := Fresh(c, g, port, target, clientIP, value, s.now + ttl);
    Put(Move(s, g, Building(id, NeedConfig)), id, o).(owner := s.owner[port := BySession(id)])
  }

  function Advance(s: State, g: Gid, id: Id, stage: Stage): State
    requires id in s.objects
  {
    match stage
    case NeedConfig => Move(s, g, Building(id, NeedProxy))
    case NeedProxy => Move(s, g, Building(id, NeedReady))
    case NeedReady => Put(Move(s, g, Serving(id)), id, s.objects[id].(serving := true))
  }

  /** The half-built session object is dropped. */
  function Abandon(s: State, g: Gid, id: Id): State
    requires id in s.objects
  {
    var port := s.objects[id].port;
    Move(s, g, Failing(port)).(objects := s.objects - {id}, owner := s.owner[port := ByRoutine(g)])
  }

  function Register(s: State, g: Gid, id: Id): State
    requires id in s.objects
  {
    Put(Move(s, g, Registered(id)), id, s.objects[id].(phase := Active)).(active := s.active + {id})
  }

  // ---- TerminateSession ----

  function Enter(s: State, g: Gid, id: Id): State {
    if id !in s.active || id !in s.objects then Move(s, g, Done)
    else if s.objects[id].phase.Terminating? || s.objects[id].phase.Terminated? then Move(s, g, Done)
    else Put(Move(s, g, Won(id)), id, Claimed(s.objects[id], g))
  }

  function CloseChannel(s: State, g: Gid, id: Id): State
    requires id in s.objects
  {
    Put(Move(s, g, Closed(id)), id, ChannelClosed(s.objects[id]))
  }

  function ReleasePort(c: Config, s: State, g: Gid, id: Id): State
    requires id in s.objects
  {
    Free(c, Put(Move(s, g, Released(id)), id, s.objects[id].(released := true)), s.objects[id].port)
  }

  function Finish(s: State, g: Gid, id: Id): State
    requires id in s.objects
  {
    Put(Move(s, g, Done), id, s.objects[id].(phase := Terminated))
      .(active := s.active - {id}, history := s.history + [id])
  }

  /** One terminator for each session that is registered now. */
  function Sweepers(active: set<Id>): map<Gid, Routine> {
    map id | id in active :: OfShutdown(id) := Calling(id)
  }

  function Shutdown(s: State): State {
    s.(shutdown := true, snapshot := s.active, routines := s.routines + Sweepers(s.active))
  }

  // ---- handleConnection ----

  /** The allowed IP, then the target, then the token, which passing consumes. */
  function Present(s: State, g: Gid, id: Id, ip: string, target: string, value: string): State
    requires id in s.objects
  {
    var o := s.objects[id];
    if (o.clientIP != "" && ip != o.clientIP) || target != o.target then Move(s, g, Done)
    else if Check(o.token, value, s.now).Err? then Move(s, g, Done)
    else Put(Move(s, g, Admitted(id)), id, Admit(o, Admission(g, ip, target, value, s.now)))
  }

  function Notify(s: State, g: Gid, id: Id): State
    requires id in s.objects
  {
    Put(Move(s, g, Done), id, Greeted(s.objects[id], s.now))
  }

  function Apply(c: Config, s: State, a: Action): State
    requires Enabled(c, s, a)
  {
    match a
    case DoTick(d) => s.(now := s.now + d)
    case DoCreate(g) => Create(c, s, g)
    case DoAllocate(g) => Allocate(c, s, g)
    case DoNewSession(g, id, target, clientIP, value, ttl) => NewSession(c, s, g, s.routines[g].port, id, target, clientIP, value, ttl)
    case DoAdvance(g) => Advance(s, g, s.routines[g].id, s.routines[g].stage)
    case DoFail(g) =>
      if s.routines[g].Allocated? then Move(s, g, Failing(s.routines[g].port)) else Abandon(s, g, s.routines[g].id)
    case DoGiveBack(g) => Free(c, Move(s, g, Done), s.routines[g].port)
    case DoRegister(g) => Register(s, g, s.routines[g].id)
    case DoStartMonitor(g) => Move(s, g, Watching(s.routines[g].id))
    case DoMonitorQuit(g) => Move(s, g, Done)
    case DoMonitorFire(g) => Move(s, g, Calling(s.routines[g].id))
    case DoTerminate(g, id) => Move(s, g, Calling(id))
    case DoEnter(g) => Enter(s, g, s.routines[g].id)
    case DoCloseChannel(g) => CloseChannel(s, g, s.routines[g].id)
    case DoStopServices(g) => Move(s, g, Stopped(s.routines[g].id))
    case DoReleasePort(g) => ReleasePort(c, s, g, s.routines[g].id)
    case DoFinish(g) => Finish(s, g, s.routines[g].id)
    case DoShutdown => Shutdown(s)
    case DoAccept(g, id) => Move(s, g, Connection(id))
    case DoPresent(g, ip, target, value) => Present(s, g, s.routines[g].id, ip, target, value)
    case DoDropConnection(g) => Move(s, g, Done)
    case DoNotify(g) => Notify(s, g, s.routines[g].id)
  }

  /** The program can go from r[i] to r[i + 1] in one step. */
  ghost predicate StepAt(c: Config, r: seq<State>, i: nat)
    requires i + 1 < |r|
  {
    exists a :: Enabled(c, r[i], a) && r[i + 1] == Apply(c, r[i], a)
  }

  /** A finite prefix of an interleaving. */
  ghost predicate Run(c: Config, r: seq<State>) {
    |r| > 0 && r[0] == INIT && forall i: nat | i + 1 < |r| :: StepAt(c, r, i)
  }
}
