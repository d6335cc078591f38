/**
 * Runs that show where the promises of BrokerClients end. Their clients have their tokens from
 * .rdp files, and their sessions go the way of BrokerSolo.
 */
module BrokerRuns {
  import opened Wrappers
  import opened PortPools
  import opened Broker
  import opened BrokerInvariant
  import opened BrokerTheorems
  import opened BrokerSolo
  import opened BrokerClients

  function Last(r: seq<State>): State
    requires r != []
  {
    r[|r| - 1]
  }

  // ---- Going on with a run ----

  lemma FileRunGoesOn(c: Config, r: seq<State>, a: Action) returns (r': seq<State>)
    requires FileRun(c, r) && Enabled(c, Last(r), a)
    requires a.DoPresent? ==> Printed(r, |r| - 1, Last(r).routines[a.g].id, a.value)
    ensures FileRun(c, r') && r' == r + [Apply(c, Last(r), a)]
  {
    r' := RunGoesOn(c, r, a);
    forall i: nat | i + 1 < |r'| ensures FileStepAt(c, r', i) {
      if i + 1 < |r| {
        var b := FileStepTaken(c, r, i);
        FromFileStays(r, r', i, b);
        assert Enabled(c, r'[i], b) && r'[i + 1] == Apply(c, r'[i], b) && FromFile(r', i, b);
      } else {
        FromFileNow(r, r', a);
        assert Enabled(c, r'[i], a) && r'[i + 1] == Apply(c, r'[i], a) && FromFile(r', i, a);
      }
    }
  }

  lemma PrintedStays(r: seq<State>, r': seq<State>, i: nat, id: Id, value: string)
    requires i < |r| && r <= r' && Printed(r, i, id, value)
    ensures forall j | i <= j < |r'| :: Printed(r', j, id, value)
  {
    var k :| 0 <= k <= i && RdpToken(r[k], id) == Some(value);
    assert RdpToken(r'[k], id) == Some(value);
  }

  lemma FromFileNow(r: seq<State>, r': seq<State>, a: Action)
    requires r != [] && r <= r'
    requires a.DoPresent? && a.g in Last(r).routines && Last(r).routines[a.g].Connection? ==>
               Printed(r, |r| - 1, Last(r).routines[a.g].id, a.value)
    ensures FromFile(r', |r| - 1, a)
  {
    if a.DoPresent? && a.g in Last(r).routines && Last(r).routines[a.g].Connection? {
      PrintedStays(r, r', |r| - 1, Last(r).routines[a.g].id, a.value);
    }
  }

  lemma FromFileStays(r: seq<State>, r': seq<State>, i: nat, a: Action)
    requires i < |r| && r <= r' && FromFile(r, i, a)
    ensures FromFile(r', i, a)
  {
    if a.DoPresent? && a.g in r[i].routines && r[i].routines[a.g].Connection? && Printed(r, i, r[i].routines[a.g].id, a.value) {
      PrintedStays(r, r', i, r[i].routines[a.g].id, a.value);
    }
  }

  // ---- One session, from a state b in which neither it nor its creator was there ----

  /** The ports in use while the session is at a place. */
  function PortsAt(b: State, at: Routine, port: int): set<int> {
    if at.Released? || at.Done? then b.inUse else b.inUse + {port}
  }

  function ActiveAt(b: State, id: Id, at: Routine): set<Id> {
    if at.Building? || at.Serving? || at.Done? then b.active else b.active + {id}
  }

  /** Only the session and its creator differ from b; `deal` is the session as it was made. */
  ghost predicate Solo(c: Config, b: State, s: State, g: Gid, id: Id, at: Routine, deal: Session) {
    && s.routines == b.routines[g := at] && s.now == b.now && s.shutdown == b.shutdown
    && id !in b.active && s.active == ActiveAt(b, id, at)
    && deal.port !in b.inUse && c.first <= deal.port <= c.last && s.inUse == PortsAt(b, at, deal.port)
    && id in s.objects && s.objects == b.objects[id := s.objects[id]]
    && SameDeal(deal, s.objects[id]) && s.objects[id].phase == PhaseAt(at) && (!at.Building? ==> s.objects[id].serving)
  }

  lemma SoloGoesOn(c: Config, b: State, s: State, g: Gid, id: Id, at: Routine, deal: Session)
    requires Solo(c, b, s, g, id, at, deal) && OnTheWay(id, at)
    ensures Enabled(c, s, NextAction(g, at)) && Solo(c, b, Apply(c, s, NextAction(g, at)), g, id, NextPlace(at), deal)
  {
    assert s.routines[g] == at;
    StepGoes(c, s, g, id, at);
    StillSolo(c, b, s, Apply(c, s, NextAction(g, at)), g, id, at, deal);
  }

  lemma StillSolo(c: Config, b: State, s: State, s': State, g: Gid, id: Id, at: Routine, deal: Session)
    requires Solo(c, b, s, g, id, at, deal) && OnTheWay(id, at) && Goes(s, s', g, id, at)
    requires at == Stopped(id) ==> s'.inUse == s.inUse - {s.objects[id].port}
    ensures Solo(c, b, s', g, id, NextPlace(at), deal)
  {
    SessionGoes(g, id, at, s.objects[id]);
    WayDown(id, at);
    assert b.inUse + {deal.port} - {deal.port} == b.inUse;
    assert b.active + {id} - {id} == b.active;
    assert b.objects[id := s.objects[id]][id := s'.objects[id]] == b.objects[id := s'.objects[id]];
    assert b.routines[g := at][g := NextPlace(at)] == b.routines[g := NextPlace(at)];
  }

  /** A creation that nothing stands in the way of. */
  ghost predicate Free(c: Config, b: State, g: Gid, id: Id, port: int) {
    && Unborn(b, g) && id !in b.objects && id !in b.active && !b.shutdown && |b.active| < c.max
    && LowestFree(c.first, c.last, b.inUse) == Some(port)
  }

  lemma CreatedSolo(c: Config, r: seq<State>, g: Gid, id: Id, port: int, u: Client) returns (r': seq<State>)
    requires FileRun(c, r) && Free(c, Last(r), g, id, port)
    ensures FileRun(c, r') && r <= r'
    ensures Solo(c, Last(r), Last(r'), g, id, Building(id, NeedConfig), Fresh(c, g, port, u.target, u.ip, u.value, Last(r).now + 60))
  {
    var b := Last(r);
    CheckPassed(c, b, g);
    r' := FileRunGoesOn(c, r, DoCreate(g));
    PortTaken(c, Last(r'), g, port);
    r' := FileRunGoesOn(c, r', DoAllocate(g));
    SessionMade(c, Last(r'), g, id, port, u);
    r' := FileRunGoesOn(c, r', Request(g, id, u));
    assert b.routines[g := Checked][g := Allocated(port)][g := Building(id, NeedConfig)] == b.routines[g := Building(id, NeedConfig)];
  }

  /** On to the place where n steps are left. */
  lemma {:induction false} SoloUntil(c: Config, b: State, r: seq<State>, g: Gid, id: Id, at: Routine, deal: Session, n: nat)
    returns (r': seq<State>, there: Routine)
    requires FileRun(c, r) && Solo(c, b, Last(r), g, id, at, deal)
    requires n <= StepsLeft(at) && (OnTheWay(id, at) || at.Done?)
    ensures FileRun(c, r') && r <= r' && Solo(c, b, Last(r'), g, id, there, deal)
    ensures StepsLeft(there) == n && (OnTheWay(id, there) || there.Done?)
    decreases StepsLeft(at)
  {
    if StepsLeft(at) == n {
      r', there := r, at;
    } else {
      WayDown(id, at);
      SoloGoesOn(c, b, Last(r), g, id, at, deal);
      r' := FileRunGoesOn(c, r, NextAction(g, at));
      r', there := SoloUntil(c, b, r', g, id, NextPlace(at), deal, n);
    }
  }

  lemma Registers(c: Config, r: seq<State>, g: Gid, id: Id, port: int, u: Client) returns (r': seq<State>)
    requires FileRun(c, r) && Free(c, Last(r), g, id, port)
    ensures FileRun(c, r') && r <= r'
    ensures Solo(c, Last(r), Last(r'), g, id, Registered(id), Fresh(c, g, port, u.target, u.ip, u.value, Last(r).now + 60))
    ensures Printed(r', |r'| - 1, id, u.value)
  {
    var there;
    r' := CreatedSolo(c, r, g, id, port, u);
    var deal := Fresh(c, g, port, u.target, u.ip, u.value, Last(r).now + 60);
    r', there := SoloUntil(c, Last(r), r', g, id, Building(id, NeedConfig), deal, 7);
    WayDown(id, there);
    assert RdpToken(Last(r'), id) == Some(u.value);
  }

  /** A registered session ends; the file printed before keeps its token. */
  lemma EndsAlone(c: Config, b: State, r: seq<State>, g: Gid, id: Id, deal: Session, value: string) returns (r': seq<State>)
    requires FileRun(c, r) && Solo(c, b, Last(r), g, id, Registered(id), deal) && Printed(r, |r| - 1, id, value)
    ensures FileRun(c, r') && Solo(c, b, Last(r'), g, id, Done, deal) && Printed(r', |r'| - 1, id, value)
  {
    var there;
    r', there := SoloUntil(c, b, r, g, id, Registered(id), deal, 0);
    PrintedStays(r, r', |r| - 1, id, value);
  }

  // ---- A connection with the right token ----

  predicate Welcome(s: State, id: Id, value: string) {
    id in s.objects && s.objects[id].serving && s.objects[id].token.value == value
    && !s.objects[id].token.consumed && s.now <= s.objects[id].token.expiry
  }

  lemma ConnectionOpens(c: Config, s: State, h: Gid, id: Id)
    requires Unborn(s, h) && id in s.objects && s.objects[id].serving
    ensures Enabled(c, s, DoAccept(h, id)) && Apply(c, s, DoAccept(h, id)) == s.(routines := s.routines[h := Connection(id)])
  {
  }

  lemma ClientPasses(c: Config, s: State, h: Gid, id: Id, value: string)
    requires h in s.routines && s.routines[h] == Connection(id) && Welcome(s, id, value)
    ensures var o := s.objects[id]; var a := DoPresent(h, o.clientIP, o.target, value);
            Enabled(c, s, a) && Apply(c, s, a) ==
              s.(routines := s.routines[h := Admitted(id)],
                 objects := s.objects[id := Admit(o, Admission(h, o.clientIP, o.target, value, s.now))])
  {
  }

  lemma ClientIsAdmitted(c: Config, r: seq<State>, h: Gid, id: Id, value: string) returns (r': seq<State>)
    requires FileRun(c, r) && Unborn(Last(r), h) && Welcome(Last(r), id, value) && Printed(r, |r| - 1, id, value)
    ensures FileRun(c, r') && r <= r'
    ensures var s, o := Last(r), Last(r).objects[id];
            Last(r') == s.(routines := s.routines[h := Admitted(id)],
                           objects := s.objects[id := Admit(o, Admission(h, o.clientIP, o.target, value, s.now))])
  {
    var s := Last(r);
    ConnectionOpens(c, s, h, id);
    r' := FileRunGoesOn(c, r, DoAccept(h, id));
    ClientPasses(c, Last(r'), h, id, value);
    PrintedStays(r, r', |r| - 1, id, value);
    r' := FileRunGoesOn(c, r', DoPresent(h, s.objects[id].clientIP, s.objects[id].target, value));
    assert s.routines[h := Connection(id)][h := Admitted(id)] == s.routines[h := Admitted(id)];
  }

  // ---- A dial that fails ----

  /** In no continuation of the run does the session become Connected. */
  ghost predicate NeverConnects(c: Config, r: seq<State>, id: Id)
    requires r != []
  {
    forall r': seq<State> | Run(c, r') && r <= r' ::
      id in Last(r').objects && Last(r').objects[id].connectedAt.None? && !Last(r').objects[id].phase.Connected?
  }

  lemma SpentNeverConnects(c: Config, r: seq<State>, id: Id)
    requires r != [] && Spent(Last(r), id)
    ensures NeverConnects(c, r, id)
  {
    forall r': seq<State> | Run(c, r') && r <= r'
      ensures id in Last(r').objects && Last(r').objects[id].connectedAt.None? && !Last(r').objects[id].phase.Connected?
    {
      assert r'[|r| - 1] == Last(r);
      NeverConnected(c, r', |r| - 1, |r'| - 1, id);
    }
  }

  lemma DroppedIsSpent(c: Config, s: State, h: Gid, id: Id)
    requires h in s.routines && s.routines[h] == Admitted(id) && forall g | g in s.routines && g != h :: s.routines[g] != Admitted(id)
    requires id in s.objects && s.objects[id].serving && s.objects[id].token.consumed && s.objects[id].connectedAt.None?
    ensures Enabled(c, s, DoDropConnection(h))
    ensures var s' := Apply(c, s, DoDropConnection(h)); Spent(s', id) && s'.objects == s.objects && s'.active == s.active
  {
  }

  /** A broker can make its first session as soon as it has a port and a limit. */
  lemma FirstIsFree(c: Config)
    requires c.max >= 1 && c.first <= c.last
    ensures FileRun(c, [INIT]) && Free(c, INIT, Spawned(0), 0, c.first)
  {
  }

  /**
   * For any client and request: a connection with the printed token is admitted, and then the
   * proxy cannot be dialled. The session is registered and Active, its token is spent, and
   * whatever happens after that, it never becomes Connected.
   */
  lemma FailedDialSpendsToken(c: Config, u: Client) returns (r: seq<State>)
    requires c.max >= 1 && c.first <= c.last
    ensures FileRun(c, r) && 0 in Last(r).active && 0 in Last(r).objects
    ensures var o := Last(r).objects[0]; o.phase.Active? && o.token.consumed && o.token.value == u.value && o.target == u.target
    ensures NeverConnects(c, r, 0)
  {
    FirstIsFree(c);
    r := Registers(c, [INIT], Spawned(0), 0, c.first, u);
    r := ClientIsAdmitted(c, r, Spawned(1), 0, u.value);
    DroppedIsSpent(c, Last(r), Spawned(1), 0);
    r := FileRunGoesOn(c, r, DoDropConnection(Spawned(1)));
    SpentNeverConnects(c, r, 0);
  }

  // ---- A handler that starts late ----

  /** The first session is over, its port is back, and the handler of its client has been admitted. */
  ghost predicate AdmittedAfterEnd(c: Config, s: State, u: Client) {
    && s.routines == map[Spawned(0) := Done, Spawned(1) := Admitted(0)] && s.objects.Keys == {0}
    && s.active == {} && s.inUse == {} && !s.shutdown
    && s.objects[0].phase.Terminated? && s.objects[0].token.value == u.value
    && s.objects[0].internalPort == c.first + c.offset
  }

  lemma FirstEnds(c: Config, u: Client) returns (r: seq<State>)
    requires c.max >= 1 && c.first <= c.last
    ensures FileRun(c, r) && Printed(r, |r| - 1, 0, u.value)
    ensures Solo(c, INIT, Last(r), Spawned(0), 0, Done, Fresh(c, Spawned(0), c.first, u.target, u.ip, u.value, 60))
  {
    FirstIsFree(c);
    r := Registers(c, [INIT], Spawned(0), 0, c.first, u);
    r := EndsAlone(c, INIT, r, Spawned(0), 0, Fresh(c, Spawned(0), c.first, u.target, u.ip, u.value, 60), u.value);
  }

  /**
   * A handler that starts late can still be admitted: for any client there is a run in which its
   * session is over before the handler of its connection is counted, and the token is spent all
   * the same.
   */
  lemma LateHandlerIsAdmitted(c: Config, u: Client) returns (r: seq<State>)
    requires c.max >= 1 && c.first <= c.last
    ensures FileRun(c, r) && AdmittedAfterEnd(c, Last(r), u)
  {
    r := FirstEnds(c, u);
    r := ClientIsAdmitted(c, r, Spawned(1), 0, u.value);
    assert Last(r).routines == map[Spawned(0) := Done, Spawned(1) := Admitted(0)];
  }

  /**
   * Such a handler dials the port its session had. By then that can be the port of another
   * session: for any two clients there is a run in which the one's late handler dials the proxy
   * of the other, which is Active.
   */
  lemma LateHandlerDialsAnother(c: Config, u: Client, v: Client) returns (r: seq<State>)
    requires c.max >= 1 && c.first <= c.last
    ensures FileRun(c, r) && Spawned(1) in Last(r).routines && Last(r).routines[Spawned(1)] == Admitted(0)
    ensures 0 in Last(r).objects && 1 in Last(r).objects && Last(r).objects[1].phase.Active?
    ensures Last(r).objects[0].token.value == u.value && Last(r).objects[1].token.value == v.value
    ensures Last(r).objects[0].internalPort == Last(r).objects[1].internalPort
  {
    var first := LateHandlerIsAdmitted(c, u);
    r := Registers(c, first, Spawned(2), 1, c.first, v);
    assert Last(r).objects[0] == Last(first).objects[0];
  }

  /** While the session has not given its port back, its admitted handler dials a port no other such session has. */
  lemma AdmittedDialsOwnProxy(c: Config, r: seq<State>, i: nat, g: Gid, id: Id)
    requires Run(c, r) && i < |r| && g in r[i].routines && r[i].routines[g] == Admitted(id)
    ensures id in r[i].objects
    ensures !r[i].objects[id].released ==>
              forall k | k in r[i].objects && k != id && !r[i].objects[k].released ::
                r[i].objects[k].internalPort != r[i].objects[id].internalPort
  {
    RunKeeps(c, r, i);
    assert Fits(g, Admitted(id), r[i].objects[id]);
    HoldersApart(c, r, i);
  }
}
