/** What the invariant means for every run of the broker. */
module BrokerTheorems {
  import opened PortPools
  import opened Broker
  import opened BrokerInvariant

  // ---- Ports ----

  /** A port is in use exactly when a creator or a session that has not released it holds it. */
  lemma PortsInUseAreHeld(c: Config, r: seq<State>, i: nat, p: int)
    requires Run(c, r) && i < |r|
    ensures var s := r[i];
            p in s.inUse <==> (exists g :: g in s.routines && Holding(s.routines[g]) && s.routines[g].port == p)
                              || (exists id :: id in s.objects && !s.objects[id].released && s.objects[id].port == p)
  {
    RunKeeps(c, r, i);
    if p in r[i].inUse {
      assert Holds(r[i].routines, r[i].objects, r[i].owner[p], p);
    }
  }

  /** No two holders share a port, so ports of the holders add up to the ports in use. */
  lemma HoldersApart(c: Config, r: seq<State>, i: nat)
    requires Run(c, r) && i < |r|
    ensures var rs, os := r[i].routines, r[i].objects;
            && (forall g, h | g in rs && h in rs && g != h && Holding(rs[g]) && Holding(rs[h]) :: rs[g].port != rs[h].port)
            && (forall g, id | g in rs && id in os && Holding(rs[g]) && !os[id].released :: rs[g].port != os[id].port)
            && (forall id, k | id in os && k in os && id != k && !os[id].released && !os[k].released ::
                  os[id].port != os[k].port && os[id].internalPort != os[k].internalPort)
  {
    RunKeeps(c, r, i);
  }

  /** Sessions that are not yet being torn down never share a port pair. */
  lemma LivePortsDistinct(c: Config, r: seq<State>, i: nat, id: Id, k: Id)
    requires Run(c, r) && i < |r| && id in r[i].objects && k in r[i].objects && id != k
    requires Rank(r[i].objects[id].phase) < Rank(Terminating) && Rank(r[i].objects[k].phase) < Rank(Terminating)
    ensures r[i].objects[id].port != r[i].objects[k].port
    ensures r[i].objects[id].internalPort != r[i].objects[k].internalPort
  {
    RunKeeps(c, r, i);
    HoldersApart(c, r, i);
    assert Sound(c, r[i].objects[id], r[i].now) && Sound(c, r[i].objects[k], r[i].now);
  }

  /** Each Release call of the program finds its port in use, and no session releases twice. */
  lemma ReleaseNeverFails(c: Config, r: seq<State>, i: nat, a: Action)
    requires Run(c, r) && i < |r| && Enabled(c, r[i], a)
    ensures a.DoGiveBack? ==> r[i].routines[a.g].port in r[i].inUse
    ensures a.DoReleasePort? ==> var o := r[i].objects[r[i].routines[a.g].id]; !o.released && o.port in r[i].inUse
  {
    RunKeeps(c, r, i);
  }

  // ---- Teardown ----

  /** stopMonitor is closed at most once, so close never panics, and only the winner is at that line. */
  lemma ClosedAtMostOnce(c: Config, r: seq<State>, i: nat, id: Id)
    requires Run(c, r) && i < |r| && id in r[i].objects
    ensures r[i].objects[id].closes <= 1
    ensures forall g | g in r[i].routines && r[i].routines[g] == Won(id) :: r[i].objects[id].closes == 0
  {
    RunKeeps(c, r, i);
    var o := r[i].objects[id];
    assert Sound(c, o, r[i].now) && Backed(id, o, r[i].routines);
    if o.phase.Terminating? {
      assert Fits(o.winner.value, r[i].routines[o.winner.value], o);
    }
  }

  /** At most one goroutine tears a session down. */
  lemma OneWinner(c: Config, r: seq<State>, i: nat, g: Gid, h: Gid)
    requires Run(c, r) && i < |r| && g in r[i].routines && h in r[i].routines
    requires Tearing(r[i].routines[g]) && Tearing(r[i].routines[h]) && r[i].routines[g].id == r[i].routines[h].id
    ensures g == h
  {
    RunKeeps(c, r, i);
    var o := r[i].objects[r[i].routines[g].id];
    assert Fits(g, r[i].routines[g], o) && Fits(h, r[i].routines[h], o);
  }

  /** A session enters the history at most once, and never while it is in the active map. */
  lemma HistoryOnce(c: Config, r: seq<State>, i: nat)
    requires Run(c, r) && i < |r|
    ensures forall j, k | 0 <= j < k < |r[i].history| :: r[i].history[j] != r[i].history[k]
    ensures forall id | id in r[i].history :: id !in r[i].active
    ensures forall id | id in r[i].objects && !r[i].objects[id].phase.Creating? :: id in r[i].active || id in r[i].history
  {
    RunKeeps(c, r, i);
  }

  /** What cannot be undone about a session once its gatekeeper runs. */
  predicate Evolves(o: Session, o': Session) {
    && Rank(o.phase) <= Rank(o'.phase)
    && Fixed(o) == Fixed(o')
    && (o.token.consumed ==> o'.token.consumed)
    && (o.connectedAt.Some? ==> o'.connectedAt == o.connectedAt)
    && o.admissions <= o'.admissions
  }

  /** What the request of a session fixed: target, address, token value and expiry, and the ports. */
  function Deal(o: Session): (string, string, string, int, int, int) {
    (o.target, o.clientIP, o.token.value, o.token.expiry, o.port, o.internalPort)
  }

  /** The part of a session that is set when it is created. */
  function Fixed(o: Session): ((string, string, string, int, int, int), bool) {
    (Deal(o), o.serving)
  }

  ghost predicate AllEvolve(os: Objects, os': Objects) {
    forall id | id in os && os[id].serving :: id in os' && Evolves(os[id], os'[id])
  }

  /** A step that rewrites one session. */
  lemma OneEvolves(os: Objects, id: Id, o': Session)
    requires id in os && (os[id].serving ==> Evolves(os[id], o'))
    ensures AllEvolve(os, os[id := o'])
  {
  }

  lemma EnterEvolves(s: State, g: Gid, id: Id)
    ensures AllEvolve(s.objects, Enter(s, g, id).objects)
  {
    if id in s.objects && Rank(s.objects[id].phase) < Rank(Terminating) {
      OneEvolves(s.objects, id, Claimed(s.objects[id], g));
    }
  }

  lemma RegisterEvolves(c: Config, s: State, g: Gid, id: Id)
    requires Inv(c, s) && g in s.routines && s.routines[g] == Serving(id)
    ensures AllEvolve(s.objects, Register(s, g, id).objects)
  {
    assert Fits(g, s.routines[g], s.objects[id]);
    OneEvolves(s.objects, id, s.objects[id].(phase := Active));
  }

  /** Building steps concern a session that nobody serves yet. */
  lemma BuildingEvolves(c: Config, s: State, g: Gid, id: Id, stage: Stage)
    requires Inv(c, s) && g in s.routines && s.routines[g] == Building(id, stage)
    ensures AllEvolve(s.objects, Advance(s, g, id, stage).objects)
    ensures AllEvolve(s.objects, Abandon(s, g, id).objects)
  {
    assert Fits(g, s.routines[g], s.objects[id]);
  }

  lemma TeardownEvolves(c: Config, s: State, g: Gid, id: Id)
    requires id in s.objects
    ensures AllEvolve(s.objects, CloseChannel(s, g, id).objects)
    ensures AllEvolve(s.objects, ReleasePort(c, s, g, id).objects)
    ensures AllEvolve(s.objects, Finish(s, g, id).objects)
  {
    OneEvolves(s.objects, id, ChannelClosed(s.objects[id]));
    OneEvolves(s.objects, id, s.objects[id].(released := true));
    OneEvolves(s.objects, id, s.objects[id].(phase := Terminated));
  }

  lemma PresentEvolves(s: State, g: Gid, id: Id, ip: string, target: string, value: string)
    requires id in s.objects
    ensures AllEvolve(s.objects, Present(s, g, id, ip, target, value).objects)
  {
    OneEvolves(s.objects, id, Admit(s.objects[id], Admission(g, ip, target, value, s.now)));
  }

  lemma NotifyEvolves(s: State, g: Gid, id: Id)
    requires id in s.objects && (s.objects[id].phase.Active? ==> s.objects[id].connectedAt.None?)
    ensures AllEvolve(s.objects, Notify(s, g, id).objects)
  {
    OneEvolves(s.objects, id, Greeted(s.objects[id], s.now));
  }

  lemma CreatorStepEvolves(c: Config, s: State, a: Action)
    requires Inv(c, s) && Enabled(c, s, a)
    requires a.DoNewSession? || a.DoAdvance? || a.DoFail? || a.DoRegister?
    ensures AllEvolve(s.objects, Apply(c, s, a).objects)
  {
    match a {
      case DoNewSession(g, id, _, _, _, _) => assert Apply(c, s, a).objects.Keys == s.objects.Keys + {id};
      case DoAdvance(g) => BuildingEvolves(c, s, g, s.routines[g].id, s.routines[g].stage);
      case DoFail(g) =>
        if s.routines[g].Building? {
          BuildingEvolves(c, s, g, s.routines[g].id, s.routines[g].stage);
        }
      case DoRegister(g) => RegisterEvolves(c, s, g, s.routines[g].id);
    }
  }

  lemma TerminatorStepEvolves(c: Config, s: State, a: Action)
    requires Enabled(c, s, a) && (a.DoEnter? || a.DoCloseChannel? || a.DoReleasePort? || a.DoFinish?)
    ensures AllEvolve(s.objects, Apply(c, s, a).objects)
  {
    if a.DoEnter? {
      EnterEvolves(s, a.g, s.routines[a.g].id);
    } else {
      TeardownEvolves(c, s, a.g, s.routines[a.g].id);
    }
  }

  lemma HandlerStepEvolves(c: Config, s: State, a: Action)
    requires Inv(c, s) && Enabled(c, s, a) && (a.DoPresent? || a.DoNotify?)
    ensures AllEvolve(s.objects, Apply(c, s, a).objects)
  {
    var id := s.routines[a.g].id;
    if a.DoPresent? {
      PresentEvolves(s, a.g, id, a.ip, a.target, a.value);
    } else {
      assert Sound(c, s.objects[id], s.now);
      NotifyEvolves(s, a.g, id);
    }
  }

  lemma StepEvolves(c: Config, s: State, a: Action)
    requires Inv(c, s) && Enabled(c, s, a)
    ensures AllEvolve(s.objects, Apply(c, s, a).objects)
  {
    if a.DoNewSession? || a.DoAdvance? || a.DoFail? || a.DoRegister? {
      CreatorStepEvolves(c, s, a);
    } else if a.DoEnter? || a.DoCloseChannel? || a.DoReleasePort? || a.DoFinish? {
      TerminatorStepEvolves(c, s, a);
    } else if a.DoPresent? || a.DoNotify? {
      HandlerStepEvolves(c, s, a);
    } else {
      assert Apply(c, s, a).objects == s.objects;
    }
  }

  lemma RunStepEvolves(c: Config, r: seq<State>, i: nat)
    requires Run(c, r) && i + 1 < |r|
    ensures AllEvolve(r[i].objects, r[i + 1].objects)
  {
    RunKeeps(c, r, i);
    var a := StepTaken(c, r, i);
    StepEvolves(c, r[i], a);
  }

  /** On no run does a served session vanish, move to an earlier state, or lose or replace its admission. */
  lemma {:induction false} RunEvolves(c: Config, r: seq<State>, i: nat, j: nat, id: Id)
    requires Run(c, r) && i <= j < |r| && id in r[i].objects && r[i].objects[id].serving
    ensures id in r[j].objects && Evolves(r[i].objects[id], r[j].objects[id])
    decreases j
  {
    if i < j {
      RunEvolves(c, r, i, j - 1, id);
      RunStepEvolves(c, r, j - 1);
      assert Evolves(r[j - 1].objects[id], r[j].objects[id]);
    }
  }

  // ---- Admission ----

  /** One passes validation exactly when the token is consumed, and that one was entitled to. */
  lemma OneShotAdmission(c: Config, r: seq<State>, i: nat, id: Id)
    requires Run(c, r) && i < |r| && id in r[i].objects
    ensures var o := r[i].objects[id];
            && |o.admissions| == (if o.token.consumed then 1 else 0)
            && (forall a | a in o.admissions ::
                  && (o.clientIP == "" || a.ip == o.clientIP) && a.target == o.target
                  && a.value == o.token.value && a.at <= o.token.expiry)
            && (o.connectedAt.Some? ==> o.token.consumed && o.admissions[0].at <= o.connectedAt.value)
            && (o.phase.Connected? ==> o.connectedAt.Some?)
  {
    RunKeeps(c, r, i);
    assert Sound(c, r[i].objects[id], r[i].now);
  }

  /** No two handlers of a session are ever past validation. */
  lemma OneHandlerPasses(c: Config, r: seq<State>, i: nat, g: Gid, h: Gid, id: Id)
    requires Run(c, r) && i < |r| && g in r[i].routines && h in r[i].routines
    requires r[i].routines[g] == Admitted(id) && r[i].routines[h] == Admitted(id)
    ensures g == h
  {
    RunKeeps(c, r, i);
    assert Fits(g, Admitted(id), r[i].objects[id]) && Fits(h, Admitted(id), r[i].objects[id]);
  }

  // ---- What a creation binds its session to ----

  lemma CreatorsKeepDeal(c: Config, s: State, a: Action, id: Id)
    requires Enabled(c, s, a) && id in s.objects && id in Apply(c, s, a).objects
    requires a.DoNewSession? || a.DoAdvance? || a.DoFail? || a.DoRegister?
    ensures Deal(Apply(c, s, a).objects[id]) == Deal(s.objects[id])
  {
  }

  lemma TerminatorsKeepDeal(c: Config, s: State, a: Action, id: Id)
    requires Enabled(c, s, a) && id in s.objects && id in Apply(c, s, a).objects
    requires a.DoEnter? || a.DoCloseChannel? || a.DoReleasePort? || a.DoFinish?
    ensures Deal(Apply(c, s, a).objects[id]) == Deal(s.objects[id])
  {
  }

  lemma StepKeepsDeal(c: Config, s: State, a: Action, id: Id)
    requires Enabled(c, s, a) && id in s.objects && id in Apply(c, s, a).objects
    ensures Deal(Apply(c, s, a).objects[id]) == Deal(s.objects[id])
  {
    if a.DoNewSession? || a.DoAdvance? || a.DoFail? || a.DoRegister? {
      CreatorsKeepDeal(c, s, a, id);
    } else if a.DoEnter? || a.DoCloseChannel? || a.DoReleasePort? || a.DoFinish? {
      TerminatorsKeepDeal(c, s, a, id);
    } else if a.DoPresent? || a.DoNotify? {
    } else {
      assert Apply(c, s, a).objects == s.objects;
    }
  }

  lemma {:induction false} RunKeepsDeal(c: Config, r: seq<State>, i: nat, j: nat, id: Id)
    requires Run(c, r) && i <= j < |r| && forall k | i <= k <= j :: id in r[k].objects
    ensures Deal(r[j].objects[id]) == Deal(r[i].objects[id])
    decreases j
  {
    if i < j {
      RunKeepsDeal(c, r, i, j - 1, id);
      var a := StepTaken(c, r, j - 1);
      StepKeepsDeal(c, r[j - 1], a, id);
    }
  }

  lemma RequestIsKept(c: Config, s: State, a: Action)
    requires a.DoNewSession? && Enabled(c, s, a)
    ensures a.id in Apply(c, s, a).objects
    ensures Deal(Apply(c, s, a).objects[a.id])
            == (a.target, a.clientIP, a.value, s.now + a.ttl, s.routines[a.g].port, s.routines[a.g].port + c.offset)
  {
  }

  /**
   * A session is for good what its request asked for, on the port its creator had allocated:
   * whoever is admitted to it comes from the address of the request, if it had one, names its
   * target, and presents its token in time.
   */
  lemma CreationBinds(c: Config, r: seq<State>, i: nat, j: nat, a: Action)
    requires Run(c, r) && i < j < |r| && a.DoNewSession? && Enabled(c, r[i], a) && r[i + 1] == Apply(c, r[i], a)
    requires forall k | i < k <= j :: a.id in r[k].objects
    ensures var o := r[j].objects[a.id];
            && o.target == a.target && o.clientIP == a.clientIP && o.token.value == a.value && o.token.expiry == r[i].now + a.ttl
            && o.port == r[i].routines[a.g].port && o.internalPort == o.port + c.offset
            && forall m | m in o.admissions ::
                 && (a.clientIP == "" || m.ip == a.clientIP) && m.target == a.target
                 && m.value == a.value && m.at <= r[i].now + a.ttl
  {
    RequestIsKept(c, r[i], a);
    RunKeepsDeal(c, r, i + 1, j, a.id);
    OneShotAdmission(c, r, j, a.id);
  }

  // ---- The session limit ----

  /** The creators that got past the limit check and have neither registered nor returned. */
  predicate InFlight(r: Routine) {
    r.Checked? || Holding(r) || Making(r)
  }

  function Flying(rs: Routines): set<Gid> {
    set g | g in rs && InFlight(rs[g])
  }

  lemma FlyingMoves(rs: Routines, g: Gid, r: Routine)
    ensures Flying(rs[g := r]) == if InFlight(r) then Flying(rs) + {g} else Flying(rs) - {g}
  {
  }

  /** Where a step leaves its routine, and what it does to the active map. */
  ghost predicate OneMoves(c: Config, s: State, a: Action, s': State)
    requires !a.DoTick? && !a.DoShutdown?
  {
    && a.g in s'.routines && s'.routines == s.routines[a.g := s'.routines[a.g]]
    && (InFlight(s'.routines[a.g]) ==>
          if a.DoCreate? then |s.active| < c.max && !s.shutdown
          else a.g in s.routines && InFlight(s.routines[a.g]))
    && s'.active <= s.active && (a.DoCreate? ==> s'.active == s.active)
  }

  lemma CreatorMoves(c: Config, s: State, a: Action)
    requires Enabled(c, s, a)
    requires a.DoCreate? || a.DoAllocate? || a.DoNewSession? || a.DoAdvance? || a.DoFail? || a.DoGiveBack?
    ensures OneMoves(c, s, a, Apply(c, s, a))
  {
  }

  lemma CounterStep(c: Config, s: State, a: Action)
    requires Enabled(c, s, a) && !a.DoTick? && !a.DoShutdown? && !a.DoRegister?
    ensures OneMoves(c, s, a, Apply(c, s, a))
  {
    if a.DoCreate? || a.DoAllocate? || a.DoNewSession? || a.DoAdvance? || a.DoFail? || a.DoGiveBack? {
      CreatorMoves(c, s, a);
    } else {
      assert !InFlight(Apply(c, s, a).routines[a.g]);
    }
  }

  lemma RegisterLoad(s: State, g: Gid, id: Id)
    requires g in s.routines && s.routines[g] == Serving(id) && id in s.objects && id !in s.active
    ensures |Register(s, g, id).active| == |s.active| + 1
    ensures |Flying(Register(s, g, id).routines)| == |Flying(s.routines)| - 1
  {
    FlyingMoves(s.routines, g, Registered(id));
    assert g in Flying(s.routines);
  }

  lemma SweepersIdle(active: set<Id>, rs: Routines)
    ensures Flying(rs + Sweepers(active)) <= Flying(rs)
  {
  }

  lemma LoadShrinks(active: set<Id>, flying: set<Gid>, active': set<Id>, flying': set<Gid>)
    requires active' <= active && flying' <= flying
    ensures |active'| + |flying'| <= |active| + |flying| && |flying'| <= |flying|
  {
    SubsetSize(active', active);
    SubsetSize(flying', flying);
  }

  /** The load is what is registered or on the way; a passed check may add one to it. */
  ghost predicate LoadBounded(c: Config, s: State, s': State) {
    && (|s'.active| + |Flying(s'.routines)| <= |s.active| + |Flying(s.routines)|
        || (s'.active == s.active && |s.active| < c.max && !s.shutdown))
    && (s.shutdown ==> |Flying(s'.routines)| <= |Flying(s.routines)|)
  }

  lemma OtherLoad(c: Config, s: State, a: Action)
    requires Enabled(c, s, a) && !a.DoRegister?
    ensures LoadBounded(c, s, Apply(c, s, a))
  {
    var s' := Apply(c, s, a);
    if a.DoShutdown? {
      SweepersIdle(s.active, s.routines);
    } else if !a.DoTick? {
      CounterStep(c, s, a);
      FlyingMoves(s.routines, a.g, s'.routines[a.g]);
    }
    if Flying(s'.routines) <= Flying(s.routines) {
      LoadShrinks(s.active, Flying(s.routines), s'.active, Flying(s'.routines));
    }
  }

  /** No step but a passed check adds to the sessions registered or on the way. */
  lemma LoadStep(c: Config, s: State, a: Action)
    requires Inv(c, s) && Enabled(c, s, a)
    ensures LoadBounded(c, s, Apply(c, s, a))
  {
    if a.DoRegister? {
      assert Fits(a.g, s.routines[a.g], s.objects[s.routines[a.g].id]);
      RegisterLoad(s, a.g, s.routines[a.g].id);
    } else {
      OtherLoad(c, s, a);
    }
  }

  /**
   * The limit is checked and the lock dropped, so creators past the check can overshoot it:
   * by at most one less than the number of creators ever in flight together. With one at a
   * time the limit is exact.
   */
  lemma {:induction false} BoundedOvershoot(c: Config, r: seq<State>, i: nat, k: nat)
    requires Run(c, r) && i < |r| && c.max >= 1
    requires forall j | 0 <= j <= i :: |Flying(r[j].routines)| <= k
    ensures |r[i].active| + |Flying(r[i].routines)| <= c.max - 1 + k
  {
    if i == 0 {
      assert Flying(INIT.routines) == {};
    } else {
      BoundedOvershoot(c, r, i - 1, k);
      RunKeeps(c, r, i - 1);
      var a := StepTaken(c, r, i - 1);
      LoadStep(c, r[i - 1], a);
    }
  }

  lemma {:induction false} NothingWithoutCapacity(c: Config, r: seq<State>, i: nat)
    requires Run(c, r) && i < |r| && c.max <= 0
    ensures |r[i].active| + |Flying(r[i].routines)| == 0
  {
    if i == 0 {
      assert Flying(INIT.routines) == {};
    } else {
      NothingWithoutCapacity(c, r, i - 1);
      RunKeeps(c, r, i - 1);
      var a := StepTaken(c, r, i - 1);
      LoadStep(c, r[i - 1], a);
    }
  }

  lemma NoSessionWithoutPorts(c: Config, s: State, a: Action)
    requires PortsOwned(c, s.inUse, s.owner, s.routines, s.objects) && Enabled(c, s, a)
    requires c.last < c.first && s.objects == map[]
    ensures Apply(c, s, a).objects == map[]
  {
    NobodyHolds(c, s);
  }

  lemma NobodyHolds(c: Config, s: State)
    requires PortsOwned(c, s.inUse, s.owner, s.routines, s.objects) && c.last < c.first
    ensures forall g | g in s.routines :: !Holding(s.routines[g])
  {
  }

  /** With an empty pool no session is ever made. */
  lemma {:induction false} NothingWithoutPorts(c: Config, r: seq<State>, i: nat)
    requires Run(c, r) && i < |r| && c.last < c.first
    ensures r[i].objects == map[] && r[i].active == {}
  {
    if i > 0 {
      NothingWithoutPorts(c, r, i - 1);
      RunKeeps(c, r, i - 1);
      var a := StepTaken(c, r, i - 1);
      NoSessionWithoutPorts(c, r[i - 1], a);
      RunKeeps(c, r, i);
      NobodyActive(r[i]);
    }
  }

  lemma NobodyActive(s: State)
    requires Registry(s.active, s.history, s.objects) && s.objects == map[]
    ensures s.active == {}
  {
    forall id ensures id !in s.active {
      assert id in s.active ==> id in s.objects;
    }
  }

  // ---- Shutdown ----

  /** Only Shutdown itself touches the flag and the ids it collected. */
  lemma FlagStep(c: Config, s: State, a: Action)
    requires Enabled(c, s, a) && !a.DoShutdown?
    ensures Apply(c, s, a).shutdown == s.shutdown && Apply(c, s, a).snapshot == s.snapshot
  {
  }

  lemma RunFlag(c: Config, r: seq<State>, i: nat)
    requires Run(c, r) && i + 1 < |r|
    ensures r[i].shutdown ==> r[i + 1].shutdown && r[i + 1].snapshot == r[i].snapshot
    ensures !r[i].shutdown && r[i + 1].shutdown ==> r[i + 1].snapshot == r[i].active
  {
    var a := StepTaken(c, r, i);
    if !a.DoShutdown? {
      FlagStep(c, r[i], a);
    }
  }

  /** After the flag is set the ids Shutdown collected stay what they were. */
  lemma {:induction false} SnapshotFixed(c: Config, r: seq<State>, i: nat, j: nat)
    requires Run(c, r) && i < j < |r| && !r[i].shutdown && r[i + 1].shutdown
    ensures r[j].shutdown && r[j].snapshot == r[i].active
    decreases j
  {
    RunFlag(c, r, j - 1);
    if j - 1 > i {
      SnapshotFixed(c, r, i, j - 1);
    }
  }

  /** Shutdown's wait group is done: each terminator it started has returned. */
  ghost predicate ShutdownReturned(s: State) {
    s.shutdown && forall id | id in s.snapshot :: OfShutdown(id) in s.routines && s.routines[OfShutdown(id)].Done?
  }

  /** When Shutdown returns without timing out, all it saw registered is at least Terminating. */
  lemma ShutdownSweepsAll(c: Config, r: seq<State>, i: nat, j: nat, id: Id)
    requires Run(c, r) && i < j < |r| && !r[i].shutdown && r[i + 1].shutdown
    requires ShutdownReturned(r[j]) && id in r[i].active
    ensures id in r[j].objects && Rank(r[j].objects[id].phase) >= Rank(Terminating)
  {
    SnapshotFixed(c, r, i, j);
    RunKeeps(c, r, j);
    assert Swept(id, r[j].routines[OfShutdown(id)], r[j].objects[id]);
  }

  lemma RegisterNeedsCreator(c: Config, s: State, a: Action)
    requires Enabled(c, s, a) && a.DoRegister?
    ensures a.g in Flying(s.routines)
  {
  }

  /** After the flag, without creators past the check: only ids from the given set stay registered. */
  ghost predicate Draining(s: State, ids: set<Id>) {
    s.shutdown && Grounded(s.routines) && s.active <= ids
  }

  ghost predicate Grounded(rs: Routines) {
    forall g | g in rs :: !InFlight(rs[g])
  }

  lemma DrainStarts(s: State)
    requires Flying(s.routines) == {}
    ensures Draining(Shutdown(s), s.active)
  {
    SweepersIdle(s.active, s.routines);
    GroundedIffNoneFlying(Shutdown(s).routines);
  }

  lemma DrainStep(c: Config, s: State, a: Action, ids: set<Id>)
    requires Enabled(c, s, a) && Draining(s, ids)
    ensures Draining(Apply(c, s, a), ids)
  {
    if a.DoRegister? {
      RegisterNeedsCreator(c, s, a);
      GroundedIffNoneFlying(s.routines);
    } else if a.DoShutdown? || a.DoTick? {
    } else {
      FlagStep(c, s, a);
      CounterStep(c, s, a);
    }
  }

  lemma GroundedIffNoneFlying(rs: Routines)
    ensures Grounded(rs) <==> Flying(rs) == {}
  {
    if !Grounded(rs) {
      var g :| g in rs && InFlight(rs[g]);
      assert g in Flying(rs);
    }
  }

  lemma RunDrains(c: Config, r: seq<State>, i: nat, ids: set<Id>)
    requires Run(c, r) && i + 1 < |r| && Draining(r[i], ids)
    ensures Draining(r[i + 1], ids)
  {
    var a := StepTaken(c, r, i);
    DrainStep(c, r[i], a, ids);
  }

  lemma {:induction false} DrainOn(c: Config, r: seq<State>, k: nat, j: nat, ids: set<Id>)
    requires Run(c, r) && k <= j < |r| && Draining(r[k], ids)
    ensures Draining(r[j], ids)
    decreases j
  {
    if k < j {
      DrainOn(c, r, k, j - 1, ids);
      RunDrains(c, r, j - 1, ids);
    }
  }

  lemma NoNewcomers(c: Config, r: seq<State>, i: nat, j: nat)
    requires Run(c, r) && i < j < |r| && !r[i].shutdown && r[i + 1].shutdown && Flying(r[i].routines) == {}
    ensures Draining(r[j], r[i].active)
  {
    var a := StepTaken(c, r, i);
    if !a.DoShutdown? {
      FlagStep(c, r[i], a);
    }
    DrainStarts(r[i]);
    DrainOn(c, r, i + 1, j, r[i].active);
  }

  /** Whoever makes or tears down a session is there, and so is whoever holds a port. */
  lemma EveryoneAccounted(c: Config, s: State)
    requires Inv(c, s)
    ensures forall id | id in s.objects && s.objects[id].phase.Creating? :: s.objects[id].creator in Flying(s.routines)
    ensures forall id | id in s.objects && s.objects[id].phase.Terminating? ::
              exists g :: g in s.routines && Tearing(s.routines[g])
    ensures forall p | p in s.inUse :: (exists g :: g in Flying(s.routines)) ||
              (exists id :: id in s.objects && !s.objects[id].phase.Terminated?)
  {
    forall id | id in s.objects
      ensures s.objects[id].phase.Creating? ==> s.objects[id].creator in Flying(s.routines)
      ensures s.objects[id].phase.Terminating? ==> exists g :: g in s.routines && Tearing(s.routines[g])
    {
      assert Backed(id, s.objects[id], s.routines);
    }
    forall p | p in s.inUse
      ensures (exists g :: g in Flying(s.routines)) || (exists id :: id in s.objects && !s.objects[id].phase.Terminated?)
    {
      assert Holds(s.routines, s.objects, s.owner[p], p);
      match s.owner[p] {
        case ByRoutine(g) => assert g in Flying(s.routines);
        case BySession(id) => assert Sound(c, s.objects[id], s.now);
      }
    }
  }

  lemma DrainedIsEmpty(c: Config, s: State)
    requires Inv(c, s) && Flying(s.routines) == {}
    requires forall g | g in s.routines :: !Tearing(s.routines[g])
    requires forall id | id in s.active :: Rank(s.objects[id].phase) >= Rank(Terminating)
    ensures s.active == {} && s.inUse == {}
  {
    EveryoneAccounted(c, s);
    assert forall id | id in s.objects && !s.objects[id].phase.Terminated? :: id in s.active;
    assert forall p :: p !in s.inUse;
  }

  /**
   * If no creator was past the limit check when the flag was set, then once Shutdown has
   * returned and every terminator has finished, no session is left and all ports are back.
   */
  lemma ShutdownLeavesNothing(c: Config, r: seq<State>, i: nat, j: nat)
    requires Run(c, r) && i < j < |r| && !r[i].shutdown && r[i + 1].shutdown && Flying(r[i].routines) == {}
    requires ShutdownReturned(r[j]) && forall g | g in r[j].routines :: !Tearing(r[j].routines[g])
    ensures r[j].active == {} && r[j].inUse == {}
  {
    NoNewcomers(c, r, i, j);
    RunKeeps(c, r, j);
    GroundedIffNoneFlying(r[j].routines);
    forall id | id in r[j].active ensures Rank(r[j].objects[id].phase) >= Rank(Terminating) {
      ShutdownSweepsAll(c, r, i, j, id);
    }
    DrainedIsEmpty(c, r[j]);
  }
}
