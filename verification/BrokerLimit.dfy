/**
 * How far the session limit can be overshot: the bound of BoundedOvershoot is reached, for any
 * limit, any number of creators in flight and any pool that has a port, so the limit itself
 * holds exactly for one creator at a time.
 *
 * The runs are built from states in which creators 0 to m - 1 are done with the sessions 0 to
 * m - 1, and the next w creators are past the limit check. `kept` says whether the sessions
 * that are done stay Active, or have been torn down as far as the release of their port: then
 * they are still in the map and lend their port to the next one.
 */
module BrokerLimit {
  import opened Wrappers
  import PortPools
  import opened Broker
  import opened BrokerInvariant
  import opened BrokerSolo
  import opened BrokerTheorems

  /** Never more than k creators in flight. */
  ghost predicate Within(r: seq<State>, k: nat) {
    forall j | 0 <= j < |r| :: |Flying(r[j].routines)| <= k
  }

  function Last(r: seq<State>): State
    requires r != []
  {
    r[|r| - 1]
  }

  /** A run that stays within k goes on with one more step. */
  lemma Extend(c: Config, r: seq<State>, k: nat, a: Action) returns (r': seq<State>)
    requires Run(c, r) && Within(r, k) && Enabled(c, Last(r), a) && |Flying(Apply(c, Last(r), a).routines)| <= k
    ensures Run(c, r') && Within(r', k) && Last(r') == Apply(c, Last(r), a)
  {
    r' := RunGoesOn(c, r, a);
  }

  function Ids(m: nat): set<Id> {
    if m == 0 then {} else Ids(m - 1) + {m - 1}
  }

  lemma {:induction false} IdsBelow(m: nat)
    ensures |Ids(m)| == m && forall i | i in Ids(m) :: i < m
  {
    if m > 0 {
      IdsBelow(m - 1);
    }
  }

  function Creators(lo: nat, hi: nat): set<Gid> {
    set i: nat | lo <= i < hi :: Spawned(i)
  }

  lemma {:induction false} CountCreators(lo: nat, w: nat)
    ensures |Creators(lo, lo + w)| == w
  {
    if w > 0 {
      CountCreators(lo, w - 1);
      assert Creators(lo, lo + w) == Creators(lo, lo + w - 1) + {Spawned(lo + w - 1)};
    }
  }

  // ---- The states the runs go through ----

  /** Where a creator is that is done with its session; when the session ends it has become its monitor. */
  function Final(id: Id, kept: bool): Routine {
    if kept then Registered(id) else Released(id)
  }

  function Cast(m: nat, w: nat, kept: bool): Routines {
    map g | g in Creators(0, m + w) :: if g.n < m then Final(g.n, kept) else Checked
  }

  lemma CastGrows(m: nat, w: nat, kept: bool)
    ensures Cast(m, w, kept)[Spawned(m + w) := Checked] == Cast(m, w + 1, kept)
    ensures Spawned(m + w) !in Cast(m, w, kept)
  {
  }

  lemma CastShifts(m: nat, w: nat, kept: bool)
    requires w >= 1
    ensures Cast(m, w, kept)[Spawned(m) := Final(m, kept)] == Cast(m + 1, w - 1, kept)
  {
  }

  lemma FirstIsChecked(m: nat, w: nat, kept: bool)
    requires w >= 1
    ensures Spawned(m) in Cast(m, w, kept) && Cast(m, w, kept)[Spawned(m)] == Checked
  {
  }

  lemma FlyingCast(m: nat, w: nat, kept: bool)
    ensures |Flying(Cast(m, w, kept))| == w
  {
    assert Flying(Cast(m, w, kept)) == Creators(m, m + w);
    CountCreators(m, w);
  }

  lemma FlyingUnderWay(m: nat, w: nat, kept: bool, r: Routine)
    requires w >= 1
    ensures |Flying(Cast(m, w, kept)[Spawned(m) := r])| <= w
  {
    FlyingMoves(Cast(m, w, kept), Spawned(m), r);
    FirstIsChecked(m, w, kept);
    assert Flying(Cast(m, w, kept)) + {Spawned(m)} == Flying(Cast(m, w, kept));
    FlyingCast(m, w, kept);
    SubsetOf(Flying(Cast(m, w, kept)), Spawned(m));
  }

  lemma SubsetOf(s: set<Gid>, g: Gid)
    ensures |s - {g}| <= |s|
  {
    PortPools.SubsetSize(s - {g}, s);
  }

  /** The ports held by the sessions that are done. */
  ghost predicate PortsHeld(c: Config, inUse: set<int>, n: nat) {
    inUse <= PortPools.Range(c.first, c.last) && |inUse| == n
  }

  ghost predicate AllActive(os: Objects, m: nat) {
    forall id | id in os && id < m :: os[id].phase.Active?
  }

  ghost predicate Crowd(c: Config, s: State, m: nat, w: nat, kept: bool) {
    && s.routines == Cast(m, w, kept) && !s.shutdown
    && s.active == Ids(m) && s.objects.Keys == Ids(m)
    && PortsHeld(c, s.inUse, if kept then m else 0)
    && (kept ==> AllActive(s.objects, m))
  }

  /** Creator m has got as far as r with session m, which holds the port. */
  ghost predicate UnderWay(c: Config, s: State, m: nat, w: nat, kept: bool, r: Routine, port: int) {
    && s.routines == Cast(m, w, kept)[Spawned(m) := r] && !s.shutdown
    && PortsHeld(c, s.inUse, if kept then m + 1 else 1) && port in s.inUse
    && s.objects.Keys == Ids(m + 1) && s.active == (if PhaseAt(r).Creating? then Ids(m) else Ids(m + 1))
    && m in s.objects && s.objects[m].phase == PhaseAt(r) && s.objects[m].port == port && (!r.Building? ==> s.objects[m].serving)
    && (kept ==> AllActive(s.objects, m))
  }

  // ---- One step ----

  lemma CheckPasses(c: Config, s: State, m: nat, w: nat, kept: bool)
    requires Crowd(c, s, m, w, kept) && m < c.max
    ensures Enabled(c, s, DoCreate(Spawned(m + w))) && Crowd(c, Apply(c, s, DoCreate(Spawned(m + w))), m, w + 1, kept)
  {
    IdsBelow(m);
    CastGrows(m, w, kept);
  }

  lemma PortToSpare(c: Config, inUse: set<int>, n: nat) returns (port: int)
    requires PortsHeld(c, inUse, n) && n < c.last - c.first + 1
    ensures PortPools.LowestFree(c.first, c.last, inUse) == Some(port)
    ensures port !in inUse && PortsHeld(c, inUse + {port}, n + 1)
  {
    PortPools.ExhaustedIffNoneAvailable(c.first, c.last, inUse);
    port := PortPools.LowestFree(c.first, c.last, inUse).value;
  }

  /** Creator m holds a port and has no session object yet. */
  ghost predicate HasPort(c: Config, s: State, m: nat, w: nat, kept: bool, port: int) {
    && s.routines == Cast(m, w, kept)[Spawned(m) := Allocated(port)] && !s.shutdown
    && s.active == Ids(m) && s.objects.Keys == Ids(m)
    && PortsHeld(c, s.inUse, if kept then m + 1 else 1) && port in s.inUse
    && (kept ==> AllActive(s.objects, m))
  }

  lemma AllocateUnderWay(c: Config, s: State, m: nat, w: nat, kept: bool) returns (port: int)
    requires Crowd(c, s, m, w, kept) && w >= 1 && (if kept then m else 0) < c.last - c.first + 1
    ensures Enabled(c, s, DoAllocate(Spawned(m))) && HasPort(c, Apply(c, s, DoAllocate(Spawned(m))), m, w, kept, port)
  {
    port := PortToSpare(c, s.inUse, if kept then m else 0);
    FirstIsChecked(m, w, kept);
    PortTaken(c, s, Spawned(m), port);
  }

  /** A visitor with a token no other session has. */
  function Visitor(m: nat): Client {
    Client("10.0.0.1", "host", seq(m + 1, _ => 'k'))
  }

  function Visit(m: nat): Action {
    Request(Spawned(m), m, Visitor(m))
  }

  lemma OthersKeepPhase(os: Objects, m: nat, o: Session)
    requires AllActive(os, m)
    ensures AllActive(os[m := o], m)
  {
  }

  lemma MakeUnderWay(c: Config, s: State, m: nat, w: nat, kept: bool, port: int)
    requires HasPort(c, s, m, w, kept, port)
    ensures Enabled(c, s, Visit(m)) && UnderWay(c, Apply(c, s, Visit(m)), m, w, kept, Building(m, NeedConfig), port)
  {
    IdsBelow(m);
    SessionMade(c, s, Spawned(m), m, port, Visitor(m));
    NowUnderWay(c, s, Apply(c, s, Visit(m)), m, w, kept, port);
  }

  lemma NowUnderWay(c: Config, s: State, s': State, m: nat, w: nat, kept: bool, port: int)
    requires HasPort(c, s, m, w, kept, port)
    requires s'.routines == s.routines[Spawned(m) := Building(m, NeedConfig)]
    requires s'.shutdown == s.shutdown && s'.inUse == s.inUse && s'.active == s.active
    requires m in s'.objects && s'.objects == s.objects[m := s'.objects[m]]
    requires s'.objects[m].phase.Creating? && s'.objects[m].port == port
    ensures UnderWay(c, s', m, w, kept, Building(m, NeedConfig), port)
  {
    if kept {
      OthersKeepPhase(s.objects, m, s'.objects[m]);
    }
    assert s'.objects.Keys == s.objects.Keys + {m};
  }

  /** One step further on the way. */
  lemma UnderWayGoesOn(c: Config, s: State, m: nat, w: nat, kept: bool, r: Routine, port: int)
    requires UnderWay(c, s, m, w, kept, r, port) && OnTheWay(m, r) && StepsLeft(r) > 2
    ensures Enabled(c, s, NextAction(Spawned(m), r))
    ensures UnderWay(c, Apply(c, s, NextAction(Spawned(m), r)), m, w, kept, NextPlace(r), port)
  {
    assert s.routines[Spawned(m)] == r;
    StepGoes(c, s, Spawned(m), m, r);
    StillUnderWay(c, s, Apply(c, s, NextAction(Spawned(m), r)), m, w, kept, r, port);
  }

  lemma StillUnderWay(c: Config, s: State, s': State, m: nat, w: nat, kept: bool, r: Routine, port: int)
    requires UnderWay(c, s, m, w, kept, r, port) && OnTheWay(m, r) && StepsLeft(r) > 2 && Goes(s, s', Spawned(m), m, r)
    ensures UnderWay(c, s', m, w, kept, NextPlace(r), port)
  {
    SessionGoes(Spawned(m), m, r, s.objects[m]);
    WayDown(m, r);
    if kept {
      OthersKeepPhase(s.objects, m, s'.objects[m]);
    }
    assert s.objects.Keys + {m} == s.objects.Keys;
    assert s'.objects.Keys == s.objects.Keys + {m};
  }

  /** A session that stays is done once it is registered. */
  lemma KeptIsDone(c: Config, s: State, m: nat, w: nat, port: int)
    requires UnderWay(c, s, m, w, true, Registered(m), port) && w >= 1
    ensures Crowd(c, s, m + 1, w - 1, true)
  {
    CastShifts(m, w, true);
    OneMoreActive(s.objects, m);
  }

  lemma OneMoreActive(os: Objects, m: nat)
    requires AllActive(os, m) && m in os && os[m].phase.Active?
    ensures AllActive(os, m + 1)
  {
  }

  /** The others are done once their port is back. */
  lemma ReleaseIsDone(c: Config, s: State, m: nat, w: nat, port: int)
    requires UnderWay(c, s, m, w, false, Stopped(m), port) && w >= 1
    ensures Enabled(c, s, DoReleasePort(Spawned(m))) && Crowd(c, Apply(c, s, DoReleasePort(Spawned(m))), m + 1, w - 1, false)
  {
    assert s.routines[Spawned(m)] == Stopped(m);
    var s' := Apply(c, s, DoReleasePort(Spawned(m)));
    assert s'.inUse == s.inUse - {port};
    CastShifts(m, w, false);
    assert s.objects.Keys + {m} == s.objects.Keys;
  }

  // ---- Runs ----

  /** One more creator passes the check. */
  lemma Admit(c: Config, r: seq<State>, k: nat, m: nat, w: nat, kept: bool) returns (r': seq<State>)
    requires Run(c, r) && Within(r, k) && Crowd(c, Last(r), m, w, kept) && m < c.max && w < k
    ensures Run(c, r') && Within(r', k) && Crowd(c, Last(r'), m, w + 1, kept)
  {
    CheckPasses(c, Last(r), m, w, kept);
    FlyingCast(m, w + 1, kept);
    r' := Extend(c, r, k, DoCreate(Spawned(m + w)));
  }

  lemma Make(c: Config, r: seq<State>, k: nat, m: nat, w: nat, kept: bool) returns (r': seq<State>, port: int)
    requires Run(c, r) && Within(r, k) && Crowd(c, Last(r), m, w, kept) && 1 <= w <= k
    requires (if kept then m else 0) < c.last - c.first + 1
    ensures Run(c, r') && Within(r', k) && UnderWay(c, Last(r'), m, w, kept, Building(m, NeedConfig), port)
  {
    port := AllocateUnderWay(c, Last(r), m, w, kept);
    FlyingUnderWay(m, w, kept, Allocated(port));
    r' := Extend(c, r, k, DoAllocate(Spawned(m)));
    MakeUnderWay(c, Last(r'), m, w, kept, port);
    FlyingUnderWay(m, w, kept, Building(m, NeedConfig));
    r' := Extend(c, r', k, Visit(m));
  }

  lemma OneOn(c: Config, r: seq<State>, k: nat, m: nat, w: nat, kept: bool, at: Routine, port: int) returns (r': seq<State>)
    requires Run(c, r) && Within(r, k) && UnderWay(c, Last(r), m, w, kept, at, port) && 1 <= w <= k
    requires OnTheWay(m, at) && StepsLeft(at) > 2
    ensures Run(c, r') && Within(r', k) && UnderWay(c, Last(r'), m, w, kept, NextPlace(at), port)
  {
    UnderWayGoesOn(c, Last(r), m, w, kept, at, port);
    FlyingUnderWay(m, w, kept, NextPlace(at));
    r' := Extend(c, r, k, NextAction(Spawned(m), at));
  }

  /** On to the place where n steps are left. */
  lemma {:induction false} GoOn(c: Config, r: seq<State>, k: nat, m: nat, w: nat, kept: bool, at: Routine, port: int, n: nat)
    returns (r': seq<State>, there: Routine)
    requires Run(c, r) && Within(r, k) && UnderWay(c, Last(r), m, w, kept, at, port) && 1 <= w <= k
    requires OnTheWay(m, at) && 2 <= n <= StepsLeft(at)
    ensures Run(c, r') && Within(r', k) && UnderWay(c, Last(r'), m, w, kept, there, port)
    ensures OnTheWay(m, there) && StepsLeft(there) == n
    decreases StepsLeft(at)
  {
    if StepsLeft(at) == n {
      r', there := r, at;
    } else {
      WayDown(m, at);
      r' := OneOn(c, r, k, m, w, kept, at, port);
      r', there := GoOn(c, r', k, m, w, kept, NextPlace(at), port, n);
    }
  }

  /** The first creator past the check makes its session, and the session stays or is torn down. */
  lemma Complete(c: Config, r: seq<State>, k: nat, m: nat, w: nat, kept: bool) returns (r': seq<State>)
    requires Run(c, r) && Within(r, k) && Crowd(c, Last(r), m, w, kept) && 1 <= w <= k
    requires (if kept then m else 0) < c.last - c.first + 1
    ensures Run(c, r') && Within(r', k) && Crowd(c, Last(r'), m + 1, w - 1, kept)
  {
    var port;
    r', port := Make(c, r, k, m, w, kept);
    if kept {
      r' := Keep(c, r', k, m, w, port);
    } else {
      r' := TearDown(c, r', k, m, w, port);
    }
  }

  lemma Keep(c: Config, r: seq<State>, k: nat, m: nat, w: nat, port: int) returns (r': seq<State>)
    requires Run(c, r) && Within(r, k) && UnderWay(c, Last(r), m, w, true, Building(m, NeedConfig), port) && 1 <= w <= k
    ensures Run(c, r') && Within(r', k) && Crowd(c, Last(r'), m + 1, w - 1, true)
  {
    var there;
    r', there := GoOn(c, r, k, m, w, true, Building(m, NeedConfig), port, 7);
    WayDown(m, there);
    KeptIsDone(c, Last(r'), m, w, port);
  }

  lemma TearDown(c: Config, r: seq<State>, k: nat, m: nat, w: nat, port: int) returns (r': seq<State>)
    requires Run(c, r) && Within(r, k) && UnderWay(c, Last(r), m, w, false, Building(m, NeedConfig), port) && 1 <= w <= k
    ensures Run(c, r') && Within(r', k) && Crowd(c, Last(r'), m + 1, w - 1, false)
  {
    var there;
    r', there := GoOn(c, r, k, m, w, false, Building(m, NeedConfig), port, 2);
    WayDown(m, there);
    r' := GiveBack(c, r', k, m, w, port);
  }

  lemma GiveBack(c: Config, r: seq<State>, k: nat, m: nat, w: nat, port: int) returns (r': seq<State>)
    requires Run(c, r) && Within(r, k) && UnderWay(c, Last(r), m, w, false, Stopped(m), port) && 1 <= w <= k
    ensures Run(c, r') && Within(r', k) && Crowd(c, Last(r'), m + 1, w - 1, false)
  {
    ReleaseIsDone(c, Last(r), m, w, port);
    FlyingCast(m + 1, w - 1, false);
    r' := Extend(c, r, k, DoReleasePort(Spawned(m)));
  }

  /** What the pool must have for m sessions to be done. */
  predicate Room(c: Config, m: nat, kept: bool) {
    m > 0 ==> (if kept then m else 1) <= c.last - c.first + 1
  }

  /** One session after the other, up to the limit. */
  lemma {:induction false} FillUp(c: Config, k: nat, m: nat, kept: bool) returns (r: seq<State>)
    requires k >= 1 && m <= c.max && Room(c, m, kept)
    ensures Run(c, r) && Within(r, k) && Crowd(c, Last(r), m, 0, kept)
    decreases m
  {
    if m == 0 {
      r := [INIT];
      FlyingCast(0, 0, kept);
      assert INIT.routines == Cast(0, 0, kept);
    } else {
      r := FillUp(c, k, m - 1, kept);
      r := Admit(c, r, k, m - 1, 0, kept);
      r := Complete(c, r, k, m - 1, 1, kept);
    }
  }

  lemma {:induction false} Gather(c: Config, r: seq<State>, k: nat, m: nat, w: nat, kept: bool) returns (r': seq<State>)
    requires Run(c, r) && Within(r, k) && Crowd(c, Last(r), m, 0, kept) && m < c.max && w <= k
    ensures Run(c, r') && Within(r', k) && Crowd(c, Last(r'), m, w, kept)
    decreases w
  {
    if w == 0 {
      r' := r;
    } else {
      r' := Gather(c, r, k, m, w - 1, kept);
      r' := Admit(c, r', k, m, w - 1, kept);
    }
  }

  lemma {:induction false} CompleteAll(c: Config, r: seq<State>, k: nat, m: nat, w: nat, kept: bool) returns (r': seq<State>)
    requires Run(c, r) && Within(r, k) && Crowd(c, Last(r), m, w, kept) && w <= k && Room(c, m + w, kept)
    ensures Run(c, r') && Within(r', k) && Crowd(c, Last(r'), m + w, 0, kept)
    decreases w
  {
    if w == 0 {
      r' := r;
    } else {
      r' := Complete(c, r, k, m, w, kept);
      r' := CompleteAll(c, r', k, m + 1, w - 1, kept);
    }
  }

  lemma FullHouse(c: Config, k: nat, m: nat, kept: bool) returns (r: seq<State>)
    requires k >= 1 && m < c.max && Room(c, m + k, kept)
    ensures Run(c, r) && Within(r, k) && Crowd(c, Last(r), m + k, 0, kept) && |Last(r).active| == m + k
  {
    r := FillUp(c, k, m, kept);
    r := Gather(c, r, k, m, k, kept);
    r := CompleteAll(c, r, k, m, k, kept);
    IdsBelow(m + k);
  }

  // ---- The bound is reached ----

  /**
   * Some run with at most k creators in flight registers as many sessions as BoundedOvershoot
   * allows. One port is enough, since a session in teardown gives its port back while it is
   * still in the map.
   */
  lemma OvershootIsReached(c: Config, k: nat) returns (r: seq<State>)
    requires c.max >= 1 && k >= 1 && c.first <= c.last
    ensures Run(c, r) && Within(r, k) && |Last(r).active| == c.max - 1 + k
  {
    r := FullHouse(c, k, c.max - 1, false);
  }

  /** With a port for each of them all these sessions can be Active at once. */
  lemma ActiveOvershootIsReached(c: Config, k: nat) returns (r: seq<State>)
    requires c.max >= 1 && k >= 1 && c.max - 1 + k <= c.last - c.first + 1
    ensures Run(c, r) && Within(r, k) && |Last(r).active| == c.max - 1 + k
    ensures forall id | id in Last(r).active :: id in Last(r).objects && Last(r).objects[id].phase.Active?
  {
    r := FullHouse(c, k, c.max - 1, true);
    IdsBelow(c.max - 1 + k);
  }

  /** In no state of a run with at most k creators in flight are more sessions registered than the limit says. */
  ghost predicate LimitHolds(c: Config, k: nat) {
    forall r: seq<State>, i: nat | Run(c, r) && Within(r, k) && i < |r| :: |r[i].active| <= c.max
  }

  /**
   * The session limit holds in every run exactly when creators never overlap between check and
   * registration, or no session can be made at all; a negative one is exceeded by no session.
   */
  lemma LimitHoldsIffOneAtATime(c: Config, k: nat)
    ensures LimitHolds(c, k) <==> c.max >= 0 && (k <= 1 || c.max == 0 || c.last < c.first)
  {
    if c.max < 0 {
      FlyingCast(0, 0, true);
      assert INIT.routines == Cast(0, 0, true);
      assert Run(c, [INIT]) && Within([INIT], k) && |[INIT][0].active| > c.max;
    } else if k > 1 && c.max >= 1 && c.first <= c.last {
      var r := OvershootIsReached(c, 2);
      assert Within(r, k);
      assert |r[|r| - 1].active| == c.max + 1;
    } else {
      forall r: seq<State>, i: nat | Run(c, r) && Within(r, k) && i < |r| ensures |r[i].active| <= c.max {
        if c.max == 0 {
          NothingWithoutCapacity(c, r, i);
        } else if c.last < c.first {
          NothingWithoutPorts(c, r, i);
        } else {
          BoundedOvershoot(c, r, i, k);
        }
      }
    }
  }
}
