/**
 * The agent's main loop: the session detector (agent/internal/session/detector.go) polls the
 * Windows sessions and calls back on logon and logoff, and the callbacks of
 * agent/cmd/p0rtal-agent/main.go keep one recorder per session.
 *
 * Go visits a map in any order, so the loops over maps pick any element next.
 */
module SessionMonitor {
  import opened Wrappers

  const WTS_ACTIVE := 0

  type SessionId = nat
  type RecorderId = nat

  datatype SessionInfo = SessionInfo(id: SessionId, user: string, state: nat)

  datatype Event = Logon(id: SessionId) | Logoff(id: SessionId) | Start(rec: RecorderId) | Stop(rec: RecorderId)

  /** The recorders map of main, the next recorder to be made, and all that happened so far. */
  datatype Recorders = Recorders(live: map<SessionId, RecorderId>, next: RecorderId, trace: seq<Event>)

  /** onLogon; a recorder that fails to start is dropped. */
  function OnLogon(r: Recorders, id: SessionId, startOk: bool): Recorders {
    if startOk then Recorders(r.live[id := r.next], r.next + 1, r.trace + [Logon(id), Start(r.next)])
    else r.(trace := r.trace + [Logon(id)])
  }

  function OnLogoff(r: Recorders, id: SessionId): Recorders {
    if id in r.live then Recorders(r.live - {id}, r.next, r.trace + [Logoff(id), Stop(r.live[id])])
    else r.(trace := r.trace + [Logoff(id)])
  }

  // ---- What the callbacks keep ----

  /** The last callback for the session was a logon. */
  predicate LoggedOn(trace: seq<Event>, id: SessionId) {
    if trace == [] then false
    else
      var last := trace[|trace| - 1];
      if last == Logon(id) then true
      else if last == Logoff(id) then false
      else LoggedOn(trace[..|trace| - 1], id)
  }

  /** For every session logons and logoffs take turns, beginning with a logon. */
  predicate Alternates(trace: seq<Event>) {
    trace == [] ||
    var before, last := trace[..|trace| - 1], trace[|trace| - 1];
    && Alternates(before)
    && (last.Logon? ==> !LoggedOn(before, last.id))
    && (last.Logoff? ==> LoggedOn(before, last.id))
  }

  lemma TraceGrows(trace: seq<Event>, e: Event, id: SessionId)
    ensures LoggedOn(trace + [e], id) == if e == Logon(id) then true else if e == Logoff(id) then false else LoggedOn(trace, id)
    ensures Alternates(trace + [e]) == (Alternates(trace) && (e.Logon? ==> !LoggedOn(trace, e.id)) && (e.Logoff? ==> LoggedOn(trace, e.id)))
  {
    assert (trace + [e])[..|trace|] == trace;
  }

  function Count(trace: seq<Event>, e: Event): nat {
    multiset(trace)[e]
  }

  /** Each recorder made was started once, and stopped once unless it is in the map, under one session. */
  ghost predicate RecordersApart(r: Recorders) {
    && (forall id | id in r.live :: r.live[id] < r.next)
    && (forall id, k | id in r.live && k in r.live && id != k :: r.live[id] != r.live[k])
    && (forall rec: RecorderId :: Count(r.trace, Start(rec)) == if rec < r.next then 1 else 0)
    && (forall rec: RecorderId :: Count(r.trace, Stop(rec)) == if rec < r.next && rec !in r.live.Values then 1 else 0)
  }

  /** `on` is the set of sessions between a logon and a logoff. */
  ghost predicate Inv(r: Recorders, on: set<SessionId>) {
    && Ordered(r.trace, on)
    && r.live.Keys <= on
    && RecordersApart(r)
  }

  /** What order the callbacks come in, given who is logged on. */
  ghost predicate Ordered(trace: seq<Event>, on: set<SessionId>) {
    Alternates(trace) && forall id :: id in on <==> LoggedOn(trace, id)
  }

  lemma CallbackKeepsOrder(trace: seq<Event>, on: set<SessionId>, id: SessionId)
    requires Ordered(trace, on)
    ensures id !in on ==> Ordered(trace + [Logon(id)], on + {id})
    ensures id in on ==> Ordered(trace + [Logoff(id)], on - {id})
  {
    forall k
      ensures LoggedOn(trace + [Logon(id)], k) == (k == id || LoggedOn(trace, k))
      ensures LoggedOn(trace + [Logoff(id)], k) == (k != id && LoggedOn(trace, k))
    {
      TraceGrows(trace, Logon(id), k);
      TraceGrows(trace, Logoff(id), k);
    }
    TraceGrows(trace, Logon(id), id);
    TraceGrows(trace, Logoff(id), id);
  }

  lemma RecorderEventKeepsOrder(trace: seq<Event>, on: set<SessionId>, e: Event)
    requires Ordered(trace, on) && (e.Start? || e.Stop?)
    ensures Ordered(trace + [e], on)
  {
    forall k ensures LoggedOn(trace + [e], k) == LoggedOn(trace, k) {
      TraceGrows(trace, e, k);
    }
    TraceGrows(trace, e, 0);
  }

  lemma OnLogonOrder(r: Recorders, on: set<SessionId>, id: SessionId, startOk: bool)
    requires Ordered(r.trace, on) && id !in on
    ensures Ordered(OnLogon(r, id, startOk).trace, on + {id})
  {
    CallbackKeepsOrder(r.trace, on, id);
    RecorderEventKeepsOrder(r.trace + [Logon(id)], on + {id}, Start(r.next));
    assert r.trace + [Logon(id)] + [Start(r.next)] == r.trace + [Logon(id), Start(r.next)];
  }

  /** A logon never overwrites a live recorder. */
  lemma OnLogonKeeps(r: Recorders, on: set<SessionId>, id: SessionId, startOk: bool)
    requires Inv(r, on) && id !in on
    ensures id !in r.live && Inv(OnLogon(r, id, startOk), on + {id})
  {
    OnLogonOrder(r, on, id, startOk);
    OnLogonApart(r, id, startOk);
  }

  lemma ValuesWith(live: map<SessionId, RecorderId>, id: SessionId, rec: RecorderId)
    requires id !in live
    ensures live[id := rec].Values == live.Values + {rec}
  {
    var more := live[id := rec];
    forall x | x in live.Values + {rec} ensures x in more.Values {
      if x != rec {
        var k :| k in live && live[k] == x;
        assert more[k] == x;
      } else {
        assert more[id] == rec;
      }
    }
  }

  lemma OnLogonApart(r: Recorders, id: SessionId, startOk: bool)
    requires RecordersApart(r) && id !in r.live
    ensures RecordersApart(OnLogon(r, id, startOk))
  {
    if startOk {
      ValuesWith(r.live, id, r.next);
      assert multiset(r.trace + [Logon(id), Start(r.next)]) == multiset(r.trace) + multiset{Logon(id), Start(r.next)};
    } else {
      CallbackCountsNothing(r, Logon(id));
    }
  }

  lemma OnLogoffOrder(r: Recorders, on: set<SessionId>, id: SessionId)
    requires Ordered(r.trace, on) && id in on
    ensures Ordered(OnLogoff(r, id).trace, on - {id})
  {
    CallbackKeepsOrder(r.trace, on, id);
    if id in r.live {
      var stop := Stop(r.live[id]);
      RecorderEventKeepsOrder(r.trace + [Logoff(id)], on - {id}, stop);
      assert r.trace + [Logoff(id)] + [stop] == r.trace + [Logoff(id), stop];
    }
  }

  lemma ValuesWithout(live: map<SessionId, RecorderId>, id: SessionId)
    requires id in live && forall k, j | k in live && j in live && k != j :: live[k] != live[j]
    ensures (live - {id}).Values == live.Values - {live[id]}
  {
    var rest := live - {id};
    forall rec ensures rec in rest.Values <==> rec in live.Values - {live[id]} {
      if rec in rest.Values {
        var k :| k in rest && rest[k] == rec;
        assert live[k] == rec;
      }
      if rec in live.Values - {live[id]} {
        var k :| k in live && live[k] == rec;
        assert rest[k] == rec;
      }
    }
  }

  lemma OnLogoffKeeps(r: Recorders, on: set<SessionId>, id: SessionId)
    requires Inv(r, on) && id in on
    ensures Inv(OnLogoff(r, id), on - {id})
  {
    OnLogoffOrder(r, on, id);
    CallbackCountsNothing(r, Logoff(id));
    if id in r.live {
      StopKeepsApart(r.(trace := r.trace + [Logoff(id)]), id);
      assert r.trace + [Logoff(id)] + [Stop(r.live[id])] == r.trace + [Logoff(id), Stop(r.live[id])];
    }
  }

  lemma CallbackCountsNothing(r: Recorders, e: Event)
    requires RecordersApart(r) && (e.Logon? || e.Logoff?)
    ensures RecordersApart(r.(trace := r.trace + [e]))
  {
    assert multiset(r.trace + [e]) == multiset(r.trace) + multiset{e};
  }

  lemma StopKeepsApart(r: Recorders, id: SessionId)
    requires RecordersApart(r) && id in r.live
    ensures RecordersApart(Recorders(r.live - {id}, r.next, r.trace + [Stop(r.live[id])]))
  {
    ValuesWithout(r.live, id);
    var e := Stop(r.live[id]);
    assert multiset(r.trace + [e]) == multiset(r.trace) + multiset{e};
    assert r.live[id] in r.live.Values;
  }

  lemma AllStopped(r: Recorders)
    requires RecordersApart(r) && r.live.Keys == {}
    ensures forall rec: RecorderId | rec < r.next :: Count(r.trace, Start(rec)) == 1 && Count(r.trace, Stop(rec)) == 1
  {
    assert forall rec :: rec !in r.live.Values;
  }

  // ---- The order of callbacks in a poll ----

  predicate Begins(e: Event) {
    e.Logon? || e.Start?
  }

  /** The trace goes on with events of one kind only: logons and starts, or logoffs and stops. */
  ghost predicate GoesOn(before: seq<Event>, after: seq<Event>, begins: bool) {
    before <= after && forall i | |before| <= i < |after| :: Begins(after[i]) == begins
  }

  /** All logons come before all logoffs. */
  ghost predicate LogonsFirst(before: seq<Event>, after: seq<Event>) {
    before <= after && forall i, j | |before| <= i < j < |after| && Begins(after[j]) :: Begins(after[i])
  }

  // ---- The poll ----

  /** The sessions of an enumeration that count, by id; a later entry replaces an earlier one. */
  function ActiveMap(current: seq<SessionInfo>): map<SessionId, SessionInfo> {
    if current == [] then map[]
    else
      var m, s := ActiveMap(current[..|current| - 1]), current[|current| - 1];
      if s.state == WTS_ACTIVE && s.user != "" then m[s.id := s] else m
  }

  /** The last entry of a session that counts. */
  ghost predicate LastEntry(current: seq<SessionInfo>, i: int, id: SessionId) {
    && 0 <= i < |current| && current[i].id == id && current[i].state == 0 && current[i].user != ""
    && forall j | i < j < |current| && current[j].id == id :: !(current[j].state == 0 && current[j].user != "")
  }

  ghost predicate SomeEntry(current: seq<SessionInfo>, id: SessionId) {
    exists i :: 0 <= i < |current| && current[i].id == id && current[i].state == 0 && current[i].user != ""
  }

  /** The map holds exactly the sessions a user works in, each as it was enumerated last. */
  ghost predicate HoldsActive(m: map<SessionId, SessionInfo>, current: seq<SessionInfo>) {
    && (forall id :: id in m <==> SomeEntry(current, id))
    && (forall id | id in m :: exists i :: LastEntry(current, i, id) && m[id] == current[i])
  }

  lemma {:induction false} ActiveMapHoldsSome(current: seq<SessionInfo>, id: SessionId)
    ensures id in ActiveMap(current) <==> SomeEntry(current, id)
  {
    if current != [] {
      var n := |current| - 1;
      ActiveMapHoldsSome(current[..n], id);
      assert forall i | 0 <= i < n :: current[..n][i] == current[i];
      if SomeEntry(current, id) {
        var i :| 0 <= i < |current| && current[i].id == id && current[i].state == 0 && current[i].user != "";
        assert i < n ==> current[..n][i] == current[i];
      }
    }
  }

  lemma {:induction false} ActiveMapHoldsLast(current: seq<SessionInfo>, id: SessionId) returns (i: int)
    requires id in ActiveMap(current)
    ensures LastEntry(current, i, id) && ActiveMap(current)[id] == current[i]
  {
    var n := |current| - 1;
    if current[n].id == id && current[n].state == 0 && current[n].user != "" {
      i := n;
    } else {
      i := ActiveMapHoldsLast(current[..n], id);
    }
  }

  lemma NextStarted(current: set<SessionId>, todo: set<SessionId>, active: set<SessionId>, startable: set<SessionId>, id: SessionId)
    requires id in todo && todo <= current
    ensures (current - (todo - {id}) - active) * startable
            == (current - todo - active) * startable + (if id !in active && id in startable then {id} else {})
  {
  }

  class Agent {
    var activeSessions: map<SessionId, SessionInfo>
    var recorders: Recorders

    ghost predicate Valid()
      reads this
    {
      Inv(recorders, activeSessions.Keys)
    }

    constructor ()
      ensures Valid() && activeSessions == map[] && recorders == Recorders(map[], 0, [])
    {
      activeSessions, recorders := map[], Recorders(map[], 0, []);
    }

    /** One tick of Run; an enumeration that fails is skipped. `startable` are the sessions whose recorder starts. */
    method Poll(enumeration: Option<seq<SessionInfo>>, startable: set<SessionId>)
      requires Valid()
      modifies this
      ensures Valid()
      ensures enumeration.None? ==> activeSessions == old(activeSessions) && recorders == old(recorders)
      ensures LogonsFirst(old(recorders.trace), recorders.trace)
      // the active sessions are those a user works in, each as it was enumerated last
      ensures enumeration.Some? ==> HoldsActive(activeSessions, enumeration.value)
      // a recorder lives on exactly as long as its session stays, and a new session has one exactly when it starts
      ensures enumeration.Some? ==>
                recorders.live.Keys == old(recorders.live.Keys) * activeSessions.Keys
                                       + (activeSessions.Keys - old(activeSessions.Keys)) * startable
      ensures enumeration.Some? ==>
                forall id | id in old(recorders.live) && id in activeSessions :: recorders.live[id] == old(recorders.live)[id]
    {
      if enumeration.None? {
        return;
      }
      var currentMap := Enumerated(enumeration.value);
      LogonNew(currentMap, startable);
      LogoffGone(currentMap);
      activeSessions := currentMap;
    }

    /** The loop that files the enumerated sessions a user works in. */
    method Enumerated(current: seq<SessionInfo>) returns (currentMap: map<SessionId, SessionInfo>)
      ensures HoldsActive(currentMap, current)
    {
      currentMap := map[];
      for i := 0 to |current|
        invariant currentMap == ActiveMap(current[..i])
      {
        assert current[..i + 1][..i] == current[..i];
        var s := current[i];
        if s.state == WTS_ACTIVE && s.user != "" {
          currentMap := currentMap[s.id := s];
        }
      }
      assert current[..|current|] == current;
      forall id
        ensures id in currentMap <==> SomeEntry(current, id)
        ensures id in currentMap ==> exists i :: LastEntry(current, i, id) && currentMap[id] == current[i]
      {
        ActiveMapHoldsSome(current, id);
        if id in currentMap {
          var i := ActiveMapHoldsLast(current, id);
        }
      }
    }

    /** The callback for a session that is not logged on yet. */
    method CallOnLogon(id: SessionId, startOk: bool, ghost on: set<SessionId>)
      requires Inv(recorders, on) && id !in on
      modifies this`recorders
      ensures Inv(recorders, on + {id}) && GoesOn(old(recorders.trace), recorders.trace, true)
      ensures recorders.live.Keys == old(recorders.live.Keys) + (if startOk then {id} else {})
      ensures forall k | k in old(recorders.live) :: recorders.live[k] == old(recorders.live)[k]
    {
      OnLogonKeeps(recorders, on, id, startOk);
      recorders := OnLogon(recorders, id, startOk);
    }

    /** The first loop: sessions that were not active before. */
    method LogonNew(currentMap: map<SessionId, SessionInfo>, startable: set<SessionId>)
      requires Valid()
      modifies this`recorders
      ensures Inv(recorders, activeSessions.Keys + currentMap.Keys) && GoesOn(old(recorders.trace), recorders.trace, true)
      ensures recorders.live.Keys == old(recorders.live.Keys) + (currentMap.Keys - activeSessions.Keys) * startable
      ensures forall id | id in old(recorders.live) :: recorders.live[id] == old(recorders.live)[id]
    {
      var todo := currentMap.Keys;
      ghost var on := activeSessions.Keys;
      while todo != {}
        invariant todo <= currentMap.Keys && on == activeSessions.Keys + (currentMap.Keys - todo)
        invariant Inv(recorders, on) && GoesOn(old(recorders.trace), recorders.trace, true)
        invariant recorders.live.Keys == old(recorders.live.Keys) + (currentMap.Keys - todo - activeSessions.Keys) * startable
        invariant forall id | id in old(recorders.live) :: recorders.live[id] == old(recorders.live)[id]
        decreases todo
      {
        var id :| id in todo;
        NextStarted(currentMap.Keys, todo, activeSessions.Keys, startable, id);
        todo := todo - {id};
        if id !in activeSessions {
          CallOnLogon(id, id in startable, on);
        }
        on := on + {id};
      }
      assert on == activeSessions.Keys + currentMap.Keys;
    }

    /** The callback for a session that is logged on. */
    method CallOnLogoff(id: SessionId, ghost on: set<SessionId>)
      requires Inv(recorders, on) && id in on
      modifies this`recorders
      ensures Inv(recorders, on - {id}) && GoesOn(old(recorders.trace), recorders.trace, false)
      ensures recorders.live.Keys == old(recorders.live.Keys) - {id}
      ensures forall k | k in recorders.live :: recorders.live[k] == old(recorders.live)[k]
    {
      OnLogoffKeeps(recorders, on, id);
      recorders := OnLogoff(recorders, id);
    }

    /** The second loop: sessions that are active no more. */
    method LogoffGone(currentMap: map<SessionId, SessionInfo>)
      requires Inv(recorders, activeSessions.Keys + currentMap.Keys)
      modifies this`recorders
      ensures Inv(recorders, currentMap.Keys) && GoesOn(old(recorders.trace), recorders.trace, false)
      ensures recorders.live.Keys == old(recorders.live.Keys) * currentMap.Keys
      ensures forall id | id in recorders.live :: recorders.live[id] == old(recorders.live)[id]
    {
      var todo := activeSessions.Keys;
      ghost var on := activeSessions.Keys + currentMap.Keys;
      while todo != {}
        invariant todo <= activeSessions.Keys && on == todo + currentMap.Keys
        invariant Inv(recorders, on) && GoesOn(old(recorders.trace), recorders.trace, false)
        invariant recorders.live.Keys == old(recorders.live.Keys) * on
        invariant forall id | id in recorders.live :: recorders.live[id] == old(recorders.live)[id]
        decreases todo
      {
        var id :| id in todo;
        if id !in currentMap {
          CallOnLogoff(id, on);
        }
        todo := todo - {id};
        on := todo + currentMap.Keys;
      }
      assert on == currentMap.Keys;
    }

    /** The end of runAgent: every recorder still in the map is stopped. */
    method StopAll()
      requires Valid()
      modifies this`recorders
      ensures recorders.next == old(recorders.next)
      ensures forall rec: RecorderId | rec < recorders.next ::
                Count(recorders.trace, Start(rec)) == 1 && Count(recorders.trace, Stop(rec)) == 1
    {
      var todo := recorders.live;
      while todo.Keys != {}
        invariant recorders.next == old(recorders.next)
        invariant RecordersApart(recorders.(live := todo))
        decreases |todo|
      {
        var id :| id in todo.Keys;
        StopKeepsApart(recorders.(live := todo), id);
        recorders := recorders.(trace := recorders.trace + [Stop(todo[id])]);
        todo := todo - {id};
      }
      AllStopped(recorders.(live := todo));
    }
  }
}
