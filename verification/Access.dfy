/**
 * Grants and sessions together: the in-memory ACL (proxy/internal/acl/store.go) and the API
 * handlers that drive it and the manager (proxy/internal/api/access.go and sessions.go).
 */
module Access {
  import opened Wrappers
  import opened Text
  import opened PortPools
  import opened SessionManager

  datatype GrantKey = GrantKey(email: string, hostname: string)
  datatype Grant = Grant(hostname: string, ip: string, port: int, email: string, username: string, secret: string)

  type Grants = map<GrantKey, Grant>

  function KeyOf(email: string, hostname: string): GrantKey {
    GrantKey(ToLower(email), ToLower(hostname))
  }

  /** Grants are filed under their own case-folded names. */
  ghost predicate Filed(grants: Grants) {
    forall k | k in grants :: KeyOf(grants[k].email, grants[k].hostname) == k
  }

  /** Every session in the map still has a grant for its user and target. */
  ghost predicate Covered(grants: Grants, sessions: Sessions) {
    forall id | id in sessions :: KeyOf(sessions[id].userID, sessions[id].targetID) in grants
  }

  lemma LowerTwice(s: string)
    ensures ToLower(ToLower(s)) == ToLower(s)
  {
    assert forall c: char :: LowerChar(LowerChar(c)) == LowerChar(c);
  }

  /** Any spelling of the user's address selects the user's sessions. */
  lemma CaseVariantMatches(userID: string, email: string)
    requires ToLower(userID) == ToLower(email)
    ensures MatchesUser(userID, email)
  {
    EqualFoldIsEqualLower(userID, email);
  }

  /** Revoking one grant and ending the sessions of its user keeps the rest covered. */
  lemma RevokeKeepsCovered(grants: Grants, sessions: Sessions, left: Sessions, email: string, hostname: string)
    requires Covered(grants, sessions)
    requires forall id | id in left :: id in sessions && left[id] == sessions[id] && !NamesUser(left[id].userID, email)
    ensures Covered(grants - {KeyOf(email, hostname)}, left)
    ensures forall id | id in left :: ToLower(left[id].userID) != ToLower(email)
  {
    forall id | id in left
      ensures ToLower(left[id].userID) != ToLower(email) && KeyOf(left[id].userID, left[id].targetID) in grants - {KeyOf(email, hostname)}
    {
      assert !NamesUser(left[id].userID, email);
    }
  }

  class MemoryStore {
    var grants: Grants

    ghost predicate Valid()
      reads this
    {
      Filed(grants)
    }

    constructor ()
      ensures Valid() && grants == map[]
    {
      grants := map[];
    }

    method GrantAccess(grant: Grant)
      requires Valid()
      modifies this
      ensures Valid() && grants == old(grants)[KeyOf(grant.email, grant.hostname) := grant.(email := ToLower(grant.email))]
    {
      LowerTwice(grant.email);
      grants := grants[KeyOf(grant.email, grant.hostname) := grant.(email := ToLower(grant.email))];
    }

    method RevokeAccess(email: string, hostname: string)
      requires Valid()
      modifies this
      ensures Valid() && grants == old(grants) - {KeyOf(email, hostname)}
    {
      grants := grants - {KeyOf(email, hostname)};
    }

    method FindGrant(email: string, hostname: string) returns (r: Option<Grant>)
      requires Valid()
      ensures r == if KeyOf(email, hostname) in grants then Some(grants[KeyOf(email, hostname)]) else None
      ensures r.Some? ==> KeyOf(email, r.value.hostname) == KeyOf(email, hostname)
    {
      var key := KeyOf(email, hostname);
      if key in grants {
        LowerTwice(email);
        r := Some(grants[key]);
      } else {
        r := None;
      }
    }
  }

  datatype ApiError = BadRequest | Unauthorized | Forbidden | NotFound | Unavailable | Internal

  predicate IsEmail(s: string): (yes: bool)
    ensures yes <==> '@' in s
  {
    IndexOfChar(s, '@');
    Contains(s, "@") && s != ""
  }

  ghost predicate EndedUpTo(list: seq<Session>, n: nat, ended: set<string>)
    requires n <= |list|
  {
    forall j | 0 <= j < n && !list[j].phase.Terminated? :: list[j].id in ended
  }

  lemma EndedOneMore(list: seq<Session>, n: nat, ended: set<string>, id: string)
    requires n <= |list| && EndedUpTo(list, n, ended)
    ensures EndedUpTo(list, n, ended + {id})
    ensures n < |list| && list[n].id == id ==> EndedUpTo(list, n + 1, ended + {id})
  {
  }

  lemma DoomedEnded(list: seq<Session>, all: Sessions, doomed: set<string>, ended: set<string>)
    requires ended <= doomed <= all.Keys
    requires forall id | id in doomed :: all[id] in list && all[id].id == id && !all[id].phase.Terminated?
    requires EndedUpTo(list, |list|, ended)
    ensures ended == doomed
  {
    forall id | id in doomed ensures id in ended {
      var j :| 0 <= j < |list| && list[j] == all[id];
    }
  }

  class Api {
    const aclStore: MemoryStore
    const manager: Manager

    ghost predicate Valid()
      reads this, aclStore, manager, manager.portPool
    {
      && aclStore.Valid() && manager.Valid()
      && Covered(aclStore.grants, manager.sessions)
    }

    constructor (aclStore: MemoryStore, manager: Manager)
      requires aclStore.Valid() && manager.Valid() && manager.sessions == map[]
      ensures Valid() && this.aclStore == aclStore && this.manager == manager
    {
      this.aclStore, this.manager := aclStore, manager;
    }

    method GrantAccess(grant: Grant) returns (r: Result<(), ApiError>)
      requires Valid()
      modifies aclStore
      ensures Valid()
      ensures r.Ok? <==> grant.hostname != "" && grant.ip != "" && IsEmail(grant.email) && grant.username != "" && grant.secret != ""
      // the stored grant is the given one, under its folded address and with the default port where none is given
      ensures r.Ok? ==> aclStore.grants == old(aclStore.grants)[GrantKey(ToLower(grant.email), ToLower(grant.hostname)) :=
                          Grant(grant.hostname, grant.ip, if grant.port == 0 then 3389 else grant.port,
                                ToLower(grant.email), grant.username, grant.secret)]
      ensures r.Err? ==> r.error == BadRequest && aclStore.grants == old(aclStore.grants)
    {
      if grant.hostname == "" || grant.ip == "" || !IsEmail(grant.email) || grant.username == "" || grant.secret == "" {
        return Err(BadRequest);
      }
      var stored := grant;
      if stored.port == 0 {
        stored := stored.(port := 3389);
      }
      aclStore.GrantAccess(stored);
      return Ok(());
    }

    /** `secretOk`: the secret could be resolved. */
    method CreateSession(userID: string, hostname: string, secretOk: bool, outcome: CreateOutcome) returns (r: Result<Session, ApiError>)
      requires Valid() && (outcome.Works? ==> outcome.id !in manager.sessions)
      modifies manager, manager.portPool
      ensures Valid()
      ensures r.Ok? ==> KeyOf(userID, hostname) in aclStore.grants && r.value.userID == userID
                        && ToLower(r.value.targetID) == ToLower(hostname)
                        && manager.sessions == old(manager.sessions)[r.value.id := r.value]
      ensures r.Err? ==> manager.sessions == old(manager.sessions) && manager.portPool.inUse == old(manager.portPool.inUse)
      ensures r == Err(BadRequest) <==> hostname == ""
      ensures r.Err? ==> r.error != NotFound
      ensures r == Err(Unauthorized) <==> hostname != "" && userID == ""
      ensures userID != "" && hostname != "" ==> (r == Err(Forbidden) <==> KeyOf(userID, hostname) !in aclStore.grants)
      ensures userID != "" && hostname != "" && KeyOf(userID, hostname) in aclStore.grants ==>
                (r == Err(Unavailable) <==> !secretOk || (!manager.shutdown && old(|manager.sessions|) >= manager.maxConcurrentSessions))
      ensures r.Ok? <==> userID != "" && hostname != "" && KeyOf(userID, hostname) in aclStore.grants && secretOk && outcome.Works?
                         && !manager.shutdown && old(|manager.sessions|) < manager.maxConcurrentSessions
                         && LowestFree(manager.portPool.startPort, manager.portPool.endPort, old(manager.portPool.inUse.Keys)).Some?
      ensures r.Ok? ==> r.value.id == outcome.id && r.value.phase.Active?
                        && r.value.targetID == aclStore.grants[KeyOf(userID, hostname)].hostname
    {
      if hostname == "" {
        return Err(BadRequest);
      }
      if userID == "" {
        return Err(Unauthorized);
      }
      var grant := aclStore.FindGrant(userID, hostname);
      if grant.None? {
        return Err(Forbidden);
      }
      if !secretOk {
        return Err(Unavailable);
      }
      var created := manager.CreateSession(userID, grant.value.hostname, outcome);
      match created {
        case Ok(session) => return Ok(session);
        case Err(e) => return Err(if e.SessionLimitReached? then Unavailable else Internal);
      }
    }

    method DeleteSession(id: string) returns (r: Result<(), ApiError>)
      requires Valid()
      modifies manager, manager.portPool
      ensures Valid()
      ensures r.Ok? <==> id in old(manager.sessions)
      ensures r.Err? ==> r.error == NotFound
      ensures manager.sessions == old(manager.sessions) - {id}
    {
      var done := manager.TerminateSession(id);
      return if done.Ok? then Ok(()) else Err(NotFound);
    }

    /** Takes the grant away, then ends every session that matches the user, on any target. */
    method RevokeAccess(email: string, hostname: string) returns (r: Result<(), ApiError>)
      requires Valid()
      modifies aclStore, manager, manager.portPool
      ensures Valid()
      ensures r.Ok? <==> IsEmail(email) && hostname != "" && KeyOf(email, hostname) in old(aclStore.grants)
      ensures r.Ok? ==> aclStore.grants == old(aclStore.grants) - {KeyOf(email, hostname)}
      // exactly the sessions of other users are left
      ensures r.Ok? ==> forall id :: id in manager.sessions <==>
                          id in old(manager.sessions) && !NamesUser(old(manager.sessions)[id].userID, email)
      ensures r.Ok? ==> forall id | id in manager.sessions :: manager.sessions[id] == old(manager.sessions)[id]
                                                             && ToLower(manager.sessions[id].userID) != ToLower(email)
      ensures r.Err? ==> aclStore.grants == old(aclStore.grants) && manager.sessions == old(manager.sessions)
      ensures r == Err(BadRequest) <==> !IsEmail(email) || hostname == ""
      ensures r.Err? ==> r.error == BadRequest || r.error == NotFound
    {
      if !IsEmail(email) || hostname == "" {
        return Err(BadRequest);
      }
      var grant := aclStore.FindGrant(email, hostname);
      if grant.None? {
        return Err(NotFound);
      }
      aclStore.RevokeAccess(email, hostname);
      var list := manager.ListSessions(email);
      ghost var doomed := set id | id in manager.sessions && NamesUser(manager.sessions[id].userID, email);
      EndListed(list, doomed);
      RevokeKeepsCovered(old(aclStore.grants), old(manager.sessions), manager.sessions, email, hostname);
      return Ok(());
    }

    method EndIfLive(s: Session)
      requires manager.Valid()
      modifies manager, manager.portPool
      ensures manager.Valid()
      ensures manager.sessions == if s.phase.Terminating? || s.phase.Terminated? then old(manager.sessions) else old(manager.sessions) - {s.id}
    {
      if !(s.phase.Terminating? || s.phase.Terminated?) {
        var done := manager.TerminateSession(s.id);
        assert s.id !in old(manager.sessions) ==> old(manager.sessions) - {s.id} == old(manager.sessions);
      }
    }

    /** The loop of revokeAccess over the sessions it listed; `doomed` are the live ones among them. */
    method EndListed(list: seq<Session>, ghost doomed: set<string>)
      requires manager.Valid() && doomed <= manager.sessions.Keys
      requires forall id | id in doomed :: manager.sessions[id] in list
      requires forall s | s in list :: s.phase.Terminated? || (s.id in doomed && !s.phase.Terminating?)
      modifies manager, manager.portPool
      ensures manager.Valid() && manager.sessions == old(manager.sessions) - doomed
    {
      ghost var ended: set<string> := {};
      ghost var all := manager.sessions;
      for i := 0 to |list|
        invariant manager.Valid() && ended <= doomed
        invariant manager.sessions == all - ended
        invariant EndedUpTo(list, i, ended)
      {
        EndIfLive(list[i]);
        if !(list[i].phase.Terminating? || list[i].phase.Terminated?) {
          assert all - ended - {list[i].id} == all - (ended + {list[i].id});
          EndedOneMore(list, i, ended, list[i].id);
          ended := ended + {list[i].id};
        }
      }
      DoomedEnded(list, all, doomed, ended);
    }
  }
}
