/**
 * Grants, revocations and session creations at the same time (proxy/internal/api/access.go and
 * sessions.go): a creation looks its grant up first and registers its session later, and a
 * revocation finds the grant, takes it away, lists the user's sessions and ends them one by one.
 *
 * Users and hosts are case-folded here; Access.dfy has the folding, and the calls one by one.
 */
module AccessRace {
  type User = nat
  type Id = nat
  type Request = nat

  datatype Key = Key(user: User, host: nat)

  /** `granted` records whether the grant was there at the registration or has come back since. */
  datatype Entry = Entry(key: Key, granted: bool)

  datatype Handler =
    | Approved(key: Key)                    // found its grant, has no session yet
    | Revoking(key: Key)                    // found the grant to take away
    | Listing(user: User)                   // has taken it away
    | Sweeping(user: User, ids: set<Id>)    // ends the sessions it listed
    | Answered

  datatype State = State(grants: set<Key>, live: map<Id, Entry>, used: set<Id>, handlers: map<Request, Handler>)

  datatype Action =
    | Grant(k: Key)
    | Approve(r: Request, k: Key)
    | Register(r: Request, id: Id)
    | GiveUp(r: Request)
    | Revoke(r: Request, k: Key)
    | Take(r: Request)
    | List(r: Request)
    | Sweep(r: Request, id: Id)
    | Answer(r: Request)
    | End(id: Id)                           // by anybody else

  const INIT := State({}, map[], {}, map[])

  predicate Enabled(s: State, a: Action) {
    match a
    case Grant(_) => true
    case Approve(r, k) => r !in s.handlers && k in s.grants
    case Register(r, id) => r in s.handlers && s.handlers[r].Approved? && id !in s.used
    case GiveUp(r) => r in s.handlers && s.handlers[r].Approved?
    case Revoke(r, k) => r !in s.handlers && k in s.grants
    case Take(r) => r in s.handlers && s.handlers[r].Revoking?
    case List(r) => r in s.handlers && s.handlers[r].Listing?
    case Sweep(r, id) => r in s.handlers && s.handlers[r].Sweeping? && id in s.handlers[r].ids
    case Answer(r) => r in s.handlers && s.handlers[r].Sweeping? && s.handlers[r].ids == {}
    case End(_) => true
  }

  /** The grant covers the sessions under it from now on. */
  function WithGrant(live: map<Id, Entry>, k: Key): map<Id, Entry> {
    map id | id in live :: if live[id].key == k then live[id].(granted := true) else live[id]
  }

  function SessionsOf(live: map<Id, Entry>, user: User): set<Id> {
    set id | id in live && live[id].key.user == user
  }

  function Move(s: State, r: Request, h: Handler): State {
    s.(handlers := s.handlers[r := h])
  }

  function Apply(s: State, a: Action): State
    requires Enabled(s, a)
  {
    match a
    case Grant(k) => s.(grants := s.grants + {k}, live := WithGrant(s.live, k))
    case Approve(r, k) => Move(s, r, Approved(k))
    case Register(r, id) =>
      var k := s.handlers[r].key;
      Move(s, r, Answered).(live := s.live[id := Entry(k, k in s.grants)], used := s.used + {id})
    case GiveUp(r) => Move(s, r, Answered)
    case Revoke(r, k) => Move(s, r, Revoking(k))
    case Take(r) => Move(s, r, Listing(s.handlers[r].key.user)).(grants := s.grants - {s.handlers[r].key})
    case List(r) => Move(s, r, Sweeping(s.handlers[r].user, SessionsOf(s.live, s.handlers[r].user)))
    case Sweep(r, id) => Move(s, r, Sweeping(s.handlers[r].user, s.handlers[r].ids - {id})).(live := s.live - {id})
    case Answer(r) => Move(s, r, Answered)
    case End(id) => s.(live := s.live - {id})
  }

  ghost predicate RunFrom(s: State, actions: seq<Action>)
    decreases |actions|
  {
    actions == [] || (Enabled(s, actions[0]) && RunFrom(Apply(s, actions[0]), actions[1..]))
  }

  function After(s: State, actions: seq<Action>): State
    requires RunFrom(s, actions)
    decreases |actions|
  {
    if actions == [] then s else After(Apply(s, actions[0]), actions[1..])
  }

  /** The revocation will still end the session. */
  predicate WillEnd(h: Handler, user: User, id: Id) {
    (h.Listing? && h.user == user) || (h.Sweeping? && id in h.ids)
  }

  ghost predicate Doomed(s: State, id: Id)
    requires id in s.live
  {
    exists r :: r in s.handlers && WillEnd(s.handlers[r], s.live[id].key.user, id)
  }

  /** A live session that has had its grant still has it, or some revocation will end it. */
  ghost predicate Inv(s: State) {
    && s.live.Keys <= s.used
    && (forall id | id in s.live && s.live[id].key in s.grants :: s.live[id].granted)
    && (forall id | id in s.live && s.live[id].granted :: s.live[id].key in s.grants || Doomed(s, id))
  }

  /** A step that keeps what a handler will do about a session. */
  lemma StillDoomed(s: State, s': State, id: Id)
    requires id in s.live && id in s'.live && s'.live[id].key == s.live[id].key && Doomed(s, id)
    requires forall r | r in s.handlers && WillEnd(s.handlers[r], s.live[id].key.user, id) ::
               r in s'.handlers && WillEnd(s'.handlers[r], s.live[id].key.user, id)
    ensures Doomed(s', id)
  {
    var r :| r in s.handlers && WillEnd(s.handlers[r], s.live[id].key.user, id);
    assert r in s'.handlers && WillEnd(s'.handlers[r], s.live[id].key.user, id);
  }

  lemma StepKeeps(s: State, a: Action)
    requires Inv(s) && Enabled(s, a)
    ensures Inv(Apply(s, a))
  {
    var s' := Apply(s, a);
    forall id | id in s'.live && s'.live[id].granted ensures s'.live[id].key in s'.grants || Doomed(s', id) {
      if id in s.live && s.live[id].granted && Doomed(s, id) {
        StillDoomed(s, s', id);
      } else if a.Take? && id in s.live && s.live[id].key == s.handlers[a.r].key {
        assert a.r in s'.handlers && WillEnd(s'.handlers[a.r], s'.live[id].key.user, id);
      }
    }
  }

  lemma {:induction false} RunKeeps(s: State, actions: seq<Action>)
    requires RunFrom(s, actions) && Inv(s)
    ensures Inv(After(s, actions))
    decreases |actions|
  {
    if actions != [] {
      StepKeeps(s, actions[0]);
      RunKeeps(Apply(s, actions[0]), actions[1..]);
    }
  }

  /** No revocation that has taken a grant is still at work. */
  ghost predicate Settled(s: State) {
    forall r | r in s.handlers :: !s.handlers[r].Listing? && !s.handlers[r].Sweeping?
  }

  ghost predicate Covered(s: State) {
    forall id | id in s.live :: s.live[id].key in s.grants
  }

  /**
   * Whenever no revocation is at work, every live session has its grant if and only if every
   * one of them was registered while its grant was there or has got it since: the sessions
   * without a grant are exactly those whose creation a revocation overtook.
   */
  lemma CoveredIffNoneOvertaken(run: seq<Action>)
    requires RunFrom(INIT, run) && Settled(After(INIT, run))
    ensures var s := After(INIT, run);
            && (Covered(s) <==> forall id | id in s.live :: s.live[id].granted)
            && forall id | id in s.live :: s.live[id].key in s.grants <==> s.live[id].granted
  {
    RunKeeps(INIT, run);
    var s := After(INIT, run);
    forall id | id in s.live && s.live[id].granted ensures s.live[id].key in s.grants {
      assert !Doomed(s, id);
    }
  }

  // ---- Which sessions there can be, and which a revocation ends ----

  predicate IsFor(h: Handler, k: Key) {
    (h.Approved? || h.Revoking?) && h.key == k
  }

  /** Only keys that were granted are in the state, and a sweep has only sessions of its user in hand. */
  ghost predicate Founded(s: State, granted: set<Key>) {
    && s.grants <= granted && s.live.Keys <= s.used
    && (forall id | id in s.live :: s.live[id].key in granted)
    && (forall r, k | r in s.handlers && IsFor(s.handlers[r], k) :: k in granted)
    && (forall r | r in s.handlers && s.handlers[r].Sweeping? :: s.handlers[r].ids <= s.used && HasOnly(s.live, s.handlers[r].user, s.handlers[r].ids))
  }

  ghost predicate HasOnly(live: map<Id, Entry>, user: User, ids: set<Id>) {
    forall id | id in ids && id in live :: live[id].key.user == user
  }

  lemma StepFounded(s: State, a: Action, granted: set<Key>)
    requires Founded(s, granted) && Enabled(s, a) && (a.Grant? ==> a.k in granted)
    ensures Founded(Apply(s, a), granted)
  {
  }

  function KeysGranted(actions: seq<Action>): set<Key> {
    set a | a in actions && a.Grant? :: a.k
  }

  lemma {:induction false} RunFounded(s: State, actions: seq<Action>, granted: set<Key>)
    requires Founded(s, granted) && RunFrom(s, actions) && KeysGranted(actions) <= granted
    ensures Founded(After(s, actions), granted)
    decreases |actions|
  {
    if actions != [] {
      assert actions[0] in actions && forall a | a in actions[1..] :: a in actions;
      StepFounded(s, actions[0], granted);
      RunFounded(Apply(s, actions[0]), actions[1..], granted);
    }
  }

  /** However the requests interleave, a session is one of a user for a host that were granted at some time. */
  lemma NoSessionWithoutAGrant(run: seq<Action>, id: Id)
    requires RunFrom(INIT, run) && id in After(INIT, run).live
    ensures Grant(After(INIT, run).live[id].key) in run
  {
    RunFounded(INIT, run, KeysGranted(run));
    var a :| a in run && a.Grant? && a.k == After(INIT, run).live[id].key;
  }

  /** A step ends a session only by name, or as a revocation that works for the session's own user. */
  lemma EndedByNameOrForItsUser(run: seq<Action>, a: Action, id: Id)
    requires RunFrom(INIT, run) && Enabled(After(INIT, run), a) && id in After(INIT, run).live
    ensures var s := After(INIT, run);
            id !in Apply(s, a).live <==>
            a == End(id) || (exists r :: r in s.handlers && a == Sweep(r, id) && s.handlers[r].Sweeping? && s.handlers[r].user == s.live[id].key.user)
  {
    RunFounded(INIT, run, KeysGranted(run));
    var s := After(INIT, run);
    if a.Sweep? {
      assert HasOnly(s.live, s.handlers[a.r].user, s.handlers[a.r].ids);
    }
  }

  // ---- Creations that no revocation overtakes ----

  /** Each creation registers its session while its grant is there. */
  ghost predicate RegistersUnderGrant(s: State, actions: seq<Action>)
    requires RunFrom(s, actions)
    decreases |actions|
  {
    actions == [] ||
    ((actions[0].Register? ==> s.handlers[actions[0].r].key in s.grants) && RegistersUnderGrant(Apply(s, actions[0]), actions[1..]))
  }

  /** Then every session is registered as granted. */
  lemma {:induction false} AllGranted(s: State, actions: seq<Action>)
    requires RunFrom(s, actions) && RegistersUnderGrant(s, actions) && forall id | id in s.live :: s.live[id].granted
    ensures forall id | id in After(s, actions).live :: After(s, actions).live[id].granted
    decreases |actions|
  {
    if actions != [] {
      AllGranted(Apply(s, actions[0]), actions[1..]);
    }
  }

  /** If no creation is overtaken by a revocation, every live session has its grant whenever none is under way. */
  lemma NobodyOvertakenAllCovered(run: seq<Action>)
    requires RunFrom(INIT, run) && RegistersUnderGrant(INIT, run) && Settled(After(INIT, run))
    ensures Covered(After(INIT, run))
  {
    AllGranted(INIT, run);
    CoveredIffNoneOvertaken(run);
  }

  lemma RunCons(s: State, a: Action, rest: seq<Action>)
    requires Enabled(s, a) && RunFrom(Apply(s, a), rest)
    ensures RunFrom(s, [a] + rest) && After(s, [a] + rest) == After(Apply(s, a), rest)
  {
    assert ([a] + rest)[1..] == rest;
  }

  lemma RevocationPasses(k: Key, id: Id, s: State)
    requires s == State({k}, map[], {}, map[0 := Approved(k), 1 := Revoking(k)])
    ensures var run := [Take(1), List(1), Answer(1), Register(0, id)];
            RunFrom(s, run) && After(s, run) == State({}, map[id := Entry(k, false)], {id}, map[0 := Answered, 1 := Answered])
  {
    var s3 := State({}, map[], {}, map[0 := Approved(k), 1 := Listing(k.user)]);
    var s4 := State({}, map[], {}, map[0 := Approved(k), 1 := Sweeping(k.user, {})]);
    var s5 := State({}, map[], {}, map[0 := Approved(k), 1 := Answered]);
    assert Apply(s, Take(1)) == s3;
    assert SessionsOf(s3.live, k.user) == {};
    assert Apply(s3, List(1)) == s4;
    assert Apply(s4, Answer(1)) == s5;
    RunCons(s5, Register(0, id), []);
    RunCons(s4, Answer(1), [Register(0, id)]);
    RunCons(s3, List(1), [Answer(1), Register(0, id)]);
    RunCons(s, Take(1), [List(1), Answer(1), Register(0, id)]);
  }

  /** Such a run: the grant is found, the whole revocation goes by, and then the session is registered. */
  lemma OvertakenCreationSlipsIn(k: Key, id: Id)
    ensures var run := [Grant(k), Approve(0, k), Revoke(1, k)] + [Take(1), List(1), Answer(1), Register(0, id)];
            && RunFrom(INIT, run) && Settled(After(INIT, run))
            && id in After(INIT, run).live && After(INIT, run).live[id].key == k && k !in After(INIT, run).grants
  {
    var s1 := State({k}, map[], {}, map[]);
    var s2 := State({k}, map[], {}, map[0 := Approved(k)]);
    var s3 := State({k}, map[], {}, map[0 := Approved(k), 1 := Revoking(k)]);
    var rest := [Take(1), List(1), Answer(1), Register(0, id)];
    RevocationPasses(k, id, s3);
    assert WithGrant(map[], k) == map[];
    assert Apply(INIT, Grant(k)) == s1 && Apply(s1, Approve(0, k)) == s2 && Apply(s2, Revoke(1, k)) == s3;
    RunCons(s2, Revoke(1, k), rest);
    RunCons(s1, Approve(0, k), [Revoke(1, k)] + rest);
    RunCons(INIT, Grant(k), [Approve(0, k)] + ([Revoke(1, k)] + rest));
    assert [Grant(k), Approve(0, k), Revoke(1, k)] + rest == [Grant(k)] + ([Approve(0, k)] + ([Revoke(1, k)] + rest));
  }
}
