/**
 * The three-stage token exchange with its cache (proxy/internal/secrets/tokens.go): an Azure
 * token buys a Google STS token, which buys an IAM token. Each stage looks at its cache under
 * the read lock, gets the token of the stage below, and looks again under the write lock
 * before it fetches.
 *
 * The three stages run the same code on fields of their own, so the fields are one map here.
 * What a fetch answers, and how long it takes, is chosen freely. Times are in seconds.
 */
module TokenCache {
  import opened Wrappers

  type Token = nat
  type Caller = nat

  const TOKEN_REFRESH_BUFFER := 60

  datatype Stage = Azure | Sts | Iam

  /** The stage whose token pays for this one. */
  function Below(st: Stage): Stage
    requires st != Azure
  {
    if st.Iam? then Sts else Azure
  }

  function Depth(st: Stage): nat {
    match st case Azure => 0 case Sts => 1 case Iam => 2
  }

  datatype Cached = Cached(token: Token, expiresAt: int)

  type Cache = map<Stage, Cached>

  datatype Fetch = Fetched(token: Token, expiresAt: int) | FetchFailed

  /** time.Now().Before(expiresAt.Add(-tokenRefreshBuffer)), for a token that is there. */
  predicate Usable(cache: Cache, st: Stage, now: int) {
    st in cache && now < cache[st].expiresAt - TOKEN_REFRESH_BUFFER
  }

  /** Nobody's token is dropped, and one is replaced only when it has run into its buffer. */
  ghost predicate Justified(before: Cache, after: Cache, st: Stage, now: int) {
    st in before ==> st in after && (after[st] == before[st] || !Usable(before, st, now))
  }

  ghost predicate SameEntry(before: Cache, after: Cache, st: Stage) {
    (st in before <==> st in after) && (st in before ==> after[st] == before[st])
  }

  /** The token is the cached one outside its buffer, or the one fetched, which is cached now. */
  ghost predicate UsableOrFetched(before: Cache, after: Cache, st: Stage, now: int, f: Fetch, token: Token) {
    || (Usable(before, st, now) && token == before[st].token && after == before)
    || (f.Fetched? && token == f.token && !Usable(before, st, now) && after == before[st := Cached(f.token, f.expiresAt)])
  }

  // ---- The provider ----

  /**
   * When a stage looks for the first and the second time, and what a fetch of it answers to the
   * token of the stage below. Azure presents none.
   */
  datatype Look = Look(first: int, second: int, fetch: Token -> Fetch)

  /** What a call for a stage hands out. */
  ghost function HandsOut(cache: Cache, st: Stage, looks: Stage -> Look): Option<Token>
    decreases Depth(st)
  {
    if Usable(cache, st, looks(st).first) then Some(cache[st].token)
    else
      match Payment(cache, st, looks)
      case None => None
      case Some(parent) =>
        if Usable(cache, st, looks(st).second) then Some(cache[st].token)
        else
          match looks(st).fetch(parent)
          case FetchFailed => None
          case Fetched(token, _) => Some(token)
  }

  /** The token a stage has in hand when it takes the write lock: what the call for the stage below hands out. */
  ghost function Payment(cache: Cache, st: Stage, looks: Stage -> Look): Option<Token>
    decreases Depth(st), -1
  {
    if st == Azure then Some(0) else HandsOut(cache, Below(st), looks)
  }

  /** The stage fetches: the call came to it, and it was unusable at both looks. */
  ghost predicate Fetches(cache: Cache, st: Stage, looks: Stage -> Look) {
    !Usable(cache, st, looks(st).first) && Payment(cache, st, looks).Some? && !Usable(cache, st, looks(st).second)
  }

  /** A call for st comes to stage x: every stage from st down to x, x apart, is unusable at its first look. */
  ghost predicate Called(cache: Cache, x: Stage, st: Stage, looks: Stage -> Look)
    decreases Depth(st)
  {
    x == st || (st != Azure && !Usable(cache, st, looks(st).first) && Called(cache, x, Below(st), looks))
  }

  lemma {:induction false} CalledIsBelow(cache: Cache, x: Stage, st: Stage, looks: Stage -> Look)
    ensures Called(cache, x, st, looks) ==> Depth(x) <= Depth(st)
    decreases Depth(st)
  {
    if st != Azure {
      CalledIsBelow(cache, x, Below(st), looks);
    }
  }

  /** Stage x holds what it fetched, if the call came to it and it fetched anything, and else what it held. */
  ghost predicate Filed(before: Cache, after: Cache, x: Stage, st: Stage, looks: Stage -> Look) {
    if Called(before, x, st, looks) && Fetches(before, x, looks) && looks(x).fetch(Payment(before, x, looks).value).Fetched?
    then var got := looks(x).fetch(Payment(before, x, looks).value);
         x in after && after[x] == Cached(got.token, got.expiresAt)
    else SameEntry(before, after, x)
  }

  /** A call that fetches nothing for its own stage leaves what the call below left. */
  lemma FiledByMiss(before: Cache, after: Cache, x: Stage, st: Stage, looks: Stage -> Look)
    requires if Usable(before, st, looks(st).first) then after == before
             else st != Azure && Filed(before, after, x, Below(st), looks) && Payment(before, st, looks).None?
    ensures Filed(before, after, x, st, looks)
  {
    if st != Azure {
      CalledIsBelow(before, x, Below(st), looks);
    }
  }

  /** A call comes back empty exactly when the one below it does, or its own fetch fails. */
  lemma EmptyIff(cache: Cache, st: Stage, looks: Stage -> Look)
    ensures HandsOut(cache, st, looks).None? <==>
            !Usable(cache, st, looks(st).first) &&
            ((st != Azure && HandsOut(cache, Below(st), looks).None?)
             || (!Usable(cache, st, looks(st).second) && looks(st).fetch(Payment(cache, st, looks).value).FetchFailed?))
  {
  }

  /** If every fetch succeeds, every call comes back with a token. */
  lemma {:induction false} NeverEmptyWhenFetched(cache: Cache, st: Stage, looks: Stage -> Look)
    requires forall x, t :: looks(x).fetch(t).Fetched?
    ensures HandsOut(cache, st, looks).Some?
    decreases Depth(st)
  {
    if st != Azure {
      NeverEmptyWhenFetched(cache, Below(st), looks);
    }
  }

  class TokenProvider {
    var cache: Cache

    constructor ()
      ensures cache == map[]
    {
      cache := map[];
    }

    /** Under the read lock. */
    method Lookup(st: Stage, now: int) returns (r: Option<Token>)
      ensures r.Some? <==> Usable(cache, st, now)
      ensures r.Some? ==> UsableOrFetched(cache, cache, st, now, FetchFailed, r.value)
      ensures r.None? <==> st !in cache || now >= cache[st].expiresAt - 60
    {
      if st in cache && now < cache[st].expiresAt - TOKEN_REFRESH_BUFFER {
        return Some(cache[st].token);
      }
      return None;
    }

    /** Under the write lock: look again, then fetch. */
    method Refresh(st: Stage, now: int, f: Fetch) returns (r: Option<Token>)
      modifies this
      ensures r.Some? ==> UsableOrFetched(old(cache), cache, st, now, f, r.value)
      ensures r.None? ==> f.FetchFailed? && !Usable(cache, st, now) && cache == old(cache)
      ensures forall x :: Justified(old(cache), cache, x, now)
    {
      if st in cache && now < cache[st].expiresAt - TOKEN_REFRESH_BUFFER {
        return Some(cache[st].token);
      }
      match f {
        case FetchFailed => return None;
        case Fetched(token, expiresAt) =>
          cache := cache[st := Cached(token, expiresAt)];
          return Some(token);
      }
    }

    /** getAzureToken, getSTSToken and getIAMToken, with no other caller at work in between. */
    method Get(st: Stage, looks: Stage -> Look) returns (r: Option<Token>)
      modifies this
      ensures r == HandsOut(old(cache), st, looks)
      ensures forall x :: Filed(old(cache), cache, x, st, looks) && Justified(old(cache), cache, x, looks(x).second)
      ensures r.Some? ==> st in cache && cache[st].token == r.value
      // the token that paid for a fetch is in the cache of the stage below
      ensures st != Azure && Fetches(old(cache), st, looks) ==>
                Below(st) in cache && cache[Below(st)].token == Payment(old(cache), st, looks).value
      decreases Depth(st)
    {
      r := Lookup(st, looks(st).first);
      if r.Some? {
        forall x ensures Filed(old(cache), cache, x, st, looks) {
          FiledByMiss(old(cache), cache, x, st, looks);
        }
        return r;
      }
      var parent := Some(0);
      if st != Azure {
        CalledIsBelow(cache, st, Below(st), looks);
        parent := Get(Below(st), looks);
        assert Filed(old(cache), cache, st, Below(st), looks);
        if parent.None? {
          forall x ensures Filed(old(cache), cache, x, st, looks) {
            FiledByMiss(old(cache), cache, x, st, looks);
          }
          return None;
        }
      }
      ghost var below := cache;
      r := Refresh(st, looks(st).second, looks(st).fetch(parent.value));
      forall x ensures Filed(old(cache), cache, x, st, looks) {
        assert x != st ==> SameEntry(below, cache, x);
        assert st != Azure ==> Filed(old(cache), below, x, Below(st), looks);
      }
    }
  }

  // ---- All interleavings of callers ----

  /** Where a call to GetGoogleAccessToken is; `since` records when its last token was handed to it. */
  datatype Pc =
    | Looking(st: Stage)
    | Locking(st: Stage, parent: Token, since: int)   // has the token that pays for the stage
    | Returned(token: Token, since: int)
    | Failed

  /** One successful fetch: when its caller looked, what it presented and what it got. */
  datatype Issue = Issue(stage: Stage, token: Token, expiresAt: int, parent: Token, caller: Caller, at: int)

  datatype State = State(now: int, cache: Cache, issued: seq<Issue>, callers: map<Caller, Pc>)

  datatype Action =
    | Tick(d: nat)
    | Call(c: Caller)
    | LookUp(c: Caller)
    | Lock(c: Caller, f: Fetch, d: nat)   // the section under the write lock takes d

  const INIT := State(0, map[], [], map[])

  predicate Enabled(s: State, a: Action) {
    match a
    case Tick(_) => true
    case Call(c) => c !in s.callers
    case LookUp(c) => c in s.callers && s.callers[c].Looking?
    case Lock(c, _, _) => c in s.callers && s.callers[c].Locking?
  }

  /** Where a call goes on with the token of a stage. */
  function Obtained(st: Stage, token: Token, now: int): Pc {
    match st
    case Azure => Locking(Sts, token, now)
    case Sts => Locking(Iam, token, now)
    case Iam => Returned(token, now)
  }

  function Missed(st: Stage, now: int): Pc {
    if st.Azure? then Locking(Azure, 0, now) else Looking(Below(st))
  }

  function Move(s: State, c: Caller, pc: Pc): State {
    s.(callers := s.callers[c := pc])
  }

  function Record(s: State, e: Issue): State {
    s.(cache := s.cache[e.stage := Cached(e.token, e.expiresAt)], issued := s.issued + [e])
  }

  function Locked(s: State, c: Caller, st: Stage, parent: Token, f: Fetch): State {
    if Usable(s.cache, st, s.now) then Move(s, c, Obtained(st, s.cache[st].token, s.now))
    else
      match f
      case FetchFailed => Move(s, c, Failed)
      case Fetched(token, expiresAt) =>
        Move(Record(s, Issue(st, token, expiresAt, parent, c, s.now)), c, Obtained(st, token, s.now))
  }

  function Apply(s: State, a: Action): State
    requires Enabled(s, a)
  {
    match a
    case Tick(d) => s.(now := s.now + d)
    case Call(c) => Move(s, c, Looking(Iam))
    case LookUp(c) =>
      var st := s.callers[c].st;
      Move(s, c, if Usable(s.cache, st, s.now) then Obtained(st, s.cache[st].token, s.now) else Missed(st, s.now))
    case Lock(c, f, d) =>
      var s' := Locked(s, c, s.callers[c].st, s.callers[c].parent, f);
      s'.(now := s.now + d)
  }

  ghost predicate RunFrom(s: State, actions: seq<Action>)
    decreases |actions|
  {
    actions == [] || (Enabled(s, actions[0]) && RunFrom(Apply(s, actions[0]), actions[1..]))
  }

  function After(s: State, actions: seq<Action>): State
    requires RunFrom(s, actions)
    decreases |actions|
  {
    if actions == [] then s else After(Apply(s, actions[0]), actions[1..])
  }

  // ---- What the issues say ----

  /** The last token a stage has issued. */
  function Last(issued: seq<Issue>, st: Stage): Option<Issue> {
    if issued == [] then None
    else if issued[|issued| - 1].stage == st then Some(issued[|issued| - 1])
    else Last(issued[..|issued| - 1], st)
  }

  /** A stage issues no token before its last one has run into the refresh buffer. */
  ghost predicate Spaced(issued: seq<Issue>) {
    forall i: nat | i < |issued| :: SpacedAt(issued, i)
  }

  ghost predicate SpacedAt(issued: seq<Issue>, i: nat)
    requires i < |issued|
  {
    var before := Last(issued[..i], issued[i].stage);
    before.Some? ==> issued[i].at >= before.value.expiresAt - TOKEN_REFRESH_BUFFER
  }

  ghost predicate WasIssued(issued: seq<Issue>, stage: Stage, token: Token) {
    exists i :: 0 <= i < |issued| && issued[i].stage == stage && issued[i].token == token
  }

  /** A stage's issue was paid for with a token the stage below had issued earlier. */
  ghost predicate Chained(issued: seq<Issue>) {
    forall i: nat | i < |issued| :: PaidFor(issued, i)
  }

  ghost predicate PaidFor(issued: seq<Issue>, i: nat)
    requires i < |issued|
  {
    issued[i].stage != Azure ==> WasIssued(issued[..i], Below(issued[i].stage), issued[i].parent)
  }

  /** The issue justifies handing its token to c at the given time: it was usable then, or c fetched it then. */
  predicate Justifies(e: Issue, c: Caller, since: int) {
    since < e.expiresAt - TOKEN_REFRESH_BUFFER || (e.caller == c && e.at == since)
  }

  ghost predicate HandedOut(issued: seq<Issue>, st: Stage, token: Token, c: Caller, since: int) {
    exists i :: 0 <= i < |issued| && issued[i].stage == st && issued[i].token == token && Justifies(issued[i], c, since)
  }

  ghost predicate PcFits(issued: seq<Issue>, c: Caller, pc: Pc) {
    match pc
    case Locking(st, parent, since) => st != Azure ==> HandedOut(issued, Below(st), parent, c, since)
    case Returned(token, since) => HandedOut(issued, Iam, token, c, since)
    case _ => true
  }

  /** The cache of a stage holds the last token it issued. */
  ghost predicate CacheIsLast(issued: seq<Issue>, cache: Cache, st: Stage) {
    match Last(issued, st)
    case None => st !in cache
    case Some(e) => st in cache && cache[st] == Cached(e.token, e.expiresAt)
  }

  ghost predicate Inv(s: State) {
    && Chained(s.issued) && Spaced(s.issued)
    && (forall st :: CacheIsLast(s.issued, s.cache, st))
    && (forall c | c in s.callers :: PcFits(s.issued, c, s.callers[c]))
  }

  lemma LastGrows(issued: seq<Issue>, e: Issue, st: Stage)
    ensures Last(issued + [e], st) == if e.stage == st then Some(e) else Last(issued, st)
  {
    assert (issued + [e])[..|issued|] == issued;
  }

  lemma {:induction false} LastIsThere(issued: seq<Issue>, st: Stage) returns (i: nat)
    requires Last(issued, st).Some?
    ensures i < |issued| && issued[i] == Last(issued, st).value && issued[i].stage == st
  {
    i := |issued| - 1;
    if issued[i].stage != st {
      i := LastIsThere(issued[..i], st);
    }
  }

  /** The issue no other of its stage follows is the last one. */
  lemma {:induction false} LastUpTo(issued: seq<Issue>, i: nat)
    requires i < |issued| && forall k | i < k < |issued| :: issued[k].stage != issued[i].stage
    ensures Last(issued, issued[i].stage) == Some(issued[i])
  {
    if i < |issued| - 1 {
      LastUpTo(issued[..|issued| - 1], i);
    }
  }

  lemma ChainGrows(issued: seq<Issue>, e: Issue)
    requires Chained(issued) && (e.stage != Azure ==> WasIssued(issued, Below(e.stage), e.parent))
    ensures Chained(issued + [e])
  {
    forall i: nat | i < |issued| + 1 ensures PaidFor(issued + [e], i) {
      assert (issued + [e])[..i] == issued[..i];
      if i < |issued| {
        assert PaidFor(issued, i);
      } else {
        assert issued[..i] == issued;
      }
    }
  }

  lemma SpacedGrows(issued: seq<Issue>, e: Issue)
    requires Spaced(issued)
    requires Last(issued, e.stage).Some? ==> e.at >= Last(issued, e.stage).value.expiresAt - TOKEN_REFRESH_BUFFER
    ensures Spaced(issued + [e])
  {
    forall i: nat | i < |issued| + 1 ensures SpacedAt(issued + [e], i) {
      assert (issued + [e])[..i] == issued[..i];
      if i < |issued| {
        assert SpacedAt(issued, i);
      } else {
        assert issued[..i] == issued;
      }
    }
  }

  lemma HandedOutGrows(issued: seq<Issue>, e: Issue, st: Stage, token: Token, c: Caller, since: int)
    requires HandedOut(issued, st, token, c, since)
    ensures HandedOut(issued + [e], st, token, c, since)
  {
    var i :| 0 <= i < |issued| && issued[i].stage == st && issued[i].token == token && Justifies(issued[i], c, since);
    assert (issued + [e])[i] == issued[i];
  }

  lemma PcFitsGrows(issued: seq<Issue>, e: Issue, c: Caller, pc: Pc)
    requires PcFits(issued, c, pc)
    ensures PcFits(issued + [e], c, pc)
  {
    match pc {
      case Locking(st, parent, since) =>
        if st != Azure {
          HandedOutGrows(issued, e, Below(st), parent, c, since);
        }
      case Returned(token, since) => HandedOutGrows(issued, e, Iam, token, c, since);
      case _ =>
    }
  }

  /** A token found usable in the cache is justified by the last issue of its stage. */
  lemma CachedIsHandedOut(s: State, st: Stage, c: Caller)
    requires Inv(s) && Usable(s.cache, st, s.now)
    ensures HandedOut(s.issued, st, s.cache[st].token, c, s.now)
  {
    assert CacheIsLast(s.issued, s.cache, st);
    var i := LastIsThere(s.issued, st);
    assert Justifies(s.issued[i], c, s.now);
  }

  /** An issue that was due and is paid for disturbs nothing that was established. */
  lemma RecordKeeps(s: State, e: Issue)
    requires Inv(s) && !Usable(s.cache, e.stage, e.at)
    requires e.stage != Azure ==> WasIssued(s.issued, Below(e.stage), e.parent)
    ensures Inv(Record(s, e)) && HandedOut(Record(s, e).issued, e.stage, e.token, e.caller, e.at)
  {
    var s' := Record(s, e);
    ChainGrows(s.issued, e);
    assert CacheIsLast(s.issued, s.cache, e.stage);
    SpacedGrows(s.issued, e);
    forall st ensures CacheIsLast(s'.issued, s'.cache, st) {
      LastGrows(s.issued, e, st);
      assert CacheIsLast(s.issued, s.cache, st);
    }
    forall c | c in s'.callers ensures PcFits(s'.issued, c, s'.callers[c]) {
      PcFitsGrows(s.issued, e, c, s.callers[c]);
    }
    assert s'.issued[|s.issued|] == e && Justifies(e, e.caller, e.at);
  }

  lemma MoveKeeps(s: State, c: Caller, pc: Pc)
    requires Inv(s) && PcFits(s.issued, c, pc)
    ensures Inv(Move(s, c, pc))
  {
  }

  lemma LockedKeeps(s: State, c: Caller, st: Stage, parent: Token, f: Fetch)
    requires Inv(s) && (st != Azure ==> WasIssued(s.issued, Below(st), parent))
    ensures Inv(Locked(s, c, st, parent, f))
  {
    if Usable(s.cache, st, s.now) {
      CachedIsHandedOut(s, st, c);
      MoveKeeps(s, c, Obtained(st, s.cache[st].token, s.now));
    } else if f.FetchFailed? {
      MoveKeeps(s, c, Failed);
    } else {
      var e := Issue(st, f.token, f.expiresAt, parent, c, s.now);
      RecordKeeps(s, e);
      MoveKeeps(Record(s, e), c, Obtained(st, f.token, s.now));
    }
  }

  lemma StepKeeps(s: State, a: Action)
    requires Inv(s) && Enabled(s, a)
    ensures Inv(Apply(s, a))
  {
    match a {
      case Tick(_) =>
      case Call(c) => MoveKeeps(s, c, Looking(Iam));
      case LookUp(c) =>
        var st := s.callers[c].st;
        if Usable(s.cache, st, s.now) {
          CachedIsHandedOut(s, st, c);
          MoveKeeps(s, c, Obtained(st, s.cache[st].token, s.now));
        } else {
          MoveKeeps(s, c, Missed(st, s.now));
        }
      case Lock(c, f, _) =>
        assert PcFits(s.issued, c, s.callers[c]);
        LockedKeeps(s, c, s.callers[c].st, s.callers[c].parent, f);
    }
  }

  lemma {:induction false} RunKeeps(s: State, actions: seq<Action>)
    requires RunFrom(s, actions) && Inv(s)
    ensures Inv(After(s, actions))
    decreases |actions|
  {
    if actions != [] {
      StepKeeps(s, actions[0]);
      RunKeeps(Apply(s, actions[0]), actions[1..]);
    }
  }

  // ---- What every run keeps ----

  /**
   * However many callers there are, two successive issues of a stage are at least as far apart
   * as the first one's expiry less the refresh buffer: nobody fetches what somebody else has
   * just fetched, and a cached token is replaced only in its last minute.
   */
  lemma SuccessiveIssuesApart(run: seq<Action>, i: nat, j: nat)
    requires RunFrom(INIT, run) && i < j < |After(INIT, run).issued|
    requires var issued := After(INIT, run).issued;
             issued[i].stage == issued[j].stage && forall k | i < k < j :: issued[k].stage != issued[i].stage
    ensures var issued := After(INIT, run).issued; issued[j].at >= issued[i].expiresAt - 60
  {
    RunKeeps(INIT, run);
    var issued := After(INIT, run).issued;
    assert SpacedAt(issued, j);
    LastUpTo(issued[..j], i);
  }

  /** In every state the cache of a stage holds the last token that stage issued. */
  lemma CacheHoldsLastIssue(run: seq<Action>, st: Stage)
    requires RunFrom(INIT, run)
    ensures CacheIsLast(After(INIT, run).issued, After(INIT, run).cache, st)
  {
    RunKeeps(INIT, run);
  }

  /** A token that was returned was outside its buffer when it was handed out, or fetched by this very call. */
  lemma ReturnedIsUsableOrFetched(run: seq<Action>, c: Caller) returns (i: nat)
    requires RunFrom(INIT, run) && c in After(INIT, run).callers && After(INIT, run).callers[c].Returned?
    ensures var s := After(INIT, run);
            && i < |s.issued| && s.issued[i].stage == Iam && s.issued[i].token == s.callers[c].token
            && (s.callers[c].since < s.issued[i].expiresAt - 60 || (s.issued[i].caller == c && s.issued[i].at == s.callers[c].since))
  {
    RunKeeps(INIT, run);
    var s := After(INIT, run);
    assert PcFits(s.issued, c, s.callers[c]);
    i :| i < |s.issued| && s.issued[i].stage == Iam && s.issued[i].token == s.callers[c].token
         && Justifies(s.issued[i], c, s.callers[c].since);
  }

  /**
   * Every token a caller ends up with was issued by the IAM stage, for an STS token issued
   * before it, for an Azure token issued before that.
   */
  lemma ReturnedTokensHaveAChain(run: seq<Action>, c: Caller) returns (i: nat, j: nat, k: nat)
    requires RunFrom(INIT, run) && c in After(INIT, run).callers && After(INIT, run).callers[c].Returned?
    ensures var issued := After(INIT, run).issued;
            && i < j < k < |issued|
            && issued[k].stage == Iam && issued[k].token == After(INIT, run).callers[c].token
            && issued[j].stage == Sts && issued[j].token == issued[k].parent
            && issued[i].stage == Azure && issued[i].token == issued[j].parent
  {
    RunKeeps(INIT, run);
    var s := After(INIT, run);
    k := ReturnedIsUsableOrFetched(run, c);
    assert PaidFor(s.issued, k);
    j :| j < k && s.issued[..k][j].stage == Sts && s.issued[..k][j].token == s.issued[k].parent;
    assert PaidFor(s.issued, j);
    i :| i < j && s.issued[..j][i].stage == Azure && s.issued[..j][i].token == s.issued[j].parent;
  }

  // ---- A caller that nobody interrupts ----

  /** Looks that one caller can have one after the other from `now` on: outwards at first, and then back. */
  ghost predicate InTime(looks: Stage -> Look, st: Stage, now: int)
    decreases Depth(st)
  {
    && now <= looks(st).first <= looks(st).second
    && (st != Azure ==> InTime(looks, Below(st), looks(st).first) && looks(Below(st)).second <= looks(st).second)
  }

  predicate Outcome(pc: Pc, st: Stage, token: Option<Token>) {
    match token
    case None => pc == Failed
    case Some(t) =>
      match st
      case Azure => pc.Locking? && pc.st == Sts && pc.parent == t
      case Sts => pc.Locking? && pc.st == Iam && pc.parent == t
      case Iam => pc.Returned? && pc.token == t
  }

  /** The caller has come as far as a call of Get for the stage takes it, and so has the cache. */
  ghost predicate DidGet(s: State, s': State, c: Caller, st: Stage, looks: Stage -> Look) {
    && c in s'.callers && Outcome(s'.callers[c], st, HandsOut(s.cache, st, looks))
    && (forall x :: Filed(s.cache, s'.cache, x, st, looks))
    && s'.now <= looks(st).second
  }

  lemma {:induction false} RunConcat(s: State, xs: seq<Action>, ys: seq<Action>)
    requires RunFrom(s, xs) && RunFrom(After(s, xs), ys)
    ensures RunFrom(s, xs + ys) && After(s, xs + ys) == After(After(s, xs), ys)
    decreases |xs|
  {
    if xs == [] {
      assert xs + ys == ys;
    } else {
      assert (xs + ys)[0] == xs[0] && (xs + ys)[1..] == xs[1..] + ys;
      RunConcat(Apply(s, xs[0]), xs[1..], ys);
    }
  }

  /** Waits until the given time and acts. */
  function WaitAnd(s: State, time: int, a: Action): seq<Action>
    requires s.now <= time
  {
    [Tick(time - s.now), a]
  }

  lemma WaitRuns(s: State, time: int, a: Action)
    requires s.now <= time && Enabled(s, a)
    ensures RunFrom(s, WaitAnd(s, time, a)) && After(s, WaitAnd(s, time, a)) == Apply(s.(now := time), a)
  {
    var run, t := WaitAnd(s, time, a), s.(now := time);
    assert run[1..] == [a] && run[1..][1..] == [];
    assert Apply(s, run[0]) == t && Enabled(t, a);
    assert After(t, [a]) == Apply(t, a);
  }

  /** The second half of a stage: `s` is where the call started, `s1` where it has the token that pays. */
  lemma LockAlone(s: State, s1: State, c: Caller, st: Stage, looks: Stage -> Look) returns (run: seq<Action>)
    requires InTime(looks, st, s.now) && !Usable(s.cache, st, looks(st).first) && Payment(s.cache, st, looks).Some?
    requires c in s1.callers && s1.callers[c].Locking? && s1.callers[c].st == st && s1.callers[c].parent == Payment(s.cache, st, looks).value
    requires s1.now <= looks(st).second && SameEntry(s.cache, s1.cache, st)
    requires st == Azure ==> s1.cache == s.cache
    requires st != Azure ==> forall x :: Filed(s.cache, s1.cache, x, Below(st), looks)
    ensures RunFrom(s1, run) && ByCaller(run, c) && DidGet(s, After(s1, run), c, st, looks)
  {
    var look, parent := looks(st), s1.callers[c].parent;
    var a := Lock(c, look.fetch(parent), 0);
    run := WaitAnd(s1, look.second, a);
    WaitRuns(s1, look.second, a);
    var s' := After(s1, run);
    if st != Azure {
      CalledIsBelow(s.cache, st, Below(st), looks);
    }
    forall x ensures Filed(s.cache, s'.cache, x, st, looks) {
      assert x != st ==> SameEntry(s1.cache, s'.cache, x);
      assert st != Azure ==> Filed(s.cache, s1.cache, x, Below(st), looks);
    }
  }

  /** Everything in the run is done by the caller, or is the passing of time. */
  ghost predicate ByCaller(run: seq<Action>, c: Caller) {
    forall a | a in run :: a.Tick? || (a.LookUp? && a.c == c) || (a.Lock? && a.c == c)
  }

  /**
   * A caller that is alone can go through the stages just as Get does: with the same looks and
   * the same answers it ends with the same token, and leaves the same cache.
   */
  lemma {:induction false} AloneDoesGet(s: State, c: Caller, st: Stage, looks: Stage -> Look) returns (run: seq<Action>)
    requires c in s.callers && s.callers[c] == Looking(st) && InTime(looks, st, s.now)
    ensures RunFrom(s, run) && ByCaller(run, c) && DidGet(s, After(s, run), c, st, looks)
    decreases Depth(st)
  {
    var first := WaitAnd(s, looks(st).first, LookUp(c));
    WaitRuns(s, looks(st).first, LookUp(c));
    var s1 := After(s, first);
    run := first;
    if !Usable(s.cache, st, looks(st).first) {
      var rest := [];
      if st != Azure {
        rest := AloneDoesGet(s1, c, Below(st), looks);
        CalledIsBelow(s.cache, st, Below(st), looks);
        assert Filed(s.cache, After(s1, rest).cache, st, Below(st), looks);
      }
      RunConcat(s, first, rest);
      run := first + rest;
      if Payment(s.cache, st, looks).Some? {
        var last := LockAlone(s, After(s1, rest), c, st, looks);
        RunConcat(s, run, last);
        run := run + last;
        return;
      }
    }
    forall x ensures Filed(s.cache, After(s, run).cache, x, st, looks) {
      FiledByMiss(s.cache, After(s, run).cache, x, st, looks);
    }
  }

  /** The whole call: it ends with the token Get hands out, or with none where Get has none. */
  lemma CallAlone(s: State, c: Caller, looks: Stage -> Look) returns (run: seq<Action>)
    requires c !in s.callers && InTime(looks, Iam, s.now)
    ensures RunFrom(s, [Call(c)] + run) && ByCaller(run, c) && DidGet(s, After(s, [Call(c)] + run), c, Iam, looks)
  {
    run := AloneDoesGet(Apply(s, Call(c)), c, Iam, looks);
    assert ([Call(c)] + run)[1..] == run;
  }
}
