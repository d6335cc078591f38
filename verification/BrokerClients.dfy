/**
 * What becomes of the one admission of a session: who can be admitted when, and whether the
 * session ever gets its connection time.
 */
module BrokerClients {
  import opened Wrappers
  import opened SessionTokens
  import opened Broker
  import opened BrokerInvariant
  import opened BrokerTheorems

  // ---- The greeting ----

  /** The one admission of the session is spent, and nobody is left to report the connection. */
  ghost predicate Spent(s: State, id: Id) {
    && id in s.objects && s.objects[id].serving && s.objects[id].token.consumed && s.objects[id].connectedAt.None?
    && NobodyAdmitted(s.routines, id)
  }

  ghost predicate NobodyAdmitted(rs: Routines, id: Id) {
    forall g | g in rs :: rs[g] != Admitted(id)
  }

  /** Only the OnConnected callback of a handler of the session sets its connection time. */
  lemma OnlyGreetingConnects(c: Config, s: State, a: Action, id: Id)
    requires Enabled(c, s, a) && id in s.objects && (a.DoNotify? ==> s.routines[a.g].id != id)
    requires id in Apply(c, s, a).objects && (a.DoNewSession? ==> a.id != id)
    ensures Apply(c, s, a).objects[id].connectedAt == s.objects[id].connectedAt
  {
    if a.DoNewSession? || a.DoAdvance? || a.DoFail? || a.DoRegister? {
      CreatorsDoNotConnect(c, s, a, id);
    } else if a.DoEnter? || a.DoCloseChannel? || a.DoReleasePort? || a.DoFinish? {
      TerminatorsDoNotConnect(c, s, a, id);
    } else if a.DoPresent? || a.DoNotify? {
    } else {
      assert Apply(c, s, a).objects == s.objects;
    }
  }

  lemma CreatorsDoNotConnect(c: Config, s: State, a: Action, id: Id)
    requires Enabled(c, s, a) && id in s.objects && (a.DoNewSession? || a.DoAdvance? || a.DoFail? || a.DoRegister?)
    requires id in Apply(c, s, a).objects && (a.DoNewSession? ==> a.id != id)
    ensures Apply(c, s, a).objects[id].connectedAt == s.objects[id].connectedAt
    ensures Apply(c, s, a).objects[id].admissions == s.objects[id].admissions
  {
  }

  lemma TerminatorsDoNotConnect(c: Config, s: State, a: Action, id: Id)
    requires Enabled(c, s, a) && id in s.objects && (a.DoEnter? || a.DoCloseChannel? || a.DoReleasePort? || a.DoFinish?)
    ensures id in Apply(c, s, a).objects && Apply(c, s, a).objects[id].connectedAt == s.objects[id].connectedAt
    ensures Apply(c, s, a).objects[id].admissions == s.objects[id].admissions
  {
  }

  lemma ConsumedAdmitsNobody(s: State, g: Gid, id: Id, k: Id, ip: string, target: string, value: string)
    requires k in s.objects && (k == id ==> s.objects[id].token.consumed) && NobodyAdmitted(s.routines, id)
    ensures NobodyAdmitted(Present(s, g, k, ip, target, value).routines, id)
  {
  }

  /** No step but a passed validation takes its routine past validation. */
  lemma OnlyPresentAdmits(c: Config, s: State, a: Action, id: Id)
    requires Enabled(c, s, a) && !a.DoTick? && !a.DoShutdown? && !a.DoPresent?
    ensures var s' := Apply(c, s, a);
            a.g in s'.routines && s'.routines == s.routines[a.g := s'.routines[a.g]] && s'.routines[a.g] != Admitted(id)
  {
    if a.DoCreate? || a.DoAllocate? || a.DoNewSession? || a.DoAdvance? || a.DoFail? || a.DoGiveBack? || a.DoRegister? {
      CreatorsAdmitNobody(c, s, a, id);
    }
  }

  lemma CreatorsAdmitNobody(c: Config, s: State, a: Action, id: Id)
    requires Enabled(c, s, a)
    requires a.DoCreate? || a.DoAllocate? || a.DoNewSession? || a.DoAdvance? || a.DoFail? || a.DoGiveBack? || a.DoRegister?
    ensures var s' := Apply(c, s, a);
            a.g in s'.routines && s'.routines == s.routines[a.g := s'.routines[a.g]] && s'.routines[a.g] != Admitted(id)
  {
  }

  /** A consumed token admits nobody. */
  lemma NobodyNewAdmitted(c: Config, s: State, a: Action, id: Id)
    requires Enabled(c, s, a) && id in s.objects && s.objects[id].token.consumed && NobodyAdmitted(s.routines, id)
    ensures NobodyAdmitted(Apply(c, s, a).routines, id)
  {
    if a.DoPresent? {
      ConsumedAdmitsNobody(s, a.g, id, s.routines[a.g].id, a.ip, a.target, a.value);
    } else if !a.DoTick? && !a.DoShutdown? {
      OnlyPresentAdmits(c, s, a, id);
    }
  }

  lemma SpentStays(c: Config, r: seq<State>, i: nat, id: Id)
    requires Run(c, r) && i + 1 < |r| && Spent(r[i], id)
    ensures Spent(r[i + 1], id)
  {
    RunStepEvolves(c, r, i);
    var a := StepTaken(c, r, i);
    OnlyGreetingConnects(c, r[i], a, id);
    NobodyNewAdmitted(c, r[i], a, id);
  }

  lemma {:induction false} SpentForGood(c: Config, r: seq<State>, i: nat, j: nat, id: Id)
    requires Run(c, r) && i <= j < |r| && Spent(r[i], id)
    ensures Spent(r[j], id)
    decreases j
  {
    if i < j {
      SpentForGood(c, r, i, j - 1, id);
      SpentStays(c, r, j - 1, id);
    }
  }

  lemma NeverConnected(c: Config, r: seq<State>, i: nat, j: nat, id: Id)
    requires Run(c, r) && i <= j < |r| && Spent(r[i], id)
    ensures id in r[j].objects && r[j].objects[id].connectedAt.None? && !r[j].objects[id].phase.Connected?
  {
    SpentForGood(c, r, i, j, id);
    RunKeeps(c, r, j);
    assert Sound(c, r[j].objects[id], r[j].now);
  }

  lemma ConnectedForGood(c: Config, r: seq<State>, i: nat, j: nat, id: Id)
    requires Run(c, r) && i <= j < |r| && id in r[i].objects && r[i].objects[id].serving && r[i].objects[id].connectedAt.Some?
    ensures id in r[j].objects && r[j].objects[id].connectedAt == r[i].objects[id].connectedAt
  {
    RunEvolves(c, r, i, j, id);
  }

  /** How the admitted handler leaves: it reports the connection, or fails before it can. */
  predicate Leaves(a: Action, g: Gid) {
    a == DoNotify(g) || a == DoDropConnection(g)
  }

  lemma SpentWhenMissed(c: Config, s: State, s': State, a: Action, g: Gid, id: Id)
    requires Inv(c, s) && g in s.routines && s.routines[g] == Admitted(id)
    requires Leaves(a, g) && Enabled(c, s, a) && s' == Apply(c, s, a)
    ensures id in s.objects && id in s'.objects && s'.objects[id].serving
    ensures if a.DoNotify? && s.objects[id].phase.Active? then s'.objects[id].connectedAt == Some(s.now)
            else Spent(s', id)
  {
    assert Fits(g, Admitted(id), s.objects[id]) && Sound(c, s.objects[id], s.now);
    OnlyOneAdmitted(s.routines, s.objects, g, id);
  }

  lemma OnlyOneAdmitted(rs: Routines, os: Objects, g: Gid, id: Id)
    requires RoutinesFit(rs, os) && g in rs && rs[g] == Admitted(id)
    ensures NobodyAdmitted(rs[g := Done], id)
  {
    forall h | h in rs && rs[h] == Admitted(id) ensures h == g {
      assert Fits(h, Admitted(id), os[id]) && Fits(g, Admitted(id), os[id]);
    }
  }

  lemma StepDecides(c: Config, r: seq<State>, i: nat, g: Gid, id: Id, a: Action)
    requires Run(c, r) && i + 1 < |r| && g in r[i].routines && r[i].routines[g] == Admitted(id)
    requires Leaves(a, g) && Enabled(c, r[i], a) && r[i + 1] == Apply(c, r[i], a)
    ensures id in r[i].objects && id in r[i + 1].objects && r[i + 1].objects[id].serving
    ensures if a.DoNotify? && r[i].objects[id].phase.Active? then r[i + 1].objects[id].connectedAt == Some(r[i].now)
            else Spent(r[i + 1], id)
  {
    RunKeeps(c, r, i);
    SpentWhenMissed(c, r[i], r[i + 1], a, g, id);
  }

  /**
   * The step by which the one admitted connection leaves validation behind decides for good: the
   * session has a connection time in every later state if and only if the handler reported the
   * connection while the session was Active.
   */
  lemma GreetingDecides(c: Config, r: seq<State>, i: nat, j: nat, g: Gid, id: Id, a: Action)
    requires Run(c, r) && i < j < |r| && g in r[i].routines && r[i].routines[g] == Admitted(id)
    requires Leaves(a, g) && Enabled(c, r[i], a) && r[i + 1] == Apply(c, r[i], a)
    ensures id in r[i].objects && id in r[j].objects
    ensures r[j].objects[id].connectedAt == if a.DoNotify? && r[i].objects[id].phase.Active? then Some(r[i].now) else None
    ensures r[j].objects[id].phase.Connected? ==> a.DoNotify? && r[i].objects[id].phase.Active?
  {
    StepDecides(c, r, i, g, id, a);
    if a.DoNotify? && r[i].objects[id].phase.Active? {
      ConnectedForGood(c, r, i + 1, j, id);
    } else {
      NeverConnected(c, r, i + 1, j, id);
    }
  }

  // ---- Tokens reach clients through .rdp files ----

  /** The token GenerateRDPFile prints: that of a registered session that is Active or Connected. */
  function RdpToken(s: State, id: Id): Option<string> {
    if id in s.active && id in s.objects && (s.objects[id].phase.Active? || s.objects[id].phase.Connected?)
    then Some(s.objects[id].token.value) else None
  }

  /** In every run a file can be had exactly while the session is Active or Connected, and carries its token. */
  lemma FileWhileServing(c: Config, r: seq<State>, i: nat, id: Id, value: string)
    requires Run(c, r) && i < |r|
    ensures RdpToken(r[i], id) == Some(value) <==>
            id in r[i].objects && Rank(Active) <= Rank(r[i].objects[id].phase) <= Rank(Connected) && value == r[i].objects[id].token.value
  {
    RunKeeps(c, r, i);
  }

  /** Some state up to the i-th would have printed the value for the session. */
  ghost predicate Printed(r: seq<State>, i: nat, id: Id, value: string)
    requires i < |r|
  {
    exists k :: 0 <= k <= i && RdpToken(r[k], id) == Some(value)
  }

  /** A connection presents the token of its session only when a file with it was printed before. */
  ghost predicate FromFile(r: seq<State>, i: nat, a: Action)
    requires i < |r|
  {
    a.DoPresent? && a.g in r[i].routines && r[i].routines[a.g].Connection? && r[i].routines[a.g].id in r[i].objects
    && a.value == r[i].objects[r[i].routines[a.g].id].token.value
    ==> Printed(r, i, r[i].routines[a.g].id, a.value)
  }

  ghost predicate FileStepAt(c: Config, r: seq<State>, i: nat)
    requires i + 1 < |r|
  {
    exists a :: Enabled(c, r[i], a) && r[i + 1] == Apply(c, r[i], a) && FromFile(r, i, a)
  }

  /** A run whose clients have their tokens from .rdp files: nobody guesses 32 random bytes. */
  ghost predicate FileRun(c: Config, r: seq<State>) {
    Run(c, r) && forall i: nat | i + 1 < |r| :: FileStepAt(c, r, i)
  }

  lemma FileStepTaken(c: Config, r: seq<State>, i: nat) returns (a: Action)
    requires FileRun(c, r) && i + 1 < |r|
    ensures Enabled(c, r[i], a) && r[i + 1] == Apply(c, r[i], a) && FromFile(r, i, a)
  {
    assert FileStepAt(c, r, i);
    a :| Enabled(c, r[i], a) && r[i + 1] == Apply(c, r[i], a) && FromFile(r, i, a);
  }

  /** A printed session is registered, and stays beyond its creation. */
  lemma PrintedIsRegistered(c: Config, r: seq<State>, i: nat, id: Id, value: string)
    requires Run(c, r) && i < |r| && Printed(r, i, id, value)
    ensures id in r[i].objects && !r[i].objects[id].phase.Creating?
  {
    var k :| 0 <= k <= i && RdpToken(r[k], id) == Some(value);
    RunKeeps(c, r, k);
    assert Sound(c, r[k].objects[id], r[k].now);
    RunEvolves(c, r, k, i, id);
  }

  ghost predicate NewUnused(os: Objects) {
    forall id | id in os && os[id].phase.Creating? :: !os[id].token.consumed
  }

  /** A step that rewrites one session leaves those being made unused, if it does so for this one. */
  lemma OneUnused(os: Objects, id: Id, o': Session)
    requires NewUnused(os) && (o'.phase.Creating? ==> !o'.token.consumed)
    ensures NewUnused(os[id := o'])
  {
  }

  lemma PresentUnused(s: State, g: Gid, id: Id, ip: string, target: string, value: string)
    requires NewUnused(s.objects) && id in s.objects
    requires value == s.objects[id].token.value ==> !s.objects[id].phase.Creating?
    ensures NewUnused(Present(s, g, id, ip, target, value).objects)
  {
    if Check(s.objects[id].token, value, s.now).Ok? {
      OneUnused(s.objects, id, Admit(s.objects[id], Admission(g, ip, target, value, s.now)));
    }
  }

  lemma CreatorsUnused(c: Config, s: State, a: Action)
    requires Enabled(c, s, a) && NewUnused(s.objects) && (a.DoNewSession? || a.DoAdvance? || a.DoFail? || a.DoRegister?)
    ensures NewUnused(Apply(c, s, a).objects)
  {
  }

  lemma TerminatorsUnused(c: Config, s: State, a: Action)
    requires Enabled(c, s, a) && NewUnused(s.objects)
    requires a.DoEnter? || a.DoCloseChannel? || a.DoReleasePort? || a.DoFinish?
    ensures NewUnused(Apply(c, s, a).objects)
  {
  }

  lemma StepUnused(c: Config, s: State, a: Action)
    requires Enabled(c, s, a) && NewUnused(s.objects)
    requires a.DoPresent? ==> var o := s.objects[s.routines[a.g].id]; a.value == o.token.value ==> !o.phase.Creating?
    ensures NewUnused(Apply(c, s, a).objects)
  {
    if a.DoPresent? {
      PresentUnused(s, a.g, s.routines[a.g].id, a.ip, a.target, a.value);
    } else if a.DoNewSession? || a.DoAdvance? || a.DoFail? || a.DoRegister? {
      CreatorsUnused(c, s, a);
    } else if a.DoEnter? || a.DoCloseChannel? || a.DoReleasePort? || a.DoFinish? {
      TerminatorsUnused(c, s, a);
    } else if a.DoNotify? {
      OneUnused(s.objects, s.routines[a.g].id, Greeted(s.objects[s.routines[a.g].id], s.now));
    } else {
      assert Apply(c, s, a).objects == s.objects;
    }
  }

  /** With tokens from files no token is consumed while its session is being made. */
  lemma {:induction false} TokensWaitForRegistration(c: Config, r: seq<State>, i: nat)
    requires FileRun(c, r) && i < |r|
    ensures NewUnused(r[i].objects)
  {
    if i > 0 {
      TokensWaitForRegistration(c, r, i - 1);
      var a := FileStepTaken(c, r, i - 1);
      if a.DoPresent? && a.value == r[i - 1].objects[r[i - 1].routines[a.g].id].token.value {
        PrintedIsRegistered(c, r, i - 1, r[i - 1].routines[a.g].id, a.value);
      }
      StepUnused(c, r[i - 1], a);
    }
  }

  /** So an admitted handler finds its session Active, or already in teardown. */
  lemma AdmittedFindsActive(c: Config, r: seq<State>, i: nat, g: Gid, id: Id)
    requires FileRun(c, r) && i < |r| && g in r[i].routines && r[i].routines[g] == Admitted(id)
    ensures id in r[i].objects && (r[i].objects[id].phase.Active? || Rank(r[i].objects[id].phase) >= Rank(Terminating))
  {
    RunKeeps(c, r, i);
    TokensWaitForRegistration(c, r, i);
    var o := r[i].objects[id];
    assert Fits(g, Admitted(id), o) && Sound(c, o, r[i].now);
  }

  /**
   * The report of the admitted connection sets the connection time, for every later state, if
   * and only if it comes before teardown. A connection that fails after validation never does.
   */
  lemma ReportMissedOnlyByTeardown(c: Config, r: seq<State>, i: nat, j: nat, g: Gid, id: Id, a: Action)
    requires FileRun(c, r) && i < j < |r| && g in r[i].routines && r[i].routines[g] == Admitted(id)
    requires Leaves(a, g) && Enabled(c, r[i], a) && r[i + 1] == Apply(c, r[i], a)
    ensures id in r[i].objects && id in r[j].objects
    ensures r[j].objects[id].connectedAt.Some? <==> a.DoNotify? && Rank(r[i].objects[id].phase) < Rank(Terminating)
  {
    AdmittedFindsActive(c, r, i, g, id);
    GreetingDecides(c, r, i, j, g, id, a);
  }

  // ---- Admissions after the end ----

  /** The handler reads the first packet of a connection of the session. */
  predicate Reads(rs: Routines, id: Id, g: Gid) {
    g in rs && rs[g] == Connection(id)
  }

  ghost predicate NobodyReads(rs: Routines, id: Id) {
    forall g :: !Reads(rs, id, g)
  }

  /** Without a handler that reads, no step admits anybody to the session. */
  lemma StepAdmitsOnlyReaders(c: Config, s: State, a: Action, id: Id)
    requires Enabled(c, s, a) && id in s.objects && id in Apply(c, s, a).objects && NobodyReads(s.routines, id)
    ensures Apply(c, s, a).objects[id].admissions == s.objects[id].admissions
  {
    if a.DoNewSession? || a.DoAdvance? || a.DoFail? || a.DoRegister? {
      CreatorsDoNotConnect(c, s, a, id);
    } else if a.DoEnter? || a.DoCloseChannel? || a.DoReleasePort? || a.DoFinish? {
      TerminatorsDoNotConnect(c, s, a, id);
    } else if a.DoPresent? {
      assert !Reads(s.routines, id, a.g);
    } else if a.DoNotify? {
    } else {
      assert Apply(c, s, a).objects == s.objects;
    }
  }

  /** While no handler of a session reads, nobody is admitted to it, whatever else goes on. */
  lemma {:induction false} AdmissionsClosed(c: Config, r: seq<State>, i: nat, j: nat, id: Id)
    requires Run(c, r) && i <= j < |r| && id in r[i].objects && r[i].objects[id].serving
    requires forall k | i <= k < j :: NobodyReads(r[k].routines, id)
    ensures id in r[j].objects && r[j].objects[id].serving && r[j].objects[id].admissions == r[i].objects[id].admissions
    decreases j
  {
    if i < j {
      AdmissionsClosed(c, r, i, j - 1, id);
      RunStepEvolves(c, r, j - 1);
      var a := StepTaken(c, r, j - 1);
      StepAdmitsOnlyReaders(c, r[j - 1], a, id);
    }
  }

  /** Every handler that reads for the session from state n on was doing so in state n. */
  ghost predicate NoNewHandlers(r: seq<State>, n: nat, id: Id)
    requires n < |r|
  {
    forall j, g | n <= j < |r| && Reads(r[j].routines, id, g) :: Reads(r[n].routines, id, g)
  }

  /** The run goes on, with no new handlers for the session, to a state with one more admission. */
  ghost predicate AdmitsBy(c: Config, r: seq<State>, r': seq<State>, id: Id)
    requires r != [] && id in r[|r| - 1].objects
  {
    && Run(c, r') && r <= r' && NoNewHandlers(r', |r| - 1, id)
    && id in r'[|r'| - 1].objects && |r'[|r'| - 1].objects[id].admissions| > |r[|r| - 1].objects[id].admissions|
  }

  ghost predicate StillAdmits(c: Config, r: seq<State>, id: Id)
    requires r != [] && id in r[|r| - 1].objects
  {
    exists r' :: AdmitsBy(c, r, r', id)
  }

  /** What a look at the state tells: somebody reads, and the token is unused and has time left. */
  ghost predicate CanStillAdmit(s: State, id: Id)
    requires id in s.objects
  {
    && !NobodyReads(s.routines, id)
    && !s.objects[id].token.consumed && s.now <= s.objects[id].token.expiry
  }

  lemma StepExpired(c: Config, s: State, a: Action, id: Id)
    requires Enabled(c, s, a) && id in s.objects && id in Apply(c, s, a).objects && s.now > s.objects[id].token.expiry
    ensures Apply(c, s, a).objects[id].admissions == s.objects[id].admissions && Apply(c, s, a).now >= s.now
  {
    if a.DoNewSession? || a.DoAdvance? || a.DoFail? || a.DoRegister? {
      CreatorsDoNotConnect(c, s, a, id);
    } else if a.DoEnter? || a.DoCloseChannel? || a.DoReleasePort? || a.DoFinish? {
      TerminatorsDoNotConnect(c, s, a, id);
    } else if a.DoPresent? || a.DoNotify? {
    } else {
      assert Apply(c, s, a).objects == s.objects;
    }
  }

  /** An expired token admits nobody, ever. */
  lemma {:induction false} ExpiredAdmitsNobody(c: Config, r: seq<State>, i: nat, j: nat, id: Id)
    requires Run(c, r) && i <= j < |r| && id in r[i].objects && r[i].objects[id].serving
    requires r[i].now > r[i].objects[id].token.expiry
    ensures id in r[j].objects && r[j].objects[id].serving && r[j].now > r[j].objects[id].token.expiry
    ensures r[j].objects[id].admissions == r[i].objects[id].admissions
    decreases j
  {
    if i < j {
      ExpiredAdmitsNobody(c, r, i, j - 1, id);
      RunStepEvolves(c, r, j - 1);
      var a := StepTaken(c, r, j - 1);
      StepExpired(c, r[j - 1], a, id);
    }
  }

  lemma NobodyComesToRead(r: seq<State>, n: nat, id: Id)
    requires n < |r| && NoNewHandlers(r, n, id) && NobodyReads(r[n].routines, id)
    ensures forall k | n <= k < |r| :: NobodyReads(r[k].routines, id)
  {
    forall k, g | n <= k < |r| ensures !Reads(r[k].routines, id, g) {
      assert !Reads(r[n].routines, id, g);
    }
    assert forall k | n <= k < |r| :: NobodyReads(r[k].routines, id);
  }

  lemma ConsumedStays(c: Config, r: seq<State>, i: nat, j: nat, id: Id)
    requires Run(c, r) && i <= j < |r| && id in r[i].objects && r[i].objects[id].token.consumed && id in r[j].objects
    ensures |r[j].objects[id].admissions| <= |r[i].objects[id].admissions|
  {
    OneShotAdmission(c, r, i, id);
    OneShotAdmission(c, r, j, id);
  }

  lemma NobodyElseAdmitted(c: Config, r: seq<State>, r': seq<State>, id: Id)
    requires Run(c, r) && id in r[|r| - 1].objects && r[|r| - 1].objects[id].serving && !CanStillAdmit(r[|r| - 1], id)
    ensures !AdmitsBy(c, r, r', id)
  {
    if AdmitsBy(c, r, r', id) {
      var n := |r| - 1;
      assert r'[n] == r[n];
      if r[n].objects[id].token.consumed {
        ConsumedStays(c, r', n, |r'| - 1, id);
      } else if r[n].now > r[n].objects[id].token.expiry {
        ExpiredAdmitsNobody(c, r', n, |r'| - 1, id);
      } else {
        NobodyComesToRead(r', n, id);
        AdmissionsClosed(c, r', n, |r'| - 1, id);
      }
      assert false;
    }
  }

  lemma ReaderPasses(c: Config, s: State, g: Gid, id: Id)
    requires g in s.routines && s.routines[g] == Connection(id) && id in s.objects
    requires !s.objects[id].token.consumed && s.now <= s.objects[id].token.expiry
    ensures var o := s.objects[id]; var a := DoPresent(g, o.clientIP, o.target, o.token.value);
            && Enabled(c, s, a) && Apply(c, s, a).routines == s.routines[g := Admitted(id)]
            && id in Apply(c, s, a).objects && |Apply(c, s, a).objects[id].admissions| == |o.admissions| + 1
  {
  }

  /**
   * Whatever has become of a session since its gatekeeper started, be it Terminated long ago:
   * without new handlers a client can still be admitted to it if and only if some handler is
   * reading for it and its token is unused and not expired.
   */
  lemma StillAdmitsIff(c: Config, r: seq<State>, id: Id)
    requires Run(c, r) && id in r[|r| - 1].objects && r[|r| - 1].objects[id].serving
    ensures StillAdmits(c, r, id) <==> CanStillAdmit(r[|r| - 1], id)
  {
    var s := r[|r| - 1];
    if CanStillAdmit(s, id) {
      var g :| Reads(s.routines, id, g);
      ReaderPasses(c, s, g, id);
      var r' := RunGoesOn(c, r, DoPresent(g, s.objects[id].clientIP, s.objects[id].target, s.objects[id].token.value));
      assert r'[|r| - 1] == s;
      assert AdmitsBy(c, r, r', id);
    } else {
      forall r' ensures !AdmitsBy(c, r, r', id) {
        NobodyElseAdmitted(c, r, r', id);
      }
    }
  }
}
