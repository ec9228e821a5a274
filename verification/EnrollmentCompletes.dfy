/** Enrollment does come to an end: a confirmation that nothing interrupts and
    whose codes match activates the factor, so what the other modules say of
    activations they say of runs that have some. */
module EnrollmentCompletes {
  import opened FiniteSets
  import opened Enrollment
  import opened EnrollmentServer
  import opened EnrollmentHour

  predicate Awaits(s: State, u: UserId, c: ChallengeId) {
    c in s.challenges && s.challenges[c].user == u && !s.challenges[c].verified
  }

  ghost predicate Newest(s: State, u: UserId, id: ChallengeId) {
    Awaits(s, u, id) && forall c :: Awaits(s, u, c) ==> s.challenges[c].createdAt <= s.challenges[id].createdAt
  }

  lemma {:induction false} NewestOf(s: State, cs: set<ChallengeId>) returns (id: ChallengeId)
    requires cs != {} && cs <= s.challenges.Keys
    ensures id in cs && forall c :: c in cs ==> s.challenges[c].createdAt <= s.challenges[id].createdAt
    decreases |cs|
  {
    id := Pick(cs);
    if cs != {id} {
      assert cs == (cs - {id}) + {id};
      var other := NewestOf(s, cs - {id});
      if s.challenges[id].createdAt < s.challenges[other].createdAt { id := other; }
    }
  }

  lemma NewestIsThere(s: State, u: UserId)
    requires exists c :: Awaits(s, u, c)
    ensures exists id :: Newest(s, u, id)
  {
    var c :| Awaits(s, u, c);
    var cs := set c | c in s.challenges && Awaits(s, u, c);
    assert c in cs;
    var id := NewestOf(s, cs);
    assert Newest(s, u, id);
  }

  lemma NoneAwaits(s: State, u: UserId)
    ensures (forall c :: c in s.challenges && s.challenges[c].user == u ==> s.challenges[c].verified)
            <==> !exists c :: Awaits(s, u, c)
  {
    if c :| c in s.challenges && s.challenges[c].user == u && !s.challenges[c].verified { assert Awaits(s, u, c); }
    if c :| Awaits(s, u, c) { assert c in s.challenges; }
  }

  /** A user with an unverified challenge has a newest one, and exactly there the
      sub-select may take a confirmation; without any it is rejected. */
  lemma NewestIsTargeted(env: Env, s: State, r: RequestId, id: ChallengeId)
    requires r in s.requests && s.requests[r].phase.ConfirmClocked?
    ensures var u, p := s.requests[r].user, s.requests[r].phase;
            var t := Next(env, s, TargetLatest(r, id));
            && r in t.requests
            && (t.requests[r].phase == ConfirmTargeted(p.code, p.emailCode, p.now, id) <==> Newest(s, u, id))
            && (t.requests[r].phase == Done(Rejected) <==> !exists c :: Newest(s, u, c))
  {
    var u := s.requests[r].user;
    if c :| Awaits(s, u, c) { NewestIsThere(s, u); }
    NoneAwaits(s, u);
    if Awaits(s, u, id) { assert id in s.challenges && !s.challenges[id].verified; }
    assert Newest(s, u, id) <==> IsLatestUnverified(s, u, id);
  }

  // ---- A confirmation that nothing interrupts

  function ConfirmSteps(r: RequestId, u: UserId, code: string, emailCode: string, id: ChallengeId,
                        codes: seq<string>): seq<Step> {
    [RouteVerify(r, u, code, emailCode), ReadClock(r), TargetLatest(r, id), SpendAttempt(r), TakeUserLock(r),
     RereadChallenge(r), CompareEmailCode(r), CheckTotp(r), CommitConfirm(r, codes)]
  }

  /** A pending factor, its newest challenge open with attempts left, and both
      codes matching. */
  ghost predicate Ready(env: Env, s: State, u: UserId, code: string, emailCode: string, id: ChallengeId) {
    && u in s.factors && !s.factors[u].enabled && u !in s.locks
    && Newest(s, u, id)
    && s.challenges[id].expiresAt > s.clock && s.challenges[id].attempts < 5
    && emailCode != "" && env.mac(emailCode) == s.challenges[id].codeHash
    && env.totpMatches(s.factors[u].secret, code, s.clock)
  }

  function At(s: State, r: RequestId, u: UserId, phase: Phase): State {
    s.(requests := s.requests[r := Request(u, phase)])
  }

  /** The tables once `r` has spent its attempt. */
  function Paid(s: State, r: RequestId, id: ChallengeId): State
    requires id in s.challenges
  {
    var row := s.challenges[id];
    var spent := if id in s.history.spenders then s.history.spenders[id] else {};
    s.(challenges := s.challenges[id := row.(attempts := row.attempts + 1)],
       history := s.history.(spenders := s.history.spenders[id := spent + {r}]))
  }

  /** And once it has compared the emailed code. */
  function Compared(s: State, r: RequestId, id: ChallengeId): State {
    s.(history := s.history.(comparisons := s.history.comparisons + {(r, id)}))
  }

  lemma RouteStep(env: Env, s: State, r: RequestId, u: UserId, code: string, emailCode: string)
    requires r !in s.requests && u in s.factors && !s.factors[u].enabled && emailCode != ""
    ensures Next(env, s, RouteVerify(r, u, code, emailCode)) == At(s, r, u, ConfirmRouted(code, emailCode))
  {}

  lemma ClockStep(env: Env, s: State, r: RequestId, u: UserId, code: string, emailCode: string)
    ensures Next(env, At(s, r, u, ConfirmRouted(code, emailCode)), ReadClock(r))
         == At(s, r, u, ConfirmClocked(code, emailCode, s.clock))
  {}

  lemma PickStep(env: Env, s: State, r: RequestId, u: UserId, code: string, emailCode: string, id: ChallengeId)
    requires Newest(s, u, id)
    ensures Next(env, At(s, r, u, ConfirmClocked(code, emailCode, s.clock)), TargetLatest(r, id))
         == At(s, r, u, ConfirmTargeted(code, emailCode, s.clock, id))
  {
    assert id in s.challenges && s.challenges[id].user == u && !s.challenges[id].verified;
  }

  lemma SpendStep(env: Env, s: State, r: RequestId, u: UserId, code: string, emailCode: string, id: ChallengeId)
    requires Awaits(s, u, id) && s.challenges[id].expiresAt > s.clock && s.challenges[id].attempts < 5
    ensures Next(env, At(s, r, u, ConfirmTargeted(code, emailCode, s.clock, id)), SpendAttempt(r))
         == At(Paid(s, r, id), r, u, ConfirmSpent(code, emailCode, id))
  {}

  lemma LockUserStep(env: Env, s: State, r: RequestId, u: UserId, code: string, emailCode: string, id: ChallengeId)
    requires u !in s.locks
    ensures Next(env, At(s, r, u, ConfirmSpent(code, emailCode, id)), TakeUserLock(r))
         == Holding(s, r, u, ConfirmLocked(code, emailCode, id))
  {}

  lemma RereadStep(env: Env, s: State, r: RequestId, u: UserId, code: string, emailCode: string, id: ChallengeId)
    requires Awaits(s, u, id)
    ensures Next(env, Holding(s, r, u, ConfirmLocked(code, emailCode, id)), RereadChallenge(r))
         == Holding(s, r, u, ConfirmReread(code, emailCode, id))
  {}

  lemma CompareStep(env: Env, s: State, r: RequestId, u: UserId, code: string, emailCode: string, id: ChallengeId)
    requires Awaits(s, u, id) && s.challenges[id].expiresAt > s.clock
    requires env.mac(emailCode) == s.challenges[id].codeHash
    ensures Next(env, Holding(s, r, u, ConfirmReread(code, emailCode, id)), CompareEmailCode(r))
         == Holding(Compared(s, r, id), r, u, ConfirmMatched(code, emailCode, id, s.clock))
  {}

  lemma TotpStep(env: Env, s: State, r: RequestId, u: UserId, code: string, emailCode: string, id: ChallengeId)
    requires u in s.factors && env.totpMatches(s.factors[u].secret, code, s.clock)
    ensures Next(env, Holding(s, r, u, ConfirmMatched(code, emailCode, id, s.clock)), CheckTotp(r))
         == Holding(s, r, u, ConfirmVerified(code, emailCode, id, s.clock, s.factors[u].secret, s.clock))
  {}

  lemma ActivateStep(env: Env, s: State, r: RequestId, u: UserId, p: Phase, codes: seq<string>)
    requires u in s.factors && u !in s.locks && p.ConfirmVerified? && p.id in s.challenges
    ensures Next(env, Holding(s, r, u, p), CommitConfirm(r, codes)) == Ended(ConfirmTables(s, r, u, p, codes), r, u, Ok)
  {
    assert ConfirmTables(Holding(s, r, u, p), r, u, p, codes) == Holding(ConfirmTables(s, r, u, p, codes), r, u, p);
    FinishHolding(ConfirmTables(s, r, u, p, codes), r, u, p, Ok);
  }

  lemma RouteFirst(env: Env, s: State, r: RequestId, u: UserId, code: string, emailCode: string, id: ChallengeId,
                   codes: seq<string>)
    requires r !in s.requests && u in s.factors && !s.factors[u].enabled && emailCode != ""
    ensures var steps := ConfirmSteps(r, u, code, emailCode, id, codes);
            Run(env, s, steps) == Run(env, At(s, r, u, ConfirmRouted(code, emailCode)), steps[1..])
  {
    var steps := ConfirmSteps(r, u, code, emailCode, id, codes);
    assert steps[0..] == steps;
    RouteStep(env, s, r, u, code, emailCode);
    RunVia(env, s, RouteVerify(r, u, code, emailCode), At(s, r, u, ConfirmRouted(code, emailCode)), steps, 0);
  }

  lemma ClockNext(env: Env, s: State, r: RequestId, u: UserId, code: string, emailCode: string, id: ChallengeId,
                  codes: seq<string>)
    ensures var steps := ConfirmSteps(r, u, code, emailCode, id, codes);
            Run(env, At(s, r, u, ConfirmRouted(code, emailCode)), steps[1..])
            == Run(env, At(s, r, u, ConfirmClocked(code, emailCode, s.clock)), steps[2..])
  {
    var steps := ConfirmSteps(r, u, code, emailCode, id, codes);
    ClockStep(env, s, r, u, code, emailCode);
    RunVia(env, At(s, r, u, ConfirmRouted(code, emailCode)), ReadClock(r),
           At(s, r, u, ConfirmClocked(code, emailCode, s.clock)), steps, 1);
  }

  lemma PickNext(env: Env, s: State, r: RequestId, u: UserId, code: string, emailCode: string, id: ChallengeId,
                 codes: seq<string>)
    requires Newest(s, u, id)
    ensures var steps := ConfirmSteps(r, u, code, emailCode, id, codes);
            Run(env, At(s, r, u, ConfirmClocked(code, emailCode, s.clock)), steps[2..])
            == Run(env, At(s, r, u, ConfirmTargeted(code, emailCode, s.clock, id)), steps[3..])
  {
    var steps := ConfirmSteps(r, u, code, emailCode, id, codes);
    PickStep(env, s, r, u, code, emailCode, id);
    RunVia(env, At(s, r, u, ConfirmClocked(code, emailCode, s.clock)), TargetLatest(r, id),
           At(s, r, u, ConfirmTargeted(code, emailCode, s.clock, id)), steps, 2);
  }

  lemma SpendNext(env: Env, s: State, r: RequestId, u: UserId, code: string, emailCode: string, id: ChallengeId,
                  codes: seq<string>)
    requires Awaits(s, u, id) && s.challenges[id].expiresAt > s.clock && s.challenges[id].attempts < 5
    ensures var steps := ConfirmSteps(r, u, code, emailCode, id, codes);
            Run(env, At(s, r, u, ConfirmTargeted(code, emailCode, s.clock, id)), steps[3..])
            == Run(env, At(Paid(s, r, id), r, u, ConfirmSpent(code, emailCode, id)), steps[4..])
  {
    var steps := ConfirmSteps(r, u, code, emailCode, id, codes);
    SpendStep(env, s, r, u, code, emailCode, id);
    RunVia(env, At(s, r, u, ConfirmTargeted(code, emailCode, s.clock, id)), SpendAttempt(r),
           At(Paid(s, r, id), r, u, ConfirmSpent(code, emailCode, id)), steps, 3);
  }

  lemma LockNext(env: Env, s: State, r: RequestId, u: UserId, code: string, emailCode: string, id: ChallengeId,
                 codes: seq<string>)
    requires u !in s.locks
    ensures var steps := ConfirmSteps(r, u, code, emailCode, id, codes);
            Run(env, At(s, r, u, ConfirmSpent(code, emailCode, id)), steps[4..])
            == Run(env, Holding(s, r, u, ConfirmLocked(code, emailCode, id)), steps[5..])
  {
    var steps := ConfirmSteps(r, u, code, emailCode, id, codes);
    LockUserStep(env, s, r, u, code, emailCode, id);
    RunVia(env, At(s, r, u, ConfirmSpent(code, emailCode, id)), TakeUserLock(r),
           Holding(s, r, u, ConfirmLocked(code, emailCode, id)), steps, 4);
  }

  lemma RereadNext(env: Env, s: State, r: RequestId, u: UserId, code: string, emailCode: string, id: ChallengeId,
                   codes: seq<string>)
    requires Awaits(s, u, id)
    ensures var steps := ConfirmSteps(r, u, code, emailCode, id, codes);
            Run(env, Holding(s, r, u, ConfirmLocked(code, emailCode, id)), steps[5..])
            == Run(env, Holding(s, r, u, ConfirmReread(code, emailCode, id)), steps[6..])
  {
    var steps := ConfirmSteps(r, u, code, emailCode, id, codes);
    RereadStep(env, s, r, u, code, emailCode, id);
    RunVia(env, Holding(s, r, u, ConfirmLocked(code, emailCode, id)), RereadChallenge(r),
           Holding(s, r, u, ConfirmReread(code, emailCode, id)), steps, 5);
  }

  lemma CompareNext(env: Env, s: State, r: RequestId, u: UserId, code: string, emailCode: string, id: ChallengeId,
                    codes: seq<string>)
    requires Awaits(s, u, id) && s.challenges[id].expiresAt > s.clock
    requires env.mac(emailCode) == s.challenges[id].codeHash
    ensures var steps := ConfirmSteps(r, u, code, emailCode, id, codes);
            Run(env, Holding(s, r, u, ConfirmReread(code, emailCode, id)), steps[6..])
            == Run(env, Holding(Compared(s, r, id), r, u, ConfirmMatched(code, emailCode, id, s.clock)), steps[7..])
  {
    var steps := ConfirmSteps(r, u, code, emailCode, id, codes);
    CompareStep(env, s, r, u, code, emailCode, id);
    RunVia(env, Holding(s, r, u, ConfirmReread(code, emailCode, id)), CompareEmailCode(r),
           Holding(Compared(s, r, id), r, u, ConfirmMatched(code, emailCode, id, s.clock)), steps, 6);
  }

  lemma TotpNext(env: Env, s: State, r: RequestId, u: UserId, code: string, emailCode: string, id: ChallengeId,
                 codes: seq<string>)
    requires u in s.factors && env.totpMatches(s.factors[u].secret, code, s.clock)
    ensures var steps := ConfirmSteps(r, u, code, emailCode, id, codes);
            Run(env, Holding(s, r, u, ConfirmMatched(code, emailCode, id, s.clock)), steps[7..])
            == Run(env, Holding(s, r, u, ConfirmVerified(code, emailCode, id, s.clock, s.factors[u].secret, s.clock)),
                   steps[8..])
  {
    var steps := ConfirmSteps(r, u, code, emailCode, id, codes);
    TotpStep(env, s, r, u, code, emailCode, id);
    RunVia(env, Holding(s, r, u, ConfirmMatched(code, emailCode, id, s.clock)), CheckTotp(r),
           Holding(s, r, u, ConfirmVerified(code, emailCode, id, s.clock, s.factors[u].secret, s.clock)), steps, 7);
  }

  lemma ActivateLast(env: Env, s: State, r: RequestId, u: UserId, code: string, emailCode: string, id: ChallengeId,
                     codes: seq<string>)
    requires u in s.factors && u !in s.locks && id in s.challenges
    ensures var steps := ConfirmSteps(r, u, code, emailCode, id, codes);
            var p := ConfirmVerified(code, emailCode, id, s.clock, s.factors[u].secret, s.clock);
            Run(env, Holding(s, r, u, p), steps[8..]) == Ended(ConfirmTables(s, r, u, p, codes), r, u, Ok)
  {
    var steps := ConfirmSteps(r, u, code, emailCode, id, codes);
    var p := ConfirmVerified(code, emailCode, id, s.clock, s.factors[u].secret, s.clock);
    ActivateStep(env, s, r, u, p, codes);
    RunVia(env, Holding(s, r, u, p), CommitConfirm(r, codes), Ended(ConfirmTables(s, r, u, p, codes), r, u, Ok),
           steps, 8);
    assert steps[9..] == [];
  }

  /** The tables the confirmation leaves. */
  lemma ConfirmRun(env: Env, s: State, r: RequestId, u: UserId, code: string, emailCode: string, id: ChallengeId,
                   codes: seq<string>)
    requires r !in s.requests && Ready(env, s, u, code, emailCode, id)
    ensures var p := ConfirmVerified(code, emailCode, id, s.clock, s.factors[u].secret, s.clock);
            Run(env, s, ConfirmSteps(r, u, code, emailCode, id, codes))
            == Ended(ConfirmTables(Compared(Paid(s, r, id), r, id), r, u, p, codes), r, u, Ok)
  {
    RouteFirst(env, s, r, u, code, emailCode, id, codes);
    ClockNext(env, s, r, u, code, emailCode, id, codes);
    PickNext(env, s, r, u, code, emailCode, id, codes);
    SpendNext(env, s, r, u, code, emailCode, id, codes);
    var paid := Paid(s, r, id);
    LockNext(env, paid, r, u, code, emailCode, id, codes);
    RereadNext(env, paid, r, u, code, emailCode, id, codes);
    CompareNext(env, paid, r, u, code, emailCode, id, codes);
    TotpNext(env, Compared(paid, r, id), r, u, code, emailCode, id, codes);
    ActivateLast(env, Compared(paid, r, id), r, u, code, emailCode, id, codes);
  }

  /** From whatever state the rest of the run has led to, the nine statements of a
      confirmation with the right codes activate the factor. */
  lemma ConfirmationSucceeds(env: Env, s: State, r: RequestId, u: UserId, code: string, emailCode: string,
                             id: ChallengeId, codes: seq<string>)
    requires r !in s.requests && Ready(env, s, u, code, emailCode, id)
    ensures var t := Run(env, s, ConfirmSteps(r, u, code, emailCode, id, codes));
            var row := s.challenges[id];
            && t.requests == s.requests[r := Request(u, Done(Ok))] && t.locks == s.locks && t.clock == s.clock
            && t.factors == s.factors[u := Factor(s.factors[u].secret, true, codes)]
            && t.challenges == s.challenges[id := row.(attempts := row.attempts + 1, verified := true)]
            && t.history.activations == s.history.activations
                 + [Activation(u, r, id, s.factors[u].secret, emailCode, s.clock, code, s.clock)]
  {
    ConfirmRun(env, s, r, u, code, emailCode, id, codes);
  }

  lemma EnrolledIsPending(env: Env, u: UserId)
    ensures var s := Run(env, Init(), EnrollSteps(0, u, 0, 0));
            && s.clock == 0 && s.locks == map[] && s.factors == map[u := Factor("secret", false, [])]
            && s.challenges == map[0 := Challenge(u, env.mac("code"), CODE_TTL, 0, false, 0)]
            && s.requests == map[0 := Request(u, Done(Ok))] && s.history.activations == []
  {
    assert IssuedSince(Init(), u, 0 - ISSUE_WINDOW) == {} && OpenFor(Init(), u, 0) == {};
    EnrollRun(env, Init(), 0, u, 0, 0);
  }

  lemma PendingConfirmed(env: Env, s: State, u: UserId, code: string, codes: seq<string>)
    requires env.totpMatches("secret", code, 0)
    requires s.clock == 0 && s.locks == map[] && s.factors == map[u := Factor("secret", false, [])]
    requires s.challenges == map[0 := Challenge(u, env.mac("code"), CODE_TTL, 0, false, 0)]
    requires s.requests == map[0 := Request(u, Done(Ok))] && s.history.activations == []
    ensures var t := Run(env, s, ConfirmSteps(1, u, code, "code", 0, codes));
            && t.factors == map[u := Factor("secret", true, codes)]
            && t.requests == map[0 := Request(u, Done(Ok)), 1 := Request(u, Done(Ok))]
            && t.challenges == map[0 := Challenge(u, env.mac("code"), CODE_TTL, 1, true, 0)]
            && t.history.activations == [Activation(u, 1, 0, "secret", "code", 0, code, 0)]
  {
    ConfirmationSucceeds(env, s, 1, u, code, "code", 0, codes);
  }

  /** Enrolled and then confirmed, from the empty tables: the factor is active. */
  lemma EnrolledThenActive(env: Env, u: UserId, code: string, codes: seq<string>)
    requires env.totpMatches("secret", code, 0)
    ensures var t := Run(env, Init(), EnrollSteps(0, u, 0, 0) + ConfirmSteps(1, u, code, "code", 0, codes));
            && t.factors == map[u := Factor("secret", true, codes)]
            && t.requests == map[0 := Request(u, Done(Ok)), 1 := Request(u, Done(Ok))]
            && t.challenges == map[0 := Challenge(u, env.mac("code"), CODE_TTL, 1, true, 0)]
            && t.history.activations == [Activation(u, 1, 0, "secret", "code", 0, code, 0)]
  {
    var s := Run(env, Init(), EnrollSteps(0, u, 0, 0));
    RunConcat(env, Init(), EnrollSteps(0, u, 0, 0), ConfirmSteps(1, u, code, "code", 0, codes));
    EnrolledIsPending(env, u);
    PendingConfirmed(env, s, u, code, codes);
  }
}
