/** What every interleaving of enrollment and confirmation requests keeps. */
module EnrollmentSafety {
  import opened Enrollment

  /** A request past its lock step is the one its user's row lock names. */
  ghost predicate LocksHeld(s: State) {
    forall r :: r in s.requests && s.requests[r].phase.HoldsLock() ==>
      s.requests[r].user in s.locks && s.locks[s.requests[r].user] == r
  }

  /** A user's last issued challenge carries the stored secret. */
  ghost predicate LatestStored(s: State) {
    forall u :: u in s.history.latest ==>
      && s.history.latest[u] in s.challenges
      && s.challenges[s.history.latest[u]].user == u
      && u in s.factors
      && s.history.latest[u] in s.history.issuedWith
      && s.history.issuedWith[s.history.latest[u]] == s.factors[u].secret
  }

  /** Every challenge has a last one beside it and an end in sight. */
  ghost predicate Dated(s: State) {
    forall c :: c in s.challenges ==>
      s.challenges[c].user in s.history.latest && s.challenges[c].expiresAt <= s.clock + CODE_TTL
  }

  /** Every other unverified challenge of that user has run out. */
  ghost predicate OlderExpired(s: State)
    requires Dated(s)
  {
    forall c :: c in s.challenges && !s.challenges[c].verified && c != s.history.latest[s.challenges[c].user] ==>
      s.challenges[c].expiresAt <= s.clock
  }

  ghost predicate LatestWins(s: State) {
    LatestStored(s) && Dated(s) && OlderExpired(s)
  }

  /** Once a factor is active no challenge of that user can be open again. */
  ghost predicate ActiveIsClosed(s: State) {
    forall c :: c in s.challenges && Enabled(s, s.challenges[c].user) ==>
      s.challenges[c].verified || s.challenges[c].expiresAt <= s.clock
  }

  /** The emailed code was compared with a challenge of the user that was open
      then and is spent now, the TOTP code checked against the secret issued
      with that challenge, which is still the stored one. */
  ghost predicate ActivationSound(env: Env, s: State, a: Activation) {
    && Enabled(s, a.user)
    && a.id in s.challenges && s.challenges[a.id].user == a.user && s.challenges[a.id].verified
    && a.id in s.history.issuedWith && s.history.issuedWith[a.id] == a.secret
    && s.factors[a.user].secret == a.secret
    && env.mac(a.emailCode) == s.challenges[a.id].codeHash
    && a.comparedAt <= a.checkedAt <= s.clock && a.comparedAt < s.challenges[a.id].expiresAt
    && env.totpMatches(a.secret, a.code, a.checkedAt)
  }

  ghost predicate ActivationsSound(env: Env, s: State) {
    && (forall i :: 0 <= i < |s.history.activations| ==> ActivationSound(env, s, s.history.activations[i]))
    && (forall i, j :: 0 <= i < j < |s.history.activations| ==>
          s.history.activations[i].user != s.history.activations[j].user)
  }

  /** What a request knows while it holds the lock. */
  ghost predicate PhaseFacts(env: Env, s: State, u: UserId, p: Phase) {
    && (p.Enrolling() ==> !Enabled(s, u))
    && (p.Closing() ==>
          && p.now <= s.clock
          && (forall c :: c in p.closed ==> c in s.challenges && s.challenges[c].user == u)
          && forall c :: c in s.challenges && s.challenges[c].user == u && !s.challenges[c].verified ==>
               c in p.closed || s.challenges[c].expiresAt <= p.now)
    && (p.ConfirmReread? ==> p.id in s.challenges && s.challenges[p.id].user == u && !s.challenges[p.id].verified)
    && (p.Compared() ==>
          && !Enabled(s, u)
          && u in s.history.latest && s.history.latest[u] == p.id
          && p.id in s.challenges && !s.challenges[p.id].verified
          && env.mac(p.emailCode) == s.challenges[p.id].codeHash
          && p.comparedAt <= s.clock && p.comparedAt < s.challenges[p.id].expiresAt)
    && (p.ConfirmVerified? ==>
          && u in s.factors && s.factors[u].secret == p.secret && p.comparedAt <= p.checkedAt <= s.clock
          && env.totpMatches(p.secret, p.code, p.checkedAt))
    && (p.ConfirmTargeted? || p.ConfirmSpent? || p.ConfirmLocked? ==>
          p.id in s.challenges && s.challenges[p.id].user == u)
  }

  ghost predicate RequestsSound(env: Env, s: State) {
    forall r :: r in s.requests ==> PhaseFacts(env, s, s.requests[r].user, s.requests[r].phase)
  }

  ghost predicate Inv(env: Env, s: State) {
    LocksHeld(s) && LatestWins(s) && ActiveIsClosed(s) && ActivationsSound(env, s) && RequestsSound(env, s)
  }

  lemma InvInit(env: Env)
    ensures Inv(env, Init())
  {}

  lemma FrameKeepsTables(env: Env, s: State, t: State)
    requires LatestWins(s) && ActiveIsClosed(s) && ActivationsSound(env, s) && Frame(s, t)
    ensures LatestWins(t) && ActiveIsClosed(t) && ActivationsSound(env, t)
  {
    forall c | c in t.challenges
      ensures t.challenges[c].user == s.challenges[c].user && t.challenges[c].verified == s.challenges[c].verified
              && t.challenges[c].expiresAt == s.challenges[c].expiresAt
    {}
    forall i | 0 <= i < |t.history.activations| ensures ActivationSound(env, t, t.history.activations[i]) {
      assert ActivationSound(env, s, s.history.activations[i]);
    }
  }

  lemma FrameKeepsPhase(env: Env, s: State, t: State, u: UserId, p: Phase)
    requires PhaseFacts(env, s, u, p) && Frame(s, t)
    ensures PhaseFacts(env, t, u, p)
  {}

  lemma LocksKept(s: State, t: State, r: RequestId)
    requires LocksHeld(s) && Moves(s, t, r)
    ensures LocksHeld(t)
  {}

  /** The phase a quiet step leaves its own request in. */
  ghost predicate PhaseAfter(env: Env, t: State, r: RequestId) {
    r in t.requests ==> PhaseFacts(env, t, t.requests[r].user, t.requests[r].phase)
  }

  predicate InEnrollment(step: Step) {
    step.BeginEnroll? || step.CheckInactive? || step.CountIssued? || step.InvalidateOpen?
    || step.InsertChallenge? || step.UpsertSecret? || step.CommitEnroll?
  }

  /** Up to the count nothing is written, not even for the transaction. */
  predicate BeforeWrites(step: Step) {
    step.BeginEnroll? || step.CheckInactive? || step.CountIssued?
  }

  lemma ReadingPhase(env: Env, s: State, step: Step)
    requires Inv(env, s) && BeforeWrites(step)
    ensures PhaseAfter(env, Next(env, s, step), step.req)
  {
    var t, r := Next(env, s, step), step.req;
    if r in s.requests {
      FrameKeepsPhase(env, s, t, s.requests[r].user, s.requests[r].phase);
    }
  }

  lemma WritingPhase(env: Env, s: State, step: Step)
    requires Inv(env, s) && !Commits(step) && InEnrollment(step) && !BeforeWrites(step)
    ensures PhaseAfter(env, Next(env, s, step), step.req)
  {
    var t, r := Next(env, s, step), step.req;
    if r in s.requests {
      FrameKeepsPhase(env, s, t, s.requests[r].user, s.requests[r].phase);
    }
  }

  lemma EnrollPhase(env: Env, s: State, step: Step)
    requires Inv(env, s) && !Commits(step) && InEnrollment(step)
    ensures PhaseAfter(env, Next(env, s, step), step.req)
  {
    if BeforeWrites(step) {
      ReadingPhase(env, s, step);
    } else {
      WritingPhase(env, s, step);
    }
  }

  predicate BeforeLock(step: Step) {
    step.RouteVerify? || step.ReadClock? || step.Abort?
  }

  lemma SpendPhase(env: Env, s: State, step: Step)
    requires Inv(env, s) && BeforeLock(step)
    ensures PhaseAfter(env, Next(env, s, step), step.req)
  {
    var t, r := Next(env, s, step), step.req;
    if r in s.requests {
      FrameKeepsPhase(env, s, t, s.requests[r].user, s.requests[r].phase);
    }
  }

  lemma AttemptPhase(env: Env, s: State, r: RequestId)
    requires Inv(env, s)
    ensures PhaseAfter(env, SpendAttemptIn(s, r), r)
  {
    if r in s.requests {
      FrameKeepsPhase(env, s, SpendAttemptIn(s, r), s.requests[r].user, s.requests[r].phase);
    }
  }

  lemma TargetPhase(env: Env, s: State, r: RequestId, id: ChallengeId)
    requires Inv(env, s)
    ensures PhaseAfter(env, TargetLatestIn(s, r, id), r)
  {
    if r in s.requests {
      FrameKeepsPhase(env, s, TargetLatestIn(s, r, id), s.requests[r].user, s.requests[r].phase);
    }
  }

  lemma ConfirmPhase(env: Env, s: State, step: Step)
    requires Inv(env, s) && !Commits(step) && !step.Tick? && !InEnrollment(step) && !BeforeLock(step)
    requires !step.TargetLatest? && !step.SpendAttempt?
    ensures PhaseAfter(env, Next(env, s, step), step.req)
  {
    var t, r := Next(env, s, step), step.req;
    if r in s.requests {
      FrameKeepsPhase(env, s, t, s.requests[r].user, s.requests[r].phase);
    }
  }

  /** A step that leaves the tables alone keeps the invariant if the one
      request it moved knows only true facts. */
  lemma QuietKeeps(env: Env, s: State, t: State, r: RequestId)
    requires Inv(env, s) && Frame(s, t) && Moves(s, t, r) && PhaseAfter(env, t, r)
    ensures Inv(env, t)
  {
    FrameKeepsTables(env, s, t);
    LocksKept(s, t, r);
    forall q | q in t.requests && q != r ensures PhaseFacts(env, t, t.requests[q].user, t.requests[q].phase) {
      FrameKeepsPhase(env, s, t, s.requests[q].user, s.requests[q].phase);
    }
  }

  lemma TickKeeps(env: Env, s: State, to: int)
    requires Inv(env, s) && s.clock <= to
    ensures Inv(env, s.(clock := to))
  {
    var t := s.(clock := to);
    FrameKeepsTables(env, s, t);
    forall q | q in t.requests ensures PhaseFacts(env, t, t.requests[q].user, t.requests[q].phase) {
      FrameKeepsPhase(env, s, t, s.requests[q].user, s.requests[q].phase);
    }
  }

  /** Everything stored about user `w` is the same in both states. */
  ghost predicate SameFor(s: State, t: State, w: UserId) {
    && s.clock == t.clock
    && (w in s.factors <==> w in t.factors) && (w in s.factors ==> s.factors[w] == t.factors[w])
    && (w in s.history.latest <==> w in t.history.latest)
    && (w in s.history.latest ==> s.history.latest[w] == t.history.latest[w])
    && ChallengesOf(s, w) == ChallengesOf(t, w)
    && forall c :: c in ChallengesOf(s, w) ==> s.challenges[c] == t.challenges[c]
  }

  /** A commit of request `r` leaves every other request's knowledge true:
      requests of other users see no change, and those of the same user do not
      hold the lock. */
  lemma CommitKeepsOthers(env: Env, s: State, t: State, r: RequestId)
    requires LocksHeld(s) && RequestsSound(env, s) && LatestWins(s)
    requires r in s.requests && s.requests[r].phase.HoldsLock()
    requires Moves(s, t, r) && r in t.requests && t.requests[r].phase.Done?
    requires forall w :: w != s.requests[r].user ==> SameFor(s, t, w)
    requires ChallengesOf(s, s.requests[r].user) <= ChallengesOf(t, s.requests[r].user)
    ensures RequestsSound(env, t)
  {
    forall q | q in t.requests ensures PhaseFacts(env, t, t.requests[q].user, t.requests[q].phase) {
      if q != r {
        var w, p := s.requests[q].user, s.requests[q].phase;
        assert PhaseFacts(env, s, w, p);
        if w != s.requests[r].user {
          assert SameFor(s, t, w);
          assert forall c :: c in t.challenges && t.challenges[c].user == w ==> c in ChallengesOf(t, w);
          assert forall c :: c in s.challenges && s.challenges[c].user == w ==> c in ChallengesOf(s, w);
        } else {
          if p.ConfirmTargeted? || p.ConfirmSpent? {
            assert p.id in ChallengesOf(s, w);
          }
        }
      }
    }
  }

  lemma EnrollSparesOthers(s: State, r: RequestId, w: UserId)
    requires r in s.requests && s.requests[r].phase.EnrollUpserted? && s.requests[r].phase.id !in s.challenges
    requires forall c :: c in s.requests[r].phase.closed && c in s.challenges ==>
                           s.challenges[c].user == s.requests[r].user
    requires w != s.requests[r].user
    ensures SameFor(s, CommitEnrollment(s, r), w)
  {}

  lemma CommitEnrollKeeps(env: Env, s: State, r: RequestId)
    requires Inv(env, s)
    ensures Inv(env, CommitEnrollment(s, r))
  {
    var t := CommitEnrollment(s, r);
    if t != s {
      var u, p := s.requests[r].user, s.requests[r].phase;
      assert PhaseFacts(env, s, u, p);
      LocksKept(s, t, r);
      EnrollLatestWins(env, s, r);
      EnrollTablesKeep(env, s, r);
      forall w | w != u ensures SameFor(s, t, w) { EnrollSparesOthers(s, r, w); }
      CommitKeepsOthers(env, s, t, r);
    }
  }

  lemma EnrollStores(env: Env, s: State, r: RequestId)
    requires Inv(env, s)
    requires r in s.requests && s.requests[r].phase.EnrollUpserted? && s.requests[r].phase.id !in s.challenges
    ensures LatestStored(CommitEnrollment(s, r)) && Dated(CommitEnrollment(s, r))
  {
    assert PhaseFacts(env, s, s.requests[r].user, s.requests[r].phase);
  }

  lemma EnrollLatestWins(env: Env, s: State, r: RequestId)
    requires Inv(env, s)
    requires r in s.requests && s.requests[r].phase.EnrollUpserted? && s.requests[r].phase.id !in s.challenges
    ensures LatestWins(CommitEnrollment(s, r))
  {
    EnrollStores(env, s, r);
    assert PhaseFacts(env, s, s.requests[r].user, s.requests[r].phase);
  }

  lemma EnrollTablesKeep(env: Env, s: State, r: RequestId)
    requires Inv(env, s)
    requires r in s.requests && s.requests[r].phase.EnrollUpserted? && s.requests[r].phase.id !in s.challenges
    ensures var t := CommitEnrollment(s, r);
            ActiveIsClosed(t) && ActivationsSound(env, t)
  {
    var t, u, p := CommitEnrollment(s, r), s.requests[r].user, s.requests[r].phase;
    assert PhaseFacts(env, s, u, p);
    forall i | 0 <= i < |t.history.activations| ensures ActivationSound(env, t, t.history.activations[i]) {
      assert ActivationSound(env, s, s.history.activations[i]);
    }
  }

  lemma ConfirmLatestWins(env: Env, s: State, r: RequestId, codes: seq<string>)
    requires Inv(env, s)
    requires r in s.requests && s.requests[r].phase.ConfirmVerified?
    ensures var t := CommitConfirmation(s, r, codes); LatestWins(t) && ActiveIsClosed(t)
  {
    assert PhaseFacts(env, s, s.requests[r].user, s.requests[r].phase);
  }

  lemma ConfirmTablesKeep(env: Env, s: State, r: RequestId, codes: seq<string>)
    requires Inv(env, s)
    requires r in s.requests && s.requests[r].phase.ConfirmVerified?
    ensures var t := CommitConfirmation(s, r, codes);
            ActivationsSound(env, t)
  {
    var t, u, p := CommitConfirmation(s, r, codes), s.requests[r].user, s.requests[r].phase;
    assert PhaseFacts(env, s, u, p);
    forall i | 0 <= i < |t.history.activations| ensures ActivationSound(env, t, t.history.activations[i]) {
      if i < |s.history.activations| { assert ActivationSound(env, s, s.history.activations[i]); }
    }
    forall i | 0 <= i < |s.history.activations| ensures s.history.activations[i].user != u {
      assert ActivationSound(env, s, s.history.activations[i]);
    }
  }

  lemma CommitConfirmKeeps(env: Env, s: State, r: RequestId, codes: seq<string>)
    requires Inv(env, s)
    ensures Inv(env, CommitConfirmation(s, r, codes))
  {
    var t := CommitConfirmation(s, r, codes);
    if t != s {
      var u, p := s.requests[r].user, s.requests[r].phase;
      assert PhaseFacts(env, s, u, p);
      LocksKept(s, t, r);
      ConfirmLatestWins(env, s, r, codes);
      ConfirmTablesKeep(env, s, r, codes);
      forall w | w != u ensures SameFor(s, t, w) {}
      CommitKeepsOthers(env, s, t, r);
    }
  }

  /** The steps that commit nothing. */
  lemma QuietStepKeeps(env: Env, s: State, step: Step)
    requires Inv(env, s)
    requires !Commits(step) && !step.Tick? && !step.TargetLatest? && !step.SpendAttempt?
    ensures Inv(env, Next(env, s, step))
  {
    if InEnrollment(step) {
      EnrollPhase(env, s, step);
    } else if BeforeLock(step) {
      SpendPhase(env, s, step);
    } else {
      ConfirmPhase(env, s, step);
    }
    QuietKeeps(env, s, Next(env, s, step), step.req);
  }

  lemma InvStep(env: Env, s: State, step: Step)
    requires Inv(env, s)
    ensures Inv(env, Next(env, s, step))
  {
    match step
    case CommitEnroll(r) => CommitEnrollKeeps(env, s, r);
    case CommitConfirm(r, codes) => CommitConfirmKeeps(env, s, r, codes);
    case Tick(to) => if s.clock <= to { TickKeeps(env, s, to); }
    case TargetLatest(r, id) =>
      TargetPhase(env, s, r, id);
      QuietKeeps(env, s, TargetLatestIn(s, r, id), r);
    case SpendAttempt(r) =>
      AttemptPhase(env, s, r);
      QuietKeeps(env, s, SpendAttemptIn(s, r), r);
    case _ => QuietStepKeeps(env, s, step);
  }

  lemma {:induction false} InvRun(env: Env, s: State, steps: seq<Step>)
    requires Inv(env, s)
    ensures Inv(env, Run(env, s, steps))
    decreases |steps|
  {
    if steps != [] {
      InvStep(env, s, steps[0]);
      InvRun(env, Next(env, s, steps[0]), steps[1..]);
    }
  }

  // ---- Main results

  /** In every interleaving a user has at most one open challenge, and it was
      issued together with the secret that is stored now. */
  lemma OneOpenChallenge(env: Env, steps: seq<Step>, c: ChallengeId, d: ChallengeId)
    requires var s := Run(env, Init(), steps);
             Open(s, c) && Open(s, d) && s.challenges[c].user == s.challenges[d].user
    ensures c == d
    ensures var s := Run(env, Init(), steps);
            var u := s.challenges[c].user;
            u in s.factors && c in s.history.issuedWith && s.history.issuedWith[c] == s.factors[u].secret
            && !s.factors[u].enabled
  {
    InvInit(env);
    InvRun(env, Init(), steps);
  }

  /** No code is usable for longer than its lifetime from now on. */
  lemma CodesExpire(env: Env, steps: seq<Step>, c: ChallengeId)
    requires c in Run(env, Init(), steps).challenges
    ensures Run(env, Init(), steps).challenges[c].expiresAt <= Run(env, Init(), steps).clock + CODE_TTL
  {
    InvInit(env);
    InvRun(env, Init(), steps);
  }

  /** A factor is activated at most once, and only by the emailed code of a
      challenge of that user together with a TOTP code of the very secret that
      challenge was issued with, which is the secret still stored. */
  lemma ActivatedOnceByItsPair(env: Env, steps: seq<Step>)
    ensures ActivationsSound(env, Run(env, Init(), steps))
  {
    InvInit(env);
    InvRun(env, Init(), steps);
  }

  ghost predicate Logged(s: State, u: UserId) {
    exists i :: 0 <= i < |s.history.activations| && s.history.activations[i].user == u
  }

  /** Only a recorded activation makes a factor active. */
  lemma {:induction false} ActiveOnlyByActivation(env: Env, s: State, steps: seq<Step>, u: UserId)
    requires Enabled(Run(env, s, steps), u)
    ensures Enabled(s, u) || Logged(Run(env, s, steps), u)
    decreases |steps|
  {
    if steps != [] {
      var t := Next(env, s, steps[0]);
      ActiveOnlyByActivation(env, t, steps[1..], u);
      if Enabled(t, u) && !Enabled(s, u) {
        ActivationLogged(env, s, steps[0], u);
        LoggedForever(env, t, steps[1..], u);
      }
    }
  }

  lemma ActivationLogged(env: Env, s: State, step: Step, u: UserId)
    requires !Enabled(s, u) && Enabled(Next(env, s, step), u)
    ensures Logged(Next(env, s, step), u)
  {
    var log := Next(env, s, step).history.activations;
    assert log[|s.history.activations|].user == u;
  }

  lemma {:induction false} LoggedForever(env: Env, s: State, steps: seq<Step>, u: UserId)
    requires Logged(s, u)
    ensures Logged(Run(env, s, steps), u)
    decreases |steps|
  {
    if steps != [] {
      var i :| 0 <= i < |s.history.activations| && s.history.activations[i].user == u;
      var log := Next(env, s, steps[0]).history.activations;
      assert log[i] == s.history.activations[i];
      LoggedForever(env, Next(env, s, steps[0]), steps[1..], u);
    }
  }

  lemma ActiveStepFrozen(env: Env, s: State, step: Step, u: UserId)
    requires Inv(env, s) && Enabled(s, u)
    ensures Enabled(Next(env, s, step), u) && Next(env, s, step).factors[u] == s.factors[u]
  {
    if Commits(step) && step.req in s.requests {
      assert PhaseFacts(env, s, s.requests[step.req].user, s.requests[step.req].phase);
    }
  }

  lemma {:induction false} ActiveRunFrozen(env: Env, s: State, steps: seq<Step>, u: UserId)
    requires Inv(env, s) && Enabled(s, u)
    ensures Enabled(Run(env, s, steps), u) && Run(env, s, steps).factors[u] == s.factors[u]
    decreases |steps|
  {
    if steps != [] {
      ActiveStepFrozen(env, s, steps[0], u);
      InvStep(env, s, steps[0]);
      ActiveRunFrozen(env, Next(env, s, steps[0]), steps[1..], u);
    }
  }

  /** After activation neither the secret nor the recovery codes change again,
      whatever requests were in flight and whatever requests arrive. */
  lemma ActiveFactorIsFrozen(env: Env, before: seq<Step>, after: seq<Step>, u: UserId)
    requires Enabled(Run(env, Init(), before), u)
    ensures var s := Run(env, Init(), before);
            u in Run(env, s, after).factors && Run(env, s, after).factors[u] == s.factors[u]
  {
    InvInit(env);
    InvRun(env, Init(), before);
    ActiveRunFrozen(env, Run(env, Init(), before), after, u);
  }
}
