/** How many guesses any interleaving of requests grants against emailed codes. */
module EnrollmentBudget {
  import opened Enrollment
  import opened FiniteSets
  import opened EnrollmentSafety

  ghost predicate AttemptsPaid(s: State) {
    && s.history.spenders.Keys == s.challenges.Keys
    && (forall c :: c in s.challenges ==>
          |s.history.spenders[c]| == s.challenges[c].attempts <= MAX_ATTEMPTS)
    && (forall c, q :: c in s.challenges && q in s.history.spenders[c] ==>
          q in s.requests
          && (s.requests[q].phase.Owes() || s.requests[q].phase.Compared() || s.requests[q].phase.Done?))
    && (forall x :: x in s.history.comparisons ==>
          && x.0 in s.requests && (s.requests[x.0].phase.Compared() || s.requests[x.0].phase.Done?)
          && x.1 in s.challenges && x.0 in s.history.spenders[x.1])
    && (forall q :: q in s.requests && s.requests[q].phase.Owes() ==>
          var c := s.requests[q].phase.id;
          c in s.challenges && q in s.history.spenders[c])
  }

  lemma PaidCommitEnroll(s: State, r: RequestId)
    requires AttemptsPaid(s)
    ensures AttemptsPaid(CommitEnrollment(s, r))
  {}

  /** No comparison is undone when one request moves on. */
  lemma ComparersStay(s: State, t: State, r: RequestId, x: (RequestId, ChallengeId))
    requires AttemptsPaid(s) && Moves(s, t, r) && x in s.history.comparisons
    requires x.0 == r ==> r in t.requests && (t.requests[r].phase.Compared() || t.requests[r].phase.Done?)
    ensures x.0 in t.requests && (t.requests[x.0].phase.Compared() || t.requests[x.0].phase.Done?)
  {
    if x.0 != r { assert t.requests[x.0] == s.requests[x.0]; }
  }

  lemma UnspentKeeps(s: State, t: State, r: RequestId)
    requires AttemptsPaid(s) && Moves(s, t, r) && Unspent(s, t, r)
    ensures AttemptsPaid(t)
  {
    forall x | x in t.history.comparisons
      ensures x.0 in t.requests && (t.requests[x.0].phase.Compared() || t.requests[x.0].phase.Done?)
    {
      assert s.requests[x.0].phase.Compared() || s.requests[x.0].phase.Done?;
      ComparersStay(s, t, r, x);
    }
  }

  lemma SpendKeeps(s: State, t: State, r: RequestId, id: ChallengeId)
    requires AttemptsPaid(s) && Moves(s, t, r) && id in s.challenges
    requires r in s.requests && s.requests[r].phase.ConfirmTargeted?
    requires r in t.requests && t.requests[r].phase.ConfirmSpent? && t.requests[r].phase.id == id
    requires s.challenges[id].attempts < MAX_ATTEMPTS
    requires t.challenges == s.challenges[id := s.challenges[id].(attempts := s.challenges[id].attempts + 1)]
    requires t.history == s.history.(spenders := s.history.spenders[id := s.history.spenders[id] + {r}])
    ensures AttemptsPaid(t)
  {
    assert r !in s.history.spenders[id];
    forall x | x in t.history.comparisons
      ensures x.0 in t.requests && (t.requests[x.0].phase.Compared() || t.requests[x.0].phase.Done?)
    {
      assert x in s.history.comparisons && x.0 != r;
      ComparersStay(s, t, r, x);
    }
  }

  lemma PaidSpend(s: State, r: RequestId)
    requires AttemptsPaid(s)
    ensures AttemptsPaid(SpendAttemptIn(s, r))
  {
    var t := SpendAttemptIn(s, r);
    if r in s.requests && s.requests[r].phase.ConfirmTargeted? {
      var p := s.requests[r].phase;
      if p.id in s.challenges && !s.challenges[p.id].verified && p.now < s.challenges[p.id].expiresAt
         && s.challenges[p.id].attempts < MAX_ATTEMPTS {
        SpendKeeps(s, t, r, p.id);
        return;
      }
    }
    UnspentKeeps(s, t, r);
  }

  lemma CompareKeeps(s: State, t: State, r: RequestId, id: ChallengeId)
    requires AttemptsPaid(s) && Moves(s, t, r)
    requires r in s.requests && s.requests[r].phase.ConfirmReread? && s.requests[r].phase.id == id
    requires r in t.requests && (t.requests[r].phase.Compared() || t.requests[r].phase.Done?)
    requires t.challenges == s.challenges && t.history.spenders == s.history.spenders
    requires t.history.comparisons == s.history.comparisons + {(r, id)}
    ensures AttemptsPaid(t)
  {
    forall x | x in t.history.comparisons
      ensures x.0 in t.requests && (t.requests[x.0].phase.Compared() || t.requests[x.0].phase.Done?)
    {
      if x != (r, id) { ComparersStay(s, t, r, x); }
    }
  }

  lemma PaidCompare(env: Env, s: State, r: RequestId)
    requires AttemptsPaid(s)
    ensures AttemptsPaid(CompareEmailCodeIn(env, s, r))
  {
    var t := CompareEmailCodeIn(env, s, r);
    if r in s.requests && s.requests[r].phase.ConfirmReread? {
      var id := s.requests[r].phase.id;
      if id in s.challenges && s.challenges[id].expiresAt > s.clock {
        CompareKeeps(s, t, r, id);
        return;
      }
    }
    UnspentKeeps(s, t, r);
  }

  lemma PaidStep(env: Env, s: State, step: Step)
    requires AttemptsPaid(s)
    ensures AttemptsPaid(Next(env, s, step))
  {
    match step
    case Tick(_) =>
    case CommitEnroll(r) => PaidCommitEnroll(s, r);
    case SpendAttempt(r) => PaidSpend(s, r);
    case CompareEmailCode(r) => PaidCompare(env, s, r);
    case _ => UnspentKeeps(s, Next(env, s, step), step.req);
  }

  /** Whoever got past the comparison, or activated a factor, is in the log of
      comparisons. */
  ghost predicate GuessesLogged(s: State) {
    && (forall q :: q in s.requests && s.requests[q].phase.Compared() ==>
          (q, s.requests[q].phase.id) in s.history.comparisons)
    && (forall i :: 0 <= i < |s.history.activations| ==>
          (s.history.activations[i].request, s.history.activations[i].id) in s.history.comparisons)
  }

  lemma LoggedUnspent(s: State, t: State, r: RequestId)
    requires GuessesLogged(s) && Moves(s, t, r) && Unspent(s, t, r)
    requires t.history.activations == s.history.activations
    requires r in t.requests && t.requests[r].phase.Compared() ==> r in s.requests && s.requests[r].phase.Compared()
    ensures GuessesLogged(t)
  {}

  lemma LoggedConfirm(s: State, r: RequestId, codes: seq<string>)
    requires GuessesLogged(s)
    ensures GuessesLogged(CommitConfirmation(s, r, codes))
  {}

  lemma LoggedEnroll(s: State, r: RequestId)
    requires GuessesLogged(s)
    ensures GuessesLogged(CommitEnrollment(s, r))
  {}

  lemma LoggedSpend(s: State, r: RequestId)
    requires GuessesLogged(s)
    ensures GuessesLogged(SpendAttemptIn(s, r))
  {}

  lemma LoggedCompare(env: Env, s: State, r: RequestId)
    requires GuessesLogged(s)
    ensures GuessesLogged(CompareEmailCodeIn(env, s, r))
  {}

  /** No other step gets past a comparison. */
  lemma OthersDoNotCompare(env: Env, s: State, step: Step)
    requires !step.Tick? && !step.CompareEmailCode? && !step.CommitConfirm?
    requires !step.CommitEnroll? && !step.SpendAttempt?
    ensures var t, r := Next(env, s, step), step.req;
            && t.history.activations == s.history.activations
            && (r in t.requests && t.requests[r].phase.Compared() ==> r in s.requests && s.requests[r].phase.Compared())
  {}

  lemma LoggedOther(env: Env, s: State, step: Step)
    requires GuessesLogged(s)
    requires !step.Tick? && !step.CompareEmailCode? && !step.CommitConfirm?
    requires !step.CommitEnroll? && !step.SpendAttempt?
    ensures GuessesLogged(Next(env, s, step))
  {
    OthersDoNotCompare(env, s, step);
    LoggedUnspent(s, Next(env, s, step), step.req);
  }

  lemma LoggedAlso(s: State, t: State)
    requires GuessesLogged(s) && t == s
    ensures GuessesLogged(t)
  {}

  lemma LoggedStep(env: Env, s: State, step: Step)
    requires GuessesLogged(s)
    ensures GuessesLogged(Next(env, s, step))
  {
    var t := Next(env, s, step);
    match step
    case Tick(_) =>
    case CommitEnroll(r) =>
      LoggedEnroll(s, r);
      LoggedAlso(CommitEnrollment(s, r), t);
    case SpendAttempt(r) =>
      LoggedSpend(s, r);
      LoggedAlso(SpendAttemptIn(s, r), t);
    case CompareEmailCode(r) =>
      LoggedCompare(env, s, r);
      LoggedAlso(CompareEmailCodeIn(env, s, r), t);
    case CommitConfirm(r, codes) =>
      LoggedConfirm(s, r, codes);
      LoggedAlso(CommitConfirmation(s, r, codes), t);
    case _ => LoggedOther(env, s, step);
  }

  // ---- The issuance cap

  /** A request that counted below the cap still sees fewer than the cap: its
      lock keeps other issuances of that user out. */
  ghost predicate CountsStand(s: State) {
    forall r :: r in s.requests && (s.requests[r].phase.EnrollCounted? || s.requests[r].phase.Closing()) ==>
      |IssuedSince(s, s.requests[r].user, s.requests[r].phase.started - ISSUE_WINDOW)| < ISSUE_LIMIT
  }

  ghost predicate CapHolds(s: State) {
    forall u, from :: |IssuedIn(s, u, from)| <= ISSUE_LIMIT
  }

  ghost predicate SameIssues(s: State, t: State) {
    s.challenges.Keys == t.challenges.Keys
    && forall c :: c in s.challenges ==>
         t.challenges[c].user == s.challenges[c].user && t.challenges[c].createdAt == s.challenges[c].createdAt
  }

  lemma SameIssuesSame(s: State, t: State, u: UserId, x: int)
    requires SameIssues(s, t)
    ensures IssuedIn(t, u, x) == IssuedIn(s, u, x) && IssuedSince(t, u, x) == IssuedSince(s, u, x)
  {
    assert forall c :: c in s.challenges <==> c in t.challenges;
    assert forall c :: c in IssuedIn(t, u, x) <==> c in IssuedIn(s, u, x);
    assert forall c :: c in IssuedSince(t, u, x) <==> c in IssuedSince(s, u, x);
  }

  /** Where a step leaves its own request if that request has counted. */
  ghost predicate Recounted(s: State, t: State, r: RequestId) {
    r in t.requests && (t.requests[r].phase.EnrollCounted? || t.requests[r].phase.Closing()) ==>
      var since := t.requests[r].phase.started - ISSUE_WINDOW;
      || |IssuedSince(s, t.requests[r].user, since)| < ISSUE_LIMIT
      || (r in s.requests && (s.requests[r].phase.EnrollCounted? || s.requests[r].phase.Closing())
          && s.requests[r].phase.started == t.requests[r].phase.started
          && s.requests[r].user == t.requests[r].user)
  }

  lemma EnrollRecounts(env: Env, s: State, step: Step)
    requires InEnrollment(step)
    ensures Recounted(s, Next(env, s, step), step.req)
  {}

  lemma ConfirmRecounts(env: Env, s: State, step: Step)
    requires !InEnrollment(step) && !step.Tick? && !BeforeLock(step)
    ensures Recounted(s, Next(env, s, step), step.req)
  {}

  lemma UnlockedRecounts(env: Env, s: State, step: Step)
    requires BeforeLock(step)
    ensures Recounted(s, Next(env, s, step), step.req)
  {}

  lemma CapKept(s: State, t: State, r: RequestId)
    requires CapHolds(s) && CountsStand(s) && SameIssues(s, t) && Moves(s, t, r) && Recounted(s, t, r)
    ensures CapHolds(t) && CountsStand(t)
  {
    forall u, from ensures |IssuedIn(t, u, from)| <= ISSUE_LIMIT { SameIssuesSame(s, t, u, from); }
    forall q | q in t.requests && (t.requests[q].phase.EnrollCounted? || t.requests[q].phase.Closing())
      ensures |IssuedSince(t, t.requests[q].user, t.requests[q].phase.started - ISSUE_WINDOW)| < ISSUE_LIMIT
    {
      SameIssuesSame(s, t, t.requests[q].user, t.requests[q].phase.started - ISSUE_WINDOW);
    }
  }

  lemma CapStep(env: Env, s: State, step: Step)
    requires CapHolds(s) && CountsStand(s) && LocksHeld(s)
    ensures CapHolds(Next(env, s, step)) && CountsStand(Next(env, s, step))
  {
    match step
    case Tick(to) =>
      forall u, from ensures |IssuedIn(Next(env, s, step), u, from)| <= ISSUE_LIMIT {
        SameIssuesSame(s, Next(env, s, step), u, from);
      }
    case CommitEnroll(r) => CommitKeepsCounts(s, r);
    case _ =>
      if InEnrollment(step) {
        EnrollRecounts(env, s, step);
      } else if BeforeLock(step) {
        UnlockedRecounts(env, s, step);
      } else {
        ConfirmRecounts(env, s, step);
      }
      CapKept(s, Next(env, s, step), step.req);
  }

  /** The new row may fall into an hour only together with rows the count saw:
      the count has no upper bound, so rows of later-started transactions that
      took the lock earlier are among them. */
  lemma CommitKeepsCap(s: State, r: RequestId, u: UserId, from: int)
    requires CapHolds(s) && CountsStand(s)
    ensures |IssuedIn(CommitEnrollment(s, r), u, from)| <= ISSUE_LIMIT
  {
    var t := CommitEnrollment(s, r);
    if t != s {
      var p := s.requests[r].phase;
      if u == s.requests[r].user && from <= p.started < from + ISSUE_WINDOW {
        JoinsSeen(s, t, u, p.id, p.started, from);
      } else {
        JoinsElsewhere(s, t, u, p.id, from);
      }
    }
  }

  /** The rows of `t` are those of `s`, issued as they were, and `id`. */
  ghost predicate Adds(s: State, t: State, id: ChallengeId) {
    && (forall c :: c in t.challenges <==> c in s.challenges || c == id)
    && forall c :: c in s.challenges && c != id ==>
         t.challenges[c].user == s.challenges[c].user && t.challenges[c].createdAt == s.challenges[c].createdAt
  }

  lemma JoinsSeen(s: State, t: State, u: UserId, id: ChallengeId, started: int, from: int)
    requires Adds(s, t, id) && from <= started < from + ISSUE_WINDOW
    requires |IssuedSince(s, u, started - ISSUE_WINDOW)| < ISSUE_LIMIT
    ensures |IssuedIn(t, u, from)| <= ISSUE_LIMIT
  {
    var seen := IssuedSince(s, u, started - ISSUE_WINDOW);
    assert forall c :: c in IssuedIn(t, u, from) ==> c in seen || c == id;
    SubsetSize(IssuedIn(t, u, from), seen + {id});
  }

  lemma JoinsElsewhere(s: State, t: State, u: UserId, id: ChallengeId, from: int)
    requires Adds(s, t, id) && CapHolds(s) && id !in s.challenges && id !in IssuedIn(t, u, from)
    ensures |IssuedIn(t, u, from)| <= ISSUE_LIMIT
  {
    assert forall c :: c in IssuedIn(t, u, from) <==> c in IssuedIn(s, u, from);
    assert IssuedIn(t, u, from) == IssuedIn(s, u, from);
  }

  lemma CommitKeepsCounts(s: State, r: RequestId)
    requires CapHolds(s) && CountsStand(s) && LocksHeld(s)
    ensures CapHolds(CommitEnrollment(s, r)) && CountsStand(CommitEnrollment(s, r))
  {
    var t := CommitEnrollment(s, r);
    forall u, from ensures |IssuedIn(t, u, from)| <= ISSUE_LIMIT { CommitKeepsCap(s, r, u, from); }
    if t != s {
      forall q | q in t.requests && (t.requests[q].phase.EnrollCounted? || t.requests[q].phase.Closing())
        ensures |IssuedSince(t, t.requests[q].user, t.requests[q].phase.started - ISSUE_WINDOW)| < ISSUE_LIMIT
      {
        assert q != r && s.requests[q].phase.HoldsLock() && s.requests[r].phase.HoldsLock();
        var since := t.requests[q].phase.started - ISSUE_WINDOW;
        assert IssuedSince(t, t.requests[q].user, since) == IssuedSince(s, t.requests[q].user, since);
      }
    }
  }

  ghost predicate Budgeted(env: Env, s: State) {
    Inv(env, s) && AttemptsPaid(s) && GuessesLogged(s) && CapHolds(s) && CountsStand(s)
  }

  lemma {:induction false} BudgetRun(env: Env, s: State, steps: seq<Step>)
    requires Budgeted(env, s)
    ensures Budgeted(env, Run(env, s, steps))
    decreases |steps|
  {
    if steps != [] {
      var t := Next(env, s, steps[0]);
      InvStep(env, s, steps[0]);
      PaidStep(env, s, steps[0]);
      LoggedStep(env, s, steps[0]);
      CapStep(env, s, steps[0]);
      BudgetRun(env, t, steps[1..]);
    }
  }

  lemma BudgetedFromStart(env: Env, steps: seq<Step>)
    ensures Budgeted(env, Run(env, Init(), steps))
  {
    forall u, from ensures |IssuedIn(Init(), u, from)| == 0 { assert IssuedIn(Init(), u, from) == {}; }
    BudgetRun(env, Init(), steps);
  }

  // ---- Main results

  /** At most five comparisons are ever made against one challenge, although
      every rejection rolls its transaction back. */
  lemma FiveComparisonsPerChallenge(env: Env, steps: seq<Step>, c: ChallengeId)
    ensures |Fibre(Run(env, Init(), steps).history.comparisons, c)| <= MAX_ATTEMPTS
  {
    var s := Run(env, Init(), steps);
    BudgetedFromStart(env, steps);
    if c in s.challenges {
      SubsetSize(Fibre(s.history.comparisons, c), s.history.spenders[c]);
    } else {
      assert Fibre(s.history.comparisons, c) == {};
    }
  }

  /** A request compares once, so counting requests counts comparisons. */
  lemma ComparesOnce(env: Env, steps: seq<Step>, r: RequestId, c: ChallengeId)
    requires var s := Run(env, Init(), steps);
             r in s.requests && s.requests[r].phase.ConfirmReread?
    ensures (r, c) !in Run(env, Init(), steps).history.comparisons
  {
    BudgetedFromStart(env, steps);
  }

  /** At most five challenges of one user carry creation times within any
      half-open hour, in whatever order their transactions took the lock. */
  lemma FiveChallengesPerHour(env: Env, steps: seq<Step>, u: UserId, from: int)
    ensures |IssuedIn(Run(env, Init(), steps), u, from)| <= ISSUE_LIMIT
  {
    BudgetedFromStart(env, steps);
  }

  /** At most twenty-five comparisons target the codes issued in one hour. */
  lemma TwentyFiveGuessesPerHour(env: Env, steps: seq<Step>, u: UserId, from: int)
    ensures var s := Run(env, Init(), steps);
            |PairsInto(s.history.comparisons, IssuedIn(s, u, from))| <= MAX_ATTEMPTS * ISSUE_LIMIT
  {
    var s := Run(env, Init(), steps);
    var cs := IssuedIn(s, u, from);
    FiveChallengesPerHour(env, steps, u, from);
    BudgetedFromStart(env, steps);
    forall c | c in cs ensures |Fibre(s.history.comparisons, c)| <= MAX_ATTEMPTS {
      SubsetSize(Fibre(s.history.comparisons, c), s.history.spenders[c]);
    }
    FibresBound(s.history.comparisons, cs, MAX_ATTEMPTS);
  }

  /** The code that activated a factor was one of the at most five compared with
      its challenge, and an attempt had been spent on it. */
  lemma ActivationWasPaid(env: Env, steps: seq<Step>, i: nat)
    requires i < |Run(env, Init(), steps).history.activations|
    ensures var s := Run(env, Init(), steps);
            var a := s.history.activations[i];
            && (a.request, a.id) in s.history.comparisons
            && a.id in s.challenges && 1 <= s.challenges[a.id].attempts <= MAX_ATTEMPTS
  {
    BudgetedFromStart(env, steps);
    var s := Run(env, Init(), steps);
    var a := s.history.activations[i];
    assert ActivationSound(env, s, a);
    SubsetSize({a.request}, s.history.spenders[a.id]);
  }
}
