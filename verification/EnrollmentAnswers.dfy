/** What the requests are told: success exactly when they committed, anything
    else by its own condition on the tables. */
module EnrollmentAnswers {
  import opened Enrollment

  // ---- Success

  predicate ToldOk(s: State, r: RequestId) {
    r in s.requests && s.requests[r].phase == Done(Ok)
  }

  predicate Activates(s: State, i: int, r: RequestId) {
    0 <= i < |s.history.activations| && s.history.activations[i].request == r
  }

  predicate Issues(s: State, c: ChallengeId, r: RequestId) {
    c in s.history.issuedBy && s.history.issuedBy[c] == r
  }

  ghost predicate Committed(s: State, r: RequestId) {
    (exists i :: Activates(s, i, r)) || (exists c :: Issues(s, c, r))
  }

  /** Each commit is of a request of its own, and of that request's user. */
  ghost predicate OneCommitEach(s: State) {
    && (forall i, j, r :: Activates(s, i, r) && Activates(s, j, r) ==> i == j)
    && (forall c, d, r :: Issues(s, c, r) && Issues(s, d, r) ==> c == d)
    && (forall i, c, r :: Activates(s, i, r) ==> !Issues(s, c, r))
  }

  ghost predicate OwnCommits(s: State) {
    && s.history.issuedBy.Keys == s.challenges.Keys
    && (forall i, r :: Activates(s, i, r) ==>
          ToldOk(s, r) && s.requests[r].user == s.history.activations[i].user)
    && (forall c, r :: Issues(s, c, r) ==> ToldOk(s, r) && s.requests[r].user == s.challenges[c].user)
  }

  ghost predicate OkMeansCommitted(s: State) {
    forall r :: ToldOk(s, r) ==> Committed(s, r)
  }

  ghost predicate Told(s: State) {
    OneCommitEach(s) && OwnCommits(s) && OkMeansCommitted(s)
  }

  /** No request is told of a success, and none loses it. */
  ghost predicate SameSuccess(s: State, t: State) {
    && (forall r :: ToldOk(s, r) <==> ToldOk(t, r))
    && (forall r :: ToldOk(s, r) ==> t.requests[r].user == s.requests[r].user)
  }

  lemma QuietKeeps(s: State, t: State)
    requires Told(s) && SameSuccess(s, t) && s.challenges.Keys == t.challenges.Keys
    requires forall c :: c in s.challenges ==> t.challenges[c].user == s.challenges[c].user
    requires s.history.activations == t.history.activations && s.history.issuedBy == t.history.issuedBy
    ensures Told(t)
  {
    forall i, r ensures Activates(s, i, r) <==> Activates(t, i, r) {}
    forall c, r ensures Issues(s, c, r) <==> Issues(t, c, r) {}
    forall r | ToldOk(t, r) ensures Committed(t, r) {
      assert Committed(s, r);
      if i :| Activates(s, i, r) { assert Activates(t, i, r); }
      if c :| Issues(s, c, r) { assert Issues(t, c, r); }
    }
  }

  lemma EnrollingTellsNone(env: Env, s: State, step: Step)
    requires step.BeginEnroll? || step.TakeUserLock? || step.CheckInactive? || step.CountIssued?
          || step.InvalidateOpen? || step.InsertChallenge? || step.UpsertSecret?
    ensures ToldOk(Next(env, s, step), step.req) <==> ToldOk(s, step.req)
  {}

  lemma ConfirmingTellsNone(env: Env, s: State, step: Step)
    requires step.RouteVerify? || step.ReadClock? || step.TargetLatest? || step.SpendAttempt?
          || step.RereadChallenge? || step.CompareEmailCode? || step.CheckTotp? || step.Abort?
    ensures ToldOk(Next(env, s, step), step.req) <==> ToldOk(s, step.req)
  {}

  lemma OthersTold(s: State, t: State, r: RequestId)
    requires Moves(s, t, r) && (ToldOk(t, r) <==> ToldOk(s, r))
    ensures SameSuccess(s, t)
  {
    forall q ensures ToldOk(s, q) <==> ToldOk(t, q) {
      if q != r && q in s.requests { assert t.requests[q] == s.requests[q]; }
    }
  }

  lemma QuietStepKeeps(env: Env, s: State, step: Step)
    requires Told(s) && !Commits(step) && !step.Tick?
    ensures Told(Next(env, s, step))
  {
    var t := Next(env, s, step);
    if step.BeginEnroll? || step.TakeUserLock? || step.CheckInactive? || step.CountIssued?
       || step.InvalidateOpen? || step.InsertChallenge? || step.UpsertSecret? {
      EnrollingTellsNone(env, s, step);
    } else {
      ConfirmingTellsNone(env, s, step);
    }
    OthersTold(s, t, step.req);
    FrameKeepsTold(s, t);
  }

  lemma FrameKeepsTold(s: State, t: State)
    requires Told(s) && SameSuccess(s, t) && Frame(s, t)
    ensures Told(t)
  {
    forall c | c in s.challenges ensures t.challenges[c].user == s.challenges[c].user {}
    QuietKeeps(s, t);
  }

  /** A request that commits was told nothing before. */
  lemma NotYetCommitted(s: State, r: RequestId)
    requires Told(s) && !ToldOk(s, r)
    ensures forall i :: !Activates(s, i, r)
    ensures forall c :: !Issues(s, c, r)
  {}

  lemma CommitTells(s: State, t: State, r: RequestId)
    requires r in s.requests && !s.requests[r].phase.Done? && Moves(s, t, r)
    requires r in t.requests && t.requests[r].phase == Done(Ok)
    ensures forall q :: ToldOk(t, q) <==> ToldOk(s, q) || q == r
    ensures forall q :: q in s.requests ==> q in t.requests && t.requests[q].user == s.requests[q].user
  {
    forall q ensures ToldOk(t, q) <==> ToldOk(s, q) || q == r {
      if q != r && q in s.requests { assert t.requests[q] == s.requests[q]; }
    }
  }

  lemma EnrollmentTold(s: State, r: RequestId)
    requires Told(s)
    ensures Told(CommitEnrollment(s, r))
  {
    var t := CommitEnrollment(s, r);
    if t != s {
      var id := s.requests[r].phase.id;
      NotYetCommitted(s, r);
      CommitTells(s, t, r);
      forall i, q ensures Activates(t, i, q) <==> Activates(s, i, q) {}
      forall c, q ensures Issues(t, c, q) <==> Issues(s, c, q) || (c == id && q == r) {}
      forall q | ToldOk(t, q) ensures Committed(t, q) {
        if q == r {
          assert Issues(t, id, q);
        } else {
          assert Committed(s, q);
          if i :| Activates(s, i, q) { assert Activates(t, i, q); }
          if c :| Issues(s, c, q) { assert Issues(t, c, q); }
        }
      }
    }
  }

  lemma ConfirmationTold(s: State, r: RequestId, codes: seq<string>)
    requires Told(s)
    ensures Told(CommitConfirmation(s, r, codes))
  {
    var t := CommitConfirmation(s, r, codes);
    if t != s {
      var n := |s.history.activations|;
      NotYetCommitted(s, r);
      CommitTells(s, t, r);
      forall i, q ensures Activates(t, i, q) <==> Activates(s, i, q) || (i == n && q == r) {}
      forall c, q ensures Issues(t, c, q) <==> Issues(s, c, q) {}
      forall q | ToldOk(t, q) ensures Committed(t, q) {
        if q == r {
          assert Activates(t, n, q);
        } else {
          assert Committed(s, q);
          if i :| Activates(s, i, q) { assert Activates(t, i, q); }
          if c :| Issues(s, c, q) { assert Issues(t, c, q); }
        }
      }
    }
  }

  lemma TickTold(s: State, to: int)
    requires Told(s)
    ensures Told(s.(clock := to))
  {
    QuietKeeps(s, s.(clock := to));
  }

  lemma StepTold(env: Env, s: State, step: Step)
    requires Told(s)
    ensures Told(Next(env, s, step))
  {
    match step
    case Tick(to) => if to >= s.clock { TickTold(s, to); }
    case CommitEnroll(r) => EnrollmentTold(s, r);
    case CommitConfirm(r, codes) => ConfirmationTold(s, r, codes);
    case _ => QuietStepKeeps(env, s, step);
  }

  lemma {:induction false} RunTold(env: Env, s: State, steps: seq<Step>)
    requires Told(s)
    ensures Told(Run(env, s, steps))
    decreases |steps|
  {
    if steps != [] {
      StepTold(env, s, steps[0]);
      RunTold(env, Next(env, s, steps[0]), steps[1..]);
    }
  }

  lemma InitTold()
    ensures Told(Init())
  {}

  /** In every interleaving, exactly those requests are told of success that
      activated a factor or issued a challenge, each one of them once and for
      its own user; and every challenge was issued by one. */
  lemma OkIffCommitted(env: Env, steps: seq<Step>, r: RequestId)
    ensures var s := Run(env, Init(), steps);
            && (r in s.requests && s.requests[r].phase == Done(Ok)
                <==> (|| (exists i :: 0 <= i < |s.history.activations| && s.history.activations[i].request == r)
                      || (exists c :: c in s.history.issuedBy && s.history.issuedBy[c] == r)))
            && OneCommitEach(s) && OwnCommits(s)
  {
    InitTold();
    RunTold(env, Init(), steps);
    var s := Run(env, Init(), steps);
    if ToldOk(s, r) { assert Committed(s, r); }
    if i :| 0 <= i < |s.history.activations| && s.history.activations[i].request == r { assert Activates(s, i, r); }
    if c :| c in s.history.issuedBy && s.history.issuedBy[c] == r { assert Issues(s, c, r); }
    if i :| Activates(s, i, r) { assert s.history.activations[i].request == r; }
  }

  // ---- Every answer

  /** The request of this step is answered by it. */
  predicate Ends(s: State, t: State, r: RequestId) {
    r in t.requests && t.requests[r].phase.Done? && !(r in s.requests && s.requests[r].phase.Done?)
  }

  /** When a statement of EnrollMFA ends its request, and with which answer. */
  ghost predicate EnrollAnswer(s: State, u: UserId, p: Phase, step: Step, answer: Response) {
    if step.CheckInactive? then answer == Conflict && u in s.factors && s.factors[u].enabled
    else if step.CountIssued? then
      && answer == Limited && p.EnrollCleared?
      && 5 <= |set c | c in s.challenges && s.challenges[c].user == u
                       && s.challenges[c].createdAt > p.started - 3600 * SECOND|
    else step.CommitEnroll? && answer == Ok
  }

  predicate Spent(row: Challenge, now: int) {
    row.verified || row.expiresAt <= now || row.attempts >= 5
  }

  /** And a statement of confirmMFAEnrollment. */
  ghost predicate ConfirmAnswer(env: Env, s: State, u: UserId, p: Phase, step: Step, answer: Response) {
    if step.TargetLatest? then
      answer == Rejected && forall c :: c in s.challenges && s.challenges[c].user == u ==> s.challenges[c].verified
    else if step.SpendAttempt? then
      answer == Rejected && p.ConfirmTargeted? && p.id in s.challenges && Spent(s.challenges[p.id], p.now)
    else if step.RereadChallenge? then
      answer == Rejected && p.ConfirmLocked? && (p.id !in s.challenges || s.challenges[p.id].verified)
    else if step.CompareEmailCode? then
      && answer == Rejected && p.ConfirmReread? && p.id in s.challenges
      && (s.challenges[p.id].expiresAt <= s.clock || env.mac(p.emailCode) != s.challenges[p.id].codeHash)
    else if step.CheckTotp? then
      && p.ConfirmMatched?
      && if u in s.factors then answer == Rejected && !env.totpMatches(s.factors[u].secret, p.code, s.clock)
         else answer == Failed
    else step.CommitConfirm? && answer == Ok
  }

  predicate InEnroll(step: Step) {
    step.CheckInactive? || step.CountIssued? || step.CommitEnroll? || step.BeginEnroll? || step.TakeUserLock?
    || step.InvalidateOpen? || step.InsertChallenge? || step.UpsertSecret?
  }

  predicate InConfirm(step: Step) {
    !step.Tick? && !InEnroll(step) && !step.RouteVerify? && !step.Abort?
  }

  lemma RouteAnswers(env: Env, s: State, r: RequestId, u: UserId, code: string, emailCode: string)
    requires Ends(s, Next(env, s, RouteVerify(r, u, code, emailCode)), r)
    ensures var t := Next(env, s, RouteVerify(r, u, code, emailCode));
            && t.requests[r] == Request(u, Done(if u in s.factors then Rejected else NotEnrolled))
            && (u in s.factors ==> emailCode == "" && !s.factors[u].enabled)
            && t == s.(requests := t.requests)
  {}

  lemma EnrollAnswers(env: Env, s: State, step: Step)
    requires InEnroll(step) && Ends(s, Next(env, s, step), step.req)
    ensures step.req in s.requests
    ensures EnrollAnswer(s, s.requests[step.req].user, s.requests[step.req].phase, step,
                         Next(env, s, step).requests[step.req].phase.response)
  {}

  lemma ConfirmAnswers(env: Env, s: State, step: Step)
    requires InConfirm(step) && Ends(s, Next(env, s, step), step.req)
    ensures step.req in s.requests
    ensures ConfirmAnswer(env, s, s.requests[step.req].user, s.requests[step.req].phase, step,
                          Next(env, s, step).requests[step.req].phase.response)
  {}

  lemma AbortAnswers(env: Env, s: State, r: RequestId)
    requires Ends(s, Next(env, s, Abort(r)), r)
    ensures Next(env, s, Abort(r)).requests[r].phase == Done(Failed)
  {}

  /** Whichever step answers a request, the answer is the one its statement's
      condition gives: no factor, an active one, a full hour, a challenge that is
      gone, spent or out of time, a wrong code, or the commit. */
  lemma AnswersByCondition(env: Env, s: State, step: Step)
    requires !step.Tick? && Ends(s, Next(env, s, step), step.req)
    ensures var t, r := Next(env, s, step), step.req;
            var answer := t.requests[r].phase.response;
            if step.RouteVerify? then
              answer == (if step.user in s.factors then Rejected else NotEnrolled) && t == s.(requests := t.requests)
              && (step.user in s.factors ==> step.emailCode == "" && !s.factors[step.user].enabled)
            else if step.Abort? then answer == Failed
            else
              && r in s.requests
              && if InEnroll(step) then EnrollAnswer(s, s.requests[r].user, s.requests[r].phase, step, answer)
                 else ConfirmAnswer(env, s, s.requests[r].user, s.requests[r].phase, step, answer)
  {
    match step
    case RouteVerify(r, u, code, emailCode) => RouteAnswers(env, s, r, u, code, emailCode);
    case Abort(r) => AbortAnswers(env, s, r);
    case _ => if InEnroll(step) { EnrollAnswers(env, s, step); } else { ConfirmAnswers(env, s, step); }
  }
}
