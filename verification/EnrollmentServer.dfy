/** The enrollment endpoints over mutable tables: one method a statement, and
    the two handlers as the sequences of statements they run. Every method
    changes the tables exactly as the transition system's function for that
    statement, so whatever holds of all interleavings holds of them. */
module EnrollmentServer {
  import opened Enrollment
  import opened EnrollmentSafety
  import opened EnrollmentTransactions

  /** Request `r` of user `u` holds the row lock in `phase`; the tables are those of `s`. */
  ghost function Holding(s: State, r: RequestId, u: UserId, phase: Phase): State {
    s.(requests := s.requests[r := Request(u, phase)], locks := s.locks[u := r])
  }

  /** Request `r` has ended with `response` and holds nothing. */
  ghost function Ended(s: State, r: RequestId, u: UserId, response: Response): State {
    s.(requests := s.requests[r := Request(u, Done(response))])
  }

  lemma FinishHolding(s: State, r: RequestId, u: UserId, phase: Phase, response: Response)
    requires u !in s.locks && phase.HoldsLock()
    ensures Finish(Holding(s, r, u, phase), r, response) == Ended(s, r, u, response)
  {
    assert s.locks[u := r] - {u} == s.locks;
  }

  /** What EnrollMFA leaves behind when no other request runs in between: the
      active factor decides first, the issuance cap second. */
  ghost function EnrollOutcome(env: Env, s: State, r: RequestId, u: UserId, started: int, id: ChallengeId,
                               emailed: string, secret: Secret): (State, Response)
  {
    if Enabled(s, u) then (s, Conflict)
    else if |IssuedSince(s, u, started - ISSUE_WINDOW)| >= ISSUE_LIMIT then (s, Limited)
    else
      var phase := EnrollUpserted(started, s.clock, OpenFor(s, u, s.clock), id, env.mac(emailed), secret);
      (EnrollTables(s, r, u, phase), Ok)
  }

  /** A successful enrollment leaves exactly one open challenge, the new one,
      beside the new pending secret, and touches no other user's rows. */
  lemma EnrollmentReplaces(env: Env, s: State, r: RequestId, u: UserId, started: int, id: ChallengeId,
                           emailed: string, secret: Secret)
    requires EnrollOutcome(env, s, r, u, started, id, emailed, secret).1 == Ok && id !in s.challenges
    ensures var t := EnrollOutcome(env, s, r, u, started, id, emailed, secret).0;
            && OpenFor(t, u, t.clock) == {id}
            && t.challenges[id] == Challenge(u, env.mac(emailed), s.clock + CODE_TTL, 0, false, started)
            && u in t.factors && t.factors[u].secret == secret && !t.factors[u].enabled
            && forall w :: w != u ==> SameFor(s, t, w)
  {
    var t := EnrollOutcome(env, s, r, u, started, id, emailed, secret).0;
    assert OpenFor(t, u, t.clock) == {id};
    forall w | w != u ensures SameFor(s, t, w) {
      assert ChallengesOf(s, w) == ChallengesOf(t, w);
    }
  }

  /** The rejections of confirmMFAEnrollment after an attempt was spent. */
  predicate CodesMatch(env: Env, s: State, u: UserId, id: ChallengeId, code: string, emailCode: string) {
    && u in s.factors && id in s.challenges
    && s.challenges[id].expiresAt > s.clock && s.challenges[id].attempts < MAX_ATTEMPTS
    && env.mac(emailCode) == s.challenges[id].codeHash
    && env.totpMatches(s.factors[u].secret, code, s.clock)
  }

  class Server {
    const env: Env
    var clock: int
    var challenges: map<ChallengeId, Challenge>
    var factors: map<UserId, Factor>
    var locks: map<UserId, RequestId>
    var requests: map<RequestId, Request>
    ghost var history: History

    constructor (env: Env)
      ensures Model() == Init() && this.env == env
    {
      this.env := env;
      clock, challenges, factors, locks, requests := 0, map[], map[], map[], map[];
      history := History(map[], map[], map[], map[], {}, []);
    }

    ghost function Model(): State
      reads this
    {
      State(clock, challenges, factors, locks, requests, history)
    }

    method MoveTo(r: RequestId, phase: Phase)
      requires r in requests
      modifies this`requests
      ensures Model() == Goto(old(Model()), r, phase)
      ensures requests == old(requests)[r := Request(old(requests)[r].user, phase)]
    {
      requests := requests[r := Request(requests[r].user, phase)];
    }

    /** Commit or rollback: the row lock goes with the transaction. */
    method End(r: RequestId, response: Response)
      requires r in requests
      modifies this`requests, this`locks
      ensures Model() == Finish(old(Model()), r, response)
      ensures requests == old(requests)[r := Request(old(requests)[r].user, Done(response))]
      ensures locks == if old(requests)[r].phase.HoldsLock() then old(locks) - {old(requests)[r].user}
                       else old(locks)
    {
      if requests[r].phase.HoldsLock() {
        locks := locks - {requests[r].user};
      }
      MoveTo(r, Done(response));
    }

    method Begin(r: RequestId, u: UserId, started: int)
      requires r !in requests
      modifies this`requests
      ensures Model() == BeginEnrollment(old(Model()), r, u, started)
    {
      requests := requests[r := Request(u, EnrollBegun(started))];
    }

    method LockUserForMFAEnrollment(r: RequestId)
      requires r in requests && (requests[r].phase.EnrollBegun? || requests[r].phase.ConfirmSpent?)
      requires requests[r].user !in locks
      modifies this`requests, this`locks
      ensures Model() == TakeUserLockIn(old(Model()), r)
    {
      locks := locks[requests[r].user := r];
      var p := requests[r].phase;
      MoveTo(r, if p.EnrollBegun? then EnrollLocked(p.started) else ConfirmLocked(p.code, p.emailCode, p.id));
    }

    method GetUserMFA(r: RequestId) returns (inactive: bool)
      requires r in requests && requests[r].phase.EnrollLocked?
      modifies this`requests, this`locks
      ensures Model() == CheckInactiveIn(old(Model()), r)
      ensures inactive == !Enabled(old(Model()), old(requests[r].user))
      ensures r in requests && requests[r].phase == if inactive then EnrollCleared(old(requests)[r].phase.started)
                                                    else Done(Conflict)
    {
      var u := requests[r].user;
      inactive := u !in factors || !factors[u].enabled;
      if inactive {
        MoveTo(r, EnrollCleared(requests[r].phase.started));
      } else {
        End(r, Conflict);
      }
    }

    method CountOTPChallengesIssuedSince(r: RequestId) returns (below: bool)
      requires r in requests && requests[r].phase.EnrollCleared?
      modifies this`requests, this`locks
      ensures Model() == CountIssuedIn(old(Model()), r)
      ensures below == (|IssuedSince(old(Model()), old(requests[r].user),
                                     old(requests[r].phase.started) - ISSUE_WINDOW)| < ISSUE_LIMIT)
      ensures r in requests && requests[r].phase == if below then EnrollCounted(old(requests)[r].phase.started)
                                                    else Done(Limited)
    {
      var u, since := requests[r].user, requests[r].phase.started - ISSUE_WINDOW;
      var issued := set c | c in challenges && challenges[c].user == u && challenges[c].createdAt > since;
      assert issued == IssuedSince(Model(), u, since);
      below := |issued| < ISSUE_LIMIT;
      if below {
        MoveTo(r, EnrollCounted(requests[r].phase.started));
      } else {
        End(r, Limited);
      }
    }

    method InvalidateOpenOTPChallenges(r: RequestId)
      requires r in requests && requests[r].phase.EnrollCounted?
      modifies this`requests
      ensures Model() == InvalidateOpenIn(old(Model()), r)
      ensures r in requests && OpenAt(Seen(Model(), r), requests[r].user, clock) == {}
      ensures Seen(Model(), r).factors == factors
    {
      InvalidationCloses(Model(), r);
      var u, now := requests[r].user, clock;
      var open := set c | c in challenges && challenges[c].user == u && !challenges[c].verified
                          && challenges[c].expiresAt > now;
      assert open == OpenFor(Model(), u, now);
      MoveTo(r, EnrollInvalidated(requests[r].phase.started, now, open));
    }

    method InsertOTPChallenge(r: RequestId, id: ChallengeId, emailed: string)
      requires r in requests && requests[r].phase.EnrollInvalidated? && id !in challenges
      modifies this`requests
      ensures Model() == InsertChallengeIn(env, old(Model()), r, id, emailed)
      ensures r in requests
      ensures var p := old(requests)[r].phase;
              Seen(Model(), r).challenges
              == old(Seen(Model(), r)).challenges[
                   id := Challenge(requests[r].user, env.mac(emailed), p.now + CODE_TTL, 0, false, p.started)]
    {
      var p := requests[r].phase;
      MoveTo(r, EnrollInserted(p.started, p.now, p.closed, id, env.mac(emailed)));
    }

    method UpsertUserMFA(r: RequestId, secret: Secret)
      requires r in requests && requests[r].phase.EnrollInserted?
      modifies this`requests
      ensures Model() == UpsertSecretIn(old(Model()), r, secret)
      ensures r in requests && requests[r].user in Seen(Model(), r).factors
      ensures var mine := Seen(Model(), r).factors[requests[r].user];
              mine.secret == secret && mine.enabled == Enabled(Model(), requests[r].user)
      ensures Seen(Model(), r).challenges == old(Seen(Model(), r)).challenges
    {
      UpsertStoresPending(Model(), r, secret);
      var p := requests[r].phase;
      MoveTo(r, EnrollUpserted(p.started, p.now, p.closed, p.id, p.codeHash, secret));
    }

    /** Makes the closed rows, the new row and the pending secret visible. */
    method CommitEnroll(r: RequestId)
      requires r in requests && requests[r].phase.EnrollUpserted? && requests[r].phase.id !in challenges
      modifies this
      ensures Model() == CommitEnrollment(old(Model()), r)
      ensures Tables(challenges, factors) == old(Seen(Model(), r))
      ensures requests == old(requests)[r := Request(old(requests)[r].user, Done(Ok))]
    {
      ghost var before := Model();
      var u, p := requests[r].user, requests[r].phase;
      challenges := map c | c in challenges ::
        if c in p.closed then challenges[c].(expiresAt := p.now) else challenges[c];
      challenges := challenges[p.id := Challenge(u, p.codeHash, p.now + CODE_TTL, 0, false, p.started)];
      var factor := if u in factors then factors[u].(secret := p.secret) else Factor(p.secret, false, []);
      factors := factors[u := factor];
      history := history.(issuedWith := history.issuedWith[p.id := p.secret],
                          issuedBy := history.issuedBy[p.id := r],
                          latest := history.latest[u := p.id],
                          spenders := history.spenders[p.id := {}]);
      End(r, Ok);
      EnrollmentPublishes(before, r);
    }

    method BeginLocked(r: RequestId, u: UserId, started: int)
      requires r !in requests && u !in locks
      modifies this`requests, this`locks
      ensures Model() == Holding(old(Model()), r, u, EnrollLocked(started))
    {
      Begin(r, u, started);
      LockUserForMFAEnrollment(r);
    }

    method RefuseActive(r: RequestId, u: UserId, started: int, ghost s: State) returns (inactive: bool)
      requires u !in s.locks && Model() == Holding(s, r, u, EnrollLocked(started))
      modifies this`requests, this`locks
      ensures inactive == !Enabled(s, u)
      ensures Model() == if inactive then Holding(s, r, u, EnrollCleared(started)) else Ended(s, r, u, Conflict)
    {
      FinishHolding(s, r, u, EnrollLocked(started), Conflict);
      inactive := GetUserMFA(r);
    }

    method RefuseLimited(r: RequestId, u: UserId, started: int, ghost s: State) returns (below: bool)
      requires u !in s.locks && Model() == Holding(s, r, u, EnrollCleared(started))
      modifies this`requests, this`locks
      ensures below == (|IssuedSince(s, u, started - ISSUE_WINDOW)| < ISSUE_LIMIT)
      ensures Model() == if below then Holding(s, r, u, EnrollCounted(started)) else Ended(s, r, u, Limited)
    {
      FinishHolding(s, r, u, EnrollCleared(started), Limited);
      assert IssuedSince(Model(), u, started - ISSUE_WINDOW) == IssuedSince(s, u, started - ISSUE_WINDOW);
      below := CountOTPChallengesIssuedSince(r);
    }

    method CloseOpen(r: RequestId, u: UserId, started: int, ghost s: State)
      requires Model() == Holding(s, r, u, EnrollCounted(started))
      modifies this`requests
      ensures Model() == Holding(s, r, u, EnrollInvalidated(started, s.clock, OpenFor(s, u, s.clock)))
    {
      assert OpenFor(Model(), u, s.clock) == OpenFor(s, u, s.clock);
      InvalidateOpenOTPChallenges(r);
    }

    method IssueChallenge(r: RequestId, u: UserId, started: int, id: ChallengeId, emailed: string,
                          ghost s: State)
      requires id !in s.challenges && Model() == Holding(s, r, u, EnrollCounted(started))
      modifies this`requests
      ensures Model() == Holding(s, r, u, EnrollInserted(started, s.clock, OpenFor(s, u, s.clock), id,
                                                         env.mac(emailed)))
    {
      CloseOpen(r, u, started, s);
      InsertOTPChallenge(r, id, emailed);
    }

    method StoreSecret(r: RequestId, u: UserId, phase: Phase, secret: Secret, ghost s: State)
      requires phase.EnrollInserted? && Model() == Holding(s, r, u, phase)
      modifies this`requests
      ensures Model() == Holding(s, r, u, EnrollUpserted(phase.started, phase.now, phase.closed, phase.id,
                                                         phase.codeHash, secret))
    {
      UpsertUserMFA(r, secret);
    }

    method CommitPending(r: RequestId, u: UserId, phase: Phase, ghost s: State)
      requires phase.EnrollUpserted? && phase.id !in s.challenges && u !in s.locks
      requires Model() == Holding(s, r, u, phase)
      modifies this
      ensures Model() == Ended(EnrollTables(s, r, u, phase), r, u, Ok)
    {
      FinishHolding(EnrollTables(s, r, u, phase), r, u, phase, Ok);
      CommitEnroll(r);
    }

    /** EnrollMFA run without another request in between. */
    method EnrollMFA(r: RequestId, u: UserId, started: int, id: ChallengeId, emailed: string, secret: Secret)
      returns (response: Response)
      requires r !in requests && u !in locks && id !in challenges
      modifies this
      ensures response == Conflict <==> u in old(factors) && old(factors)[u].enabled
      ensures response == Limited <==>
        && (u in factors ==> !factors[u].enabled)
        && 5 <= |set c | c in old(challenges) && old(challenges)[c].user == u
                         && old(challenges)[c].createdAt > started - 3600 * SECOND|
      ensures response == Ok || (response in {Conflict, Limited} && factors == old(factors)
                                 && challenges == old(challenges))
      ensures requests == old(requests)[r := Request(u, Done(response))] && locks == old(locks)
      ensures response == EnrollOutcome(env, old(Model()), r, u, started, id, emailed, secret).1
      ensures Model() == Ended(EnrollOutcome(env, old(Model()), r, u, started, id, emailed, secret).0, r, u, response)
    {
      ghost var s := Model();
      BeginLocked(r, u, started);
      var inactive := RefuseActive(r, u, started, s);
      if !inactive { return Conflict; }
      var below := RefuseLimited(r, u, started, s);
      if !below { return Limited; }
      IssueChallenge(r, u, started, id, emailed, s);
      StoreSecret(r, u, requests[r].phase, secret, s);
      CommitPending(r, u, requests[r].phase, s);
      response := Ok;
    }

    // ---- Confirmation

    /** Who never enrolled is told so, an empty emailed code is a rejection, and
        neither touches a table or a lock. */
    method VerifyMFA(r: RequestId, u: UserId, code: string, emailCode: string) returns (confirming: bool)
      requires r !in requests && !(u in factors && factors[u].enabled)
      modifies this`requests
      ensures Model() == RouteToConfirm(old(Model()), r, u, code, emailCode)
      ensures confirming == (u in factors && emailCode != "")
      ensures u !in factors ==> requests == old(requests)[r := Request(u, Done(NotEnrolled))]
      ensures u in factors && emailCode == "" ==> requests == old(requests)[r := Request(u, Done(Rejected))]
      ensures confirming ==> requests == old(requests)[r := Request(u, ConfirmRouted(code, emailCode))]
    {
      confirming := u in factors && emailCode != "";
      var phase := if u !in factors then Done(NotEnrolled)
                   else if emailCode == "" then Done(Rejected) else ConfirmRouted(code, emailCode);
      requests := requests[r := Request(u, phase)];
    }

    method Now(r: RequestId)
      requires r in requests && requests[r].phase.ConfirmRouted?
      modifies this`requests
      ensures Model() == ReadClockIn(old(Model()), r)
    {
      MoveTo(r, ConfirmClocked(requests[r].phase.code, requests[r].phase.emailCode, clock));
    }

    /** The sub-select; `latest` is the row it picked, which ties leave open. */
    method SelectLatest(r: RequestId, latest: ChallengeId) returns (found: bool)
      requires r in requests && requests[r].phase.ConfirmClocked?
      requires (exists c :: c in challenges && challenges[c].user == requests[r].user && !challenges[c].verified) ==>
                 IsLatestUnverified(Model(), requests[r].user, latest)
      modifies this`requests, this`locks
      ensures Model() == TargetLatestIn(old(Model()), r, latest)
      ensures found == exists c ::
                c in challenges && challenges[c].user == old(requests[r].user) && !challenges[c].verified
      ensures r in requests
      ensures var p := old(requests)[r].phase;
              requests[r].phase == if found then ConfirmTargeted(p.code, p.emailCode, p.now, latest)
                                   else Done(Rejected)
    {
      var u, p := requests[r].user, requests[r].phase;
      found := exists c :: c in challenges && challenges[c].user == u && !challenges[c].verified;
      if found {
        MoveTo(r, ConfirmTargeted(p.code, p.emailCode, p.now, latest));
      } else {
        End(r, Rejected);
      }
    }

    method ConsumeOTPChallengeAttempt(r: RequestId) returns (spent: bool)
      requires r in requests && requests[r].phase.ConfirmTargeted? && requests[r].phase.id in challenges
      modifies this
      ensures Model() == SpendAttemptIn(old(Model()), r)
      ensures var p := old(requests)[r].phase;
              var row := old(challenges)[p.id];
              && spent == (!row.verified && row.expiresAt > p.now && row.attempts < MAX_ATTEMPTS)
              && r in requests && requests[r].phase == (if spent then ConfirmSpent(p.code, p.emailCode, p.id)
                                                        else Done(Rejected))
              && challenges == old(challenges)[p.id := row.(attempts := row.attempts + if spent then 1 else 0)]
    {
      var p := requests[r].phase;
      var c := challenges[p.id];
      spent := !c.verified && c.expiresAt > p.now && c.attempts < MAX_ATTEMPTS;
      if spent {
        challenges := challenges[p.id := c.(attempts := c.attempts + 1)];
        ghost var paid := if p.id in history.spenders then history.spenders[p.id] else {};
        history := history.(spenders := history.spenders[p.id := paid + {r}]);
        MoveTo(r, ConfirmSpent(p.code, p.emailCode, p.id));
      } else {
        End(r, Rejected);
      }
    }

    method LockOpenOTPChallenge(r: RequestId) returns (open: bool)
      requires r in requests && requests[r].phase.ConfirmLocked?
      modifies this`requests, this`locks
      ensures Model() == RereadChallengeIn(old(Model()), r)
      ensures var p := old(requests)[r].phase;
              && open == (p.id in challenges && !challenges[p.id].verified)
              && r in requests && requests[r].phase == (if open then ConfirmReread(p.code, p.emailCode, p.id)
                                                        else Done(Rejected))
    {
      var p := requests[r].phase;
      open := p.id in challenges && !challenges[p.id].verified;
      if open {
        MoveTo(r, ConfirmReread(p.code, p.emailCode, p.id));
      } else {
        End(r, Rejected);
      }
    }

    method EnrollEmailCodeMatches(r: RequestId) returns (matched: bool)
      requires r in requests && requests[r].phase.ConfirmReread? && requests[r].phase.id in challenges
      modifies this
      ensures Model() == CompareEmailCodeIn(env, old(Model()), r)
      ensures var p := old(requests)[r].phase;
              && matched == (challenges[p.id].expiresAt > clock && env.mac(p.emailCode) == challenges[p.id].codeHash)
              && r in requests
              && requests[r].phase == (if matched then ConfirmMatched(p.code, p.emailCode, p.id, clock)
                                       else Done(Rejected))
      ensures challenges == old(challenges)
    {
      var p := requests[r].phase;
      matched := challenges[p.id].expiresAt > clock;
      if matched {
        history := history.(comparisons := history.comparisons + {(r, p.id)});
        matched := env.mac(p.emailCode) == challenges[p.id].codeHash;
      }
      if matched {
        MoveTo(r, ConfirmMatched(p.code, p.emailCode, p.id, clock));
      } else {
        End(r, Rejected);
      }
    }

    method ConfirmEnrollment(r: RequestId) returns (ok: bool)
      requires r in requests && requests[r].phase.ConfirmMatched? && requests[r].user in factors
      modifies this`requests, this`locks
      ensures Model() == CheckTotpIn(env, old(Model()), r)
      ensures var u, p := old(requests)[r].user, old(requests)[r].phase;
              && ok == env.totpMatches(factors[u].secret, p.code, clock)
              && r in requests && requests[r].phase == (if ok then ConfirmVerified(p.code, p.emailCode, p.id,
                                                                 p.comparedAt, factors[u].secret, clock)
                                                        else Done(Rejected))
      ensures var u := old(requests)[r].user;
              Seen(Model(), r).factors == if ok then factors[u := factors[u].(enabled := true)] else factors
    {
      ConfirmationEnables(env, Model(), r);
      var u, p := requests[r].user, requests[r].phase;
      ok := env.totpMatches(factors[u].secret, p.code, clock);
      if ok {
        MoveTo(r, ConfirmVerified(p.code, p.emailCode, p.id, p.comparedAt, factors[u].secret, clock));
      } else {
        End(r, Rejected);
      }
    }

    /** The activation, the spent challenge and the recovery codes, together. */
    method CommitConfirm(r: RequestId, codes: seq<string>)
      requires r in requests && requests[r].phase.ConfirmVerified?
      requires requests[r].user in factors && requests[r].phase.id in challenges
      modifies this
      ensures Model() == CommitConfirmation(old(Model()), r, codes)
      ensures var u := old(requests)[r].user;
              && factors == old(Seen(Model(), r)).factors[u := Factor(old(factors)[u].secret, true, codes)]
              && requests == old(requests)[r := Request(u, Done(Ok))]
      ensures forall c :: c in old(challenges) ==>
                c in challenges && (c != old(requests)[r].phase.id ==> challenges[c] == old(challenges)[c])
    {
      var u, p := requests[r].user, requests[r].phase;
      challenges := challenges[p.id := challenges[p.id].(verified := true)];
      factors := factors[u := Factor(factors[u].secret, true, codes)];
      history := history.(activations := history.activations +
        [Activation(u, r, p.id, p.secret, p.emailCode, p.comparedAt, p.code, p.checkedAt)]);
      End(r, Ok);
    }

    /** Routing, the clock and the sub-select, which finds the latest challenge. */
    method Target(r: RequestId, u: UserId, code: string, emailCode: string, latest: ChallengeId)
      requires r !in requests && u in factors && !factors[u].enabled && emailCode != ""
      requires IsLatestUnverified(Model(), u, latest)
      modifies this`requests, this`locks
      ensures locks == old(locks)
      ensures requests == old(requests)[r := Request(u, ConfirmTargeted(code, emailCode, clock, latest))]
    {
      var confirming := VerifyMFA(r, u, code, emailCode);
      Now(r);
      var found := SelectLatest(r, latest);
    }

    /** The autocommitted half: one attempt, or the rejection. */
    method SpendOne(r: RequestId, u: UserId, code: string, emailCode: string, latest: ChallengeId)
      returns (spent: bool)
      requires r !in requests && u in factors && !factors[u].enabled && emailCode != ""
      requires IsLatestUnverified(Model(), u, latest)
      modifies this
      ensures spent == (old(challenges)[latest].expiresAt > clock && old(challenges)[latest].attempts < MAX_ATTEMPTS)
      ensures factors == old(factors) && locks == old(locks) && clock == old(clock)
      ensures challenges == if spent then old(challenges)[latest := old(challenges)[latest].(
                              attempts := old(challenges)[latest].attempts + 1)] else old(challenges)
      ensures r in requests
      ensures requests[r] == Request(u, if spent then ConfirmSpent(code, emailCode, latest) else Done(Rejected))
    {
      Target(r, u, code, emailCode, latest);
      spent := ConsumeOTPChallengeAttempt(r);
    }

    /** The emailed code, under the user's row lock. */
    method CheckEmailCode(r: RequestId, u: UserId, code: string, emailCode: string, id: ChallengeId)
      returns (matched: bool)
      requires r in requests && requests[r] == Request(u, ConfirmSpent(code, emailCode, id))
      requires u !in locks && id in challenges && !challenges[id].verified
      modifies this
      ensures factors == old(factors) && challenges == old(challenges) && clock == old(clock)
      ensures matched == (challenges[id].expiresAt > clock && env.mac(emailCode) == challenges[id].codeHash)
      ensures locks == if matched then old(locks)[u := r] else old(locks)
      ensures r in requests
      ensures requests[r] == Request(u, if matched then ConfirmMatched(code, emailCode, id, clock) else Done(Rejected))
    {
      assert locks[u := r] - {u} == locks;
      LockUserForMFAEnrollment(r);
      var open := LockOpenOTPChallenge(r);
      matched := EnrollEmailCodeMatches(r);
    }

    /** The activation transaction's checks. */
    method CheckBothCodes(r: RequestId, u: UserId, code: string, emailCode: string, id: ChallengeId)
      returns (ok: bool)
      requires r in requests && requests[r] == Request(u, ConfirmSpent(code, emailCode, id))
      requires u !in locks && u in factors && id in challenges && !challenges[id].verified
      modifies this
      ensures factors == old(factors) && challenges == old(challenges) && clock == old(clock)
      ensures ok == (challenges[id].expiresAt > clock && env.mac(emailCode) == challenges[id].codeHash
                     && env.totpMatches(factors[u].secret, code, clock))
      ensures locks == if ok then old(locks)[u := r] else old(locks)
      ensures r in requests
      ensures requests[r] == Request(u, if ok then ConfirmVerified(code, emailCode, id, clock, factors[u].secret, clock)
                                        else Done(Rejected))
    {
      assert locks[u := r] - {u} == locks;
      var matched := CheckEmailCode(r, u, code, emailCode, id);
      if !matched { return false; }
      ok := ConfirmEnrollment(r);
    }

    /** confirmMFAEnrollment run without another request in between. It activates
        exactly when the latest unverified challenge is open with attempts left
        and both codes match; every rejection keeps the factor, and the tables
        but for the attempt it may have cost. */
    method ConfirmMFAEnrollment(r: RequestId, u: UserId, code: string, emailCode: string,
                                latest: ChallengeId, codes: seq<string>) returns (response: Response)
      requires r !in requests && u !in locks
      requires u in factors && !factors[u].enabled && emailCode != ""
      requires IsLatestUnverified(Model(), u, latest)
      modifies this
      ensures response == if CodesMatch(env, old(Model()), u, latest, code, emailCode) then Ok else Rejected
      ensures factors == if response == Ok then old(factors)[u := Factor(old(factors)[u].secret, true, codes)]
                         else old(factors)
      ensures var row := old(challenges)[latest];
              challenges == old(challenges)[latest :=
                if row.expiresAt <= clock || row.attempts >= MAX_ATTEMPTS then row
                else row.(attempts := row.attempts + 1, verified := response == Ok)]
      ensures locks == old(locks) && clock == old(clock)
      ensures r in requests && requests[r] == Request(u, Done(response))
    {
      assert !challenges[latest].verified && locks[u := r] - {u} == locks;
      var spent := SpendOne(r, u, code, emailCode, latest);
      if !spent { return Rejected; }
      var ok := CheckBothCodes(r, u, code, emailCode, latest);
      if !ok { return Rejected; }
      CommitConfirm(r, codes);
      response := Ok;
    }
  }
}
