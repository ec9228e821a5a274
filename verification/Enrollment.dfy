/** Email-confirmed TOTP enrollment as a transition system.

    Every SQL statement of the two request bodies is one atomic step, any
    number of requests for any number of users are in flight at once, and the
    writes of a transaction become visible together when it commits.
    `Next` is total: a step that is not possible in a state leaves it alone,
    so every finite sequence of steps is an interleaving. */
module Enrollment {
  type UserId = int
  type ChallengeId = int
  type RequestId = int
  type Secret = string
  type Digest = string

  const SECOND := 1_000_000          // clocks count microseconds
  const CODE_TTL := 10 * 60 * SECOND
  const MAX_ATTEMPTS := 5
  const ISSUE_LIMIT := 5
  const ISSUE_WINDOW := 3600 * SECOND

  /** The keyed digest of an emailed code, and whether a TOTP code matches a
      secret at a clock reading. */
  datatype Env = Env(mac: string -> Digest, totpMatches: (Secret, string, int) -> bool)

  datatype Challenge = Challenge(user: UserId, codeHash: Digest, expiresAt: int, attempts: nat,
                                 verified: bool, createdAt: int)

  datatype Factor = Factor(secret: Secret, enabled: bool, recoveryCodes: seq<string>)

  datatype Response = Ok | NotEnrolled | Conflict | Limited | Rejected | Failed

  /** How far a request has come. From `EnrollLocked` on and from
      `ConfirmLocked` on it holds its user's row lock. */
  datatype Phase =
    | EnrollBegun(started: int)
    | EnrollLocked(started: int)
    | EnrollCleared(started: int)
    | EnrollCounted(started: int)
    | EnrollInvalidated(started: int, now: int, closed: set<ChallengeId>)
    | EnrollInserted(started: int, now: int, closed: set<ChallengeId>, id: ChallengeId, codeHash: Digest)
    | EnrollUpserted(started: int, now: int, closed: set<ChallengeId>, id: ChallengeId, codeHash: Digest,
                     secret: Secret)
    | ConfirmRouted(code: string, emailCode: string)
    | ConfirmClocked(code: string, emailCode: string, now: int)
    | ConfirmTargeted(code: string, emailCode: string, now: int, id: ChallengeId)
    | ConfirmSpent(code: string, emailCode: string, id: ChallengeId)
    | ConfirmLocked(code: string, emailCode: string, id: ChallengeId)
    | ConfirmReread(code: string, emailCode: string, id: ChallengeId)
    | ConfirmMatched(code: string, emailCode: string, id: ChallengeId, comparedAt: int)
    | ConfirmVerified(code: string, emailCode: string, id: ChallengeId, comparedAt: int, secret: Secret,
                      checkedAt: int)
    | Done(response: Response)
  {
    predicate HoldsLock() {
      EnrollLocked? || EnrollCleared? || EnrollCounted? || EnrollInvalidated? || EnrollInserted? ||
      EnrollUpserted? || ConfirmLocked? || ConfirmReread? || ConfirmMatched? || ConfirmVerified?
    }

    predicate Enrolling() {
      EnrollCleared? || EnrollCounted? || EnrollInvalidated? || EnrollInserted? || EnrollUpserted?
    }

    predicate Closing() {
      EnrollInvalidated? || EnrollInserted? || EnrollUpserted?
    }

    /** An attempt was spent on `id` and the emailed code not yet compared. */
    predicate Owes() {
      ConfirmSpent? || ConfirmLocked? || ConfirmReread?
    }

    /** The emailed code was compared and matched. */
    predicate Compared() {
      ConfirmMatched? || ConfirmVerified?
    }
  }

  datatype Request = Request(user: UserId, phase: Phase)

  datatype Activation = Activation(user: UserId, request: RequestId, id: ChallengeId, secret: Secret, emailCode: string,
                                   comparedAt: int, code: string, checkedAt: int)

  /** What the tables do not record: the secret a challenge was issued with and
      the request that issued it, each user's last issued challenge, who spent an
      attempt on a challenge, who compared a code against it, and the activations
      in order. */
  datatype History = History(issuedWith: map<ChallengeId, Secret>, issuedBy: map<ChallengeId, RequestId>,
                             latest: map<UserId, ChallengeId>,
                             spenders: map<ChallengeId, set<RequestId>>,
                             comparisons: set<(RequestId, ChallengeId)>, activations: seq<Activation>)

  datatype State = State(clock: int, challenges: map<ChallengeId, Challenge>, factors: map<UserId, Factor>,
                         locks: map<UserId, RequestId>, requests: map<RequestId, Request>, history: History)

  datatype Step =
    | Tick(to: int)
    | BeginEnroll(req: RequestId, user: UserId, started: int)
    | TakeUserLock(req: RequestId)
    | CheckInactive(req: RequestId)
    | CountIssued(req: RequestId)
    | InvalidateOpen(req: RequestId)
    | InsertChallenge(req: RequestId, id: ChallengeId, emailed: string)
    | UpsertSecret(req: RequestId, secret: Secret)
    | CommitEnroll(req: RequestId)
    | RouteVerify(req: RequestId, user: UserId, code: string, emailCode: string)
    | ReadClock(req: RequestId)
    | TargetLatest(req: RequestId, id: ChallengeId)
    | SpendAttempt(req: RequestId)
    | RereadChallenge(req: RequestId)
    | CompareEmailCode(req: RequestId)
    | CheckTotp(req: RequestId)
    | CommitConfirm(req: RequestId, recoveryCodes: seq<string>)
    | Abort(req: RequestId)

  function Init(): State {
    State(0, map[], map[], map[], map[], History(map[], map[], map[], map[], {}, []))
  }

  predicate Enabled(s: State, u: UserId) {
    u in s.factors && s.factors[u].enabled
  }

  predicate Open(s: State, c: ChallengeId) {
    c in s.challenges && !s.challenges[c].verified && s.challenges[c].expiresAt > s.clock
  }

  function ChallengesOf(s: State, u: UserId): set<ChallengeId> {
    set c | c in s.challenges && s.challenges[c].user == u
  }

  /** The rows CountOTPChallengesIssuedSince counts: no upper bound on created_at. */
  function IssuedSince(s: State, u: UserId, since: int): set<ChallengeId> {
    set c | c in s.challenges && s.challenges[c].user == u && s.challenges[c].createdAt > since
  }

  /** The rows created in the half-open hour that starts at `from`. */
  function IssuedIn(s: State, u: UserId, from: int): set<ChallengeId> {
    set c | c in s.challenges && s.challenges[c].user == u && from <= s.challenges[c].createdAt < from + ISSUE_WINDOW
  }

  function OpenFor(s: State, u: UserId, now: int): set<ChallengeId> {
    set c | c in s.challenges && s.challenges[c].user == u && !s.challenges[c].verified
            && s.challenges[c].expiresAt > now
  }

  /** ConsumeOTPChallengeAttempt's sub-select: newest created_at among the unverified. */
  predicate IsLatestUnverified(s: State, u: UserId, id: ChallengeId) {
    && id in s.challenges && s.challenges[id].user == u && !s.challenges[id].verified
    && forall c :: c in s.challenges && s.challenges[c].user == u && !s.challenges[c].verified ==>
         s.challenges[c].createdAt <= s.challenges[id].createdAt
  }

  /** A step of request `r` touches no other request, and takes or drops at
      most the row lock of its own user. */
  ghost predicate Moves(s: State, t: State, r: RequestId) {
    && s.requests.Keys <= t.requests.Keys <= s.requests.Keys + {r}
    && (forall q :: q in s.requests && q != r ==> t.requests[q] == s.requests[q])
    && if r !in t.requests then t.locks == s.locks
       else
         var u := t.requests[r].user;
         var before := r in s.requests && s.requests[r].phase.HoldsLock();
         var after := t.requests[r].phase.HoldsLock();
         && (r in s.requests ==> u == s.requests[r].user)
         && if before == after then t.locks == s.locks
            else if after then u !in s.locks && t.locks == s.locks[u := r]
            else t.locks == s.locks - {u}
  }

  /** Nothing a safety property reads has changed, except that time passed
      and attempts were spent. */
  ghost predicate Frame(s: State, t: State) {
    && s.clock <= t.clock && s.factors == t.factors
    && s.history.latest == t.history.latest
    && s.history.issuedWith == t.history.issuedWith && s.history.issuedBy == t.history.issuedBy
    && s.history.activations == t.history.activations
    && s.challenges.Keys == t.challenges.Keys
    && forall c :: c in s.challenges ==> t.challenges[c] == s.challenges[c].(attempts := t.challenges[c].attempts)
  }

  /** Attempts and comparisons are as they were, and request `r` still owes
      its comparison, still has made it, or has ended. */
  ghost predicate Unspent(s: State, t: State, r: RequestId) {
    && s.history.spenders == t.history.spenders
    && s.history.comparisons == t.history.comparisons
    && s.challenges.Keys == t.challenges.Keys
    && (forall c :: c in s.challenges ==> t.challenges[c].attempts == s.challenges[c].attempts)
    && (r in t.requests ==>
          var after := t.requests[r].phase;
          if r !in s.requests then !after.Owes() && !after.Compared()
          else
            var before := s.requests[r].phase;
            && (before.Owes() ==> after.Done? || (after.Owes() && after.id == before.id))
            && (before.Compared() ==> after.Done? || (after.Compared() && after.id == before.id))
            && (before.Done? ==> after.Done?)
            && (!before.Owes() && !before.Compared() && !before.Done? ==> !after.Owes() && !after.Compared()))
  }

  function Goto(s: State, req: RequestId, phase: Phase): State
    requires req in s.requests
  {
    s.(requests := s.requests[req := Request(s.requests[req].user, phase)])
  }

  /** Ends a request; a rollback or a commit also drops its row lock. */
  function Finish(s: State, req: RequestId, response: Response): State
    requires req in s.requests
  {
    var t := Goto(s, req, Done(response));
    if s.requests[req].phase.HoldsLock() then t.(locks := s.locks - {s.requests[req].user}) else t
  }

  /** The tables after a committed enrollment: the closed rows expire at the
      invalidation's clock reading, the new row and the pending secret appear. */
  function EnrollTables(s: State, r: RequestId, u: UserId, p: Phase): State
    requires p.EnrollUpserted?
  {
    var closed := map c | c in s.challenges ::
      if c in p.closed then s.challenges[c].(expiresAt := p.now) else s.challenges[c];
    var row := Challenge(u, p.codeHash, p.now + CODE_TTL, 0, false, p.started);
    var factor := if u in s.factors then s.factors[u].(secret := p.secret) else Factor(p.secret, false, []);
    s.(challenges := closed[p.id := row],
       factors := s.factors[u := factor],
       history := s.history.(issuedWith := s.history.issuedWith[p.id := p.secret],
                             issuedBy := s.history.issuedBy[p.id := r],
                             latest := s.history.latest[u := p.id],
                             spenders := s.history.spenders[p.id := {}]))
  }

  function ConfirmTables(s: State, r: RequestId, u: UserId, p: Phase, codes: seq<string>): State
    requires p.ConfirmVerified? && u in s.factors && p.id in s.challenges
  {
    s.(challenges := s.challenges[p.id := s.challenges[p.id].(verified := true)],
       factors := s.factors[u := Factor(s.factors[u].secret, true, codes)],
       history := s.history.(activations := s.history.activations +
         [Activation(u, r, p.id, p.secret, p.emailCode, p.comparedAt, p.code, p.checkedAt)]))
  }

  // ---- EnrollMFA, statement by statement

  function BeginEnrollment(s: State, r: RequestId, u: UserId, started: int): (t: State)
    ensures Moves(s, t, r) && Unspent(s, t, r) && Frame(s, t)
  {
    if r in s.requests then s else s.(requests := s.requests[r := Request(u, EnrollBegun(started))])
  }

  function CheckInactiveIn(s: State, r: RequestId): (t: State)
    ensures Moves(s, t, r) && Unspent(s, t, r) && Frame(s, t)
  {
    if !(r in s.requests && s.requests[r].phase.EnrollLocked?) then s
    else if Enabled(s, s.requests[r].user) then Finish(s, r, Conflict)
    else Goto(s, r, EnrollCleared(s.requests[r].phase.started))
  }

  function CountIssuedIn(s: State, r: RequestId): (t: State)
    ensures Moves(s, t, r) && Unspent(s, t, r) && Frame(s, t)
  {
    if !(r in s.requests && s.requests[r].phase.EnrollCleared?) then s
    else if |IssuedSince(s, s.requests[r].user, s.requests[r].phase.started - ISSUE_WINDOW)| >= ISSUE_LIMIT
    then Finish(s, r, Limited)
    else Goto(s, r, EnrollCounted(s.requests[r].phase.started))
  }

  function InvalidateOpenIn(s: State, r: RequestId): (t: State)
    ensures Moves(s, t, r) && Unspent(s, t, r) && Frame(s, t)
  {
    if !(r in s.requests && s.requests[r].phase.EnrollCounted?) then s
    else Goto(s, r, EnrollInvalidated(s.requests[r].phase.started, s.clock,
                                      OpenFor(s, s.requests[r].user, s.clock)))
  }

  function InsertChallengeIn(env: Env, s: State, r: RequestId, id: ChallengeId, emailed: string): (t: State)
    ensures Moves(s, t, r) && Unspent(s, t, r) && Frame(s, t)
  {
    if !(r in s.requests && s.requests[r].phase.EnrollInvalidated?) || id in s.challenges then s
    else
      var p := s.requests[r].phase;
      Goto(s, r, EnrollInserted(p.started, p.now, p.closed, id, env.mac(emailed)))
  }

  function UpsertSecretIn(s: State, r: RequestId, secret: Secret): (t: State)
    ensures Moves(s, t, r) && Unspent(s, t, r) && Frame(s, t)
  {
    if !(r in s.requests && s.requests[r].phase.EnrollInserted?) then s
    else
      var p := s.requests[r].phase;
      Goto(s, r, EnrollUpserted(p.started, p.now, p.closed, p.id, p.codeHash, secret))
  }

  function CommitEnrollment(s: State, r: RequestId): (t: State)
    ensures Moves(s, t, r)
  {
    if !(r in s.requests && s.requests[r].phase.EnrollUpserted?) || s.requests[r].phase.id in s.challenges then s
    else Finish(EnrollTables(s, r, s.requests[r].user, s.requests[r].phase), r, Ok)
  }

  // ---- VerifyMFA and confirmMFAEnrollment, statement by statement

  /** An already active factor takes the ordinary verification instead, which
      this protocol does not contain. */
  function RouteToConfirm(s: State, r: RequestId, u: UserId, code: string, emailCode: string): (t: State)
    ensures Moves(s, t, r) && Unspent(s, t, r) && Frame(s, t)
  {
    if r in s.requests || Enabled(s, u) then s
    else
      var phase := if u !in s.factors then Done(NotEnrolled)
                   else if emailCode == "" then Done(Rejected)
                   else ConfirmRouted(code, emailCode);
      s.(requests := s.requests[r := Request(u, phase)])
  }

  function ReadClockIn(s: State, r: RequestId): (t: State)
    ensures Moves(s, t, r) && Unspent(s, t, r) && Frame(s, t)
  {
    if !(r in s.requests && s.requests[r].phase.ConfirmRouted?) then s
    else Goto(s, r, ConfirmClocked(s.requests[r].phase.code, s.requests[r].phase.emailCode, s.clock))
  }

  /** The sub-select of ConsumeOTPChallengeAttempt. Its own snapshot picks the
      row, so a row lock may delay the update below past other commits. */
  function TargetLatestIn(s: State, r: RequestId, id: ChallengeId): (t: State)
    ensures Moves(s, t, r) && Unspent(s, t, r) && Frame(s, t)
  {
    if !(r in s.requests && s.requests[r].phase.ConfirmClocked?) then s
    else
      var u, p := s.requests[r].user, s.requests[r].phase;
      if forall c :: c in s.challenges && s.challenges[c].user == u ==> s.challenges[c].verified
      then Finish(s, r, Rejected)
      else if IsLatestUnverified(s, u, id) then Goto(s, r, ConfirmTargeted(p.code, p.emailCode, p.now, id))
      else s
  }

  /** The update of ConsumeOTPChallengeAttempt, autocommitted: it re-checks the
      newest row version and survives whatever the request does next. */
  function SpendAttemptIn(s: State, r: RequestId): (t: State)
    ensures Moves(s, t, r) && Frame(s, t)
  {
    if !(r in s.requests && s.requests[r].phase.ConfirmTargeted? && s.requests[r].phase.id in s.challenges) then s
    else
      var p := s.requests[r].phase;
      var c := s.challenges[p.id];
      if c.verified || c.expiresAt <= p.now || c.attempts >= MAX_ATTEMPTS then Finish(s, r, Rejected)
      else
        var spent := if p.id in s.history.spenders then s.history.spenders[p.id] else {};
        Goto(s, r, ConfirmSpent(p.code, p.emailCode, p.id))
          .(challenges := s.challenges[p.id := c.(attempts := c.attempts + 1)],
            history := s.history.(spenders := s.history.spenders[p.id := spent + {r}]))
  }

  function RereadChallengeIn(s: State, r: RequestId): (t: State)
    ensures Moves(s, t, r) && Unspent(s, t, r) && Frame(s, t)
  {
    if !(r in s.requests && s.requests[r].phase.ConfirmLocked?) then s
    else
      var p := s.requests[r].phase;
      if p.id !in s.challenges || s.challenges[p.id].verified then Finish(s, r, Rejected)
      else Goto(s, r, ConfirmReread(p.code, p.emailCode, p.id))
  }

  /** Expiry against a second clock reading, then the emailed code. */
  function CompareEmailCodeIn(env: Env, s: State, r: RequestId): (t: State)
    ensures Moves(s, t, r) && Frame(s, t)
  {
    if !(r in s.requests && s.requests[r].phase.ConfirmReread? && s.requests[r].phase.id in s.challenges) then s
    else
      var p := s.requests[r].phase;
      if s.challenges[p.id].expiresAt <= s.clock then Finish(s, r, Rejected)
      else
        var compared := s.(history := s.history.(comparisons := s.history.comparisons + {(r, p.id)}));
        if env.mac(p.emailCode) != s.challenges[p.id].codeHash then Finish(compared, r, Rejected)
        else Goto(compared, r, ConfirmMatched(p.code, p.emailCode, p.id, s.clock))
  }

  function CheckTotpIn(env: Env, s: State, r: RequestId): (t: State)
    ensures Moves(s, t, r) && Unspent(s, t, r) && Frame(s, t)
  {
    if !(r in s.requests && s.requests[r].phase.ConfirmMatched?) then s
    else
      var u, p := s.requests[r].user, s.requests[r].phase;
      if u !in s.factors then Finish(s, r, Failed)
      else if !env.totpMatches(s.factors[u].secret, p.code, s.clock) then Finish(s, r, Rejected)
      else Goto(s, r, ConfirmVerified(p.code, p.emailCode, p.id, p.comparedAt, s.factors[u].secret, s.clock))
  }

  function CommitConfirmation(s: State, r: RequestId, codes: seq<string>): (t: State)
    ensures Moves(s, t, r) && Unspent(s, t, r)
  {
    if !(r in s.requests && s.requests[r].phase.ConfirmVerified?
         && s.requests[r].user in s.factors && s.requests[r].phase.id in s.challenges)
    then s
    else Finish(ConfirmTables(s, r, s.requests[r].user, s.requests[r].phase, codes), r, Ok)
  }

  // ---- Both bodies

  function TakeUserLockIn(s: State, r: RequestId): (t: State)
    ensures Moves(s, t, r) && Unspent(s, t, r) && Frame(s, t)
  {
    if r !in s.requests || s.requests[r].user in s.locks then s
    else
      var p := s.requests[r].phase;
      var locked := s.(locks := s.locks[s.requests[r].user := r]);
      if p.EnrollBegun? then Goto(locked, r, EnrollLocked(p.started))
      else if p.ConfirmSpent? then Goto(locked, r, ConfirmLocked(p.code, p.emailCode, p.id))
      else s
  }

  /** Any I/O failure: the open transaction, if there is one, rolls back. */
  function AbortIn(s: State, r: RequestId): (t: State)
    ensures Moves(s, t, r) && Unspent(s, t, r) && Frame(s, t)
  {
    if r !in s.requests || s.requests[r].phase.Done? then s else Finish(s, r, Failed)
  }

  predicate Commits(step: Step) {
    step.CommitEnroll? || step.CommitConfirm?
  }

  function Next(env: Env, s: State, step: Step): (t: State)
    ensures !step.Tick? ==> Moves(s, t, step.req)
    ensures !Commits(step) ==> Frame(s, t)
    ensures !step.Tick? && !step.CommitEnroll? && !step.SpendAttempt? && !step.CompareEmailCode? ==>
              Unspent(s, t, step.req)
  {
    match step
    case Tick(to) => if to >= s.clock then s.(clock := to) else s
    case BeginEnroll(r, u, started) => BeginEnrollment(s, r, u, started)
    case TakeUserLock(r) => TakeUserLockIn(s, r)
    case CheckInactive(r) => CheckInactiveIn(s, r)
    case CountIssued(r) => CountIssuedIn(s, r)
    case InvalidateOpen(r) => InvalidateOpenIn(s, r)
    case InsertChallenge(r, id, emailed) => InsertChallengeIn(env, s, r, id, emailed)
    case UpsertSecret(r, secret) => UpsertSecretIn(s, r, secret)
    case CommitEnroll(r) => CommitEnrollment(s, r)
    case RouteVerify(r, u, code, emailCode) => RouteToConfirm(s, r, u, code, emailCode)
    case ReadClock(r) => ReadClockIn(s, r)
    case TargetLatest(r, id) => TargetLatestIn(s, r, id)
    case SpendAttempt(r) => SpendAttemptIn(s, r)
    case RereadChallenge(r) => RereadChallengeIn(s, r)
    case CompareEmailCode(r) => CompareEmailCodeIn(env, s, r)
    case CheckTotp(r) => CheckTotpIn(env, s, r)
    case CommitConfirm(r, codes) => CommitConfirmation(s, r, codes)
    case Abort(r) => AbortIn(s, r)
  }

  function Run(env: Env, s: State, steps: seq<Step>): State
    decreases |steps|
  {
    if steps == [] then s else Run(env, Next(env, s, steps[0]), steps[1..])
  }
}
