/** The issuance cap over closed hours. The cap's query looks strictly past its
    far end, so an hour that includes both of its end points can hold more than
    five creation times, and this says exactly when. */
module EnrollmentHour {
  import opened FiniteSets
  import opened Enrollment
  import opened EnrollmentBudget
  import opened EnrollmentServer

  /** The rows created from `from` to an hour later, both ends included. */
  function ClosedHour(s: State, u: UserId, from: int): set<ChallengeId> {
    set c | c in s.challenges && s.challenges[c].user == u && from <= s.challenges[c].createdAt <= from + ISSUE_WINDOW
  }

  ghost predicate ClosedCap(s: State, u: UserId) {
    forall from :: |ClosedHour(s, u, from)| <= ISSUE_LIMIT
  }

  predicate IssuedAt(s: State, u: UserId, at: int) {
    exists c :: c in s.challenges && s.challenges[c].user == u && s.challenges[c].createdAt == at
  }

  lemma UnionSize<T>(a: set<T>, b: set<T>)
    ensures |a + b| <= |a| + |b|
  {
    assert a + b == a + (b - a);
    SubsetSize(b - a, b);
  }

  /** In every run a closed hour holds at most five challenges of a user unless
      both of its end points carry one, and never more than ten. */
  lemma ClosedHourNeedsBothEnds(env: Env, steps: seq<Step>, u: UserId, from: int)
    ensures var s := Run(env, Init(), steps);
            && |ClosedHour(s, u, from)| <= 2 * ISSUE_LIMIT
            && (|ClosedHour(s, u, from)| > ISSUE_LIMIT ==> IssuedAt(s, u, from) && IssuedAt(s, u, from + ISSUE_WINDOW))
  {
    var s := Run(env, Init(), steps);
    var hour := ClosedHour(s, u, from);
    FiveChallengesPerHour(env, steps, u, from);
    FiveChallengesPerHour(env, steps, u, from + 1);
    FiveChallengesPerHour(env, steps, u, from + ISSUE_WINDOW);
    SubsetSize(hour, IssuedIn(s, u, from) + IssuedIn(s, u, from + ISSUE_WINDOW));
    UnionSize(IssuedIn(s, u, from), IssuedIn(s, u, from + ISSUE_WINDOW));
    if !IssuedAt(s, u, from) {
      assert forall c :: c in hour ==> s.challenges[c].createdAt != from;
      SubsetSize(hour, IssuedIn(s, u, from + 1));
    }
    if !IssuedAt(s, u, from + ISSUE_WINDOW) {
      assert forall c :: c in hour ==> s.challenges[c].createdAt != from + ISSUE_WINDOW;
      SubsetSize(hour, IssuedIn(s, u, from));
    }
  }

  /** An enrollment keeps the closed-hour cap exactly when fewer than five rows
      lie in the closed hour that ends with its own start. The code's count,
      which the request has passed, leaves out that hour's first instant and
      takes in rows of transactions that started later but locked earlier. */
  lemma ClosedCapKeptIff(env: Env, steps: seq<Step>, r: RequestId)
    requires var s := Run(env, Init(), steps);
             && r in s.requests && s.requests[r].phase.EnrollUpserted? && s.requests[r].phase.id !in s.challenges
             && ClosedCap(s, s.requests[r].user)
    ensures var s := Run(env, Init(), steps);
            var u, started := s.requests[r].user, s.requests[r].phase.started;
            ClosedCap(CommitEnrollment(s, r), u) <==> |ClosedHour(s, u, started - ISSUE_WINDOW)| < ISSUE_LIMIT
  {
    BudgetedFromStart(env, steps);
    CommitKeepsClosedCapIff(Run(env, Init(), steps), r);
  }

  lemma HourOfTables(s: State, t: State, u: UserId, id: ChallengeId, started: int, from: int)
    requires id !in s.challenges && forall c :: c in t.challenges <==> c in s.challenges || c == id
    requires t.challenges[id].user == u && t.challenges[id].createdAt == started
    requires forall c :: c in s.challenges ==>
      t.challenges[c].user == s.challenges[c].user && t.challenges[c].createdAt == s.challenges[c].createdAt
    ensures |ClosedHour(t, u, from)|
         == |ClosedHour(s, u, from)| + if from <= started <= from + ISSUE_WINDOW then 1 else 0
  {
    var joined: set<ChallengeId> := if from <= started <= from + ISSUE_WINDOW then {id} else {};
    forall c ensures c in ClosedHour(t, u, from) <==> c in ClosedHour(s, u, from) + joined {
      if c in s.challenges {
        assert c in t.challenges;
      }
    }
    assert ClosedHour(t, u, from) == ClosedHour(s, u, from) + joined;
  }

  /** The new row joins exactly the hours around its creation time. */
  lemma CommitJoinsHour(s: State, r: RequestId, from: int)
    requires r in s.requests && s.requests[r].phase.EnrollUpserted? && s.requests[r].phase.id !in s.challenges
    ensures var u, p := s.requests[r].user, s.requests[r].phase;
            |ClosedHour(CommitEnrollment(s, r), u, from)|
            == |ClosedHour(s, u, from)| + if from <= p.started <= from + ISSUE_WINDOW then 1 else 0
  {
    var u, p := s.requests[r].user, s.requests[r].phase;
    HourOfTables(s, CommitEnrollment(s, r), u, p.id, p.started, from);
  }

  lemma LaterHourFits(s: State, u: UserId, started: int, from: int)
    requires |IssuedSince(s, u, started - ISSUE_WINDOW)| < ISSUE_LIMIT && from > started - ISSUE_WINDOW
    ensures |ClosedHour(s, u, from)| < ISSUE_LIMIT
  {
    SubsetSize(ClosedHour(s, u, from), IssuedSince(s, u, started - ISSUE_WINDOW));
  }

  lemma CommitKeepsClosedCapIff(s: State, r: RequestId)
    requires CountsStand(s) && r in s.requests && s.requests[r].phase.EnrollUpserted?
    requires s.requests[r].phase.id !in s.challenges && ClosedCap(s, s.requests[r].user)
    ensures var u, started := s.requests[r].user, s.requests[r].phase.started;
            ClosedCap(CommitEnrollment(s, r), u) <==> |ClosedHour(s, u, started - ISSUE_WINDOW)| < ISSUE_LIMIT
  {
    var t, u, started := CommitEnrollment(s, r), s.requests[r].user, s.requests[r].phase.started;
    var last := started - ISSUE_WINDOW;
    CommitJoinsHour(s, r, last);
    if |ClosedHour(s, u, last)| < ISSUE_LIMIT {
      forall from ensures |ClosedHour(t, u, from)| <= ISSUE_LIMIT {
        CommitJoinsHour(s, r, from);
        if last < from { LaterHourFits(s, u, started, from); }
      }
    }
  }

  // ---- A run that reaches the bound

  function EnrollSteps(r: RequestId, u: UserId, started: int, id: ChallengeId): seq<Step> {
    [BeginEnroll(r, u, started), TakeUserLock(r), CheckInactive(r), CountIssued(r), InvalidateOpen(r),
     InsertChallenge(r, id, "code"), UpsertSecret(r, "secret"), CommitEnroll(r)]
  }

  lemma RunStep(env: Env, s: State, steps: seq<Step>, n: nat)
    requires n < |steps|
    ensures Run(env, s, steps[n..]) == Run(env, Next(env, s, steps[n]), steps[n + 1..])
  {
    assert steps[n..][1..] == steps[n + 1..];
  }

  lemma {:induction false} RunConcat(env: Env, s: State, a: seq<Step>, b: seq<Step>)
    ensures Run(env, s, a + b) == Run(env, Run(env, s, a), b)
    decreases |a|
  {
    if a == [] {
      assert a + b == b;
    } else {
      assert (a + b)[0] == a[0] && (a + b)[1..] == a[1..] + b;
      RunConcat(env, Next(env, s, a[0]), a[1..], b);
    }
  }

  lemma RunVia(env: Env, s: State, step: Step, t: State, steps: seq<Step>, n: nat)
    requires n < |steps| && steps[n] == step && Next(env, s, step) == t
    ensures Run(env, s, steps[n..]) == Run(env, t, steps[n + 1..])
  {
    RunStep(env, s, steps, n);
  }

  ghost predicate CanEnroll(s: State, r: RequestId, u: UserId, started: int, id: ChallengeId) {
    && r !in s.requests && u !in s.locks && id !in s.challenges && !Enabled(s, u)
    && |IssuedSince(s, u, started - ISSUE_WINDOW)| < ISSUE_LIMIT
  }

  lemma LockStep(env: Env, s: State, r: RequestId, u: UserId, started: int)
    requires r !in s.requests && u !in s.locks
    ensures Next(env, BeginEnrollment(s, r, u, started), TakeUserLock(r)) == Holding(s, r, u, EnrollLocked(started))
  {}

  lemma CheckStep(env: Env, s: State, r: RequestId, u: UserId, started: int)
    requires u !in s.locks && !Enabled(s, u)
    ensures Next(env, Holding(s, r, u, EnrollLocked(started)), CheckInactive(r))
         == Holding(s, r, u, EnrollCleared(started))
  {}

  lemma CountStep(env: Env, s: State, r: RequestId, u: UserId, started: int)
    requires u !in s.locks && |IssuedSince(s, u, started - ISSUE_WINDOW)| < ISSUE_LIMIT
    ensures Next(env, Holding(s, r, u, EnrollCleared(started)), CountIssued(r))
         == Holding(s, r, u, EnrollCounted(started))
  {
    var s3 := Holding(s, r, u, EnrollCleared(started));
    assert IssuedSince(s3, u, started - ISSUE_WINDOW) == IssuedSince(s, u, started - ISSUE_WINDOW);
  }

  lemma InvalidateStep(env: Env, s: State, r: RequestId, u: UserId, started: int)
    requires u !in s.locks
    ensures Next(env, Holding(s, r, u, EnrollCounted(started)), InvalidateOpen(r))
         == Holding(s, r, u, EnrollInvalidated(started, s.clock, OpenFor(s, u, s.clock)))
  {
    var s4 := Holding(s, r, u, EnrollCounted(started));
    assert OpenFor(s4, u, s4.clock) == OpenFor(s, u, s.clock);
  }

  lemma InsertStep(env: Env, s: State, r: RequestId, u: UserId, started: int, closed: set<ChallengeId>,
                   id: ChallengeId)
    requires u !in s.locks && id !in s.challenges
    ensures Next(env, Holding(s, r, u, EnrollInvalidated(started, s.clock, closed)), InsertChallenge(r, id, "code"))
         == Holding(s, r, u, EnrollInserted(started, s.clock, closed, id, env.mac("code")))
  {}

  lemma StoreStep(env: Env, s: State, r: RequestId, u: UserId, started: int, closed: set<ChallengeId>, id: ChallengeId,
                  hash: Digest)
    requires u !in s.locks
    ensures Next(env, Holding(s, r, u, EnrollInserted(started, s.clock, closed, id, hash)), UpsertSecret(r, "secret"))
         == Holding(s, r, u, EnrollUpserted(started, s.clock, closed, id, hash, "secret"))
  {}

  lemma CommitStep(env: Env, s: State, r: RequestId, u: UserId, p: Phase)
    requires u !in s.locks && p.EnrollUpserted? && p.id !in s.challenges
    ensures Next(env, Holding(s, r, u, p), CommitEnroll(r)) == Ended(EnrollTables(s, r, u, p), r, u, Ok)
  {
    assert EnrollTables(Holding(s, r, u, p), r, u, p) == Holding(EnrollTables(s, r, u, p), r, u, p);
    FinishHolding(EnrollTables(s, r, u, p), r, u, p, Ok);
  }

  lemma LockFirst(env: Env, s: State, r: RequestId, u: UserId, started: int, id: ChallengeId)
    requires CanEnroll(s, r, u, started, id)
    ensures var es := EnrollSteps(r, u, started, id);
            Run(env, s, es) == Run(env, Holding(s, r, u, EnrollLocked(started)), es[2..])
  {
    var es := EnrollSteps(r, u, started, id);
    assert es[0..] == es;
    RunStep(env, s, es, 0);
    LockStep(env, s, r, u, started);
    RunVia(env, BeginEnrollment(s, r, u, started), TakeUserLock(r), Holding(s, r, u, EnrollLocked(started)), es, 1);
  }

  lemma CheckNext(env: Env, s: State, r: RequestId, u: UserId, started: int, id: ChallengeId)
    requires CanEnroll(s, r, u, started, id)
    ensures var es := EnrollSteps(r, u, started, id);
            Run(env, Holding(s, r, u, EnrollLocked(started)), es[2..])
            == Run(env, Holding(s, r, u, EnrollCleared(started)), es[3..])
  {
    var es, s2 := EnrollSteps(r, u, started, id), Holding(s, r, u, EnrollLocked(started));
    CheckStep(env, s, r, u, started);
    RunVia(env, s2, CheckInactive(r), Holding(s, r, u, EnrollCleared(started)), es, 2);
  }

  lemma CountNext(env: Env, s: State, r: RequestId, u: UserId, started: int, id: ChallengeId)
    requires CanEnroll(s, r, u, started, id)
    ensures var es := EnrollSteps(r, u, started, id);
            Run(env, Holding(s, r, u, EnrollCleared(started)), es[3..])
            == Run(env, Holding(s, r, u, EnrollCounted(started)), es[4..])
  {
    var es, s3 := EnrollSteps(r, u, started, id), Holding(s, r, u, EnrollCleared(started));
    CountStep(env, s, r, u, started);
    RunVia(env, s3, CountIssued(r), Holding(s, r, u, EnrollCounted(started)), es, 3);
  }

  lemma InvalidateNext(env: Env, s: State, r: RequestId, u: UserId, started: int, id: ChallengeId)
    requires CanEnroll(s, r, u, started, id)
    ensures var es := EnrollSteps(r, u, started, id);
            Run(env, Holding(s, r, u, EnrollCounted(started)), es[4..])
            == Run(env, Holding(s, r, u, EnrollInvalidated(started, s.clock, OpenFor(s, u, s.clock))), es[5..])
  {
    var es, s4 := EnrollSteps(r, u, started, id), Holding(s, r, u, EnrollCounted(started));
    InvalidateStep(env, s, r, u, started);
    RunVia(env, s4, InvalidateOpen(r),
           Holding(s, r, u, EnrollInvalidated(started, s.clock, OpenFor(s, u, s.clock))), es, 4);
  }

  lemma InsertNext(env: Env, s: State, r: RequestId, u: UserId, started: int, id: ChallengeId)
    requires CanEnroll(s, r, u, started, id)
    ensures var es := EnrollSteps(r, u, started, id);
            var closed := OpenFor(s, u, s.clock);
            Run(env, Holding(s, r, u, EnrollInvalidated(started, s.clock, closed)), es[5..])
            == Run(env, Holding(s, r, u, EnrollInserted(started, s.clock, closed, id, env.mac("code"))), es[6..])
  {
    var es, closed := EnrollSteps(r, u, started, id), OpenFor(s, u, s.clock);
    var s5 := Holding(s, r, u, EnrollInvalidated(started, s.clock, closed));
    InsertStep(env, s, r, u, started, closed, id);
    RunVia(env, s5, InsertChallenge(r, id, "code"),
           Holding(s, r, u, EnrollInserted(started, s.clock, closed, id, env.mac("code"))), es, 5);
  }

  lemma StoreNext(env: Env, s: State, r: RequestId, u: UserId, started: int, id: ChallengeId)
    requires CanEnroll(s, r, u, started, id)
    ensures var es := EnrollSteps(r, u, started, id);
            var closed, hash := OpenFor(s, u, s.clock), env.mac("code");
            Run(env, Holding(s, r, u, EnrollInserted(started, s.clock, closed, id, hash)), es[6..])
            == Run(env, Holding(s, r, u, EnrollUpserted(started, s.clock, closed, id, hash, "secret")), es[7..])
  {
    var es, closed := EnrollSteps(r, u, started, id), OpenFor(s, u, s.clock);
    var s6 := Holding(s, r, u, EnrollInserted(started, s.clock, closed, id, env.mac("code")));
    StoreStep(env, s, r, u, started, closed, id, env.mac("code"));
    RunVia(env, s6, UpsertSecret(r, "secret"),
           Holding(s, r, u, EnrollUpserted(started, s.clock, closed, id, env.mac("code"), "secret")), es, 6);
  }

  lemma CommitLast(env: Env, s: State, r: RequestId, u: UserId, started: int, id: ChallengeId)
    requires CanEnroll(s, r, u, started, id)
    ensures var es := EnrollSteps(r, u, started, id);
            var p := EnrollUpserted(started, s.clock, OpenFor(s, u, s.clock), id, env.mac("code"), "secret");
            Run(env, Holding(s, r, u, p), es[7..]) == Ended(EnrollTables(s, r, u, p), r, u, Ok)
  {
    var es := EnrollSteps(r, u, started, id);
    var p := EnrollUpserted(started, s.clock, OpenFor(s, u, s.clock), id, env.mac("code"), "secret");
    CommitStep(env, s, r, u, p);
    RunVia(env, Holding(s, r, u, p), CommitEnroll(r), Ended(EnrollTables(s, r, u, p), r, u, Ok), es, 7);
    assert es[8..] == [];
  }

  /** An enrollment that nothing interrupts, as a run of its eight statements. */
  lemma EnrollRun(env: Env, s: State, r: RequestId, u: UserId, started: int, id: ChallengeId)
    requires CanEnroll(s, r, u, started, id)
    ensures var p := EnrollUpserted(started, s.clock, OpenFor(s, u, s.clock), id, env.mac("code"), "secret");
            Run(env, s, EnrollSteps(r, u, started, id)) == Ended(EnrollTables(s, r, u, p), r, u, Ok)
  {
    LockFirst(env, s, r, u, started, id);
    CheckNext(env, s, r, u, started, id);
    CountNext(env, s, r, u, started, id);
    InvalidateNext(env, s, r, u, started, id);
    InsertNext(env, s, r, u, started, id);
    StoreNext(env, s, r, u, started, id);
    CommitLast(env, s, r, u, started, id);
  }

  /** The n-th of ten enrollments: five at time 0, five exactly an hour later. */
  function StartOf(n: nat): int {
    if n < ISSUE_LIMIT then 0 else ISSUE_WINDOW
  }

  function Blocks(u: UserId, n: nat): (blocks: seq<seq<Step>>)
    ensures |blocks| == n
  {
    if n == 0 then [] else Blocks(u, n - 1) + [EnrollSteps(n - 1, u, StartOf(n - 1), n - 1)]
  }

  function Concat(blocks: seq<seq<Step>>): seq<Step> {
    if blocks == [] then [] else Concat(blocks[..|blocks| - 1]) + blocks[|blocks| - 1]
  }

  function Enrollments(u: UserId, n: nat): seq<Step> {
    Concat(Blocks(u, n))
  }

  ghost predicate Holds(s: State, u: UserId, n: nat) {
    && s.locks == map[] && !Enabled(s, u)
    && (forall r :: r >= n ==> r !in s.requests)
    && (forall c :: c in s.challenges <==> 0 <= c < n)
    && (forall c :: c in s.challenges ==> s.challenges[c].user == u && s.challenges[c].createdAt == StartOf(c))
  }

  function Between(a: nat, b: nat): (cs: set<ChallengeId>)
    requires a <= b
    ensures |cs| == b - a && forall c :: c in cs <==> a <= c < b
  {
    if a == b then {} else Between(a, b - 1) + {b - 1}
  }

  lemma FewBelow(s: State, u: UserId, n: nat)
    requires Holds(s, u, n) && n < ISSUE_LIMIT
    ensures |IssuedSince(s, u, -ISSUE_WINDOW)| < ISSUE_LIMIT
  {
    SubsetSize(IssuedSince(s, u, -ISSUE_WINDOW), Between(0, n));
  }

  lemma FewSinceZero(s: State, u: UserId, n: nat)
    requires Holds(s, u, n) && ISSUE_LIMIT <= n < 2 * ISSUE_LIMIT
    ensures |IssuedSince(s, u, 0)| < ISSUE_LIMIT
  {
    SubsetSize(IssuedSince(s, u, 0), Between(ISSUE_LIMIT, n));
  }

  lemma HoldsNext(env: Env, s: State, u: UserId, n: nat)
    requires Holds(s, u, n)
    ensures var p := EnrollUpserted(StartOf(n), s.clock, OpenFor(s, u, s.clock), n, env.mac("code"), "secret");
            Holds(Ended(EnrollTables(s, n, u, p), n, u, Ok), u, n + 1)
  {}

  lemma NextEnrollment(env: Env, s: State, u: UserId, n: nat, steps: seq<Step>)
    requires Holds(s, u, n) && n < 2 * ISSUE_LIMIT && steps == EnrollSteps(n, u, StartOf(n), n)
    ensures Holds(Run(env, s, steps), u, n + 1)
  {
    if n < ISSUE_LIMIT { FewBelow(s, u, n); } else { FewSinceZero(s, u, n); }
    EnrollRun(env, s, n, u, StartOf(n), n);
    HoldsNext(env, s, u, n);
  }

  /** One block of steps after the other. */
  ghost function RunBlocks(env: Env, s: State, blocks: seq<seq<Step>>): State {
    if blocks == [] then s else Run(env, RunBlocks(env, s, blocks[..|blocks| - 1]), blocks[|blocks| - 1])
  }

  lemma {:induction false} BlocksAreRun(env: Env, s: State, blocks: seq<seq<Step>>)
    ensures Run(env, s, Concat(blocks)) == RunBlocks(env, s, blocks)
  {
    if blocks != [] {
      BlocksAreRun(env, s, blocks[..|blocks| - 1]);
      RunConcat(env, s, Concat(blocks[..|blocks| - 1]), blocks[|blocks| - 1]);
    }
  }

  lemma {:induction false} EnrollmentsHold(env: Env, s: State, u: UserId, n: nat)
    requires Holds(s, u, 0) && n <= 2 * ISSUE_LIMIT
    ensures Holds(RunBlocks(env, s, Blocks(u, n)), u, n)
  {
    if n > 0 {
      EnrollmentsHold(env, s, u, n - 1);
      var blocks := Blocks(u, n);
      assert blocks[..n - 1] == Blocks(u, n - 1);
      NextEnrollment(env, RunBlocks(env, s, blocks[..n - 1]), u, n - 1, blocks[n - 1]);
    }
  }

  /** The bound of ten is reached, and the first five of these enrollments still
      keep the cap that the sixth breaks: an hour with both end points holds
      six, and in the end ten. */
  lemma ClosedHourReached(env: Env, u: UserId)
    ensures |ClosedHour(Run(env, Init(), Enrollments(u, ISSUE_LIMIT)), u, 0)| == ISSUE_LIMIT
    ensures |ClosedHour(Run(env, Init(), Enrollments(u, ISSUE_LIMIT + 1)), u, 0)| == ISSUE_LIMIT + 1
    ensures |ClosedHour(Run(env, Init(), Enrollments(u, 2 * ISSUE_LIMIT)), u, 0)| == 2 * ISSUE_LIMIT
  {
    AllInOneHour(env, u, ISSUE_LIMIT);
    AllInOneHour(env, u, ISSUE_LIMIT + 1);
    AllInOneHour(env, u, 2 * ISSUE_LIMIT);
  }

  lemma HourIsBetween(s: State, u: UserId, n: nat)
    requires Holds(s, u, n)
    ensures |ClosedHour(s, u, 0)| == n
  {
    assert ClosedHour(s, u, 0) == Between(0, n);
  }

  lemma AllInOneHour(env: Env, u: UserId, n: nat)
    requires n <= 2 * ISSUE_LIMIT
    ensures |ClosedHour(Run(env, Init(), Enrollments(u, n)), u, 0)| == n
  {
    EnrollmentsHold(env, Init(), u, n);
    BlocksAreRun(env, Init(), Blocks(u, n));
    HourIsBetween(RunBlocks(env, Init(), Blocks(u, n)), u, n);
  }
}
