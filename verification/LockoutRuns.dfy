/** The lockout service under concurrent calls: the counter is locked for one
    operation at a time, so calls interleave between their operations. */
module LockoutRuns {
  import opened AttemptCounter
  import opened Lockout
  import opened LockoutParity

  type CallId = int

  /** `known` is the caller's own existence check. */
  datatype Attempt = Attempt(digest: string, ip: string, known: bool)

  /** How far a RecordFailure or an IsLocked has come. */
  datatype Phase =
    | Started(a: Attempt)
    | EmailCounted(a: Attempt, emailCount: nat)
    | BothCounted(a: Attempt, emailCount: nat, ipCount: nat)
    | EmailEscalated(a: Attempt, emailCount: nat, ipCount: nat, block: int)
    | Decided(a: Attempt, result: Result)
    | Recorded(result: Result)
    | Checking(digest: string, ip: string)
    | EmailChecked(digest: string, ip: string)
    | Answered(locked: bool)

  /** A lock cycle as `call` started it for `key`, and a mailed alert. */
  datatype Cycle = Cycle(call: CallId, key: Key, at: int, block: int)

  datatype Alert = Alert(digest: string, at: int)

  /** `clock` is the last reading of the counter's clock. */
  datatype State = State(clock: int, logs: Logs, calls: map<CallId, Phase>, cycles: seq<Cycle>, alerts: seq<Alert>)

  datatype Event =
    | Fails(call: CallId, a: Attempt)
    | Checks(call: CallId, digest: string, ip: string)
    | Succeeds(digest: string)
    | Step(call: CallId, now: int)

  function Init(clock: int): State {
    State(clock, map[], map[], [], [])
  }

  function Operate(s: State, op: Op, now: int): State {
    s.(logs := Apply(s.logs, op), clock := now)
  }

  function Move(s: State, r: CallId, p: Phase): State {
    s.(calls := s.calls[r := p])
  }

  function FailOp(key: Key, now: int): Op { Op.Fail(key, now, WINDOW) }

  function CountOp(key: Key, now: int): Op { Op.Count(key, now, WINDOW) }

  function CountEmailIn(s: State, r: CallId, a: Attempt, now: int): State {
    var op := FailOp(EmailKey(a.digest), now);
    Move(Operate(s, op, now), r, EmailCounted(a, Answer(s.logs, op)))
  }

  function CountIPIn(s: State, r: CallId, a: Attempt, emailCount: nat, now: int): State {
    var op := FailOp(IPKey(a.ip), now);
    Move(Operate(s, op, now), r, BothCounted(a, emailCount, Answer(s.logs, op)))
  }

  /** An operation only for the attempt that reached the threshold. */
  function EscalatedAt(s: State, r: CallId, key: Key, count: nat, now: int): (State, int) {
    if count != THRESHOLD then (s.(clock := now), 0)
    else
      var (logs, block) := Escalation(s.logs, key, now);
      (s.(logs := logs, clock := now, cycles := s.cycles + [Cycle(r, key, now, block)]), block)
  }

  function EscalateEmailIn(s: State, r: CallId, a: Attempt, emailCount: nat, ipCount: nat, now: int): State {
    var (t, block) := EscalatedAt(s, r, EmailKey(a.digest), emailCount, now);
    Move(t, r, EmailEscalated(a, emailCount, ipCount, block))
  }

  function EscalateIPIn(s: State, r: CallId, p: Phase, now: int): State
    requires p.EmailEscalated?
  {
    var (t, block) := EscalatedAt(s, r, IPKey(p.a.ip), p.ipCount, now);
    Move(t, r, Decided(p.a, Result(p.emailCount >= THRESHOLD, p.ipCount >= THRESHOLD,
                                   if block > p.block then block else p.block)))
  }

  function AlertIn(s: State, r: CallId, a: Attempt, result: Result, now: int): State {
    if !(result.Locked() && a.known) then Move(s.(clock := now), r, Recorded(result))
    else
      var (logs, mailed) := TryAlert(s.logs, a.digest, now);
      Move(s.(logs := logs, clock := now, alerts := if mailed then s.alerts + [Alert(a.digest, now)] else s.alerts),
           r, Recorded(result))
  }

  function CheckEmailIn(s: State, r: CallId, digest: string, ip: string, now: int): State {
    var op := CountOp(EmailKey(digest), now);
    Move(Operate(s, op, now), r,
         if Answer(s.logs, op) >= THRESHOLD then Answered(true) else EmailChecked(digest, ip))
  }

  function CheckIPIn(s: State, r: CallId, ip: string, now: int): State {
    var op := CountOp(IPKey(ip), now);
    Move(Operate(s, op, now), r, Answered(Answer(s.logs, op) >= THRESHOLD))
  }

  /** The next operation of a call; the clock does not go back. */
  function StepIn(s: State, r: CallId, now: int): State {
    if r !in s.calls || now < s.clock then s
    else match s.calls[r]
      case Started(a) => CountEmailIn(s, r, a, now)
      case EmailCounted(a, n) => CountIPIn(s, r, a, n, now)
      case BothCounted(a, n, k) => EscalateEmailIn(s, r, a, n, k, now)
      case EmailEscalated(_, _, _, _) => EscalateIPIn(s, r, s.calls[r], now)
      case Decided(a, result) => AlertIn(s, r, a, result, now)
      case Checking(digest, ip) => CheckEmailIn(s, r, digest, ip, now)
      case EmailChecked(_, ip) => CheckIPIn(s, r, ip, now)
      case _ => s
  }

  function Next(s: State, e: Event): State {
    match e
    case Fails(r, a) => if r in s.calls then s else Move(s, r, Started(a))
    case Checks(r, digest, ip) => if r in s.calls then s else Move(s, r, Checking(digest, ip))
    case Succeeds(digest) => s.(logs := Apply(s.logs, Op.Reset(EmailKey(digest))))
    case Step(r, now) => StepIn(s, r, now)
  }

  function Run(s: State, events: seq<Event>): State
    decreases |events|
  {
    if events == [] then s else Run(Next(s, events[0]), events[1..])
  }

  // ---- A call that nothing interrupts

  function Steps(s: State, r: CallId, now: int, n: nat): State {
    if n == 0 then s else StepIn(Steps(s, r, now, n - 1), r, now)
  }

  lemma TwoSteps(s: State, r: CallId, now: int, n: nat)
    ensures Steps(s, r, now, n + 2) == StepIn(StepIn(Steps(s, r, now, n), r, now), r, now)
  {
    assert Steps(s, r, now, n + 1) == StepIn(Steps(s, r, now, n), r, now);
  }

  lemma CountsInTwoSteps(s: State, r: CallId, a: Attempt, now: int)
    requires r in s.calls && s.calls[r] == Started(a) && now >= s.clock
    ensures var (l1, n) := Failing(s.logs, EmailKey(a.digest), now);
            var (l2, k) := Failing(l1, IPKey(a.ip), now);
            StepIn(StepIn(s, r, now), r, now)
            == s.(logs := l2, clock := now, calls := s.calls[r := BothCounted(a, n, k)])
  {
    var t := StepIn(s, r, now);
    var n := Answer(s.logs, FailOp(EmailKey(a.digest), now));
    assert t == CountEmailIn(s, r, a, now) && StepIn(t, r, now) == CountIPIn(t, r, a, n, now);
    var k := Answer(t.logs, FailOp(IPKey(a.ip), now));
    assert t.calls[r := BothCounted(a, n, k)] == s.calls[r := BothCounted(a, n, k)];
  }

  function Outcome(n: nat, k: nat, byEmail: int, byIP: int): Result {
    Result(n >= THRESHOLD, k >= THRESHOLD, if byIP > byEmail then byIP else byEmail)
  }

  lemma EscalatesInTwoSteps(s: State, r: CallId, a: Attempt, n: nat, k: nat, now: int)
    requires r in s.calls && s.calls[r] == BothCounted(a, n, k) && now >= s.clock
    ensures var (l3, byEmail) := EscalateAt(s.logs, EmailKey(a.digest), n, now);
            var (l4, byIP) := EscalateAt(l3, IPKey(a.ip), k, now);
            var t := StepIn(StepIn(s, r, now), r, now);
            && t.logs == l4 && t.clock == now && t.alerts == s.alerts
            && t.calls == s.calls[r := Decided(a, Outcome(n, k, byEmail, byIP))]
  {
    var t := StepIn(s, r, now);
    assert t == EscalateEmailIn(s, r, a, n, k, now) && StepIn(t, r, now) == EscalateIPIn(t, r, t.calls[r], now);
    var u := EscalateIPIn(t, r, t.calls[r], now);
    assert u.calls == s.calls[r := u.calls[r]];
  }

  lemma AlertsInOneStep(s: State, r: CallId, a: Attempt, result: Result, now: int)
    requires r in s.calls && s.calls[r] == Decided(a, result) && now >= s.clock
    ensures var t := StepIn(s, r, now);
            var (logs, mailed) := if result.Locked() && a.known then TryAlert(s.logs, a.digest, now)
                                  else (s.logs, false);
            && t.logs == logs && t.calls == s.calls[r := Recorded(result)]
            && t.alerts == if mailed then s.alerts + [Alert(a.digest, now)] else s.alerts
  {}

  lemma AttemptInFive(s: State, r: CallId, a: Attempt, now: int)
    requires r in s.calls && s.calls[r] == Started(a) && now >= s.clock
    ensures var t := Steps(s, r, now, 5);
            var (logs, result, mailed) := Recording(s.logs, a.digest, a.ip, a.known, now);
            && t.logs == logs && t.calls == s.calls[r := Recorded(result)]
            && t.alerts == if mailed then s.alerts + [Alert(a.digest, now)] else s.alerts
  {
    var (l1, n) := Failing(s.logs, EmailKey(a.digest), now);
    var (l2, k) := Failing(l1, IPKey(a.ip), now);
    var s2 := s.(logs := l2, clock := now, calls := s.calls[r := BothCounted(a, n, k)]);
    TwoSteps(s, r, now, 0);
    CountsInTwoSteps(s, r, a, now);
    TwoSteps(s, r, now, 2);
    EscalatesInTwoSteps(s2, r, a, n, k, now);
    DecidedAndAlerted(s, s2, Steps(s, r, now, 4), r, a, n, k, now);
  }

  lemma DecidedAndAlerted(s: State, s2: State, s4: State, r: CallId, a: Attempt, n: nat, k: nat, now: int)
    requires var (l1, n') := Failing(s.logs, EmailKey(a.digest), now);
             var (l2, k') := Failing(l1, IPKey(a.ip), now);
             n == n' && k == k' && s2.logs == l2
    requires s2.calls == s.calls[r := BothCounted(a, n, k)] && s2.alerts == s.alerts
    requires var (l3, byEmail) := EscalateAt(s2.logs, EmailKey(a.digest), n, now);
             var (l4, byIP) := EscalateAt(l3, IPKey(a.ip), k, now);
             && s4.logs == l4 && s4.clock == now && s4.alerts == s.alerts
             && s4.calls == s2.calls[r := Decided(a, Outcome(n, k, byEmail, byIP))]
    ensures var t := StepIn(s4, r, now);
            var (logs, result, mailed) := Recording(s.logs, a.digest, a.ip, a.known, now);
            && t.logs == logs && t.calls == s.calls[r := Recorded(result)]
            && t.alerts == if mailed then s.alerts + [Alert(a.digest, now)] else s.alerts
  {
    var result := s4.calls[r].result;
    assert CountFailure(s.logs, a.digest, a.ip, now) == (s4.logs, result);
    AlertsInOneStep(s4, r, a, result, now);
    assert s4.calls[r := Recorded(result)] == s.calls[r := Recorded(result)];
  }

  lemma EmailCheckDecides(s: State, r: CallId, digest: string, ip: string, now: int)
    requires r in s.calls && s.calls[r] == Checking(digest, ip) && now >= s.clock
    ensures var (logs, n) := Counting(s.logs, EmailKey(digest), now);
            StepIn(s, r, now) == s.(logs := logs, clock := now,
              calls := s.calls[r := if n >= THRESHOLD then Answered(true) else EmailChecked(digest, ip)])
  {}

  lemma IPCheckDecides(s: State, r: CallId, digest: string, ip: string, now: int)
    requires r in s.calls && s.calls[r] == EmailChecked(digest, ip) && now >= s.clock
    ensures var (logs, n) := Counting(s.logs, IPKey(ip), now);
            StepIn(s, r, now) == s.(logs := logs, clock := now, calls := s.calls[r := Answered(n >= THRESHOLD)])
  {}

  lemma ChecksApart(logs: Logs, digest: string, ip: string, now: int)
    ensures var (l, n) := Counting(logs, EmailKey(digest), now);
            && Counting(l, IPKey(ip), now).1 == Counting(logs, IPKey(ip), now).1
            && LockedNow(logs, digest, ip, now) == (n >= THRESHOLD || Counting(l, IPKey(ip), now).1 >= THRESHOLD)
            && Checked(logs, digest, ip, now) == if n >= THRESHOLD then l else Counting(l, IPKey(ip), now).0
  {
    KeysApart(digest, ip);
  }

  lemma CheckInTwo(s: State, r: CallId, digest: string, ip: string, now: int)
    requires r in s.calls && s.calls[r] == Checking(digest, ip) && now >= s.clock
    ensures var t := Steps(s, r, now, 2);
            && t.logs == Checked(s.logs, digest, ip, now)
            && t.calls == s.calls[r := Answered(LockedNow(s.logs, digest, ip, now))]
  {
    TwoSteps(s, r, now, 0);
    EmailCheckDecides(s, r, digest, ip, now);
    ChecksApart(s.logs, digest, ip, now);
    var t := StepIn(s, r, now);
    if t.calls[r] == EmailChecked(digest, ip) {
      IPCheckDecides(t, r, digest, ip, now);
      assert StepIn(t, r, now).calls == s.calls[r := StepIn(t, r, now).calls[r]];
    }
  }

  function Repeated(r: CallId, now: int, n: nat): seq<Event> {
    if n == 0 then [] else Repeated(r, now, n - 1) + [Step(r, now)]
  }

  lemma {:induction false} RunAppend(s: State, events: seq<Event>, e: Event)
    ensures Run(s, events + [e]) == Next(Run(s, events), e)
    decreases |events|
  {
    if events == [] {
      assert [e][1..] == [];
    } else {
      assert (events + [e])[0] == events[0] && (events + [e])[1..] == events[1..] + [e];
      RunAppend(Next(s, events[0]), events[1..], e);
    }
  }

  lemma {:induction false} RepeatedRuns(s: State, r: CallId, now: int, n: nat)
    ensures Run(s, Repeated(r, now, n)) == Steps(s, r, now, n)
  {
    if n > 0 {
      RepeatedRuns(s, r, now, n - 1);
      RunAppend(s, Repeated(r, now, n - 1), Step(r, now));
    }
  }

  lemma CallRuns(s: State, e: Event, r: CallId, now: int, n: nat)
    ensures Run(s, [e] + Repeated(r, now, n)) == Steps(Next(s, e), r, now, n)
  {
    assert ([e] + Repeated(r, now, n))[1..] == Repeated(r, now, n);
    RepeatedRuns(Next(s, e), r, now, n);
  }

  /** An attempt and its five steps in a row are the service's RecordFailure: the
      same counters, the same result, and an alert exactly when it mails one. */
  lemma AttemptIsItsSteps(s: State, r: CallId, a: Attempt, now: int)
    requires r !in s.calls && now >= s.clock
    ensures var t := Run(s, [Fails(r, a)] + Repeated(r, now, 5));
            var (logs, result, mailed) := Recording(s.logs, a.digest, a.ip, a.known, now);
            && t.logs == logs && t.calls == s.calls[r := Recorded(result)]
            && t.alerts == if mailed then s.alerts + [Alert(a.digest, now)] else s.alerts
  {
    CallRuns(s, Fails(r, a), r, now, 5);
    var t := Move(s, r, Started(a));
    AttemptInFive(t, r, a, now);
    var end := Steps(t, r, now, 5).calls[r];
    assert t.calls[r := end] == s.calls[r := end];
  }

  /** And a check and two steps at most are its IsLocked. */
  lemma CheckIsItsSteps(s: State, r: CallId, digest: string, ip: string, now: int)
    requires r !in s.calls && now >= s.clock
    ensures var t := Run(s, [Checks(r, digest, ip)] + Repeated(r, now, 2));
            && t.logs == Checked(s.logs, digest, ip, now)
            && t.calls == s.calls[r := Answered(LockedNow(s.logs, digest, ip, now))]
  {
    CallRuns(s, Checks(r, digest, ip), r, now, 2);
    var t := Move(s, r, Checking(digest, ip));
    CheckInTwo(t, r, digest, ip, now);
    var end := Steps(t, r, now, 2).calls[r];
    assert t.calls[r := end] == s.calls[r := end];
  }

  // ---- Existence

  /** Everything a call stands on but whether its address has an account. */
  function Blind(p: Phase): Phase {
    match p
    case Started(a) => Started(a.(known := false))
    case EmailCounted(a, n) => EmailCounted(a.(known := false), n)
    case BothCounted(a, n, k) => BothCounted(a.(known := false), n, k)
    case EmailEscalated(a, n, k, block) => EmailEscalated(a.(known := false), n, k, block)
    case Decided(a, result) => Decided(a.(known := false), result)
    case _ => p
  }

  ghost predicate SameBlind(s: State, t: State) {
    && s.clock == t.clock && Alike(s.logs, t.logs) && s.cycles == t.cycles && s.calls.Keys == t.calls.Keys
    && forall r :: r in s.calls ==> Blind(s.calls[r]) == Blind(t.calls[r])
  }

  predicate SameButKnown(e: Event, f: Event) {
    if e.Fails? then f.Fails? && e.call == f.call && e.a.(known := false) == f.a.(known := false) else e == f
  }

  lemma OperateBlind(s: State, t: State, op: Op, now: int)
    requires SameBlind(s, t) && !IsAlertKey(op.key)
    ensures SameBlind(Operate(s, op, now), Operate(t, op, now)) && Answer(s.logs, op) == Answer(t.logs, op)
  {
    ApplyAlike(s.logs, t.logs, op);
  }

  lemma MoveBlind(s: State, t: State, r: CallId, p: Phase, q: Phase)
    requires SameBlind(s, t) && Blind(p) == Blind(q)
    ensures SameBlind(Move(s, r, p), Move(t, r, q))
  {}

  lemma EscalatedBlind(s: State, t: State, r: CallId, key: Key, count: nat, now: int)
    requires SameBlind(s, t)
    ensures SameBlind(EscalatedAt(s, r, key, count, now).0, EscalatedAt(t, r, key, count, now).0)
    ensures EscalatedAt(s, r, key, count, now).1 == EscalatedAt(t, r, key, count, now).1
  {
    CountingKeysArePlain(key);
    ApplyAlike(s.logs, t.logs, Op.Fail(LockCycleKey(key), now, ESCALATION_DECAY));
  }

  lemma AlertBlind(s: State, t: State, r: CallId, a: Attempt, b: Attempt, result: Result, now: int)
    requires SameBlind(s, t)
    ensures SameBlind(AlertIn(s, r, a, result, now), AlertIn(t, r, b, result, now))
  {
    AlertsAside(s.logs, a.digest, now);
    AlertsAside(t.logs, b.digest, now);
  }

  lemma CountBlind(s: State, t: State, r: CallId, a: Attempt, b: Attempt, n: nat, now: int)
    requires SameBlind(s, t) && a.(known := false) == b.(known := false)
    ensures SameBlind(CountEmailIn(s, r, a, now), CountEmailIn(t, r, b, now))
    ensures SameBlind(CountIPIn(s, r, a, n, now), CountIPIn(t, r, b, n, now))
  {
    CountingKeysArePlain(a.digest);
    CountingKeysArePlain(a.ip);
    var email, address := FailOp(EmailKey(a.digest), now), FailOp(IPKey(a.ip), now);
    OperateBlind(s, t, email, now);
    OperateBlind(s, t, address, now);
    var x, y := Answer(s.logs, email), Answer(s.logs, address);
    MoveBlind(Operate(s, email, now), Operate(t, email, now), r, EmailCounted(a, x), EmailCounted(b, x));
    MoveBlind(Operate(s, address, now), Operate(t, address, now), r, BothCounted(a, n, y), BothCounted(b, n, y));
  }

  lemma CheckBlind(s: State, t: State, r: CallId, digest: string, ip: string, now: int)
    requires SameBlind(s, t)
    ensures SameBlind(CheckEmailIn(s, r, digest, ip, now), CheckEmailIn(t, r, digest, ip, now))
    ensures SameBlind(CheckIPIn(s, r, ip, now), CheckIPIn(t, r, ip, now))
  {
    CountingKeysArePlain(digest);
    CountingKeysArePlain(ip);
    OperateBlind(s, t, CountOp(EmailKey(digest), now), now);
    OperateBlind(s, t, CountOp(IPKey(ip), now), now);
  }

  lemma EscalateBlind(s: State, t: State, r: CallId, p: Phase, q: Phase, now: int)
    requires SameBlind(s, t) && Blind(p) == Blind(q)
    ensures p.BothCounted? ==>
              SameBlind(EscalateEmailIn(s, r, p.a, p.emailCount, p.ipCount, now),
                        EscalateEmailIn(t, r, q.a, q.emailCount, q.ipCount, now))
    ensures p.EmailEscalated? ==> SameBlind(EscalateIPIn(s, r, p, now), EscalateIPIn(t, r, q, now))
  {
    if p.BothCounted? {
      EscalatedBlind(s, t, r, EmailKey(p.a.digest), p.emailCount, now);
    } else if p.EmailEscalated? {
      EscalatedBlind(s, t, r, IPKey(p.a.ip), p.ipCount, now);
    }
  }

  lemma StepBlind(s: State, t: State, r: CallId, now: int)
    requires SameBlind(s, t)
    ensures SameBlind(StepIn(s, r, now), StepIn(t, r, now))
  {
    if r in s.calls && now >= s.clock {
      var p, q := s.calls[r], t.calls[r];
      assert Blind(p) == Blind(q);
      match p
      case Started(a) => CountBlind(s, t, r, a, q.a, 0, now);
      case EmailCounted(a, n) => CountBlind(s, t, r, a, q.a, n, now);
      case BothCounted(_, _, _) => EscalateBlind(s, t, r, p, q, now);
      case EmailEscalated(_, _, _, _) => EscalateBlind(s, t, r, p, q, now);
      case Decided(a, result) => AlertBlind(s, t, r, a, q.a, result, now);
      case Checking(digest, ip) => CheckBlind(s, t, r, digest, ip, now);
      case EmailChecked(digest, ip) => CheckBlind(s, t, r, digest, ip, now);
      case _ =>
    }
  }

  lemma NextBlind(s: State, t: State, e: Event, f: Event)
    requires SameBlind(s, t) && SameButKnown(e, f)
    ensures SameBlind(Next(s, e), Next(t, f))
  {
    match e
    case Fails(r, a) => MoveBlind(s, t, r, Started(a), Started(f.a));
    case Checks(r, digest, ip) => MoveBlind(s, t, r, Checking(digest, ip), Checking(digest, ip));
    case Succeeds(digest) =>
      CountingKeysArePlain(digest);
      ApplyAlike(s.logs, t.logs, Op.Reset(EmailKey(digest)));
    case Step(r, now) => StepBlind(s, t, r, now);
  }

  /** Two runs that differ only in which of the addresses have accounts: at every
      moment every call stands at the same point with the same counts, replies
      and blocks, and the counters differ in alerts only. Counting, locking and
      block lengths are no oracle, however the calls interleave. */
  lemma {:induction false} ExistenceChangesNoReply(s: State, t: State, events: seq<Event>, others: seq<Event>)
    requires SameBlind(s, t) && |events| == |others|
    requires forall i :: 0 <= i < |events| ==> SameButKnown(events[i], others[i])
    ensures SameBlind(Run(s, events), Run(t, others))
    decreases |events|
  {
    if events != [] {
      NextBlind(s, t, events[0], others[0]);
      ExistenceChangesNoReply(Next(s, events[0]), Next(t, others[0]), events[1..], others[1..]);
    }
  }

  // ---- Lock cycles and alerts, told from the counters

  predicate IsCycleKey(key: Key) {
    "auth:lockcycle:" <= key
  }

  lemma KindsOfKeys(text: string)
    ensures !IsCycleKey(EmailKey(text)) && !IsCycleKey(IPKey(text)) && !IsCycleKey(AlertKey(text))
    ensures IsCycleKey(LockCycleKey(text))
  {
    assert EmailKey(text)[5] == 'f' && IPKey(text)[5] == 'f' && AlertKey(text)[9] == 'o';
    assert "auth:lockcycle:"[5] == 'l' && "auth:lockcycle:"[9] == 'c';
  }

  /** When lock cycles of `key` started. */
  function CycleTimes(cycles: seq<Cycle>, key: Key): seq<int> {
    if cycles == [] then []
    else
      var last := cycles[|cycles| - 1];
      CycleTimes(cycles[..|cycles| - 1], key) + (if last.key == key then [last.at] else [])
  }

  lemma CycleTimesSnoc(cycles: seq<Cycle>, c: Cycle, key: Key)
    ensures CycleTimes(cycles + [c], key) == CycleTimes(cycles, key) + (if c.key == key then [c.at] else [])
  {
    assert (cycles + [c])[..|cycles|] == cycles;
  }

  /** 15 minutes after a clean hour, 30 for the second cycle within it, then 60. */
  function Length(times: seq<int>, now: int): int {
    var recent := |After(times, now - ESCALATION_DECAY)|;
    (if recent == 0 then 15 else if recent == 1 then 30 else 60) * MINUTE
  }

  ghost predicate CyclesAgree(s: State) {
    forall key :: Agree(At(s.logs, LockCycleKey(key)), CycleTimes(s.cycles, key), s.clock, ESCALATION_DECAY)
  }

  ghost predicate CyclesSound(cycles: seq<Cycle>) {
    forall n :: 0 <= n < |cycles| ==> cycles[n].block == Length(CycleTimes(cycles[..n], cycles[n].key), cycles[n].at)
  }

  /** An alert is still on its key, or has left the window. */
  ghost predicate AlertKept(s: State, a: Alert) {
    a.at <= s.clock && (a.at in At(s.logs, AlertKey(a.digest)) || a.at <= s.clock - WINDOW)
  }

  ghost predicate AlertsKept(s: State) {
    forall n :: 0 <= n < |s.alerts| ==> AlertKept(s, s.alerts[n])
  }

  ghost predicate Spaced(alerts: seq<Alert>) {
    forall i, j :: 0 <= i < j < |alerts| && alerts[i].digest == alerts[j].digest ==>
      alerts[j].at - alerts[i].at >= WINDOW
  }

  ghost predicate Told(s: State) {
    CyclesAgree(s) && CyclesSound(s.cycles) && AlertsKept(s) && Spaced(s.alerts)
  }

  /** An operation on a key of neither kind. */
  lemma PlainOperation(s: State, op: Op, now: int)
    requires Told(s) && now >= s.clock && !IsCycleKey(op.key) && !IsAlertKey(op.key)
    ensures Told(Operate(s, op, now))
  {
    var t := Operate(s, op, now);
    forall key ensures Agree(At(t.logs, LockCycleKey(key)), CycleTimes(t.cycles, key), now, ESCALATION_DECAY) {
      KindsOfKeys(key);
      assert Agree(At(s.logs, LockCycleKey(key)), CycleTimes(s.cycles, key), s.clock, ESCALATION_DECAY);
    }
    forall n | 0 <= n < |t.alerts| ensures AlertKept(t, t.alerts[n]) {
      CountingKeysArePlain(t.alerts[n].digest);
      assert AlertKept(s, s.alerts[n]);
    }
  }

  /** Nothing but the clock moves. */
  lemma TimePasses(s: State, now: int)
    requires Told(s) && now >= s.clock
    ensures Told(s.(clock := now))
  {
    var t := s.(clock := now);
    forall key ensures Agree(At(t.logs, LockCycleKey(key)), CycleTimes(t.cycles, key), now, ESCALATION_DECAY) {
      assert Agree(At(s.logs, LockCycleKey(key)), CycleTimes(s.cycles, key), s.clock, ESCALATION_DECAY);
    }
    forall n | 0 <= n < |t.alerts| ensures AlertKept(t, t.alerts[n]) {
      assert AlertKept(s, s.alerts[n]);
    }
  }

  lemma EscalationIsDue(s: State, key: Key, now: int)
    requires CyclesAgree(s) && now >= s.clock
    ensures Escalation(s.logs, key, now).1 == Length(CycleTimes(s.cycles, key), now)
  {
    assert Agree(At(s.logs, LockCycleKey(key)), CycleTimes(s.cycles, key), s.clock, ESCALATION_DECAY);
    assert After(At(s.logs, LockCycleKey(key)), now - ESCALATION_DECAY)
        == After(CycleTimes(s.cycles, key), now - ESCALATION_DECAY);
  }

  lemma CycleAgrees(s: State, t: State, c: Cycle, key: Key)
    requires CyclesAgree(s) && c.at >= s.clock && t.clock == c.at && t.cycles == s.cycles + [c]
    requires t.logs == Apply(s.logs, Op.Fail(LockCycleKey(c.key), c.at, ESCALATION_DECAY))
    ensures Agree(At(t.logs, LockCycleKey(key)), CycleTimes(t.cycles, key), t.clock, ESCALATION_DECAY)
  {
    CycleTimesSnoc(s.cycles, c, key);
    KeysApart(c.key, key);
    var log, past := At(s.logs, LockCycleKey(key)), CycleTimes(s.cycles, key);
    assert Agree(log, past, s.clock, ESCALATION_DECAY);
    if key == c.key {
      AgreeFail(log, past, s.clock, ESCALATION_DECAY, c.at);
    } else {
      assert past + [] == past;
    }
  }

  lemma CycleStays(s: State, t: State, c: Cycle)
    requires AlertsKept(s) && c.at >= s.clock && t.clock == c.at && t.alerts == s.alerts
    requires t.logs == Apply(s.logs, Op.Fail(LockCycleKey(c.key), c.at, ESCALATION_DECAY))
    ensures AlertsKept(t)
  {
    forall n | 0 <= n < |t.alerts| ensures AlertKept(t, t.alerts[n]) {
      KeysApart(t.alerts[n].digest, c.key);
      assert AlertKept(s, s.alerts[n]);
    }
  }

  lemma CyclesSoundSnoc(cycles: seq<Cycle>, c: Cycle)
    requires CyclesSound(cycles) && c.block == Length(CycleTimes(cycles, c.key), c.at)
    ensures CyclesSound(cycles + [c])
  {
    var all := cycles + [c];
    forall n | 0 <= n < |all| ensures all[n].block == Length(CycleTimes(all[..n], all[n].key), all[n].at) {
      if n < |cycles| {
        assert all[..n] == cycles[..n];
      } else {
        assert all[..n] == cycles;
      }
    }
  }

  lemma EscalatedTold(s: State, r: CallId, key: Key, count: nat, now: int)
    requires Told(s) && now >= s.clock
    ensures Told(EscalatedAt(s, r, key, count, now).0)
  {
    if count == THRESHOLD {
      var (t, block) := EscalatedAt(s, r, key, count, now);
      var c := Cycle(r, key, now, block);
      EscalationIsDue(s, key, now);
      CyclesSoundSnoc(s.cycles, c);
      forall k ensures Agree(At(t.logs, LockCycleKey(k)), CycleTimes(t.cycles, k), now, ESCALATION_DECAY) {
        CycleAgrees(s, t, c, k);
      }
      CycleStays(s, t, c);
    } else {
      TimePasses(s, now);
    }
  }

  lemma {:induction false} AfterKeeps(times: seq<int>, t: int, cutoff: int)
    requires t in times
    ensures t in After(times, cutoff) || t <= cutoff
  {
    if times[0] != t { AfterKeeps(times[1..], t, cutoff); }
  }

  lemma KeptAcross(log: seq<int>, t: int, now: int, clock: int)
    requires (t in log || t <= clock - WINDOW) && now >= clock
    ensures t in After(log, now - WINDOW) || t <= now - WINDOW
  {
    if t in log { AfterKeeps(log, t, now - WINDOW); }
  }

  lemma AlertLog(logs: Logs, digest: string, now: int, other: string)
    ensures var (l, mailed) := TryAlert(logs, digest, now);
            && At(l, AlertKey(other))
               == (if other == digest then After(At(logs, AlertKey(digest)), now - WINDOW) + [now]
                   else At(logs, AlertKey(other)))
            && (mailed <==> After(At(logs, AlertKey(digest)), now - WINDOW) == [])
  {
    KeysApart(digest, other);
  }

  /** An alert tried at `now` leaves the earlier ones on their key or out of the
      window; and it is mailed only when all of them are out. */
  lemma TriedAlert(s: State, digest: string, now: int, a: Alert)
    requires AlertKept(s, a) && now >= s.clock
    ensures var (logs, mailed) := TryAlert(s.logs, digest, now);
            && AlertKept(s.(logs := logs, clock := now), a)
            && (mailed && a.digest == digest ==> a.at <= now - WINDOW)
  {
    AlertLog(s.logs, digest, now, a.digest);
    KeptAcross(At(s.logs, AlertKey(a.digest)), a.at, now, s.clock);
  }

  lemma AlertedAgree(s: State, digest: string, now: int)
    requires CyclesAgree(s) && now >= s.clock
    ensures CyclesAgree(s.(logs := TryAlert(s.logs, digest, now).0, clock := now))
  {
    var t := s.(logs := TryAlert(s.logs, digest, now).0, clock := now);
    forall key ensures Agree(At(t.logs, LockCycleKey(key)), CycleTimes(t.cycles, key), now, ESCALATION_DECAY) {
      KeysApart(digest, key);
      assert Agree(At(s.logs, LockCycleKey(key)), CycleTimes(s.cycles, key), s.clock, ESCALATION_DECAY);
    }
  }

  lemma AlertTold(s: State, r: CallId, a: Attempt, result: Result, now: int)
    requires Told(s) && now >= s.clock
    ensures Told(AlertIn(s, r, a, result, now))
  {
    if result.Locked() && a.known {
      var t := AlertIn(s, r, a, result, now);
      AlertedAgree(s, a.digest, now);
      forall n | 0 <= n < |t.alerts| ensures AlertKept(t, t.alerts[n]) {
        if n < |s.alerts| { TriedAlert(s, a.digest, now, s.alerts[n]); }
      }
      forall i, j | 0 <= i < j < |t.alerts| && t.alerts[i].digest == t.alerts[j].digest
        ensures t.alerts[j].at - t.alerts[i].at >= WINDOW
      {
        if j == |s.alerts| { TriedAlert(s, a.digest, now, s.alerts[i]); }
      }
    } else {
      TimePasses(s, now);
    }
  }

  lemma CallsAside(s: State, r: CallId, p: Phase)
    requires Told(s)
    ensures Told(Move(s, r, p))
  {
    var t := Move(s, r, p);
    forall n | 0 <= n < |t.alerts| ensures AlertKept(t, t.alerts[n]) {
      assert AlertKept(s, s.alerts[n]);
    }
  }

  lemma CountTold(s: State, op: Op, text: string, now: int)
    requires Told(s) && now >= s.clock && (op.key == EmailKey(text) || op.key == IPKey(text))
    ensures Told(Operate(s, op, now))
  {
    KindsOfKeys(text);
    CountingKeysArePlain(text);
    PlainOperation(s, op, now);
  }

  lemma CountsTold(s: State, r: CallId, a: Attempt, n: nat, now: int)
    requires Told(s) && now >= s.clock
    ensures Told(CountEmailIn(s, r, a, now)) && Told(CountIPIn(s, r, a, n, now))
  {
    var email, address := FailOp(EmailKey(a.digest), now), FailOp(IPKey(a.ip), now);
    CountTold(s, email, a.digest, now);
    CountTold(s, address, a.ip, now);
    CallsAside(Operate(s, email, now), r, EmailCounted(a, Answer(s.logs, email)));
    CallsAside(Operate(s, address, now), r, BothCounted(a, n, Answer(s.logs, address)));
  }

  lemma EscalateEmailTold(s: State, r: CallId, a: Attempt, n: nat, k: nat, now: int)
    requires Told(s) && now >= s.clock
    ensures Told(EscalateEmailIn(s, r, a, n, k, now))
  {
    EscalatedTold(s, r, EmailKey(a.digest), n, now);
    var (t, block) := EscalatedAt(s, r, EmailKey(a.digest), n, now);
    CallsAside(t, r, EmailEscalated(a, n, k, block));
  }

  lemma EscalateIPTold(s: State, r: CallId, p: Phase, now: int)
    requires Told(s) && now >= s.clock && p.EmailEscalated?
    ensures Told(EscalateIPIn(s, r, p, now))
  {
    EscalatedTold(s, r, IPKey(p.a.ip), p.ipCount, now);
    CallsAside(EscalatedAt(s, r, IPKey(p.a.ip), p.ipCount, now).0, r, EscalateIPIn(s, r, p, now).calls[r]);
  }

  lemma ChecksTold(s: State, r: CallId, digest: string, ip: string, now: int)
    requires Told(s) && now >= s.clock
    ensures Told(CheckEmailIn(s, r, digest, ip, now)) && Told(CheckIPIn(s, r, ip, now))
  {
    CountTold(s, CountOp(EmailKey(digest), now), digest, now);
    CountTold(s, CountOp(IPKey(ip), now), ip, now);
    CallsAside(Operate(s, CountOp(EmailKey(digest), now), now), r, CheckEmailIn(s, r, digest, ip, now).calls[r]);
    CallsAside(Operate(s, CountOp(IPKey(ip), now), now), r, CheckIPIn(s, r, ip, now).calls[r]);
  }

  lemma ToldOf(s: State, t: State)
    requires Told(s) && t == s
    ensures Told(t)
  {}

  lemma StepTold(s: State, r: CallId, now: int)
    requires Told(s)
    ensures Told(StepIn(s, r, now))
  {
    if r in s.calls && now >= s.clock {
      var t := StepIn(s, r, now);
      match s.calls[r]
      case Started(a) =>
        CountsTold(s, r, a, 0, now);
        ToldOf(CountEmailIn(s, r, a, now), t);
      case EmailCounted(a, n) =>
        CountsTold(s, r, a, n, now);
        ToldOf(CountIPIn(s, r, a, n, now), t);
      case BothCounted(a, n, k) =>
        EscalateEmailTold(s, r, a, n, k, now);
        ToldOf(EscalateEmailIn(s, r, a, n, k, now), t);
      case EmailEscalated(_, _, _, _) =>
        EscalateIPTold(s, r, s.calls[r], now);
        ToldOf(EscalateIPIn(s, r, s.calls[r], now), t);
      case Decided(a, result) =>
        AlertTold(s, r, a, result, now);
        ToldOf(AlertIn(s, r, a, result, now), t);
      case Checking(digest, ip) =>
        ChecksTold(s, r, digest, ip, now);
        ToldOf(CheckEmailIn(s, r, digest, ip, now), t);
      case EmailChecked(digest, ip) =>
        ChecksTold(s, r, digest, ip, now);
        ToldOf(CheckIPIn(s, r, ip, now), t);
      case _ => ToldOf(s, t);
    } else {
      ToldOf(s, StepIn(s, r, now));
    }
  }

  lemma NextTold(s: State, e: Event)
    requires Told(s)
    ensures Told(Next(s, e))
  {
    match e
    case Fails(r, a) => CallsAside(s, r, Started(a));
    case Checks(r, digest, ip) => CallsAside(s, r, Checking(digest, ip));
    case Succeeds(digest) => CountTold(s, Op.Reset(EmailKey(digest)), digest, s.clock);
    case Step(r, now) => StepTold(s, r, now);
  }

  // ---- What the calls report

  /** The longest block among the cycles a call started. */
  function BlockOf(cycles: seq<Cycle>, r: CallId): (b: int)
    ensures b >= 0
  {
    if cycles == [] then 0
    else
      var last, rest := cycles[|cycles| - 1], BlockOf(cycles[..|cycles| - 1], r);
      if last.call == r && last.block > rest then last.block else rest
  }

  lemma BlockOfSnoc(cycles: seq<Cycle>, c: Cycle, r: CallId)
    ensures BlockOf(cycles + [c], r)
         == if c.call == r && c.block > BlockOf(cycles, r) then c.block else BlockOf(cycles, r)
  {
    assert (cycles + [c])[..|cycles|] == cycles;
  }

  /** The block a call has come to so far. */
  function BlockAt(calls: map<CallId, Phase>, r: CallId): int {
    if r !in calls then 0
    else match calls[r]
      case EmailEscalated(_, _, _, block) => block
      case Decided(_, result) => result.block
      case Recorded(result) => result.block
      case _ => 0
  }

  ghost predicate BlocksTold(s: State) {
    forall r :: BlockAt(s.calls, r) == BlockOf(s.cycles, r)
  }

  lemma EscalatedBlocks(s: State, r: CallId, key: Key, count: nat, now: int, q: CallId)
    ensures var (t, block) := EscalatedAt(s, r, key, count, now);
            && t.calls == s.calls && block >= 0
            && BlockOf(t.cycles, q) == if q == r && block > BlockOf(s.cycles, q) then block else BlockOf(s.cycles, q)
  {
    if count == THRESHOLD {
      BlockOfSnoc(s.cycles, Cycle(r, key, now, EscalatedAt(s, r, key, count, now).1), q);
    }
  }

  lemma SameBlock(s: State, t: State, r: CallId, p: Phase)
    requires BlocksTold(s) && t.cycles == s.cycles && t.calls == s.calls[r := p]
    requires BlockAt(t.calls, r) == BlockAt(s.calls, r)
    ensures BlocksTold(t)
  {
    forall q ensures BlockAt(t.calls, q) == BlockOf(t.cycles, q) {
      assert BlockAt(s.calls, q) == BlockOf(s.cycles, q);
    }
  }

  lemma LongerBlock(s: State, t: State, u: State, r: CallId, p: Phase, block: int)
    requires BlocksTold(s) && t.calls == s.calls && u.cycles == t.cycles && u.calls == t.calls[r := p]
    requires forall q :: BlockOf(t.cycles, q)
                      == if q == r && block > BlockOf(s.cycles, q) then block else BlockOf(s.cycles, q)
    requires BlockAt(u.calls, r) == if block > BlockAt(s.calls, r) then block else BlockAt(s.calls, r)
    ensures BlocksTold(u)
  {
    forall q ensures BlockAt(u.calls, q) == BlockOf(u.cycles, q) {
      assert BlockAt(s.calls, q) == BlockOf(s.cycles, q);
    }
  }

  lemma EscalatedAllBlocks(s: State, r: CallId, key: Key, count: nat, now: int)
    ensures var (t, block) := EscalatedAt(s, r, key, count, now);
            forall q :: BlockOf(t.cycles, q)
                     == if q == r && block > BlockOf(s.cycles, q) then block else BlockOf(s.cycles, q)
  {
    var (t, block) := EscalatedAt(s, r, key, count, now);
    forall q ensures BlockOf(t.cycles, q)
                  == if q == r && block > BlockOf(s.cycles, q) then block else BlockOf(s.cycles, q)
    {
      EscalatedBlocks(s, r, key, count, now, q);
    }
  }

  lemma EmailBlocks(s: State, r: CallId, a: Attempt, n: nat, k: nat, now: int)
    requires BlocksTold(s) && r in s.calls && s.calls[r] == BothCounted(a, n, k)
    ensures BlocksTold(EscalateEmailIn(s, r, a, n, k, now))
  {
    var (t, block) := EscalatedAt(s, r, EmailKey(a.digest), n, now);
    EscalatedAllBlocks(s, r, EmailKey(a.digest), n, now);
    EscalatedBlocks(s, r, EmailKey(a.digest), n, now, r);
    LongerBlock(s, t, EscalateEmailIn(s, r, a, n, k, now), r, EmailEscalated(a, n, k, block), block);
  }

  lemma IPEscalated(s: State, r: CallId, p: Phase, now: int)
    requires r in s.calls && s.calls[r] == p && p.EmailEscalated?
    ensures var (t, block) := EscalatedAt(s, r, IPKey(p.a.ip), p.ipCount, now);
            var u := EscalateIPIn(s, r, p, now);
            && t.calls == s.calls && u.cycles == t.cycles
            && r in u.calls && u.calls == t.calls[r := u.calls[r]]
            && BlockAt(u.calls, r) == if block > BlockAt(s.calls, r) then block else BlockAt(s.calls, r)
  {}

  lemma IPBlocks(s: State, r: CallId, p: Phase, now: int)
    requires BlocksTold(s) && r in s.calls && s.calls[r] == p && p.EmailEscalated?
    ensures BlocksTold(EscalateIPIn(s, r, p, now))
  {
    var (t, block) := EscalatedAt(s, r, IPKey(p.a.ip), p.ipCount, now);
    var u := EscalateIPIn(s, r, p, now);
    IPEscalated(s, r, p, now);
    EscalatedAllBlocks(s, r, IPKey(p.a.ip), p.ipCount, now);
    LongerBlock(s, t, u, r, u.calls[r], block);
  }

  lemma StepBlocks(s: State, r: CallId, now: int)
    requires BlocksTold(s)
    ensures BlocksTold(StepIn(s, r, now))
  {
    if r in s.calls && now >= s.clock {
      var t := StepIn(s, r, now);
      match s.calls[r]
      case BothCounted(a, n, k) => EmailBlocks(s, r, a, n, k, now);
      case EmailEscalated(_, _, _, _) => IPBlocks(s, r, s.calls[r], now);
      case Recorded(_) =>
      case Answered(_) =>
      case _ => SameBlock(s, t, r, t.calls[r]);
    }
  }

  lemma NextBlocks(s: State, e: Event)
    requires BlocksTold(s)
    ensures BlocksTold(Next(s, e))
  {
    match e
    case Step(r, now) => StepBlocks(s, r, now);
    case _ =>
      forall q ensures BlockAt(Next(s, e).calls, q) == BlockOf(Next(s, e).cycles, q) {
        assert BlockAt(s.calls, q) == BlockOf(s.cycles, q);
      }
  }

  lemma {:induction false} RunTold(s: State, events: seq<Event>)
    requires Told(s) && BlocksTold(s)
    ensures Told(Run(s, events)) && BlocksTold(Run(s, events))
    decreases |events|
  {
    if events != [] {
      NextTold(s, events[0]);
      NextBlocks(s, events[0]);
      RunTold(Next(s, events[0]), events[1..]);
    }
  }

  lemma InitTold(clock: int)
    ensures Told(Init(clock)) && BlocksTold(Init(clock))
  {}

  /** However calls interleave, the block of every lock cycle follows the number
      of cycles that started for its key within the hour before, 15 minutes
      after a clean hour, then 30, then 60; and the block a call reports is the
      longest of the cycles it started itself, none for a call that started none. */
  lemma BlocksLengthen(clock: int, events: seq<Event>)
    ensures var s := Run(Init(clock), events);
            && (forall n :: 0 <= n < |s.cycles| ==>
                  s.cycles[n].block == Length(CycleTimes(s.cycles[..n], s.cycles[n].key), s.cycles[n].at))
            && (forall r :: r in s.calls && s.calls[r].Recorded? ==> s.calls[r].result.block == BlockOf(s.cycles, r))
  {
    InitTold(clock);
    RunTold(Init(clock), events);
    var s := Run(Init(clock), events);
    forall r | r in s.calls && s.calls[r].Recorded? ensures s.calls[r].result.block == BlockOf(s.cycles, r) {
      assert BlockAt(s.calls, r) == BlockOf(s.cycles, r);
    }
  }

  /** However calls interleave, one account is alerted at most once per window:
      any two of its alerts are a full window apart. */
  lemma AlertsAreSpaced(clock: int, events: seq<Event>)
    ensures Spaced(Run(Init(clock), events).alerts)
  {
    InitTold(clock);
    RunTold(Init(clock), events);
  }
}
