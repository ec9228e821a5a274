/** Accepts, logins and previews under way at the same time: every operation on
    the two counters is a step of its own, and whether the addresses behind the
    invitations have accounts still shows in no answer to a guess. */
module InvitationGuesses {
  import AttemptCounter
  import Lockout
  import L = LockoutRuns
  import opened InvitationParity

  type RequestId = int

  /** How far an accept has come; `call` is its call on the lockout service. */
  datatype Phase =
    | Arrived
    | Dismissed                                    // unknown or dead secret, not counted yet
    | Resolved                                     // a usable invitation with a unit
    | Checking(call: L.CallId)
    | Mismatched(answer: InvitationParity.Answer)  // not counted against the invitations yet
    | Failing(answer: InvitationParity.Answer)     // not counted against the account yet
    | Recording(call: L.CallId, answer: InvitationParity.Answer)
    | Done(answer: InvitationParity.Answer)

  /** `digest` is of the address the invitation is for. */
  datatype Accept = Accept(digest: string, a: Attempt, phase: Phase)

  datatype State = State(lockout: L.State, invites: AttemptCounter.Logs, accepts: map<RequestId, Accept>)

  datatype Event =
    | Arrives(req: RequestId, digest: string, a: Attempt)
    | Step(req: RequestId, call: L.CallId, now: int)
    | OnLockout(e: L.Event)                        // logins, and the calls of accepts
    | OnInvites(op: AttemptCounter.Op)             // previews

  /** The password policy, and whose account each address leads to. */
  datatype Setting = Setting(policy: string -> Verdict, accounts: string -> Account)

  function Init(clock: int): State {
    State(L.Init(clock), map[], map[])
  }

  function Move(s: State, r: RequestId, p: Phase): State
    requires r in s.accepts
  {
    s.(accepts := s.accepts[r := s.accepts[r].(phase := p)])
  }

  function OnCounter(s: State, op: AttemptCounter.Op, now: int): State {
    s.(invites := AttemptCounter.Apply(s.invites, op), lockout := s.lockout.(clock := now))
  }

  function Calls(s: State, e: L.Event): State {
    s.(lockout := L.Next(s.lockout, e))
  }

  function CountInvite(a: Attempt, now: int): AttemptCounter.Op {
    AttemptCounter.Op.Count(InviteKey(a.ip), now, INVITE_WINDOW)
  }

  function SpendInvite(a: Attempt, now: int): AttemptCounter.Op {
    AttemptCounter.Op.Fail(InviteKey(a.ip), now, INVITE_WINDOW)
  }

  /** The consent and the secret, behind the invitation budget. */
  function Opened(a: Attempt, count: nat): Phase {
    if count >= INVITE_THRESHOLD then Done(TooManyInviteAttempts)
    else if !a.consent then Done(ConsentRequired)
    else match a.lookup
      case Malformed => Done(SecretRequired)
      case Broken => Done(Internal)
      case Unknown => Dismissed
      case Dead => Dismissed
      case Usable(hasUnit) => if hasUnit then Resolved else Done(NoUnit)
  }

  /** The credential work, behind the account's budget. */
  function Decided(env: Setting, x: Accept): Phase {
    var verdict := env.policy(x.a.password);
    match env.accounts(x.digest)
    case NoAccount => if verdict.Passes? then Done(GoesOn) else Mismatched(PolicyAnswer(verdict))
    case Account(owns, superadmin, refuses) =>
      if !owns(x.a.password) then Mismatched(if verdict.Passes? then InvalidCredentials else PolicyAnswer(verdict))
      else if superadmin then Failing(InvalidCredentials)
      else if refuses(x.a.totpCode) then Done(FactorRefused(x.a.totpCode))
      else Done(GoesOn)
  }

  function Failure(env: Setting, x: Accept): L.Attempt {
    L.Attempt(x.digest, x.a.ip, env.accounts(x.digest).Account?)
  }

  function CheckedPhase(env: Setting, x: Accept, locked: bool): Phase {
    if locked then Done(TooManyAttempts) else Decided(env, x)
  }

  /** The next operation of an accept, `call` being the one it starts, if any. */
  function StepIn(env: Setting, s: State, r: RequestId, call: L.CallId, now: int): State {
    if r !in s.accepts || now < s.lockout.clock then s
    else
      var x := s.accepts[r];
      match x.phase
      case Arrived =>
        var op := CountInvite(x.a, now);
        Move(OnCounter(s, op, now), r, Opened(x.a, AttemptCounter.Answer(s.invites, op)))
      case Dismissed => Move(OnCounter(s, SpendInvite(x.a, now), now), r, Done(NotFound))
      case Resolved =>
        if call in s.lockout.calls then s else Move(Calls(s, L.Checks(call, x.digest, x.a.ip)), r, Checking(call))
      case Checking(c) =>
        if c in s.lockout.calls && s.lockout.calls[c].Answered?
        then Move(s, r, CheckedPhase(env, x, s.lockout.calls[c].locked))
        else s
      case Mismatched(answer) => Move(OnCounter(s, SpendInvite(x.a, now), now), r, Failing(answer))
      case Failing(answer) =>
        if call in s.lockout.calls then s
        else Move(Calls(s, L.Fails(call, Failure(env, x))), r, Recording(call, answer))
      case Recording(c, answer) =>
        if c in s.lockout.calls && s.lockout.calls[c].Recorded? then Move(s, r, Done(answer)) else s
      case Done(_) => s
  }

  /** Whoever records a failure looks the account up for the alert. */
  function Informed(env: Setting, e: L.Event): L.Event {
    if e.Fails? then L.Fails(e.call, e.a.(known := env.accounts(e.a.digest).Account?)) else e
  }

  function Next(env: Setting, s: State, e: Event): State {
    match e
    case Arrives(r, digest, a) =>
      if r in s.accepts then s else s.(accepts := s.accepts[r := Accept(digest, a, Arrived)])
    case Step(r, call, now) => StepIn(env, s, r, call, now)
    case OnLockout(e) => Calls(s, Informed(env, e))
    case OnInvites(op) => s.(invites := AttemptCounter.Apply(s.invites, op))
  }

  function Run(env: Setting, s: State, events: seq<Event>): State
    decreases |events|
  {
    if events == [] then s else Run(env, Next(env, s, events[0]), events[1..])
  }

  // ---- Without some accounts

  /** The same setting, the addresses in `hides` having no account. */
  function Without(env: Setting, hides: string -> bool): Setting {
    Setting(env.policy, digest => if hides(digest) then NoAccount else env.accounts(digest))
  }

  /** The accepts stand at the same points with the same answers, so do all calls
      on the lockout, and the counters differ in owners' alerts only. */
  ghost predicate Sim(s: State, t: State) {
    L.SameBlind(s.lockout, t.lockout) && s.invites == t.invites && s.accepts == t.accepts
  }

  /** Either the policy passes the candidate and the caller may act for the
      account, or it does not and the candidate is not the account's own. */
  predicate Discreet(env: Setting, digest: string, a: Attempt) {
    var account := env.accounts(digest);
    account.Account? ==>
      if env.policy(a.password).Passes? then Entitled(World(digest, env.policy), account, a)
      else !account.owns(a.password)
  }

  /** This step lets an attempt that is not discreet past the account's budget,
      the address being one of those hidden. */
  predicate Tells(env: Setting, hides: string -> bool, s: State, e: Event) {
    && e.Step? && e.req in s.accepts && e.now >= s.lockout.clock
    && var x := s.accepts[e.req];
       && x.phase.Checking? && x.phase.call in s.lockout.calls
       && s.lockout.calls[x.phase.call] == L.Answered(false)
       && hides(x.digest) && !Discreet(env, x.digest, x.a)
  }

  predicate NoneTells(env: Setting, hides: string -> bool, s: State, events: seq<Event>)
    decreases |events|
  {
    events != [] ==> !Tells(env, hides, s, events[0]) && NoneTells(env, hides, Next(env, s, events[0]), events[1..])
  }

  /** After every event the accepts stand alike. */
  ghost predicate AlikeThroughout(env: Setting, other: Setting, s: State, t: State, events: seq<Event>)
    decreases |events|
  {
    s.accepts == t.accepts
    && (events != [] ==>
          AlikeThroughout(env, other, Next(env, s, events[0]), Next(other, t, events[0]), events[1..]))
  }

  lemma DecidedAlike(env: Setting, hides: string -> bool, x: Accept)
    ensures Decided(env, x) == Decided(Without(env, hides), x) <==> !hides(x.digest) || Discreet(env, x.digest, x.a)
  {}

  lemma CounterSim(s: State, t: State, op: AttemptCounter.Op, now: int, r: RequestId, p: Phase)
    requires Sim(s, t) && r in s.accepts
    ensures Sim(Move(OnCounter(s, op, now), r, p), Move(OnCounter(t, op, now), r, p))
  {}

  lemma CallsSim(s: State, t: State, e: L.Event, f: L.Event, r: RequestId, p: Phase)
    requires Sim(s, t) && L.SameButKnown(e, f)
    ensures Sim(Calls(s, e), Calls(t, f))
    ensures r in s.accepts ==> Sim(Move(Calls(s, e), r, p), Move(Calls(t, f), r, p))
  {
    L.NextBlind(s.lockout, t.lockout, e, f);
  }

  /** A call answers and reports the same in both. */
  lemma CallAlike(s: State, t: State, c: L.CallId)
    requires Sim(s, t)
    ensures c in s.lockout.calls <==> c in t.lockout.calls
    ensures c in s.lockout.calls && (s.lockout.calls[c].Answered? || t.lockout.calls[c].Answered?) ==>
              s.lockout.calls[c] == t.lockout.calls[c]
    ensures c in s.lockout.calls ==> (s.lockout.calls[c].Recorded? <==> t.lockout.calls[c].Recorded?)
  {
    assert c in s.lockout.calls ==> L.Blind(s.lockout.calls[c]) == L.Blind(t.lockout.calls[c]);
  }

  lemma StepSim(env: Setting, hides: string -> bool, s: State, t: State, r: RequestId, call: L.CallId, now: int)
    requires Sim(s, t) && !Tells(env, hides, s, Step(r, call, now))
    ensures Sim(StepIn(env, s, r, call, now), StepIn(Without(env, hides), t, r, call, now))
  {
    if r in s.accepts && now >= s.lockout.clock {
      var x := s.accepts[r];
      CallAlike(s, t, call);
      match x.phase
      case Arrived =>
        var op := CountInvite(x.a, now);
        CounterSim(s, t, op, now, r, Opened(x.a, AttemptCounter.Answer(s.invites, op)));
      case Dismissed => CounterSim(s, t, SpendInvite(x.a, now), now, r, Done(NotFound));
      case Resolved =>
        CallsSim(s, t, L.Checks(call, x.digest, x.a.ip), L.Checks(call, x.digest, x.a.ip), r, Checking(call));
      case Checking(c) =>
        CallAlike(s, t, c);
        DecidedAlike(env, hides, x);
      case Mismatched(answer) => CounterSim(s, t, SpendInvite(x.a, now), now, r, Failing(answer));
      case Failing(answer) =>
        CallsSim(s, t, L.Fails(call, Failure(env, x)), L.Fails(call, Failure(Without(env, hides), x)), r,
                 Recording(call, answer));
      case Recording(c, _) => CallAlike(s, t, c);
      case Done(_) =>
    }
  }

  lemma NextSim(env: Setting, hides: string -> bool, s: State, t: State, e: Event)
    requires Sim(s, t) && !Tells(env, hides, s, e)
    ensures Sim(Next(env, s, e), Next(Without(env, hides), t, e))
  {
    match e
    case Arrives(_, _, _) =>
    case Step(r, call, now) => StepSim(env, hides, s, t, r, call, now);
    case OnLockout(e) => CallsSim(s, t, Informed(env, e), Informed(Without(env, hides), e), 0, Arrived);
    case OnInvites(_) =>
  }

  /** The other half: then the accepts part at once. */
  lemma TellingShows(env: Setting, hides: string -> bool, s: State, t: State, e: Event)
    requires Sim(s, t) && Tells(env, hides, s, e)
    ensures Next(env, s, e).accepts[e.req] != Next(Without(env, hides), t, e).accepts[e.req]
  {
    var x := s.accepts[e.req];
    CallAlike(s, t, x.phase.call);
    DecidedAlike(env, hides, x);
  }

  lemma {:induction false} AlikeFrom(env: Setting, hides: string -> bool, s: State, t: State, events: seq<Event>)
    requires Sim(s, t)
    ensures AlikeThroughout(env, Without(env, hides), s, t, events) <==> NoneTells(env, hides, s, events)
    decreases |events|
  {
    if events != [] {
      var e := events[0];
      if Tells(env, hides, s, e) {
        TellingShows(env, hides, s, t, e);
      } else {
        NextSim(env, hides, s, t, e);
        AlikeFrom(env, hides, Next(env, s, e), Next(Without(env, hides), t, e), events[1..]);
      }
    }
  }

  /** However accepts, logins and previews interleave, taking the accounts of any
      addresses away leaves every accept at the same point with the same answer
      at every moment, if and only if no attempt on one of those addresses gets
      past its budget that is neither entitled and let pass by the policy, nor a
      wrong guess refused by it. */
  lemma AlikeIffNoneTells(env: Setting, hides: string -> bool, clock: int, events: seq<Event>)
    ensures AlikeThroughout(env, Without(env, hides), Init(clock), Init(clock), events)
       <==> NoneTells(env, hides, Init(clock), events)
  {
    AlikeFrom(env, hides, Init(clock), Init(clock), events);
  }

  // ---- Guesses

  ghost predicate AllDiscreet(env: Setting, hides: string -> bool, s: State) {
    forall r :: r in s.accepts && hides(s.accepts[r].digest) ==> Discreet(env, s.accepts[r].digest, s.accepts[r].a)
  }

  lemma StaysDiscreet(env: Setting, hides: string -> bool, s: State, e: Event)
    requires AllDiscreet(env, hides, s)
    requires e.Arrives? && hides(e.digest) ==> Discreet(env, e.digest, e.a)
    ensures AllDiscreet(env, hides, Next(env, s, e)) && !Tells(env, hides, s, e)
  {}

  lemma {:induction false} DiscreetRun(env: Setting, hides: string -> bool, s: State, t: State, events: seq<Event>)
    requires Sim(s, t) && AllDiscreet(env, hides, s)
    requires forall e :: e in events && e.Arrives? && hides(e.digest) ==> Discreet(env, e.digest, e.a)
    ensures Sim(Run(env, s, events), Run(Without(env, hides), t, events)) && NoneTells(env, hides, s, events)
    decreases |events|
  {
    if events != [] {
      assert events[0] in events;
      StaysDiscreet(env, hides, s, events[0]);
      NextSim(env, hides, s, t, events[0]);
      DiscreetRun(env, hides, Next(env, s, events[0]), Next(Without(env, hides), t, events[0]), events[1..]);
    }
  }

  /** Guesses that the policy refuses and that are no account's own, in any
      interleaving with anything else, are answered the same at every moment,
      the switch to 429 included, whether or not the addresses have accounts; the
      invitation counter is equal, and the login counter up to owners' alerts. */
  lemma GuessesTellNothing(env: Setting, hides: string -> bool, clock: int, events: seq<Event>)
    requires forall e :: e in events && e.Arrives? && hides(e.digest) ==>
                           Guess(World(e.digest, env.policy), env.accounts(e.digest), e.a)
    ensures AlikeThroughout(env, Without(env, hides), Init(clock), Init(clock), events)
    ensures Sim(Run(env, Init(clock), events), Run(Without(env, hides), Init(clock), events))
  {
    DiscreetRun(env, hides, Init(clock), Init(clock), events);
    AlikeIffNoneTells(env, hides, clock, events);
  }

  // ---- An accept that nothing interrupts

  /** `n` operations of one call on the lockout service. */
  function LockSteps(s: State, c: L.CallId, now: int, n: nat): State {
    s.(lockout := L.Steps(s.lockout, c, now, n))
  }

  /** Up to the answer of the account's check, which is call `c`. */
  function Opening(env: Setting, s: State, r: RequestId, c: L.CallId, now: int): State {
    LockSteps(StepIn(env, StepIn(env, s, r, c, now), r, c, now), c, now, 2)
  }

  /** What follows the credential work, call `c` recording the failure, if it
      comes to one. */
  function Settling(env: Setting, s: State, r: RequestId, c: L.CallId, now: int): State {
    StepIn(env, LockSteps(StepIn(env, StepIn(env, s, r, c, now), r, c, now), c, now, 5), r, c, now)
  }

  /** From the answer of the check to the end. */
  function Closing(env: Setting, s: State, r: RequestId, c: L.CallId, now: int): State {
    Settling(env, StepIn(env, s, r, c, now), r, c, now)
  }

  ghost predicate Stands(s: State, r: RequestId, x: Accept, p: Phase) {
    r in s.accepts && s.accepts[r] == x.(phase := p)
  }

  lemma {:induction false} AbsentCall(s: L.State, c: L.CallId, now: int, n: nat)
    requires c !in s.calls
    ensures L.Steps(s, c, now, n) == s
  {
    if n > 0 { AbsentCall(s, c, now, n - 1); }
  }

  lemma {:induction false} ClockReached(s: L.State, c: L.CallId, now: int, n: nat)
    requires s.clock <= now
    ensures L.Steps(s, c, now, n).clock <= now
  {
    if n > 0 { ClockReached(s, c, now, n - 1); }
  }

  lemma DoneStays(env: Setting, s: State, r: RequestId, c: L.CallId, now: int)
    requires r in s.accepts && s.accepts[r].phase.Done? && c !in s.lockout.calls
    ensures LockSteps(s, c, now, 2) == s && StepIn(env, s, r, c, now) == s
    ensures Settling(env, s, r, c, now) == s && Closing(env, s, r, c, now) == s
  {
    AbsentCall(s.lockout, c, now, 2);
    AbsentCall(s.lockout, c, now, 5);
  }

  /** The first operation, on the invitation budget. */
  lemma Counted(env: Setting, s: State, r: RequestId, c: L.CallId, x: Accept)
    requires Stands(s, r, x, Arrived) && s.lockout.clock <= x.a.now
    ensures var op := CountInvite(x.a, x.a.now);
            var p := Opened(x.a, AttemptCounter.Answer(s.invites, op));
            StepIn(env, s, r, c, x.a.now)
            == State(s.lockout.(clock := x.a.now), AttemptCounter.Apply(s.invites, op),
                     s.accepts[r := x.(phase := p)])
  {}

  lemma AccountChecked(env: Setting, s: State, r: RequestId, c: L.CallId, x: Accept)
    requires Stands(s, r, x, Resolved) && s.lockout.clock <= x.a.now && c !in s.lockout.calls
    ensures var t := LockSteps(StepIn(env, s, r, c, x.a.now), c, x.a.now, 2);
            && t.invites == s.invites && t.accepts == s.accepts[r := x.(phase := Checking(c))]
            && t.lockout.logs == Lockout.Checked(s.lockout.logs, x.digest, x.a.ip, x.a.now)
            && t.lockout.calls
               == s.lockout.calls[c := L.Answered(Lockout.LockedNow(s.lockout.logs, x.digest, x.a.ip, x.a.now))]
            && t.lockout.clock <= x.a.now
  {
    var t := StepIn(env, s, r, c, x.a.now);
    L.CheckInTwo(t.lockout, c, x.digest, x.a.ip, x.a.now);
    ClockReached(t.lockout, c, x.a.now, 2);
    var locked := Lockout.LockedNow(s.lockout.logs, x.digest, x.a.ip, x.a.now);
    assert t.lockout.calls[c := L.Answered(locked)] == s.lockout.calls[c := L.Answered(locked)];
  }

  lemma FailureRecorded(env: Setting, s: State, r: RequestId, c: L.CallId, x: Accept, answer: InvitationParity.Answer)
    requires Stands(s, r, x, Recording(c, answer)) && s.lockout.clock <= x.a.now
    requires c in s.lockout.calls && s.lockout.calls[c] == L.Started(Failure(env, x))
    ensures var t := StepIn(env, LockSteps(s, c, x.a.now, 5), r, c, x.a.now);
            && t.invites == s.invites && t.accepts == s.accepts[r := x.(phase := Done(answer))]
            && t.lockout.logs
               == Lockout.Recording(s.lockout.logs, x.digest, x.a.ip, env.accounts(x.digest).Account?, x.a.now).0
  {
    L.AttemptInFive(s.lockout, c, Failure(env, x), x.a.now);
    ClockReached(s.lockout, c, x.a.now, 5);
  }

  lemma FailureStarts(env: Setting, s: State, r: RequestId, c: L.CallId, x: Accept, answer: InvitationParity.Answer)
    requires Stands(s, r, x, Failing(answer)) && s.lockout.clock <= x.a.now && c !in s.lockout.calls
    ensures var t := StepIn(env, s, r, c, x.a.now);
            && Stands(t, r, x, Recording(c, answer)) && t.accepts == s.accepts[r := x.(phase := Recording(c, answer))]
            && t.invites == s.invites && t.lockout.logs == s.lockout.logs && t.lockout.clock == s.lockout.clock
            && c in t.lockout.calls && t.lockout.calls[c] == L.Started(Failure(env, x))
            && StepIn(env, t, r, c, x.a.now) == t
  {}

  /** The accept ends at `t` with these budgets and this answer. */
  ghost predicate Ends(s: State, t: State, r: RequestId, x: Accept, end: (Budgets, InvitationParity.Answer)) {
    && t.invites == end.0.invites && t.lockout.logs == end.0.lockout
    && t.accepts == s.accepts[r := x.(phase := Done(end.1))]
  }

  /** A failure counted against the invitations. */
  function Spent(s: State, x: Accept): State {
    s.(invites := AttemptCounter.Apply(s.invites, SpendInvite(x.a, x.a.now)))
  }

  /** The budgets after a failure is counted against the account. */
  function Charged(env: Setting, s: State, x: Accept): Budgets {
    FailLogin(World(x.digest, env.policy), Budgets(s.invites, s.lockout.logs), x.a, env.accounts(x.digest).Account?)
  }

  lemma FailingEnds(env: Setting, s: State, r: RequestId, c: L.CallId, x: Accept, answer: InvitationParity.Answer)
    requires Stands(s, r, x, Failing(answer)) && s.lockout.clock <= x.a.now && c !in s.lockout.calls
    ensures var t := StepIn(env, s, r, c, x.a.now);
            Ends(s, StepIn(env, LockSteps(t, c, x.a.now, 5), r, c, x.a.now), r, x, (Charged(env, s, x), answer))
    ensures Ends(s, Settling(env, s, r, c, x.a.now), r, x, (Charged(env, s, x), answer))
  {
    FailureStarts(env, s, r, c, x, answer);
    FailureRecorded(env, StepIn(env, s, r, c, x.a.now), r, c, x, answer);
  }

  lemma MismatchCounted(env: Setting, s: State, r: RequestId, c: L.CallId, x: Accept, answer: InvitationParity.Answer)
    requires Stands(s, r, x, Mismatched(answer)) && s.lockout.clock <= x.a.now
    ensures var t := StepIn(env, s, r, c, x.a.now);
            && Stands(t, r, x, Failing(answer)) && t.accepts == s.accepts[r := x.(phase := Failing(answer))]
            && t.invites == AttemptCounter.Apply(s.invites, SpendInvite(x.a, x.a.now))
            && t.lockout == s.lockout.(clock := x.a.now)
  {}

  lemma MismatchEnds(env: Setting, s: State, r: RequestId, c: L.CallId, x: Accept, answer: InvitationParity.Answer)
    requires Stands(s, r, x, Mismatched(answer)) && s.lockout.clock <= x.a.now && c !in s.lockout.calls
    ensures Ends(s, Settling(env, s, r, c, x.a.now), r, x, (Charged(env, Spent(s, x), x), answer))
  {
    MismatchCounted(env, s, r, c, x, answer);
    FailingEnds(env, StepIn(env, s, r, c, x.a.now), r, c, x, answer);
  }

  /** What the credential work decides is what the handler answers, and costs what
      it costs there. */
  lemma CredentialsAre(env: Setting, s: State, x: Accept)
    ensures var (b, answer) := Credentials(World(x.digest, env.policy), env.accounts(x.digest),
                                           Budgets(s.invites, s.lockout.logs), x.a);
            match Decided(env, x)
            case Done(ended) => answer == ended && b == Budgets(s.invites, s.lockout.logs)
            case Failing(ended) => answer == ended && b == Charged(env, s, x)
            case Mismatched(ended) => answer == ended && b == Charged(env, Spent(s, x), x)
            case _ => false
  {}

  lemma DecisionEnds(env: Setting, s: State, r: RequestId, c: L.CallId, x: Accept)
    requires Stands(s, r, x, Decided(env, x)) && s.lockout.clock <= x.a.now && c !in s.lockout.calls
    ensures Ends(s, Settling(env, s, r, c, x.a.now), r, x,
                 Credentials(World(x.digest, env.policy), env.accounts(x.digest), Budgets(s.invites, s.lockout.logs),
                             x.a))
  {
    CredentialsAre(env, s, x);
    match Decided(env, x)
    case Done(answer) => DoneStays(env, s, r, c, x.a.now);
    case Failing(answer) => FailingEnds(env, s, r, c, x, answer);
    case Mismatched(answer) => MismatchEnds(env, s, r, c, x, answer);
  }

  lemma EndsAlso(s: State, t: State, u: State, r: RequestId, x: Accept, end: (Budgets, InvitationParity.Answer))
    requires Ends(t, u, r, x, end) && t.accepts.Keys == s.accepts.Keys + {r}
    requires forall q :: q in s.accepts && q != r ==> t.accepts[q] == s.accepts[q]
    ensures Ends(s, u, r, x, end)
  {
    assert t.accepts[r := x.(phase := Done(end.1))] == s.accepts[r := x.(phase := Done(end.1))];
  }

  lemma CredentialsEnd(env: Setting, s: State, r: RequestId, c: L.CallId, x: Accept, call: L.CallId)
    requires Stands(s, r, x, Checking(call)) && s.lockout.clock <= x.a.now && c !in s.lockout.calls
    requires call in s.lockout.calls && s.lockout.calls[call] == L.Answered(false)
    ensures Ends(s, Closing(env, s, r, c, x.a.now), r, x,
                 Credentials(World(x.digest, env.policy), env.accounts(x.digest), Budgets(s.invites, s.lockout.logs),
                             x.a))
  {
    var t := StepIn(env, s, r, c, x.a.now);
    assert t == s.(accepts := s.accepts[r := x.(phase := Decided(env, x))]);
    DecisionEnds(env, t, r, c, x);
    EndsAlso(s, t, Closing(env, s, r, c, x.a.now), r, x,
             Credentials(World(x.digest, env.policy), env.accounts(x.digest), Budgets(s.invites, s.lockout.logs), x.a));
  }

  /** From a usable invitation on. */
  lemma GateEnds(env: Setting, s: State, r: RequestId, c: L.CallId, d: L.CallId, x: Accept)
    requires Stands(s, r, x, Resolved) && s.lockout.clock <= x.a.now
    requires c !in s.lockout.calls && d !in s.lockout.calls && c != d
    ensures var t := LockSteps(StepIn(env, s, r, c, x.a.now), c, x.a.now, 2);
            Ends(s, Closing(env, t, r, d, x.a.now), r, x,
                 Gate(World(x.digest, env.policy), env.accounts(x.digest), Budgets(s.invites, s.lockout.logs), x.a))
  {
    AccountChecked(env, s, r, c, x);
    var t := LockSteps(StepIn(env, s, r, c, x.a.now), c, x.a.now, 2);
    if Lockout.LockedNow(s.lockout.logs, x.digest, x.a.ip, x.a.now) {
      LockedEnds(env, t, r, d, x, c);
    } else {
      CredentialsEnd(env, t, r, d, x, c);
    }
  }

  lemma LockedEnds(env: Setting, s: State, r: RequestId, c: L.CallId, x: Accept, call: L.CallId)
    requires Stands(s, r, x, Checking(call)) && s.lockout.clock <= x.a.now && c !in s.lockout.calls
    requires call in s.lockout.calls && s.lockout.calls[call] == L.Answered(true)
    ensures Ends(s, Closing(env, s, r, c, x.a.now), r, x, (Budgets(s.invites, s.lockout.logs), TooManyAttempts))
  {
    DoneStays(env, StepIn(env, s, r, c, x.a.now), r, c, x.a.now);
  }

  /** Before it, an accept ends after one operation or two. */
  lemma TurnedAway(env: Setting, s: State, r: RequestId, c: L.CallId, d: L.CallId, x: Accept)
    requires r in s.accepts && Stands(s, r, x, s.accepts[r].phase) && s.lockout.clock <= x.a.now
    requires s.accepts[r].phase.Done? || s.accepts[r].phase.Dismissed?
    requires c !in s.lockout.calls && d !in s.lockout.calls
    ensures var t := Closing(env, LockSteps(StepIn(env, s, r, c, x.a.now), c, x.a.now, 2), r, d, x.a.now);
            var p := s.accepts[r].phase;
            Ends(s, t, r, x, if p.Done? then (Budgets(s.invites, s.lockout.logs), p.answer)
                             else (Budgets(Spent(s, x).invites, s.lockout.logs), NotFound))
  {
    var t := StepIn(env, s, r, c, x.a.now);
    DoneStays(env, t, r, c, x.a.now);
    DoneStays(env, t, r, d, x.a.now);
  }

  /** The handler's gates before the account's own. */
  lemma AcceptingOpens(w: World, account: Account, b: Budgets, a: Attempt)
    ensures var op := CountInvite(a, a.now);
            var counted := b.(invites := AttemptCounter.Apply(b.invites, op));
            var p := Opened(a, AttemptCounter.Answer(b.invites, op));
            Accepting(w, account, b, a) == if p.Done? then (counted, p.answer)
                                           else if p.Dismissed? then (FailInvite(counted, a), NotFound)
                                           else Gate(w, account, counted, a)
  {}

  lemma OpenedEnds(env: Setting, s: State, r: RequestId, c: L.CallId, d: L.CallId, x: Accept)
    requires Stands(s, r, x, Arrived) && s.lockout.clock <= x.a.now
    requires c !in s.lockout.calls && d !in s.lockout.calls && c != d
    ensures Ends(s, Closing(env, Opening(env, s, r, c, x.a.now), r, d, x.a.now), r, x,
                 Accepting(World(x.digest, env.policy), env.accounts(x.digest), Budgets(s.invites, s.lockout.logs),
                           x.a))
  {
    var t := StepIn(env, s, r, c, x.a.now);
    var w, account := World(x.digest, env.policy), env.accounts(x.digest);
    Counted(env, s, r, c, x);
    AcceptingOpens(w, account, Budgets(s.invites, s.lockout.logs), x.a);
    if t.accepts[r].phase.Resolved? {
      GateEnds(env, t, r, c, d, x);
    } else {
      TurnedAway(env, t, r, c, d, x);
    }
    EndsAlso(s, t, Closing(env, Opening(env, s, r, c, x.a.now), r, d, x.a.now), r, x,
             Accepting(w, account, Budgets(s.invites, s.lockout.logs), x.a));
  }

  // ---- The same as a run

  function LockEvents(c: L.CallId, now: int, n: nat): seq<Event> {
    if n == 0 then [] else LockEvents(c, now, n - 1) + [OnLockout(L.Step(c, now))]
  }

  function OpeningEvents(r: RequestId, c: L.CallId, now: int): seq<Event> {
    [Step(r, c, now), Step(r, c, now)] + LockEvents(c, now, 2)
  }

  function ClosingEvents(r: RequestId, c: L.CallId, now: int): seq<Event> {
    [Step(r, c, now), Step(r, c, now), Step(r, c, now)] + LockEvents(c, now, 5) + [Step(r, c, now)]
  }

  /** An accept from its arrival on, without anything else between. */
  function AcceptEvents(r: RequestId, digest: string, a: Attempt, c: L.CallId, d: L.CallId): seq<Event> {
    [Arrives(r, digest, a)] + OpeningEvents(r, c, a.now) + ClosingEvents(r, d, a.now)
  }

  lemma {:induction false} RunConcat(env: Setting, s: State, a: seq<Event>, b: seq<Event>)
    ensures Run(env, s, a + b) == Run(env, Run(env, s, a), b)
    decreases |a|
  {
    if a == [] {
      assert a + b == b;
    } else {
      assert (a + b)[0] == a[0] && (a + b)[1..] == a[1..] + b;
      RunConcat(env, Next(env, s, a[0]), a[1..], b);
    }
  }

  lemma RunOne(env: Setting, s: State, e: Event)
    ensures Run(env, s, [e]) == Next(env, s, e)
  {
    assert [e][1..] == [];
  }

  lemma {:induction false} LockRuns(env: Setting, s: State, c: L.CallId, now: int, n: nat)
    ensures Run(env, s, LockEvents(c, now, n)) == LockSteps(s, c, now, n)
  {
    if n > 0 {
      var e := OnLockout(L.Step(c, now));
      LockRuns(env, s, c, now, n - 1);
      RunConcat(env, s, LockEvents(c, now, n - 1), [e]);
      RunOne(env, LockSteps(s, c, now, n - 1), e);
    }
  }

  lemma StepTwice(env: Setting, s: State, r: RequestId, c: L.CallId, now: int)
    ensures Run(env, s, [Step(r, c, now), Step(r, c, now)]) == StepIn(env, StepIn(env, s, r, c, now), r, c, now)
  {
    var e := Step(r, c, now);
    assert [e, e] == [e] + [e];
    RunConcat(env, s, [e], [e]);
    RunOne(env, s, e);
    RunOne(env, StepIn(env, s, r, c, now), e);
  }

  lemma OpeningRuns(env: Setting, s: State, r: RequestId, c: L.CallId, now: int)
    ensures Run(env, s, OpeningEvents(r, c, now)) == Opening(env, s, r, c, now)
  {
    StepTwice(env, s, r, c, now);
    RunConcat(env, s, [Step(r, c, now), Step(r, c, now)], LockEvents(c, now, 2));
    LockRuns(env, StepIn(env, StepIn(env, s, r, c, now), r, c, now), c, now, 2);
  }

  lemma ClosingRuns(env: Setting, s: State, r: RequestId, c: L.CallId, now: int)
    ensures Run(env, s, ClosingEvents(r, c, now)) == Closing(env, s, r, c, now)
  {
    var e, locks := Step(r, c, now), LockEvents(c, now, 5);
    var t := StepIn(env, s, r, c, now);
    var u := StepIn(env, StepIn(env, t, r, c, now), r, c, now);
    assert [e, e, e] == [e] + [e, e];
    RunConcat(env, s, [e], [e, e]);
    RunOne(env, s, e);
    StepTwice(env, t, r, c, now);
    RunConcat(env, s, [e, e, e], locks);
    LockRuns(env, u, c, now, 5);
    RunConcat(env, s, [e, e, e] + locks, [e]);
    RunOne(env, LockSteps(u, c, now, 5), e);
  }

  lemma AcceptRuns(env: Setting, s: State, r: RequestId, digest: string, a: Attempt, c: L.CallId, d: L.CallId)
    requires r !in s.accepts
    ensures var t := s.(accepts := s.accepts[r := Accept(digest, a, Arrived)]);
            Run(env, s, AcceptEvents(r, digest, a, c, d))
            == Closing(env, Opening(env, t, r, c, a.now), r, d, a.now)
  {
    var e, opening, closing := Arrives(r, digest, a), OpeningEvents(r, c, a.now), ClosingEvents(r, d, a.now);
    var t := s.(accepts := s.accepts[r := Accept(digest, a, Arrived)]);
    RunConcat(env, s, [e] + opening, closing);
    RunConcat(env, s, [e], opening);
    RunOne(env, s, e);
    OpeningRuns(env, t, r, c, a.now);
    ClosingRuns(env, Opening(env, t, r, c, a.now), r, d, a.now);
  }

  /** The operations of an accept in a row, its calls unused before, answer and
      count as the handler's AcceptInvitation. */
  lemma AcceptIsItsSteps(env: Setting, s: State, r: RequestId, digest: string, a: Attempt, c: L.CallId, d: L.CallId)
    requires r !in s.accepts && s.lockout.clock <= a.now
    requires c !in s.lockout.calls && d !in s.lockout.calls && c != d
    ensures var t := Run(env, s, AcceptEvents(r, digest, a, c, d));
            var (budgets, answer) := Accepting(World(digest, env.policy), env.accounts(digest),
                                               Budgets(s.invites, s.lockout.logs), a);
            && t.invites == budgets.invites && t.lockout.logs == budgets.lockout
            && t.accepts == s.accepts[r := Accept(digest, a, Done(answer))]
  {
    var x := Accept(digest, a, Arrived);
    AcceptRuns(env, s, r, digest, a, c, d);
    var t := s.(accepts := s.accepts[r := x]);
    OpenedEnds(env, t, r, c, d, x);
    EndsAlso(s, t, Closing(env, Opening(env, t, r, c, a.now), r, d, a.now), r, x,
             Accepting(World(digest, env.policy), env.accounts(digest), Budgets(s.invites, s.lockout.logs), a));
  }
}
