/** What an accept answers before it writes anything, and that the answers to
    policy-violating guesses do not tell whether the invited address has an
    account. */
module InvitationParity {
  import opened AttemptCounter
  import Lockout
  import LockoutParity

  const INVITE_THRESHOLD := 10
  const INVITE_WINDOW := 15 * Lockout.MINUTE

  /** The two counters of the program: one for invitation secrets by address,
      one for credentials, shared with the login. */
  datatype Budgets = Budgets(invites: Logs, lockout: Logs)

  function InviteKey(ip: string): Key { "invite:" + ip }

  /** What looking the secret up yields; it does not depend on any account. */
  datatype Lookup = Malformed | Unknown | Dead | Usable(hasUnit: bool) | Broken

  datatype Attempt = Attempt(ip: string, consent: bool, lookup: Lookup, password: string, totpCode: string, now: int)

  datatype Verdict = Passes | Violates(code: string) | CannotTell

  datatype Answer =
    | TooManyInviteAttempts | ConsentRequired | SecretRequired | NotFound | NoUnit | Internal
    | TooManyAttempts | InvalidCredentials | Policy(code: string) | FactorRefused(code: string)
    | GoesOn                       // to the write transaction

  /** The account that owns the invited address, if any: which password is its
      own, whether it is a superadmin, and its second factor's refusals. */
  datatype Account = NoAccount | Account(owns: string -> bool, superadmin: bool, refuses: string -> bool)

  /** The invitation's address and the password policy in force. */
  datatype World = World(digest: string, policy: string -> Verdict)

  function PolicyAnswer(v: Verdict): Answer
    requires !v.Passes?
  {
    if v.Violates? then Policy(v.code) else Internal
  }

  function FailInvite(b: Budgets, a: Attempt): Budgets {
    b.(invites := Apply(b.invites, Op.Fail(InviteKey(a.ip), a.now, INVITE_WINDOW)))
  }

  function FailLogin(w: World, b: Budgets, a: Attempt, accountExists: bool): Budgets {
    b.(lockout := Lockout.Recording(b.lockout, w.digest, a.ip, accountExists, a.now).0)
  }

  /** One failure against the invitation budget and one against the account's. */
  function FailBoth(w: World, b: Budgets, a: Attempt, accountExists: bool): Budgets {
    FailLogin(w, FailInvite(b, a), a, accountExists)
  }

  /** Step 3: the credential work. */
  function Credentials(w: World, account: Account, b: Budgets, a: Attempt): (Budgets, Answer) {
    var verdict := w.policy(a.password);
    match account
    case NoAccount =>
      if verdict.Passes? then (b, GoesOn)
      else (FailBoth(w, b, a, false), PolicyAnswer(verdict))
    case Account(owns, superadmin, refuses) =>
      if !owns(a.password) then
        (FailBoth(w, b, a, true), if verdict.Passes? then InvalidCredentials else PolicyAnswer(verdict))
      else if superadmin then (FailLogin(w, b, a, true), InvalidCredentials)
      else if refuses(a.totpCode) then (b, FactorRefused(a.totpCode))
      else (b, GoesOn)
  }

  /** Step 2, second leg: the account's own lockout. */
  function Gate(w: World, account: Account, b: Budgets, a: Attempt): (Budgets, Answer) {
    var checked := b.(lockout := Lockout.Checked(b.lockout, w.digest, a.ip, a.now));
    if Lockout.LockedNow(b.lockout, w.digest, a.ip, a.now) then (checked, TooManyAttempts)
    else Credentials(w, account, checked, a)
  }

  /** Step 1: the secret must resolve to a usable invitation with a unit. */
  function Resolution(w: World, account: Account, b: Budgets, a: Attempt): (Budgets, Answer) {
    match a.lookup
    case Malformed => (b, SecretRequired)
    case Broken => (b, Internal)
    case Unknown => (FailInvite(b, a), NotFound)
    case Dead => (FailInvite(b, a), NotFound)
    case Usable(hasUnit) => if !hasUnit then (b, NoUnit) else Gate(w, account, b, a)
  }

  predicate InvitesSpent(b: Budgets, a: Attempt) {
    AttemptCounter.Answer(b.invites, Op.Count(InviteKey(a.ip), a.now, INVITE_WINDOW)) >= INVITE_THRESHOLD
  }

  /** AcceptInvitation up to its transaction. */
  function Accepting(w: World, account: Account, b: Budgets, a: Attempt): (Budgets, Answer) {
    var counted := b.(invites := Apply(b.invites, Op.Count(InviteKey(a.ip), a.now, INVITE_WINDOW)));
    if InvitesSpent(b, a) then (counted, TooManyInviteAttempts)
    else if !a.consent then (counted, ConsentRequired)
    else Resolution(w, account, counted, a)
  }

  function Answers(w: World, account: Account, b: Budgets, attempts: seq<Attempt>): seq<Answer>
    decreases |attempts|
  {
    if attempts == [] then []
    else
      var (next, answer) := Accepting(w, account, b, attempts[0]);
      [answer] + Answers(w, account, next, attempts[1..])
  }

  function BudgetsAfter(w: World, account: Account, b: Budgets, attempts: seq<Attempt>): Budgets
    decreases |attempts|
  {
    if attempts == [] then b
    else BudgetsAfter(w, account, Accepting(w, account, b, attempts[0]).0, attempts[1..])
  }

  // ---- What the answers tell

  /** A guess that the policy does not pass and that is not the account's own. */
  predicate Guess(w: World, account: Account, a: Attempt) {
    !w.policy(a.password).Passes? && (account.Account? ==> !account.owns(a.password))
  }

  /** The same invitation counter, and login counters that differ in alerts only. */
  ghost predicate Alike(b: Budgets, c: Budgets) {
    b.invites == c.invites && LockoutParity.Alike(b.lockout, c.lockout)
  }

  /** The two branches count the same failure. */
  lemma FailBothAlike(w: World, b: Budgets, c: Budgets, a: Attempt)
    requires Alike(b, c)
    ensures Alike(FailBoth(w, b, a, true), FailBoth(w, c, a, false))
  {
    LockoutParity.RecordingAlike(b.lockout, c.lockout, w.digest, a.ip, true, false, a.now);
  }

  lemma GateAlike(w: World, account: Account, b: Budgets, c: Budgets, a: Attempt)
    requires Alike(b, c) && account.Account? && Guess(w, account, a)
    ensures Gate(w, account, b, a).1 == Gate(w, NoAccount, c, a).1
    ensures Alike(Gate(w, account, b, a).0, Gate(w, NoAccount, c, a).0)
  {
    LockoutParity.CheckedAlike(b.lockout, c.lockout, w.digest, a.ip, a.now);
    FailBothAlike(w, b.(lockout := Lockout.Checked(b.lockout, w.digest, a.ip, a.now)),
                  c.(lockout := Lockout.Checked(c.lockout, w.digest, a.ip, a.now)), a);
  }

  lemma ResolutionAlike(w: World, account: Account, b: Budgets, c: Budgets, a: Attempt)
    requires Alike(b, c) && account.Account? && Guess(w, account, a)
    ensures Resolution(w, account, b, a).1 == Resolution(w, NoAccount, c, a).1
    ensures Alike(Resolution(w, account, b, a).0, Resolution(w, NoAccount, c, a).0)
  {
    if a.lookup.Usable? { GateAlike(w, account, b, c, a); }
  }

  lemma AcceptingAlike(w: World, account: Account, b: Budgets, c: Budgets, a: Attempt)
    requires Alike(b, c) && account.Account? && Guess(w, account, a)
    ensures Accepting(w, account, b, a).1 == Accepting(w, NoAccount, c, a).1
    ensures Alike(Accepting(w, account, b, a).0, Accepting(w, NoAccount, c, a).0)
  {
    var invites := Apply(b.invites, Op.Count(InviteKey(a.ip), a.now, INVITE_WINDOW));
    ResolutionAlike(w, account, b.(invites := invites), c.(invites := invites), a);
  }

  /** Any sequence of guesses is answered the same, switch to 429 included,
      whether or not the invited address has an account; the invitation counter
      ends equal, and the login counter on every key that does not deduplicate
      an owner's alert. */
  lemma {:induction false} GuessesDiscloseNothing(w: World, account: Account, b: Budgets, c: Budgets,
                                                  attempts: seq<Attempt>)
    requires Alike(b, c) && account.Account?
    requires forall a :: a in attempts ==> Guess(w, account, a)
    ensures Answers(w, account, b, attempts) == Answers(w, NoAccount, c, attempts)
    ensures Alike(BudgetsAfter(w, account, b, attempts), BudgetsAfter(w, NoAccount, c, attempts))
    decreases |attempts|
  {
    if attempts != [] {
      assert attempts[0] in attempts;
      AcceptingAlike(w, account, b, c, attempts[0]);
      GuessesDiscloseNothing(w, account, Accepting(w, account, b, attempts[0]).0,
                             Accepting(w, NoAccount, c, attempts[0]).0, attempts[1..]);
    }
  }

  /** May this caller act for the invited address? */
  predicate Entitled(w: World, account: Account, a: Attempt) {
    match account
    case NoAccount => w.policy(a.password).Passes?
    case Account(owns, superadmin, refuses) => owns(a.password) && !superadmin && !refuses(a.totpCode)
  }

  /** At the credential step, any account answers as an unknown address does
      exactly when either the policy passes the candidate and the caller may act
      for the account, or it does not and the candidate is not the account's own. */
  lemma AlikeExactlyWhen(w: World, account: Account, b: Budgets, c: Budgets, a: Attempt)
    requires Alike(b, c) && account.Account? && !Lockout.LockedNow(b.lockout, w.digest, a.ip, a.now)
    ensures Gate(w, account, b, a).1 == Gate(w, NoAccount, c, a).1
       <==> if w.policy(a.password).Passes? then Entitled(w, account, a) else !account.owns(a.password)
  {
    LockoutParity.CheckedAlike(b.lockout, c.lockout, w.digest, a.ip, a.now);
  }

  // ---- Every answer

  /** The failures at invitation secrets that an address has to its name. */
  function Tries(b: Budgets, ip: string, now: int): nat {
    |After(At(b.invites, InviteKey(ip)), now - 15 * Lockout.MINUTE)|
  }

  lemma InviteKeysApart(ip: string, other: string)
    ensures InviteKey(ip) == InviteKey(other) ==> ip == other
  {
    var n := |"invite:"|;
    assert InviteKey(ip)[n..] == ip && InviteKey(other)[n..] == other;
  }

  lemma CountedTries(b: Budgets, a: Attempt, other: string)
    ensures var counted := b.(invites := Apply(b.invites, Op.Count(InviteKey(a.ip), a.now, INVITE_WINDOW)));
            Tries(counted, other, a.now) == Tries(b, other, a.now)
    ensures Tries(FailInvite(b, a), other, a.now) == Tries(b, other, a.now) + (if other == a.ip then 1 else 0)
  {
    InviteKeysApart(a.ip, other);
    var log, cutoff := At(b.invites, InviteKey(a.ip)), a.now - INVITE_WINDOW;
    AfterAfter(log, cutoff, cutoff);
    AfterSnoc(After(log, cutoff), a.now, cutoff);
  }

  /** What each gate answers, in order, before the credentials are looked at: the
      tenth failure of an address closes the first one. */
  lemma GatesInOrder(w: World, account: Account, b: Budgets, a: Attempt)
    ensures var (after, answer) := Accepting(w, account, b, a);
            if Tries(b, a.ip, a.now) >= 10 then answer == TooManyInviteAttempts
            else if !a.consent then answer == ConsentRequired
            else match a.lookup
              case Malformed => answer == SecretRequired
              case Broken => answer == Internal
              case Unknown => answer == NotFound
              case Dead => answer == NotFound
              case Usable(hasUnit) =>
                if !hasUnit then answer == NoUnit
                else
                  (answer == TooManyAttempts <==>
                     || Lockout.Seen(b.lockout, Lockout.EmailKey(w.digest), a.now) >= 5
                     || Lockout.Seen(b.lockout, Lockout.IPKey(a.ip), a.now) >= 5)
  {
    Lockout.LocksFromFive(b.lockout, w.digest, a.ip, false, a.now);
  }

  /** Only a dead or unknown secret costs a try at these gates, and only the
      caller's own address. */
  lemma GatesCost(w: World, account: Account, b: Budgets, a: Attempt, other: string)
    requires Tries(b, a.ip, a.now) >= 10 || !a.consent || a.lookup != Usable(true)
    ensures var after := Accepting(w, account, b, a).0;
            var spent := Tries(b, a.ip, a.now) < 10 && a.consent && (a.lookup.Unknown? || a.lookup.Dead?)
                         && other == a.ip;
            && after.lockout == b.lockout
            && Tries(after, other, a.now) == Tries(b, other, a.now) + (if spent then 1 else 0)
  {
    var counted := b.(invites := Apply(b.invites, Op.Count(InviteKey(a.ip), a.now, INVITE_WINDOW)));
    CountedTries(b, a, other);
    CountedTries(counted, a, other);
  }

  /** The policy's refusal, or none of the caller's business. */
  predicate Refuses(verdict: Verdict, answer: Answer) {
    match verdict
    case Passes => false
    case Violates(code) => answer == Policy(code)
    case CannotTell => answer == Internal
  }

  /** What the credential work answers: a wrong password as the policy has it, a
      superadmin as a wrong password, the second factor last. */
  lemma CredentialsAnswer(w: World, account: Account, b: Budgets, a: Attempt)
    ensures var answer, verdict := Credentials(w, account, b, a).1, w.policy(a.password);
            match account
            case NoAccount => if verdict.Passes? then answer == GoesOn else Refuses(verdict, answer)
            case Account(owns, superadmin, refuses) =>
              if !owns(a.password) then
                if verdict.Passes? then answer == InvalidCredentials else Refuses(verdict, answer)
              else if superadmin then answer == InvalidCredentials
              else if refuses(a.totpCode) then answer == FactorRefused(a.totpCode)
              else answer == GoesOn
  {}

  /** What it costs: a wrong password one failure on either counter, a superadmin
      one on the login counter, anybody else nothing. */
  lemma CredentialsCost(w: World, account: Account, b: Budgets, a: Attempt)
    ensures var (after, answer) := Credentials(w, account, b, a);
            var wrong := if account.Account? then !account.owns(a.password) else !w.policy(a.password).Passes?;
            var charged := wrong || (account.Account? && account.superadmin);
            var email := Lockout.EmailKey(w.digest);
            && Tries(after, a.ip, a.now) == Tries(b, a.ip, a.now) + (if wrong then 1 else 0)
            && Lockout.Seen(after.lockout, email, a.now)
               == Lockout.Seen(b.lockout, email, a.now) + (if charged then 1 else 0)
  {
    CountedTries(b, a, a.ip);
    Lockout.RecordingSparesOthers(b.lockout, w.digest, a.ip, account.Account?, a.now, w.digest);
  }

  /** The owner's alert is tried exactly for a charged failure on an account whose
      email or caller has reached the fifth. */
  lemma CredentialsAlert(w: World, account: Account, b: Budgets, a: Attempt)
    ensures var after := Credentials(w, account, b, a).0;
            var fifth := Lockout.Seen(b.lockout, Lockout.EmailKey(w.digest), a.now) + 1 >= 5
                         || Lockout.Seen(b.lockout, Lockout.IPKey(a.ip), a.now) + 1 >= 5;
            var alert := Lockout.AlertKey(w.digest);
            Lockout.Seen(after.lockout, alert, a.now)
            == Lockout.Seen(b.lockout, alert, a.now)
               + (if account.Account? && (account.superadmin || !account.owns(a.password)) && fifth then 1 else 0)
  {
    Lockout.AlertsIff(b.lockout, w.digest, a.ip, account.Account?, a.now);
    Lockout.LocksFromFive(b.lockout, w.digest, a.ip, account.Account?, a.now);
  }

  // ---- The handler

  class Handler {
    const invites: Counter
    const lockout: Lockout.Service

    ghost predicate Valid() {
      invites != lockout.counter
    }

    ghost function Model(): Budgets
      reads invites, lockout.counter
    {
      Budgets(invites.logs, lockout.counter.logs)
    }

    constructor (invites: Counter, lockout: Lockout.Service)
      requires invites != lockout.counter
      ensures Valid() && this.invites == invites && this.lockout == lockout
    {
      this.invites := invites;
      this.lockout := lockout;
    }

    method InviteLocked(a: Attempt) returns (locked: bool)
      modifies invites
      ensures invites.logs == Apply(old(invites.logs), Op.Count(InviteKey(a.ip), a.now, INVITE_WINDOW))
      ensures locked == (AttemptCounter.Answer(old(invites.logs), Op.Count(InviteKey(a.ip), a.now, INVITE_WINDOW))
                         >= INVITE_THRESHOLD)
    {
      var n := invites.Count(InviteKey(a.ip), a.now, INVITE_WINDOW);
      locked := n >= INVITE_THRESHOLD;
    }

    /** Reaches the transaction exactly when both budgets stand, consent is
        given, the secret names a usable invitation with a unit and the caller
        may act for its address. */
    method AcceptInvitation(w: World, account: Account, a: Attempt) returns (answer: Answer)
      requires Valid()
      modifies invites, lockout.counter, lockout
      ensures (Model(), answer) == Accepting(w, account, old(Model()), a)
      ensures answer == GoesOn <==>
                && !InvitesSpent(old(Model()), a) && a.consent && a.lookup == Usable(true)
                && !Lockout.LockedNow(old(lockout.counter.logs), w.digest, a.ip, a.now) && Entitled(w, account, a)
    {
      var locked := InviteLocked(a);
      if locked {
        return TooManyInviteAttempts;
      }
      if !a.consent {
        return ConsentRequired;
      }
      match a.lookup {
        case Malformed => return SecretRequired;
        case Broken => return Internal;
        case Unknown =>
          var _ := invites.Fail(InviteKey(a.ip), a.now, INVITE_WINDOW);
          return NotFound;
        case Dead =>
          var _ := invites.Fail(InviteKey(a.ip), a.now, INVITE_WINDOW);
          return NotFound;
        case Usable(hasUnit) =>
          if !hasUnit {
            return NoUnit;
          }
      }
      var accountLocked := lockout.IsLocked(w.digest, a.ip, a.now);
      if accountLocked {
        return TooManyAttempts;
      }
      answer := CheckCredentials(w, account, a);
    }

    /** Lets through exactly who may act for the address. Right credentials cost
        nothing; a mismatch costs one failure on either counter, and a
        superadmin's own password one on the login counter alone. */
    method CheckCredentials(w: World, account: Account, a: Attempt) returns (answer: Answer)
      requires Valid()
      modifies invites, lockout.counter, lockout
      ensures (Model(), answer) == Credentials(w, account, old(Model()), a)
      ensures answer == GoesOn <==> Entitled(w, account, a)
      ensures answer == GoesOn || answer.FactorRefused? ==>
                Model() == old(Model()) && lockout.mailed == old(lockout.mailed)
      ensures account.NoAccount? ==> lockout.mailed == old(lockout.mailed)
      ensures answer != GoesOn && !answer.FactorRefused? ==>
                && invites.logs == (if account.Account? && account.owns(a.password) then old(invites.logs)
                                    else Apply(old(invites.logs), Op.Fail(InviteKey(a.ip), a.now, INVITE_WINDOW)))
                && a.now in At(lockout.counter.logs, Lockout.EmailKey(w.digest))
                && a.now in At(lockout.counter.logs, Lockout.IPKey(a.ip))
    {
      ghost var before := lockout.counter.logs;
      match account {
        case Account(owns, superadmin, refuses) =>
          if !owns(a.password) {
            var _ := invites.Fail(InviteKey(a.ip), a.now, INVITE_WINDOW);
            var _ := lockout.RecordFailure(w.digest, a.ip, true, a.now);
            RecordingCounts(before, w.digest, a.ip, true, a.now);
            var verdict := w.policy(a.password);
            return if verdict.Passes? then InvalidCredentials else PolicyAnswer(verdict);
          }
          if superadmin {
            var _ := lockout.RecordFailure(w.digest, a.ip, true, a.now);
            RecordingCounts(before, w.digest, a.ip, true, a.now);
            return InvalidCredentials;
          }
          if refuses(a.totpCode) {
            return FactorRefused(a.totpCode);
          }
          return GoesOn;
        case NoAccount =>
          var verdict := w.policy(a.password);
          if !verdict.Passes? {
            var _ := invites.Fail(InviteKey(a.ip), a.now, INVITE_WINDOW);
            var _ := lockout.RecordFailure(w.digest, a.ip, false, a.now);
            RecordingCounts(before, w.digest, a.ip, false, a.now);
            return PolicyAnswer(verdict);
          }
          return GoesOn;
      }
    }
  }

  lemma CountFailureCounts(logs: Logs, digest: string, ip: string, now: int)
    ensures var after := Lockout.CountFailure(logs, digest, ip, now).0;
            now in At(after, Lockout.EmailKey(digest)) && now in At(after, Lockout.IPKey(ip))
  {
    Lockout.KeysApart(digest, ip);
    Lockout.KeysApart(digest, Lockout.EmailKey(digest));
    Lockout.KeysApart(digest, Lockout.IPKey(ip));
    Lockout.KeysApart(ip, Lockout.EmailKey(digest));
    Lockout.KeysApart(ip, Lockout.IPKey(ip));
  }

  lemma RecordingCounts(logs: Logs, digest: string, ip: string, known: bool, now: int)
    ensures var after := Lockout.Recording(logs, digest, ip, known, now).0;
            now in At(after, Lockout.EmailKey(digest)) && now in At(after, Lockout.IPKey(ip))
  {
    CountFailureCounts(logs, digest, ip, now);
    LockoutParity.CountingKeysArePlain(digest);
    LockoutParity.CountingKeysArePlain(ip);
    LockoutParity.AlertsAside(Lockout.CountFailure(logs, digest, ip, now).0, digest, now);
  }
}
