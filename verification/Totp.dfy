/** TOTP verification and its replay guard: the highest matching step of a
    three-step window, and a conditional update that only moves forward. */
module Totp {
  import opened Common

  type UserId = int
  type RequestId = int
  type Secret = string

  const PERIOD := 30

  /** Code generation for a step; it may fail. */
  type Generator = (Secret, int) -> Option<string>

  /** Integer division truncates toward zero: the step `k` covers the thirty
      seconds from 30 * k on. */
  function StepOf(unix: int): (k: int)
    ensures unix >= 0 ==> 30 * k <= unix < 30 * (k + 1)
    ensures unix < 0 ==> 30 * (k - 1) < unix <= 30 * k
  {
    if unix >= 0 then unix / PERIOD else -((-unix) / PERIOD)
  }

  predicate InWindow(step: int, now: int) {
    StepOf(now) - 1 <= step <= StepOf(now) + 1
  }

  /** No step below zero is ever matched. */
  predicate Matches(gen: Generator, secret: Secret, code: string, step: int) {
    step >= 0 && gen(secret, step) == Some(code)
  }

  /** `step` is the highest step of the window examined at `now` that matches. */
  ghost predicate HighestMatch(gen: Generator, secret: Secret, code: string, now: int, step: int) {
    && InWindow(step, now) && Matches(gen, secret, code, step)
    && forall other :: InWindow(other, now) && Matches(gen, secret, code, other) ==> other <= step
  }

  method MatchStep(gen: Generator, secret: Secret, code: string, now: int) returns (matchedStep: int, ok: bool)
    ensures ok <==> exists step :: InWindow(step, now) && Matches(gen, secret, code, step)
    ensures ok ==> HighestMatch(gen, secret, code, now, matchedStep)
    ensures !ok ==> matchedStep == -1
    ensures now >= 0 ==>
              (ok <==> exists step :: 30 * (step - 1) <= now < 30 * (step + 2) && Matches(gen, secret, code, step))
  {
    var current := StepOf(now);
    matchedStep, ok := -1, false;
    for i := 0 to 3
      invariant ok ==> InWindow(matchedStep, now) && Matches(gen, secret, code, matchedStep)
      invariant !ok ==> matchedStep == -1
      invariant forall step :: current - 1 <= step < current - 1 + i && Matches(gen, secret, code, step) ==>
                                 ok && step <= matchedStep
    {
      var step := current - 1 + i;
      var want := gen(secret, step);
      if want.Some? {
        if want.value == code && step > matchedStep {
          matchedStep := step;
          ok := true;
        }
      }
    }
  }

  ghost function MatchAt(gen: Generator, secret: Secret, code: string, now: int): (r: Option<int>)
    ensures r.Some? ==> HighestMatch(gen, secret, code, now, r.value)
    ensures r.None? ==> forall step :: InWindow(step, now) ==> !Matches(gen, secret, code, step)
  {
    var c := StepOf(now);
    if Matches(gen, secret, code, c + 1) then Some(c + 1)
    else if Matches(gen, secret, code, c) then Some(c)
    else if Matches(gen, secret, code, c - 1) then Some(c - 1)
    else None
  }

  // ---- The table

  datatype Mfa = Mfa(secret: Secret, enabled: bool, last: Option<int>)

  type Rows = map<UserId, Mfa>

  /** UPDATE ... WHERE last_totp_step IS NULL OR last_totp_step < $2 */
  predicate Advances(rows: Rows, user: UserId, step: int) {
    user in rows && (rows[user].last.None? || rows[user].last.value < step)
  }

  function Advanced(rows: Rows, user: UserId, step: int): Rows
    requires user in rows
  {
    rows[user := rows[user].(last := Some(step))]
  }

  /** A new row is inactive and has no step; an existing one gets the secret. */
  function Upserted(rows: Rows, user: UserId, secret: Secret): Rows {
    rows[user := if user in rows then rows[user].(secret := secret) else Mfa(secret, false, None)]
  }

  datatype Outcome = Accepted | InvalidCode | Replayed

  class Table {
    var rows: Rows

    constructor ()
      ensures rows == map[]
    {
      rows := map[];
    }

    method Upsert(user: UserId, secret: Secret)
      modifies this
      ensures rows == Upserted(old(rows), user, secret)
      ensures rows[user].secret == secret
      ensures user in old(rows) ==> rows[user] == old(rows)[user].(secret := secret)
    {
      if user in rows {
        rows := rows[user := rows[user].(secret := secret)];
      } else {
        rows := rows[user := Mfa(secret, false, None)];
      }
    }

    /** Activation checks the code and leaves the last step as it is. */
    method ConfirmEnrollment(gen: Generator, user: UserId, code: string, now: int) returns (ok: bool)
      requires user in rows
      modifies this
      ensures ok <==> MatchAt(gen, old(rows)[user].secret, code, now).Some?
      ensures rows == if ok then old(rows)[user := old(rows)[user].(enabled := true)] else old(rows)
      ensures rows[user].last == old(rows)[user].last
    {
      var _, matched := MatchStep(gen, rows[user].secret, code, now);
      if !matched {
        return false;
      }
      rows := rows[user := rows[user].(enabled := true)];
      return true;
    }

    method UpdateLastStep(user: UserId, step: int) returns (affected: nat)
      modifies this
      ensures affected == if Advances(old(rows), user, step) then 1 else 0
      ensures rows == if affected == 1 then Advanced(old(rows), user, step) else old(rows)
    {
      if user in rows && (rows[user].last.None? || rows[user].last.value < step) {
        rows := rows[user := rows[user].(last := Some(step))];
        return 1;
      }
      return 0;
    }

    /** `conflict` is a serialization failure of the update. */
    method VerifyTOTP(gen: Generator, user: UserId, secret: Secret, code: string, now: int, conflict: bool)
      returns (outcome: Outcome)
      modifies this
      ensures var step := MatchAt(gen, secret, code, now);
              && (outcome == InvalidCode <==> step.None?)
              && (outcome == Accepted <==> step.Some? && !conflict && Advances(old(rows), user, step.value))
              && rows == (if outcome == Accepted then Advanced(old(rows), user, step.value) else old(rows))
    {
      var step, ok := MatchStep(gen, secret, code, now);
      if !ok {
        return InvalidCode;
      }
      if conflict {
        return Replayed;
      }
      var n := UpdateLastStep(user, step);
      if n == 0 {
        return Replayed;
      }
      return Accepted;
    }
  }

  // ---- Enrollment, activation and overlapping verifications

  /** A verification reads the secret, then the clock and the code, then writes. */
  datatype Phase =
    | Read(user: UserId, secret: Secret, code: string)
    | Matched(user: UserId, secret: Secret, code: string, at: int, step: int)
    | Done(outcome: Outcome)

  /** Who, under which secret, with which code, when, and for which step. */
  datatype Use = Use(user: UserId, secret: Secret, code: string, at: int, step: int)

  datatype State = State(clock: int, rows: Rows, requests: map<RequestId, Phase>, activations: seq<Use>,
                         accepted: seq<Use>)

  datatype Event =
    | Tick(to: int)
    | Enroll(user: UserId, secret: Secret)
    | Confirm(user: UserId, code: string)
    | Start(req: RequestId, user: UserId, code: string)
    | Match(req: RequestId)
    | Update(req: RequestId, conflict: bool)

  predicate Active(rows: Rows, user: UserId) {
    user in rows && rows[user].enabled
  }

  /** An active factor is not enrolled again; verification is for active ones.
      Activation holds the user's row lock, so its check and its write are one
      step. */
  ghost function Next(gen: Generator, s: State, e: Event): State {
    match e
    case Tick(to) => if to >= s.clock then s.(clock := to) else s
    case Enroll(user, secret) => if Active(s.rows, user) then s else s.(rows := Upserted(s.rows, user, secret))
    case Confirm(user, code) => ConfirmIn(gen, s, user, code)
    case Start(r, user, code) =>
      if r in s.requests || !Active(s.rows, user) then s
      else s.(requests := s.requests[r := Read(user, s.rows[user].secret, code)])
    case Match(r) => MatchIn(gen, s, r)
    case Update(r, conflict) => UpdateIn(s, r, conflict)
  }

  ghost function ConfirmIn(gen: Generator, s: State, user: UserId, code: string): State {
    if user !in s.rows || s.rows[user].enabled then s
    else
      var step := MatchAt(gen, s.rows[user].secret, code, s.clock);
      if step.None? then s
      else
        s.(rows := s.rows[user := s.rows[user].(enabled := true)],
           activations := s.activations + [Use(user, s.rows[user].secret, code, s.clock, step.value)])
  }

  ghost function MatchIn(gen: Generator, s: State, r: RequestId): State {
    if !(r in s.requests && s.requests[r].Read?) then s
    else
      var p := s.requests[r];
      var step := MatchAt(gen, p.secret, p.code, s.clock);
      s.(requests := s.requests[r := if step.None? then Done(InvalidCode)
                                     else Matched(p.user, p.secret, p.code, s.clock, step.value)])
  }

  function UpdateIn(s: State, r: RequestId, conflict: bool): State {
    if !(r in s.requests && s.requests[r].Matched?) then s
    else
      var p := s.requests[r];
      if conflict || !Advances(s.rows, p.user, p.step) then s.(requests := s.requests[r := Done(Replayed)])
      else
        s.(rows := Advanced(s.rows, p.user, p.step), requests := s.requests[r := Done(Accepted)],
           accepted := s.accepted + [Use(p.user, p.secret, p.code, p.at, p.step)])
  }

  ghost function Run(gen: Generator, s: State, events: seq<Event>): State
    decreases |events|
  {
    if events == [] then s else Run(gen, Next(gen, s, events[0]), events[1..])
  }

  function Init(clock: int): State { State(clock, map[], map[], [], []) }

  ghost predicate Right(gen: Generator, use: Use) {
    HighestMatch(gen, use.secret, use.code, use.at, use.step)
  }

  ghost predicate MatchedRight(gen: Generator, s: State) {
    && (forall r :: r in s.requests && s.requests[r].Matched? ==>
          HighestMatch(gen, s.requests[r].secret, s.requests[r].code, s.requests[r].at, s.requests[r].step))
    && (forall i :: 0 <= i < |s.accepted| ==> Right(gen, s.accepted[i]))
    && (forall i :: 0 <= i < |s.activations| ==> Right(gen, s.activations[i]))
  }

  /** The step of the user's last acceptance. */
  function LastStep(accepted: seq<Use>, user: UserId): Option<int> {
    if accepted == [] then None
    else
      var last := accepted[|accepted| - 1];
      if last.user == user then Some(last.step) else LastStep(accepted[..|accepted| - 1], user)
  }

  /** The stored step is the user's last accepted one, and no smaller than any. */
  ghost predicate Guarded(s: State) {
    && (forall u :: u in s.rows ==> s.rows[u].last == LastStep(s.accepted, u))
    && (forall i :: 0 <= i < |s.accepted| ==>
          var a := s.accepted[i];
          a.user in s.rows && s.rows[a.user].last.Some? && a.step <= s.rows[a.user].last.value)
    && (forall i, j :: 0 <= i < j < |s.accepted| && s.accepted[i].user == s.accepted[j].user ==>
          s.accepted[i].step < s.accepted[j].step)
  }

  /** An activation's secret is the stored one from then on. */
  ghost predicate ActivationsStand(s: State) {
    forall i :: 0 <= i < |s.activations| ==>
      var a := s.activations[i];
      Active(s.rows, a.user) && s.rows[a.user].secret == a.secret
  }

  ghost predicate Inv(gen: Generator, s: State) {
    MatchedRight(gen, s) && Guarded(s) && ActivationsStand(s)
  }

  /** A user nobody was accepted for has no last step. */
  lemma {:induction false} NoLastStep(accepted: seq<Use>, user: UserId)
    ensures LastStep(accepted, user).None? <==> forall i :: 0 <= i < |accepted| ==> accepted[i].user != user
  {
    if accepted != [] {
      NoLastStep(accepted[..|accepted| - 1], user);
    }
  }

  lemma LastOfSnoc(accepted: seq<Use>, use: Use, user: UserId)
    ensures LastStep(accepted + [use], user) == if use.user == user then Some(use.step) else LastStep(accepted, user)
  {
    assert (accepted + [use])[..|accepted|] == accepted;
  }

  /** A step beyond the stored one, and so beyond every accepted one, is stored. */
  lemma AcceptGuards(s: State, use: Use)
    requires Guarded(s) && Advances(s.rows, use.user, use.step)
    ensures Guarded(s.(rows := Advanced(s.rows, use.user, use.step), accepted := s.accepted + [use]))
  {
    var t := s.(rows := Advanced(s.rows, use.user, use.step), accepted := s.accepted + [use]);
    forall u | u in t.rows ensures t.rows[u].last == LastStep(t.accepted, u) { LastOfSnoc(s.accepted, use, u); }
  }

  lemma UpdateGuarded(s: State, r: RequestId, conflict: bool)
    requires Guarded(s)
    ensures Guarded(UpdateIn(s, r, conflict))
  {
    if r in s.requests && s.requests[r].Matched? {
      var p := s.requests[r];
      if !conflict && Advances(s.rows, p.user, p.step) {
        AcceptGuards(s, Use(p.user, p.secret, p.code, p.at, p.step));
      }
    }
  }

  lemma UpdateKeeps(gen: Generator, s: State, r: RequestId, conflict: bool)
    requires Inv(gen, s)
    ensures Inv(gen, UpdateIn(s, r, conflict))
  {
    UpdateGuarded(s, r, conflict);
    UpdateKeepsMatches(gen, s, r, conflict);
    UpdateKeepsActivations(s, r, conflict);
  }

  lemma UpdateKeepsMatches(gen: Generator, s: State, r: RequestId, conflict: bool)
    requires MatchedRight(gen, s)
    ensures MatchedRight(gen, UpdateIn(s, r, conflict))
  {}

  lemma UpdateKeepsActivations(s: State, r: RequestId, conflict: bool)
    requires ActivationsStand(s)
    ensures ActivationsStand(UpdateIn(s, r, conflict))
  {}

  lemma EnrollKeeps(gen: Generator, s: State, user: UserId, secret: Secret)
    requires Inv(gen, s) && !Active(s.rows, user)
    ensures Inv(gen, s.(rows := Upserted(s.rows, user, secret)))
  {
    NoLastStep(s.accepted, user);
  }

  lemma ConfirmKeeps(gen: Generator, s: State, user: UserId, code: string)
    requires Inv(gen, s)
    ensures Inv(gen, ConfirmIn(gen, s, user, code))
  {}

  lemma MatchKeeps(gen: Generator, s: State, r: RequestId)
    requires Inv(gen, s)
    ensures Inv(gen, MatchIn(gen, s, r))
  {}

  lemma StepKeeps(gen: Generator, s: State, e: Event)
    requires Inv(gen, s)
    ensures Inv(gen, Next(gen, s, e))
  {
    match e
    case Enroll(user, secret) => if !Active(s.rows, user) { EnrollKeeps(gen, s, user, secret); }
    case Confirm(user, code) => ConfirmKeeps(gen, s, user, code);
    case Match(r) => MatchKeeps(gen, s, r);
    case Update(r, conflict) => UpdateKeeps(gen, s, r, conflict);
    case _ =>
  }

  lemma {:induction false} RunKeeps(gen: Generator, s: State, events: seq<Event>)
    requires Inv(gen, s)
    ensures Inv(gen, Run(gen, s, events))
    decreases |events|
  {
    if events != [] {
      StepKeeps(gen, s, events[0]);
      RunKeeps(gen, Next(gen, s, events[0]), events[1..]);
    }
  }

  // ---- Only active factors verify

  predicate Activated(activations: seq<Use>, i: int, user: UserId) {
    0 <= i < |activations| && activations[i].user == user
  }

  /** The user's factor is active, under this secret. */
  predicate Holds(rows: Rows, user: UserId, secret: Secret) {
    Active(rows, user) && rows[user].secret == secret
  }

  /** An active factor was activated, and whoever verifies or was accepted has one
      under that secret. */
  ghost predicate OnlyActive(s: State) {
    && (forall u :: Active(s.rows, u) ==> exists i :: Activated(s.activations, i, u))
    && (forall r :: r in s.requests && !s.requests[r].Done? ==> Holds(s.rows, s.requests[r].user, s.requests[r].secret))
    && (forall i :: 0 <= i < |s.accepted| ==> Holds(s.rows, s.accepted[i].user, s.accepted[i].secret))
  }

  lemma RowsKeepActive(s: State, rows: Rows)
    requires OnlyActive(s)
    requires forall u :: Active(rows, u) <==> Active(s.rows, u)
    requires forall u :: Active(rows, u) ==> rows[u].secret == s.rows[u].secret
    ensures OnlyActive(s.(rows := rows))
  {}

  lemma ConfirmOnlyActive(gen: Generator, s: State, user: UserId, code: string)
    requires OnlyActive(s)
    ensures OnlyActive(ConfirmIn(gen, s, user, code))
  {
    var t := ConfirmIn(gen, s, user, code);
    forall u | Active(t.rows, u) ensures exists i :: Activated(t.activations, i, u) {
      if Active(s.rows, u) {
        var i :| Activated(s.activations, i, u);
        assert Activated(t.activations, i, u);
      } else {
        assert Activated(t.activations, |s.activations|, u);
      }
    }
  }

  lemma RequestOnlyActive(s: State, r: RequestId, p: Phase)
    requires OnlyActive(s) && (p.Done? || Holds(s.rows, p.user, p.secret))
    ensures OnlyActive(s.(requests := s.requests[r := p]))
  {}

  lemma AcceptOnlyActive(s: State, use: Use)
    requires OnlyActive(s) && Holds(s.rows, use.user, use.secret)
    ensures OnlyActive(s.(accepted := s.accepted + [use]))
  {}

  lemma UpdateOnlyActive(s: State, r: RequestId, conflict: bool)
    requires OnlyActive(s)
    ensures OnlyActive(UpdateIn(s, r, conflict))
  {
    if r in s.requests && s.requests[r].Matched? {
      var p := s.requests[r];
      RequestOnlyActive(s, r, Done(Replayed));
      RequestOnlyActive(s, r, Done(Accepted));
      var done := s.(requests := s.requests[r := Done(Accepted)]);
      RowsKeepActive(done, Advanced(s.rows, p.user, p.step));
      AcceptOnlyActive(done.(rows := Advanced(s.rows, p.user, p.step)), Use(p.user, p.secret, p.code, p.at, p.step));
    }
  }

  lemma StepOnlyActive(gen: Generator, s: State, e: Event)
    requires OnlyActive(s)
    ensures OnlyActive(Next(gen, s, e))
  {
    match e
    case Tick(_) =>
    case Enroll(user, secret) =>
      if !Active(s.rows, user) { RowsKeepActive(s, Upserted(s.rows, user, secret)); }
    case Confirm(user, code) => ConfirmOnlyActive(gen, s, user, code);
    case Start(r, user, code) =>
      if r !in s.requests && Active(s.rows, user) { RequestOnlyActive(s, r, Read(user, s.rows[user].secret, code)); }
    case Match(r) =>
      if r in s.requests && s.requests[r].Read? { RequestOnlyActive(s, r, MatchIn(gen, s, r).requests[r]); }
    case Update(r, conflict) => UpdateOnlyActive(s, r, conflict);
  }

  lemma {:induction false} RunOnlyActive(gen: Generator, s: State, events: seq<Event>)
    requires OnlyActive(s)
    ensures OnlyActive(Run(gen, s, events))
    decreases |events|
  {
    if events != [] {
      StepOnlyActive(gen, s, events[0]);
      RunOnlyActive(gen, Next(gen, s, events[0]), events[1..]);
    }
  }

  // ---- Main results

  /** In any interleaving, an account's accepted steps strictly increase in the
      order of acceptance; a code accepted again under the same secret is
      accepted for a step beyond the window examined the first time. */
  lemma NoReplay(gen: Generator, clock: int, events: seq<Event>, i: nat, j: nat)
    requires i < j < |Run(gen, Init(clock), events).accepted|
    requires var done := Run(gen, Init(clock), events).accepted; done[i].user == done[j].user
    ensures var done := Run(gen, Init(clock), events).accepted;
            && done[i].step < done[j].step
            && (done[i].secret == done[j].secret && done[i].code == done[j].code ==>
                  done[j].step > StepOf(done[i].at) + 1)
  {
    RunKeeps(gen, Init(clock), events);
    var s := Run(gen, Init(clock), events);
    assert Right(gen, s.accepted[i]) && Right(gen, s.accepted[j]);
    var again := s.accepted[j].step;
    assert InWindow(again, s.accepted[i].at) || again > StepOf(s.accepted[i].at) + 1;
  }

  /** In every interleaving an accepted code is one of an active factor, under the
      secret it was activated with and has kept. */
  lemma AcceptedUnderTheActivated(gen: Generator, clock: int, events: seq<Event>, i: nat)
    requires i < |Run(gen, Init(clock), events).accepted|
    ensures var s := Run(gen, Init(clock), events);
            exists k :: 0 <= k < |s.activations| && s.activations[k].user == s.accepted[i].user
                        && s.activations[k].secret == s.accepted[i].secret
  {
    RunKeeps(gen, Init(clock), events);
    RunOnlyActive(gen, Init(clock), events);
    var s := Run(gen, Init(clock), events);
    assert Holds(s.rows, s.accepted[i].user, s.accepted[i].secret);
    var k :| Activated(s.activations, k, s.accepted[i].user);
    assert s.rows[s.activations[k].user].secret == s.activations[k].secret;
  }

  /** How a verification is answered: at the match if no step of the window fits,
      otherwise by the update, which accepts exactly when nothing conflicts and
      the step is beyond the stored one, and then logs it. */
  lemma AnswersByCondition(gen: Generator, s: State, r: RequestId, conflict: bool)
    requires r in s.requests
    ensures var t := Next(gen, s, Match(r));
            s.requests[r].Read? ==>
              (t.requests[r] == Done(InvalidCode)
               <==> forall k :: InWindow(k, s.clock) ==> !Matches(gen, s.requests[r].secret, s.requests[r].code, k))
    ensures var t, p := Next(gen, s, Update(r, conflict)), s.requests[r];
            p.Matched? ==>
              var ahead := p.user in s.rows && (s.rows[p.user].last.Some? ==> s.rows[p.user].last.value < p.step);
              if ahead && !conflict then
                && t.requests[r] == Done(Accepted)
                && t.accepted == s.accepted + [Use(p.user, p.secret, p.code, p.at, p.step)]
              else t.requests[r] == Done(Replayed) && t.accepted == s.accepted && t.rows == s.rows
  {}

  /** One verification from start to finish, nothing in between. */
  ghost function VerifyNow(gen: Generator, s: State, r: RequestId, user: UserId, code: string): State {
    Next(gen, Next(gen, Next(gen, s, Start(r, user, code)), Match(r)), Update(r, false))
  }

  ghost predicate AcceptsNow(gen: Generator, s: State, r: RequestId, user: UserId, code: string) {
    var t := VerifyNow(gen, s, r, user, code);
    r in t.requests && t.requests[r] == Done(Accepted)
  }

  lemma AcceptsNowIff(gen: Generator, s: State, r: RequestId, user: UserId, code: string)
    requires r !in s.requests && Active(s.rows, user)
    ensures var step := MatchAt(gen, s.rows[user].secret, code, s.clock);
            AcceptsNow(gen, s, r, user, code) <==> step.Some? && Advances(s.rows, user, step.value)
  {}

  /** Activation consumes no step. In every run the code that activated a factor
      is accepted by a verification now exactly when it matches a step of the
      window at this moment that lies beyond the last accepted one; as long as
      nothing was accepted for the user, exactly when it still matches at all. So
      the confirmation code fails as a first live code just when its window is
      over. */
  lemma ActivatingCodeAcceptedIff(gen: Generator, clock: int, events: seq<Event>, i: nat, r: RequestId)
    requires var s := Run(gen, Init(clock), events); i < |s.activations| && r !in s.requests
    ensures var s := Run(gen, Init(clock), events);
            var a := s.activations[i];
            var step, last := MatchAt(gen, a.secret, a.code, s.clock), LastStep(s.accepted, a.user);
            && (AcceptsNow(gen, s, r, a.user, a.code) <==> step.Some? && (last.None? || last.value < step.value))
            && ((forall n :: 0 <= n < |s.accepted| ==> s.accepted[n].user != a.user) ==>
                  (AcceptsNow(gen, s, r, a.user, a.code) <==> step.Some?))
  {
    RunKeeps(gen, Init(clock), events);
    var s := Run(gen, Init(clock), events);
    var a := s.activations[i];
    AcceptsNowIff(gen, s, r, a.user, a.code);
    NoLastStep(s.accepted, a.user);
  }

  /** And it does happen: whatever code activates a factor is accepted by a
      verification that follows at the same moment. */
  lemma ActivatingCodeReplays(gen: Generator, clock: int, user: UserId, secret: Secret, code: string)
    requires MatchAt(gen, secret, code, clock).Some?
    ensures var s := Run(gen, Init(clock), [Enroll(user, secret), Confirm(user, code)]);
            && |s.activations| == 1 && s.activations[0].user == user && s.activations[0].code == code
            && s.clock == clock && AcceptsNow(gen, s, 0, user, code)
  {
    var events := [Enroll(user, secret), Confirm(user, code)];
    assert events[1..] == [Confirm(user, code)] && events[1..][1..] == [];
    var s := Next(gen, Next(gen, Init(clock), events[0]), events[1]);
    assert Run(gen, Next(gen, Init(clock), events[0]), events[1..]) == s;
    AcceptsNowIff(gen, s, 0, user, code);
  }

  /** Until time has passed: once no step of the window fits the code any more, the
      verification that follows is refused. */
  lemma ActivatingCodeOutlived(gen: Generator, clock: int, user: UserId, secret: Secret, code: string, later: int)
    requires MatchAt(gen, secret, code, clock).Some? && later >= clock
    requires forall k :: InWindow(k, later) ==> !Matches(gen, secret, code, k)
    ensures var s := Run(gen, Init(clock), [Enroll(user, secret), Confirm(user, code), Tick(later)]);
            Active(s.rows, user) && s.clock == later && !AcceptsNow(gen, s, 0, user, code)
  {
    var events := [Enroll(user, secret), Confirm(user, code), Tick(later)];
    assert events[1..] == [Confirm(user, code), Tick(later)] && events[1..][1..] == [Tick(later)];
    assert [Tick(later)][1..] == [];
    var s := Next(gen, Next(gen, Next(gen, Init(clock), events[0]), events[1]), events[2]);
    assert Run(gen, Next(gen, Next(gen, Init(clock), events[0]), events[1]), [Tick(later)]) == s;
    AcceptsNowIff(gen, s, 0, user, code);
  }
}
