/** The TOTP attempt throttle: overlapping verifications of one user over the
    sliding-window counter. */
module Throttle {
  import opened AttemptCounter

  type CallId = int

  const THRESHOLD := 5
  const WINDOW := 15 * 60 * 1_000_000_000

  datatype Outcome = Accepted | Refused | Errored

  // ---- One call

  function FailKey(user: string): Key {
    "auth:fail:totp:" + user
  }

  /** Users do not share a key. */
  lemma FailKeysApart(user: string, other: string)
    ensures FailKey(user) == FailKey(other) ==> user == other
  {
    var n := |"auth:fail:totp:"|;
    assert FailKey(user)[n..] == user && FailKey(other)[n..] == other;
  }

  /** ThrottledVerify around a verification with the given outcome; the counter
      is read at `entered` and written at `left`. */
  method ThrottledVerify(counter: Counter, user: string, entered: int, left: int, verify: Outcome)
    returns (accepted: bool, throttled: bool, failed: bool)
    modifies counter
    ensures var before := old(counter.logs);
            var read := Op.Count(FailKey(user), entered, WINDOW);
            && throttled == (Answer(before, read) >= THRESHOLD)
            && accepted == (!throttled && verify == Accepted)
            && failed == (!throttled && verify == Errored)
            && counter.logs == (
                 if throttled || verify == Errored then Apply(before, read)
                 else if accepted then Apply(Apply(before, read), Op.Reset(FailKey(user)))
                 else Apply(Apply(before, read), Op.Fail(FailKey(user), left, WINDOW)))
    ensures forall other :: other != user ==> At(counter.logs, FailKey(other)) == At(old(counter.logs), FailKey(other))
  {
    forall other | other != user ensures FailKey(other) != FailKey(user) { FailKeysApart(user, other); }
    var n := counter.Count(FailKey(user), entered, WINDOW);
    if n >= THRESHOLD {
      return false, true, false;
    }
    match verify
    case Errored =>
      return false, false, true;
    case Accepted =>
      counter.Reset(FailKey(user));
      return true, false, false;
    case Refused =>
      var _ := counter.Fail(FailKey(user), left, WINDOW);
      return false, false, false;
  }

  // ---- Overlapping calls of one user

  /** The counter, the calls past their check, and every failure recorded since
      the last success. */
  datatype State = State(clock: int, logs: Logs, running: set<CallId>, failures: seq<int>)

  datatype Step =
    | Tick(to: int)
    | Enter(call: CallId)
    | Leave(call: CallId, outcome: Outcome)

  /** At most `k` calls of the user overlap. */
  function Next(user: string, k: nat, s: State, step: Step): State {
    var key := FailKey(user);
    match step
    case Tick(to) => if to >= s.clock then s.(clock := to) else s
    case Enter(c) =>
      if c in s.running || |s.running| >= k then s
      else
        var read := Op.Count(key, s.clock, WINDOW);
        var t := s.(logs := Apply(s.logs, read));
        if Answer(s.logs, read) >= THRESHOLD then t else t.(running := s.running + {c})
    case Leave(c, outcome) =>
      if c !in s.running then s
      else
        var t := s.(running := s.running - {c});
        match outcome
        case Errored => t
        case Accepted => t.(logs := Apply(s.logs, Op.Reset(key)), failures := [])
        case Refused => t.(logs := Apply(s.logs, Op.Fail(key, s.clock, WINDOW)), failures := s.failures + [s.clock])
  }

  function Run(user: string, k: nat, s: State, steps: seq<Step>): State
    decreases |steps|
  {
    if steps == [] then s else Run(user, k, Next(user, k, s, steps[0]), steps[1..])
  }

  function Init(start: int): State {
    State(start, map[], {}, [])
  }

  /** The failures in the quarter of an hour after `from`, its end included. */
  function Within(failures: seq<int>, from: int): nat
    decreases |failures|
  {
    if failures == [] then 0
    else
      var t := failures[|failures| - 1];
      Within(failures[..|failures| - 1], from) + (if from < t <= from + WINDOW then 1 else 0)
  }

  lemma WithinSnoc(failures: seq<int>, t: int, from: int)
    ensures Within(failures + [t], from) == Within(failures, from) + (if from < t <= from + WINDOW then 1 else 0)
  {
    assert (failures + [t])[..|failures|] == failures;
  }

  lemma {:induction false} AfterShrinks(times: seq<int>, early: int, late: int)
    requires early <= late
    ensures |After(times, late)| <= |After(times, early)|
  {
    if times != [] { AfterShrinks(times[1..], early, late); }
  }

  /** Until the interval is over, the counter sees all its failures. */
  lemma {:induction false} WithinIsAfter(failures: seq<int>, from: int, clock: int)
    requires clock <= from + WINDOW && forall t :: t in failures ==> t <= clock
    ensures Within(failures, from) == |After(failures, from)|
    decreases |failures|
  {
    if failures != [] {
      var n := |failures| - 1;
      assert failures == failures[..n] + [failures[n]];
      assert forall t :: t in failures[..n] ==> t in failures;
      assert failures[n] in failures;
      WithinIsAfter(failures[..n], from, clock);
      AfterSnoc(failures[..n], failures[n], from);
    }
  }

  ghost predicate Tracks(user: string, s: State) {
    && (forall t :: t in s.failures ==> t <= s.clock)
    && Agree(At(s.logs, FailKey(user)), s.failures, s.clock, WINDOW)
  }

  /** Once five failures lie in a running interval, only calls that are already
      past their check can still add to it. */
  ghost predicate Capped(k: nat, s: State, from: int) {
    var m := Within(s.failures, from);
    && |s.running| <= k
    && m <= THRESHOLD - 1 + k
    && (s.clock <= from + WINDOW && m >= THRESHOLD ==> m + |s.running| <= THRESHOLD - 1 + k)
  }

  lemma TracksEnter(user: string, k: nat, s: State, c: CallId)
    requires Tracks(user, s)
    ensures Tracks(user, Next(user, k, s, Enter(c)))
  {
    var log, t := At(s.logs, FailKey(user)), Next(user, k, s, Enter(c));
    AgreeCount(log, s.failures, s.clock, WINDOW, s.clock);
    assert At(t.logs, FailKey(user)) == log || At(t.logs, FailKey(user)) == After(log, s.clock - WINDOW);
  }

  lemma TracksLeave(user: string, k: nat, s: State, c: CallId, outcome: Outcome)
    requires Tracks(user, s)
    ensures Tracks(user, Next(user, k, s, Leave(c, outcome)))
  {
    var log, t := At(s.logs, FailKey(user)), Next(user, k, s, Leave(c, outcome));
    if c in s.running && outcome == Refused {
      AgreeFail(log, s.failures, s.clock, WINDOW, s.clock);
      assert At(t.logs, FailKey(user)) == After(log, s.clock - WINDOW) + [s.clock];
    } else if c in s.running && outcome == Accepted {
      assert At(t.logs, FailKey(user)) == [];
    } else {
      assert t.logs == s.logs && t.failures == s.failures;
    }
  }

  /** A call of its own is its two steps: what the check answers, and what the
      outcome leaves in the counter. */
  lemma CallIsItsSteps(user: string, k: nat, s: State, c: CallId, outcome: Outcome)
    requires s.running == {} && k > 0
    ensures var key := FailKey(user);
            var n := |After(At(s.logs, key), s.clock - WINDOW)|;
            var t := Next(user, k, Next(user, k, s, Enter(c)), Leave(c, outcome));
            && (n >= 5 || outcome.Errored? ==> |At(t.logs, key)| == n && t.failures == s.failures)
            && (n < 5 && outcome.Accepted? ==> key !in t.logs && t.failures == [])
            && (n < 5 && outcome.Refused? ==> |At(t.logs, key)| == n + 1 && t.failures == s.failures + [s.clock])
            && t.running == {}
  {
    AfterAfter(At(s.logs, FailKey(user)), s.clock - WINDOW, s.clock - WINDOW);
  }

  lemma TracksStep(user: string, k: nat, s: State, step: Step)
    requires Tracks(user, s)
    ensures Tracks(user, Next(user, k, s, step))
  {
    match step
    case Tick(to) =>
    case Enter(c) => TracksEnter(user, k, s, c);
    case Leave(c, outcome) => TracksLeave(user, k, s, c, outcome);
  }

  lemma CappedStep(user: string, k: nat, s: State, step: Step, from: int)
    requires Tracks(user, s) && Capped(k, s, from)
    ensures Capped(k, Next(user, k, s, step), from)
  {
    var key := FailKey(user);
    match step
    case Tick(to) =>
    case Enter(c) =>
      if s.clock <= from + WINDOW && Within(s.failures, from) >= THRESHOLD {
        WithinIsAfter(s.failures, from, s.clock);
        AfterShrinks(s.failures, s.clock - WINDOW, from);
        assert After(At(s.logs, key), s.clock - WINDOW) == After(s.failures, s.clock - WINDOW);
        assert Answer(s.logs, Op.Count(key, s.clock, WINDOW)) >= THRESHOLD;
      }
    case Leave(c, outcome) =>
      if c in s.running {
        assert |s.running - {c}| == |s.running| - 1;
        if outcome == Refused { WithinSnoc(s.failures, s.clock, from); }
      }
  }

  lemma {:induction false} CappedRun(user: string, k: nat, s: State, steps: seq<Step>, from: int)
    requires Tracks(user, s) && Capped(k, s, from)
    ensures Capped(k, Run(user, k, s, steps), from)
    decreases |steps|
  {
    if steps != [] {
      TracksStep(user, k, s, steps[0]);
      CappedStep(user, k, s, steps[0], from);
      CappedRun(user, k, Next(user, k, s, steps[0]), steps[1..], from);
    }
  }

  // ---- Main results

  /** With at most k overlapping calls, any quarter of an hour holds at most
      4 + k failures that no success has wiped out. */
  lemma FailuresPerWindow(user: string, k: nat, start: int, steps: seq<Step>, from: int)
    requires k > 0
    ensures Within(Run(user, k, Init(start), steps).failures, from) <= THRESHOLD - 1 + k
  {
    CappedRun(user, k, Init(start), steps, from);
  }

  /** Calls that do not overlap never exceed the threshold. */
  lemma SequentialFailuresPerWindow(user: string, start: int, steps: seq<Step>, from: int)
    ensures Within(Run(user, 1, Init(start), steps).failures, from) <= THRESHOLD
  {
    FailuresPerWindow(user, 1, start, steps, from);
  }

  // ---- The bound is reached, and passes

  function Serial(n: nat): seq<Step> {
    if n == 0 then [] else Serial(n - 1) + [Enter(0), Leave(0, Refused)]
  }

  function Enters(n: nat): seq<Step> {
    if n == 0 then [] else Enters(n - 1) + [Enter(n)]
  }

  function Refusals(n: nat): seq<Step> {
    if n == 0 then [] else Refusals(n - 1) + [Leave(n, Refused)]
  }

  function Instants(n: nat): (z: seq<int>)
    ensures |z| == n && forall i :: 0 <= i < n ==> z[i] == 0
  {
    seq(n, _ => 0)
  }

  function Calls(from: nat, to: nat): (cs: set<CallId>)
    ensures forall c :: c in cs <==> from < c <= to
  {
    if to <= from then {} else Calls(from, to - 1) + {to}
  }

  /** `n` failures so far, all at time zero, and these calls past their check. */
  ghost predicate Holds(user: string, s: State, n: nat, running: set<CallId>) {
    s.clock == 0 && s.failures == Instants(n) && At(s.logs, FailKey(user)) == Instants(n) && s.running == running
  }

  lemma {:induction false} RunConcat(user: string, k: nat, s: State, a: seq<Step>, b: seq<Step>)
    ensures Run(user, k, s, a + b) == Run(user, k, Run(user, k, s, a), b)
    decreases |a|
  {
    if a == [] {
      assert a + b == b;
    } else {
      assert (a + b)[0] == a[0] && (a + b)[1..] == a[1..] + b;
      RunConcat(user, k, Next(user, k, s, a[0]), a[1..], b);
    }
  }

  lemma RunSnoc(user: string, k: nat, s: State, a: seq<Step>, step: Step)
    ensures Run(user, k, s, a + [step]) == Next(user, k, Run(user, k, s, a), step)
  {
    RunConcat(user, k, s, a, [step]);
    var t := Run(user, k, s, a);
    assert Run(user, k, t, [step]) == Run(user, k, Next(user, k, t, step), []);
  }

  lemma {:induction false} AllInstantsAfter(n: nat, cutoff: int)
    requires cutoff < 0
    ensures After(Instants(n), cutoff) == Instants(n)
  {
    if n > 0 {
      assert Instants(n)[1..] == Instants(n - 1);
      AllInstantsAfter(n - 1, cutoff);
    }
  }

  lemma {:induction false} InstantsWithin(n: nat)
    ensures Within(Instants(n), -1) == n
  {
    if n > 0 {
      assert Instants(n)[..n - 1] == Instants(n - 1);
      InstantsWithin(n - 1);
    }
  }

  lemma EnterAtZero(user: string, k: nat, s: State, n: nat, c: CallId)
    requires Holds(user, s, n, s.running) && n < THRESHOLD && c !in s.running && |s.running| < k
    ensures Holds(user, Next(user, k, s, Enter(c)), n, s.running + {c})
  {
    AllInstantsAfter(n, -WINDOW);
  }

  lemma RefuseAtZero(user: string, k: nat, s: State, n: nat, c: CallId)
    requires Holds(user, s, n, s.running) && c in s.running
    ensures Holds(user, Next(user, k, s, Leave(c, Refused)), n + 1, s.running - {c})
  {
    AllInstantsAfter(n, -WINDOW);
    assert Instants(n) + [0] == Instants(n + 1);
  }

  lemma {:induction false} SerialHolds(user: string, k: nat, n: nat)
    requires k > 0 && n <= THRESHOLD
    ensures Holds(user, Run(user, k, Init(0), Serial(n)), n, {})
  {
    if n > 0 {
      SerialHolds(user, k, n - 1);
      var s := Run(user, k, Init(0), Serial(n - 1));
      RunSnoc(user, k, Init(0), Serial(n - 1), Enter(0));
      RunSnoc(user, k, Init(0), Serial(n - 1) + [Enter(0)], Leave(0, Refused));
      assert Serial(n - 1) + [Enter(0)] + [Leave(0, Refused)] == Serial(n);
      EnterAtZero(user, k, s, n - 1, 0);
      var t := Next(user, k, s, Enter(0));
      RefuseAtZero(user, k, t, n - 1, 0);
      assert t.running - {0} == {};
    } else {
      assert Instants(0) == [];
    }
  }

  lemma {:induction false} EntersHold(user: string, k: nat, s: State, n: nat)
    requires n <= k && Holds(user, s, THRESHOLD - 1, {})
    ensures Holds(user, Run(user, k, s, Enters(n)), THRESHOLD - 1, Calls(0, n)) && |Calls(0, n)| == n
  {
    if n == 0 {
      assert Calls(0, 0) == {};
    } else {
      EntersHold(user, k, s, n - 1);
      RunSnoc(user, k, s, Enters(n - 1), Enter(n));
      var t := Run(user, k, s, Enters(n - 1));
      EnterAtZero(user, k, t, THRESHOLD - 1, n);
      assert Calls(0, n) == Calls(0, n - 1) + {n};
    }
  }

  lemma CallsDrop(n: nat, k: nat)
    requires 0 < n <= k
    ensures n in Calls(n - 1, k) && Calls(n - 1, k) - {n} == Calls(n, k)
  {
    var a, b := Calls(n - 1, k) - {n}, Calls(n, k);
    assert forall c :: c in a <==> c in b;
  }

  lemma RefuseNth(user: string, k: nat, s: State, n: nat)
    requires 0 < n <= k && Holds(user, s, THRESHOLD + n - 2, Calls(n - 1, k))
    ensures Holds(user, Next(user, k, s, Leave(n, Refused)), THRESHOLD + n - 1, Calls(n, k))
  {
    CallsDrop(n, k);
    RefuseAtZero(user, k, s, THRESHOLD + n - 2, n);
  }

  lemma {:induction false} RefusalsHold(user: string, k: nat, s: State, n: nat)
    requires n <= k && Holds(user, s, THRESHOLD - 1, Calls(0, k))
    ensures Holds(user, Run(user, k, s, Refusals(n)), THRESHOLD + n - 1, Calls(n, k))
  {
    if n > 0 {
      RefusalsHold(user, k, s, n - 1);
      RunSnoc(user, k, s, Refusals(n - 1), Leave(n, Refused));
      RefuseNth(user, k, Run(user, k, s, Refusals(n - 1)), n);
    }
  }

  lemma {:induction false} NoneAfter(n: nat)
    ensures After(Instants(n), 0) == []
  {
    if n > 0 {
      assert Instants(n)[1..] == Instants(n - 1);
      NoneAfter(n - 1);
    }
  }

  /** After five refusals in one instant the user is throttled, and a quarter of an
      hour later not any more. */
  lemma ThrottledForAWindow(user: string)
    ensures var s := Run(user, 1, Init(0), Serial(5));
            && 0 !in Run(user, 1, s, [Enter(0)]).running
            && 0 in Run(user, 1, s, [Tick(WINDOW), Enter(0)]).running
  {
    SerialHolds(user, 1, 5);
    var s := Run(user, 1, Init(0), Serial(5));
    RunOne(user, s, Enter(0));
    FullWindowRefuses(user, s);
    RunOne(user, Next(user, 1, s, Tick(WINDOW)), Enter(0));
    assert [Tick(WINDOW), Enter(0)][1..] == [Enter(0)];
    PastWindowAdmits(user, s);
  }

  lemma RunOne(user: string, s: State, step: Step)
    ensures Run(user, 1, s, [step]) == Next(user, 1, s, step)
  {
    RunSnoc(user, 1, s, [], step);
    assert [] + [step] == [step];
  }

  lemma FullWindowRefuses(user: string, s: State)
    requires Holds(user, s, 5, {})
    ensures 0 !in Next(user, 1, s, Enter(0)).running
  {
    AllInstantsAfter(5, -WINDOW);
  }

  lemma PastWindowAdmits(user: string, s: State)
    requires Holds(user, s, 5, {})
    ensures 0 in Next(user, 1, Next(user, 1, s, Tick(WINDOW)), Enter(0)).running
  {
    NoneAfter(5);
  }

  /** For every k some run does record 4 + k failures in one window: the check
      and the record are separate steps, so k calls can pass the check at four. */
  lemma BoundIsReached(user: string, k: nat)
    requires k > 0
    ensures Within(Run(user, k, Init(0), Serial(THRESHOLD - 1) + (Enters(k) + Refusals(k))).failures, -1)
         == THRESHOLD - 1 + k
  {
    SerialHolds(user, k, THRESHOLD - 1);
    RunConcat(user, k, Init(0), Serial(THRESHOLD - 1), Enters(k) + Refusals(k));
    var s := Run(user, k, Init(0), Serial(THRESHOLD - 1));
    EntersHold(user, k, s, k);
    RunConcat(user, k, s, Enters(k), Refusals(k));
    RefusalsHold(user, k, Run(user, k, s, Enters(k)), k);
    InstantsWithin(THRESHOLD - 1 + k);
  }
}
