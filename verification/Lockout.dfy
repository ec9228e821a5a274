/** Progressive lockout over the sliding-window counter: one budget per email,
    one per address, an escalating block and a deduplicated alert. */
module Lockout {
  import opened AttemptCounter

  const THRESHOLD := 5
  const MINUTE := 60 * 1_000_000_000
  const WINDOW := 15 * MINUTE
  const ESCALATION_DECAY := 60 * MINUTE

  datatype Result = Result(lockedByEmail: bool, lockedByIP: bool, block: int)
  {
    predicate Locked() { lockedByEmail || lockedByIP }
  }

  // ---- Keys; `digest` is the hashed, normalised email

  function EmailKey(digest: string): Key { "auth:fail:email:" + digest }

  function IPKey(ip: string): Key { "auth:fail:ip:" + ip }

  function LockCycleKey(key: Key): Key { "auth:lockcycle:" + key }

  function AlertKey(digest: string): Key { "auth:lockout-alert:" + digest }

  lemma KeysApart(digest: string, other: string)
    ensures AlertKey(digest) != EmailKey(other) && AlertKey(digest) != IPKey(other)
    ensures AlertKey(digest) != LockCycleKey(other)
    ensures EmailKey(digest) != IPKey(other) && EmailKey(digest) != LockCycleKey(other)
    ensures IPKey(digest) != LockCycleKey(other)
    ensures EmailKey(digest) == EmailKey(other) ==> digest == other
    ensures IPKey(digest) == IPKey(other) ==> digest == other
    ensures AlertKey(digest) == AlertKey(other) ==> digest == other
    ensures LockCycleKey(digest) == LockCycleKey(other) ==> digest == other
  {
    assert AlertKey(digest)[5] == 'l' && EmailKey(other)[5] == 'f' && IPKey(other)[5] == 'f';
    assert AlertKey(digest)[9] == 'o' && LockCycleKey(other)[9] == 'c' && LockCycleKey(other)[5] == 'l';
    assert EmailKey(digest)[10] == 'e' && IPKey(other)[10] == 'i';
    assert EmailKey(digest)[5] == 'f' && IPKey(digest)[5] == 'f';
    if EmailKey(digest) == EmailKey(other) {
      var n := |"auth:fail:email:"|;
      assert EmailKey(digest)[n..] == digest && EmailKey(other)[n..] == other;
    }
    if IPKey(digest) == IPKey(other) {
      var n := |"auth:fail:ip:"|;
      assert IPKey(digest)[n..] == digest && IPKey(other)[n..] == other;
    }
    if AlertKey(digest) == AlertKey(other) {
      var n := |"auth:lockout-alert:"|;
      assert AlertKey(digest)[n..] == digest && AlertKey(other)[n..] == other;
    }
    if LockCycleKey(digest) == LockCycleKey(other) {
      var n := |"auth:lockcycle:"|;
      assert LockCycleKey(digest)[n..] == digest && LockCycleKey(other)[n..] == other;
    }
  }

  // ---- The service on values

  function Failing(logs: Logs, key: Key, now: int): (Logs, nat) {
    var op := Op.Fail(key, now, WINDOW);
    (Apply(logs, op), Answer(logs, op))
  }

  function Counting(logs: Logs, key: Key, now: int): (Logs, nat) {
    var op := Op.Count(key, now, WINDOW);
    (Apply(logs, op), Answer(logs, op))
  }

  /** escalate: the block for the n-th consecutive lock cycle of a key. */
  function Escalation(logs: Logs, key: Key, now: int): (Logs, int) {
    var op := Op.Fail(LockCycleKey(key), now, ESCALATION_DECAY);
    var n := Answer(logs, op);
    (Apply(logs, op), if n <= 1 then 15 * MINUTE else if n == 2 then 30 * MINUTE else 60 * MINUTE)
  }

  /** Only the attempt that reaches the threshold escalates. */
  function EscalateAt(logs: Logs, key: Key, count: nat, now: int): (Logs, int) {
    if count == THRESHOLD then Escalation(logs, key, now) else (logs, 0)
  }

  /** RecordFailure up to the alert. */
  function CountFailure(logs: Logs, digest: string, ip: string, now: int): (Logs, Result) {
    var (l1, emailCount) := Failing(logs, EmailKey(digest), now);
    var (l2, ipCount) := Failing(l1, IPKey(ip), now);
    var (l3, emailBlock) := EscalateAt(l2, EmailKey(digest), emailCount, now);
    var (l4, ipBlock) := EscalateAt(l3, IPKey(ip), ipCount, now);
    (l4, Result(emailCount >= THRESHOLD, ipCount >= THRESHOLD, if ipBlock > emailBlock then ipBlock else emailBlock))
  }

  /** maybeAlert: mail goes out when no alert was tried within the window. */
  function TryAlert(logs: Logs, digest: string, now: int): (Logs, bool) {
    var (l, n) := Failing(logs, AlertKey(digest), now);
    (l, n == 1)
  }

  function Recording(logs: Logs, digest: string, ip: string, known: bool, now: int): (Logs, Result, bool) {
    var (l, result) := CountFailure(logs, digest, ip, now);
    if result.Locked() && known then
      var (l', alerted) := TryAlert(l, digest, now);
      (l', result, alerted)
    else (l, result, false)
  }

  function LockedNow(logs: Logs, digest: string, ip: string, now: int): bool {
    Counting(logs, EmailKey(digest), now).1 >= THRESHOLD || Counting(logs, IPKey(ip), now).1 >= THRESHOLD
  }

  /** What a check leaves in the counter: both keys pruned, or only the first
      when that one already answers. */
  function Checked(logs: Logs, digest: string, ip: string, now: int): Logs {
    var (l, emailCount) := Counting(logs, EmailKey(digest), now);
    if emailCount >= THRESHOLD then l else Counting(l, IPKey(ip), now).0
  }

  // ---- Results about the service

  /** What the attempt that was just recorded reports and what a check at the
      same instant reports are the same. */
  lemma ReportAgreesWithCheck(logs: Logs, digest: string, ip: string, known: bool, now: int)
    ensures var (after, result, _) := Recording(logs, digest, ip, known, now);
            result.Locked() <==> LockedNow(after, digest, ip, now)
  {
    var (l1, emailCount) := Failing(logs, EmailKey(digest), now);
    var (l2, ipCount) := Failing(l1, IPKey(ip), now);
    var (after, result, _) := Recording(logs, digest, ip, known, now);
    KeysApart(digest, ip);
    KeysApart(digest, digest);
    KeysApart(digest, EmailKey(digest));
    KeysApart(digest, IPKey(ip));
    KeysApart(ip, EmailKey(digest));
    KeysApart(ip, IPKey(ip));
    assert At(after, EmailKey(digest)) == At(l1, EmailKey(digest));
    assert At(after, IPKey(ip)) == At(l2, IPKey(ip));
    JustPruned(At(logs, EmailKey(digest)), now);
    JustPruned(At(l1, IPKey(ip)), now);
  }

  lemma JustPruned(log: seq<int>, now: int)
    ensures After(After(log, now - WINDOW) + [now], now - WINDOW) == After(log, now - WINDOW) + [now]
  {
    AfterSnoc(After(log, now - WINDOW), now, now - WINDOW);
    AfterAfter(log, now - WINDOW, now - WINDOW);
  }

  /** Attempts made while both budgets are spent report a lock, start no new
      lock cycle and so never lengthen the block. */
  lemma LockedDoesNotEscalate(logs: Logs, digest: string, ip: string, known: bool, now: int)
    requires |After(At(logs, EmailKey(digest)), now - WINDOW)| >= THRESHOLD
    requires |After(At(logs, IPKey(ip)), now - WINDOW)| >= THRESHOLD
    ensures var (after, result, _) := Recording(logs, digest, ip, known, now);
            && result == Result(true, true, 0)
            && At(after, LockCycleKey(EmailKey(digest))) == At(logs, LockCycleKey(EmailKey(digest)))
            && At(after, LockCycleKey(IPKey(ip))) == At(logs, LockCycleKey(IPKey(ip)))
  {
    KeysApart(digest, EmailKey(digest));
    KeysApart(digest, IPKey(ip));
    KeysApart(digest, ip);
    KeysApart(ip, EmailKey(digest));
    KeysApart(ip, IPKey(ip));
  }

  /** How many failures of a key a reading of the clock still sees. */
  function Seen(logs: Logs, key: Key, now: int): nat {
    |After(At(logs, key), now - WINDOW)|
  }

  /** The fifth failure of an address or an email within the window locks it. */
  lemma LocksFromFive(logs: Logs, digest: string, ip: string, known: bool, now: int)
    ensures LockedNow(logs, digest, ip, now)
       <==> Seen(logs, EmailKey(digest), now) >= 5 || Seen(logs, IPKey(ip), now) >= 5
    ensures var result := Recording(logs, digest, ip, known, now).1;
            && (result.lockedByEmail <==> Seen(logs, EmailKey(digest), now) + 1 >= 5)
            && (result.lockedByIP <==> Seen(logs, IPKey(ip), now) + 1 >= 5)
  {
    KeysApart(digest, ip);
  }

  /** An alert goes out exactly when a known address is locked and none was tried
      for it within the window. */
  lemma AlertsIff(logs: Logs, digest: string, ip: string, known: bool, now: int)
    ensures var (_, result, alerted) := Recording(logs, digest, ip, known, now);
            alerted <==> known && (result.lockedByEmail || result.lockedByIP) && Seen(logs, AlertKey(digest), now) == 0
    ensures var (after, result, _) := Recording(logs, digest, ip, known, now);
            var tried := known && (result.lockedByEmail || result.lockedByIP);
            Seen(after, AlertKey(digest), now) == Seen(logs, AlertKey(digest), now) + (if tried then 1 else 0)
  {
    KeysApart(digest, digest);
    KeysApart(digest, ip);
    KeysApart(digest, EmailKey(digest));
    KeysApart(digest, IPKey(ip));
    var after := CountFailure(logs, digest, ip, now).0;
    assert At(after, AlertKey(digest)) == At(logs, AlertKey(digest));
    JustPruned(At(logs, AlertKey(digest)), now);
  }

  lemma EmailsCounted(logs: Logs, digest: string, ip: string, known: bool, now: int, other: string)
    ensures var after := Recording(logs, digest, ip, known, now).0;
            Seen(after, EmailKey(other), now) == Seen(logs, EmailKey(other), now) + (if other == digest then 1 else 0)
  {
    KeysApart(other, ip);
    KeysApart(other, digest);
    KeysApart(digest, other);
    KeysApart(other, EmailKey(digest));
    KeysApart(other, IPKey(ip));
    var l1 := Failing(logs, EmailKey(digest), now).0;
    assert At(Recording(logs, digest, ip, known, now).0, EmailKey(other)) == At(l1, EmailKey(other));
    JustPruned(At(logs, EmailKey(digest)), now);
  }

  lemma AddressesCounted(logs: Logs, digest: string, ip: string, known: bool, now: int, other: string)
    ensures var after := Recording(logs, digest, ip, known, now).0;
            Seen(after, IPKey(other), now) == Seen(logs, IPKey(other), now) + (if other == ip then 1 else 0)
  {
    KeysApart(digest, other);
    KeysApart(other, ip);
    KeysApart(other, EmailKey(digest));
    KeysApart(other, IPKey(ip));
    var l1 := Failing(logs, EmailKey(digest), now).0;
    var l2 := Failing(l1, IPKey(ip), now).0;
    assert At(Recording(logs, digest, ip, known, now).0, IPKey(other)) == At(l2, IPKey(other));
    JustPruned(At(logs, IPKey(ip)), now);
  }

  /** A failure is counted once against its email and once against its address,
      and against nobody else. */
  lemma RecordingSparesOthers(logs: Logs, digest: string, ip: string, known: bool, now: int, other: string)
    ensures var after := Recording(logs, digest, ip, known, now).0;
            && Seen(after, EmailKey(other), now)
               == Seen(logs, EmailKey(other), now) + (if other == digest then 1 else 0)
            && Seen(after, IPKey(other), now) == Seen(logs, IPKey(other), now) + (if other == ip then 1 else 0)
  {
    EmailsCounted(logs, digest, ip, known, now, other);
    AddressesCounted(logs, digest, ip, known, now, other);
  }

  // ---- The service

  class Service {
    const counter: Counter
    ghost var mailed: seq<string>

    constructor (counter: Counter)
      ensures this.counter == counter && mailed == []
    {
      this.counter := counter;
      mailed := [];
    }

    method Escalate(key: Key, now: int) returns (block: int)
      modifies counter
      ensures (counter.logs, block) == Escalation(old(counter.logs), key, now)
    {
      var n := counter.Fail(LockCycleKey(key), now, ESCALATION_DECAY);
      if n <= 1 {
        block := 15 * MINUTE;
      } else if n == 2 {
        block := 30 * MINUTE;
      } else {
        block := 60 * MINUTE;
      }
    }

    method MaybeAlert(digest: string, now: int)
      modifies counter, this
      ensures counter.logs == TryAlert(old(counter.logs), digest, now).0
      ensures mailed == if TryAlert(old(counter.logs), digest, now).1 then old(mailed) + [digest] else old(mailed)
    {
      var n := counter.Fail(AlertKey(digest), now, WINDOW);
      if n == 1 {
        mailed := mailed + [digest];
      }
    }

    method RecordFailure(digest: string, ip: string, accountExists: bool, now: int) returns (result: Result)
      modifies counter, this
      ensures var (logs, expected, alerted) := Recording(old(counter.logs), digest, ip, accountExists, now);
              && counter.logs == logs && result == expected
              && mailed == if alerted then old(mailed) + [digest] else old(mailed)
      ensures result.lockedByEmail <==> Seen(old(counter.logs), EmailKey(digest), now) + 1 >= 5
      ensures result.lockedByIP <==> Seen(old(counter.logs), IPKey(ip), now) + 1 >= 5
      ensures mailed != old(mailed) <==>
                accountExists && result.Locked() && Seen(old(counter.logs), AlertKey(digest), now) == 0
    {
      LocksFromFive(counter.logs, digest, ip, accountExists, now);
      AlertsIff(counter.logs, digest, ip, accountExists, now);
      var emailCount := counter.Fail(EmailKey(digest), now, WINDOW);
      var ipCount := counter.Fail(IPKey(ip), now, WINDOW);
      var byEmail, byIP, block := false, false, 0;
      if emailCount == THRESHOLD {
        byEmail := true;
        block := Escalate(EmailKey(digest), now);
      } else if emailCount > THRESHOLD {
        byEmail := true;
      }
      if ipCount == THRESHOLD {
        byIP := true;
        var d := Escalate(IPKey(ip), now);
        if d > block {
          block := d;
        }
      } else if ipCount > THRESHOLD {
        byIP := true;
      }
      result := Result(byEmail, byIP, block);
      if result.Locked() && accountExists {
        MaybeAlert(digest, now);
      }
    }

    /** Clears the email budget and leaves the address budget. */
    method RecordSuccess(digest: string)
      modifies counter
      ensures EmailKey(digest) !in counter.logs
      ensures forall key :: key != EmailKey(digest) ==> At(counter.logs, key) == At(old(counter.logs), key)
    {
      counter.Reset(EmailKey(digest));
    }

    method IsLocked(digest: string, ip: string, now: int) returns (locked: bool)
      modifies counter
      ensures locked == LockedNow(old(counter.logs), digest, ip, now)
      ensures locked <==> Seen(old(counter.logs), EmailKey(digest), now) >= 5
                          || Seen(old(counter.logs), IPKey(ip), now) >= 5
      ensures counter.logs == Checked(old(counter.logs), digest, ip, now)
      ensures forall key, cutoff :: cutoff >= now - WINDOW ==>
                After(At(counter.logs, key), cutoff) == After(At(old(counter.logs), key), cutoff)
    {
      ghost var before := counter.logs;
      LocksFromFive(before, digest, ip, false, now);
      KeysApart(digest, ip);
      var emailCount := counter.Count(EmailKey(digest), now, WINDOW);
      CountingKeepsTail(before, EmailKey(digest), now);
      ghost var middle := counter.logs;
      if emailCount >= THRESHOLD {
        return true;
      }
      var ipCount := counter.Count(IPKey(ip), now, WINDOW);
      CountingKeepsTail(middle, IPKey(ip), now);
      locked := ipCount >= THRESHOLD;
    }
  }

  lemma CountingKeepsTail(logs: Logs, counted: Key, now: int)
    ensures forall key, cutoff :: cutoff >= now - WINDOW ==>
              After(At(Counting(logs, counted, now).0, key), cutoff) == After(At(logs, key), cutoff)
  {
    forall key, cutoff | cutoff >= now - WINDOW
      ensures After(At(Counting(logs, counted, now).0, key), cutoff) == After(At(logs, key), cutoff)
    {
      if key == counted { AfterAfter(At(logs, key), now - WINDOW, cutoff); }
    }
  }
}
