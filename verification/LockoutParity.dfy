/** Whether an address has an account shows in no count, lock or block of the
    lockout service, only in the keys that deduplicate the owner's alert. */
module LockoutParity {
  import opened AttemptCounter
  import opened Lockout

  /** Keys that deduplicate the owner's alert. */
  predicate IsAlertKey(key: Key) {
    "auth:lockout-alert:" <= key
  }

  lemma CountingKeysArePlain(text: string)
    ensures !IsAlertKey(EmailKey(text)) && !IsAlertKey(IPKey(text)) && !IsAlertKey(LockCycleKey(text))
    ensures IsAlertKey(AlertKey(text))
  {
    assert EmailKey(text)[5] == 'f' && IPKey(text)[5] == 'f' && LockCycleKey(text)[9] == 'c';
    assert "auth:lockout-alert:"[5] == 'l' && "auth:lockout-alert:"[9] == 'o';
  }

  /** Equal counters on every key but the alerts'. */
  ghost predicate Alike(l: Logs, m: Logs) {
    forall key :: !IsAlertKey(key) ==> At(l, key) == At(m, key)
  }

  lemma ApplyAlike(l: Logs, m: Logs, op: Op)
    requires Alike(l, m) && !IsAlertKey(op.key)
    ensures Alike(Apply(l, op), Apply(m, op)) && Answer(l, op) == Answer(m, op)
  {
    assert At(l, op.key) == At(m, op.key);
    forall key | !IsAlertKey(key) ensures At(Apply(l, op), key) == At(Apply(m, op), key) {
      assert At(l, key) == At(m, key);
    }
  }

  lemma CheckedAlike(l: Logs, m: Logs, digest: string, ip: string, now: int)
    requires Alike(l, m)
    ensures Alike(Checked(l, digest, ip, now), Checked(m, digest, ip, now))
    ensures LockedNow(l, digest, ip, now) == LockedNow(m, digest, ip, now)
  {
    CountingKeysArePlain(digest);
    CountingKeysArePlain(ip);
    var email := Op.Count(EmailKey(digest), now, WINDOW);
    var address := Op.Count(IPKey(ip), now, WINDOW);
    ApplyAlike(l, m, email);
    ApplyAlike(l, m, address);
    ApplyAlike(Apply(l, email), Apply(m, email), address);
  }

  lemma EscalateAlike(l: Logs, m: Logs, key: Key, count: nat, now: int)
    requires Alike(l, m)
    ensures Alike(EscalateAt(l, key, count, now).0, EscalateAt(m, key, count, now).0)
    ensures EscalateAt(l, key, count, now).1 == EscalateAt(m, key, count, now).1
  {
    CountingKeysArePlain(key);
    ApplyAlike(l, m, Op.Fail(LockCycleKey(key), now, ESCALATION_DECAY));
  }

  lemma CountFailureAlike(l: Logs, m: Logs, digest: string, ip: string, now: int)
    requires Alike(l, m)
    ensures Alike(CountFailure(l, digest, ip, now).0, CountFailure(m, digest, ip, now).0)
    ensures CountFailure(l, digest, ip, now).1 == CountFailure(m, digest, ip, now).1
  {
    CountingKeysArePlain(digest);
    CountingKeysArePlain(ip);
    var email, address := EmailKey(digest), IPKey(ip);
    ApplyAlike(l, m, Op.Fail(email, now, WINDOW));
    var (l1, n) := Failing(l, email, now);
    var m1 := Failing(m, email, now).0;
    ApplyAlike(l1, m1, Op.Fail(address, now, WINDOW));
    var (l2, k) := Failing(l1, address, now);
    var m2 := Failing(m1, address, now).0;
    EscalateAlike(l2, m2, email, n, now);
    EscalateAlike(EscalateAt(l2, email, n, now).0, EscalateAt(m2, email, n, now).0, address, k, now);
  }

  lemma AlertsAside(logs: Logs, digest: string, now: int)
    ensures Alike(TryAlert(logs, digest, now).0, logs)
  {
    CountingKeysArePlain(digest);
  }

  /** Recording the same failure, once for a known and once for an unknown
      address: the same result, and counters that differ in alerts only. */
  lemma RecordingAlike(l: Logs, m: Logs, digest: string, ip: string, known: bool, known': bool, now: int)
    requires Alike(l, m)
    ensures Alike(Recording(l, digest, ip, known, now).0, Recording(m, digest, ip, known', now).0)
    ensures Recording(l, digest, ip, known, now).1 == Recording(m, digest, ip, known', now).1
  {
    CountFailureAlike(l, m, digest, ip, now);
    AlertsAside(CountFailure(l, digest, ip, now).0, digest, now);
    AlertsAside(CountFailure(m, digest, ip, now).0, digest, now);
  }
}
