/** What an enrollment transaction writes before it commits. Its own statements
    see the committed tables with its writes on top; everybody else sees the
    committed tables, and the commit makes the two the same. */
module EnrollmentTransactions {
  import opened Enrollment
  import opened EnrollmentSafety

  datatype Tables = Tables(challenges: map<ChallengeId, Challenge>, factors: map<UserId, Factor>)

  function Committed(s: State): Tables {
    Tables(s.challenges, s.factors)
  }

  function SeenChallenges(s: State, u: UserId, p: Phase): map<ChallengeId, Challenge> {
    var closed := if p.Closing()
                  then map c | c in s.challenges ::
                         if c in p.closed then s.challenges[c].(expiresAt := p.now) else s.challenges[c]
                  else s.challenges;
    if p.EnrollInserted? || p.EnrollUpserted?
    then closed[p.id := Challenge(u, p.codeHash, p.now + CODE_TTL, 0, false, p.started)]
    else closed
  }

  function SeenFactors(s: State, u: UserId, p: Phase): map<UserId, Factor> {
    if p.EnrollUpserted? then
      s.factors[u := if u in s.factors then s.factors[u].(secret := p.secret) else Factor(p.secret, false, [])]
    else if p.ConfirmVerified? && u in s.factors then s.factors[u := s.factors[u].(enabled := true)]
    else s.factors
  }

  /** The tables as the statements of request `r` see them. */
  function Seen(s: State, r: RequestId): Tables
    requires r in s.requests
  {
    var u, p := s.requests[r].user, s.requests[r].phase;
    Tables(SeenChallenges(s, u, p), SeenFactors(s, u, p))
  }

  function OpenAt(ts: Tables, u: UserId, now: int): set<ChallengeId> {
    set c | c in ts.challenges && ts.challenges[c].user == u && !ts.challenges[c].verified
            && ts.challenges[c].expiresAt > now
  }

  /** InvalidateOpenOTPChallenges closes, for the transaction, every open row of
      its user and changes no other row and no other column; the committed
      tables stay as they are. */
  lemma InvalidationCloses(s: State, r: RequestId)
    requires r in s.requests && s.requests[r].phase.EnrollCounted?
    ensures var t := InvalidateOpenIn(s, r);
            var u := s.requests[r].user;
            && r in t.requests && t.requests[r].user == u && Committed(t) == Committed(s)
            && OpenAt(Seen(t, r), u, s.clock) == {} && Seen(t, r).factors == s.factors
            && Seen(t, r).challenges.Keys == s.challenges.Keys
            && forall c :: c in s.challenges ==>
                 Seen(t, r).challenges[c]
                 == if s.challenges[c].user == u && !s.challenges[c].verified && s.challenges[c].expiresAt > s.clock
                    then s.challenges[c].(expiresAt := s.clock) else s.challenges[c]
  {}

  /** Inside the transaction the inserted challenge is the only open one of its
      user, unattempted and good for the full lifetime; outside nothing shows. */
  lemma InsertionOpensOne(env: Env, s: State, r: RequestId, id: ChallengeId, emailed: string)
    requires Inv(env, s) && r in s.requests && s.requests[r].phase.EnrollInvalidated? && id !in s.challenges
    ensures var t := InsertChallengeIn(env, s, r, id, emailed);
            var u, p := s.requests[r].user, s.requests[r].phase;
            && r in t.requests && Committed(t) == Committed(s) && Seen(t, r).factors == s.factors
            && OpenAt(Seen(t, r), u, p.now) == {id}
            && id in Seen(t, r).challenges
            && Seen(t, r).challenges[id] == Challenge(u, env.mac(emailed), p.now + CODE_TTL, 0, false, p.started)
            && forall c :: c in s.challenges ==>
                 c in Seen(t, r).challenges && Seen(t, r).challenges[c] == SeenChallenges(s, u, p)[c]
  {
    var t, u, p := InsertChallengeIn(env, s, r, id, emailed), s.requests[r].user, s.requests[r].phase;
    assert PhaseFacts(env, s, u, p);
    assert forall c :: c in OpenAt(Seen(t, r), u, p.now) ==> c == id;
    assert id in OpenAt(Seen(t, r), u, p.now);
  }

  /** UpsertUserMFA stores the secret and nothing else: an existing row keeps its
      activation and its recovery codes, a new one starts inactive without any;
      outside the transaction no factor changes. */
  lemma UpsertStoresPending(s: State, r: RequestId, secret: Secret)
    requires r in s.requests && s.requests[r].phase.EnrollInserted?
    ensures var t := UpsertSecretIn(s, r, secret);
            var u := s.requests[r].user;
            && r in t.requests && Committed(t) == Committed(s)
            && Seen(t, r).challenges == Seen(s, r).challenges
            && u in Seen(t, r).factors && Seen(t, r).factors[u].secret == secret
            && Seen(t, r).factors[u].enabled == Enabled(s, u)
            && (u in s.factors ==> Seen(t, r).factors[u].recoveryCodes == s.factors[u].recoveryCodes)
            && (u !in s.factors ==> Seen(t, r).factors[u].recoveryCodes == [])
            && forall w :: w != u ==> (w in Seen(t, r).factors <==> w in s.factors)
                                      && (w in s.factors ==> Seen(t, r).factors[w] == s.factors[w])
  {}

  /** The commit of an enrollment publishes exactly what the transaction saw. */
  lemma EnrollmentPublishes(s: State, r: RequestId)
    requires r in s.requests && s.requests[r].phase.EnrollUpserted? && s.requests[r].phase.id !in s.challenges
    ensures Committed(CommitEnrollment(s, r)) == Seen(s, r)
    ensures var t := CommitEnrollment(s, r); r in t.requests && Seen(t, r) == Committed(t)
  {}

  /** ConfirmEnrollment enables, inside the transaction, the factor whose secret
      the TOTP code matched, and only when it matched; outside nothing changes. */
  lemma ConfirmationEnables(env: Env, s: State, r: RequestId)
    requires r in s.requests && s.requests[r].phase.ConfirmMatched? && s.requests[r].user in s.factors
    ensures var t := CheckTotpIn(env, s, r);
            var u, p := s.requests[r].user, s.requests[r].phase;
            && r in t.requests && Committed(t) == Committed(s) && Seen(t, r).challenges == s.challenges
            && Seen(t, r).factors
               == if env.totpMatches(s.factors[u].secret, p.code, s.clock)
                  then s.factors[u := s.factors[u].(enabled := true)] else s.factors
  {}

  /** The commit of a confirmation publishes the enabled factor the transaction
      saw, with its recovery codes, and the spent challenge: one row of each
      table, the secret and every other column as they were. */
  lemma ConfirmationPublishes(env: Env, s: State, r: RequestId, codes: seq<string>)
    requires Inv(env, s) && r in s.requests && s.requests[r].phase.ConfirmVerified?
    ensures var t := CommitConfirmation(s, r, codes);
            var u, id := s.requests[r].user, s.requests[r].phase.id;
            && u in s.factors && id in s.challenges && !Enabled(s, u)
            && u in t.factors && t.factors[u] == Seen(s, r).factors[u].(recoveryCodes := codes)
            && t.factors[u].enabled && t.factors[u].secret == s.factors[u].secret
            && id in t.challenges && t.challenges[id] == s.challenges[id].(verified := true)
            && !s.challenges[id].verified && s.challenges[id].user == u
            && t.factors.Keys == s.factors.Keys && t.challenges.Keys == s.challenges.Keys
            && (forall w :: w in s.factors && w != u ==> t.factors[w] == s.factors[w])
            && (forall c :: c in s.challenges && c != id ==> t.challenges[c] == s.challenges[c])
  {
    assert PhaseFacts(env, s, s.requests[r].user, s.requests[r].phase);
  }

  // ---- Main results

  /** In every interleaving, an enrollment about to commit sees its challenge as
      the only open one of its user and its secret stored but not active, and
      every row of another user as committed; the commit publishes that. */
  lemma EnrollmentWorkspace(env: Env, steps: seq<Step>, r: RequestId)
    requires var s := Run(env, Init(), steps);
             r in s.requests && s.requests[r].phase.EnrollUpserted? && s.requests[r].phase.id !in s.challenges
    ensures var s := Run(env, Init(), steps);
            var u, p, ts := s.requests[r].user, s.requests[r].phase, Seen(s, r);
            && OpenAt(ts, u, p.now) == {p.id} && p.id in ts.challenges && ts.challenges[p.id].codeHash == p.codeHash
            && u in ts.factors && ts.factors[u].secret == p.secret && !ts.factors[u].enabled
            && (forall w :: w in s.factors && w != u ==> w in ts.factors && ts.factors[w] == s.factors[w])
            && (forall c :: c in s.challenges && s.challenges[c].user != u ==>
                  c in ts.challenges && ts.challenges[c] == s.challenges[c])
            && Committed(CommitEnrollment(s, r)) == ts
  {
    var s := Run(env, Init(), steps);
    var u, p := s.requests[r].user, s.requests[r].phase;
    InvInit(env);
    InvRun(env, Init(), steps);
    assert PhaseFacts(env, s, u, p);
    assert forall c :: c in OpenAt(Seen(s, r), u, p.now) ==> c == p.id;
    assert p.id in OpenAt(Seen(s, r), u, p.now);
    EnrollmentPublishes(s, r);
  }

  /** In every interleaving, a confirmation about to commit sees the factor of
      its user active and unchanged otherwise, although it is inactive for
      everybody else and its challenge still unverified. */
  lemma ConfirmationWorkspace(env: Env, steps: seq<Step>, r: RequestId)
    requires var s := Run(env, Init(), steps); r in s.requests && s.requests[r].phase.ConfirmVerified?
    ensures var s := Run(env, Init(), steps);
            var u, p, ts := s.requests[r].user, s.requests[r].phase, Seen(s, r);
            && u in s.factors && !s.factors[u].enabled && ts.factors == s.factors[u := s.factors[u].(enabled := true)]
            && ts.challenges == s.challenges && p.id in s.challenges && !s.challenges[p.id].verified
            && env.totpMatches(ts.factors[u].secret, p.code, p.checkedAt)
            && env.mac(p.emailCode) == s.challenges[p.id].codeHash
  {
    var s := Run(env, Init(), steps);
    InvInit(env);
    InvRun(env, Init(), steps);
    assert PhaseFacts(env, s, s.requests[r].user, s.requests[r].phase);
  }
}
