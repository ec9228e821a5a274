/** The daily sweep is bookkeeping: a run and the same run without its sweeps
    give every preview and accept the same answers, except when a sweep slips
    between an accept's BEGIN and its conditional update. */
module InvitationSweep {
  import opened Common
  import opened Invitations
  import opened InvitationSafety

  /** `a` is a row of the run with sweeps, `b` the same row without them. */
  ghost predicate Kin(a: Invitation, b: Invitation, now: int) {
    a == b
    || (&& a.status == Blocked && (b.status == Pending || b.status == Revoked) && b.expiresAt <= now
        && a.community == b.community && a.unit == b.unit && a.email == b.email && a.role == b.role
        && a.tokenHash == b.tokenHash && a.expiresAt == b.expiresAt)
  }

  ghost predicate KinRows(rows: Rows, others: Rows, now: int) {
    rows.Keys == others.Keys && forall i :: i in rows ==> Kin(rows[i], others[i], now)
  }

  /** Everything but the rows, their audit trail, their emails and how far the
      resolutions have come. */
  ghost predicate SameElsewhere(s: State, t: State) {
    && s.clock == t.clock && s.users == t.users && s.retired == t.retired && s.members == t.members
    && s.locks == t.locks
  }

  ghost predicate HeldIn(rows: Rows, codes: set<Digest>) {
    forall i :: i in rows ==> rows[i].codeHash in codes
  }

  /** The lookup read no row, or one that the sweep has blocked by now and that
      was dead when it was read. */
  ghost predicate DeadEnd(rows: Rows, now: int, found: Option<Found>) {
    found.Some? ==>
      && found.value.id in rows && rows[found.value.id].status == Blocked
      && !Usable(found.value.inv, now)
  }

  /** Two requests stand alike, or both hold a lookup that leads nowhere. */
  ghost predicate KinPhase(rows: Rows, now: int, p: Phase, q: Phase) {
    p == q || (p.Looked? && q.Looked? && DeadEnd(rows, now, p.found) && DeadEnd(rows, now, q.found))
  }

  ghost predicate KinRequests(rows: Rows, now: int, ps: map<RequestId, Phase>, qs: map<RequestId, Phase>) {
    ps.Keys == qs.Keys && forall r :: r in ps ==> KinPhase(rows, now, ps[r], qs[r])
  }

  /** The tables agree up to the sweep. */
  ghost predicate Alike(s: State, t: State, codes: set<Digest>) {
    && SameElsewhere(s, t) && KinRows(s.invitations, t.invitations, s.clock)
    && HeldIn(s.invitations, codes) && HeldIn(t.invitations, codes)
  }

  ghost predicate NoneBlocked(rows: Rows) {
    forall i :: i in rows ==> rows[i].status != Blocked
  }

  ghost predicate Sim(s: State, t: State, codes: set<Digest>) {
    && Alike(s, t, codes) && KinRequests(s.invitations, s.clock, s.requests, t.requests)
    && NoneBlocked(t.invitations)
  }

  /** A claim that the sweep turns from a success into a conflict: the row went
      stale after this transaction began. */
  ghost predicate Races(s: State, t: State, e: Event) {
    && e.Claim? && e.req in s.requests && s.requests[e.req].Begun?
    && var p := s.requests[e.req];
       && p.id in s.invitations && s.invitations[p.id].status == Blocked
       && p.id in t.invitations && Usable(t.invitations[p.id], p.started)
  }

  /** What the run without sweeps does at the same event. */
  ghost function Unswept(t: State, e: Event): State {
    if e.Sweep? then t else Next(t, e)
  }

  function WithoutSweeps(events: seq<Event>): seq<Event> {
    if events == [] then []
    else if events[0].Sweep? then WithoutSweeps(events[1..])
    else [events[0]] + WithoutSweeps(events[1..])
  }

  /** Each short code is issued once: codes are drawn at random. */
  predicate FreshCodes(codes: set<Digest>, events: seq<Event>)
    decreases |events|
  {
    events == [] || (Issues(events[0]) !! codes && FreshCodes(codes + Issues(events[0]), events[1..]))
  }

  /** What a request has been answered so far. */
  function Answered(requests: map<RequestId, Phase>, r: RequestId): Option<Response> {
    if r in requests && requests[r].Done? then Some(requests[r].response) else None
  }

  ghost predicate SameAnswers(s: State, t: State) {
    forall r :: Answered(s.requests, r) == Answered(t.requests, r)
  }

  /** Previews and accepts have the same answers after every event. */
  ghost predicate AnswersAgree(s: State, t: State, events: seq<Event>)
    decreases |events|
  {
    SameAnswers(s, t)
    && (events != [] ==> AnswersAgree(Next(s, events[0]), Unswept(t, events[0]), events[1..]))
  }

  ghost predicate RaceFree(s: State, t: State, events: seq<Event>)
    decreases |events|
  {
    events != [] ==>
      !Races(s, t, events[0]) && RaceFree(Next(s, events[0]), Unswept(t, events[0]), events[1..])
  }

  // ---- One step of both runs

  lemma KinRewrite(rows: Rows, others: Rows, now: int, id: Id, a: Invitation, b: Invitation)
    requires KinRows(rows, others, now) && Kin(a, b, now)
    ensures KinRows(rows[id := a], others[id := b], now)
  {}

  lemma HeldRewrite(rows: Rows, codes: set<Digest>, id: Id, a: Invitation)
    requires HeldIn(rows, codes) && a.codeHash in codes
    ensures HeldIn(rows[id := a], codes)
  {}

  lemma HeldGrows(rows: Rows, codes: set<Digest>, more: set<Digest>)
    requires HeldIn(rows, codes)
    ensures HeldIn(rows, codes + more)
  {}

  lemma TickAlike(s: State, t: State, codes: set<Digest>, to: int)
    requires Alike(s, t, codes) && to >= s.clock
    ensures Alike(s.(clock := to), t.(clock := to), codes)
  {}

  lemma CreateAlike(s: State, t: State, codes: set<Digest>, e: Event)
    requires Alike(s, t, codes) && e.CreateInvitation? && e.codeHash !in codes
    ensures Alike(CreateIn(s, e), CreateIn(t, e), codes + {e.codeHash})
  {
    HeldGrows(s.invitations, codes, {e.codeHash});
    HeldGrows(t.invitations, codes, {e.codeHash});
    SecretsTakenAlike(s, t, codes, e.tokenHash, e.codeHash);
    if CreateIn(s, e) != s {
      var inv := CreateIn(s, e).invitations[e.id];
      KinRewrite(s.invitations, t.invitations, s.clock, e.id, inv, inv);
      HeldRewrite(s.invitations, codes + {e.codeHash}, e.id, inv);
      HeldRewrite(t.invitations, codes + {e.codeHash}, e.id, inv);
    }
  }

  lemma SecretsTakenAlike(s: State, t: State, codes: set<Digest>, tokenHash: Digest, codeHash: Digest)
    requires Alike(s, t, codes) && codeHash !in codes
    ensures SecretsTaken(s, tokenHash, codeHash) == SecretsTaken(t, tokenHash, codeHash)
  {
    if SecretsTaken(s, tokenHash, codeHash) {
      var i :| i in s.invitations && s.invitations[i].tokenHash == tokenHash;
      assert Kin(s.invitations[i], t.invitations[i], s.clock);
      assert i in t.invitations && t.invitations[i].tokenHash == tokenHash;
    }
    if SecretsTaken(t, tokenHash, codeHash) {
      var i :| i in t.invitations && t.invitations[i].tokenHash == tokenHash;
      assert Kin(s.invitations[i], t.invitations[i], s.clock);
      assert i in s.invitations && s.invitations[i].tokenHash == tokenHash;
    }
  }

  /** A row the sweep blocked stays kin whatever else happens to it unswept. */
  lemma BlockedKin(s: State, t: State, codes: set<Digest>, id: Id, b: Invitation)
    requires Alike(s, t, codes) && id in s.invitations && s.invitations[id] != t.invitations[id]
    requires b == t.invitations[id].(codeHash := b.codeHash, sentCount := b.sentCount, status := b.status,
                                     failedAttempts := b.failedAttempts)
    requires b.status == Pending || b.status == Revoked
    requires b.codeHash in codes
    ensures KinRows(s.invitations, t.invitations[id := b], s.clock) && HeldIn(t.invitations[id := b], codes)
  {
    KinRewrite(s.invitations, t.invitations, s.clock, id, s.invitations[id], b);
    assert s.invitations[id := s.invitations[id]] == s.invitations;
    HeldRewrite(t.invitations, codes, id, b);
  }

  /** Rows that are equal are rewritten alike. */
  lemma EqualKin(s: State, t: State, codes: set<Digest>, id: Id, b: Invitation)
    requires Alike(s, t, codes) && b.codeHash in codes
    ensures KinRows(s.invitations[id := b], t.invitations[id := b], s.clock)
    ensures HeldIn(s.invitations[id := b], codes) && HeldIn(t.invitations[id := b], codes)
  {
    KinRewrite(s.invitations, t.invitations, s.clock, id, b, b);
    HeldRewrite(s.invitations, codes, id, b);
    HeldRewrite(t.invitations, codes, id, b);
  }

  lemma GrownAlike(s: State, t: State, codes: set<Digest>, more: set<Digest>)
    requires Alike(s, t, codes)
    ensures Alike(s, t, codes + more)
  {}

  lemma SharedRewrite(s: State, t: State, s': State, t': State, codes: set<Digest>, id: Id, b: Invitation)
    requires Alike(s, t, codes) && b.codeHash in codes && SameElsewhere(s', s) && SameElsewhere(t', t)
    requires s'.invitations == s.invitations[id := b] && t'.invitations == t.invitations[id := b]
    ensures Alike(s', t', codes)
  {
    EqualKin(s, t, codes, id, b);
  }

  lemma StrayRewrite(s: State, t: State, t': State, codes: set<Digest>, id: Id, b: Invitation)
    requires Alike(s, t, codes) && b.codeHash in codes && SameElsewhere(t', t)
    requires id in s.invitations && s.invitations[id] != t.invitations[id]
    requires t'.invitations == t.invitations[id := b] && (b.status == Pending || b.status == Revoked)
    requires b == t.invitations[id].(codeHash := b.codeHash, sentCount := b.sentCount, status := b.status)
    ensures Alike(s, t', codes)
  {
    BlockedKin(s, t, codes, id, b);
  }

  lemma SharedResend(s: State, t: State, codes: set<Digest>, id: Id, community: int, codeHash: Digest)
    requires Alike(s, t, codes) && codeHash in codes && !CodeTaken(s, codeHash) && !CodeTaken(t, codeHash)
    requires id in s.invitations && s.invitations[id] == t.invitations[id]
    ensures Alike(ResendIn(s, id, community, codeHash), ResendIn(t, id, community, codeHash), codes)
  {
    var s', t' := ResendIn(s, id, community, codeHash), ResendIn(t, id, community, codeHash);
    if s' != s { SharedRewrite(s, t, s', t', codes, id, s'.invitations[id]); }
  }

  lemma StrayResend(s: State, t: State, codes: set<Digest>, id: Id, community: int, codeHash: Digest)
    requires Alike(s, t, codes) && codeHash in codes && id in s.invitations && s.invitations[id] != t.invitations[id]
    ensures Alike(s, ResendIn(t, id, community, codeHash), codes) && ResendIn(s, id, community, codeHash) == s
  {
    var t' := ResendIn(t, id, community, codeHash);
    assert Kin(s.invitations[id], t.invitations[id], s.clock);
    if t' != t { StrayRewrite(s, t, t', codes, id, t'.invitations[id]); }
  }

  lemma ResendAlike(s: State, t: State, codes: set<Digest>, id: Id, community: int, codeHash: Digest)
    requires Alike(s, t, codes) && codeHash !in codes
    ensures Alike(ResendIn(s, id, community, codeHash), ResendIn(t, id, community, codeHash), codes + {codeHash})
  {
    GrownAlike(s, t, codes, {codeHash});
    if id in s.invitations {
      if s.invitations[id] == t.invitations[id] {
        SharedResend(s, t, codes + {codeHash}, id, community, codeHash);
      } else {
        StrayResend(s, t, codes + {codeHash}, id, community, codeHash);
      }
    }
  }

  lemma SharedRevoke(s: State, t: State, codes: set<Digest>, id: Id, community: int)
    requires Alike(s, t, codes) && id in s.invitations && s.invitations[id] == t.invitations[id]
    ensures Alike(RevokeIn(s, id, community), RevokeIn(t, id, community), codes)
  {
    var s', t' := RevokeIn(s, id, community), RevokeIn(t, id, community);
    if s' != s { SharedRewrite(s, t, s', t', codes, id, s.invitations[id].(status := Revoked)); }
  }

  lemma StrayRevoke(s: State, t: State, codes: set<Digest>, id: Id, community: int)
    requires Alike(s, t, codes) && id in s.invitations && s.invitations[id] != t.invitations[id]
    ensures Alike(s, RevokeIn(t, id, community), codes) && RevokeIn(s, id, community) == s
  {
    var t' := RevokeIn(t, id, community);
    assert Kin(s.invitations[id], t.invitations[id], s.clock);
    if t' != t { StrayRewrite(s, t, t', codes, id, t.invitations[id].(status := Revoked)); }
  }

  lemma RevokeAlike(s: State, t: State, codes: set<Digest>, id: Id, community: int)
    requires Alike(s, t, codes)
    ensures Alike(RevokeIn(s, id, community), RevokeIn(t, id, community), codes)
  {
    if id in s.invitations {
      if s.invitations[id] == t.invitations[id] {
        SharedRevoke(s, t, codes, id, community);
      } else {
        StrayRevoke(s, t, codes, id, community);
      }
    }
  }

  lemma RetireAlike(s: State, t: State, codes: set<Digest>, retired: set<string>)
    requires Alike(s, t, codes)
    ensures Alike(s.(retired := retired), t.(retired := retired), codes)
  {}

  /** What other routes insert. */
  lemma OthersAlike(s: State, t: State, codes: set<Digest>, address: string, user: UserId, member: Member)
    requires Alike(s, t, codes)
    ensures Alike(RegisterIn(s, address, user), RegisterIn(t, address, user), codes)
    ensures Alike(AddMemberIn(s, member), AddMemberIn(t, member), codes)
  {}

  lemma SweepAlike(s: State, t: State, codes: set<Digest>)
    requires Alike(s, t, codes)
    ensures Alike(SweepIn(s), t, codes)
  {
    forall i | i in s.invitations
      ensures i in SweepIn(s).invitations && Kin(SweepIn(s).invitations[i], t.invitations[i], s.clock)
           && SweepIn(s).invitations[i].codeHash in codes
    {
      SweptAt(s.invitations, s.clock, i);
      assert Kin(s.invitations[i], t.invitations[i], s.clock);
    }
    SweptStatuses(s.invitations, s.clock);
  }

  // ---- Resolution

  /** Touching one side's own find in a dead end, or nothing. */
  function Bookkept(s: State, found: Option<Found>): State {
    if found.Some? && found.value.id in s.invitations then Touch(s, found.value.id) else s
  }

  /** Touching a row the sweep blocked, on either side. */
  lemma TouchAlike(s: State, t: State, codes: set<Digest>, i: Id)
    requires Alike(s, t, codes) && i in s.invitations && s.invitations[i] != t.invitations[i]
    ensures Alike(Touch(s, i), t, codes) && Alike(s, Touch(t, i), codes)
    ensures Touch(s, i).invitations[i] != t.invitations[i] && s.invitations[i] != Touch(t, i).invitations[i]
  {
    var a, b := Touch(s, i).invitations[i], Touch(t, i).invitations[i];
    assert Kin(s.invitations[i], t.invitations[i], s.clock);
    BlockedKin(s, t, codes, i, b);
    KinRewrite(s.invitations, t.invitations, s.clock, i, a, t.invitations[i]);
    assert t.invitations[i := t.invitations[i]] == t.invitations;
    HeldRewrite(s.invitations, codes, i, a);
  }

  /** Touching one row on both sides. */
  lemma TouchBothAlike(s: State, t: State, codes: set<Digest>, i: Id)
    requires Alike(s, t, codes) && i in s.invitations
    ensures Alike(Touch(s, i), Touch(t, i), codes)
  {
    if s.invitations[i] == t.invitations[i] {
      EqualKin(s, t, codes, i, Touch(s, i).invitations[i]);
    } else {
      TouchAlike(s, t, codes, i);
      TouchAlike(Touch(s, i), t, codes, i);
    }
  }

  lemma BookkeptAlike(s: State, t: State, codes: set<Digest>, p: Option<Found>, q: Option<Found>)
    requires Alike(s, t, codes) && NoneBlocked(t.invitations)
    requires DeadEnd(s.invitations, s.clock, p) && DeadEnd(s.invitations, s.clock, q)
    ensures Alike(Bookkept(s, p), Bookkept(t, q), codes)
  {
    if p.Some? { TouchAlike(s, t, codes, p.value.id); }
    if q.Some? { TouchAlike(Bookkept(s, p), t, codes, q.value.id); }
  }

  lemma DeadEndJudged(s: State, r: RequestId)
    requires r in s.requests && s.requests[r].Looked?
    requires s.requests[r].found.Some? ==>
               && s.requests[r].found.value.id in s.invitations && s.requests[r].found.value.id !in s.locks
               && !Usable(s.requests[r].found.value.inv, s.clock)
    ensures JudgeIn(s, r) == Note(Bookkept(s, s.requests[r].found), r, Done(NotFound))
  {}

  /** A row the sweep blocked is not locked. */
  lemma BlockedIsFree(s: State, i: Id)
    requires ClaimsExclusive(s) && i in s.invitations && s.invitations[i].status == Blocked
    ensures i !in s.locks
  {
    assert i in s.locks ==> ClaimHolds(s, i, s.locks[i]);
  }

  lemma DeadEndsJudge(s: State, t: State, codes: set<Digest>, r: RequestId)
    requires Sim(s, t, codes) && ClaimsExclusive(s) && r in s.requests && s.requests[r].Looked? && t.requests[r].Looked?
    requires DeadEnd(s.invitations, s.clock, s.requests[r].found)
    requires DeadEnd(s.invitations, s.clock, t.requests[r].found)
    ensures Alike(JudgeIn(s, r), JudgeIn(t, r), codes)
    ensures JudgeIn(s, r).requests == s.requests[r := Done(NotFound)]
    ensures JudgeIn(t, r).requests == t.requests[r := Done(NotFound)]
  {
    var p, q := s.requests[r].found, t.requests[r].found;
    if p.Some? { BlockedIsFree(s, p.value.id); }
    if q.Some? { BlockedIsFree(s, q.value.id); }
    DeadEndJudged(s, r);
    DeadEndJudged(t, r);
    BookkeptAlike(s, t, codes, p, q);
  }

  lemma KinNote(rows: Rows, now: int, ps: map<RequestId, Phase>, qs: map<RequestId, Phase>, r: RequestId,
                p: Phase, q: Phase)
    requires KinRequests(rows, now, ps, qs) && KinPhase(rows, now, p, q)
    ensures KinRequests(rows, now, ps[r := p], qs[r := q])
  {}

  /** The tables stay alike, and so do the requests as far as these rows tell. */
  ghost predicate StepsAlike(s: State, s': State, t': State, codes: set<Digest>) {
    Alike(s', t', codes) && KinRequests(s.invitations, s.clock, s'.requests, t'.requests)
  }

  lemma SharedJudge(s: State, t: State, codes: set<Digest>, r: RequestId)
    requires Sim(s, t, codes) && r in s.requests && s.requests[r].Looked? && s.requests[r] == t.requests[r]
    ensures StepsAlike(s, JudgeIn(s, r), JudgeIn(t, r), codes)
  {
    match s.requests[r].found
    case None => KinNote(s.invitations, s.clock, s.requests, t.requests, r, Done(NotFound), Done(NotFound));
    case Some(Found(id, inv)) =>
      if id in s.invitations && id !in s.locks {
        TouchBothAlike(s, t, codes, id);
        var phase := Resolution(id, inv, s.clock, s.requests[r].preview);
        KinNote(s.invitations, s.clock, s.requests, t.requests, r, phase, phase);
      }
  }

  lemma JudgeSim(s: State, t: State, codes: set<Digest>, r: RequestId)
    requires Sim(s, t, codes) && ClaimsExclusive(s)
    ensures StepsAlike(s, JudgeIn(s, r), JudgeIn(t, r), codes)
  {
    if r in s.requests {
      assert KinPhase(s.invitations, s.clock, s.requests[r], t.requests[r]);
      if s.requests[r].Looked? {
        if s.requests[r] == t.requests[r] {
          SharedJudge(s, t, codes, r);
        } else {
          DeadEndsJudge(s, t, codes, r);
          KinNote(s.invitations, s.clock, s.requests, t.requests, r, Done(NotFound), Done(NotFound));
        }
      }
    }
  }

  /** Either lookup reads the row the other one reads, or both lead nowhere. */
  ghost function Read(s: State, secret: Secret): (found: Option<Found>)
    ensures found.Some? ==> found.value.id in s.invitations && found.value.inv == s.invitations[found.value.id]
                            && Matches(found.value.inv, secret)
  {
    if Finds(s, secret) then Some(Found(Find(s, secret), s.invitations[Find(s, secret)])) else None
  }

  lemma ReadShared(s: State, t: State, secret: Secret, i: Id)
    requires UniqueSecrets(s.invitations) && UniqueSecrets(t.invitations)
    requires i in s.invitations && i in t.invitations && s.invitations[i] == t.invitations[i]
    requires Matches(s.invitations[i], secret)
    ensures Read(s, secret) == Read(t, secret)
  {
    UniqueMatch(s, secret, i);
    UniqueMatch(t, secret, i);
  }

  lemma ReadKin(s: State, t: State, codes: set<Digest>, secret: Secret)
    requires Sim(s, t, codes) && UniqueSecrets(s.invitations) && UniqueSecrets(t.invitations) && ClaimsExclusive(s)
    ensures Read(s, secret) == Read(t, secret)
         || (DeadEnd(s.invitations, s.clock, Read(s, secret)) && DeadEnd(s.invitations, s.clock, Read(t, secret)))
  {
    var p, q := Read(s, secret), Read(t, secret);
    if p.Some? && s.invitations[p.value.id] == t.invitations[p.value.id] {
      ReadShared(s, t, secret, p.value.id);
    } else if q.Some? && s.invitations[q.value.id] == t.invitations[q.value.id] {
      ReadShared(s, t, secret, q.value.id);
    } else {
      if p.Some? { assert Kin(s.invitations[p.value.id], t.invitations[p.value.id], s.clock); }
      if q.Some? { assert Kin(s.invitations[q.value.id], t.invitations[q.value.id], s.clock); }
    }
  }

  lemma LookReads(s: State, r: RequestId, secret: Secret, preview: bool)
    requires r !in s.requests
    ensures LookIn(s, r, secret, preview) == Note(s, r, Looked(Read(s, secret), preview))
  {}

  lemma LookSim(s: State, t: State, codes: set<Digest>, r: RequestId, secret: Secret, preview: bool)
    requires Sim(s, t, codes) && UniqueSecrets(s.invitations) && UniqueSecrets(t.invitations) && ClaimsExclusive(s)
    ensures StepsAlike(s, LookIn(s, r, secret, preview), LookIn(t, r, secret, preview), codes)
  {
    if r !in s.requests {
      LookReads(s, r, secret, preview);
      LookReads(t, r, secret, preview);
      ReadKin(s, t, codes, secret);
      KinNote(s.invitations, s.clock, s.requests, t.requests, r, Looked(Read(s, secret), preview),
              Looked(Read(t, secret), preview));
    }
  }

  // ---- The rest of an accept

  /** Past the resolution both runs stand at the same point. */
  lemma PastLooking(s: State, t: State, codes: set<Digest>, r: RequestId)
    requires Sim(s, t, codes) && r in s.requests && (!s.requests[r].Looked? || !t.requests[r].Looked?)
    ensures r in t.requests && t.requests[r] == s.requests[r]
  {
    assert KinPhase(s.invitations, s.clock, s.requests[r], t.requests[r]);
  }

  /** Both runs move a request to the same point and write no row. */
  lemma MoveSim(s: State, t: State, codes: set<Digest>, r: RequestId, phase: Phase, locks: map<Id, RequestId>)
    requires Sim(s, t, codes)
    ensures StepsAlike(s, Note(s, r, phase).(locks := locks), Note(t, r, phase).(locks := locks), codes)
    ensures StepsAlike(s, Note(s, r, phase), Note(t, r, phase), codes)
  {
    KinNote(s.invitations, s.clock, s.requests, t.requests, r, phase, phase);
  }

  lemma AuthenticateSim(s: State, t: State, codes: set<Digest>, r: RequestId, account: Option<Account>)
    requires Sim(s, t, codes)
    ensures StepsAlike(s, AuthenticateIn(s, r, account), AuthenticateIn(t, r, account), codes)
  {
    if r in s.requests && (!s.requests[r].Looked? || !t.requests[r].Looked?) {
      PastLooking(s, t, codes, r);
      if s.requests[r].Resolved? && s.requests[r].id in s.invitations {
        var id := s.requests[r].id;
        assert Kin(s.invitations[id], t.invitations[id], s.clock);
        MoveSim(s, t, codes, r, if account.Some? then Authenticated(id, account.value) else Done(Refused), s.locks);
      }
    }
  }

  lemma BeginSim(s: State, t: State, codes: set<Digest>, r: RequestId)
    requires Sim(s, t, codes)
    ensures StepsAlike(s, BeginIn(s, r), BeginIn(t, r), codes)
  {
    if r in s.requests && (!s.requests[r].Looked? || !t.requests[r].Looked?) {
      PastLooking(s, t, codes, r);
      if s.requests[r].Authenticated? {
        MoveSim(s, t, codes, r, Begun(s.requests[r].id, s.requests[r].account, s.clock), s.locks);
      }
    }
  }

  /** Where the runs differ, the row is dead and unlocked in both. */
  lemma DeadInBoth(s: State, t: State, i: Id)
    requires SameElsewhere(s, t) && KinRows(s.invitations, t.invitations, s.clock) && ClaimsExclusive(s)
    requires i in s.invitations && s.invitations[i] != t.invitations[i]
    ensures s.invitations[i].status == Blocked && i !in s.locks
  {
    assert Kin(s.invitations[i], t.invitations[i], s.clock);
    BlockedIsFree(s, i);
  }

  /** A claim that does not race goes the same way on both sides. */
  lemma ClaimSim(s: State, t: State, codes: set<Digest>, r: RequestId)
    requires Sim(s, t, codes) && ClaimsExclusive(s) && !Races(s, t, Claim(r))
    ensures StepsAlike(s, ClaimIn(s, r), ClaimIn(t, r), codes)
  {
    if r in s.requests && (!s.requests[r].Looked? || !t.requests[r].Looked?) {
      PastLooking(s, t, codes, r);
      if s.requests[r].Begun? && s.requests[r].id in s.invitations {
        var p := s.requests[r];
        if s.invitations[p.id] != t.invitations[p.id] { DeadInBoth(s, t, p.id); }
        MoveSim(s, t, codes, r, Claimed(p.id, p.account, p.started), s.locks[p.id := r]);
        MoveSim(s, t, codes, r, Done(Conflict), s.locks);
      }
    }
  }

  /** The other half: a race shows at once. */
  lemma RaceShows(s: State, t: State, codes: set<Digest>, e: Event)
    requires Sim(s, t, codes) && ClaimsExclusive(s) && Races(s, t, e)
    ensures !SameAnswers(Next(s, e), Next(t, e))
  {
    var id := s.requests[e.req].id;
    PastLooking(s, t, codes, e.req);
    DeadInBoth(s, t, id);
    assert Answered(ClaimIn(s, e.req).requests, e.req) == Some(Conflict);
    assert Answered(ClaimIn(t, e.req).requests, e.req) == None;
  }

  lemma RollBackSim(s: State, t: State, codes: set<Digest>, r: RequestId, response: Response)
    requires Sim(s, t, codes) && r in s.requests && s.requests[r].Claimed? && s.requests[r] == t.requests[r]
    ensures StepsAlike(s, RollBack(s, r, response), RollBack(t, r, response), codes)
  {
    MoveSim(s, t, codes, r, Done(response), s.locks - {s.requests[r].id});
  }

  lemma EnrolledSim(s: State, t: State, codes: set<Digest>, r: RequestId, user: UserId)
    requires Sim(s, t, codes) && r in s.requests && s.requests[r].Claimed? && s.requests[r] == t.requests[r]
    requires s.requests[r].id in s.invitations
    requires s.invitations[s.requests[r].id] == t.invitations[s.requests[r].id]
    ensures StepsAlike(s, Enrolled(s, r, user), Enrolled(t, r, user), codes)
  {
    var id := s.requests[r].id;
    EqualKin(s, t, codes, id, s.invitations[id].(status := Accepted));
    KinNote(s.invitations, s.clock, s.requests, t.requests, r, Done(Joined(user)), Done(Joined(user)));
  }

  lemma CommitSim(s: State, t: State, codes: set<Digest>, r: RequestId, newUser: UserId)
    requires Sim(s, t, codes) && ClaimsExclusive(s)
    ensures StepsAlike(s, CommitIn(s, r, newUser), CommitIn(t, r, newUser), codes)
  {
    if r in s.requests && (!s.requests[r].Looked? || !t.requests[r].Looked?) {
      PastLooking(s, t, codes, r);
      if s.requests[r].Claimed? && s.requests[r].id in s.invitations {
        var id := s.requests[r].id;
        assert ClaimHolds(s, id, r);
        assert Kin(s.invitations[id], t.invitations[id], s.clock);
        EnrolledSim(s, t, codes, r, Joiner(s.requests[r], newUser));
        RollBackSim(s, t, codes, r, Failed);
        RollBackSim(s, t, codes, r, Conflict);
      }
    }
  }

  lemma AbortSim(s: State, t: State, codes: set<Digest>, r: RequestId)
    requires Sim(s, t, codes)
    ensures StepsAlike(s, AbortIn(s, r), AbortIn(t, r), codes)
  {
    if r in s.requests {
      assert KinPhase(s.invitations, s.clock, s.requests[r], t.requests[r]);
      MoveSim(s, t, codes, r, Done(Failed), s.locks);
      if s.requests[r].Claimed? { RollBackSim(s, t, codes, r, Failed); }
    }
  }

  lemma IssuingStepAlike(s: State, t: State, codes: set<Digest>, e: Event)
    requires Alike(s, t, codes) && (e.CreateInvitation? || e.Resend?) && e.codeHash !in codes
    ensures Alike(Next(s, e), Unswept(t, e), codes + {e.codeHash})
  {
    match e
    case CreateInvitation(_, _, _, _, _, _, _) => CreateAlike(s, t, codes, e);
    case Resend(id, community, codeHash) => ResendAlike(s, t, codes, id, community, codeHash);
  }

  lemma PlainStepAlike(s: State, t: State, codes: set<Digest>, e: Event)
    requires Alike(s, t, codes) && OnTable(e) && !e.CreateInvitation? && !e.Resend?
    ensures Alike(Next(s, e), Unswept(t, e), codes)
  {
    match e
    case Tick(to) => if to >= s.clock { TickAlike(s, t, codes, to); }
    case Revoke(id, community) => RevokeAlike(s, t, codes, id, community);
    case Sweep => SweepAlike(s, t, codes);
    case Register(address, user) => OthersAlike(s, t, codes, address, user, Member(0, user, ""));
    case AddMember(member) => OthersAlike(s, t, codes, "", 0, member);
    case Retire(address) => RetireAlike(s, t, codes, s.retired + {address});
  }

  lemma TableStepAlike(s: State, t: State, codes: set<Digest>, e: Event)
    requires Alike(s, t, codes) && OnTable(e) && Issues(e) !! codes
    ensures Alike(Next(s, e), Unswept(t, e), codes + Issues(e))
  {
    if e.CreateInvitation? || e.Resend? {
      assert e.codeHash in Issues(e);
      IssuingStepAlike(s, t, codes, e);
    } else {
      PlainStepAlike(s, t, codes, e);
      assert codes + Issues(e) == codes;
    }
  }

  lemma RequestStepSim(s: State, t: State, codes: set<Digest>, e: Event)
    requires Sim(s, t, codes) && !OnTable(e) && !Races(s, t, e)
    requires UniqueSecrets(s.invitations) && UniqueSecrets(t.invitations) && ClaimsExclusive(s)
    ensures StepsAlike(s, Next(s, e), Unswept(t, e), codes)
  {
    match e
    case Preview(r, secret) => LookSim(s, t, codes, r, secret, true);
    case Resolve(r, secret) => LookSim(s, t, codes, r, secret, false);
    case Judge(r) => JudgeSim(s, t, codes, r);
    case Authenticate(r, account) => AuthenticateSim(s, t, codes, r, account);
    case Begin(r) => BeginSim(s, t, codes, r);
    case Claim(r) => ClaimSim(s, t, codes, r);
    case Commit(r, newUser) => CommitSim(s, t, codes, r, newUser);
    case Abort(r) => AbortSim(s, t, codes, r);
  }

  // ---- What no step undoes

  /** Blocked rows stay blocked and the clock does not go back, so a dead end
      stays one. */
  lemma DeadEndsStay(s: State, s': State, ps: map<RequestId, Phase>, qs: map<RequestId, Phase>)
    requires KinRequests(s.invitations, s.clock, ps, qs)
    requires Advances(s, s') && s.clock <= s'.clock
    ensures KinRequests(s'.invitations, s'.clock, ps, qs)
  {
    forall r | r in ps ensures KinPhase(s'.invitations, s'.clock, ps[r], qs[r]) {
      assert KinPhase(s.invitations, s.clock, ps[r], qs[r]);
    }
  }

  lemma ClockRuns(s: State, e: Event)
    ensures s.clock <= Next(s, e).clock
  {}

  lemma RewriteUnblocked(rows: Rows, id: Id, inv: Invitation)
    requires NoneBlocked(rows) && inv.status != Blocked
    ensures NoneBlocked(rows[id := inv])
  {}

  lemma TableUnblocked(t: State, e: Event)
    requires NoneBlocked(t.invitations) && OnTable(e) && !e.Sweep?
    ensures NoneBlocked(Next(t, e).invitations)
  {}

  lemma JudgeUnblocked(t: State, r: RequestId)
    requires NoneBlocked(t.invitations)
    ensures NoneBlocked(JudgeIn(t, r).invitations)
  {
    if r in t.requests && t.requests[r].Looked? && t.requests[r].found.Some? {
      var id := t.requests[r].found.value.id;
      if id in t.invitations { RewriteUnblocked(t.invitations, id, Touch(t, id).invitations[id]); }
    }
  }

  lemma CommitUnblocked(t: State, r: RequestId, newUser: UserId)
    requires NoneBlocked(t.invitations)
    ensures NoneBlocked(CommitIn(t, r, newUser).invitations)
  {
    if r in t.requests && t.requests[r].Claimed? && t.requests[r].id in t.invitations {
      RewriteUnblocked(t.invitations, t.requests[r].id, t.invitations[t.requests[r].id].(status := Accepted));
    }
  }

  /** Only sweeps block rows. */
  lemma StaysUnblocked(t: State, e: Event)
    requires NoneBlocked(t.invitations) && !e.Sweep?
    ensures NoneBlocked(Next(t, e).invitations)
  {
    match e
    case Judge(r) => JudgeUnblocked(t, r);
    case Commit(r, newUser) => CommitUnblocked(t, r, newUser);
    case _ => if OnTable(e) { TableUnblocked(t, e); }
  }

  lemma StepInv(s: State, t: State, e: Event)
    requires Inv(s) && Inv(t)
    ensures Inv(Next(s, e)) && Inv(Unswept(t, e))
  {
    StepKeeps(s, e);
    StepKeeps(t, e);
  }

  lemma TableKeepsPhases(s: State, t: State, e: Event)
    requires OnTable(e)
    ensures Next(s, e).requests == s.requests && Unswept(t, e).requests == t.requests
  {
    TableKeepsRequests(s, e);
    TableKeepsRequests(t, e);
  }

  lemma StepAlike(s: State, t: State, codes: set<Digest>, e: Event)
    requires Sim(s, t, codes) && Issues(e) !! codes && !Races(s, t, e)
    requires UniqueSecrets(s.invitations) && UniqueSecrets(t.invitations) && ClaimsExclusive(s)
    ensures StepsAlike(s, Next(s, e), Unswept(t, e), codes + Issues(e))
  {
    if OnTable(e) {
      TableStepAlike(s, t, codes, e);
      TableKeepsPhases(s, t, e);
    } else {
      RequestStepSim(s, t, codes, e);
      assert codes + Issues(e) == codes;
    }
  }

  lemma StepSim(s: State, t: State, codes: set<Digest>, e: Event)
    requires Sim(s, t, codes) && Issues(e) !! codes && !Races(s, t, e) && Inv(s) && Inv(t)
    ensures Sim(Next(s, e), Unswept(t, e), codes + Issues(e))
  {
    StepAlike(s, t, codes, e);
    StepKeeps(s, e);
    ClockRuns(s, e);
    DeadEndsStay(s, Next(s, e), Next(s, e).requests, Unswept(t, e).requests);
    if !e.Sweep? { StaysUnblocked(t, e); }
  }

  lemma SimAnswers(s: State, t: State, codes: set<Digest>)
    requires Sim(s, t, codes)
    ensures SameAnswers(s, t)
  {
    forall r ensures Answered(s.requests, r) == Answered(t.requests, r) {
      if r in s.requests { assert KinPhase(s.invitations, s.clock, s.requests[r], t.requests[r]); }
    }
  }

  // ---- Main results

  /** From any pair of states in step, every later answer agrees exactly when
      no claim races a sweep. */
  lemma {:induction false} AgreeIffRaceFree(s: State, t: State, codes: set<Digest>, events: seq<Event>)
    requires Sim(s, t, codes) && Inv(s) && Inv(t) && FreshCodes(codes, events)
    ensures AnswersAgree(s, t, events) <==> RaceFree(s, t, events)
    decreases |events|
  {
    SimAnswers(s, t, codes);
    if events != [] {
      var e := events[0];
      if Races(s, t, e) {
        RaceShows(s, t, codes, e);
        assert !AnswersAgree(Next(s, e), Unswept(t, e), events[1..]);
      } else {
        StepSim(s, t, codes, e);
        StepInv(s, t, e);
        AgreeIffRaceFree(Next(s, e), Unswept(t, e), codes + Issues(e), events[1..]);
      }
    }
  }

  lemma {:induction false} UnsweptRun(s: State, t: State, codes: set<Digest>, events: seq<Event>)
    requires Sim(s, t, codes) && Inv(s) && Inv(t) && FreshCodes(codes, events) && RaceFree(s, t, events)
    ensures var s', t' := Run(s, events), Run(t, WithoutSweeps(events)); SameElsewhere(s', t') && SameAnswers(s', t')
    decreases |events|
  {
    SimAnswers(s, t, codes);
    if events != [] {
      var e := events[0];
      StepSim(s, t, codes, e);
      StepInv(s, t, e);
      UnsweptRun(Next(s, e), Unswept(t, e), codes + Issues(e), events[1..]);
      if !e.Sweep? {
        assert WithoutSweeps(events)[1..] == WithoutSweeps(events[1..]);
      }
    }
  }

  /** Taking every sweep out of a run changes no answer of a preview or an
      accept at any moment, if and only if no claim races a sweep. */
  lemma SweepsUnseen(w: World, events: seq<Event>)
    requires FreshCodes({}, events)
    ensures var s := Init(w);
            && (AnswersAgree(s, s, events) <==> RaceFree(s, s, events))
            && (RaceFree(s, s, events) ==>
                  var s', t' := Run(s, events), Run(s, WithoutSweeps(events));
                  SameElsewhere(s', t') && SameAnswers(s', t'))
  {
    var s := Init(w);
    InitInv(w);
    AgreeIffRaceFree(s, s, {}, events);
    if RaceFree(s, s, events) {
      UnsweptRun(s, s, {}, events);
    }
  }

  // ---- The race itself

  /** An invitation previewed as usable and authenticated for in time, up to
      the moment its transaction begins. */
  function UpToBegin(): seq<Event> {
    [CreateInvitation(0, 7, 8, Some("a@b"), "owner", "token", "code"),
     Resolve(1, ShortCode("code")), Judge(1), Authenticate(1, Some(Create)), Begin(1), Tick(EXPIRY)]
  }

  const NOBODY := World(true, map[], {}, {})

  lemma BegunInTime()
    ensures var s := Run(Init(NOBODY), UpToBegin());
            && s.clock == EXPIRY && s.locks == map[]
            && 1 in s.requests && s.requests[1] == Begun(0, Create, 0)
            && 0 in s.invitations && s.invitations[0].status == Pending && s.invitations[0].expiresAt == EXPIRY
  {
    var es := UpToBegin();
    var s0 := Init(NOBODY);
    var s1 := Next(s0, es[0]);
    assert Matches(s1.invitations[0], ShortCode("code"));
    var s2 := Next(s1, es[1]);
    assert s2.requests[1] == Looked(Some(Found(0, s1.invitations[0])), false);
    var s3 := Next(s2, es[2]);
    assert s3.requests[1] == Resolved(0);
    var s4 := Next(s3, es[3]);
    assert s4.requests[1] == Authenticated(0, Create);
    var s5 := Next(s4, es[4]);
    var s6 := Next(s5, es[5]);
    RunsThrough(es, [s0, s1, s2, s3, s4, s5, s6], 0);
  }

  /** Request `r`'s claim goes through now, and conflicts if a sweep comes first. */
  ghost predicate SweepCosts(s: State, r: RequestId) {
    && r in ClaimIn(s, r).requests && ClaimIn(s, r).requests[r].Claimed?
    && r in ClaimIn(SweepIn(s), r).requests && ClaimIn(SweepIn(s), r).requests[r] == Done(Conflict)
  }

  lemma StaleClaim(s: State, r: RequestId, id: Id)
    requires s.locks == map[] && r in s.requests && s.requests[r].Begun? && s.requests[r].id == id
    requires id in s.invitations && Stale(s.invitations[id], s.clock)
    requires s.requests[r].started < s.invitations[id].expiresAt
    ensures SweepCosts(s, r) && Races(SweepIn(s), s, Claim(r))
  {
    SweptAt(s.invitations, s.clock, id);
  }

  /** The race happens: a sweep between an accept's BEGIN and its conditional
      update turns a claim that would have gone through into a conflict. */
  lemma SweepCanRace()
    ensures SweepCosts(Run(Init(NOBODY), UpToBegin()), 1)
  {
    BegunInTime();
    StaleClaim(Run(Init(NOBODY), UpToBegin()), 1, 0);
  }
}
