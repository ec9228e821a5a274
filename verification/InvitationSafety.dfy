/** What every interleaving of the invitation operations keeps. */
module InvitationSafety {
  import opened Common
  import opened Invitations

  type Rows = map<Id, Invitation>

  function WithStatus(rows: Rows, status: Status): set<Id> {
    set i | i in rows && rows[i].status == status
  }

  /** Audit rows, memberships and emails agree with the table. */
  ghost predicate Conserved(s: State) {
    && s.audits.create == multiset(s.invitations.Keys)
    && s.audits.revoke == multiset(WithStatus(s.invitations, Revoked))
    && s.joins == s.audits.accept == multiset(WithStatus(s.invitations, Accepted))
    && s.emails == (if s.queue then s.audits.create + s.audits.resend else multiset{})
  }

  /** Each row's send counter is its creation plus its resends. */
  ghost predicate SendsCounted(s: State) {
    forall i :: s.audits.resend[i] == if i in s.invitations then s.invitations[i].sentCount - 1 else 0
  }

  /** Row locks and uncommitted claims are the same thing, and a locked row is
      as it was claimed. */
  ghost predicate ClaimHolds(s: State, id: Id, r: RequestId) {
    && r in s.requests && s.requests[r].Claimed? && s.requests[r].id == id
    && id in s.invitations && Usable(s.invitations[id], s.requests[r].started)
  }

  ghost predicate ClaimsExclusive(s: State) {
    && (forall id :: id in s.locks ==> ClaimHolds(s, id, s.locks[id]))
    && (forall r :: r in s.requests && s.requests[r].Claimed? ==>
          s.requests[r].id in s.locks && s.locks[s.requests[r].id] == r)
  }

  /** Committed accepts: one per accepted row, each begun before it expired. */
  ghost predicate InTime(rows: Rows, claim: Acceptance) {
    claim.id in rows && rows[claim.id].status == Accepted && claim.started < rows[claim.id].expiresAt
  }

  ghost predicate AcceptedInTime(rows: Rows, claims: seq<Acceptance>) {
    && (forall n :: 0 <= n < |claims| ==> InTime(rows, claims[n]))
    && (forall n, m :: 0 <= n < m < |claims| ==> claims[n].id != claims[m].id)
    && (forall i :: i in WithStatus(rows, Accepted) ==> exists n :: 0 <= n < |claims| && claims[n].id == i)
  }

  ghost predicate Distinct(a: Invitation, b: Invitation) {
    a.tokenHash != b.tokenHash && a.codeHash != b.codeHash
  }

  ghost predicate UniqueSecrets(rows: Rows) {
    forall i, j :: i in rows && j in rows && i != j ==> Distinct(rows[i], rows[j])
  }

  ghost predicate Inv(s: State) {
    && Conserved(s) && SendsCounted(s) && ClaimsExclusive(s)
    && AcceptedInTime(s.invitations, s.claims) && UniqueSecrets(s.invitations)
  }

  /** A row only ever moves from pending to one final status, and what
      identifies it never changes. */
  ghost predicate RowAdvances(a: Invitation, b: Invitation) {
    && (a.status != Pending ==> b.status == a.status && b.codeHash == a.codeHash && b.sentCount == a.sentCount)
    && a.community == b.community && a.unit == b.unit && a.email == b.email && a.role == b.role
    && a.tokenHash == b.tokenHash && a.expiresAt == b.expiresAt
  }

  ghost predicate Advances(s: State, t: State) {
    && s.invitations.Keys <= t.invitations.Keys
    && (forall i :: i in s.invitations ==> RowAdvances(s.invitations[i], t.invitations[i]))
    && s.members <= t.members && s.joins <= t.joins
    && |t.members| - |s.members| == |t.joins| - |s.joins| + t.direct - s.direct
  }

  // ---- One row rewritten

  lemma RewriteStatus(rows: Rows, id: Id, inv: Invitation, status: Status)
    ensures WithStatus(rows[id := inv], status)
         == if inv.status == status then WithStatus(rows, status) + {id} else WithStatus(rows, status) - {id}
  {}

  /** A row whose status stays as it is keeps every count. */
  lemma SameStatuses(rows: Rows, id: Id, inv: Invitation)
    requires id in rows && rows[id].status == inv.status
    ensures rows[id := inv].Keys == rows.Keys
    ensures forall status :: WithStatus(rows[id := inv], status) == WithStatus(rows, status)
  {
    forall status ensures WithStatus(rows[id := inv], status) == WithStatus(rows, status) {
      RewriteStatus(rows, id, inv, status);
    }
  }

  /** Claims survive a rewrite that neither touches an accepted row nor makes one. */
  lemma ClaimsSurvive(rows: Rows, id: Id, inv: Invitation, claims: seq<Acceptance>)
    requires AcceptedInTime(rows, claims)
    requires inv.status != Accepted && (id in rows ==> rows[id].status != Accepted)
    ensures AcceptedInTime(rows[id := inv], claims)
  {
    RewriteStatus(rows, id, inv, Accepted);
    assert forall n :: 0 <= n < |claims| ==> InTime(rows, claims[n]);
  }

  // ---- Conservation, operation by operation

  lemma PendingAdded(rows: Rows, id: Id, inv: Invitation)
    requires id !in rows && inv.status == Pending
    ensures multiset(rows[id := inv].Keys) == multiset(rows.Keys) + multiset{id}
    ensures forall status :: status != Pending ==> WithStatus(rows[id := inv], status) == WithStatus(rows, status)
  {
    assert rows[id := inv].Keys == rows.Keys + {id};
    forall status | status != Pending ensures WithStatus(rows[id := inv], status) == WithStatus(rows, status) {
      RewriteStatus(rows, id, inv, status);
    }
  }

  lemma PendingEnded(rows: Rows, id: Id, inv: Invitation)
    requires id in rows && rows[id].status == Pending != inv.status
    ensures rows[id := inv].Keys == rows.Keys
    ensures forall status :: status != Pending ==>
      multiset(WithStatus(rows[id := inv], status))
      == if status == inv.status then multiset(WithStatus(rows, status)) + multiset{id}
         else multiset(WithStatus(rows, status))
  {
    forall status | status != Pending
      ensures multiset(WithStatus(rows[id := inv], status))
           == if status == inv.status then multiset(WithStatus(rows, status)) + multiset{id}
              else multiset(WithStatus(rows, status))
    {
      RewriteStatus(rows, id, inv, status);
      assert id !in WithStatus(rows, status);
    }
  }

  lemma CreateConserves(s: State, e: Event)
    requires Conserved(s) && SendsCounted(s) && e.CreateInvitation?
    ensures Conserved(CreateIn(s, e)) && SendsCounted(CreateIn(s, e))
  {
    var t := CreateIn(s, e);
    if t != s {
      PendingAdded(s.invitations, e.id, t.invitations[e.id]);
      CreateEmails(s.audits.create, s.audits.resend, e.id);
    }
  }

  lemma CreateEmails(a: multiset<Id>, b: multiset<Id>, id: Id)
    ensures (a + multiset{id}) + b == (a + b) + multiset{id}
  {}

  lemma ResendConserves(s: State, id: Id, community: int, codeHash: Digest)
    requires Conserved(s) && SendsCounted(s)
    ensures Conserved(ResendIn(s, id, community, codeHash)) && SendsCounted(ResendIn(s, id, community, codeHash))
  {
    var t := ResendIn(s, id, community, codeHash);
    if t != s {
      SameStatuses(s.invitations, id, t.invitations[id]);
    }
  }

  lemma RevokeConserves(s: State, id: Id, community: int)
    requires Conserved(s) && SendsCounted(s)
    ensures Conserved(RevokeIn(s, id, community)) && SendsCounted(RevokeIn(s, id, community))
  {
    var t := RevokeIn(s, id, community);
    if t != s {
      PendingEnded(s.invitations, id, t.invitations[id]);
    }
  }

  lemma SweptAt(rows: Rows, now: int, i: Id)
    requires i in rows
    ensures i in Swept(rows, now)
    ensures Swept(rows, now)[i] == if Stale(rows[i], now) then rows[i].(status := Blocked) else rows[i]
  {}

  /** A sweep only turns pending rows into blocked ones. */
  lemma SweptStatuses(rows: Rows, now: int)
    ensures Swept(rows, now).Keys == rows.Keys
    ensures WithStatus(Swept(rows, now), Revoked) == WithStatus(rows, Revoked)
    ensures WithStatus(Swept(rows, now), Accepted) == WithStatus(rows, Accepted)
  {
    forall i | i in rows ensures i in Swept(rows, now) && (Swept(rows, now)[i] == rows[i] || Stale(rows[i], now)) {
      SweptAt(rows, now, i);
    }
  }

  lemma SweepConserves(s: State)
    requires Conserved(s) && SendsCounted(s)
    ensures Conserved(SweepIn(s)) && SendsCounted(SweepIn(s))
  {
    SweptStatuses(s.invitations, s.clock);
  }

  lemma TouchConserves(s: State, id: Id)
    requires Conserved(s) && SendsCounted(s) && id in s.invitations
    ensures Conserved(Touch(s, id)) && SendsCounted(Touch(s, id))
  {
    SameStatuses(s.invitations, id, Touch(s, id).invitations[id]);
  }

  lemma AcceptanceConserves(s: State, t: State, id: Id, inv: Invitation)
    requires Conserved(s) && SendsCounted(s)
    requires id in s.invitations && s.invitations[id].status == Pending
    requires inv == s.invitations[id].(status := Accepted) && t.invitations == s.invitations[id := inv]
    requires t.queue == s.queue && t.emails == s.emails && t.joins == s.joins + multiset{id}
    requires t.audits == s.audits.(accept := s.audits.accept + multiset{id})
    ensures Conserved(t) && SendsCounted(t)
  {
    PendingEnded(s.invitations, id, inv);
  }

  lemma EnrolledConserves(s: State, r: RequestId, user: UserId)
    requires Conserved(s) && SendsCounted(s) && r in s.requests && s.requests[r].Claimed?
    requires ClaimHolds(s, s.requests[r].id, r)
    ensures Conserved(Enrolled(s, r, user)) && SendsCounted(Enrolled(s, r, user))
  {
    var id := s.requests[r].id;
    AcceptanceConserves(s, Enrolled(s, r, user), id, s.invitations[id].(status := Accepted));
  }

  // ---- Locks

  /** A rewrite of an unlocked row leaves every claim as it was. */
  lemma UnlockedRewrite(s: State, t: State, id: Id)
    requires ClaimsExclusive(s) && id !in s.locks
    requires t.locks == s.locks && t.requests == s.requests
    requires forall i :: i in s.locks && i in s.invitations ==>
                           i in t.invitations && t.invitations[i] == s.invitations[i]
    ensures ClaimsExclusive(t)
  {
    forall i | i in t.locks ensures ClaimHolds(t, i, t.locks[i]) {
      assert ClaimHolds(s, i, s.locks[i]);
    }
  }

  /** A request that neither holds nor takes a lock may move on freely. */
  lemma PhaseMoves(s: State, r: RequestId, phase: Phase)
    requires ClaimsExclusive(s) && !phase.Claimed? && (r in s.requests ==> !s.requests[r].Claimed?)
    ensures ClaimsExclusive(Note(s, r, phase))
  {
    var t := Note(s, r, phase);
    forall i | i in t.locks ensures ClaimHolds(t, i, t.locks[i]) {
      assert ClaimHolds(s, i, s.locks[i]);
    }
  }

  lemma TouchKeepsLocks(s: State, id: Id)
    requires ClaimsExclusive(s) && id in s.invitations && id !in s.locks
    ensures ClaimsExclusive(Touch(s, id))
  {
    UnlockedRewrite(s, Touch(s, id), id);
  }

  lemma SweepKeepsLocks(s: State)
    requires ClaimsExclusive(s)
    ensures ClaimsExclusive(SweepIn(s))
  {
    var t := SweepIn(s);
    if t != s {
      forall i | i in t.locks ensures ClaimHolds(t, i, t.locks[i]) {
        assert ClaimHolds(s, i, s.locks[i]);
      }
    }
  }

  lemma ClaimKeepsLocks(s: State, r: RequestId)
    requires ClaimsExclusive(s)
    ensures ClaimsExclusive(ClaimIn(s, r))
  {
    var t := ClaimIn(s, r);
    if t != s {
      if t.requests[r].Claimed? {
        forall i | i in t.locks ensures ClaimHolds(t, i, t.locks[i]) {
          if i != s.requests[r].id {
            assert ClaimHolds(s, i, s.locks[i]);
          }
        }
      } else {
        PhaseMoves(s, r, t.requests[r]);
      }
    }
  }

  lemma RollBackKeepsLocks(s: State, r: RequestId, response: Response)
    requires ClaimsExclusive(s) && r in s.requests && s.requests[r].Claimed?
    ensures ClaimsExclusive(RollBack(s, r, response)) && s.requests[r].id !in RollBack(s, r, response).locks
  {
    var t := RollBack(s, r, response);
    forall i | i in t.locks ensures ClaimHolds(t, i, t.locks[i]) {
      assert ClaimHolds(s, i, s.locks[i]);
    }
  }

  lemma EnrolledKeepsLocks(s: State, r: RequestId, user: UserId)
    requires ClaimsExclusive(s) && r in s.requests && s.requests[r].Claimed? && s.requests[r].id in s.invitations
    ensures ClaimsExclusive(Enrolled(s, r, user))
  {
    RollBackKeepsLocks(s, r, Joined(user));
    UnlockedRewrite(RollBack(s, r, Joined(user)), Enrolled(s, r, user), s.requests[r].id);
  }

  // ---- Committed accepts

  lemma AcceptanceInTime(rows: Rows, claims: seq<Acceptance>, claim: Acceptance, inv: Invitation)
    requires AcceptedInTime(rows, claims)
    requires claim.id in rows && rows[claim.id].status == Pending
    requires inv.status == Accepted && claim.started < inv.expiresAt
    ensures AcceptedInTime(rows[claim.id := inv], claims + [claim])
  {
    var id := claim.id;
    RewriteStatus(rows, id, inv, Accepted);
    var claims' := claims + [claim];
    forall n | 0 <= n < |claims| ensures InTime(rows[id := inv], claims'[n]) && claims[n].id != id {
      assert InTime(rows, claims[n]);
    }
    var accepted := WithStatus(rows[id := inv], Accepted);
    forall i | i in accepted ensures exists n :: 0 <= n < |claims'| && claims'[n].id == i {
      if i != id {
        var n :| 0 <= n < |claims| && claims[n].id == i;
        assert claims'[n].id == i;
      } else {
        assert claims'[|claims|].id == i;
      }
    }
  }

  lemma SweepAcceptsInTime(s: State)
    requires AcceptedInTime(s.invitations, s.claims)
    ensures AcceptedInTime(SweepIn(s).invitations, SweepIn(s).claims)
  {
    var t := SweepIn(s);
    SweptStatuses(s.invitations, s.clock);
    forall n | 0 <= n < |s.claims| ensures InTime(t.invitations, t.claims[n]) {
      assert InTime(s.invitations, s.claims[n]);
      SweptAt(s.invitations, s.clock, s.claims[n].id);
    }
  }

  // ---- Secrets

  /** A row whose secrets nobody else holds can be written without a clash. */
  lemma RewriteUnique(rows: Rows, id: Id, inv: Invitation)
    requires UniqueSecrets(rows)
    requires forall i :: i in rows && i != id ==> Distinct(rows[i], inv)
    ensures UniqueSecrets(rows[id := inv])
  {}

  // ---- Every operation keeps the invariant and only advances rows

  ghost predicate Keeps(s: State, t: State) {
    Inv(t) && Advances(s, t)
  }

  lemma RewriteAdvances(s: State, t: State, id: Id, inv: Invitation)
    requires t.invitations == s.invitations[id := inv]
    requires t.members == s.members && t.joins == s.joins && t.direct == s.direct
    requires id in s.invitations ==> RowAdvances(s.invitations[id], inv)
    ensures Advances(s, t)
  {}

  lemma CreateKeeps(s: State, e: Event)
    requires Inv(s) && e.CreateInvitation?
    ensures Keeps(s, CreateIn(s, e))
  {
    var t := CreateIn(s, e);
    if t != s {
      var inv := t.invitations[e.id];
      CreateConserves(s, e);
      UnlockedRewrite(s, t, e.id);
      ClaimsSurvive(s.invitations, e.id, inv, s.claims);
      RewriteUnique(s.invitations, e.id, inv);
      RewriteAdvances(s, t, e.id, inv);
    }
  }

  lemma ResendKeeps(s: State, id: Id, community: int, codeHash: Digest)
    requires Inv(s)
    ensures Keeps(s, ResendIn(s, id, community, codeHash))
  {
    var t := ResendIn(s, id, community, codeHash);
    if t != s {
      var inv := t.invitations[id];
      ResendConserves(s, id, community, codeHash);
      UnlockedRewrite(s, t, id);
      ClaimsSurvive(s.invitations, id, inv, s.claims);
      RewriteUnique(s.invitations, id, inv);
      RewriteAdvances(s, t, id, inv);
    }
  }

  lemma RevokeKeeps(s: State, id: Id, community: int)
    requires Inv(s)
    ensures Keeps(s, RevokeIn(s, id, community))
  {
    var t := RevokeIn(s, id, community);
    if t != s {
      var inv := t.invitations[id];
      RevokeConserves(s, id, community);
      UnlockedRewrite(s, t, id);
      ClaimsSurvive(s.invitations, id, inv, s.claims);
      RewriteUnique(s.invitations, id, inv);
      RewriteAdvances(s, t, id, inv);
    }
  }

  lemma SweptAdvances(rows: Rows, now: int)
    ensures Swept(rows, now).Keys == rows.Keys
    ensures forall i :: i in rows ==> RowAdvances(rows[i], Swept(rows, now)[i])
  {
    forall i | i in rows ensures i in Swept(rows, now) && RowAdvances(rows[i], Swept(rows, now)[i]) {
      SweptAt(rows, now, i);
    }
  }

  lemma SweptUnique(rows: Rows, now: int)
    requires UniqueSecrets(rows)
    ensures UniqueSecrets(Swept(rows, now))
  {
    forall i, j | i in rows && j in rows && i != j ensures Distinct(Swept(rows, now)[i], Swept(rows, now)[j]) {
      SweptAt(rows, now, i);
      SweptAt(rows, now, j);
      assert Distinct(rows[i], rows[j]);
    }
  }

  lemma SweepKeeps(s: State)
    requires Inv(s)
    ensures Keeps(s, SweepIn(s))
  {
    var t := SweepIn(s);
    if t != s {
      SweepConserves(s);
      SweepKeepsLocks(s);
      SweepAcceptsInTime(s);
      SweptUnique(s.invitations, s.clock);
      SweptAdvances(s.invitations, s.clock);
    }
  }

  /** Bookkeeping on a row, accepted or not, leaves the claims in time. */
  lemma ClaimsSurviveTouch(rows: Rows, id: Id, inv: Invitation, claims: seq<Acceptance>)
    requires AcceptedInTime(rows, claims) && id in rows
    requires inv.status == rows[id].status && inv.expiresAt == rows[id].expiresAt
    ensures AcceptedInTime(rows[id := inv], claims)
  {
    RewriteStatus(rows, id, inv, Accepted);
    assert WithStatus(rows[id := inv], Accepted) == WithStatus(rows, Accepted);
    assert forall n :: 0 <= n < |claims| ==> InTime(rows, claims[n]);
  }

  lemma TouchKeeps(s: State, id: Id)
    requires Inv(s) && id in s.invitations && id !in s.locks
    ensures Keeps(s, Touch(s, id))
  {
    var inv := Touch(s, id).invitations[id];
    TouchConserves(s, id);
    TouchKeepsLocks(s, id);
    ClaimsSurviveTouch(s.invitations, id, inv, s.claims);
    RewriteUnique(s.invitations, id, inv);
    RewriteAdvances(s, Touch(s, id), id, inv);
  }

  /** A step of a request that writes no row. */
  lemma PhaseKeeps(s: State, t: State)
    requires Inv(s) && ClaimsExclusive(t)
    requires t == s.(requests := t.requests, locks := t.locks)
    ensures Keeps(s, t)
  {}

  lemma NoteKeeps(s: State, r: RequestId, phase: Phase)
    requires Inv(s) && !phase.Claimed? && (r in s.requests ==> !s.requests[r].Claimed?)
    ensures Keeps(s, Note(s, r, phase))
  {
    PhaseMoves(s, r, phase);
    PhaseKeeps(s, Note(s, r, phase));
  }

  lemma KeepsCompose(s: State, t: State, u: State)
    requires Keeps(s, t) && Keeps(t, u)
    ensures Keeps(s, u)
  {}

  lemma LookKeeps(s: State, r: RequestId, secret: Secret, preview: bool)
    requires Inv(s)
    ensures Keeps(s, LookIn(s, r, secret, preview))
  {
    var t := LookIn(s, r, secret, preview);
    if t != s {
      NoteKeeps(s, r, t.requests[r]);
    }
  }

  lemma JudgeKeeps(s: State, r: RequestId)
    requires Inv(s)
    ensures Keeps(s, JudgeIn(s, r))
  {
    if r in s.requests && s.requests[r].Looked? {
      match s.requests[r].found
      case None => NoteKeeps(s, r, Done(NotFound));
      case Some(Found(id, inv)) =>
        if id in s.invitations && id !in s.locks {
          var phase := Resolution(id, inv, s.clock, s.requests[r].preview);
          TouchKeeps(s, id);
          NoteKeeps(Touch(s, id), r, phase);
          KeepsCompose(s, Touch(s, id), Note(Touch(s, id), r, phase));
        }
    }
  }

  lemma AuthenticateKeeps(s: State, r: RequestId, account: Option<Account>)
    requires Inv(s)
    ensures Keeps(s, AuthenticateIn(s, r, account))
  {
    if r in s.requests && s.requests[r].Resolved? && s.requests[r].id in s.invitations {
      NoteKeeps(s, r, if account.Some? then Authenticated(s.requests[r].id, account.value) else Done(Refused));
    }
  }

  lemma BeginKeeps(s: State, r: RequestId)
    requires Inv(s)
    ensures Keeps(s, BeginIn(s, r))
  {
    if BeginIn(s, r) != s {
      NoteKeeps(s, r, BeginIn(s, r).requests[r]);
    }
  }

  lemma ClaimKeeps(s: State, r: RequestId)
    requires Inv(s)
    ensures Keeps(s, ClaimIn(s, r))
  {
    ClaimKeepsLocks(s, r);
    PhaseKeeps(s, ClaimIn(s, r));
  }

  lemma RollBackKeeps(s: State, r: RequestId, response: Response)
    requires Inv(s) && r in s.requests && s.requests[r].Claimed?
    ensures Keeps(s, RollBack(s, r, response))
  {
    RollBackKeepsLocks(s, r, response);
    PhaseKeeps(s, RollBack(s, r, response));
  }

  lemma EnrolledKeeps(s: State, r: RequestId, user: UserId)
    requires Inv(s) && r in s.requests && s.requests[r].Claimed? && s.requests[r].id in s.invitations
    requires var inv := s.invitations[s.requests[r].id]; Member(inv.unit, user, inv.role) !in s.members
    ensures Keeps(s, Enrolled(s, r, user))
  {
    var id := s.requests[r].id;
    assert ClaimHolds(s, id, r);
    var inv := s.invitations[id].(status := Accepted);
    EnrolledConserves(s, r, user);
    EnrolledKeepsLocks(s, r, user);
    var claim := Acceptance(id, r, s.requests[r].started, Member(inv.unit, user, inv.role));
    AcceptanceInTime(s.invitations, s.claims, claim, inv);
    RewriteUnique(s.invitations, id, inv);
  }

  lemma CommitKeeps(s: State, r: RequestId, newUser: UserId)
    requires Inv(s)
    ensures Keeps(s, CommitIn(s, r, newUser))
  {
    if r in s.requests && s.requests[r].Claimed? && s.requests[r].id in s.invitations {
      var inv := s.invitations[s.requests[r].id];
      var user := Joiner(s.requests[r], newUser);
      if Member(inv.unit, user, inv.role) !in s.members {
        EnrolledKeeps(s, r, user);
      }
      RollBackKeeps(s, r, Failed);
      RollBackKeeps(s, r, Conflict);
    }
  }

  lemma AbortKeeps(s: State, r: RequestId)
    requires Inv(s)
    ensures Keeps(s, AbortIn(s, r))
  {
    if r in s.requests && !s.requests[r].Done? {
      if s.requests[r].Claimed? {
        RollBackKeeps(s, r, Failed);
      } else {
        NoteKeeps(s, r, Done(Failed));
      }
    }
  }

  lemma TickKeeps(s: State, to: int, users: map<string, UserId>, retired: set<string>)
    requires Inv(s)
    ensures Keeps(s, s.(clock := to, users := users, retired := retired))
  {}

  lemma AddMemberAdvances(s: State, member: Member)
    ensures Advances(s, AddMemberIn(s, member))
  {}

  lemma AddMemberInv(s: State, member: Member)
    requires Inv(s)
    ensures Inv(AddMemberIn(s, member))
  {}

  lemma AddMemberKeeps(s: State, member: Member)
    requires Inv(s)
    ensures Keeps(s, AddMemberIn(s, member))
  {
    AddMemberAdvances(s, member);
    AddMemberInv(s, member);
  }

  predicate OnTable(e: Event) {
    || e.Tick? || e.CreateInvitation? || e.Resend? || e.Revoke? || e.Sweep? || e.Register? || e.AddMember?
    || e.Retire?
  }

  lemma TableStepKeeps(s: State, e: Event)
    requires Inv(s) && OnTable(e)
    ensures Keeps(s, Next(s, e))
  {
    match e
    case Tick(to) => TickKeeps(s, if to >= s.clock then to else s.clock, s.users, s.retired);
    case CreateInvitation(_, _, _, _, _, _, _) => CreateKeeps(s, e);
    case Resend(id, community, codeHash) => ResendKeeps(s, id, community, codeHash);
    case Revoke(id, community) => RevokeKeeps(s, id, community);
    case Sweep => SweepKeeps(s);
    case Register(address, user) => TickKeeps(s, s.clock, RegisterIn(s, address, user).users, s.retired);
    case AddMember(member) => AddMemberKeeps(s, member);
    case Retire(address) => TickKeeps(s, s.clock, s.users, Next(s, e).retired);
  }

  lemma PreviewStepKeeps(s: State, r: RequestId, secret: Secret)
    requires Inv(s)
    ensures Keeps(s, Next(s, Preview(r, secret)))
  {
    LookKeeps(s, r, secret, true);
  }

  lemma ResolveStepKeeps(s: State, r: RequestId, secret: Secret)
    requires Inv(s)
    ensures Keeps(s, Next(s, Resolve(r, secret)))
  {
    LookKeeps(s, r, secret, false);
  }

  lemma JudgeStepKeeps(s: State, r: RequestId)
    requires Inv(s)
    ensures Keeps(s, Next(s, Judge(r)))
  {
    JudgeKeeps(s, r);
  }

  lemma ClaimStepKeeps(s: State, r: RequestId)
    requires Inv(s)
    ensures Keeps(s, Next(s, Claim(r)))
  {
    ClaimKeeps(s, r);
  }

  lemma CommitStepKeeps(s: State, r: RequestId, newUser: UserId)
    requires Inv(s)
    ensures Keeps(s, Next(s, Commit(r, newUser)))
  {
    CommitKeeps(s, r, newUser);
  }

  lemma AbortStepKeeps(s: State, r: RequestId)
    requires Inv(s)
    ensures Keeps(s, Next(s, Abort(r)))
  {
    AbortKeeps(s, r);
  }

  lemma StepKeeps(s: State, e: Event)
    requires Inv(s)
    ensures Keeps(s, Next(s, e))
  {
    match e
    case Preview(r, secret) => PreviewStepKeeps(s, r, secret);
    case Resolve(r, secret) => ResolveStepKeeps(s, r, secret);
    case Judge(r) => JudgeStepKeeps(s, r);
    case Authenticate(r, account) => AuthenticateKeeps(s, r, account);
    case Begin(r) => BeginKeeps(s, r);
    case Claim(r) => ClaimStepKeeps(s, r);
    case Commit(r, newUser) => CommitStepKeeps(s, r, newUser);
    case Abort(r) => AbortStepKeeps(s, r);
    case _ => TableStepKeeps(s, e);
  }

  lemma {:induction false} RunKeeps(s: State, events: seq<Event>)
    requires Inv(s)
    ensures Keeps(s, Run(s, events))
    decreases |events|
  {
    if events == [] {
      SelfKeeps(s);
    } else {
      StepKeeps(s, events[0]);
      RunKeeps(Next(s, events[0]), events[1..]);
      KeepsCompose(s, Next(s, events[0]), Run(s, events));
    }
  }

  /** One step of a run, by the state it leads to. */
  lemma RunVia(s: State, es: seq<Event>, n: nat, t: State)
    requires n < |es| && Next(s, es[n]) == t
    ensures Run(s, es[n..]) == Run(t, es[n + 1..])
  {
    assert es[n..][1..] == es[n + 1..];
  }

  lemma {:induction false} RunsThrough(es: seq<Event>, states: seq<State>, n: nat)
    requires |states| == |es| + 1 && n <= |es|
    requires forall i :: 0 <= i < |es| ==> Next(states[i], es[i]) == states[i + 1]
    ensures Run(states[n], es[n..]) == states[|es|]
    decreases |es| - n
  {
    if n < |es| {
      RunVia(states[n], es, n, states[n + 1]);
      RunsThrough(es, states, n + 1);
    }
  }

  lemma SelfKeeps(s: State)
    requires Inv(s)
    ensures Keeps(s, s)
  {}

  lemma InitInv(w: World)
    ensures Inv(Init(w))
  {}

  /** A secret names at most one row. */
  lemma UniqueMatch(s: State, secret: Secret, i: Id)
    requires UniqueSecrets(s.invitations) && i in s.invitations && Matches(s.invitations[i], secret)
    ensures Finds(s, secret) && Find(s, secret) == i
  {
    var j := Find(s, secret);
    assert j != i ==> Distinct(s.invitations[i], s.invitations[j]);
  }

  // ---- Main results

  /** Accepted, revoked and blocked are terminal, in every interleaving. */
  lemma FinalStatusesStay(w: World,
                          past: seq<Event>, future: seq<Event>, i: Id)
    requires var s := Run(Init(w), past); i in s.invitations && s.invitations[i].status != Pending
    ensures var s := Run(Init(w), past);
            var t := Run(s, future);
            i in t.invitations && t.invitations[i].status == s.invitations[i].status
            && t.invitations[i].codeHash == s.invitations[i].codeHash
  {
    InitInv(w);
    RunKeeps(Init(w), past);
    RunKeeps(Run(Init(w), past), future);
  }

  /** Every committed accept is of an accepted invitation, in a transaction
      begun before it expired, and every accepted invitation has exactly one. */
  lemma AcceptedOnceInTime(w: World, events: seq<Event>, i: Id)
    requires i in Run(Init(w), events).invitations
    ensures var s := Run(Init(w), events);
            && (s.invitations[i].status == Accepted <==> exists n :: 0 <= n < |s.claims| && s.claims[n].id == i)
            && (forall n :: 0 <= n < |s.claims| && s.claims[n].id == i ==>
                  s.claims[n].started < s.invitations[i].expiresAt)
            && (forall n, m :: 0 <= n < m < |s.claims| ==> s.claims[n].id != s.claims[m].id)
  {
    InitInv(w);
    RunKeeps(Init(w), events);
    var s := Run(Init(w), events);
    assert forall n :: 0 <= n < |s.claims| ==> InTime(s.invitations, s.claims[n]);
    assert s.invitations[i].status == Accepted ==> i in WithStatus(s.invitations, Accepted);
  }

  /** Accepted invitations, memberships inserted by accepts and accept audit
      rows are the same, invitation by invitation and in number; every other
      membership was there before or was inserted by another route. */
  lemma AcceptsConserved(w: World, events: seq<Event>)
    ensures var s := Run(Init(w), events);
            var accepted := WithStatus(s.invitations, Accepted);
            && s.joins == s.audits.accept == multiset(accepted)
            && |s.audits.accept| == |s.joins| == |accepted|
            && w.members <= s.members && |s.members| == |w.members| + s.direct + |accepted|
            && s.audits.revoke == multiset(WithStatus(s.invitations, Revoked))
  {
    InitInv(w);
    RunKeeps(Init(w), events);
  }

  /** With a queue wired, exactly one email per committed creation and per
      committed resend; without one, none. */
  lemma EmailsConserved(w: World, events: seq<Event>)
    ensures var s := Run(Init(w), events);
            && s.audits.create == multiset(s.invitations.Keys)
            && (forall i :: i in s.invitations ==> s.invitations[i].sentCount == 1 + s.audits.resend[i])
            && s.emails == (if w.queue then s.audits.create + s.audits.resend else multiset{})
            && |s.emails| == (if w.queue then |s.invitations| + |s.audits.resend| else 0)
  {
    InitInv(w);
    RunKeeps(Init(w), events);
    QueueFixed(Init(w), events);
  }

  lemma QueueStays(s: State, e: Event)
    ensures Next(s, e).queue == s.queue
  {}

  lemma {:induction false} QueueFixed(s: State, events: seq<Event>)
    ensures Run(s, events).queue == s.queue
    decreases |events|
  {
    if events != [] {
      QueueStays(s, events[0]);
      QueueFixed(Next(s, events[0]), events[1..]);
    }
  }

  /** A sweep blocks exactly the invitations that were displayed as expired, which
      are the pending ones that nobody can use any more. */
  lemma DisplayedExpiredIsSwept(s: State, i: Id)
    requires i in s.invitations && SweepIn(s) != s
    ensures DisplayStatus(s.invitations[i], s.clock) == ShownExpired
       <==> s.invitations[i].status == Pending && !Usable(s.invitations[i], s.clock)
    ensures i in SweepIn(s).invitations
    ensures DisplayStatus(s.invitations[i], s.clock) == ShownExpired
       <==> s.invitations[i].status != Blocked && SweepIn(s).invitations[i].status == Blocked
    ensures DisplayStatus(SweepIn(s).invitations[i], s.clock) != ShownExpired
  {
    SweptAt(s.invitations, s.clock, i);
  }

  // ---- A rotated-out short code

  function Issues(e: Event): set<Digest> {
    if e.CreateInvitation? || e.Resend? then {e.codeHash} else {}
  }

  ghost predicate Unheld(rows: Rows, code: Digest) {
    forall i :: i in rows ==> rows[i].codeHash != code
  }

  lemma TableLeavesUnheld(s: State, e: Event, code: Digest)
    requires Unheld(s.invitations, code) && code !in Issues(e) && OnTable(e)
    ensures Unheld(Next(s, e).invitations, code)
  {}

  /** A rewrite that keeps the row's code. */
  lemma RewriteLeavesUnheld(rows: Rows, id: Id, inv: Invitation, code: Digest)
    requires Unheld(rows, code) && id in rows && inv.codeHash == rows[id].codeHash
    ensures Unheld(rows[id := inv], code)
  {}

  lemma JudgeLeavesUnheld(s: State, r: RequestId, code: Digest)
    requires Unheld(s.invitations, code)
    ensures Unheld(JudgeIn(s, r).invitations, code)
  {
    if r in s.requests && s.requests[r].Looked? && s.requests[r].found.Some? {
      var id := s.requests[r].found.value.id;
      if id in s.invitations { RewriteLeavesUnheld(s.invitations, id, Touch(s, id).invitations[id], code); }
    }
  }

  lemma CommitLeavesUnheld(s: State, r: RequestId, newUser: UserId, code: Digest)
    requires Unheld(s.invitations, code)
    ensures Unheld(CommitIn(s, r, newUser).invitations, code)
  {
    if r in s.requests && s.requests[r].Claimed? && s.requests[r].id in s.invitations {
      var id := s.requests[r].id;
      RewriteLeavesUnheld(s.invitations, id, s.invitations[id].(status := Accepted), code);
    }
  }

  lemma RequestLeavesUnheld(s: State, e: Event, code: Digest)
    requires Unheld(s.invitations, code) && !OnTable(e)
    ensures Unheld(Next(s, e).invitations, code)
  {
    match e
    case Judge(r) => JudgeLeavesUnheld(s, r, code);
    case Commit(r, newUser) => CommitLeavesUnheld(s, r, newUser, code);
    case _ =>
  }

  lemma StaysUnheld(s: State, e: Event, code: Digest)
    requires Unheld(s.invitations, code) && code !in Issues(e)
    ensures Unheld(Next(s, e).invitations, code)
  {
    if OnTable(e) {
      TableLeavesUnheld(s, e, code);
    } else {
      RequestLeavesUnheld(s, e, code);
    }
  }

  lemma {:induction false} UnheldRun(s: State, events: seq<Event>, code: Digest)
    requires Unheld(s.invitations, code)
    requires forall n :: 0 <= n < |events| ==> code !in Issues(events[n])
    ensures Unheld(Run(s, events).invitations, code)
    decreases |events|
  {
    if events != [] {
      StaysUnheld(s, events[0], code);
      assert forall n :: 0 <= n < |events[1..]| ==> events[1..][n] == events[n + 1];
      UnheldRun(Next(s, events[0]), events[1..], code);
    }
  }

  /** A committed resend leaves the code it replaced in no row at all. */
  lemma ResendUnholds(s: State, id: Id, community: int, codeHash: Digest)
    requires UniqueSecrets(s.invitations) && id in s.invitations
    requires ResendIn(s, id, community, codeHash) != s
    ensures Unheld(ResendIn(s, id, community, codeHash).invitations, s.invitations[id].codeHash)
    ensures var t := ResendIn(s, id, community, codeHash);
            Finds(t, ShortCode(codeHash)) && Find(t, ShortCode(codeHash)) == id
  {
    var t := ResendIn(s, id, community, codeHash);
    assert Matches(t.invitations[id], ShortCode(codeHash));
    forall i | i in t.invitations && i != id ensures t.invitations[i].codeHash != s.invitations[id].codeHash {
      assert Distinct(s.invitations[i], s.invitations[id]);
    }
  }

  lemma TableMovesNoRequest(s: State, e: Event)
    requires OnTable(e)
    ensures Next(s, e).requests == s.requests && Next(s, e).claims == s.claims
  {}

  lemma TableKeepsUsers(s: State, e: Event)
    requires OnTable(e)
    ensures forall a :: a in s.users ==> a in Next(s, e).users && Next(s, e).users[a] == s.users[a]
  {}

  lemma TableKeepsRequests(s: State, e: Event)
    requires OnTable(e)
    ensures var t := Next(s, e);
            && t.requests == s.requests && t.claims == s.claims
            && forall a :: a in s.users ==> a in t.users && t.users[a] == s.users[a]
  {
    TableMovesNoRequest(s, e);
    TableKeepsUsers(s, e);
  }

  /** Only request `q` may stand elsewhere. */
  ghost predicate Moves(s: State, t: State, q: RequestId) {
    && t.requests.Keys <= s.requests.Keys + {q}
    && forall r :: r in s.requests && r != q ==> r in t.requests && t.requests[r] == s.requests[r]
  }

  lemma LookMoves(s: State, r: RequestId, secret: Secret, preview: bool)
    ensures Moves(s, LookIn(s, r, secret, preview), r)
  {}

  lemma JudgeMoves(s: State, r: RequestId)
    ensures Moves(s, JudgeIn(s, r), r)
  {}

  lemma AuthenticateMoves(s: State, r: RequestId, account: Option<Account>)
    ensures Moves(s, AuthenticateIn(s, r, account), r)
  {}

  lemma BeginMoves(s: State, r: RequestId)
    ensures Moves(s, BeginIn(s, r), r)
  {}

  lemma ClaimMoves(s: State, r: RequestId)
    ensures Moves(s, ClaimIn(s, r), r)
  {}

  lemma CommitMoves(s: State, r: RequestId, newUser: UserId)
    ensures Moves(s, CommitIn(s, r, newUser), r)
  {}

  lemma AbortMoves(s: State, r: RequestId)
    ensures Moves(s, AbortIn(s, r), r)
  {}

  lemma RequestStepMoves(s: State, e: Event)
    requires !OnTable(e)
    ensures Moves(s, Next(s, e), e.req)
  {
    match e
    case Preview(r, secret) => LookMoves(s, r, secret, true);
    case Resolve(r, secret) => LookMoves(s, r, secret, false);
    case Judge(r) => JudgeMoves(s, r);
    case Authenticate(r, account) => AuthenticateMoves(s, r, account);
    case Begin(r) => BeginMoves(s, r);
    case Claim(r) => ClaimMoves(s, r);
    case Commit(r, newUser) => CommitMoves(s, r, newUser);
    case Abort(r) => AbortMoves(s, r);
  }

  /** The request found nothing, and has no other answer to come but that, or
      the failure of an abort. */
  predicate Barred(s: State, r: RequestId) {
    && r in s.requests
    && (match s.requests[r]
        case Looked(found, _) => found == None
        case Done(response) => response == NotFound || response == Failed
        case _ => false)
  }

  lemma BarredRequestStep(s: State, e: Event, r: RequestId)
    requires Barred(s, r) && !OnTable(e)
    ensures Barred(Next(s, e), r)
  {
    assert r in s.requests && (s.requests[r].Looked? || s.requests[r].Done?);
    RequestStepMoves(s, e);
  }

  lemma BarredStep(s: State, e: Event, r: RequestId)
    requires Barred(s, r)
    ensures Barred(Next(s, e), r)
  {
    if OnTable(e) {
      TableKeepsRequests(s, e);
    } else {
      BarredRequestStep(s, e, r);
    }
  }

  lemma {:induction false} BarredRun(s: State, events: seq<Event>, r: RequestId)
    requires Barred(s, r)
    ensures Barred(Run(s, events), r)
    decreases |events|
  {
    if events != [] {
      BarredStep(s, events[0], r);
      BarredRun(Next(s, events[0]), events[1..], r);
    }
  }

  lemma UnheldLookIsBarred(s: State, r: RequestId, code: Digest, preview: bool)
    requires Unheld(s.invitations, code) && r !in s.requests
    ensures Barred(LookIn(s, r, ShortCode(code), preview), r)
  {}

  /** Once a resend of an invitation has gone through, whoever presents the code
      it replaced is answered as for an unknown code and never gets further, in
      any continuation, unless that very code is issued again. */
  lemma RotatedCodeNeverResolves(w: World, past: seq<Event>, id: Id, community: int, codeHash: Digest,
                                 between: seq<Event>, r: RequestId, preview: bool, after: seq<Event>)
    requires var s := Run(Init(w), past); id in s.invitations && ResendIn(s, id, community, codeHash) != s
    requires var s := Run(Init(w), past);
             && (forall n :: 0 <= n < |between| ==> s.invitations[id].codeHash !in Issues(between[n]))
             && r !in Run(ResendIn(s, id, community, codeHash), between).requests
    ensures var s := Run(Init(w), past);
            var t := Run(ResendIn(s, id, community, codeHash), between);
            var u := LookIn(t, r, ShortCode(s.invitations[id].codeHash), preview);
            !Finds(t, ShortCode(s.invitations[id].codeHash)) && Barred(Run(u, after), r)
  {
    var s := Run(Init(w), past);
    InitInv(w);
    RunKeeps(Init(w), past);
    ResendUnholds(s, id, community, codeHash);
    RotatedFrom(ResendIn(s, id, community, codeHash), s.invitations[id].codeHash, between, r, preview, after);
  }

  lemma RotatedFrom(s: State, code: Digest, between: seq<Event>, r: RequestId, preview: bool, after: seq<Event>)
    requires Unheld(s.invitations, code) && r !in Run(s, between).requests
    requires forall n :: 0 <= n < |between| ==> code !in Issues(between[n])
    ensures !Finds(Run(s, between), ShortCode(code))
    ensures Barred(Run(LookIn(Run(s, between), r, ShortCode(code), preview), after), r)
  {
    UnheldRun(s, between, code);
    UnheldLookIsBarred(Run(s, between), r, code, preview);
    BarredRun(LookIn(Run(s, between), r, ShortCode(code), preview), after, r);
  }
}
