/** The invitation handlers statement by statement over mutable tables. Each
    transaction works in place and puts the tables back when it rolls back;
    its contract is the step the state machine takes. */
module InvitationServer {
  import opened Common
  import opened Invitations
  import opened InvitationSafety
  import opened InvitationAnswers

  datatype AdminResponse = Ok | Sent(count: nat) | NoLongerPending | NoAddress | Waits | InternalError

  /** Only row `id` may have changed, and none is gone. */
  ghost predicate OnlyRow(before: Rows, after: Rows, id: Id) {
    after.Keys == before.Keys && forall i :: i in before && i != id ==> after[i] == before[i]
  }

  class Server {
    const queue: bool
    var clock: int
    var rows: Rows
    var users: map<string, UserId>
    var retired: set<string>
    var members: set<Member>
    var direct: nat
    var audits: Audits
    var emails: multiset<Id>
    var joins: multiset<Id>
    var claims: seq<Acceptance>
    var requests: map<RequestId, Phase>
    var locks: map<Id, RequestId>

    function Model(): State
      reads this
    {
      State(clock, queue, rows, users, retired, members, direct, audits, emails, joins, claims, requests, locks)
    }

    constructor (w: World)
      ensures Model() == Init(w)
    {
      this.queue := w.queue;
      this.clock := 0;
      this.rows := map[];
      this.users := w.users;
      this.retired := w.retired;
      this.members := w.members;
      this.direct := 0;
      this.audits := Audits(multiset{}, multiset{}, multiset{}, multiset{});
      this.emails := multiset{};
      this.joins := multiset{};
      this.claims := [];
      this.requests := map[];
      this.locks := map[];
    }

    /** One new usable row beside the old ones, one email when a queue is wired,
        one audit entry; or, if the id or a secret is taken, nothing at all. */
    method CreateInvitation(id: Id, community: int, unit: int, email: Option<string>, role: string,
                            tokenHash: Digest, codeHash: Digest) returns (r: AdminResponse)
      modifies this`rows, this`emails, this`audits
      ensures Model() == CreateIn(old(Model()),
                                  Event.CreateInvitation(id, community, unit, email, role, tokenHash, codeHash))
      ensures r == Ok <==> id !in old(rows) && !SecretsTaken(old(Model()), tokenHash, codeHash)
      ensures r != Ok ==> Model() == old(Model())
      ensures r == Ok ==>
                && rows.Keys == old(rows.Keys) + {id} && (forall i :: i in old(rows) ==> rows[i] == old(rows)[i])
                && rows[id].community == community && rows[id].unit == unit && rows[id].email == email
                && rows[id].role == role && rows[id].tokenHash == tokenHash && rows[id].codeHash == codeHash
                && rows[id].sentCount == 1 && rows[id].failedAttempts == 0
                && (forall now :: Usable(rows[id], now) <==> now < clock + EXPIRY)
                && emails[id] == old(emails)[id] + (if queue then 1 else 0)
                && audits.create[id] == old(audits).create[id] + 1
    {
      if id in rows || SecretsTaken(Model(), tokenHash, codeHash) {
        return InternalError;
      }
      rows := rows[id := Invitation(community, unit, email, role, tokenHash, codeHash, Pending, clock + EXPIRY, 1, 0)];
      if queue {
        emails := emails + multiset{id};
      }
      audits := audits.(create := audits.create + multiset{id});
      r := Ok;
    }

    /** UPDATE ... WHERE status = 'pending' RETURNING email, sent_count */
    method RotateShortCode(id: Id, community: int, codeHash: Digest)
      returns (rotated: Option<Invitation>, r: AdminResponse)
      modifies this`rows
      ensures rotated.Some? <==> Rotates(old(Model()), id, community, codeHash)
      ensures rotated.Some? ==>
        rotated.value == old(rows)[id].(codeHash := codeHash, sentCount := old(rows)[id].sentCount + 1)
        && rows == old(rows)[id := rotated.value]
      ensures rotated.None? ==> rows == old(rows) && !r.Sent? && r != NoAddress
      ensures r == NoLongerPending <==>
        id !in old(rows) || old(rows)[id].community != community || old(rows)[id].status != Pending
    {
      if id !in rows || rows[id].community != community || rows[id].status != Pending {
        return None, NoLongerPending;
      }
      if id in locks {
        return None, Waits;
      }
      if CodeTaken(Model(), codeHash) {
        return None, InternalError;
      }
      var inv := rows[id].(codeHash := codeHash, sentCount := rows[id].sentCount + 1);
      rows := rows[id := inv];
      return Some(inv), Ok;
    }

    /** The rotation comes first; without an address to send to, it is undone.
        Once sent, the new code names this row and the old one names none. */
    method ResendInvitation(id: Id, community: int, codeHash: Digest) returns (r: AdminResponse)
      modifies this`rows, this`emails, this`audits
      ensures Model() == ResendIn(old(Model()), id, community, codeHash)
      ensures r.Sent? <==> Rotates(old(Model()), id, community, codeHash) && old(rows)[id].email.Some?
      ensures r.Sent? ==> r.count == old(rows)[id].sentCount + 1
      ensures r == NoLongerPending <==>
        id !in old(rows) || old(rows)[id].community != community || old(rows)[id].status != Pending
      ensures r == NoAddress <==> Rotates(old(Model()), id, community, codeHash) && old(rows)[id].email.None?
      ensures !r.Sent? ==> Model() == old(Model())
      ensures OnlyRow(old(rows), rows, id)
      ensures r.Sent? ==> rows[id].codeHash == codeHash
      ensures r.Sent? && old(UniqueSecrets(rows)) ==> Unheld(rows, old(rows)[id].codeHash)
      ensures r.Sent? ==> emails[id] == old(emails)[id] + (if queue then 1 else 0)
    {
      ghost var before := Model();
      var saved := rows;
      var rotated: Option<Invitation>;
      rotated, r := RotateShortCode(id, community, codeHash);
      if rotated.None? {
        return;
      }
      if rotated.value.email.None? {
        rows := saved;
        return NoAddress;
      }
      if queue {
        emails := emails + multiset{id};
      }
      audits := audits.(resend := audits.resend + multiset{id});
      r := Sent(rotated.value.sentCount);
      if UniqueSecrets(before.invitations) { ResendUnholds(before, id, community, codeHash); }
    }

    /** A revoked row is usable at no time, and no other row changes. */
    method RevokeInvitation(id: Id, community: int) returns (r: AdminResponse)
      modifies this`rows, this`audits
      ensures Model() == RevokeIn(old(Model()), id, community)
      ensures r == Ok <==> Model() != old(Model())
      ensures r == NoLongerPending <==>
        id !in old(rows) || old(rows)[id].community != community || old(rows)[id].status != Pending
      ensures OnlyRow(old(rows), rows, id)
      ensures r == Ok ==> (forall now :: !Usable(rows[id], now)) && audits.revoke[id] == old(audits).revoke[id] + 1
    {
      if id !in rows || rows[id].community != community || rows[id].status != Pending {
        return NoLongerPending;
      }
      if id in locks {
        return Waits;
      }
      rows := rows[id := rows[id].(status := Revoked)];
      audits := audits.(revoke := audits.revoke + multiset{id});
      r := Ok;
    }

    /** The daily job's single statement; `affected` counts the rows it changed.
        Unless a claim holds one of them, no stale row is left. */
    method SweepExpired() returns (affected: nat)
      modifies this`rows
      ensures Model() == SweepIn(old(Model()))
      ensures rows.Keys == old(rows.Keys)
      ensures forall i :: i in rows && !Stale(old(rows)[i], clock) ==> rows[i] == old(rows)[i]
      ensures (exists i :: i in locks && i in old(rows) && Stale(old(rows)[i], clock)) ==>
                rows == old(rows) && affected == 0
      ensures !(exists i :: i in locks && i in old(rows) && Stale(old(rows)[i], clock)) ==>
                && affected == |set i | i in old(rows) && Stale(old(rows)[i], clock)|
                && forall i :: i in rows ==> !Stale(rows[i], clock)
    {
      if exists i :: i in locks && i in rows && Stale(rows[i], clock) {
        return 0;
      }
      var stale := set i | i in rows && Stale(rows[i], clock);
      rows := map i | i in rows :: if i in stale then rows[i].(status := Blocked) else rows[i];
      affected := |stale|;
    }

    /** The lookup by a secret's unique index; it changes no row. */
    method ResolveSecret(req: RequestId, secret: Secret, preview: bool) returns (found: Option<Found>)
      requires UniqueSecrets(rows) && req !in requests
      modifies this`requests
      ensures Model() == LookIn(old(Model()), req, secret, preview)
      ensures requests == old(requests)[req := Looked(found, preview)]
      ensures found.None? ==> forall i :: i in rows ==> !Matches(rows[i], secret)
      ensures found.Some? ==>
                && found.value.id in rows && found.value.inv == rows[found.value.id]
                && (forall i :: i in rows && Matches(rows[i], secret) <==> i == found.value.id)
    {
      if !exists i :: i in rows && Matches(rows[i], secret) {
        requests := requests[req := Looked(None, preview)];
        return None;
      }
      var id :| id in rows && Matches(rows[id], secret);
      UniqueMatch(Model(), secret, id);
      forall i | i in rows && Matches(rows[i], secret) ensures i == id { UniqueMatch(Model(), secret, i); }
      found := Some(Found(id, rows[id]));
      requests := requests[req := Looked(found, preview)];
    }

    /** What follows the lookup, possibly much later: the row that was read
        decides, at the clock of now. A dead row is answered as an unknown one,
        and of the table only its counter of resolutions moves. */
    method ResolveUsable(req: RequestId) returns (phase: Option<Phase>)
      requires req in requests && requests[req].Looked?
      modifies this`rows, this`requests
      ensures Model() == JudgeIn(old(Model()), req)
      ensures phase.None? ==> Model() == old(Model())
      ensures phase.Some? ==> requests == old(requests)[req := phase.value]
      ensures var found := old(requests)[req].found;
              && (found.None? ==> phase == Some(Done(NotFound)) && rows == old(rows))
              && (found.Some? ==> OnlyRow(old(rows), rows, found.value.id))
              && (found.Some? && phase.Some? ==>
                    && found.value.id in old(rows)
                    && rows[found.value.id].failedAttempts == old(rows)[found.value.id].failedAttempts + 1
                    && rows[found.value.id].status == old(rows)[found.value.id].status
                    && (phase.value != Done(NotFound) <==> Usable(found.value.inv, clock))
                    && (phase.value.Resolved? <==> Usable(found.value.inv, clock) && !old(requests)[req].preview)
                    && (Usable(found.value.inv, clock) && old(requests)[req].preview ==>
                          phase.value.Done? && PreviewOf(found.value.inv, phase.value.response)))
    {
      var preview := requests[req].preview;
      match requests[req].found {
        case None =>
          requests := requests[req := Done(NotFound)];
          return Some(Done(NotFound));
        case Some(Found(id, found)) =>
          if id !in rows || id in locks {
            return None;
          }
          rows := rows[id := rows[id].(failedAttempts := rows[id].failedAttempts + 1)];
          var answer: Phase;
          if !Usable(found, clock) {
            answer := Done(NotFound);
          } else if preview {
            answer := Done(Previewed(found.community, found.unit, found.role, found.expiresAt));
          } else {
            answer := Resolved(id);
          }
          requests := requests[req := answer];
          return Some(answer);
      }
    }

    /** The conditional update that enforces single use: it goes through exactly
        when no other claim holds the row and the row is pending and unexpired
        at the transaction's start. */
    method ClaimInvitation(req: RequestId) returns (claimed: bool)
      modifies this`requests, this`locks
      ensures Model() == ClaimIn(old(Model()), req)
      ensures claimed <==>
                && req in old(requests) && old(requests)[req].Begun?
                && var p := old(requests)[req];
                   p.id in rows && p.id !in old(locks) && Usable(rows[p.id], p.started)
      ensures claimed ==> requests[req].Claimed? && locks == old(locks)[old(requests)[req].id := req]
      ensures !claimed ==> locks == old(locks)
      ensures !claimed ==>
                requests == if req in old(requests) && old(requests)[req].Begun? && old(requests)[req].id in rows
                               && old(requests)[req].id !in locks
                            then old(requests)[req := Done(Conflict)] else old(requests)
    {
      if req !in requests || !requests[req].Begun? || requests[req].id !in rows || requests[req].id in locks {
        return false;
      }
      var p := requests[req];
      if rows[p.id].status == Pending && rows[p.id].expiresAt > p.started {
        requests := requests[req := Claimed(p.id, p.account, p.started)];
        locks := locks[p.id := req];
        return true;
      }
      requests := requests[req := Done(Conflict)];
      return false;
    }

    /** The rest of the accept's transaction, in the order of its statements:
        the account, the membership, the audit entry, the commit. All of it or
        none of it is in the tables afterwards. */
    method CommitAccept(req: RequestId, newUser: UserId) returns (done: bool)
      requires req in requests && requests[req].Claimed? && requests[req].id in rows
      modifies this`rows, this`users, this`members, this`joins, this`audits, this`claims, this`requests, this`locks
      ensures Model() == CommitIn(old(Model()), req, newUser)
      ensures old(requests)[req].id !in locks
      ensures var p := old(requests)[req];
              var inv := old(rows)[p.id];
              requests == old(requests)[req := Done(
                if p.account.Create? && Address(inv) in old(users) then Failed
                else if Member(inv.unit, Joiner(p, newUser), inv.role) in old(members) then Conflict
                else Joined(Joiner(p, newUser)))]
      ensures var p := old(requests)[req];
              var inv := old(rows)[p.id];
              var member := Member(inv.unit, Joiner(p, newUser), inv.role);
              && (done <==> member !in old(members) && (p.account.Create? ==> Address(inv) !in old(users)))
              && (done ==>
                    && OnlyRow(old(rows), rows, p.id) && rows[p.id] == inv.(status := Accepted)
                    && members == old(members) + {member}
                    && claims == old(claims) + [Acceptance(p.id, req, p.started, member)]
                    && audits.accept == old(audits).accept + multiset{p.id}
                    && users.Keys == old(users.Keys) + (if p.account.Create? then {Address(inv)} else {})
                    && (forall a :: a in old(users) ==> users[a] == old(users)[a]))
      ensures !done ==>
                && rows == old(rows) && claims == old(claims) && members == old(members) && users == old(users)
                && audits == old(audits) && joins == old(joins)
    {
      var p := requests[req];
      var inv := rows[p.id];
      var savedUsers := users;
      var user := newUser;
      match p.account {
        case Create =>
          if Address(inv) in users {
            RollBackClaim(req, Failed);
            return false;
          }
          users := users[Address(inv) := newUser];
        case Link(u) =>
          user := u;
      }
      if Member(inv.unit, user, inv.role) in members {
        users := savedUsers;
        RollBackClaim(req, Conflict);
        return false;
      }
      WriteAccept(req, user);
      return true;
    }

    /** The membership, its audit entry and the accepted row; the account has
        been written already, and writing it again changes nothing. */
    method WriteAccept(req: RequestId, user: UserId)
      requires req in requests && requests[req].Claimed? && requests[req].id in rows
      requires requests[req].account.Create? ==>
        users == users[Address(rows[requests[req].id]) := user]
      modifies this`rows, this`members, this`joins, this`audits, this`claims, this`requests, this`locks
      ensures Model() == Enrolled(old(Model()), req, user)
    {
      var p := requests[req];
      var inv := rows[p.id];
      members := members + {Member(inv.unit, user, inv.role)};
      joins := joins + multiset{p.id};
      audits := audits.(accept := audits.accept + multiset{p.id});
      rows := rows[p.id := inv.(status := Accepted)];
      claims := claims + [Acceptance(p.id, req, p.started, Member(inv.unit, user, inv.role))];
      RollBackClaim(req, Joined(user));
    }

    /** The claim ends: the row is free and the caller has its answer. */
    method RollBackClaim(req: RequestId, response: Response)
      requires req in requests && requests[req].Claimed?
      modifies this`requests, this`locks
      ensures Model() == RollBack(old(Model()), req, response)
    {
      locks := locks - {requests[req].id};
      requests := requests[req := Done(response)];
    }
  }
}
