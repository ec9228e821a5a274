/** The invitation lifecycle: create, resend, revoke, the daily sweep, and the
    accept that reads, works on credentials and only then writes, all of them
    interleaved. A transaction of one conditional update is one step; a
    resolution is two (the lookup, then the bookkeeping update and the test of
    the row that was looked up) and the accept's transaction is three (begin,
    claim, commit). */
module Invitations {
  import opened Common

  type Id = int
  type RequestId = int
  type UserId = int
  type Digest = string

  const EXPIRY := 14 * 24 * 3600 * 1_000_000

  datatype Status = Pending | Accepted | Revoked | Blocked

  datatype Invitation = Invitation(community: int, unit: int, email: Option<string>, role: string,
                                   tokenHash: Digest, codeHash: Digest, status: Status, expiresAt: int,
                                   sentCount: nat, failedAttempts: nat)

  datatype Secret = Token(hash: Digest) | ShortCode(hash: Digest)

  datatype Response = Previewed(community: int, unit: int, role: string, expiresAt: int)
                    | Joined(user: UserId) | NotFound | Conflict | Refused | Failed

  datatype Account = Link(user: UserId) | Create

  /** A row as the lookup read it. */
  datatype Found = Found(id: Id, inv: Invitation)

  /** How far a preview or an accept has come. */
  datatype Phase =
    | Looked(found: Option<Found>, preview: bool)
    | Resolved(id: Id)
    | Authenticated(id: Id, account: Account)
    | Begun(id: Id, account: Account, started: int)
    | Claimed(id: Id, account: Account, started: int)
    | Done(response: Response)

  /** The audit rows written about invitations, by action and invitation. */
  datatype Audits = Audits(create: multiset<Id>, resend: multiset<Id>, revoke: multiset<Id>, accept: multiset<Id>)

  datatype Member = Member(unit: int, user: UserId, role: string)

  /** A committed accept: its request, its transaction's start and the
      membership it made. */
  datatype Acceptance = Acceptance(id: Id, req: RequestId, started: int, member: Member)

  /** `users` holds every address with an account, `retired` those whose account
      is soft-deleted: their address stays taken. `locks` names the uncommitted
      claim that holds a row. `joins` and `emails` count, per invitation, the
      memberships inserted by its accepts and the emails queued for it, `direct`
      the memberships that other routes inserted; `claims` logs the committed
      accepts. */
  datatype State = State(clock: int, queue: bool, invitations: map<Id, Invitation>, users: map<string, UserId>,
                         retired: set<string>, members: set<Member>, direct: nat, audits: Audits,
                         emails: multiset<Id>, joins: multiset<Id>, claims: seq<Acceptance>,
                         requests: map<RequestId, Phase>, locks: map<Id, RequestId>)

  datatype Event =
    | Tick(to: int)
    | CreateInvitation(id: Id, community: int, unit: int, email: Option<string>, role: string,
                       tokenHash: Digest, codeHash: Digest)
    | Resend(id: Id, community: int, codeHash: Digest)
    | Revoke(id: Id, community: int)
    | Sweep
    | Register(address: string, user: UserId)    // an account made otherwise, as with a new office
    | AddMember(member: Member)                  // a membership made otherwise, as with a new unit
    | Retire(address: string)
    | Preview(req: RequestId, secret: Secret)
    | Resolve(req: RequestId, secret: Secret)
    | Judge(req: RequestId)
    | Authenticate(req: RequestId, account: Option<Account>)
    | Begin(req: RequestId)
    | Claim(req: RequestId)
    | Commit(req: RequestId, newUser: UserId)
    | Abort(req: RequestId)

  /** What was there before the first invitation. */
  datatype World = World(queue: bool, users: map<string, UserId>, retired: set<string>, members: set<Member>)

  /** A fresh invitations table beside it. */
  function Init(w: World): State {
    State(0, w.queue, map[], w.users, w.retired, w.members, 0,
          Audits(multiset{}, multiset{}, multiset{}, multiset{}), multiset{}, multiset{}, [], map[], map[])
  }

  predicate Matches(inv: Invitation, secret: Secret) {
    match secret
    case Token(h) => inv.tokenHash == h
    case ShortCode(h) => inv.codeHash == h
  }

  /** invitationUsable */
  predicate Usable(inv: Invitation, now: int) {
    inv.status == Pending && inv.expiresAt > now
  }

  datatype Display = Shown(status: Status) | ShownExpired

  /** invitationDisplayStatus */
  function DisplayStatus(inv: Invitation, now: int): Display {
    if inv.status == Pending && inv.expiresAt <= now then ShownExpired else Shown(inv.status)
  }

  predicate SecretsTaken(s: State, tokenHash: Digest, codeHash: Digest) {
    exists i :: i in s.invitations
      && (s.invitations[i].tokenHash == tokenHash || s.invitations[i].codeHash == codeHash)
  }

  predicate CodeTaken(s: State, codeHash: Digest) {
    exists i :: i in s.invitations && s.invitations[i].codeHash == codeHash
  }

  /** The address an accept is for; an absent one reads as the empty string. */
  function Address(inv: Invitation): string {
    if inv.email.Some? then inv.email.value else ""
  }

  /** The unique-index lookup by one secret. */
  predicate Finds(s: State, secret: Secret) {
    exists i :: i in s.invitations && Matches(s.invitations[i], secret)
  }

  ghost function Find(s: State, secret: Secret): (i: Id)
    requires Finds(s, secret)
    ensures i in s.invitations && Matches(s.invitations[i], secret)
  {
    var i :| i in s.invitations && Matches(s.invitations[i], secret);
    i
  }

  /** The sweep's WHERE clause. */
  predicate Stale(inv: Invitation, now: int) {
    inv.status == Pending && inv.expiresAt <= now
  }

  function Swept(rows: map<Id, Invitation>, now: int): map<Id, Invitation> {
    map i | i in rows :: if Stale(rows[i], now) then rows[i].(status := Blocked) else rows[i]
  }

  // ---- The operations

  function CreateIn(s: State, e: Event): State
    requires e.CreateInvitation?
  {
    if e.id in s.invitations || SecretsTaken(s, e.tokenHash, e.codeHash) then s
    else
      s.(invitations := s.invitations[e.id := Invitation(e.community, e.unit, e.email, e.role, e.tokenHash,
                                                         e.codeHash, Pending, s.clock + EXPIRY, 1, 0)],
         emails := if s.queue then s.emails + multiset{e.id} else s.emails,
         audits := s.audits.(create := s.audits.create + multiset{e.id}))
  }

  /** The rotation finds a pending row of this community that no claim holds,
      and its new code clashes with none. Expired is still pending. */
  predicate Rotates(s: State, id: Id, community: int, codeHash: Digest) {
    && id in s.invitations && s.invitations[id].community == community && s.invitations[id].status == Pending
    && id !in s.locks && !CodeTaken(s, codeHash)
  }

  function ResendIn(s: State, id: Id, community: int, codeHash: Digest): State {
    if !Rotates(s, id, community, codeHash) || s.invitations[id].email.None? then s
    else
      var inv := s.invitations[id];
      s.(invitations := s.invitations[id := inv.(codeHash := codeHash, sentCount := inv.sentCount + 1)],
         emails := if s.queue then s.emails + multiset{id} else s.emails,
         audits := s.audits.(resend := s.audits.resend + multiset{id}))
  }

  function RevokeIn(s: State, id: Id, community: int): State {
    if id !in s.invitations || s.invitations[id].community != community || s.invitations[id].status != Pending
       || id in s.locks
    then s
    else
      s.(invitations := s.invitations[id := s.invitations[id].(status := Revoked)],
         audits := s.audits.(revoke := s.audits.revoke + multiset{id}))
  }

  /** Waits while a claim holds one of the rows it would change. */
  function SweepIn(s: State): State {
    if exists i :: i in s.locks && i in s.invitations && Stale(s.invitations[i], s.clock) then s
    else s.(invitations := Swept(s.invitations, s.clock))
  }

  function Note(s: State, r: RequestId, phase: Phase): State {
    s.(requests := s.requests[r := phase])
  }

  function Touch(s: State, id: Id): State
    requires id in s.invitations
  {
    s.(invitations := s.invitations[id := s.invitations[id].(failedAttempts := s.invitations[id].failedAttempts + 1)])
  }

  function Resolution(id: Id, inv: Invitation, now: int, preview: bool): (p: Phase)
    ensures p.Done? || (p == Resolved(id) && !preview)
    ensures p != Done(NotFound) <==> Usable(inv, now)
  {
    if !Usable(inv, now) then Done(NotFound)
    else if preview then Done(Previewed(inv.community, inv.unit, inv.role, inv.expiresAt))
    else Resolved(id)
  }

  /** The first half of resolveUsableInvitation, shared by preview and accept:
      the row the secret names, as it stands in the table. An uncommitted claim
      does not change what is read. */
  ghost function LookIn(s: State, r: RequestId, secret: Secret, preview: bool): State {
    if r in s.requests then s
    else Note(s, r, Looked(if Finds(s, secret) then Some(Found(Find(s, secret), s.invitations[Find(s, secret)]))
                           else None, preview))
  }

  /** The second half: record the resolution, waiting for the row if a claim
      holds it, and refuse a row that was dead when read, or is past its
      expiry by now, as if it were unknown. */
  function JudgeIn(s: State, r: RequestId): State {
    if !(r in s.requests && s.requests[r].Looked?) then s
    else match s.requests[r].found
      case None => Note(s, r, Done(NotFound))
      case Some(Found(id, inv)) =>
        if id !in s.invitations || id in s.locks then s
        else Note(Touch(s, id), r, Resolution(id, inv, s.clock, s.requests[r].preview))
  }

  /** GetUserByEmail: soft-deleted accounts are not found. */
  predicate HasAccount(users: map<string, UserId>, retired: set<string>, address: string) {
    address in users && address !in retired
  }

  /** Who may go on: the account that the address leads to, or a new one when
      it leads to none. Anything else is a refusal, which is always possible. */
  predicate Admits(users: map<string, UserId>, retired: set<string>, address: string, account: Option<Account>) {
    match account
    case None => true
    case Some(Create) => !HasAccount(users, retired, address)
    case Some(Link(u)) => HasAccount(users, retired, address) && users[address] == u
  }

  /** The credential phase: link, create or refuse. */
  function AuthenticateIn(s: State, r: RequestId, account: Option<Account>): State {
    if !(r in s.requests && s.requests[r].Resolved? && s.requests[r].id in s.invitations) then s
    else
      var id := s.requests[r].id;
      if !Admits(s.users, s.retired, Address(s.invitations[id]), account) then s
      else Note(s, r, if account.Some? then Authenticated(id, account.value) else Done(Refused))
  }

  function BeginIn(s: State, r: RequestId): State {
    if !(r in s.requests && s.requests[r].Authenticated?) then s
    else Note(s, r, Begun(s.requests[r].id, s.requests[r].account, s.clock))
  }

  /** The conditional update: pending and unexpired at the transaction's start. */
  function ClaimIn(s: State, r: RequestId): State {
    if !(r in s.requests && s.requests[r].Begun? && s.requests[r].id in s.invitations) then s
    else
      var p := s.requests[r];
      if p.id in s.locks then s
      else if Usable(s.invitations[p.id], p.started) then
        Note(s, r, Claimed(p.id, p.account, p.started)).(locks := s.locks[p.id := r])
      else Note(s, r, Done(Conflict))
  }

  /** Ends a claim and frees its row. */
  function RollBack(s: State, r: RequestId, response: Response): State
    requires r in s.requests && s.requests[r].Claimed?
  {
    Note(s, r, Done(response)).(locks := s.locks - {s.requests[r].id})
  }

  function Joiner(p: Phase, newUser: UserId): UserId
    requires p.Claimed?
  {
    match p.account
    case Link(u) => u
    case Create => newUser
  }

  /** Account, membership, audit row and the claim, together. */
  function Enrolled(s: State, r: RequestId, user: UserId): State
    requires r in s.requests && s.requests[r].Claimed? && s.requests[r].id in s.invitations
  {
    var p := s.requests[r];
    var inv := s.invitations[p.id];
    var member := Member(inv.unit, user, inv.role);
    RollBack(s, r, Joined(user))
      .(invitations := s.invitations[p.id := inv.(status := Accepted)],
        users := if p.account.Create? then s.users[Address(inv) := user] else s.users,
        members := s.members + {member},
        joins := s.joins + multiset{p.id},
        audits := s.audits.(accept := s.audits.accept + multiset{p.id}),
        claims := s.claims + [Acceptance(p.id, r, p.started, member)])
  }

  /** Unique addresses and unique memberships decide whether the rest of the
      transaction goes through; if not, none of it happened. */
  function CommitIn(s: State, r: RequestId, newUser: UserId): State {
    if !(r in s.requests && s.requests[r].Claimed? && s.requests[r].id in s.invitations) then s
    else
      var p := s.requests[r];
      var inv := s.invitations[p.id];
      var user := Joiner(p, newUser);
      if p.account.Create? && Address(inv) in s.users then RollBack(s, r, Failed)
      else if Member(inv.unit, user, inv.role) in s.members then RollBack(s, r, Conflict)
      else Enrolled(s, r, user)
  }

  function AbortIn(s: State, r: RequestId): State {
    if r !in s.requests || s.requests[r].Done? then s
    else if s.requests[r].Claimed? then RollBack(s, r, Failed)
    else Note(s, r, Done(Failed))
  }

  function RegisterIn(s: State, address: string, user: UserId): State {
    if address in s.users then s else s.(users := s.users[address := user])
  }

  function AddMemberIn(s: State, member: Member): State {
    if member in s.members then s else s.(members := s.members + {member}, direct := s.direct + 1)
  }

  ghost function Next(s: State, e: Event): State {
    match e
    case Tick(to) => if to >= s.clock then s.(clock := to) else s
    case CreateInvitation(_, _, _, _, _, _, _) => CreateIn(s, e)
    case Resend(id, community, codeHash) => ResendIn(s, id, community, codeHash)
    case Revoke(id, community) => RevokeIn(s, id, community)
    case Sweep => SweepIn(s)
    case Register(address, user) => RegisterIn(s, address, user)
    case AddMember(member) => AddMemberIn(s, member)
    case Retire(address) => if address in s.users then s.(retired := s.retired + {address}) else s
    case Preview(r, secret) => LookIn(s, r, secret, true)
    case Resolve(r, secret) => LookIn(s, r, secret, false)
    case Judge(r) => JudgeIn(s, r)
    case Authenticate(r, account) => AuthenticateIn(s, r, account)
    case Begin(r) => BeginIn(s, r)
    case Claim(r) => ClaimIn(s, r)
    case Commit(r, newUser) => CommitIn(s, r, newUser)
    case Abort(r) => AbortIn(s, r)
  }

  ghost function Run(s: State, events: seq<Event>): State
    decreases |events|
  {
    if events == [] then s else Run(Next(s, events[0]), events[1..])
  }
}
