/** What previews and accepts are told: a membership exactly when their accept
    committed, anything else by its own condition on the tables. */
module InvitationAnswers {
  import opened Common
  import opened Invitations
  import opened InvitationSafety

  // ---- Joined

  predicate ToldJoined(s: State, r: RequestId) {
    r in s.requests && s.requests[r].Done? && s.requests[r].response.Joined?
  }

  predicate Accepts(s: State, n: int, r: RequestId) {
    0 <= n < |s.claims| && s.claims[n].req == r
  }

  /** Each committed accept is of a request of its own, which was told who joined. */
  ghost predicate AcceptsTold(s: State) {
    && (forall n, m, r :: Accepts(s, n, r) && Accepts(s, m, r) ==> n == m)
    && (forall n, r :: Accepts(s, n, r) ==>
          ToldJoined(s, r) && s.requests[r].response.user == s.claims[n].member.user)
  }

  ghost predicate JoinedAccepts(s: State) {
    forall r :: ToldJoined(s, r) ==> exists n :: Accepts(s, n, r)
  }

  ghost predicate Told(s: State) {
    AcceptsTold(s) && JoinedAccepts(s)
  }

  ghost predicate SameJoined(s: State, t: State) {
    forall r :: (ToldJoined(s, r) <==> ToldJoined(t, r)) && (ToldJoined(s, r) ==> s.requests[r] == t.requests[r])
  }

  lemma QuietTold(s: State, t: State)
    requires Told(s) && SameJoined(s, t) && t.claims == s.claims
    ensures Told(t)
  {
    forall n, r ensures Accepts(s, n, r) <==> Accepts(t, n, r) {}
    forall r | ToldJoined(t, r) ensures exists n :: Accepts(t, n, r) {
      var n :| Accepts(s, n, r);
      assert Accepts(t, n, r);
    }
  }

  lemma MovesTold(s: State, t: State, r: RequestId)
    requires Told(s) && Moves(s, t, r) && t.claims == s.claims
    requires ToldJoined(s, r) <==> ToldJoined(t, r)
    requires ToldJoined(s, r) ==> t.requests[r] == s.requests[r]
    ensures Told(t)
  {
    forall q ensures (ToldJoined(s, q) <==> ToldJoined(t, q)) && (ToldJoined(s, q) ==> s.requests[q] == t.requests[q]) {
      if q != r && q in s.requests { assert t.requests[q] == s.requests[q]; }
    }
    QuietTold(s, t);
  }

  lemma LookTold(s: State, r: RequestId, secret: Secret, preview: bool)
    requires Told(s)
    ensures Told(LookIn(s, r, secret, preview))
  {
    LookMoves(s, r, secret, preview);
    MovesTold(s, LookIn(s, r, secret, preview), r);
  }

  lemma JudgeTold(s: State, r: RequestId)
    requires Told(s)
    ensures Told(JudgeIn(s, r))
  {
    JudgeMoves(s, r);
    MovesTold(s, JudgeIn(s, r), r);
  }

  lemma AuthenticateTold(s: State, r: RequestId, account: Option<Account>)
    requires Told(s)
    ensures Told(AuthenticateIn(s, r, account))
  {
    AuthenticateMoves(s, r, account);
    MovesTold(s, AuthenticateIn(s, r, account), r);
  }

  lemma BeginTold(s: State, r: RequestId)
    requires Told(s)
    ensures Told(BeginIn(s, r))
  {
    BeginMoves(s, r);
    MovesTold(s, BeginIn(s, r), r);
  }

  lemma ClaimTold(s: State, r: RequestId)
    requires Told(s)
    ensures Told(ClaimIn(s, r))
  {
    ClaimMoves(s, r);
    MovesTold(s, ClaimIn(s, r), r);
  }

  lemma AbortTold(s: State, r: RequestId)
    requires Told(s)
    ensures Told(AbortIn(s, r))
  {
    AbortMoves(s, r);
    MovesTold(s, AbortIn(s, r), r);
  }

  lemma RollBackTold(s: State, r: RequestId, response: Response)
    requires Told(s) && r in s.requests && s.requests[r].Claimed? && !response.Joined?
    ensures Told(RollBack(s, r, response))
  {
    var t := RollBack(s, r, response);
    assert Moves(s, t, r);
    MovesTold(s, t, r);
  }

  lemma EnrolledTold(s: State, r: RequestId, user: UserId)
    requires Told(s) && r in s.requests && s.requests[r].Claimed? && s.requests[r].id in s.invitations
    ensures Told(Enrolled(s, r, user))
  {
    var t, k := Enrolled(s, r, user), |s.claims|;
    assert forall n :: !Accepts(s, n, r);
    forall n, q ensures Accepts(t, n, q) <==> Accepts(s, n, q) || (n == k && q == r) {}
    forall q | q != r ensures ToldJoined(t, q) <==> ToldJoined(s, q) {}
    forall q | ToldJoined(t, q) ensures exists n :: Accepts(t, n, q) {
      if q == r {
        assert Accepts(t, k, q);
      } else {
        var n :| Accepts(s, n, q);
        assert Accepts(t, n, q);
      }
    }
  }

  lemma CommitTold(s: State, r: RequestId, newUser: UserId)
    requires Told(s)
    ensures Told(CommitIn(s, r, newUser))
  {
    if r in s.requests && s.requests[r].Claimed? && s.requests[r].id in s.invitations {
      EnrolledTold(s, r, Joiner(s.requests[r], newUser));
      RollBackTold(s, r, Failed);
      RollBackTold(s, r, Conflict);
    }
  }

  lemma TableTold(s: State, e: Event)
    requires Told(s) && OnTable(e)
    ensures Told(Next(s, e))
  {
    TableKeepsRequests(s, e);
    QuietTold(s, Next(s, e));
  }

  lemma StepTold(s: State, e: Event)
    requires Told(s)
    ensures Told(Next(s, e))
  {
    match e
    case Preview(r, secret) => LookTold(s, r, secret, true);
    case Resolve(r, secret) => LookTold(s, r, secret, false);
    case Judge(r) => JudgeTold(s, r);
    case Authenticate(r, account) => AuthenticateTold(s, r, account);
    case Begin(r) => BeginTold(s, r);
    case Claim(r) => ClaimTold(s, r);
    case Commit(r, newUser) => CommitTold(s, r, newUser);
    case Abort(r) => AbortTold(s, r);
    case _ => TableTold(s, e);
  }

  lemma {:induction false} RunTold(s: State, events: seq<Event>)
    requires Told(s)
    ensures Told(Run(s, events))
    decreases |events|
  {
    if events != [] {
      StepTold(s, events[0]);
      RunTold(Next(s, events[0]), events[1..]);
    }
  }

  /** In every interleaving a request is told that a user joined exactly when an
      accept of its own committed with that user's membership; answers and
      committed accepts are one to one. */
  lemma JoinedIffAccepted(w: World, events: seq<Event>, r: RequestId, user: UserId)
    ensures var s := Run(Init(w), events);
            && (r in s.requests && s.requests[r] == Done(Joined(user))
                <==> exists n :: 0 <= n < |s.claims| && s.claims[n].req == r && s.claims[n].member.user == user)
            && (forall n, m :: 0 <= n < m < |s.claims| ==> s.claims[n].req != s.claims[m].req)
  {
    var s := Run(Init(w), events);
    assert Told(Init(w));
    RunTold(Init(w), events);
    if r in s.requests && s.requests[r] == Done(Joined(user)) {
      assert ToldJoined(s, r);
      var n :| Accepts(s, n, r);
      assert s.claims[n].req == r;
    }
    if n :| 0 <= n < |s.claims| && s.claims[n].req == r && s.claims[n].member.user == user {
      assert Accepts(s, n, r);
    }
    forall n, m | 0 <= n < m < |s.claims| ensures s.claims[n].req != s.claims[m].req {
      assert Accepts(s, n, s.claims[n].req);
      assert s.claims[n].req == s.claims[m].req ==> Accepts(s, m, s.claims[n].req);
    }
  }

  // ---- Every answer

  predicate Ends(s: State, t: State, r: RequestId) {
    r in t.requests && t.requests[r].Done? && !(r in s.requests && s.requests[r].Done?)
  }

  /** A row as the lookup read it may still be used. */
  predicate Alive(inv: Invitation, now: int) {
    inv.status == Pending && now < inv.expiresAt
  }

  /** The answer carries the row's own community, unit, role and expiry. */
  predicate PreviewOf(inv: Invitation, answer: Response) {
    && answer.Previewed? && answer.community == inv.community && answer.unit == inv.unit && answer.role == inv.role
    && answer.expiresAt == inv.expiresAt
  }

  /** The resolution answers a dead or unknown secret, or a preview. */
  predicate JudgeAnswer(found: Option<Found>, preview: bool, now: int, answer: Response) {
    if found.None? || !Alive(found.value.inv, now) then answer == NotFound
    else preview && PreviewOf(found.value.inv, answer)
  }

  /** The commit refuses a taken address first, a membership that exists second. */
  predicate CommitAnswer(s: State, p: Phase, newUser: UserId, answer: Response)
    requires p.Claimed? && p.id in s.invitations
  {
    var inv := s.invitations[p.id];
    var address := if inv.email.Some? then inv.email.value else "";
    var user := if p.account.Link? then p.account.user else newUser;
    if p.account.Create? && address in s.users then answer == Failed
    else if Member(inv.unit, user, inv.role) in s.members then answer == Conflict
    else answer == Joined(user)
  }

  lemma JudgeAnswers(s: State, r: RequestId)
    requires Ends(s, JudgeIn(s, r), r)
    ensures r in s.requests && s.requests[r].Looked?
    ensures JudgeAnswer(s.requests[r].found, s.requests[r].preview, s.clock, JudgeIn(s, r).requests[r].response)
  {}

  lemma CommitAnswers(s: State, r: RequestId, newUser: UserId)
    requires Ends(s, CommitIn(s, r, newUser), r)
    ensures r in s.requests && s.requests[r].Claimed? && s.requests[r].id in s.invitations
    ensures CommitAnswer(s, s.requests[r], newUser, CommitIn(s, r, newUser).requests[r].response)
  {}

  lemma ClaimAnswers(s: State, r: RequestId)
    requires Ends(s, ClaimIn(s, r), r)
    ensures r in s.requests && s.requests[r].Begun? && s.requests[r].id in s.invitations
    ensures ClaimIn(s, r).requests[r] == Done(Conflict)
            && !Alive(s.invitations[s.requests[r].id], s.requests[r].started)
  {}

  lemma AuthenticateAnswers(s: State, r: RequestId, account: Option<Account>)
    requires Ends(s, AuthenticateIn(s, r, account), r)
    ensures AuthenticateIn(s, r, account).requests[r] == Done(Refused) && account.None?
  {}

  lemma AbortAnswers(s: State, r: RequestId)
    requires Ends(s, AbortIn(s, r), r)
    ensures AbortIn(s, r).requests[r] == Done(Failed)
  {}

  // ---- Secrets, previews and accounts

  /** A token names the row with this token, a short code the one with this code. */
  predicate Names(secret: Secret, inv: Invitation) {
    if secret.Token? then inv.tokenHash == secret.hash else inv.codeHash == secret.hash
  }

  /** A lookup reads, as it stands, the one row its secret names, or none if it
      names none, and changes no row. */
  lemma LooksUpTheNamed(s: State, r: RequestId, secret: Secret, preview: bool)
    requires UniqueSecrets(s.invitations) && r !in s.requests
    ensures var t := Next(s, if preview then Preview(r, secret) else Resolve(r, secret));
            && r in t.requests && t.requests[r].Looked? && t.requests[r].preview == preview
            && t == s.(requests := t.requests)
            && match t.requests[r].found
               case None => forall i :: i in s.invitations ==> !Names(secret, s.invitations[i])
               case Some(Found(id, inv)) =>
                 && id in s.invitations && inv == s.invitations[id]
                 && forall i :: i in s.invitations ==> (Names(secret, s.invitations[i]) <==> i == id)
  {
    forall i | i in s.invitations && Names(secret, s.invitations[i])
      ensures Finds(s, secret) && Find(s, secret) == i
    {
      UniqueMatch(s, secret, i);
    }
  }

  /** A preview looks, and is answered; it never becomes an accept. */
  predicate Previewing(s: State, r: RequestId) {
    && r in s.requests
    && match s.requests[r]
       case Looked(_, preview) => preview
       case Done(answer) => answer.Previewed? || answer == NotFound || answer == Failed
       case _ => false
  }

  /** An accept is never answered as a preview. */
  predicate Accepting(s: State, r: RequestId) {
    && r in s.requests
    && match s.requests[r]
       case Looked(_, preview) => !preview
       case Done(answer) => !answer.Previewed?
       case _ => true
  }

  ghost predicate SameKind(s: State, t: State, r: RequestId) {
    (Previewing(s, r) ==> Previewing(t, r)) && (Accepting(s, r) ==> Accepting(t, r))
  }

  lemma LookKind(s: State, r: RequestId, secret: Secret, preview: bool)
    ensures SameKind(s, LookIn(s, r, secret, preview), r)
  {}

  lemma JudgeKind(s: State, r: RequestId)
    ensures SameKind(s, JudgeIn(s, r), r)
  {}

  lemma AuthenticateKind(s: State, r: RequestId, account: Option<Account>)
    ensures SameKind(s, AuthenticateIn(s, r, account), r)
  {}

  lemma BeginKind(s: State, r: RequestId)
    ensures SameKind(s, BeginIn(s, r), r)
  {}

  lemma ClaimKind(s: State, r: RequestId)
    ensures SameKind(s, ClaimIn(s, r), r)
  {}

  lemma CommitKind(s: State, r: RequestId, newUser: UserId)
    ensures SameKind(s, CommitIn(s, r, newUser), r)
  {}

  lemma AbortKind(s: State, r: RequestId)
    ensures SameKind(s, AbortIn(s, r), r)
  {}

  lemma StaysItsKind(s: State, e: Event)
    requires !OnTable(e)
    ensures SameKind(s, Next(s, e), e.req)
  {
    match e
    case Preview(r, secret) => LookKind(s, r, secret, true);
    case Resolve(r, secret) => LookKind(s, r, secret, false);
    case Judge(r) => JudgeKind(s, r);
    case Authenticate(r, account) => AuthenticateKind(s, r, account);
    case Begin(r) => BeginKind(s, r);
    case Claim(r) => ClaimKind(s, r);
    case Commit(r, newUser) => CommitKind(s, r, newUser);
    case Abort(r) => AbortKind(s, r);
  }

  lemma StepKeepsKind(s: State, e: Event, r: RequestId)
    ensures SameKind(s, Next(s, e), r)
  {
    if OnTable(e) {
      TableKeepsRequests(s, e);
    } else if e.req == r {
      StaysItsKind(s, e);
    } else {
      RequestStepMoves(s, e);
    }
  }

  lemma {:induction false} RunKeepsKind(s: State, events: seq<Event>, r: RequestId)
    ensures SameKind(s, Run(s, events), r)
    decreases |events|
  {
    if events != [] {
      StepKeepsKind(s, events[0], r);
      RunKeepsKind(Next(s, events[0]), events[1..], r);
    }
  }

  /** Whatever happens after a preview asked, it is answered as a preview or
      refused and changes nobody's membership; and no accept is ever answered as a
      preview. */
  lemma PreviewsOnlyPreview(s: State, r: RequestId, secret: Secret, events: seq<Event>)
    requires r !in s.requests
    ensures Previewing(Run(Next(s, Preview(r, secret)), events), r)
    ensures Accepting(Run(Next(s, Resolve(r, secret)), events), r)
  {
    RunKeepsKind(Next(s, Preview(r, secret)), events, r);
    RunKeepsKind(Next(s, Resolve(r, secret)), events, r);
  }

  /** An accept goes on with the live account of the invited address, or with a
      new one if there is none, and may always be refused. */
  lemma GoesOnAsOwner(s: State, r: RequestId, account: Option<Account>)
    requires r in s.requests && s.requests[r].Resolved? && s.requests[r].id in s.invitations
    ensures var t := AuthenticateIn(s, r, account);
            var inv := s.invitations[s.requests[r].id];
            var address := if inv.email.Some? then inv.email.value else "";
            && r in t.requests
            && match account
               case None => t.requests[r] == Done(Refused)
               case Some(Link(user)) =>
                 t.requests[r] == Authenticated(s.requests[r].id, Link(user))
                 <==> address in s.users && address !in s.retired && s.users[address] == user
               case Some(Create) =>
                 t.requests[r] == Authenticated(s.requests[r].id, Create)
                 <==> address !in s.users || address in s.retired
  {}

  /** Other routes take a free address and add a new membership, and leave the
      invitations and their requests alone. */
  lemma OtherRoutesInsert(s: State, address: string, user: UserId, member: Member)
    ensures var t := Next(s, Register(address, user));
            && t == s.(users := t.users) && t.users.Keys == s.users.Keys + {address}
            && (forall a :: a in t.users ==> t.users[a] == if a in s.users then s.users[a] else user)
    ensures var t := Next(s, AddMember(member));
            && t.members == s.members + {member} && t == s.(members := t.members, direct := t.direct)
            && t.direct == s.direct + (if member in s.members then 0 else 1)
  {}

  predicate MayEnd(e: Event) {
    e.Judge? || e.Authenticate? || e.Claim? || e.Commit? || e.Abort?
  }

  lemma OthersEndNone(s: State, e: Event, r: RequestId)
    requires !MayEnd(e)
    ensures !Ends(s, Next(s, e), r)
  {
    if OnTable(e) { TableKeepsRequests(s, e); }
  }

  /** Whichever event answers request `r`, the answer is the one its condition
      gives: the resolution by the row as it was read, the claim by the row as it
      stands, the commit by the addresses and memberships there are. */
  lemma AnswersByCondition(s: State, e: Event, r: RequestId)
    requires Ends(s, Next(s, e), r)
    ensures MayEnd(e) && e.req == r && r in s.requests
    ensures var p, answer := s.requests[r], Next(s, e).requests[r].response;
            match e
            case Judge(_) => p.Looked? && JudgeAnswer(p.found, p.preview, s.clock, answer)
            case Authenticate(_, account) => answer == Refused && account.None?
            case Claim(_) =>
              p.Begun? && p.id in s.invitations && answer == Conflict && !Alive(s.invitations[p.id], p.started)
            case Commit(_, newUser) => p.Claimed? && p.id in s.invitations && CommitAnswer(s, p, newUser, answer)
            case Abort(_) => answer == Failed
            case _ => false
  {
    if !MayEnd(e) {
      OthersEndNone(s, e, r);
    } else {
      RequestStepMoves(s, e);
      match e
      case Judge(_) => JudgeAnswers(s, r);
      case Authenticate(_, account) => AuthenticateAnswers(s, r, account);
      case Claim(_) => ClaimAnswers(s, r);
      case Commit(_, newUser) => CommitAnswers(s, r, newUser);
      case Abort(_) => AbortAnswers(s, r);
    }
  }
}
