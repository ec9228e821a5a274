/** Whom an accept lets in: the account that owns the invited address, and for
    the unit and the role the invitation names. */
module InvitationOwners {
  import opened Common
  import opened Invitations
  import opened InvitationSafety

  predicate Owns(users: map<string, UserId>, address: string, user: UserId) {
    address in users && users[address] == user
  }

  /** An account chosen for linking is the one that owns the address. */
  ghost predicate LinkHolds(s: State, p: Phase) {
    p.Authenticated? || p.Begun? || p.Claimed? ==>
      p.id in s.invitations
      && (p.account.Link? ==> Owns(s.users, Address(s.invitations[p.id]), p.account.user))
  }

  /** A committed accept made a membership of the invited unit and role for the
      owner of the invited address. */
  ghost predicate AcceptOwned(s: State, a: Acceptance) {
    && a.id in s.invitations && a.member in s.members
    && a.member.unit == s.invitations[a.id].unit && a.member.role == s.invitations[a.id].role
    && Owns(s.users, Address(s.invitations[a.id]), a.member.user)
  }

  ghost predicate Owned(s: State) {
    && (forall r :: r in s.requests ==> LinkHolds(s, s.requests[r]))
    && (forall n :: 0 <= n < |s.claims| ==> AcceptOwned(s, s.claims[n]))
  }

  /** Accounts are never taken off their address. */
  ghost predicate UsersGrow(s: State, t: State) {
    forall a :: a in s.users ==> Owns(t.users, a, s.users[a])
  }

  lemma LinkStays(s: State, t: State, p: Phase)
    requires Advances(s, t) && UsersGrow(s, t) && LinkHolds(s, p)
    ensures LinkHolds(t, p)
  {
    if p.Authenticated? || p.Begun? || p.Claimed? {
      assert RowAdvances(s.invitations[p.id], t.invitations[p.id]);
    }
  }

  lemma AcceptStays(s: State, t: State, a: Acceptance)
    requires Advances(s, t) && UsersGrow(s, t) && AcceptOwned(s, a)
    ensures AcceptOwned(t, a)
  {
    assert RowAdvances(s.invitations[a.id], t.invitations[a.id]);
  }

  /** A step that moves one request on and writes nothing else. */
  lemma PhaseOwned(s: State, t: State, r: RequestId, phase: Phase)
    requires Owned(s) && LinkHolds(s, phase)
    requires t == s.(requests := s.requests[r := phase], locks := t.locks)
    ensures Owned(t) && UsersGrow(s, t)
  {
    forall q | q in t.requests ensures LinkHolds(t, t.requests[q]) {
      assert LinkHolds(s, t.requests[q]);
    }
    forall n | 0 <= n < |t.claims| ensures AcceptOwned(t, t.claims[n]) {
      assert AcceptOwned(s, s.claims[n]);
    }
  }

  lemma TouchOwned(s: State, id: Id)
    requires Owned(s) && id in s.invitations
    ensures Owned(Touch(s, id)) && UsersGrow(s, Touch(s, id))
  {
    var t := Touch(s, id);
    forall q | q in t.requests ensures LinkHolds(t, t.requests[q]) {
      assert LinkHolds(s, s.requests[q]);
    }
    forall n | 0 <= n < |t.claims| ensures AcceptOwned(t, t.claims[n]) {
      assert AcceptOwned(s, s.claims[n]);
    }
  }

  lemma TableOwned(s: State, e: Event)
    requires Inv(s) && Owned(s) && OnTable(e)
    ensures Owned(Next(s, e)) && UsersGrow(s, Next(s, e))
  {
    var t := Next(s, e);
    TableStepKeeps(s, e);
    TableKeepsRequests(s, e);
    forall q | q in t.requests ensures LinkHolds(t, t.requests[q]) {
      LinkStays(s, t, s.requests[q]);
    }
    forall n | 0 <= n < |t.claims| ensures AcceptOwned(t, t.claims[n]) {
      AcceptStays(s, t, s.claims[n]);
    }
  }

  lemma LookOwned(s: State, r: RequestId, secret: Secret, preview: bool)
    requires Owned(s)
    ensures Owned(LookIn(s, r, secret, preview)) && UsersGrow(s, LookIn(s, r, secret, preview))
  {
    var t := LookIn(s, r, secret, preview);
    if t != s {
      PhaseOwned(s, t, r, t.requests[r]);
    }
  }

  lemma JudgeOwned(s: State, r: RequestId)
    requires Owned(s)
    ensures Owned(JudgeIn(s, r)) && UsersGrow(s, JudgeIn(s, r))
  {
    if r in s.requests && s.requests[r].Looked? {
      match s.requests[r].found
      case None => PhaseOwned(s, Note(s, r, Done(NotFound)), r, Done(NotFound));
      case Some(Found(id, inv)) =>
        if id in s.invitations && id !in s.locks {
          var phase := Resolution(id, inv, s.clock, s.requests[r].preview);
          TouchOwned(s, id);
          PhaseOwned(Touch(s, id), Note(Touch(s, id), r, phase), r, phase);
        }
    }
  }

  lemma AuthenticateOwned(s: State, r: RequestId, account: Option<Account>)
    requires Owned(s)
    ensures Owned(AuthenticateIn(s, r, account)) && UsersGrow(s, AuthenticateIn(s, r, account))
  {
    var t := AuthenticateIn(s, r, account);
    if t != s {
      PhaseOwned(s, t, r, t.requests[r]);
    }
  }

  lemma BeginOwned(s: State, r: RequestId)
    requires Owned(s)
    ensures Owned(BeginIn(s, r)) && UsersGrow(s, BeginIn(s, r))
  {
    var t := BeginIn(s, r);
    if t != s {
      assert LinkHolds(s, s.requests[r]);
      PhaseOwned(s, t, r, t.requests[r]);
    }
  }

  lemma ClaimOwned(s: State, r: RequestId)
    requires Owned(s)
    ensures Owned(ClaimIn(s, r)) && UsersGrow(s, ClaimIn(s, r))
  {
    var t := ClaimIn(s, r);
    if t != s {
      assert LinkHolds(s, s.requests[r]);
      PhaseOwned(s, t, r, t.requests[r]);
    }
  }

  lemma RollBackOwned(s: State, r: RequestId, response: Response)
    requires Owned(s) && r in s.requests && s.requests[r].Claimed?
    ensures Owned(RollBack(s, r, response)) && UsersGrow(s, RollBack(s, r, response))
  {
    PhaseOwned(s, RollBack(s, r, response), r, Done(response));
  }

  lemma EnrolledOwned(s: State, r: RequestId, user: UserId)
    requires Inv(s) && Owned(s) && r in s.requests && s.requests[r].Claimed? && s.requests[r].id in s.invitations
    requires var inv := s.invitations[s.requests[r].id];
             && Member(inv.unit, user, inv.role) !in s.members
             && match s.requests[r].account
                case Create => Address(inv) !in s.users
                case Link(u) => u == user
    ensures Owned(Enrolled(s, r, user)) && UsersGrow(s, Enrolled(s, r, user))
  {
    var t := Enrolled(s, r, user);
    EnrolledKeeps(s, r, user);
    assert LinkHolds(s, s.requests[r]);
    forall q | q in t.requests ensures LinkHolds(t, t.requests[q]) {
      if q != r { LinkStays(s, t, s.requests[q]); }
    }
    forall n | 0 <= n < |t.claims| ensures AcceptOwned(t, t.claims[n]) {
      if n < |s.claims| { AcceptStays(s, t, s.claims[n]); }
    }
  }

  lemma CommitOwned(s: State, r: RequestId, newUser: UserId)
    requires Inv(s) && Owned(s)
    ensures Owned(CommitIn(s, r, newUser)) && UsersGrow(s, CommitIn(s, r, newUser))
  {
    if r in s.requests && s.requests[r].Claimed? && s.requests[r].id in s.invitations {
      var p := s.requests[r];
      var inv := s.invitations[p.id];
      var user := Joiner(p, newUser);
      if p.account.Create? && Address(inv) in s.users {
        RollBackOwned(s, r, Failed);
      } else if Member(inv.unit, user, inv.role) in s.members {
        RollBackOwned(s, r, Conflict);
      } else {
        EnrolledOwned(s, r, user);
      }
    }
  }

  lemma AbortOwned(s: State, r: RequestId)
    requires Owned(s)
    ensures Owned(AbortIn(s, r)) && UsersGrow(s, AbortIn(s, r))
  {
    var t := AbortIn(s, r);
    if t != s {
      PhaseOwned(s, t, r, Done(Failed));
    }
  }

  lemma StepOwned(s: State, e: Event)
    requires Inv(s) && Owned(s)
    ensures Owned(Next(s, e)) && UsersGrow(s, Next(s, e))
  {
    match e
    case Preview(r, secret) => LookOwned(s, r, secret, true);
    case Resolve(r, secret) => LookOwned(s, r, secret, false);
    case Judge(r) => JudgeOwned(s, r);
    case Authenticate(r, account) => AuthenticateOwned(s, r, account);
    case Begin(r) => BeginOwned(s, r);
    case Claim(r) => ClaimOwned(s, r);
    case Commit(r, newUser) => CommitOwned(s, r, newUser);
    case Abort(r) => AbortOwned(s, r);
    case _ => TableOwned(s, e);
  }

  lemma {:induction false} RunOwned(s: State, events: seq<Event>)
    requires Inv(s) && Owned(s)
    ensures Owned(Run(s, events))
    decreases |events|
  {
    if events != [] {
      StepKeeps(s, events[0]);
      StepOwned(s, events[0]);
      RunOwned(Next(s, events[0]), events[1..]);
    }
  }

  /** In every interleaving, whoever an accept lets in owns the address that was
      invited, linked or created, and joins the unit the invitation names in
      the role it names, also if accounts and memberships appear on the way. */
  lemma AcceptsLetInTheInvited(w: World, events: seq<Event>, n: nat)
    requires n < |Run(Init(w), events).claims|
    ensures var s := Run(Init(w), events);
            AcceptOwned(s, s.claims[n])
  {
    InitInv(w);
    RunOwned(Init(w), events);
  }
}
