/** Soft-deleted accounts: their address stays taken, and no lookup finds them,
    so nobody comes in through it any more. */
module InvitationRetirement {
  import opened Common
  import opened Invitations
  import opened InvitationSafety

  /** No accept under way links an account to this address. */
  ghost predicate Unlinked(s: State, p: Phase, address: string) {
    (p.Authenticated? || p.Begun? || p.Claimed?) && p.account.Link? ==>
      p.id in s.invitations && Address(s.invitations[p.id]) != address
  }

  ghost predicate NotFor(s: State, a: Acceptance, address: string) {
    a.id in s.invitations && Address(s.invitations[a.id]) != address
  }

  /** The address belongs to a soft-deleted account, and since the `k`-th
      committed accept nobody came in through it. */
  ghost predicate Shut(s: State, address: string, k: nat) {
    && address in s.retired && address in s.users && k <= |s.claims|
    && (forall r :: r in s.requests ==> Unlinked(s, s.requests[r], address))
    && (forall n :: k <= n < |s.claims| ==> NotFor(s, s.claims[n], address))
  }

  /** What a step may add without opening the address. */
  ghost predicate AddsOnly(s: State, t: State, address: string) {
    && s.retired <= t.retired && s.users.Keys <= t.users.Keys
    && (forall r :: r in t.requests ==> Unlinked(s, t.requests[r], address))
    && s.claims <= t.claims && (forall n :: |s.claims| <= n < |t.claims| ==> NotFor(s, t.claims[n], address))
  }

  lemma StaysShut(s: State, t: State, address: string, k: nat)
    requires Shut(s, address, k) && Advances(s, t) && AddsOnly(s, t, address)
    ensures Shut(t, address, k)
  {
    forall r | r in t.requests ensures Unlinked(t, t.requests[r], address) {
      assert Unlinked(s, t.requests[r], address);
    }
    forall n | k <= n < |t.claims| ensures NotFor(t, t.claims[n], address) {
      assert NotFor(s, t.claims[n], address);
    }
  }

  lemma TableAdds(s: State, e: Event, address: string, k: nat)
    requires Shut(s, address, k) && OnTable(e)
    ensures AddsOnly(s, Next(s, e), address)
  {
    TableKeepsRequests(s, e);
    assert s.retired <= Next(s, e).retired;
  }

  /** A step that moves one request on and lets nobody in. */
  lemma PhaseAdds(s: State, t: State, r: RequestId, address: string, k: nat)
    requires Shut(s, address, k) && Moves(s, t, r)
    requires t.retired == s.retired && t.users == s.users && t.claims == s.claims
    requires r in t.requests ==> Unlinked(s, t.requests[r], address)
    ensures AddsOnly(s, t, address)
  {
    forall q | q in t.requests ensures Unlinked(s, t.requests[q], address) {
      if q != r { assert Unlinked(s, s.requests[q], address); }
    }
  }

  lemma LookAdds(s: State, r: RequestId, secret: Secret, preview: bool, address: string, k: nat)
    requires Shut(s, address, k)
    ensures AddsOnly(s, LookIn(s, r, secret, preview), address)
  {
    LookMoves(s, r, secret, preview);
    assert r in s.requests ==> Unlinked(s, s.requests[r], address);
    PhaseAdds(s, LookIn(s, r, secret, preview), r, address, k);
  }

  lemma JudgeAdds(s: State, r: RequestId, address: string, k: nat)
    requires Shut(s, address, k)
    ensures AddsOnly(s, JudgeIn(s, r), address)
  {
    JudgeMoves(s, r);
    assert r in s.requests ==> Unlinked(s, s.requests[r], address);
    PhaseAdds(s, JudgeIn(s, r), r, address, k);
  }

  /** The lookup does not find a soft-deleted account, so nothing links to it. */
  lemma AuthenticateAdds(s: State, r: RequestId, account: Option<Account>, address: string, k: nat)
    requires Shut(s, address, k)
    ensures AddsOnly(s, AuthenticateIn(s, r, account), address)
  {
    AuthenticateMoves(s, r, account);
    PhaseAdds(s, AuthenticateIn(s, r, account), r, address, k);
  }

  lemma BeginAdds(s: State, r: RequestId, address: string, k: nat)
    requires Shut(s, address, k)
    ensures AddsOnly(s, BeginIn(s, r), address)
  {
    BeginMoves(s, r);
    assert r in s.requests ==> Unlinked(s, s.requests[r], address);
    PhaseAdds(s, BeginIn(s, r), r, address, k);
  }

  lemma ClaimAdds(s: State, r: RequestId, address: string, k: nat)
    requires Shut(s, address, k)
    ensures AddsOnly(s, ClaimIn(s, r), address)
  {
    ClaimMoves(s, r);
    assert r in s.requests ==> Unlinked(s, s.requests[r], address);
    PhaseAdds(s, ClaimIn(s, r), r, address, k);
  }

  lemma AbortAdds(s: State, r: RequestId, address: string, k: nat)
    requires Shut(s, address, k)
    ensures AddsOnly(s, AbortIn(s, r), address)
  {
    AbortMoves(s, r);
    assert r in s.requests ==> Unlinked(s, s.requests[r], address);
    PhaseAdds(s, AbortIn(s, r), r, address, k);
  }

  lemma EnrolledAdds(s: State, r: RequestId, user: UserId, address: string, k: nat)
    requires Shut(s, address, k)
    requires r in s.requests && s.requests[r].Claimed? && s.requests[r].id in s.invitations
    requires var inv := s.invitations[s.requests[r].id];
             && Member(inv.unit, user, inv.role) !in s.members
             && (s.requests[r].account.Create? ==> Address(inv) !in s.users)
    ensures AddsOnly(s, Enrolled(s, r, user), address)
  {
    var t := Enrolled(s, r, user);
    assert Unlinked(s, s.requests[r], address);
    forall q | q in t.requests ensures Unlinked(s, t.requests[q], address) {
      if q != r { assert Unlinked(s, s.requests[q], address); }
    }
  }

  lemma RollBackAdds(s: State, r: RequestId, response: Response, address: string, k: nat)
    requires Shut(s, address, k) && r in s.requests && s.requests[r].Claimed?
    ensures AddsOnly(s, RollBack(s, r, response), address)
  {
    PhaseAdds(s, RollBack(s, r, response), r, address, k);
  }

  /** Nor can a new account take its address. */
  lemma CommitAdds(s: State, r: RequestId, newUser: UserId, address: string, k: nat)
    requires Shut(s, address, k)
    ensures AddsOnly(s, CommitIn(s, r, newUser), address)
  {
    if r in s.requests && s.requests[r].Claimed? && s.requests[r].id in s.invitations {
      var inv := s.invitations[s.requests[r].id];
      var user := Joiner(s.requests[r], newUser);
      RollBackAdds(s, r, Failed, address, k);
      RollBackAdds(s, r, Conflict, address, k);
      var free := Member(inv.unit, user, inv.role) !in s.members;
      if free && (s.requests[r].account.Create? ==> Address(inv) !in s.users) {
        EnrolledAdds(s, r, user, address, k);
      }
    }
  }

  lemma StepAdds(s: State, e: Event, address: string, k: nat)
    requires Shut(s, address, k)
    ensures AddsOnly(s, Next(s, e), address)
  {
    match e
    case Preview(r, secret) => LookAdds(s, r, secret, true, address, k);
    case Resolve(r, secret) => LookAdds(s, r, secret, false, address, k);
    case Judge(r) => JudgeAdds(s, r, address, k);
    case Authenticate(r, account) => AuthenticateAdds(s, r, account, address, k);
    case Begin(r) => BeginAdds(s, r, address, k);
    case Claim(r) => ClaimAdds(s, r, address, k);
    case Commit(r, newUser) => CommitAdds(s, r, newUser, address, k);
    case Abort(r) => AbortAdds(s, r, address, k);
    case _ => TableAdds(s, e, address, k);
  }

  lemma {:induction false} ShutRun(s: State, events: seq<Event>, address: string, k: nat)
    requires Inv(s) && Shut(s, address, k)
    ensures Shut(Run(s, events), address, k)
    decreases |events|
  {
    if events != [] {
      StepKeeps(s, events[0]);
      StepAdds(s, events[0], address, k);
      StaysShut(s, Next(s, events[0]), address, k);
      ShutRun(Next(s, events[0]), events[1..], address, k);
    }
  }

  /** From the moment an address belongs to a soft-deleted account and no accept
      under way has linked it yet, no invitation to that address is ever
      accepted again: it can be neither linked nor created. */
  lemma RetiredAddressStaysOut(w: World, past: seq<Event>, future: seq<Event>, address: string, n: nat)
    requires var s := Run(Init(w), past);
             && address in s.retired && address in s.users
             && (forall r :: r in s.requests ==> Unlinked(s, s.requests[r], address))
             && |s.claims| <= n < |Run(s, future).claims|
    ensures var t := Run(Run(Init(w), past), future);
            t.claims[n].id in t.invitations && Address(t.invitations[t.claims[n].id]) != address
  {
    var s := Run(Init(w), past);
    InitInv(w);
    RunKeeps(Init(w), past);
    ShutRun(s, future, address, |s.claims|);
    assert NotFor(Run(s, future), Run(s, future).claims[n], address);
  }

  /** What an accept that has linked in time needs to get in. */
  ghost predicate ReadyToJoin(s: State, r: RequestId, id: Id, user: UserId) {
    && r in s.requests && s.requests[r] == Authenticated(id, Link(user))
    && id in s.invitations && id !in s.locks && Usable(s.invitations[id], s.clock)
    && Member(s.invitations[id].unit, user, s.invitations[id].role) !in s.members
  }

  lemma ReadyClaims(s: State, r: RequestId, id: Id, user: UserId)
    requires ReadyToJoin(s, r, id, user)
    ensures ClaimIn(BeginIn(s, r), r)
         == s.(requests := s.requests[r := Claimed(id, Link(user), s.clock)], locks := s.locks[id := r])
  {
    var t := BeginIn(s, r);
    var p := Claimed(id, Link(user), s.clock);
    assert t.requests[r] == Begun(id, Link(user), s.clock) && t.requests[r := p] == s.requests[r := p];
  }

  lemma ClaimedCommits(s: State, r: RequestId, id: Id, user: UserId, started: int)
    requires r in s.requests && s.requests[r] == Claimed(id, Link(user), started) && id in s.invitations
    requires Member(s.invitations[id].unit, user, s.invitations[id].role) !in s.members
    ensures var inv := s.invitations[id];
            var t := CommitIn(s, r, user);
            && t.claims == s.claims + [Acceptance(id, r, started, Member(inv.unit, user, inv.role))]
            && t.retired == s.retired && id in t.invitations && Address(t.invitations[id]) == Address(inv)
  {}

  /** The hypothesis on accepts under way is needed: one that linked the account
      in time goes through whether the account has been retired since or not. */
  lemma LinkedInTimeGetsIn(s: State, r: RequestId, id: Id, user: UserId)
    requires ReadyToJoin(s, r, id, user)
    ensures var inv := s.invitations[id];
            var t := CommitIn(ClaimIn(BeginIn(s, r), r), r, user);
            && t.claims == s.claims + [Acceptance(id, r, s.clock, Member(inv.unit, user, inv.role))]
            && t.retired == s.retired && id in t.invitations && Address(t.invitations[id]) == Address(inv)
  {
    ReadyClaims(s, r, id, user);
    ClaimedCommits(ClaimIn(BeginIn(s, r), r), r, id, user, s.clock);
  }

  const OWNER := World(true, map["a@b" := 5], {}, {})

  const INVITED := Invitation(7, 8, Some("a@b"), "owner", "token", "code", Pending, EXPIRY, 1, 0)

  /** The tables after the creation, with the owner's accept at `phase`. */
  function Standing(requests: map<RequestId, Phase>, touched: nat, retired: set<string>): State {
    State(0, true, map[0 := INVITED.(failedAttempts := touched)], OWNER.users, retired, {}, 0,
          Audits(multiset{0}, multiset{}, multiset{}, multiset{}), multiset{0}, multiset{}, [], requests, map[])
  }

  function UpToRetirement(): seq<Event> {
    [CreateInvitation(0, 7, 8, Some("a@b"), "owner", "token", "code"),
     Resolve(1, ShortCode("code")), Judge(1), Authenticate(1, Some(Link(5))), Retire("a@b")]
  }

  function LinkedState(retired: set<string>): State {
    Standing(map[1 := Authenticated(0, Link(5))], 1, retired)
  }

  lemma CodeFinds(s: State)
    requires s == Standing(map[], 0, {})
    ensures LookIn(s, 1, ShortCode("code"), false) == Standing(map[1 := Looked(Some(Found(0, INVITED)), false)], 0, {})
  {
    assert Matches(s.invitations[0], ShortCode("code"));
  }

  lemma FoundIsLinked()
    ensures var looked := Standing(map[1 := Looked(Some(Found(0, INVITED)), false)], 0, {});
            && JudgeIn(looked, 1) == Standing(map[1 := Resolved(0)], 1, {})
            && AuthenticateIn(JudgeIn(looked, 1), 1, Some(Link(5))) == LinkedState({})
  {
    var looked := Standing(map[1 := Looked(Some(Found(0, INVITED)), false)], 0, {});
    assert JudgeIn(looked, 1).requests == map[1 := Resolved(0)];
    assert AuthenticateIn(JudgeIn(looked, 1), 1, Some(Link(5))).requests == map[1 := Authenticated(0, Link(5))];
  }

  lemma LinkedThenRetired()
    ensures Run(Init(OWNER), UpToRetirement()) == LinkedState({"a@b"})
  {
    var es := UpToRetirement();
    CodeFinds(Standing(map[], 0, {}));
    FoundIsLinked();
    RunsThrough(es, [Init(OWNER), Standing(map[], 0, {}),
                     Standing(map[1 := Looked(Some(Found(0, INVITED)), false)], 0, {}),
                     Standing(map[1 := Resolved(0)], 1, {}), LinkedState({}), LinkedState({"a@b"})], 0);
  }

  lemma ThreeSteps(s: State, r: RequestId, user: UserId)
    ensures Run(s, [Begin(r), Claim(r), Commit(r, user)]) == CommitIn(ClaimIn(BeginIn(s, r), r), r, user)
  {
    var es := [Begin(r), Claim(r), Commit(r, user)];
    var t := BeginIn(s, r);
    var u := ClaimIn(t, r);
    assert es[0..] == es;
    RunVia(s, es, 0, t);
    RunVia(t, es, 1, u);
    RunVia(u, es, 2, CommitIn(u, r, user));
  }

  /** A run in which an accept for a retired address does commit. */
  lemma RetiredWhileLinked()
    ensures var s := Run(Init(OWNER), UpToRetirement());
            var t := Run(s, [Begin(1), Claim(1), Commit(1, 5)]);
            && "a@b" in s.retired && s.claims == []
            && |t.claims| == 1 && t.claims[0].id in t.invitations && Address(t.invitations[t.claims[0].id]) == "a@b"
  {
    LinkedThenRetired();
    ThreeSteps(LinkedState({"a@b"}), 1, 5);
    LinkedInTimeGetsIn(LinkedState({"a@b"}), 1, 0, 5);
  }
}
