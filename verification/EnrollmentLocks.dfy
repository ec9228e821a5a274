/** The locks enrollment and confirmation take: the user's row first, then rows
    of that user's challenges and factor, and last, for the audit entry, the
    chain's advisory lock, all held to the end of the transaction. Autocommitted
    statements on those tables lock one row each, and every other transaction
    that appends to the audit chain takes the advisory lock last, too. No
    interleaving deadlocks. */
module EnrollmentLocks {
  import opened Common

  type TxId = int
  type UserId = int
  type ChallengeId = int

  datatype Lock = UserRow(user: UserId) | ChallengeRow(id: ChallengeId) | FactorRow(user: UserId) | ChainLock

  /** An enrollment or a confirmation of a user, another transaction that
      appends to the audit chain, or a single statement. */
  datatype Kind = Enrollment(user: UserId) | Appender | Single(row: Lock)

  datatype Tx = Tx(kind: Kind, held: set<Lock>, waiting: Option<Lock>)

  type State = map<TxId, Tx>

  datatype Event =
    | Start(tx: TxId, kind: Kind)
    | Request(tx: TxId, row: Lock)
    | Grant(tx: TxId)
    | Finish(tx: TxId)

  /** A row of this user; a challenge's user never changes. */
  predicate RowOf(owner: ChallengeId -> UserId, row: Lock, user: UserId) {
    match row
    case UserRow(u) => u == user
    case ChallengeRow(c) => owner(c) == user
    case FactorRow(u) => u == user
    case ChainLock => false
  }

  /** What a transaction may ask for next: its user's row before anything else,
      then any row of that user, and nothing after the chain lock; another
      appender only the chain lock, a single statement only its one row. */
  predicate MayRequest(owner: ChallengeId -> UserId, x: Tx, row: Lock) {
    && x.waiting.None? && row !in x.held
    && match x.kind
       case Single(only) => x.held == {} && row == only
       case Appender => row == ChainLock
       case Enrollment(u) =>
         if UserRow(u) !in x.held then row == UserRow(u)
         else ChainLock !in x.held && (row == ChainLock || RowOf(owner, row, u))
  }

  predicate Free(s: State, row: Lock) {
    forall t :: t in s ==> row !in s[t].held
  }

  function Next(owner: ChallengeId -> UserId, s: State, e: Event): State {
    match e
    case Start(t, kind) => if t in s then s else s[t := Tx(kind, {}, None)]
    case Request(t, row) =>
      if t in s && MayRequest(owner, s[t], row) then s[t := s[t].(waiting := Some(row))] else s
    case Grant(t) =>
      if t in s && s[t].waiting.Some? && Free(s, s[t].waiting.value)
      then s[t := s[t].(held := s[t].held + {s[t].waiting.value}, waiting := None)] else s
    case Finish(t) => s - {t}
  }

  function Run(owner: ChallengeId -> UserId, s: State, events: seq<Event>): State
    decreases |events|
  {
    if events == [] then s else Run(owner, Next(owner, s, events[0]), events[1..])
  }

  /** `a` waits for a row that `b` holds. */
  predicate WaitsFor(s: State, a: TxId, b: TxId) {
    a in s && b in s && a != b && s[a].waiting.Some? && s[a].waiting.value in s[b].held
  }

  ghost predicate Ordered(owner: ChallengeId -> UserId, x: Tx) {
    match x.kind
    case Single(only) => x.held <= {only} && (x.waiting.Some? ==> x.held == {} && x.waiting.value == only)
    case Appender => x.held <= {ChainLock} && (x.waiting.Some? ==> x.held == {} && x.waiting.value == ChainLock)
    case Enrollment(u) =>
      && (forall row :: row in x.held ==> UserRow(u) in x.held && (row == ChainLock || RowOf(owner, row, u)))
      && (x.waiting.Some? ==>
            && x.waiting.value !in x.held && ChainLock !in x.held
            && if x.held == {} then x.waiting.value == UserRow(u)
               else x.waiting.value == ChainLock || RowOf(owner, x.waiting.value, u))
  }

  ghost predicate Inv(owner: ChallengeId -> UserId, s: State) {
    && (forall t :: t in s ==> Ordered(owner, s[t]))
    && (forall a, b, row :: a in s && b in s && row in s[a].held && row in s[b].held ==> a == b)
  }

  lemma StepKeeps(owner: ChallengeId -> UserId, s: State, e: Event)
    requires Inv(owner, s)
    ensures Inv(owner, Next(owner, s, e))
  {}

  lemma {:induction false} RunKeeps(owner: ChallengeId -> UserId, s: State, events: seq<Event>)
    requires Inv(owner, s)
    ensures Inv(owner, Run(owner, s, events))
    decreases |events|
  {
    if events != [] {
      StepKeeps(owner, s, events[0]);
      RunKeeps(owner, Next(owner, s, events[0]), events[1..]);
    }
  }

  /** Behind at most two waits there is a transaction that runs: whoever waits
      while holding rows waits for a single statement, or for the chain lock,
      and whoever holds that waits for nothing. */
  lemma WaitsEnd(owner: ChallengeId -> UserId, s: State, a: TxId, b: TxId, c: TxId)
    requires Inv(owner, s) && WaitsFor(s, a, b) && WaitsFor(s, b, c)
    ensures s[c].waiting.None? && (s[c].kind.Single? || ChainLock in s[c].held)
  {
    assert Ordered(owner, s[b]) && Ordered(owner, s[c]);
    assert s[b].kind.Enrollment? && UserRow(s[b].kind.user) in s[b].held;
    assert s[b].waiting.value == ChainLock || RowOf(owner, s[b].waiting.value, s[b].kind.user);
  }

  /** A chain of waits, each transaction for the next. */
  ghost predicate Chain(s: State, txs: seq<TxId>) {
    forall i :: 0 <= i < |txs| - 1 ==> WaitsFor(s, txs[i], txs[i + 1])
  }

  /** In every interleaving of enrollments, confirmations, other appenders and
      single statements no transaction waits for itself through others: no chain
      of waits is longer than two, so none closes into a cycle. */
  lemma NoDeadlock(owner: ChallengeId -> UserId, events: seq<Event>, txs: seq<TxId>)
    requires Chain(Run(owner, map[], events), txs)
    ensures |txs| <= 3
    ensures |txs| >= 2 ==> txs[0] != txs[|txs| - 1]
  {
    var s := Run(owner, map[], events);
    RunKeeps(owner, map[], events);
    if |txs| >= 3 {
      assert WaitsFor(s, txs[0], txs[1]) && WaitsFor(s, txs[1], txs[2]);
      WaitsEnd(owner, s, txs[0], txs[1], txs[2]);
      assert |txs| > 3 ==> WaitsFor(s, txs[2], txs[3]);
    } else if |txs| == 2 {
      assert WaitsFor(s, txs[0], txs[1]);
    }
  }

  lemma RunVia(owner: ChallengeId -> UserId, s: State, es: seq<Event>, n: nat, t: State)
    requires n < |es| && Next(owner, s, es[n]) == t
    ensures Run(owner, s, es[n..]) == Run(owner, t, es[n + 1..])
  {
    assert es[n..][1..] == es[n + 1..];
  }

  lemma {:induction false} RunsThrough(owner: ChallengeId -> UserId, es: seq<Event>, states: seq<State>, n: nat)
    requires |states| == |es| + 1 && n <= |es|
    requires forall i :: 0 <= i < |es| ==> Next(owner, states[i], es[i]) == states[i + 1]
    ensures Run(owner, states[n], es[n..]) == states[|es|]
    decreases |es| - n
  {
    if n < |es| {
      RunVia(owner, states[n], es, n, states[n + 1]);
      RunsThrough(owner, es, states, n + 1);
    }
  }

  /** A confirmation that holds its user's row and the challenge, about to write
      its audit entry while another transaction appends, and behind it a single
      statement on the challenge. */
  function Queued(user: UserId, c: ChallengeId): seq<Event> {
    Appending(user) + Behind(c)
  }

  function Appending(user: UserId): seq<Event> {
    [Start(0, Appender), Request(0, ChainLock), Grant(0),
     Start(1, Enrollment(user)), Request(1, UserRow(user)), Grant(1)]
  }

  function Behind(c: ChallengeId): seq<Event> {
    [Request(1, ChallengeRow(c)), Grant(1), Request(1, ChainLock), Start(2, Single(ChallengeRow(c))),
     Request(2, ChallengeRow(c))]
  }

  lemma {:induction false} RunConcat(owner: ChallengeId -> UserId, s: State, a: seq<Event>, b: seq<Event>)
    ensures Run(owner, s, a + b) == Run(owner, Run(owner, s, a), b)
    decreases |a|
  {
    if a == [] {
      assert a + b == b;
    } else {
      assert (a + b)[0] == a[0] && (a + b)[1..] == a[1..] + b;
      RunConcat(owner, Next(owner, s, a[0]), a[1..], b);
    }
  }

  lemma AppendingRuns(owner: ChallengeId -> UserId, user: UserId)
    ensures Run(owner, map[], Appending(user))
         == map[0 := Tx(Appender, {ChainLock}, None), 1 := Tx(Enrollment(user), {UserRow(user)}, None)]
  {
    var a0, a1 := Tx(Appender, {}, None), Tx(Appender, {}, Some(ChainLock));
    var a2 := Tx(Appender, {ChainLock}, None);
    var b0, b1 := Tx(Enrollment(user), {}, None), Tx(Enrollment(user), {}, Some(UserRow(user)));
    var b2 := Tx(Enrollment(user), {UserRow(user)}, None);
    var s1: State := map[0 := a0];
    var s2, s3 := s1[0 := a1], s1[0 := a1][0 := a2];
    assert s3 == map[0 := a2] && a1.held + {ChainLock} == {ChainLock} && Next(owner, s2, Grant(0)) == s3;
    var s4 := s3[1 := b0];
    var s5 := s4[1 := b1];
    var s6 := s5[1 := b2];
    assert b1.held + {UserRow(user)} == {UserRow(user)} && Next(owner, s5, Grant(1)) == s6;
    RunsThrough(owner, Appending(user), [map[], s1, s2, s3, s4, s5, s6], 0);
    assert s6 == map[0 := a2, 1 := b2];
  }

  lemma QueuedRuns(owner: ChallengeId -> UserId, c: ChallengeId)
    ensures var user := owner(c);
            Run(owner, map[], Queued(user, c))
            == map[0 := Tx(Appender, {ChainLock}, None),
                   1 := Tx(Enrollment(user), {UserRow(user), ChallengeRow(c)}, Some(ChainLock)),
                   2 := Tx(Single(ChallengeRow(c)), {}, Some(ChallengeRow(c)))]
  {
    var user := owner(c);
    RunConcat(owner, map[], Appending(user), Behind(c));
    AppendingRuns(owner, user);
    var b2 := Tx(Enrollment(user), {UserRow(user)}, None);
    var b3 := b2.(waiting := Some(ChallengeRow(c)));
    var b4 := Tx(Enrollment(user), {UserRow(user), ChallengeRow(c)}, None);
    var b5 := b4.(waiting := Some(ChainLock));
    var c0 := Tx(Single(ChallengeRow(c)), {}, None);
    var c1 := c0.(waiting := Some(ChallengeRow(c)));
    var s0: State := map[0 := Tx(Appender, {ChainLock}, None), 1 := b2];
    var s1, s2 := s0[1 := b3], s0[1 := b4];
    assert b3.held + {ChallengeRow(c)} == b4.held && Next(owner, s1, Grant(1)) == s2;
    var s3 := s2[1 := b5];
    var s4 := s3[2 := c0];
    RunsThrough(owner, Behind(c), [s0, s1, s2, s3, s4, s4[2 := c1]], 0);
    assert s4[2 := c1] == map[0 := s0[0], 1 := b5, 2 := c1];
  }

  /** The bound is reached: a run in which one transaction waits for a second one,
      which waits for a third. */
  lemma TwoWaitsHappen(owner: ChallengeId -> UserId, c: ChallengeId)
    ensures Chain(Run(owner, map[], Queued(owner(c), c)), [2, 1, 0])
  {
    QueuedRuns(owner, c);
    var s := Run(owner, map[], Queued(owner(c), c));
    assert WaitsFor(s, 2, 1) && WaitsFor(s, 1, 0);
  }

  const DRAINED := [Finish(0), Grant(1), Finish(1), Grant(2)]

  /** And it comes to an end: as the transactions finish, those behind them get
      their locks. */
  lemma WaitsComeToAnEnd(owner: ChallengeId -> UserId, c: ChallengeId)
    ensures Run(owner, Run(owner, map[], Queued(owner(c), c)), DRAINED)
         == map[2 := Tx(Single(ChallengeRow(c)), {ChallengeRow(c)}, None)]
  {
    QueuedRuns(owner, c);
    var user := owner(c);
    var s := Run(owner, map[], Queued(user, c));
    var waits := Tx(Single(ChallengeRow(c)), {}, Some(ChallengeRow(c)));
    var all := Tx(Enrollment(user), {UserRow(user), ChallengeRow(c), ChainLock}, None);
    var s1: State := map[1 := s[1], 2 := waits];
    var s2: State := map[1 := all, 2 := waits];
    var s3: State := map[2 := waits];
    var s4: State := map[2 := Tx(Single(ChallengeRow(c)), {ChallengeRow(c)}, None)];
    assert Next(owner, s, Finish(0)) == s1;
    assert s1[1].held + {ChainLock} == all.held && Next(owner, s1, Grant(1)) == s2;
    assert Next(owner, s2, Finish(1)) == s3;
    assert waits.held + {ChallengeRow(c)} == {ChallengeRow(c)} && Next(owner, s3, Grant(2)) == s4;
    RunsThrough(owner, DRAINED, [s, s1, s2, s3, s4], 0);
  }
}
