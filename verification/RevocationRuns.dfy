/** Session families over time, on one replica with any number of restarts:
    logins, refresh rotations, revocations and the cache that is to report them.
    A rotation reads its row without a lock, so a revocation can commit between
    that read and the rotation's own commit. */
module RevocationRuns {
  import opened Common
  import FiniteSets
  import opened RevocationCache

  type SessionId = int
  type RotationId = int

  /** A row of the sessions table: one refresh token of its family. */
  datatype Session = Session(family: Family, revoked: bool)

  datatype Rotation = InFlight(session: SessionId, family: Family) | Over

  /** `ended` holds the families that a revocation was ever committed for. */
  datatype State = State(clock: int, sessions: map<SessionId, Session>, rotations: map<RotationId, Rotation>,
                         ended: set<Family>, cache: Cache)

  datatype Event =
    | Tick(to: int)
    | Login(session: SessionId, f: Family)
    | StartRotation(rotation: RotationId, session: SessionId)    // the unlocked read
    | FinishRotation(rotation: RotationId, successor: SessionId)     // the commit
    | AbortRotation(rotation: RotationId)
    | Revoke(f: Family)          // every row of the family that is committed
    | Mark(f: Family)            // after that commit, here or by notification
    | Check(f: Family)
    | ListenDown
    | ListenHealthy
    | Restart

  predicate Known(s: State, f: Family) {
    exists i :: i in s.sessions && s.sessions[i].family == f
  }

  /** HasLiveSession */
  predicate Live(s: State, f: Family) {
    exists i :: i in s.sessions && s.sessions[i].family == f && !s.sessions[i].revoked
  }

  function Revoked(sessions: map<SessionId, Session>, f: Family): map<SessionId, Session> {
    map i | i in sessions :: if sessions[i].family == f then Session(f, true) else sessions[i]
  }

  /** A read of a revoked row is reuse, which revokes the family instead. */
  function StartIn(s: State, r: RotationId, session: SessionId): State {
    if r in s.rotations || session !in s.sessions || s.sessions[session].revoked then s
    else s.(rotations := s.rotations[r := InFlight(session, s.sessions[session].family)])
  }

  /** The successor is inserted whether or not the row read is still live: the
      update that revokes it does not look at how many rows it changed. */
  function FinishIn(s: State, r: RotationId, successor: SessionId): State {
    if r !in s.rotations || s.rotations[r].Over? || successor in s.sessions
       || s.rotations[r].session !in s.sessions
    then s
    else
      var p := s.rotations[r];
      s.(sessions := s.sessions[p.session := Session(p.family, true)][successor := Session(p.family, false)],
         rotations := s.rotations[r := Over])
  }

  function Next(s: State, e: Event): State {
    match e
    case Tick(to) => if to >= s.clock then s.(clock := to) else s
    case Login(i, f) => if i in s.sessions || Known(s, f) then s else s.(sessions := s.sessions[i := Session(f, false)])
    case StartRotation(r, i) => StartIn(s, r, i)
    case FinishRotation(r, successor) => FinishIn(s, r, successor)
    case AbortRotation(r) => if r in s.rotations then s.(rotations := s.rotations[r := Over]) else s
    case Revoke(f) => if Known(s, f) then s.(sessions := Revoked(s.sessions, f), ended := s.ended + {f}) else s
    case Mark(f) => if f in s.ended then s.(cache := Marked(s.cache, f, s.clock)) else s
    case Check(_) => s.(cache := Checked(s.cache, s.clock))
    case ListenDown =>
      s.(cache := s.cache.(downSince := if s.cache.downSince.None? then Some(s.clock) else s.cache.downSince))
    case ListenHealthy => s.(cache := s.cache.(downSince := None))
    case Restart => s.(cache := Cache(map[], s.clock, None, s.cache.ttl))
  }

  function Run(s: State, events: seq<Event>): State
    decreases |events|
  {
    if events == [] then s else Run(Next(s, events[0]), events[1..])
  }

  function Init(clock: int, ttl: int): State {
    State(clock, map[], map[], {}, Cache(map[], clock, None, ttl))
  }

  /** What a check of `f` answers now, the sessions table working. */
  function Reports(s: State, f: Family): bool {
    Verdict(s.cache, f, s.clock, Some(Live(s, f))).value
  }

  // ---- Every run

  /** Rotations in flight read a row that is still there, of that family, and
      only ended families are in the map. */
  ghost predicate Sound(s: State) {
    && (forall r :: r in s.rotations && s.rotations[r].InFlight? ==>
          s.rotations[r].session in s.sessions && s.sessions[s.rotations[r].session].family == s.rotations[r].family)
    && (forall f :: f in s.cache.revoked ==> f in s.ended)
    && (forall f :: f in s.ended ==> Known(s, f))
  }

  lemma RowsStay(s: State, e: Event, i: SessionId)
    requires Sound(s) && i in s.sessions
    ensures i in Next(s, e).sessions && Next(s, e).sessions[i].family == s.sessions[i].family
  {}

  lemma KnownStays(s: State, e: Event, f: Family)
    requires Sound(s) && Known(s, f)
    ensures Known(Next(s, e), f)
  {
    var i :| i in s.sessions && s.sessions[i].family == f;
    RowsStay(s, e, i);
  }

  lemma StepSound(s: State, e: Event)
    requires Sound(s)
    ensures Sound(Next(s, e)) && Next(s, e).cache.ttl == s.cache.ttl && Next(s, e).clock >= s.clock
    ensures s.ended <= Next(s, e).ended
  {
    var t := Next(s, e);
    forall r | r in t.rotations && t.rotations[r].InFlight?
      ensures t.rotations[r].session in t.sessions
           && t.sessions[t.rotations[r].session].family == t.rotations[r].family
    {
      if r in s.rotations && s.rotations[r].InFlight? { RowsStay(s, e, s.rotations[r].session); }
    }
    forall f | f in t.ended ensures Known(t, f) {
      if f in s.ended || Known(s, f) { KnownStays(s, e, f); }
    }
  }

  lemma {:induction false} RunSound(s: State, events: seq<Event>)
    requires Sound(s)
    ensures Sound(Run(s, events)) && Run(s, events).cache.ttl == s.cache.ttl && Run(s, events).clock >= s.clock
    ensures s.ended <= Run(s, events).ended
    decreases |events|
  {
    if events != [] {
      StepSound(s, events[0]);
      RunSound(Next(s, events[0]), events[1..]);
    }
  }

  /** What the events so far say of this process: when it started, since when its
      listener is down, and when `f` was last marked in it. */
  datatype Story = Story(started: int, down: Option<int>, mark: Option<int>)

  function Tell(h: Story, s: State, e: Event, f: Family): Story {
    match e
    case Restart => Story(s.clock, None, None)
    case ListenDown => if h.down.None? then h.(down := Some(s.clock)) else h
    case ListenHealthy => h.(down := None)
    case Mark(g) => if g == f && f in s.ended then h.(mark := Some(s.clock)) else h
    case _ => h
  }

  function StoryOf(h: Story, s: State, events: seq<Event>, f: Family): Story
    decreases |events|
  {
    if events == [] then h else StoryOf(Tell(h, s, events[0], f), Next(s, events[0]), events[1..], f)
  }

  /** The cache's fields are as told; the map holds the mark, and gives it up only
      past its time. */
  ghost predicate AsTold(s: State, f: Family, h: Story) {
    && s.cache.startedAt == h.started && s.cache.downSince == h.down
    && (f in s.cache.revoked ==> h.mark.Some? && s.cache.revoked[f] == h.mark.value + s.cache.ttl)
    && (f !in s.cache.revoked && h.mark.Some? ==> s.clock > h.mark.value + s.cache.ttl)
  }

  lemma StepTold(s: State, e: Event, f: Family, h: Story)
    requires AsTold(s, f, h)
    ensures AsTold(Next(s, e), f, Tell(h, s, e, f))
  {}

  lemma {:induction false} RunTold(s: State, events: seq<Event>, f: Family, h: Story)
    requires AsTold(s, f, h)
    ensures AsTold(Run(s, events), f, StoryOf(h, s, events, f))
    decreases |events|
  {
    if events != [] {
      StepTold(s, events[0], f, h);
      RunTold(Next(s, events[0]), events[1..], f, Tell(h, s, events[0], f));
    }
  }

  /** In every run, rotations and all: while the process is younger than one
      lifetime, or its listener has been down for longer than one, a check reports
      exactly the families without a live row; any other check exactly those
      marked in this process within the last lifetime, live or not. */
  lemma ReportedIff(clock: int, ttl: int, events: seq<Event>, f: Family)
    ensures var s, h := Run(Init(clock, ttl), events), StoryOf(Story(clock, None, None), Init(clock, ttl), events, f);
            var outage := if h.down.Some? then s.clock - h.down.value else 0;
            Reports(s, f) <==> if s.clock - h.started < ttl || outage > ttl then !Live(s, f)
                               else h.mark.Some? && s.clock <= h.mark.value + ttl
  {
    RunSound(Init(clock, ttl), events);
    RunTold(Init(clock, ttl), events, f, Story(clock, None, None));
  }

  /** A rotation that commits spends the row it read, whatever became of that row,
      and its successor is the one row it makes live. */
  lemma RotationSpends(s: State, r: RotationId, successor: SessionId)
    requires Sound(s) && r in s.rotations && s.rotations[r].InFlight? && successor !in s.sessions
    ensures var t, p := Next(s, FinishRotation(r, successor)), s.rotations[r];
            && t.sessions.Keys == s.sessions.Keys + {successor}
            && t.sessions[p.session] == Session(p.family, true) && t.sessions[successor] == Session(p.family, false)
            && forall i :: i in s.sessions && i != p.session ==> t.sessions[i] == s.sessions[i]
  {}

  lemma {:induction false} OverStaysOver(s: State, events: seq<Event>, r: RotationId)
    requires r in s.rotations && s.rotations[r].Over?
    ensures r in Run(s, events).rotations && Run(s, events).rotations[r].Over?
    decreases |events|
  {
    if events != [] {
      assert r in Next(s, events[0]).rotations && Next(s, events[0]).rotations[r].Over?;
      OverStaysOver(Next(s, events[0]), events[1..], r);
    }
  }

  /** A rotation that was rolled back writes nothing then and nothing ever after. */
  lemma AbortedNeverCommits(s: State, r: RotationId, events: seq<Event>, successor: SessionId)
    requires r in s.rotations
    ensures var t := Next(s, AbortRotation(r));
            var u := Run(t, events);
            t.sessions == s.sessions && Next(u, FinishRotation(r, successor)) == u
  {
    OverStaysOver(Next(s, AbortRotation(r)), events, r);
  }

  lemma StepStaysSpent(s: State, e: Event, i: SessionId)
    requires Sound(s) && i in s.sessions && s.sessions[i].revoked
    ensures i in Next(s, e).sessions && Next(s, e).sessions[i].revoked
  {}

  /** A spent or revoked row stays so in every continuation, and no rotation starts
      from it any more: a refresh token is good for one rotation. */
  lemma {:induction false} SpentStaysSpent(s: State, events: seq<Event>, i: SessionId, r: RotationId)
    requires Sound(s) && i in s.sessions && s.sessions[i].revoked
    ensures var t := Run(s, events);
            i in t.sessions && t.sessions[i].revoked && Next(t, StartRotation(r, i)) == t
    decreases |events|
  {
    if events != [] {
      StepSound(s, events[0]);
      StepStaysSpent(s, events[0], i);
      SpentStaysSpent(Next(s, events[0]), events[1..], i, r);
    }
  }

  /** A family that was never revoked is reported only if it has no row. */
  lemma LiveNeverReported(clock: int, ttl: int, events: seq<Event>, f: Family)
    ensures var s := Run(Init(clock, ttl), events);
            f !in s.ended && Live(s, f) ==> !Reports(s, f)
  {
    RunSound(Init(clock, ttl), events);
  }

  // ---- After a revocation

  ghost predicate Flies(s: State, r: RotationId, f: Family) {
    r in s.rotations && s.rotations[r].InFlight? && s.rotations[r].family == f
  }

  /** The rotations of `f` that have read their row and not ended. */
  ghost function Flying(s: State, f: Family): set<RotationId> {
    set r | r in s.rotations && Flies(s, r, f)
  }

  /** Known, and without a live row. */
  ghost predicate Dead(s: State, f: Family) {
    Known(s, f) && !Live(s, f)
  }

  /** A rotation of `f` commits. */
  ghost predicate Brings(s: State, e: Event, f: Family) {
    e.FinishRotation? && Flies(s, e.rotation, f) && e.successor !in s.sessions
  }

  /** One of the rotations `flying` commits somewhere along the run. */
  ghost predicate LateCommit(flying: set<RotationId>, s: State, events: seq<Event>, f: Family)
    decreases |events|
  {
    && events != []
    && (|| (Brings(s, events[0], f) && events[0].rotation in flying)
        || LateCommit(flying, Next(s, events[0]), events[1..], f))
  }

  ghost predicate DeadThroughout(s: State, events: seq<Event>, f: Family)
    decreases |events|
  {
    Dead(s, f) && (events == [] || DeadThroughout(Next(s, events[0]), events[1..], f))
  }

  lemma RevokeKills(s: State, f: Family)
    requires Sound(s) && Known(s, f)
    ensures var t := Next(s, Revoke(f)); Dead(t, f) && f in t.ended && Flying(t, f) == Flying(s, f)
    ensures var t := Next(s, Revoke(f));
            t.sessions.Keys == s.sessions.Keys && t.rotations == s.rotations
            && forall i :: i in s.sessions && s.sessions[i].family != f ==> t.sessions[i] == s.sessions[i]
  {
    KnownStays(s, Revoke(f), f);
    var t := Next(s, Revoke(f));
    assert forall r :: Flies(t, r, f) <==> Flies(s, r, f);
  }

  lemma BroughtBack(s: State, e: Event, f: Family)
    requires Sound(s) && Brings(s, e, f)
    ensures Live(Next(s, e), f)
  {
    var t := Next(s, e);
    assert e.successor in t.sessions && t.sessions[e.successor] == Session(f, false);
  }

  /** Nothing but such a commit makes a dead family live, and no rotation of a
      dead family starts. */
  lemma StaysDead(s: State, e: Event, f: Family)
    requires Sound(s) && Dead(s, f) && !Brings(s, e, f)
    ensures Dead(Next(s, e), f) && Flying(Next(s, e), f) <= Flying(s, f)
  {
    KnownStays(s, e, f);
    var t := Next(s, e);
    forall i | i in t.sessions && t.sessions[i].family == f ensures t.sessions[i].revoked {
      if i in s.sessions { RowsStay(s, e, i); }
    }
  }

  lemma {:induction false} DeadUnlessLate(s: State, events: seq<Event>, f: Family, flying: set<RotationId>)
    requires Sound(s) && Dead(s, f) && Flying(s, f) <= flying
    ensures DeadThroughout(s, events, f) <==> !LateCommit(flying, s, events, f)
    decreases |events|
  {
    if events != [] {
      StepSound(s, events[0]);
      if Brings(s, events[0], f) {
        BroughtBack(s, events[0], f);
        assert events[0].rotation in Flying(s, f);
      } else {
        StaysDead(s, events[0], f);
        DeadUnlessLate(Next(s, events[0]), events[1..], f, flying);
      }
    }
  }

  /** A revoked family stays without a live row at every later moment exactly
      when no rotation that was in flight at the revocation commits after it. */
  lemma DeadIffNoneCommitsLate(clock: int, ttl: int, past: seq<Event>, f: Family, future: seq<Event>)
    requires Known(Run(Init(clock, ttl), past), f)
    ensures var s := Run(Init(clock, ttl), past);
            DeadThroughout(Next(s, Revoke(f)), future, f)
            <==> !LateCommit(Flying(s, f), Next(s, Revoke(f)), future, f)
  {
    var s := Run(Init(clock, ttl), past);
    RunSound(Init(clock, ttl), past);
    RevokeKills(s, f);
    StepSound(s, Revoke(f));
    DeadUnlessLate(Next(s, Revoke(f)), future, f, Flying(s, f));
  }

  // ---- The report while older tokens live

  /** Still in the map until its time is up, unless the process restarted since
      it was marked. */
  ghost predicate Remembered(s: State, f: Family, markedAt: int) {
    && markedAt <= s.clock
    && (|| s.cache.startedAt >= markedAt
        || (f in s.cache.revoked && s.cache.revoked[f] >= markedAt + s.cache.ttl)
        || s.clock > markedAt + s.cache.ttl)
  }

  lemma StepRemembers(s: State, e: Event, f: Family, markedAt: int)
    requires Remembered(s, f, markedAt)
    ensures Remembered(Next(s, e), f, markedAt)
  {}

  lemma {:induction false} RunRemembers(s: State, events: seq<Event>, f: Family, markedAt: int)
    requires Remembered(s, f, markedAt)
    ensures Remembered(Run(s, events), f, markedAt)
    decreases |events|
  {
    if events != [] {
      StepRemembers(s, events[0], f, markedAt);
      RunRemembers(Next(s, events[0]), events[1..], f, markedAt);
    }
  }

  lemma {:induction false} DeadAtTheEnd(s: State, events: seq<Event>, f: Family)
    requires DeadThroughout(s, events, f)
    ensures Dead(Run(s, events), f)
    decreases |events|
  {
    if events != [] { DeadAtTheEnd(Next(s, events[0]), events[1..], f); }
  }

  lemma RememberedIsReported(s: State, f: Family, markedAt: int)
    requires Dead(s, f) && Remembered(s, f, markedAt) && s.clock < markedAt + s.cache.ttl
    ensures Reports(s, f)
  {}

  /** A family dead at its mark is reported at the end of every run that stays
      within the lifetime of an older token, through prunes, outages and
      restarts, unless a rotation in flight at the mark commits in it. */
  lemma RevokedWhileTokensLive(clock: int, ttl: int, past: seq<Event>, f: Family, future: seq<Event>, issued: int)
    requires var s := Run(Init(clock, ttl), past);
             && f in s.ended && !Live(s, f) && issued <= s.clock
             && Run(Next(s, Mark(f)), future).clock < issued + ttl
             && !LateCommit(Flying(s, f), Next(s, Mark(f)), future, f)
    ensures Reports(Run(Next(Run(Init(clock, ttl), past), Mark(f)), future), f)
  {
    RunSound(Init(clock, ttl), past);
    ReportedFrom(Run(Init(clock, ttl), past), Mark(f), f, future);
  }

  /** From a mark or a restart on. */
  lemma ReportedFrom(s: State, e: Event, f: Family, future: seq<Event>)
    requires Sound(s) && f in s.ended && !Live(s, f) && (e == Mark(f) || e == Restart)
    requires Run(Next(s, e), future).clock < s.clock + s.cache.ttl
    requires !LateCommit(Flying(s, f), Next(s, e), future, f)
    ensures Reports(Run(Next(s, e), future), f)
  {
    var t := Next(s, e);
    StepSound(s, e);
    StaysDead(s, e, f);
    DeadUnlessLate(t, future, f, Flying(s, f));
    DeadAtTheEnd(t, future, f);
    RunSound(t, future);
    RunRemembers(t, future, f, s.clock);
    RememberedIsReported(Run(t, future), f, s.clock);
  }

  /** The same after a restart in place of the mark: the checks of a young
      process ask the sessions table until every older token has run out. */
  lemma RestartCoversTheMark(clock: int, ttl: int, past: seq<Event>, f: Family, future: seq<Event>, issued: int)
    requires var s := Run(Init(clock, ttl), past);
             && f in s.ended && !Live(s, f) && issued <= s.clock
             && Run(Next(s, Restart), future).clock < issued + ttl
             && !LateCommit(Flying(s, f), Next(s, Restart), future, f)
    ensures Reports(Run(Next(Run(Init(clock, ttl), past), Restart), future), f)
  {
    RunSound(Init(clock, ttl), past);
    ReportedFrom(Run(Init(clock, ttl), past), Restart, f, future);
  }

  // ---- Exactly when the report is safe

  /** Whatever happens next, while a token issued by now is within its lifetime. */
  ghost predicate AlwaysReported(t: State, f: Family, until: int) {
    forall future :: Run(t, future).clock < until ==> Reports(Run(t, future), f)
  }

  lemma {:induction false} Fresh(ids: set<SessionId>) returns (i: SessionId)
    ensures forall j :: j in ids ==> j < i
    decreases |ids|
  {
    if ids == {} {
      i := 0;
    } else {
      var x := FiniteSets.Pick(ids);
      var above := Fresh(ids - {x});
      i := if above > x then above else x + 1;
      forall j | j in ids ensures j < i {
        if j != x { assert j in ids - {x}; }
      }
    }
  }

  lemma {:induction false} NoneFlyingNoneLate(s: State, events: seq<Event>, f: Family)
    ensures !LateCommit({}, s, events, f)
    decreases |events|
  {
    if events != [] { NoneFlyingNoneLate(Next(s, events[0]), events[1..], f); }
  }

  lemma SafeIsReported(s: State, e: Event, f: Family)
    requires Sound(s) && f in s.ended && !Live(s, f) && Flying(s, f) == {} && (e == Mark(f) || e == Restart)
    ensures AlwaysReported(Next(s, e), f, s.clock + s.cache.ttl)
  {
    forall future | Run(Next(s, e), future).clock < s.clock + s.cache.ttl ensures Reports(Run(Next(s, e), future), f) {
      NoneFlyingNoneLate(Next(s, e), future, f);
      ReportedFrom(s, e, f, future);
    }
  }

  /** The first check of a young process answers by the table. */
  lemma RestartForgets(s: State, f: Family)
    requires Live(s, f) && s.cache.ttl > 0
    ensures !Reports(Next(s, Restart), f) && Next(s, Restart).clock == s.clock
  {}

  lemma CommitBrings(s: State, f: Family, r: RotationId) returns (successor: SessionId)
    requires Sound(s) && Flies(s, r, f)
    ensures var t := Next(s, FinishRotation(r, successor)); Live(t, f) && t.clock == s.clock && t.cache == s.cache
  {
    successor := Fresh(s.sessions.Keys);
    BroughtBack(s, FinishRotation(r, successor), f);
  }

  lemma RunOne(s: State, e: Event)
    ensures Run(s, [e]) == Next(s, e)
  {}

  lemma RunTwo(s: State, a: Event, b: Event)
    ensures Run(s, [a, b]) == Next(Next(s, a), b)
  {
    assert [a, b][1..] == [b];
    RunOne(Next(s, a), b);
  }

  /** Live or about to be: then some continuation goes unreported at once. */
  lemma UnsafeGoesUnreported(s: State, e: Event, f: Family) returns (future: seq<Event>)
    requires Sound(s) && s.cache.ttl > 0 && f in s.ended && (Live(s, f) || Flying(s, f) != {})
    requires e == Mark(f) || e == Restart
    ensures Run(Next(s, e), future).clock == s.clock && !Reports(Run(Next(s, e), future), f)
  {
    var t := Next(s, e);
    StepSound(s, e);
    if Live(s, f) {
      future := [Restart];
      RunOne(t, Restart);
      RestartForgets(t, f);
    } else {
      var r := FiniteSets.Pick(Flying(s, f));
      var successor := CommitBrings(t, f, r);
      future := [FinishRotation(r, successor), Restart];
      RunTwo(t, FinishRotation(r, successor), Restart);
      RestartForgets(Next(t, FinishRotation(r, successor)), f);
    }
  }

  /** The mark, and as well a restart instead of it, holds through every
      continuation, for as long as a token issued by then is within its lifetime,
      exactly when the family has no live row and no rotation in flight then. */
  lemma SafeIffNoneInFlight(clock: int, ttl: int, past: seq<Event>, f: Family)
    requires ttl > 0 && f in Run(Init(clock, ttl), past).ended
    ensures var s := Run(Init(clock, ttl), past);
            var safe := !Live(s, f) && Flying(s, f) == {};
            && (AlwaysReported(Next(s, Mark(f)), f, s.clock + ttl) <==> safe)
            && (AlwaysReported(Next(s, Restart), f, s.clock + ttl) <==> safe)
  {
    var s := Run(Init(clock, ttl), past);
    RunSound(Init(clock, ttl), past);
    if !Live(s, f) && Flying(s, f) == {} {
      SafeIsReported(s, Mark(f), f);
      SafeIsReported(s, Restart, f);
    } else {
      var marked := UnsafeGoesUnreported(s, Mark(f), f);
      var restarted := UnsafeGoesUnreported(s, Restart, f);
    }
  }

  // ---- Runs

  lemma RunVia(s: State, es: seq<Event>, n: nat, t: State)
    requires n < |es| && Next(s, es[n]) == t
    ensures Run(s, es[n..]) == Run(t, es[n + 1..])
  {
    assert es[n..][1..] == es[n + 1..];
  }

  lemma {:induction false} RunsThrough(es: seq<Event>, states: seq<State>, n: nat)
    requires |states| == |es| + 1 && n <= |es|
    requires forall i :: 0 <= i < |es| ==> Next(states[i], es[i]) == states[i + 1]
    ensures Run(states[n], es[n..]) == states[|es|]
    decreases |es| - n
  {
    if n < |es| {
      RunVia(states[n], es, n, states[n + 1]);
      RunsThrough(es, states, n + 1);
    }
  }

  /** A refresh reads its row; a logout revokes the family and marks it; then the
      refresh commits. */
  function LateRefresh(ttl: int): seq<Event> {
    [Login(10, 1), Tick(ttl), StartRotation(7, 10), Revoke(1), Mark(1), FinishRotation(7, 11)]
  }

  /** Where that run leads. */
  function Returned(ttl: int): State {
    State(ttl, map[10 := Session(1, true), 11 := Session(1, false)], map[7 := Over], {1},
          Cache(map[1 := ttl + ttl], 0, None, ttl))
  }

  lemma LateRefreshRuns(ttl: int)
    requires ttl > 0
    ensures Run(Init(0, ttl), LateRefresh(ttl)) == Returned(ttl)
  {
    var es := LateRefresh(ttl);
    var young := Cache(map[], 0, None, ttl);
    var s1 := State(0, map[10 := Session(1, false)], map[], {}, young);
    var s2 := s1.(clock := ttl);
    var s3 := s2.(rotations := map[7 := InFlight(10, 1)]);
    assert Known(s3, 1) by { assert s3.sessions[10].family == 1; }
    var s4 := s3.(sessions := map[10 := Session(1, true)], ended := {1});
    assert Next(s3, Revoke(1)).sessions == s4.sessions;
    var s5 := s4.(cache := young.(revoked := map[1 := ttl + ttl]));
    assert Next(s5, FinishRotation(7, 11)).sessions == Returned(ttl).sessions;
    assert Next(s5, FinishRotation(7, 11)).rotations == Returned(ttl).rotations;
    RunsThrough(es, [Init(0, ttl), s1, s2, s3, s4, s5, Returned(ttl)], 0);
  }

  /** A family with a live row is reported: the revocation outlived itself in the
      map and not in the table. */
  lemma LiveFamilyIsReported(ttl: int)
    requires ttl > 0
    ensures var s := Run(Init(0, ttl), LateRefresh(ttl)); Live(s, 1) && Reports(s, 1)
  {
    LateRefreshRuns(ttl);
    assert Returned(ttl).sessions[11] == Session(1, false);
  }

  /** And after a restart the marked family is not reported, although a token
      issued before the revocation, at `ttl`, is still within its lifetime. */
  lemma RestartForgetsTheMark(ttl: int)
    requires ttl > 0
    ensures var s := Run(Next(Run(Init(0, ttl), LateRefresh(ttl)), Restart), []);
            1 in s.ended && s.clock < ttl + ttl && !Reports(s, 1)
  {
    LateRefreshRuns(ttl);
    assert Returned(ttl).sessions[11] == Session(1, false);
    RestartForgets(Returned(ttl), 1);
  }

  /** A family that was revoked without any rotation in flight. */
  function Gone(clock: int, ttl: int): State {
    State(clock, map[10 := Session(1, true)], map[], {1}, Cache(map[], 0, None, ttl))
  }

  lemma RevokedRuns(clock: int, ttl: int)
    requires clock >= 0
    ensures Run(Init(0, ttl), [Login(10, 1), Tick(clock), Revoke(1)]) == Gone(clock, ttl)
    ensures !Live(Gone(clock, ttl), 1)
  {
    var es := [Login(10, 1), Tick(clock), Revoke(1)];
    var s1 := State(0, map[10 := Session(1, false)], map[], {}, Cache(map[], 0, None, ttl));
    var s2 := s1.(clock := clock);
    assert Known(s2, 1) by { assert s2.sessions[10].family == 1; }
    assert Next(s2, Revoke(1)).sessions == Gone(clock, ttl).sessions;
    RunsThrough(es, [Init(0, ttl), s1, s2, Gone(clock, ttl)], 0);
  }

  /** A mark that never comes is noticed: outside the degraded times a family
      revoked an instant after a token was issued goes unreported. */
  lemma UnmarkedGoesUnreported(ttl: int)
    requires ttl > 0
    ensures var s := Run(Init(0, ttl), [Login(10, 1), Tick(ttl), Revoke(1)]);
            1 in s.ended && !Live(s, 1) && s.clock < ttl + ttl && !Reports(s, 1)
  {
    RevokedRuns(ttl, ttl);
  }

  /** The lifetime bound is tight: a restart in the very instant of the mark
      forgets it, and one lifetime later the cache is trusted without it. */
  lemma LifetimeIsExact(ttl: int)
    requires ttl > 0
    ensures var s := Run(Init(0, ttl), [Login(10, 1), Tick(0), Revoke(1)]);
            var u := Run(Next(s, Mark(1)), [Restart, Tick(ttl)]);
            1 in s.ended && !Live(s, 1) && u.clock == s.clock + ttl && !Reports(u, 1)
  {
    RevokedRuns(0, ttl);
    RunTwo(Next(Gone(0, ttl), Mark(1)), Restart, Tick(ttl));
  }
}
