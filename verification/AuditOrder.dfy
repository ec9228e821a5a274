/** When ids do not ascend: exactly which tables the verifier accepts. */
module AuditOrder {
  import opened Common
  import opened AuditEncoding
  import opened AuditChain
  import opened AuditAppend

  /** The table as a reader gets it: ORDER BY created_at, id. */
  ghost predicate Ordered(rows: seq<Row>, out: seq<Row>) {
    Ascending(out) && forall r :: r in out <==> r in rows
  }

  ghost predicate SameKey(r: Row, q: Row) {
    r.createdAt == q.createdAt && r.id == q.id
  }

  /** The primary key is (created_at, id). */
  ghost predicate DistinctKeys(rows: seq<Row>) {
    forall i, j :: 0 <= i < j < |rows| ==> !SameKey(rows[i], rows[j])
  }

  /** What comparing hashes needs: 32-byte digests that are never the genesis
      value, and fields within their length prefixes that do not collide. */
  ghost predicate Sealed(env: Env, rows: seq<Row>) {
    && env.printer.Faithful() && DistinctKeys(rows) && AllBounded(env, rows) && NoCollision(env, rows, rows)
    && (forall s :: env.sha(s) != GENESIS)
  }

  /** In insertion order each row hangs off the head its writer saw, at a time
      no earlier than that head's. */
  ghost predicate GrownAt(env: Env, rows: seq<Row>, i: nat)
    requires i < |rows|
  {
    && HashOk(env, rows[i]) && rows[i].prevHash == PrevHash(rows[..i])
    && (i > 0 ==> Head(rows[..i]).createdAt <= rows[i].createdAt)
  }

  ghost predicate Grown(env: Env, rows: seq<Row>) {
    forall i: nat :: i < |rows| ==> GrownAt(env, rows, i)
  }

  lemma GrowsByNewRow(env: Env, rows: seq<Row>, e: Entry, id: int, now: int)
    requires Grown(env, rows) && env.printer.KeepsJson()
    ensures Grown(env, rows + [NewRow(env, rows, e, id, now)])
  {
    var r := NewRow(env, rows, e, id, now);
    var all := rows + [r];
    StoredKeepsFields(env.printer, id, r.createdAt, e);
    forall i: nat | i < |all| ensures GrownAt(env, all, i) {
      if i < |rows| {
        assert GrownAt(env, rows, i) && all[..i] == rows[..i];
      } else {
        assert all[..i] == rows;
      }
    }
  }

  lemma GrownPrefix(env: Env, rows: seq<Row>, more: seq<Row>)
    requires Grown(env, rows + more)
    ensures Grown(env, rows)
  {
    var all := rows + more;
    forall i: nat | i < |rows| ensures GrownAt(env, rows, i) {
      assert GrownAt(env, all, i) && all[..i] == rows[..i];
    }
  }

  ghost predicate GrownLog(env: Env, s: Log) {
    Grown(env, s.committed + s.pending) && (s.holder.None? ==> s.pending == [])
  }

  lemma GrownStep(env: Env, s: Log, ev: Event)
    requires GrownLog(env, s) && env.printer.KeepsJson()
    ensures GrownLog(env, Next(env, s, ev))
  {
    var visible := s.committed + s.pending;
    match ev
    case Append(tx, e, id, now) =>
      GrowsByNewRow(env, visible, e, id, now);
      assert s.committed + (s.pending + [NewRow(env, visible, e, id, now)])
          == visible + [NewRow(env, visible, e, id, now)];
    case Commit(tx) =>
      assert visible + [] == visible;
    case Abort(tx) =>
      GrownPrefix(env, s.committed, s.pending);
      assert s.committed + [] == s.committed;
  }

  lemma {:induction false} GrownRun(env: Env, s: Log, events: seq<Event>)
    requires GrownLog(env, s) && env.printer.KeepsJson()
    ensures GrownLog(env, Run(env, s, events))
    decreases |events|
  {
    if events != [] {
      GrownStep(env, s, events[0]);
      GrownRun(env, Next(env, s, events[0]), events[1..]);
    }
  }

  /** The head comes after every other row. */
  lemma {:induction false} HeadIsTop(rows: seq<Row>, q: Row)
    requires q in rows
    ensures Head(rows) in rows && !Before(Head(rows), q)
  {
    if |rows| > 1 {
      HeadIsTop(rows[1..], rows[1]);
      if q in rows[1..] { HeadIsTop(rows[1..], q); }
    }
  }

  lemma HashesDiffer(env: Env, rows: seq<Row>, i: nat, j: nat)
    requires Grown(env, rows) && Sealed(env, rows) && i < |rows| && j < |rows| && i != j
    ensures rows[i].hash != rows[j].hash
  {
    var r, q := rows[i], rows[j];
    assert GrownAt(env, rows, i) && GrownAt(env, rows, j) && r in rows && q in rows;
    PrevHashSized(env, rows, i);
    PrevHashSized(env, rows, j);
    if r.hash == q.hash {
      SameStreamIffSameEntry(env.printer, r.prevHash, r.id, r.createdAt, r.entry,
                             q.prevHash, q.id, q.createdAt, q.entry);
    }
  }

  lemma PrevHashSized(env: Env, rows: seq<Row>, i: nat)
    requires Grown(env, rows) && Sealed(env, rows) && i < |rows|
    ensures |rows[i].prevHash| == HASH_SIZE
  {
    assert GrownAt(env, rows, i);
    if i > 0 {
      HeadIsTop(rows[..i], rows[0]);
      var k :| 0 <= k < i && rows[k] == Head(rows[..i]);
      assert GrownAt(env, rows, k);
    }
  }

  lemma AscendingByLast(rows: seq<Row>)
    requires rows != [] && Ascending(rows[..|rows| - 1])
    requires |rows| > 1 ==> Before(rows[|rows| - 2], rows[|rows| - 1])
    ensures Ascending(rows)
  {
    AscendingSnoc(rows[..|rows| - 1], rows[|rows| - 1]);
    assert rows[..|rows| - 1] + [rows[|rows| - 1]] == rows;
  }

  /** Out of order: the first row that does not come after its predecessor. */
  lemma {:induction false} FirstMisplaced(rows: seq<Row>) returns (i: nat)
    requires !Ascending(rows)
    ensures 0 < i < |rows| && Ascending(rows[..i]) && !Before(rows[i - 1], rows[i])
    decreases |rows|
  {
    var n := |rows| - 1;
    if Ascending(rows[..n]) {
      i := n;
      if n == 0 || Before(rows[n - 1], rows[n]) { AscendingByLast(rows); }
    } else {
      i := FirstMisplaced(rows[..n]);
      assert rows[..n][..i] == rows[..i];
    }
  }

  /** A misplaced row stands on its head's timestamp with a smaller id. */
  lemma MisplacedIsBeforeHead(env: Env, rows: seq<Row>, i: nat)
    requires Grown(env, rows) && DistinctKeys(rows)
    requires 0 < i < |rows| && Ascending(rows[..i]) && !Before(rows[i - 1], rows[i])
    ensures Before(rows[i], rows[i - 1])
  {
    HeadIsLast(rows[..i]);
    assert GrownAt(env, rows, i);
  }

  /** No row ever hangs off a row that an earlier row sorts behind. */
  lemma NeverFollowed(env: Env, rows: seq<Row>, i: nat, m: nat)
    requires Grown(env, rows) && Sealed(env, rows)
    requires 0 < i < |rows| && m < |rows| && Before(rows[i], rows[i - 1])
    ensures rows[m].prevHash != rows[i].hash
  {
    assert GrownAt(env, rows, m) && GrownAt(env, rows, i);
    if m > 0 {
      HeadIsTop(rows[..m], rows[0]);
      var k :| 0 <= k < m && rows[k] == Head(rows[..m]);
      if k == i {
        assert rows[i - 1] in rows[..m];
        HeadIsTop(rows[..m], rows[i - 1]);
      } else {
        HashesDiffer(env, rows, k, i);
      }
    }
  }

  lemma RowAfter(out: seq<Row>, r: Row, h: Row) returns (k: nat)
    requires Ascending(out) && r in out && h in out && Before(r, h)
    ensures k + 1 < |out| && out[k] == r
  {
    k :| 0 <= k < |out| && out[k] == r;
    var l :| 0 <= l < |out| && out[l] == h;
    assert k < l;
  }

  lemma MisplacedIsRejected(env: Env, rows: seq<Row>, i: nat, out: seq<Row>)
    requires Grown(env, rows) && Sealed(env, rows) && Ordered(rows, out)
    requires 0 < i < |rows| && Before(rows[i], rows[i - 1])
    ensures !Accepted(env, out)
  {
    var r, h := rows[i], rows[i - 1];
    assert r in out && h in out;
    var k := RowAfter(out, r, h);
    assert out[k + 1] in out;
    var m :| 0 <= m < |rows| && rows[m] == out[k + 1];
    NeverFollowed(env, rows, i, m);
    assert !Sound(env, out, k + 1);
  }

  lemma InOrderIsChain(env: Env, rows: seq<Row>)
    requires Grown(env, rows) && Ascending(rows)
    ensures Chain(env, rows)
  {
    forall i: nat | i < |rows| ensures Sound(env, rows, i) {
      assert GrownAt(env, rows, i);
      if i > 0 { HeadIsLast(rows[..i]); }
    }
    if rows != [] { assert GrownAt(env, rows, 0); }
  }

  lemma GrownVerifiesIffInOrder(env: Env, rows: seq<Row>, out: seq<Row>)
    requires Grown(env, rows) && Sealed(env, rows) && Ordered(rows, out)
    ensures Accepted(env, out) <==> Ascending(rows)
  {
    if Ascending(rows) {
      AscendingUnique(out, rows);
      InOrderIsChain(env, rows);
    } else {
      var i := FirstMisplaced(rows);
      MisplacedIsBeforeHead(env, rows, i);
      MisplacedIsRejected(env, rows, i, out);
    }
  }

  /** Rows with distinct keys do have such an order. */
  lemma {:induction false} OrderExists(rows: seq<Row>) returns (out: seq<Row>)
    requires DistinctKeys(rows)
    ensures Ordered(rows, out)
    decreases |rows|
  {
    if rows == [] {
      out := [];
    } else {
      var rest := OrderExists(rows[1..]);
      assert rows == [rows[0]] + rows[1..];
      assert forall q :: q in rest ==> q in rows[1..];
      out := InsertInOrder(rest, rows[0]);
    }
  }

  lemma InsertInOrder(rows: seq<Row>, r: Row) returns (out: seq<Row>)
    requires Ascending(rows) && forall q :: q in rows ==> !SameKey(q, r)
    ensures Ascending(out) && forall q :: q in out <==> q in rows || q == r
  {
    var k := 0;
    while k < |rows| && Before(rows[k], r)
      invariant k <= |rows| && forall i :: 0 <= i < k ==> Before(rows[i], r)
    {
      k := k + 1;
    }
    forall i | k <= i < |rows| ensures Before(r, rows[i]) {
      assert rows[k] in rows;
      if i > k { assert Before(rows[k], rows[i]); }
    }
    out := rows[..k] + [r] + rows[k..];
  }

  // ---- Main results

  /** `out` is what the one read of the whole table returns. */
  ghost predicate IsRead(rows: seq<Row>, out: seq<Row>) {
    Ordered(rows, out) && forall o :: Ordered(rows, o) ==> o == out
  }

  /** After any events at all, whatever the ids and the clock: the verifier
      accepts the table exactly when (created_at, id) order is insertion order. */
  lemma VerifiesIffInOrder(env: Env, events: seq<Event>) returns (out: seq<Row>)
    requires env.printer.KeepsJson() && Sealed(env, Run(env, EMPTY, events).committed)
    ensures IsRead(Run(env, EMPTY, events).committed, out)
    ensures Accepted(env, out) <==> Ascending(Run(env, EMPTY, events).committed)
  {
    var s := Run(env, EMPTY, events);
    assert GrownLog(env, EMPTY);
    GrownRun(env, EMPTY, events);
    GrownPrefix(env, s.committed, s.pending);
    out := OrderExists(s.committed);
    forall o | Ordered(s.committed, o) ensures o == out { AscendingUnique(o, out); }
    GrownVerifiesIffInOrder(env, s.committed, out);
  }

  /** The appended row comes last exactly when its timestamp moved on or its id
      exceeds the head's. */
  lemma NewRowLeadsIffIdAscends(env: Env, rows: seq<Row>, e: Entry, id: int, now: int)
    requires rows != [] && Ascending(rows)
    ensures var r := NewRow(env, rows, e, id, now);
            Ascending(rows + [r]) <==> (CreatedAt(rows, now) == Head(rows).createdAt ==> id > Head(rows).id)
  {
    HeadIsLast(rows);
    var r := NewRow(env, rows, e, id, now);
    if CreatedAt(rows, now) == Head(rows).createdAt ==> id > Head(rows).id {
      AscendingSnoc(rows, r);
    } else {
      var all, n := rows + [r], |rows|;
      assert !Before(all[n - 1], all[n]);
    }
  }

  function AppendAndCommit(tx: TxId, e: Entry, id: int, now: int): seq<Event> {
    [Append(tx, e, id, now), Commit(tx)]
  }

  lemma CommitsOneRow(env: Env, rows: seq<Row>, tx: TxId, e: Entry, id: int, now: int, rest: seq<Event>)
    ensures Run(env, Log(rows, [], None), AppendAndCommit(tx, e, id, now) + rest)
         == Run(env, Log(rows + [NewRow(env, rows, e, id, now)], [], None), rest)
  {
    var s := Log(rows, [], None);
    var events := AppendAndCommit(tx, e, id, now) + rest;
    assert rows + [] == rows;
    var r := NewRow(env, rows, e, id, now);
    var held := Next(env, s, events[0]);
    assert held == Log(rows, [r], Some(tx));
    assert events[1..][0] == Commit(tx) && events[1..][1..] == rest;
    assert Run(env, held, events[1..]) == Run(env, Next(env, held, Commit(tx)), rest);
  }

  lemma {:induction false} RunThen(env: Env, s: Log, events: seq<Event>, more: seq<Event>)
    ensures Run(env, s, events + more) == Run(env, Run(env, s, events), more)
    decreases |events|
  {
    if events == [] {
      assert events + more == more;
    } else {
      assert (events + more)[1..] == events[1..] + more;
      RunThen(env, Next(env, s, events[0]), events[1..], more);
    }
  }

  /** One more commit on a table that verifies: it still verifies exactly when,
      on the head's timestamp, the new id exceeds the head's. Clamping
      created_at is not enough. */
  lemma AppendVerifiesIffIdAscends(env: Env, events: seq<Event>, tx: TxId, e: Entry, id: int, now: int)
    returns (out: seq<Row>)
    requires var s := Run(env, EMPTY, events); s.holder.None? && s.committed != [] && Ascending(s.committed)
    requires Sealed(env, Run(env, EMPTY, events + AppendAndCommit(tx, e, id, now)).committed)
    requires env.printer.KeepsJson()
    ensures IsRead(Run(env, EMPTY, events + AppendAndCommit(tx, e, id, now)).committed, out)
    ensures var head, at := Head(Run(env, EMPTY, events).committed), CreatedAt(Run(env, EMPTY, events).committed, now);
            Accepted(env, out) <==> (at == head.createdAt ==> id > head.id)
  {
    var s := Run(env, EMPTY, events);
    assert GrownLog(env, EMPTY);
    GrownRun(env, EMPTY, events);
    RunThen(env, EMPTY, events, AppendAndCommit(tx, e, id, now));
    assert AppendAndCommit(tx, e, id, now) + [] == AppendAndCommit(tx, e, id, now);
    CommitsOneRow(env, s.committed, tx, e, id, now, []);
    NewRowLeadsIffIdAscends(env, s.committed, e, id, now);
    out := VerifiesIffInOrder(env, events + AppendAndCommit(tx, e, id, now));
  }

  // ---- The clamp does not repair ids

  lemma CommitsTwoRows(env: Env, e: Entry, id1: int, now1: int, id2: int, now2: int)
    ensures var r := NewRow(env, [], e, id1, now1);
            Run(env, EMPTY, AppendAndCommit(1, e, id1, now1) + AppendAndCommit(2, e, id2, now2)).committed
            == [r, NewRow(env, [r], e, id2, now2)]
  {
    var r := NewRow(env, [], e, id1, now1);
    var q := NewRow(env, [r], e, id2, now2);
    CommitsOneRow(env, [], 1, e, id1, now1, AppendAndCommit(2, e, id2, now2));
    CommitsOneRow(env, [r], 2, e, id2, now2, []);
    assert [] + [r] == [r] && [r] + [q] == [r, q];
    assert AppendAndCommit(2, e, id2, now2) + [] == AppendAndCommit(2, e, id2, now2);
  }

  lemma SwappedIsRejected(env: Env, first: Row, second: Row)
    requires first.hash != second.prevHash
    ensures !Accepted(env, [first, second])
  {
    assert !Sound(env, [first, second], 1);
  }

  /** Two commits whose ids descend while the clock stands or steps back: the
      table comes back the other way round, and verification reports a break. */
  lemma DescendingIdsBreakTheChain(env: Env, e: Entry, id1: int, now1: int, id2: int, now2: int)
    returns (out: seq<Row>)
    requires forall s :: env.sha(s) != GENESIS
    requires id2 < id1 && Truncate(now2) <= Truncate(now1)
    ensures Ordered(Run(env, EMPTY, AppendAndCommit(1, e, id1, now1) + AppendAndCommit(2, e, id2, now2)).committed, out)
    ensures |out| == 2 && !Accepted(env, out)
  {
    var r := NewRow(env, [], e, id1, now1);
    var q := NewRow(env, [r], e, id2, now2);
    CommitsTwoRows(env, e, id1, now1, id2, now2);
    out := [q, r];
    assert r.createdAt == q.createdAt && q.prevHash == r.hash && r.prevHash == GENESIS;
    SwappedIsRejected(env, q, r);
  }

  /** So whenever ids follow the millisecond of the clock they are drawn from,
      two writers whose clocks differ by one are enough: the second timestamp
      is clamped, the second id is not. */
  lemma ClampedAppendBreaksTheChain(env: Env, e: Entry, v7: int -> int, now1: int, now2: int) returns (out: seq<Row>)
    requires forall s :: env.sha(s) != GENESIS
    requires forall a, b :: a / 1_000_000 < b / 1_000_000 ==> v7(a) < v7(b)
    requires now2 / 1_000_000 < now1 / 1_000_000
    ensures var rows := Run(env, EMPTY, AppendAndCommit(1, e, v7(now1), now1)
                                        + AppendAndCommit(2, e, v7(now2), now2)).committed;
            Ordered(rows, out) && !Accepted(env, out)
  {
    MicrosecondsStepBack(now1, now2);
    out := DescendingIdsBreakTheChain(env, e, v7(now1), now1, v7(now2), now2);
  }

  lemma MicrosecondsStepBack(now1: int, now2: int)
    requires now2 / 1_000_000 < now1 / 1_000_000
    ensures Truncate(now2) <= Truncate(now1)
  {}
}
