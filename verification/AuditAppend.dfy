/** The append protocol: any number of transactions append under one
    transaction-scoped lock and then commit or roll back. */
module AuditAppend {
  import opened Common
  import opened AuditEncoding
  import opened AuditChain

  type TxId = int

  /** The table in the order its rows were inserted, the uncommitted rows of
      the transaction that holds the chain lock, and that transaction. */
  datatype Log = Log(committed: seq<Row>, pending: seq<Row>, holder: Option<TxId>)

  datatype Event =
    | Append(tx: TxId, entry: Entry, id: int, now: int)
    | Commit(tx: TxId)
    | Abort(tx: TxId)

  /** ORDER BY created_at, id. */
  predicate Before(r: Row, q: Row) {
    r.createdAt < q.createdAt || (r.createdAt == q.createdAt && r.id < q.id)
  }

  /** ORDER BY created_at DESC, id DESC LIMIT 1. */
  function Head(rows: seq<Row>): Row
    requires rows != []
  {
    if |rows| == 1 then rows[0]
    else
      var rest := Head(rows[1..]);
      if Before(rest, rows[0]) then rows[0] else rest
  }

  /** Nanosecond clock reading to stored microseconds. */
  function Truncate(now: int): int {
    now / 1000
  }

  function CreatedAt(visible: seq<Row>, now: int): int {
    if visible != [] && Truncate(now) < Head(visible).createdAt then Head(visible).createdAt else Truncate(now)
  }

  /** What the table returns for a stored entry: its JSON is jsonb's now. */
  function Stored(p: Printer, e: Entry): Entry {
    Entry(e.userId, e.communityId, e.action, e.entity, e.entityId, StoredJson(p, e.before), StoredJson(p, e.after),
          e.ip, e.requestId)
  }

  function StoredJson(p: Printer, raw: Option<Bytes>): Option<Bytes> {
    match raw
    case None => None
    case Some(text) => Some(p.jsonb(text))
  }

  /** `back` is what the database returns for the JSON `raw`. */
  predicate HandedBack(p: Printer, raw: Option<Bytes>, back: Option<Bytes>) {
    if raw.Some? then back == Some(p.jsonb(raw.value)) else back.None?
  }

  function PrevHash(visible: seq<Row>): Bytes {
    if visible == [] then GENESIS else Head(visible).hash
  }

  function NewRow(env: Env, visible: seq<Row>, e: Entry, id: int, now: int): Row {
    Row(id, CreatedAt(visible, now), Stored(env.printer, e), PrevHash(visible),
        env.sha(Stream(PrevHash(visible), Fields(env.printer, id, CreatedAt(visible, now), e))))
  }

  /** `row` is the entry as it reads back, behind the head, no earlier than it and
      than the clock, with the digest of what was appended. */
  ghost predicate Written(env: Env, visible: seq<Row>, e: Entry, id: int, now: int, row: Row) {
    && row.id == id && row.entry == e.(before := row.entry.before, after := row.entry.after)
    && HandedBack(env.printer, e.before, row.entry.before) && HandedBack(env.printer, e.after, row.entry.after)
    && (if visible == [] then row.prevHash == GENESIS && row.createdAt == now / 1000
        else
          && row.prevHash == Head(visible).hash && row.createdAt >= Head(visible).createdAt
          && row.createdAt >= now / 1000 && row.createdAt in {now / 1000, Head(visible).createdAt})
    && row.hash == env.sha(Stream(row.prevHash, Fields(env.printer, id, row.createdAt, e)))
  }

  lemma NewRowWritten(env: Env, visible: seq<Row>, e: Entry, id: int, now: int)
    ensures Written(env, visible, e, id, now, NewRow(env, visible, e, id, now))
  {}

  /** A transaction that cannot take the lock waits: the event does nothing. */
  function Next(env: Env, s: Log, ev: Event): Log {
    match ev
    case Append(tx, e, id, now) =>
      if s.holder.Some? && s.holder.value != tx then s
      else s.(pending := s.pending + [NewRow(env, s.committed + s.pending, e, id, now)], holder := Some(tx))
    case Commit(tx) =>
      if s.holder == Some(tx) then Log(s.committed + s.pending, [], None) else s
    case Abort(tx) =>
      if s.holder == Some(tx) then Log(s.committed, [], None) else s
  }

  function Run(env: Env, s: Log, events: seq<Event>): Log
    decreases |events|
  {
    if events == [] then s else Run(env, Next(env, s, events[0]), events[1..])
  }

  /** The hypothesis on UUIDv7 ids (section 5.7 of RFC 9562): an id that is
      stored beside the head's own created_at exceeds the head's id, whether
      the clock stands at that time or is behind it and the time was clamped. */
  predicate IdAscends(s: Log, ev: Event) {
    ev.Append? && (s.holder.None? || s.holder.value == ev.tx) && s.committed + s.pending != [] ==>
      CreatedAt(s.committed + s.pending, ev.now) == Head(s.committed + s.pending).createdAt ==>
        ev.id > Head(s.committed + s.pending).id
  }

  predicate IdsAscend(env: Env, s: Log, events: seq<Event>)
    decreases |events|
  {
    events == [] || (IdAscends(s, events[0]) && IdsAscend(env, Next(env, s, events[0]), events[1..]))
  }

  // ---- The chain

  ghost predicate Ascending(rows: seq<Row>) {
    forall i, j :: 0 <= i < j < |rows| ==> Before(rows[i], rows[j])
  }

  /** Insertion order is (created_at, id) order, the first row hangs off
      genesis, and every later row hangs off the one before it. */
  ghost predicate Chain(env: Env, rows: seq<Row>) {
    Ascending(rows) && Accepted(env, rows) && (rows != [] ==> rows[0].prevHash == GENESIS)
  }

  ghost predicate Inv(env: Env, s: Log) {
    Chain(env, s.committed + s.pending) && (s.holder.None? ==> s.pending == [])
  }

  lemma {:induction false} HeadIsLast(rows: seq<Row>)
    requires rows != [] && Ascending(rows)
    ensures Head(rows) == rows[|rows| - 1]
  {
    if |rows| > 1 {
      HeadIsLast(rows[1..]);
      assert Before(rows[0], rows[|rows| - 1]);
    }
  }

  lemma StoredKeepsFields(p: Printer, id: int, at: int, e: Entry)
    requires p.KeepsJson()
    ensures Fields(p, id, at, Stored(p, e)) == Fields(p, id, at, e)
  {}

  lemma AscendingSnoc(rows: seq<Row>, r: Row)
    requires Ascending(rows) && (rows != [] ==> Before(rows[|rows| - 1], r))
    ensures Ascending(rows + [r])
  {
    forall i | 0 <= i < |rows| ensures Before(rows[i], r) {
      if i < |rows| - 1 { assert Before(rows[i], rows[|rows| - 1]); }
    }
  }

  lemma NewRowExtends(env: Env, rows: seq<Row>, e: Entry, id: int, now: int)
    requires Chain(env, rows) && env.printer.KeepsJson()
    requires rows != [] && CreatedAt(rows, now) == Head(rows).createdAt ==> id > Head(rows).id
    ensures Chain(env, rows + [NewRow(env, rows, e, id, now)])
  {
    var r := NewRow(env, rows, e, id, now);
    var all := rows + [r];
    if rows != [] { HeadIsLast(rows); }
    AscendingSnoc(rows, r);
    StoredKeepsFields(env.printer, id, r.createdAt, e);
    assert HashOk(env, r);
    forall i: nat | i < |all| ensures Sound(env, all, i) {
      if i < |rows| { assert Sound(env, rows, i); }
    }
  }

  lemma ChainPrefix(env: Env, rows: seq<Row>, more: seq<Row>)
    requires Chain(env, rows + more)
    ensures Chain(env, rows)
  {
    var all := rows + more;
    forall i: nat | i < |rows| ensures Sound(env, rows, i) { assert Sound(env, all, i); }
    forall i, j | 0 <= i < j < |rows| ensures Before(rows[i], rows[j]) { assert Before(all[i], all[j]); }
    if rows != [] { assert all[0] == rows[0]; }
  }

  lemma InvStep(env: Env, s: Log, ev: Event)
    requires Inv(env, s) && IdAscends(s, ev) && env.printer.KeepsJson()
    ensures Inv(env, Next(env, s, ev))
  {
    var visible := s.committed + s.pending;
    match ev
    case Append(tx, e, id, now) =>
      if s.holder.None? || s.holder.value == tx {
        NewRowExtends(env, visible, e, id, now);
        var r := NewRow(env, visible, e, id, now);
        assert s.committed + (s.pending + [r]) == visible + [r];
      }
    case Commit(tx) =>
      assert visible + [] == visible;
    case Abort(tx) =>
      ChainPrefix(env, s.committed, s.pending);
      assert s.committed + [] == s.committed;
  }

  lemma {:induction false} InvRun(env: Env, s: Log, events: seq<Event>)
    requires Inv(env, s) && IdsAscend(env, s, events) && env.printer.KeepsJson()
    ensures Inv(env, Run(env, s, events))
    decreases |events|
  {
    if events != [] {
      InvStep(env, s, events[0]);
      InvRun(env, Next(env, s, events[0]), events[1..]);
    }
  }

  const EMPTY := Log([], [], None)

  // ---- Main results

  /** However transactions append, commit and roll back, the committed rows form
      one unforked chain from genesis in (created_at, id) order. */
  lemma CommittedRowsChain(env: Env, events: seq<Event>)
    requires IdsAscend(env, EMPTY, events) && env.printer.KeepsJson()
    ensures Chain(env, Run(env, EMPTY, events).committed)
  {
    InvRun(env, EMPTY, events);
    var s := Run(env, EMPTY, events);
    ChainPrefix(env, s.committed, s.pending);
  }

  /** The rows of a time range, sorted by (created_at, id). */
  ghost predicate IsRange(rows: seq<Row>, from: int, to: int, out: seq<Row>) {
    Ascending(out) && forall r :: r in out <==> r in rows && from <= r.createdAt <= to
  }

  /** An ascending list is determined by its rows. */
  lemma {:induction false} AscendingUnique(a: seq<Row>, b: seq<Row>)
    requires Ascending(a) && Ascending(b) && forall r :: r in a <==> r in b
    ensures a == b
    decreases |a|
  {
    if a == [] {
      assert forall i :: 0 <= i < |b| ==> b[i] in b;
    } else {
      assert a[0] in b && |b| > 0;
      assert b[0] in a;
      assert a[0] == b[0];
      forall r ensures r in a[1..] <==> r in b[1..] {
        if r in a[1..] { assert r in a && r != a[0]; }
        if r in b[1..] { assert r in b && r != b[0]; }
      }
      AscendingUnique(a[1..], b[1..]);
      assert a == [a[0]] + a[1..] && b == [b[0]] + b[1..];
    }
  }

  /** In a chain a time range is a stretch of consecutive rows. */
  lemma {:induction false} RangeIsStretch(rows: seq<Row>, from: int, to: int) returns (i: nat, j: nat)
    requires Ascending(rows)
    ensures i <= j <= |rows|
    ensures IsRange(rows, from, to, rows[i..j])
  {
    i := 0;
    while i < |rows| && rows[i].createdAt < from
      invariant i <= |rows| && forall k :: 0 <= k < i ==> rows[k].createdAt < from
    {
      i := i + 1;
    }
    j := i;
    while j < |rows| && rows[j].createdAt <= to
      invariant i <= j <= |rows| && forall k :: i <= k < j ==> rows[k].createdAt <= to
    {
      j := j + 1;
    }
    forall k | i <= k < |rows| ensures rows[k].createdAt >= from {
      if k > i { assert Before(rows[i], rows[k]); }
    }
    forall k | j <= k < |rows| ensures rows[k].createdAt > to {
      if k > j { assert Before(rows[j], rows[k]); }
    }
  }

  /** VerifyChain accepts every time range of the committed table. */
  lemma EveryRangeVerifies(env: Env, events: seq<Event>, from: int, to: int, out: seq<Row>)
    requires IdsAscend(env, EMPTY, events) && env.printer.KeepsJson()
    requires IsRange(Run(env, EMPTY, events).committed, from, to, out)
    ensures Accepted(env, out)
  {
    var rows := Run(env, EMPTY, events).committed;
    CommittedRowsChain(env, events);
    var i, j := RangeIsStretch(rows, from, to);
    AscendingUnique(out, rows[i..j]);
    forall k: nat | k < |out| ensures Sound(env, out, k) { assert Sound(env, rows, i + k); }
  }

  // ---- The writer

  /** The table with its chain lock. Whatever transactions do through these
      methods is a run of the protocol above. */
  class AuditLog {
    const env: Env
    var committed: seq<Row>
    var pending: seq<Row>
    var holder: Option<TxId>

    ghost function Model(): Log
      reads this
    {
      Log(committed, pending, holder)
    }

    constructor (env: Env)
      ensures Model() == EMPTY && this.env == env
    {
      this.env := env;
      committed, pending, holder := [], [], None;
    }

    /** Append: lock, head, id and clamped timestamp, hash, insert. */
    method AppendEntry(tx: TxId, e: Entry, id: int, now: int) returns (row: Row)
      requires holder.None? || holder.value == tx
      modifies this
      ensures Model() == Next(env, old(Model()), Append(tx, e, id, now))
      ensures row == NewRow(env, old(committed + pending), e, id, now)
      ensures Written(env, old(committed + pending), e, id, now, row)
      ensures old(Inv(env, Model())) && old(IdAscends(Model(), Append(tx, e, id, now))) && env.printer.KeepsJson() ==>
                Inv(env, Model())
    {
      ghost var before := Model();
      NewRowWritten(env, committed + pending, e, id, now);
      holder := Some(tx);
      var visible := committed + pending;
      var prevHash, createdAt := GENESIS, now / 1000;
      if visible != [] {
        var head := Head(visible);
        prevHash := head.hash;
        if createdAt < head.createdAt {
          createdAt := head.createdAt;
        }
      }
      var hash := ComputeHash(env.printer, env.sha, prevHash, id, createdAt, e);
      row := Row(id, createdAt, Stored(env.printer, e), prevHash, hash);
      pending := pending + [row];
      if Inv(env, before) && IdAscends(before, Append(tx, e, id, now)) && env.printer.KeepsJson() {
        InvStep(env, before, Append(tx, e, id, now));
      }
    }

    method CommitTx(tx: TxId)
      requires holder == Some(tx)
      modifies this
      ensures Model() == Next(env, old(Model()), Commit(tx))
      ensures committed == old(committed + pending) && pending == []
    {
      committed := committed + pending;
      pending, holder := [], None;
    }

    method RollbackTx(tx: TxId)
      requires holder == Some(tx)
      modifies this
      ensures Model() == Next(env, old(Model()), Abort(tx))
      ensures committed == old(committed) && pending == []
    {
      pending, holder := [], None;
    }
  }
}
