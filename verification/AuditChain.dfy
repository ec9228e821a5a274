/** Verification of the audit hash chain, and what an accepted row list proves. */
module AuditChain {
  import opened AuditEncoding

  datatype Env = Env(printer: Printer, sha: Bytes -> Bytes)

  datatype Row = Row(id: int, createdAt: int, entry: Entry, prevHash: Bytes, hash: Bytes)

  datatype Reason = HashMismatch | PrevHashMismatch

  datatype Verdict = Intact | Broken(index: nat, reason: Reason)

  function RowStream(env: Env, r: Row): Bytes {
    Stream(r.prevHash, Fields(env.printer, r.id, r.createdAt, r.entry))
  }

  predicate HashOk(env: Env, r: Row) {
    env.sha(RowStream(env, r)) == r.hash
  }

  predicate LinkOk(rows: seq<Row>, i: nat)
    requires i < |rows|
  {
    i > 0 ==> rows[i].prevHash == rows[i - 1].hash
  }

  predicate Sound(env: Env, rows: seq<Row>, i: nat)
    requires i < |rows|
  {
    LinkOk(rows, i) && HashOk(env, rows[i])
  }

  ghost predicate SoundBefore(env: Env, rows: seq<Row>, n: nat)
    requires n <= |rows|
  {
    forall i: nat :: i < n ==> Sound(env, rows, i)
  }

  ghost predicate Accepted(env: Env, rows: seq<Row>) {
    SoundBefore(env, rows, |rows|)
  }

  method CheckHash(env: Env, r: Row) returns (ok: bool)
    ensures ok == HashOk(env, r)
  {
    var want := ComputeHash(env.printer, env.sha, r.prevHash, r.id, r.createdAt, r.entry);
    ok := want == r.hash;
  }

  /** verifyRows: the first inconsistent row, a broken link before a broken hash. */
  method VerifyRows(env: Env, rows: seq<Row>) returns (v: Verdict)
    ensures v == Intact <==> Accepted(env, rows)
    ensures v.Broken? ==>
              && v.index < |rows| && !Sound(env, rows, v.index) && SoundBefore(env, rows, v.index)
              && (v.reason == PrevHashMismatch <==> !LinkOk(rows, v.index))
  {
    var prevHash: Bytes := [];
    for i := 0 to |rows|
      invariant i > 0 ==> prevHash == rows[i - 1].hash
      invariant SoundBefore(env, rows, i)
    {
      if i > 0 && rows[i].prevHash != prevHash {
        assert !Sound(env, rows, i);
        return Broken(i, PrevHashMismatch);
      }
      var ok := CheckHash(env, rows[i]);
      if !ok {
        assert !Sound(env, rows, i);
        return Broken(i, HashMismatch);
      }
      assert Sound(env, rows, i);
      prevHash := rows[i].hash;
    }
    v := Intact;
  }

  // ---- Tamper evidence

  /** The fields of `r` are short enough for their length prefixes. */
  ghost predicate RowBounded(env: Env, r: Row) {
    FieldsBounded(env.printer, r.id, r.createdAt, r.entry)
  }

  /** The digest has 32 bytes and no two of the rows at hand collide. */
  ghost predicate NoCollision(env: Env, a: seq<Row>, b: seq<Row>) {
    && (forall s :: |env.sha(s)| == HASH_SIZE)
    && (forall r, q :: r in a && q in b && env.sha(RowStream(env, r)) == env.sha(RowStream(env, q)) ==>
          RowStream(env, r) == RowStream(env, q))
  }

  ghost predicate AllBounded(env: Env, rows: seq<Row>) {
    forall r :: r in rows ==> RowBounded(env, r)
  }

  /** Two rows say the same: equal hashed fields, previous hash and hash. */
  ghost predicate SameRow(env: Env, r: Row, q: Row) {
    && Fields(env.printer, r.id, r.createdAt, r.entry) == Fields(env.printer, q.id, q.createdAt, q.entry)
    && r.prevHash == q.prevHash && r.hash == q.hash
  }

  /** Counted from the end, every row of `a` is the row of `b` at that place. */
  ghost predicate SuffixOf(env: Env, a: seq<Row>, b: seq<Row>) {
    |a| <= |b| &&
    forall i: nat, j: nat :: i < |a| && j < |b| && |a| - i == |b| - j ==> SameRow(env, a[i], b[j])
  }

  lemma PrevIsHashSized(env: Env, rows: seq<Row>, i: nat)
    requires Accepted(env, rows) && i < |rows| && |rows[0].prevHash| == HASH_SIZE
    requires forall s :: |env.sha(s)| == HASH_SIZE
    ensures |rows[i].prevHash| == HASH_SIZE
  {
    if i > 0 { assert Sound(env, rows, i) && Sound(env, rows, i - 1); }
  }

  lemma EqualHashesEqualRows(env: Env, a: seq<Row>, i: nat, b: seq<Row>, j: nat)
    requires Accepted(env, a) && Accepted(env, b) && i < |a| && j < |b|
    requires |a[0].prevHash| == |b[0].prevHash| == HASH_SIZE
    requires AllBounded(env, a) && AllBounded(env, b) && NoCollision(env, a, b)
    requires a[i].hash == b[j].hash
    ensures SameRow(env, a[i], b[j])
  {
    var r, q := a[i], b[j];
    assert Sound(env, a, i) && Sound(env, b, j) && r in a && q in b;
    assert RowStream(env, r) == RowStream(env, q);
    PrevIsHashSized(env, a, i);
    PrevIsHashSized(env, b, j);
    assert RowBounded(env, r) && RowBounded(env, q);
    StreamInjective(r.prevHash, Fields(env.printer, r.id, r.createdAt, r.entry),
                    q.prevHash, Fields(env.printer, q.id, q.createdAt, q.entry));
  }

  /** Rows of the two lists with the same hash are the same row. */
  ghost predicate HashesDecide(env: Env, a: seq<Row>, b: seq<Row>) {
    forall i, j :: 0 <= i < |a| && 0 <= j < |b| && a[i].hash == b[j].hash ==> SameRow(env, a[i], b[j])
  }

  ghost predicate AllLinked(rows: seq<Row>) {
    forall i: nat :: i < |rows| ==> LinkOk(rows, i)
  }

  lemma {:induction false} SameAt(env: Env, a: seq<Row>, b: seq<Row>, k: nat)
    requires a != [] && b != [] && AllLinked(a) && AllLinked(b) && HashesDecide(env, a, b)
    requires a[|a| - 1].hash == b[|b| - 1].hash
    requires k < |a| && k < |b|
    ensures SameRow(env, a[|a| - 1 - k], b[|b| - 1 - k])
  {
    var i, j := |a| - 1 - k, |b| - 1 - k;
    if k > 0 {
      SameAt(env, a, b, k - 1);
      assert LinkOk(a, i + 1) && LinkOk(b, j + 1);
      assert a[i].hash == b[j].hash;
    }
  }

  /** What comparing two row lists needs: accepted, a 32-byte start, fields
      within their length prefixes and no collision between the two. */
  ghost predicate Comparable(env: Env, a: seq<Row>, b: seq<Row>) {
    && a != [] && b != [] && |a[0].prevHash| == |b[0].prevHash| == HASH_SIZE
    && AllBounded(env, a) && AllBounded(env, b) && NoCollision(env, a, b)
  }

  lemma AcceptedDecide(env: Env, a: seq<Row>, b: seq<Row>)
    requires Comparable(env, a, b) && Accepted(env, a) && Accepted(env, b)
    ensures HashesDecide(env, a, b)
  {
    forall i, j | 0 <= i < |a| && 0 <= j < |b| && a[i].hash == b[j].hash ensures SameRow(env, a[i], b[j]) {
      EqualHashesEqualRows(env, a, i, b, j);
    }
  }

  lemma AcceptedLinked(env: Env, rows: seq<Row>)
    requires Accepted(env, rows)
    ensures AllLinked(rows)
  {
    forall i: nat | i < |rows| ensures LinkOk(rows, i) { assert Sound(env, rows, i); }
  }

  /** Two accepted lists that end in the same hash agree row by row as far back
      as the shorter one goes. */
  lemma SameHeadSameHistory(env: Env, a: seq<Row>, b: seq<Row>)
    requires Comparable(env, a, b) && Accepted(env, a) && Accepted(env, b)
    requires a[|a| - 1].hash == b[|b| - 1].hash && |a| <= |b|
    ensures SuffixOf(env, a, b)
  {
    AcceptedDecide(env, a, b);
    AcceptedLinked(env, a);
    AcceptedLinked(env, b);
    forall i: nat, j: nat | i < |a| && j < |b| && |a| - i == |b| - j ensures SameRow(env, a[i], b[j]) {
      SameAt(env, a, b, |a| - 1 - i);
    }
  }

  function Zeros(n: nat): (b: Bytes)
    ensures |b| == n && forall i :: 0 <= i < n ==> b[i] == 0
  {
    if n == 0 then [] else [0] + Zeros(n - 1)
  }

  /** prev_hash of the very first row. */
  const GENESIS: Bytes := Zeros(HASH_SIZE)

  /** Two accepted whole chains, both from genesis, with the same head have the
      same rows, one for one, unless some row hashes to the genesis value. */
  lemma SameHeadSameChain(env: Env, a: seq<Row>, b: seq<Row>)
    requires Comparable(env, a, b) && Accepted(env, a) && Accepted(env, b)
    requires a[|a| - 1].hash == b[|b| - 1].hash && |a| <= |b|
    requires a[0].prevHash == GENESIS && b[0].prevHash == GENESIS
    requires forall r :: r in b ==> r.hash != GENESIS
    ensures |a| == |b| && forall i :: 0 <= i < |a| ==> SameRow(env, a[i], b[i])
  {
    SameHeadSameHistory(env, a, b);
    AcceptedLinked(env, b);
    assert forall i :: 0 <= i < |b| ==> b[i].hash != GENESIS;
    var j := |b| - |a|;
    assert SameRow(env, a[0], b[j]);
    assert LinkOk(b, j);
  }

  lemma ComparableBothWays(env: Env, a: seq<Row>, b: seq<Row>)
    requires Comparable(env, a, b)
    ensures Comparable(env, b, a)
  {}

  /** An edit, a deletion, an insertion or a reorder before a trusted head is
      reported: a list that still claims the genuine head hash fails
      verification unless one of the two lists is the end of the other. */
  lemma TamperingIsReported(env: Env, genuine: seq<Row>, shown: seq<Row>)
    requires Comparable(env, shown, genuine) && Accepted(env, genuine)
    requires genuine[|genuine| - 1].hash == shown[|shown| - 1].hash
    requires !SuffixOf(env, shown, genuine) && !SuffixOf(env, genuine, shown)
    ensures !Accepted(env, shown)
  {
    if Accepted(env, shown) {
      ComparableBothWays(env, shown, genuine);
      if |shown| <= |genuine| {
        SameHeadSameHistory(env, shown, genuine);
      } else {
        SameHeadSameHistory(env, genuine, shown);
      }
    }
  }

  /** Rows with different ids do not say the same. */
  lemma IdsTellRowsApart(env: Env, r: Row, q: Row)
    requires env.printer.Faithful() && r.id != q.id
    ensures !SameRow(env, r, q)
  {
    if SameRow(env, r, q) {
      FieldsDetermine(env.printer, r.id, r.createdAt, r.entry, q.id, q.createdAt, q.entry);
      assert false;
    }
  }

  /** Deleting a row anywhere between the first and the last is such a change. */
  lemma DeletionIsReported(env: Env, genuine: seq<Row>, i: nat)
    requires 0 < i < |genuine| - 1 && Accepted(env, genuine)
    requires Comparable(env, genuine[..i] + genuine[i + 1..], genuine)
    requires env.printer.Faithful() && genuine[i].id != genuine[i - 1].id
    ensures !Accepted(env, genuine[..i] + genuine[i + 1..])
  {
    var shown := genuine[..i] + genuine[i + 1..];
    assert shown[i - 1] == genuine[i - 1];
    IdsTellRowsApart(env, genuine[i - 1], genuine[i]);
    TamperingIsReported(env, genuine, shown);
  }

  /** So is inserting a row anywhere behind the first. */
  lemma InsertionIsReported(env: Env, genuine: seq<Row>, i: nat, x: Row)
    requires 0 < i < |genuine| && Accepted(env, genuine)
    requires Comparable(env, genuine[..i] + [x] + genuine[i..], genuine)
    requires env.printer.Faithful() && x.id != genuine[i - 1].id
    ensures !Accepted(env, genuine[..i] + [x] + genuine[i..])
  {
    var shown := genuine[..i] + [x] + genuine[i..];
    assert shown[i] == x;
    IdsTellRowsApart(env, genuine[i - 1], x);
    TamperingIsReported(env, genuine, shown);
  }
}
