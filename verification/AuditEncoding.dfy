/** The byte stream an audit row is hashed from: the previous hash, then eleven
    fields, each a four-byte big-endian length and the field's bytes, or the
    single marker byte for SQL NULL. */
module AuditEncoding {
  import opened Common

  type Bytes = seq<Byte>

  const NULL_MARKER: Byte := 0xFF
  const HASH_SIZE := 32
  const LENGTH_LIMIT := 0x1_0000_0000   // the length is written as a uint32
  const MARKER_LIMIT := 0xFF00_0000     // from here on a length starts with the marker byte

  datatype Field = Null | Text(bytes: Bytes)

  /** nil, the invalid zero address, or a parsed address. */
  datatype IP = Absent | Invalid | Addr(number: int)

  datatype Entry = Entry(userId: Option<int>, communityId: Option<int>, action: Bytes, entity: Bytes,
                         entityId: Option<int>, before: Option<Bytes>, after: Option<Bytes>, ip: IP,
                         requestId: Option<int>)

  /** How values become text. `canonical` fails on bytes that are not JSON;
      `jsonb` is what the database hands back for stored JSON. */
  datatype Printer = Printer(uuid: int -> Bytes, time: int -> Bytes, ip: int -> Bytes,
                             canonical: Bytes -> Option<Bytes>, jsonb: Bytes -> Bytes)
  {
    /** Distinct ids, times and addresses print differently. */
    ghost predicate Faithful() {
      && (forall a, b :: uuid(a) == uuid(b) ==> a == b)
      && (forall a, b :: time(a) == time(b) ==> a == b)
      && (forall a, b :: ip(a) == ip(b) ==> a == b)
    }

    function JsonText(raw: Bytes): Bytes {
      match canonical(raw)
      case Some(text) => text
      case None => raw
    }

    /** Storing JSON keeps its canonical text, and anything else as it is. */
    ghost predicate KeepsJson() {
      forall raw :: if canonical(raw).Some? then canonical(jsonb(raw)) == canonical(raw) else jsonb(raw) == raw
    }
  }

  function Be32(n: nat): (r: Bytes)
    ensures |r| == 4
    ensures r[0] == 0xFF <==> n % LENGTH_LIMIT >= MARKER_LIMIT
  {
    var m := n % LENGTH_LIMIT;
    [m / 0x100_0000, m / 0x1_0000 % 0x100, m / 0x100 % 0x100, m % 0x100]
  }

  function FromBe32(s: Bytes): nat
    requires |s| == 4
  {
    var a: int, b: int, c: int := s[0], s[1], s[2];
    a * 0x100_0000 + b * 0x1_0000 + c * 0x100 + s[3]
  }

  function EncodeField(f: Field): Bytes {
    match f
    case Null => [NULL_MARKER]
    case Text(b) => Be32(|b|) + b
  }

  function EncodeFields(fs: seq<Field>): Bytes {
    if fs == [] then [] else EncodeField(fs[0]) + EncodeFields(fs[1..])
  }

  function OptionalUuid(p: Printer, u: Option<int>): Field {
    match u
    case None => Null
    case Some(id) => Text(p.uuid(id))
  }

  function JsonField(p: Printer, raw: Option<Bytes>): Field {
    match raw
    case None => Null
    case Some(text) => Text(p.JsonText(text))
  }

  function IPField(p: Printer, ip: IP): Field {
    match ip
    case Addr(n) => Text(p.ip(n))
    case _ => Null
  }

  /** The eleven hashed fields of a row, in the order they are written. */
  function Fields(p: Printer, id: int, createdAt: int, e: Entry): (fs: seq<Field>)
    ensures |fs| == 11
  {
    [Text(p.uuid(id)), Text(p.time(createdAt)), OptionalUuid(p, e.userId), OptionalUuid(p, e.communityId),
     Text(e.action), Text(e.entity), OptionalUuid(p, e.entityId), JsonField(p, e.before), JsonField(p, e.after),
     IPField(p, e.ip), OptionalUuid(p, e.requestId)]
  }

  function Stream(prev: Bytes, fs: seq<Field>): Bytes {
    prev + EncodeFields(fs)
  }

  // ---- The decoder that makes the encoding injective

  predicate Bounded(f: Field) {
    f.Text? ==> |f.bytes| < MARKER_LIMIT
  }

  function DecodeField(s: Bytes): Option<(Field, Bytes)> {
    if s == [] then None
    else if s[0] == NULL_MARKER then Some((Null, s[1..]))
    else if |s| < 4 || |s| < 4 + FromBe32(s[..4]) then None
    else Some((Text(s[4..4 + FromBe32(s[..4])]), s[4 + FromBe32(s[..4])..]))
  }

  function DecodeFields(s: Bytes, n: nat): Option<(seq<Field>, Bytes)> {
    if n == 0 then Some(([], s))
    else match DecodeField(s)
      case None => None
      case Some((f, rest)) =>
        match DecodeFields(rest, n - 1)
        case None => None
        case Some((fs, tail)) => Some(([f] + fs, tail))
  }

  /** Splits a hashed stream into a previous hash of `size` bytes and `n` fields. */
  function DecodeStream(s: Bytes, size: nat, n: nat): Option<(Bytes, seq<Field>)> {
    if |s| < size then None
    else match DecodeFields(s[size..], n)
      case None => None
      case Some((fs, rest)) => if rest == [] then Some((s[..size], fs)) else None
  }

  lemma Be32RoundTrip(n: nat)
    ensures FromBe32(Be32(n)) == n % LENGTH_LIMIT
  {
    var m := n % LENGTH_LIMIT;
    var high, middle := m / 0x1_0000, m / 0x100;
    assert high == m / 0x100_0000 * 0x100 + high % 0x100;
    assert middle == high * 0x100 + middle % 0x100;
    assert m == middle * 0x100 + m % 0x100;
  }

  lemma FieldRoundTrip(f: Field, rest: Bytes)
    requires Bounded(f)
    ensures DecodeField(EncodeField(f) + rest) == Some((f, rest))
  {
    var s := EncodeField(f) + rest;
    match f
    case Null =>
      assert s[1..] == rest;
    case Text(b) =>
      Be32RoundTrip(|b|);
      assert s[..4] == Be32(|b|);
      assert s[0] == Be32(|b|)[0];
      assert s[4..4 + |b|] == b && s[4 + |b|..] == rest;
  }

  lemma {:induction false} FieldsRoundTrip(fs: seq<Field>, rest: Bytes)
    requires forall f :: f in fs ==> Bounded(f)
    ensures DecodeFields(EncodeFields(fs) + rest, |fs|) == Some((fs, rest))
  {
    if fs == [] {
      assert EncodeFields(fs) + rest == rest;
    } else {
      assert EncodeFields(fs) + rest == EncodeField(fs[0]) + (EncodeFields(fs[1..]) + rest);
      FieldRoundTrip(fs[0], EncodeFields(fs[1..]) + rest);
      FieldsRoundTrip(fs[1..], rest);
      assert [fs[0]] + fs[1..] == fs;
    }
  }

  /** The decoder recovers the previous hash and every field: NULL never reads
      as an empty or as any other field, and no byte moves between fields. */
  lemma StreamRoundTrip(prev: Bytes, fs: seq<Field>)
    requires forall f :: f in fs ==> Bounded(f)
    ensures DecodeStream(Stream(prev, fs), |prev|, |fs|) == Some((prev, fs))
  {
    var s := Stream(prev, fs);
    assert s[..|prev|] == prev && s[|prev|..] == EncodeFields(fs) + [];
    FieldsRoundTrip(fs, []);
  }

  lemma StreamInjective(prev: Bytes, fs: seq<Field>, prev': Bytes, fs': seq<Field>)
    requires |prev| == |prev'| && |fs| == |fs'|
    requires (forall f :: f in fs ==> Bounded(f)) && (forall f :: f in fs' ==> Bounded(f))
    requires Stream(prev, fs) == Stream(prev', fs')
    ensures prev == prev' && fs == fs'
  {
    StreamRoundTrip(prev, fs);
    StreamRoundTrip(prev', fs');
  }

  /** A field reads back as itself exactly when it is NULL or shorter than
      0xFF000000 bytes: a longer one reads as NULL or loses its end. */
  lemma ReadsBackIffBounded(f: Field, rest: Bytes)
    ensures DecodeField(EncodeField(f) + rest) == Some((f, rest)) <==> Bounded(f)
  {
    if Bounded(f) {
      FieldRoundTrip(f, rest);
    } else {
      var s := EncodeField(f) + rest;
      var n := |f.bytes|;
      assert s[0] == Be32(n)[0] && s[..4] == Be32(n);
      Be32RoundTrip(n);
      if n % LENGTH_LIMIT < MARKER_LIMIT { assert |s[4..4 + FromBe32(s[..4])]| < n; }
    }
  }

  /** The previous hash carries no length of its own: with shorter ones, two
      different rows share one stream. */
  lemma PrevNeedsItsSize(rest: seq<Field>)
    ensures Stream([], [Text([0, 0, 0, 0])] + rest) == Stream([0, 0, 0, 4], [Text([])] + rest)
  {
    var f, g := Text([0, 0, 0, 0]), Text([]);
    assert ([f] + rest)[1..] == rest && ([g] + rest)[1..] == rest;
    assert EncodeField(f) == [0, 0, 0, 4] + [0, 0, 0, 0];
    assert EncodeField(g) == [0, 0, 0, 0];
  }

  /** The same entry up to JSON formatting and up to an absent against an
      invalid address. */
  predicate SameEntry(p: Printer, e: Entry, e': Entry) {
    && e.userId == e'.userId && e.communityId == e'.communityId && e.action == e'.action && e.entity == e'.entity
    && e.entityId == e'.entityId && e.requestId == e'.requestId
    && JsonField(p, e.before) == JsonField(p, e'.before) && JsonField(p, e.after) == JsonField(p, e'.after)
    && (e.ip == e'.ip || (!e.ip.Addr? && !e'.ip.Addr?))
  }

  /** Rows with the same fields are the same row, up to that. */
  lemma FieldsDetermine(p: Printer, id: int, at: int, e: Entry, id': int, at': int, e': Entry)
    requires p.Faithful()
    requires Fields(p, id, at, e) == Fields(p, id', at', e')
    ensures id == id' && at == at' && SameEntry(p, e, e')
  {
    var fs, fs' := Fields(p, id, at, e), Fields(p, id', at', e');
    assert forall i :: 0 <= i < 11 ==> fs[i] == fs'[i];
    assert fs[0] == fs'[0] && fs[1] == fs'[1] && fs[2] == fs'[2] && fs[3] == fs'[3] && fs[4] == fs'[4]
           && fs[5] == fs'[5] && fs[6] == fs'[6] && fs[7] == fs'[7] && fs[8] == fs'[8] && fs[9] == fs'[9]
           && fs[10] == fs'[10];
  }

  ghost predicate FieldsBounded(p: Printer, id: int, at: int, e: Entry) {
    forall f :: f in Fields(p, id, at, e) ==> Bounded(f)
  }

  /** Two rows are hashed from one stream exactly when they hang off the same
      previous hash and have the same id, time and entry, up to formatting. */
  lemma SameStreamIffSameEntry(p: Printer, prev: Bytes, id: int, at: int, e: Entry,
                               prev': Bytes, id': int, at': int, e': Entry)
    requires p.Faithful() && |prev| == |prev'| && FieldsBounded(p, id, at, e) && FieldsBounded(p, id', at', e')
    ensures Stream(prev, Fields(p, id, at, e)) == Stream(prev', Fields(p, id', at', e'))
        <==> prev == prev' && id == id' && at == at' && SameEntry(p, e, e')
  {
    if Stream(prev, Fields(p, id, at, e)) == Stream(prev', Fields(p, id', at', e')) {
      StreamInjective(prev, Fields(p, id, at, e), prev', Fields(p, id', at', e'));
      FieldsDetermine(p, id, at, e, id', at', e');
    }
  }

  // ---- What is hashed of JSON

  /** `f` is how `raw` is written: canonical if it is JSON, as it is if not. */
  ghost predicate HashedAs(p: Printer, raw: Option<Bytes>, f: Field) {
    match raw
    case None => f == Null
    case Some(text) => f.Text? && (if p.canonical(text).Some? then Some(f.bytes) == p.canonical(text)
                                   else f.bytes == text)
  }

  predicate UuidIs(p: Printer, u: Option<int>, f: Field) {
    if u.Some? then f == Text(p.uuid(u.value)) else f == Null
  }

  /** The eleven fields, each in its place. */
  lemma FieldsInPlace(p: Printer, id: int, at: int, e: Entry)
    ensures var fs := Fields(p, id, at, e);
            && fs[0] == Text(p.uuid(id)) && fs[1] == Text(p.time(at))
            && UuidIs(p, e.userId, fs[2]) && UuidIs(p, e.communityId, fs[3])
            && fs[4] == Text(e.action) && fs[5] == Text(e.entity) && UuidIs(p, e.entityId, fs[6])
            && HashedAs(p, e.before, fs[7]) && HashedAs(p, e.after, fs[8])
            && fs[9] == (if e.ip.Addr? then Text(p.ip(e.ip.number)) else Null) && UuidIs(p, e.requestId, fs[10])
  {}

  /** The same JSON value, or the same bytes. */
  predicate SameJson(p: Printer, a: Option<Bytes>, b: Option<Bytes>) {
    || a == b
    || (a.Some? && b.Some? && p.canonical(a.value).Some? && p.canonical(a.value) == p.canonical(b.value))
  }

  lemma JsonWrittenAlike(p: Printer, a: Option<Bytes>, b: Option<Bytes>, f: Field, g: Field)
    requires SameJson(p, a, b) && HashedAs(p, a, f) && HashedAs(p, b, g)
    ensures f == g
  {}

  /** Formatting is not hashed: entries that differ only in how their JSON is
      written share one stream. */
  lemma FormattingIsNotHashed(p: Printer, prev: Bytes, id: int, at: int, e: Entry, e': Entry)
    requires e' == e.(before := e'.before, after := e'.after)
    requires SameJson(p, e.before, e'.before) && SameJson(p, e.after, e'.after)
    ensures Stream(prev, Fields(p, id, at, e)) == Stream(prev, Fields(p, id, at, e'))
  {
    var fs, fs' := Fields(p, id, at, e), Fields(p, id, at, e');
    FieldsInPlace(p, id, at, e);
    FieldsInPlace(p, id, at, e');
    JsonWrittenAlike(p, e.before, e'.before, fs[7], fs'[7]);
    JsonWrittenAlike(p, e.after, e'.after, fs[8], fs'[8]);
    assert fs == fs';
  }

  lemma {:induction false} EncodeSnoc(fs: seq<Field>, f: Field)
    ensures EncodeFields(fs + [f]) == EncodeFields(fs) + EncodeField(f)
  {
    if fs == [] {
      assert fs + [f] == [f];
    } else {
      assert (fs + [f])[1..] == fs[1..] + [f];
      EncodeSnoc(fs[1..], f);
    }
  }

  lemma AppendField(prev: Bytes, fields: seq<Field>, b: Bytes)
    ensures Stream(prev, fields) + Be32(|b|) + b == Stream(prev, fields + [Text(b)])
  {
    EncodeSnoc(fields, Text(b));
  }

  /** The running digest state that computeHash writes into, with the fields
      written to it so far. */
  class Hasher {
    var written: Bytes
    ghost var prev: Bytes
    ghost var fields: seq<Field>

    ghost predicate Valid()
      reads this
    {
      written == Stream(prev, fields)
    }

    constructor (prev: Bytes)
      ensures Valid() && this.prev == prev && fields == []
    {
      written, this.prev, fields := prev, prev, [];
    }

    method WriteField(b: Bytes)
      requires Valid()
      modifies this
      ensures Valid() && prev == old(prev) && fields == old(fields) + [Text(b)]
    {
      AppendField(prev, fields, b);
      written := written + Be32(|b|);
      written := written + b;
      fields := fields + [Text(b)];
    }

    method WriteNull()
      requires Valid()
      modifies this
      ensures Valid() && prev == old(prev) && fields == old(fields) + [Null]
    {
      EncodeSnoc(fields, Null);
      written := written + [NULL_MARKER];
      fields := fields + [Null];
    }

    method WriteUUIDPtr(p: Printer, u: Option<int>)
      requires Valid()
      modifies this
      ensures Valid() && prev == old(prev) && fields == old(fields) + [OptionalUuid(p, u)]
    {
      match u
      case None => WriteNull();
      case Some(id) => WriteField(p.uuid(id));
    }

    method WriteIPField(p: Printer, ip: IP)
      requires Valid()
      modifies this
      ensures Valid() && prev == old(prev) && fields == old(fields) + [IPField(p, ip)]
    {
      match ip
      case Addr(n) => WriteField(p.ip(n));
      case _ => WriteNull();
    }

    method WriteJSONField(p: Printer, raw: Option<Bytes>)
      requires Valid()
      modifies this
      ensures Valid() && prev == old(prev) && fields == old(fields) + [JsonField(p, raw)]
      ensures |fields| == |old(fields)| + 1 && HashedAs(p, raw, fields[|old(fields)|])
    {
      match raw
      case None => WriteNull();
      case Some(text) =>
        match p.canonical(text)
        case None => WriteField(text);
        case Some(canon) => WriteField(canon);
    }

    /** Who and when. */
    method WriteOrigin(p: Printer, id: int, createdAt: int, e: Entry)
      requires Valid()
      modifies this
      ensures Valid() && prev == old(prev)
      ensures fields == old(fields) + [Text(p.uuid(id)), Text(p.time(createdAt)), OptionalUuid(p, e.userId),
                                       OptionalUuid(p, e.communityId)]
    {
      WriteField(p.uuid(id));
      WriteField(p.time(createdAt));
      WriteUUIDPtr(p, e.userId);
      WriteUUIDPtr(p, e.communityId);
    }

    /** What was done to what. */
    method WriteAct(p: Printer, e: Entry)
      requires Valid()
      modifies this
      ensures Valid() && prev == old(prev)
      ensures fields == old(fields) + [Text(e.action), Text(e.entity), OptionalUuid(p, e.entityId)]
    {
      WriteField(e.action);
      WriteField(e.entity);
      WriteUUIDPtr(p, e.entityId);
    }

    /** The change and the request it came with. */
    method WriteDetail(p: Printer, e: Entry)
      requires Valid()
      modifies this
      ensures Valid() && prev == old(prev)
      ensures fields == old(fields) + [JsonField(p, e.before), JsonField(p, e.after), IPField(p, e.ip),
                                       OptionalUuid(p, e.requestId)]
    {
      WriteJSONField(p, e.before);
      WriteJSONField(p, e.after);
      WriteIPField(p, e.ip);
      WriteUUIDPtr(p, e.requestId);
    }
  }

  /** computeHash: the digest of the stream, whatever the digest function, and
      however the JSON of the entry is formatted. */
  method ComputeHash(p: Printer, sha: Bytes -> Bytes, prev: Bytes, id: int, createdAt: int, e: Entry)
    returns (digest: Bytes)
    ensures digest == sha(Stream(prev, Fields(p, id, createdAt, e)))
    ensures forall before, after :: SameJson(p, e.before, before) && SameJson(p, e.after, after) ==>
              digest == sha(Stream(prev, Fields(p, id, createdAt, e.(before := before, after := after))))
  {
    var h := new Hasher(prev);
    h.WriteOrigin(p, id, createdAt, e);
    h.WriteAct(p, e);
    h.WriteDetail(p, e);
    assert h.fields == Fields(p, id, createdAt, e);
    digest := sha(h.written);
    forall before, after | SameJson(p, e.before, before) && SameJson(p, e.after, after)
      ensures digest == sha(Stream(prev, Fields(p, id, createdAt, e.(before := before, after := after))))
    {
      FormattingIsNotHashed(p, prev, id, createdAt, e, e.(before := before, after := after));
    }
  }
}
