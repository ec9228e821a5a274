/** The incident list's cursor: which filters it was issued under and the row
    it continues after. JSON text is a stream of decoder tokens here; identifier
    and time texts are printed and parsed by functions this model leaves open. */
module IncidentCursor {
  import opened Common

  datatype Value = Null | Number(n: int) | Text(text: string) | Other | Malformed

  /** What one round of the decoder's loop reads: a key, unless the token there
      is not a string, and the raw value after it. */
  datatype Item = Item(key: Option<string>, value: Value)

  datatype Payload = Payload(opens: bool, items: seq<Item>, closes: bool, trailing: bool)

  const FIELDS: set<string> := {"v", "community", "caller", "status", "category", "unit_id", "created_at", "id"}

  predicate RightType(key: string, v: Value) {
    if key == "v" then v.Number? else v.Text?
  }

  predicate GoodItem(item: Item) {
    item.key.Some? && item.key.value in FIELDS && RightType(item.key.value, item.value)
  }

  /** The eight fields, each exactly once and of its type, and nothing else. */
  ghost predicate WellFormed(p: Payload) {
    && p.opens && p.closes && !p.trailing
    && (forall i :: 0 <= i < |p.items| ==> GoodItem(p.items[i]))
    && (forall i, j :: 0 <= i < j < |p.items| ==> p.items[i].key != p.items[j].key)
    && (forall key :: key in FIELDS ==> Has(p.items, key))
  }

  predicate Has(items: seq<Item>, key: string) {
    exists i :: 0 <= i < |items| && items[i].key == Some(key)
  }

  function Keys(items: seq<Item>): set<string> {
    set i | 0 <= i < |items| && items[i].key.Some? :: items[i].key.value
  }

  lemma {:induction false} SubsetOfSameSize(a: set<string>, b: set<string>)
    requires a <= b && |a| == |b|
    ensures a == b
    decreases a
  {
    if a != {} {
      var x :| x in a;
      SubsetOfSameSize(a - {x}, b - {x});
    }
  }

  /** One round of the loop: an allowed key, not seen yet, with its type. */
  method CheckItem(item: Item, seen: set<string>) returns (ok: bool)
    ensures ok <==> GoodItem(item) && item.key.value !in seen
  {
    if item.key.None? || item.key.value !in FIELDS || item.key.value in seen || item.value.Malformed? {
      return false;
    }
    if item.key.value == "v" {
      return item.value.Number?;
    }
    return item.value.Text?;
  }

  /** The first `n` items are good and their keys distinct; these are the keys. */
  ghost predicate GoodSoFar(items: seq<Item>, n: nat, seen: set<string>) {
    && n <= |items| && seen == Keys(items[..n]) && seen <= FIELDS
    && (forall i :: 0 <= i < n ==> GoodItem(items[i]))
    && (forall i, j :: 0 <= i < j < n ==> items[i].key != items[j].key)
  }

  lemma OneMore(items: seq<Item>, n: nat, seen: set<string>)
    requires GoodSoFar(items, n, seen) && n < |items|
    requires GoodItem(items[n]) && items[n].key.value !in seen
    ensures GoodSoFar(items, n + 1, seen + {items[n].key.value})
  {
    var key := items[n].key.value;
    assert items[..n + 1] == items[..n] + [items[n]];
    forall k | k in Keys(items[..n + 1]) ensures k in seen + {key} {
      var i :| 0 <= i < |items[..n + 1]| && items[..n + 1][i].key == Some(k);
      if i < n { assert items[..n][i].key == Some(k); }
    }
    forall k | k in seen + {key} ensures k in Keys(items[..n + 1]) {
      if k in seen {
        var i :| 0 <= i < |items[..n]| && items[..n][i].key == Some(k);
        assert items[..n + 1][i].key == Some(k);
      } else {
        assert items[..n + 1][n].key == Some(k);
      }
    }
    forall i | 0 <= i < n ensures items[i].key != items[n].key {
      assert items[..n][i].key == items[i].key;
    }
  }

  /** validateIncidentCursorJSON */
  method Validate(p: Payload) returns (ok: bool)
    ensures ok <==> WellFormed(p)
  {
    if !p.opens {
      return false;
    }
    var seen: set<string> := {};
    for i := 0 to |p.items|
      invariant GoodSoFar(p.items, i, seen)
    {
      var good := CheckItem(p.items[i], seen);
      if !good {
        if GoodItem(p.items[i]) {
          SeenBefore(p.items, i);
        }
        return false;
      }
      OneMore(p.items, i, seen);
      seen := seen + {p.items[i].key.value};
    }
    assert p.items[..|p.items|] == p.items;
    AllSeen(p.items, seen);
    return p.closes && |seen| == |FIELDS| && !p.trailing;
  }

  lemma SeenBefore(items: seq<Item>, i: nat)
    requires i < |items| && items[i].key.Some? && items[i].key.value in Keys(items[..i])
    ensures exists j :: 0 <= j < i && items[j].key == items[i].key
  {
    var j :| 0 <= j < |items[..i]| && items[..i][j].key == Some(items[i].key.value);
    assert items[j].key == items[i].key;
  }

  /** Eight keys seen are all the fields. */
  lemma AllSeen(items: seq<Item>, seen: set<string>)
    requires seen == Keys(items) && seen <= FIELDS
    ensures |seen| == |FIELDS| <==> forall key :: key in FIELDS ==> Has(items, key)
  {
    if |seen| == |FIELDS| {
      SubsetOfSameSize(seen, FIELDS);
      forall key | key in FIELDS ensures Has(items, key) {
        assert key in Keys(items);
      }
    }
    if forall key :: key in FIELDS ==> Has(items, key) {
      forall key | key in FIELDS ensures key in seen {
        var i :| 0 <= i < |items| && items[i].key == Some(key);
      }
      assert seen == FIELDS;
    }
  }

  // ---- Cursors

  /** The caller and the filters a cursor belongs to; an absent filter is "". */
  datatype Context = Context(community: int, caller: int, status: string, category: string, unit: Option<int>)

  datatype Pivot = Pivot(createdAt: int, id: int)

  /** UUID and RFC 3339 texts. */
  datatype Formats = Formats(id: int -> string, parseId: string -> Option<int>,
                             time: int -> string, parseTime: string -> Option<int>)

  /** Printing is injective and ends a time in Z; parsing undoes it. */
  ghost predicate Sound(f: Formats) {
    && (forall x :: f.parseId(f.id(x)) == Some(x) && f.id(x) != "")
    && (forall t :: f.parseTime(f.time(t)) == Some(t) && EndsInZ(f.time(t)))
  }

  predicate EndsInZ(s: string) {
    s != "" && s[|s| - 1] == 'Z'
  }

  function UnitText(f: Formats, unit: Option<int>): string {
    if unit.Some? then f.id(unit.value) else ""
  }

  /** The fields of an issued cursor, in the order they are written. */
  function Fields(f: Formats, c: Context, p: Pivot): seq<Item> {
    [Item(Some("v"), Number(1)), Item(Some("community"), Text(f.id(c.community))),
     Item(Some("caller"), Text(f.id(c.caller))), Item(Some("status"), Text(c.status)),
     Item(Some("category"), Text(c.category)), Item(Some("unit_id"), Text(UnitText(f, c.unit))),
     Item(Some("created_at"), Text(f.time(p.createdAt))), Item(Some("id"), Text(f.id(p.id)))]
  }

  function Field(items: seq<Item>, key: string): Value {
    if items == [] then Null
    else if items[0].key == Some(key) then items[0].value
    else Field(items[1..], key)
  }

  lemma {:induction false} FieldAt(items: seq<Item>, i: nat)
    requires i < |items| && items[i].key.Some?
    requires forall j :: 0 <= j < i ==> items[j].key != items[i].key
    ensures Field(items, items[i].key.value) == items[i].value
  {
    if i > 0 {
      assert items[0].key != items[i].key;
      FieldAt(items[1..], i - 1);
    }
  }

  /** A well-formed payload has every field, of its type. */
  lemma FieldTyped(p: Payload, key: string)
    requires WellFormed(p) && key in FIELDS
    ensures RightType(key, Field(p.items, key))
  {
    assert Has(p.items, key);
    var i :| 0 <= i < |p.items| && p.items[i].key == Some(key);
    FieldAt(p.items, i);
    assert GoodItem(p.items[i]);
  }

  /** The context fields match and the pivot texts are canonical. */
  ghost function Decoded(f: Formats, c: Context, p: Payload): (r: Option<Pivot>) {
    if !WellFormed(p) then None
    else
      var id, time := Field(p.items, "id"), Field(p.items, "created_at");
      if Field(p.items, "v") != Number(1) || Field(p.items, "community") != Text(f.id(c.community))
         || Field(p.items, "caller") != Text(f.id(c.caller)) || Field(p.items, "status") != Text(c.status)
         || Field(p.items, "category") != Text(c.category) || Field(p.items, "unit_id") != Text(UnitText(f, c.unit))
      then None
      else if !id.Text? || f.parseId(id.text).None? || f.id(f.parseId(id.text).value) != id.text then None
      else if !time.Text? || !EndsInZ(time.text) || f.parseTime(time.text).None?
              || f.time(f.parseTime(time.text).value) != time.text then None
      else Some(Pivot(f.parseTime(time.text).value, f.parseId(id.text).value))
  }

  /** decodeIncidentCursor after base64: validation, then the struct's checks. */
  method Decode(f: Formats, c: Context, p: Payload) returns (r: Option<Pivot>)
    ensures r == Decoded(f, c, p)
    ensures r.Some? ==> var time := Field(p.items, "created_at");
                        time.Text? && time.text != "" && time.text[|time.text| - 1] == 'Z'
  {
    var ok := Validate(p);
    if !ok {
      return None;
    }
    if Field(p.items, "v") != Number(1) || Field(p.items, "community") != Text(f.id(c.community))
       || Field(p.items, "caller") != Text(f.id(c.caller)) || Field(p.items, "status") != Text(c.status)
       || Field(p.items, "category") != Text(c.category) || Field(p.items, "unit_id") != Text(UnitText(f, c.unit)) {
      return None;
    }
    FieldTyped(p, "id");
    FieldTyped(p, "created_at");
    var idText := Field(p.items, "id").text;
    var id := f.parseId(idText);
    if id.None? || f.id(id.value) != idText {
      return None;
    }
    var timeText := Field(p.items, "created_at").text;
    if !EndsInZ(timeText) {
      return None;
    }
    var createdAt := f.parseTime(timeText);
    if createdAt.None? || f.time(createdAt.value) != timeText {
      return None;
    }
    return Some(Pivot(createdAt.value, id.value));
  }

  function Issued(f: Formats, c: Context, p: Pivot): Payload {
    Payload(true, Fields(f, c, p), true, false)
  }

  lemma HasAt(items: seq<Item>, i: nat, key: string)
    requires i < |items| && items[i].key == Some(key)
    ensures Has(items, key)
  {}

  lemma IssuedHasAll(f: Formats, c: Context, p: Pivot)
    ensures forall key :: key in FIELDS ==> Has(Fields(f, c, p), key)
  {
    var items := Fields(f, c, p);
    HasAt(items, 0, "v");
    HasAt(items, 1, "community");
    HasAt(items, 2, "caller");
    HasAt(items, 3, "status");
    HasAt(items, 4, "category");
    HasAt(items, 5, "unit_id");
    HasAt(items, 6, "created_at");
    HasAt(items, 7, "id");
  }

  lemma IssuedWellFormed(f: Formats, c: Context, p: Pivot)
    ensures WellFormed(Issued(f, c, p))
  {
    IssuedHasAll(f, c, p);
  }

  lemma IssuedFields(f: Formats, c: Context, p: Pivot)
    ensures var items := Fields(f, c, p);
            && Field(items, "v") == Number(1) && Field(items, "community") == Text(f.id(c.community))
            && Field(items, "caller") == Text(f.id(c.caller)) && Field(items, "status") == Text(c.status)
            && Field(items, "category") == Text(c.category) && Field(items, "unit_id") == Text(UnitText(f, c.unit))
            && Field(items, "created_at") == Text(f.time(p.createdAt)) && Field(items, "id") == Text(f.id(p.id))
  {
    IssuedWellFormed(f, c, p);
    var items := Fields(f, c, p);
    forall i | 0 <= i < 8 ensures Field(items, items[i].key.value) == items[i].value {
      FieldAt(items, i);
    }
    assert items[0].key.value == "v" && items[1].key.value == "community" && items[2].key.value == "caller";
    assert items[3].key.value == "status" && items[4].key.value == "category" && items[5].key.value == "unit_id";
    assert items[6].key.value == "created_at" && items[7].key.value == "id";
  }

  /** Two payloads that say the same in every field. */
  ghost predicate SameFields(p: Payload, q: Payload) {
    forall key :: key in FIELDS ==> Field(p.items, key) == Field(q.items, key)
  }

  /** A cursor decodes to a pivot, in a context, exactly when it says what the
      cursor issued there for that pivot says, field by field. */
  lemma DecodesExactlyTheIssued(f: Formats, c: Context, p: Payload, pivot: Pivot)
    requires Sound(f)
    ensures Decoded(f, c, p) == Some(pivot) <==> WellFormed(p) && SameFields(p, Issued(f, c, pivot))
  {
    IssuedFields(f, c, pivot);
    var q := Issued(f, c, pivot);
    if Decoded(f, c, p) == Some(pivot) {
      forall key | key in FIELDS ensures Field(p.items, key) == Field(q.items, key) {
        assert key == "v" || key == "community" || key == "caller" || key == "status" || key == "category"
            || key == "unit_id" || key == "created_at" || key == "id";
      }
    }
    if WellFormed(p) && SameFields(p, q) {
      assert Field(p.items, "v") == Field(q.items, "v") && Field(p.items, "community") == Field(q.items, "community");
      assert Field(p.items, "caller") == Field(q.items, "caller");
      assert Field(p.items, "status") == Field(q.items, "status");
      assert Field(p.items, "category") == Field(q.items, "category");
      assert Field(p.items, "unit_id") == Field(q.items, "unit_id");
      assert Field(p.items, "id") == Text(f.id(pivot.id));
      assert Field(p.items, "created_at") == Text(f.time(pivot.createdAt));
      assert f.parseId(f.id(pivot.id)) == Some(pivot.id) && EndsInZ(f.time(pivot.createdAt));
    }
  }

  ghost predicate OneOfEach(items: seq<Item>) {
    forall i, j :: 0 <= i < j < |items| ==> items[i].key != items[j].key
  }

  lemma {:induction false} CountedOnce(items: seq<Item>, x: Item)
    requires OneOfEach(items)
    ensures multiset(items)[x] == if x in items then 1 else 0
  {
    if items != [] {
      var front, last := items[..|items| - 1], items[|items| - 1];
      assert items == front + [last];
      CountedOnce(front, x);
      forall i | 0 <= i < |front| ensures front[i] != last { assert front[i] == items[i]; }
    }
  }

  lemma CountedTwice(items: seq<Item>, i: nat, j: nat)
    requires i < j < |items| && items[i] == items[j]
    ensures multiset(items)[items[i]] >= 2
  {
    assert items == items[..j] + items[j..] && items[..j][i] == items[i] && items[j..][0] == items[j];
    assert items[i] in multiset(items[..j]) && items[i] in multiset(items[j..]);
  }

  /** Every item of one is an item of the other. */
  lemma FieldsAreItems(p: Payload, q: Payload, i: nat)
    requires WellFormed(p) && WellFormed(q) && SameFields(p, q) && i < |p.items|
    ensures p.items[i] in q.items
  {
    assert GoodItem(p.items[i]);
    var key := p.items[i].key.value;
    assert Has(q.items, key);
    var j :| 0 <= j < |q.items| && q.items[j].key == Some(key);
    FieldAt(p.items, i);
    FieldAt(q.items, j);
  }

  lemma SameFieldsPermute(p: Payload, q: Payload)
    requires WellFormed(p) && WellFormed(q) && SameFields(p, q)
    ensures multiset(p.items) == multiset(q.items)
  {
    forall x ensures multiset(p.items)[x] == multiset(q.items)[x] {
      CountedOnce(p.items, x);
      CountedOnce(q.items, x);
      if i :| 0 <= i < |p.items| && p.items[i] == x { FieldsAreItems(p, q, i); }
      if i :| 0 <= i < |q.items| && q.items[i] == x { FieldsAreItems(q, p, i); }
    }
  }

  lemma MembersOf(a: seq<Item>, b: seq<Item>, i: nat)
    requires multiset(a) == multiset(b) && i < |a|
    ensures exists j :: 0 <= j < |b| && b[j] == a[i]
  {
    assert a[i] in multiset(a);
    assert a[i] in b;
  }

  lemma PermutedOneOfEach(a: seq<Item>, b: seq<Item>)
    requires OneOfEach(b) && multiset(a) == multiset(b)
    ensures OneOfEach(a)
  {
    forall i, j | 0 <= i < j < |a| ensures a[i].key != a[j].key {
      MembersOf(a, b, i);
      MembersOf(a, b, j);
      if a[i].key == a[j].key {
        CountedTwice(a, i, j);
        CountedOnce(b, a[i]);
      }
    }
  }

  lemma PermutedWellFormed(p: Payload, q: Payload)
    requires WellFormed(q) && p.opens && p.closes && !p.trailing && multiset(p.items) == multiset(q.items)
    ensures WellFormed(p) && SameFields(p, q)
  {
    PermutedOneOfEach(p.items, q.items);
    forall i | 0 <= i < |p.items| ensures GoodItem(p.items[i]) { MembersOf(p.items, q.items, i); }
    forall key | key in FIELDS ensures Has(p.items, key) && Field(p.items, key) == Field(q.items, key) {
      assert Has(q.items, key);
      var j :| 0 <= j < |q.items| && q.items[j].key == Some(key);
      MembersOf(q.items, p.items, j);
      var i :| 0 <= i < |p.items| && p.items[i] == q.items[j];
      FieldAt(p.items, i);
      FieldAt(q.items, j);
    }
  }

  /** A cursor decodes to a pivot, in a context, exactly when it is one closed
      object of these eight items, in any order, and nothing else. */
  lemma DecodesIffPermuted(f: Formats, c: Context, p: Payload, pivot: Pivot)
    requires Sound(f)
    ensures Decoded(f, c, p) == Some(pivot) <==>
              && p.opens && p.closes && !p.trailing
              && multiset(p.items) == multiset([
                   Item(Some("v"), Number(1)), Item(Some("community"), Text(f.id(c.community))),
                   Item(Some("caller"), Text(f.id(c.caller))), Item(Some("status"), Text(c.status)),
                   Item(Some("category"), Text(c.category)),
                   Item(Some("unit_id"), Text(if c.unit.Some? then f.id(c.unit.value) else "")),
                   Item(Some("created_at"), Text(f.time(pivot.createdAt))), Item(Some("id"), Text(f.id(pivot.id)))])
  {
    var q := Issued(f, c, pivot);
    IssuedWellFormed(f, c, pivot);
    DecodesExactlyTheIssued(f, c, p, pivot);
    if Decoded(f, c, p) == Some(pivot) { SameFieldsPermute(p, q); }
    if p.opens && p.closes && !p.trailing && multiset(p.items) == multiset(q.items) { PermutedWellFormed(p, q); }
  }

  /** What is issued is accepted, and yields the row it was issued after. */
  lemma CursorRoundTrip(f: Formats, c: Context, pivot: Pivot)
    requires Sound(f)
    ensures Decoded(f, c, Issued(f, c, pivot)) == Some(pivot)
  {
    IssuedWellFormed(f, c, pivot);
    DecodesExactlyTheIssued(f, c, Issued(f, c, pivot), pivot);
  }

  lemma PrintedId(f: Formats, x: int)
    requires Sound(f)
    ensures f.parseId(f.id(x)) == Some(x) && f.id(x) != ""
  {}

  /** A cursor accepted under one community, caller and set of filters is
      accepted under no other. */
  lemma CursorBoundToContext(f: Formats, c: Context, d: Context, p: Payload)
    requires Sound(f) && Decoded(f, c, p).Some? && Decoded(f, d, p).Some?
    ensures c == d && Decoded(f, c, p) == Decoded(f, d, p)
  {
    assert f.parseId(f.id(c.community)) == f.parseId(f.id(d.community));
    assert f.parseId(f.id(c.caller)) == f.parseId(f.id(d.caller));
    if c.unit.Some? { PrintedId(f, c.unit.value); }
    if d.unit.Some? { PrintedId(f, d.unit.value); }
  }
}
