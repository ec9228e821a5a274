/** Incidents, who may see them, and the list handler: filters, keyset page
    with one row of lookahead, and a cursor whose anchor is checked again. */
module Incidents {
  import opened Common
  import opened IncidentCursor

  const DEFAULT_LIMIT := 20
  const MAX_LIMIT := 100

  datatype Incident = Incident(id: int, community: int, unit: Option<int>, createdBy: int, category: string,
                               status: string, common: bool, deleted: bool, createdAt: int, content: string)

  datatype Community = Community(office: int, deleted: bool)

  datatype OfficeMember = OfficeMember(office: int, user: int, role: string, deleted: bool)

  datatype Unit = Unit(community: int, deleted: bool)

  datatype UnitMember = UnitMember(community: int, unit: int, user: int, from: Option<int>, to: Option<int>,
                                   deleted: bool)

  datatype Db = Db(now: int, incidents: seq<Incident>, communities: map<int, Community>,
                   officeMembers: set<OfficeMember>, units: map<int, Unit>, unitMembers: set<UnitMember>)

  /** The tables as the three statements of one request find them: the lookup of
      the unit asked for, of the cursor's anchor, and the page itself. */
  datatype Reads = Reads(unit: Db, anchor: Db, page: Db)

  const STORED: set<string> := {"elevator", "plumbing", "electricity", "cleaning", "locksmith", "gardening", "works",
                                "mandatory_works", "noise_and_coexistence", "other"}

  /** The table's primary key and its check on categories. */
  ghost predicate Stored(db: Db) {
    && (forall i, j :: 0 <= i < j < |db.incidents| ==> db.incidents[i].id != db.incidents[j].id)
    && (forall i :: 0 <= i < |db.incidents| ==> db.incidents[i].category in STORED)
  }

  // ---- Categories

  function StorageCategory(category: string): Option<string> {
    if category == "noise" then Some("noise_and_coexistence")
    else if category in STORED - {"noise_and_coexistence"} then Some(category)
    else None
  }

  function PublicCategory(category: string): string {
    if category == "noise_and_coexistence" then "noise" else category
  }

  /** The two vocabularies name the same categories: each public one is the
      public name of what it is stored as, and each stored one is reached. */
  lemma CategoriesCorrespond(category: string, stored: string)
    requires stored in STORED
    ensures StorageCategory(category) == Some(stored) <==> PublicCategory(stored) == category
    ensures StorageCategory(PublicCategory(stored)) == Some(stored)
  {}

  predicate ValidStatus(status: string) {
    status in {"open", "assigned", "in_progress", "resolved", "closed", "rejected"}
  }

  // ---- Visibility

  predicate OfficeAdmin(db: Db, office: int, caller: int) {
    exists om :: om in db.officeMembers && om.office == office && om.user == caller
      && (om.role == "admin" || om.role == "admin_staff") && !om.deleted
  }

  /** An active membership: neither deleted nor outside its validity, of a unit
      that still exists in the same community. */
  predicate Active(db: Db, um: UnitMember, community: int, caller: int) {
    && um.community == community && um.user == caller && !um.deleted
    && um.unit in db.units && db.units[um.unit] == Unit(community, false)
    && (um.from.None? || um.from.value <= db.now) && (um.to.None? || um.to.value > db.now)
  }

  predicate Visible(db: Db, community: int, caller: int, i: Incident) {
    && i.community == community && community in db.communities && !db.communities[community].deleted && !i.deleted
    && (|| OfficeAdmin(db, db.communities[community].office, caller)
        || (i.common && exists um :: um in db.unitMembers && Active(db, um, community, caller))
        || (!i.common && (i.createdBy == caller
                          || exists um :: um in db.unitMembers && Active(db, um, community, caller)
                               && i.unit == Some(um.unit))))
  }

  // ---- The list query

  function Key(i: Incident): Pivot { Pivot(i.createdAt, i.id) }

  /** Row comparison in SQL: (created_at, id) < (created_at, id). */
  predicate Before(a: Pivot, b: Pivot) {
    a.createdAt < b.createdAt || (a.createdAt == b.createdAt && a.id < b.id)
  }

  /** An absent filter is "" or None; the category filter compares as stored. */
  predicate Filtered(c: Context, i: Incident) {
    && (c.status == "" || i.status == c.status)
    && (c.category == "" || StorageCategory(c.category) == Some(i.category))
    && (c.unit.None? || i.unit == c.unit)
  }

  predicate Selected(db: Db, c: Context, pivot: Option<Pivot>, i: Incident) {
    Visible(db, c.community, c.caller, i) && Filtered(c, i) && (pivot.Some? ==> Before(Key(i), pivot.value))
  }

  function Select(db: Db, c: Context, pivot: Option<Pivot>, table: seq<Incident>): seq<Incident> {
    if table == [] then []
    else (if Selected(db, c, pivot, table[0]) then [table[0]] else []) + Select(db, c, pivot, table[1..])
  }

  function Insert(rows: seq<Incident>, i: Incident): seq<Incident> {
    if rows == [] || Before(Key(rows[0]), Key(i)) then [i] + rows else [rows[0]] + Insert(rows[1..], i)
  }

  /** ORDER BY created_at DESC, id DESC */
  function Sort(rows: seq<Incident>): seq<Incident> {
    if rows == [] then [] else Insert(Sort(rows[1..]), rows[0])
  }

  /** Everything the query would return without its limit. */
  function Rest(db: Db, c: Context, pivot: Option<Pivot>): seq<Incident> {
    Sort(Select(db, c, pivot, db.incidents))
  }

  function Take(rows: seq<Incident>, n: nat): seq<Incident> {
    if |rows| <= n then rows else rows[..n]
  }

  /** ListVisibleIncidents */
  function ListVisible(db: Db, c: Context, pivot: Option<Pivot>, pageSize: nat): seq<Incident> {
    Take(Rest(db, c, pivot), pageSize)
  }

  /** GetVisibleIncidentByID */
  function GetVisible(db: Db, community: int, caller: int, id: int, table: seq<Incident>): Option<Incident> {
    if table == [] then None
    else if table[0].id == id && Visible(db, community, caller, table[0]) then Some(table[0])
    else GetVisible(db, community, caller, id, table[1..])
  }

  // ---- The handler

  datatype UnitParam = NoUnit | BadUnit | UnitId(id: int)

  datatype CursorParam = NoCursor | Undecodable | Cursor(payload: Payload)

  datatype Request = Request(status: string, category: string, unit: UnitParam, limit: int, cursor: CursorParam)

  datatype Shown = Shown(id: int, community: int, unit: Option<int>, createdBy: int, category: string, status: string,
                         common: bool, createdAt: int, content: string)

  datatype Response = Page(items: seq<Shown>, next: Option<Payload>) | BadRequest

  /** incidentResponse */
  function Show(i: Incident): Shown {
    Shown(i.id, i.community, i.unit, i.createdBy, PublicCategory(i.category), i.status, i.common, i.createdAt,
          i.content)
  }

  function Project(rows: seq<Incident>): seq<Shown> {
    if rows == [] then [] else [Show(rows[0])] + Project(rows[1..])
  }

  function Limit(req: Request): int {
    if req.limit == 0 then DEFAULT_LIMIT else req.limit
  }

  function ContextOf(community: int, caller: int, req: Request): Context {
    Context(community, caller, req.status, req.category, if req.unit.UnitId? then Some(req.unit.id) else None)
  }

  /** The filters and the limit are acceptable. */
  predicate Acceptable(db: Db, community: int, req: Request) {
    && (req.status == "" || ValidStatus(req.status))
    && (req.category == "" || StorageCategory(req.category).Some?)
    && !req.unit.BadUnit?
    && (req.unit.UnitId? ==> req.unit.id in db.units && db.units[req.unit.id] == Unit(community, false))
    && 1 <= Limit(req) <= MAX_LIMIT
  }

  /** The cursor's anchor is still visible, unmoved, and passes the page's
      filters, categories compared by their public names. */
  predicate Anchored(db: Db, c: Context, pivot: Pivot) {
    var anchor := GetVisible(db, c.community, c.caller, pivot.id, db.incidents);
    && anchor.Some? && anchor.value.createdAt == pivot.createdAt
    && (c.status == "" || anchor.value.status == c.status)
    && (c.category == "" || PublicCategory(anchor.value.category) == c.category)
    && (c.unit.None? || anchor.value.unit == c.unit)
  }

  /** The page after a pivot: its rows, and the pivot of the next one if the
      lookahead row exists. */
  function PageRows(db: Db, c: Context, pivot: Option<Pivot>, limit: nat): seq<Incident> {
    Take(ListVisible(db, c, pivot, limit + 1), limit)
  }

  function NextPivot(db: Db, c: Context, pivot: Option<Pivot>, limit: nat): Option<Pivot>
    requires limit >= 1
  {
    var rows := ListVisible(db, c, pivot, limit + 1);
    if |rows| > limit then Some(Key(rows[limit - 1])) else None
  }

  function Answer(f: Formats, db: Db, c: Context, pivot: Option<Pivot>, limit: nat): Response
    requires limit >= 1
  {
    var next := NextPivot(db, c, pivot, limit);
    Page(Project(PageRows(db, c, pivot, limit)), if next.Some? then Some(Issued(f, c, next.value)) else None)
  }

  /** ListIncidents on values. */
  ghost function Listing(f: Formats, at: Reads, community: int, caller: int, req: Request): Response {
    var c := ContextOf(community, caller, req);
    if !Acceptable(at.unit, community, req) then BadRequest
    else match req.cursor
      case NoCursor => Answer(f, at.page, c, None, Limit(req))
      case Undecodable => BadRequest
      case Cursor(payload) =>
        var pivot := Decoded(f, c, payload);
        if pivot.None? || !Anchored(at.anchor, c, pivot.value) then BadRequest
        else Answer(f, at.page, c, pivot, Limit(req))
  }

  lemma {:induction false} ProjectSnoc(rows: seq<Incident>, i: Incident)
    ensures Project(rows + [i]) == Project(rows) + [Show(i)]
  {
    if rows != [] {
      assert (rows + [i])[1..] == rows[1..] + [i];
      ProjectSnoc(rows[1..], i);
    } else {
      assert rows + [i] == [i];
    }
  }

  method ShowAll(rows: seq<Incident>) returns (items: seq<Shown>)
    ensures items == Project(rows)
  {
    items := [];
    for k := 0 to |rows|
      invariant items == Project(rows[..k])
    {
      assert rows[..k + 1] == rows[..k] + [rows[k]];
      ProjectSnoc(rows[..k], rows[k]);
      items := items + [Show(rows[k])];
    }
    assert rows[..|rows|] == rows;
  }

  /** The query with its lookahead row, cut back to the page. */
  method FetchPage(f: Formats, db: Db, c: Context, pivot: Option<Pivot>, limit: nat) returns (r: Response)
    requires limit >= 1
    ensures r == Answer(f, db, c, pivot, limit)
  {
    var rows := ListVisible(db, c, pivot, limit + 1);
    var more := |rows| > limit;
    if more {
      rows := rows[..limit];
    }
    var items := ShowAll(rows);
    var next := None;
    if more {
      var last := rows[|rows| - 1];
      next := Some(Issued(f, c, Key(last)));
    }
    return Page(items, next);
  }

  method ListIncidents(f: Formats, at: Reads, community: int, caller: int, req: Request) returns (r: Response)
    ensures r == Listing(f, at, community, caller, req)
  {
    if req.status != "" && !ValidStatus(req.status) {
      return BadRequest;
    }
    if req.category != "" && StorageCategory(req.category).None? {
      return BadRequest;
    }
    if req.unit.BadUnit? {
      return BadRequest;
    }
    if req.unit.UnitId? {
      if req.unit.id !in at.unit.units || at.unit.units[req.unit.id] != Unit(community, false) {
        return BadRequest;
      }
    }
    var limit := req.limit;
    if limit == 0 {
      limit := DEFAULT_LIMIT;
    }
    if limit < 1 || limit > MAX_LIMIT {
      return BadRequest;
    }
    var c := ContextOf(community, caller, req);
    var pivot := None;
    if !req.cursor.NoCursor? {
      if req.cursor.Undecodable? {
        return BadRequest;
      }
      pivot := Decode(f, c, req.cursor.payload);
      if pivot.None? {
        return BadRequest;
      }
      var anchor := GetVisible(at.anchor, community, caller, pivot.value.id, at.anchor.incidents);
      if anchor.None? {
        return BadRequest;
      }
      var row := anchor.value;
      if row.createdAt != pivot.value.createdAt
         || (c.status != "" && row.status != c.status)
         || (c.category != "" && PublicCategory(row.category) != c.category)
         || (c.unit.Some? && row.unit != c.unit) {
        return BadRequest;
      }
    }
    r := FetchPage(f, at.page, c, pivot, limit);
  }
}
