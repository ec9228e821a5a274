/** Following next_cursor: against a fixed database the pages are the sorted,
    filtered list cut into pieces; against a changing one nothing comes twice
    and nothing that stayed in view is missed. */
module IncidentWalk {
  import opened Common
  import opened IncidentCursor
  import opened Incidents

  // ---- The query's order

  ghost predicate Descending(rows: seq<Incident>) {
    forall i, j :: 0 <= i < j < |rows| ==> Before(Key(rows[j]), Key(rows[i]))
  }

  ghost predicate DistinctIds(rows: seq<Incident>) {
    forall i, j :: 0 <= i < j < |rows| ==> rows[i].id != rows[j].id
  }

  lemma {:induction false} InsertSpec(rows: seq<Incident>, x: Incident)
    requires Descending(rows) && forall i :: 0 <= i < |rows| ==> rows[i].id != x.id
    ensures Descending(Insert(rows, x))
    ensures forall y :: y in Insert(rows, x) <==> y == x || y in rows
  {
    if rows != [] && !Before(Key(rows[0]), Key(x)) {
      InsertSpec(rows[1..], x);
      var rest := Insert(rows[1..], x);
      forall j | 0 <= j < |rest| ensures Before(Key(rest[j]), Key(rows[0])) {
        assert rest[j] in rest;
      }
    }
  }

  lemma {:induction false} SortSpec(rows: seq<Incident>)
    requires DistinctIds(rows)
    ensures Descending(Sort(rows)) && forall y :: y in Sort(rows) <==> y in rows
  {
    if rows != [] {
      SortSpec(rows[1..]);
      var sorted := Sort(rows[1..]);
      forall i | 0 <= i < |sorted| ensures sorted[i].id != rows[0].id {
        assert sorted[i] in rows[1..];
      }
      InsertSpec(sorted, rows[0]);
    }
  }

  lemma {:induction false} SelectSpec(db: Db, c: Context, pivot: Option<Pivot>, table: seq<Incident>)
    requires DistinctIds(table)
    ensures forall y :: y in Select(db, c, pivot, table) <==> y in table && Selected(db, c, pivot, y)
    ensures DistinctIds(Select(db, c, pivot, table))
  {
    if table != [] {
      SelectSpec(db, c, pivot, table[1..]);
      var rest := Select(db, c, pivot, table[1..]);
      forall i | 0 <= i < |rest| ensures rest[i].id != table[0].id {
        assert rest[i] in table[1..];
      }
    }
  }

  /** The query returns exactly the selected rows, strictly descending. */
  lemma RestSpec(db: Db, c: Context, pivot: Option<Pivot>)
    requires Stored(db)
    ensures Descending(Rest(db, c, pivot))
    ensures forall y :: y in Rest(db, c, pivot) <==> y in db.incidents && Selected(db, c, pivot, y)
  {
    SelectSpec(db, c, pivot, db.incidents);
    SortSpec(Select(db, c, pivot, db.incidents));
  }

  lemma HeadIn(b: seq<Incident>)
    requires b != []
    ensures b[0] in b
  {}

  /** A strictly descending list is determined by its members. */
  lemma {:induction false} DescendingUnique(a: seq<Incident>, b: seq<Incident>)
    requires Descending(a) && Descending(b) && forall y :: y in a <==> y in b
    ensures a == b
  {
    if a == [] {
      if b != [] { HeadIn(b); }
    } else {
      assert a[0] in b;
      assert b[0] in a;
      assert a[0] == b[0];
      forall y ensures y in a[1..] <==> y in b[1..] {
        if y in a[1..] { TailMember(a, b, y); }
        if y in b[1..] { TailMember(b, a, y); }
      }
      DescendingUnique(a[1..], b[1..]);
    }
  }

  lemma TailMember(a: seq<Incident>, b: seq<Incident>, y: Incident)
    requires a != [] && b != [] && Descending(a) && y in a[1..] && y in b && a[0] == b[0]
    ensures y in b[1..]
  {
    var i :| 1 <= i < |a| && a[i] == y;
    assert Before(Key(a[i]), Key(a[0]));
    var j :| 0 <= j < |b| && b[j] == y;
    assert j != 0;
  }

  /** What comes after the n-th row is the rest of the list from there. */
  lemma RestAfter(db: Db, c: Context, pivot: Option<Pivot>, n: nat)
    requires Stored(db) && 0 < n <= |Rest(db, c, pivot)|
    ensures Rest(db, c, Some(Key(Rest(db, c, pivot)[n - 1]))) == Rest(db, c, pivot)[n..]
  {
    var all := Rest(db, c, pivot);
    var later := Some(Key(all[n - 1]));
    RestSpec(db, c, pivot);
    RestSpec(db, c, later);
    forall y ensures y in Rest(db, c, later) <==> y in all[n..] {
      if y in all[n..] {
        var i :| n <= i < |all| && all[i] == y;
        assert y in all && Before(Key(all[i]), Key(all[n - 1]));
      }
      if y in Rest(db, c, later) {
        assert Selected(db, c, pivot, all[n - 1]) by { assert all[n - 1] in all; }
        BeforeTrans(Key(y), Key(all[n - 1]), pivot);
        assert y in all;
        var i :| 0 <= i < |all| && all[i] == y;
        assert i >= n;
      }
    }
    DescendingUnique(Rest(db, c, later), all[n..]);
  }

  lemma BeforeTrans(a: Pivot, b: Pivot, c: Option<Pivot>)
    requires Before(a, b) && (c.Some? ==> Before(b, c.value))
    ensures c.Some? ==> Before(a, c.value)
  {}

  // ---- Walks

  /** The client follows next_cursor, keeping its other parameters, while the
      database may be another one at each statement of each request. */
  ghost predicate Walk(f: Formats, at: seq<Reads>, community: int, caller: int, req: Request, pages: seq<Response>)
    decreases |pages|
  {
    && |at| == |pages| > 0
    && pages[0].Page? && pages[0] == Listing(f, at[0], community, caller, req)
    && (|pages| > 1 ==>
          pages[0].next.Some?
          && Walk(f, at[1..], community, caller, req.(cursor := Cursor(pages[0].next.value)), pages[1..]))
  }

  predicate Completed(pages: seq<Response>)
    requires |pages| > 0
  {
    var last := pages[|pages| - 1];
    last.Page? && last.next.None?
  }

  function Items(pages: seq<Response>): seq<Shown> {
    if pages == [] then [] else (if pages[0].Page? then pages[0].items else []) + Items(pages[1..])
  }

  function ShownKey(x: Shown): Pivot { Pivot(x.createdAt, x.id) }

  ghost predicate AllStored(at: seq<Reads>) {
    forall k :: 0 <= k < |at| ==> Stored(at[k].page)
  }

  /** The request asks for the page after `pivot`. */
  ghost predicate StartsAt(f: Formats, community: int, caller: int, req: Request, pivot: Option<Pivot>) {
    if pivot.None? then req.cursor == NoCursor
    else req.cursor == Cursor(Issued(f, ContextOf(community, caller, req), pivot.value))
  }

  /** An issued cursor leads to exactly the page after its pivot. */
  lemma ListingAt(f: Formats, at: Reads, community: int, caller: int, req: Request, pivot: Option<Pivot>)
    requires Sound(f) && StartsAt(f, community, caller, req, pivot)
    ensures var c := ContextOf(community, caller, req);
            var r := Listing(f, at, community, caller, req);
            && (r.Page? ==> Limit(req) >= 1 && r == Answer(f, at.page, c, pivot, Limit(req)))
            && (r.Page? <==> Acceptable(at.unit, community, req)
                             && (pivot.Some? ==> Anchored(at.anchor, c, pivot.value)))
  {
    if pivot.Some? {
      CursorRoundTrip(f, ContextOf(community, caller, req), pivot.value);
    }
  }

  lemma PageSpec(f: Formats, db: Db, c: Context, pivot: Option<Pivot>, limit: nat)
    requires limit >= 1
    ensures var all := Rest(db, c, pivot);
            if |all| > limit then
              && PageRows(db, c, pivot, limit) == all[..limit]
              && NextPivot(db, c, pivot, limit) == Some(Key(all[limit - 1]))
            else
              PageRows(db, c, pivot, limit) == all && NextPivot(db, c, pivot, limit) == None
  {
    var all := Rest(db, c, pivot);
    if |all| > limit {
      assert all[..limit + 1][..limit] == all[..limit];
    }
  }

  lemma {:induction false} ProjectAt(rows: seq<Incident>)
    ensures |Project(rows)| == |rows| && forall k :: 0 <= k < |rows| ==> Project(rows)[k] == Show(rows[k])
  {
    if rows != [] { ProjectAt(rows[1..]); }
  }

  lemma {:induction false} ProjectConcat(a: seq<Incident>, b: seq<Incident>)
    ensures Project(a + b) == Project(a) + Project(b)
  {
    if a == [] {
      assert a + b == b;
    } else {
      assert (a + b)[1..] == a[1..] + b;
      ProjectConcat(a[1..], b);
    }
  }

  // ---- A database that changes under the walk

  ghost predicate DescendingShown(items: seq<Shown>) {
    forall i, j :: 0 <= i < j < |items| ==> Before(ShownKey(items[j]), ShownKey(items[i]))
  }

  ghost predicate AllBefore(items: seq<Shown>, pivot: Option<Pivot>) {
    pivot.Some? ==> forall i :: 0 <= i < |items| ==> Before(ShownKey(items[i]), pivot.value)
  }

  /** One page is descending, starts before its pivot, and ends at the next. */
  lemma PageDescends(f: Formats, db: Db, c: Context, pivot: Option<Pivot>, limit: nat)
    requires Stored(db) && limit >= 1
    ensures var items := Answer(f, db, c, pivot, limit).items;
            var next := NextPivot(db, c, pivot, limit);
            && DescendingShown(items) && AllBefore(items, pivot)
            && (next.Some? ==> items != [] && ShownKey(items[|items| - 1]) == next.value)
  {
    var rows := PageRows(db, c, pivot, limit);
    PageSpec(f, db, c, pivot, limit);
    RestSpec(db, c, pivot);
    ProjectAt(rows);
    if pivot.Some? {
      forall i | 0 <= i < |rows| ensures Before(Key(rows[i]), pivot.value) {
        assert rows[i] in Rest(db, c, pivot);
      }
    }
  }

  lemma DescendingConcat(a: seq<Shown>, b: seq<Shown>, next: Pivot, pivot: Option<Pivot>)
    requires DescendingShown(a) && DescendingShown(b) && AllBefore(a, pivot) && AllBefore(b, Some(next))
    requires a != [] && ShownKey(a[|a| - 1]) == next
    ensures DescendingShown(a + b) && AllBefore(a + b, pivot)
  {
    forall i, j | 0 <= i < |a| && 0 <= j < |b| ensures Before(ShownKey(b[j]), ShownKey(a[i])) {
      assert i < |a| - 1 ==> Before(next, ShownKey(a[i]));
    }
  }

  lemma {:induction false} WalkDescends(f: Formats, at: seq<Reads>, community: int, caller: int, req: Request,
                                        pivot: Option<Pivot>, pages: seq<Response>)
    requires Sound(f) && AllStored(at) && StartsAt(f, community, caller, req, pivot)
    requires Walk(f, at, community, caller, req, pages)
    ensures DescendingShown(Items(pages)) && AllBefore(Items(pages), pivot)
    decreases |pages|
  {
    var c := ContextOf(community, caller, req);
    ListingAt(f, at[0], community, caller, req, pivot);
    PageDescends(f, at[0].page, c, pivot, Limit(req));
    if |pages| > 1 {
      var next := NextPivot(at[0].page, c, pivot, Limit(req));
      var req' := req.(cursor := Cursor(pages[0].next.value));
      WalkDescends(f, at[1..], community, caller, req', next, pages[1..]);
      DescendingConcat(pages[0].items, Items(pages[1..]), next.value, pivot);
    } else {
      assert Items(pages[1..]) == [];
      assert Items(pages) == pages[0].items;
    }
  }

  /** A row with this creation time and id is there, visible and matching. */
  ghost predicate InView(db: Db, c: Context, key: Pivot) {
    exists i :: i in db.incidents && Key(i) == key && Visible(db, c.community, c.caller, i) && Filtered(c, i)
  }

  ghost predicate Listed(items: seq<Shown>, key: Pivot) {
    exists n :: 0 <= n < |items| && ShownKey(items[n]) == key
  }

  /** A row in view is on this page or before the next page's pivot. */
  lemma PageCovers(f: Formats, db: Db, c: Context, pivot: Option<Pivot>, limit: nat, key: Pivot)
    requires Stored(db) && limit >= 1 && InView(db, c, key) && (pivot.Some? ==> Before(key, pivot.value))
    ensures var next := NextPivot(db, c, pivot, limit);
            Listed(Answer(f, db, c, pivot, limit).items, key) || (next.Some? && Before(key, next.value))
  {
    var i :| i in db.incidents && Key(i) == key && Visible(db, c.community, c.caller, i) && Filtered(c, i);
    var all := Rest(db, c, pivot);
    RestSpec(db, c, pivot);
    PageSpec(f, db, c, pivot, limit);
    ProjectAt(PageRows(db, c, pivot, limit));
    assert i in all;
    var n :| 0 <= n < |all| && all[n] == i;
    if n < |PageRows(db, c, pivot, limit)| {
      assert ShownKey(Answer(f, db, c, pivot, limit).items[n]) == key;
    }
  }

  lemma ListedConcat(a: seq<Shown>, b: seq<Shown>, key: Pivot)
    requires Listed(a, key) || Listed(b, key)
    ensures Listed(a + b, key)
  {
    if Listed(a, key) {
      var n :| 0 <= n < |a| && ShownKey(a[n]) == key;
      assert (a + b)[n] == a[n];
    } else {
      var n :| 0 <= n < |b| && ShownKey(b[n]) == key;
      assert (a + b)[|a| + n] == b[n];
    }
  }

  lemma {:induction false} WalkCovers(f: Formats, at: seq<Reads>, community: int, caller: int, req: Request,
                                      pivot: Option<Pivot>, pages: seq<Response>, key: Pivot)
    requires Sound(f) && AllStored(at) && StartsAt(f, community, caller, req, pivot)
    requires Walk(f, at, community, caller, req, pages) && Completed(pages)
    requires pivot.Some? ==> Before(key, pivot.value)
    requires forall k :: 0 <= k < |at| ==> InView(at[k].page, ContextOf(community, caller, req), key)
    ensures Listed(Items(pages), key)
    decreases |pages|
  {
    var c := ContextOf(community, caller, req);
    ListingAt(f, at[0], community, caller, req, pivot);
    PageCovers(f, at[0].page, c, pivot, Limit(req), key);
    if |pages| > 1 && !Listed(pages[0].items, key) {
      var req' := req.(cursor := Cursor(pages[0].next.value));
      WalkCovers(f, at[1..], community, caller, req', NextPivot(at[0].page, c, pivot, Limit(req)), pages[1..], key);
    }
    ListedConcat(pages[0].items, Items(pages[1..]), key);
  }

  // ---- Main results

  /** Incidents keep their creation time. */
  ghost predicate TimesFixed(items: seq<Shown>) {
    forall i, j :: 0 <= i < |items| && 0 <= j < |items| && items[i].id == items[j].id ==>
      items[i].createdAt == items[j].createdAt
  }

  /** Whatever is inserted, deleted, hidden or changed between the statements, no
      (created_at, id) is returned twice; so no incident is, creation times
      being fixed. */
  lemma NothingTwice(f: Formats, at: seq<Reads>, community: int, caller: int, req: Request, pages: seq<Response>)
    requires Sound(f) && AllStored(at) && req.cursor == NoCursor && Walk(f, at, community, caller, req, pages)
    ensures var items := Items(pages);
            && DescendingShown(items)
            && (TimesFixed(items) ==> forall i, j :: 0 <= i < j < |items| ==> items[i].id != items[j].id)
  {
    WalkDescends(f, at, community, caller, req, None, pages);
    var items := Items(pages);
    if TimesFixed(items) {
      forall i, j | 0 <= i < j < |items| ensures items[i].id != items[j].id {
        assert Before(ShownKey(items[j]), ShownKey(items[i]));
      }
    }
  }

  /** A completed walk misses no incident that was visible and matched the
      filters at the page query of every one of its requests. */
  lemma NothingMissed(f: Formats, at: seq<Reads>, community: int, caller: int, req: Request, pages: seq<Response>,
                      key: Pivot)
    requires Sound(f) && AllStored(at) && req.cursor == NoCursor
    requires Walk(f, at, community, caller, req, pages) && Completed(pages)
    requires forall k :: 0 <= k < |at| ==> InView(at[k].page, ContextOf(community, caller, req), key)
    ensures exists n :: 0 <= n < |Items(pages)| && ShownKey(Items(pages)[n]) == key
  {
    WalkCovers(f, at, community, caller, req, None, pages, key);
  }

  // ---- What a page shows

  /** A shown incident is of the community asked for and matches the filters in
      the public vocabulary they were given in. */
  ghost predicate MatchesRequest(community: int, req: Request, x: Shown) {
    && x.community == community && (req.status != "" ==> x.status == req.status)
    && (req.category != "" ==> x.category == req.category)
    && (req.unit.UnitId? ==> x.unit == Some(req.unit.id))
  }

  /** Every page, on any database and from any good cursor, holds at most the
      limit of incidents, each visible to the caller and matching the request. */
  lemma PageMatchesRequest(f: Formats, at: Reads, community: int, caller: int, req: Request, n: nat)
    requires Stored(at.page) && Listing(f, at, community, caller, req).Page?
    requires n < |Listing(f, at, community, caller, req).items|
    ensures |Listing(f, at, community, caller, req).items| <= Limit(req) <= MAX_LIMIT
    ensures MatchesRequest(community, req, Listing(f, at, community, caller, req).items[n])
    ensures exists i :: i in at.page.incidents && Visible(at.page, community, caller, i)
                        && Listing(f, at, community, caller, req).items[n] == Show(i)
  {
    var c := ContextOf(community, caller, req);
    var pivot := if req.cursor.NoCursor? then None else Decoded(f, c, req.cursor.payload);
    var rows := PageRows(at.page, c, pivot, Limit(req));
    PageSpec(f, at.page, c, pivot, Limit(req));
    RestSpec(at.page, c, pivot);
    ProjectAt(rows);
    var i := rows[n];
    assert i in Rest(at.page, c, pivot);
    CategoriesCorrespond(c.category, i.category);
  }

  /** Neither an office role over the community nor an active membership in it. */
  ghost predicate Outsider(db: Db, community: int, caller: int) {
    && (community in db.communities ==> !OfficeAdmin(db, db.communities[community].office, caller))
    && (forall um :: um in db.unitMembers ==> !Active(db, um, community, caller))
  }

  ghost predicate OwnPrivate(x: Shown, community: int, caller: int) {
    x.community == community && !x.common && x.createdBy == caller
  }

  /** Whoever is an outsider at every page query of a walk is shown nothing on any
      of its pages but the private incidents they reported themselves. */
  lemma {:induction false} OutsidersSeeOnlyTheirOwn(f: Formats, at: seq<Reads>, community: int, caller: int,
                                                    req: Request, pages: seq<Response>)
    requires AllStored(at) && Walk(f, at, community, caller, req, pages)
    requires forall k :: 0 <= k < |at| ==> Outsider(at[k].page, community, caller)
    ensures forall x :: x in Items(pages) ==> OwnPrivate(x, community, caller)
    decreases |pages|
  {
    forall n | 0 <= n < |pages[0].items| ensures OwnPrivate(pages[0].items[n], community, caller) {
      PageMatchesRequest(f, at[0], community, caller, req, n);
    }
    if |pages| > 1 {
      var req' := req.(cursor := Cursor(pages[0].next.value));
      OutsidersSeeOnlyTheirOwn(f, at[1..], community, caller, req', pages[1..]);
    }
  }

  // ---- A fixed database

  function Same(db: Db): Reads { Reads(db, db, db) }

  function Repeat(db: Db, n: nat): (at: seq<Reads>)
    ensures |at| == n && forall k :: 0 <= k < n ==> at[k] == Same(db)
  {
    if n == 0 then [] else [Same(db)] + Repeat(db, n - 1)
  }

  lemma {:induction false} FindsVisible(db: Db, community: int, caller: int, table: seq<Incident>, i: Incident)
    requires DistinctIds(table) && i in table && Visible(db, community, caller, i)
    ensures GetVisible(db, community, caller, i.id, table) == Some(i)
  {
    if table[0] != i {
      var k :| 1 <= k < |table| && table[k] == i;
      assert table[0].id != table[k].id;
      FindsVisible(db, community, caller, table[1..], i);
    }
  }

  /** The last row of a page is still a good anchor for the next request. */
  lemma RowAnchors(db: Db, c: Context, pivot: Option<Pivot>, i: Incident)
    requires Stored(db) && i in Rest(db, c, pivot)
    ensures Anchored(db, c, Key(i))
  {
    RestSpec(db, c, pivot);
    FindsVisible(db, c.community, c.caller, db.incidents, i);
    CategoriesCorrespond(c.category, i.category);
  }

  lemma Prepend(f: Formats, db: Db, community: int, caller: int, req: Request, first: Response, later: seq<Response>)
    requires first.Page? && first == Listing(f, Same(db), community, caller, req) && first.next.Some?
    requires Walk(f, Repeat(db, |later|), community, caller, req.(cursor := Cursor(first.next.value)), later)
    ensures Walk(f, Repeat(db, |later| + 1), community, caller, req, [first] + later)
    ensures Completed([first] + later) == Completed(later)
    ensures Items([first] + later) == first.items + Items(later)
  {
    var pages := [first] + later;
    assert pages[0] == first && pages[1..] == later && pages[|pages| - 1] == later[|later| - 1];
    assert Repeat(db, |later| + 1)[1..] == Repeat(db, |later|);
  }

  /** The page after a pivot, and how the rest of the list continues it. */
  lemma PageOfRest(f: Formats, db: Db, c: Context, pivot: Option<Pivot>, limit: nat)
    requires Stored(db) && limit >= 1
    ensures var all := Rest(db, c, pivot);
            var page := Answer(f, db, c, pivot, limit);
            if |all| <= limit then page == Page(Project(all), None)
            else
              var next := Key(all[limit - 1]);
              && page.next == Some(Issued(f, c, next)) && |page.items| == limit && Anchored(db, c, next)
              && Project(all) == page.items + Project(Rest(db, c, Some(next)))
              && |Rest(db, c, Some(next))| == |all| - limit
  {
    var all := Rest(db, c, pivot);
    PageSpec(f, db, c, pivot, limit);
    if |all| > limit {
      RestAfter(db, c, pivot, limit);
      RowAnchors(db, c, pivot, all[limit - 1]);
      assert all == all[..limit] + all[limit..];
      ProjectConcat(all[..limit], all[limit..]);
      ProjectAt(all[..limit]);
    }
  }

  lemma OnePage(f: Formats, db: Db, community: int, caller: int, req: Request, first: Response)
    requires first.Page? && first == Listing(f, Same(db), community, caller, req)
    ensures Walk(f, Repeat(db, 1), community, caller, req, [first]) && Items([first]) == first.items
  {
    assert Items([first]) == first.items + Items([first][1..]);
  }

  /** How many pages a list of `n` rows takes: full ones, then a last one of at
      most the limit. */
  function PageCount(n: nat, limit: nat): nat
    requires limit >= 1
  {
    if n <= limit then 1 else 1 + PageCount(n - limit, limit)
  }

  lemma {:induction false} PageCountBounds(n: nat, limit: nat)
    requires limit >= 1
    ensures (PageCount(n, limit) - 1) * limit <= n <= PageCount(n, limit) * limit
  {
    if n > limit {
      PageCountBounds(n - limit, limit);
      var k := PageCount(n - limit, limit);
      assert (k + 1) * limit == k * limit + limit && k * limit == (k - 1) * limit + limit;
    }
  }

  /** The request is acceptable and its cursor, if any, still anchored. */
  ghost predicate Ready(f: Formats, db: Db, community: int, caller: int, req: Request, pivot: Option<Pivot>) {
    && StartsAt(f, community, caller, req, pivot) && Acceptable(db, community, req)
    && (pivot.Some? ==> Anchored(db, ContextOf(community, caller, req), pivot.value))
  }

  lemma LastPage(f: Formats, db: Db, community: int, caller: int, req: Request, pivot: Option<Pivot>)
    returns (pages: seq<Response>)
    requires Sound(f) && Stored(db) && Ready(f, db, community, caller, req, pivot)
    requires |Rest(db, ContextOf(community, caller, req), pivot)| <= Limit(req)
    ensures Walk(f, Repeat(db, |pages|), community, caller, req, pages) && Completed(pages)
    ensures var all := Rest(db, ContextOf(community, caller, req), pivot);
            Items(pages) == Project(all) && |pages| == PageCount(|all|, Limit(req))
  {
    ListingAt(f, Same(db), community, caller, req, pivot);
    PageOfRest(f, db, ContextOf(community, caller, req), pivot, Limit(req));
    var first := Listing(f, Same(db), community, caller, req);
    OnePage(f, db, community, caller, req, first);
    pages := [first];
  }

  /** The request for the page after next is ready in its turn. */
  lemma NextReady(f: Formats, db: Db, community: int, caller: int, req: Request, pivot: Option<Pivot>)
    returns (next: Pivot, req': Request)
    requires Sound(f) && Stored(db) && Ready(f, db, community, caller, req, pivot)
    requires |Rest(db, ContextOf(community, caller, req), pivot)| > Limit(req)
    ensures next == Key(Rest(db, ContextOf(community, caller, req), pivot)[Limit(req) - 1])
    ensures req' == req.(cursor := Cursor(Issued(f, ContextOf(community, caller, req), next)))
    ensures Ready(f, db, community, caller, req', Some(next))
    ensures |Rest(db, ContextOf(community, caller, req'), Some(next))|
         == |Rest(db, ContextOf(community, caller, req), pivot)| - Limit(req)
  {
    PageOfRest(f, db, ContextOf(community, caller, req), pivot, Limit(req));
    next := Key(Rest(db, ContextOf(community, caller, req), pivot)[Limit(req) - 1]);
    req' := req.(cursor := Cursor(Issued(f, ContextOf(community, caller, req), next)));
  }

  /** The page before a ready request, and what it leaves for the rest. */
  lemma FullFirst(f: Formats, db: Db, community: int, caller: int, req: Request, pivot: Option<Pivot>, next: Pivot)
    returns (first: Response)
    requires Sound(f) && Stored(db) && Ready(f, db, community, caller, req, pivot)
    requires |Rest(db, ContextOf(community, caller, req), pivot)| > Limit(req)
    requires next == Key(Rest(db, ContextOf(community, caller, req), pivot)[Limit(req) - 1])
    ensures first == Listing(f, Same(db), community, caller, req) && first.Page?
    ensures first.next == Some(Issued(f, ContextOf(community, caller, req), next))
    ensures var c := ContextOf(community, caller, req);
            && Project(Rest(db, c, pivot)) == first.items + Project(Rest(db, c, Some(next)))
            && |Rest(db, c, Some(next))| == |Rest(db, c, pivot)| - Limit(req)
  {
    ListingAt(f, Same(db), community, caller, req, pivot);
    PageOfRest(f, db, ContextOf(community, caller, req), pivot, Limit(req));
    first := Listing(f, Same(db), community, caller, req);
  }

  lemma OnePageMore(n: nat, limit: nat)
    requires n > limit >= 1
    ensures PageCount(n, limit) == PageCount(n - limit, limit) + 1
  {}

  lemma FullPage(f: Formats, db: Db, community: int, caller: int, req: Request, pivot: Option<Pivot>, next: Pivot,
                 req': Request, later: seq<Response>) returns (pages: seq<Response>)
    requires Sound(f) && Stored(db) && Ready(f, db, community, caller, req, pivot)
    requires |Rest(db, ContextOf(community, caller, req), pivot)| > Limit(req)
    requires next == Key(Rest(db, ContextOf(community, caller, req), pivot)[Limit(req) - 1])
    requires req' == req.(cursor := Cursor(Issued(f, ContextOf(community, caller, req), next)))
    requires Walk(f, Repeat(db, |later|), community, caller, req', later) && Completed(later)
    requires var rest := Rest(db, ContextOf(community, caller, req'), Some(next));
             Items(later) == Project(rest) && |later| == PageCount(|rest|, Limit(req'))
    ensures Walk(f, Repeat(db, |pages|), community, caller, req, pages) && Completed(pages)
    ensures var all := Rest(db, ContextOf(community, caller, req), pivot);
            Items(pages) == Project(all) && |pages| == PageCount(|all|, Limit(req))
  {
    var c := ContextOf(community, caller, req);
    var first := FullFirst(f, db, community, caller, req, pivot, next);
    Prepend(f, db, community, caller, req, first, later);
    OnePageMore(|Rest(db, c, pivot)|, Limit(req));
    pages := [first] + later;
  }

  /** From any pivot there is a completed walk, and it returns exactly the rest
      of the list, in full pages but for the last. */
  lemma {:induction false} FixedFrom(f: Formats, db: Db, community: int, caller: int, req: Request,
                                     pivot: Option<Pivot>) returns (pages: seq<Response>)
    requires Sound(f) && Stored(db) && Ready(f, db, community, caller, req, pivot)
    ensures Walk(f, Repeat(db, |pages|), community, caller, req, pages) && Completed(pages)
    ensures var all := Rest(db, ContextOf(community, caller, req), pivot);
            Items(pages) == Project(all) && |pages| == PageCount(|all|, Limit(req))
    decreases |Rest(db, ContextOf(community, caller, req), pivot)|
  {
    if |Rest(db, ContextOf(community, caller, req), pivot)| > Limit(req) {
      var next, req' := NextReady(f, db, community, caller, req, pivot);
      var later := FixedFrom(f, db, community, caller, req', Some(next));
      pages := FullPage(f, db, community, caller, req, pivot, next, req', later);
    } else {
      pages := LastPage(f, db, community, caller, req, pivot);
    }
  }

  /** Any walk over a fixed database returns a prefix of the list, and all of it
      once it is completed. */
  lemma {:induction false} FixedPrefix(f: Formats, db: Db, community: int, caller: int, req: Request,
                                       pivot: Option<Pivot>, pages: seq<Response>)
    requires Sound(f) && Stored(db) && StartsAt(f, community, caller, req, pivot)
    requires Walk(f, Repeat(db, |pages|), community, caller, req, pages)
    ensures Items(pages) <= Project(Rest(db, ContextOf(community, caller, req), pivot))
    ensures Completed(pages) ==> Items(pages) == Project(Rest(db, ContextOf(community, caller, req), pivot))
    decreases |pages|
  {
    var c, limit := ContextOf(community, caller, req), Limit(req);
    var all := Rest(db, c, pivot);
    ListingAt(f, Same(db), community, caller, req, pivot);
    PageOfRest(f, db, c, pivot, limit);
    if |pages| > 1 {
      var req' := req.(cursor := Cursor(pages[0].next.value));
      assert Repeat(db, |pages|)[1..] == Repeat(db, |pages[1..]|);
      FixedPrefix(f, db, community, caller, req', Some(Key(all[limit - 1])), pages[1..]);
    } else {
      assert Items(pages) == pages[0].items + Items(pages[1..]);
    }
  }

  lemma CompletedWalkIsTheList(f: Formats, db: Db, community: int, caller: int, req: Request, pages: seq<Response>)
    requires Sound(f) && Stored(db) && req.cursor == NoCursor
    requires Walk(f, Repeat(db, |pages|), community, caller, req, pages) && Completed(pages)
    ensures Items(pages) == Project(Rest(db, ContextOf(community, caller, req), None))
  {
    FixedPrefix(f, db, community, caller, req, None, pages);
  }

  lemma WalkExists(f: Formats, db: Db, community: int, caller: int, req: Request) returns (pages: seq<Response>)
    requires Sound(f) && Stored(db) && req.cursor == NoCursor && Acceptable(db, community, req)
    ensures Walk(f, Repeat(db, |pages|), community, caller, req, pages) && Completed(pages)
    ensures var all := Rest(db, ContextOf(community, caller, req), None);
            Items(pages) == Project(all) && |pages| == PageCount(|all|, Limit(req))
  {
    pages := FixedFrom(f, db, community, caller, req, None);
  }

  /** Over a fixed visible set, following next_cursor ends after finitely many
      pages and yields the filtered visible incidents, each once, in descending
      (created_at, id) order; no other completed walk yields anything else. */
  lemma FixedWalkIsTheList(f: Formats, db: Db, community: int, caller: int, req: Request) returns (pages: seq<Response>)
    requires Sound(f) && Stored(db) && req.cursor == NoCursor && Acceptable(db, community, req)
    ensures Walk(f, Repeat(db, |pages|), community, caller, req, pages) && Completed(pages)
    ensures var c := ContextOf(community, caller, req);
            var all := Rest(db, c, None);
            && Items(pages) == Project(all) && Descending(all)
            && |pages| == PageCount(|all|, Limit(req)) && (|pages| - 1) * Limit(req) <= |all| <= |pages| * Limit(req)
            && (forall y :: y in all <==> y in db.incidents && Visible(db, community, caller, y) && Filtered(c, y))
    ensures forall others :: Walk(f, Repeat(db, |others|), community, caller, req, others) && Completed(others) ==>
                               Items(others) == Items(pages)
  {
    pages := WalkExists(f, db, community, caller, req);
    PageCountBounds(|Rest(db, ContextOf(community, caller, req), None)|, Limit(req));
    RestSpec(db, ContextOf(community, caller, req), None);
    forall others | Walk(f, Repeat(db, |others|), community, caller, req, others) && Completed(others)
      ensures Items(others) == Items(pages)
    {
      CompletedWalkIsTheList(f, db, community, caller, req, others);
    }
  }
}
