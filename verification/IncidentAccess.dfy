/** Who is shown which incidents, told from the table rows: each shown incident
    has a ground, and each ground shows it. */
module IncidentAccess {
  import opened Common
  import opened IncidentCursor
  import opened Incidents
  import opened IncidentWalk

  /** A row that lets a caller see an incident. */
  datatype Ground = AsAdmin(om: OfficeMember) | AsReporter | AsMember(um: UnitMember)

  /** Admins and staff of the community's office see everything, reporters their
      private incidents, members the common ones and the private ones of their
      own unit, as long as their membership runs. */
  predicate Grants(db: Db, i: Incident, caller: int, ground: Ground) {
    match ground
    case AsAdmin(om) =>
      && om in db.officeMembers && !om.deleted && om.user == caller && om.role in {"admin", "admin_staff"}
      && i.community in db.communities && db.communities[i.community].office == om.office
    case AsReporter => !i.common && i.createdBy == caller
    case AsMember(um) =>
      && um in db.unitMembers && !um.deleted && um.user == caller && um.community == i.community
      && (um.from.Some? ==> um.from.value <= db.now) && (um.to.Some? ==> db.now < um.to.value)
      && um.unit in db.units && !db.units[um.unit].deleted && db.units[um.unit].community == i.community
      && (i.common || i.unit == Some(um.unit))
  }

  /** The incident and its community are there and not deleted. */
  predicate Stands(db: Db, i: Incident, community: int) {
    && i in db.incidents && !i.deleted && i.community == community
    && community in db.communities && !db.communities[community].deleted
  }

  /** The public vocabulary has one category that is stored under a longer name. */
  predicate IsCategory(stored: string, public: string) {
    if stored == "noise_and_coexistence" then public == "noise" else public == stored
  }

  predicate Meets(req: Request, i: Incident) {
    && (req.status != "" ==> i.status == req.status)
    && (req.category != "" ==> IsCategory(i.category, req.category))
    && (req.unit.UnitId? ==> i.unit == Some(req.unit.id))
  }

  predicate IsShown(i: Incident, x: Shown) {
    && x.id == i.id && x.community == i.community && x.unit == i.unit && x.createdBy == i.createdBy
    && IsCategory(i.category, x.category) && x.status == i.status && x.common == i.common
    && x.createdAt == i.createdAt && x.content == i.content
  }

  lemma AdminGround(db: Db, i: Incident, caller: int) returns (om: OfficeMember)
    requires i.community in db.communities && OfficeAdmin(db, db.communities[i.community].office, caller)
    ensures Grants(db, i, caller, AsAdmin(om))
  {
    om :| om in db.officeMembers && om.office == db.communities[i.community].office && om.user == caller
      && (om.role == "admin" || om.role == "admin_staff") && !om.deleted;
  }

  lemma MemberGround(db: Db, i: Incident, caller: int, um: UnitMember)
    requires um in db.unitMembers && (i.common || i.unit == Some(um.unit))
    ensures Active(db, um, i.community, caller) <==> Grants(db, i, caller, AsMember(um))
  {}

  lemma VisibleHasGround(db: Db, community: int, caller: int, i: Incident) returns (ground: Ground)
    requires i in db.incidents && Visible(db, community, caller, i)
    ensures Stands(db, i, community) && Grants(db, i, caller, ground)
  {
    if OfficeAdmin(db, db.communities[community].office, caller) {
      var om := AdminGround(db, i, caller);
      ground := AsAdmin(om);
    } else if !i.common && i.createdBy == caller {
      ground := AsReporter;
    } else {
      var um :| um in db.unitMembers && Active(db, um, community, caller) && (i.common || i.unit == Some(um.unit));
      MemberGround(db, i, caller, um);
      ground := AsMember(um);
    }
  }

  lemma GroundMakesVisible(db: Db, community: int, caller: int, i: Incident, ground: Ground)
    requires Stands(db, i, community) && Grants(db, i, caller, ground)
    ensures Visible(db, community, caller, i)
  {
    match ground
    case AsAdmin(om) =>
      assert om.office == db.communities[community].office && (om.role == "admin" || om.role == "admin_staff");
    case AsReporter =>
    case AsMember(um) => MemberGround(db, i, caller, um);
  }

  lemma MeetsIffFiltered(community: int, caller: int, req: Request, i: Incident)
    requires i.category in STORED
    ensures Meets(req, i) <==> Filtered(ContextOf(community, caller, req), i)
  {
    CategoriesCorrespond(req.category, i.category);
  }

  // ---- What a walk shows

  /** An incident of this table that the caller has a ground to see. */
  ghost predicate Granted(db: Db, community: int, caller: int, req: Request, i: Incident) {
    Stands(db, i, community) && Meets(req, i) && exists ground :: Grants(db, i, caller, ground)
  }

  lemma PageGranted(f: Formats, at: Reads, community: int, caller: int, req: Request, n: nat) returns (i: Incident)
    requires Stored(at.page) && Listing(f, at, community, caller, req).Page?
    requires n < |Listing(f, at, community, caller, req).items|
    ensures Granted(at.page, community, caller, req, i)
    ensures IsShown(i, Listing(f, at, community, caller, req).items[n])
  {
    PageMatchesRequest(f, at, community, caller, req, n);
    i :| i in at.page.incidents && Visible(at.page, community, caller, i)
      && Listing(f, at, community, caller, req).items[n] == Show(i);
    var ground := VisibleHasGround(at.page, community, caller, i);
  }

  ghost predicate GrantedSomewhere(at: seq<Reads>, community: int, caller: int, req: Request, x: Shown) {
    exists k, i :: 0 <= k < |at| && Granted(at[k].page, community, caller, req, i) && IsShown(i, x)
  }

  lemma GrantedLater(at: seq<Reads>, community: int, caller: int, req: Request, req': Request, x: Shown)
    requires |at| > 0 && GrantedSomewhere(at[1..], community, caller, req', x)
    requires req' == req.(cursor := req'.cursor)
    ensures GrantedSomewhere(at, community, caller, req, x)
  {
    var k, i :| 0 <= k < |at[1..]| && Granted(at[1..][k].page, community, caller, req', i) && IsShown(i, x);
    assert at[k + 1] == at[1..][k] && Granted(at[k + 1].page, community, caller, req, i);
  }

  /** Whatever a walk shows is, as shown, a row of the table its page was read
      from, meets the request, and the caller has a ground to see it. */
  lemma {:induction false} ShownIsGranted(f: Formats, at: seq<Reads>, community: int, caller: int, req: Request,
                                          pages: seq<Response>)
    requires AllStored(at) && Walk(f, at, community, caller, req, pages)
    ensures forall x :: x in Items(pages) ==> GrantedSomewhere(at, community, caller, req, x)
    decreases |pages|
  {
    forall n | 0 <= n < |pages[0].items| ensures GrantedSomewhere(at, community, caller, req, pages[0].items[n]) {
      var i := PageGranted(f, at[0], community, caller, req, n);
    }
    if |pages| > 1 {
      var req' := req.(cursor := Cursor(pages[0].next.value));
      ShownIsGranted(f, at[1..], community, caller, req', pages[1..]);
      forall x | x in Items(pages[1..]) ensures GrantedSomewhere(at, community, caller, req, x) {
        GrantedLater(at, community, caller, req, req', x);
      }
    }
  }

  /** The caller has no office role over the community in this table. */
  ghost predicate NoAdmin(db: Db, community: int, caller: int) {
    forall om :: om in db.officeMembers && om.user == caller && om.role in {"admin", "admin_staff"} && !om.deleted ==>
      community !in db.communities || db.communities[community].office != om.office
  }

  /** A running membership of the caller in this unit. */
  ghost predicate MemberOf(db: Db, community: int, caller: int, unit: Option<int>) {
    exists um :: um in db.unitMembers && !um.deleted && um.user == caller && um.community == community
      && Some(um.unit) == unit && (um.from.Some? ==> um.from.value <= db.now) && (um.to.Some? ==> db.now < um.to.value)
  }

  /** A private incident is shown to someone who is neither its reporter nor an
      office admin only for a running membership in the incident's own unit. */
  lemma PrivateNeedsOwnUnit(f: Formats, at: seq<Reads>, community: int, caller: int, req: Request,
                            pages: seq<Response>, x: Shown)
    requires AllStored(at) && Walk(f, at, community, caller, req, pages)
    requires x in Items(pages) && !x.common && x.createdBy != caller
    requires forall k :: 0 <= k < |at| ==> NoAdmin(at[k].page, community, caller)
    ensures exists k :: 0 <= k < |at| && MemberOf(at[k].page, community, caller, x.unit)
  {
    ShownIsGranted(f, at, community, caller, req, pages);
    var k, i :| 0 <= k < |at| && Granted(at[k].page, community, caller, req, i) && IsShown(i, x);
    var ground :| Grants(at[k].page, i, caller, ground);
    assert NoAdmin(at[k].page, community, caller);
    assert ground.AsMember? && ground.um in at[k].page.unitMembers;
    assert MemberOf(at[k].page, community, caller, x.unit);
  }

  // ---- What a walk must show

  ghost predicate GrantedKey(db: Db, community: int, caller: int, req: Request, id: int, createdAt: int) {
    exists i: Incident :: i.id == id && i.createdAt == createdAt && Granted(db, community, caller, req, i)
  }

  lemma GrantedInView(db: Db, community: int, caller: int, req: Request, id: int, createdAt: int)
    requires Stored(db) && GrantedKey(db, community, caller, req, id, createdAt)
    ensures InView(db, ContextOf(community, caller, req), Pivot(createdAt, id))
  {
    var i: Incident :| i.id == id && i.createdAt == createdAt && Granted(db, community, caller, req, i);
    var ground :| Grants(db, i, caller, ground);
    GroundMakesVisible(db, community, caller, i, ground);
    MeetsIffFiltered(community, caller, req, i);
  }

  /** Any one ground, at each page query, puts an incident that meets the request
      into every completed walk. */
  lemma GrantedIsListed(f: Formats, at: seq<Reads>, community: int, caller: int, req: Request, pages: seq<Response>,
                        id: int, createdAt: int)
    requires Sound(f) && AllStored(at) && req.cursor == NoCursor
    requires Walk(f, at, community, caller, req, pages) && Completed(pages)
    requires forall k :: 0 <= k < |at| ==> GrantedKey(at[k].page, community, caller, req, id, createdAt)
    ensures exists n :: 0 <= n < |Items(pages)| && Items(pages)[n].id == id && Items(pages)[n].createdAt == createdAt
  {
    var key := Pivot(createdAt, id);
    forall k | 0 <= k < |at| ensures InView(at[k].page, ContextOf(community, caller, req), key) {
      GrantedInView(at[k].page, community, caller, req, id, createdAt);
    }
    NothingMissed(f, at, community, caller, req, pages, key);
    var n :| 0 <= n < |Items(pages)| && ShownKey(Items(pages)[n]) == key;
    assert Items(pages)[n].id == id;
  }

  /** Newest first, and the larger id first among equally old ones. */
  lemma NewestFirst(f: Formats, at: seq<Reads>, community: int, caller: int, req: Request, pages: seq<Response>)
    requires Sound(f) && AllStored(at) && req.cursor == NoCursor && Walk(f, at, community, caller, req, pages)
    ensures forall a, b :: 0 <= a < b < |Items(pages)| ==>
              && Items(pages)[b].createdAt <= Items(pages)[a].createdAt
              && (Items(pages)[b].createdAt == Items(pages)[a].createdAt ==> Items(pages)[b].id < Items(pages)[a].id)
  {
    NothingTwice(f, at, community, caller, req, pages);
    var items := Items(pages);
    forall a, b | 0 <= a < b < |items|
      ensures items[b].createdAt <= items[a].createdAt
           && (items[b].createdAt == items[a].createdAt ==> items[b].id < items[a].id)
    {
      assert Before(ShownKey(items[b]), ShownKey(items[a]));
    }
  }

  // ---- What is answered at all

  const STATUSES := {"open", "assigned", "in_progress", "resolved", "closed", "rejected"}

  const CATEGORIES := {"elevator", "plumbing", "electricity", "cleaning", "locksmith", "gardening", "works",
                       "mandatory_works", "noise", "other"}

  /** The filters name what exists, the unit is the community's, and a page has 1
      to 100 incidents, 20 if the request does not say. */
  predicate WellAsked(db: Db, community: int, req: Request) {
    && (req.status == "" || req.status in STATUSES) && (req.category == "" || req.category in CATEGORIES)
    && !req.unit.BadUnit?
    && (req.unit.UnitId? ==>
          req.unit.id in db.units && !db.units[req.unit.id].deleted && db.units[req.unit.id].community == community)
    && 0 <= req.limit <= 100
  }

  lemma WellAskedIffAcceptable(db: Db, community: int, req: Request)
    ensures WellAsked(db, community, req) <==> Acceptable(db, community, req)
  {}

  lemma {:induction false} FoundIsThere(db: Db, community: int, caller: int, id: int, table: seq<Incident>)
    requires GetVisible(db, community, caller, id, table).Some?
    ensures var i := GetVisible(db, community, caller, id, table).value;
            i in table && i.id == id && Visible(db, community, caller, i)
  {
    if !(table[0].id == id && Visible(db, community, caller, table[0])) {
      FoundIsThere(db, community, caller, id, table[1..]);
    }
  }

  lemma AnchoredIffGranted(db: Db, community: int, caller: int, req: Request, pivot: Pivot)
    requires Stored(db)
    ensures Anchored(db, ContextOf(community, caller, req), pivot)
       <==> GrantedKey(db, community, caller, req, pivot.id, pivot.createdAt)
  {
    var c := ContextOf(community, caller, req);
    if Anchored(db, c, pivot) {
      FoundIsThere(db, community, caller, pivot.id, db.incidents);
      var i := GetVisible(db, community, caller, pivot.id, db.incidents).value;
      var ground := VisibleHasGround(db, community, caller, i);
      assert Granted(db, community, caller, req, i);
    }
    if GrantedKey(db, community, caller, req, pivot.id, pivot.createdAt) {
      var i: Incident :| i.id == pivot.id && i.createdAt == pivot.createdAt && Granted(db, community, caller, req, i);
      var ground :| Grants(db, i, caller, ground);
      GroundMakesVisible(db, community, caller, i, ground);
      FindsVisible(db, community, caller, db.incidents, i);
    }
  }

  /** A page is answered exactly when the request is well asked and the incident
      its cursor was issued at is still there as it was, granted and meeting the
      request; it has no more than the limit, and exactly the limit if there are
      more. */
  lemma AnsweredIff(f: Formats, at: Reads, community: int, caller: int, req: Request, pivot: Option<Pivot>)
    requires Sound(f) && StartsAt(f, community, caller, req, pivot) && Stored(at.anchor)
    ensures var r := Listing(f, at, community, caller, req);
            var limit := if req.limit == 0 then 20 else req.limit;
            && (r.Page? <==>
                  && WellAsked(at.unit, community, req)
                  && (pivot.Some? ==>
                        GrantedKey(at.anchor, community, caller, req, pivot.value.id, pivot.value.createdAt)))
            && (r.Page? ==> |r.items| <= limit && (r.next.Some? ==> |r.items| == limit))
  {
    ListingAt(f, at, community, caller, req, pivot);
    WellAskedIffAcceptable(at.unit, community, req);
    if pivot.Some? { AnchoredIffGranted(at.anchor, community, caller, req, pivot.value); }
    if Listing(f, at, community, caller, req).Page? {
      PageSpec(f, at.page, ContextOf(community, caller, req), pivot, Limit(req));
      ProjectAt(PageRows(at.page, ContextOf(community, caller, req), pivot, Limit(req)));
    }
  }
}
