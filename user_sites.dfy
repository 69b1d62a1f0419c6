/** `GET /api/user/sites` (app/api/user/sites/route.ts): the caller's sites,
    most recently updated first, each cut down to the fields the site list
    shows. `threw` stands for an exception escaping the handler's body. */
module UserSites {
  import opened Common
  import opened SiteRows

  const UntitledSite: string := "Untitled Site"

  /** One entry of the response. `title` is whatever JSON value the design
      data holds under `title`, or the placeholder. */
  datatype UserSite = UserSite(id: string, title: Json, updatedAt: int, businessType: string, category: string)

  datatype Response =
    | Unauthorized
    | FetchFailed
    | InternalError
    | SiteList(sites: seq<UserSite>, count: nat)
  {
    function Status(): int {
      match this
      case Unauthorized => 401
      case FetchFailed => 500
      case InternalError => 500
      case SiteList(_, _) => 200
    }

    function Error(): Option<string> {
      match this
      case Unauthorized => Some("Unauthorized")
      case FetchFailed => Some("Failed to fetch sites")
      case InternalError => Some("Internal server error")
      case SiteList(_, _) => None
    }
  }

  /** `site.design_data?.title || 'Untitled Site'`: only an object has a
      `title`; a falsy title gives the placeholder. */
  function Title(designData: Json): (r: Json)
    ensures Truthy(r)
    ensures designData.JObject? && "title" in designData.fields && Truthy(designData.fields["title"]) ==>
              r == designData.fields["title"]
    ensures !(designData.JObject? && "title" in designData.fields && Truthy(designData.fields["title"])) ==>
              r == JString(UntitledSite)
  {
    match designData
    case JObject(fields) =>
      if "title" in fields && Truthy(fields["title"]) then fields["title"] else JString(UntitledSite)
    case _ => JString(UntitledSite)
  }

  /** The response entry for a row: four fields copied, the title derived. */
  function ToUserSite(row: SiteRow): (s: UserSite)
    ensures s.id == row.id && s.updatedAt == row.updatedAt
    ensures s.businessType == row.businessType && s.category == row.category
    ensures s.title == Title(row.designData)
  {
    UserSite(row.id, Title(row.designData), row.updatedAt, row.businessType, row.category)
  }

  /** `sites.map(...)` */
  function ToUserSites(rows: seq<SiteRow>): (r: seq<UserSite>)
    ensures |r| == |rows|
    ensures forall i :: 0 <= i < |rows| ==> r[i] == ToUserSite(rows[i])
  {
    if rows == [] then [] else [ToUserSite(rows[0])] + ToUserSites(rows[1..])
  }

  function GetUserSites(auth: Auth, db: SitesTable, threw: bool): (r: Response)
    ensures threw ==> r == InternalError
    ensures !threw && !Authenticated(auth) ==> r == Unauthorized
    ensures !threw && Authenticated(auth) && db.error.Some? ==> r == FetchFailed
    ensures !threw && Authenticated(auth) && db.error.None? ==> r.SiteList?
    ensures r.SiteList? ==> r.count == |r.sites|
    ensures r.SiteList? ==> Authenticated(auth) && r.sites == ToUserSites(OwnerQuery(db.rows, auth.userId.value))
  {
    if threw then InternalError
    else if !Authenticated(auth) then Unauthorized
    else if db.error.Some? then FetchFailed
    else
      var userSites := ToUserSites(OwnerQuery(db.rows, auth.userId.value));
      SiteList(userSites, |userSites|)
  }

  /** Without a verified user the table is never consulted. */
  lemma UnauthorizedIgnoresTable(auth: Auth, db1: SitesTable, db2: SitesTable, threw: bool)
    requires !Authenticated(auth)
    ensures GetUserSites(auth, db1, threw) == GetUserSites(auth, db2, threw)
    ensures GetUserSites(auth, db1, threw).Status() in {401, 500}
  {
  }

  /** Every listed site comes from a row the caller owns, the list runs from
      the most recently updated down, and it has one entry per owned row. */
  lemma ListedSitesAreOwnRows(auth: Auth, db: SitesTable, threw: bool)
    requires GetUserSites(auth, db, threw).SiteList?
    ensures var r := GetUserSites(auth, db, threw);
            var userId := auth.userId.value;
            && (forall i :: 0 <= i < |r.sites| ==>
                  exists row :: row in db.rows && OwnedBy(row, userId) && r.sites[i] == ToUserSite(row))
            && (forall i, j :: 0 <= i < j < |r.sites| ==> r.sites[i].updatedAt >= r.sites[j].updatedAt)
            && r.count == |Owned(db.rows, userId)|
  {
    var userId := auth.userId.value;
    var q := OwnerQuery(db.rows, userId);
    OwnerQueryIsSortedOwnRows(db.rows, userId);
    forall i | 0 <= i < |q| ensures q[i] in db.rows && OwnedBy(q[i], userId) {
      assert q[i] in q;
      assert multiset(q)[q[i]] > 0;
    }
    assert |q| == |multiset(q)| == |multiset(Owned(db.rows, userId))|;
  }

  /** A caller with no sites gets an empty list and a 200, not an error. */
  lemma NoSitesEmptyList(auth: Auth, db: SitesTable)
    requires Authenticated(auth) && db.error.None?
    requires !OwnsSite(db.rows, auth.userId.value)
    ensures GetUserSites(auth, db, false) == SiteList([], 0)
  {
    OwnerQueryHead(db.rows, auth.userId.value);
  }
}
