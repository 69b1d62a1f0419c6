/** `GET /api/user/latest-site` (app/api/user/latest-site/route.ts): the
    caller's most recently updated site, as a camel-cased record. The query
    is the owner query followed by `.limit(1).single()`, which reports the
    error code `PGRST116` when no row comes back. */
module LatestSite {
  import opened Common
  import opened SiteRows

  const NoRowsCode: string := "PGRST116"

  /** The response record. */
  datatype SiteData = SiteData(
    id: string,
    userId: Option<string>,
    selectedTemplateId: string,
    businessType: string,
    category: string,
    designData: Json,
    createdAt: string,
    updatedAt: int)

  datatype Response =
    | Unauthorized
    | NoSites
    | FetchFailed
    | InternalError
    | Latest(site: SiteData)
  {
    function Status(): int {
      match this
      case Unauthorized => 401
      case NoSites => 404
      case FetchFailed => 500
      case InternalError => 500
      case Latest(_) => 200
    }

    function Error(): Option<string> {
      match this
      case Unauthorized => Some("Unauthorized")
      case NoSites => Some("No sites found")
      case FetchFailed => Some("Failed to fetch site")
      case InternalError => Some("Internal server error")
      case Latest(_) => None
    }
  }

  /** The record for a row: every column copied under its camel-case name,
      with `design_data || {}`. */
  function ToSiteData(row: SiteRow): (s: SiteData)
    ensures s.id == row.id && s.userId == row.userId && s.selectedTemplateId == row.selectedTemplateId
    ensures s.businessType == row.businessType && s.category == row.category
    ensures s.createdAt == row.createdAt && s.updatedAt == row.updatedAt
    ensures Truthy(row.designData) ==> s.designData == row.designData
    ensures !Truthy(row.designData) ==> s.designData == JObject(map[])
  {
    SiteData(row.id, row.userId, row.selectedTemplateId, row.businessType, row.category,
             if Truthy(row.designData) then row.designData else JObject(map[]),
             row.createdAt, row.updatedAt)
  }

  /** The error `single()` reports, if any: the table's own error, else
      `PGRST116` for an empty result. */
  function QueryError(db: SitesTable, userId: string): (r: Option<string>)
    ensures r.None? <==> db.error.None? && OwnerQuery(db.rows, userId) != []
  {
    if db.error.Some? then db.error
    else if OwnerQuery(db.rows, userId) == [] then Some(NoRowsCode)
    else None
  }

  function GetLatestSite(auth: Auth, db: SitesTable, threw: bool): (r: Response)
    ensures threw ==> r == InternalError
    ensures !threw && !Authenticated(auth) ==> r == Unauthorized
    ensures !threw && Authenticated(auth) && db.error.Some? ==>
              r == (if db.error.value == NoRowsCode then NoSites else FetchFailed)
    ensures !threw && Authenticated(auth) && db.error.None? ==>
              if OwnerQuery(db.rows, auth.userId.value) == [] then r == NoSites else r.Latest?
    ensures r.Latest? ==> Authenticated(auth) && db.error.None?
  {
    if threw then InternalError
    else if !Authenticated(auth) then Unauthorized
    else
      match QueryError(db, auth.userId.value)
      case Some(code) => if code == NoRowsCode then NoSites else FetchFailed
      case None => Latest(ToSiteData(OwnerQuery(db.rows, auth.userId.value)[0]))
  }

  /** With a working table there is a latest site exactly when the caller
      owns a site; otherwise the answer is a 404. */
  lemma LatestExistsIffOwnsSite(auth: Auth, db: SitesTable)
    requires Authenticated(auth) && db.error.None?
    ensures var r := GetLatestSite(auth, db, false);
            && (r.Latest? <==> OwnsSite(db.rows, auth.userId.value))
            && (r.Status() == 404 <==> !r.Latest?)
  {
    OwnerQueryHead(db.rows, auth.userId.value);
  }

  /** The site returned is the head of the owner query: one of the caller's
      sites with the greatest `updated_at`. */
  lemma LatestIsMostRecentOwned(auth: Auth, db: SitesTable)
    requires GetLatestSite(auth, db, false).Latest?
    ensures var r := GetLatestSite(auth, db, false);
            var userId := auth.userId.value;
            var top := OwnerQuery(db.rows, userId)[0];
            && top in db.rows && OwnedBy(top, userId) && r.site == ToSiteData(top)
            && forall x :: x in db.rows && OwnedBy(x, userId) ==> x.updatedAt <= top.updatedAt
  {
    OwnerQueryHead(db.rows, auth.userId.value);
  }

  /** Only the no-rows code means "no sites"; any other query error is a
      server error, even when the caller owns sites. */
  lemma ErrorCodeMapping(auth: Auth, db: SitesTable, code: string)
    requires Authenticated(auth) && db.error == Some(code)
    ensures GetLatestSite(auth, db, false).Status() == (if code == NoRowsCode then 404 else 500)
  {
  }
}
