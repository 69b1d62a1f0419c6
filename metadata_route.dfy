/** The template metadata routes (app/api/templates/metadata/route.ts): the
    filtered listing and the single-template lookup, mapped to response
    shapes. `threw` stands for an exception escaping the awaited call. */
module MetadataRoute {
  import opened Common
  import opened TemplateQueries

  const FetchFailedMessage: string := "Failed to fetch template metadata"
  const NotFoundMessage: string := "Template not found"

  datatype ListResponse =
    | ListOk(data: seq<TemplateMetadata>, count: nat)
    | ListFailed
  {
    function Status(): int {
      if ListOk? then 200 else 500
    }

    predicate Success() {
      ListOk?
    }

    function Error(): Option<string> {
      if ListOk? then None else Some(FetchFailedMessage)
    }
  }

  datatype ItemResponse =
    | ItemOk(item: TemplateMetadata)
    | ItemNotFound
    | ItemFailed
  {
    function Status(): int {
      match this
      case ItemOk(_) => 200
      case ItemNotFound => 404
      case ItemFailed => 500
    }

    predicate Success() {
      ItemOk?
    }

    function Error(): Option<string> {
      match this
      case ItemOk(_) => None
      case ItemNotFound => Some(NotFoundMessage)
      case ItemFailed => Some(FetchFailedMessage)
    }
  }

  /** `searchParams.get(name) || undefined`: an empty parameter counts as
      absent. */
  function FilterParam(p: Option<string>): (r: Option<string>)
    ensures r.Some? <==> Present(p)
    ensures r.Some? ==> r == p
  {
    if Present(p) then p else None
  }

  /** `GET /api/templates/metadata?category=&business_type=` */
  function GetList(db: Table, threw: bool, category: Option<string>, businessType: Option<string>): (r: ListResponse)
    ensures threw <==> r == ListFailed
    ensures r.Error().Some? <==> r.Status() == 500
    ensures r.ListOk? ==> r.count == |r.data|
    ensures r.ListOk? && db.outcome != Answered ==> r.data == []
    ensures r.ListOk? && db.outcome == Answered ==>
              forall x :: x in r.data <==>
                (x in db.rows
                 && (Present(category) ==> x.category == category.value)
                 && (Present(businessType) ==> x.businessType == businessType.value))
  {
    if threw then ListFailed
    else
      var templates := GetAllTemplateMetadata(db, Filters(FilterParam(category), FilterParam(businessType)));
      ListOk(templates, |templates|)
  }

  /** An empty query parameter is the same as none at all. */
  lemma EmptyParamIsAbsent(db: Table, threw: bool, category: Option<string>, businessType: Option<string>)
    ensures GetList(db, threw, Some(""), businessType) == GetList(db, threw, None, businessType)
    ensures GetList(db, threw, category, Some("")) == GetList(db, threw, category, None)
  {
  }

  /** With no filter and a working table, the listing is the whole table
      and its length. */
  lemma UnfilteredList(db: Table)
    requires db.outcome == Answered
    ensures GetList(db, false, None, None) == ListOk(db.rows, |db.rows|)
  {
    NoFiltersAllRows(db, None, None);
  }

  /** `getTemplateMetadataRoute(templateId)` */
  function GetItem(db: Table, threw: bool, templateId: string): (r: ItemResponse)
    ensures threw <==> r == ItemFailed
    ensures !threw ==> (r == ItemNotFound <==> GetTemplateMetadata(db, templateId).None?)
    ensures r.ItemOk? ==> r.item in db.rows && r.item.templateId == templateId
    ensures r.Error().Some? <==> !r.Success()
  {
    if threw then ItemFailed
    else
      match GetTemplateMetadata(db, templateId)
      case None => ItemNotFound
      case Some(template) => ItemOk(template)
  }

  /** A failing query is reported as a missing template (404), not as a
      server error: the query layer turns the error into `null`. */
  lemma QueryErrorIsNotFound(db: Table, templateId: string)
    requires db.outcome == Failed
    ensures GetItem(db, false, templateId).Status() == 404
  {
  }

  /** A template stored once is served with success. */
  lemma StoredTemplateServed(db: Table, i: nat, templateId: string)
    requires db.outcome == Answered
    requires i < |db.rows| && db.rows[i].templateId == templateId
    requires forall j :: 0 <= j < |db.rows| && j != i ==> db.rows[j].templateId != templateId
    ensures GetItem(db, false, templateId) == ItemOk(db.rows[i])
  {
    UniqueTemplateFound(db, i, templateId);
  }
}
