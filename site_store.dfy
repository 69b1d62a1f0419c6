/** The in-memory site store behind the `/api/sites` route
    (app/api/sites/route.ts): a module-level map from site id to site record
    with create (POST), lookup (GET) and design-data merge (PATCH). */
module SiteStore {
  import opened Common

  /** A stored site. `userId` is `None` for the JavaScript `null`. */
  datatype SiteData = SiteData(
    id: string,
    userId: Option<string>,
    selectedTemplateId: string,
    businessType: string,
    category: string,
    designData: map<string, Json>,
    createdAt: string,
    updatedAt: string)

  /** The fields of a POST body; a field is `None` when absent. */
  datatype CreateSiteRequest = CreateSiteRequest(
    selectedTemplateId: Option<string>,
    businessType: Option<string>,
    category: Option<string>)

  /** The fields of a PATCH body. `designData` is `None` when absent. */
  datatype PatchRequest = PatchRequest(siteId: Option<string>, designData: Option<map<string, Json>>)

  datatype PostResponse = Created(siteId: string) | MissingFields | CreateFailed {
    function Status(): int {
      match this
      case Created(_) => 201
      case MissingFields => 400
      case CreateFailed => 500
    }
  }

  datatype GetResponse = Found(site: SiteData) | IdRequired | SiteNotFound {
    function Status(): int {
      match this
      case Found(_) => 200
      case IdRequired => 400
      case SiteNotFound => 404
    }
  }

  datatype PatchResponse = Updated(site: SiteData) | PatchIdRequired | PatchNotFound | UpdateFailed {
    function Status(): int {
      match this
      case Updated(_) => 200
      case PatchIdRequired => 400
      case PatchNotFound => 404
      case UpdateFailed => 500
    }
  }

  /** The create guard: all three classification fields truthy. */
  predicate ValidCreate(body: CreateSiteRequest) {
    Present(body.selectedTemplateId) && Present(body.businessType) && Present(body.category)
  }

  /** The record a successful POST stores. */
  function NewSite(id: string, body: CreateSiteRequest, now: string): (s: SiteData)
    requires ValidCreate(body)
    ensures s.id == id && s.userId == None && s.designData == map[]
    ensures s.createdAt == now && s.updatedAt == now
    ensures Some(s.selectedTemplateId) == body.selectedTemplateId
    ensures Some(s.businessType) == body.businessType && Some(s.category) == body.category
  {
    SiteData(id, None, body.selectedTemplateId.value, body.businessType.value, body.category.value,
             map[], now, now)
  }

  /** `{ ...current, ...patch }`; spreading `undefined` adds nothing. */
  function MergeDesign(current: map<string, Json>, patch: Option<map<string, Json>>): (r: map<string, Json>)
    ensures current.Keys <= r.Keys
    ensures patch.Some? ==> patch.value.Keys <= r.Keys
  {
    if patch.Some? then current + patch.value else current
  }

  /** Keys in the patch take the patch's value; every other key keeps its old
      value; nothing else is added. */
  lemma MergeOverwrites(current: map<string, Json>, patch: Option<map<string, Json>>)
    ensures var m := MergeDesign(current, patch);
            && m.Keys == current.Keys + (if patch.Some? then patch.value.Keys else {})
            && (forall k :: patch.Some? && k in patch.value ==> m[k] == patch.value[k])
            && (forall k :: k in current && (patch.None? || k !in patch.value) ==> m[k] == current[k])
  {
  }

  /** Applying the same patch twice gives what applying it once gives. */
  lemma MergeIdempotent(current: map<string, Json>, patch: Option<map<string, Json>>)
    ensures MergeDesign(MergeDesign(current, patch), patch) == MergeDesign(current, patch)
  {
  }

  /** The record after a successful PATCH. */
  function Patched(s: SiteData, patch: Option<map<string, Json>>, now: string): (r: SiteData)
    ensures r.id == s.id && r.userId == s.userId
    ensures r.selectedTemplateId == s.selectedTemplateId
    ensures r.businessType == s.businessType && r.category == s.category
    ensures r.createdAt == s.createdAt
    ensures r.updatedAt == now && r.designData == MergeDesign(s.designData, patch)
  {
    s.(designData := MergeDesign(s.designData, patch), updatedAt := now)
  }

  /** Patching twice with the same patch and time is patching once. */
  lemma PatchIdempotent(s: SiteData, patch: Option<map<string, Json>>, now: string)
    ensures Patched(Patched(s, patch, now), patch, now) == Patched(s, patch, now)
  {
    MergeIdempotent(s.designData, patch);
  }

  class Store {
    /** The module-level `sites` map. */
    var sites: map<string, SiteData>

    /** Every record is filed under its own id and, since nothing in this
        route ever sets an owner, is unclaimed. */
    ghost predicate Valid()
      reads this
    {
      forall id :: id in sites ==> sites[id].id == id && sites[id].userId == None
    }

    constructor ()
      ensures Valid() && sites == map[]
    {
      sites := map[];
    }

    /** POST. `body` is `None` when reading it throws: `request.json()` on
        text that is not JSON, or the destructuring of a JSON `null`. An
        array or a primitive reaches the field check with every field
        absent. `freshId` and `now` stand for `uuidv4()` and the current
        ISO time. */
    method Post(body: Option<CreateSiteRequest>, freshId: string, now: string) returns (res: PostResponse)
      requires Valid()
      modifies this
      ensures Valid()
      ensures body.None? ==> res == CreateFailed && sites == old(sites)
      ensures body.Some? && !ValidCreate(body.value) ==> res == MissingFields && sites == old(sites)
      ensures body.Some? && ValidCreate(body.value) ==>
                && res == Created(freshId)
                && sites == old(sites)[freshId := NewSite(freshId, body.value, now)]
      ensures body.Some? && ValidCreate(body.value) && freshId !in old(sites) ==>
                |sites| == |old(sites)| + 1
    {
      if body.None? {
        return CreateFailed;
      }
      var b := body.value;
      if !Present(b.selectedTemplateId) || !Present(b.businessType) || !Present(b.category) {
        return MissingFields;
      }
      var site := NewSite(freshId, b, now);
      sites := sites[freshId := site];
      res := Created(freshId);
    }

    /** GET `?id=`. The stored record is returned as it is. */
    method Get(id: Option<string>) returns (res: GetResponse)
      ensures !Present(id) ==> res == IdRequired
      ensures Present(id) && id.value !in sites ==> res == SiteNotFound
      ensures Present(id) && id.value in sites ==> res == Found(sites[id.value])
    {
      if !Present(id) {
        return IdRequired;
      }
      if id.value !in sites {
        return SiteNotFound;
      }
      res := Found(sites[id.value]);
    }

    /** PATCH. There is no authentication and no ownership check: any caller
        can merge into any site. */
    method Patch(body: Option<PatchRequest>, now: string) returns (res: PatchResponse)
      requires Valid()
      modifies this
      ensures Valid()
      ensures body.None? ==> res == UpdateFailed && sites == old(sites)
      ensures body.Some? && !Present(body.value.siteId) ==> res == PatchIdRequired && sites == old(sites)
      ensures body.Some? && Present(body.value.siteId) && body.value.siteId.value !in old(sites) ==>
                res == PatchNotFound && sites == old(sites)
      ensures body.Some? && Present(body.value.siteId) && body.value.siteId.value in old(sites) ==>
                var id := body.value.siteId.value;
                var site := Patched(old(sites)[id], body.value.designData, now);
                && res == Updated(site)
                && sites == old(sites)[id := site]
    {
      if body.None? {
        return UpdateFailed;
      }
      var b := body.value;
      if !Present(b.siteId) {
        return PatchIdRequired;
      }
      var id := b.siteId.value;
      if id !in sites {
        return PatchNotFound;
      }
      var site := Patched(sites[id], b.designData, now);
      sites := sites[id := site];
      res := Updated(site);
    }
  }

  /** Create, then patch: the owner stays `null` and the patch lands in the
      design data. */
  method CreateThenPatch(now1: string, now2: string)
  {
    var store := new Store();
    var body := CreateSiteRequest(Some("T1"), Some("services"), Some("plumber"));
    var created := store.Post(Some(body), "site-1", now1);
    assert created == Created("site-1") && created.Status() == 201;
    var patch := map["title" := JString("Acme")];
    var updated := store.Patch(Some(PatchRequest(Some("site-1"), Some(patch))), now2);
    assert updated.Updated? && updated.site.userId == None;
    assert updated.site.designData["title"] == JString("Acme");
    var fetched := store.Get(Some("site-1"));
    assert fetched == Found(updated.site);
    var missing := store.Get(Some("site-2"));
    assert missing.Status() == 404;
  }
}
