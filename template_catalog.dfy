/** The template catalogue route (app/api/templates/route.ts): a constant
    table of templates per category, looked up by the `category` query
    parameter and cut into pages of `limit` items. */
module TemplateCatalog {
  import opened Common

  datatype Template = Template(id: string, name: string, category: string, imageUrl: string, tags: seq<string>)

  const Photo1: string := "https://images.unsplash.com/photo-1552664730-d307ca884978?w=400&h=300&fit=crop"
  const Photo2: string := "https://images.unsplash.com/photo-1454165804606-c3d57bc86b40?w=400&h=300&fit=crop"
  const Photo3: string := "https://images.unsplash.com/photo-1486312338219-ce68d2c6f44d?w=400&h=300&fit=crop"
  const Photo4: string := "https://images.unsplash.com/photo-1581092918056-0c4c3acd3789?w=400&h=300&fit=crop"
  const Photo5: string := "https://images.unsplash.com/photo-1460925895917-aeb19be489c7?w=400&h=300&fit=crop"
  const Photo6: string := "https://images.unsplash.com/photo-1519389950473-47ba0277781c?w=400&h=300&fit=crop"

  /** `mockTemplates` */
  const MockTemplates: map<string, seq<Template>> := map[
    "handyman" := [
      Template("handyman-modern-1", "Modern Service Pro", "handyman", Photo1, ["modern", "professional", "services"]),
      Template("handyman-gallery-1", "Gallery Showcase", "handyman", Photo2, ["gallery", "portfolio", "services"]),
      Template("handyman-booking-1", "Booking Ready", "handyman", Photo1, ["booking", "schedule", "services"]),
      Template("handyman-minimal-1", "Minimal & Clean", "handyman", Photo3, ["minimal", "clean", "modern"])],
    "plumber" := [
      Template("plumber-emergency-1", "Emergency Response", "plumber", Photo4, ["emergency", "24/7", "professional"]),
      Template("plumber-professional-1", "Professional Trust", "plumber", Photo1, ["professional", "trustworthy", "service"]),
      Template("plumber-modern-1", "Modern Plumbing", "plumber", Photo3, ["modern", "clean", "services"])],
    "electrical" := [
      Template("electrical-industrial-1", "Industrial Grade", "electrical", Photo4, ["industrial", "professional", "technical"]),
      Template("electrical-modern-1", "Modern Electric", "electrical", Photo3, ["modern", "clean", "services"])],
    "ecommerce" := [
      Template("shop-modern-1", "Modern Shop", "ecommerce", Photo5, ["modern", "shop", "ecommerce"]),
      Template("shop-premium-1", "Premium Luxury", "ecommerce", Photo6, ["premium", "luxury", "ecommerce"]),
      Template("shop-minimal-1", "Minimal Store", "ecommerce", Photo3, ["minimal", "clean", "shop"])]
  ]

  const DefaultPage: int := 1
  const DefaultLimit: int := 12

  /** The query parameters after `parseInt`; `None` when the parameter is
      absent or empty, which selects the default. */
  datatype Query = Query(category: Option<string>, page: Option<int>, limit: Option<int>)

  datatype Response =
    | CategoryRequired
    | Listing(templates: seq<Template>, total: nat, page: int, hasMore: bool)
  {
    function Status(): int {
      if CategoryRequired? then 400 else 200
    }
  }

  function PageOf(q: Query): int {
    q.page.GetOr(DefaultPage)
  }

  function LimitOf(q: Query): int {
    q.limit.GetOr(DefaultLimit)
  }

  /** `mockTemplates[category] || []` */
  function CategoryTemplates(category: string): seq<Template> {
    if category in MockTemplates then MockTemplates[category] else []
  }

  /** `xs.slice(start, end)` for non-negative bounds: both are clamped to the
      length. */
  function Slice<T>(xs: seq<T>, start: nat, end: nat): (r: seq<T>)
    ensures start <= end ==> |r| <= end - start
    ensures start <= end <= |xs| ==> r == xs[start..end]
    ensures |xs| <= start ==> r == []
    ensures forall x :: x in r ==> x in xs
  {
    var e := if end < |xs| then end else |xs|;
    var b := if start < e then start else e;
    xs[b..e]
  }

  /** One page of a list, with the total and the `hasMore` flag. */
  function Paginate(xs: seq<Template>, page: int, limit: int): (r: Response)
    requires page >= 1 && limit >= 1
    ensures r.Listing? && r.total == |xs| && r.page == page
    ensures |r.templates| <= limit
    ensures forall t :: t in r.templates ==> t in xs
  {
    var startIndex := (page - 1) * limit;
    var endIndex := startIndex + limit;
    Listing(Slice(xs, startIndex, endIndex), |xs|, page, endIndex < |xs|)
  }

  /** `GET /api/templates`. Page and limit below 1 (and `NaN`) are outside
      the model. */
  function Get(q: Query): (r: Response)
    requires PageOf(q) >= 1 && LimitOf(q) >= 1
    ensures r.CategoryRequired? <==> !Present(q.category)
    ensures r.Listing? ==> r.page == PageOf(q) && r.total == |CategoryTemplates(q.category.value)|
  {
    if !Present(q.category) then CategoryRequired
    else Paginate(CategoryTemplates(q.category.value), PageOf(q), LimitOf(q))
  }

  /** A page is the slice `[(page-1)*limit, page*limit)` of the list, so it
      holds at most `limit` items; `total` is the whole length and `hasMore`
      says that items lie beyond the page. */
  lemma PageContents(xs: seq<Template>, page: int, limit: int)
    requires page >= 1 && limit >= 1
    ensures var r := Paginate(xs, page, limit);
            var start := (page - 1) * limit;
            && |r.templates| <= limit
            && r.total == |xs|
            && (r.hasMore <==> page * limit < |xs|)
            && (start + limit <= |xs| ==> r.templates == xs[start..start + limit])
            && (start <= |xs| < start + limit ==> r.templates == xs[start..])
            && (|xs| <= start ==> r.templates == [])
  {
    var start := (page - 1) * limit;
    assert start + limit == page * limit;
    assert start >= 0;
  }

  /** Defaults: no page means page 1, no limit means 12 per page. */
  lemma Defaults(category: string)
    requires category != ""
    ensures var r := Get(Query(Some(category), None, None));
            r == Paginate(CategoryTemplates(category), 1, 12)
  {
  }

  /** A category the table does not know gives an empty first page. */
  lemma UnknownCategory(category: string, page: int, limit: int)
    requires category != "" && category !in MockTemplates
    requires page >= 1 && limit >= 1
    ensures Get(Query(Some(category), Some(page), Some(limit))) == Listing([], 0, page, false)
  {
  }

  /** Pages 1 to `n` one after another. */
  function Pages(xs: seq<Template>, limit: int, n: nat): seq<Template>
    requires limit >= 1
  {
    if n == 0 then [] else Pages(xs, limit, n - 1) + Paginate(xs, n, limit).templates
  }

  /** Appending the slice `[start, end)` to the first `start` items gives
      the first `end` items (both cut off at the length). */
  lemma AppendPage(xs: seq<Template>, start: nat, end: nat, prev: seq<Template>, page: seq<Template>)
    requires start <= end
    requires start <= |xs| ==> prev == xs[..start]
    requires |xs| <= start ==> prev == xs && page == []
    requires end <= |xs| ==> page == xs[start..end]
    requires start <= |xs| < end ==> page == xs[start..]
    ensures end <= |xs| ==> prev + page == xs[..end]
    ensures |xs| <= end ==> prev + page == xs
  {
    if start <= |xs| {
      assert xs[..start] + xs[start..] == xs;
      if end <= |xs| {
        assert xs[..start] + xs[start..end] == xs[..end];
      }
    }
  }

  /** Consecutive pages neither overlap nor skip: the first `n` pages
      together are the first `n * limit` items, in order. */
  lemma {:induction false} PagesArePrefix(xs: seq<Template>, limit: int, n: nat)
    requires limit >= 1
    ensures n * limit <= |xs| ==> Pages(xs, limit, n) == xs[..n * limit]
    ensures |xs| <= n * limit ==> Pages(xs, limit, n) == xs
  {
    if n > 0 {
      PagesArePrefix(xs, limit, n - 1);
      var start := (n - 1) * limit;
      var end := n * limit;
      assert start + limit == end;
      PageContents(xs, n, limit);
      AppendPage(xs, start, end, Pages(xs, limit, n - 1), Paginate(xs, n, limit).templates);
    }
  }

  /** So a client that keeps asking while `hasMore` sees every template of
      the category exactly once. */
  lemma {:induction false} AllPagesCoverCategory(category: string, limit: int, n: nat)
    requires limit >= 1
    requires |CategoryTemplates(category)| <= n * limit
    ensures Pages(CategoryTemplates(category), limit, n) == CategoryTemplates(category)
  {
    PagesArePrefix(CategoryTemplates(category), limit, n);
  }
}
