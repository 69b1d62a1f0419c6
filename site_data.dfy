/** The mock tenant database (lib/data.ts): a constant table of sites keyed
    by domain, a lookup that first cleans the requested domain, and a page
    lookup with a fallback to the home page. */
module SiteData {
  import opened Common
  import opened Text

  datatype SectionType = Hero | Features | Contact | About | Gallery

  datatype Item = Item(title: string, description: string)

  /** A page section; the optional fields are `None` when absent. */
  datatype Section = Section(kind: SectionType, title: Option<string>, content: Option<string>,
                             items: Option<seq<Item>>)

  datatype PageContent = PageContent(title: string, sections: seq<Section>)

  datatype Theme = Theme(primaryColor: string, accentColor: string, backgroundColor: string)

  datatype Content = Content(title: string, subtitle: string, pages: map<string, PageContent>)

  datatype Site = Site(id: string, domain: string, siteName: string, template: string,
                       theme: Theme, content: Content)

  const CoolBarber: Site := Site(
    "1", "cool-barber", "Cool Barber's", "barber",
    Theme("#1e40af", "#60a5fa", "#0f172a"),
    Content("Cool Barber's", "Premium Haircuts & Styling", map[
      "/" := PageContent("Home", [
        Section(Hero, Some("Cool Barber's"), Some("Premium Haircuts & Styling Since 2010"), None),
        Section(Features, Some("Our Services"), None, Some([
          Item("Haircuts", "Classic and modern styles"),
          Item("Beard Trim", "Expert beard grooming"),
          Item("Styling", "Special occasion styling")])),
        Section(Contact, Some("Contact Us"), Some("Open Mon-Sat, 9am-6pm | Call: (555) 123-4567"), None)]),
      "/about" := PageContent("About", [
        Section(About, Some("About Us"),
                Some("With over 10 years of experience, we pride ourselves on quality service and customer satisfaction."),
                None)])]))

  const DemoPizza: Site := Site(
    "2", "demo-pizza", "Demo Pizza Co", "restaurant",
    Theme("#dc2626", "#f87171", "#1f2937"),
    Content("Demo Pizza Co", "Authentic Italian Pizza", map[
      "/" := PageContent("Home", [
        Section(Hero, Some("Demo Pizza Co"), Some("Authentic Italian Pizza Made Fresh Daily"), None),
        Section(Features, Some("Our Menu"), None, Some([
          Item("Margherita", "Fresh mozzarella and basil"),
          Item("Pepperoni", "Classic with premium pepperoni"),
          Item("Vegetarian", "Fresh seasonal vegetables")]))])]))

  /** `MOCK_SITES` */
  const MockSites: map<string, Site> := map["cool-barber" := CoolBarber, "demo-pizza" := DemoPizza]

  const LocalSuffix: string := ".local"
  const DevPort: string := ":3000"

  /** `domain.replace('.local', '').replace(':3000', '')`: the first
      occurrence of each is removed, wherever it stands. */
  function CleanDomain(domain: string): (r: string)
    ensures |r| <= |domain|
    ensures !Contains(domain, LocalSuffix) && !Contains(domain, DevPort) ==> r == domain
  {
    ReplaceFirst(ReplaceFirst(domain, LocalSuffix, ""), DevPort, "")
  }

  /** `getSiteData`; `None` stands for `null`. Every stored site is a
      non-null object, so a present key is a hit. */
  function GetSiteData(domain: string): (r: Option<Site>)
    ensures r.Some? <==> CleanDomain(domain) in MockSites
    ensures r.Some? ==> r.value == MockSites[CleanDomain(domain)]
  {
    var clean := CleanDomain(domain);
    if clean in MockSites then Some(MockSites[clean]) else None
  }

  /** `''` and `'/'` both mean the home page. */
  function NormalizePath(path: string): (r: string)
    ensures r == "/" <==> path == "" || path == "/"
    ensures r != "/" ==> r == path
  {
    if path == "" || path == "/" then "/" else path
  }

  /** `getPageContent`: the page at the normalised path, else the home page
      (`None` also when the site has no home page, where the source returns
      `undefined`). */
  function GetPageContent(domain: string, path: string): (r: Option<PageContent>)
    ensures GetSiteData(domain).None? ==> r.None?
    ensures GetSiteData(domain).Some? ==>
              var pages := GetSiteData(domain).value.content.pages;
              && (NormalizePath(path) in pages ==> r == Some(pages[NormalizePath(path)]))
              && (NormalizePath(path) !in pages && "/" in pages ==> r == Some(pages["/"]))
              && (NormalizePath(path) !in pages && "/" !in pages ==> r.None?)
  {
    match GetSiteData(domain)
    case None => None
    case Some(site) =>
      var pages := site.content.pages;
      var normalizedPath := NormalizePath(path);
      if normalizedPath in pages then Some(pages[normalizedPath])
      else if "/" in pages then Some(pages["/"])
      else None
  }

  /** Every mock site has a home page, so a page lookup fails exactly when the
      site lookup fails. */
  lemma PageFoundIffSite(domain: string, path: string)
    ensures GetPageContent(domain, path).None? <==> GetSiteData(domain).None?
  {
    var clean := CleanDomain(domain);
    if clean in MockSites {
      assert clean == "cool-barber" || clean == "demo-pizza";
      assert "/" in MockSites[clean].content.pages;
    }
  }

  lemma MarkersUnbordered()
    ensures Unbordered(LocalSuffix) && Unbordered(DevPort)
  {
  }

  /** The first occurrence of an unbordered pattern after pattern-free text
      is the one removed. */
  lemma ReplaceAfter(a: string, p: string, b: string)
    requires Unbordered(p) && !Contains(a, p)
    ensures ReplaceFirst(a + p + b, p, "") == a + b
  {
    var s := a + p + b;
    assert s == [] + a + p + b;
    FindIn(s, [], a, p, b);
    assert s[..|a|] == a && s[|a| + |p|..] == b;
  }

  /** `name.local:3000` and `name.local` clean to `name`, as does `name`
      itself, when the name holds neither marker. */
  lemma CleanDevDomain(name: string)
    requires !Contains(name, LocalSuffix) && !Contains(name, DevPort)
    ensures CleanDomain(name + LocalSuffix + DevPort) == name
    ensures CleanDomain(name + LocalSuffix) == name
    ensures CleanDomain(name) == name
  {
    MarkersUnbordered();
    ReplaceAfter(name, LocalSuffix, DevPort);
    ReplaceAfter(name, DevPort, []);
    assert name + DevPort + [] == name + DevPort;
    assert name + [] == name;
    ReplaceAfter(name, LocalSuffix, []);
    assert name + LocalSuffix + [] == name + LocalSuffix;
  }

  /** The markers are not anchored at the end: the first `.local` is cut
      out of the middle of a name too. */
  lemma CleanNotSuffixAnchored(a: string, b: string)
    requires !Contains(a, LocalSuffix) && !Contains(a + b, DevPort)
    ensures CleanDomain(a + LocalSuffix + b) == a + b
  {
    MarkersUnbordered();
    ReplaceAfter(a, LocalSuffix, b);
  }

  /** `cool-barber.local:3000`, the local development host, resolves to the
      cool-barber site. */
  lemma DevHostResolves(name: string)
    requires name == "cool-barber"
    ensures GetSiteData(name + LocalSuffix + DevPort) == Some(CoolBarber)
  {
    AbsentChar(name, LocalSuffix, '.');
    AbsentChar(name, DevPort, ':');
    CleanDevDomain(name);
  }
}
