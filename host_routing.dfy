/** Host routing: the request middleware (middleware.ts) and its debug
    variant (middleware.test.ts). A request is classified by its `Host`
    header as the builder app or a tenant site; tenant requests are rewritten
    to `/site/{domain}{path}`. */
module HostRouting {
  import opened Common
  import opened Text

  /** The part of the request URL the middleware touches: only the pathname
      is rewritten, the query string is carried along untouched. */
  datatype Url = Url(pathname: string, search: string)

  /** `host` is `None` when the request carries no `Host` header. */
  datatype Request = Request(host: Option<string>, url: Url)

  /** The `x-domain` / `x-hostname` headers set on the response. */
  datatype Tags = Tags(xDomain: string, xHostname: string)

  /** `NextResponse.next()` or `NextResponse.rewrite(url)`; a rewrite from the
      debug middleware carries no tags. */
  datatype Response =
    | PassThrough(tags: Tags)
    | Rewrite(url: Url, rewriteTags: Option<Tags>)

  /** `request.headers.get('host') || ''` */
  function HostOf(req: Request): string {
    OrElse(req.host, "")
  }

  /** The fixed, case-sensitive, unanchored substring tests that mark the
      builder app's own hosts. */
  predicate IsAppDomain(host: string) {
    || Contains(host, "localhost")
    || Contains(host, "app.")
    || Contains(host, "vercel.app")
    || Contains(host, "keystoneweb.ca")
    || Contains(host, "keystoneweb.com")
    || "127.0.0.1" <= host
  }

  /** `hostname.split(':')[0]`: the host with its port dropped. */
  function DomainOf(host: string): string {
    BeforeFirst(host, ':')
  }

  function SitePath(domain: string, pathname: string): string {
    "/site/" + domain + pathname
  }

  /** The production middleware. */
  function Middleware(req: Request): (res: Response)
    ensures res.PassThrough? <==> IsAppDomain(HostOf(req))
    ensures res.PassThrough? ==> res.tags == Tags("app", HostOf(req))
    ensures res.Rewrite? ==>
              res.rewriteTags.Some? &&
              var domain := res.rewriteTags.value.xDomain;
              && res.rewriteTags == Some(Tags(domain, HostOf(req)))
              && res.url == Url("/site/" + domain + req.url.pathname, req.url.search)
              && domain <= HostOf(req) && ':' !in domain
              && (|domain| < |HostOf(req)| ==> HostOf(req)[|domain|] == ':')
  {
    var hostname := HostOf(req);
    if IsAppDomain(hostname) then
      PassThrough(Tags("app", hostname))
    else
      var domain := DomainOf(hostname);
      Rewrite(req.url.(pathname := SitePath(domain, req.url.pathname)), Some(Tags(domain, hostname)))
  }

  /** Reads a rewritten pathname back: drop `/site/`, then split at the next
      `/` into the domain and the original pathname. */
  function ParseSitePath(p: string): Option<(string, string)> {
    if "/site/" <= p then Some(SplitDomain(p[6..])) else None
  }

  function SplitDomain(rest: string): (string, string) {
    match IndexOf(rest, "/", 0)
    case Some(i) => (rest[..i], rest[i..])
    case None => (rest, "")
  }

  /** A slash-free domain followed by an empty or `/`-led path splits back
      into the two. */
  lemma SplitDomainOf(d: string, p: string)
    requires '/' !in d
    requires p == "" || p[0] == '/'
    ensures SplitDomain(d + p) == (d, p)
  {
    var rest := d + p;
    forall j | 0 <= j < |d| ensures !OccursAt(rest, "/", j) {
      assert rest[j..j + 1] == [d[j]];
    }
    if p == "" {
      assert rest == d;
      forall j | 0 <= j ensures !OccursAt(rest, "/", j) { }
      assert IndexOf(rest, "/", 0) == None;
    } else {
      assert OccursAt(rest, "/", |d|) by { assert rest[|d|..|d| + 1] == [p[0]]; }
      assert IndexOf(rest, "/", 0) == Some(|d|);
      assert rest[..|d|] == d && rest[|d|..] == p;
    }
  }

  /** Round trip: for a tenant whose domain has no `/`, the rewritten path
      gives back the port-less domain and the original pathname. */
  lemma RewriteRoundTrip(req: Request)
    requires !IsAppDomain(HostOf(req))
    requires '/' !in DomainOf(HostOf(req))
    requires req.url.pathname == "" || req.url.pathname[0] == '/'
    ensures Middleware(req).Rewrite?
    ensures ParseSitePath(Middleware(req).url.pathname) == Some((DomainOf(HostOf(req)), req.url.pathname))
  {
    var d, p := DomainOf(HostOf(req)), req.url.pathname;
    var full := SitePath(d, p);
    assert "/site/" <= full && full[6..] == d + p;
    SplitDomainOf(d, p);
  }

  /** A request without a `Host` header is a tenant request for the empty
      domain: `/about` becomes `/site//about`. */
  lemma MissingHostRewrite(req: Request)
    requires req.host.None?
    ensures Middleware(req) == Rewrite(req.url.(pathname := "/site/" + req.url.pathname), Some(Tags("", "")))
  {
    assert !IsAppDomain("") by {
      AbsentChar("", "localhost", 'l');
      AbsentChar("", "app.", 'a');
      AbsentChar("", "vercel.app", 'v');
      AbsentChar("", "keystoneweb.ca", 'k');
      AbsentChar("", "keystoneweb.com", 'k');
    }
  }

  /** A tenant host without a port is used verbatim: scenario
      `acme.example.com` + `/about?x=1` gives `/site/acme.example.com/about?x=1`. */
  lemma TenantWithoutPort(h: string, url: Url)
    requires !IsAppDomain(h) && ':' !in h
    ensures Middleware(Request(Some(h), url))
            == Rewrite(Url("/site/" + h + url.pathname, url.search), Some(Tags(h, h)))
  {
    DomainWithoutPort(h);
  }

  /** A tenant host with a port: the port is dropped from the domain (and
      from the rewritten path) but kept in `x-hostname`. */
  lemma TenantWithPort(d: string, port: string, url: Url)
    requires ':' !in d && !IsAppDomain(d + ":" + port)
    ensures Middleware(Request(Some(d + ":" + port), url))
            == Rewrite(Url("/site/" + d + url.pathname, url.search), Some(Tags(d, d + ":" + port)))
  {
    var h := d + ":" + port;
    assert h[..|d|] == d;
    BeforeFirstAt(h, ':', |d|);
  }

  /** The app tests are plain substring tests: not anchored at the end of
      the host name... */
  lemma UnanchoredAppDomain(h: string)
    requires h == "keystoneweb.com.attacker.net"
    ensures IsAppDomain(h)
  {
    assert OccursAt(h, "keystoneweb.com", 0);
  }

  /** ... and case-sensitive. */
  lemma CaseSensitiveAppDomain(h: string)
    requires h == "LOCALHOST"
    ensures !IsAppDomain(h)
  {
    assert h[0] != "127.0.0.1"[0];
    AbsentChar(h, "localhost", 'l');
    AbsentChar(h, "app.", 'a');
    AbsentChar(h, "vercel.app", 'v');
    AbsentChar(h, "keystoneweb.ca", 'k');
    AbsentChar(h, "keystoneweb.com", 'k');
  }

  /** The loopback test is a prefix test, unlike the others. */
  lemma LoopbackIsPrefixOnly(h: string)
    requires h == "10.127.0.0.1"
    ensures !IsAppDomain(h)
  {
    assert h[1] != "127.0.0.1"[1];
    AbsentChar(h, "localhost", 'l');
    AbsentChar(h, "app.", 'a');
    AbsentChar(h, "vercel.app", 'v');
    AbsentChar(h, "keystoneweb.ca", 'k');
    AbsentChar(h, "keystoneweb.com", 'k');
  }

  /** The route matcher `/((?!alt1|alt2|...).*)`: a path is handled by the
      middleware when it starts with `/` and the text after that `/` begins
      with none of the alternatives. In the regex source a `.` (as in
      `favicon.ico`) matches any character. */
  predicate PatternPrefix(pat: string, s: string) {
    |pat| <= |s| && forall i :: 0 <= i < |pat| ==> pat[i] == '.' || pat[i] == s[i]
  }

  predicate Matches(excluded: seq<string>, path: string) {
    |path| > 0 && path[0] == '/' && forall alt :: alt in excluded ==> !PatternPrefix(alt, path[1..])
  }

  const ProductionExclusions: seq<string> := ["_next/static", "_next/image", "favicon.ico", "api", "robots.txt"]
  const DebugExclusions: seq<string> := ["_next/static", "_next/image", "favicon.ico", "api"]

  /** The debug matcher handles every path the production one does, and more
      only where the path begins with `/robots.txt`. */
  lemma DebugMatcherWidensOnlyRobots(path: string)
    ensures Matches(ProductionExclusions, path) ==> Matches(DebugExclusions, path)
    ensures Matches(DebugExclusions, path) && !Matches(ProductionExclusions, path)
            ==> PatternPrefix("robots.txt", path[1..])
  {
  }

  /** `/api/...` is left to the API routes. */
  lemma ApiExcluded()
    ensures !Matches(ProductionExclusions, "/api/sites")
  {
    assert "/api/sites"[1..] == "api/sites";
    assert PatternPrefix("api", "api/sites");
  }

  /** The exclusions are prefixes, so `/apiary` is not handled either. */
  lemma ApiPrefixExcluded()
    ensures !Matches(ProductionExclusions, "/apiary")
  {
    assert "/apiary"[1..] == "apiary" && PatternPrefix("api", "apiary");
  }

  /** The unescaped `.` in `favicon.ico` matches any character, so every
      `/favicon?ico` is excluded. */
  lemma DotMatchesAnyChar(c: char)
    ensures !Matches(ProductionExclusions, "/favicon" + [c] + "ico")
  {
    var path := "/favicon" + [c] + "ico";
    assert path[1..] == "favicon" + [c] + "ico";
    assert PatternPrefix("favicon.ico", path[1..]);
    assert "favicon.ico" in ProductionExclusions;
  }

  /** `/robots.txt` is handled by the debug matcher only. */
  lemma RobotsOnlyInDebug()
    ensures !Matches(ProductionExclusions, "/robots.txt") && Matches(DebugExclusions, "/robots.txt")
  {
    var robots := "robots.txt";
    assert "/robots.txt"[1..] == robots && PatternPrefix("robots.txt", robots);
    assert "favicon.ico"[0] != robots[0] && "api"[0] != robots[0] && "_next/image"[0] != robots[0];
    assert !PatternPrefix("_next/static", robots) && !PatternPrefix("_next/image", robots);
    assert !PatternPrefix("favicon.ico", robots) && !PatternPrefix("api", robots);
  }

  /** An ordinary page path is handled. */
  lemma PagePathMatches()
    ensures Matches(ProductionExclusions, "/about")
  {
    var about := "about";
    assert "/about"[1..] == about;
    assert "api"[1] != about[1];
    assert !PatternPrefix("_next/static", about) && !PatternPrefix("_next/image", about);
    assert !PatternPrefix("favicon.ico", about) && !PatternPrefix("api", about);
    assert !PatternPrefix("robots.txt", about);
  }

  /** The host the debug middleware pretends every request came from. */
  const TestHostname: string := "cool-barber.local"

  /** `testHostname.split(':')[0]`, which the debug middleware computes on a
      constant; `DebugDomainIsTestHostname` gives its value. */
  const DebugDomain: string := TestHostname

  lemma DomainWithoutPort(h: string)
    requires ':' !in h
    ensures DomainOf(h) == h
  {
    assert h[..|h|] == h;
    BeforeFirstAt(h, ':', |h|);
  }

  lemma DebugDomainIsTestHostname()
    ensures DomainOf(TestHostname) == DebugDomain
  {
    DomainWithoutPort(TestHostname);
  }

  /** The debug middleware: ignores the `Host` header, never passes a request
      through, and rewrites without setting any header. */
  function DebugMiddleware(req: Request): (res: Response)
    ensures res.Rewrite? && res.rewriteTags.None?
    ensures res.url == Url("/site/" + TestHostname + req.url.pathname, req.url.search)
  {
    Rewrite(req.url.(pathname := SitePath(DebugDomain, req.url.pathname)), None)
  }

  /** The debug result depends on the path and query only. */
  lemma DebugIgnoresHost(r1: Request, r2: Request)
    requires r1.url == r2.url
    ensures DebugMiddleware(r1) == DebugMiddleware(r2)
  {
  }

  /** `cool-barber.local` is a tenant host, so the debug rewrite is the
      production rewrite of a request that really came from it, apart from
      the missing headers. */
  lemma TestHostnameIsTenant(h: string)
    requires h == TestHostname
    ensures !IsAppDomain(h) && DomainOf(h) == DebugDomain
  {
    assert h[0] != "127.0.0.1"[0];
    AbsentChar(h, "localhost", 'h');
    AbsentChar(h, "app.", 'p');
    AbsentChar(h, "vercel.app", 'v');
    AbsentChar(h, "keystoneweb.ca", 'k');
    AbsentChar(h, "keystoneweb.com", 'k');
    DomainWithoutPort(h);
  }
}
