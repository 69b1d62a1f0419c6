# keystoneweb core, modelled in Dafny

This project models the logic of the keystoneweb multi-tenant site builder
(a Next.js application):

- the request middleware that tells the builder app from tenant sites and
  rewrites tenant paths to `/site/{domain}{path}` (`host_routing.dfy`);
- the in-memory site store behind `/api/sites`, as a class over a map
  (`site_store.dfy`);
- the template renderer's composition effect, which strips stale colour
  overrides, rewrites `<h1>` headings with edited content and inserts a fresh
  style block (`template_renderer.dfy`, over the string operations of `text.dfy`);
- the template catalogue route with its pagination (`template_catalog.dfy`);
- the mock tenant database with domain clean-up and page fallback
  (`site_data.dfy`);
- the template-metadata queries, their route and the template registry
  (`template_queries.dfy`, `metadata_route.dfy`, `registry.dfy`);
- the owner-scoped site listing and latest-site routes, over an abstract
  `sites` table queried by filter and descending sort (`site_rows.dfy`,
  `user_sites.dfy`, `latest_site.dfy`);
- four UI state machines: the inline text editor, the onboarding wizard,
  the site switcher and the sign-up modal (`editable_text.dfy`,
  `onboarding.dfy`, `site_switcher.dfy`, `sign_up_modal.dfy`).

Shared definitions (an `Option`, JSON values, JavaScript truthiness and `||`)
are in `common.dfy`.

Database and auth calls are parameters. A table is a sequence of rows plus
an outcome (answered, failed or a thrown exception). Auth is a user id that
may be missing, plus a failure flag. The source's `uuidv4()` and `new Date()`
values are parameters too. State that React keeps in hooks becomes the
fields of a class, and each handler becomes a method. Outside calls
(`signUp`, `onSave`, `router.push`) are recorded in a sequence field so
that their order and arguments can be stated.

The repository's design describes an ownership check when a site is saved.
The in-memory store's code has none, and the model follows the code: PATCH
has no authentication and no ownership check, and `userId` is never set.

## Model

| member | source | states |
|---|---|---|
| Text.IndexOf | middleware.ts:9-14 | `indexOf` finds the first occurrence at or after the start index, or reports that there is none |
| Text.IncludesIsContains | middleware.ts:9-13 | `includes` holds exactly when the pattern occurs somewhere in the text |
| Text.ReplaceFirst | lib/data.ts:135 | `replace` with a string pattern leaves a text without the pattern unchanged, and otherwise acts at an occurrence |
| Text.BeforeFirst | middleware.ts:29 | `split(':')[0]` is a prefix of the host with no `:` in it, and it ends just before the first `:` |
| HostRouting.Middleware | middleware.ts:3-40 | a request passes through exactly when the host is an app domain, tagged `x-domain: app` with the raw host. Otherwise the pathname becomes `/site/` + the port-less domain + the pathname, the query string is kept, and the tags are that domain and the full host |
| HostRouting.IsAppDomain | middleware.ts:8-14 | the app test: one of five fixed substrings, or the `127.0.0.1` prefix. UnanchoredAppDomain, CaseSensitiveAppDomain and LoopbackIsPrefixOnly state its reach |
| HostRouting.RewriteRoundTrip | middleware.ts:26-32 | for a tenant whose domain has no `/`, parsing the rewritten path gives back the domain and the original pathname |
| HostRouting.MissingHostRewrite | middleware.ts:4 | a request without a `Host` header is a tenant request for the empty domain (path `/site/` + pathname) |
| HostRouting.TenantWithoutPort | middleware.ts:29-38 | a tenant host without a port is used verbatim as the domain |
| HostRouting.TenantWithPort | middleware.ts:29-38 | for a tenant host with a port, the domain drops the port and `x-hostname` keeps it |
| HostRouting.UnanchoredAppDomain | middleware.ts:8-13 | the app tests are plain substring tests, so `keystoneweb.com.attacker.net` counts as the app |
| HostRouting.CaseSensitiveAppDomain | middleware.ts:8-13 | the app tests are case-sensitive: `LOCALHOST` is a tenant |
| HostRouting.LoopbackIsPrefixOnly | middleware.ts:14 | the loopback test is a prefix test: `10.127.0.0.1` is a tenant |
| HostRouting.Matches | middleware.ts:42-47 | the route matcher: a path starting with `/` whose remainder begins with none of the excluded alternatives, where `.` matches any character. The lemmas below state which paths it handles |
| HostRouting.DebugMatcherWidensOnlyRobots | middleware.test.ts:45-49 | every path the production matcher handles, the debug matcher handles too; any path handled only by the debug matcher starts with `/robots.txt` |
| HostRouting.ApiExcluded | middleware.ts:42-47 | `/api/...` paths are excluded from the middleware |
| HostRouting.ApiPrefixExcluded | middleware.ts:45 | the exclusions are prefixes, so `/apiary` is excluded too |
| HostRouting.DotMatchesAnyChar | middleware.ts:45 | for every character `c`, `/favicon` + `c` + `ico` is excluded, because the unescaped `.` matches any character |
| HostRouting.RobotsOnlyInDebug | middleware.ts:45 | `/robots.txt` is excluded in production and handled by the debug matcher |
| HostRouting.PagePathMatches | middleware.ts:42-47 | an ordinary page path is handled |
| HostRouting.DebugDomainIsTestHostname | middleware.test.ts:20-28 | splitting the forced test hostname at `:` leaves it unchanged |
| HostRouting.DebugMiddleware | middleware.test.ts:18-43 | the debug middleware always rewrites, to `/site/cool-barber.local` + pathname, keeping the query string and setting no tags |
| HostRouting.DebugIgnoresHost | middleware.test.ts:20-30 | the debug result depends only on the URL, never on the `Host` header |
| HostRouting.TestHostnameIsTenant | middleware.test.ts:20-24 | the forced hostname is a tenant host under the production test as well, with the same domain |
| SiteStore.NewSite | app/api/sites/route.ts:37-50 | the new record has the fresh id, a null owner, empty design data, `createdAt == updatedAt == now`, and the three request fields copied |
| SiteStore.MergeDesign | app/api/sites/route.ts:125 | the merge keeps every current key and adds every key of the patch. MergeOverwrites states the values |
| SiteStore.MergeOverwrites | app/api/sites/route.ts:125 | after the merge, keys in the patch have the patch's value, all other keys keep their old value, and an absent patch changes nothing |
| SiteStore.MergeIdempotent | app/api/sites/route.ts:125 | merging the same patch twice gives the same result as merging it once |
| SiteStore.Patched | app/api/sites/route.ts:124-126 | a patch changes only `designData` (merged) and `updatedAt`. Id, owner, template, type, category and `createdAt` are kept |
| SiteStore.PatchIdempotent | app/api/sites/route.ts:124-126 | patching twice with the same patch and time gives the same record as patching once |
| SiteStore.Store.constructor | app/api/sites/route.ts:23 | the store starts empty |
| SiteStore.Store.Post | app/api/sites/route.ts:25-72 | an unparsable body gives 500 and a body missing a field gives 400, both with the map unchanged. A valid body gives 201 with the fresh id, and the map gains exactly `NewSite` under that id with every other entry untouched |
| SiteStore.Store.Get | app/api/sites/route.ts:74-102 | a missing id gives 400 and an unknown id gives 404. Otherwise the stored record is returned unchanged, and the map is unchanged |
| SiteStore.Store.Patch | app/api/sites/route.ts:104-140 | an unparsable body gives 500, a missing id 400 and an unknown id 404, all with the map unchanged. Otherwise the target becomes `Patched(...)`, every other record is untouched, and the updated record is returned |
| TemplateRenderer.EditRulesOnlyInEditMode | app/components/TemplateRenderer.tsx:138-150 | the `[data-editable]` outline rules are in the style block exactly when edit mode is on |
| TemplateRenderer.StyleBlock | app/components/TemplateRenderer.tsx:138-150 | the override block: `<style id="color-overrides">`, the three colour variables, the edit-mode rules and `</style>`. EditRulesOnlyInEditMode and StripRemovesStyleBlock state its properties |
| TemplateRenderer.StripRemovesStyleBlock | app/components/TemplateRenderer.tsx:138-157 | for colours without `<`, the block one render builds is removed whole by the next render's strip, and the text around it stays |
| TemplateRenderer.StripDelimited | app/components/TemplateRenderer.tsx:157 | the global lazy strip as a scan. StripWithoutMarker, StripOverrideBlock and RemoveDelimited state what it does |
| TemplateRenderer.StripWithoutMarker | app/components/TemplateRenderer.tsx:157 | a text with no `<style id="color-overrides">` is left unchanged by the strip |
| TemplateRenderer.StripOverrideBlock | app/components/TemplateRenderer.tsx:157 | the first complete override block (shortest match up to `</style>`) is removed, and the rest of the text is stripped the same way |
| TemplateRenderer.RewriteElements | app/components/TemplateRenderer.tsx:172-183 | a text without `<h1` is unchanged. HeadingPairing, RewritePastKeys and ReplaceElements state how each heading is paired with its key |
| TemplateRenderer.RewritePastKeys | app/components/TemplateRenderer.tsx:175-183 | once the edit counter has passed the last key, every heading is kept verbatim |
| TemplateRenderer.HeadingPairing | app/components/TemplateRenderer.tsx:175-183 | the first `<h1…>…</h1>` is paired with the key at the current counter. It becomes `<h1 data-editable="key">value</h1>` when the value is non-empty and is kept verbatim otherwise. Either way the counter advances and the rest is rewritten from the next key |
| TemplateRenderer.NoKeysNoRewrite | app/components/TemplateRenderer.tsx:161-173 | a template with no editable keys keeps all of its headings |
| TemplateRenderer.InsertionPoint | app/components/TemplateRenderer.tsx:187-195 | the insertion point lies within the text: before `</head>`, else after the `>` that ends `<body…`, else at the front |
| TemplateRenderer.InsertStyle | app/components/TemplateRenderer.tsx:186-195 | inserting makes the text longer by exactly the block. InsertOnlyAddsBlock places the block at InsertionPoint |
| TemplateRenderer.InsertOnlyAddsBlock | app/components/TemplateRenderer.tsx:186-195 | inserting puts the block at the insertion point, and cutting the block back out gives exactly the input |
| TemplateRenderer.Composed | app/components/TemplateRenderer.tsx:154-195 | the composed page contains the fresh override block. ComposedSplits shows that the block is the only addition |
| TemplateRenderer.ComposedSplits | app/components/TemplateRenderer.tsx:154-195 | the composed page is the stripped, h1-rewritten base with only the new style block added |
| TemplateRenderer.RemoveDelimited | app/components/TemplateRenderer.tsx:157 | the scanning loop computes exactly the global lazy strip |
| TemplateRenderer.ReplaceElements | app/components/TemplateRenderer.tsx:172-183 | the loop with `editCounter` computes exactly the global heading rewrite |
| TemplateRenderer.Renderer.constructor | app/components/TemplateRenderer.tsx:51-73 | the renderer starts with the fetched base and no output |
| TemplateRenderer.Renderer.ApplyOverrides | app/components/TemplateRenderer.tsx:76-198 | an empty base changes nothing. Otherwise the output is rebuilt from the base alone (strip, rewrite when content is non-empty, insert), so earlier outputs never accumulate |
| TemplateCatalog.Slice | app/api/templates/route.ts:127 | `slice` with non-negative bounds gives at most `end - start` items, all from the list: the exact sub-range when it fits, nothing past the end |
| TemplateCatalog.Paginate | app/api/templates/route.ts:124-133 | a listing whose total is the list length and whose page is the one asked for, with at most `limit` items, all taken from the list. PageContents states which items |
| TemplateCatalog.Get | app/api/templates/route.ts:107-134 | a missing category gives 400. Otherwise the listing echoes the page, and `total` is the whole category length |
| TemplateCatalog.PageContents | app/api/templates/route.ts:122-134 | a page holds at most `limit` items and is the slice `[(page-1)*limit, page*limit)` cut at the length. `total` is the length, and `hasMore` holds exactly when `page*limit < total` |
| TemplateCatalog.Defaults | app/api/templates/route.ts:111-112 | without page or limit, the response is page 1 with 12 items per page |
| TemplateCatalog.UnknownCategory | app/api/templates/route.ts:122 | an unknown category gives an empty page with total 0 and no more pages |
| TemplateCatalog.PagesArePrefix | app/api/templates/route.ts:125-127 | pages 1..n together are exactly the first `n*limit` items in order (the whole list once it is covered), so pages neither overlap nor skip |
| TemplateCatalog.AllPagesCoverCategory | app/api/templates/route.ts:122-133 | enough pages list every template of the category exactly once |
| SiteData.CleanDomain | lib/data.ts:135 | the cleaned domain is never longer than the input, and a domain with neither `.local` nor `:3000` is unchanged |
| SiteData.GetSiteData | lib/data.ts:130-147 | the site is found exactly when the cleaned domain is a key, and it is that entry |
| SiteData.NormalizePath | lib/data.ts:160 | the result is `/` exactly for `''` and `'/'`; every other path is unchanged |
| SiteData.GetPageContent | lib/data.ts:152-169 | an unknown site gives none. Otherwise the result is the page at the normalised path if there is one, else the home page |
| SiteData.PageFoundIffSite | lib/data.ts:156-166 | a page lookup fails exactly when the site lookup fails |
| SiteData.CleanDevDomain | lib/data.ts:135 | `name.local:3000`, `name.local` and `name` all clean to `name` |
| SiteData.CleanNotSuffixAnchored | lib/data.ts:135 | the first `.local` is removed wherever it occurs, not only at the end |
| SiteData.DevHostResolves | lib/data.ts:36-37 | `cool-barber.local:3000` resolves to the cool-barber site |
| TemplateQueries.Select | lib/db/template-queries.ts:31-35 | the selected rows are exactly the rows meeting every equality condition |
| TemplateQueries.GetTemplateMetadata | lib/db/template-queries.ts:28-43 | a failed query gives null. A result is a row with that template id, and there is one exactly when the query answers with exactly one matching row (the `single()` rule) |
| TemplateQueries.UniqueTemplateFound | lib/db/template-queries.ts:31-42 | a template stored once is found |
| TemplateQueries.Conditions | lib/db/template-queries.ts:52-60 | a category condition is added exactly when a category is given, and likewise a business-type condition |
| TemplateQueries.ConditionsMeanFilters | lib/db/template-queries.ts:52-60 | a row meets the composed conditions exactly when it matches every filter that was given |
| TemplateQueries.GetAllTemplateMetadata | lib/db/template-queries.ts:48-70 | an error or null data gives `[]`. Otherwise the result holds exactly the rows that match the filters |
| TemplateQueries.NoFiltersAllRows | lib/db/template-queries.ts:52-69 | without filters, every row is returned in table order |
| TemplateQueries.GetTemplatePalette | lib/db/template-queries.ts:75-83 | missing metadata gives null. Otherwise the result is the palette under the key (default `"default"`), else the `"default"` palette, else null |
| TemplateQueries.GetTemplateCustomizables | lib/db/template-queries.ts:88-95 | the result is the metadata's customizables exactly when the metadata exists |
| TemplateQueries.GetAvailablePalettes | lib/db/template-queries.ts:100-107 | missing metadata gives no names; otherwise the names are exactly the keys of the stored palettes |
| TemplateQueries.AvailablePalettesAgree | lib/db/template-queries.ts:75-106 | a name is listed exactly when the metadata has a palette under it, and the lookup then returns that palette. An unlisted name gets the same answer as the default lookup |
| TemplateQueries.MissingMetadata | lib/db/template-queries.ts:79-80 | without metadata, the palette, customizables and palette-name lookups give null, null and none |
| MetadataRoute.FilterParam | app/api/templates/metadata/route.ts:19-20 | an absent or empty parameter becomes no filter; any other value is kept |
| MetadataRoute.GetList | app/api/templates/metadata/route.ts:15-42 | a throw gives 500 with an error. Otherwise the response is a success with `count` equal to the data length, holding exactly the rows that match the non-empty parameters (none on a query error) |
| MetadataRoute.EmptyParamIsAbsent | app/api/templates/metadata/route.ts:19-20 | an empty parameter acts like an absent one |
| MetadataRoute.UnfilteredList | app/api/templates/metadata/route.ts:22-31 | without parameters, every stored row is listed |
| MetadataRoute.GetItem | app/api/templates/metadata/route.ts:49-77 | a throw gives 500. Otherwise the response is 404 exactly when no metadata is found, and a found item is a stored row with that id |
| MetadataRoute.QueryErrorIsNotFound | app/api/templates/metadata/route.ts:51-61 | a failing query is reported as 404, not 500 |
| MetadataRoute.StoredTemplateServed | app/api/templates/metadata/route.ts:63-66 | a template stored once is served with success |
| Registry.Lookup | app/templates/registry.ts:40 | a lookup finds nothing exactly when no entry has the id; otherwise it finds an entry of the registry |
| Registry.GetRegisteredTemplates | app/templates/registry.ts:66-68 | the registered ids are `classic-pro-plumber` then `modern-blue-plumber` |
| Registry.IsTemplateRegistered | app/templates/registry.ts:59-61 | an id is registered exactly when some registry entry carries it (own keys only). RegisteredIffListed ties it to the listed ids |
| Registry.RegisteredIffListed | app/templates/registry.ts:59-68 | an id is registered exactly when it is listed |
| Registry.GetTemplateComponent | app/templates/registry.ts:37-55 | an unregistered id gives null without calling an importer. A registered id calls its importer, and a failing import gives null. A component that is returned is the one registered under the id |
| Registry.RegisteredComponents | app/templates/registry.ts:15-31 | each registered id loads its own component |
| Registry.LoadSucceedsIff | app/templates/registry.ts:37-55 | a component is returned exactly when the id is registered and the import succeeds |
| SiteRows.Owned | app/api/user/sites/route.ts:34 | the owner filter keeps every row of the caller, as many times as it occurs, and nothing else |
| SiteRows.Insert | app/api/user/sites/route.ts:35 | inserting into a descending list keeps it descending and adds exactly the one row |
| SiteRows.SortDesc | app/api/user/sites/route.ts:35 | the result is in descending `updated_at` order and is a permutation of the input |
| SiteRows.OwnerQuery | app/api/user/sites/route.ts:31-35 | the query result is in descending `updated_at` order. OwnerQueryIsSortedOwnRows states its contents |
| SiteRows.OwnerQueryIsSortedOwnRows | app/api/user/sites/route.ts:31-35 | the query result is descending and holds exactly the caller's rows, with multiplicity |
| SiteRows.OwnerQueryHead | app/api/user/latest-site/route.ts:34-40 | the query is empty exactly when the caller owns no site. Otherwise its head is a row of the caller with the greatest `updated_at` |
| UserSites.Title | app/api/user/sites/route.ts:48 | the title is the design data's truthy `title`, else `'Untitled Site'` |
| UserSites.ToUserSite | app/api/user/sites/route.ts:46-52 | id, `updatedAt`, business type and category are copied, and the title is derived |
| UserSites.ToUserSites | app/api/user/sites/route.ts:46 | the mapping is one entry per row, in order |
| UserSites.GetUserSites | app/api/user/sites/route.ts:17-65 | a throw gives 500, no user 401, and a query error 500. Otherwise the response lists the mapped owner query, with `count` equal to its length |
| UserSites.UnauthorizedIgnoresTable | app/api/user/sites/route.ts:22-28 | without a verified user the table is never consulted, and the status is 401 (500 on a throw) |
| UserSites.ListedSitesAreOwnRows | app/api/user/sites/route.ts:31-57 | every listed site comes from a row of the caller, the list is most recent first, and `count` is the number of the caller's rows |
| UserSites.NoSitesEmptyList | app/api/user/sites/route.ts:54-57 | a caller with no sites gets an empty list with 200, not an error |
| LatestSite.ToSiteData | app/api/user/latest-site/route.ts:58-67 | every field is copied, and `designData` becomes `{}` when the stored value is falsy |
| LatestSite.QueryError | app/api/user/latest-site/route.ts:34-40 | `.limit(1).single()` reports no error exactly when the table answers and the caller owns a row; otherwise the table's error, else `PGRST116` for no rows |
| LatestSite.GetLatestSite | app/api/user/latest-site/route.ts:20-79 | a throw gives 500 and no user gives 401. The code `PGRST116` gives 404 and any other query error 500. With no error, an empty result gives 404 and a non-empty one gives the site |
| LatestSite.LatestExistsIffOwnsSite | app/api/user/latest-site/route.ts:34-49 | a site is returned exactly when the caller owns one; otherwise the response is 404 |
| LatestSite.LatestIsMostRecentOwned | app/api/user/latest-site/route.ts:34-71 | the returned site is the mapping of a row of the caller with the greatest `updated_at` |
| LatestSite.ErrorCodeMapping | app/api/user/latest-site/route.ts:42-55 | a query error maps to 404 for `PGRST116` and to 500 for any other code |
| EditableText.DisplayText | app/components/EditableText.tsx:75 | the shown text is `content` when it is non-empty, else the default. It is empty only when both are |
| EditableText.Editor.constructor | app/components/EditableText.tsx:42-52 | the editor starts out of editing with `content \|\| defaultValue` as the draft and no saves |
| EditableText.Editor.Render | app/components/EditableText.tsx:77-128 | outside edit mode only the text is shown. In edit mode, the input holding the draft is shown while editing, and the clickable text otherwise |
| EditableText.Editor.Click | app/components/EditableText.tsx:126-134 | a click starts editing only in edit mode, and keeps the "editing only in edit mode" invariant |
| EditableText.Editor.Type | app/components/EditableText.tsx:90 | typing replaces the draft only while editing |
| EditableText.ShouldSave | app/components/EditableText.tsx:64 | the save gate `tempValue.trim() && tempValue !== content`. Editor.Save, UntouchedDraftSavesOnlyDefault and BlankNeverSaved state its consequences |
| EditableText.Editor.Save | app/components/EditableText.tsx:63-68 | `onSave(key, draft)` is called once exactly when the trimmed draft is non-empty and differs from `content`; editing ends either way |
| EditableText.Editor.Cancel | app/components/EditableText.tsx:70-73 | the draft goes back to the displayed text and editing ends, with no save |
| EditableText.Editor.KeyDown | app/components/EditableText.tsx:92-95 | while editing, Enter saves and Escape cancels; any other key, or a key outside editing, changes nothing |
| EditableText.UntouchedDraftSavesOnlyDefault | app/components/EditableText.tsx:52-66 | saving an untouched draft calls `onSave` exactly when `content` is unset and the default is not blank |
| EditableText.BlankNeverSaved | app/components/EditableText.tsx:64 | a whitespace-only draft is never saved |
| Onboarding.Categories | app/components/OnboardingWizard.tsx:31-58 | no categories are offered exactly when no business type is chosen |
| Onboarding.Templates | app/components/OnboardingWizard.tsx:112-114 | the templates are those listed for the category when it is a key of the table, else the defaults |
| Onboarding.OfferedCategoriesHaveTemplates | app/components/OnboardingWizard.tsx:31-83 | every offered category has at least two templates, and only handyman, plumber, electrical and ecommerce have their own |
| Onboarding.Wizard.constructor | app/components/OnboardingWizard.tsx:86-88 | the wizard starts at step 1 with nothing chosen |
| Onboarding.Wizard.ChooseBusinessType | app/components/OnboardingWizard.tsx:90-94 | the type is set, the category cleared and the step becomes 2, from any step, so the step and selection invariants hold afterwards |
| Onboarding.Wizard.ChooseCategory | app/components/OnboardingWizard.tsx:96-99 | the category is set and the step becomes 3, with the type kept |
| Onboarding.Wizard.Back | app/components/OnboardingWizard.tsx:101-109 | from step 3 the category is cleared and the step becomes 2. From step 2 the type is cleared and the step becomes 1. From step 1 nothing changes. The step stays in {1,2,3} and the selection invariant is preserved |
| SiteSwitcher.AgeOf | app/components/SiteSwitcher.tsx:56-64 | every difference falls in exactly one bucket, bounded by whole minutes, hours and days with floor division, and future dates count as just now |
| SiteSwitcher.NatToString | app/components/SiteSwitcher.tsx:62-64 | a count is written as decimal digits that spell exactly that count, without leading zeros |
| SiteSwitcher.Label | app/components/SiteSwitcher.tsx:61-65 | `just now`; a minute, hour or day count written in decimal and followed by `m ago`, `h ago` or `d ago`; otherwise the locale date |
| SiteSwitcher.FormatDate | app/components/SiteSwitcher.tsx:53-66 | below a minute, `just now`. Below an hour, the digits of `floor(diff / 60000)` and `m ago`; below a day, hours and `h ago`; below a week, days and `d ago`. From a week on, the locale date |
| SiteSwitcher.AgeMonotone | app/components/SiteSwitcher.tsx:57-65 | an older date never gets a younger label: the bucket and, within it, the count do not go down |
| SiteSwitcher.BoundaryLabels | app/components/SiteSwitcher.tsx:61-64 | just below each boundary the labels are: just now, 59m, 23h and 6d |
| SiteSwitcher.CurrentMarks | app/components/SiteSwitcher.tsx:113-123 | an entry is marked current exactly when its id equals the current site id |
| SiteSwitcher.OkIsSiteList | app/api/user/sites/route.ts:17-65 | of the `/api/user/sites` responses, only the site list has a 2xx status |
| SiteSwitcher.Switcher.constructor | app/components/SiteSwitcher.tsx:22-24 | the switcher starts closed, with no sites and not loading |
| SiteSwitcher.Switcher.FetchSites | app/components/SiteSwitcher.tsx:33-46 | only an ok site list replaces the list. Every other outcome leaves it unchanged, and loading ends off |
| SiteSwitcher.Switcher.Toggle | app/components/SiteSwitcher.tsx:27-31 | a click flips the dropdown. A fetch happens exactly when it opens with an empty list; otherwise the list and loading are untouched |
| SiteSwitcher.Switcher.SwitchSite | app/components/SiteSwitcher.tsx:48-51 | switching navigates to `/editor?siteId=` + id and closes the dropdown |
| SiteSwitcher.Switcher.Dismiss | app/components/SiteSwitcher.tsx:85 | the overlay closes the dropdown and changes nothing else |
| SignUpModal.SubmitEvents | app/components/SignUpModal.tsx:23-59 | the ordered effects of one submit. LoadingEndsOff, SignUpCalledIffValid, CallbacksOnlyOnSuccess and ErrorShown state what they contain |
| SignUpModal.LoadingEndsOff | app/components/SignUpModal.tsx:25-58 | every submit starts by clearing the error and turning loading on, and ends with loading off |
| SignUpModal.SignUpCalledIffValid | app/components/SignUpModal.tsx:28-41 | `signUp` is called, with exactly the email and password, only when both are present and the password has at least 6 characters. The business name is never passed |
| SignUpModal.ShownError | app/components/SignUpModal.tsx:28-55 | the error left after a submit, case by case. ErrorShown proves that replaying SubmitEvents leaves exactly this error |
| SignUpModal.ErrorShown | app/components/SignUpModal.tsx:25-55 | replaying a submit's effects leaves the error `ShownError`: the missing-field message first, then the length message, then the sign-up's own message or the generic one, and none after a success |
| SignUpModal.CallbacksOnlyOnSuccess | app/components/SignUpModal.tsx:43-52 | `onClose` runs exactly after a valid, successful sign-up, and `onSuccess` only then and when given, directly before `onClose` |
| SignUpModal.Modal.constructor | app/components/SignUpModal.tsx:15-19 | the modal starts with empty fields, not loading and no error |
| SignUpModal.Modal.Enter | app/components/SignUpModal.tsx:81-97 | the inputs change only while not loading |
| SignUpModal.Modal.Attempt | app/components/SignUpModal.tsx:40-58 | the `try` block calls `signUp`, then shows its error, or shows the generic error, or calls the callbacks; loading ends off through `finally` |
| SignUpModal.Modal.HandleSignUp | app/components/SignUpModal.tsx:23-59 | the effects are exactly the submit's event sequence, the error is `ShownError`, loading is off, and the inputs are untouched |

## Left out

- Network, React rendering and hooks, `console` output and the 100 ms delay in `getSiteData`. Fetched or queried data are parameters.
- Concurrency: interleaved requests on the shared site map, and fetches that overlap UI events in the site switcher.
- The Supabase client. Queries are modelled as filter and sort over a sequence of rows. Rows with equal `updated_at` may come back in any order, and the model fixes one such order.
- Response headers other than the two routing tags, and the framework's compilation of the route matcher (the matcher is modelled as "not starting with any excluded prefix").
- Bracketed IPv6 hosts. The port is dropped at the first `:`, as the code does.
- TemplateRenderer.StyleBlock: the CSS text is abbreviated to the three colour variables plus the edit-mode rules. Colours are assumed to contain no `$`, because `String.replace` would expand `$&`.
- The renderer's fetch of the base HTML and its loading and error views.
- TemplateCatalog.Get: `parseInt` giving `NaN`, and a page or limit below 1, are outside the model; the function requires both to be at least 1.
- JavaScript prototype keys (`toString` and the like) in `in` and `obj[key]` lookups. Tables are maps with their own keys only.
- SiteStore.Store.Post: the three fields are taken as strings; non-string JSON values (a truthy `5`, a falsy `0` or `false`) are not modelled.
- Text.IndexOf: an empty pattern with a start index past the end is not found, where JavaScript clamps the start and finds it at the end. Every caller passes a non-empty pattern.
- SiteData.GetPageContent: a site without a home page would give `undefined`. The model maps that to `None`, as it does `null`. Every mock site has a home page.
- TemplateQueries.GetAvailablePalettes: returns a set, so the order of `Object.keys` is not modelled.
- TemplateQueries.GetTemplatePalette: every stored palette is an object, so a `null` stored as a palette's value is not modelled.
- `uuidv4()` and `new Date()` are parameters, and the id is assumed fresh. Timestamps are integers, or strings where they are only copied.
- SignUpModal: the password length counts characters, not UTF-16 code units. A callback that throws is not modelled.
- SiteSwitcher.Label: `toLocaleDateString()` is a parameter string.
- Floating point and locale output, such as the onboarding progress bar.
- Presentation state, such as the hover state of the editable text and the category labels and icons of the wizard.
- The registry's dynamic imports are a parameter that says whether the import fails.
- The template pages pass `defaultText`, but the editor reads `defaultValue`, so template defaults never reach the displayed text. The model of the editor takes `defaultValue` as given.
