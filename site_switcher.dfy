/** The site switcher dropdown (app/components/SiteSwitcher.tsx): relative
    "last updated" labels computed with floor division, the fetch of the
    caller's sites when the dropdown first opens, and navigation to the
    chosen site. */
module SiteSwitcher {
  import opened Common
  import UserSites

  const MsPerMinute: int := 60000
  const MsPerHour: int := 3600000
  const MsPerDay: int := 86400000
  const MsPerWeek: int := 604800000

  /** The bucket a time difference falls in, with its count. */
  datatype Age =
    | JustNow
    | MinutesAgo(minutes: int)
    | HoursAgo(hours: int)
    | DaysAgo(days: int)
    | OnDate

  /** The bucketing of `formatDate` for `diffMs = now - date`. Dafny's `/`
      by a positive divisor rounds down, as `Math.floor(diffMs / n)` does,
      also for a date in the future (negative `diffMs`). */
  function AgeOf(diffMs: int): (a: Age)
    ensures a == JustNow <==> diffMs < MsPerMinute
    ensures a.MinutesAgo? <==> MsPerMinute <= diffMs < MsPerHour
    ensures a.HoursAgo? <==> MsPerHour <= diffMs < MsPerDay
    ensures a.DaysAgo? <==> MsPerDay <= diffMs < MsPerWeek
    ensures a == OnDate <==> MsPerWeek <= diffMs
    ensures a.MinutesAgo? ==> 1 <= a.minutes < 60 && a.minutes * MsPerMinute <= diffMs < (a.minutes + 1) * MsPerMinute
    ensures a.HoursAgo? ==> 1 <= a.hours < 24 && a.hours * MsPerHour <= diffMs < (a.hours + 1) * MsPerHour
    ensures a.DaysAgo? ==> 1 <= a.days < 7 && a.days * MsPerDay <= diffMs < (a.days + 1) * MsPerDay
  {
    var diffMins := diffMs / MsPerMinute;
    var diffHours := diffMs / MsPerHour;
    var diffDays := diffMs / MsPerDay;
    if diffMins < 1 then JustNow
    else if diffMins < 60 then MinutesAgo(diffMins)
    else if diffHours < 24 then HoursAgo(diffHours)
    else if diffDays < 7 then DaysAgo(diffDays)
    else OnDate
  }

  /** The number a string of decimal digits spells, read left to right. */
  ghost function DigitsValue(s: string): int {
    if s == [] then 0 else DigitsValue(s[..|s| - 1]) * 10 + (s[|s| - 1] as int - '0' as int)
  }

  /** `r` is `n` written in decimal without leading zeros, followed by
      `unit`. */
  ghost predicate CountLabel(r: string, n: int, unit: string) {
    && |r| > |unit|
    && r[|r| - |unit|..] == unit
    && var digits := r[..|r| - |unit|];
       && (forall i :: 0 <= i < |digits| ==> '0' <= digits[i] <= '9')
       && DigitsValue(digits) == n
       && (|digits| > 1 ==> digits[0] != '0')
  }

  /** The decimal digits of `n`, as a template literal prints a count. */
  function NatToString(n: nat): (s: string)
    ensures |s| >= 1
    ensures forall i :: 0 <= i < |s| ==> '0' <= s[i] <= '9'
    ensures DigitsValue(s) == n
    ensures s[0] == '0' ==> n == 0
    ensures |s| > 1 ==> s[0] != '0'
    decreases n
  {
    var digit := ['0' + (n % 10) as char];
    if n < 10 then digit
    else
      var prefix := NatToString(n / 10);
      assert (prefix + digit)[..|prefix|] == prefix;
      prefix + digit
  }

  /** A count followed by its unit is a count label. */
  lemma CountLabelOf(n: nat, unit: string)
    requires |unit| > 0
    ensures CountLabel(NatToString(n) + unit, n, unit)
  {
    var s := NatToString(n);
    assert (s + unit)[..|s|] == s;
    assert (s + unit)[|s|..] == unit;
  }

  /** The label; `localeDate` stands for `date.toLocaleDateString()`. */
  function Label(a: Age, localeDate: string): (r: string)
    ensures a == JustNow ==> r == "just now"
    ensures a.MinutesAgo? && a.minutes >= 0 ==> CountLabel(r, a.minutes, "m ago")
    ensures a.HoursAgo? && a.hours >= 0 ==> CountLabel(r, a.hours, "h ago")
    ensures a.DaysAgo? && a.days >= 0 ==> CountLabel(r, a.days, "d ago")
    ensures a == OnDate ==> r == localeDate
  {
    match a
    case JustNow => "just now"
    case MinutesAgo(m) =>
      var count := if m < 0 then 0 else m;
      CountLabelOf(count, "m ago");
      NatToString(count) + "m ago"
    case HoursAgo(h) =>
      var count := if h < 0 then 0 else h;
      CountLabelOf(count, "h ago");
      NatToString(count) + "h ago"
    case DaysAgo(d) =>
      var count := if d < 0 then 0 else d;
      CountLabelOf(count, "d ago");
      NatToString(count) + "d ago"
    case OnDate => localeDate
  }

  /** `formatDate`: the label for `diffMs = now - date`, stated on the
      difference itself. */
  function FormatDate(diffMs: int, localeDate: string): (r: string)
    ensures diffMs < MsPerMinute ==> r == "just now"
    ensures MsPerMinute <= diffMs < MsPerHour ==> CountLabel(r, diffMs / MsPerMinute, "m ago")
    ensures MsPerHour <= diffMs < MsPerDay ==> CountLabel(r, diffMs / MsPerHour, "h ago")
    ensures MsPerDay <= diffMs < MsPerWeek ==> CountLabel(r, diffMs / MsPerDay, "d ago")
    ensures MsPerWeek <= diffMs ==> r == localeDate
  {
    Label(AgeOf(diffMs), localeDate)
  }

  function Rank(a: Age): int {
    match a
    case JustNow => 0
    case MinutesAgo(_) => 1
    case HoursAgo(_) => 2
    case DaysAgo(_) => 3
    case OnDate => 4
  }

  function Count(a: Age): int {
    match a
    case MinutesAgo(m) => m
    case HoursAgo(h) => h
    case DaysAgo(d) => d
    case _ => 0
  }

  /** An older date never gets a younger label: the bucket does not go
      down, and within a bucket the count does not go down. */
  lemma AgeMonotone(d1: int, d2: int)
    requires d1 <= d2
    ensures Rank(AgeOf(d1)) <= Rank(AgeOf(d2))
    ensures Rank(AgeOf(d1)) == Rank(AgeOf(d2)) ==> Count(AgeOf(d1)) <= Count(AgeOf(d2))
  {
  }

  /** The three labels just below the day boundaries. */
  lemma BoundaryLabels()
    ensures AgeOf(59999) == JustNow && AgeOf(-5000) == JustNow
    ensures AgeOf(MsPerHour - 1) == MinutesAgo(59)
    ensures AgeOf(MsPerDay - 1) == HoursAgo(23)
    ensures AgeOf(MsPerWeek - 1) == DaysAgo(6)
  {
  }

  /** How the `/api/user/sites` request ended: a response, or a thrown
      network error. */
  datatype FetchResult = Responded(response: UserSites.Response) | NetworkError

  /** `res.ok` */
  predicate Ok(r: FetchResult) {
    r.Responded? && 200 <= r.response.Status() < 300
  }

  /** Which entries carry the "Current" marker. */
  function CurrentMarks(sites: seq<UserSites.UserSite>, currentSiteId: string): (r: seq<bool>)
    ensures |r| == |sites|
    ensures forall i :: 0 <= i < |sites| ==> (r[i] <==> sites[i].id == currentSiteId)
  {
    if sites == [] then [] else [sites[0].id == currentSiteId] + CurrentMarks(sites[1..], currentSiteId)
  }

  /** An ok status comes only with the list of sites. */
  lemma OkIsSiteList(result: FetchResult)
    requires Ok(result)
    ensures result.response.SiteList?
  {
  }

  class Switcher {
    const currentSiteId: string
    var isOpen: bool
    var sites: seq<UserSites.UserSite>
    var loading: bool
    /** The `router.push` calls made so far. */
    var visited: seq<string>

    constructor (currentSiteId: string)
      ensures this.currentSiteId == currentSiteId
      ensures !isOpen && sites == [] && !loading && visited == []
    {
      this.currentSiteId := currentSiteId;
      isOpen := false;
      sites := [];
      loading := false;
      visited := [];
    }

    /** `fetchSites`: the list is replaced only by an ok response; loading
        is off again afterwards whatever happened. */
    method FetchSites(result: FetchResult)
      modifies this
      ensures !loading && isOpen == old(isOpen) && visited == old(visited)
      ensures Ok(result) && result.response.SiteList? ==> sites == result.response.sites
      ensures Ok(result) && !result.response.SiteList? ==> sites == old(sites)
      ensures !Ok(result) ==> sites == old(sites)
    {
      loading := true;
      if Ok(result) {
        match result.response
        case SiteList(userSites, _) =>
          sites := userSites;
        case _ =>
      }
      loading := false;
    }

    /** A click on the trigger button, followed by the effect on `isOpen`:
        the fetch runs only when the dropdown opens with an empty list. */
    method Toggle(result: FetchResult) returns (fetched: bool)
      modifies this
      ensures isOpen == !old(isOpen) && visited == old(visited)
      ensures fetched <==> !old(isOpen) && old(sites) == []
      ensures fetched ==> !loading
      ensures !fetched ==> sites == old(sites) && loading == old(loading)
      ensures fetched && Ok(result) && result.response.SiteList? ==> sites == result.response.sites
      ensures fetched && !Ok(result) ==> sites == []
    {
      isOpen := !isOpen;
      fetched := false;
      if isOpen && |sites| == 0 {
        FetchSites(result);
        fetched := true;
      }
    }

    /** `handleSwitchSite` */
    method SwitchSite(siteId: string)
      modifies this
      ensures visited == old(visited) + ["/editor?siteId=" + siteId]
      ensures !isOpen && sites == old(sites) && loading == old(loading)
    {
      visited := visited + ["/editor?siteId=" + siteId];
      isOpen := false;
    }

    /** A click on the overlay. */
    method Dismiss()
      modifies this
      ensures !isOpen && sites == old(sites) && visited == old(visited) && loading == old(loading)
    {
      isOpen := false;
    }
  }

  /** Opening fetches once; closing and reopening with sites loaded does not
      fetch again; choosing a site navigates to it and closes. */
  method OpenSwitchReopen(s1: UserSites.UserSite, s2: UserSites.UserSite)
  {
    var w := new Switcher(s1.id);
    var list := UserSites.SiteList([s1, s2], 2);
    var fetched := w.Toggle(Responded(list));
    assert fetched && w.sites == [s1, s2];
    assert CurrentMarks(w.sites, w.currentSiteId)[0];
    fetched := w.Toggle(NetworkError);
    assert !fetched && !w.isOpen;
    fetched := w.Toggle(NetworkError);
    assert !fetched && w.isOpen && w.sites == [s1, s2];
    w.SwitchSite(s2.id);
    assert w.visited == ["/editor?siteId=" + s2.id] && !w.isOpen;
  }
}
