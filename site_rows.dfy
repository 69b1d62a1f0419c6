/** The `sites` table as the owner-scoped routes query it
    (app/api/user/sites/route.ts and app/api/user/latest-site/route.ts):
    rows, the caller's authentication, and the query
    `.eq('user_id', id).order('updated_at', { ascending: false })` as a
    filter followed by a sort. */
module SiteRows {
  import opened Common

  /** A row of `sites`. `updatedAt` is the `updated_at` timestamp as a number
      (its order is the timestamp order); `designData` is `JNull` for SQL
      `null`. */
  datatype SiteRow = SiteRow(
    id: string,
    userId: Option<string>,
    selectedTemplateId: string,
    businessType: string,
    category: string,
    designData: Json,
    createdAt: string,
    updatedAt: int)

  /** The table, and the error code the query reports, if any. */
  datatype SitesTable = SitesTable(rows: seq<SiteRow>, error: Option<string>)

  /** What `supabase.auth.getUser()` gives: the verified user's id, if any,
      and whether it reported an error. */
  datatype Auth = Auth(userId: Option<string>, failed: bool)

  /** `authError || !user` is false. */
  predicate Authenticated(auth: Auth) {
    !auth.failed && auth.userId.Some?
  }

  predicate OwnedBy(row: SiteRow, userId: string) {
    row.userId == Some(userId)
  }

  /** `.eq('user_id', userId)`: the caller's rows, each as often as it is
      stored. */
  function Owned(rows: seq<SiteRow>, userId: string): (r: seq<SiteRow>)
    ensures forall x :: x in r ==> OwnedBy(x, userId)
    ensures forall x :: OwnedBy(x, userId) ==> multiset(r)[x] == multiset(rows)[x]
    ensures forall x :: !OwnedBy(x, userId) ==> multiset(r)[x] == 0
  {
    if rows == [] then []
    else
      assert rows == [rows[0]] + rows[1..];
      var rest := Owned(rows[1..], userId);
      if OwnedBy(rows[0], userId) then [rows[0]] + rest else rest
  }

  /** Most recently updated first. */
  predicate SortedDesc(xs: seq<SiteRow>) {
    forall i, j :: 0 <= i < j < |xs| ==> xs[i].updatedAt >= xs[j].updatedAt
  }

  /** Puts `x` into a list sorted most-recent-first. */
  function Insert(x: SiteRow, xs: seq<SiteRow>): (r: seq<SiteRow>)
    requires SortedDesc(xs)
    ensures SortedDesc(r)
    ensures multiset(r) == multiset(xs) + multiset{x}
  {
    if xs == [] then [x]
    else if x.updatedAt >= xs[0].updatedAt then [x] + xs
    else
      var rest := Insert(x, xs[1..]);
      BelowHead(x, xs, rest);
      ConsSorted(xs[0], rest);
      assert xs == [xs[0]] + xs[1..];
      [xs[0]] + rest
  }

  /** Inserting a row older than the head keeps every row at or below it. */
  lemma BelowHead(x: SiteRow, xs: seq<SiteRow>, rest: seq<SiteRow>)
    requires xs != [] && SortedDesc(xs) && x.updatedAt < xs[0].updatedAt
    requires multiset(rest) == multiset(xs[1..]) + multiset{x}
    ensures forall y :: y in rest ==> y.updatedAt <= xs[0].updatedAt
  {
    forall y | y in rest ensures y.updatedAt <= xs[0].updatedAt {
      assert y in multiset(rest);
      if y != x {
        assert y in xs[1..];
      }
    }
  }

  lemma ConsSorted(y: SiteRow, rest: seq<SiteRow>)
    requires SortedDesc(rest)
    requires forall z :: z in rest ==> z.updatedAt <= y.updatedAt
    ensures SortedDesc([y] + rest)
  {
    var s := [y] + rest;
    forall i, j | 0 <= i < j < |s| ensures s[i].updatedAt >= s[j].updatedAt {
      assert s[j] == rest[j - 1];
      if i > 0 {
        assert s[i] == rest[i - 1];
      } else {
        assert rest[j - 1] in rest;
      }
    }
  }

  /** `.order('updated_at', { ascending: false })`. Rows with equal
      timestamps may come back in any order; this is one of them. */
  function SortDesc(xs: seq<SiteRow>): (r: seq<SiteRow>)
    ensures SortedDesc(r)
    ensures multiset(r) == multiset(xs)
  {
    if xs == [] then []
    else
      assert xs == [xs[0]] + xs[1..];
      Insert(xs[0], SortDesc(xs[1..]))
  }

  /** The rows the owner query returns. */
  function OwnerQuery(rows: seq<SiteRow>, userId: string): (r: seq<SiteRow>)
    ensures SortedDesc(r)
  {
    SortDesc(Owned(rows, userId))
  }

  /** The owner query returns exactly the caller's rows, each as often as it
      is stored, most recently updated first. */
  lemma OwnerQueryIsSortedOwnRows(rows: seq<SiteRow>, userId: string)
    ensures var q := OwnerQuery(rows, userId);
            && SortedDesc(q)
            && (forall x :: x in q ==> OwnedBy(x, userId))
            && (forall x :: OwnedBy(x, userId) ==> multiset(q)[x] == multiset(rows)[x])
  {
    var q := OwnerQuery(rows, userId);
    forall x | x in q ensures OwnedBy(x, userId) {
      assert x in multiset(q);
      assert x in multiset(Owned(rows, userId));
    }
  }

  /** The caller owns at least one row. */
  predicate OwnsSite(rows: seq<SiteRow>, userId: string) {
    exists x :: x in rows && OwnedBy(x, userId)
  }

  /** The first row of the owner query is a most recently updated row of
      the caller; there is one exactly when the caller owns a row. */
  lemma OwnerQueryHead(rows: seq<SiteRow>, userId: string)
    ensures OwnerQuery(rows, userId) == [] <==> !OwnsSite(rows, userId)
    ensures OwnerQuery(rows, userId) != [] ==>
              var top := OwnerQuery(rows, userId)[0];
              && top in rows && OwnedBy(top, userId)
              && forall x :: x in rows && OwnedBy(x, userId) ==> x.updatedAt <= top.updatedAt
  {
    var q := OwnerQuery(rows, userId);
    OwnerQueryIsSortedOwnRows(rows, userId);
    forall x | x in rows && OwnedBy(x, userId) ensures x in q {
      assert multiset(rows)[x] > 0;
    }
    if q != [] {
      var top := q[0];
      assert top in q;
      assert multiset(q)[top] > 0;
      forall x | x in rows && OwnedBy(x, userId) ensures x.updatedAt <= top.updatedAt {
        var k :| 0 <= k < |q| && q[k] == x;
      }
    }
  }
}
