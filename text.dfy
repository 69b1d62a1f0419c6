/** The JavaScript string operations the core relies on (`indexOf`,
    `includes`, `startsWith`, `split(c)[0]`, `replace` with a string
    pattern), each defined once and characterised by its contract. */
module Text {
  import opened Common

  /** `p` occurs in `s` starting at index `i`. */
  predicate OccursAt(s: string, p: string, i: int) {
    0 <= i && i + |p| <= |s| && s[i..i + |p|] == p
  }

  predicate Contains(s: string, p: string) {
    exists i :: 0 <= i <= |s| && OccursAt(s, p, i)
  }

  /** `s.indexOf(p, from)`, with `None` for JavaScript's `-1`: the first
      occurrence of `p` at or after `from`. JavaScript clamps `from` to the
      length, so an empty `p` past the end is found at `|s|`; here it is not.
      Every caller passes a non-empty pattern. */
  function IndexOf(s: string, p: string, from: nat): (r: Option<nat>)
    ensures r.Some? ==> from <= r.value && OccursAt(s, p, r.value)
    ensures r.Some? ==> forall j :: from <= j < r.value ==> !OccursAt(s, p, j)
    ensures r.None? ==> forall j :: from <= j ==> !OccursAt(s, p, j)
  {
    if exists k :: from <= k <= |s| && OccursAt(s, p, k) then
      FirstOccurrence(s, p, from);
      var k :| from <= k <= |s| && OccursAt(s, p, k) && forall j :: from <= j < k ==> !OccursAt(s, p, j);
      Some(k)
    else None
  }

  /** An occurrence at or after `from` means there is a first one. */
  lemma FirstOccurrence(s: string, p: string, from: nat)
    requires exists k :: from <= k <= |s| && OccursAt(s, p, k)
    ensures exists k :: from <= k <= |s| && OccursAt(s, p, k) && forall j :: from <= j < k ==> !OccursAt(s, p, j)
    decreases |s| - from
  {
    if !OccursAt(s, p, from) {
      FirstOccurrence(s, p, from + 1);
    }
  }

  /** `s.includes(p)` */
  predicate Includes(s: string, p: string) {
    IndexOf(s, p, 0).Some?
  }

  lemma IncludesIsContains(s: string, p: string)
    ensures Includes(s, p) <==> Contains(s, p)
  {
    var r := IndexOf(s, p, 0);
    if r.Some? {
      assert OccursAt(s, p, r.value) && r.value <= |s|;
    }
  }

  /** `s.replace(p, rep)` with a string pattern: only the first occurrence
      is replaced (the replacement is taken literally). */
  function ReplaceFirst(s: string, p: string, rep: string): (r: string)
    ensures !Contains(s, p) ==> r == s
    ensures Contains(s, p) ==> exists i :: OccursAt(s, p, i)
                                   && (forall j :: 0 <= j < i ==> !OccursAt(s, p, j))
                                   && r == s[..i] + rep + s[i + |p|..]
  {
    match IndexOf(s, p, 0)
    case None => s
    case Some(i) => s[..i] + rep + s[i + |p|..]
  }

  /** `s.split(c)[0]`: the text before the first `c`, or all of `s`. */
  function BeforeFirst(s: string, c: char): (r: string)
    ensures r <= s && c !in r
    ensures |r| < |s| ==> s[|r|] == c
  {
    if s == [] then []
    else if s[0] == c then []
    else [s[0]] + BeforeFirst(s[1..], c)
  }

  /** A pattern holding a character that `s` lacks does not occur in `s`. */
  lemma AbsentChar(s: string, p: string, c: char)
    requires c in p && c !in s
    ensures !Contains(s, p)
  {
    var k :| 0 <= k < |p| && p[k] == c;
    forall i | 0 <= i ensures !OccursAt(s, p, i) {
      if i + |p| <= |s| {
        assert s[i..i + |p|][k] == s[i + k] != p[k];
      }
    }
  }

  /** `split(c)[0]` stops at the first `c`. */
  lemma {:induction false} BeforeFirstAt(s: string, c: char, k: nat)
    requires k <= |s| && c !in s[..k] && (k < |s| ==> s[k] == c)
    ensures BeforeFirst(s, c) == s[..k]
  {
    if k > 0 {
      assert s[0] == s[..k][0];
      assert s[1..][..k - 1] == s[1..k];
      assert forall x :: x in s[1..k] ==> x in s[..k];
      BeforeFirstAt(s[1..], c, k - 1);
      assert [s[0]] + s[1..k] == s[..k];
    }
  }

  /** A pattern whose first character does not recur in it cannot start
      inside an earlier copy of itself. */
  predicate Unbordered(p: string) {
    |p| > 0 && forall m :: 0 < m < |p| ==> p[m] != p[0]
  }

  /** `IndexOf` is determined by its contract: the first occurrence at or
      after `from`. */
  lemma IndexOfIs(s: string, p: string, from: nat, k: nat)
    requires from <= k && OccursAt(s, p, k)
    requires forall j :: from <= j < k ==> !OccursAt(s, p, j)
    ensures IndexOf(s, p, from) == Some(k)
  {
  }

  /** When `s` holds `a` at `from`, directly followed by the unbordered `p`,
      and `a` does not contain `p`, the search from `from` stops right after
      `a`: an occurrence inside `a` is excluded, and one straddling into `p`
      would put `p[0]` at a later position of `p`. */
  lemma FindAfter(s: string, from: nat, a: string, p: string, k: nat)
    requires Unbordered(p) && !Contains(a, p)
    requires k == from + |a| && k + |p| <= |s|
    requires s[from..k] == a && s[k..k + |p|] == p
    ensures IndexOf(s, p, from) == Some(k)
  {
    forall j | from <= j < k ensures !OccursAt(s, p, j) {
      if j + |p| <= k {
        var d := j - from;
        SliceOfSlice(s, from, k, d, |p|);
        assert !OccursAt(a, p, d);
      } else {
        var m := k - j;
        assert s[j..j + |p|][m] == s[k] == p[0] != p[m];
      }
    }
    IndexOfIs(s, p, from, k);
  }

  /** `FindAfter` for a text given as its pieces. */
  lemma FindIn(s: string, x: string, a: string, p: string, y: string)
    requires Unbordered(p) && !Contains(a, p)
    requires s == x + a + p + y
    ensures IndexOf(s, p, |x|) == Some(|x| + |a|)
  {
    var k := |x| + |a|;
    assert s[|x|..k] == a && s[k..k + |p|] == p;
    FindAfter(s, |x|, a, p, k);
  }

  lemma SliceOfSlice(s: string, i: nat, j: nat, d: nat, n: nat)
    requires i <= j <= |s| && d + n <= j - i
    ensures s[i..j][d..d + n] == s[i + d..i + d + n]
  {
    var x, y := s[i..j][d..d + n], s[i + d..i + d + n];
    forall t | 0 <= t < n ensures x[t] == y[t] {
    }
  }

  /** A text containing a pattern contains every prefix of it. */
  lemma ContainsPrefix(s: string, p: string, q: string)
    requires q <= p && Contains(s, p)
    ensures Contains(s, q)
  {
    var i :| 0 <= i <= |s| && OccursAt(s, p, i);
    assert s[i..i + |q|] == p[..|q|];
    assert OccursAt(s, q, i);
  }

  /** Cutting a text at two points and joining the pieces gives it back. */
  lemma Rejoin(s: string, i: nat, j: nat)
    requires i <= j <= |s|
    ensures s[..i] + s[i..j] + s[j..] == s
  {
  }

  lemma Assoc(x: string, y: string, z: string)
    ensures x + y + z == x + (y + z)
  {
  }
}
