/**
  The stock-code grammar of zcodeparse (the class attribute `_mode`) and what
  Python's `re.search` does with it.

  The pattern is the alternation of three clusters:
    1. `^(SH|SZ|sh|sz){1}(NUM)`      exchange-prefixed, anchored at the start only
    2. `(NUM).(SH|SZ|sh|sz){1}`      exchange-suffixed, unanchored, `.` is any char but '\n'
    3. `(NUM)$`                      bare number, anchored at the end only
  where NUM is `(00\d{4}|30\d{4}|15\d{4}|60\d{4}|51\d{4})`.

  `re.search` tries the start positions from left to right and, at each one,
  the three clusters in order; the first success wins.  Every cluster is
  deterministic (its alternatives have fixed, distinct lengths and prefixes),
  so at one start position a cluster either matches in exactly one way or not
  at all.
*/
module CodePattern {

  datatype Option<T> = None | Some(value: T)

  /** `\d`, restricted to the ASCII digits */
  predicate IsDigit(c: char) {
    '0' <= c <= '9'
  }

  /** The two-digit prefixes NUM admits */
  const NumPrefixes: set<string> := {"00", "30", "15", "60", "51"}

  /** What `(SH|SZ|sh|sz){1}` admits */
  const ExchTags: set<string> := {"SH", "SZ", "sh", "sz"}

  /** NUM matches exactly the six characters of t */
  predicate IsCodeNum(t: string) {
    && |t| == 6
    && t[..2] in NumPrefixes
    && IsDigit(t[2]) && IsDigit(t[3]) && IsDigit(t[4]) && IsDigit(t[5])
  }

  /** `$` without MULTILINE: at the very end, or just before a final newline */
  predicate AtEnd(s: string, i: nat) {
    i == |s| || (i + 1 == |s| && s[i] == '\n')
  }

  /** `^(NUM)$` as searched in the number of a tuple code: six characters, perhaps followed by a final newline */
  predicate IsWholeCodeNum(t: string): (b: bool)
    ensures b ==> |t| == 6 || (|t| == 7 && t[6] == '\n')
  {
    6 <= |t| && IsCodeNum(t[..6]) && AtEnd(t, 6)
  }

  /** Cluster 1 matches at position 0 (`^` only matches there) */
  predicate PrefixAt(s: string) {
    8 <= |s| && s[..2] in ExchTags && IsCodeNum(s[2..8])
  }

  /** Cluster 2 matches at position p */
  predicate SuffixAt(s: string, p: nat) {
    p + 9 <= |s| && IsCodeNum(s[p..p + 6]) && s[p + 6] != '\n' && s[p + 7..p + 9] in ExchTags
  }

  /** Cluster 3 matches at position p */
  predicate BareAt(s: string, p: nat) {
    p + 6 <= |s| && IsCodeNum(s[p..p + 6]) && AtEnd(s, p + 6)
  }

  /** Some cluster matches at start position p */
  predicate ClusterAt(s: string, p: nat) {
    (p == 0 && PrefixAt(s)) || SuffixAt(s, p) || BareAt(s, p)
  }

  /** A successful search: which cluster matched and what its groups captured */
  datatype Match =
    | PrefixForm(tag: string, num: string)
    | SuffixForm(num: string, tag: string)
    | BareForm(num: string)

  predicate WellFormed(m: Match) {
    match m
    case PrefixForm(tag, num) => tag in ExchTags && IsCodeNum(num)
    case SuffixForm(num, tag) => tag in ExchTags && IsCodeNum(num)
    case BareForm(num) => IsCodeNum(num)
  }

  /**
    At most one cluster matches at any start position: cluster 1 needs a tag
    where clusters 2 and 3 need a digit, and cluster 2 needs a tag right after
    the separator where cluster 3 needs the end of the text.
  */
  lemma {:induction false} ClustersExclusive(s: string, p: nat)
    ensures !(p == 0 && PrefixAt(s) && (SuffixAt(s, p) || BareAt(s, p)))
    ensures !(SuffixAt(s, p) && BareAt(s, p))
  {
    if p + 6 <= |s| && IsCodeNum(s[p..p + 6]) {
      assert s[p..p + 6][..2][0] == s[p];
      if p == 0 && 8 <= |s| {
        assert s[..2][0] == s[0];
      }
    }
  }

  /** The clusters tried at start position p; by `ClustersExclusive`, at most one of them can match */
  function MatchAt(s: string, p: nat): (r: Option<Match>)
    ensures r.Some? ==> WellFormed(r.value)
    ensures r.None? <==> !ClusterAt(s, p)
  {
    if p == 0 && PrefixAt(s) then Some(PrefixForm(s[..2], s[2..8]))
    else if SuffixAt(s, p) then Some(SuffixForm(s[p..p + 6], s[p + 7..p + 9]))
    else if BareAt(s, p) then Some(BareForm(s[p..p + 6]))
    else None
  }

  /** q is the leftmost start position from p on where some cluster matches */
  predicate Leftmost(s: string, p: nat, q: nat) {
    p <= q <= |s| && ClusterAt(s, q) && forall q' :: p <= q' < q ==> !ClusterAt(s, q')
  }

  /** `re.search` started at position p: the first match found scanning from p */
  function SearchFrom(s: string, p: nat): (r: Option<Match>)
    requires p <= |s|
    decreases |s| - p
    ensures r.None? <==> forall q :: p <= q <= |s| ==> !ClusterAt(s, q)
  {
    var m := MatchAt(s, p);
    if m.Some? || p == |s| then m else SearchFrom(s, p + 1)
  }

  /** A match found from p is the match at the leftmost matching position */
  lemma {:induction false} SearchFromLeftmost(s: string, p: nat)
    requires p <= |s|
    decreases |s| - p
    ensures SearchFrom(s, p).Some? ==> exists q :: Leftmost(s, p, q) && SearchFrom(s, p) == MatchAt(s, q)
  {
    if MatchAt(s, p).Some? {
      assert Leftmost(s, p, p);
    } else if p < |s| && SearchFrom(s, p).Some? {
      SearchFromLeftmost(s, p + 1);
      var q :| Leftmost(s, p + 1, q) && SearchFrom(s, p + 1) == MatchAt(s, q);
      forall q': nat | p <= q' < q
        ensures !ClusterAt(s, q')
      {
        if q' != p {
          assert p + 1 <= q' < q;
        }
      }
      assert Leftmost(s, p, q);
    }
  }

  /**
    `_mode.search(s)`: nothing when no start position matches; otherwise the
    match of the first cluster that matches at the leftmost such position.
  */
  function Search(s: string): (r: Option<Match>)
    ensures r.Some? ==> WellFormed(r.value)
    ensures r.None? <==> forall q :: 0 <= q <= |s| ==> !ClusterAt(s, q)
    ensures r.Some? ==> exists q :: Leftmost(s, 0, q) && r == MatchAt(s, q)
  {
    SearchFromLeftmost(s, 0);
    SearchFrom(s, 0)
  }

  /** `.groups()` of a successful search: five groups, None where a cluster did not take part */
  function Groups(m: Match): (r: seq<Option<string>>)
    ensures |r| == 5
    ensures (r[0].Some? <==> m.PrefixForm?) && (r[1].Some? <==> m.PrefixForm?)
    ensures (r[2].Some? <==> m.SuffixForm?) && (r[3].Some? <==> m.SuffixForm?)
    ensures r[4].Some? <==> m.BareForm?
  {
    match m
    case PrefixForm(tag, num) => [Some(tag), Some(num), None, None, None]
    case SuffixForm(num, tag) => [None, None, Some(num), Some(tag), None]
    case BareForm(num) => [None, None, None, None, Some(num)]
  }
}
