/** `Counter(all_tags).most_common(n)`: the distinct tags of a pooled list
    with their multiplicities, ranked by count, largest first, tags of equal
    count in the order they were first seen. Python's `most_common(n)` is
    `sorted(items, key=count, reverse=True)[:n]` over a Counter, whose items
    come in first-insertion order, and Python's sort is stable. */
module TopTags {

  datatype TagCount = TagCount(tag: string, count: nat)

  /** How often `t` occurs in `xs`. */
  function Count(xs: seq<string>, t: string): nat
  {
    multiset(xs)[t]
  }

  /** Index of the first occurrence of `t` in `xs`, or `|xs|` when `t` is absent. */
  function FirstIndex(xs: seq<string>, t: string): (k: nat)
    ensures k <= |xs|
    ensures k < |xs| <==> t in xs
    ensures k < |xs| ==> xs[k] == t && t !in xs[..k]
  {
    if xs == [] then 0
    else if t in xs[..|xs| - 1] then FirstIndex(xs[..|xs| - 1], t)
    else if xs[|xs| - 1] == t then |xs| - 1
    else |xs|
  }

  predicate NoDuplicates(d: seq<string>)
  {
    forall i, j :: 0 <= i < j < |d| ==> d[i] != d[j]
  }

  /** The distinct elements of `xs` in first-seen order: the keys of
      `Counter(xs)` in their iteration order. */
  function Distinct(xs: seq<string>): (d: seq<string>)
    ensures forall t :: t in d <==> t in xs
    ensures NoDuplicates(d)
    ensures forall i, j :: 0 <= i < j < |d| ==> FirstIndex(xs, d[i]) < FirstIndex(xs, d[j])
  {
    if xs == [] then []
    else
      var init := xs[..|xs| - 1];
      var last := xs[|xs| - 1];
      var d := Distinct(init);
      assert xs == init + [last];
      assert forall t :: t in init ==> FirstIndex(xs, t) == FirstIndex(init, t);
      if last in d then d
      else
        assert FirstIndex(xs, last) == |xs| - 1;
        d + [last]
  }

  /** `Counter(xs).items()`, in first-seen order: one entry per tag of `xs`,
      carrying the number of times the tag occurs, no tag twice, and tags
      ordered by where they first occur in `xs`. */
  function Counted(xs: seq<string>): (s: seq<TagCount>)
    ensures |s| == |Distinct(xs)|
    ensures forall e :: e in s <==> e.tag in xs && e.count == Count(xs, e.tag)
    ensures forall i, j :: 0 <= i < j < |s| ==> s[i].tag != s[j].tag
    ensures forall i, j :: 0 <= i < j < |s| ==> FirstIndex(xs, s[i].tag) < FirstIndex(xs, s[j].tag)
  {
    var d := Distinct(xs);
    var s := seq(|d|, i requires 0 <= i < |d| => TagCount(d[i], Count(xs, d[i])));
    assert forall e: TagCount :: e.tag in xs && e.count == Count(xs, e.tag) ==> e in s by {
      forall e: TagCount | e.tag in xs && e.count == Count(xs, e.tag) ensures e in s {
        var i :| 0 <= i < |d| && d[i] == e.tag;
        assert s[i] == e;
      }
    }
    s
  }

  /** Puts `x` after every entry of `sorted` whose count is at least its own:
      one step of a stable sort by count, largest first. */
  function Insert(sorted: seq<TagCount>, x: TagCount): (r: seq<TagCount>)
    ensures multiset(r) == multiset(sorted) + multiset{x}
    ensures |r| == |sorted| + 1
  {
    if sorted == [] || sorted[|sorted| - 1].count >= x.count then sorted + [x]
    else
      var init := sorted[..|sorted| - 1];
      var last := sorted[|sorted| - 1];
      assert sorted == init + [last];
      Insert(init, x) + [last]
  }

  /** Stable sort by count, largest first (insertion sort). */
  function SortByCount(s: seq<TagCount>): (r: seq<TagCount>)
    ensures multiset(r) == multiset(s)
    ensures |r| == |s|
  {
    if s == [] then []
    else
      assert s == s[..|s| - 1] + [s[|s| - 1]];
      Insert(SortByCount(s[..|s| - 1]), s[|s| - 1])
  }

  /** Entries ranked by count, largest first, and among equal counts by the
      position where their tag first occurs in `xs`. */
  ghost predicate Ranked(r: seq<TagCount>, xs: seq<string>)
  {
    forall i, j :: 0 <= i < j < |r| ==>
      r[i].count > r[j].count
      || (r[i].count == r[j].count && FirstIndex(xs, r[i].tag) < FirstIndex(xs, r[j].tag))
  }

  /** Appending an entry that ranks after every entry keeps a list ranked. */
  lemma AppendRanked(r: seq<TagCount>, x: TagCount, xs: seq<string>)
    requires Ranked(r, xs)
    requires forall e :: e in r ==> RanksBefore(e, x, xs)
    ensures Ranked(r + [x], xs)
  {
    var s := r + [x];
    forall i, j | 0 <= i < j < |s|
      ensures s[i].count > s[j].count
              || (s[i].count == s[j].count && FirstIndex(xs, s[i].tag) < FirstIndex(xs, s[j].tag))
    {
      if j == |r| {
        assert s[i] == r[i] && r[i] in r;
      } else {
        assert s[i] == r[i] && s[j] == r[j];
      }
    }
  }

  /** `e` comes before `x` in the ranking order. */
  ghost predicate RanksBefore(e: TagCount, x: TagCount, xs: seq<string>)
  {
    e.count > x.count || (e.count == x.count && FirstIndex(xs, e.tag) < FirstIndex(xs, x.tag))
  }

  lemma AllRankBefore(sorted: seq<TagCount>, x: TagCount, xs: seq<string>)
    requires Ranked(sorted, xs) && sorted != [] && sorted[|sorted| - 1].count >= x.count
    requires forall e :: e in sorted ==> FirstIndex(xs, e.tag) < FirstIndex(xs, x.tag)
    ensures forall e :: e in sorted ==> RanksBefore(e, x, xs)
  {
    RankedCounts(sorted, xs);
    forall e | e in sorted ensures RanksBefore(e, x, xs) {
      var k :| 0 <= k < |sorted| && sorted[k] == e;
      assert e.count >= sorted[|sorted| - 1].count;
    }
  }

  lemma RestRanksBefore(sorted: seq<TagCount>, mid: seq<TagCount>, x: TagCount, xs: seq<string>)
    requires Ranked(sorted, xs) && sorted != [] && sorted[|sorted| - 1].count < x.count
    requires multiset(mid) == multiset(sorted[..|sorted| - 1]) + multiset{x}
    ensures forall e :: e in mid ==> RanksBefore(e, sorted[|sorted| - 1], xs)
  {
    var init := sorted[..|sorted| - 1];
    forall e | e in mid ensures RanksBefore(e, sorted[|sorted| - 1], xs) {
      assert e in multiset(mid);
      if e != x {
        assert e in multiset(init);
        var k :| 0 <= k < |init| && init[k] == e;
        assert sorted[k] == e;
      }
    }
  }

  lemma {:induction false} InsertRanked(sorted: seq<TagCount>, x: TagCount, xs: seq<string>)
    requires Ranked(sorted, xs)
    requires forall e :: e in sorted ==> FirstIndex(xs, e.tag) < FirstIndex(xs, x.tag)
    ensures Ranked(Insert(sorted, x), xs)
  {
    if sorted == [] || sorted[|sorted| - 1].count >= x.count {
      if sorted != [] {
        AllRankBefore(sorted, x, xs);
      }
      AppendRanked(sorted, x, xs);
    } else {
      var init := sorted[..|sorted| - 1];
      assert Ranked(init, xs);
      forall e | e in init ensures FirstIndex(xs, e.tag) < FirstIndex(xs, x.tag) {
        assert e in sorted;
      }
      InsertRanked(init, x, xs);
      RestRanksBefore(sorted, Insert(init, x), x, xs);
      AppendRanked(Insert(init, x), sorted[|sorted| - 1], xs);
    }
  }

  lemma {:induction false} SortRanked(s: seq<TagCount>, xs: seq<string>)
    requires forall i, j :: 0 <= i < j < |s| ==> FirstIndex(xs, s[i].tag) < FirstIndex(xs, s[j].tag)
    ensures Ranked(SortByCount(s), xs)
  {
    if s != [] {
      var init := s[..|s| - 1];
      var last := s[|s| - 1];
      SortRanked(init, xs);
      var sorted := SortByCount(init);
      forall e | e in sorted ensures FirstIndex(xs, e.tag) < FirstIndex(xs, last.tag) {
        assert e in multiset(init);
        var k :| 0 <= k < |init| && init[k] == e;
        assert s[k] == e;
      }
      InsertRanked(sorted, last, xs);
    }
  }

  /** `Counter(xs).most_common(n)`: at most `n` entries, one per distinct tag
      of `xs` until either runs out. */
  function MostCommon(xs: seq<string>, n: nat): (r: seq<TagCount>)
    ensures |r| == (if n < |Distinct(xs)| then n else |Distinct(xs)|)
  {
    var ranked := SortByCount(Counted(xs));
    ranked[..if n < |ranked| then n else |ranked|]
  }

  /** Every ranked entry is a tag of `xs` with its exact multiplicity. */
  lemma RankedEntry(xs: seq<string>, e: TagCount)
    requires e in SortByCount(Counted(xs))
    ensures e.tag in xs && e.count == Count(xs, e.tag) >= 1
  {
    var c := Counted(xs);
    assert e in multiset(c);
    assert e in c;
  }

  /** Each entry of `most_common(n)` is a tag of `xs` paired with its exact
      multiplicity, which is therefore at least 1; no tag appears twice. */
  lemma MostCommonCounts(xs: seq<string>, n: nat)
    ensures var r := MostCommon(xs, n);
      && (forall i :: 0 <= i < |r| ==> r[i].tag in xs && r[i].count == Count(xs, r[i].tag) >= 1)
      && (forall i, j :: 0 <= i < j < |r| ==> r[i].tag != r[j].tag)
  {
    var ranked := SortByCount(Counted(xs));
    var r := MostCommon(xs, n);
    forall i | 0 <= i < |r| ensures r[i].tag in xs && r[i].count == Count(xs, r[i].tag) >= 1 {
      assert r[i] == ranked[i];
      RankedEntry(xs, r[i]);
    }
    MostCommonRanked(xs, n);
  }

  /** The whole ranking `sorted(Counter(xs).items(), ...)` is ranked. */
  lemma FullRanking(xs: seq<string>)
    ensures Ranked(SortByCount(Counted(xs)), xs)
  {
    var c := Counted(xs);
    var d := Distinct(xs);
    forall i, j | 0 <= i < j < |c| ensures FirstIndex(xs, c[i].tag) < FirstIndex(xs, c[j].tag) {
      assert c[i].tag == d[i] && c[j].tag == d[j];
    }
    SortRanked(c, xs);
  }

  /** `most_common(n)` is ranked: counts never increase, and tags of equal
      count come in the order of their first occurrence in `xs`. */
  lemma MostCommonRanked(xs: seq<string>, n: nat)
    ensures Ranked(MostCommon(xs, n), xs)
  {
    var ranked := SortByCount(Counted(xs));
    var r := MostCommon(xs, n);
    FullRanking(xs);
    forall i, j | 0 <= i < j < |r|
      ensures r[i].count > r[j].count
              || (r[i].count == r[j].count && FirstIndex(xs, r[i].tag) < FirstIndex(xs, r[j].tag))
    {
      assert r[i] == ranked[i] && r[j] == ranked[j];
    }
  }

  /** Every tag of `xs` has its entry, with its count, in the full ranking. */
  lemma EveryTagRanked(xs: seq<string>, t: string) returns (m: nat)
    requires t in xs
    ensures m < |SortByCount(Counted(xs))| && SortByCount(Counted(xs))[m] == TagCount(t, Count(xs, t))
  {
    var c := Counted(xs);
    var d := Distinct(xs);
    var ranked := SortByCount(c);
    var k :| 0 <= k < |d| && d[k] == t;
    assert c[k] == TagCount(t, Count(xs, t));
    assert c[k] in multiset(ranked);
    m :| 0 <= m < |ranked| && ranked[m] == c[k];
  }

  /** Nothing better is left out: a tag of `xs` missing from `most_common(n)`
      means that `n` entries were kept and that the last of them ranks before
      it: it occurs more often, or as often but is first seen earlier. */
  lemma MostCommonComplete(xs: seq<string>, n: nat, t: string)
    requires t in xs
    requires forall i :: 0 <= i < |MostCommon(xs, n)| ==> MostCommon(xs, n)[i].tag != t
    ensures |MostCommon(xs, n)| == n
    ensures n > 0 ==> RanksBefore(MostCommon(xs, n)[n - 1], TagCount(t, Count(xs, t)), xs)
  {
    var ranked := SortByCount(Counted(xs));
    var r := MostCommon(xs, n);
    var m := EveryTagRanked(xs, t);
    assert m >= |r| by {
      if m < |r| {
        assert r[m] == ranked[m];
      }
    }
    if n > 0 {
      RankedPair(xs, n - 1, m);
      assert r[n - 1] == ranked[n - 1];
    }
  }

  /** In the full ranking an earlier entry ranks before a later one. */
  lemma RankedPair(xs: seq<string>, i: nat, j: nat)
    requires i < j < |SortByCount(Counted(xs))|
    ensures RanksBefore(SortByCount(Counted(xs))[i], SortByCount(Counted(xs))[j], xs)
  {
    FullRanking(xs);
  }

  lemma RankedCounts(r: seq<TagCount>, xs: seq<string>)
    requires Ranked(r, xs)
    ensures forall i, j :: 0 <= i <= j < |r| ==> r[i].count >= r[j].count
  {
  }

  /** Pooling nothing gives no top tags. */
  lemma NoTagsNoTopTags(n: nat)
    ensures MostCommon([], n) == []
  {
  }
}
