/** The collection steps both recommenders repeat: walk a candidate list,
    append each track whose URI is not yet in `seen_uris` and record the URI,
    possibly stopping once the list reaches a target; and the final
    `random.shuffle`. */
module Collect {
  import opened Catalog

  lemma UrisAppend(c: seq<Track>, t: Track)
    ensures Uris(c + [t]) == Uris(c) + {t.uri}
  {
    assert forall x :: x in c + [t] <==> x in c || x == t;
  }

  lemma UriOf(c: seq<Track>, k: int)
    requires 0 <= k < |c|
    ensures c[k].uri in Uris(c)
  {
    assert c[k] in c;
  }

  /** Extending a list keeps every URI it had. */
  lemma PrefixUris(a: seq<Track>, b: seq<Track>)
    requires |a| <= |b| && b[..|a|] == a
    ensures Uris(a) <= Uris(b)
  {
    forall u | u in Uris(a) ensures u in Uris(b) {
      var x :| x in a && x.uri == u;
      var m :| 0 <= m < |a| && a[m] == x;
      assert b[m] == x;
    }
  }

  /** Appending a track whose URI is unseen keeps the list free of duplicates
      and `seen` equal to its URIs. */
  lemma AppendFresh(c: seq<Track>, seen: set<string>, t: Track)
    requires seen == Uris(c) && NoDuplicateUris(c) && t.uri !in seen
    ensures seen + {t.uri} == Uris(c + [t]) && NoDuplicateUris(c + [t])
  {
    UrisAppend(c, t);
    forall k | 0 <= k < |c| ensures c[k].uri != t.uri {
      UriOf(c, k);
    }
  }

  /** The URIs of a non-empty list: its first track's and the rest's. */
  lemma UrisCons(tracks: seq<Track>)
    requires tracks != []
    ensures Uris(tracks) == {tracks[0].uri} + Uris(tracks[1..])
  {
    assert forall x :: x in tracks <==> x == tracks[0] || x in tracks[1..];
  }

  /** `c` after appending, in order, every track of `tracks` whose URI is not
      yet in the list (lastfm_profile.py lines 211-214). */
  function Unseen(c: seq<Track>, tracks: seq<Track>): seq<Track>
    decreases |tracks|
  {
    if tracks == [] then c
    else if tracks[0].uri in Uris(c) then Unseen(c, tracks[1..])
    else Unseen(c + [tracks[0]], tracks[1..])
  }

  /** As `Unseen`, but stopping right after an append that brings the list to
      `cap` tracks (recommendations.py lines 208-213, 225-230 and 235-240).
      The length test follows the append, so a list already at `cap` still
      takes one more track. */
  function UnseenUntil(c: seq<Track>, tracks: seq<Track>, cap: int): seq<Track>
    decreases |tracks|
  {
    if tracks == [] then c
    else if tracks[0].uri in Uris(c) then UnseenUntil(c, tracks[1..], cap)
    else if |c| + 1 >= cap then c + [tracks[0]]
    else UnseenUntil(c + [tracks[0]], tracks[1..], cap)
  }

  /** Taking one track and then extending keeps the shape of an extension of
      the original list by tracks of `t :: rest`. */
  lemma ExtendsByOne(c: seq<Track>, t: Track, rest: seq<Track>, r: seq<Track>)
    requires |c| + 1 <= |r| && r[..|c| + 1] == c + [t]
    requires forall k :: |c| + 1 <= k < |r| ==> r[k] in rest
    ensures r[..|c|] == c
    ensures forall k :: |c| <= k < |r| ==> r[k] in [t] + rest
  {
    assert r[..|c|] == r[..|c| + 1][..|c|];
    forall k | |c| <= k < |r| ensures r[k] in [t] + rest {
      if k == |c| {
        assert r[k] == r[..|c| + 1][k];
      } else {
        assert r[k] in rest;
      }
    }
  }

  /** `Unseen` extends the list, by at most one track per track read, with
      tracks of `tracks` only. */
  lemma {:induction false} UnseenExtends(c: seq<Track>, tracks: seq<Track>)
    ensures var r := Unseen(c, tracks);
      && |c| <= |r| <= |c| + |tracks| && r[..|c|] == c
      && (forall k :: |c| <= k < |r| ==> r[k] in tracks)
    decreases |tracks|
  {
    if tracks != [] {
      var t, rest := tracks[0], tracks[1..];
      assert tracks == [t] + rest;
      if t.uri in Uris(c) {
        UnseenExtends(c, rest);
      } else {
        UnseenExtends(c + [t], rest);
        ExtendsByOne(c, t, rest, Unseen(c + [t], rest));
      }
    }
  }

  /** `Unseen` keeps URIs distinct and ends holding every URI of `tracks`. */
  lemma {:induction false} UnseenDistinct(c: seq<Track>, tracks: seq<Track>)
    requires NoDuplicateUris(c)
    ensures NoDuplicateUris(Unseen(c, tracks))
    ensures Uris(Unseen(c, tracks)) == Uris(c) + Uris(tracks)
    decreases |tracks|
  {
    if tracks != [] {
      var t, rest := tracks[0], tracks[1..];
      UrisCons(tracks);
      if t.uri in Uris(c) {
        UnseenDistinct(c, rest);
      } else {
        AppendFresh(c, Uris(c), t);
        UnseenDistinct(c + [t], rest);
      }
    }
  }

  /** `UnseenUntil` extends the list with tracks of `tracks` only; it never
      takes a list below `cap` past `cap` and adds at most one track to a
      list already at `cap`. */
  lemma {:induction false} UnseenUntilExtends(c: seq<Track>, tracks: seq<Track>, cap: int)
    ensures var r := UnseenUntil(c, tracks, cap);
      && |c| <= |r| && r[..|c|] == c
      && (forall k :: |c| <= k < |r| ==> r[k] in tracks)
      && (|c| < cap ==> |r| <= cap)
      && (cap <= |c| ==> |r| <= |c| + 1)
    decreases |tracks|
  {
    if tracks != [] {
      var t, rest := tracks[0], tracks[1..];
      assert tracks == [t] + rest;
      if t.uri in Uris(c) {
        UnseenUntilExtends(c, rest, cap);
      } else if |c| + 1 < cap {
        UnseenUntilExtends(c + [t], rest, cap);
        ExtendsByOne(c, t, rest, UnseenUntil(c + [t], rest, cap));
      }
    }
  }

  /** `UnseenUntil` keeps URIs distinct; when it ends below `cap` it has read
      every track, so it holds every URI of `tracks`. */
  lemma {:induction false} UnseenUntilDistinct(c: seq<Track>, tracks: seq<Track>, cap: int)
    requires NoDuplicateUris(c)
    ensures NoDuplicateUris(UnseenUntil(c, tracks, cap))
    ensures |UnseenUntil(c, tracks, cap)| < cap ==>
              Uris(UnseenUntil(c, tracks, cap)) == Uris(c) + Uris(tracks)
    decreases |tracks|
  {
    if tracks != [] {
      var t, rest := tracks[0], tracks[1..];
      UrisCons(tracks);
      if t.uri in Uris(c) {
        UnseenUntilDistinct(c, rest, cap);
      } else {
        AppendFresh(c, Uris(c), t);
        if |c| + 1 < cap {
          UnseenUntilDistinct(c + [t], rest, cap);
        }
      }
    }
  }

  /** Appends every unseen track of `tracks`, with no early stop. */
  method AppendUnseen(collected: seq<Track>, seen: set<string>, tracks: seq<Track>)
    returns (c: seq<Track>, s: set<string>)
    requires seen == Uris(collected) && NoDuplicateUris(collected)
    ensures c == Unseen(collected, tracks)
    ensures s == Uris(c) && NoDuplicateUris(c)
    ensures |collected| <= |c| <= |collected| + |tracks| && c[..|collected|] == collected
    ensures forall k :: |collected| <= k < |c| ==> c[k] in tracks
    ensures forall t :: t in tracks ==> t.uri in s
  {
    c, s := collected, seen;
    var i := 0;
    while i < |tracks|
      invariant 0 <= i <= |tracks|
      invariant s == Uris(c)
      invariant Unseen(c, tracks[i..]) == Unseen(collected, tracks)
    {
      var t := tracks[i];
      assert tracks[i..][1..] == tracks[i + 1..];
      i := i + 1;
      if t.uri !in s {
        UrisAppend(c, t);
        c := c + [t];
        s := s + {t.uri};
      }
    }
    assert tracks[i..] == [];
    UnseenExtends(collected, tracks);
    UnseenDistinct(collected, tracks);
  }

  /** Appends unseen tracks of `tracks`, stopping right after an append that
      brings the list to `cap` tracks. */
  method AppendUntil(collected: seq<Track>, seen: set<string>, tracks: seq<Track>, cap: int)
    returns (c: seq<Track>, s: set<string>)
    requires seen == Uris(collected) && NoDuplicateUris(collected)
    ensures c == UnseenUntil(collected, tracks, cap)
    ensures s == Uris(c) && NoDuplicateUris(c)
    ensures |collected| <= |c| && c[..|collected|] == collected
    ensures forall k :: |collected| <= k < |c| ==> c[k] in tracks
    ensures |collected| < cap ==> |c| <= cap
    ensures cap <= |collected| ==> |c| <= |collected| + 1
    ensures |c| < cap ==> forall t :: t in tracks ==> t.uri in s
  {
    c, s := collected, seen;
    var i := 0;
    while i < |tracks|
      invariant 0 <= i <= |tracks|
      invariant s == Uris(c)
      invariant UnseenUntil(c, tracks[i..], cap) == UnseenUntil(collected, tracks, cap)
    {
      var t := tracks[i];
      assert tracks[i..][1..] == tracks[i + 1..];
      i := i + 1;
      if t.uri !in s {
        UrisAppend(c, t);
        c := c + [t];
        s := s + {t.uri};
        if |c| >= cap {
          break;
        }
      }
    }
    assert i == |tracks| ==> tracks[i..] == [];
    UnseenUntilExtends(collected, tracks, cap);
    UnseenUntilDistinct(collected, tracks, cap);
  }

  /** `s` with positions `i` and `j` exchanged. */
  function Swap(s: seq<Track>, i: nat, j: nat): seq<Track>
    requires i < |s| && j < |s|
  {
    s[i := s[j]][j := s[i]]
  }

  /** Swapping two positions permutes the list. */
  lemma SwapPermutes(s: seq<Track>, i: nat, j: nat)
    requires i < |s| && j < |s|
    ensures |Swap(s, i, j)| == |s| && multiset(Swap(s, i, j)) == multiset(s)
  {
    var u := s[i := s[j]];
    assert multiset(u) == multiset(s) - multiset{s[i]} + multiset{s[j]};
  }

  /** Swapping two positions keeps URIs pairwise distinct. */
  lemma SwapKeepsNoDuplicateUris(s: seq<Track>, i: nat, j: nat)
    requires i < |s| && j < |s| && NoDuplicateUris(s)
    ensures NoDuplicateUris(Swap(s, i, j))
  {
    var r := Swap(s, i, j);
    forall p, q | 0 <= p < q < |r| ensures r[p].uri != r[q].uri {
      var p' := if p == i then j else if p == j then i else p;
      var q' := if q == i then j else if q == j then i else q;
      assert r[p] == s[p'] && r[q] == s[q'] && p' != q';
      if p' > q' {
        assert s[q'].uri != s[p'].uri;
      }
    }
  }

  /** The remaining steps of CPython's `random.shuffle` (Fisher-Yates from
      the back) when the first `i` positions are still to be shuffled:
      position `i - 1` is exchanged with position `pick(i - 1) % i`, which
      stands for `_randbelow(i)`, and so on down to position 1. */
  function ShuffleDown(s: seq<Track>, i: nat, pick: nat -> nat): seq<Track>
    requires i <= |s|
    decreases i
  {
    if i <= 1 then s else ShuffleDown(Swap(s, i - 1, pick(i - 1) % i), i - 1, pick)
  }

  /** `random.shuffle(s)` with the random choices drawn from `pick`. */
  function FisherYates(s: seq<Track>, pick: nat -> nat): seq<Track>
  {
    ShuffleDown(s, |s|, pick)
  }

  /** Shuffling permutes the list and keeps its URIs distinct. */
  lemma {:induction false} ShuffleDownPermutes(s: seq<Track>, i: nat, pick: nat -> nat)
    requires i <= |s|
    ensures |ShuffleDown(s, i, pick)| == |s|
    ensures multiset(ShuffleDown(s, i, pick)) == multiset(s)
    ensures NoDuplicateUris(s) ==> NoDuplicateUris(ShuffleDown(s, i, pick))
    decreases i
  {
    if i > 1 {
      var j := pick(i - 1) % i;
      var t := Swap(s, i - 1, j);
      SwapPermutes(s, i - 1, j);
      if NoDuplicateUris(s) {
        SwapKeepsNoDuplicateUris(s, i - 1, j);
      }
      ShuffleDownPermutes(t, i - 1, pick);
    }
  }

  /** `random.shuffle(a)` on an array, as CPython runs it. */
  method Shuffle(a: array<Track>, pick: nat -> nat)
    modifies a
    ensures a[..] == FisherYates(old(a[..]), pick)
    ensures multiset(a[..]) == multiset(old(a[..]))
    ensures NoDuplicateUris(old(a[..])) ==> NoDuplicateUris(a[..])
  {
    ghost var orig := a[..];
    var i := a.Length;
    while i > 1
      invariant 0 <= i <= a.Length
      invariant ShuffleDown(a[..], i, pick) == FisherYates(orig, pick)
    {
      i := i - 1;
      var j := pick(i) % (i + 1);
      ghost var before := a[..];
      a[i], a[j] := a[j], a[i];
      assert a[..] == Swap(before, i, j);
    }
    ShuffleDownPermutes(orig, |orig|, pick);
  }

  /** Shuffles a list (through an array, as the list is shuffled in place). */
  method Shuffled(s: seq<Track>, pick: nat -> nat) returns (r: seq<Track>)
    ensures r == FisherYates(s, pick)
    ensures multiset(r) == multiset(s) && |r| == |s|
    ensures NoDuplicateUris(s) ==> NoDuplicateUris(r)
  {
    var a := new Track[|s|](k requires 0 <= k < |s| => s[k]);
    assert a[..] == s;
    Shuffle(a, pick);
    r := a[..];
    assert |multiset(r)| == |multiset(s)|;
  }
}
