/** The taste-profile builder (`analyze_tracks_profile`) and the
    profile-driven track collector (`get_similar_tracks_by_profile`). */
module Profile {
  import opened Text
  import opened TagScores
  import opened TopTags
  import opened Catalog
  import opened Collect

  /** What the builder records for one input track. */
  datatype TrackAnalysis = TrackAnalysis(
    name: string, artist: string, tags: seq<string>, scores: map<Category, real>)

  datatype TasteProfile = TasteProfile(
    scores: map<Category, real>,
    topTags: seq<TagCount>,
    genres: seq<string>,
    trackCount: nat,
    analyses: seq<TrackAnalysis>)

  /** One call the builder makes to Last.fm. */
  datatype TagRequest = TrackTagsRequest(title: string, artist: string) | ArtistTagsRequest(artist: string)

  const TopTagLimit: nat := 20
  const SampleTagLimit: nat := 5
  const GenreLimit: nat := 5

  const GenreKeywords: seq<string> :=
    ["rock", "pop", "hip hop", "rap", "electronic", "jazz", "classical",
     "metal", "punk", "indie", "alternative", "r&b", "soul", "country",
     "folk", "blues", "reggae", "latin", "dance", "house", "techno"]

  /** Python's `xs[:n]` for `n >= 0`. */
  function Take<T>(xs: seq<T>, n: nat): (r: seq<T>)
    ensures |r| <= n && |r| <= |xs| && r == xs[..|r|]
    ensures |r| < n ==> r == xs
  {
    if |xs| <= n then xs else xs[..n]
  }

  /** The name of a track's first credited artist, or the empty name when it
      credits none. */
  function PrimaryArtist(t: Track): string
  {
    if |t.artists| > 0 then t.artists[0] else ""
  }

  /** The tags used for one track: its own, or its artist's when it has none
      and an artist is known. */
  function TagsFor(fm: LastFm, t: Track): seq<string>
  {
    var artist := PrimaryArtist(t);
    var tags := fm.trackTags(t.name, artist);
    if tags == [] && artist != "" then fm.artistTags(artist) else tags
  }

  /** The Last.fm calls made for one track, in order. */
  function RequestsFor(fm: LastFm, t: Track): seq<TagRequest>
  {
    var artist := PrimaryArtist(t);
    [TrackTagsRequest(t.name, artist)]
    + if fm.trackTags(t.name, artist) == [] && artist != "" then [ArtistTagsRequest(artist)] else []
  }

  function Analysis(fm: LastFm, t: Track): TrackAnalysis
  {
    var tags := TagsFor(fm, t);
    TrackAnalysis(t.name, PrimaryArtist(t), Take(tags, SampleTagLimit), CalculateTagScores(tags))
  }

  /** `all_tags` after the loop: every track's tags, in track order. */
  function PooledTags(fm: LastFm, tracks: seq<Track>): seq<string>
  {
    if tracks == [] then []
    else PooledTags(fm, tracks[..|tracks| - 1]) + TagsFor(fm, tracks[|tracks| - 1])
  }

  /** `track_analyses` after the loop. */
  function Analyses(fm: LastFm, tracks: seq<Track>): seq<TrackAnalysis>
  {
    if tracks == [] then []
    else Analyses(fm, tracks[..|tracks| - 1]) + [Analysis(fm, tracks[|tracks| - 1])]
  }

  /** One analysis per track, in track order. */
  lemma AnalysesPerTrack(fm: LastFm, tracks: seq<Track>)
    ensures |Analyses(fm, tracks)| == |tracks|
    ensures forall i :: 0 <= i < |tracks| ==> Analyses(fm, tracks)[i] == Analysis(fm, tracks[i])
  {
    AnalysesLength(fm, tracks);
    forall i | 0 <= i < |tracks| ensures Analyses(fm, tracks)[i] == Analysis(fm, tracks[i]) {
      AnalysisAt(fm, tracks, i);
    }
  }

  lemma {:induction false} AnalysesLength(fm: LastFm, tracks: seq<Track>)
    ensures |Analyses(fm, tracks)| == |tracks|
  {
    if tracks != [] {
      AnalysesLength(fm, tracks[..|tracks| - 1]);
    }
  }

  /** The analysis at position `i` is that of track `i`. */
  lemma {:induction false} AnalysisAt(fm: LastFm, tracks: seq<Track>, i: nat)
    requires i < |tracks|
    ensures |Analyses(fm, tracks)| == |tracks| && Analyses(fm, tracks)[i] == Analysis(fm, tracks[i])
  {
    var init := tracks[..|tracks| - 1];
    var before := Analyses(fm, init);
    var last := Analysis(fm, tracks[|tracks| - 1]);
    assert Analyses(fm, tracks) == before + [last];
    AnalysesLength(fm, init);
    if i < |init| {
      AnalysisAt(fm, init, i);
      assert (before + [last])[i] == before[i];
      assert init[i] == tracks[i];
    }
  }

  function Requests(fm: LastFm, tracks: seq<Track>): seq<TagRequest>
  {
    if tracks == [] then []
    else Requests(fm, tracks[..|tracks| - 1]) + RequestsFor(fm, tracks[|tracks| - 1])
  }

  /** The artist-level tags of an artist are requested exactly when some track
      credited first to that (non-empty) artist has no track-level tags. */
  lemma {:induction false} ArtistTagsOnlyAsFallback(fm: LastFm, tracks: seq<Track>, a: string)
    ensures ArtistTagsRequest(a) in Requests(fm, tracks) <==>
            a != "" && exists i :: 0 <= i < |tracks| && PrimaryArtist(tracks[i]) == a
                                   && fm.trackTags(tracks[i].name, a) == []
  {
    if tracks != [] {
      var init := tracks[..|tracks| - 1];
      var last := tracks[|tracks| - 1];
      ArtistTagsOnlyAsFallback(fm, init, a);
      assert forall i :: 0 <= i < |init| ==> init[i] == tracks[i];
      var here := a != "" && PrimaryArtist(last) == a && fm.trackTags(last.name, a) == [];
      assert ArtistTagsRequest(a) in RequestsFor(fm, last) <==> here;
    }
  }

  /** Python's `sum(xs)`. */
  function Sum(xs: seq<real>): real
  {
    if xs == [] then 0.0 else Sum(xs[..|xs| - 1]) + xs[|xs| - 1]
  }

  /** The arithmetic mean of `xs`, or the neutral 0.5 for an empty list. */
  function Mean(xs: seq<real>): real
  {
    if xs == [] then 0.5 else Sum(xs) / |xs| as real
  }

  lemma {:induction false} SumBounds(xs: seq<real>)
    requires forall i :: 0 <= i < |xs| ==> 0.0 <= xs[i] <= 1.0
    ensures 0.0 <= Sum(xs) <= |xs| as real
  {
    if xs != [] {
      SumBounds(xs[..|xs| - 1]);
    }
  }

  /** A mean of scores between 0 and 1 lies between 0 and 1. */
  lemma MeanBounds(xs: seq<real>)
    requires forall i :: 0 <= i < |xs| ==> 0.0 <= xs[i] <= 1.0
    ensures 0.0 <= Mean(xs) <= 1.0
  {
    if xs != [] {
      SumBounds(xs);
      var n := |xs| as real;
      assert Sum(xs) / n <= n / n;
    }
  }

  lemma {:induction false} SumOfHalves(xs: seq<real>)
    requires forall i :: 0 <= i < |xs| ==> xs[i] == 0.5
    ensures Sum(xs) == 0.5 * |xs| as real
  {
    if xs != [] {
      SumOfHalves(xs[..|xs| - 1]);
    }
  }

  /** Averaging neutral scores gives the neutral score. */
  lemma MeanOfHalves(xs: seq<real>)
    requires forall i :: 0 <= i < |xs| ==> xs[i] == 0.5
    ensures Mean(xs) == 0.5
  {
    if xs != [] {
      SumOfHalves(xs);
      HalfOfDouble(|xs| as real);
    }
  }

  lemma HalfOfDouble(n: real)
    requires n > 0.0
    ensures (0.5 * n) / n == 0.5
  {
  }

  /** One category's scores across the analyses, in track order, with 0.5 for
      a category a score map lacks; analyses with an empty score map are
      skipped. */
  function ScoreColumn(analyses: seq<TrackAnalysis>, c: Category): seq<real>
  {
    if analyses == [] then []
    else
      var last := analyses[|analyses| - 1];
      ScoreColumn(analyses[..|analyses| - 1], c)
      + if last.scores != map[] then [if c in last.scores then last.scores[c] else 0.5] else []
  }

  /** `avg_scores`: the mean of each category's column. */
  function AverageScores(analyses: seq<TrackAnalysis>): (r: map<Category, real>)
    ensures forall c :: c in r
  {
    CategoriesComplete();
    map c | c in Categories :: Mean(ScoreColumn(analyses, c))
  }

  /** Every analysis the builder makes carries the four category scores, so
      the `if t['scores']` filter keeps every track, tag-less ones included:
      each column has one entry per track, that track's score. */
  lemma {:induction false} FilterKeepsEveryTrack(analyses: seq<TrackAnalysis>, c: Category)
    requires forall i, c :: 0 <= i < |analyses| ==> c in analyses[i].scores
    ensures |ScoreColumn(analyses, c)| == |analyses|
    ensures forall i :: 0 <= i < |analyses| ==> ScoreColumn(analyses, c)[i] == analyses[i].scores[c]
  {
    if analyses != [] {
      var init := analyses[..|analyses| - 1];
      FilterKeepsEveryTrack(init, c);
      assert analyses[|analyses| - 1].scores != map[] by {
        assert c in analyses[|analyses| - 1].scores;
      }
    }
  }

  /** Averaged scores lie between 0 and 1 whenever the per-track scores do. */
  lemma {:induction false} AverageScoresBounded(analyses: seq<TrackAnalysis>)
    requires forall i, c :: 0 <= i < |analyses| && c in analyses[i].scores ==>
               0.0 <= analyses[i].scores[c] <= 1.0
    ensures forall c :: c in AverageScores(analyses) ==> 0.0 <= AverageScores(analyses)[c] <= 1.0
  {
    forall c | c in AverageScores(analyses)
      ensures 0.0 <= AverageScores(analyses)[c] <= 1.0
    {
      ColumnBounded(analyses, c);
      MeanBounds(ScoreColumn(analyses, c));
    }
  }

  lemma {:induction false} ColumnBounded(analyses: seq<TrackAnalysis>, c: Category)
    requires forall i, c :: 0 <= i < |analyses| && c in analyses[i].scores ==>
               0.0 <= analyses[i].scores[c] <= 1.0
    ensures forall k :: 0 <= k < |ScoreColumn(analyses, c)| ==> 0.0 <= ScoreColumn(analyses, c)[k] <= 1.0
  {
    if analyses != [] {
      ColumnBounded(analyses[..|analyses| - 1], c);
    }
  }

  /** With no tracks every averaged score is the neutral 0.5. */
  lemma NoTracksNeutral()
    ensures forall c :: c in AverageScores([]) ==> AverageScores([])[c] == 0.5
  {
  }

  /** The names of the top tags that contain some genre keyword, in ranking
      order. */
  function GenreFilter(top: seq<TagCount>): seq<string>
  {
    if top == [] then []
    else (if ContainsAny(top[0].tag, GenreKeywords) then [top[0].tag] else []) + GenreFilter(top[1..])
  }

  /** `genres`: the first five top tags that contain a genre keyword. */
  function GenreTags(top: seq<TagCount>): (r: seq<string>)
    ensures |r| <= GenreLimit
  {
    Take(GenreFilter(top), GenreLimit)
  }

  function TagNames(top: seq<TagCount>): seq<string>
  {
    seq(|top|, i requires 0 <= i < |top| => top[i].tag)
  }

  /** `a` is `b` with some elements left out, the rest in their order. */
  predicate Subsequence(a: seq<string>, b: seq<string>)
  {
    a == [] || (b != [] && ((a[0] == b[0] && Subsequence(a[1..], b[1..])) || Subsequence(a, b[1..])))
  }

  lemma {:induction false} PrefixOfSubsequence(a: seq<string>, b: seq<string>, n: nat)
    requires Subsequence(a, b) && n <= |a|
    ensures Subsequence(a[..n], b)
  {
    if n > 0 {
      if a[0] == b[0] && Subsequence(a[1..], b[1..]) {
        PrefixOfSubsequence(a[1..], b[1..], n - 1);
        assert a[..n][1..] == a[1..][..n - 1];
      } else {
        PrefixOfSubsequence(a, b[1..], n);
      }
    }
  }

  lemma {:induction false} GenreFilterSpec(top: seq<TagCount>)
    ensures Subsequence(GenreFilter(top), TagNames(top))
    ensures forall k :: 0 <= k < |GenreFilter(top)| ==> ContainsAny(GenreFilter(top)[k], GenreKeywords)
    ensures forall i :: 0 <= i < |top| && ContainsAny(top[i].tag, GenreKeywords) ==> top[i].tag in GenreFilter(top)
  {
    if top != [] {
      var rest := GenreFilter(top[1..]);
      var names := TagNames(top);
      GenreFilterSpec(top[1..]);
      assert names[1..] == TagNames(top[1..]);
      assert forall i :: 1 <= i < |top| ==> top[i] == top[1..][i - 1];
      if ContainsAny(top[0].tag, GenreKeywords) {
        var a := GenreFilter(top);
        assert a == [top[0].tag] + rest;
        assert a[0] == names[0] && a[1..] == rest;
      } else {
        assert GenreFilter(top) == rest;
      }
    }
  }

  /** `genres` is an order-preserving selection of the top tags' names, at
      most five of them, each containing a genre keyword; when fewer than five
      were kept, no top tag with a genre keyword was left out. */
  lemma GenreTagsSpec(top: seq<TagCount>)
    ensures |GenreTags(top)| <= GenreLimit
    ensures Subsequence(GenreTags(top), TagNames(top))
    ensures forall k :: 0 <= k < |GenreTags(top)| ==> ContainsAny(GenreTags(top)[k], GenreKeywords)
    ensures |GenreTags(top)| < GenreLimit ==>
              forall i :: 0 <= i < |top| && ContainsAny(top[i].tag, GenreKeywords) ==> top[i].tag in GenreTags(top)
    ensures |GenreTags(top)| == GenreLimit ==> GenreTags(top) == GenreFilter(top)[..GenreLimit]
  {
    var f := GenreFilter(top);
    GenreFilterSpec(top);
    PrefixOfSubsequence(f, TagNames(top), |GenreTags(top)|);
  }

  /** Each analysis scores the four categories, each between 0 and 1. */
  lemma AnalysisScores(fm: LastFm, t: Track)
    ensures forall c :: c in Analysis(fm, t).scores
    ensures forall c :: c in Analysis(fm, t).scores ==>
              Analysis(fm, t).scores[c] == CategoryScore(TagsFor(fm, t), c)
              && 0.0 <= Analysis(fm, t).scores[c] <= 1.0
  {
  }

  /** Each analysis keeps the track's name and first artist and a sample of
      at most five of its tags, the first ones. */
  lemma AnalysisSample(fm: LastFm, t: Track)
    ensures Analysis(fm, t).name == t.name && Analysis(fm, t).artist == PrimaryArtist(t)
    ensures |Analysis(fm, t).tags| <= SampleTagLimit
    ensures Analysis(fm, t).tags == TagsFor(fm, t)[..|Analysis(fm, t).tags|]
    ensures |TagsFor(fm, t)| <= SampleTagLimit ==> Analysis(fm, t).tags == TagsFor(fm, t)
  {
  }

  lemma PooledStep(fm: LastFm, tracks: seq<Track>, i: nat)
    requires i < |tracks|
    ensures PooledTags(fm, tracks[..i + 1]) == PooledTags(fm, tracks[..i]) + TagsFor(fm, tracks[i])
    ensures Requests(fm, tracks[..i + 1]) == Requests(fm, tracks[..i]) + RequestsFor(fm, tracks[i])
    ensures Analyses(fm, tracks[..i + 1]) == Analyses(fm, tracks[..i]) + [Analysis(fm, tracks[i])]
  {
    assert tracks[..i + 1][..i] == tracks[..i];
  }

  lemma AnalysesBounded(fm: LastFm, tracks: seq<Track>, analyses: seq<TrackAnalysis>)
    requires |analyses| == |tracks|
    requires forall i :: 0 <= i < |tracks| ==> analyses[i] == Analysis(fm, tracks[i])
    ensures forall i, c :: 0 <= i < |analyses| && c in analyses[i].scores ==>
              0.0 <= analyses[i].scores[c] <= 1.0
  {
    forall i, c | 0 <= i < |analyses| && c in analyses[i].scores
      ensures 0.0 <= analyses[i].scores[c] <= 1.0
    {
      AnalysisScores(fm, tracks[i]);
    }
  }

  /** `analyze_tracks_profile(tracks)`, with the Last.fm calls it makes
      returned as a ghost log. One analysis per track, in order; the top tags
      are `most_common(20)` of all tags pooled; the averaged scores and the
      genres are derived from those. */
  method AnalyzeTracksProfile(tracks: seq<Track>, fm: LastFm)
    returns (p: TasteProfile, ghost requests: seq<TagRequest>)
    ensures p.trackCount == |tracks| && |p.analyses| == |tracks|
    ensures forall i :: 0 <= i < |tracks| ==> p.analyses[i] == Analysis(fm, tracks[i])
    ensures p.topTags == MostCommon(PooledTags(fm, tracks), TopTagLimit) && |p.topTags| <= TopTagLimit
    ensures p.scores == AverageScores(p.analyses)
    ensures forall c :: c in p.scores ==> 0.0 <= p.scores[c] <= 1.0
    ensures p.genres == GenreTags(p.topTags)
    ensures requests == Requests(fm, tracks)
  {
    var allTags: seq<string> := [];
    var analyses: seq<TrackAnalysis> := [];
    requests := [];
    for i := 0 to |tracks|
      invariant allTags == PooledTags(fm, tracks[..i])
      invariant analyses == Analyses(fm, tracks[..i])
      invariant requests == Requests(fm, tracks[..i])
    {
      var track := tracks[i];
      var artist := if |track.artists| > 0 then track.artists[0] else "";
      var tags := fm.trackTags(track.name, artist);
      ghost var before := requests;
      requests := requests + [TrackTagsRequest(track.name, artist)];
      if tags == [] && artist != "" {
        tags := fm.artistTags(artist);
        requests := requests + [ArtistTagsRequest(artist)];
        assert requests == before + ([TrackTagsRequest(track.name, artist)] + [ArtistTagsRequest(artist)]);
      } else {
        assert requests == before + ([TrackTagsRequest(track.name, artist)] + []);
      }
      assert artist == PrimaryArtist(track);
      assert requests == before + RequestsFor(fm, track);
      assert tags == TagsFor(fm, track);
      PooledStep(fm, tracks, i);
      allTags := allTags + tags;
      var analysis := TrackAnalysis(track.name, artist, Take(tags, SampleTagLimit), CalculateTagScores(tags));
      assert analysis == Analysis(fm, track);
      analyses := analyses + [analysis];
    }
    assert tracks[..|tracks|] == tracks;
    AnalysesPerTrack(fm, tracks);
    var topTags := MostCommon(allTags, TopTagLimit);
    var scores := AverageScores(analyses);
    AnalysesBounded(fm, tracks, analyses);
    AverageScoresBounded(analyses);
    var genres := GenreTags(topTags);
    p := TasteProfile(scores, topTags, genres, |tracks|, analyses);
  }

  /** The averaged score of a category is the plain mean of that category's
      score over all tracks, tag-less tracks counting as 0.5. */
  lemma AverageOverAllTracks(fm: LastFm, tracks: seq<Track>, analyses: seq<TrackAnalysis>, c: Category)
    requires |analyses| == |tracks| && |tracks| > 0
    requires forall i :: 0 <= i < |tracks| ==> analyses[i] == Analysis(fm, tracks[i])
    ensures |ScoreColumn(analyses, c)| == |tracks|
    ensures AverageScores(analyses)[c] == Sum(ScoreColumn(analyses, c)) / |tracks| as real
    ensures forall i :: 0 <= i < |tracks| ==>
              ScoreColumn(analyses, c)[i] == CategoryScore(TagsFor(fm, tracks[i]), c)
  {
    forall i | 0 <= i < |analyses|
      ensures forall c :: c in analyses[i].scores
      ensures analyses[i].scores[c] == CategoryScore(TagsFor(fm, tracks[i]), c)
    {
      AnalysisScores(fm, tracks[i]);
    }
    FilterKeepsEveryTrack(analyses, c);
  }

  lemma {:induction false} NoTagsNothingPooled(fm: LastFm, tracks: seq<Track>)
    requires forall i :: 0 <= i < |tracks| ==> TagsFor(fm, tracks[i]) == []
    ensures PooledTags(fm, tracks) == []
  {
    if tracks != [] {
      NoTagsNothingPooled(fm, tracks[..|tracks| - 1]);
    }
  }

  /** When Last.fm has no tags for any track, the profile is all neutral:
      every averaged score is 0.5 and there are no top tags and no genres. */
  lemma NoTagsNeutralProfile(fm: LastFm, tracks: seq<Track>, analyses: seq<TrackAnalysis>)
    requires forall i :: 0 <= i < |tracks| ==> TagsFor(fm, tracks[i]) == []
    requires |analyses| == |tracks|
    requires forall i :: 0 <= i < |tracks| ==> analyses[i] == Analysis(fm, tracks[i])
    ensures MostCommon(PooledTags(fm, tracks), TopTagLimit) == []
    ensures GenreTags(MostCommon(PooledTags(fm, tracks), TopTagLimit)) == []
    ensures forall c :: c in AverageScores(analyses) ==> AverageScores(analyses)[c] == 0.5
  {
    NoTagsNothingPooled(fm, tracks);
    NoTagsNoTopTags(TopTagLimit);
    forall c | c in AverageScores(analyses) ensures AverageScores(analyses)[c] == 0.5 {
      NoTagsNeutralCategory(fm, tracks, analyses, c);
    }
  }

  lemma NoTagsNeutralCategory(fm: LastFm, tracks: seq<Track>, analyses: seq<TrackAnalysis>, c: Category)
    requires forall i :: 0 <= i < |tracks| ==> TagsFor(fm, tracks[i]) == []
    requires |analyses| == |tracks|
    requires forall i :: 0 <= i < |tracks| ==> analyses[i] == Analysis(fm, tracks[i])
    ensures c in AverageScores(analyses) && AverageScores(analyses)[c] == 0.5
  {
    NoTagsAreNeutral();
    forall i | 0 <= i < |analyses|
      ensures c in analyses[i].scores && analyses[i].scores[c] == 0.5
    {
      assert analyses[i].scores == CalculateTagScores([]);
    }
    NeutralColumn(analyses, c);
    MeanOfHalves(ScoreColumn(analyses, c));
  }

  lemma {:induction false} NeutralColumn(analyses: seq<TrackAnalysis>, c: Category)
    requires forall i :: 0 <= i < |analyses| ==> c in analyses[i].scores && analyses[i].scores[c] == 0.5
    ensures forall k :: 0 <= k < |ScoreColumn(analyses, c)| ==> ScoreColumn(analyses, c)[k] == 0.5
  {
    if analyses != [] {
      NeutralColumn(analyses[..|analyses| - 1], c);
    }
  }

  /** A track is a candidate of the profile collector when Spotify lists it
      among the top 3 tracks of one of the (up to 5) Last.fm artists of one
      of the given tags. */
  ghost predicate FromTagArtists(t: Track, tags: seq<TagCount>, fm: LastFm, sp: Spotify)
  {
    exists k :: 0 <= k < |tags| && FromArtists(t, fm.artistsForTag(tags[k].tag, 5), sp, 3)
  }

  /** Taking one more tag adds exactly the top tracks of that tag's artists. */
  lemma FromTagArtistsStep(t: Track, tags: seq<TagCount>, i: nat, fm: LastFm, sp: Spotify)
    requires i < |tags|
    ensures FromTagArtists(t, tags[..i + 1], fm, sp) <==>
            FromTagArtists(t, tags[..i], fm, sp) || FromArtists(t, fm.artistsForTag(tags[i].tag, 5), sp, 3)
  {
    if FromTagArtists(t, tags[..i + 1], fm, sp) {
      var k :| 0 <= k < i + 1 && FromArtists(t, fm.artistsForTag(tags[..i + 1][k].tag, 5), sp, 3);
      if k < i {
        assert tags[..i][k] == tags[k];
      }
    }
    if FromTagArtists(t, tags[..i], fm, sp) {
      var k :| 0 <= k < i && FromArtists(t, fm.artistsForTag(tags[..i][k].tag, 5), sp, 3);
      assert tags[..i + 1][k] == tags[k];
    }
    if FromArtists(t, fm.artistsForTag(tags[i].tag, 5), sp, 3) {
      assert tags[..i + 1][i] == tags[i];
    }
  }

  /** One tag's artists from list `c` on: for each artist in turn, unless
      the list already holds `limit` tracks, every unseen track of its top 3. */
  function ArtistsTake(c: seq<Track>, artists: seq<string>, sp: Spotify, limit: int): seq<Track>
    decreases |artists|
  {
    if artists == [] || limit <= |c| then c
    else ArtistsTake(Unseen(c, sp.artistTopTracks(artists[0], 3)), artists[1..], sp, limit)
  }

  /** `collected_tracks` after the loop over `tags`: for each tag in turn, the
      layer of its (up to 5) Last.fm artists. */
  function TagsTake(c: seq<Track>, tags: seq<TagCount>, fm: LastFm, sp: Spotify, limit: int): seq<Track>
    decreases |tags|
  {
    if tags == [] then c
    else TagsTake(ArtistsTake(c, fm.artistsForTag(tags[0].tag, 5), sp, limit), tags[1..], fm, sp, limit)
  }

  /** The layer only appends, and only tracks of the given artists; a list
      already holding `limit` tracks is left alone. */
  lemma {:induction false} ArtistsTakeExtends(c: seq<Track>, artists: seq<string>, sp: Spotify, limit: int)
    ensures var r := ArtistsTake(c, artists, sp, limit);
      |c| <= |r| && r[..|c|] == c &&
      (forall k :: |c| <= k < |r| ==> FromArtists(r[k], artists, sp, 3)) &&
      (limit <= |c| ==> r == c)
    decreases |artists|
  {
    if artists != [] && |c| < limit {
      var c' := Unseen(c, sp.artistTopTracks(artists[0], 3));
      var r := ArtistsTake(c, artists, sp, limit);
      UnseenExtends(c, sp.artistTopTracks(artists[0], 3));
      ArtistsTakeExtends(c', artists[1..], sp, limit);
      assert r[..|c'|] == c';
      assert r[..|c|] == c'[..|c|];
      forall k | |c| <= k < |r| ensures FromArtists(r[k], artists, sp, 3) {
        if k < |c'| {
          assert r[k] == c'[k];
          assert r[k] in sp.artistTopTracks(artists[0], 3);
        } else {
          var m :| 0 <= m < |artists[1..]| && r[k] in sp.artistTopTracks(artists[1..][m], 3);
          assert artists[1..][m] == artists[m + 1];
        }
      }
    }
  }

  /** The layer keeps URIs unique, and when it stops short of `limit` tracks,
      every top track of every artist has its URI in the list. */
  lemma {:induction false} ArtistsTakeDistinct(c: seq<Track>, artists: seq<string>, sp: Spotify, limit: int)
    requires NoDuplicateUris(c)
    ensures var r := ArtistsTake(c, artists, sp, limit);
      NoDuplicateUris(r) &&
      (|r| < limit ==> forall t :: FromArtists(t, artists, sp, 3) ==> t.uri in Uris(r))
    decreases |artists|
  {
    if artists != [] && |c| < limit {
      var c' := Unseen(c, sp.artistTopTracks(artists[0], 3));
      var r := ArtistsTake(c, artists, sp, limit);
      UnseenDistinct(c, sp.artistTopTracks(artists[0], 3));
      ArtistsTakeDistinct(c', artists[1..], sp, limit);
      if |r| < limit {
        ArtistsTakeExtends(c', artists[1..], sp, limit);
        PrefixUris(c', r);
        forall t | FromArtists(t, artists, sp, 3) ensures t.uri in Uris(r) {
          var m :| 0 <= m < |artists| && t in sp.artistTopTracks(artists[m], 3);
          if m == 0 {
            assert t.uri in Uris(sp.artistTopTracks(artists[0], 3));
          } else {
            assert artists[1..][m - 1] == artists[m];
            assert FromArtists(t, artists[1..], sp, 3);
          }
        }
      }
    }
  }

  /** lastfm_profile.py lines 206-214: the top 3 tracks of each artist of one
      tag, every unseen one appended; an artist is skipped once the list holds
      `limit` tracks, but the tracks of an artist already asked for are all
      appended. */
  method ArtistsLayer(collected: seq<Track>, seen: set<string>, artists: seq<string>,
                      sp: Spotify, limit: int)
    returns (c: seq<Track>, s: set<string>)
    requires seen == Uris(collected) && NoDuplicateUris(collected)
    ensures c == ArtistsTake(collected, artists, sp, limit)
    ensures s == Uris(c) && NoDuplicateUris(c)
    ensures |collected| <= |c| && c[..|collected|] == collected
    ensures forall k :: |collected| <= k < |c| ==> FromArtists(c[k], artists, sp, 3)
    ensures limit <= |collected| ==> c == collected
    ensures |c| < limit ==> forall t :: FromArtists(t, artists, sp, 3) ==> t.uri in s
  {
    c, s := collected, seen;
    var j := 0;
    while j < |artists|
      invariant 0 <= j <= |artists|
      invariant s == Uris(c) && NoDuplicateUris(c)
      invariant ArtistsTake(c, artists[j..], sp, limit) == ArtistsTake(collected, artists, sp, limit)
    {
      if |c| >= limit {
        break;
      }
      assert artists[j..][1..] == artists[j + 1..];
      c, s := AppendUnseen(c, s, sp.artistTopTracks(artists[j], 3));
      j := j + 1;
    }
    assert j == |artists| ==> artists[j..] == [];
    ArtistsTakeExtends(collected, artists, sp, limit);
    ArtistsTakeDistinct(collected, artists, sp, limit);
  }

  /** `get_similar_tracks_by_profile(profile, token, limit)`, the profile given
      by its top tags. Only the first five tags are consulted; the result has
      no two tracks with the same URI and at most `limit` tracks; and when it
      falls short of `limit`, every candidate's URI is in it. */
  method SimilarTracksByProfile(topTags: seq<TagCount>, fm: LastFm, sp: Spotify, limit: int)
    returns (r: seq<Track>)
    ensures r == SliceTo(TagsTake([], Take(topTags, 5), fm, sp, limit), limit)
    ensures NoDuplicateUris(r)
    ensures limit <= 0 ==> r == []
    ensures |r| <= limit || r == []
    ensures forall t :: t in r ==> FromTagArtists(t, Take(topTags, 5), fm, sp)
    ensures |r| < limit ==> forall t :: FromTagArtists(t, Take(topTags, 5), fm, sp) ==> t.uri in Uris(r)
  {
    var collected: seq<Track> := [];
    var seen: set<string> := {};
    var tags := Take(topTags, 5);
    for i := 0 to |tags|
      invariant seen == Uris(collected) && NoDuplicateUris(collected)
      invariant limit <= 0 ==> collected == []
      invariant forall k :: 0 <= k < |collected| ==> FromTagArtists(collected[k], tags[..i], fm, sp)
      invariant |collected| < limit ==>
                  forall t :: FromTagArtists(t, tags[..i], fm, sp) ==> t.uri in seen
      invariant TagsTake(collected, tags[i..], fm, sp, limit) == TagsTake([], tags, fm, sp, limit)
    {
      assert tags[i..][1..] == tags[i + 1..];
      var artists := fm.artistsForTag(tags[i].tag, 5);
      ghost var before := collected;
      collected, seen := ArtistsLayer(collected, seen, artists, sp, limit);
      forall k | 0 <= k < |collected| ensures FromTagArtists(collected[k], tags[..i + 1], fm, sp) {
        FromTagArtistsStep(collected[k], tags, i, fm, sp);
        if k < |before| {
          assert collected[k] == before[k];
        }
      }
      if |collected| < limit {
        PrefixUris(before, collected);
        forall t | FromTagArtists(t, tags[..i + 1], fm, sp) ensures t.uri in seen {
          FromTagArtistsStep(t, tags, i, fm, sp);
        }
      }
    }
    assert tags[..|tags|] == tags && tags[|tags|..] == [];
    r := SliceTo(collected, limit);
    CutToLimit(collected, limit, tags, fm, sp);
  }

  /** `collected_tracks[:limit]` keeps the guarantees of the collected list. */
  lemma CutToLimit(collected: seq<Track>, limit: int, tags: seq<TagCount>, fm: LastFm, sp: Spotify)
    requires NoDuplicateUris(collected)
    requires limit <= 0 ==> collected == []
    requires forall k :: 0 <= k < |collected| ==> FromTagArtists(collected[k], tags, fm, sp)
    requires |collected| < limit ==>
               forall t :: FromTagArtists(t, tags, fm, sp) ==> t.uri in Uris(collected)
    ensures var r := SliceTo(collected, limit);
            && NoDuplicateUris(r)
            && (limit <= 0 ==> r == [])
            && (|r| <= limit || r == [])
            && (forall t :: t in r ==> FromTagArtists(t, tags, fm, sp))
            && (|r| < limit ==> forall t :: FromTagArtists(t, tags, fm, sp) ==> t.uri in Uris(r))
  {
    var r := SliceTo(collected, limit);
    if 0 < limit {
      PrefixKeepsNoDuplicateUris(collected, |r|);
      assert |r| < limit ==> r == collected;
      forall t | t in r ensures FromTagArtists(t, tags, fm, sp) {
        var k :| 0 <= k < |r| && r[k] == t;
        assert collected[k] == t;
      }
    }
  }
}
