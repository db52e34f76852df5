/** `gen_recommendations`: a playlist built in layers. First tracks of the
    seed artist, then tracks of the artists Last.fm finds similar (or, when it
    finds none, tracks of the seed genre), then a genre top-up while the list
    is short; the list is shuffled and cut to the requested length. */
module Recommendations {
  import opened Text
  import opened Catalog
  import opened Collect
  import opened Quota

  datatype Option<T> = None | Some(value: T)

  /** The request body, each key possibly absent. `danceability` and `energy`
      are the older names of `variety` and `discovery`. */
  datatype Payload = Payload(
    trackCount: Option<int>,
    variety: Option<int>,
    danceability: Option<int>,
    discovery: Option<int>,
    energy: Option<int>,
    seedGenre: Option<string>,
    seedArtist: Option<string>)

  const DefaultSeedArtist: string := "Rage Against The Machine"

  function GetOr<T>(o: Option<T>, default: T): T
  {
    match o
    case Some(v) => v
    case None => default
  }

  /** `payload.get(key, payload.get(legacy, 5))`: the current key wins, the
      legacy key is read only when the current one is absent. */
  function SliderValue(current: Option<int>, legacy: Option<int>): (v: int)
    ensures current.Some? ==> v == current.value
    ensures current.None? && legacy.Some? ==> v == legacy.value
    ensures current.None? && legacy.None? ==> v == 5
  {
    GetOr(current, GetOr(legacy, 5))
  }

  function TrackCount(p: Payload): int { GetOr(p.trackCount, 10) }
  function Variety(p: Payload): int { SliderValue(p.variety, p.danceability) }
  function Discovery(p: Payload): int { SliderValue(p.discovery, p.energy) }
  function SeedGenre(p: Payload): string { GetOr(p.seedGenre, "rock") }

  /** The seed artist's name: the given name without surrounding whitespace,
      or Rage Against The Machine when none is given or it is blank. */
  function SeedArtistName(p: Payload): (name: string)
    ensures name != [] && !IsSpace(name[0]) && !IsSpace(name[|name| - 1])
    ensures AllSpace(GetOr(p.seedArtist, "")) ==> name == DefaultSeedArtist
    ensures !AllSpace(GetOr(p.seedArtist, "")) ==> name == Strip(GetOr(p.seedArtist, ""))
  {
    var stripped := Strip(GetOr(p.seedArtist, ""));
    if stripped == [] then
      assert DefaultSeedArtist[0] == 'R' && DefaultSeedArtist[|DefaultSeedArtist| - 1] == 'e';
      DefaultSeedArtist
    else stripped
  }

  /** Some artist of `t` has the name `name`, ignoring case. */
  predicate ByArtist(t: Track, name: string)
  {
    exists k :: 0 <= k < |t.artists| && SameNameIgnoringCase(t.artists[k], name)
  }

  /** How many tracks of `s` are credited to `name`:
      `len([t for t in s if any(a['name'].lower() == name.lower() ...)])`. */
  function SeedCount(s: seq<Track>, name: string): nat
  {
    CountTrue(seq(|s|, i requires 0 <= i < |s| => ByArtist(s[i], name)))
  }

  /** The number of `true` entries of `b`. */
  function CountTrue(b: seq<bool>): nat
  {
    if b == [] then 0 else CountTrue(b[..|b| - 1]) + if b[|b| - 1] then 1 else 0
  }

  /** Appending a track adds one to the count exactly when it is by `name`. */
  lemma SeedCountAppend(s: seq<Track>, t: Track, name: string)
    ensures SeedCount(s + [t], name) == SeedCount(s, name) + if ByArtist(t, name) then 1 else 0
  {
    var m := seq(|s + [t]|, i requires 0 <= i < |s + [t]| => ByArtist((s + [t])[i], name));
    assert m[..|s|] == seq(|s|, i requires 0 <= i < |s| => ByArtist(s[i], name));
  }

  /** The seed layer from list `c` on: the unseen tracks of `tracks` appended
      in order, stopping right after the append that brings the number of
      tracks by `name` to `target`. */
  function SeedTake(c: seq<Track>, tracks: seq<Track>, name: string, target: int): seq<Track>
    decreases |tracks|
  {
    if tracks == [] then c
    else if tracks[0].uri in Uris(c) then SeedTake(c, tracks[1..], name, target)
    else if SeedCount(c + [tracks[0]], name) >= target then c + [tracks[0]]
    else SeedTake(c + [tracks[0]], tracks[1..], name, target)
  }

  /** The seed layer extends the list with seed tracks only. */
  lemma {:induction false} SeedTakeExtends(c: seq<Track>, tracks: seq<Track>, name: string, target: int)
    ensures var r := SeedTake(c, tracks, name, target);
      && |c| <= |r| && r[..|c|] == c
      && (forall k :: |c| <= k < |r| ==> r[k] in tracks)
    decreases |tracks|
  {
    if tracks != [] {
      var t, rest := tracks[0], tracks[1..];
      assert tracks == [t] + rest;
      if t.uri in Uris(c) {
        SeedTakeExtends(c, rest, name, target);
      } else if SeedCount(c + [t], name) < target {
        SeedTakeExtends(c + [t], rest, name, target);
        ExtendsByOne(c, t, rest, SeedTake(c + [t], rest, name, target));
      }
    }
  }

  /** The seed layer keeps URIs distinct; while the target is not met it
      reads every track, so it then holds every seed URI. */
  lemma {:induction false} SeedTakeDistinct(c: seq<Track>, tracks: seq<Track>, name: string, target: int)
    requires NoDuplicateUris(c)
    ensures NoDuplicateUris(SeedTake(c, tracks, name, target))
    ensures SeedCount(SeedTake(c, tracks, name, target), name) < target ==>
              Uris(SeedTake(c, tracks, name, target)) == Uris(c) + Uris(tracks)
    decreases |tracks|
  {
    if tracks != [] {
      var t, rest := tracks[0], tracks[1..];
      UrisCons(tracks);
      if t.uri in Uris(c) {
        SeedTakeDistinct(c, rest, name, target);
      } else {
        AppendFresh(c, Uris(c), t);
        if SeedCount(c + [t], name) < target {
          SeedTakeDistinct(c + [t], rest, name, target);
        }
      }
    }
  }

  /** The seed artist's count in the seed layer grows by at most one per
      append and is compared with the target after each append, so it never
      passes the target (or 1, for a target below 1); a target below 1 admits
      a single track; and once the target is met, the last track appended is
      the seed artist's. */
  lemma {:induction false} SeedTakeCount(c: seq<Track>, tracks: seq<Track>, name: string, target: int)
    requires c == [] || SeedCount(c, name) < target
    requires target <= 0 ==> c == []
    ensures var r := SeedTake(c, tracks, name, target);
      && SeedCount(r, name) <= Max(target, 1)
      && (target <= 0 ==> |r| <= 1)
      && (0 < target <= SeedCount(r, name) ==> r != [] && ByArtist(r[|r| - 1], name))
    decreases |tracks|
  {
    if tracks != [] {
      var t, rest := tracks[0], tracks[1..];
      if t.uri in Uris(c) {
        SeedTakeCount(c, rest, name, target);
      } else {
        var d := c + [t];
        SeedCountAppend(c, t, name);
        if SeedCount(d, name) < target {
          SeedTakeCount(d, rest, name, target);
        } else {
          assert d[|d| - 1] == t;
        }
      }
    }
  }

  /** recommendations.py lines 193-199: the seed artist's top tracks, unseen
      ones appended, stopping as soon as `target` of the collected tracks are
      by the seed artist. */
  method SeedLayer(seedTracks: seq<Track>, name: string, target: int)
    returns (c: seq<Track>, s: set<string>)
    ensures c == SeedTake([], seedTracks, name, target)
    ensures s == Uris(c) && NoDuplicateUris(c)
    ensures forall t :: t in c ==> t in seedTracks
    ensures SeedCount(c, name) <= Max(target, 1)
    ensures target <= 0 ==> |c| <= 1
    ensures 0 < target <= SeedCount(c, name) ==> ByArtist(c[|c| - 1], name)
    ensures SeedCount(c, name) < target ==> forall t :: t in seedTracks ==> t.uri in s
  {
    c, s := SeedLoop(seedTracks, name, target);
    SeedTakeExtends([], seedTracks, name, target);
    SeedTakeDistinct([], seedTracks, name, target);
    SeedTakeCount([], seedTracks, name, target);
  }

  /** The loop of the seed layer: it leaves exactly the list `SeedTake`
      describes, next to the set of its URIs. */
  method SeedLoop(seedTracks: seq<Track>, name: string, target: int)
    returns (c: seq<Track>, s: set<string>)
    ensures c == SeedTake([], seedTracks, name, target) && s == Uris(c)
  {
    c, s := [], {};
    var i := 0;
    while i < |seedTracks|
      invariant 0 <= i <= |seedTracks|
      invariant s == Uris(c)
      invariant SeedTake(c, seedTracks[i..], name, target) == SeedTake([], seedTracks, name, target)
    {
      var t := seedTracks[i];
      assert seedTracks[i..][1..] == seedTracks[i + 1..];
      i := i + 1;
      if t.uri !in s {
        UrisAppend(c, t);
        c := c + [t];
        s := s + {t.uri};
        if SeedCount(c, name) >= target {
          break;
        }
      }
    }
    assert i == |seedTracks| ==> seedTracks[i..] == [];
  }

  /** What `SeedLayer` promises about its last track amounts to stopping
      right after the target is reached: before the last append the count
      was still below the target (for a target of at least 1). */
  lemma {:induction false} StopsRightAfterTarget(c: seq<Track>, name: string, target: int)
    requires 0 < target && c != []
    requires SeedCount(c, name) <= Max(target, 1)
    requires target <= SeedCount(c, name) ==> ByArtist(c[|c| - 1], name)
    ensures SeedCount(c[..|c| - 1], name) < target
  {
    var init := c[..|c| - 1];
    assert c == init + [c[|c| - 1]];
    SeedCountAppend(init, c[|c| - 1], name);
  }

  /** The similar-artist layer from list `c` on: for each artist in turn,
      unless the list already holds `cap` tracks, its top tracks (`quota` of
      them) taken by `UnseenUntil`. */
  function SimilarTake(c: seq<Track>, artists: seq<string>, sp: Spotify, quota: int, cap: int): seq<Track>
    decreases |artists|
  {
    if artists == [] || cap <= |c| then c
    else SimilarTake(UnseenUntil(c, sp.artistTopTracks(artists[0], quota), cap), artists[1..], sp, quota, cap)
  }

  /** The similar-artist layer only appends, and only top tracks of the
      given artists; it never takes a list below `cap` past it, and leaves a
      full list alone. */
  lemma {:induction false} SimilarTakeExtends(c: seq<Track>, artists: seq<string>, sp: Spotify,
                                              quota: int, cap: int)
    ensures var r := SimilarTake(c, artists, sp, quota, cap);
      && |c| <= |r| && r[..|c|] == c
      && (forall k :: |c| <= k < |r| ==> FromArtists(r[k], artists, sp, quota))
      && (|c| < cap ==> |r| <= cap)
      && (cap <= |c| ==> r == c)
    decreases |artists|
  {
    if artists != [] && |c| < cap {
      var tracks := sp.artistTopTracks(artists[0], quota);
      var c' := UnseenUntil(c, tracks, cap);
      var r := SimilarTake(c, artists, sp, quota, cap);
      UnseenUntilExtends(c, tracks, cap);
      SimilarTakeExtends(c', artists[1..], sp, quota, cap);
      assert r[..|c'|] == c';
      assert r[..|c|] == c'[..|c|];
      forall k | |c| <= k < |r| ensures FromArtists(r[k], artists, sp, quota) {
        if k < |c'| {
          assert r[k] == c'[k];
          assert r[k] in sp.artistTopTracks(artists[0], quota);
        } else {
          var m :| 0 <= m < |artists[1..]| && r[k] in sp.artistTopTracks(artists[1..][m], quota);
          assert artists[1..][m] == artists[m + 1];
        }
      }
    }
  }

  /** The similar-artist layer keeps URIs unique, and when it ends short of
      `cap` every top track of every artist has its URI in the list. */
  lemma {:induction false} SimilarTakeDistinct(c: seq<Track>, artists: seq<string>, sp: Spotify,
                                               quota: int, cap: int)
    requires NoDuplicateUris(c)
    ensures var r := SimilarTake(c, artists, sp, quota, cap);
      && NoDuplicateUris(r)
      && (|r| < cap ==> forall t :: FromArtists(t, artists, sp, quota) ==> t.uri in Uris(r))
    decreases |artists|
  {
    if artists != [] && |c| < cap {
      var tracks := sp.artistTopTracks(artists[0], quota);
      var c' := UnseenUntil(c, tracks, cap);
      var r := SimilarTake(c, artists, sp, quota, cap);
      UnseenUntilDistinct(c, tracks, cap);
      SimilarTakeDistinct(c', artists[1..], sp, quota, cap);
      if |r| < cap {
        SimilarTakeExtends(c', artists[1..], sp, quota, cap);
        PrefixUris(c', r);
        forall t | FromArtists(t, artists, sp, quota) ensures t.uri in Uris(r) {
          var m :| 0 <= m < |artists| && t in sp.artistTopTracks(artists[m], quota);
          if m == 0 {
            assert t.uri in Uris(tracks);
          } else {
            assert artists[1..][m - 1] == artists[m];
            assert FromArtists(t, artists[1..], sp, quota);
          }
        }
      }
    }
  }

  /** recommendations.py lines 216-230: each similar artist's top tracks,
      `quota` per artist, appended until the list holds `trackCount` tracks;
      an artist is skipped once the list is full. */
  method SimilarLayer(collected: seq<Track>, seen: set<string>, similar: seq<string>,
                      sp: Spotify, quota: int, trackCount: int)
    returns (c: seq<Track>, s: set<string>)
    requires seen == Uris(collected) && NoDuplicateUris(collected)
    ensures c == SimilarTake(collected, similar, sp, quota, trackCount)
    ensures s == Uris(c) && NoDuplicateUris(c)
    ensures |collected| <= |c| && c[..|collected|] == collected
    ensures forall k :: |collected| <= k < |c| ==> FromArtists(c[k], similar, sp, quota)
    ensures |collected| < trackCount ==> |c| <= trackCount
    ensures trackCount <= |collected| ==> c == collected
    ensures |c| < trackCount ==> forall t :: FromArtists(t, similar, sp, quota) ==> t.uri in s
  {
    c, s := collected, seen;
    var j := 0;
    while j < |similar|
      invariant 0 <= j <= |similar|
      invariant s == Uris(c) && NoDuplicateUris(c)
      invariant SimilarTake(c, similar[j..], sp, quota, trackCount) == SimilarTake(collected, similar, sp, quota, trackCount)
    {
      if |c| >= trackCount {
        break;
      }
      assert similar[j..][1..] == similar[j + 1..];
      c, s := AppendUntil(c, s, sp.artistTopTracks(similar[j], quota), trackCount);
      j := j + 1;
    }
    assert j == |similar| ==> similar[j..] == [];
    SimilarTakeExtends(collected, similar, sp, quota, trackCount);
    SimilarTakeDistinct(collected, similar, sp, quota, trackCount);
  }

  lemma UrisOfPermutation(a: seq<Track>, b: seq<Track>)
    requires multiset(a) == multiset(b)
    ensures Uris(a) == Uris(b)
  {
    assert forall t :: t in a <==> t in multiset(a);
    assert forall t :: t in b <==> t in multiset(b);
  }

  /** The artists Last.fm suggests for the seed artist. */
  function SimilarArtists(p: Payload, fm: LastFm): seq<string>
  {
    fm.similarArtists(SeedArtistName(p), NumSimilarArtists(Variety(p)))
  }

  /** The per-artist limit used for the similar artists (only when there are some). */
  function ArtistQuota(p: Payload, fm: LastFm): int
  {
    var similar := SimilarArtists(p, fm);
    if similar == [] then 0
    else PerArtistQuota(SimilarTarget(TrackCount(p), Discovery(p)), |similar|)
  }

  function SeedPool(p: Payload, sp: Spotify): seq<Track>
  {
    sp.artistTopTracks(SeedArtistName(p), SeedTarget(TrackCount(p), Discovery(p)) + 3)
  }

  function FallbackPool(p: Payload, sp: Spotify): seq<Track>
  {
    sp.genreTracks(SeedGenre(p), TrackCount(p) * 2)
  }

  function TopUpPool(p: Payload, sp: Spotify): seq<Track>
  {
    sp.genreTracks(SeedGenre(p), TrackCount(p))
  }

  ghost predicate Explored(t: Track, similar: seq<string>, quota: int, sp: Spotify, fallback: seq<Track>)
  {
    if similar == [] then t in fallback else FromArtists(t, similar, sp, quota)
  }

  /** The tracks past the seed artist's: the similar artists' top tracks, or,
      when Last.fm suggests no artist, the genre search at twice the count. */
  ghost predicate FromExploration(t: Track, p: Payload, fm: LastFm, sp: Spotify)
  {
    Explored(t, SimilarArtists(p, fm), ArtistQuota(p, fm), sp, FallbackPool(p, sp))
  }

  /** Every track a recommendation can come from. */
  ghost predicate Candidate(t: Track, p: Payload, fm: LastFm, sp: Spotify)
  {
    t in SeedPool(p, sp) || FromExploration(t, p, fm, sp) || t in TopUpPool(p, sp)
  }

  /** The seed layer of a request: the list `gen_recommendations` holds
      after line 199. */
  function SeedList(p: Payload, sp: Spotify): seq<Track>
  {
    SeedTake([], SeedPool(p, sp), SeedArtistName(p), SeedTarget(TrackCount(p), Discovery(p)))
  }

  /** The list `gen_recommendations` holds before its final shuffle: the seed
      layer, then the exploration layer, then the genre top-up. */
  function Collected(p: Payload, fm: LastFm, sp: Spotify, genrePick: nat -> nat): seq<Track>
  {
    var explored := Explore(SeedList(p, sp), SimilarArtists(p, fm), FallbackPool(p, sp), sp,
                            ArtistQuota(p, fm), TrackCount(p), genrePick);
    TopUp(explored, TopUpPool(p, sp), TrackCount(p))
  }

  /** recommendations.py lines 171-240: the three collection layers of
      `gen_recommendations`, before the final shuffle. The result has no two
      tracks with the same URI, and each of its tracks is a candidate. When it
      falls short of the track count, every track of the exploration layer
      and of the genre top-up is in it, by URI. */
  method CollectTracks(p: Payload, fm: LastFm, sp: Spotify, genrePick: nat -> nat)
    returns (c: seq<Track>)
    ensures c == Collected(p, fm, sp, genrePick)
    ensures |SeedList(p, sp)| <= |c| && c[..|SeedList(p, sp)|] == SeedList(p, sp)
    ensures NoDuplicateUris(c)
    ensures forall t :: t in c ==> Candidate(t, p, fm, sp)
    ensures |c| < TrackCount(p) ==>
              && (forall t :: FromExploration(t, p, fm, sp) ==> t.uri in Uris(c))
              && (forall t :: t in TopUpPool(p, sp) ==> t.uri in Uris(c))
  {
    var trackCount := TrackCount(p);
    var discovery := Discovery(p);
    var seedGenre := SeedGenre(p);
    var seedName := SeedArtistName(p);
    var numSimilar := NumSimilarArtists(Variety(p));
    var seedTarget := SeedTarget(trackCount, discovery);
    var similarTarget := SimilarTarget(trackCount, discovery);

    var seedTracks := sp.artistTopTracks(seedName, seedTarget + 3);
    var similar := fm.similarArtists(seedName, numSimilar);
    var quota := if similar == [] then 0 else PerArtistQuota(similarTarget, |similar|);
    var fallback := sp.genreTracks(seedGenre, trackCount * 2);
    var topUp := sp.genreTracks(seedGenre, trackCount);
    assert seedTracks == SeedPool(p, sp) && topUp == TopUpPool(p, sp) && fallback == FallbackPool(p, sp);
    assert similar == SimilarArtists(p, fm) && quota == ArtistQuota(p, fm);

    c := CollectLayers(seedTracks, seedName, seedTarget, similar, quota, fallback, topUp, sp,
                       trackCount, genrePick);
  }

  /** The three layers run one after the other on the searches' results. */
  method CollectLayers(seedTracks: seq<Track>, seedName: string, seedTarget: int,
                       similar: seq<string>, quota: int, fallback: seq<Track>, topUp: seq<Track>,
                       sp: Spotify, trackCount: int, genrePick: nat -> nat)
    returns (c: seq<Track>)
    ensures var seedPart := SeedTake([], seedTracks, seedName, seedTarget);
      && c == TopUp(Explore(seedPart, similar, fallback, sp, quota, trackCount, genrePick), topUp, trackCount)
      && |seedPart| <= |c| && c[..|seedPart|] == seedPart
    ensures NoDuplicateUris(c)
    ensures forall t :: t in c ==>
              t in seedTracks || Explored(t, similar, quota, sp, fallback) || t in topUp
    ensures |c| < trackCount ==>
              && (forall t :: Explored(t, similar, quota, sp, fallback) ==> t.uri in Uris(c))
              && (forall t :: t in topUp ==> t.uri in Uris(c))
  {
    var seen;
    c, seen := SeedLayer(seedTracks, seedName, seedTarget);
    ghost var seedPart := c;
    c, seen := Exploration(c, seen, similar, fallback, sp, quota, trackCount, genrePick);
    ghost var explorationPart := c;
    c, seen := TopUpLayer(c, seen, topUp, trackCount);
    assert c[..|seedPart|] == c[..|explorationPart|][..|seedPart|];
    LayersCandidates(seedPart, explorationPart, c, seedTracks, similar, quota, sp, fallback, topUp);
  }

  /** `gen_recommendations(payload, token, seed_artist_id)`. The two
      `random.shuffle` calls draw from `genrePick` and `finalPick`; the
      pre-shuffle list is returned as the ghost `collected`.

      The result has no two tracks with the same URI, each one a candidate;
      it is a shuffle of the collected list cut to the track count. When it
      falls short of a non-negative track count, every track of the
      exploration layer and of the genre top-up is in it. */
  method GenRecommendations(p: Payload, fm: LastFm, sp: Spotify, genrePick: nat -> nat, finalPick: nat -> nat)
    returns (r: seq<Track>, ghost collected: seq<Track>)
    ensures collected == Collected(p, fm, sp, genrePick)
    ensures r == SliceTo(FisherYates(collected, finalPick), TrackCount(p))
    ensures NoDuplicateUris(r) && NoDuplicateUris(collected)
    ensures 0 <= TrackCount(p) ==> |r| == Min(TrackCount(p), |collected|)
    ensures multiset(r) <= multiset(collected)
    ensures forall t :: t in r ==> Candidate(t, p, fm, sp)
    ensures 0 <= TrackCount(p) && |r| < TrackCount(p) ==>
              Uris(r) == Uris(collected)
              && (forall t :: FromExploration(t, p, fm, sp) ==> t.uri in Uris(r))
              && (forall t :: t in TopUpPool(p, sp) ==> t.uri in Uris(r))
  {
    var c := CollectTracks(p, fm, sp, genrePick);
    collected := c;
    var shuffled := Shuffled(c, finalPick);
    r := SliceTo(shuffled, TrackCount(p));
    FinalCut(c, shuffled, TrackCount(p));
  }

  /** Every Spotify search comes back empty (no token, no network, ...). */
  ghost predicate SpotifySilent(sp: Spotify)
  {
    (forall a, n :: sp.artistTopTracks(a, n) == []) && (forall g, n :: sp.genreTracks(g, n) == [])
  }

  /** Without Spotify results there is nothing to recommend: no track is a
      candidate, whatever Last.fm says, so a result made of candidates (as
      every result of `GenRecommendations` is) is empty. */
  lemma NothingWithoutSpotify(r: seq<Track>, p: Payload, fm: LastFm, sp: Spotify)
    requires SpotifySilent(sp)
    requires forall t :: t in r ==> Candidate(t, p, fm, sp)
    ensures r == []
  {
    assert r == [] || r[0] in r;
    var similar, quota := SimilarArtists(p, fm), ArtistQuota(p, fm);
    forall t ensures !Candidate(t, p, fm, sp) {
      if similar != [] {
        NotFromSilentArtists(t, similar, sp, quota);
      }
    }
  }

  /** Without Spotify results the similar-artist layer adds nothing. */
  lemma {:induction false} SilentArtistsAddNothing(c: seq<Track>, artists: seq<string>, sp: Spotify,
                                                   quota: int, cap: int)
    requires forall a, n :: sp.artistTopTracks(a, n) == []
    ensures SimilarTake(c, artists, sp, quota, cap) == c
    decreases |artists|
  {
    if artists != [] && |c| < cap {
      assert sp.artistTopTracks(artists[0], quota) == [];
      SilentArtistsAddNothing(c, artists[1..], sp, quota, cap);
    }
  }

  /** When every Spotify search comes back empty, nothing is collected and
      the playlist is empty, whatever Last.fm answers and however the
      shuffles fall. */
  lemma SilentSpotifyEmptyPlaylist(p: Payload, fm: LastFm, sp: Spotify, genrePick: nat -> nat,
                                   finalPick: nat -> nat)
    requires SpotifySilent(sp)
    ensures Collected(p, fm, sp, genrePick) == []
    ensures SliceTo(FisherYates(Collected(p, fm, sp, genrePick), finalPick), TrackCount(p)) == []
  {
    assert SeedPool(p, sp) == [] && FallbackPool(p, sp) == [] && TopUpPool(p, sp) == [];
    assert SeedList(p, sp) == [];
    SilentArtistsAddNothing([], SimilarArtists(p, fm), sp, ArtistQuota(p, fm), TrackCount(p));
  }

  lemma NotFromSilentArtists(t: Track, artists: seq<string>, sp: Spotify, quota: int)
    requires forall a, n :: sp.artistTopTracks(a, n) == []
    ensures !FromArtists(t, artists, sp, quota)
  {
    forall k | 0 <= k < |artists| ensures t !in sp.artistTopTracks(artists[k], quota) {
      assert sp.artistTopTracks(artists[k], quota) == [];
    }
  }


  /** The exploration layer from list `c` on: without similar artists, the
      shuffled genre search taken by `UnseenUntil`; otherwise the
      similar-artist layer. */
  function Explore(c: seq<Track>, similar: seq<string>, fallback: seq<Track>, sp: Spotify,
                   quota: int, cap: int, pick: nat -> nat): seq<Track>
  {
    if similar == [] then UnseenUntil(c, FisherYates(fallback, pick), cap)
    else SimilarTake(c, similar, sp, quota, cap)
  }

  /** The genre top-up from list `c` on, which runs only while the list is
      short of `cap`. */
  function TopUp(c: seq<Track>, topUp: seq<Track>, cap: int): seq<Track>
  {
    if |c| < cap then UnseenUntil(c, topUp, cap) else c
  }

  /** recommendations.py lines 201-230: the exploration layer. Without
      similar artists, the genre search at twice the track count, shuffled,
      unseen tracks appended until the list holds `trackCount`; otherwise the
      similar artists' top tracks. */
  method Exploration(collected: seq<Track>, seen: set<string>, similar: seq<string>,
                     fallback: seq<Track>, sp: Spotify, quota: int, trackCount: int,
                     genrePick: nat -> nat)
    returns (c: seq<Track>, s: set<string>)
    requires seen == Uris(collected) && NoDuplicateUris(collected)
    ensures c == Explore(collected, similar, fallback, sp, quota, trackCount, genrePick)
    ensures s == Uris(c) && NoDuplicateUris(c)
    ensures |collected| <= |c| && c[..|collected|] == collected
    ensures forall k :: |collected| <= k < |c| ==> Explored(c[k], similar, quota, sp, fallback)
    ensures |c| < trackCount ==> forall t :: Explored(t, similar, quota, sp, fallback) ==> t.uri in s
  {
    if similar == [] {
      var shuffled := Shuffled(fallback, genrePick);
      c, s := AppendUntil(collected, seen, shuffled, trackCount);
      forall t | t in shuffled ensures t in fallback {
        assert t in multiset(shuffled);
      }
      forall t | t in fallback ensures t in shuffled {
        assert t in multiset(fallback);
      }
    } else {
      c, s := SimilarLayer(collected, seen, similar, sp, quota, trackCount);
    }
  }

  /** recommendations.py lines 233-240: while the list is short of
      `trackCount`, the genre search at the track count tops it up. */
  method TopUpLayer(collected: seq<Track>, seen: set<string>, topUp: seq<Track>, trackCount: int)
    returns (c: seq<Track>, s: set<string>)
    requires seen == Uris(collected) && NoDuplicateUris(collected)
    ensures c == TopUp(collected, topUp, trackCount)
    ensures s == Uris(c) && NoDuplicateUris(c)
    ensures |collected| <= |c| && c[..|collected|] == collected
    ensures forall k :: |collected| <= k < |c| ==> c[k] in topUp
    ensures trackCount <= |collected| ==> c == collected
    ensures |collected| < trackCount ==> |c| <= trackCount
    ensures |c| < trackCount ==> Uris(collected) <= s && forall t :: t in topUp ==> t.uri in s
  {
    c, s := collected, seen;
    if |c| < trackCount {
      c, s := AppendUntil(c, s, topUp, trackCount);
      PrefixUris(collected, c);
    }
  }

  /** Every collected track comes from one of the three layers. */
  lemma LayersCandidates(seedPart: seq<Track>, explorationPart: seq<Track>, c: seq<Track>,
                         seedTracks: seq<Track>, similar: seq<string>, quota: int, sp: Spotify,
                         fallback: seq<Track>, topUp: seq<Track>)
    requires forall t :: t in seedPart ==> t in seedTracks
    requires |seedPart| <= |explorationPart| && explorationPart[..|seedPart|] == seedPart
    requires forall k :: |seedPart| <= k < |explorationPart| ==>
               Explored(explorationPart[k], similar, quota, sp, fallback)
    requires |explorationPart| <= |c| && c[..|explorationPart|] == explorationPart
    requires forall k :: |explorationPart| <= k < |c| ==> c[k] in topUp
    ensures forall t :: t in c ==>
              t in seedTracks || Explored(t, similar, quota, sp, fallback) || t in topUp
  {
    forall t | t in c ensures t in seedTracks || Explored(t, similar, quota, sp, fallback) || t in topUp {
      var k :| 0 <= k < |c| && c[k] == t;
      if k < |seedPart| {
        assert c[k] == seedPart[k];
        assert seedPart[k] in seedPart;
      } else if k < |explorationPart| {
        assert c[k] == explorationPart[k];
      }
    }
  }

  /** `shuffled[:track_count]` for a shuffle of `c`. */
  lemma FinalCut(c: seq<Track>, shuffled: seq<Track>, trackCount: int)
    requires multiset(shuffled) == multiset(c) && |shuffled| == |c|
    requires NoDuplicateUris(c) ==> NoDuplicateUris(shuffled)
    ensures var r := SliceTo(shuffled, trackCount);
      && multiset(r) <= multiset(c)
      && (forall t :: t in r ==> t in c)
      && (NoDuplicateUris(c) ==> NoDuplicateUris(r))
      && (0 <= trackCount ==> |r| == Min(trackCount, |c|))
      && (0 <= trackCount && |r| < trackCount ==> Uris(r) == Uris(c))
  {
    var r := SliceTo(shuffled, trackCount);
    assert shuffled == r + shuffled[|r|..];
    forall t | t in r ensures t in c {
      assert t in multiset(r);
      assert t in multiset(c);
    }
    if NoDuplicateUris(c) {
      PrefixKeepsNoDuplicateUris(shuffled, |r|);
    }
    if 0 <= trackCount && |r| < trackCount {
      assert r == shuffled;
      UrisOfPermutation(r, c);
    }
  }

  function Min(a: int, b: int): int { if a <= b then a else b }
}
