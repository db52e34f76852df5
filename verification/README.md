# Taste profile and recommendation engine, modelled in Dafny

This project models the engine behind the playlist generator's two helper
modules: `app/helper/lastfm_profile.py` and `app/helper/recommendations.py`.
It covers:

- **The tag classifier** (`calculate_tag_scores` with `TAG_CATEGORIES`). It scores a
  list of Last.fm tags on energy, mood, danceability and acousticness. Each
  score is the share of "high" keyword matches among all matches, or the
  neutral 0.5 when nothing matches.
- **The taste-profile builder** (`analyze_tracks_profile`). For each track it
  fetches tags, falling back to the artist's tags, and records one analysis
  per track. It pools all tags and ranks the 20 most common with
  `Counter.most_common`, ties in first-seen order. It averages the category
  scores and picks up to five genre tags.
- **The profile-driven collector** (`get_similar_tracks_by_profile`). For
  each of the first five top tags it takes up to five Last.fm artists, and
  for each artist its top three Spotify tracks. It de-duplicates by URI and
  cuts the list to `limit`.
- **The seed-artist recommender** (`gen_recommendations`). It reads the
  request payload and computes the artist and track quotas from the
  `variety` and `discovery` sliders. It then collects in layers:
  1. the seed artist's top tracks, until enough of them are by the seed artist;
  2. the top tracks of similar artists, or a shuffled genre search when
     Last.fm knows no similar artist;
  3. a genre top-up while the list is short.

  Finally it shuffles the list and cuts it to the requested count.

Every network call is an oracle: a total function-typed field of the
`Catalog.LastFm` or `Catalog.Spotify` datatype. It may return any sequence,
and the empty sequence stands for every failure (missing key, HTTP error,
timeout, malformed JSON).

`random.shuffle` is CPython's Fisher–Yates from the back, on an array. The
choice `_randbelow(i + 1)` is supplied as `pick(i) % (i + 1)` for a
caller-given `pick`.

The code is modelled in its own form:

- The loops of `analyze_tracks_profile`, `get_similar_tracks_by_profile` and
  `gen_recommendations` are methods with loop invariants. Each method's
  result is proved equal to a recursive function that reads the input in
  the loop's order and takes the same branches (`Collect.Unseen`,
  `Collect.UnseenUntil`, `Recommendations.SeedTake`,
  `Recommendations.SimilarTake`, `Profile.ArtistsTake`, `Profile.TagsTake`,
  `Recommendations.Collected`, `Collect.FisherYates`). Lemmas about those
  functions then state what the result contains.
- The classifier, the ranking and the quota arithmetic are functions with
  lemmas.

The modules are:

| module | file | contents |
|---|---|---|
| `Text` | `text.dfy` | `in`, `strip`, `lower` on strings |
| `TagScores` | `tag_scores.dfy` | the classifier |
| `TopTags` | `top_tags.dfy` | `Counter` and `most_common` |
| `Catalog` | `catalog.dfy` | tracks, the oracles, URI sets, Python slices |
| `Collect` | `collect.dfy` | the shared "append if the URI is unseen" loops and the shuffle |
| `Quota` | `quota.dfy` | slider arithmetic |
| `Profile` | `profile.dfy` | profile builder and profile collector |
| `Recommendations` | `recommendations.dfy` | `gen_recommendations` |

### Averaging

The filter `if t['scores']` (lastfm_profile.py line 172) never leaves a
track out. `calculate_tag_scores` always returns all four categories, so
every analysis has a non-empty score map, and a track without tags takes
part in the average with 0.5 in every category.
`Profile.FilterKeepsEveryTrack` and `Profile.AverageOverAllTracks` state
this.

### Arithmetic

Scores are exact `real`s.

The seed-artist ratio `max(0.1, 1 - discovery / 10)` is kept exact, as
`max(1, 10 - discovery)` tenths. Python's `int()` truncates toward zero, and
`//` on a positive divisor rounds down. Both are written out explicitly
(`Quota.TruncDiv`, `Quota.FloorDiv`).

Python's `xs[:k]` is modelled for negative `k` as well. A negative `k`
drops elements from the end, and `track-count` comes straight from the
request.

## Model

| member | source | states |
|---|---|---|
| Text.Strip | app/helper/recommendations.py:175 | `str.strip()`: the result is the input without its maximal leading and trailing runs of whitespace. It starts and ends with a non-space, and it is empty exactly when the input is all whitespace. |
| Text.Lower | app/helper/recommendations.py:198 | `str.lower()` on ASCII: same length; no upper-case ASCII letter is left; each upper-case letter becomes the lower-case letter at the same place in the alphabet; every other character is unchanged. |
| Text.LowerIdempotent | app/helper/recommendations.py:198 | Lower-casing twice gives the same as lower-casing once. |
| TagScores.CategoriesComplete | app/helper/lastfm_profile.py:7-24 | Every category of the table (energy, mood, danceability, acousticness) is among the four the classifier iterates. The table's keyword lists are `HighKeywords` and `LowKeywords`. |
| TagScores.CountMatching | app/helper/lastfm_profile.py:100-101 | The number of tags containing some keyword is at most the number of tags. It is 0 exactly when no tag contains a keyword, and equal to the tag count exactly when every tag does. |
| TagScores.CountIsMatchingPositions | app/helper/lastfm_profile.py:100-101 | The count equals the number of positions whose tag matches. A tag counts once per side, however many keywords of that side it contains. |
| TagScores.Share | app/helper/lastfm_profile.py:103-108 | `high / (high + low)`, or 0.5 without matches, lies in [0, 1]. It is 0.5 iff high == low, above 0.5 iff high > low, 1 iff only high matches, and 0 iff only low matches. |
| TagScores.CategoryScore | app/helper/lastfm_profile.py:100-108 | One category's score lies in [0, 1] and relates to that category's high and low counts by the same five equivalences. |
| TagScores.CalculateTagScores | app/helper/lastfm_profile.py:92-110 | The result has a score for each of the four categories; each score lies in [0, 1] and is that category's score. |
| TagScores.UnmatchedCategoryIsNeutral | app/helper/lastfm_profile.py:107-108 | A category whose keywords (high and low) occur in no tag scores exactly 0.5. |
| TagScores.NoTagsAreNeutral | app/helper/lastfm_profile.py:107-108 | The empty tag list scores 0.5 in every category. |
| TagScores.OneTagCountsOnBothSides | app/helper/lastfm_profile.py:100-101 | With the danceability lists of the table (lines 16-17), "slow dance" counts once as high ("dance") and once as low ("slow"), which gives 0.5. |
| TopTags.Distinct | app/helper/lastfm_profile.py:166 | The keys of `Counter(all_tags)` are exactly the tags that occur, without repetition, in order of first occurrence. |
| TopTags.Counted | app/helper/lastfm_profile.py:166 | `Counter(...).items()`: an entry is in the result iff its tag occurs and its count is the tag's number of occurrences. No tag appears twice, and tags come in order of first occurrence. |
| TopTags.SortByCount | app/helper/lastfm_profile.py:167 | The stable sort by count yields a permutation of its input. |
| TopTags.InsertRanked | app/helper/lastfm_profile.py:167 | Inserting an entry that was first seen after all the others into a ranked list keeps it ranked. Ranked means counts never increase and equal counts stay in first-seen order. |
| TopTags.SortRanked | app/helper/lastfm_profile.py:167 | Sorting entries given in first-seen order yields a ranked list. |
| TopTags.MostCommon | app/helper/lastfm_profile.py:167 | `most_common(n)` has min(n, number of distinct tags) entries. |
| TopTags.MostCommonRanked | app/helper/lastfm_profile.py:167 | `most_common(n)` is ranked: counts never increase, and ties are in first-seen order. |
| TopTags.MostCommonCounts | app/helper/lastfm_profile.py:166-167 | Every entry of `most_common(n)` is a pooled tag, and its count is that tag's multiplicity, at least 1. No tag appears twice. |
| TopTags.MostCommonComplete | app/helper/lastfm_profile.py:167 | A pooled tag left out of `most_common(n)` means the list is full, and its last entry ranks before the tag: a higher count, or the same count and an earlier first occurrence. |
| TopTags.NoTagsNoTopTags | app/helper/lastfm_profile.py:166-167 | No pooled tags give no top tags. |
| Catalog.PrefixKeepsNoDuplicateUris | app/helper/recommendations.py:245 | Cutting a list free of duplicate URIs keeps it free of them. |
| Collect.AppendFresh | app/helper/recommendations.py:195-197 | Appending a track whose URI is not in `seen_uris`, then adding the URI, keeps `seen_uris` equal to the list's URIs and the list free of duplicates. |
| Collect.UnseenExtends | app/helper/lastfm_profile.py:211-214 | `Unseen` (append every track whose URI is not yet in the list, in order) keeps the old list as a prefix, adds at most one track per track read, and adds only tracks it read. |
| Collect.UnseenDistinct | app/helper/lastfm_profile.py:211-214 | `Unseen` keeps URIs unique, and its result's URIs are the old list's URIs plus every URI read. |
| Collect.UnseenUntilExtends | app/helper/recommendations.py:208-213 | `UnseenUntil` (as `Unseen`, but stopping right after an append that reaches the cap) keeps the old list as a prefix and adds only tracks it read. It never passes the cap when it started below it, and adds at most one track when it started at or above it. |
| Collect.UnseenUntilDistinct | app/helper/recommendations.py:208-213 | `UnseenUntil` keeps URIs unique; when it ends below the cap, its URIs are the old list's plus every URI read. |
| Collect.AppendUnseen | app/helper/lastfm_profile.py:211-214 | The loop's list is exactly `Unseen` of the old list and the tracks, next to the set of its URIs. It stays duplicate-free, extends the old one only with given tracks, and afterwards every given track's URI is seen. |
| Collect.AppendUntil | app/helper/recommendations.py:208-213 | The loop's list is exactly `UnseenUntil` of the old list, the tracks and the cap, next to the set of its URIs. It stays duplicate-free and extends the old one only with given tracks. It never passes the cap when it started below it, and grows by at most one when it started at or above it. While it is below the cap, every given track's URI is seen. |
| Collect.ShuffleDownPermutes | app/helper/recommendations.py:243 | The Fisher–Yates passes from the back (`FisherYates`, one swap of position i − 1 with `pick(i − 1) % i` per step) keep the length and the multiset, and keep URIs unique. |
| Collect.Shuffle | app/helper/recommendations.py:243 | `random.shuffle` on an array leaves exactly `FisherYates` of the old contents: a permutation that keeps URIs unique. |
| Collect.Shuffled | app/helper/recommendations.py:207 | Shuffling a list gives exactly `FisherYates` of it: a permutation of the same length, still free of duplicate URIs when it was. |
| Quota.TruncDiv | app/helper/recommendations.py:189 | `int(a / b)` for b > 0 truncates toward zero: the remainder has the sign of `a` and is smaller than `b` in size. |
| Quota.FloorDiv | app/helper/recommendations.py:216 | `a // b` for b > 0 rounds down: 0 ≤ a − b·q < b. |
| Quota.NumSimilarArtists | app/helper/recommendations.py:184 | `max(2, variety)` is at least 2 and at least `variety`, and is one of the two. |
| Quota.SeedRatioTenths | app/helper/recommendations.py:188 | The ratio in tenths is at least 1 (the 0.1 floor). It is 10 − discovery up to discovery 9 and 1 from there on. |
| Quota.SeedTarget | app/helper/recommendations.py:189 | The seed target n is at least 1. With p = track count × tenths and a track count ≥ 0: 10·n ≤ max(10, p) < 10·(n + 1), so n is max(1, ⌊p / 10⌋). A negative track count gives 1. |
| Quota.SimilarTarget | app/helper/recommendations.py:190 | The seed target plus the similar target is the track count. |
| Quota.PerArtistQuota | app/helper/recommendations.py:216 | `tracks_per_artist` is at least 2. The artists together can cover the similar target, with at most one spare track each beyond max(n, target), for every target including a negative one (so a target below the number of artists n gives exactly 2). |
| Quota.FlooredRatio | app/helper/recommendations.py:188-189 | From discovery 9 on, the seed target is `max(1, int(track_count / 10))`. |
| Quota.SeedTargetWithinCount | app/helper/recommendations.py:188-190 | For a track count ≥ 1 and discovery ≥ 0: 1 ≤ seed target ≤ track count, and 0 ≤ similar target < track count. |
| Quota.SeedTargetMonotone | app/helper/recommendations.py:186-189 | More discovery never gives the seed artist more tracks. |
| Profile.Take | app/helper/lastfm_profile.py:161 | `xs[:n]` for n ≥ 0 is the prefix of length min(n, \|xs\|). |
| Profile.AnalysesPerTrack | app/helper/lastfm_profile.py:144-163 | The analyses list has one entry per track, in track order, each the analysis of that track. |
| Profile.ArtistTagsOnlyAsFallback | app/helper/lastfm_profile.py:150-154 | With `PrimaryArtist` (the first artist's name or '', line 147) and `TagsFor` (the track's tags, else the artist's): an artist's tags are requested iff the artist is non-empty and some track credited first to it has no track-level tags. |
| Profile.AnalysisSample | app/helper/lastfm_profile.py:145-163 | An analysis keeps the track name and `PrimaryArtist` (line 147), and samples at most five of the tags, the first ones (all of them when there are at most five). |
| Profile.AnalysisScores | app/helper/lastfm_profile.py:162 | An analysis scores all four categories, each with the track's category score, in [0, 1]. |
| Profile.MeanBounds | app/helper/lastfm_profile.py:173 | `Mean` (sum over length, 0.5 for no values) of values in [0, 1] lies in [0, 1]; an empty list gives 0.5. |
| Profile.MeanOfHalves | app/helper/lastfm_profile.py:173 | The mean of neutral scores is neutral. |
| Profile.AverageScores | app/helper/lastfm_profile.py:170-173 | `avg_scores` has an entry for each of the four categories. |
| Profile.FilterKeepsEveryTrack | app/helper/lastfm_profile.py:172 | `ScoreColumn` is the comprehension with the `if t['scores']` filter. When every analysis carries the four scores, the filter keeps every track: each column has one entry per track, that track's score. |
| Profile.AverageScoresBounded | app/helper/lastfm_profile.py:171-173 | The averaged scores lie in [0, 1] when the per-track scores do. |
| Profile.NoTracksNeutral | app/helper/lastfm_profile.py:173 | With no tracks every averaged score is 0.5. |
| Profile.AverageOverAllTracks | app/helper/lastfm_profile.py:171-173 | For a non-empty track list, a category's average is the plain mean over all tracks of that track's category score. Tracks without tags take part with 0.5. |
| Profile.GenreFilterSpec | app/helper/lastfm_profile.py:179 | `GenreFilter` (before the `[:5]`) keeps, in order, exactly the top-tag names that contain a genre keyword. |
| Profile.GenreTags | app/helper/lastfm_profile.py:179 | At most five genres. |
| Profile.GenreTagsSpec | app/helper/lastfm_profile.py:176-179 | The genres are an order-preserving selection of the top-tag names, at most five, each containing a genre keyword. When fewer than five are kept, none was left out. When five are kept, they are the first five of `GenreFilter`. |
| Profile.AnalyzeTracksProfile | app/helper/lastfm_profile.py:136-187 | `track_count` is the number of tracks, with one analysis per track in order. The top tags are `most_common(20)` of the pooled tags (at most 20). The scores are the averages of the analyses, each in [0, 1]. The genres are derived from the top tags. The Last.fm calls made are exactly the per-track requests: track tags, then artist tags as the fallback. |
| Profile.NoTagsNeutralProfile | app/helper/lastfm_profile.py:141-179 | When Last.fm has no tags for any track, there are no top tags and no genres, and every averaged score is 0.5. |
| Profile.ArtistsTakeExtends | app/helper/lastfm_profile.py:206-214 | `ArtistsTake` (for each artist in turn, unless the list holds `limit` tracks, `Unseen` of its top 3) keeps the old list as a prefix, adds only top-3 tracks of those artists, and leaves a full list alone. |
| Profile.ArtistsTakeDistinct | app/helper/lastfm_profile.py:206-214 | `ArtistsTake` keeps URIs unique; when it ends below `limit`, every top-3 track of every artist has its URI in the list. |
| Profile.ArtistsLayer | app/helper/lastfm_profile.py:206-214 | The loop's list is exactly `ArtistsTake` of the old list, next to the set of its URIs. It stays duplicate-free and grows only by top-3 tracks of those artists. It is left alone when already at `limit`. While it stays below `limit`, every such track's URI is seen. |
| Profile.SimilarTracksByProfile | app/helper/lastfm_profile.py:190-216 | The result is exactly `TagsTake` over the first five tags (tag by tag, each tag's `ArtistsTake`), cut to `limit`. It is duplicate-free, has at most `limit` tracks (none for limit ≤ 0), and consists of top-3 tracks of artists of the first five tags. When it falls short of `limit`, every such track's URI is in it. |
| Profile.CutToLimit | app/helper/lastfm_profile.py:216 | `collected_tracks[:limit]` (`Catalog.SliceTo`) keeps the collected list's guarantees and is at most `limit` long. |
| Recommendations.SliderValue | app/helper/recommendations.py:172-173 | `payload.get(key, payload.get(legacy, 5))`: the current key wins, then the legacy key, then 5. |
| Recommendations.SeedArtistName | app/helper/recommendations.py:175-178 | The seed artist is the stripped payload name, or "Rage Against The Machine" when that is blank. Either way it is non-empty and has no surrounding whitespace. |
| Recommendations.SeedCountAppend | app/helper/recommendations.py:198 | `SeedCount` counts the tracks some artist of which has the seed name, ignoring case. Appending a track raises it by one exactly when the track is by the seed artist. |
| Recommendations.SeedTakeExtends | app/helper/recommendations.py:193-199 | `SeedTake` (append unseen seed tracks in order, stopping right after the append that brings the seed-artist count to the target) keeps the old list as a prefix and adds only seed tracks. |
| Recommendations.SeedTakeDistinct | app/helper/recommendations.py:193-199 | `SeedTake` keeps URIs unique; while the count stays below the target, it has read every seed track and holds all their URIs. |
| Recommendations.SeedTakeCount | app/helper/recommendations.py:193-199 | From a list below the target, `SeedTake` never takes the seed-artist count past the target (or 1); a target ≤ 0 admits one track; once the target is met, the last track is the seed artist's. |
| Recommendations.SeedLoop | app/helper/recommendations.py:193-199 | The seed loop's list is exactly `SeedTake` from the empty list, next to the set of its URIs. |
| Recommendations.SeedLayer | app/helper/recommendations.py:193-199 | The seed layer's list is exactly `SeedTake` from the empty list. It is duplicate-free and drawn from the seed artist's tracks. The seed-artist count never passes the target (or 1). No track is appended once the target is reached: the last track is the seed artist's when the target is met, and a target ≤ 0 admits one track. Below the target, every seed track was read. |
| Recommendations.StopsRightAfterTarget | app/helper/recommendations.py:198-199 | What SeedLayer promises means that the count was below the target before the last append. |
| Recommendations.SimilarTakeExtends | app/helper/recommendations.py:216-230 | `SimilarTake` (for each artist, unless the list is full, `UnseenUntil` of its top tracks) keeps the old list as a prefix and adds only those artists' top tracks. It never takes a list below `track_count` past it, and leaves a full list alone. |
| Recommendations.SimilarTakeDistinct | app/helper/recommendations.py:216-230 | `SimilarTake` keeps URIs unique; when it ends short of `track_count`, every top track of every similar artist has its URI in the list. |
| Recommendations.SimilarLayer | app/helper/recommendations.py:216-230 | The similar-artist loop's list is exactly `SimilarTake` of the old list. It extends the list, duplicate-free, with the artists' top tracks, `tracks_per_artist` each. It stops at `track_count` and adds nothing to a full list. While it stays short, every such track's URI is seen. |
| Recommendations.SilentArtistsAddNothing | app/helper/recommendations.py:216-230 | When Spotify returns no top tracks for any artist, `SimilarTake` leaves the list unchanged. |
| Recommendations.Exploration | app/helper/recommendations.py:201-230 | The second layer's list is exactly `Explore`: `UnseenUntil` of the shuffled genre search without similar artists, `SimilarTake` otherwise. It appends only those tracks and stays duplicate-free. While it stays short of `track_count`, every such track's URI is seen. |
| Recommendations.TopUpLayer | app/helper/recommendations.py:233-240 | The top-up's list is exactly `TopUp`: `UnseenUntil` of the genre search when the list is short of `track_count`, the list itself otherwise. It never takes a short list past `track_count` and appends only genre-search tracks, duplicate-free. When the list is still short afterwards, every top-up track's URI is seen and no earlier URI was lost. |
| Recommendations.LayersCandidates | app/helper/recommendations.py:192-240 | Every collected track comes from the seed artist's tracks, the second layer or the genre top-up. |
| Recommendations.CollectLayers | app/helper/recommendations.py:192-240 | The three layers in sequence give exactly `TopUp(Explore(SeedTake(...)))` of the searches' results, with the seed layer as a prefix. The list is duplicate-free, each track comes from one of the three searches, and when it is short of `track_count` every exploration and top-up track is in it by URI. |
| Recommendations.CollectTracks | app/helper/recommendations.py:171-240 | The list collected before the final shuffle is exactly `Collected` of the request, built from the payload defaults `TrackCount` (10, line 171), `Variety` and `Discovery` (5 unless a current or legacy key is given, lines 172-173) and `SeedGenre` ("rock", line 174), and from exactly these outside calls and limits: `SeedPool`, the seed artist's top tracks with limit seed target + 3 (line 193); `SimilarArtists`, Last.fm's similar artists with limit max(2, variety) (line 202); `FallbackPool`, the genre search with limit track_count·2 (line 206); each similar artist's top tracks with limit `ArtistQuota`, the per-artist quota of line 216 (line 223); and `TopUpPool`, the genre search with limit track_count (line 234). with `SeedList` (the seed layer) as its prefix. It is duplicate-free, and each of its tracks is a candidate: a seed-artist track, an exploration track or a top-up track. When it is short of track_count, every exploration and top-up track is in it by URI. |
| Recommendations.FinalCut | app/helper/recommendations.py:243-245 | `shuffled[:track_count]` (`Catalog.SliceTo`, with negative counts cutting from the end) is a sub-multiset of the collected tracks and is duplicate-free. For a non-negative track_count it has min(track_count, collected) tracks, and when it falls short it has all the collected URIs. |
| Recommendations.GenRecommendations | app/helper/recommendations.py:159-245 | The recommendations are exactly the first track_count tracks of `FisherYates(Collected(...), finalPick)`. They are duplicate-free, drawn from the collected list (a sub-multiset), each a candidate of one of the three layers. For a non-negative track_count there are min(track_count, collected) tracks, and when they fall short every collected URI and every track of the second layer and of the top-up is among them by URI. |
| Recommendations.NothingWithoutSpotify | app/helper/recommendations.py:193-240 | When every Spotify search returns nothing, no track is a candidate, so a list of candidates is empty. |
| Recommendations.SilentSpotifyEmptyPlaylist | app/helper/recommendations.py:193-245 | When every Spotify search returns nothing, nothing is collected and the playlist is empty, whatever Last.fm answers and however the shuffles fall. |

## Left out

- The HTTP helpers are not part of this model: the Last.fm and Spotify calls at lastfm_profile.py 27-89 and 219-245, and recommendations.py 6-156. Each is an oracle returning an arbitrary sequence. The `limit` arguments are passed on, but the model does not rely on them bounding the result.
- `get_user_top_tracks`, the Flask routes, the OAuth token handling, `create_playlist.py`, `figures.py` and `config.py` are not part of this model. They are I/O and presentation.
- IEEE floating point. Scores and the discovery ratio are exact. For discovery between 0 and 10 and track counts up to 1000, Python's float seed target differs from the exact one only at discovery 3 and 8, where it is one lower. At discovery 8 (`1 - 8 / 10` is slightly below 0.2) this happens for every multiple of 5 from 10 on: 10 tracks give 1 instead of 2, while 5 tracks give 1 either way. At discovery 3 (`1 - 3 / 10` is slightly below 0.7) it happens for the counts 90, 170, 180, 330 to 360 and 650 to 730 in steps of 10: 90 tracks give 62 instead of 63.
- `str.lower()` and `str.strip()` beyond ASCII letters and the Unicode whitespace code points listed in `Text.IsSpace`. Full Unicode case mapping (which can change a string's length) is not modelled.
- `int()` on the payload values. The model takes them as integers already, so a non-numeric string (Python's `ValueError`) is not modelled.
- The `seed_artist_id` and `token` parameters. The first is unused by the code, and the token is folded into the Spotify oracle.
- Tracks are always present and always carry a URI, a name and an artist list. The `if track` guards are not modelled. Neither is a track without a `'uri'` key, whose append ends in a `KeyError` at `seen_uris.add(track['uri'])` (recommendations.py lines 197, 211, 228 and 238; lastfm_profile.py line 214). Nor is an explicit `'uri': None`, which all such tracks would share.
- The real randomness of `random.shuffle`. The choices come from a caller-supplied `pick`.
- The order of the oracle calls in `gen_recommendations`. All the searches are evaluated before the layers run. Oracles are pure, so only the number of calls differs: the model also evaluates searches the code would skip.
