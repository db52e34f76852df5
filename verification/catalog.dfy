/** Tracks and the two outside services the engine reads from. Each service
    call is an oracle: a total function that may return any sequence, the
    empty one standing for every failure (missing API key, HTTP error,
    timeout, malformed JSON). */
module Catalog {

  /** A Spotify track as the engine reads it: its URI (the identity used for
      de-duplication), its name and the names of its artists, in order. */
  datatype Track = Track(uri: string, name: string, artists: seq<string>)

  /** Last.fm: tag and similarity lookups. */
  datatype LastFm = LastFm(
    /** `get_track_tags_lastfm(track_name, artist_name)` */
    trackTags: (string, string) -> seq<string>,
    /** `get_artist_tags_lastfm(artist_name)` */
    artistTags: string -> seq<string>,
    /** `get_artists_by_tag(tag, limit)` */
    artistsForTag: (string, int) -> seq<string>,
    /** `get_similar_artists_lastfm(artist_name, limit)` */
    similarArtists: (string, int) -> seq<string>)

  /** Spotify search, under the caller's bearer token. */
  datatype Spotify = Spotify(
    /** `search_artist_top_tracks_spotify(artist_name, token, limit)` */
    artistTopTracks: (string, int) -> seq<Track>,
    /** `search_by_genre_spotify(genre, token, limit)` */
    genreTracks: (string, int) -> seq<Track>)

  /** `t` is among the top tracks Spotify returns, with a per-artist limit of
      `quota`, for one of `artists`. */
  ghost predicate FromArtists(t: Track, artists: seq<string>, sp: Spotify, quota: int)
  {
    exists k :: 0 <= k < |artists| && t in sp.artistTopTracks(artists[k], quota)
  }

  /** The set of URIs of `s`: what `seen_uris` holds next to a track list. */
  function Uris(s: seq<Track>): set<string>
  {
    set t | t in s :: t.uri
  }

  /** No two tracks of `s` share a URI. */
  predicate NoDuplicateUris(s: seq<Track>)
  {
    forall i, j :: 0 <= i < j < |s| ==> s[i].uri != s[j].uri
  }

  /** Python's `xs[:k]`, where a negative `k` counts from the end. */
  function SliceTo<T>(xs: seq<T>, k: int): (r: seq<T>)
    ensures |r| == if 0 <= k then (if k < |xs| then k else |xs|)
                   else (if |xs| + k > 0 then |xs| + k else 0)
    ensures r == xs[..|r|]
  {
    if 0 <= k then xs[..if k < |xs| then k else |xs|]
    else xs[..if |xs| + k > 0 then |xs| + k else 0]
  }

  lemma PrefixKeepsNoDuplicateUris(s: seq<Track>, n: nat)
    requires n <= |s| && NoDuplicateUris(s)
    ensures NoDuplicateUris(s[..n])
  {
  }
}
