/** The quota arithmetic of `gen_recommendations`: how many similar artists
    to ask for, how the requested track count is split between the seed
    artist and the similar artists, and how many tracks to take per similar
    artist. The ratio `max(0.1, 1 - discovery / 10)` is computed exactly, as
    `max(1, 10 - discovery)` tenths. */
module Quota {

  function Max(a: int, b: int): int { if a >= b then a else b }

  /** Python's `int(a / b)` for `b > 0`: the quotient truncated toward zero. */
  function TruncDiv(a: int, b: int): (q: int)
    requires b > 0
    ensures 0 <= a ==> 0 <= a - b * q < b
    ensures a < 0 ==> -b < a - b * q <= 0
  {
    if a >= 0 then a / b else -((-a) / b)
  }

  /** Python's `a // b` for `b > 0`: the quotient rounded down. */
  function FloorDiv(a: int, b: int): (q: int)
    requires b > 0
    ensures 0 <= a - b * q < b
  {
    a / b
  }

  /** How many similar artists are asked for: the variety, but at least two. */
  function NumSimilarArtists(variety: int): (n: int)
    ensures n >= 2 && n >= variety
    ensures n == 2 || n == variety
  {
    Max(2, variety)
  }

  /** The seed artist's share of the tracks, in tenths: `max(0.1, 1 - discovery / 10)`
      is this value divided by 10. */
  function SeedRatioTenths(discovery: int): (t: int)
    ensures t >= 1
    ensures discovery <= 9 ==> t == 10 - discovery
    ensures discovery >= 9 ==> t == 1
  {
    Max(1, 10 - discovery)
  }

  /** The seed artist's track target: the track count times the seed ratio,
      truncated, and at least one. For a non-negative track count it is the
      number of whole tens in the count times the ratio's tenths (one when
      there is less than one ten); a negative count gives one. */
  function SeedTarget(trackCount: int, discovery: int): (n: int)
    ensures n >= 1
    ensures 0 <= trackCount ==> 10 * n <= Max(10, trackCount * SeedRatioTenths(discovery))
    ensures 0 <= trackCount ==> Max(10, trackCount * SeedRatioTenths(discovery)) < 10 * (n + 1)
    ensures trackCount < 0 ==> n == 1
  {
    var t := SeedRatioTenths(discovery);
    assert trackCount < 0 ==> trackCount * t < 0;
    Max(1, TruncDiv(trackCount * t, 10))
  }

  /** The similar artists' track target: whatever the seed artist's target
      leaves of the track count. */
  function SimilarTarget(trackCount: int, discovery: int): (n: int)
    ensures n + SeedTarget(trackCount, discovery) == trackCount
  {
    trackCount - SeedTarget(trackCount, discovery)
  }

  /** Tracks asked for per similar artist: the similar-artist target shared
      out evenly (rounded down, at least one), plus one spare. That is at
      least 2, and enough that the similar artists together could cover the
      similar-artist target, without asking for more than one spare track each. */
  function PerArtistQuota(similarTarget: int, numArtists: int): (q: int)
    requires numArtists > 0
    ensures q >= 2
    ensures numArtists * (q - 1) <= Max(numArtists, similarTarget)
    ensures similarTarget < numArtists * q
  {
    Max(1, FloorDiv(similarTarget, numArtists)) + 1
  }

  /** The ratio is floored at 0.1: from discovery 9 on, the seed artist gets a
      tenth of the tracks, rounded down, and at least one. */
  lemma FlooredRatio(trackCount: int, discovery: int)
    requires discovery >= 9
    ensures SeedTarget(trackCount, discovery) == Max(1, TruncDiv(trackCount, 10))
  {
  }

  /** For a usable track count and discovery in the slider's range the seed
      target never exceeds the track count, so the similar-artist target is
      never negative. */
  lemma {:induction false} SeedTargetWithinCount(trackCount: int, discovery: int)
    requires trackCount >= 1 && discovery >= 0
    ensures 1 <= SeedTarget(trackCount, discovery) <= trackCount
    ensures 0 <= SimilarTarget(trackCount, discovery) < trackCount
  {
    var t := SeedRatioTenths(discovery);
    assert t <= 10;
    assert trackCount * t <= trackCount * 10;
  }

  /** More discovery never gives the seed artist more tracks. */
  lemma {:induction false} SeedTargetMonotone(trackCount: int, d1: int, d2: int)
    requires trackCount >= 0 && d1 <= d2
    ensures SeedTarget(trackCount, d2) <= SeedTarget(trackCount, d1)
  {
    var t1 := SeedRatioTenths(d1);
    var t2 := SeedRatioTenths(d2);
    assert t2 <= t1;
    assert trackCount * t2 <= trackCount * t1;
    var p1 := trackCount * t1;
    var p2 := trackCount * t2;
    assert TruncDiv(p2, 10) <= TruncDiv(p1, 10);
  }
}
