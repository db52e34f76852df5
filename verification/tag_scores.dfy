/** The tag classifier: a fixed keyword table that turns a list of lower-case
    community tags into four category scores between 0 and 1. */
module TagScores {
  import opened Text

  datatype Category = Energy | Mood | Danceability | Acousticness

  /** The four keys of the classifier's result, in the table's order. */
  const Categories: seq<Category> := [Energy, Mood, Danceability, Acousticness]

  /** `Categories` lists every category. */
  lemma CategoriesComplete()
    ensures forall c :: c in Categories
  {
    forall c: Category ensures c in Categories {
      match c
      case Energy => assert Categories[0] == c;
      case Mood => assert Categories[1] == c;
      case Danceability => assert Categories[2] == c;
      case Acousticness => assert Categories[3] == c;
    }
  }

  /** Keywords whose presence in a tag points to the high end of a category. */
  function HighKeywords(c: Category): seq<string>
  {
    match c
    case Energy =>
      ["energetic", "powerful", "intense", "aggressive", "heavy", "fast", "upbeat", "driving", "hard"]
    case Mood =>
      ["happy", "uplifting", "cheerful", "fun", "feel good", "joyful", "optimistic", "bright"]
    case Danceability =>
      ["dance", "danceable", "groovy", "funky", "rhythm", "beat", "club", "party", "disco"]
    case Acousticness =>
      ["acoustic", "unplugged", "folk", "singer-songwriter", "organic", "live"]
  }

  /** Keywords whose presence in a tag points to the low end of a category. */
  function LowKeywords(c: Category): seq<string>
  {
    match c
    case Energy =>
      ["calm", "chill", "relaxing", "mellow", "soft", "slow", "ambient", "peaceful", "gentle"]
    case Mood =>
      ["sad", "melancholic", "dark", "depressing", "angry", "aggressive", "haunting", "moody"]
    case Danceability =>
      ["ballad", "slow", "ambient", "atmospheric", "experimental", "noise"]
    case Acousticness =>
      ["electronic", "synth", "digital", "produced", "industrial", "edm"]
  }

  /** The number of tags that contain at least one of the keywords. */
  function CountMatching(tags: seq<string>, keywords: seq<string>): (n: nat)
    ensures n <= |tags|
    ensures n == 0 <==> forall i :: 0 <= i < |tags| ==> !ContainsAny(tags[i], keywords)
    ensures n == |tags| <==> forall i :: 0 <= i < |tags| ==> ContainsAny(tags[i], keywords)
  {
    if tags == [] then 0
    else
      var init := tags[..|tags| - 1];
      assert forall i :: 0 <= i < |init| ==> init[i] == tags[i];
      CountMatching(init, keywords) + (if ContainsAny(tags[|tags| - 1], keywords) then 1 else 0)
  }

  /** The positions of `tags` holding a tag that matches one of `keywords`. */
  ghost function MatchingPositions(tags: seq<string>, keywords: seq<string>): set<int>
  {
    set i | 0 <= i < |tags| && ContainsAny(tags[i], keywords)
  }

  /** The count is the number of matching positions: every tag is counted once
      per keyword list, however many keywords of that list it contains. */
  lemma {:induction false} CountIsMatchingPositions(tags: seq<string>, keywords: seq<string>)
    ensures CountMatching(tags, keywords) == |MatchingPositions(tags, keywords)|
  {
    if tags != [] {
      var n := |tags| - 1;
      var init := tags[..n];
      CountIsMatchingPositions(init, keywords);
      var before := MatchingPositions(init, keywords);
      var after := MatchingPositions(tags, keywords);
      var hit := ContainsAny(tags[n], keywords);
      forall i ensures i in after <==> i in before || (hit && i == n) {
        if 0 <= i < n {
          assert init[i] == tags[i];
        }
      }
      if hit {
        assert after == before + {n};
        assert n !in before;
      } else {
        assert after == before;
      }
    }
  }

  function HighCount(tags: seq<string>, c: Category): nat
  {
    CountMatching(tags, HighKeywords(c))
  }

  function LowCount(tags: seq<string>, c: Category): nat
  {
    CountMatching(tags, LowKeywords(c))
  }

  /** `high / (high + low)`, or the neutral 0.5 when both are 0. */
  function Share(high: nat, low: nat): (r: real)
    ensures 0.0 <= r <= 1.0
    ensures r == 0.5 <==> high == low
    ensures r > 0.5 <==> high > low
    ensures r == 1.0 <==> high > 0 && low == 0
    ensures r == 0.0 <==> low > 0 && high == 0
  {
    var total := high + low;
    if total > 0 then
      ShareBounds(high, low);
      high as real / total as real
    else 0.5
  }

  lemma ShareBounds(high: nat, low: nat)
    requires high + low > 0
    ensures var r := high as real / (high + low) as real;
      && 0.0 <= r <= 1.0
      && (r == 0.5 <==> high == low)
      && (r > 0.5 <==> high > low)
      && (r == 1.0 <==> high > 0 && low == 0)
      && (r == 0.0 <==> low > 0 && high == 0)
  {
    var h, l := high as real, low as real;
    var t := (high + low) as real;
    assert t == h + l && t > 0.0;
    var r := h / t;
    var p := r * t;
    assert p == h;
    var a, b := r - 0.5, r - 1.0;
    ProductSign(r, t);
    ProductSign(a, t);
    ProductSign(b, t);
    Distributes(r, 0.5, t);
    Distributes(r, 1.0, t);
    var q, u := a * t, b * t;
    assert q == p - 0.5 * t;
    assert u == p - t;
    ShareCases(h, l, r, a, b, p, q, u);
  }

  lemma Distributes(a: real, c: real, b: real)
    ensures (a - c) * b == a * b - c * b
  {
  }

  /** The case analysis behind `Share`, with `a == r - 0.5`, `b == r - 1`
      and the products `r * t`, `a * t` and `b * t` (for `t == h + l`) given
      as plain values so that only linear reasoning is left. */
  lemma ShareCases(h: real, l: real, r: real, a: real, b: real, p: real, q: real, u: real)
    requires h >= 0.0 && l >= 0.0 && h + l > 0.0
    requires a == r - 0.5 && b == r - 1.0
    requires p == h && q == h - 0.5 * (h + l) && u == h - (h + l)
    requires (r > 0.0 ==> p > 0.0) && (r == 0.0 ==> p == 0.0) && (r < 0.0 ==> p < 0.0)
    requires (a > 0.0 ==> q > 0.0) && (a == 0.0 ==> q == 0.0) && (a < 0.0 ==> q < 0.0)
    requires (b > 0.0 ==> u > 0.0) && (b == 0.0 ==> u == 0.0) && (b < 0.0 ==> u < 0.0)
    ensures 0.0 <= r <= 1.0
    ensures r == 0.5 <==> h == l
    ensures r > 0.5 <==> h > l
    ensures r == 1.0 <==> h > 0.0 && l == 0.0
    ensures r == 0.0 <==> l > 0.0 && h == 0.0
  {
  }

  /** The sign of `a * b` for a positive `b` is the sign of `a`. */
  lemma ProductSign(a: real, b: real)
    requires b > 0.0
    ensures a > 0.0 ==> a * b > 0.0
    ensures a == 0.0 ==> a * b == 0.0
    ensures a < 0.0 ==> a * b < 0.0
  {
  }

  /** One category's score: the share of high matches among all matches, or
      the neutral 0.5 when nothing matches. */
  function CategoryScore(tags: seq<string>, c: Category): (r: real)
    ensures 0.0 <= r <= 1.0
    ensures r == 0.5 <==> HighCount(tags, c) == LowCount(tags, c)
    ensures r > 0.5 <==> HighCount(tags, c) > LowCount(tags, c)
    ensures r == 1.0 <==> HighCount(tags, c) > 0 && LowCount(tags, c) == 0
    ensures r == 0.0 <==> LowCount(tags, c) > 0 && HighCount(tags, c) == 0
  {
    Share(HighCount(tags, c), LowCount(tags, c))
  }

  /** `calculate_tag_scores(tags)`: one score for each of the four categories. */
  function CalculateTagScores(tags: seq<string>): (scores: map<Category, real>)
    ensures forall c :: c in scores
    ensures forall c :: c in scores ==> 0.0 <= scores[c] <= 1.0
    ensures forall c :: c in scores ==> scores[c] == CategoryScore(tags, c)
  {
    CategoriesComplete();
    map c | c in Categories :: CategoryScore(tags, c)
  }

  /** A category that no tag matches, on either side, scores exactly 0.5. */
  lemma UnmatchedCategoryIsNeutral(tags: seq<string>, c: Category)
    requires forall i :: 0 <= i < |tags| ==>
               !ContainsAny(tags[i], HighKeywords(c)) && !ContainsAny(tags[i], LowKeywords(c))
    ensures CalculateTagScores(tags)[c] == 0.5
  {
  }

  /** The empty tag list scores 0.5 in every category. */
  lemma NoTagsAreNeutral()
    ensures forall c :: c in CalculateTagScores([]) ==> CalculateTagScores([])[c] == 0.5
  {
  }

  /** The high and the low count are taken independently: the single tag
      "slow dance" counts once as high ("dance") and once as low ("slow") for
      danceability, which therefore scores 0.5 although the tag matched. */
  lemma OneTagCountsOnBothSides()
    ensures HighCount(["slow dance"], Danceability) == 1
    ensures LowCount(["slow dance"], Danceability) == 1
    ensures CalculateTagScores(["slow dance"])[Danceability] == 0.5
  {
    var tag := "slow dance";
    assert OccursAt(tag, "dance", 5);
    assert ContainsAny(tag, HighKeywords(Danceability)) by {
      assert HighKeywords(Danceability)[0] == "dance";
    }
    assert OccursAt(tag, "slow", 0);
    assert ContainsAny(tag, LowKeywords(Danceability)) by {
      assert LowKeywords(Danceability)[1] == "slow";
    }
  }
}
