/** String operations the engine borrows from Python's `str`: substring test,
    `strip()` and `lower()`. */
module Text {

  /** Python's `kw in s`: `kw` occurs in `s` as a contiguous run of characters. */
  predicate Contains(s: string, kw: string)
  {
    exists i :: 0 <= i <= |s| - |kw| && OccursAt(s, kw, i)
  }

  /** `kw` starts at position `i` of `s`. */
  predicate OccursAt(s: string, kw: string, i: int)
  {
    0 <= i && i + |kw| <= |s| && s[i..i + |kw|] == kw
  }

  /** Python's `any(kw in s for kw in keywords)`. */
  predicate ContainsAny(s: string, keywords: seq<string>)
  {
    exists k :: 0 <= k < |keywords| && Contains(s, keywords[k])
  }

  /** The characters `str.isspace()` accepts, which `str.strip()` removes. */
  predicate IsSpace(c: char)
  {
    var n := c as int;
    (9 <= n <= 13) || (28 <= n <= 32) || n == 0x85 || n == 0xA0 || n == 0x1680
    || (0x2000 <= n <= 0x200A) || n == 0x2028 || n == 0x2029 || n == 0x202F
    || n == 0x205F || n == 0x3000
  }

  predicate AllSpace(s: string)
  {
    forall i :: 0 <= i < |s| ==> IsSpace(s[i])
  }

  /** How many whitespace characters `s` starts with. */
  function LeadingSpaces(s: string): (n: nat)
    ensures n <= |s| && AllSpace(s[..n])
    ensures n < |s| ==> !IsSpace(s[n])
  {
    if |s| > 0 && IsSpace(s[0]) then 1 + LeadingSpaces(s[1..]) else 0
  }

  /** How many whitespace characters `s` ends with. */
  function TrailingSpaces(s: string): (n: nat)
    ensures n <= |s| && AllSpace(s[|s| - n..])
    ensures n < |s| ==> !IsSpace(s[|s| - n - 1])
  {
    if |s| > 0 && IsSpace(s[|s| - 1]) then 1 + TrailingSpaces(s[..|s| - 1]) else 0
  }

  /** Python's `s.strip()`: the run of `s` between its leading and its trailing
      whitespace, which starts and ends with a non-space character. */
  function Strip(s: string): (r: string)
    ensures var i := LeadingSpaces(s);
            i + |r| <= |s| && r == s[i..i + |r|] && AllSpace(s[..i]) && AllSpace(s[i + |r|..])
    ensures r != [] ==> !IsSpace(r[0]) && !IsSpace(r[|r| - 1])
    ensures r == [] <==> AllSpace(s)
  {
    var i := LeadingSpaces(s);
    var t := s[i..];
    var n := TrailingSpaces(t);
    assert t[|t| - n..] == s[|s| - n..];
    if i == |s| then
      assert s == s[..i];
      []
    else
      assert !IsSpace(s[i]) && n < |t|;
      assert s[|s| - n - 1] == t[|t| - n - 1];
      s[i..|s| - n]
  }

  function LowerChar(c: char): char
  {
    if 'A' <= c <= 'Z' then (c as int + 32) as char else c
  }

  /** Python's `s.lower()` on the ASCII letters: no upper-case letter is left,
      each one becomes the lower-case letter at the same place in the
      alphabet, and every other character is kept as it is. */
  function Lower(s: string): (r: string)
    ensures |r| == |s|
    ensures forall i :: 0 <= i < |r| ==> !('A' <= r[i] <= 'Z')
    ensures forall i :: 0 <= i < |s| && 'A' <= s[i] <= 'Z' ==>
              'a' <= r[i] <= 'z' && r[i] as int - 'a' as int == s[i] as int - 'A' as int
    ensures forall i :: 0 <= i < |s| && !('A' <= s[i] <= 'Z') ==> r[i] == s[i]
  {
    seq(|s|, i requires 0 <= i < |s| => LowerChar(s[i]))
  }

  /** Lower-casing twice is lower-casing once. */
  lemma LowerIdempotent(s: string)
    ensures Lower(Lower(s)) == Lower(s)
  {
    var r := Lower(s);
    assert forall i :: 0 <= i < |r| ==> Lower(r)[i] == r[i];
  }

  /** Whether a track artist's name matches a requested one the way
      `a['name'].lower() == seed_artist_name.lower()` does. */
  predicate SameNameIgnoringCase(a: string, b: string)
  {
    Lower(a) == Lower(b)
  }
}
