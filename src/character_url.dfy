/**
 * Extracting the character ID from a D&D Beyond character URL: the first group of
 * `re.search(r'characters/(\d+)', url)`.
 */
module CharacterUrl {
  import opened Wrappers
  import opened Text

  const Marker: string := "characters/"

  /** The pattern matches at `i`: `characters/` there, immediately followed by a digit. */
  predicate MatchAt(url: string, i: int) {
    0 <= i && i + |Marker| < |url| && url[i..i + |Marker|] == Marker && IsDigit(url[i + |Marker|])
  }

  /** The greedy `\d+` run of `s` that starts at `j`: all digits, and as long as possible. */
  function DigitRun(s: string, j: nat): (run: string)
    requires j <= |s|
    ensures AllDigits(run) && j + |run| <= |s| && run == s[j..j + |run|]
    ensures j + |run| == |s| || !IsDigit(s[j + |run|])
    decreases |s| - j
  {
    if j < |s| && IsDigit(s[j]) then [s[j]] + DigitRun(s, j + 1) else ""
  }

  /** The leftmost position at or after `from` where the pattern matches. */
  function FirstMatchFrom(url: string, from: nat): (k: Option<nat>)
    ensures k.Some? ==> from <= k.value && MatchAt(url, k.value)
    ensures k.Some? ==> forall j :: from <= j < k.value ==> !MatchAt(url, j)
    ensures k.None? ==> forall j :: from <= j ==> !MatchAt(url, j)
    decreases |url| - from
  {
    if from + |Marker| >= |url| then None
    else if MatchAt(url, from) then Some(from)
    else FirstMatchFrom(url, from + 1)
  }

  /**
   * `extract_character_id`: the digits after the leftmost `characters/` that a digit
   * follows, or None when there is no such position.
   */
  function ExtractCharacterId(url: string): (id: Option<string>)
    ensures id.None? <==> forall i :: !MatchAt(url, i)
    ensures id.Some? ==> |id.value| > 0 && AllDigits(id.value)
    ensures id.Some? ==>
      exists i :: MatchAt(url, i) && (forall j :: 0 <= j < i ==> !MatchAt(url, j))
               && id.value == DigitRun(url, i + |Marker|)
  {
    match FirstMatchFrom(url, 0)
    case Some(i) => Some(DigitRun(url, i + |Marker|))
    case None => None
  }

  /** A maximal digit string found at `j` is exactly what the greedy `\d+` takes there. */
  lemma {:induction false} DigitRunIs(s: string, j: nat, d: string)
    requires j + |d| <= |s| && s[j..j + |d|] == d && AllDigits(d)
    requires j + |d| == |s| || !IsDigit(s[j + |d|])
    ensures DigitRun(s, j) == d
    decreases |d|
  {
    if d != [] {
      assert s[j] == d[0];
      assert s[j + 1..j + 1 + |d[1..]|] == d[1..];
      DigitRunIs(s, j + 1, d[1..]);
    }
  }

  /**
   * The ID written right after `characters/` comes back out: for a URL that starts with
   * `characters/`, then the digits `d`, then anything not starting with a digit.
   */
  lemma ExtractWrittenId(d: string, rest: string)
    requires |d| > 0 && AllDigits(d)
    requires rest == [] || !IsDigit(rest[0])
    ensures ExtractCharacterId(Marker + d + rest) == Some(d)
  {
    var url := Marker + d + rest;
    assert url[..|Marker|] == Marker;
    assert url[|Marker|] == d[0];
    assert MatchAt(url, 0);
    assert url[|Marker|..|Marker| + |d|] == d;
    if rest != [] {
      assert url[|Marker| + |d|] == rest[0];
    }
    DigitRunIs(url, |Marker|, d);
  }
}
