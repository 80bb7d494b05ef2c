/**
 * Hand-written scanners for the few regular expressions of the tarot
 * commands whose meaning is a literal followed by digits: `(card)\d`,
 * `deck \d+`, `deck \d\d?` and `c\d\d?`. `re.search` finds the leftmost
 * position where the literal is followed by a digit; the digits after it
 * are then taken greedily.
 */
module Scanner {
  import opened Wrappers
  import opened Text

  /** `pat` occurs at position `i` of `s` and is followed there by a digit. */
  predicate MatchAt(s: string, pat: string, i: int) {
    0 <= i && i + |pat| < |s| && s[i..i + |pat|] == pat && IsDigit(s[i + |pat|])
  }

  /** The leftmost match at or after `from`. */
  function FirstMatchFrom(s: string, pat: string, from: nat): (r: Option<nat>)
    requires from <= |s|
    ensures r.Some? ==> from <= r.value && MatchAt(s, pat, r.value)
    ensures r.Some? ==> forall j :: from <= j < r.value ==> !MatchAt(s, pat, j)
    ensures r.None? ==> forall j :: from <= j ==> !MatchAt(s, pat, j)
    decreases |s| - from
  {
    if MatchAt(s, pat, from) then Some(from)
    else if from == |s| then None
    else FirstMatchFrom(s, pat, from + 1)
  }

  /** Where `re.search(pat + r"\d", s)` starts, if anywhere. */
  function FirstMatch(s: string, pat: string): (r: Option<nat>)
    ensures r.Some? <==> exists j :: MatchAt(s, pat, j)
    ensures r.Some? ==> MatchAt(s, pat, r.value) && forall j :: 0 <= j < r.value ==> !MatchAt(s, pat, j)
  {
    FirstMatchFrom(s, pat, 0)
  }

  /** The digits of `s` from position `i`, as many as there are (`\d+` taken greedily). */
  function DigitRun(s: string, i: nat): (d: string)
    requires i <= |s|
    ensures i + |d| <= |s| && d == s[i..i + |d|] && AllDigits(d)
    ensures i + |d| < |s| ==> !IsDigit(s[i + |d|])
    decreases |s| - i
  {
    if i < |s| && IsDigit(s[i]) then [s[i]] + DigitRun(s, i + 1) else ""
  }

  /** The digits of `s` from position `i`, at most two of them (`\d\d?`). */
  function TwoDigitRun(s: string, i: nat): (d: string)
    requires i <= |s|
    ensures |d| <= 2 && i + |d| <= |s| && d == s[i..i + |d|] && AllDigits(d)
    ensures |d| < 2 && i + |d| < |s| ==> !IsDigit(s[i + |d|])
  {
    var r := DigitRun(s, i);
    if |r| <= 2 then r else r[..2]
  }

  /** `j` is a match and there is none before it. */
  predicate Leftmost(s: string, pat: string, j: int) {
    MatchAt(s, pat, j) && forall k :: 0 <= k < j ==> !MatchAt(s, pat, k)
  }

  /**
   * The leftmost match is the only position that is a match with none
   * before it.
   */
  lemma LeftmostUnique(s: string, pat: string, j: int)
    requires Leftmost(s, pat, j)
    ensures FirstMatch(s, pat) == Some(j)
  {
  }

  /** Every leftmost match is where the search stops. */
  lemma LeftmostIsFirst(s: string, pat: string)
    ensures forall j :: Leftmost(s, pat, j) ==> FirstMatch(s, pat) == Some(j)
  {
    forall j | Leftmost(s, pat, j) ensures FirstMatch(s, pat) == Some(j) {
      LeftmostUnique(s, pat, j);
    }
  }

  /** `(card)\d` in a command that begins `/card3 deck ` starts at position 1. */
  lemma CardExample(s: string)
    requires |s| >= 12 && s[..12] == "/card3 deck "
    ensures FirstMatch(s, "card") == Some(1)
  {
    assert s[1..5] == "card" && IsDigit(s[5]);
    assert MatchAt(s, "card", 1);
    assert !MatchAt(s, "card", 0);
    LeftmostUnique(s, "card", 1);
  }

  /** `deck \d` in a command that begins `/card3 deck` and a digit starts at position 7. */
  lemma DeckExample(s: string)
    requires |s| >= 13 && s[..12] == "/card3 deck " && IsDigit(s[12])
    ensures FirstMatch(s, "deck ") == Some(7)
  {
    assert s[7..12] == "deck ";
    assert MatchAt(s, "deck ", 7);
    forall k | 0 <= k < 7 ensures !MatchAt(s, "deck ", k) {
      assert s[k + 4] != ' ' || !IsDigit(s[k + 5]);
    }
    LeftmostUnique(s, "deck ", 7);
  }

  /** `\d+` takes every digit and `\d\d?` the first two. */
  lemma DigitRunExample()
    ensures DigitRun("/card3 deck 123", 12) == "123"
    ensures TwoDigitRun("/card3 deck 123", 12) == "12"
  {
    var s := "/card3 deck 123";
    assert DigitRun(s, 15) == "";
    assert DigitRun(s, 14) == "3";
    assert DigitRun(s, 13) == "23";
  }
}
