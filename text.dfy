/**
 * The handful of Python `str` operations the bots rely on, with Python's
 * semantics written out: `split(sep)`, `split(maxsplit=1)`, `strip`,
 * `replace`, `startswith`, `in`, `lower` (ASCII letters), slicing `s[:n]`,
 * `str(int)` and `int(str)`.
 */
module Text {
  import opened Wrappers

  /** `c.isspace()`: the characters Python's whitespace-splitting and `strip()` remove. */
  predicate IsSpace(c: char) {
    c == ' ' || ('\t' <= c <= '\r') || ('\U{1c}' <= c <= '\U{1f}') || c == '\U{85}' || c == '\U{a0}'
    || c == '\U{1680}' || ('\U{2000}' <= c <= '\U{200a}') || c == '\U{2028}' || c == '\U{2029}'
    || c == '\U{202f}' || c == '\U{205f}' || c == '\U{3000}'
  }

  predicate IsDigit(c: char) { '0' <= c <= '9' }

  predicate AllDigits(s: string) { forall i :: 0 <= i < |s| ==> IsDigit(s[i]) }

  predicate NoSpace(s: string) { forall i :: 0 <= i < |s| ==> !IsSpace(s[i]) }

  /** `s.lstrip()` */
  function LStrip(s: string): (r: string)
    ensures |r| <= |s| && r == s[|s| - |r|..]
    ensures |r| > 0 ==> !IsSpace(r[0])
    decreases |s|
  {
    if |s| > 0 && IsSpace(s[0]) then LStrip(s[1..]) else s
  }

  /** `s.rstrip()` */
  function RStrip(s: string): (r: string)
    ensures |r| <= |s| && r == s[..|r|]
    ensures |r| > 0 ==> !IsSpace(r[|r| - 1])
    decreases |s|
  {
    if |s| > 0 && IsSpace(s[|s| - 1]) then RStrip(s[..|s| - 1]) else s
  }

  /** `s.strip()` */
  function Strip(s: string): string {
    RStrip(LStrip(s))
  }

  /** `s[:n]` for a non-negative `n`. */
  function Take<T>(s: seq<T>, n: nat): seq<T> {
    if n <= |s| then s[..n] else s
  }

  /** `s.startswith(p)` */
  predicate StartsWith(s: string, p: string) {
    |p| <= |s| && s[..|p|] == p
  }

  /** `sub in s` */
  predicate Contains(s: string, sub: string)
    decreases |s|
  {
    StartsWith(s, sub) || (|s| > 0 && Contains(s[1..], sub))
  }

  function LowerChar(c: char): char {
    if 'A' <= c <= 'Z' then (c as int + 32) as char else c
  }

  /**
   * `s.lower()` on ASCII letters. This is exact for tests such as
   * `s.lower().startswith("http://")`: no other character lower-cases to an
   * ASCII letter of those prefixes or to ':' or '/'.
   */
  function Lower(s: string): (r: string)
    ensures |r| == |s|
  {
    seq(|s|, i requires 0 <= i < |s| => LowerChar(s[i]))
  }

  /** `s.split(sep)` for a one-character separator: never empty. */
  function Split(s: string, sep: char): (parts: seq<string>)
    ensures |parts| >= 1
    decreases |s|
  {
    if |s| == 0 then [""]
    else
      var rest := Split(s[1..], sep);
      if s[0] == sep then [""] + rest else [[s[0]] + rest[0]] + rest[1..]
  }

  /** `sep.join(parts)` */
  function Join(sep: string, parts: seq<string>): string
    decreases |parts|
  {
    if |parts| == 0 then ""
    else if |parts| == 1 then parts[0]
    else parts[0] + sep + Join(sep, parts[1..])
  }

  /** `"".join(parts)` */
  function Concat(parts: seq<string>): string
    decreases |parts|
  {
    if parts == [] then "" else parts[0] + Concat(parts[1..])
  }

  /** Index of the first whitespace character of `t`, or `|t|`. */
  function WordEnd(t: string): (k: nat)
    ensures k <= |t| && NoSpace(t[..k])
    ensures k < |t| ==> IsSpace(t[k])
    decreases |t|
  {
    if |t| == 0 || IsSpace(t[0]) then 0 else 1 + WordEnd(t[1..])
  }

  /**
   * `s.split(maxsplit=1)`: leading whitespace is skipped, the first word is
   * cut at the next whitespace run, and the remainder (leading whitespace
   * removed, trailing whitespace kept) is the second part if it is non-empty.
   */
  function SplitMaxOne(s: string): (parts: seq<string>)
    ensures |parts| <= 2
    ensures forall i :: 0 <= i < |parts| ==> |parts[i]| > 0 && !IsSpace(parts[i][0])
    ensures |parts| >= 1 ==> NoSpace(parts[0])
  {
    var t := LStrip(s);
    if t == "" then []
    else
      var k := WordEnd(t);
      var rest := LStrip(t[k..]);
      if rest == "" then [t[..k]] else [t[..k], rest]
  }

  /** `s.replace(pattern, replacement)`: leftmost, non-overlapping, left to right. */
  function Replace(s: string, pattern: string, replacement: string): string
    requires |pattern| > 0
    decreases |s|
  {
    if |s| < |pattern| then s
    else if s[..|pattern|] == pattern then replacement + Replace(s[|pattern|..], pattern, replacement)
    else [s[0]] + Replace(s[1..], pattern, replacement)
  }

  function DigitChar(d: nat): (c: char)
    requires d < 10
    ensures IsDigit(c)
  {
    ('0' as int + d) as char
  }

  function DigitValue(c: char): nat
    requires IsDigit(c)
  {
    c as int - '0' as int
  }

  /** The value of a decimal digit string, most significant digit first. */
  function DigitsValue(s: string): nat
    requires AllDigits(s)
    decreases |s|
  {
    if |s| == 0 then 0 else DigitsValue(s[..|s| - 1]) * 10 + DigitValue(s[|s| - 1])
  }

  /** `str(n)` for `n >= 0` */
  function NatToString(n: nat): (s: string)
    ensures |s| > 0 && AllDigits(s)
  {
    if n < 10 then [DigitChar(n)] else NatToString(n / 10) + [DigitChar(n % 10)]
  }

  /** `str(n)` */
  function IntToString(n: int): (s: string)
    ensures |s| > 0
  {
    if n < 0 then "-" + NatToString(-n) else NatToString(n)
  }

  /**
   * `int(s)` for ASCII decimal text: surrounding whitespace, then an
   * optional sign, then one or more digits. `None` stands for the
   * `ValueError` that `int` raises.
   */
  function ParseInt(s: string): Option<int> {
    var t := Strip(s);
    if |t| > 1 && (t[0] == '-' || t[0] == '+') && AllDigits(t[1..]) then
      var v: int := DigitsValue(t[1..]);
      Some(if t[0] == '-' then -v else v)
    else if |t| > 0 && AllDigits(t) then Some(DigitsValue(t))
    else None
  }

  // ---------------------------------------------------------------------
  // Lemmas

  lemma {:induction false} NatToStringValue(n: nat)
    ensures DigitsValue(NatToString(n)) == n
  {
    if n >= 10 {
      var s := NatToString(n);
      assert s[..|s| - 1] == NatToString(n / 10);
      NatToStringValue(n / 10);
    }
  }

  lemma StripNoOp(s: string)
    requires |s| > 0 && !IsSpace(s[0]) && !IsSpace(s[|s| - 1])
    ensures Strip(s) == s
  {
  }

  lemma {:induction false} RStripKeepsFirst(s: string)
    requires |s| > 0 && !IsSpace(s[0])
    ensures |RStrip(s)| > 0 && RStrip(s)[0] == s[0]
    decreases |s|
  {
    if IsSpace(s[|s| - 1]) {
      RStripKeepsFirst(s[..|s| - 1]);
    }
  }

  /** Stripping text that starts with a non-space character keeps that character. */
  lemma StripNonEmpty(s: string)
    requires |s| > 0 && !IsSpace(s[0])
    ensures |Strip(s)| > 0 && Strip(s)[0] == s[0]
  {
    RStripKeepsFirst(s);
  }

  /** `str(n)` is a sign and digits: no whitespace and none of the separators `' '`, `'_'`, `'#'`. */
  lemma IntToStringChars(n: int)
    ensures var s := IntToString(n);
      NoSpace(s) && ' ' !in s && '_' !in s && '#' !in s && IsDigit(s[|s| - 1])
  {
    var s := IntToString(n);
    if n < 0 {
      assert s[1..] == NatToString(-n);
      assert forall i :: 1 <= i < |s| ==> s[i] == NatToString(-n)[i - 1];
    }
  }

  /** `int(str(n)) == n` */
  lemma ParseIntToString(n: int)
    ensures ParseInt(IntToString(n)) == Some(n)
  {
    var s := IntToString(n);
    IntToStringChars(n);
    StripNoOp(s);
    if n < 0 {
      assert s[1..] == NatToString(-n);
      NatToStringValue(-n);
    } else {
      NatToStringValue(n);
    }
  }

  lemma {:induction false} SplitNoSep(s: string, sep: char)
    requires sep !in s
    ensures Split(s, sep) == [s]
    decreases |s|
  {
    if |s| > 0 {
      SplitNoSep(s[1..], sep);
      assert [s[0]] + s[1..] == s;
    }
  }

  lemma {:induction false} SplitAfterSep(p: string, t: string, sep: char)
    requires sep !in p
    ensures Split(p + [sep] + t, sep) == [p] + Split(t, sep)
    decreases |p|
  {
    var s := p + [sep] + t;
    if |p| == 0 {
      assert s[1..] == t;
    } else {
      assert s[1..] == p[1..] + [sep] + t;
      SplitAfterSep(p[1..], t, sep);
      assert [p[0]] + p[1..] == p;
    }
  }

  /** `sep.join(parts).split(sep) == parts` when no part contains `sep`. */
  lemma {:induction false} SplitJoin(parts: seq<string>, sep: char)
    requires |parts| >= 1
    requires forall i :: 0 <= i < |parts| ==> sep !in parts[i]
    ensures Split(Join([sep], parts), sep) == parts
    decreases |parts|
  {
    if |parts| == 1 {
      SplitNoSep(parts[0], sep);
    } else {
      SplitJoin(parts[1..], sep);
      SplitAfterSep(parts[0], Join([sep], parts[1..]), sep);
      assert [parts[0]] + parts[1..] == parts;
    }
  }

  /** `sep.join(s.split(sep)) == s` */
  lemma {:induction false} JoinSplit(s: string, sep: char)
    ensures Join([sep], Split(s, sep)) == s
    decreases |s|
  {
    if |s| > 0 {
      JoinSplit(s[1..], sep);
      var rest := Split(s[1..], sep);
      if s[0] != sep {
        if |rest| > 1 {
          assert Join([sep], rest) == rest[0] + [sep] + Join([sep], rest[1..]);
        }
      }
      assert [s[0]] + s[1..] == s;
    }
  }

  lemma {:induction false} WordEndOfPrefix(p: string, t: string)
    requires NoSpace(p)
    requires t == "" || IsSpace(t[0])
    ensures WordEnd(p + t) == |p|
    decreases |p|
  {
    if |p| > 0 {
      assert (p + t)[1..] == p[1..] + t;
      WordEndOfPrefix(p[1..], t);
    } else {
      assert p + t == t;
    }
  }

  /** Joining texts does not depend on the grouping. */
  lemma AppendAssoc(x: string, y: string, z: string)
    ensures (x + y) + z == x + (y + z)
  {
  }

  /** Leading whitespace before a word is what `lstrip` removes. */
  lemma {:induction false} LStripSpaces(gap: string, t: string)
    requires forall i :: 0 <= i < |gap| ==> IsSpace(gap[i])
    requires t == [] || !IsSpace(t[0])
    ensures LStrip(gap + t) == t
    decreases |gap|
  {
    if gap == [] {
      assert gap + t == t;
    } else {
      assert (gap + t)[1..] == gap[1..] + t;
      LStripSpaces(gap[1..], t);
    }
  }

  /** A word, a whitespace run and a text that starts with no whitespace split into the word and the text. */
  lemma SplitMaxOneWords(word: string, gap: string, rest: string)
    requires |word| > 0 && NoSpace(word)
    requires |gap| > 0 && forall i :: 0 <= i < |gap| ==> IsSpace(gap[i])
    requires |rest| > 0 && !IsSpace(rest[0])
    ensures SplitMaxOne(word + gap + rest) == [word, rest]
  {
    var s := word + gap + rest;
    assert s == word + (gap + rest);
    assert LStrip(s) == s;
    WordEndOfPrefix(word, gap + rest);
    assert s[|word|..] == gap + rest;
    assert s[..|word|] == word;
    LStripSpaces(gap, rest);
  }

  /** Absent a match, `replace` leaves the text alone. */
  lemma {:induction false} ReplaceAbsent(s: string, pattern: string, replacement: string)
    requires |pattern| > 0 && !Contains(s, pattern)
    ensures Replace(s, pattern, replacement) == s
    decreases |s|
  {
    if |s| >= |pattern| {
      ReplaceAbsent(s[1..], pattern, replacement);
      assert [s[0]] + s[1..] == s;
    }
  }

  /** `" ".join(map(str, ids))`: the integers in decimal, one space apart. */
  function IdsText(ids: seq<int>): (t: string)
    ensures ids != [] ==> |t| > 0 && !IsSpace(t[0]) && !IsSpace(t[|t| - 1])
    ensures Split(t, ' ') == (if ids == [] then [""] else seq(|ids|, i requires 0 <= i < |ids| => IntToString(ids[i])))
  {
    var parts := seq(|ids|, i requires 0 <= i < |ids| => IntToString(ids[i]));
    if ids == [] then "" else
      assert forall i :: 0 <= i < |ids| ==> ' ' !in parts[i] && NoSpace(parts[i]) by {
        forall i | 0 <= i < |ids| ensures ' ' !in parts[i] && NoSpace(parts[i]) {
          IntToStringChars(ids[i]);
        }
      }
      SplitJoin(parts, ' ');
      JoinEnds(parts);
      Join(" ", parts)
  }

  /** A join of non-empty, space-free parts starts and ends with a part's character. */
  lemma {:induction false} JoinEnds(parts: seq<string>)
    requires |parts| >= 1 && forall i :: 0 <= i < |parts| ==> |parts[i]| > 0 && NoSpace(parts[i])
    ensures var t := Join(" ", parts); |t| > 0 && !IsSpace(t[0]) && !IsSpace(t[|t| - 1])
    decreases |parts|
  {
    if |parts| > 1 {
      JoinEnds(parts[1..]);
      var t := Join(" ", parts);
      assert t == parts[0] + " " + Join(" ", parts[1..]);
      assert t[0] == parts[0][0];
    }
  }

  function TwoDigits(r: nat): string
    requires r < 100
  {
    [DigitChar(r / 10), DigitChar(r % 10)]
  }

  /**
   * `str(kopecks / 100)`: the whole part, a point, and the hundredths without
   * trailing zeros but with at least one digit, as Python prints a float
   * whose value has at most 15 significant digits.
   */
  function HundredthsText(kopecks: int): (s: string)
    ensures |s| >= 3 && (s[0] == '-' <==> kopecks < 0) && IsDigit(s[|s| - 1]) && '.' in s
  {
    var a: nat := if kopecks < 0 then -kopecks else kopecks;
    var sign := if kopecks < 0 then "-" else "";
    var r := a % 100;
    var frac := if r % 10 == 0 then [DigitChar(r / 10)] else TwoDigits(r);
    var s := sign + NatToString(a / 100) + "." + frac;
    assert s[|s| - 1] == frac[|frac| - 1];
    assert s[|sign| + |NatToString(a / 100)|] == '.';
    assert kopecks >= 0 ==> s[0] == NatToString(a / 100)[0];
    s
  }

  /** Python prints a price of 104.0 and of 12.5 as written here. */
  lemma HundredthsTextExamples()
    ensures HundredthsText(10400) == "104.0" && HundredthsText(1250) == "12.5"
  {
    assert NatToString(104) == "104" by {
      assert NatToString(10) == "10";
    }
    assert NatToString(12) == "12";
  }

  /** A price with a non-zero last digit keeps both decimals; one under a rouble starts with zero. */
  lemma HundredthsTextSmallExamples()
    ensures HundredthsText(1205) == "12.05" && HundredthsText(5) == "0.05"
  {
    assert NatToString(12) == "12";
  }

  /** `str(kopecks / 100)` holds digits, a point and perhaps a leading minus, and nothing else. */
  lemma HundredthsChars(kopecks: int)
    ensures forall i :: 0 <= i < |HundredthsText(kopecks)| ==>
      var c := HundredthsText(kopecks)[i]; IsDigit(c) || c == '.' || c == '-'
  {
    var a: nat := if kopecks < 0 then -kopecks else kopecks;
    var sign := if kopecks < 0 then "-" else "";
    var r := a % 100;
    var frac := if r % 10 == 0 then [DigitChar(r / 10)] else TwoDigits(r);
    var w := NatToString(a / 100);
    var s := sign + w + "." + frac;
    assert s == HundredthsText(kopecks);
    forall i | 0 <= i < |s| ensures IsDigit(s[i]) || s[i] == '.' || s[i] == '-' {
      if i < |sign| {
      } else if i < |sign| + |w| {
        assert s[i] == w[i - |sign|];
      } else if i > |sign| + |w| {
        assert s[i] == frac[i - |sign| - |w| - 1];
      }
    }
  }

  /** `s[i]` on a list, counting from the end for a negative `i`; `None` stands for the `IndexError`. */
  function PyIndex<T>(s: seq<T>, i: int): (r: Option<T>)
    ensures r.Some? <==> -|s| <= i < |s|
    ensures 0 <= i < |s| ==> r == Some(s[i])
    ensures -|s| <= i < 0 ==> r == Some(s[|s| + i])
  {
    if 0 <= i < |s| then Some(s[i]) else if -|s| <= i < 0 then Some(s[|s| + i]) else None
  }

  /** Joining one more part adds the separator and the part. */
  lemma {:induction false} JoinSnoc(sep: string, parts: seq<string>, x: string)
    requires |parts| >= 1
    ensures Join(sep, parts + [x]) == Join(sep, parts) + sep + x
    decreases |parts|
  {
    if |parts| > 1 {
      assert (parts + [x])[1..] == parts[1..] + [x];
      JoinSnoc(sep, parts[1..], x);
    } else {
      assert (parts + [x])[1..] == [x];
    }
  }

  /** A join of two parts. */
  lemma JoinTwo(sep: string, parts: seq<string>)
    requires |parts| == 2
    ensures Join(sep, parts) == parts[0] + sep + parts[1]
  {
    assert |parts[1..]| == 1 && parts[1..][0] == parts[1];
  }

  /** A join of three parts. */
  lemma JoinThree(sep: string, parts: seq<string>)
    requires |parts| == 3
    ensures Join(sep, parts) == parts[0] + sep + (parts[1] + sep + parts[2])
  {
    JoinTwo(sep, parts[1..]);
  }

  /** Extending the last part by the separator and more text extends the join the same way. */
  lemma JoinExtendLast(sep: string, parts: seq<string>, a: string, b: string)
    ensures Join(sep, parts + [a + sep + b]) == Join(sep, parts + [a]) + sep + b
  {
    if |parts| == 0 {
      assert parts + [a + sep + b] == [a + sep + b];
      assert parts + [a] == [a];
    } else {
      JoinSnoc(sep, parts, a + sep + b);
      JoinSnoc(sep, parts, a);
    }
  }
}
