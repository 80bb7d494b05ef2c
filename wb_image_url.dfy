/**
 * The Wildberries image host of app/tg_bot/bot/wb_image_url.py: an article
 * number is mapped to its volume (`e // 100000`), the volume to one of the
 * numbered basket hosts, and the two to the URL prefix of the article's
 * pictures.
 */
module WbImageUrl {
  import opened Wrappers
  import opened Text

  /** The largest volume of each of the baskets 01 to 28; larger volumes are in basket 29. */
  const Bounds: seq<int> := [143, 287, 431, 719, 1007, 1061, 1115, 1169, 1313, 1601, 1655, 1919, 2045, 2189,
                             2405, 2621, 2837, 3053, 3269, 3485, 3701, 3917, 4133, 4349, 4565, 4877, 5189, 5501]

  /** The largest volume of basket `k`. */
  function Bound(k: int): int
    requires 1 <= k <= 28
  {
    Bounds[k - 1]
  }

  /** Python's `//` by a positive divisor, which rounds towards minus infinity as Dafny's `/` does then. */
  function FloorDiv(a: int, d: int): (q: int)
    requires d > 0
    ensures d * q <= a < d * q + d
  {
    a / d
  }

  /** The basket number of the `if`/`elif` chain of `vol_host_v2`, for volume `t`. */
  function BasketNumber(t: int): (b: nat)
    ensures 1 <= b <= 29
  {
    if 0 <= t <= 143 then 1
    else if t <= 287 then 2
    else if t <= 431 then 3
    else if t <= 719 then 4
    else if t <= 1007 then 5
    else if t <= 1061 then 6
    else if t <= 1115 then 7
    else if t <= 1169 then 8
    else if t <= 1313 then 9
    else if t <= 1601 then 10
    else if t <= 1655 then 11
    else if t <= 1919 then 12
    else if t <= 2045 then 13
    else if t <= 2189 then 14
    else if t <= 2405 then 15
    else if t <= 2621 then 16
    else if t <= 2837 then 17
    else if t <= 3053 then 18
    else if t <= 3269 then 19
    else if t <= 3485 then 20
    else if t <= 3701 then 21
    else if t <= 3917 then 22
    else if t <= 4133 then 23
    else if t <= 4349 then 24
    else if t <= 4565 then 25
    else if t <= 4877 then 26
    else if t <= 5189 then 27
    else if t <= 5501 then 28
    else 29
  }

  /**
   * For a volume that is not negative, basket `k` holds exactly the volumes
   * above the bound of basket `k - 1` and up to its own bound.
   */
  lemma BasketRange(t: int, k: int)
    requires 0 <= t && 1 <= k <= 29
    ensures BasketNumber(t) == k <==> (k == 1 || Bound(k - 1) < t) && (k == 29 || t <= Bound(k))
  {
    BasketBand(t);
    var b := BasketNumber(t);
    if k < b {
      BoundsIncreasing(k, b - 1);
    } else if b < k {
      BoundsIncreasing(b, k - 1);
    }
  }

  /** A volume that is not negative lies above the previous bound and up to the bound of its basket. */
  lemma BasketBand(t: int)
    requires 0 <= t
    ensures var b := BasketNumber(t);
      (b == 1 || Bound(b - 1) < t) && (b == 29 || t <= Bound(b))
  {
  }

  /** The bounds grow strictly. */
  lemma BoundsIncreasing(i: int, j: int)
    requires 1 <= i <= j <= 28
    ensures Bound(i) <= Bound(j)
  {
    assert forall n :: 0 <= n < 27 ==> Bounds[n] < Bounds[n + 1];
  }

  /** For volumes that are not negative the basket never decreases. */
  lemma BasketMonotone(a: int, b: int)
    requires 0 <= a <= b
    ensures BasketNumber(a) <= BasketNumber(b)
  {
  }

  /** The boundaries named in the chain, and the two ends. */
  lemma BasketBoundaries()
    ensures BasketNumber(0) == 1 && BasketNumber(143) == 1 && BasketNumber(144) == 2
    ensures BasketNumber(5501) == 28 && BasketNumber(5502) == 29
  {
  }

  /** Every volume above the last bound is in basket 29. */
  lemma BasketBeyondLast(t: int)
    requires t > 5501
    ensures BasketNumber(t) == 29
  {
  }

  /** A negative volume fails the first test `0 <= t` and passes the second, so it lands in basket 02. */
  lemma BasketNegative(t: int)
    requires t < 0
    ensures BasketNumber(t) == 2
  {
  }

  /** The basket number as the two digits of the host name. */
  function BasketLabel(b: nat): (s: string)
    requires 1 <= b <= 29
    ensures |s| == 2 && IsDigit(s[0]) && IsDigit(s[1]) && DigitValue(s[0]) * 10 + DigitValue(s[1]) == b
  {
    TwoDigits(b)
  }

  /** `vol_host_v2(e)` */
  function VolHost(e: int): string {
    var t := FloorDiv(e, 100000);
    "basket-" + BasketLabel(BasketNumber(t)) + ".wbbasket.ru/vol" + IntToString(t)
  }

  /**
   * The host is `basket-`, the two digits of the volume's basket, then
   * `.wbbasket.ru/vol` and the volume.
   */
  lemma VolHostShape(e: int)
    ensures var h := VolHost(e);
      var t := e / 100000;
      |h| > 9 && h[..7] == "basket-" && IsDigit(h[7]) && IsDigit(h[8])
      && DigitValue(h[7]) * 10 + DigitValue(h[8]) == BasketNumber(t)
      && h[9..] == ".wbbasket.ru/vol" + IntToString(t)
  {
    var t := e / 100000;
    var l := BasketLabel(BasketNumber(t));
    var h := VolHost(e);
    assert h == "basket-" + l + (".wbbasket.ru/vol" + IntToString(t));
    assert h[7] == l[0] && h[8] == l[1];
  }

  /**
   * `construct_host_v2(e, t)`; `None` stands for the `ValueError` of
   * `int(e)`. The unused argument `r` is left out.
   */
  function ConstructHost(e: string, kind: string): Option<string> {
    match ParseInt(e)
    case None => None
    case Some(s) =>
      var n := if kind == "video" then FloorDiv(s, 10000) else FloorDiv(s, 1000);
      var o := if kind == "nm" then VolHost(s) else "";
      Some("https://" + o + "/part" + IntToString(n) + "/" + IntToString(s))
  }

  /**
   * The URL is built exactly when `int(e)` succeeds. It is `https://`
   * followed by a basket host only for kind `"nm"` (for any other kind the
   * host part is empty and `/part` follows at once). After the host come
   * `/part`, the part number (`int(e) // 10000` for kind `"video"`,
   * `int(e) // 1000` for every other kind), `/` and the article number,
   * which reads back as `int(e)`.
   */
  lemma ConstructHostShape(e: string, kind: string)
    ensures ConstructHost(e, kind).Some? <==> ParseInt(e).Some?
    ensures ParseInt(e).Some? ==> BuiltShape(ParseInt(e).value, kind, ConstructHost(e, kind).value)
  {
    if ParseInt(e).Some? {
      BuiltUrl(ParseInt(e).value, kind, ConstructHost(e, kind).value);
    }
  }

  /** The shape `ConstructHostShape` states of the URL `u` built for the number `s`. */
  ghost predicate BuiltShape(s: int, kind: string, u: string) {
    var last := IntToString(s);
    var o := if kind == "nm" then VolHost(s) else "";
    var n := if kind == "video" then FloorDiv(s, 10000) else FloorDiv(s, 1000);
    |u| > 15 && 8 + |o| < |u| && u[..8] == "https://"
    && (kind == "nm" ==> u[8..8 + |o|] == o && u[8..15] == "basket-")
    && (kind != "nm" ==> u[8..13] == "/part")
    && |last| < |u| && u[|u| - |last| - 1] == '/' && u[|u| - |last|..] == last
    && ParseInt(last) == Some(s)
    && u[8 + |o|..] == "/part" + IntToString(n) + "/" + last
  }

  lemma BuiltUrl(s: int, kind: string, u: string)
    requires var o := if kind == "nm" then VolHost(s) else "";
      var n := if kind == "video" then FloorDiv(s, 10000) else FloorDiv(s, 1000);
      u == "https://" + o + "/part" + IntToString(n) + "/" + IntToString(s)
    ensures BuiltShape(s, kind, u)
  {
    var n := IntToString(if kind == "video" then FloorDiv(s, 10000) else FloorDiv(s, 1000));
    if kind == "nm" {
      VolHostPrefix(s);
      UrlShape(u, VolHost(s), n, IntToString(s), true);
    } else {
      UrlShape(u, "", n, IntToString(s), false);
    }
    ParseIntToString(s);
  }

  /** Where the host, the part and the last segment of a built URL sit. */
  lemma UrlShape(u: string, o: string, n: string, last: string, nm: bool)
    requires u == "https://" + o + "/part" + n + "/" + last
    requires nm ==> |o| > 7 && o[..7] == "basket-"
    requires !nm ==> o == ""
    requires |n| > 0 && |last| > 0
    ensures |u| > 15 && u[..8] == "https://"
      && (nm ==> u[8..8 + |o|] == o && u[8..15] == "basket-")
      && (!nm ==> u[8..13] == "/part")
      && |last| < |u| && u[|u| - |last| - 1] == '/' && u[|u| - |last|..] == last
      && u[8 + |o|..] == "/part" + n + "/" + last
  {
    UrlParts("https://", o, "/part", n, last);
    assert u == "https://" + o + ("/part" + n + "/") + last;
    if nm {
      assert u[8..15] == u[8..8 + |o|][..7];
    }
  }

  /** Where the pieces of a URL `pre + o + p + n + "/" + last` sit. */
  lemma UrlParts(pre: string, o: string, p: string, n: string, last: string)
    ensures var u := pre + o + (p + n + "/") + last;
      |u| == |pre| + |o| + |p| + |n| + 1 + |last|
      && u[..|pre|] == pre && u[|pre|..|pre| + |o|] == o
      && u[|pre| + |o|..|pre| + |o| + |p|] == p
      && u[|u| - |last| - 1] == '/' && u[|u| - |last|..] == last
      && u[|pre| + |o|..] == p + n + "/" + last
  {
    var u := pre + o + (p + n + "/") + last;
    assert u == pre + (o + (p + (n + ("/" + last))));
  }

  lemma VolHostPrefix(s: int)
    ensures |VolHost(s)| > 7 && VolHost(s)[..7] == "basket-"
  {
    var t := FloorDiv(s, 100000);
    var rest := BasketLabel(BasketNumber(t)) + ".wbbasket.ru/vol" + IntToString(t);
    assert VolHost(s) == "basket-" + rest;
  }

  /**
   * The URL of an article number written in decimal, for every kind: the
   * basket host only for `"nm"`, the part `s // 10000` for `"video"` and
   * `s // 1000` otherwise.
   */
  lemma ConstructHostOfNumber(s: int, kind: string)
    ensures ConstructHost(IntToString(s), kind)
            == Some("https://" + (if kind == "nm" then VolHost(s) else "") + "/part"
                    + IntToString(if kind == "video" then FloorDiv(s, 10000) else FloorDiv(s, 1000))
                    + "/" + IntToString(s))
  {
    ParseIntToString(s);
  }
}
