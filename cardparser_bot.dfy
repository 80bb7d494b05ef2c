/**
 * The card-parser bot of app/cardparser/bot/parser.py, without its network,
 * database and Telegram calls: the exclusion-id argument of `/top_brand`
 * and `/top_category`, the media type stored for a picture, the
 * Wildberries size and price summary, and what `send_to_marketing_group`
 * sends.
 */
module CardparserBot {
  import opened Wrappers
  import opened Text
  import Templates
  import Ranking
  import LinkHandling

  const Sentinel: string := "django_task"

  // ---------------------------------------------------------------------
  // Exclusion ids of /top_brand and /top_category

  /** `[int(x) for x in tokens]`; `None` stands for the `ValueError` of some `int(x)`. */
  function ParseIds(tokens: seq<string>): (r: Option<seq<int>>)
    ensures r.Some? ==> |r.value| == |tokens|
    decreases |tokens|
  {
    if tokens == [] then Some([])
    else
      var rest := ParseIds(tokens[1..]);
      if ParseInt(tokens[0]).None? || rest.None? then None else Some([ParseInt(tokens[0]).value] + rest.value)
  }

  /** The list exists iff every token is an integer. */
  lemma {:induction false} ParseIdsSome(tokens: seq<string>)
    ensures ParseIds(tokens).Some? <==> forall i :: 0 <= i < |tokens| ==> ParseInt(tokens[i]).Some?
    decreases |tokens|
  {
    if ParseIds(tokens).Some? {
      forall i | 0 <= i < |tokens| ensures ParseInt(tokens[i]).Some? {
        ParseIdsAt(tokens, i);
      }
    } else if tokens != [] && ParseInt(tokens[0]).Some? {
      var rest := tokens[1..];
      assert ParseIds(rest).None?;
      ParseIdsSome(rest);
      var k :| 0 <= k < |rest| && ParseInt(rest[k]).None?;
      assert tokens[k + 1] == rest[k];
    }
  }

  /** When every token is an integer the list holds their values, in order. */
  lemma ParseIdsValues(tokens: seq<string>)
    requires forall i :: 0 <= i < |tokens| ==> ParseInt(tokens[i]).Some?
    ensures ParseIds(tokens).Some? && |ParseIds(tokens).value| == |tokens|
    ensures forall i :: 0 <= i < |tokens| ==> ParseIds(tokens).value[i] == ParseInt(tokens[i]).value
  {
    ParseIdsSome(tokens);
    forall i | 0 <= i < |tokens| ensures ParseIds(tokens).value[i] == ParseInt(tokens[i]).value {
      ParseIdsAt(tokens, i);
    }
  }

  /** Each entry of a parsed list is the value of the token at its position. */
  lemma {:induction false} ParseIdsAt(tokens: seq<string>, i: nat)
    requires i < |tokens| && ParseIds(tokens).Some?
    ensures ParseInt(tokens[i]).Some? && ParseIds(tokens).value[i] == ParseInt(tokens[i]).value
    decreases i
  {
    ParseIdsCons(tokens);
    if i > 0 {
      ParseIdsAt(tokens[1..], i - 1);
      assert tokens[1..][i - 1] == tokens[i];
    }
  }

  /** A parsed list is the first token's value followed by the rest's. */
  lemma ParseIdsCons(tokens: seq<string>)
    requires tokens != [] && ParseIds(tokens).Some?
    ensures ParseInt(tokens[0]).Some? && ParseIds(tokens[1..]).Some?
    ensures ParseIds(tokens) == Some([ParseInt(tokens[0]).value] + ParseIds(tokens[1..]).value)
  {
  }

  /**
   * The list built by `handle_topbrand_command` and
   * `handle_topcategory_command`: `[]` when the text has no remainder after
   * its first word, else the integers of the stripped remainder split at
   * single spaces.
   */
  function ExcludeIds(text: string): Option<seq<int>> {
    var parts := SplitMaxOne(text);
    if |parts| < 2 then Some([]) else ParseIds(Split(Strip(parts[1]), ' '))
  }

  /**
   * The command word followed by one space and the space-joined ids parses
   * back into exactly those ids, the empty list included.
   */
  lemma ExcludeIdsRoundTrip(command: string, ids: seq<int>)
    requires |command| > 0 && NoSpace(command)
    ensures ExcludeIds(command + " " + IdsText(ids)) == Some(ids)
  {
    var j := IdsText(ids);
    if ids == [] {
      assert command + " " + j == command + " ";
      SplitCommandAlone(command);
    } else {
      SplitMaxOneWords(command, " ", j);
      StripNoOp(j);
      IdsTextParses(ids);
    }
  }

  /** The command word and one space alone split into the word. */
  lemma SplitCommandAlone(command: string)
    requires |command| > 0 && NoSpace(command)
    ensures SplitMaxOne(command + " ") == [command]
  {
    var s := command + " ";
    assert LStrip(s) == s;
    WordEndOfPrefix(command, " ");
    assert s[|command|..] == " ";
    assert LStrip(" ") == "";
  }

  /** The space-joined ids split at single spaces parse back into the ids. */
  lemma IdsTextParses(ids: seq<int>)
    requires ids != []
    ensures ParseIds(Split(IdsText(ids), ' ')) == Some(ids)
  {
    var toks := Split(IdsText(ids), ' ');
    forall i | 0 <= i < |toks| ensures ParseInt(toks[i]) == Some(ids[i]) {
      ParseIntToString(ids[i]);
    }
    ParseIdsValues(toks);
    var r := ParseIds(toks);
    assert r.value == ids;
  }

  /** A second space after an id yields an empty token, on which `int` raises. */
  lemma DoubleSpaceRaises(p: string, q: string)
    requires ' ' !in p
    ensures ParseIds(Split(p + "  " + q, ' ')) == None
  {
    assert p + "  " + q == p + [' '] + ([' '] + q);
    SplitAfterSep(p, [' '] + q, ' ');
    assert ([' '] + q)[1..] == q;
    var toks := Split(p + "  " + q, ' ');
    assert toks[1] == "";
    assert ParseInt("").None?;
    ParseIdsSome(toks);
  }

  // ---------------------------------------------------------------------
  // The media type of a picture

  datatype MediaType = Link(url: string) | Telegram(fileId: string)

  /** `media.lower().startswith(("http://", "https://"))` picks a link; everything else is a Telegram file id. */
  function MediaTypeOf(media: string): (t: MediaType)
    ensures t.Link? <==> StartsWith(Lower(media), "http://") || StartsWith(Lower(media), "https://")
    ensures t == Link(media) || t == Telegram(media)
  {
    var low := Lower(media);
    if StartsWith(low, "http://") || StartsWith(low, "https://") then Link(media) else Telegram(media)
  }

  /** The `image_type` stored with the picture. */
  function ImageTypeName(t: MediaType): string {
    match t
    case Link(_) => "link"
    case Telegram(_) => "telegram"
  }

  /** The scheme is matched in any letter case. */
  lemma MediaTypeUpperCase(rest: string)
    ensures MediaTypeOf("HTTPS://" + rest) == Link("HTTPS://" + rest)
    ensures MediaTypeOf("Http://" + rest) == Link("Http://" + rest)
  {
    var a := "HTTPS://" + rest;
    assert Lower(a)[..8] == "https://" by {
      assert forall i :: 0 <= i < 8 ==> Lower(a)[i] == LowerChar(a[i]);
    }
    var b := "Http://" + rest;
    assert Lower(b)[..7] == "http://" by {
      assert forall i :: 0 <= i < 7 ==> Lower(b)[i] == LowerChar(b[i]);
    }
  }

  /** A Telegram file id, which has no ':', is never taken for a link. */
  lemma FileIdIsTelegram(media: string)
    requires ':' !in media
    ensures MediaTypeOf(media) == Telegram(media)
  {
    var low := Lower(media);
    if |low| >= 5 {
      assert low[4] == LowerChar(media[4]) && media[4] != ':';
    }
    if |low| >= 6 {
      assert low[5] == LowerChar(media[5]) && media[5] != ':';
    }
  }

  // ---------------------------------------------------------------------
  // The Wildberries size and price summary of `wb`

  /** A `product` or `basic` entry of a size's price dict: missing, `None` or a kopeck amount. */
  datatype Kopecks = Absent | Null | Amount(value: int)

  /**
   * `size.get("price", None)`: `Falsy` for a missing key, `None` and an
   * empty dict; otherwise a non-empty dict with its two entries.
   */
  datatype PriceField = Falsy | PriceDict(product: Kopecks, basic: Kopecks)

  /** One element of `product["sizes"]`: its name, its number of stocks and its price. */
  datatype RawSize = RawSize(name: string, stockCount: nat, price: PriceField)

  /** The `obj` the loop appends; `price` is in kopecks and `None` when the key is not set. */
  datatype SizeEntry = SizeEntry(name: string, available: bool, price: Option<int>)

  /**
   * One iteration of the sizes loop; `None` stands for the `TypeError` of
   * `None / 100` when `product` is unset and `basic` is an explicit `None`.
   */
  function SizeEntryOf(raw: RawSize): (e: Option<SizeEntry>)
    ensures e.None? <==> raw.price.PriceDict? && !raw.price.product.Amount? && raw.price.basic.Null?
    ensures e.Some? ==> e.value.name == raw.name && (e.value.available <==> raw.stockCount > 0)
    ensures e.Some? ==> (e.value.price.None? <==> raw.price.Falsy?)
    ensures e.Some? && raw.price.PriceDict? && raw.price.product.Amount? ==> e.value.price == Some(raw.price.product.value)
    ensures e.Some? && raw.price.PriceDict? && !raw.price.product.Amount? && raw.price.basic.Amount? ==>
      e.value.price == Some(raw.price.basic.value)
    ensures e.Some? && raw.price.PriceDict? && !raw.price.product.Amount? && raw.price.basic.Absent? ==>
      e.value.price == Some(0)
  {
    var available := raw.stockCount > 0;
    match raw.price
    case Falsy => Some(SizeEntry(raw.name, available, None))
    case PriceDict(product, basic) =>
      if product.Amount? then Some(SizeEntry(raw.name, available, Some(product.value)))
      else match basic
        case Absent => Some(SizeEntry(raw.name, available, Some(0)))
        case Null => None
        case Amount(v) => Some(SizeEntry(raw.name, available, Some(v)))
  }

  /** The entries of the sizes loop, or `None` when an iteration raises. */
  function SizeEntries(raws: seq<RawSize>): (r: Option<seq<SizeEntry>>)
    ensures r.Some? <==> forall i :: 0 <= i < |raws| ==> SizeEntryOf(raws[i]).Some?
    ensures r.Some? ==> |r.value| == |raws| && forall i :: 0 <= i < |raws| ==> Some(r.value[i]) == SizeEntryOf(raws[i])
    decreases |raws|
  {
    if raws == [] then Some([])
    else
      var rest := SizeEntries(raws[1..]);
      assert forall i :: 1 <= i < |raws| ==> raws[i] == raws[1..][i - 1];
      match SizeEntryOf(raws[0])
      case None => None
      case Some(e) => if rest.None? then None else Some([e] + rest.value)
  }

  /** The `for size in product["sizes"]` loop that appends one entry per size. */
  method SummariseSizes(raws: seq<RawSize>) returns (r: Option<seq<SizeEntry>>)
    ensures r == SizeEntries(raws)
  {
    var sizes: seq<SizeEntry> := [];
    for i := 0 to |raws|
      invariant |sizes| == i
      invariant forall k :: 0 <= k < i ==> Some(sizes[k]) == SizeEntryOf(raws[k])
    {
      var e := SizeEntryOf(raws[i]);
      if e.None? {
        return None;
      }
      sizes := sizes + [e.value];
    }
    r := Some(sizes);
    var expected := SizeEntries(raws);
    assert expected.Some?;
    assert sizes == expected.value;
  }

  /** `{s.get("price", None) for s in sizes if s["available"]}` */
  function ActivePrices(es: seq<SizeEntry>): set<Option<int>> {
    set i | 0 <= i < |es| && es[i].available :: es[i].price
  }

  predicate ShowCommonPrice(es: seq<SizeEntry>) {
    |ActivePrices(es)| == 1
  }

  lemma SingletonMembers<T>(s: set<T>, a: T, b: T)
    requires |s| == 1 && a in s && b in s
    ensures a == b
  {
    var rest := s - {a};
    assert s == rest + {a};
    assert |rest| == 0;
    assert b !in rest;
  }

  /** `next(iter(active_prices))`: the element of a one-element set, here the price of the first available size. */
  function CommonPrice(es: seq<SizeEntry>): (p: Option<int>)
    requires ShowCommonPrice(es)
    ensures p in ActivePrices(es) && forall i :: 0 <= i < |es| && es[i].available ==> es[i].price == p
    decreases |es|
  {
    if es[0].available then
      assert es[0].price in ActivePrices(es);
      forall i | 0 <= i < |es| && es[i].available ensures es[i].price == es[0].price {
        assert es[i].price in ActivePrices(es);
        SingletonMembers(ActivePrices(es), es[i].price, es[0].price);
      }
      es[0].price
    else
      assert ActivePrices(es) == ActivePrices(es[1..]) by {
        forall x | x in ActivePrices(es) ensures x in ActivePrices(es[1..]) {
          var i :| 0 <= i < |es| && es[i].available && es[i].price == x;
          assert es[1..][i - 1] == es[i];
        }
        forall x | x in ActivePrices(es[1..]) ensures x in ActivePrices(es) {
          var i :| 0 <= i < |es[1..]| && es[1..][i].available && es[1..][i].price == x;
          assert es[i + 1] == es[1..][i];
        }
      }
      var p := CommonPrice(es[1..]);
      forall i | 0 <= i < |es| && es[i].available ensures es[i].price == p {
        assert es[1..][i - 1] == es[i];
      }
      p
  }

  /** `f"{common_price}"`, which prints `None` for sizes without a price. */
  function PriceText(p: Option<int>): string {
    match p
    case None => "None"
    case Some(k) => HundredthsText(k)
  }

  /** A size's mark and bold name. */
  function SizeLabel(e: SizeEntry): string {
    Concat([LinkHandling.Mark(e.available), " <b>", e.name, "</b>"])
  }

  /**
   * One size in the list of sizes. As written the per-size price suffix
   * is guarded by `hasattr(size, 'price')`, false for every dict; with
   * `intended` the guard is `'price' in size`.
   */
  function SizeText(e: SizeEntry, showCommon: bool, intended: bool): (t: string)
    ensures !intended ==> t == SizeLabel(e)
    ensures intended && !showCommon && e.price.Some? ==> t == SizeLabel(e) + " — " + HundredthsText(e.price.value) + " ₽"
  {
    var suffix := if intended && !showCommon && e.price.Some? then " — " + HundredthsText(e.price.value) + " ₽" else "";
    SizeLabel(e) + suffix
  }

  function SizesLine(es: seq<SizeEntry>, intended: bool): string {
    Join(", ", seq(|es|, i requires 0 <= i < |es| => SizeText(es[i], ShowCommonPrice(es), intended)))
  }

  /**
   * The lines of the caption: the heading with the article, the brand and
   * the linked name, the common price line exactly when the available
   * sizes have a single price, the sizes heading and the list of sizes.
   */
  function WbLines(sku: string, brand: string, name: string, es: seq<SizeEntry>, intended: bool): (lines: seq<string>)
    ensures |lines| == if ShowCommonPrice(es) then 5 else 4
    ensures lines[0] == "Разбор карточки WB <code>" + sku + "</code>"
    ensures lines[1] == brand + " <a href=\"https://wildberries.ru/catalog/" + sku + "/detail.aspx\">" + name + "</a>"
    ensures ShowCommonPrice(es) ==> lines[2] == "Цена: " + PriceText(CommonPrice(es)) + " ₽"
    ensures lines[|lines| - 2] == "Размеры и цена:" && lines[|lines| - 1] == SizesLine(es, intended)
  {
    ["Разбор карточки WB <code>" + sku + "</code>",
     brand + " <a href=\"https://wildberries.ru/catalog/" + sku + "/detail.aspx\">" + name + "</a>"]
    + (if ShowCommonPrice(es) then ["Цена: " + PriceText(CommonPrice(es)) + " ₽"] else [])
    + ["Размеры и цена:", SizesLine(es, intended)]
  }

  /** `card["products"][0]` as far as `wb` reads it; `None` when a key is missing or the body is not JSON. */
  datatype WbProduct = WbProduct(brand: string, name: string, sizes: seq<RawSize>)

  /**
   * `wb(card_id, context)` after the card request: `None` when the card is
   * unreadable, the image URL is falsy or a price raises; otherwise the
   * picture whose caption joins the lines with newlines.
   */
  function WbCard(cardId: string, product: Option<WbProduct>, imageUrl: Option<string>, intended: bool)
    : (p: Option<LinkHandling.Picture>)
    ensures p.Some? <==> product.Some? && imageUrl.Some? && imageUrl.value != "" && SizeEntries(product.value.sizes).Some?
    ensures p.Some? ==>
      p.value.media == imageUrl.value && p.value.parseMode == "HTML"
      && p.value.caption == Join("\n", WbLines(cardId, product.value.brand, product.value.name,
                                              SizeEntries(product.value.sizes).value, intended))
  {
    if product.None? || imageUrl.None? || imageUrl.value == "" then None
    else
      match SizeEntries(product.value.sizes)
      case None => None
      case Some(es) =>
        Some(LinkHandling.Picture(imageUrl.value, Join("\n", WbLines(cardId, product.value.brand, product.value.name, es, intended)), "HTML"))
  }

  /** As written, no size ever shows its own price, whatever the prices are. */
  lemma SizesLineIgnoresPrices(es: seq<SizeEntry>)
    ensures SizesLine(es, false) == Join(", ", seq(|es|, i requires 0 <= i < |es| => SizeLabel(es[i])))
  {
    assert seq(|es|, i requires 0 <= i < |es| => SizeText(es[i], ShowCommonPrice(es), false))
        == seq(|es|, i requires 0 <= i < |es| => SizeLabel(es[i]));
  }

  lemma Concat4(a: string, b: string, c: string, d: string)
    ensures Concat([a, b, c, d]) == a + b + c + d
  {
    assert [a, b, c, d][1..] == [b, c, d] && [b, c, d][1..] == [c, d] && [c, d][1..] == [d];
    assert Concat([d]) == d;
    assert Concat([c, d]) == c + d;
    assert Concat([b, c, d]) == b + c + d;
  }

  /** Two available sizes priced 1 and 2 roubles have no common price. */
  lemma TwoPricesNotCommon()
    ensures !ShowCommonPrice([SizeEntry("S", true, Some(100)), SizeEntry("M", true, Some(200))])
  {
    var es := [SizeEntry("S", true, Some(100)), SizeEntry("M", true, Some(200))];
    assert es[0].price in ActivePrices(es) && es[1].price in ActivePrices(es);
    forall x | x in ActivePrices(es) ensures x == Some(100) || x == Some(200) {
      var i :| 0 <= i < |es| && es[i].available && es[i].price == x;
    }
    assert ActivePrices(es) == {Some(100), Some(200)};
  }

  /** The list of two sizes that have no common price. */
  lemma SizesLineTwo(e0: SizeEntry, e1: SizeEntry, intended: bool)
    requires !ShowCommonPrice([e0, e1])
    ensures SizesLine([e0, e1], intended) == SizeText(e0, false, intended) + ", " + SizeText(e1, false, intended)
  {
    var es := [e0, e1];
    var parts := seq(|es|, i requires 0 <= i < |es| => SizeText(es[i], ShowCommonPrice(es), intended));
    assert |parts| == 2 && parts[0] == SizeText(e0, false, intended) && parts[1] == SizeText(e1, false, intended);
    JoinTwo(", ", parts);
  }

  lemma AvailableLabel(name: string, price: Option<int>)
    ensures SizeLabel(SizeEntry(name, true, price)) == "✅ <b>" + name + "</b>"
  {
    Concat4("✅", " <b>", name, "</b>");
  }

  /** For those two sizes, as written, the list shows neither price, though no common line does. */
  lemma TwoPricesAsWritten()
    ensures SizesLine([SizeEntry("S", true, Some(100)), SizeEntry("M", true, Some(200))], false)
      == "✅ <b>S</b>, ✅ <b>M</b>"
  {
    TwoPricesNotCommon();
    SizesLineTwo(SizeEntry("S", true, Some(100)), SizeEntry("M", true, Some(200)), false);
    AvailableLabel("S", Some(100));
    AvailableLabel("M", Some(200));
  }

  /** With the intended guard the same list carries each size's own price. */
  lemma TwoPricesIntended()
    ensures SizesLine([SizeEntry("S", true, Some(100)), SizeEntry("M", true, Some(200))], true)
      == "✅ <b>S</b> — 1.0 ₽, ✅ <b>M</b> — 2.0 ₽"
  {
    TwoPricesNotCommon();
    SizesLineTwo(SizeEntry("S", true, Some(100)), SizeEntry("M", true, Some(200)), true);
    PricedSize("S", 100, "1.0");
    PricedSize("M", 200, "2.0");
    TwoPricesText();
  }

  lemma TwoPricesText()
    ensures ("✅ <b>" + "S" + "</b> — " + "1.0" + " ₽") + ", " + ("✅ <b>" + "M" + "</b> — " + "2.0" + " ₽")
      == "✅ <b>S</b> — 1.0 ₽, ✅ <b>M</b> — 2.0 ₽"
  {
  }

  /** An available size with its own price shown, the price written `text`. */
  lemma PricedSize(name: string, kopecks: int, text: string)
    requires kopecks >= 0 && kopecks % 100 == 0 && text == NatToString(kopecks / 100) + ".0"
    ensures SizeText(SizeEntry(name, true, Some(kopecks)), false, true) == "✅ <b>" + name + "</b> — " + text + " ₽"
  {
    AvailableLabel(name, Some(kopecks));
    assert HundredthsText(kopecks) == text;
  }

  /**
   * With the intended guard every priced available size shows its price:
   * on the common line when it is shown, else in its own entry.
   */
  lemma IntendedShowsEveryPrice(es: seq<SizeEntry>, i: nat)
    requires i < |es| && es[i].available && es[i].price.Some?
    ensures ShowCommonPrice(es) ==> CommonPrice(es) == es[i].price
    ensures !ShowCommonPrice(es) ==>
      SizeText(es[i], false, true) == SizeLabel(es[i]) + " — " + HundredthsText(es[i].price.value) + " ₽"
  {
  }

  // ---------------------------------------------------------------------
  // send_to_marketing_group

  /** The keys of one item dict that the marketing send reads. */
  datatype MarketingItem = MarketingItem(id: int, name: string, caption: Option<string>, brand: string,
                                         platform: string, count: int)

  /** The item dict built by the ranking queries. */
  function ItemOfRow(r: Ranking.Row): (it: MarketingItem)
    ensures it.id == r.item.id && it.count == r.count && it.platform == r.item.productTypeDisplay
  {
    MarketingItem(r.item.id, r.item.name, r.item.caption, r.item.brand, r.item.productTypeDisplay, r.count)
  }

  function ItemsOfRows(rows: seq<Ranking.Row>): (items: seq<MarketingItem>)
    ensures |items| == |rows| && forall i :: 0 <= i < |rows| ==> items[i] == ItemOfRow(rows[i])
  {
    seq(|rows|, i requires 0 <= i < |rows| => ItemOfRow(rows[i]))
  }

  /**
   * `BotSettings.get_active()`: an active record and its
   * `marketing_group_id`, or the default dict, on which reading the
   * attribute raises.
   */
  datatype Settings = ActiveSettings(marketingGroupId: Option<string>) | DefaultDict

  /** `EventCaption.aget_active_by_type(...)`: the stripped text and caption, `None` when empty. */
  datatype EventTemplate = EventTemplate(text: Option<string>, caption: Option<string>)

  datatype MediaPhoto = MediaPhoto(fileId: string, caption: string)

  /** What reaches the marketing group: nothing, or the header and the (possibly empty, so unsent) media group. */
  datatype Delivery = NothingSent | Delivered(chatId: string, header: string, media: seq<MediaPhoto>)

  /** `f"{i}. <b>{name}</b> ({brand}, {platform}) — {count} запросов\n"` */
  function ItemLine(i: int, it: MarketingItem): string {
    Concat([IntToString(i), ". <b>", it.name, "</b> (", it.brand, ", ", it.platform, ") — ",
            IntToString(it.count), " запросов\n"])
  }

  /** The item lines, the first numbered `start`. */
  function Lines(items: seq<MarketingItem>, start: int): string
    decreases |items|
  {
    if items == [] then ""
    else Lines(items[..|items| - 1], start) + ItemLine(start + |items| - 1, items[|items| - 1])
  }

  /** The lines of consecutive runs of items follow each other, numbering on. */
  lemma {:induction false} LinesAppend(a: seq<MarketingItem>, b: seq<MarketingItem>, start: int)
    ensures Lines(a + b, start) == Lines(a, start) + Lines(b, start + |a|)
    decreases |b|
  {
    if b == [] {
      assert a + b == a;
    } else {
      LinesAppend(a, b[..|b| - 1], start);
      LinesAppendStep(a, b, start);
    }
  }

  /** One more item at the end of the second run keeps the two runs' lines in step. */
  lemma LinesAppendStep(a: seq<MarketingItem>, b: seq<MarketingItem>, start: int)
    requires b != []
    requires Lines(a + b[..|b| - 1], start) == Lines(a, start) + Lines(b[..|b| - 1], start + |a|)
    ensures Lines(a + b, start) == Lines(a, start) + Lines(b, start + |a|)
  {
    var line := ItemLine(start + |a| + |b| - 1, b[|b| - 1]);
    var x, y := Lines(a, start), Lines(b[..|b| - 1], start + |a|);
    LinesLastOfConcat(a, b, start);
    LinesLast(b, start + |a|);
    AppendAssoc(x, y, line);
  }

  /** The last line of two runs of items is that of the second run's last item. */
  lemma LinesLastOfConcat(a: seq<MarketingItem>, b: seq<MarketingItem>, start: int)
    requires b != []
    ensures Lines(a + b, start) == Lines(a + b[..|b| - 1], start) + ItemLine(start + |a| + |b| - 1, b[|b| - 1])
  {
    assert (a + b)[..|a + b| - 1] == a + b[..|b| - 1];
    LinesLast(a + b, start);
  }

  /** The last item's line comes after the lines of the items before it. */
  lemma LinesLast(items: seq<MarketingItem>, start: int)
    requires items != []
    ensures Lines(items, start) == Lines(items[..|items| - 1], start) + ItemLine(start + |items| - 1, items[|items| - 1])
  {
  }

  /** Item `k` is on the line numbered `start + k`, after the lines of the items before it. */
  lemma LinesNumbering(items: seq<MarketingItem>, k: nat, start: int)
    requires k < |items|
    ensures Lines(items, start) ==
      Lines(items[..k], start) + ItemLine(start + k, items[k]) + Lines(items[k + 1..], start + k + 1)
  {
    assert items == items[..k] + [items[k]] + items[k + 1..];
    LinesAppend(items[..k] + [items[k]], items[k + 1..], start);
    LinesAppend(items[..k], [items[k]], start);
    assert Lines([items[k]], start + k) == ItemLine(start + k, items[k]) by {
      assert [items[k]][..0] == [];
    }
  }

  /** The context passed to `render_template` for one item. */
  function CaptionContext(it: MarketingItem): Templates.Context
    requires it.caption.Some?
  {
    [("name", Some(it.name)), ("caption_text", Some(Strip(it.caption.value))), ("brand", Some(it.brand)),
     ("platform", Some(it.platform)), ("count", Some(IntToString(it.count)))]
  }

  predicate Captioned(items: seq<MarketingItem>) {
    forall i :: 0 <= i < |items| ==> items[i].caption.Some?
  }

  /** The product's first Telegram image has a non-empty file id. */
  predicate HasPhoto(images: map<int, Option<string>>, id: int) {
    id in images && images[id].Some? && images[id].value != ""
  }

  /**
   * The media group: one photo per item that has one, in item order.
   * `images` maps each existing product id to the file id of its first
   * Telegram image; a missing id is the `DoesNotExist` the loop skips.
   */
  function MediaGroup(items: seq<MarketingItem>, images: map<int, Option<string>>, template: Option<string>)
    : (m: seq<MediaPhoto>)
    requires Captioned(items)
    ensures |m| <= |items|
    ensures forall j :: 0 <= j < |m| ==> m[j].fileId != ""
    ensures (forall i :: 0 <= i < |items| ==> HasPhoto(images, items[i].id)) ==> |m| == |items|
    ensures (forall i :: 0 <= i < |items| ==> !HasPhoto(images, items[i].id)) ==> m == []
    decreases |items|
  {
    if items == [] then []
    else
      var init := items[..|items| - 1];
      var last := items[|items| - 1];
      assert forall i :: 0 <= i < |init| ==> init[i] == items[i];
      MediaGroup(init, images, template)
      + if HasPhoto(images, last.id)
        then [MediaPhoto(images[last.id].value, Templates.Render(template, CaptionContext(last)))]
        else []
  }

  /** The last item adds its photo, if it has one, after those of the items before it. */
  lemma MediaGroupLast(items: seq<MarketingItem>, images: map<int, Option<string>>, template: Option<string>)
    requires items != [] && Captioned(items)
    ensures Captioned(items[..|items| - 1])
    ensures var last := items[|items| - 1];
      MediaGroup(items, images, template) == MediaGroup(items[..|items| - 1], images, template)
      + if HasPhoto(images, last.id)
        then [MediaPhoto(images[last.id].value, Templates.Render(template, CaptionContext(last)))]
        else []
  {
    var init := items[..|items| - 1];
    assert forall i :: 0 <= i < |init| ==> init[i] == items[i];
  }

  /**
   * `send_to_marketing_group(items, event_type, ...)` for a message from
   * `firstName`. Every early return and every exception the method
   * catches before the header is sent ends in `NothingSent`; an item
   * without a caption stops it after the header.
   */
  function Marketing(firstName: string, settings: Settings, items: seq<MarketingItem>,
                     template: Option<EventTemplate>, images: map<int, Option<string>>): Delivery
  {
    if firstName != Sentinel || settings.DefaultDict? then NothingSent
    else if settings.marketingGroupId.None? || settings.marketingGroupId.value == "" then NothingSent
    else if items == [] || template.None? || template.value.text.None? then NothingSent
    else
      var header := template.value.text.value + Lines(items, 1);
      Delivered(settings.marketingGroupId.value, header,
                if Captioned(items) then MediaGroup(items, images, template.value.caption) else [])
  }

  /**
   * Something is sent exactly for the sentinel sender, an active record
   * with a group id, some items and a template with a text; then the
   * header goes to that group and starts with the template's text.
   */
  lemma MarketingDelivers(firstName: string, settings: Settings, items: seq<MarketingItem>,
                          template: Option<EventTemplate>, images: map<int, Option<string>>)
    ensures var d := Marketing(firstName, settings, items, template, images);
      d.Delivered? <==> firstName == Sentinel && settings.ActiveSettings? && settings.marketingGroupId.Some?
                        && settings.marketingGroupId.value != "" && items != [] && template.Some?
                        && template.value.text.Some?
    ensures var d := Marketing(firstName, settings, items, template, images);
      d.Delivered? ==> d.chatId == settings.marketingGroupId.value
                       && StartsWith(d.header, template.value.text.value)
                       && |d.media| <= |items|
                       && ((exists i :: 0 <= i < |items| && items[i].caption.None?) ==> d.media == [])
  {
  }

  /** The `message +=` loop: the template text, then one numbered line per item. */
  method BuildHeader(text: string, items: seq<MarketingItem>) returns (message: string)
    ensures message == text + Lines(items, 1)
  {
    message := text;
    for i := 0 to |items|
      invariant message == text + Lines(items[..i], 1)
    {
      assert items[..i + 1][..i] == items[..i];
      message := message + ItemLine(i + 1, items[i]);
    }
    assert items[..|items|] == items;
  }

  /**
   * The media loop; `None` when an item's caption is `None`, on which
   * `.strip()` raises.
   */
  method BuildMediaGroup(items: seq<MarketingItem>, images: map<int, Option<string>>, template: Option<string>)
    returns (media: Option<seq<MediaPhoto>>)
    ensures media.Some? <==> Captioned(items)
    ensures media.Some? ==> media.value == MediaGroup(items, images, template)
  {
    var group: seq<MediaPhoto> := [];
    for i := 0 to |items|
      invariant Captioned(items[..i])
      invariant group == MediaGroup(items[..i], images, template)
    {
      var it := items[i];
      if it.caption.None? {
        assert !Captioned(items) by {
          assert items[i].caption.None?;
        }
        return None;
      }
      var caption := Templates.RenderTemplate(template, CaptionContext(it));
      var prefix := items[..i + 1];
      assert prefix[..|prefix| - 1] == items[..i] && prefix[|prefix| - 1] == it;
      assert Captioned(prefix) by {
        assert forall k :: 0 <= k < i ==> prefix[k] == items[..i][k];
      }
      MediaGroupLast(prefix, images, template);
      if HasPhoto(images, it.id) {
        group := group + [MediaPhoto(images[it.id].value, caption)];
      }
    }
    assert items[..|items|] == items;
    media := Some(group);
  }

  /** `send_to_marketing_group`, step by step. */
  method SendToMarketingGroup(firstName: string, settings: Settings, items: seq<MarketingItem>,
                              template: Option<EventTemplate>, images: map<int, Option<string>>)
    returns (d: Delivery)
    ensures d == Marketing(firstName, settings, items, template, images)
  {
    if firstName != Sentinel {
      return NothingSent;
    }
    if settings.DefaultDict? {
      return NothingSent;
    }
    var target := settings.marketingGroupId;
    if target.None? || target.value == "" {
      return NothingSent;
    }
    if items == [] || template.None? || template.value.text.None? {
      return NothingSent;
    }
    var header := BuildHeader(template.value.text.value, items);
    var media := BuildMediaGroup(items, images, template.value.caption);
    d := Delivered(target.value, header, if media.Some? then media.value else []);
  }

  /**
   * `handle_topbrand_command`: the items handed to the marketing send, for
   * the last 24 hours and at most 5 products; `None` when the handler
   * raises first, on a malformed id or on the `{}` of no brand.
   */
  function TopBrandItems(text: string, sends: seq<Ranking.Send>, catalog: Ranking.Catalog, now: int)
    : Option<seq<MarketingItem>>
  {
    match ExcludeIds(text)
    case None => None
    case Some(ids) =>
      match Ranking.BrandAndTopProducts(sends, catalog, now, 24, 0, ids, 5)
      case NoBrand => None
      case BrandTop(_, rows) => Some(ItemsOfRows(rows))
  }

  /**
   * Once its ids parse, the brand command reaches the marketing send
   * exactly when some product qualifies.
   */
  lemma TopBrandItemsReached(text: string, sends: seq<Ranking.Send>, catalog: Ranking.Catalog, now: int)
    requires ExcludeIds(text).Some?
    ensures TopBrandItems(text, sends, catalog, now).None? <==>
      forall p :: !Ranking.Qualifies(catalog, Ranking.Window(sends, Ranking.Threshold(now, 24, 0)), ExcludeIds(text).value, p)
  {
    Ranking.BrandNone(sends, catalog, now, 24, 0, ExcludeIds(text).value, 5);
  }

  /** Items of sorted rows with distinct products keep that order and distinctness. */
  lemma ItemsOfSortedRows(rows: seq<Ranking.Row>)
    requires Ranking.Sorted(rows)
    requires forall i, j :: 0 <= i < j < |rows| ==> rows[i].item.id != rows[j].item.id
    ensures var items := ItemsOfRows(rows);
      forall i, j :: 0 <= i < j < |items| ==> items[i].id != items[j].id && items[i].count >= items[j].count
  {
    var items := ItemsOfRows(rows);
    forall i, j | 0 <= i < j < |items| ensures items[i].id != items[j].id && items[i].count >= items[j].count {
      assert Ranking.RanksAbove(rows[i], rows[j]);
    }
  }

  /**
   * When the brand command reaches the marketing send, it passes the items
   * of the chosen brand's top rows: at most five, ranked, one per product,
   * the top five of the window's sends of that brand's products, each with
   * its in-window count and latest send.
   */
  lemma TopBrandItemsRanked(text: string, sends: seq<Ranking.Send>, catalog: Ranking.Catalog, now: int)
    requires TopBrandItems(text, sends, catalog, now).Some?
    ensures var items := TopBrandItems(text, sends, catalog, now).value;
      var r := Ranking.BrandAndTopProducts(sends, catalog, now, 24, 0, ExcludeIds(text).value, 5);
      var w := Ranking.Window(sends, Ranking.Threshold(now, 24, 0));
      r.BrandTop? && items == ItemsOfRows(r.topProducts)
      && Ranking.TopOf(Ranking.BrandSends(w, catalog, r.brand.id), r.topProducts, 5)
      && (forall i, j :: 0 <= i < j < |items| ==> items[i].id != items[j].id && items[i].count >= items[j].count)
      && forall i :: 0 <= i < |items| ==>
           var p := items[i].id;
           Ranking.Branded(catalog, p) && Ranking.BrandOf(catalog, p) == r.brand.id
           && Ranking.Sent(w, p) && items[i].count == Ranking.Count(w, p)
           && r.topProducts[i].lastSent == Ranking.LastSent(w, p)
  {
    TopBrandItemsOfRows(text, sends, catalog, now);
    var r := Ranking.BrandAndTopProducts(sends, catalog, now, 24, 0, ExcludeIds(text).value, 5);
    Ranking.BrandTopProducts(sends, catalog, now, 24, 0, ExcludeIds(text).value, 5);
    BrandItemsOfRows(Ranking.Window(sends, Ranking.Threshold(now, 24, 0)), catalog, r.brand.id, r.topProducts);
  }

  /** A brand command that reaches the marketing send passes the items of the chosen brand's rows. */
  lemma TopBrandItemsOfRows(text: string, sends: seq<Ranking.Send>, catalog: Ranking.Catalog, now: int)
    requires TopBrandItems(text, sends, catalog, now).Some?
    ensures ExcludeIds(text).Some?
    ensures var r := Ranking.BrandAndTopProducts(sends, catalog, now, 24, 0, ExcludeIds(text).value, 5);
      r.BrandTop? && TopBrandItems(text, sends, catalog, now).value == ItemsOfRows(r.topProducts)
  {
  }

  /** The items of the brand's top rows keep their products, ranking and in-window counts. */
  lemma BrandItemsOfRows(w: seq<Ranking.Send>, catalog: Ranking.Catalog, b: int, rows: seq<Ranking.Row>)
    requires Ranking.TopOf(Ranking.BrandSends(w, catalog, b), rows, 5)
    requires forall i :: 0 <= i < |rows| ==>
      var p := rows[i].item.id;
      Ranking.Branded(catalog, p) && Ranking.BrandOf(catalog, p) == b
      && Ranking.Sent(w, p) && rows[i].count == Ranking.Count(w, p) && rows[i].lastSent == Ranking.LastSent(w, p)
    ensures var items := ItemsOfRows(rows);
      (forall i, j :: 0 <= i < j < |items| ==> items[i].id != items[j].id && items[i].count >= items[j].count)
      && forall i :: 0 <= i < |items| ==>
           var p := items[i].id;
           Ranking.Branded(catalog, p) && Ranking.BrandOf(catalog, p) == b
           && Ranking.Sent(w, p) && items[i].count == Ranking.Count(w, p)
           && rows[i].lastSent == Ranking.LastSent(w, p)
  {
    ItemsOfSortedRows(rows);
  }

  /**
   * `handle_popular_command`: the popular products of the last 24 hours,
   * the top 5 rows of the window, passed to the marketing send as items.
   */
  method HandlePopular(sends: seq<Ranking.Send>, catalog: Ranking.Catalog, now: int, firstName: string,
                       settings: Settings, template: Option<EventTemplate>, images: map<int, Option<string>>)
    returns (d: Delivery, rows: seq<Ranking.Row>, items: seq<MarketingItem>)
    requires Ranking.Consistent(sends, catalog)
    ensures Ranking.TopOf(Ranking.Window(sends, Ranking.Threshold(now, 24, 0)), rows, 5)
    ensures items == ItemsOfRows(rows) && d == Marketing(firstName, settings, items, template, images)
    ensures forall i :: 0 <= i < |items| ==>
      var w := Ranking.Window(sends, Ranking.Threshold(now, 24, 0));
      Ranking.Sent(w, items[i].id) && items[i].count == Ranking.Count(w, items[i].id)
    ensures forall i, j :: 0 <= i < j < |items| ==> items[i].id != items[j].id && items[i].count >= items[j].count
  {
    rows := Ranking.PopularProducts(sends, catalog, now, 24, 0, 5);
    items := ItemsOfRows(rows);
    ItemsOfSortedRows(rows);
    d := SendToMarketingGroup(firstName, settings, items, template, images);
  }
}
