/**
 * The pure parts of the first parser bot, app/tg_bot/bot/parser.py: the
 * picture and caption that `wb` builds from a Wildberries card, and the
 * branch of `parse_ozon` that an Ozon page falls into. The link loop, the
 * media groups and `/search` are the ones of LinkHandling.
 */
module ParserBot {
  import opened Wrappers
  import opened Text
  import LinkHandling
  import WbImageUrl

  // ---------------------------------------------------------------------
  // wb: probing for the picture

  /**
   * One HEAD request for a picture: the status and `int(content-length)`
   * (`0` when the header is missing, `None` when `int` raises), or a client
   * error.
   */
  datatype Probe = Answered(status: int, contentLength: Option<int>) | RequestFailed

  /** The pictures tried, in order. */
  const ImageNames: seq<string> := ["1.webp", "1.jpg"]

  /** Pictures larger than this are uploaded to the picture chat first. */
  const MaxSize: int := 51000

  /** The probe that assigns `image_size` and breaks out of the loop. */
  predicate Hit(p: Probe) {
    p.Answered? && p.status == 200 && p.contentLength.Some?
  }

  /** The first probe that hits. */
  function FirstHit(probes: seq<Probe>): (k: Option<nat>)
    ensures k.Some? ==> k.value < |probes| && Hit(probes[k.value]) && forall j :: 0 <= j < k.value ==> !Hit(probes[j])
    ensures k.None? ==> forall j :: 0 <= j < |probes| ==> !Hit(probes[j])
    decreases |probes|
  {
    if probes == [] then None
    else if Hit(probes[0]) then Some(0)
    else
      var rest := FirstHit(probes[1..]);
      assert forall j :: 1 <= j < |probes| ==> probes[j] == probes[1..][j - 1];
      match rest
      case None => None
      case Some(k) => Some(k + 1)
  }

  function ImageUrl(host: string, k: nat): string
    requires k < |ImageNames|
  {
    host + "/images/big/" + ImageNames[k]
  }

  /**
   * The probe loop of `wb`, with its `break`. `host` is the result of
   * `construct_host_v2`, `None` when it raises (then every iteration fails
   * before its request); `probes[k]` answers the request for
   * `ImageNames[k]`. The size is `None` when no probe hit, which leaves
   * `image_size` unbound.
   */
  method ProbeImages(host: Option<string>, probes: seq<Probe>) returns (imageSize: Option<int>, imageUrl: Option<string>)
    requires |probes| == |ImageNames|
    ensures host.None? ==> imageSize.None?
    ensures host.Some? ==>
      match FirstHit(probes)
      case None => imageSize.None?
      case Some(k) => imageSize == probes[k].contentLength && imageUrl == Some(ImageUrl(host.value, k))
  {
    imageSize := None;
    imageUrl := None;
    var i := 0;
    while i < |ImageNames|
      invariant 0 <= i <= |ImageNames|
      invariant imageSize.None?
      invariant host.Some? ==> forall j :: 0 <= j < i ==> !Hit(probes[j])
    {
      if host.Some? {
        imageUrl := Some(ImageUrl(host.value, i));
        var p := probes[i];
        if Hit(p) {
          imageSize := p.contentLength;
          assert FirstHit(probes) == Some(i) by {
            FirstHitAt(probes, i);
          }
          return;
        }
      }
      i := i + 1;
    }
    if host.Some? {
      FirstHitNone(probes);
    }
  }

  lemma FirstHitAt(probes: seq<Probe>, i: nat)
    requires i < |probes| && Hit(probes[i]) && forall j :: 0 <= j < i ==> !Hit(probes[j])
    ensures FirstHit(probes) == Some(i)
  {
  }

  lemma FirstHitNone(probes: seq<Probe>)
    requires forall j :: 0 <= j < |probes| ==> !Hit(probes[j])
    ensures FirstHit(probes).None?
  {
  }

  // ---------------------------------------------------------------------
  // wb: the caption

  /** A size of `product["sizes"]` with the number of its `stocks`. */
  datatype WbSize = WbSize(name: string, stocks: nat)

  /** The fields of `card["data"]["products"][0]` that `wb` reads; prices in kopecks. */
  datatype WbProduct = WbProduct(brand: string, name: string, priceU: int, salePriceU: Option<int>, sizes: seq<WbSize>)

  /** The price line: the sale price and the struck-through list price, or the price alone. */
  function PriceLine(p: WbProduct): string {
    "Цена: " + match p.salePriceU
      case Some(sale) => HundredthsText(sale) + " <s>" + HundredthsText(p.priceU) + "</s>"
      case None => HundredthsText(p.priceU)
  }

  /** One size of the list: its mark and name. */
  function SizeMark(s: WbSize): string {
    LinkHandling.Mark(s.stocks > 0) + " " + s.name
  }

  function SizesLine(p: WbProduct): string {
    "Размеры: \n" + Join(", ", seq(|p.sizes|, i requires 0 <= i < |p.sizes| => SizeMark(p.sizes[i])))
  }

  function CaptionLines(cardId: string, p: WbProduct): (lines: seq<string>)
    ensures |lines| == 4 && lines[2] == PriceLine(p) && lines[3] == SizesLine(p)
    ensures lines[0] == "Разбор карточки WB <code>" + cardId + "</code>"
    ensures lines[1] == p.brand + " <a href=\"https://wildberries.ru/catalog/" + cardId + "/detail.aspx\">" + p.name + "</a>"
  {
    ["Разбор карточки WB <code>" + cardId + "</code>",
     p.brand + " <a href=\"https://wildberries.ru/catalog/" + cardId + "/detail.aspx\">" + p.name + "</a>",
     PriceLine(p),
     SizesLine(p)]
  }

  /**
   * `wb(card_id)` once the card request has answered. `product` is the
   * card's first product, `None` when `json()` or the indexing raises;
   * `probes` answer the HEAD requests; `uploaded` is the `file_id` of the
   * re-sent large picture, `None` when downloading or sending it raises.
   * Every exception inside the `try` ends in `None`; the card request itself
   * is made before it, so its failure raises out of `wb` and is not
   * modelled.
   */
  function Wb(cardId: string, product: Option<WbProduct>, probes: seq<Probe>, uploaded: Option<string>)
    : Option<LinkHandling.Picture>
    requires |probes| == |ImageNames|
  {
    if product.None? then None
    else
      match WbImageUrl.ConstructHost(cardId, "nm")
      case None => None
      case Some(host) =>
        match FirstHit(probes)
        case None => None
        case Some(k) =>
          var size := probes[k].contentLength.value;
          if size > MaxSize && uploaded.None? then None
          else
            var media := if size > MaxSize then uploaded.value else ImageUrl(host, k);
            Some(LinkHandling.Picture(media, Join("\n", CaptionLines(cardId, product.value)), "HTML"))
  }

  /**
   * `wb` answers a picture exactly when the card loaded, `int(card_id)`
   * succeeded, one of the two probes answered 200 with a readable length,
   * and a large picture could be re-sent.
   */
  lemma WbSucceeds(cardId: string, product: Option<WbProduct>, probes: seq<Probe>, uploaded: Option<string>)
    requires |probes| == |ImageNames|
    ensures Wb(cardId, product, probes, uploaded).Some? <==>
      product.Some? && ParseInt(cardId).Some? && FirstHit(probes).Some?
      && (probes[FirstHit(probes).value].contentLength.value > MaxSize ==> uploaded.Some?)
  {
    WbImageUrl.ConstructHostShape(cardId, "nm");
  }

  /**
   * The picture is the probed URL, or the upload's `file_id` when the probe
   * reported more than `MaxSize` bytes, under the caption of the card.
   */
  lemma WbPicture(cardId: string, product: Option<WbProduct>, probes: seq<Probe>, uploaded: Option<string>)
    requires |probes| == |ImageNames|
    requires Wb(cardId, product, probes, uploaded).Some?
    ensures var r := Wb(cardId, product, probes, uploaded).value;
      var k := FirstHit(probes).value;
      r.parseMode == "HTML"
      && r.caption == Join("\n", CaptionLines(cardId, product.value))
      && r.media == if probes[k].contentLength.value > MaxSize then uploaded.value
                    else ImageUrl(WbImageUrl.ConstructHost(cardId, "nm").value, k)
  {
  }

  /** Without a 200 answer `image_size` is never assigned and `wb` gives `None`. */
  lemma WbNeedsHit(cardId: string, product: Option<WbProduct>, probes: seq<Probe>, uploaded: Option<string>)
    requires |probes| == |ImageNames|
    requires forall j :: 0 <= j < |probes| ==> probes[j].RequestFailed? || probes[j].status != 200
    ensures Wb(cardId, product, probes, uploaded).None?
  {
    FirstHitNone(probes);
  }

  /** The list price is struck through, after the sale price, exactly when `salePriceU` is present. */
  lemma PriceLineStrikes(p: WbProduct)
    ensures '<' in PriceLine(p) <==> p.salePriceU.Some?
    ensures p.salePriceU.None? ==> PriceLine(p) == "Цена: " + HundredthsText(p.priceU)
  {
    HundredthsChars(p.priceU);
    var l := PriceLine(p);
    var head := "Цена: ";
    if p.salePriceU.Some? {
      var sale := HundredthsText(p.salePriceU.value);
      assert l == head + sale + " <s>" + HundredthsText(p.priceU) + "</s>";
      assert l[|head| + |sale| + 1] == '<';
    } else {
      assert l == head + HundredthsText(p.priceU);
      forall i | 0 <= i < |l| ensures l[i] != '<' {
        if i >= |head| {
          assert l[i] == HundredthsText(p.priceU)[i - |head|];
        }
      }
    }
  }

  /** A size is marked ✅ exactly when it has stocks, and ❌ otherwise. */
  lemma SizeMarkAvailable(s: WbSize)
    ensures SizeMark(s)[0] == '✅' <==> s.stocks > 0
    ensures SizeMark(s)[0] == '❌' <==> s.stocks == 0
    ensures SizeMark(s)[1..] == " " + s.name
  {
  }

  // ---------------------------------------------------------------------
  // parse_ozon: which branch builds the caption

  datatype OzonBranch = ErrorPage | OutOfStock | PriceCard | SearchPage | NoBranch

  /** The widgets `parse_ozon` tests, each merged by `get_ozon_widget`. */
  datatype OzonWidgets = OzonWidgets(
    error: map<string, LinkHandling.Json>, outOfStock: map<string, LinkHandling.Json>,
    price: map<string, LinkHandling.Json>, sale: map<string, LinkHandling.Json>,
    gallery: map<string, LinkHandling.Json>, heading: map<string, LinkHandling.Json>,
    fulltextHeader: map<string, LinkHandling.Json>, adultModal: map<string, LinkHandling.Json>)

  function WidgetsOf(states: LinkHandling.WidgetStates): OzonWidgets {
    OzonWidgets(
      LinkHandling.OzonWidget(states, "error"), LinkHandling.OzonWidget(states, "webOutOfStock"),
      LinkHandling.OzonWidget(states, "webPrice"), LinkHandling.OzonWidget(states, "webSale"),
      LinkHandling.OzonWidget(states, "webGallery"), LinkHandling.OzonWidget(states, "webProductHeading"),
      LinkHandling.OzonWidget(states, "fulltextResultsHeader"), LinkHandling.OzonWidget(states, "userAdultModal"))
  }

  /** The `if`/`elif` chain; a dict is true when it is not empty. */
  function BranchOf(w: OzonWidgets): OzonBranch {
    if w.error != map[] || w.adultModal != map[] then ErrorPage
    else if w.outOfStock != map[] then OutOfStock
    else if w.price != map[] || w.sale != map[] then PriceCard
    else if w.fulltextHeader != map[] then SearchPage
    else NoBranch
  }

  /** `d.get(key)` */
  function Get(d: map<string, LinkHandling.Json>, key: string): Option<LinkHandling.Json> {
    if key in d then Some(d[key]) else None
  }

  /** Python's `a or b` on two optional values. */
  function OrElse(a: Option<LinkHandling.Json>, b: Option<LinkHandling.Json>): Option<LinkHandling.Json> {
    if a.Some? && LinkHandling.Truthy(a.value) then a else b
  }

  /**
   * The response of the scraping service, as far as `parse_ozon` reads it.
   * `states` is `None` when the cleaned response is no JSON object;
   * `seoImage` is the first `og:image` of the SEO block, `searchImage` the
   * first image of the search results; `linesOk` says whether the keys the
   * chosen branch reads for its text are present (a missing one raises).
   */
  datatype OzonPage = OzonPage(statusOk: bool, sellerUrl: bool, states: Option<LinkHandling.WidgetStates>,
                               seoImage: Option<LinkHandling.Json>, searchImage: Option<LinkHandling.Json>,
                               linesOk: bool)

  /** The picture chosen by each branch; `NoBranch` leaves `img` as `None`. */
  function BranchImage(b: OzonBranch, w: OzonWidgets, page: OzonPage): Option<LinkHandling.Json> {
    match b
    case ErrorPage => page.seoImage
    case OutOfStock => Get(w.outOfStock, "coverImage")
    case PriceCard => OrElse(Get(w.gallery, "coverImage"), Get(w.heading, "coverImage"))
    case SearchPage => page.searchImage
    case NoBranch => None
  }

  /**
   * The media `parse_ozon` answers once the parser service has answered with
   * JSON, `None` for every exception inside its `try`: a status other than
   * ok, a seller page, a malformed response, missing keys, or
   * `raise Exception("no image")` for a false picture. The request to the
   * service and its `json()` come before the `try`; their failure raises
   * out of `parse_ozon` and is not modelled.
   */
  function OzonMedia(page: OzonPage): Option<LinkHandling.Json> {
    if !page.statusOk || page.sellerUrl || page.states.None? then None
    else
      var w := WidgetsOf(page.states.value);
      var b := BranchOf(w);
      if b != NoBranch && !page.linesOk then None
      else
        var img := BranchImage(b, w, page);
        if img.None? || !LinkHandling.Truthy(img.value) then None else img
  }

  /**
   * An error or adult-check widget wins over everything; out of stock wins
   * over a price; a price or sale wins over a search header. A page that
   * matches none of them has no picture, so `parse_ozon` gives `None`.
   */
  lemma OzonPriority(page: OzonPage)
    requires page.statusOk && !page.sellerUrl && page.states.Some?
    ensures var w := WidgetsOf(page.states.value);
      (w.error != map[] || w.adultModal != map[] ==> BranchOf(w) == ErrorPage)
      && (w.error == map[] && w.adultModal == map[] && w.outOfStock != map[] ==> BranchOf(w) == OutOfStock)
      && (BranchOf(w) == PriceCard <==>
            w.error == map[] && w.adultModal == map[] && w.outOfStock == map[] && (w.price != map[] || w.sale != map[]))
      && (BranchOf(w) == SearchPage ==> w.price == map[] && w.sale == map[] && w.fulltextHeader != map[])
      && (BranchOf(w) == NoBranch ==> OzonMedia(page).None?)
  {
  }

  /** Whatever the branch, `parse_ozon` answers a picture only when that branch found a true one. */
  lemma OzonMediaTruthy(page: OzonPage)
    ensures OzonMedia(page).Some? ==>
      page.statusOk && !page.sellerUrl && page.states.Some? && page.linesOk
      && var w := WidgetsOf(page.states.value);
         BranchOf(w) != NoBranch && OzonMedia(page) == BranchImage(BranchOf(w), w, page)
         && LinkHandling.Truthy(OzonMedia(page).value)
  {
  }

  /** A product card takes the gallery's cover, or the heading's when the gallery has no true one. */
  lemma PriceCardCover(page: OzonPage)
    requires page.statusOk && !page.sellerUrl && page.states.Some? && page.linesOk
    requires BranchOf(WidgetsOf(page.states.value)) == PriceCard
    ensures var w := WidgetsOf(page.states.value);
      var g := Get(w.gallery, "coverImage");
      (g.Some? && LinkHandling.Truthy(g.value) ==> OzonMedia(page) == g)
      && (!(g.Some? && LinkHandling.Truthy(g.value)) ==>
            OzonMedia(page) == (var h := Get(w.heading, "coverImage"); if h.Some? && LinkHandling.Truthy(h.value) then h else None))
  {
  }
}
