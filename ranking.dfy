/**
 * The marketing queries of app/cardparser/services/marketing_queryset.py and
 * app/cardparser/services/popular.py, as pure functions over the sends of
 * products to users (`TgUserProduct` rows) with integer timestamps in
 * seconds: the time window, per-product counting, ordering by request count
 * and then by latest send, and the limit.
 */
module Ranking {
  import opened Wrappers

  // ---------------------------------------------------------------------
  // The data

  /** One `TgUserProduct` row: the `ParseProduct` primary key and `sent_at`. */
  datatype Send = Send(product: int, sentAt: int)

  /** The `Brand` row a product refers to: its key, `name` and `product_type`. */
  datatype BrandRef = BrandRef(id: int, name: string, productType: string)

  datatype CategoryRef = CategoryRef(id: int, name: string)

  /** One `ParseProduct` row. */
  datatype Product = Product(
    productId: string,
    name: Option<string>,
    caption: Option<string>,
    productType: string,
    brand: Option<BrandRef>,
    category: Option<CategoryRef>)

  /** `ParseProduct` by primary key. */
  type Catalog = map<int, Product>

  /** Every send refers to a stored product (the foreign key of `TgUserProduct`). */
  predicate Consistent(sends: seq<Send>, catalog: Catalog) {
    forall i :: 0 <= i < |sends| ==> sends[i].product in catalog
  }

  /** `timezone.now() - timedelta(days=days, hours=hours)` */
  function Threshold(now: int, hours: int, days: int): int {
    now - (days * 86400 + hours * 3600)
  }

  /** `filter(sent_at__gte=threshold)` */
  function Window(sends: seq<Send>, threshold: int): (w: seq<Send>)
    ensures |w| <= |sends|
    ensures forall s :: s in w <==> s in sends && s.sentAt >= threshold
    decreases |sends|
  {
    if sends == [] then []
    else
      var rest := Window(sends[1..], threshold);
      assert forall s :: s in sends <==> s == sends[0] || s in sends[1..];
      if sends[0].sentAt >= threshold then [sends[0]] + rest else rest
  }

  predicate Sent(sends: seq<Send>, p: int) {
    exists i :: 0 <= i < |sends| && sends[i].product == p
  }

  /** `Count('product_id')` for one product. */
  function Count(sends: seq<Send>, p: int): (n: nat)
    ensures n <= |sends|
    ensures n > 0 <==> Sent(sends, p)
    decreases |sends|
  {
    if sends == [] then 0
    else
      var rest := Count(sends[1..], p);
      assert Sent(sends, p) <==> sends[0].product == p || Sent(sends[1..], p) by {
        if Sent(sends, p) && sends[0].product != p {
          var i :| 0 <= i < |sends| && sends[i].product == p;
          assert sends[1..][i - 1].product == p;
        }
        if Sent(sends[1..], p) {
          var i :| 0 <= i < |sends[1..]| && sends[1..][i].product == p;
          assert sends[i + 1].product == p;
        }
      }
      (if sends[0].product == p then 1 else 0) + rest
  }

  /** `Max('sent_at')` for one product that was sent. */
  function LastSent(sends: seq<Send>, p: int): (t: int)
    requires Sent(sends, p)
    ensures exists i :: 0 <= i < |sends| && sends[i].product == p && sends[i].sentAt == t
    ensures forall i :: 0 <= i < |sends| && sends[i].product == p ==> sends[i].sentAt <= t
    decreases |sends|
  {
    var last := sends[|sends| - 1];
    var init := sends[..|sends| - 1];
    assert forall i :: 0 <= i < |init| ==> init[i] == sends[i];
    if !Sent(init, p) then
      assert last.product == p;
      last.sentAt
    else
      var t0 := LastSent(init, p);
      if last.product == p && last.sentAt > t0 then last.sentAt else t0
  }

  /** `values_list('product_id', flat=True).distinct()`, in first-send order. */
  function Distinct(sends: seq<Send>): (ps: seq<int>)
    ensures forall i, j :: 0 <= i < j < |ps| ==> ps[i] != ps[j]
    ensures forall p :: p in ps <==> Sent(sends, p)
    decreases |sends|
  {
    if sends == [] then []
    else
      var init := sends[..|sends| - 1];
      var p := sends[|sends| - 1].product;
      var rest := Distinct(init);
      assert forall q :: Sent(sends, q) <==> Sent(init, q) || q == p by {
        forall q | Sent(sends, q) && q != p ensures Sent(init, q) {
          var i :| 0 <= i < |sends| && sends[i].product == q;
          assert init[i].product == q;
        }
        forall q | Sent(init, q) ensures Sent(sends, q) {
          var i :| 0 <= i < |init| && init[i].product == q;
          assert sends[i].product == q;
        }
      }
      if p in rest then rest else rest + [p]
  }

  // ---------------------------------------------------------------------
  // Ordering: `order_by('-count', '-last_sent')`

  /** An item with the two sort keys. */
  datatype Ranked<T> = Ranked(item: T, count: nat, lastSent: int)

  /** `a` may come before `b`: more requests, or as many and sent no earlier. */
  predicate RanksAbove<T>(a: Ranked<T>, b: Ranked<T>) {
    a.count > b.count || (a.count == b.count && a.lastSent >= b.lastSent)
  }

  predicate Sorted<T>(s: seq<Ranked<T>>) {
    forall i, j :: 0 <= i < j < |s| ==> RanksAbove(s[i], s[j])
  }

  predicate ItemsDistinct<T(==)>(s: seq<Ranked<T>>) {
    forall i, j :: 0 <= i < j < |s| ==> s[i].item != s[j].item
  }

  /** Inserts `x` after every element that ranks at least as high (stable). */
  function Insert<T>(x: Ranked<T>, s: seq<Ranked<T>>): (r: seq<Ranked<T>>)
    ensures |r| == |s| + 1 && multiset(r) == multiset(s) + multiset{x}
    decreases |s|
  {
    if s == [] then [x]
    else if RanksAbove(s[0], x) then
      var rest := Insert(x, s[1..]);
      assert s == [s[0]] + s[1..];
      [s[0]] + rest
    else [x] + s
  }

  lemma {:induction false} InsertSorted<T>(x: Ranked<T>, s: seq<Ranked<T>>)
    requires Sorted(s)
    ensures Sorted(Insert(x, s))
    decreases |s|
  {
    if s != [] && RanksAbove(s[0], x) {
      InsertSorted(x, s[1..]);
      var rest := Insert(x, s[1..]);
      forall j | 0 <= j < |rest| ensures RanksAbove(s[0], rest[j]) {
        assert rest[j] in multiset(rest);
        if rest[j] != x {
          assert rest[j] in multiset(s[1..]);
          var k :| 0 <= k < |s[1..]| && s[1..][k] == rest[j];
          assert s[k + 1] == rest[j];
        }
      }
    }
  }

  lemma {:induction false} InsertDistinct<T>(x: Ranked<T>, s: seq<Ranked<T>>)
    requires ItemsDistinct(s) && forall i :: 0 <= i < |s| ==> s[i].item != x.item
    ensures ItemsDistinct(Insert(x, s))
    decreases |s|
  {
    if s != [] && RanksAbove(s[0], x) {
      InsertDistinct(x, s[1..]);
      var rest := Insert(x, s[1..]);
      forall j | 0 <= j < |rest| ensures s[0].item != rest[j].item {
        assert rest[j] in multiset(rest);
        if rest[j] != x {
          assert rest[j] in multiset(s[1..]);
          var k :| 0 <= k < |s[1..]| && s[1..][k] == rest[j];
          assert s[k + 1] == rest[j];
        }
      }
    }
  }

  /** Sorting in ranking order; equal keys keep their input order (`list.sort` is stable). */
  function SortRanked<T>(s: seq<Ranked<T>>): (r: seq<Ranked<T>>)
    ensures |r| == |s| && multiset(r) == multiset(s)
    decreases |s|
  {
    if s == [] then []
    else
      var rest := SortRanked(s[..|s| - 1]);
      assert s == s[..|s| - 1] + [s[|s| - 1]];
      Insert(s[|s| - 1], rest)
  }

  /** The sorted list has the same elements as the input. */
  lemma SortRankedMembers<T>(s: seq<Ranked<T>>)
    ensures forall y :: y in SortRanked(s) <==> y in s
  {
    var r := SortRanked(s);
    assert forall y :: y in r <==> y in multiset(r);
  }

  /** The head of a sorted sequence ranks at least as high as any of its members. */
  lemma SortRankedHead<T>(s: seq<Ranked<T>>, x: Ranked<T>)
    requires x in s
    ensures SortRanked(s) != [] && SortRanked(s)[0] in s && RanksAbove(SortRanked(s)[0], x)
  {
    var r := SortRanked(s);
    SortRankedSorted(s);
    SortRankedMembers(s);
    var k :| 0 <= k < |r| && r[k] == x;
    if k > 0 {
      assert RanksAbove(r[0], r[k]);
    }
  }

  lemma {:induction false} SortRankedSorted<T>(s: seq<Ranked<T>>)
    ensures Sorted(SortRanked(s))
    decreases |s|
  {
    if s != [] {
      SortRankedSorted(s[..|s| - 1]);
      InsertSorted(s[|s| - 1], SortRanked(s[..|s| - 1]));
    }
  }

  lemma {:induction false} SortRankedDistinct<T>(s: seq<Ranked<T>>)
    requires ItemsDistinct(s)
    ensures ItemsDistinct(SortRanked(s))
    decreases |s|
  {
    if s != [] {
      var init := s[..|s| - 1];
      var x := s[|s| - 1];
      SortRankedDistinct(init);
      var rest := SortRanked(init);
      forall i | 0 <= i < |rest| ensures rest[i].item != x.item {
        assert rest[i] in multiset(rest);
        assert rest[i] in multiset(init);
        var k :| 0 <= k < |init| && init[k] == rest[i];
        assert s[k] == rest[i];
      }
      InsertDistinct(x, rest);
    }
  }

  lemma {:induction false} InsertAfterAll<T>(x: Ranked<T>, s: seq<Ranked<T>>)
    requires forall i :: 0 <= i < |s| ==> RanksAbove(s[i], x)
    ensures Insert(x, s) == s + [x]
    decreases |s|
  {
    if s != [] {
      InsertAfterAll(x, s[1..]);
      assert [s[0]] + (s[1..] + [x]) == s + [x];
    }
  }

  /** A sorted list is left as it is, so re-sorting already ordered results changes nothing. */
  lemma {:induction false} SortRankedOfSorted<T>(s: seq<Ranked<T>>)
    requires Sorted(s)
    ensures SortRanked(s) == s
    decreases |s|
  {
    if s != [] {
      var init := s[..|s| - 1];
      assert Sorted(init);
      SortRankedOfSorted(init);
      InsertAfterAll(s[|s| - 1], init);
      assert init + [s[|s| - 1]] == s;
    }
  }

  // ---------------------------------------------------------------------
  // Per-product statistics

  /** `values('product_id').annotate(request_count=Count(...), last_sent=Max('sent_at'))` */
  function Stats(sends: seq<Send>): (stats: seq<Ranked<int>>)
    ensures ItemsDistinct(stats)
    ensures forall i :: 0 <= i < |stats| ==>
      Sent(sends, stats[i].item) && stats[i].count == Count(sends, stats[i].item)
      && stats[i].lastSent == LastSent(sends, stats[i].item)
    ensures forall p :: Sent(sends, p) <==> exists i :: 0 <= i < |stats| && stats[i].item == p
  {
    var ps := Distinct(sends);
    var stats := seq(|ps|, i requires 0 <= i < |ps| => Ranked(ps[i], Count(sends, ps[i]), LastSent(sends, ps[i])));
    assert forall p :: Sent(sends, p) ==> exists i :: 0 <= i < |stats| && stats[i].item == p by {
      forall p | Sent(sends, p) ensures exists i :: 0 <= i < |stats| && stats[i].item == p {
        var i :| 0 <= i < |ps| && ps[i] == p;
        assert stats[i].item == p;
      }
    }
    stats
  }

  /** The ranked statistics, cut to `limit` (the database ordering and slice). */
  function TopStats(sends: seq<Send>, limit: nat): seq<Ranked<int>> {
    var sorted := SortRanked(Stats(sends));
    if limit <= |sorted| then sorted[..limit] else sorted
  }

  lemma TopStatsOrder(sends: seq<Send>, limit: nat)
    ensures var top := TopStats(sends, limit); |top| <= limit && Sorted(top) && ItemsDistinct(top)
  {
    var sorted := SortRanked(Stats(sends));
    SortRankedSorted(Stats(sends));
    SortRankedDistinct(Stats(sends));
    if limit <= |sorted| {
      PrefixSortedDistinct(sorted, limit);
    }
  }

  /** A prefix of a sorted list of distinct items is one too. */
  lemma PrefixSortedDistinct<T>(s: seq<Ranked<T>>, n: nat)
    requires n <= |s| && Sorted(s) && ItemsDistinct(s)
    ensures Sorted(s[..n]) && ItemsDistinct(s[..n])
  {
  }

  lemma TopStatsCounts(sends: seq<Send>, limit: nat)
    ensures var top := TopStats(sends, limit);
      forall i :: 0 <= i < |top| ==>
        Sent(sends, top[i].item) && top[i].count == Count(sends, top[i].item)
        && top[i].lastSent == LastSent(sends, top[i].item)
  {
    var stats := Stats(sends);
    var sorted := SortRanked(stats);
    SortRankedMembers(stats);
    var top := TopStats(sends, limit);
    forall i | 0 <= i < |top|
      ensures Sent(sends, top[i].item) && top[i].count == Count(sends, top[i].item)
              && top[i].lastSent == LastSent(sends, top[i].item)
    {
      assert top[i] == sorted[i];
      assert sorted[i] in sorted;
      var k :| 0 <= k < |stats| && stats[k] == sorted[i];
    }
  }

  lemma TopStatsComplete(sends: seq<Send>, limit: nat)
    ensures var top := TopStats(sends, limit);
      |top| < limit ==> forall p :: Sent(sends, p) ==> exists i :: 0 <= i < |top| && top[i].item == p
  {
    var stats := Stats(sends);
    var sorted := SortRanked(stats);
    SortRankedMembers(stats);
    var top := TopStats(sends, limit);
    if |top| < limit {
      assert top == sorted;
      forall p | Sent(sends, p) ensures exists i :: 0 <= i < |top| && top[i].item == p {
        var k :| 0 <= k < |stats| && stats[k].item == p;
        assert stats[k] in sorted;
        var i :| 0 <= i < |sorted| && stats[k] == sorted[i];
        assert top[i].item == p;
      }
    }
  }

  /** The statistic of one sent product: its count and its latest send. */
  function StatOf(sends: seq<Send>, p: int): (x: Ranked<int>)
    requires Sent(sends, p)
    ensures x.item == p && x.count == Count(sends, p) && x.lastSent == LastSent(sends, p)
  {
    Ranked(p, Count(sends, p), LastSent(sends, p))
  }

  /** A sent product is in the slice, or ranks no higher than every product the slice keeps. */
  lemma TopStatsMaximal(sends: seq<Send>, limit: nat, p: int)
    requires Sent(sends, p)
    ensures var top := TopStats(sends, limit);
      (exists k :: 0 <= k < |top| && top[k].item == p)
      || forall i :: 0 <= i < |top| ==> RanksAbove(top[i], StatOf(sends, p))
  {
    var stats := Stats(sends);
    var sorted := SortRanked(stats);
    var top := TopStats(sends, limit);
    var j :| 0 <= j < |stats| && stats[j].item == p;
    assert stats[j] == StatOf(sends, p);
    SortRankedMembers(stats);
    SortRankedSorted(stats);
    assert stats[j] in sorted;
    var k :| 0 <= k < |sorted| && sorted[k] == stats[j];
    SliceKeepsOrRanksAbove(sorted, limit, k);
  }

  /** An entry of a sorted list is in its first `limit`, or ranks no higher than all of them. */
  lemma SliceKeepsOrRanksAbove<T>(s: seq<Ranked<T>>, limit: nat, k: nat)
    requires Sorted(s) && k < |s|
    ensures var top := if limit <= |s| then s[..limit] else s;
      (k < |top| && top[k] == s[k]) || forall i :: 0 <= i < |top| ==> RanksAbove(top[i], s[k])
  {
    var top := if limit <= |s| then s[..limit] else s;
    if k >= |top| {
      forall i | 0 <= i < |top| ensures RanksAbove(top[i], s[k]) {
        assert top[i] == s[i];
      }
    }
  }

  /**
   * The top statistics are at most `limit`, sorted, one per product, each
   * with the product's count and latest send; every product is among them
   * when fewer than `limit` are returned, every product left out ranks no
   * higher than any kept, and there are none without sends.
   */
  lemma TopStatsProperties(sends: seq<Send>, limit: nat)
    ensures var top := TopStats(sends, limit);
      |top| <= limit && Sorted(top) && ItemsDistinct(top)
      && (forall i :: 0 <= i < |top| ==>
            Sent(sends, top[i].item) && top[i].count == Count(sends, top[i].item)
            && top[i].lastSent == LastSent(sends, top[i].item))
      && (|top| < limit ==> forall p :: Sent(sends, p) ==> exists i :: 0 <= i < |top| && top[i].item == p)
      && (forall p :: Sent(sends, p) && (forall k :: 0 <= k < |top| ==> top[k].item != p) ==>
            forall i :: 0 <= i < |top| ==> RanksAbove(top[i], StatOf(sends, p)))
      && (sends == [] ==> top == [])
  {
    TopStatsOrder(sends, limit);
    TopStatsCounts(sends, limit);
    TopStatsComplete(sends, limit);
    var top := TopStats(sends, limit);
    forall p | Sent(sends, p) && (forall k :: 0 <= k < |top| ==> top[k].item != p)
      ensures forall i :: 0 <= i < |top| ==> RanksAbove(top[i], StatOf(sends, p))
    {
      TopStatsMaximal(sends, limit, p);
    }
  }

  // ---------------------------------------------------------------------
  // The result rows

  /** The display fields of a result dict besides the two sort keys. */
  datatype RowDetails = RowDetails(
    id: int,
    productId: string,
    name: string,
    caption: Option<string>,
    productTypeDisplay: string,
    brand: string,
    category: string)

  type Row = Ranked<RowDetails>

  const NoName: string := "Без названия"
  const NoRef: string := "—"

  /** `get_product_type_display()`: the label of the choice, the raw value otherwise. */
  function TypeDisplay(productType: string): (display: string)
    ensures productType == "wb" ==> display == "Wildberries"
    ensures productType == "ozon" ==> display == "Ozon"
    ensures productType != "wb" && productType != "ozon" ==> display == productType
  {
    if productType == "wb" then "Wildberries" else if productType == "ozon" then "Ozon" else productType
  }

  /** The dict appended for one product and its statistics. */
  function MakeRow(catalog: Catalog, stat: Ranked<int>): (row: Row)
    requires stat.item in catalog
    ensures row.count == stat.count && row.lastSent == stat.lastSent && row.item.id == stat.item
    ensures var p := catalog[stat.item];
      (row.item.name == if p.name.None? || p.name.value == "" then NoName else p.name.value)
      && (row.item.brand == if p.brand.None? then NoRef else p.brand.value.name)
      && (row.item.category == if p.category.None? then NoRef else p.category.value.name)
      && row.item.caption == p.caption && row.item.productId == p.productId
  {
    var p := catalog[stat.item];
    var name := match p.name case Some(n) => (if n == "" then NoName else n) case None => NoName;
    var brand := match p.brand case Some(b) => b.name case None => NoRef;
    var category := match p.category case Some(c) => c.name case None => NoRef;
    Ranked(RowDetails(stat.item, p.productId, name, p.caption, TypeDisplay(p.productType), brand, category),
           stat.count, stat.lastSent)
  }

  /**
   * The loop that appends one dict per product, then `result.sort(...)` and
   * `result[:limit]`. The products are fetched in the order of `stats`.
   */
  method BuildRows(catalog: Catalog, stats: seq<Ranked<int>>, limit: nat) returns (result: seq<Row>)
    requires forall i :: 0 <= i < |stats| ==> stats[i].item in catalog
    requires Sorted(stats) && |stats| <= limit
    ensures |result| == |stats|
    ensures forall i :: 0 <= i < |result| ==> result[i] == MakeRow(catalog, stats[i])
  {
    var rows: seq<Row> := [];
    for i := 0 to |stats|
      invariant |rows| == i
      invariant forall k :: 0 <= k < i ==> rows[k] == MakeRow(catalog, stats[k])
    {
      rows := rows + [MakeRow(catalog, stats[i])];
    }
    assert Sorted(rows) by {
      forall i, j | 0 <= i < j < |rows| ensures RanksAbove(rows[i], rows[j]) {
        assert RanksAbove(stats[i], stats[j]);
      }
    }
    SortRankedOfSorted(rows);
    rows := SortRanked(rows);
    result := if limit <= |rows| then rows[..limit] else rows;
  }

  /** The window holds only sends of the catalogue's products. */
  lemma WindowConsistent(sends: seq<Send>, catalog: Catalog, threshold: int)
    requires Consistent(sends, catalog)
    ensures Consistent(Window(sends, threshold), catalog)
  {
    var w := Window(sends, threshold);
    forall i | 0 <= i < |w| ensures w[i].product in catalog {
      assert w[i] in sends;
    }
  }

  /** A product that was sent is in the catalogue. */
  lemma SentInCatalog(w: seq<Send>, catalog: Catalog, p: int)
    requires Consistent(w, catalog) && Sent(w, p)
    ensures p in catalog
  {
  }

  /** Rows made one per statistic keep its product, its two sort keys, their order and their distinctness. */
  lemma RowsKeepStats(catalog: Catalog, stats: seq<Ranked<int>>, rows: seq<Row>)
    requires forall i :: 0 <= i < |stats| ==> stats[i].item in catalog
    requires |rows| == |stats| && forall i :: 0 <= i < |rows| ==> rows[i] == MakeRow(catalog, stats[i])
    ensures forall i :: 0 <= i < |rows| ==>
      rows[i].item.id == stats[i].item && rows[i].count == stats[i].count && rows[i].lastSent == stats[i].lastSent
    ensures Sorted(stats) ==> Sorted(rows)
    ensures ItemsDistinct(stats) ==> forall i, j :: 0 <= i < j < |rows| ==> rows[i].item.id != rows[j].item.id
  {
    forall i | 0 <= i < |rows|
      ensures rows[i].item.id == stats[i].item && rows[i].count == stats[i].count && rows[i].lastSent == stats[i].lastSent
    {
      assert rows[i] == MakeRow(catalog, stats[i]);
    }
    if Sorted(stats) {
      forall i, j | 0 <= i < j < |rows| ensures RanksAbove(rows[i], rows[j]) {
        assert RanksAbove(stats[i], stats[j]);
      }
    }
  }

  /**
   * `rows` are the top `limit` products of the sends `w`: at most `limit`,
   * sorted, one per product, each a product sent in `w` with its count and
   * latest send there; every sent product is among them when fewer than
   * `limit` are returned, and a sent product left out ranks no higher than
   * any row.
   */
  ghost predicate TopOf(w: seq<Send>, rows: seq<Row>, limit: nat) {
    |rows| <= limit && Sorted(rows)
    && (forall i :: 0 <= i < |rows| ==>
          var p := rows[i].item.id;
          Sent(w, p) && rows[i].count == Count(w, p) && rows[i].lastSent == LastSent(w, p))
    && (forall i, j :: 0 <= i < j < |rows| ==> rows[i].item.id != rows[j].item.id)
    && (|rows| < limit ==> forall p :: Sent(w, p) ==> exists i :: 0 <= i < |rows| && rows[i].item.id == p)
    && (forall p :: Sent(w, p) && (forall k :: 0 <= k < |rows| ==> rows[k].item.id != p) ==>
          forall i :: 0 <= i < |rows| ==>
            rows[i].count > Count(w, p) || (rows[i].count == Count(w, p) && rows[i].lastSent >= LastSent(w, p)))
  }

  /** The rows made from the top statistics of `w` are its top products. */
  lemma RowsOfTopStats(w: seq<Send>, catalog: Catalog, limit: nat, rows: seq<Row>)
    requires var top := TopStats(w, limit);
      (forall i :: 0 <= i < |top| ==> top[i].item in catalog)
      && |rows| == |top| && forall i :: 0 <= i < |rows| ==> rows[i] == MakeRow(catalog, top[i])
    ensures TopOf(w, rows, limit)
  {
    var top := TopStats(w, limit);
    TopStatsProperties(w, limit);
    RowsKeepStats(catalog, top, rows);
    if |rows| < limit {
      forall p | Sent(w, p) ensures exists i :: 0 <= i < |rows| && rows[i].item.id == p {
        var i :| 0 <= i < |top| && top[i].item == p;
        assert rows[i].item.id == p;
      }
    }
    forall p | Sent(w, p) && (forall k :: 0 <= k < |rows| ==> rows[k].item.id != p)
      ensures forall i :: 0 <= i < |rows| ==>
        rows[i].count > Count(w, p) || (rows[i].count == Count(w, p) && rows[i].lastSent >= LastSent(w, p))
    {
      assert forall k :: 0 <= k < |top| ==> top[k].item != p by {
        forall k | 0 <= k < |top| ensures top[k].item != p {
          assert rows[k].item.id == top[k].item;
        }
      }
      forall i | 0 <= i < |rows|
        ensures rows[i].count > Count(w, p) || (rows[i].count == Count(w, p) && rows[i].lastSent >= LastSent(w, p))
      {
        assert RanksAbove(top[i], StatOf(w, p));
      }
    }
  }

  /**
   * `get_popular_products(hours, days, limit)` at time `now`: the top
   * `limit` products of the window, `[]` when nothing was sent in it.
   */
  method PopularProducts(sends: seq<Send>, catalog: Catalog, now: int, hours: int, days: int, limit: nat)
    returns (result: seq<Row>)
    requires Consistent(sends, catalog)
    ensures var w := Window(sends, Threshold(now, hours, days));
      TopOf(w, result, limit) && (w == [] ==> result == [])
  {
    var w := Window(sends, Threshold(now, hours, days));
    var stats := TopStats(w, limit);
    TopStatsProperties(w, limit);
    if stats == [] {
      RowsOfTopStats(w, catalog, limit, []);
      return [];
    }
    WindowConsistent(sends, catalog, Threshold(now, hours, days));
    forall i | 0 <= i < |stats| ensures stats[i].item in catalog {
      SentInCatalog(w, catalog, stats[i].item);
    }
    result := BuildRows(catalog, stats, limit);
    RowsOfTopStats(w, catalog, limit, result);
  }

  // ---------------------------------------------------------------------
  // get_brand_and_its_top_products

  /** `{"id", "name", "product_type", "product_count", "last_sent"}` of the chosen brand. */
  datatype BrandRow = BrandRow(id: int, name: string, productType: string, productCount: nat, lastSent: int)

  datatype BrandTop =
    | NoBrand                                          // `{}`
    | BrandTop(brand: BrandRow, topProducts: seq<Row>)

  predicate Branded(catalog: Catalog, p: int) {
    p in catalog && catalog[p].brand.Some?
  }

  function BrandOf(catalog: Catalog, p: int): int
    requires Branded(catalog, p)
  {
    catalog[p].brand.value.id
  }

  /**
   * A product that takes part in the brand statistics: requested in the
   * window, with a brand, and not in an excluded category (a product without
   * a category is never excluded).
   */
  predicate Qualifies(catalog: Catalog, window: seq<Send>, exclude: seq<int>, p: int) {
    Sent(window, p) && Branded(catalog, p)
    && !(catalog[p].category.Some? && catalog[p].category.value.id in exclude)
  }

  /** The distinct qualifying products, in first-send order. */
  function QualifyingProducts(catalog: Catalog, window: seq<Send>, exclude: seq<int>): (ps: seq<int>)
    ensures forall i, j :: 0 <= i < j < |ps| ==> ps[i] != ps[j]
    ensures forall p :: p in ps <==> Qualifies(catalog, window, exclude, p)
    ensures forall i :: 0 <= i < |ps| ==> Qualifies(catalog, window, exclude, ps[i])
  {
    FilterDistinct(Distinct(window), catalog, window, exclude)
  }

  function FilterDistinct(d: seq<int>, catalog: Catalog, window: seq<Send>, exclude: seq<int>): (ps: seq<int>)
    requires forall i, j :: 0 <= i < j < |d| ==> d[i] != d[j]
    ensures forall i, j :: 0 <= i < j < |ps| ==> ps[i] != ps[j]
    ensures forall p :: p in ps <==> p in d && Qualifies(catalog, window, exclude, p)
    decreases |d|
  {
    if d == [] then []
    else
      var rest := FilterDistinct(d[1..], catalog, window, exclude);
      assert d[0] !in d[1..];
      if Qualifies(catalog, window, exclude, d[0]) then [d[0]] + rest else rest
  }

  predicate AllBranded(catalog: Catalog, qs: seq<int>) {
    forall i :: 0 <= i < |qs| ==> Branded(catalog, qs[i])
  }

  /** Some product of `qs` has brand `b`. */
  predicate HasBrand(catalog: Catalog, qs: seq<int>, b: int) {
    exists i :: 0 <= i < |qs| && Branded(catalog, qs[i]) && BrandOf(catalog, qs[i]) == b
  }

  /** The products of `qs` with brand `b`. */
  function ProductsOfBrand(catalog: Catalog, qs: seq<int>, b: int): (ps: seq<int>)
    requires AllBranded(catalog, qs)
    ensures forall p :: p in ps <==> p in qs && BrandOf(catalog, p) == b
    ensures AllBranded(catalog, ps)
    ensures |ps| <= |qs|
    decreases |qs|
  {
    if qs == [] then []
    else
      var rest := ProductsOfBrand(catalog, qs[1..], b);
      if BrandOf(catalog, qs[0]) == b then [qs[0]] + rest else rest
  }

  /** The latest send, at any time, of any product in `ps`. */
  function LatestOf(all: seq<Send>, ps: seq<int>): (t: Option<int>)
    ensures t.None? <==> forall p :: p in ps ==> !Sent(all, p)
    ensures t.Some? ==> exists i :: 0 <= i < |all| && all[i].product in ps && all[i].sentAt == t.value
    ensures t.Some? ==> forall i :: 0 <= i < |all| && all[i].product in ps ==> all[i].sentAt <= t.value
    decreases |ps|
  {
    if ps == [] then None
    else
      var rest := LatestOf(all, ps[1..]);
      assert forall p :: p in ps <==> p == ps[0] || p in ps[1..];
      if !Sent(all, ps[0]) then
        assert forall i :: 0 <= i < |all| ==> all[i].product != ps[0];
        rest
      else
        var t0 := LastSent(all, ps[0]);
        var i0 :| 0 <= i0 < |all| && all[i0].product == ps[0] && all[i0].sentAt == t0;
        assert all[i0].product in ps;
        match rest
        case None =>
          assert forall i :: 0 <= i < |all| && all[i].product in ps ==> all[i].product == ps[0] by {
            forall i | 0 <= i < |all| && all[i].product in ps && all[i].product != ps[0]
              ensures false
            {
              assert all[i].product in ps[1..] && Sent(all, all[i].product);
            }
          }
          Some(t0)
        case Some(t1) =>
          var i1 :| 0 <= i1 < |all| && all[i1].product in ps[1..] && all[i1].sentAt == t1;
          assert all[i1].product in ps;
          Some(if t0 >= t1 then t0 else t1)
  }

  /** The distinct brands of `qs`. */
  function BrandsOf(catalog: Catalog, qs: seq<int>): (bs: seq<int>)
    requires AllBranded(catalog, qs)
    ensures forall b :: b in bs <==> HasBrand(catalog, qs, b)
    ensures forall i :: 0 <= i < |bs| ==> HasBrand(catalog, qs, bs[i])
    decreases |qs|
  {
    if qs == [] then []
    else
      var rest := BrandsOf(catalog, qs[1..]);
      var b := BrandOf(catalog, qs[0]);
      assert forall c :: HasBrand(catalog, qs, c) <==> c == b || HasBrand(catalog, qs[1..], c) by {
        forall c | HasBrand(catalog, qs, c) && c != b ensures HasBrand(catalog, qs[1..], c) {
          var i :| 0 <= i < |qs| && Branded(catalog, qs[i]) && BrandOf(catalog, qs[i]) == c;
          assert qs[1..][i - 1] == qs[i];
        }
        forall c | HasBrand(catalog, qs[1..], c) ensures HasBrand(catalog, qs, c) {
          var i :| 0 <= i < |qs[1..]| && Branded(catalog, qs[1..][i]) && BrandOf(catalog, qs[1..][i]) == c;
          assert qs[i + 1] == qs[1..][i];
        }
        assert Branded(catalog, qs[0]);
      }
      if b in rest then rest else [b] + rest
  }

  /** The statistics of brand `b` over the qualifying products `qs` and all sends. */
  function BrandStat(all: seq<Send>, catalog: Catalog, qs: seq<int>, b: int): (r: Ranked<int>)
    requires AllBranded(catalog, qs) && HasBrand(catalog, qs, b)
    requires forall i :: 0 <= i < |qs| ==> Sent(all, qs[i])
    ensures r.item == b && r.count == |ProductsOfBrand(catalog, qs, b)|
    ensures LatestOf(all, ProductsOfBrand(catalog, qs, b)) == Some(r.lastSent)
  {
    var ps := ProductsOfBrand(catalog, qs, b);
    var k :| 0 <= k < |qs| && Branded(catalog, qs[k]) && BrandOf(catalog, qs[k]) == b;
    assert qs[k] in ps;
    Ranked(b, |ps|, LatestOf(all, ps).value)
  }

  /**
   * `values('brand_id').annotate(product_count=Count('id', distinct=True),
   * last_sent=Max('product_users__sent_at'))`: for each brand, its number
   * of qualifying products and the latest send of any of them over all sends.
   */
  function BrandStats(all: seq<Send>, catalog: Catalog, qs: seq<int>, bs: seq<int>): (stats: seq<Ranked<int>>)
    requires AllBranded(catalog, qs) && forall i :: 0 <= i < |qs| ==> Sent(all, qs[i])
    requires forall i :: 0 <= i < |bs| ==> HasBrand(catalog, qs, bs[i])
    ensures |stats| == |bs|
    ensures forall i :: 0 <= i < |stats| ==> stats[i] == BrandStat(all, catalog, qs, bs[i])
  {
    seq(|bs|, i requires 0 <= i < |bs| => BrandStat(all, catalog, qs, bs[i]))
  }

  /** `.order_by('-product_count', '-last_sent').first()` over the brand statistics. */
  function ChosenBrand(all: seq<Send>, catalog: Catalog, qs: seq<int>): Option<Ranked<int>>
    requires AllBranded(catalog, qs) && forall i :: 0 <= i < |qs| ==> Sent(all, qs[i])
  {
    var sorted := SortRanked(BrandStats(all, catalog, qs, BrandsOf(catalog, qs)));
    if sorted == [] then None else Some(sorted[0])
  }

  /**
   * A brand is chosen iff some product qualifies, and the chosen brand ranks
   * at least as high as every brand of a qualifying product: more
   * qualifying products, or as many and a send no older.
   */
  lemma ChosenBrandMaximal(all: seq<Send>, catalog: Catalog, qs: seq<int>)
    requires AllBranded(catalog, qs) && forall i :: 0 <= i < |qs| ==> Sent(all, qs[i])
    ensures ChosenBrand(all, catalog, qs).None? <==> qs == []
    ensures ChosenBrand(all, catalog, qs).Some? ==>
      var c := ChosenBrand(all, catalog, qs).value;
      HasBrand(catalog, qs, c.item) && c == BrandStat(all, catalog, qs, c.item)
      && forall b :: HasBrand(catalog, qs, b) ==> RanksAbove(c, BrandStat(all, catalog, qs, b))
  {
    var bs := BrandsOf(catalog, qs);
    var unsorted := BrandStats(all, catalog, qs, bs);
    BrandStatsMembers(all, catalog, qs, bs);
    if qs != [] {
      var b0 := BrandOf(catalog, qs[0]);
      assert HasBrand(catalog, qs, b0);
      SortRankedHead(unsorted, BrandStat(all, catalog, qs, b0));
      var c := SortRanked(unsorted)[0];
      forall b | HasBrand(catalog, qs, b) ensures RanksAbove(c, BrandStat(all, catalog, qs, b)) {
        SortRankedHead(unsorted, BrandStat(all, catalog, qs, b));
      }
    } else {
      assert bs == [];
    }
  }

  /** The statistics hold exactly one entry per listed brand, each that brand's own. */
  lemma BrandStatsMembers(all: seq<Send>, catalog: Catalog, qs: seq<int>, bs: seq<int>)
    requires AllBranded(catalog, qs) && forall i :: 0 <= i < |qs| ==> Sent(all, qs[i])
    requires forall i :: 0 <= i < |bs| ==> HasBrand(catalog, qs, bs[i])
    ensures forall x :: x in BrandStats(all, catalog, qs, bs) ==>
      HasBrand(catalog, qs, x.item) && x == BrandStat(all, catalog, qs, x.item)
    ensures forall b :: b in bs ==> BrandStat(all, catalog, qs, b) in BrandStats(all, catalog, qs, bs)
  {
    var stats := BrandStats(all, catalog, qs, bs);
    forall x | x in stats
      ensures HasBrand(catalog, qs, x.item) && x == BrandStat(all, catalog, qs, x.item)
    {
      var i :| 0 <= i < |stats| && stats[i] == x;
    }
    forall b | b in bs ensures BrandStat(all, catalog, qs, b) in stats {
      var i :| 0 <= i < |bs| && bs[i] == b;
      assert stats[i] == BrandStat(all, catalog, qs, b);
    }
  }

  /** The in-window sends of the brand's products, whatever their category. */
  function BrandSends(w: seq<Send>, catalog: Catalog, b: int): (r: seq<Send>)
    ensures forall s :: s in r <==> s in w && Branded(catalog, s.product) && BrandOf(catalog, s.product) == b
    decreases |w|
  {
    if w == [] then []
    else
      var rest := BrandSends(w[1..], catalog, b);
      assert forall s :: s in w <==> s == w[0] || s in w[1..];
      var s := w[0];
      if Branded(catalog, s.product) && BrandOf(catalog, s.product) == b then [s] + rest else rest
  }

  /** The rows of the top statistics of products in the catalog. */
  function TopRows(catalog: Catalog, top: seq<Ranked<int>>): (rows: seq<Row>)
    ensures |rows| <= |top|
    ensures (forall i :: 0 <= i < |top| ==> top[i].item in catalog) ==>
      |rows| == |top| && forall i :: 0 <= i < |top| ==> rows[i] == MakeRow(catalog, top[i])
  {
    if forall i :: 0 <= i < |top| ==> top[i].item in catalog then
      seq(|top|, i requires 0 <= i < |top| => MakeRow(catalog, top[i]))
    else []
  }

  /** The requested-in-window products are sent at some time, so their latest send exists. */
  lemma QualifyingSent(sends: seq<Send>, w: seq<Send>, catalog: Catalog, exclude: seq<int>, threshold: int)
    requires w == Window(sends, threshold)
    ensures var qs := QualifyingProducts(catalog, w, exclude);
      AllBranded(catalog, qs) && forall i :: 0 <= i < |qs| ==> Sent(sends, qs[i])
  {
    var qs := QualifyingProducts(catalog, w, exclude);
    forall i | 0 <= i < |qs| ensures Sent(sends, qs[i]) {
      assert Qualifies(catalog, w, exclude, qs[i]);
      var k :| 0 <= k < |w| && w[k].product == qs[i];
      assert w[k] in sends;
      var j :| 0 <= j < |sends| && sends[j] == w[k];
    }
  }

  /**
   * `get_brand_and_its_top_products(hours, days, exclude_category_ids,
   * limit)` at time `now`.
   */
  function BrandAndTopProducts(sends: seq<Send>, catalog: Catalog, now: int, hours: int, days: int,
                               exclude: seq<int>, limit: nat): BrandTop
  {
    var w := Window(sends, Threshold(now, hours, days));
    if w == [] then NoBrand
    else
      var qs := QualifyingProducts(catalog, w, exclude);
      QualifyingSent(sends, w, catalog, exclude, Threshold(now, hours, days));
      match ChosenBrand(sends, catalog, qs)
      case None => NoBrand
      case Some(chosen) =>
        var b := chosen.item;
        var brandSends := BrandSends(w, catalog, b);
        var rows := TopRows(catalog, TopStats(brandSends, limit));
        var brand := BrandRecord(catalog, qs, b);
        BrandTop(BrandRow(b, brand.name, TypeDisplay(brand.productType), chosen.count, chosen.lastSent), rows)
  }

  /**
   * `Brand.objects.get(id=...)`, as the brand record carried by the first
   * product of `qs` with that brand.
   */
  function BrandRecord(catalog: Catalog, qs: seq<int>, b: int): (brand: BrandRef)
    requires AllBranded(catalog, qs)
    ensures HasBrand(catalog, qs, b) ==>
      exists i :: 0 <= i < |qs| && Branded(catalog, qs[i]) && BrandOf(catalog, qs[i]) == b
                  && brand == catalog[qs[i]].brand.value
    decreases |qs|
  {
    if qs == [] then BrandRef(b, "", "")
    else if BrandOf(catalog, qs[0]) == b then catalog[qs[0]].brand.value
    else
      var brand := BrandRecord(catalog, qs[1..], b);
      assert HasBrand(catalog, qs, b) ==> HasBrand(catalog, qs[1..], b) by {
        if HasBrand(catalog, qs, b) {
          var i :| 0 <= i < |qs| && Branded(catalog, qs[i]) && BrandOf(catalog, qs[i]) == b;
          assert i > 0 && qs[1..][i - 1] == qs[i];
        }
      }
      assert HasBrand(catalog, qs[1..], b) ==>
        exists i :: 0 <= i < |qs| && Branded(catalog, qs[i]) && BrandOf(catalog, qs[i]) == b
                    && brand == catalog[qs[i]].brand.value by {
        if HasBrand(catalog, qs[1..], b) {
          var j :| 0 <= j < |qs[1..]| && Branded(catalog, qs[1..][j]) && BrandOf(catalog, qs[1..][j]) == b
                   && brand == catalog[qs[1..][j]].brand.value;
          assert qs[j + 1] == qs[1..][j];
        }
      }
      brand
  }

  /**
   * The brand dict names the chosen brand as a qualifying product of it
   * records it: its `name`, and the display of its `product_type`.
   */
  lemma BrandData(sends: seq<Send>, catalog: Catalog, now: int, hours: int, days: int, exclude: seq<int>, limit: nat)
    ensures var r := BrandAndTopProducts(sends, catalog, now, hours, days, exclude, limit);
      var w := Window(sends, Threshold(now, hours, days));
      r.BrandTop? ==>
        exists p :: Qualifies(catalog, w, exclude, p) && BrandOf(catalog, p) == r.brand.id
                    && r.brand.name == catalog[p].brand.value.name
                    && r.brand.productType == TypeDisplay(catalog[p].brand.value.productType)
  {
    var r := BrandAndTopProducts(sends, catalog, now, hours, days, exclude, limit);
    var w := Window(sends, Threshold(now, hours, days));
    if r.BrandTop? {
      var qs := QualifyingProducts(catalog, w, exclude);
      BrandChoice(sends, catalog, now, hours, days, exclude, limit);
      var brand := BrandRecord(catalog, qs, r.brand.id);
      var i :| 0 <= i < |qs| && Branded(catalog, qs[i]) && BrandOf(catalog, qs[i]) == r.brand.id
               && brand == catalog[qs[i]].brand.value;
      assert Qualifies(catalog, w, exclude, qs[i]);
    }
  }

  /**
   * The brand query answers `{}` exactly when nothing was sent in the
   * window or no sent product has a brand outside the excluded categories.
   */
  lemma BrandNone(sends: seq<Send>, catalog: Catalog, now: int, hours: int, days: int, exclude: seq<int>, limit: nat)
    ensures var w := Window(sends, Threshold(now, hours, days));
      BrandAndTopProducts(sends, catalog, now, hours, days, exclude, limit).NoBrand?
      <==> forall p :: !Qualifies(catalog, w, exclude, p)
  {
    var threshold := Threshold(now, hours, days);
    var w := Window(sends, threshold);
    if w != [] {
      var qs := QualifyingProducts(catalog, w, exclude);
      QualifyingSent(sends, w, catalog, exclude, threshold);
      ChosenBrandMaximal(sends, catalog, qs);
      if exists p :: Qualifies(catalog, w, exclude, p) {
        var p :| Qualifies(catalog, w, exclude, p);
        assert p in qs;
      }
    } else {
      forall p ensures !Qualifies(catalog, w, exclude, p) {
        assert !Sent(w, p);
      }
    }
  }

  /**
   * The chosen brand is the brand of a qualifying product and ranks at least
   * as high as the brand of every qualifying product: more qualifying
   * products, or as many and a latest send, over all sends of those
   * products, no older.
   */
  lemma BrandChoice(sends: seq<Send>, catalog: Catalog, now: int, hours: int, days: int, exclude: seq<int>, limit: nat)
    ensures var r := BrandAndTopProducts(sends, catalog, now, hours, days, exclude, limit);
      var w := Window(sends, Threshold(now, hours, days));
      var qs := QualifyingProducts(catalog, w, exclude);
      r.BrandTop? ==>
        AllBranded(catalog, qs) && HasBrand(catalog, qs, r.brand.id)
        && r.brand.productCount == |ProductsOfBrand(catalog, qs, r.brand.id)|
        && LatestOf(sends, ProductsOfBrand(catalog, qs, r.brand.id)) == Some(r.brand.lastSent)
        && forall p :: Qualifies(catalog, w, exclude, p) ==>
             var ps := ProductsOfBrand(catalog, qs, BrandOf(catalog, p));
             |ps| < r.brand.productCount
             || (|ps| == r.brand.productCount && LatestOf(sends, ps).Some? && LatestOf(sends, ps).value <= r.brand.lastSent)
  {
    var threshold := Threshold(now, hours, days);
    var w := Window(sends, threshold);
    if w != [] {
      var qs := QualifyingProducts(catalog, w, exclude);
      QualifyingSent(sends, w, catalog, exclude, threshold);
      ChosenBrandMaximal(sends, catalog, qs);
      forall p | Qualifies(catalog, w, exclude, p)
        ensures p in qs && HasBrand(catalog, qs, BrandOf(catalog, p))
      {
        var i :| 0 <= i < |qs| && qs[i] == p;
      }
    }
  }

  /** Rows made from sorted statistics of distinct catalogue products keep their order and identity. */
  lemma TopRowsOfSorted(catalog: Catalog, top: seq<Ranked<int>>)
    requires Sorted(top) && ItemsDistinct(top)
    requires forall i :: 0 <= i < |top| ==> top[i].item in catalog
    ensures var rows := TopRows(catalog, top);
      |rows| == |top| && Sorted(rows)
      && (forall i, j :: 0 <= i < j < |rows| ==> rows[i].item.id != rows[j].item.id)
      && forall i :: 0 <= i < |rows| ==> rows[i].item.id == top[i].item && rows[i].count == top[i].count
  {
    var rows := TopRows(catalog, top);
    forall i, j | 0 <= i < j < |rows| ensures RanksAbove(rows[i], rows[j]) {
      assert RanksAbove(top[i], top[j]);
    }
  }

  /** A product of brand `b` has the same sends, count and latest send among the brand's sends as in the window. */
  lemma BrandSendsAgree(w: seq<Send>, catalog: Catalog, b: int, p: int)
    requires Branded(catalog, p) && BrandOf(catalog, p) == b
    ensures Sent(BrandSends(w, catalog, b), p) <==> Sent(w, p)
    ensures Count(BrandSends(w, catalog, b), p) == Count(w, p)
    ensures Sent(w, p) ==> LastSent(BrandSends(w, catalog, b), p) == LastSent(w, p)
  {
    CountOfBrandSends(w, catalog, b, p);
    if Sent(w, p) {
      BrandLastSent(w, catalog, b, p);
    }
  }

  /** The latest send of a product of the brand is the same among the brand's sends as in the window. */
  lemma BrandLastSent(w: seq<Send>, catalog: Catalog, b: int, p: int)
    requires Branded(catalog, p) && BrandOf(catalog, p) == b
    requires Sent(w, p) && Sent(BrandSends(w, catalog, b), p)
    ensures LastSent(BrandSends(w, catalog, b), p) == LastSent(w, p)
  {
    var bs := BrandSends(w, catalog, b);
    LastSentCovered(bs, w, p);
    LastSentCovered(w, bs, p);
  }

  /** When every send of `p` in `xs` is also in `ys`, the latest one in `xs` is no later than in `ys`. */
  lemma LastSentCovered(xs: seq<Send>, ys: seq<Send>, p: int)
    requires Sent(xs, p) && Sent(ys, p)
    requires forall s :: s in xs && s.product == p ==> s in ys
    ensures LastSent(xs, p) <= LastSent(ys, p)
  {
    var i :| 0 <= i < |xs| && xs[i].product == p && xs[i].sentAt == LastSent(xs, p);
    assert xs[i] in xs;
    var j :| 0 <= j < |ys| && ys[j] == xs[i];
  }

  /** A product sent among the brand's sends has that brand and was sent in the window. */
  lemma BrandSendsOfBrand(w: seq<Send>, catalog: Catalog, b: int, p: int)
    requires Sent(BrandSends(w, catalog, b), p)
    ensures Branded(catalog, p) && BrandOf(catalog, p) == b && Sent(w, p)
  {
    var bs := BrandSends(w, catalog, b);
    var i :| 0 <= i < |bs| && bs[i].product == p;
    assert bs[i] in bs;
    var m :| 0 <= m < |w| && w[m] == bs[i];
  }

  /**
   * The top statistics of the brand's sends are of the brand's products,
   * with their in-window counts and latest sends; they hold every product of
   * the brand sent in the window when fewer than `limit` are returned, and
   * such a product left out ranks no higher than any of them.
   */
  lemma BrandTopStats(w: seq<Send>, catalog: Catalog, b: int, limit: nat)
    ensures var top := TopStats(BrandSends(w, catalog, b), limit);
      |top| <= limit && Sorted(top) && ItemsDistinct(top)
      && (forall i :: 0 <= i < |top| ==>
            var p := top[i].item;
            Branded(catalog, p) && BrandOf(catalog, p) == b
            && Sent(w, p) && top[i].count == Count(w, p) && top[i].lastSent == LastSent(w, p))
      && (|top| < limit ==> forall p :: Branded(catalog, p) && BrandOf(catalog, p) == b && Sent(w, p) ==>
            exists i :: 0 <= i < |top| && top[i].item == p)
      && (forall p ::
            (Branded(catalog, p) && BrandOf(catalog, p) == b && Sent(w, p)
             && forall k :: 0 <= k < |top| ==> top[k].item != p)
            ==> forall i :: 0 <= i < |top| ==> RanksAbove(top[i], StatOf(w, p)))
  {
    TopStatsProperties(BrandSends(w, catalog, b), limit);
    BrandTopItems(w, catalog, b, limit);
    BrandTopCovers(w, catalog, b, limit);
  }

  /** The top statistics of the brand's sends are of its products, with their in-window counts and latest sends. */
  lemma BrandTopItems(w: seq<Send>, catalog: Catalog, b: int, limit: nat)
    ensures var top := TopStats(BrandSends(w, catalog, b), limit);
      forall i :: 0 <= i < |top| ==>
        var p := top[i].item;
        Branded(catalog, p) && BrandOf(catalog, p) == b
        && Sent(w, p) && top[i].count == Count(w, p) && top[i].lastSent == LastSent(w, p)
  {
    var bs := BrandSends(w, catalog, b);
    var top := TopStats(bs, limit);
    TopStatsProperties(bs, limit);
    forall i | 0 <= i < |top|
      ensures var p := top[i].item;
        Branded(catalog, p) && BrandOf(catalog, p) == b
        && Sent(w, p) && top[i].count == Count(w, p) && top[i].lastSent == LastSent(w, p)
    {
      BrandSendsOfBrand(w, catalog, b, top[i].item);
      BrandSendsAgree(w, catalog, b, top[i].item);
    }
  }

  /**
   * A product of the brand sent in the window is among the brand's top
   * statistics when fewer than `limit` are returned, and ranks no higher
   * than any of them when left out.
   */
  lemma BrandTopCovers(w: seq<Send>, catalog: Catalog, b: int, limit: nat)
    ensures var top := TopStats(BrandSends(w, catalog, b), limit);
      (|top| < limit ==> forall p :: Branded(catalog, p) && BrandOf(catalog, p) == b && Sent(w, p) ==>
         exists i :: 0 <= i < |top| && top[i].item == p)
      && (forall p ::
            (Branded(catalog, p) && BrandOf(catalog, p) == b && Sent(w, p)
             && forall k :: 0 <= k < |top| ==> top[k].item != p)
            ==> forall i :: 0 <= i < |top| ==> RanksAbove(top[i], StatOf(w, p)))
  {
    var bs := BrandSends(w, catalog, b);
    var top := TopStats(bs, limit);
    TopStatsComplete(bs, limit);
    forall p | Branded(catalog, p) && BrandOf(catalog, p) == b && Sent(w, p)
      ensures (|top| < limit ==> exists i :: 0 <= i < |top| && top[i].item == p)
      ensures (forall k :: 0 <= k < |top| ==> top[k].item != p) ==>
        forall i :: 0 <= i < |top| ==> RanksAbove(top[i], StatOf(w, p))
    {
      BrandSendsAgree(w, catalog, b, p);
      TopStatsMaximal(bs, limit, p);
      assert StatOf(bs, p) == StatOf(w, p);
    }
  }

  /**
   * The rows of the brand's top statistics are the top `limit` products of
   * the brand's sends, all of the brand and with their in-window counts and
   * latest sends.
   */
  lemma BrandRowsTop(w: seq<Send>, catalog: Catalog, b: int, limit: nat)
    ensures var rows := TopRows(catalog, TopStats(BrandSends(w, catalog, b), limit));
      TopOf(BrandSends(w, catalog, b), rows, limit)
      && forall i :: 0 <= i < |rows| ==>
           var p := rows[i].item.id;
           Branded(catalog, p) && BrandOf(catalog, p) == b
           && Sent(w, p) && rows[i].count == Count(w, p) && rows[i].lastSent == LastSent(w, p)
  {
    var bs := BrandSends(w, catalog, b);
    var top := TopStats(bs, limit);
    BrandTopStats(w, catalog, b, limit);
    var rows := TopRows(catalog, top);
    RowsOfTopStats(bs, catalog, limit, rows);
    forall i | 0 <= i < |rows|
      ensures var p := rows[i].item.id;
        Branded(catalog, p) && BrandOf(catalog, p) == b
        && Sent(w, p) && rows[i].count == Count(w, p) && rows[i].lastSent == LastSent(w, p)
    {
      assert rows[i] == MakeRow(catalog, top[i]);
    }
  }

  /**
   * The top products all have the chosen brand: they are the top `limit`
   * products of the window's sends of that brand's products, whatever their
   * category, each with its in-window count and latest send.
   */
  lemma BrandTopProducts(sends: seq<Send>, catalog: Catalog, now: int, hours: int, days: int, exclude: seq<int>, limit: nat)
    ensures var r := BrandAndTopProducts(sends, catalog, now, hours, days, exclude, limit);
      var w := Window(sends, Threshold(now, hours, days));
      r.BrandTop? ==>
        TopOf(BrandSends(w, catalog, r.brand.id), r.topProducts, limit)
        && forall i :: 0 <= i < |r.topProducts| ==>
             var p := r.topProducts[i].item.id;
             Branded(catalog, p) && BrandOf(catalog, p) == r.brand.id && Sent(w, p)
             && r.topProducts[i].count == Count(w, p) && r.topProducts[i].lastSent == LastSent(w, p)
  {
    var w := Window(sends, Threshold(now, hours, days));
    var r := BrandAndTopProducts(sends, catalog, now, hours, days, exclude, limit);
    if r.BrandTop? {
      BrandTopShape(sends, catalog, now, hours, days, exclude, limit);
      BrandRowsTop(w, catalog, r.brand.id, limit);
    }
  }

  /**
   * A proof step of `BrandTopProducts` only: the top products are the rows
   * of the chosen brand's top statistics over the window.
   */
  lemma BrandTopShape(sends: seq<Send>, catalog: Catalog, now: int, hours: int, days: int, exclude: seq<int>, limit: nat)
    ensures var r := BrandAndTopProducts(sends, catalog, now, hours, days, exclude, limit);
      var w := Window(sends, Threshold(now, hours, days));
      r.BrandTop? ==> r.topProducts == TopRows(catalog, TopStats(BrandSends(w, catalog, r.brand.id), limit))
  {
  }

  /** Keeping only the brand's sends keeps every send of a product of that brand. */
  lemma {:induction false} CountOfBrandSends(w: seq<Send>, catalog: Catalog, b: int, p: int)
    requires Branded(catalog, p) && BrandOf(catalog, p) == b
    ensures Count(BrandSends(w, catalog, b), p) == Count(w, p)
    decreases |w|
  {
    if w != [] {
      CountOfBrandSends(w[1..], catalog, b, p);
    }
  }
}
