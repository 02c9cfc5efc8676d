/**
 * The store-wide performance dashboard. On mount it walks every key of
 * `localStorage` once: a `feedback_<itemId>...` key sets that item's
 * feedback list, a `..._sales` key adds its records to the sales, a
 * `..._favorites` key adds its entries to the favorites, and every other
 * key is skipped. The figures and the per-item rows are computed from
 * those three collections.
 *
 * Each family of keys holds JSON of its own shape; the scan reads the one
 * namespace through three views, one per shape.
 */
module Dashboard {
  import opened Prelude
  import opened Strings
  import opened JsObject
  import opened LocalStorage

  datatype FeedbackEntry = FeedbackEntry(
    score: int,
    feedback: string,
    timestamp: string,
    userId: string,
    userName: string,
    userEmail: string)

  datatype InventoryItem = InventoryItem(id: string, name: string, cost: int, stock: int)

  datatype SalesRecord = SalesRecord(id: string, name: string, cost: int, stock: int, timestamp: string)

  /** What the scan does with a key, in the order the source tests the conditions. */
  datatype KeyKind = FeedbackKey(itemId: string) | SalesKey | FavoritesKey | OtherKey

  /** `key.split("_")[1]` for a key that starts with `feedback_`: always defined. */
  function FeedbackItemId(key: string): string
    requires StartsWith(key, "feedback_")
  {
    assert key == "feedback" + "_" + key[9..];
    SecondPart("feedback", "_", key[9..]);
    Part(key, "_", 1).value
  }

  function Classify(key: string): KeyKind
  {
    if StartsWith(key, "feedback_") then FeedbackKey(FeedbackItemId(key))
    else if EndsWith(key, "_sales") then SalesKey
    else if EndsWith(key, "_favorites") then FavoritesKey
    else OtherKey
  }

  /** `storedFeedback` after the scan has seen `keys`. */
  function ScanFeedback(keys: seq<string>, view: Store<FeedbackEntry>): Object<seq<FeedbackEntry>>
  {
    if keys == [] then []
    else
      var before := ScanFeedback(keys[..|keys| - 1], view);
      var key := keys[|keys| - 1];
      match Classify(key)
      case FeedbackKey(itemId) => Put(before, itemId, GetOrEmpty(view, key))
      case _ => before
  }

  /** `storedSales` after the scan has seen `keys`. */
  function ScanSales(keys: seq<string>, view: Store<SalesRecord>): seq<SalesRecord>
  {
    ConcatMap(keys, (key: string) => SalesFrom(view, key))
  }

  /** What one key adds to `storedSales`: its records if it is a sales key, nothing otherwise. */
  function SalesFrom(view: Store<SalesRecord>, key: string): seq<SalesRecord>
  {
    if Classify(key) == SalesKey then GetOrEmpty(view, key) else []
  }

  /** `storedFavorites` after the scan has seen `keys`. */
  function ScanFavorites(keys: seq<string>, view: Store<InventoryItem>): seq<InventoryItem>
  {
    ConcatMap(keys, (key: string) => FavoritesFrom(view, key))
  }

  /** What one key adds to `storedFavorites`: its entries if it is a favorites key, nothing otherwise. */
  function FavoritesFrom(view: Store<InventoryItem>, key: string): seq<InventoryItem>
  {
    if Classify(key) == FavoritesKey then GetOrEmpty(view, key) else []
  }

  /**
   * The loading effect: one pass over the keys in storage order, filling
   * the three collections.
   */
  method LoadPerformanceData(
    keys: seq<string>,
    feedbackView: Store<FeedbackEntry>,
    salesView: Store<SalesRecord>,
    favoritesView: Store<InventoryItem>)
    returns (storedFeedback: Object<seq<FeedbackEntry>>, storedSales: seq<SalesRecord>, storedFavorites: seq<InventoryItem>)
    ensures storedFeedback == ScanFeedback(keys, feedbackView)
    ensures storedSales == ScanSales(keys, salesView)
    ensures storedFavorites == ScanFavorites(keys, favoritesView)
  {
    storedFeedback, storedSales, storedFavorites := [], [], [];
    var i := 0;
    while i < |keys|
      invariant 0 <= i <= |keys|
      invariant storedFeedback == ScanFeedback(keys[..i], feedbackView)
      invariant storedSales == ScanSales(keys[..i], salesView)
      invariant storedFavorites == ScanFavorites(keys[..i], favoritesView)
    {
      var key := keys[i];
      assert keys[..i + 1][..i] == keys[..i];
      if StartsWith(key, "feedback_") {
        var itemId := FeedbackItemId(key);
        storedFeedback := Put(storedFeedback, itemId, GetOrEmpty(feedbackView, key));
      } else if EndsWith(key, "_sales") {
        storedSales := storedSales + GetOrEmpty(salesView, key);
      } else if EndsWith(key, "_favorites") {
        storedFavorites := storedFavorites + GetOrEmpty(favoritesView, key);
      }
      i := i + 1;
    }
    assert keys[..i] == keys;
  }

  function Score(entry: FeedbackEntry): int
  {
    entry.score
  }

  /** `entries.reduce((sum, e) => sum + e.score, 0) / entries.length || 0`: the mean score, 0 for no entries. */
  function MeanScore(entries: seq<FeedbackEntry>): (r: real)
    ensures |entries| == 0 ==> r == 0.0
    ensures |entries| > 0 ==> r * |entries| as real == SumOf(entries, Score) as real
  {
    if |entries| == 0 then 0.0 else SumOf(entries, Score) as real / |entries| as real
  }

  /** `Object.values(feedbackEntries).flat()`. */
  function AllFeedback(feedback: Object<seq<FeedbackEntry>>): seq<FeedbackEntry>
  {
    Flatten(Values(feedback))
  }

  /** `totalFeedback`. */
  function TotalFeedback(feedback: Object<seq<FeedbackEntry>>): (r: nat)
    ensures r == SumOf(Values(feedback), Length)
  {
    |AllFeedback(feedback)|
  }

  /** `avgScore`. */
  function AvgScore(feedback: Object<seq<FeedbackEntry>>): (r: real)
    ensures TotalFeedback(feedback) == 0 ==> r == 0.0
    ensures r * TotalFeedback(feedback) as real == SumOf(AllFeedback(feedback), Score) as real
  {
    MeanScore(AllFeedback(feedback))
  }

  function SaleRevenue(record: SalesRecord): int
  {
    record.cost * record.stock
  }

  /** `totalRevenue`. */
  function TotalRevenue(sales: seq<SalesRecord>): (r: int)
    ensures sales == [] ==> r == 0
    ensures |sales| == 1 ==> r == sales[0].cost * sales[0].stock
  {
    SumOfOne(sales, SaleRevenue);
    SumOf(sales, SaleRevenue)
  }

  /** `totalSales`: the number of sales records. */
  function TotalSales(sales: seq<SalesRecord>): (r: nat)
    ensures r == 0 <==> sales == []
  {
    |sales|
  }

  /** `totalFavorites`: the number of favorites. */
  function TotalFavorites(favorites: seq<InventoryItem>): (r: nat)
    ensures r == 0 <==> favorites == []
  {
    |favorites|
  }

  /** `salesRecords.filter((record) => record.id === itemId)`. */
  function SalesOf(sales: seq<SalesRecord>, itemId: string): seq<SalesRecord>
  {
    Filter(sales, (record: SalesRecord) => record.id == itemId)
  }

  /** `favoriteItems.filter((item) => item.id === itemId)`. */
  function FavoritesOf(favorites: seq<InventoryItem>, itemId: string): seq<InventoryItem>
  {
    Filter(favorites, (item: InventoryItem) => item.id == itemId)
  }

  /** One entry of `itemPerformance`. */
  datatype ItemRow = ItemRow(itemId: string, feedbackCount: nat, avgScore: real, salesCount: nat, favoriteCount: nat)

  function RowFor(itemId: string, itemFeedback: seq<FeedbackEntry>, sales: seq<SalesRecord>, favorites: seq<InventoryItem>): ItemRow
  {
    ItemRow(itemId, |itemFeedback|, MeanScore(itemFeedback), |SalesOf(sales, itemId)|, |FavoritesOf(favorites, itemId)|)
  }

  /** `itemPerformance`: one row per entry of `feedbackEntries`, in entry order. */
  function ItemPerformance(feedback: Object<seq<FeedbackEntry>>, sales: seq<SalesRecord>, favorites: seq<InventoryItem>): (r: seq<ItemRow>)
    ensures |r| == |feedback|
    ensures forall i :: 0 <= i < |feedback| ==> r[i] == RowFor(feedback[i].0, feedback[i].1, sales, favorites)
  {
    if feedback == [] then []
    else [RowFor(feedback[0].0, feedback[0].1, sales, favorites)] + ItemPerformance(feedback[1..], sales, favorites)
  }
}

module DashboardProperties {
  import opened Prelude
  import opened Strings
  import opened JsObject
  import opened LocalStorage
  import opened Dashboard

  /** A feedback key written as `feedback_<id>`, with or without a `_`-suffix, names item `id`; the prefix test wins over the suffix tests. */
  lemma FeedbackKeyRoundTrip(id: string, rest: string)
    requires '_' !in id
    ensures Classify("feedback_" + id) == FeedbackKey(id)
    ensures Classify("feedback_" + id + "_" + rest) == FeedbackKey(id)
  {
    var k1 := "feedback_" + id;
    var k2 := "feedback_" + id + "_" + rest;
    assert k1[..9] == "feedback_" && k1[9..] == id;
    assert k2[..9] == "feedback_" && k2[9..] == id + "_" + rest;
    assert k1 == "feedback" + "_" + id;
    assert k2 == "feedback" + "_" + (id + "_" + rest);
    SecondPart("feedback", "_", id);
    SecondPart("feedback", "_", id + "_" + rest);
    SplitWithout(id, "_");
    SplitAfter(id, "_", rest);
  }

  /**
   * The scan's tests in order: a `feedback_` key names the text after the
   * prefix up to the next `_`, whatever it ends with; otherwise `_sales`
   * wins over `_favorites`, and any other key is skipped.
   */
  lemma ClassifiedKey(key: string)
    ensures StartsWith(key, "feedback_") ==> Classify(key) == FeedbackKey(Split(key[9..], "_")[0])
    ensures !StartsWith(key, "feedback_") && EndsWith(key, "_sales") ==> Classify(key) == SalesKey
    ensures !StartsWith(key, "feedback_") && !EndsWith(key, "_sales") && EndsWith(key, "_favorites") ==> Classify(key) == FavoritesKey
    ensures !StartsWith(key, "feedback_") && !EndsWith(key, "_sales") && !EndsWith(key, "_favorites") ==> Classify(key) == OtherKey
  {
    if StartsWith(key, "feedback_") {
      assert key == "feedback" + "_" + key[9..];
      SecondPart("feedback", "_", key[9..]);
    }
  }

  /** The index of the last key in `keys` that names `itemId`'s feedback. */
  function LastFeedbackIndex(keys: seq<string>, itemId: string): (r: Option<nat>)
    ensures r.Some? ==> r.value < |keys| && Classify(keys[r.value]) == FeedbackKey(itemId)
    ensures r.Some? ==> forall j :: r.value < j < |keys| ==> Classify(keys[j]) != FeedbackKey(itemId)
    ensures r.None? ==> forall j :: 0 <= j < |keys| ==> Classify(keys[j]) != FeedbackKey(itemId)
  {
    if keys == [] then None
    else
      var n := |keys| - 1;
      if Classify(keys[n]) == FeedbackKey(itemId) then Some(n)
      else
        var front := keys[..n];
        assert forall j :: 0 <= j < n ==> front[j] == keys[j];
        LastFeedbackIndex(front, itemId)
  }


  /**
   * Two keys naming the same item overwrite each other: an item's feedback
   * list is the blob of the last key naming it, and items no key names
   * have none.
   */
  lemma {:induction false} LaterFeedbackKeyWins(keys: seq<string>, view: Store<FeedbackEntry>, itemId: string)
    ensures Get(ScanFeedback(keys, view), itemId) ==
              match LastFeedbackIndex(keys, itemId)
              case None => None
              case Some(i) => Some(GetOrEmpty(view, keys[i]))
  {
    if keys != [] {
      var front := keys[..|keys| - 1];
      LaterFeedbackKeyWins(front, view, itemId);
      match LastFeedbackIndex(front, itemId)
      case None =>
      case Some(i) => assert keys[i] == front[i];
    }
  }

  /** The scan never gives an item two feedback entries. */
  lemma {:induction false} ScanFeedbackUnique(keys: seq<string>, view: Store<FeedbackEntry>)
    ensures UniqueKeys(ScanFeedback(keys, view))
  {
    if keys != [] {
      var front := keys[..|keys| - 1];
      ScanFeedbackUnique(front, view);
      match Classify(keys[|keys| - 1])
      case FeedbackKey(itemId) =>
        PutKeepsKeysUnique(ScanFeedback(front, view), itemId, GetOrEmpty(view, keys[|keys| - 1]));
      case _ =>
    }
  }

  /** The items the feedback scan holds an entry for are exactly the items some key names. */
  lemma FeedbackItemsAreNamedItems(keys: seq<string>, view: Store<FeedbackEntry>, itemId: string)
    ensures itemId in Keys(ScanFeedback(keys, view)) <==>
            exists j :: 0 <= j < |keys| && Classify(keys[j]) == FeedbackKey(itemId)
  {
    LaterFeedbackKeyWins(keys, view, itemId);
    GetDefinedIffKey(ScanFeedback(keys, view), itemId);
  }

  /**
   * `itemPerformance` has exactly one row per item some feedback key
   * names, and no two rows for one item.
   */
  lemma OneRowPerFeedbackItem(keys: seq<string>, view: Store<FeedbackEntry>, sales: seq<SalesRecord>, favorites: seq<InventoryItem>, itemId: string)
    ensures var rows := ItemPerformance(ScanFeedback(keys, view), sales, favorites);
            (exists i :: 0 <= i < |rows| && rows[i].itemId == itemId) <==>
            (exists j :: 0 <= j < |keys| && Classify(keys[j]) == FeedbackKey(itemId))
    ensures var rows := ItemPerformance(ScanFeedback(keys, view), sales, favorites);
            forall i, j :: 0 <= i < j < |rows| ==> rows[i].itemId != rows[j].itemId
  {
    var feedback := ScanFeedback(keys, view);
    var rows := ItemPerformance(feedback, sales, favorites);
    ScanFeedbackUnique(keys, view);
    FeedbackItemsAreNamedItems(keys, view, itemId);
    assert forall i :: 0 <= i < |rows| ==> rows[i].itemId == Keys(feedback)[i];
  }

  /** The sales scan is a concatenation in scan order: scanning two runs of keys is scanning each in turn. */
  lemma ScanSalesConcat(a: seq<string>, b: seq<string>, view: Store<SalesRecord>)
    ensures ScanSales(a + b, view) == ScanSales(a, view) + ScanSales(b, view)
  {
    ConcatMapConcat(a, b, (key: string) => SalesFrom(view, key));
  }


  /** The favorites scan is a concatenation in scan order. */
  lemma ScanFavoritesConcat(a: seq<string>, b: seq<string>, view: Store<InventoryItem>)
    ensures ScanFavorites(a + b, view) == ScanFavorites(a, view) + ScanFavorites(b, view)
  {
    ConcatMapConcat(a, b, (key: string) => FavoritesFrom(view, key));
  }


  /**
   * The sales figures add up over the keys: scanning two runs of keys
   * counts the sales and the revenue of each run and adds them.
   */
  lemma SalesFiguresOverScan(a: seq<string>, b: seq<string>, view: Store<SalesRecord>)
    ensures TotalSales(ScanSales(a + b, view)) == TotalSales(ScanSales(a, view)) + TotalSales(ScanSales(b, view))
    ensures TotalRevenue(ScanSales(a + b, view)) == TotalRevenue(ScanSales(a, view)) + TotalRevenue(ScanSales(b, view))
  {
    ScanSalesConcat(a, b, view);
    SumOfConcat(ScanSales(a, view), ScanSales(b, view), SaleRevenue);
  }

  /** `totalRevenue` adds up over sales records laid end to end, within one blob or across blobs. */
  lemma TotalRevenueConcat(a: seq<SalesRecord>, b: seq<SalesRecord>)
    ensures TotalRevenue(a + b) == TotalRevenue(a) + TotalRevenue(b)
  {
    SumOfConcat(a, b, SaleRevenue);
  }

  /** The favorites count adds up over the keys in the same way. */
  lemma FavoritesCountOverScan(a: seq<string>, b: seq<string>, view: Store<InventoryItem>)
    ensures TotalFavorites(ScanFavorites(a + b, view)) == TotalFavorites(ScanFavorites(a, view)) + TotalFavorites(ScanFavorites(b, view))
  {
    ScanFavoritesConcat(a, b, view);
  }

  /**
   * `avgScore` weighs every entry alike: times `totalFeedback` it is the
   * sum, over the items, of each item's score total.
   */
  lemma ScoreTotalIsItemSum(feedback: Object<seq<FeedbackEntry>>)
    ensures AvgScore(feedback) * TotalFeedback(feedback) as real
            == SumOf(Values(feedback), (entries: seq<FeedbackEntry>) => SumOf(entries, Score)) as real
  {
    FlattenSum(Values(feedback), Score);
  }

  /** A total within `n` times the bounds, divided by `n`, lies within the bounds. */
  lemma MeanWithin(sum: real, n: real, lo: real, hi: real)
    requires n > 0.0 && n * lo <= sum <= n * hi
    ensures lo <= sum / n <= hi
  {
    assert sum / n * n == sum;
  }

  /** With every score in [lo, hi], a non-empty list's mean score lies in [lo, hi]. */
  lemma MeanScoreBounds(entries: seq<FeedbackEntry>, lo: int, hi: int)
    requires |entries| > 0
    requires forall i :: 0 <= i < |entries| ==> lo <= entries[i].score <= hi
    ensures lo as real <= MeanScore(entries) <= hi as real
  {
    SumOfBounds(entries, Score, lo, hi);
    var n := |entries| as real;
    var sum := SumOf(entries, Score) as real;
    assert n * lo as real <= sum <= n * hi as real;
    assert MeanScore(entries) == sum / n;
    MeanWithin(sum, n, lo as real, hi as real);
  }


  function FeedbackCount(row: ItemRow): int
  {
    row.feedbackCount
  }

  function SalesCount(row: ItemRow): int
  {
    row.salesCount
  }

  /** The chart's per-item feedback counts add up to `totalFeedback`. */
  lemma {:induction false} TotalFeedbackIsRowSum(feedback: Object<seq<FeedbackEntry>>, sales: seq<SalesRecord>, favorites: seq<InventoryItem>)
    ensures TotalFeedback(feedback) == SumOf(ItemPerformance(feedback, sales, favorites), FeedbackCount)
  {
    if feedback != [] {
      TotalFeedbackIsRowSum(feedback[1..], sales, favorites);
      assert Values(feedback) == [feedback[0].1] + Values(feedback[1..]);
      assert Values(feedback)[1..] == Values(feedback[1..]);
    }
  }

  /** How many of `ids` equal `id`. */
  function Occurrences(ids: seq<string>, id: string): nat
  {
    if ids == [] then 0 else (if ids[0] == id then 1 else 0) + Occurrences(ids[1..], id)
  }

  lemma {:induction false} OccurrencesDistinct(ids: seq<string>, id: string)
    requires forall i, j :: 0 <= i < j < |ids| ==> ids[i] != ids[j]
    ensures Occurrences(ids, id) == if id in ids then 1 else 0
  {
    if ids != [] {
      OccurrencesDistinct(ids[1..], id);
      if ids[0] == id {
        assert id !in ids[1..];
      }
    }
  }

  /** The sales counts of the rows for `ids`, added up. */
  function SalesCountSum(ids: seq<string>, sales: seq<SalesRecord>): nat
  {
    if ids == [] then 0 else |SalesOf(sales, ids[0])| + SalesCountSum(ids[1..], sales)
  }

  lemma {:induction false} SalesCountSumCons(ids: seq<string>, x: SalesRecord, rest: seq<SalesRecord>)
    ensures SalesCountSum(ids, [x] + rest) == SalesCountSum(ids, rest) + Occurrences(ids, x.id)
  {
    if ids != [] {
      SalesCountSumCons(ids[1..], x, rest);
      assert ([x] + rest)[1..] == rest;
    }
  }

  lemma {:induction false} SalesCountSumDistinct(ids: seq<string>, sales: seq<SalesRecord>)
    requires forall i, j :: 0 <= i < j < |ids| ==> ids[i] != ids[j]
    ensures SalesCountSum(ids, sales) == |Filter(sales, (record: SalesRecord) => record.id in ids)|
  {
    if sales == [] {
      if ids != [] {
        SalesCountSumDistinct(ids[1..], sales);
      }
    } else {
      assert sales == [sales[0]] + sales[1..];
      SalesCountSumCons(ids, sales[0], sales[1..]);
      OccurrencesDistinct(ids, sales[0].id);
      SalesCountSumDistinct(ids, sales[1..]);
    }
  }

  lemma {:induction false} RowSalesSum(feedback: Object<seq<FeedbackEntry>>, sales: seq<SalesRecord>, favorites: seq<InventoryItem>)
    ensures SumOf(ItemPerformance(feedback, sales, favorites), SalesCount) == SalesCountSum(Keys(feedback), sales)
  {
    if feedback != [] {
      RowSalesSum(feedback[1..], sales, favorites);
      assert Keys(feedback)[1..] == Keys(feedback[1..]);
    }
  }

  /**
   * Every sale of an item that has a feedback row is counted in exactly
   * one row, and no other sale is counted: the rows' sales counts add up
   * to the number of such sales, so never to more than `totalSales`.
   */
  lemma RowSalesCountsPartitionSales(keys: seq<string>, view: Store<FeedbackEntry>, sales: seq<SalesRecord>, favorites: seq<InventoryItem>)
    ensures var feedback := ScanFeedback(keys, view);
            SumOf(ItemPerformance(feedback, sales, favorites), SalesCount)
              == |Filter(sales, (record: SalesRecord) => record.id in Keys(feedback))|
    ensures SumOf(ItemPerformance(ScanFeedback(keys, view), sales, favorites), SalesCount) <= |sales|
  {
    var feedback := ScanFeedback(keys, view);
    ScanFeedbackUnique(keys, view);
    RowSalesSum(feedback, sales, favorites);
    SalesCountSumDistinct(Keys(feedback), sales);
  }
}
