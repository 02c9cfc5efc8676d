/**
 * The per-item analytics card. On mount it walks every key of
 * `localStorage` once: a `reviews_<productId>...` key sets that product's
 * review list, a `..._orders` key adds its orders, a `..._cart` key adds
 * its cart lines, and every other key is skipped. The card then shows,
 * for one item id, its review count, its order count, the revenue of
 * those orders and the number of cart lines holding it.
 *
 * Orders are read at the shape the profile page reads them, cart lines at
 * the shape the cart writes them.
 */
module ItemStats {
  import opened Prelude
  import opened Strings
  import opened JsObject
  import opened LocalStorage
  import opened Catalog
  import Profile

  datatype Review = Review(
    rating: int,
    comment: string,
    date: string,
    userId: string,
    userName: string,
    userEmail: string)

  /** What the scan does with a key, in the order the source tests the conditions. */
  datatype KeyKind = ReviewsKey(productId: string) | OrdersKey | CartKey | OtherKey

  /** `key.split("_")[1]` for a key that starts with `reviews_`: always defined. */
  function ReviewProductId(key: string): string
    requires StartsWith(key, "reviews_")
  {
    assert key == "reviews" + "_" + key[8..];
    SecondPart("reviews", "_", key[8..]);
    Part(key, "_", 1).value
  }

  function Classify(key: string): KeyKind
  {
    if StartsWith(key, "reviews_") then ReviewsKey(ReviewProductId(key))
    else if EndsWith(key, "_orders") then OrdersKey
    else if EndsWith(key, "_cart") then CartKey
    else OtherKey
  }

  /** `allReviews` after the scan has seen `keys`. */
  function ScanReviews(keys: seq<string>, view: Store<Review>): Object<seq<Review>>
  {
    if keys == [] then []
    else
      var before := ScanReviews(keys[..|keys| - 1], view);
      var key := keys[|keys| - 1];
      match Classify(key)
      case ReviewsKey(productId) => Put(before, productId, GetOrEmpty(view, key))
      case _ => before
  }

  /** `allOrders` after the scan has seen `keys`. */
  function ScanOrders(keys: seq<string>, view: Store<Profile.Order>): seq<Profile.Order>
  {
    ConcatMap(keys, (key: string) => OrdersFrom(view, key))
  }

  /** What one key adds to `allOrders`: its orders if it is an orders key, nothing otherwise. */
  function OrdersFrom(view: Store<Profile.Order>, key: string): seq<Profile.Order>
  {
    if Classify(key) == OrdersKey then GetOrEmpty(view, key) else []
  }

  /** `allCartItems` after the scan has seen `keys`. */
  function ScanCart(keys: seq<string>, view: Store<Product>): seq<Product>
  {
    ConcatMap(keys, (key: string) => CartLinesFrom(view, key))
  }

  /** What one key adds to `allCartItems`: its lines if it is a cart key, nothing otherwise. */
  function CartLinesFrom(view: Store<Product>, key: string): seq<Product>
  {
    if Classify(key) == CartKey then GetOrEmpty(view, key) else []
  }

  /** The loading effect: one pass over the keys in storage order. */
  method LoadItemData(
    keys: seq<string>,
    reviewsView: Store<Review>,
    ordersView: Store<Profile.Order>,
    cartView: Store<Product>)
    returns (allReviews: Object<seq<Review>>, allOrders: seq<Profile.Order>, allCartItems: seq<Product>)
    ensures allReviews == ScanReviews(keys, reviewsView)
    ensures allOrders == ScanOrders(keys, ordersView)
    ensures allCartItems == ScanCart(keys, cartView)
  {
    allReviews, allOrders, allCartItems := [], [], [];
    var i := 0;
    while i < |keys|
      invariant 0 <= i <= |keys|
      invariant allReviews == ScanReviews(keys[..i], reviewsView)
      invariant allOrders == ScanOrders(keys[..i], ordersView)
      invariant allCartItems == ScanCart(keys[..i], cartView)
    {
      var key := keys[i];
      assert keys[..i + 1][..i] == keys[..i];
      if StartsWith(key, "reviews_") {
        var productId := ReviewProductId(key);
        allReviews := Put(allReviews, productId, GetOrEmpty(reviewsView, key));
      } else if EndsWith(key, "_orders") {
        allOrders := allOrders + GetOrEmpty(ordersView, key);
      } else if EndsWith(key, "_cart") {
        allCartItems := allCartItems + GetOrEmpty(cartView, key);
      }
      i := i + 1;
    }
    assert keys[..i] == keys;
  }

  /** `reviews[itemId] || []`. */
  function ItemReviews(reviews: Object<seq<Review>>, itemId: string): (r: seq<Review>)
    ensures itemId !in Keys(reviews) ==> r == []
    ensures forall i :: 0 <= i < |reviews| && UniqueKeys(reviews) && reviews[i].0 == itemId ==> r == reviews[i].1
  {
    GetDefinedIffKey(reviews, itemId);
    GetOfUniqueKeys(reviews, itemId);
    match Get(reviews, itemId)
    case None => []
    case Some(list) => list
  }

  /** `totalReviews`. */
  function TotalReviews(reviews: Object<seq<Review>>, itemId: string): (r: nat)
    ensures r > 0 ==> itemId in Keys(reviews)
  {
    |ItemReviews(reviews, itemId)|
  }

  /** `orders.filter((order) => order._id === itemId)`. */
  function ItemOrders(orders: seq<Profile.Order>, itemId: string): (r: seq<Profile.Order>)
    ensures forall i :: 0 <= i < |r| ==> r[i].id == itemId && r[i] in orders
    ensures forall i :: 0 <= i < |orders| && orders[i].id == itemId ==> orders[i] in r
  {
    Filter(orders, (order: Profile.Order) => order.id == itemId)
  }

  /** `totalOrders`. */
  function TotalOrders(orders: seq<Profile.Order>, itemId: string): (r: nat)
    ensures r <= |orders|
    ensures r == 0 <==> forall i :: 0 <= i < |orders| ==> orders[i].id != itemId
  {
    var matching := ItemOrders(orders, itemId);
    assert matching != [] ==> matching[0] in orders;
    |matching|
  }

  /** `totalRevenue`: price times quantity over the item's orders. */
  function TotalRevenue(orders: seq<Profile.Order>, itemId: string): (r: int)
    ensures TotalOrders(orders, itemId) == 0 ==> r == 0
  {
    SumOf(ItemOrders(orders, itemId), Profile.OrderAmount)
  }

  /** `cartItems.filter((item) => item._id === itemId)`. */
  function ItemCartAdditions(cartItems: seq<Product>, itemId: string): (r: seq<Product>)
    ensures forall i :: 0 <= i < |r| ==> r[i].id == itemId && r[i] in cartItems
    ensures forall i :: 0 <= i < |cartItems| && cartItems[i].id == itemId ==> cartItems[i] in r
  {
    Filter(cartItems, (item: Product) => item.id == itemId)
  }

  /** `totalCartAdditions`: the number of cart lines, not the quantity in them. */
  function TotalCartAdditions(cartItems: seq<Product>, itemId: string): (r: nat)
    ensures r <= |cartItems|
    ensures r == 0 <==> forall i :: 0 <= i < |cartItems| ==> cartItems[i].id != itemId
  {
    var matching := ItemCartAdditions(cartItems, itemId);
    assert matching != [] ==> matching[0] in cartItems;
    |matching|
  }
}

/** What the per-item card's scan and counts promise, and how its keys meet the keys other components write. */
module ItemStatsProperties {
  import opened Prelude
  import opened Strings
  import opened JsObject
  import opened LocalStorage
  import opened Catalog
  import opened ItemStats
  import Profile
  import Cart
  import Reviews

  /** A key written as `reviews_<id>`, with or without a `_`-suffix, names product `id`; the prefix test wins over the suffix tests. */
  lemma ReviewsKeyRoundTrip(id: string, rest: string)
    requires '_' !in id
    ensures Classify("reviews_" + id) == ReviewsKey(id)
    ensures Classify("reviews_" + id + "_" + rest) == ReviewsKey(id)
  {
    var k1 := "reviews_" + id;
    var k2 := "reviews_" + id + "_" + rest;
    assert k1[..8] == "reviews_" && k1[8..] == id;
    assert k2[..8] == "reviews_" && k2[8..] == id + "_" + rest;
    assert k1 == "reviews" + "_" + id;
    assert k2 == "reviews" + "_" + (id + "_" + rest);
    SecondPart("reviews", "_", id);
    SecondPart("reviews", "_", id + "_" + rest);
    SplitWithout(id, "_");
    SplitAfter(id, "_", rest);
  }

  /**
   * The scan's tests in order: a `reviews_` key names the text after the
   * prefix up to the next `_`, whatever it ends with; otherwise `_orders`
   * wins over `_cart`, and any other key is skipped.
   */
  lemma ClassifiedKey(key: string)
    ensures StartsWith(key, "reviews_") ==> Classify(key) == ReviewsKey(Split(key[8..], "_")[0])
    ensures !StartsWith(key, "reviews_") && EndsWith(key, "_orders") ==> Classify(key) == OrdersKey
    ensures !StartsWith(key, "reviews_") && !EndsWith(key, "_orders") && EndsWith(key, "_cart") ==> Classify(key) == CartKey
    ensures !StartsWith(key, "reviews_") && !EndsWith(key, "_orders") && !EndsWith(key, "_cart") ==> Classify(key) == OtherKey
  {
    if StartsWith(key, "reviews_") {
      assert key == "reviews" + "_" + key[8..];
      SecondPart("reviews", "_", key[8..]);
    }
  }

  /** A key `<uid>_<tail>` with no `_` in `uid` starts with `reviews_` only when `uid` is `reviews`. */
  lemma NotReviewsPrefixed(uid: string, tail: string)
    requires '_' !in uid && uid != "reviews"
    ensures !StartsWith(uid + "_" + tail, "reviews_")
  {
    var key := uid + "_" + tail;
    if |uid| >= 8 {
      assert uid[7] in uid;
      assert key[..8][7] == uid[7];
    } else if |uid| == 7 {
      assert key[..7] == uid;
    } else if |key| >= 8 {
      assert key[..8][|uid|] == '_';
    }
  }



  /** The `<uid>_orders` key the profile page reads a user's order history from is counted as orders. */
  lemma OrdersKeysAreOrders(uid: string)
    requires '_' !in uid && uid != "reviews"
    ensures Classify(Profile.OrdersKey(uid)) == OrdersKey
  {
    var key := Profile.OrdersKey(uid);
    NotReviewsPrefixed(uid, "orders");
    assert key == uid + "_" + "orders";
    assert key[|key| - 7..] == "_orders";
  }


  /** The cart the cart component writes for a user is counted as cart additions. */
  lemma CartKeysAreCartAdditions(uid: string)
    requires '_' !in uid && uid != "reviews"
    ensures Classify(Cart.CartKey(uid)) == CartKey
  {
    var key := Cart.CartKey(uid);
    NotReviewsPrefixed(uid, "cart");
    assert key == uid + "_" + "cart";
    assert key[|key| - 1] == 't';
    assert key[|key| - 5..] == "_cart";
  }


  /**
   * The reviews the review section writes (`product_reviews_<id>`) never
   * reach this card's review counts: such a key is skipped, for every
   * product id without `_` except `orders` and `cart`, which turn it into
   * an orders or cart key.
   */
  lemma ReviewSectionKeysAreSkipped(productId: string)
    requires '_' !in productId && productId != "orders" && productId != "cart"
    ensures Classify(Reviews.ReviewsKey(productId)) == OtherKey
  {
    var key := Reviews.ReviewsKey(productId);
    assert key[0] == 'p';
    assert !StartsWith(key, "reviews_");
    ReviewSectionKeyNotOrders(productId);
    ReviewSectionKeyNotCart(productId);
  }

  /** `product_reviews_<id>` ends in `_orders` only for the id `orders`. */
  lemma ReviewSectionKeyNotOrders(productId: string)
    requires '_' !in productId && productId != "orders"
    ensures !EndsWith(Reviews.ReviewsKey(productId), "_orders")
  {
    var key := Reviews.ReviewsKey(productId);
    var n := |key|;
    var m := |productId|;
    assert key[n - m - 1] == '_';
    if m >= 7 {
      assert productId[m - 7] in productId;
      assert key[n - 7..][0] == productId[m - 7];
    } else if m == 6 {
      assert key[n - 7..][1..] == productId;
    } else {
      assert key[n - 7..][6 - m] == '_';
      assert "_orders"[6 - m] != '_';
    }
  }

  /** `product_reviews_<id>` ends in `_cart` only for the id `cart`. */
  lemma ReviewSectionKeyNotCart(productId: string)
    requires '_' !in productId && productId != "cart"
    ensures !EndsWith(Reviews.ReviewsKey(productId), "_cart")
  {
    var key := Reviews.ReviewsKey(productId);
    var n := |key|;
    var m := |productId|;
    assert key[n - m - 1] == '_';
    if m >= 5 {
      assert productId[m - 5] in productId;
      assert key[n - 5..][0] == productId[m - 5];
    } else if m == 4 {
      assert key[n - 5..][1..] == productId;
    } else {
      assert key[n - 5..][4 - m] == '_';
      assert "_cart"[4 - m] != '_';
    }
  }

  /** The orders scan is a concatenation in scan order. */
  lemma ScanOrdersConcat(a: seq<string>, b: seq<string>, view: Store<Profile.Order>)
    ensures ScanOrders(a + b, view) == ScanOrders(a, view) + ScanOrders(b, view)
  {
    ConcatMapConcat(a, b, (key: string) => OrdersFrom(view, key));
  }


  /** The cart scan is a concatenation in scan order. */
  lemma ScanCartConcat(a: seq<string>, b: seq<string>, view: Store<Product>)
    ensures ScanCart(a + b, view) == ScanCart(a, view) + ScanCart(b, view)
  {
    ConcatMapConcat(a, b, (key: string) => CartLinesFrom(view, key));
  }


  /** The index of the last key in `keys` that names `productId`'s reviews. */
  function LastReviewsIndex(keys: seq<string>, productId: string): (r: Option<nat>)
    ensures r.Some? ==> r.value < |keys| && Classify(keys[r.value]) == ReviewsKey(productId)
    ensures r.Some? ==> forall j :: r.value < j < |keys| ==> Classify(keys[j]) != ReviewsKey(productId)
    ensures r.None? ==> forall j :: 0 <= j < |keys| ==> Classify(keys[j]) != ReviewsKey(productId)
  {
    if keys == [] then None
    else
      var n := |keys| - 1;
      var kind := Classify(keys[n]);
      if kind == ReviewsKey(productId) then Some(n)
      else
        var front := keys[..n];
        var r := LastReviewsIndex(front, productId);
        assert forall j :: 0 <= j < n ==> Classify(front[j]) == Classify(keys[j]);
        r
  }


  /**
   * Two keys naming the same product overwrite each other: a product's
   * review list is the blob of the last key naming it, and products no key
   * names have none.
   */
  lemma {:induction false} LaterReviewsKeyWins(keys: seq<string>, view: Store<Review>, itemId: string)
    ensures Get(ScanReviews(keys, view), itemId) ==
              match LastReviewsIndex(keys, itemId)
              case None => None
              case Some(i) => Some(GetOrEmpty(view, keys[i]))
  {
    if keys != [] {
      var n := |keys| - 1;
      var front := keys[..n];
      var key := keys[n];
      var before := ScanReviews(front, view);
      LaterReviewsKeyWins(front, view, itemId);
      match Classify(key)
      case ReviewsKey(productId) =>
        assert ScanReviews(keys, view) == Put(before, productId, GetOrEmpty(view, key));
        if productId != itemId {
          assert LastReviewsIndex(keys, itemId) == LastReviewsIndex(front, itemId);
          match LastReviewsIndex(front, itemId)
          case None =>
          case Some(i) => assert keys[i] == front[i];
        }
      case _ =>
        assert ScanReviews(keys, view) == before;
        assert LastReviewsIndex(keys, itemId) == LastReviewsIndex(front, itemId);
        match LastReviewsIndex(front, itemId)
        case None =>
        case Some(i) => assert keys[i] == front[i];
    }
  }

  /**
   * `totalReviews` is the length of the blob under the last key naming
   * the item, and 0 when no key names it.
   */
  lemma TotalReviewsFromLastKey(keys: seq<string>, view: Store<Review>, itemId: string)
    ensures TotalReviews(ScanReviews(keys, view), itemId) ==
              match LastReviewsIndex(keys, itemId)
              case None => 0
              case Some(i) => |GetOrEmpty(view, keys[i])|
  {
    LaterReviewsKeyWins(keys, view, itemId);
  }

  /** Revenue adds up over orders laid end to end, so over the scanned keys in any split. */
  lemma RevenueConcat(a: seq<Profile.Order>, b: seq<Profile.Order>, itemId: string)
    ensures TotalRevenue(a + b, itemId) == TotalRevenue(a, itemId) + TotalRevenue(b, itemId)
    ensures TotalOrders(a + b, itemId) == TotalOrders(a, itemId) + TotalOrders(b, itemId)
  {
    FilterConcat(a, b, (order: Profile.Order) => order.id == itemId);
    SumOfConcat(ItemOrders(a, itemId), ItemOrders(b, itemId), Profile.OrderAmount);
  }

  /** One order counts once, with its price times its quantity, exactly when it is for the item. */
  lemma OneOrder(order: Profile.Order, itemId: string)
    ensures TotalOrders([order], itemId) == if order.id == itemId then 1 else 0
    ensures TotalRevenue([order], itemId) == if order.id == itemId then order.price * order.quantity else 0
  {
    var keep := (o: Profile.Order) => o.id == itemId;
    assert [order][1..] == [];
    assert Filter([order], keep) == (if keep(order) then [order] else []) + Filter([], keep);
    SumOfSingleton(order, Profile.OrderAmount);
  }

  /**
   * With non-negative prices and quantities an item's revenue lies between
   * 0 and what the buyers spent in all, as the profile page totals it.
   */
  lemma RevenueWithinSpending(orders: seq<Profile.Order>, itemId: string)
    requires forall i :: 0 <= i < |orders| ==> orders[i].price >= 0 && orders[i].quantity >= 0
    ensures 0 <= TotalRevenue(orders, itemId) <= Profile.TotalSpent(orders)
  {
    assert forall i :: 0 <= i < |orders| ==> Profile.OrderAmount(orders[i]) >= 0;
    SumOfFilterBounds(orders, Profile.OrderAmount, (order: Profile.Order) => order.id == itemId);
  }


  /**
   * `totalCartAdditions` counts cart lines, not the quantities in them:
   * setting a quantity in the cart leaves it as it was.
   */
  lemma {:induction false} CartAdditionsIgnoreQuantity(cart: seq<Product>, id: string, q: int, itemId: string)
    ensures TotalCartAdditions(Cart.WithQuantity(cart, id, q), itemId) == TotalCartAdditions(cart, itemId)
  {
    if cart != [] {
      CartAdditionsIgnoreQuantity(cart[1..], id, q, itemId);
      assert Cart.WithQuantity(cart, id, q)[1..] == Cart.WithQuantity(cart[1..], id, q);
    }
  }

  /** After the cart component removes an item, that user's cart adds nothing to the item's count. */
  lemma CartAdditionsAfterRemove(cart: seq<Product>, itemId: string)
    ensures TotalCartAdditions(Cart.WithoutItem(cart, itemId), itemId) == 0
  {
    FilterKeepsNone(Cart.WithoutItem(cart, itemId), (item: Product) => item.id == itemId);
  }


}
