# Storefront browser-state logic, in Dafny

This project models the logic the furniture storefront runs in the
browser: the state it keeps in `localStorage`, the two analytics cards
that read it back, and the page logic around it.

- **Cart.** The cart component keeps the signed-in user's cart lines under
  `<uid>_cart`. It changes a line's quantity, removes an item and totals
  the cart.
- **Reviews.** The review section keeps a product's reviews under
  `product_reviews_<productId>`. Signed-in users submit reviews, and only a
  review's author may delete it.
- **Profile.** The profile page reads a user's orders from `<uid>_orders`
  and totals them.
- **Performance dashboard.** It scans every key once:
  - `feedback_<id>…` keys are per-item feedback;
  - `…_sales` keys are sales;
  - `…_favorites` keys are favorites.

  It then computes totals, a mean score and one row per item.
- **Item-performance card.** It scans every key once:
  - `reviews_<id>…` keys are reviews;
  - `…_orders` keys are orders;
  - `…_cart` keys are cart lines.

  It then counts, for one item, its reviews, orders, revenue and cart
  lines.
- **Product listing.** The page builds the catalogue query string from the
  selected categories, the price range, the search text and the page. It
  also toggles the filters and de-duplicates the category list.

The modules follow those components.

- **`Prelude`**: `Option`, `filter`, `reduce`-sums and `flat`, each with
  its laws.
- **`Strings`**: `startsWith`, `endsWith`, `indexOf`, `split`, `join`, and
  the decimal text of a number.
- **`JsObject`**: a plain object as an insertion-ordered list of entries.
  `Put` replaces a key's value in place or appends a new key.
- **`LocalStorage`**: the browser store as a map from key to a decoded
  JSON array.
- **`Catalog`**: the product record.
- **`Cart`**: the `ShoppingCart` class.
- **`Reviews`**: the `ReviewSection` class.
- **`Profile`**: the order history.
- **`Dashboard` / `DashboardProperties`**: the performance dashboard.
- **`ItemStats` / `ItemStatsProperties`**: the item-performance card.
- **`ProductListing` / `ProductListingProperties`**: the listing page.

Stateful components are classes. Their fields are the component state and
the store, and every method states the whole new state.

The key scans are loops. Each is proved equal to a function that
describes the scan after any prefix of the keys. Everything else is a
function, and the properties are lemmas about those functions.

Two results come from connecting the components:

- **The item card counts the right keys, for most user ids.** For a uid
  with no `_` that is not `reviews`, the `<uid>_cart` key the cart writes
  and the `<uid>_orders` key the profile page reads are the ones the item
  card counts as cart lines and orders
  (`ItemStatsProperties.CartKeysAreCartAdditions`,
  `ItemStatsProperties.OrdersKeysAreOrders`). The uid `reviews` is one
  exception: `reviews_cart` is read as the reviews of product `cart`. A
  uid that begins with `reviews_` is another.
- **Reviews do not reach the item card, for most product ids.** The review
  section writes under `product_reviews_<id>`, and the item card looks for
  `reviews_<id>`. For a product id with no `_` other than `orders` and
  `cart`, the card skips those keys
  (`ItemStatsProperties.ReviewSectionKeysAreSkipped`). The exceptions are
  `product_reviews_orders`, which is counted as orders, and
  `product_reviews_cart`, which is counted as cart lines. A product id
  that contains `_` can turn the key into an orders or cart key in the
  same way.

## Model

| member | source | states |
|---|---|---|
| Cart.LineTotal | src/components/ShoppingCart.tsx:78 | a line is its price times its quantity, or its price alone when the quantity is 0 |
| Cart.Total | src/components/ShoppingCart.tsx:76-81 | an empty cart totals 0, a one-line cart its line's total |
| Cart.Saved | src/components/ShoppingCart.tsx:63-65 | without a user the store is unchanged; with one `<uid>_cart` holds the cart and every other key is unchanged |
| Cart.WithQuantity | src/components/ShoppingCart.tsx:59-61 | same length; every line for the id has the new quantity in its place, every other line is unchanged |
| Cart.WithoutItem | src/components/ShoppingCart.tsx:69 | every kept line has another id and comes from the cart; every line with another id is kept |
| Cart.OnlyItem | src/components/ShoppingCart.tsx:69 | the lines a removal drops all carry the removed id and come from the cart |
| Cart.RemoveAbsent | src/components/ShoppingCart.tsx:69 | removing an id no line has leaves the cart unchanged |
| Cart.RemoveIdempotent | src/components/ShoppingCart.tsx:69 | removing the same id twice is removing it once |
| Cart.RemoveConcat | src/components/ShoppingCart.tsx:69 | removal works line by line over a cart split in two |
| Cart.RemoveTotal | src/components/ShoppingCart.tsx:68-81 | after `removeItem(id)` the total is the old total minus the removed lines' totals |
| Cart.UpdateTotal | src/components/ShoppingCart.tsx:57-81 | after `updateQuantity(id, q)` the total is the other lines' total plus `q` times each price for `id` |
| Cart.UpdateTwice | src/components/ShoppingCart.tsx:57-66 | setting a quantity twice keeps only the second |
| Cart.TotalConcat | src/components/ShoppingCart.tsx:76-81 | the total of two carts laid end to end is the sum of their totals, so with the empty and one-line totals every cart's total is fixed |
| Cart.TotalNonNegative | src/components/ShoppingCart.tsx:76-81 | non-negative prices and quantities give a non-negative total |
| Cart.ShoppingCart.constructor | src/components/ShoppingCart.tsx:36-38 | the cart starts empty |
| Cart.ShoppingCart.RestoreSavedCart | src/components/ShoppingCart.tsx:48-55 | with a user and a stored `<uid>_cart`, the cart becomes exactly that blob; otherwise nothing changes |
| Cart.ShoppingCart.UpdateQuantity | src/components/ShoppingCart.tsx:57-66 | a quantity below 1 changes nothing; otherwise the lines are updated and `<uid>_cart` alone is rewritten, only with a user |
| Cart.ShoppingCart.RemoveItem | src/components/ShoppingCart.tsx:68-74 | the lines for the id are removed and `<uid>_cart` alone is rewritten, only with a user |
| Reviews.NewReview | src/components/ReviewSection.tsx:49-56 | stars, text, time and author id come from the form and the user; the name is the user's display name when it is present and non-empty, else `Anonymous`; the email likewise, else `No email`; neither is ever empty |
| Reviews.OrElse | src/components/ReviewSection.tsx:54-55 | a missing or empty name or email gives the fallback, a non-empty one is kept |
| Reviews.RemoveAt | src/components/ReviewSection.tsx:73 | out of range nothing changes; in range the length drops by one, earlier reviews keep their place, later ones shift down by one |
| Reviews.RemoveAppended | src/components/ReviewSection.tsx:58-73 | deleting the review just appended restores the list from before |
| Reviews.RemoveAtSplits | src/components/ReviewSection.tsx:73 | for an index in range, the list after a delete is the reviews before the index followed by the reviews after it |
| Reviews.RemoveAtKeepsOthers | src/components/ReviewSection.tsx:73 | a delete drops exactly the review at the index, as a multiset |
| Reviews.ReviewSection.constructor | src/components/ReviewSection.tsx:22-34 | an empty form, and the stored `product_reviews_<productId>` list or none |
| Reviews.ReviewSection.HandleStarClick | src/components/ReviewSection.tsx:37-39 | the selected stars become the clicked value, with no range check |
| Reviews.ReviewSection.SetFeedback | src/components/ReviewSection.tsx:108 | the feedback text becomes the typed text |
| Reviews.ReviewSection.SubmitReview | src/components/ReviewSection.tsx:42-63 | refused without a user and nothing changes; otherwise exactly one review built from the form and the user is appended, the key is rewritten and the form is reset |
| Reviews.ReviewSection.DeleteReview | src/components/ReviewSection.tsx:66-76 | succeeds exactly for the author; then the review at the index is removed and the key is rewritten; otherwise nothing changes |
| Profile.RetrieveOrders | src/app/profile/page.tsx:22-34 | without a user nothing loads and the page keeps loading; with one the orders are `<uid>_orders` or empty |
| Profile.TotalSpent | src/app/profile/page.tsx:54 | no orders spend 0, one order spends its price times its quantity |
| Profile.TotalOrders | src/app/profile/page.tsx:53 | the order count is 0 exactly for no orders |
| Profile.TotalSpentConcat | src/app/profile/page.tsx:54 | spending over two order lists adds up |
| Profile.TotalSpentNonNegative | src/app/profile/page.tsx:54 | non-negative prices and quantities give non-negative spending |
| Profile.TotalSpentAppend | src/app/profile/page.tsx:53-54 | one more order adds one to the count and its amount to the spending |
| Dashboard.LoadPerformanceData | analytics/performance-dashboard.tsx:35-56 | the loop leaves the feedback object, the sales and the favorites the scan functions describe |
| Dashboard.MeanScore | analytics/performance-dashboard.tsx:59-61 | 0 for no entries, otherwise mean times count is the score sum |
| Dashboard.ItemPerformance | analytics/performance-dashboard.tsx:66-76 | one row per feedback entry, in entry order, with that item's counts and mean |
| DashboardProperties.FeedbackKeyRoundTrip | analytics/performance-dashboard.tsx:43-45 | `feedback_<id>` with or without a `_` suffix is feedback for `id`; the prefix test wins over the suffix tests |
| DashboardProperties.LaterFeedbackKeyWins | analytics/performance-dashboard.tsx:41-45 | an item's feedback is the blob of the last key naming it, none if no key does |
| DashboardProperties.ScanFeedbackUnique | analytics/performance-dashboard.tsx:41-45 | the feedback object never has two entries for one item |
| DashboardProperties.FeedbackItemsAreNamedItems | analytics/performance-dashboard.tsx:41-45 | an item has an entry exactly when some key names it |
| DashboardProperties.OneRowPerFeedbackItem | analytics/performance-dashboard.tsx:66-76 | exactly one row per item some feedback key names |
| DashboardProperties.ScanSalesConcat | analytics/performance-dashboard.tsx:46-47 | sales are the matching blobs concatenated in scan order |
| DashboardProperties.ScanFavoritesConcat | analytics/performance-dashboard.tsx:48-49 | favorites are the matching blobs concatenated in scan order |
| DashboardProperties.SalesFiguresOverScan | analytics/performance-dashboard.tsx:62-63 | `totalSales` and `totalRevenue` add up over runs of keys |
| DashboardProperties.FavoritesCountOverScan | analytics/performance-dashboard.tsx:64 | `totalFavorites` adds up over runs of keys |
| Dashboard.TotalFeedback | analytics/performance-dashboard.tsx:58 | `totalFeedback` is the sum of the lengths of the per-item feedback arrays |
| Dashboard.AvgScore | analytics/performance-dashboard.tsx:59-61 | `avgScore` is 0 without feedback; otherwise times `totalFeedback` it is the sum of every score |
| Dashboard.TotalSales | analytics/performance-dashboard.tsx:62 | `totalSales` is 0 exactly for no sales records |
| Dashboard.TotalRevenue | analytics/performance-dashboard.tsx:63 | no sales give 0, one record gives its cost times its stock |
| Dashboard.TotalFavorites | analytics/performance-dashboard.tsx:64 | `totalFavorites` is 0 exactly for no favorites |
| DashboardProperties.ClassifiedKey | analytics/performance-dashboard.tsx:43-50 | a `feedback_` key is feedback for the text after the prefix up to the next `_`; otherwise a `_sales` key is sales, a `_favorites` key favorites, and any other key is skipped |
| DashboardProperties.ScoreTotalIsItemSum | analytics/performance-dashboard.tsx:58-61 | `avgScore` times `totalFeedback` is the sum over items of each item's score sum |
| DashboardProperties.TotalRevenueConcat | analytics/performance-dashboard.tsx:63 | `totalRevenue` of two record lists laid end to end is the sum of their revenues, within a blob as across blobs |
| DashboardProperties.MeanScoreBounds | analytics/performance-dashboard.tsx:59-61 | scores within bounds give a mean within the same bounds |
| DashboardProperties.TotalFeedbackIsRowSum | analytics/performance-dashboard.tsx:58-76 | the rows' feedback counts add up to `totalFeedback` |
| DashboardProperties.RowSalesCountsPartitionSales | analytics/performance-dashboard.tsx:62-76 | the rows' sales counts add up to the sales of items with a row, so to at most `totalSales` |
| ItemStats.LoadItemData | analytics/item-performance.tsx:35-56 | the loop leaves the reviews object, the orders and the cart lines the scan functions describe |
| ItemStats.ItemReviews | analytics/item-performance.tsx:59 | an item with no entry has no reviews; with unique keys, an item's reviews are its entry's array |
| ItemStats.TotalReviews | analytics/item-performance.tsx:60 | a positive review count means the item has an entry |
| ItemStats.ItemOrders | analytics/item-performance.tsx:62 | every kept order is for the item and comes from the list; every order for the item is kept |
| ItemStats.TotalOrders | analytics/item-performance.tsx:63 | at most the number of orders, and 0 exactly when no order is for the item |
| ItemStats.TotalRevenue | analytics/item-performance.tsx:64 | no orders for the item, no revenue |
| ItemStats.ItemCartAdditions | analytics/item-performance.tsx:66 | every kept line is for the item and comes from the cart lines; every line for the item is kept |
| ItemStats.TotalCartAdditions | analytics/item-performance.tsx:67 | at most the number of cart lines, and 0 exactly when no line is for the item |
| ItemStatsProperties.ClassifiedKey | analytics/item-performance.tsx:43-50 | a `reviews_` key is reviews for the text after the prefix up to the next `_`; otherwise an `_orders` key is orders, a `_cart` key cart lines, and any other key is skipped |
| ItemStatsProperties.LaterReviewsKeyWins | analytics/item-performance.tsx:41-45 | an item's reviews are the blob of the last reviews key naming it, none if no key does |
| ItemStatsProperties.ReviewsKeyRoundTrip | analytics/item-performance.tsx:43-45 | `reviews_<id>` with or without a `_` suffix is reviews for `id`; the prefix test wins |
| ItemStatsProperties.OrdersKeysAreOrders | analytics/item-performance.tsx:46-47 | the profile page's `<uid>_orders` key is counted as orders |
| ItemStatsProperties.CartKeysAreCartAdditions | analytics/item-performance.tsx:48-49 | the cart's `<uid>_cart` key is counted as cart lines |
| ItemStatsProperties.ReviewSectionKeysAreSkipped | analytics/item-performance.tsx:43-50 | the review section's `product_reviews_<id>` key is skipped |
| ItemStatsProperties.ScanOrdersConcat | analytics/item-performance.tsx:46-47 | orders are the matching blobs concatenated in scan order |
| ItemStatsProperties.ScanCartConcat | analytics/item-performance.tsx:48-49 | cart lines are the matching blobs concatenated in scan order |
| ItemStatsProperties.TotalReviewsFromLastKey | analytics/item-performance.tsx:41-60 | `totalReviews` is the length of the last blob naming the item, 0 if none does |
| ItemStatsProperties.RevenueConcat | analytics/item-performance.tsx:62-64 | `totalOrders` and `totalRevenue` add up over order lists laid end to end |
| ItemStatsProperties.OneOrder | analytics/item-performance.tsx:62-64 | one order counts once and brings its price times its quantity exactly when it is for the item, and nothing otherwise |
| ItemStatsProperties.RevenueWithinSpending | analytics/item-performance.tsx:62-64 | an item's revenue lies between 0 and what the buyers spent in all |
| ItemStatsProperties.CartAdditionsIgnoreQuantity | analytics/item-performance.tsx:66-67 | setting a quantity in a cart does not change `totalCartAdditions` |
| ItemStatsProperties.CartAdditionsAfterRemove | analytics/item-performance.tsx:66-67 | a cart the item was removed from adds no cart additions for it |
| ProductListing.NumberText | src/app/product-listing/page.tsx:75-76 | canonical digits read back as written; any digit string gives canonical text of the same value; anything else gives `NaN` |
| ProductListing.PriceCondition | src/app/product-listing/page.tsx:70-78 | no condition exactly for no range; otherwise a lower bound on the price |
| ProductListing.Quoted | src/app/product-listing/page.tsx:82 | each category in double quotes, in order |
| ProductListing.CategoryCondition | src/app/product-listing/page.tsx:80-83 | no condition exactly for no category; otherwise a `category->name in [...]` test |
| ProductListing.SearchCondition | src/app/product-listing/page.tsx:85 | no condition exactly for a missing or empty search text |
| ProductListing.Conditions | src/app/product-listing/page.tsx:87-94 | the conditions always start with the product type |
| ProductListing.SliceText | src/app/product-listing/page.tsx:106 | from page 1 on, the slice is `[(page - 1) * itemsPerPage...page * itemsPerPage]` in decimal |
| ProductListing.Query | src/app/product-listing/page.tsx:96-106 | the query starts with the product-type filter and ends with the page's slice |
| ProductListing.ToggleCategory | src/app/product-listing/page.tsx:188-194 | the toggled category is selected afterwards exactly when it was not before; other categories keep their selection |
| ProductListing.TogglePriceRange | src/app/product-listing/page.tsx:196-198 | a range is selected afterwards exactly when it was not selected before |
| ProductListing.Distinct | src/app/product-listing/page.tsx:139-141 | each name once, the same names, ordered by first occurrence |
| ProductListing.Find | src/app/product-listing/page.tsx:142-143 | found exactly when some category has the name, and then the first one |
| ProductListing.UniqueCategories | src/app/product-listing/page.tsx:139-143 | the shown names are the catalogue's names de-duplicated in first-occurrence order |
| ProductListingProperties.ConditionsClosedForm | src/app/product-listing/page.tsx:87-94 | for every filter and search text, the conditions are the product type followed by ` && c` for each non-empty condition, in the order category, price, search |
| ProductListingProperties.CategoryConditionClosedForm | src/app/product-listing/page.tsx:80-83 | for every non-empty selection, the first quoted name, then `, ` before each later quoted name, inside `category->name in [...]` |
| ProductListingProperties.GlueQuotedAppend | src/app/product-listing/page.tsx:82 | selecting one more category adds `, "c"` at the end of the name list |
| ProductListingProperties.QuotedConcat | src/app/product-listing/page.tsx:82 | quoting works on each run of names in turn |
| ProductListingProperties.PriceConditionOfRange | src/app/product-listing/page.tsx:75-76 | `lo - hi` gives `price >= lo && price <= hi` |
| ProductListingProperties.PriceConditionWithoutSeparator | src/app/product-listing/page.tsx:75-76 | a range without ` - ` leaves the upper bound `undefined` |
| ProductListingProperties.OfferedRangeCondition | src/app/product-listing/page.tsx:202 | the offered `0 - 100` and `101 - 250` give those bounds |
| ProductListingProperties.LastPriceOption | src/app/product-listing/page.tsx:72-73 | the offered `250+` gives `price >= 250` |
| ProductListingProperties.OneCategoryCondition | src/app/product-listing/page.tsx:80-83 | one category is tested as its quoted name |
| ProductListingProperties.TwoCategoryCondition | src/app/product-listing/page.tsx:80-83 | two categories are quoted in order and joined by `, ` |
| ProductListingProperties.UnfilteredConditions | src/app/product-listing/page.tsx:87-94 | no filters and no search give the product type alone |
| ProductListingProperties.PriceOnlyConditions | src/app/product-listing/page.tsx:87-94 | a range alone gives the product type and the range joined by ` && ` |
| ProductListingProperties.PageWidth | src/app/product-listing/page.tsx:106 | a page's slice is `itemsPerPage` wide |
| ProductListingProperties.PagesMeet | src/app/product-listing/page.tsx:106 | a page ends where the next begins |
| ProductListingProperties.PageStartNonNegative | src/app/product-listing/page.tsx:106 | from page 1 on, with 12 per page, the slice starts at a non-negative index |
| ProductListingProperties.ToggleCategoryTwice | src/app/product-listing/page.tsx:188-194 | toggling an unselected category twice restores the selection |
| ProductListingProperties.ToggleCategoryOff | src/app/product-listing/page.tsx:188-194 | toggling a selected category removes every copy; toggling it back puts one at the end |
| ProductListingProperties.TogglePriceRangeTwice | src/app/product-listing/page.tsx:196-198 | toggling a range twice selects it only if it was selected before |
| ProductListingProperties.UniqueCategoriesNames | src/app/product-listing/page.tsx:139-143 | the shown categories have distinct names and cover every catalogue name |
| ProductListingProperties.UniqueCategoriesFirstOccurrence | src/app/product-listing/page.tsx:139-143 | each shown category is the first with its name, in first-occurrence order |
| JsObject.GetOfUniqueKey | analytics/item-performance.tsx:59 | with unique keys, looking up a key gives the value of the entry that has it |
| JsObject.Put | analytics/performance-dashboard.tsx:45 | the key maps to the new value, other keys are unchanged, an existing key keeps its place and a new one goes last |
| LocalStorage.GetOrEmpty | analytics/item-performance.tsx:45 | the stored array, or empty for a missing key |
| LocalStorage.SetItem | src/components/ShoppingCart.tsx:64 | the key holds the new array and no other key changes |
| Strings.NatText | src/app/product-listing/page.tsx:76 | a number's text is canonical decimal and reads back as the number |
| Strings.CanonicalRoundTrip | src/app/product-listing/page.tsx:75-76 | canonical decimal text is the text of its own value |
| Strings.SecondPart | analytics/performance-dashboard.tsx:44 | `(p + "_" + rest).split("_")[1]` is `rest` up to its first `_` |

## Left out

- React rendering, hooks scheduling, routing and toasts are left out. The
  methods stand for the state updates the handlers make.
- Firebase authentication is not modelled. The signed-in user is a field
  or a parameter.
- The content-store client is not modelled, and neither is the fetch of
  products or categories. Only the query string and the de-duplication of
  the fetched categories are modelled.
- Chart.js configuration and the charts are presentation and are not
  modelled.
- `JSON.parse` / `JSON.stringify` are treated as identity on arrays.
  - A corrupt blob makes the source throw, and that is not modelled.
  - The analytics scans read each key family through a typed view of
    the same store, since the store holds JSON of different shapes.
- The order of `localStorage` keys is an input to the scans. Browsers
  fix it, and it is not part of the source.
- Timestamps (`new Date().toISOString()`) are a parameter of
  `SubmitReview`.
- `JsObject.Get` looks up own properties only. Inherited ones such as
  `constructor`, which `reviews[itemId] || []` would also find, are not
  modelled.
- `Object.entries` lists integer-like keys first in JavaScript. `JsObject`
  keeps plain insertion order for every key.
- Prices, quantities, costs, stock and scores are unbounded integers, and
  means are reals. JavaScript numbers are floating point.
- `ProductListing.NumberText`: JavaScript's `Number` also accepts
  surrounding whitespace, a sign, a decimal point, exponents, radix
  prefixes and `Infinity`. The model reads only digit strings and treats
  every other text as `NaN`.
- The page number and the page size are rendered with `Strings.IntText`.
  Fractional values are not modelled.
- `decodeURIComponent` on the search text is not modelled. The search text
  is a parameter, and quotes in it or in category names are inserted
  unescaped, as in the source.
- `Reviews.ReviewSection.DeleteReview`: requires an index in range. The
  source reads `userReviews[index].userId` first, which throws out of
  range.
- The hard-coded pager (`Math.ceil(3)`, the `page === 2` guard) and the
  authentication modal are constants or UI, and are not modelled.
- Adding to the cart happens outside these components, so no add or
  increment operation is modelled. There is no rating range check,
  because the source has none.
- `LocalStorage.SetWhatWasRead` and `LocalStorage.LaterWriteWins` are
  store laws that Dafny proves unaided. They are there for readers, not as
  modelled behaviour.
- A quantity below 1 in `updateQuantity` is ignored silently, with no
  error, as in the source. Reviews stay in submission order, since the
  source neither sorts nor averages them.
