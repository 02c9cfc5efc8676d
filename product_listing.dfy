/**
 * The product-listing page: the catalogue query it sends for the filters
 * on screen, the updaters behind the category and price toggles, and the
 * de-duplication of the category list the filter panel shows.
 *
 * The query is a string in the content store's query language; only the
 * string is modelled, not what the store answers.
 */
module ProductListing {
  import opened Prelude
  import opened Strings
  import opened Catalog

  /** The filters `getFilteredProducts` receives. */
  datatype FilterSettings = FilterSettings(
    categories: seq<string>,
    priceRange: string,
    page: int,
    itemsPerPage: int)

  /** The page size the component fixes in state. */
  const ItemsPerPage: int := 12

  /** The price ranges the filter panel offers. */
  const PriceOptions: seq<string> := ["0 - 100", "101 - 250", "250+"]

  /** The condition every query starts with. */
  const ProductType: string := "_type == \"product\""

  /** The projection every query asks for: the fields of a product card, the image as its URL and the category dereferenced. */
  const Projection: string :=
    "{\n      _id,\n      name,\n      \"image\": image.asset->url,\n      price,\n      features,\n      dimensions,\n      category->,\n      tags,\n      quantity\n    }"

  /**
   * `${Number(s)}` for a piece of a price range: a digit string (the empty
   * one included) reads as its value, and anything else as `NaN`.
   */
  function NumberText(s: string): (r: string)
    ensures IsCanonical(s) ==> r == s
    ensures !IsDigits(s) ==> r == "NaN"
    ensures IsDigits(s) ==> IsCanonical(r) && DigitsValue(r) == DigitsValue(s)
  {
    if IsDigits(s) then
      var r := NatText(DigitsValue(s));
      if IsCanonical(s) then CanonicalRoundTrip(s); r else r
    else "NaN"
  }

  /**
   * The price condition: none for no range, a lower bound for `250+`, and
   * otherwise both bounds read from the two sides of ` - ` (a missing
   * upper side renders as `undefined`).
   */
  function PriceCondition(priceRange: string): (r: string)
    ensures r == "" <==> priceRange == ""
    ensures priceRange != "" ==> StartsWith(r, "price >= ")
  {
    if priceRange == "" then ""
    else if priceRange == "250+" then "price >= 250"
    else
      var parts := Split(priceRange, " - ");
      var min := NumberText(parts[0]);
      var max := if |parts| > 1 then NumberText(parts[1]) else "undefined";
      var r := "price >= " + min + " && price <= " + max;
      assert r[..9] == "price >= ";
      r
  }

  /** `"<c>"` for each selected category, in order. */
  function Quoted(categories: seq<string>): (r: seq<string>)
    ensures |r| == |categories|
    ensures forall i :: 0 <= i < |r| ==> r[i] == "\"" + categories[i] + "\""
  {
    if categories == [] then []
    else ["\"" + categories[0] + "\""] + Quoted(categories[1..])
  }

  /** The category condition: none for no selected category, otherwise a membership test over the quoted names. */
  function CategoryCondition(categories: seq<string>): (r: string)
    ensures r == "" <==> categories == []
    ensures categories != [] ==> StartsWith(r, "category->name in [") && EndsWith(r, "]")
  {
    if |categories| > 0 then
      var r := "category->name in [" + Join(Quoted(categories), ", ") + "]";
      assert r[..19] == "category->name in [";
      assert r[|r| - 1..] == "]";
      r
    else ""
  }

  /** The search condition: a prefix match on the name, only for a non-empty search text. */
  function SearchCondition(searchQuery: Option<string>): (r: string)
    ensures r == "" <==> searchQuery.None? || searchQuery.value == ""
  {
    if searchQuery.Some? && searchQuery.value != "" then "name match \"" + searchQuery.value + "*\"" else ""
  }

  /** The non-empty strings of `conditions`, as `filter(Boolean)` keeps them. */
  function NonEmpty(conditions: seq<string>): seq<string>
  {
    Filter(conditions, (c: string) => c != "")
  }

  /** What one candidate condition adds after the product type: ` && <c>`, or nothing when it is empty. */
  function AndClause(c: string): string
  {
    if c == "" then "" else " && " + c
  }

  /** The conditions of the query: the product type, then every non-empty condition, joined by ` && `. */
  function Conditions(filters: FilterSettings, searchQuery: Option<string>): (r: string)
    ensures StartsWith(r, ProductType)
  {
    var parts := NonEmpty([ProductType, CategoryCondition(filters.categories),
                           PriceCondition(filters.priceRange), SearchCondition(searchQuery)]);
    assert parts[0] == ProductType;
    JoinStartsWithFirst(parts, " && ");
    Join(parts, " && ")
  }

  /** `parts.join(sep)` starts with the first part. */
  lemma {:induction false} JoinStartsWithFirst(parts: seq<string>, sep: string)
    requires |parts| > 0
    ensures StartsWith(Join(parts, sep), parts[0])
  {
    if |parts| > 1 {
      var r := Join(parts, sep);
      assert r == parts[0] + (sep + Join(parts[1..], sep));
      assert r[..|parts[0]|] == parts[0];
    }
  }

  /** The bounds of the slice one page asks for. */
  function PageStart(page: int, itemsPerPage: int): int
  {
    (page - 1) * itemsPerPage
  }

  function PageEnd(page: int, itemsPerPage: int): int
  {
    page * itemsPerPage
  }

  /** The slice of the results one page asks for, as the query writes it. */
  function SliceText(page: int, itemsPerPage: int): (r: string)
    ensures page >= 1 && itemsPerPage >= 0 ==>
      r == "[" + NatText((page - 1) * itemsPerPage) + "..." + NatText(page * itemsPerPage) + "]"
  {
    "[" + IntText(PageStart(page, itemsPerPage)) + "..." + IntText(PageEnd(page, itemsPerPage)) + "]"
  }

  /**
   * The query string `getFilteredProducts` sends: the conditions, the
   * projection, then the page's slice.
   */
  function Query(filters: FilterSettings, searchQuery: Option<string>): (r: string)
    ensures StartsWith(r, "*[" + ProductType)
    ensures EndsWith(r, SliceText(filters.page, filters.itemsPerPage))
  {
    var conditions := Conditions(filters, searchQuery);
    var tail := SliceText(filters.page, filters.itemsPerPage);
    QueryFrame(conditions, Projection, tail);
    "*[" + conditions + "]" + Projection + tail
  }

  /** A query built around conditions that start with the product type starts with it too, and ends with its slice. */
  lemma QueryFrame(conditions: string, projection: string, tail: string)
    requires StartsWith(conditions, ProductType)
    ensures StartsWith("*[" + conditions + "]" + projection + tail, "*[" + ProductType)
    ensures EndsWith("*[" + conditions + "]" + projection + tail, tail)
  {
    var r := "*[" + conditions + "]" + projection + tail;
    StartsWithAppend(conditions, ProductType, "]" + projection + tail);
    StartsWithPrepend("*[", conditions + ("]" + projection + tail), ProductType);
    assert r == "*[" + (conditions + ("]" + projection + tail));
    assert r[|r| - |tail|..] == tail;
  }

  /** `toggleCategory(category)` applied to the selected categories. */
  function ToggleCategory(prev: seq<string>, category: string): (r: seq<string>)
    ensures category in r <==> category !in prev
    ensures forall c :: c != category ==> (c in r <==> c in prev)
  {
    if category in prev then Filter(prev, (c: string) => c != category) else prev + [category]
  }

  /** `togglePriceRange(range)` applied to the selected range. */
  function TogglePriceRange(prev: string, range: string): (r: string)
    ensures r == "" || r == range
    ensures range != "" ==> (r == range <==> prev != range)
  {
    if prev == range then "" else range
  }

  /** The name of each category, in order. */
  function Names(categories: seq<Category>): (r: seq<string>)
    ensures |r| == |categories|
    ensures forall i :: 0 <= i < |r| ==> r[i] == categories[i].name
  {
    if categories == [] then [] else [categories[0].name] + Names(categories[1..])
  }

  /** The position of the first occurrence of `x` in `s`. */
  function FirstIndex(s: seq<string>, x: string): (r: nat)
    requires x in s
    ensures r < |s| && s[r] == x
    ensures forall j :: 0 <= j < r ==> s[j] != x
  {
    if s[0] == x then 0 else FirstIndex(s[1..], x) + 1
  }

  /**
   * `Array.from(new Set(names))`: each name once, in the order of its
   * first occurrence.
   */
  function Distinct(names: seq<string>): (r: seq<string>)
    ensures forall i, j :: 0 <= i < j < |r| ==> r[i] != r[j]
    ensures forall x :: x in r <==> x in names
    ensures forall i, j :: 0 <= i < j < |r| ==> FirstIndex(names, r[i]) < FirstIndex(names, r[j])
  {
    if names == [] then []
    else
      var front := names[..|names| - 1];
      var last := names[|names| - 1];
      var d := Distinct(front);
      FirstIndexInFront(names, front);
      if last in d then d
      else
        assert forall x :: x in front ==> FirstIndex(names, x) < |names| - 1;
        assert FirstIndex(names, last) == |names| - 1;
        d + [last]
  }

  /** A name of the front of a sequence first occurs there at the same position. */
  lemma FirstIndexInFront(names: seq<string>, front: seq<string>)
    requires |names| > 0 && front == names[..|names| - 1]
    ensures forall x :: x in front ==> FirstIndex(names, x) == FirstIndex(front, x)
  {
    forall x | x in front
      ensures FirstIndex(names, x) == FirstIndex(front, x)
    {
      var i := FirstIndex(front, x);
      assert names[i] == x;
    }
  }

  /** `categories.find((cat) => cat.name === name)`, with `None` for `undefined`. */
  function Find(categories: seq<Category>, name: string): (r: Option<Category>)
    ensures r.Some? <==> name in Names(categories)
    ensures r.Some? ==> r.value == categories[FirstIndex(Names(categories), name)]
  {
    if categories == [] then None
    else if categories[0].name == name then Some(categories[0])
    else
      assert Names(categories)[1..] == Names(categories[1..]);
      Find(categories[1..], name)
  }

  /** `names.map(name => categories.find(c => c.name === name)!)`, every name being carried by some category. */
  function FindEach(categories: seq<Category>, names: seq<string>): (r: seq<Category>)
    requires forall i :: 0 <= i < |names| ==> names[i] in Names(categories)
    ensures |r| == |names|
    ensures forall i :: 0 <= i < |r| ==> r[i] == Find(categories, names[i]).value
  {
    seq(|names|, i requires 0 <= i < |names| => Find(categories, names[i]).value)
  }

  /** The category list the filter panel shows: the first category of each distinct name. */
  function UniqueCategories(categories: seq<Category>): (r: seq<Category>)
    ensures Names(r) == Distinct(Names(categories))
  {
    var names := Distinct(Names(categories));
    var r := FindEach(categories, names);
    assert forall i :: 0 <= i < |r| ==> r[i].name == names[i];
    r
  }
}

/** What the listing page's query builder and updaters promise. */
module ProductListingProperties {
  import opened Prelude
  import opened Strings
  import opened Catalog
  import opened ProductListing

  /** Digit strings hold no space, so no ` - ` separator. */
  lemma DigitsHoldNoSpace(s: string)
    requires IsDigits(s)
    ensures ' ' !in s
  {
    forall i | 0 <= i < |s|
      ensures s[i] != ' '
    {
      assert IsDigit(s[i]);
    }
  }

  /** `lo - hi` for canonical bounds gives both bounds back as written. */
  lemma PriceConditionOfRange(lo: string, hi: string)
    requires IsCanonical(lo) && IsCanonical(hi)
    ensures PriceCondition(lo + " - " + hi) == "price >= " + lo + " && price <= " + hi
  {
    var range := lo + " - " + hi;
    DigitsHoldNoSpace(lo);
    DigitsHoldNoSpace(hi);
    SplitAfter(lo, " - ", hi);
    SplitWithout(hi, " - ");
    assert range[|lo|] == ' ';
    assert range != "250+" by {
      if |lo| >= 4 {
        assert IsDigit(lo[3]);
        assert range[3] == lo[3];
      } else {
        assert "250+"[|lo|] != ' ';
      }
    }
  }

  /** A range without ` - ` reads its lower bound and leaves the upper one `undefined`. */
  lemma PriceConditionWithoutSeparator(s: string)
    requires ' ' !in s && s != "" && s != "250+"
    ensures PriceCondition(s) == "price >= " + NumberText(s) + " && price <= undefined"
  {
    SplitWithout(s, " - ");
  }

  /**
   * The two bounded ranges the panel offers give the bounds they show:
   * `0 - 100` and `101 - 250`. The bounds come in as parameters so that
   * the proof works on their text.
   */
  lemma OfferedRangeCondition(i: nat, lo: string, hi: string)
    requires (i, lo, hi) == (0, "0", "100") || (i, lo, hi) == (1, "101", "250")
    ensures PriceCondition(PriceOptions[i]) == "price >= " + lo + " && price <= " + hi
  {
    assert PriceOptions[i] == lo + " - " + hi;
    PriceConditionOfRange(lo, hi);
  }

  /** The last range the panel offers only bounds the price from below. */
  lemma LastPriceOption()
    ensures PriceCondition(PriceOptions[2]) == "price >= 250"
  {
  }

  /** One selected category is tested as the one quoted name. */
  lemma OneCategoryCondition(c: string)
    ensures CategoryCondition([c]) == "category->name in [" + ("\"" + c + "\"") + "]"
  {
    assert [c][1..] == [];
    assert Quoted([c]) == ["\"" + c + "\""];
  }

  /** Two selected categories are quoted in selection order and joined by `, `. */
  lemma TwoCategoryCondition(a: string, b: string)
    ensures CategoryCondition([a, b]) == "category->name in [" + ("\"" + a + "\"" + ", " + "\"" + b + "\"") + "]"
  {
    var qa, qb := "\"" + a + "\"", "\"" + b + "\"";
    assert [a, b][1..] == [b];
    assert [b][1..] == [];
    assert Quoted([a, b]) == [qa, qb];
    assert [qa, qb][1..] == [qb];
    assert Join([qa, qb], ", ") == qa + ", " + qb;
  }

  /** `filter(Boolean)` keeps a lone string exactly when it is not empty. */
  lemma NonEmptySingleton(x: string)
    ensures NonEmpty([x]) == if x == "" then [] else [x]
  {
    assert [x][1..] == [];
  }

  /** `filter(Boolean)` works on two runs of strings in turn. */
  lemma NonEmptyConcat(a: seq<string>, b: seq<string>)
    ensures NonEmpty(a + b) == NonEmpty(a) + NonEmpty(b)
  {
    FilterConcat(a, b, (c: string) => c != "");
  }

  /** `filter(Boolean)` over the four candidate conditions works on each one alone. */
  lemma NonEmptyOfFour(a: string, b: string, c: string, d: string)
    ensures NonEmpty([a, b, c, d]) == NonEmpty([a]) + NonEmpty([b]) + NonEmpty([c]) + NonEmpty([d])
  {
    var ab, cd := [a] + [b], [c] + [d];
    NonEmptyConcat([a], [b]);
    NonEmptyConcat([c], [d]);
    NonEmptyConcat(ab, cd);
    assert [a, b, c, d] == ab + cd;
  }

  /** `filter(Boolean)` then `join(" && ")` over a lone string gives its clause. */
  lemma GlueNonEmptySingleton(c: string)
    ensures Glue(NonEmpty([c]), " && ") == AndClause(c)
  {
    NonEmptySingleton(c);
    assert [c][1..] == [];
  }

  /**
   * Joining a non-empty first condition and three candidates, after dropping
   * the empty ones, is the first condition followed by each candidate's clause.
   */
  lemma JoinNonEmptyOfFour(first: string, a: string, b: string, c: string)
    requires first != ""
    ensures Join(NonEmpty([first, a, b, c]), " && ") == first + AndClause(a) + AndClause(b) + AndClause(c)
  {
    var rest := NonEmpty([a]) + NonEmpty([b]) + NonEmpty([c]);
    NonEmptyAfterFirst(first, a, b, c);
    JoinAfterFirst(first, rest, " && ");
    GlueClauses(a, b, c);
    AppendThree(first, AndClause(a), AndClause(b), AndClause(c));
  }

  /** Joining behind a first part is that part followed by the rest, glued. */
  lemma JoinAfterFirst(first: string, rest: seq<string>, sep: string)
    ensures Join([first] + rest, sep) == first + Glue(rest, sep)
  {
    JoinGlue([first] + rest, sep);
    assert ([first] + rest)[1..] == rest;
  }

  /** Appending three strings at once is appending them one by one. */
  lemma AppendThree(s: string, x: string, y: string, z: string)
    ensures s + (x + y + z) == s + x + y + z
  {
  }

  /** Dropping the empty strings keeps a non-empty first string in front of the others' survivors. */
  lemma NonEmptyAfterFirst(first: string, a: string, b: string, c: string)
    requires first != ""
    ensures NonEmpty([first, a, b, c]) == [first] + (NonEmpty([a]) + NonEmpty([b]) + NonEmpty([c]))
  {
    NonEmptyOfFour(first, a, b, c);
    NonEmptySingleton(first);
  }

  /** The survivors of three candidates, glued by ` && `, are their three clauses. */
  lemma GlueClauses(a: string, b: string, c: string)
    ensures Glue(NonEmpty([a]) + NonEmpty([b]) + NonEmpty([c]), " && ") == AndClause(a) + AndClause(b) + AndClause(c)
  {
    GlueRuns(NonEmpty([a]), NonEmpty([b]), NonEmpty([c]), " && ");
    GlueNonEmptySingleton(a);
    GlueNonEmptySingleton(b);
    GlueNonEmptySingleton(c);
  }

  /** Gluing three runs of parts is gluing each in turn. */
  lemma GlueRuns(x: seq<string>, y: seq<string>, z: seq<string>, sep: string)
    ensures Glue(x + y + z, sep) == Glue(x, sep) + Glue(y, sep) + Glue(z, sep)
  {
    GlueConcat(x + y, z, sep);
    GlueConcat(x, y, sep);
  }

  /**
   * For every filter setting and search text, the conditions are the
   * product type followed by ` && <c>` for each non-empty condition, in
   * the order category, price, search.
   */
  lemma ConditionsClosedForm(filters: FilterSettings, searchQuery: Option<string>)
    ensures Conditions(filters, searchQuery) ==
            ProductType + AndClause(CategoryCondition(filters.categories))
                        + AndClause(PriceCondition(filters.priceRange))
                        + AndClause(SearchCondition(searchQuery))
  {
    JoinNonEmptyOfFour(ProductType, CategoryCondition(filters.categories),
                       PriceCondition(filters.priceRange), SearchCondition(searchQuery));
  }

  /** Quoting works on each run of names in turn. */
  lemma QuotedConcat(a: seq<string>, b: seq<string>)
    ensures Quoted(a + b) == Quoted(a) + Quoted(b)
  {
    var qa, qb, q := Quoted(a), Quoted(b), Quoted(a + b);
    assert forall i :: 0 <= i < |a| ==> q[i] == qa[i];
    assert forall i :: |a| <= i < |q| ==> q[i] == qb[i - |a|];
    assert q == qa + qb;
  }

  /**
   * For any non-empty selection, the category condition lists the quoted
   * names in selection order, each after the first preceded by `, `.
   */
  lemma CategoryConditionClosedForm(categories: seq<string>)
    requires categories != []
    ensures CategoryCondition(categories) ==
            "category->name in [" + ("\"" + categories[0] + "\"" + Glue(Quoted(categories[1..]), ", ")) + "]"
  {
    var quoted := Quoted(categories);
    JoinGlue(quoted, ", ");
    assert quoted[1..] == Quoted(categories[1..]);
  }

  /** Selecting one more category adds `, "<c>"` at the end of the name list. */
  lemma GlueQuotedAppend(categories: seq<string>, c: string)
    ensures Glue(Quoted(categories + [c]), ", ") == Glue(Quoted(categories), ", ") + (", " + "\"" + c + "\"")
  {
    var q := "\"" + c + "\"";
    QuotedConcat(categories, [c]);
    assert Quoted([c]) == [q];
    GlueConcat(Quoted(categories), [q], ", ");
    assert [q][1..] == [];
  }

  /** With no category, range or search text the conditions are the product type alone, as on the first load. */
  lemma UnfilteredConditions(page: int, itemsPerPage: int, searchQuery: Option<string>)
    requires searchQuery.None? || searchQuery.value == ""
    ensures Conditions(FilterSettings([], "", page, itemsPerPage), searchQuery) == ProductType
  {
    NonEmptyOfFour(ProductType, CategoryCondition([]), PriceCondition(""), SearchCondition(searchQuery));
    NonEmptySingleton(ProductType);
    NonEmptySingleton("");
  }

  /** Only a price range selected: the product type and the range's condition, joined by ` && `. */
  lemma PriceOnlyConditions(lo: string, hi: string, page: int, itemsPerPage: int)
    requires IsCanonical(lo) && IsCanonical(hi)
    ensures Conditions(FilterSettings([], lo + " - " + hi, page, itemsPerPage), None)
            == ProductType + " && " + ("price >= " + lo + " && price <= " + hi)
  {
    var price := PriceCondition(lo + " - " + hi);
    PriceConditionOfRange(lo, hi);
    JoinNonEmptyOfFour(ProductType, CategoryCondition([]), price, SearchCondition(None));
  }


  /** Each page asks for exactly `itemsPerPage` items. */
  lemma PageWidth(page: int, itemsPerPage: int)
    ensures PageEnd(page, itemsPerPage) - PageStart(page, itemsPerPage) == itemsPerPage
  {
  }

  /** Consecutive pages meet: one page ends where the next begins, so no item is skipped or repeated. */
  lemma PagesMeet(page: int, itemsPerPage: int)
    ensures PageEnd(page, itemsPerPage) == PageStart(page + 1, itemsPerPage)
  {
  }

  /** From page 1 on, with the fixed page size, the slice starts at a non-negative index. */
  lemma PageStartNonNegative(page: int)
    requires page >= 1
    ensures PageStart(page, ItemsPerPage) >= 0
  {
  }

  /** Toggling a category that is not selected, then toggling it again, gives back the selection. */
  lemma ToggleCategoryTwice(prev: seq<string>, category: string)
    requires category !in prev
    ensures ToggleCategory(ToggleCategory(prev, category), category) == prev
  {
    var keep := (c: string) => c != category;
    FilterConcat(prev, [category], keep);
    FilterKeepsAll(prev, keep);
    assert Filter([category], keep) == [];
  }

  /** Toggling a selected category removes every copy of it; toggling it back puts one copy at the end. */
  lemma ToggleCategoryOff(prev: seq<string>, category: string)
    requires category in prev
    ensures forall i :: 0 <= i < |ToggleCategory(prev, category)| ==> ToggleCategory(prev, category)[i] != category
    ensures ToggleCategory(ToggleCategory(prev, category), category)
            == Filter(prev, (c: string) => c != category) + [category]
  {
  }

  /** Toggling a price range twice from any selection other than that range gives the selection back only when nothing was selected. */
  lemma TogglePriceRangeTwice(prev: string, range: string)
    requires range != ""
    ensures TogglePriceRange(TogglePriceRange(prev, range), range) == (if prev == range then range else "")
  {
  }

  /** The panel's categories carry distinct names, and every name in the catalogue shows up. */
  lemma UniqueCategoriesNames(categories: seq<Category>)
    ensures var r := UniqueCategories(categories);
            forall i, j :: 0 <= i < j < |r| ==> r[i].name != r[j].name
    ensures var r := UniqueCategories(categories);
            forall name :: name in Names(r) <==> name in Names(categories)
  {
    var names := Distinct(Names(categories));
    var r := UniqueCategories(categories);
    assert forall i :: 0 <= i < |r| ==> r[i].name == names[i];
    assert Names(r) == names;
  }

  /** Each category the panel shows is the first in the catalogue with its name, and they come in the order those names first appear. */
  lemma UniqueCategoriesFirstOccurrence(categories: seq<Category>)
    ensures var r := UniqueCategories(categories);
            forall i :: 0 <= i < |r| ==>
              r[i].name in Names(categories) && r[i] == categories[FirstIndex(Names(categories), r[i].name)]
    ensures var r := UniqueCategories(categories);
            forall i, j :: 0 <= i < j < |r| ==>
              r[i].name in Names(categories) && r[j].name in Names(categories) &&
              FirstIndex(Names(categories), r[i].name) < FirstIndex(Names(categories), r[j].name)
  {
    var names := Distinct(Names(categories));
    var r := UniqueCategories(categories);
    assert forall i :: 0 <= i < |r| ==> r[i].name == names[i];
  }
}
