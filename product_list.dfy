/** The logic of the product list screen: the category tabs drawn from the
    products, the category filter, the icon chosen for a tab, and the toggle
    between a two-column grid and a one-column list. */
module ProductList {
  import opened Options
  import opened Strings
  import opened Sequences
  import opened ShopTypes

  /** The category of every product, in product order. */
  function CategoryList(products: seq<Product>): (r: seq<string>)
    ensures |r| == |products|
    ensures forall k :: 0 <= k < |products| ==> r[k] == products[k].category
  {
    seq(|products|, k requires 0 <= k < |products| => products[k].category)
  }

  /** `categories`: the distinct categories, `Array.from(new Set(...))`. */
  function Categories(products: seq<Product>): (r: seq<string>)
    ensures NoDup(r)
    ensures forall c :: c in r <==> exists k :: 0 <= k < |products| && products[k].category == c
  {
    var cs := CategoryList(products);
    assert forall c :: c in cs <==> exists k :: 0 <= k < |products| && products[k].category == c by {
      forall c | c in cs ensures exists k :: 0 <= k < |products| && products[k].category == c {
        var k :| 0 <= k < |cs| && cs[k] == c;
        assert products[k].category == c;
      }
    }
    Dedup(cs)
  }

  /** The tabs follow the order in which the categories first appear. */
  lemma TabsInFirstOccurrenceOrder(products: seq<Product>)
    ensures forall i, j :: 0 <= i < j < |Categories(products)| ==>
      Before(CategoryList(products), Categories(products)[i], Categories(products)[j])
  {
    DedupFirstOccurrence(CategoryList(products));
  }

  /** A product passes the tab filter: every product when no category (or
      the empty category, which is falsy) is active, else those of the
      active category. */
  predicate InActive(p: Product, activeCategory: Option<string>) {
    if activeCategory.Some? && activeCategory.value != "" then p.category == activeCategory.value else true
  }

  /** `filtered`. */
  function Filtered(products: seq<Product>, activeCategory: Option<string>): (r: seq<Product>)
    ensures Subsequence(r, products)
    ensures forall p :: p in r <==> p in products && InActive(p, activeCategory)
  {
    FilterIsSubsequence(products, (p: Product) => InActive(p, activeCategory));
    Filter(products, (p: Product) => InActive(p, activeCategory))
  }

  /** With the "All" tab selected every product is listed, in order. */
  lemma AllShowsEverything(products: seq<Product>)
    ensures Filtered(products, None) == products
  {
    FilterAll(products, (p: Product) => InActive(p, None));
  }

  /** With a category selected exactly the products of that category are
      listed, in their order: the sequence is the one that drops the others. */
  lemma CategoryShowsExactly(products: seq<Product>, c: string)
    requires c != ""
    ensures Filtered(products, Some(c)) == Filter(products, (p: Product) => p.category == c)
  {
    FilterAgree(products, (p: Product) => InActive(p, Some(c)), (p: Product) => p.category == c);
  }

  /** A product whose category is the empty string gets a tab of its own,
      and selecting that tab lists every product, as "All" does. */
  lemma EmptyCategoryShowsEverything(products: seq<Product>)
    ensures Filtered(products, Some("")) == products
  {
    FilterAll(products, (p: Product) => InActive(p, Some("")));
  }

  /** Selecting any of the tabs lists at least one product. */
  lemma TabNeverEmpty(products: seq<Product>, c: string)
    requires c in Categories(products)
    ensures |Filtered(products, Some(c))| > 0
  {
    var k :| 0 <= k < |products| && products[k].category == c;
    assert products[k] in Filtered(products, Some(c));
  }

  /** `getIcon`: the first keyword the lower-cased category contains picks the icon. */
  function GetIcon(category: string): (r: string)
    ensures r == "cube-outline" <==> forall k :: 0 <= k < |IconRules| ==> !Includes(ToLower(category), IconRules[k].0)
  {
    var lower := ToLower(category);
    assert IconRules[0].0 == "fashion" && IconRules[1].0 == "electronics" && IconRules[2].0 == "home";
    assert IconRules[3].0 == "sports" && IconRules[4].0 == "books";
    if Includes(lower, "fashion") then "shirt-outline"
    else if Includes(lower, "electronics") then "phone-portrait-outline"
    else if Includes(lower, "home") then "home-outline"
    else if Includes(lower, "sports") then "fitness-outline"
    else if Includes(lower, "books") then "book-outline"
    else "cube-outline"
  }

  /** The keywords and their icons, in priority order. */
  const IconRules: seq<(string, string)> := [
    ("fashion", "shirt-outline"),
    ("electronics", "phone-portrait-outline"),
    ("home", "home-outline"),
    ("sports", "fitness-outline"),
    ("books", "book-outline")]

  /** `getIcon` is the icon of the first rule whose keyword occurs, whatever
      the case of the category. */
  lemma IconIsFirstRule(category: string)
    ensures match FirstIndex(IconRules, (rule: (string, string)) => Includes(ToLower(category), rule.0))
      case Some(k) => GetIcon(category) == IconRules[k].1
      case None => GetIcon(category) == "cube-outline"
  {
  }

  /** Several keywords: the earliest rule wins ("Home & Books" is home). */
  lemma IconPriority(category: string)
    requires Includes(ToLower(category), "home") && Includes(ToLower(category), "books")
    requires !Includes(ToLower(category), "fashion") && !Includes(ToLower(category), "electronics")
    ensures GetIcon(category) == "home-outline"
  {
  }

  /** `numColumns`: two in grid mode, one in list mode. */
  function NumColumns(grid: bool): (r: nat)
    ensures r == 2 <==> grid
    ensures r == 1 <==> !grid
  {
    if grid then 2 else 1
  }

  /** The screen's state: grid mode and the selected category (None for "All"). */
  class ListScreen {
    var grid: bool
    var activeCategory: Option<string>

    /** The screen opens in grid mode on "All". */
    constructor ()
      ensures grid && activeCategory == None
    {
      grid := true;
      activeCategory := None;
    }

    /** The "All" tab. */
    method SelectAll()
      modifies this
      ensures activeCategory == None && grid == old(grid)
    {
      activeCategory := None;
    }

    /** A category tab. */
    method SelectCategory(c: string)
      modifies this
      ensures activeCategory == Some(c) && grid == old(grid)
    {
      activeCategory := Some(c);
    }

    /** The grid toggle: switches between two columns and one. */
    method ToggleGrid()
      modifies this
      ensures grid == !old(grid) && activeCategory == old(activeCategory)
      ensures NumColumns(grid) == 3 - NumColumns(old(grid))
    {
      grid := !grid;
    }
  }
}
