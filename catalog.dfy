/**
 * The catalogue section of the storefront (ProductsSection): the products the
 * backend returns are filtered by an optional category, counted, and cut into
 * pages of eight; the card of each product shows an image URL with a
 * placeholder fallback.
 */
module Catalog {
  import opened Wrappers

  /** Products per page: the slice window and the Pagination `pageSize`. */
  const PageSize: nat := 8

  const Placeholder: string := "/placeholder.png"

  /** The `image` field of a product as the backend sends it. */
  datatype ImageRef =
    | NoImage                     // undefined or null
    | Path(path: string)          // a string
    | Asset(url: Option<string>)  // an object, with or without a `url` field
    | OtherValue                  // any other JSON value (a number, a boolean)

  datatype Product = Product(
    id: string,
    name: string,
    category: string,
    price: nat,
    oldPrice: Option<nat>,
    stock: nat,
    rating: nat,
    isNew: bool,
    isPromo: bool,
    image: ImageRef)

  /**
   * getImageUrl: a falsy image (absent, or the empty string) gives the
   * placeholder, a non-empty string is the URL itself, an object gives its
   * `url` when that is non-empty, and anything else gives the placeholder.
   * The card therefore never receives an empty URL.
   */
  function ImageUrl(image: ImageRef): (url: string)
    ensures image.Path? && image.path != "" ==> url == image.path
    ensures image.Asset? && image.url.Some? && image.url.value != "" ==> url == image.url.value
    ensures !(image.Path? && image.path != "") && !(image.Asset? && image.url.Some? && image.url.value != "")
            ==> url == Placeholder
    ensures url != ""
  {
    match image
    case NoImage => Placeholder
    case Path(p) => if p == "" then Placeholder else p
    case Asset(u) => if u.Some? && u.value != "" then u.value else Placeholder
    case OtherValue => Placeholder
  }

  /** `if (category)`: an absent or empty category does not filter. */
  predicate Filters(category: Option<string>) {
    category.Some? && category.value != ""
  }

  /** `data.filter(product => product.category === c)`. */
  function Matching(data: seq<Product>, c: string): (r: seq<Product>)
    ensures |r| <= |data|
    ensures forall p :: p in r ==> p in data && p.category == c
    ensures forall p :: p in data && p.category == c ==> p in r
  {
    if data == [] then []
    else (if data[0].category == c then [data[0]] else []) + Matching(data[1..], c)
  }

  /** The list the section counts and pages: the whole list, or its products of one category. */
  function FilterByCategory(data: seq<Product>, category: Option<string>): (r: seq<Product>)
    ensures !Filters(category) ==> r == data
    ensures Filters(category) ==> forall p :: p in r <==> p in data && p.category == category.value
  {
    if Filters(category) then Matching(data, category.value) else data
  }

  /** Filtering keeps the original order: it distributes over concatenation. */
  lemma {:induction false} MatchingAppend(a: seq<Product>, b: seq<Product>, c: string)
    ensures Matching(a + b, c) == Matching(a, c) + Matching(b, c)
  {
    if a == [] {
      assert a + b == b;
    } else {
      assert (a + b)[0] == a[0];
      assert (a + b)[1..] == a[1..] + b;
      MatchingAppend(a[1..], b, c);
    }
  }

  /**
   * The filtered list keeps exactly the products of the category, in the
   * order of the fetched list: concatenations are filtered piecewise and a
   * single product is kept iff its category matches.
   */
  lemma FilterKeepsOrder(a: seq<Product>, b: seq<Product>, p: Product, category: Option<string>)
    ensures FilterByCategory(a + b, category) == FilterByCategory(a, category) + FilterByCategory(b, category)
    ensures Filters(category) ==>
              FilterByCategory([p], category) == if p.category == category.value then [p] else []
  {
    if Filters(category) {
      MatchingAppend(a, b, category.value);
      assert [p][1..] == [];
    }
  }

  /**
   * `Array.prototype.slice(start, end)` for non-negative bounds: both bounds
   * are clamped to the length and an empty window gives an empty array.
   */
  function JsSlice<T>(s: seq<T>, start: nat, end: nat): (r: seq<T>)
    ensures |r| == Max(0, Min(end, |s|) - start)
    ensures forall i :: 0 <= i < |r| ==> start + i < |s| && r[i] == s[start + i]
  {
    var from := Min(start, |s|);
    var to := Min(end, |s|);
    if from < to then s[from..to] else []
  }

  /** First index of 1-based page `page`. */
  function PageStart(page: nat): nat
    requires page >= 1
  {
    (page - 1) * PageSize
  }

  /**
   * The products shown on page `page`:
   * `filtered.slice((page - 1) * 8, (page - 1) * 8 + 8)`.
   */
  function Page(filtered: seq<Product>, page: nat): (r: seq<Product>)
    requires page >= 1
    ensures |r| == Min(PageSize, Max(0, |filtered| - PageStart(page)))
    ensures forall i :: 0 <= i < |r| ==> r[i] == filtered[PageStart(page) + i]
  {
    JsSlice(filtered, PageStart(page), PageStart(page) + PageSize)
  }

  /** Number of pages the pagination control offers for `total` products: ceil(total / 8). */
  function PageCount(total: nat): nat {
    (total + PageSize - 1) / PageSize
  }

  /** A page past the last one is empty rather than an error. */
  lemma PageBeyondLastIsEmpty(filtered: seq<Product>, page: nat)
    requires page > PageCount(|filtered|)
    ensures Page(filtered, page) == []
  {
  }

  /**
   * A category switch that keeps page p >= 2 and lands on at most eight
   * products shows an empty grid, and the control to go back to page 1 is
   * hidden.
   */
  lemma StrandedOnEmptyPage(filtered: seq<Product>, page: nat)
    requires |filtered| <= PageSize && page >= 2
    ensures Page(filtered, page) == []
    ensures !ShowsPagination(|filtered|)
  {
    PageBeyondLastIsEmpty(filtered, page);
  }

  /** Pages 1..k laid end to end. */
  function Pages(filtered: seq<Product>, k: nat): seq<Product> {
    if k == 0 then [] else Pages(filtered, k - 1) + Page(filtered, k)
  }

  /** The first k pages are the first min(N, 8k) filtered products. */
  lemma {:induction false} PagesArePrefix(filtered: seq<Product>, k: nat)
    ensures Pages(filtered, k) == filtered[..Min(|filtered|, k * PageSize)]
  {
    if k > 0 {
      PagesArePrefix(filtered, k - 1);
      var lo := Min(|filtered|, (k - 1) * PageSize);
      var hi := Min(|filtered|, k * PageSize);
      var page := Page(filtered, k);
      assert |page| == hi - lo;
      assert filtered[..hi] == filtered[..lo] + page by {
        forall i | lo <= i < hi ensures filtered[..hi][i] == (filtered[..lo] + page)[i] {
          assert page[i - lo] == filtered[PageStart(k) + (i - lo)];
        }
      }
    }
  }

  /** Concatenating pages 1..ceil(N/8) in order gives back the filtered list. */
  lemma AllPagesRebuildList(filtered: seq<Product>)
    ensures Pages(filtered, PageCount(|filtered|)) == filtered
  {
    var n := |filtered|;
    PagesArePrefix(filtered, PageCount(n));
    assert PageCount(n) * PageSize >= n;
    assert filtered[..n] == filtered;
  }

  /**
   * Every filtered product appears on exactly one page: index j is at
   * position j % 8 of page j / 8 + 1, that page exists, and no other page
   * covers index j.
   */
  lemma IndexOnOnePage(filtered: seq<Product>, j: nat, other: nat)
    requires j < |filtered|
    requires other >= 1 && other != j / PageSize + 1
    ensures j / PageSize + 1 <= PageCount(|filtered|)
    ensures j % PageSize < |Page(filtered, j / PageSize + 1)|
    ensures Page(filtered, j / PageSize + 1)[j % PageSize] == filtered[j]
    ensures !(PageStart(other) <= j < PageStart(other) + |Page(filtered, other)|)
  {
  }

  /**
   * The pagination control is rendered iff `totalProducts > 8`: exactly
   * when there is more than one page to choose from.
   */
  function ShowsPagination(totalProducts: nat): (shows: bool)
    ensures shows <==> PageCount(totalProducts) >= 2
  {
    totalProducts > PageSize
  }

  /**
   * The section's state: the current page, the count of filtered products
   * and the products of the current page. `category` is the component's
   * prop; a parent may pass a new one to the same instance.
   */
  class ProductsSection {
    var category: Option<string>
    var products: seq<Product>
    var loading: bool
    var currentPage: nat
    var totalProducts: nat

    ghost predicate Valid()
      reads this
    {
      currentPage >= 1
    }

    constructor (category: Option<string>)
      ensures Valid() && this.category == category
      ensures products == [] && loading && currentPage == 1 && totalProducts == 0
    {
      this.category := category;
      products := [];
      loading := true;
      currentPage := 1;
      totalProducts := 0;
    }

    /**
     * fetchProducts: `fetched` is what `getProducts()` resolved to, or None
     * when it threw. On success the count is the size of the filtered list
     * whatever the page, and the shown products are the current page of it;
     * on failure the error is only logged and the shown state is kept.
     */
    method FetchProducts(fetched: Option<seq<Product>>)
      requires Valid()
      modifies this`products, this`totalProducts, this`loading
      ensures Valid() && currentPage == old(currentPage) && !loading
      ensures fetched.Some? ==>
                && totalProducts == |FilterByCategory(fetched.value, category)|
                && products == Page(FilterByCategory(fetched.value, category), currentPage)
      ensures fetched.None? ==> products == old(products) && totalProducts == old(totalProducts)
    {
      loading := true;
      if fetched.Some? {
        var data := fetched.value;
        var filteredProducts := data;
        if Filters(category) {
          filteredProducts := Matching(data, category.value);
        }
        totalProducts := |filteredProducts|;
        var startIndex := (currentPage - 1) * PageSize;
        var endIndex := startIndex + PageSize;
        products := JsSlice(filteredProducts, startIndex, endIndex);
      }
      loading := false;
    }

    /**
     * A new `category` prop re-renders the same instance: the state,
     * including the current page, is kept, and the effect then fetches that
     * page of the new category.
     */
    method SetCategory(c: Option<string>)
      requires Valid()
      modifies this`category
      ensures Valid() && category == c
      ensures currentPage == old(currentPage) && products == old(products)
      ensures totalProducts == old(totalProducts) && loading == old(loading)
    {
      category := c;
    }

    /** handlePageChange: the Pagination control reports a 1-based page. */
    method HandlePageChange(page: nat)
      requires Valid() && page >= 1
      modifies this`currentPage
      ensures Valid() && currentPage == page
    {
      currentPage := page;
    }
  }
}
