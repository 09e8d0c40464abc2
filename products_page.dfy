/** The product list of src/app/products/page.tsx: how the page turns its
    search box, category selector and page number into a `getAll` request,
    and what it shows of the response. The rendering, the dialogs and the
    notifications are outside the model; the response of a request is a
    parameter, `None` when the request fails. */
module ProductsPage {
  import opened Wrappers
  import opened Builtins
  import opened ProductsApi

  /** A page number. The handlers pass 1 or the current page, and the
      pagination control offers the pages from 1 to the page count. */
  type PageNumber = p: int | 1 <= p witness 1

  /** The parts of a product the list logic looks at. */
  datatype Product = Product(id: int, title: string, category: string)

  /** The body of a product list response: a page of products, or all the
      matches of a search, and the server's count of matches. */
  datatype ProductsResponse = ProductsResponse(products: seq<Product>, total: nat)

  const ItemsPerPage: nat := 10

  /** The selector value that stands for no category filter. */
  const AllCategories := "all"

  /** The category filter of a selector value: the sentinel means none. */
  function CategoryToSearch(selected: string): (r: string)
    ensures r == "" <==> selected == AllCategories || selected == ""
    ensures r != "" ==> r == selected
  {
    if selected == AllCategories then "" else selected
  }

  /** The number of items before a page. */
  function PageSkip(page: PageNumber): nat {
    (page - 1) * ItemsPerPage
  }

  /** `fetchProducts` filters on the client when a search or a category is
      given and not empty. */
  predicate Filtered(search: Option<string>, category: Option<string>) {
    TruthyString(search) || TruthyString(category)
  }

  /** The parameters `fetchProducts` passes to `getAll`: a filter is sent as
      a search, the category as `category:` followed by its name; without a
      filter one page is asked for. */
  function FetchQuery(search: Option<string>, category: Option<string>, page: PageNumber): ProductQuery {
    if Filtered(search, category) then
      var searchTerm := if TruthyString(category) then CategoryPrefix + category.value else search.value;
      ProductQuery(None, None, Some(searchTerm), None)
    else
      ProductQuery(Some(ItemsPerPage), Some(PageSkip(page)), None, None)
  }

  /** The part of a full result the page shows: `slice(skip, skip + 10)`. */
  function Window(all: seq<Product>, page: PageNumber): seq<Product> {
    Slice(all, PageSkip(page), PageSkip(page) + ItemsPerPage)
  }

  /** The page count of the pagination control, `None` when it is not
      rendered: it is rendered when there is at least one item, with the
      least number of pages of ten that hold them all. */
  function PageCount(totalItems: nat): (r: Option<nat>)
    ensures r.Some? <==> totalItems > 0
    ensures r.Some? ==>
      r.value >= 1 && (r.value - 1) * ItemsPerPage < totalItems <= r.value * ItemsPerPage
  {
    if totalItems > 0 then Some((totalItems + ItemsPerPage - 1) / ItemsPerPage) else None
  }

  /** The list state `fetchProducts` writes. */
  datatype ListState = ListState(products: seq<Product>, totalItems: nat, currentPage: PageNumber)

  /** The list state after `fetchProducts(search, category, page)` received
      `response`: a failed request changes nothing; a filtered result is
      windowed and counted on the client; a page is shown as it came, with
      the server's count. */
  function Fetched(s: ListState, search: Option<string>, category: Option<string>, page: PageNumber,
                   response: Option<ProductsResponse>): ListState
  {
    match response
    case None => s
    case Some(data) =>
      if Filtered(search, category) then ListState(Window(data.products, page), |data.products|, page)
      else ListState(data.products, data.total, page)
  }

  // ---------------------------------------------------------------- the component

  /** The state of the products page and its handlers. */
  class ProductsPage {
    var products: seq<Product>
    var loading: bool
    var searchQuery: string
    var selectedCategory: string
    var currentPage: PageNumber
    var totalItems: nat

    constructor()
      ensures products == [] && loading && totalItems == 0 && currentPage == 1
      ensures searchQuery == "" && selectedCategory == AllCategories
    {
      products := [];
      loading := true;
      searchQuery := "";
      selectedCategory := AllCategories;
      currentPage := 1;
      totalItems := 0;
    }

    function State(): ListState
      reads this
    {
      ListState(products, totalItems, currentPage)
    }

    /** `fetchProducts(search, category, page)`: returns the URL requested and
        applies the response to the list. */
    method FetchProducts(search: Option<string>, category: Option<string>, page: PageNumber,
                         response: Option<ProductsResponse>) returns (url: string)
      modifies this
      ensures url == ProductsUrl(FetchQuery(search, category, page))
      ensures State() == Fetched(old(State()), search, category, page, response)
      ensures !loading
      ensures searchQuery == old(searchQuery) && selectedCategory == old(selectedCategory)
    {
      loading := true;
      if TruthyString(search) || TruthyString(category) {
        var searchTerm := if TruthyString(category) then CategoryPrefix + category.value else search.value;
        var query := ProductQuery(None, None, Some(searchTerm), None);
        assert query == FetchQuery(search, category, page);
        url := GetAllUrl(query);
        if response.Some? {
          var allProducts := response.value.products;
          var total := |allProducts|;
          var skip := (page - 1) * ItemsPerPage;
          var paginatedProducts := Slice(allProducts, skip, skip + ItemsPerPage);
          assert paginatedProducts == Window(allProducts, page);
          products := paginatedProducts;
          totalItems := total;
          currentPage := page;
          assert State() == ListState(Window(allProducts, page), |allProducts|, page);
        }
      } else {
        var skip := (page - 1) * ItemsPerPage;
        var query := ProductQuery(Some(ItemsPerPage), Some(skip), None, None);
        assert query == FetchQuery(search, category, page);
        url := GetAllUrl(query);
        if response.Some? {
          products := response.value.products;
          totalItems := response.value.total;
          currentPage := page;
          assert State() == ListState(response.value.products, response.value.total, page);
        }
      }
      loading := false;
    }

    /** The first effect: `fetchProducts()` with no arguments. */
    method Mount(response: Option<ProductsResponse>) returns (url: string)
      modifies this
      ensures url == ProductsUrl(FetchQuery(None, None, 1))
      ensures State() == Fetched(old(State()), None, None, 1, response)
      ensures !loading
      ensures searchQuery == old(searchQuery) && selectedCategory == old(selectedCategory)
    {
      url := FetchProducts(None, None, 1, response);
    }

    /** Typing in the search box only records the text. */
    method SetSearchQuery(text: string)
      modifies this
      ensures searchQuery == text
      ensures State() == old(State()) && loading == old(loading)
      ensures selectedCategory == old(selectedCategory)
    {
      searchQuery := text;
    }

    /** `handleSearch`: the first page for the current text and category. */
    method HandleSearch(response: Option<ProductsResponse>) returns (url: string)
      modifies this
      ensures url == ProductsUrl(FetchQuery(Some(searchQuery), Some(CategoryToSearch(selectedCategory)), 1))
      ensures State() == Fetched(old(State()), Some(searchQuery), Some(CategoryToSearch(selectedCategory)), 1, response)
      ensures !loading
      ensures searchQuery == old(searchQuery) && selectedCategory == old(selectedCategory)
    {
      var categoryToSearch := CategoryToSearch(selectedCategory);
      url := FetchProducts(Some(searchQuery), Some(categoryToSearch), 1, response);
    }

    /** `handleCategoryChange`: records the selection and fetches its first
        page with the current text. */
    method HandleCategoryChange(category: string, response: Option<ProductsResponse>) returns (url: string)
      modifies this
      ensures selectedCategory == category && searchQuery == old(searchQuery)
      ensures url == ProductsUrl(FetchQuery(Some(searchQuery), Some(CategoryToSearch(category)), 1))
      ensures State() == Fetched(old(State()), Some(searchQuery), Some(CategoryToSearch(category)), 1, response)
      ensures !loading
    {
      selectedCategory := category;
      var categoryToSearch := CategoryToSearch(category);
      url := FetchProducts(Some(searchQuery), Some(categoryToSearch), 1, response);
    }

    /** `handlePageChange`: another page with the current text and category. */
    method HandlePageChange(page: PageNumber, response: Option<ProductsResponse>) returns (url: string)
      modifies this
      ensures url == ProductsUrl(FetchQuery(Some(searchQuery), Some(CategoryToSearch(selectedCategory)), page))
      ensures State() == Fetched(old(State()), Some(searchQuery), Some(CategoryToSearch(selectedCategory)), page, response)
      ensures !loading
      ensures searchQuery == old(searchQuery) && selectedCategory == old(selectedCategory)
    {
      var categoryToSearch := CategoryToSearch(selectedCategory);
      url := FetchProducts(Some(searchQuery), Some(categoryToSearch), page, response);
    }

    /** What `handleCreate`, `handleUpdate` and `handleDelete` do once their
        request has settled: after a success the list is fetched again with
        the current text, category and page; after a failure nothing is. */
    method RefreshAfterMutation(succeeded: bool, response: Option<ProductsResponse>) returns (url: Option<string>)
      modifies this
      ensures url.Some? <==> succeeded
      ensures searchQuery == old(searchQuery) && selectedCategory == old(selectedCategory)
      ensures succeeded ==>
        url.value == ProductsUrl(FetchQuery(Some(searchQuery), Some(CategoryToSearch(selectedCategory)), old(currentPage))) &&
        State() == Fetched(old(State()), Some(searchQuery), Some(CategoryToSearch(selectedCategory)), old(currentPage), response) &&
        !loading
      ensures !succeeded ==> State() == old(State()) && loading == old(loading)
    {
      if succeeded {
        var categoryToSearch := CategoryToSearch(selectedCategory);
        var requested := FetchProducts(Some(searchQuery), Some(categoryToSearch), currentPage, response);
        url := Some(requested);
      } else {
        url := None;
      }
    }
  }

  // ---------------------------------------------------------------- properties

  /** A window holds at most ten products, the ones after the skipped pages,
      and is empty past the end of the full result. */
  lemma WindowShape(all: seq<Product>, page: PageNumber)
    ensures |Window(all, page)| <= ItemsPerPage
    ensures |Window(all, page)| == Max(0, Min(|all| - PageSkip(page), ItemsPerPage))
    ensures forall k :: 0 <= k < |Window(all, page)| ==> Window(all, page)[k] == all[PageSkip(page) + k]
  {
    var w := Window(all, page);
    assert |w| == Max(0, Min(PageSkip(page) + ItemsPerPage, |all|) - PageSkip(page));
  }

  /** Every product of a full result appears, at its place, on the page the
      pagination control offers for it. */
  lemma EveryProductOnItsPage(all: seq<Product>, i: nat)
    requires i < |all|
    ensures var page: PageNumber := i / ItemsPerPage + 1;
      PageCount(|all|).Some? && page <= PageCount(|all|).value &&
      Window(all, page)[i % ItemsPerPage] == all[i]
  {
    var page: PageNumber := i / ItemsPerPage + 1;
    assert PageSkip(page) + i % ItemsPerPage == i;
    assert i % ItemsPerPage < |Window(all, page)|;
  }

  /** Every page the pagination control offers shows at least one product of
      a filtered result. */
  lemma OfferedPagesNonEmpty(all: seq<Product>, page: PageNumber)
    requires PageCount(|all|).Some? && page <= PageCount(|all|).value
    ensures Window(all, page) != []
  {
    assert PageSkip(page) < |all|;
    assert |Window(all, page)| > 0;
  }

  /** A fetch that fails leaves the list as it was. */
  lemma FailedFetchKeepsList(s: ListState, search: Option<string>, category: Option<string>, page: PageNumber)
    ensures Fetched(s, search, category, page, None) == s
  {
  }

  /** A filtered fetch that succeeds shows the window of the full result for
      the page asked for, counts the full result, and moves to that page. */
  lemma FilteredFetchShowsWindow(s: ListState, search: Option<string>, category: Option<string>,
                                 page: PageNumber, data: ProductsResponse)
    requires Filtered(search, category)
    ensures var t := Fetched(s, search, category, page, Some(data));
      t.currentPage == page && t.totalItems == |data.products| &&
      |t.products| <= ItemsPerPage &&
      forall k :: 0 <= k < |t.products| ==> t.products[k] == data.products[PageSkip(page) + k]
  {
    WindowShape(data.products, page);
  }

  /** An unfiltered fetch that succeeds shows the page as the server sent it,
      with the server's count, and moves to that page. */
  lemma PlainFetchUsesServerPage(s: ListState, search: Option<string>, category: Option<string>,
                                 page: PageNumber, data: ProductsResponse)
    requires !Filtered(search, category)
    ensures Fetched(s, search, category, page, Some(data)) == ListState(data.products, data.total, page)
  {
  }

  /** An unfiltered fetch asks the server for ten items after the skipped
      pages; the first page sends no skip, since a zero skip is not sent. */
  lemma PlainRequest(search: Option<string>, category: Option<string>, page: PageNumber)
    requires !Filtered(search, category)
    ensures ProductsUrl(FetchQuery(search, category, page)) ==
      ApiBase + "/products?limit=10" +
      (if page == 1 then "" else "&skip=" + NumberToString((page - 1) * 10))
  {
    assert NumberToString(10) == "10" by {
      assert NumberToString(1) == "1";
      assert NumberToString(10) == NumberToString(1) + [DigitChar(0)];
    }
  }

  /** With the sentinel selected and an empty search box the list is not
      filtered. */
  lemma AllIsUnfiltered()
    ensures !Filtered(Some(""), Some(CategoryToSearch(AllCategories)))
    ensures !Filtered(None, None)
  {
  }

  /** Selecting a category `c` leads to a request to the category endpoint
      for `c` without surrounding whitespace, whatever the search text and
      the page. */
  lemma CategorySelectionRoute(search: string, c: string, page: PageNumber)
    requires c != AllCategories && c != ""
    ensures ProductsUrl(FetchQuery(Some(search), Some(CategoryToSearch(c)), page)) ==
      ApiBase + "/products/category/" + Trim(c)
  {
    PrefixedSearchRoutesToCategory(FetchQuery(Some(search), Some(CategoryToSearch(c)), page), c);
  }

  /** A category filter takes precedence over the search text, and a
      filtered request does not depend on the page. */
  lemma CategoryWinsOverSearch(search: Option<string>, category: Option<string>, page: PageNumber, other: PageNumber)
    requires TruthyString(category)
    ensures FetchQuery(search, category, page) == FetchQuery(None, category, other)
  {
  }

  /** A search text without the category prefix, with no category, goes to
      the text search endpoint as typed; one with the prefix is taken as a
      category. */
  lemma SearchTextRoute(text: string, page: PageNumber)
    requires text != ""
    ensures !StartsWith(text, CategoryPrefix) ==>
      ProductsUrl(FetchQuery(Some(text), Some(CategoryToSearch(AllCategories)), page)) ==
      ApiBase + "/products/search?q=" + text
    ensures StartsWith(text, CategoryPrefix) ==>
      ProductsUrl(FetchQuery(Some(text), Some(CategoryToSearch(AllCategories)), page)) ==
      ApiBase + "/products/category/" + Trim(text[|CategoryPrefix|..])
  {
    if StartsWith(text, CategoryPrefix) {
      var q := FetchQuery(Some(text), Some(CategoryToSearch(AllCategories)), page);
      assert text == CategoryPrefix + text[|CategoryPrefix|..];
      PrefixedSearchRoutesToCategory(q, text[|CategoryPrefix|..]);
    }
  }
}
