/** The request routing of `productsApi.getAll` in src/lib/api.ts: which URL
    of the remote catalogue a set of list parameters is sent to. The HTTP
    request itself, and the response it returns, are outside the model. */
module ProductsApi {
  import opened Wrappers
  import opened Builtins

  const ApiBase := "https://dummyjson.com"

  /** The search prefix by which the products page asks for a category. */
  const CategoryPrefix := "category:"

  /** The optional `params` of `getAll`; `getAll()` is `NoParams`. */
  datatype ProductQuery = ProductQuery(
    limit: Option<nat>,
    skip: Option<nat>,
    search: Option<string>,
    category: Option<string>)

  const NoParams := ProductQuery(None, None, None, None)

  /** The query string of a paged request: `limit` then `skip`, each only when
      it is present and not zero, and nothing at all when neither is. */
  function PagingQuery(limit: Option<nat>, skip: Option<nat>): string {
    if TruthyNumber(limit) && TruthyNumber(skip) then
      "?limit=" + NumberToString(limit.value) + "&skip=" + NumberToString(skip.value)
    else if TruthyNumber(limit) then "?limit=" + NumberToString(limit.value)
    else if TruthyNumber(skip) then "?skip=" + NumberToString(skip.value)
    else ""
  }

  /** The URL `getAll(q)` requests, by cases: a category parameter selects the
      category endpoint (paged); otherwise a search selects the category
      endpoint when it carries the category prefix and the text search
      endpoint when not (neither paged); otherwise the plain paged list. */
  function ProductsUrl(q: ProductQuery): string {
    if TruthyString(q.category) then
      ApiBase + "/products/category/" + q.category.value + PagingQuery(q.limit, q.skip)
    else if TruthyString(q.search) then
      if StartsWith(q.search.value, CategoryPrefix) then
        ApiBase + "/products/category/" + Trim(ReplaceFirst(q.search.value, CategoryPrefix, ""))
      else
        ApiBase + "/products/search?q=" + q.search.value
    else
      ApiBase + "/products" + PagingQuery(q.limit, q.skip)
  }

  /** One entry of a `URLSearchParams`. Keys and values here are letters and
      digits, which its encoding leaves as they are. */
  datatype SearchParam = SearchParam(key: string, value: string)

  /** `URLSearchParams.toString()`: `key=value` entries joined by `&`. */
  function SerializeParams(ps: seq<SearchParam>): string
    decreases |ps|
  {
    if ps == [] then ""
    else if |ps| == 1 then ps[0].key + "=" + ps[0].value
    else ps[0].key + "=" + ps[0].value + "&" + SerializeParams(ps[1..])
  }

  /** The entries `getAll` collects for the paging parameters. */
  function PagingParams(limit: Option<nat>, skip: Option<nat>): seq<SearchParam> {
    (if TruthyNumber(limit) then [SearchParam("limit", NumberToString(limit.value))] else []) +
    (if TruthyNumber(skip) then [SearchParam("skip", NumberToString(skip.value))] else [])
  }

  /** Serialised and prefixed with `?`, the collected entries are exactly the
      paging query string; they serialise to nothing exactly when it is empty. */
  lemma SerializedPaging(limit: Option<nat>, skip: Option<nat>)
    ensures SerializeParams(PagingParams(limit, skip)) == "" <==> PagingQuery(limit, skip) == ""
    ensures SerializeParams(PagingParams(limit, skip)) != "" ==>
      "?" + SerializeParams(PagingParams(limit, skip)) == PagingQuery(limit, skip)
  {
    var ps := PagingParams(limit, skip);
    if TruthyNumber(limit) && TruthyNumber(skip) {
      var l, k := NumberToString(limit.value), NumberToString(skip.value);
      assert ps == [SearchParam("limit", l), SearchParam("skip", k)];
      SerializedPair(l, k);
    } else if TruthyNumber(limit) {
      assert ps == [SearchParam("limit", NumberToString(limit.value))];
    } else if TruthyNumber(skip) {
      assert ps == [SearchParam("skip", NumberToString(skip.value))];
    } else {
      assert ps == [];
    }
  }

  /** Two entries serialise joined by `&`. */
  lemma SerializedPair(l: string, k: string)
    ensures "?" + SerializeParams([SearchParam("limit", l), SearchParam("skip", k)]) ==
      "?limit=" + l + "&skip=" + k
  {
    var ps := [SearchParam("limit", l), SearchParam("skip", k)];
    assert ps[1..] == [SearchParam("skip", k)];
    assert SerializeParams(ps) == "limit" + "=" + l + "&" + ("skip" + "=" + k);
    assert "?" + "limit" + "=" == "?limit=";
    assert "&" + ("skip" + "=") == "&skip=";
  }

  /** `getAll(params)` up to the request: `url` is reassigned branch by branch
      and the paging parameters are collected in a `URLSearchParams`. */
  method GetAllUrl(q: ProductQuery) returns (url: string)
    ensures url == ProductsUrl(q)
  {
    url := ApiBase + "/products";
    if TruthyString(q.category) {
      url := ApiBase + "/products/category/" + q.category.value;
    } else if TruthyString(q.search) {
      if StartsWith(q.search.value, CategoryPrefix) {
        var categoryName := Trim(ReplaceFirst(q.search.value, CategoryPrefix, ""));
        url := ApiBase + "/products/category/" + categoryName;
      } else {
        url := ApiBase + "/products/search?q=" + q.search.value;
      }
      // the search endpoints take no limit or skip: the request goes out as it is
      return;
    } else {
      url := ApiBase + "/products";
    }
    var queryParams: seq<SearchParam> := [];  // the URLSearchParams
    if TruthyNumber(q.limit) {
      queryParams := queryParams + [SearchParam("limit", NumberToString(q.limit.value))];
    }
    if TruthyNumber(q.skip) {
      queryParams := queryParams + [SearchParam("skip", NumberToString(q.skip.value))];
    }
    var query := SerializeParams(queryParams);
    assert queryParams == PagingParams(q.limit, q.skip);
    SerializedPaging(q.limit, q.skip);
    if query != "" {
      url := url + ("?" + query);
    }
  }

  /** A search of the form `category:c` is sent to the category endpoint for
      `c` without surrounding whitespace, with no query string whatever the
      paging parameters. */
  lemma PrefixedSearchRoutesToCategory(q: ProductQuery, c: string)
    requires !TruthyString(q.category)
    requires q.search == Some(CategoryPrefix + c)
    ensures ProductsUrl(q) == ApiBase + "/products/category/" + Trim(c)
  {
    var s := CategoryPrefix + c;
    assert StartsWith(s, CategoryPrefix);
    ReplaceLeadingPrefix(s, CategoryPrefix);
    assert s[|CategoryPrefix|..] == c;
  }

  /** Any other non-empty search goes to the text search endpoint, verbatim
      and with no query string. */
  lemma TextSearchRoutesToSearch(q: ProductQuery)
    requires !TruthyString(q.category) && TruthyString(q.search)
    requires !StartsWith(q.search.value, CategoryPrefix)
    ensures ProductsUrl(q) == ApiBase + "/products/search?q=" + q.search.value
  {
  }

  /** With a search, the paging parameters make no difference. */
  lemma SearchIgnoresPaging(q: ProductQuery, limit: Option<nat>, skip: Option<nat>)
    requires !TruthyString(q.category) && TruthyString(q.search)
    ensures ProductsUrl(q.(limit := limit, skip := skip)) == ProductsUrl(q)
  {
  }

  /** With no filter the plain list is requested, and with a category
      parameter the category list; both are paged. */
  lemma PagedRoutes(q: ProductQuery)
    requires !TruthyString(q.search) || TruthyString(q.category)
    ensures ProductsUrl(q) ==
      (if TruthyString(q.category) then ApiBase + "/products/category/" + q.category.value
       else ApiBase + "/products") + PagingQuery(q.limit, q.skip)
  {
  }

  /** The paging query string: empty exactly when neither parameter is sent,
      and otherwise starting with `?limit=` when a limit is sent, and ending
      with the skip when one is sent. */
  /** `getAll()` with no parameters requests the plain list, with no query
      string. */
  lemma NoParamsRoute()
    ensures ProductsUrl(NoParams) == ApiBase + "/products"
  {
  }

  lemma PagingQueryShape(limit: Option<nat>, skip: Option<nat>)
    ensures PagingQuery(limit, skip) == "" <==> !TruthyNumber(limit) && !TruthyNumber(skip)
    ensures TruthyNumber(limit) ==>
      StartsWith(PagingQuery(limit, skip), "?limit=" + NumberToString(limit.value))
    ensures TruthyNumber(skip) ==>
      var qs := PagingQuery(limit, skip);
      var tail := "skip=" + NumberToString(skip.value);
      |tail| < |qs| && qs[|qs| - |tail|..] == tail
  {
    var qs := PagingQuery(limit, skip);
    if TruthyNumber(limit) {
      var head := "?limit=" + NumberToString(limit.value);
      assert qs[..|head|] == head;
    }
    if TruthyNumber(skip) {
      var tail := "skip=" + NumberToString(skip.value);
      assert qs[|qs| - |tail|..] == tail;
    }
  }
}
