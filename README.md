# Admin dashboard data layer, modelled in Dafny

The admin dashboard manages a product catalogue and a list of categories.
Products live on the remote DummyJSON service. Categories live in one slot
of the browser's local storage. This project models the logic that sits
between the pages and those two back ends, and proves what it promises.

- `wrappers.dfy`, module `Wrappers`: `Option` and `Result`.
- `builtins.dfy`, module `Builtins`: the JavaScript primitives the code
  relies on, over ASCII. These are `toLowerCase`, `toUpperCase`, `indexOf`,
  `replace` with a string pattern, `trimStart`, `trimEnd`, `trim`, `slice`,
  `startsWith` and `Number.prototype.toString` on natural numbers.
- `products_api.dfy`, module `ProductsApi`: the routing in
  `productsApi.getAll`, which turns list parameters into the URL that is
  requested. `GetAllUrl` follows the imperative code: it reassigns the URL
  and builds a `URLSearchParams`. It is proved equal to the declarative
  routing function `ProductsUrl`.
- `categories_api.dfy`, module `CategoriesApi`: the category store. It
  covers:
  - the slug normaliser
  - the name derived from each seeded remote string
  - paging
  - the class `CategoryStore`, whose field `stored` is the persisted slot
    and whose methods are `getAll`, `create`, `update` and `delete`
  - the effect of each mutation on the collection
- `products_page.dfy`, module `ProductsPage`: the products page. It covers:
  - the class `ProductsPage`, holding the list state that `fetchProducts`
    writes
  - the event handlers, passing the `"all"` sentinel on as "no filter"
  - client-side windowing of filtered results
  - the page count of the pagination control
- `sidebar.dfy`, module `Sidebar`: the rule that decides which navigation
  item is highlighted.

Whatever comes from outside the model is a parameter:
- A remote response is `Some(value)`, or `None` when the request fails.
- The clock reading of `create` is the natural number `now`.
- Whether the code runs in a browser is the `inBrowser` field of the store.

The model follows the code in two places where a reader might expect
something else:
- **Slugs are not trimmed.** A name with whitespace at either end gets a
  hyphen at either end. For example, `" Home   Decor "` becomes
  `"-home-decor-"`, not `"home-decor"`.
- **Every mutation reads back only the first 1000 records** before it writes
  the collection again.

## Model

| member | source | states |
|---|---|---|
| `Builtins.ToLower` | src/lib/api.ts:108 | lower-casing keeps the length and maps each character on its own |
| `Builtins.LowerChar` | src/lib/api.ts:108 | one character's `toLowerCase`: the result is never A-Z, a character outside A-Z is kept, and whitespace stays whitespace |
| `Builtins.UpperChar` | src/lib/api.ts:79 | one character's `toUpperCase`: the result is never a-z, a character outside a-z is kept, whitespace stays whitespace, and lower-casing the result gives back any character that was not A-Z |
| `Builtins.StartsWith` | src/lib/api.ts:20 | definition of `startsWith`: the prefix fits and the string's first characters are the prefix; what it implies is stated in `ReplaceLeadingPrefix`, `Sidebar.NonRootPrefix` and `Sidebar.PrefixChar` |
| `Builtins.ReplaceFirst` | src/lib/api.ts:21 | definition of `replace` with a string pattern and a replacement without `$`: the pattern's first occurrence, found by `IndexOf`, is replaced, and a string without one is returned unchanged; its effect on the two call sites is stated in `ReplaceLeadingPrefix` and `ReplaceFirstChar` |
| `Builtins.IndexOf` | src/lib/api.ts:21 | the result is the first position where the pattern occurs, or -1 when it occurs nowhere |
| `Builtins.ReplaceLeadingPrefix` | src/lib/api.ts:21 | `replace(prefix, '')` on a string that starts with the prefix leaves exactly the rest |
| `Builtins.ReplaceFirstChar` | src/lib/api.ts:79 | `replace('-', ' ')` keeps the length and changes the first hyphen and no other position |
| `Builtins.TrimStart` | src/lib/api.ts:21 | the result is a suffix whose dropped prefix is all whitespace and which does not start with whitespace |
| `Builtins.TrimEnd` | src/lib/api.ts:21 | the result is a prefix whose dropped suffix is all whitespace and which does not end with whitespace |
| `Builtins.Trim` | src/lib/api.ts:21 | the result is an infix with only whitespace on both sides, and neither end of it is whitespace |
| `Builtins.Slice` | src/lib/api.ts:90 | length `max(0, min(end, n) - start)`; element k is element `start + k` of the input |
| `Builtins.SliceSplit` | src/lib/api.ts:90 | two adjacent windows together are the window they span |
| `Builtins.NumberToString` | src/lib/api.ts:35-36 | a non-empty string of decimal digits with no leading zero |
| `Builtins.DecimalRoundTrip` | src/lib/api.ts:35-36 | reading the printed digits back gives the number |
| `Builtins.NumberToStringInjective` | src/lib/api.ts:78 | distinct numbers print differently |
| `ProductsApi.GetAllUrl` | src/lib/api.ts:14-40 | the URL built step by step equals the routing function: a category parameter goes to the paged category endpoint; a `category:` search goes to the category endpoint, a plain search to the search endpoint, neither paged; otherwise `/products`, paged |
| `ProductsApi.ProductsUrl` | src/lib/api.ts:14-40 | the declarative routing of `getAll`: a category parameter wins, then a search (a `category:` prefix being a category), then the plain list; properties in `GetAllUrl`, `PrefixedSearchRoutesToCategory`, `TextSearchRoutesToSearch`, `SearchIgnoresPaging` and `PagedRoutes` |
| `ProductsApi.PagingQuery` | src/lib/api.ts:34-40 | the `?limit=…&skip=…` suffix, empty when no parameter is truthy; properties in `SerializedPaging` and `PagingQueryShape` |
| `ProductsApi.PagingParams` | src/lib/api.ts:34-36 | the parameters appended in order, `limit` then `skip`, each only when truthy; properties in `SerializedPaging` |
| `ProductsApi.SerializeParams` | src/lib/api.ts:38-39 | `URLSearchParams.toString`: `name=value` pairs joined by `&`; properties in `SerializedPaging` and `SerializedPair` |
| `ProductsApi.SerializedPaging` | src/lib/api.ts:34-40 | the collected parameters serialise to nothing exactly when no paging is sent, and otherwise, after a `?`, to `?limit=L&skip=S` with the zero parts left out |
| `ProductsApi.PrefixedSearchRoutesToCategory` | src/lib/api.ts:20-22 | without a category parameter, the search `category:` + c requests `/products/category/` + trim(c), with no query string |
| `ProductsApi.TextSearchRoutesToSearch` | src/lib/api.ts:23-26 | any other non-empty search requests `/products/search?q=` followed by the search text as given |
| `ProductsApi.SearchIgnoresPaging` | src/lib/api.ts:27-29 | with a search and no category parameter, `limit` and `skip` make no difference |
| `ProductsApi.PagedRoutes` | src/lib/api.ts:16-40 | the category parameter branch and the plain branch both append the paging query |
| `ProductsApi.NoParamsRoute` | src/lib/api.ts:14-43 | `getAll()` with no parameters requests `/products` with no query string |
| `ProductsApi.PagingQueryShape` | src/lib/api.ts:34-40 | the paging query is empty exactly when limit and skip are both absent or zero; `limit` comes first and `skip` last |
| `CategoriesApi.Hyphenate` | src/lib/api.ts:108 | the left-to-right scan of `replace(/\s+/g, '-')`, given whether a whitespace run is already open, leaves no whitespace and adds no upper-case letter |
| `CategoriesApi.HyphenateSplit` | src/lib/api.ts:108 | the scan of a concatenation is the scan of the left part, followed by the scan of the right part continued from the state the left part ends in |
| `CategoriesApi.HyphenateRunTail` | src/lib/api.ts:108 | the rest of a whitespace run that has already been replaced contributes nothing |
| `CategoriesApi.HyphenateStateIrrelevant` | src/lib/api.ts:108 | an open run makes no difference when no whitespace follows |
| `CategoriesApi.HyphenateWhitespace` | src/lib/api.ts:108 | `replace(/\s+/g, '-')` leaves no whitespace and adds no upper-case letter |
| `CategoriesApi.Slug` | src/lib/api.ts:108 | a slug has no whitespace and no upper-case letter |
| `CategoriesApi.HyphenateNoWhitespace` | src/lib/api.ts:108 | a string without whitespace is left as it is |
| `CategoriesApi.HyphenateRun` | src/lib/api.ts:108 | a whole whitespace run becomes one hyphen |
| `CategoriesApi.HyphenateConcat` | src/lib/api.ts:108 | hyphenation works run by run: it distributes over a concatenation that does not join two whitespace runs |
| `CategoriesApi.SlugIdempotent` | src/lib/api.ts:108 | a slug is its own slug |
| `CategoriesApi.SlugOfWhitespaceRun` | src/lib/api.ts:108 | a maximal whitespace run contributes exactly one hyphen to the slug |
| `CategoriesApi.SlugOfWord` | src/lib/api.ts:108 | a stretch without whitespace contributes its lower-case form |
| `CategoriesApi.SlugConcat` | src/lib/api.ts:108 | the slug of a concatenation that does not join two whitespace runs is the concatenation of the slugs |
| `CategoriesApi.SlugKeepsOuterSpaces` | src/lib/api.ts:108 | nothing is trimmed: a word padded with single spaces gets a hyphen at either end |
| `CategoriesApi.SeedName` | src/lib/api.ts:79 | the seeded display name: first character upper-cased, then the rest with its first hyphen replaced by a space; properties in `SeedNameShape`, `LowerSeedName` and `SeedSlugRoundTrip` |
| `CategoriesApi.SeedRecord` | src/lib/api.ts:77-81 | the record seeded from the remote string at an index: id `cat-<index>`, the seeded name, and the remote string as slug; properties in `SeedIdsDistinct` and `SeedSlugRoundTrip` |
| `CategoriesApi.Seed` | src/lib/api.ts:77-81 | the seeded collection, one record per remote string in order; properties in `SeedIdsDistinct` and `SeedSlugsMatchNames` |
| `CategoriesApi.SeedNameShape` | src/lib/api.ts:79 | the seeded name keeps the length, upper-cases the first character, turns the first hyphen after it into a space and keeps every other character |
| `CategoriesApi.LowerSeedName` | src/lib/api.ts:79 | lower-casing the seeded name of a lower-case string gives the string back, with its first hyphen after the first character replaced by a space |
| `CategoriesApi.SeedIdsDistinct` | src/lib/api.ts:77-78 | the seeded ids `cat-<index>` are pairwise distinct |
| `CategoriesApi.SeedSlugRoundTrip` | src/lib/api.ts:77-81 | for a remote string in lower case with no whitespace, the slug of the seeded name is the string, which is the seeded slug |
| `CategoriesApi.SeedSlugsMatchNames` | src/lib/api.ts:77-81 | for such remote strings, every seeded record's slug is the slug of its name |
| `CategoriesApi.PageOf` | src/lib/api.ts:87-97 | the page `getAll` returns from a collection; properties in `PageOfWindow` and `PagesTile` |
| `CategoriesApi.PageOfWindow` | src/lib/api.ts:87-97 | total is the collection length; the limit is 10 when absent or 0; the skip is 0 when absent; the page is the window from skip, of at most limit records |
| `CategoriesApi.PagesTile` | src/lib/api.ts:88-90 | consecutive pages of one size tile the collection |
| `CategoriesApi.ReadBack` | src/lib/api.ts:104 | what every mutation reads back, the page `{ limit: 1000, skip: 0 }`; properties in `ReadBackPrefix`, `CreateAppends`, `DeleteAbsentIdIsNoOp` and `MutationsTruncate` |
| `CategoriesApi.ReadBackPrefix` | src/lib/api.ts:104 | the `{ limit: 1000, skip: 0 }` read-back is the first min(1000, n) records, and the whole collection when n is at most 1000 |
| `CategoriesApi.NewCategory` | src/lib/api.ts:105-109 | the record `create` builds: the given name, id `cat-<now>`, and the slug of the name; properties in `CategoryStore.Create`, `CreateAppends` and `MutationsKeepSlugs` |
| `CategoriesApi.FindIndex` | src/lib/api.ts:118 | the result is the first position holding the id, or -1 when there is none |
| `CategoriesApi.RemoveId` | src/lib/api.ts:134 | exactly the records with another id remain |
| `CategoriesApi.RemoveAbsentId` | src/lib/api.ts:134 | filtering out an id no record holds changes nothing |
| `CategoriesApi.RemoveIdConcat` | src/lib/api.ts:134 | filtering works piece by piece, so what remains keeps its order |
| `CategoriesApi.Overlay` | src/lib/api.ts:122 | the spread `{ ...record, ...patch }`: a field the patch carries replaces the record's; properties in `PatchedFields` |
| `CategoriesApi.Patched` | src/lib/api.ts:122-125 | the record `update` writes: the overlay, with the slug recomputed when the patch carries a non-empty name; properties in `PatchedFields`, `PatchedKeepsSlug` and `EmptyNameKeepsStaleSlug` |
| `CategoriesApi.Loaded` | src/lib/api.ts:71-85 | what a read finds: the stored collection, or for an empty slot the seed of the remote list, or nothing when that fetch fails; used in the contracts of `CategoryStore.GetAll`, `Create`, `Update` and `Delete` |
| `CategoriesApi.PatchedFields` | src/lib/api.ts:122-125 | the id and name come from the patch when given and are kept otherwise; the slug is recomputed from the patch name exactly when that name is non-empty, and is otherwise the patch's slug or the old one |
| `CategoriesApi.PatchedKeepsSlug` | src/lib/api.ts:122-125 | a patch with no slug and no empty name keeps a record's slug equal to the slug of its name |
| `CategoriesApi.EmptyNameKeepsStaleSlug` | src/lib/api.ts:123-125 | a patch with an empty name replaces the name but keeps the old slug |
| `CategoriesApi.CategoryStore.constructor` | src/lib/api.ts:71-72 | the slot starts empty |
| `CategoriesApi.CategoryStore.GetAll` | src/lib/api.ts:69-98 | outside a browser: the empty page, nothing stored. In a browser: an empty slot is seeded once from the remote list, and a failed fetch rejects; a slot holding any collection, even an empty one, is neither fetched nor changed; the result is the page of the stored collection |
| `CategoriesApi.CategoryStore.Create` | src/lib/api.ts:101-113 | the new collection is the read-back followed by the new record, with id `cat-<now>` and the slug of its name; that record is returned; a failed fetch or missing storage writes nothing |
| `CategoriesApi.CategoryStore.Update` | src/lib/api.ts:115-129 | an id not in the read-back rejects with NotFound and writes nothing beyond the seeding of the read; otherwise only the first record with that id is patched and returned |
| `CategoriesApi.CategoryStore.Delete` | src/lib/api.ts:131-136 | the new collection is the read-back without the records of that id |
| `CategoriesApi.CreateAppends` | src/lib/api.ts:101-112 | after create, the collection holds the first min(1000, n) old records in order, then the new record; on at most 1000 records create appends |
| `CategoriesApi.UpdateChangesOnlyItsIndex` | src/lib/api.ts:116-128 | update keeps the length and every position except the first with the id |
| `CategoriesApi.DeleteAbsentIdIsNoOp` | src/lib/api.ts:131-136 | deleting an absent id leaves a collection of at most 1000 records unchanged |
| `CategoriesApi.MutationsTruncate` | src/lib/api.ts:131-136 | on more than 1000 records, even a delete of an absent id loses records |
| `CategoriesApi.MutationsKeepSlugs` | src/lib/api.ts:101-136 | create, delete, and an update whose patch has no slug and no empty name keep every slug equal to the slug of its name |
| `ProductsPage.CategoryToSearch` | src/app/products/page.tsx:107 | the filter is empty exactly for `"all"` or an empty selection, and is the selection otherwise |
| `ProductsPage.PageSkip` | src/app/products/page.tsx:40 | the products before a page, `(page - 1) * 10`; properties in `WindowShape` and `EveryProductOnItsPage` |
| `ProductsPage.Filtered` | src/app/products/page.tsx:34 | a fetch filters on the client exactly when the search or the category is a non-empty string; properties in `AllIsUnfiltered`, `FilteredFetchShowsWindow` and `PlainFetchUsesServerPage` |
| `ProductsPage.FetchQuery` | src/app/products/page.tsx:34-52 | the parameters `fetchProducts` passes to `getAll`; properties in `PlainRequest`, `CategorySelectionRoute`, `CategoryWinsOverSearch` and `SearchTextRoute` |
| `ProductsPage.Window` | src/app/products/page.tsx:40-41 | the ten products a page shows of a full result; properties in `WindowShape`, `EveryProductOnItsPage` and `OfferedPagesNonEmpty` |
| `ProductsPage.Fetched` | src/app/products/page.tsx:34-65 | the list state after a fetch settles; properties in `FailedFetchKeepsList`, `FilteredFetchShowsWindow`, `PlainFetchUsesServerPage` and the contracts of the `ProductsPage` handlers |
| `ProductsPage.PageCount` | src/app/products/page.tsx:253-257 | pagination is shown exactly when there is at least one item, and then the page count is the ceiling of items / 10 |
| `ProductsPage.ProductsPage.constructor` | src/app/products/page.tsx:18-27 | empty list, loading, no search text, category `"all"`, page 1, no items |
| `ProductsPage.ProductsPage.FetchProducts` | src/app/products/page.tsx:30-66 | requests the URL of the derived query; a success sets the shown list, the count and the page as `Fetched` states; a failure changes no list state; loading ends false |
| `ProductsPage.ProductsPage.Mount` | src/app/products/page.tsx:77-80 | the first fetch is `fetchProducts()` with no arguments |
| `ProductsPage.ProductsPage.SetSearchQuery` | src/app/products/page.tsx:217 | typing only records the text |
| `ProductsPage.ProductsPage.HandleSearch` | src/app/products/page.tsx:106-109 | fetches page 1 with the current text and the selected category, `"all"` meaning none |
| `ProductsPage.ProductsPage.HandleCategoryChange` | src/app/products/page.tsx:111-115 | records the selection and fetches its page 1 with the current text |
| `ProductsPage.ProductsPage.HandlePageChange` | src/app/products/page.tsx:117-120 | fetches the given page with the current filters |
| `ProductsPage.ProductsPage.RefreshAfterMutation` | src/app/products/page.tsx:122-177 | after a successful create, update or delete, the list is fetched again with the same filters and the current page; after a failure nothing changes |
| `ProductsPage.WindowShape` | src/app/products/page.tsx:38-41 | a window holds at most 10 products, those after the skipped pages, in order |
| `ProductsPage.EveryProductOnItsPage` | src/app/products/page.tsx:40-41 | product i of a filtered result is shown at position i mod 10 of page i / 10 + 1, and the pagination control offers that page |
| `ProductsPage.OfferedPagesNonEmpty` | src/app/products/page.tsx:40-41 | every page the pagination control offers for a filtered result shows at least one product |
| `ProductsPage.FailedFetchKeepsList` | src/app/products/page.tsx:57-65 | a failed fetch leaves the list, the count and the page unchanged |
| `ProductsPage.FilteredFetchShowsWindow` | src/app/products/page.tsx:34-45 | a filtered success shows at most 10 products, those of the full result after the skipped pages; it counts the full result and moves to the page asked for |
| `ProductsPage.PlainFetchUsesServerPage` | src/app/products/page.tsx:46-56 | an unfiltered success shows the server's page, uses the server's total, and moves to the page asked for |
| `ProductsPage.PlainRequest` | src/app/products/page.tsx:47-52 | an unfiltered fetch requests `/products?limit=10&skip=<(page-1)*10>`; page 1 sends no skip, because a zero skip is not sent |
| `ProductsPage.AllIsUnfiltered` | src/app/products/page.tsx:107 | the sentinel with an empty search box, and the first fetch, are unfiltered |
| `ProductsPage.CategorySelectionRoute` | src/app/products/page.tsx:36-37 | selecting a category c other than `"all"` requests `/products/category/` + trim(c), whatever the text and page |
| `ProductsPage.CategoryWinsOverSearch` | src/app/products/page.tsx:34-37 | a category filter makes the search text and the page irrelevant to the request |
| `ProductsPage.SearchTextRoute` | src/app/products/page.tsx:34-37 | with no category, non-empty search text goes to the search endpoint as typed, but text that starts with `category:` is taken as a category |
| `Sidebar.IsActive` | src/components/sidebar.tsx:27 | the highlight rule: the path equals the href, or the href is not `/` and is a prefix of the path; properties in `ExactMatchActive`, `RootOnlyExact`, `NonRootPrefix`, `AtMostOneActive` and `PrefixChar` |
| `Sidebar.PrefixChar` | src/components/sidebar.tsx:27 | a path on which a non-root item is active has that item's characters at the item's positions |
| `Sidebar.ActiveFlags` | src/components/sidebar.tsx:26-27 | one highlight per navigation item in order, each true exactly when that item is active |
| `Sidebar.ExactMatchActive` | src/components/sidebar.tsx:27 | an item is active on its own path |
| `Sidebar.RootOnlyExact` | src/components/sidebar.tsx:27 | the Dashboard item `/` is active exactly on `/` |
| `Sidebar.NonRootPrefix` | src/components/sidebar.tsx:27 | any other item is active exactly when its href is a string prefix of the path |
| `Sidebar.ProductsPrefixActivates` | src/components/sidebar.tsx:27 | `/productsX` activates Products alone, since there is no segment check |
| `Sidebar.UnknownPathActivatesNone` | src/components/sidebar.tsx:8-27 | `/settings` activates no item |
| `Sidebar.AtMostOneActive` | src/components/sidebar.tsx:8-27 | no two of the three items are active on the same path |

## Left out

- HTTP requests: `productsApi.getAll` is modelled up to the URL it requests. Its response, and that of the remote category list, are parameters.
- `productsApi.getById`, `create`, `update` and `delete`: each is a single HTTP call whose effect lives on the remote service.
- Local storage and JSON: the slot is the field `stored`, and reading and writing it is assignment.
- CategoriesApi.CategoryStore.GetAll, Create, Update, Delete: in a browser, `localStorage.getItem` and `setItem` can throw, when storage is blocked or its quota is full (src/lib/api.ts:71, 82, 111, 127, 135). The model lets every in-browser read and write succeed, so it has no rejection for them.
- Builtins.ReplaceFirst: the replacement is inserted literally. JavaScript's `$` patterns in a replacement string (`$&`, `$1` and the like) are not modelled. Both call sites pass `''` or `' '`, which contain none.
- Builtins.NumberToString: prints every natural number as plain decimal digits. JavaScript prints numbers from 1e21 on in exponent form and cannot represent every integer above 2^53 exactly. No call site gets near either bound: the values are `Date.now()`, seed indexes and page skips.
- A stored value that is not valid JSON, and what `JSON.parse` makes of it.
- `Date.now()`: it is the parameter `now`. The model does not claim the ids it produces are unique.
- Unicode: case mapping covers only A-Z and a-z. Whitespace is the ASCII part of `\s`: space, tab, line feed, vertical tab, form feed, carriage return.
- URL encoding by `URLSearchParams`: the paging values are digits, which it leaves as they are.
- Numbers outside the natural numbers: negative, fractional or NaN `limit` and `skip`. Page numbers below 1, which no handler passes.
- React rendering, the dialogs and forms, the toasts, and the edit state.
- The category refresh of the products page: `fetchCategories` and its focus and visibility listeners.
- Interleaving of concurrent requests, and other tabs writing the same slot.
- `src/lib/validations.ts`, the categories page and the mobile sidebar: the last two repeat the paging formula and the active-item rule modelled here.
