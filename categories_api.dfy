/** `categoriesApi` of src/lib/api.ts: a category collection kept in one
    persisted slot of the browser's local storage. The first read seeds the
    slot from the remote category list; afterwards every create, update and
    delete reads the collection back, changes it in memory and writes the
    whole collection again. */
module CategoriesApi {
  import opened Wrappers
  import opened Builtins

  datatype Category = Category(id: string, name: string, slug: string)

  /** Why an operation rejects: the remote category list could not be fetched,
      `update` found no record with the id ("Category not found"), or there is
      no local storage to write to (outside a browser). */
  datatype ApiError = FetchFailed | NotFound | StorageUnavailable

  // ================================================================ slugs

  /** `s.replace(/\s+/g, '-')`, scanning from left to right: every maximal
      run of whitespace becomes a single hyphen. `inRun` tells whether the
      character before `s` was whitespace, whose run has already been
      replaced. */
  function Hyphenate(s: string, inRun: bool): (r: string)
    ensures NoWhitespace(r)
    ensures NoUpper(s) ==> NoUpper(r)
    decreases |s|
  {
    if s == [] then []
    else if IsWhitespace(s[0]) then (if inRun then [] else "-") + Hyphenate(s[1..], true)
    else [s[0]] + Hyphenate(s[1..], false)
  }

  function HyphenateWhitespace(s: string): (r: string)
    ensures NoWhitespace(r)
    ensures NoUpper(s) ==> NoUpper(r)
  {
    Hyphenate(s, false)
  }

  /** The slug of a category name: `name.toLowerCase().replace(/\s+/g, '-')`. */
  function Slug(name: string): (r: string)
    ensures NoWhitespace(r) && NoUpper(r)
  {
    HyphenateWhitespace(ToLower(name))
  }

  /** A string without whitespace is left as it is. */
  lemma {:induction false} HyphenateNoWhitespace(s: string, inRun: bool)
    requires NoWhitespace(s)
    ensures Hyphenate(s, inRun) == s
    decreases |s|
  {
    if s != [] {
      HyphenateNoWhitespace(s[1..], false);
    }
  }

  /** The rest of a run that has already been replaced contributes nothing. */
  lemma {:induction false} HyphenateRunTail(w: string)
    requires AllWhitespace(w)
    ensures Hyphenate(w, true) == []
    decreases |w|
  {
    if w != [] {
      HyphenateRunTail(w[1..]);
    }
  }

  /** The scan of a concatenation continues from the state the left part
      left it in. */
  lemma {:induction false} HyphenateSplit(a: string, b: string, inRun: bool)
    ensures Hyphenate(a + b, inRun) ==
      Hyphenate(a, inRun) + Hyphenate(b, if a == [] then inRun else IsWhitespace(a[|a| - 1]))
    decreases |a|
  {
    if a == [] {
      assert a + b == b;
    } else {
      var ab := a + b;
      assert ab[0] == a[0] && ab[1..] == a[1..] + b;
      HyphenateSplit(a[1..], b, IsWhitespace(a[0]));
    }
  }

  /** Whether a run was open makes no difference when no whitespace follows. */
  lemma HyphenateStateIrrelevant(b: string)
    requires b == [] || !IsWhitespace(b[0])
    ensures Hyphenate(b, true) == Hyphenate(b, false)
  {
  }

  /** Lower-casing leaves a string without upper case unchanged. */
  lemma ToLowerNoUpper(s: string)
    requires NoUpper(s)
    ensures ToLower(s) == s
  {
  }

  /** A slug is its own slug. */
  lemma SlugIdempotent(name: string)
    ensures Slug(Slug(name)) == Slug(name)
  {
    var s := Slug(name);
    ToLowerNoUpper(s);
    HyphenateNoWhitespace(s, false);
  }

  lemma ToLowerConcat(a: string, b: string)
    ensures ToLower(a + b) == ToLower(a) + ToLower(b)
  {
  }

  /** Hyphenation works run by run: it distributes over a concatenation
      that does not join two whitespace runs into one. */
  lemma HyphenateConcat(a: string, b: string)
    requires !(a != [] && b != [] && IsWhitespace(a[|a| - 1]) && IsWhitespace(b[0]))
    ensures HyphenateWhitespace(a + b) == HyphenateWhitespace(a) + HyphenateWhitespace(b)
  {
    HyphenateSplit(a, b, false);
    if a != [] && IsWhitespace(a[|a| - 1]) {
      HyphenateStateIrrelevant(b);
    }
  }

  /** A whitespace run on its own hyphenates to one hyphen. */
  lemma HyphenateRun(w: string)
    requires w != [] && AllWhitespace(w)
    ensures HyphenateWhitespace(w) == "-"
  {
    HyphenateRunTail(w[1..]);
  }

  /** A maximal run of whitespace contributes exactly one hyphen. */
  lemma SlugOfWhitespaceRun(w: string)
    requires w != [] && AllWhitespace(w)
    ensures Slug(w) == "-"
  {
    HyphenateRun(ToLower(w));
  }

  /** A stretch without whitespace contributes its lower-case form. */
  lemma SlugOfWord(w: string)
    requires NoWhitespace(w)
    ensures Slug(w) == ToLower(w)
  {
    HyphenateNoWhitespace(ToLower(w), false);
  }

  /** The slug is computed run by run: the slug of a concatenation that does
      not join two whitespace runs is the concatenation of the slugs. */
  lemma SlugConcat(a: string, b: string)
    requires !(a != [] && b != [] && IsWhitespace(a[|a| - 1]) && IsWhitespace(b[0]))
    ensures Slug(a + b) == Slug(a) + Slug(b)
  {
    ToLowerConcat(a, b);
    HyphenateConcat(ToLower(a), ToLower(b));
  }

  /** The slug does not trim: a word with a space at either end keeps a
      hyphen at either end. */
  lemma SlugKeepsOuterSpaces(w: string)
    requires w != [] && NoWhitespace(w)
    ensures Slug(" " + w + " ") == "-" + ToLower(w) + "-"
  {
    var l := ToLower(w);
    assert ToLower(" " + w + " ") == " " + (l + " ");
    assert (l + " ")[0] == l[0];
    HyphenateConcat(" ", l + " ");
    HyphenateConcat(l, " ");
    HyphenateRun(" ");
    HyphenateNoWhitespace(l, false);
  }

  /** A record whose slug is the slug of its name. */
  predicate SlugMatchesName(c: Category) {
    c.slug == Slug(c.name)
  }

  predicate SlugsMatchNames(cs: seq<Category>) {
    forall i :: 0 <= i < |cs| ==> SlugMatchesName(cs[i])
  }

  // ================================================================ seeding

  /** The display name seeded from a remote category string:
      `cat.charAt(0).toUpperCase() + cat.slice(1).replace('-', ' ')`. */
  function SeedName(cat: string): string {
    if cat == [] then [] else [UpperChar(cat[0])] + ReplaceFirst(cat[1..], "-", " ")
  }

  /** The seeded name has the remote string's length, its first character
      upper-cased, and a space in place of the first hyphen after the first
      character; every other character is kept. */
  lemma SeedNameShape(cat: string)
    ensures |SeedName(cat)| == |cat|
    ensures cat != [] ==> SeedName(cat)[0] == UpperChar(cat[0])
    ensures forall k :: 1 <= k < |cat| ==>
      SeedName(cat)[k] == if k == 1 + IndexOf(cat[1..], "-") then ' ' else cat[k]
  {
    if cat != [] {
      ReplaceFirstChar(cat[1..], '-', ' ');
      var n := SeedName(cat);
      forall k | 1 <= k < |cat|
        ensures n[k] == if k == 1 + IndexOf(cat[1..], "-") then ' ' else cat[k]
      {
        assert n[k] == ReplaceFirst(cat[1..], "-", " ")[k - 1];
      }
    }
  }

  /** The seeded record for the remote string at position `index`. */
  function SeedRecord(cat: string, index: nat): Category {
    Category("cat-" + NumberToString(index), SeedName(cat), cat)
  }

  /** `response.data.map((cat, index) => …)`. */
  function Seed(names: seq<string>): seq<Category> {
    seq(|names|, i requires 0 <= i < |names| => SeedRecord(names[i], i))
  }

  /** The seeded records carry pairwise distinct ids. */
  lemma SeedIdsDistinct(names: seq<string>, i: nat, j: nat)
    requires i < |names| && j < |names| && i != j
    ensures Seed(names)[i].id != Seed(names)[j].id
  {
    var a, b := NumberToString(i), NumberToString(j);
    if "cat-" + a == "cat-" + b {
      assert a == ("cat-" + a)[4..];
      NumberToStringInjective(i, j);
    }
  }

  /** Lower-casing the seeded name of a remote string in lower case gives
      back the string, with a space in place of its first hyphen after the
      first character. */
  lemma LowerSeedName(cat: string)
    requires cat != [] && NoUpper(cat)
    ensures var j := IndexOf(cat[1..], "-");
      ToLower(SeedName(cat)) == if j < 0 then cat else cat[..1 + j] + " " + cat[2 + j..]
  {
    var j := IndexOf(cat[1..], "-");
    var u := [UpperChar(cat[0])];
    var rest := ReplaceFirst(cat[1..], "-", " ");
    assert ToLower(u) == [cat[0]];
    ToLowerConcat(u, rest);
    if j < 0 {
      ToLowerNoUpper(cat[1..]);
      assert [cat[0]] + cat[1..] == cat;
    } else {
      var x, y := cat[1..][..j], cat[1..][j + 1..];
      assert rest == x + " " + y;
      assert x == cat[1..1 + j] && y == cat[2 + j..];
      assert NoUpper(rest);
      ToLowerNoUpper(rest);
      assert [cat[0]] + cat[1..1 + j] == cat[..1 + j];
    }
  }

  /** A space in front of a word hyphenates to a hyphen in front of it. */
  lemma HyphenateLeadingSpace(b: string)
    requires NoWhitespace(b)
    ensures HyphenateWhitespace(" " + b) == "-" + b
  {
    HyphenateConcat(" ", b);
    HyphenateRun(" ");
    HyphenateNoWhitespace(b, false);
  }

  /** Two words around one space hyphenate to the words around one hyphen. */
  lemma HyphenateOneSpace(a: string, b: string)
    requires NoWhitespace(a) && NoWhitespace(b)
    ensures HyphenateWhitespace(a + (" " + b)) == a + ("-" + b)
  {
    HyphenateLeadingSpace(b);
    HyphenateConcat(a, " " + b);
    HyphenateNoWhitespace(a, false);
  }

  /** A remote category string in lower case and without whitespace is the
      slug of the name seeded from it. */
  lemma SeedSlugRoundTrip(cat: string)
    requires NoUpper(cat) && NoWhitespace(cat)
    ensures Slug(SeedName(cat)) == cat
  {
    if cat != [] {
      LowerSeedName(cat);
      var j := IndexOf(cat[1..], "-");
      if j < 0 {
        HyphenateNoWhitespace(cat, false);
      } else {
        HyphenAroundSpace(cat, 1 + j);
      }
    }
  }

  /** Replacing the hyphen at `h` by a space and hyphenating gives the
      hyphen back. */
  lemma HyphenAroundSpace(cat: string, h: nat)
    requires NoWhitespace(cat) && h < |cat| && cat[h] == '-'
    ensures HyphenateWhitespace(cat[..h] + " " + cat[h + 1..]) == cat
  {
    var a, b := cat[..h], cat[h + 1..];
    assert cat[..h] + " " + cat[h + 1..] == a + (" " + b);
    HyphenateOneSpace(a, b);
    assert a + ("-" + b) == cat;
  }

  /** Seeding from remote strings in lower case and without whitespace
      gives records whose slugs are the slugs of their names. */
  lemma SeedSlugsMatchNames(names: seq<string>)
    requires forall i :: 0 <= i < |names| ==> NoUpper(names[i]) && NoWhitespace(names[i])
    ensures SlugsMatchNames(Seed(names))
  {
    forall i | 0 <= i < |names| ensures SlugMatchesName(Seed(names)[i]) {
      SeedSlugRoundTrip(names[i]);
    }
  }

  // ================================================================ paging

  /** The optional `params` of `getAll`; `getAll()` is `PageQuery(None, None)`. */
  datatype PageQuery = PageQuery(limit: Option<nat>, skip: Option<nat>)

  /** What `getAll` resolves to. */
  datatype CategoryPage = CategoryPage(categories: seq<Category>, total: nat, skip: nat, limit: nat)

  const DefaultLimit: nat := 10

  /** The answer outside a browser. */
  const EmptyPage := CategoryPage([], 0, 0, DefaultLimit)

  /** Every mutation reads the collection back with `{ limit: 1000, skip: 0 }`. */
  const ReadBackLimit: nat := 1000
  const ReadBackQuery := PageQuery(Some(ReadBackLimit), Some(0))

  /** `limit || 10` and `skip || 0`, then `categories.slice(skip, skip + limit)`. */
  function PageOf(all: seq<Category>, q: PageQuery): CategoryPage {
    var limit := if TruthyNumber(q.limit) then q.limit.value else DefaultLimit;
    var skip := q.skip.GetOr(0);
    CategoryPage(Slice(all, skip, skip + limit), |all|, skip, limit)
  }

  /** A page reports the whole collection's length as its total and holds the
      window of at most `limit` records starting at `skip`; the limit is 10
      when it is absent or 0, and the skip 0 when absent. */
  lemma PageOfWindow(all: seq<Category>, q: PageQuery)
    ensures PageOf(all, q).total == |all|
    ensures PageOf(all, q).limit == (if q.limit.Some? && q.limit.value != 0 then q.limit.value else 10)
    ensures PageOf(all, q).skip == (if q.skip.Some? then q.skip.value else 0)
    ensures var p := PageOf(all, q);
      p.categories == all[Min(p.skip, |all|)..Min(p.skip + p.limit, |all|)] && |p.categories| <= p.limit
  {
    var p := PageOf(all, q);
    var lo, hi := Min(p.skip, |all|), Min(p.skip + p.limit, |all|);
    assert |p.categories| == |all[lo..hi]|;
    forall k | 0 <= k < |p.categories| ensures p.categories[k] == all[lo..hi][k] {
    }
  }

  /** Consecutive pages of the same size tile the collection: the page
      starting where the records before it end continues them. */
  lemma PagesTile(all: seq<Category>, size: nat, start: nat)
    requires size > 0
    ensures Slice(all, 0, start) + PageOf(all, PageQuery(Some(size), Some(start))).categories
         == Slice(all, 0, start + size)
  {
    SliceSplit(all, 0, start, start + size);
  }

  /** What mutations read back: the first 1000 records. */
  function ReadBack(all: seq<Category>): seq<Category> {
    PageOf(all, ReadBackQuery).categories
  }

  lemma ReadBackPrefix(all: seq<Category>)
    ensures ReadBack(all) == all[..Min(ReadBackLimit, |all|)]
    ensures |all| <= ReadBackLimit ==> ReadBack(all) == all
  {
    PageOfWindow(all, ReadBackQuery);
  }

  // ================================================================ records

  /** The record `create` builds: `{ ...category, id: `cat-${now}`, slug }`. */
  function NewCategory(name: string, now: nat): Category {
    Category("cat-" + NumberToString(now), name, Slug(name))
  }

  /** `categories.findIndex(c => c.id === id)`: the first position holding
      the id, or -1. */
  function FindIndex(cs: seq<Category>, id: string): (r: int)
    ensures -1 <= r < |cs|
    ensures r >= 0 ==> cs[r].id == id && forall j :: 0 <= j < r ==> cs[j].id != id
    ensures r < 0 ==> forall j :: 0 <= j < |cs| ==> cs[j].id != id
    decreases |cs|
  {
    if cs == [] then -1
    else if cs[0].id == id then 0
    else
      var k := FindIndex(cs[1..], id);
      if k < 0 then -1 else k + 1
  }

  /** `categories.filter(c => c.id !== id)`. */
  function RemoveId(cs: seq<Category>, id: string): (r: seq<Category>)
    ensures |r| <= |cs|
    ensures forall c :: c in r <==> c in cs && c.id != id
    decreases |cs|
  {
    if cs == [] then []
    else if cs[0].id == id then RemoveId(cs[1..], id)
    else [cs[0]] + RemoveId(cs[1..], id)
  }

  /** Removing an id that no record holds changes nothing. */
  lemma {:induction false} RemoveAbsentId(cs: seq<Category>, id: string)
    requires forall i :: 0 <= i < |cs| ==> cs[i].id != id
    ensures RemoveId(cs, id) == cs
    decreases |cs|
  {
    if cs != [] {
      RemoveAbsentId(cs[1..], id);
    }
  }

  /** Removal keeps the order of what remains: it works piece by piece. */
  lemma {:induction false} RemoveIdConcat(a: seq<Category>, b: seq<Category>, id: string)
    ensures RemoveId(a + b, id) == RemoveId(a, id) + RemoveId(b, id)
    decreases |a|
  {
    if a == [] {
      assert a + b == b;
    } else {
      assert (a + b)[1..] == a[1..] + b;
      RemoveIdConcat(a[1..], b, id);
    }
  }

  /** The fields `update` accepts (`Partial<Category>`); an absent field is None. */
  datatype CategoryPatch = CategoryPatch(id: Option<string>, name: Option<string>, slug: Option<string>)

  /** `{ ...c, ...patch }`: each field present in the patch replaces the
      record's. */
  function Overlay(c: Category, p: CategoryPatch): Category {
    Category(p.id.GetOr(c.id), p.name.GetOr(c.name), p.slug.GetOr(c.slug))
  }

  /** The record `update` writes: the overlay, then, when the patch carries a
      non-empty name, the slug recomputed from it. */
  function Patched(c: Category, p: CategoryPatch): Category {
    var merged := Overlay(c, p);
    if TruthyString(p.name) then merged.(slug := Slug(p.name.value)) else merged
  }

  /** The slug is recomputed exactly when the patch carries a non-empty name;
      otherwise it is the patch's slug, or else the old one. The id and name
      are the patch's when given and the old ones when not. */
  lemma PatchedFields(c: Category, p: CategoryPatch)
    ensures Patched(c, p).id == (if p.id.Some? then p.id.value else c.id)
    ensures Patched(c, p).name == (if p.name.Some? then p.name.value else c.name)
    ensures TruthyString(p.name) ==> Patched(c, p).slug == Slug(p.name.value)
    ensures !TruthyString(p.name) ==> Patched(c, p).slug == (if p.slug.Some? then p.slug.value else c.slug)
  {
  }

  /** A patch without a slug and without an empty name keeps the record's
      slug the slug of its name. */
  lemma PatchedKeepsSlug(c: Category, p: CategoryPatch)
    requires SlugMatchesName(c)
    requires p.slug.None? && (p.name.None? || TruthyString(p.name))
    ensures SlugMatchesName(Patched(c, p))
  {
  }

  /** A patch with an empty name replaces the name but keeps the old slug. */
  lemma EmptyNameKeepsStaleSlug(c: Category)
    requires SlugMatchesName(c) && Slug(c.name) != ""
    ensures !SlugMatchesName(Patched(c, CategoryPatch(None, Some(""), None)))
  {
    assert Slug("") == "";
  }

  // ================================================================ the store

  /** What a read finds: the stored collection, or, for an empty slot, the
      one seeded from the remote list when that list could be fetched. */
  function Loaded(stored: Option<seq<Category>>, remote: Option<seq<string>>): Option<seq<Category>> {
    match stored
    case Some(cs) => Some(cs)
    case None => if remote.Some? then Some(Seed(remote.value)) else None
  }

  /** The local category store. The remote category list, which only a read
      of an empty slot fetches, is passed to each operation as `remote` (None
      when the fetch fails); the clock reading of `create` as `now`. */
  class CategoryStore {
    /** Whether the code runs in a browser (`typeof window !== 'undefined'`),
        where local storage exists. */
    const inBrowser: bool
    /** The persisted `'categories'` slot; None until first written. */
    var stored: Option<seq<Category>>

    constructor (inBrowser: bool)
      ensures this.inBrowser == inBrowser && stored == None
    {
      this.inBrowser := inBrowser;
      stored := None;
    }

    /** `getAll(params)`. `fetched` tells whether the remote list was asked
        for: once the slot holds a collection (even an empty one) it never is
        again. */
    method GetAll(q: PageQuery, remote: Option<seq<string>>) returns (r: Result<CategoryPage, ApiError>, fetched: bool)
      modifies this
      ensures fetched == (inBrowser && old(stored).None?)
      ensures !inBrowser ==> r == Ok(EmptyPage) && stored == old(stored)
      ensures inBrowser ==> stored == Loaded(old(stored), remote)
      ensures old(stored).Some? ==> stored == old(stored)
      ensures inBrowser ==>
        r == if stored.Some? then Ok(PageOf(stored.value, q)) else Err(FetchFailed)
    {
      if !inBrowser {
        return Ok(EmptyPage), false;
      }
      var categories: seq<Category>;
      fetched := stored.None?;
      if stored.None? {
        if remote.None? {
          return Err(FetchFailed), true;
        }
        categories := Seed(remote.value);
        stored := Some(categories);
      } else {
        categories := stored.value;
      }
      r := Ok(PageOf(categories, q));
    }

    /** `create({ name })`: the collection read back, with the new record
        appended, is written, and the new record returned. */
    method Create(name: string, now: nat, remote: Option<seq<string>>) returns (r: Result<Category, ApiError>)
      modifies this
      ensures !inBrowser ==> r == Err(StorageUnavailable) && stored == old(stored)
      ensures inBrowser && Loaded(old(stored), remote).None? ==>
        r == Err(FetchFailed) && stored == old(stored)
      ensures inBrowser && Loaded(old(stored), remote).Some? ==>
        r == Ok(NewCategory(name, now)) &&
        stored == Some(ReadBack(Loaded(old(stored), remote).value) + [NewCategory(name, now)])
    {
      var first, _ := GetAll(PageQuery(None, None), remote);
      if first.Err? {
        return Err(first.error);
      }
      var allCategories, _ := GetAll(ReadBackQuery, remote);
      assert allCategories.Ok?;
      var newCategory := NewCategory(name, now);
      var updated := allCategories.value.categories + [newCategory];
      if !inBrowser {
        // localStorage.setItem throws where there is no local storage
        return Err(StorageUnavailable);
      }
      stored := Some(updated);
      r := Ok(newCategory);
    }

    /** `update(id, patch)`: rejects with NotFound when no record read back
        holds the id, writing nothing beyond what the read itself seeded;
        otherwise writes the collection read back with the first record of
        that id patched, and returns that record. */
    method Update(id: string, patch: CategoryPatch, remote: Option<seq<string>>) returns (r: Result<Category, ApiError>)
      modifies this
      ensures !inBrowser ==> r == Err(NotFound) && stored == old(stored)
      ensures inBrowser && Loaded(old(stored), remote).None? ==>
        r == Err(FetchFailed) && stored == old(stored)
      ensures inBrowser && Loaded(old(stored), remote).Some? ==>
        var cur := ReadBack(Loaded(old(stored), remote).value);
        var i := FindIndex(cur, id);
        if i < 0 then r == Err(NotFound) && stored == Loaded(old(stored), remote)
        else r == Ok(Patched(cur[i], patch)) && stored == Some(cur[i := Patched(cur[i], patch)])
    {
      var result, _ := GetAll(ReadBackQuery, remote);
      if result.Err? {
        return Err(result.error);
      }
      var categories := result.value.categories;
      var index := FindIndex(categories, id);
      if index == -1 {
        return Err(NotFound);
      }
      var updated := categories;
      updated := updated[index := Overlay(updated[index], patch)];
      if TruthyString(patch.name) {
        updated := updated[index := updated[index].(slug := Slug(patch.name.value))];
      }
      assert updated == categories[index := Patched(categories[index], patch)];
      stored := Some(updated);
      r := Ok(updated[index]);
    }

    /** `delete(id)`: writes the collection read back without the records of
        that id. */
    method Delete(id: string, remote: Option<seq<string>>) returns (r: Result<(), ApiError>)
      modifies this
      ensures !inBrowser ==> r == Err(StorageUnavailable) && stored == old(stored)
      ensures inBrowser && Loaded(old(stored), remote).None? ==>
        r == Err(FetchFailed) && stored == old(stored)
      ensures inBrowser && Loaded(old(stored), remote).Some? ==>
        r == Ok(()) && stored == Some(RemoveId(ReadBack(Loaded(old(stored), remote).value), id))
    {
      var result, _ := GetAll(ReadBackQuery, remote);
      if result.Err? {
        return Err(result.error);
      }
      var filtered := RemoveId(result.value.categories, id);
      if !inBrowser {
        return Err(StorageUnavailable);
      }
      stored := Some(filtered);
      r := Ok(());
    }
  }

  // ================================================================ the mutations' effect

  /** Create on a collection of n records leaves the first min(1000, n) of
      them, in order, then the new record; so on up to 1000 records it
      appends. */
  lemma CreateAppends(all: seq<Category>, name: string, now: nat)
    ensures var after := ReadBack(all) + [NewCategory(name, now)];
      |after| == Min(ReadBackLimit, |all|) + 1 &&
      (forall i :: 0 <= i < |after| - 1 ==> after[i] == all[i]) &&
      after[|after| - 1].slug == Slug(name) &&
      (|all| <= ReadBackLimit ==> after == all + [NewCategory(name, now)])
  {
    ReadBackPrefix(all);
  }

  /** Update changes only the first record holding the id: the length and
      every other position of what was read back are kept. */
  lemma UpdateChangesOnlyItsIndex(all: seq<Category>, id: string, p: CategoryPatch)
    requires FindIndex(ReadBack(all), id) >= 0
    ensures var cur := ReadBack(all);
      var i := FindIndex(cur, id);
      var after := cur[i := Patched(cur[i], p)];
      |after| == |cur| && after[i] == Patched(cur[i], p) &&
      (forall j :: 0 <= j < i ==> cur[j].id != id) &&
      (forall j :: 0 <= j < |after| && j != i ==> after[j] == all[j])
  {
    ReadBackPrefix(all);
  }

  /** Delete of an id no record holds leaves a collection of at most 1000
      records exactly as it was. */
  lemma DeleteAbsentIdIsNoOp(all: seq<Category>, id: string)
    requires |all| <= ReadBackLimit
    requires forall i :: 0 <= i < |all| ==> all[i].id != id
    ensures RemoveId(ReadBack(all), id) == all
  {
    ReadBackPrefix(all);
    RemoveAbsentId(all, id);
  }

  /** Every mutation writes back at most 1000 of the old records: on a larger
      collection, even a delete of an absent id loses the rest. */
  lemma MutationsTruncate(all: seq<Category>, id: string)
    requires |all| > ReadBackLimit
    ensures |RemoveId(ReadBack(all), id)| < |all|
    ensures RemoveId(ReadBack(all), id) != all
  {
    ReadBackPrefix(all);
  }

  /** The mutations keep every slug the slug of its record's name, update
      provided its patch carries no slug and no empty name. */
  lemma MutationsKeepSlugs(all: seq<Category>, name: string, now: nat, id: string, p: CategoryPatch)
    requires SlugsMatchNames(all)
    ensures SlugsMatchNames(ReadBack(all) + [NewCategory(name, now)])
    ensures SlugsMatchNames(RemoveId(ReadBack(all), id))
    ensures p.slug.None? && (p.name.None? || TruthyString(p.name)) && FindIndex(ReadBack(all), id) >= 0 ==>
      var cur := ReadBack(all);
      SlugsMatchNames(cur[FindIndex(cur, id) := Patched(cur[FindIndex(cur, id)], p)])
  {
    ReadBackPrefix(all);
    var rest := RemoveId(ReadBack(all), id);
    forall i | 0 <= i < |rest| ensures SlugMatchesName(rest[i]) {
      assert rest[i] in ReadBack(all);
    }
  }
}
