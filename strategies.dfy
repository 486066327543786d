/**
 * The six ways the book-creation handler patches the cache, each as a function from the cache before the
 * patch to the cache after it, and what each one does to every cached `books(filter)` view.
 */
module Strategies {
  import opened Wrappers
  import opened Domain
  import opened ViewUpdates

  /** The part of the normalised cache the handler touches: books by id, and each `books(filter)` result as references. */
  datatype Store = Store(entities: map<BookId, Book>, views: map<FilterKey, seq<BookId>>)

  /** The list a cached query holds, or `None` when that query was never cached. */
  function Lookup(views: map<FilterKey, seq<BookId>>, key: FilterKey): (r: Option<seq<BookId>>)
    ensures r.Some? <==> key in views
    ensures key in views ==> r.value == views[key]
  {
    if key in views then Some(views[key]) else None
  }

  /** `n` copies of the reference `id`. */
  function Repeat(id: BookId, n: nat): (r: seq<BookId>)
    ensures |r| == n && forall i :: 0 <= i < n ==> r[i] == id
  {
    if n == 0 then [] else Repeat(id, n - 1) + [id]
  }

  // ---------------------------------------------------------------------------------------------------
  // Approaches 1 and 2: read or update the unfiltered query, write it back with the book appended.

  /**
   * Only the unfiltered view changes: it becomes its old list followed by the book, or the book alone when
   * it was not cached. Every other view is kept, and the book is written to the entity table.
   */
  function UnfilteredAppend(s: Store, book: Book): (r: Store)
    ensures r.entities == s.entities[book.id := book]
    ensures r.views.Keys == s.views.Keys + {NoFilter}
    ensures NoFilter in s.views ==> r.views[NoFilter] == s.views[NoFilter] + [book.id]
    ensures NoFilter !in s.views ==> r.views[NoFilter] == [book.id]
    ensures forall k :: k in s.views && k != NoFilter ==> r.views[k] == s.views[k]
  {
    Store(s.entities[book.id := book],
          s.views[NoFilter := AppendOrCreate(Lookup(s.views, NoFilter), book.id)])
  }

  // ---------------------------------------------------------------------------------------------------
  // Approaches 3 and 4: `cache.modify` appends the reference to every cached books list.

  /** Every cached view gains the reference at its tail, whatever its filter; no view is created. */
  function AppendToAll(views: map<FilterKey, seq<BookId>>, id: BookId): (r: map<FilterKey, seq<BookId>>)
    ensures r.Keys == views.Keys
    ensures forall k :: k in views ==> |r[k]| == |views[k]| + 1 && r[k][..|views[k]|] == views[k] && r[k][|views[k]|] == id
  {
    map k | k in views :: AppendRef(views[k], id)
  }

  /**
   * Approach 3: the modifier also writes the book with `writeFragment`; the modifier runs once per cached
   * books list, so the entity is written exactly when at least one such list is cached.
   */
  function WriteFragmentAppend(s: Store, book: Book): (r: Store)
    ensures r.views.Keys == s.views.Keys
    ensures forall k :: k in s.views ==> r.views[k] == s.views[k] + [book.id]
    ensures s.views != map[] ==> r.entities == s.entities[book.id := book]
    ensures s.views == map[] ==> r == s
  {
    var entities := if s.views.Keys == {} then s.entities else s.entities[book.id := book];
    Store(entities, AppendToAll(s.views, book.id))
  }

  /** Approach 4: the same append through `toReference`, which does not write the book itself. */
  function ToReferenceAppend(s: Store, book: Book): (r: Store)
    ensures r.entities == s.entities
    ensures r.views.Keys == s.views.Keys
    ensures forall k :: k in s.views ==> r.views[k] == s.views[k] + [book.id]
  {
    Store(s.entities, AppendToAll(s.views, book.id))
  }

  // ---------------------------------------------------------------------------------------------------
  // Approach 5: `cache.modify` with the `doesMatch` filter.

  /**
   * Each cached view the book matches becomes its old list followed by the reference; every other view is
   * left as it was, and no view is created or dropped.
   */
  function CategoryFiltering(s: Store, book: Book): (r: Store)
    ensures r.entities == s.entities
    ensures r.views.Keys == s.views.Keys
    ensures forall k :: k in s.views && Matches(k, book) ==> r.views[k] == s.views[k] + [book.id]
    ensures forall k :: k in s.views && !Matches(k, book) ==> r.views[k] == s.views[k]
  {
    Store(s.entities, map k | k in s.views :: FilteredAppend(k, s.views[k], book))
  }

  /** A book without categories reaches only the views that admit every book. */
  lemma CategoryFilteringUncategorised(s: Store, book: Book, k: FilterKey)
    requires book.categories == [] && k in s.views
    ensures AdmitsAll(k) ==> CategoryFiltering(s, book).views[k] == s.views[k] + [book.id]
    ensures !AdmitsAll(k) ==> CategoryFiltering(s, book).views[k] == s.views[k]
  {
  }

  // ---------------------------------------------------------------------------------------------------
  // Approach 6 (the one in use): update the unfiltered query, then each category's query in turn.

  /** One step of the category loop: the view of category `c` gains the reference if it is cached. */
  function UpdateCategoryView(views: map<FilterKey, seq<BookId>>, c: CategoryId, id: BookId): (r: map<FilterKey, seq<BookId>>)
    ensures r.Keys == views.Keys
    ensures CategoryKey(c) in views ==> r[CategoryKey(c)] == views[CategoryKey(c)] + [id]
    ensures forall k :: k in views && k != CategoryKey(c) ==> r[k] == views[k]
  {
    match AppendIfPresent(Lookup(views, CategoryKey(c)), id)
    case None => views
    case Some(refs) => views[CategoryKey(c) := refs]
  }

  /** The category loop over `cats`, in order: one `updateQuery` per category. */
  function AddToCategoryViews(views: map<FilterKey, seq<BookId>>, id: BookId, cats: seq<Category>): (r: map<FilterKey, seq<BookId>>)
    ensures r.Keys == views.Keys
    decreases |cats|
  {
    if cats == [] then views
    else UpdateCategoryView(AddToCategoryViews(views, id, cats[..|cats| - 1]), cats[|cats| - 1].id, id)
  }

  /** How many of the categories `cats` name the view `k` (a book listing a category twice names it twice). */
  function CountKey(cats: seq<Category>, k: FilterKey): (n: nat)
    decreases |cats|
  {
    if cats == [] then 0
    else CountKey(cats[..|cats| - 1], k) + (if CategoryKey(cats[|cats| - 1].id) == k then 1 else 0)
  }

  /** The whole approach: the unfiltered view first, then every category view of the book, the entity written. */
  function PerCategoryQuery(s: Store, book: Book): (r: Store)
    ensures r.entities == s.entities[book.id := book]
    ensures r.views.Keys == s.views.Keys + {NoFilter}
  {
    var unfiltered := s.views[NoFilter := AppendOrCreate(Lookup(s.views, NoFilter), book.id)];
    Store(s.entities[book.id := book], AddToCategoryViews(unfiltered, book.id, book.categories))
  }

  /** The category loop appends to each cached view one reference per category naming it, and nothing else. */
  lemma {:induction false} AddToCategoryViewsContents(views: map<FilterKey, seq<BookId>>, id: BookId, cats: seq<Category>, k: FilterKey)
    requires k in views
    ensures AddToCategoryViews(views, id, cats)[k] == views[k] + Repeat(id, CountKey(cats, k))
    decreases |cats|
  {
    if cats != [] {
      var init := cats[..|cats| - 1];
      AddToCategoryViewsContents(views, id, init, k);
      var n := CountKey(init, k);
      if CategoryKey(cats[|cats| - 1].id) == k {
        assert Repeat(id, n + 1) == Repeat(id, n) + [id];
      }
    }
  }

  /** A view that none of the categories names is not counted. */
  lemma {:induction false} CountKeyZero(cats: seq<Category>, k: FilterKey)
    requires forall j :: 0 <= j < |cats| ==> CategoryKey(cats[j].id) != k
    ensures CountKey(cats, k) == 0
    decreases |cats|
  {
    if cats != [] {
      var init := cats[..|cats| - 1];
      assert forall j :: 0 <= j < |init| ==> init[j] == cats[j];
      CountKeyZero(init, k);
    }
  }

  /** When the book lists each category once, the view of one of its categories is named exactly once. */
  lemma {:induction false} CountKeyOnce(cats: seq<Category>, j0: nat)
    requires j0 < |cats|
    requires forall i, j :: 0 <= i < j < |cats| ==> cats[i].id != cats[j].id
    ensures CountKey(cats, CategoryKey(cats[j0].id)) == 1
    decreases |cats|
  {
    var init := cats[..|cats| - 1];
    var k := CategoryKey(cats[j0].id);
    assert forall j :: 0 <= j < |init| ==> init[j] == cats[j];
    if j0 == |cats| - 1 {
      forall j | 0 <= j < |init| ensures CategoryKey(init[j].id) != k {
        CategoryKeyInjective(init[j].id, cats[j0].id);
      }
      CountKeyZero(init, k);
    } else {
      CountKeyOnce(init, j0);
      CategoryKeyInjective(cats[|cats| - 1].id, cats[j0].id);
    }
  }

  /** No category names the unfiltered view. */
  lemma CountKeyUnfiltered(cats: seq<Category>)
    ensures CountKey(cats, NoFilter) == 0
  {
    CountKeyZero(cats, NoFilter);
  }

  /** The unfiltered view becomes its old list followed by the book, or the book alone when it was not cached. */
  lemma PerCategoryUnfiltered(s: Store, book: Book)
    ensures NoFilter in s.views ==> PerCategoryQuery(s, book).views[NoFilter] == s.views[NoFilter] + [book.id]
    ensures NoFilter !in s.views ==> PerCategoryQuery(s, book).views[NoFilter] == [book.id]
  {
    var unfiltered := s.views[NoFilter := AppendOrCreate(Lookup(s.views, NoFilter), book.id)];
    AddToCategoryViewsContents(unfiltered, book.id, book.categories, NoFilter);
    CountKeyUnfiltered(book.categories);
  }

  /**
   * The view of each category of the book gains the book at its tail when it is cached (once per listing of
   * the category in the book), and stays uncached when it was not.
   */
  lemma PerCategoryCategoryView(s: Store, book: Book, j: nat)
    requires j < |book.categories|
    ensures var k := CategoryKey(book.categories[j].id);
      && (k in s.views ==> PerCategoryQuery(s, book).views[k] == s.views[k] + Repeat(book.id, CountKey(book.categories, k)))
      && (k !in s.views ==> k !in PerCategoryQuery(s, book).views)
      && CountKey(book.categories, k) >= 1
  {
    var k := CategoryKey(book.categories[j].id);
    var unfiltered := s.views[NoFilter := AppendOrCreate(Lookup(s.views, NoFilter), book.id)];
    if k in s.views {
      AddToCategoryViewsContents(unfiltered, book.id, book.categories, k);
    }
    CountKeyNamed(book.categories, j);
  }

  /** A category listed at `j` names its view at least once. */
  lemma {:induction false} CountKeyNamed(cats: seq<Category>, j: nat)
    requires j < |cats|
    ensures CountKey(cats, CategoryKey(cats[j].id)) >= 1
    decreases |cats|
  {
    var init := cats[..|cats| - 1];
    if j < |cats| - 1 {
      assert init[j] == cats[j];
      CountKeyNamed(init, j);
    }
  }

  /** With each category listed once, every cached view of one of the book's categories gains exactly the book. */
  lemma PerCategoryDistinctCategories(s: Store, book: Book, j: nat)
    requires j < |book.categories|
    requires forall a, b :: 0 <= a < b < |book.categories| ==> book.categories[a].id != book.categories[b].id
    requires CategoryKey(book.categories[j].id) in s.views
    ensures var k := CategoryKey(book.categories[j].id);
      PerCategoryQuery(s, book).views[k] == s.views[k] + [book.id]
  {
    PerCategoryCategoryView(s, book, j);
    CountKeyOnce(book.categories, j);
  }

  /**
   * Every other view is untouched: a view with a filter of several ids, an empty or absent id list, or the
   * id of a category the book does not carry.
   */
  lemma PerCategoryOtherViews(s: Store, book: Book, k: FilterKey)
    requires k in s.views && k != NoFilter
    requires forall j :: 0 <= j < |book.categories| ==> CategoryKey(book.categories[j].id) != k
    ensures PerCategoryQuery(s, book).views[k] == s.views[k]
  {
    var unfiltered := s.views[NoFilter := AppendOrCreate(Lookup(s.views, NoFilter), book.id)];
    AddToCategoryViewsContents(unfiltered, book.id, book.categories, k);
    CountKeyZero(book.categories, k);
  }

  /** A book without categories changes only the unfiltered view. */
  lemma PerCategoryUncategorised(s: Store, book: Book)
    requires book.categories == []
    ensures PerCategoryQuery(s, book) == UnfilteredAppend(s, book)
  {
  }

  // ---------------------------------------------------------------------------------------------------
  // Approaches 5 and 6 compared.

  /** On a cached unfiltered view both approaches append the book. */
  lemma FilteringAgreesOnUnfiltered(s: Store, book: Book)
    requires NoFilter in s.views
    ensures PerCategoryQuery(s, book).views[NoFilter] == CategoryFiltering(s, book).views[NoFilter]
  {
    PerCategoryUnfiltered(s, book);
  }

  /** On a cached single-category view both approaches agree, when the book lists each category once. */
  lemma FilteringAgreesOnCategoryView(s: Store, book: Book, c: CategoryId)
    requires forall a, b :: 0 <= a < b < |book.categories| ==> book.categories[a].id != book.categories[b].id
    requires CategoryKey(c) in s.views
    ensures PerCategoryQuery(s, book).views[CategoryKey(c)] == CategoryFiltering(s, book).views[CategoryKey(c)]
  {
    var k := CategoryKey(c);
    CategoryKeyMatches(c, book);
    if HasCategory(book.categories, c) {
      var j :| 0 <= j < |book.categories| && book.categories[j].id == c;
      PerCategoryDistinctCategories(s, book, j);
    } else {
      forall j | 0 <= j < |book.categories| ensures CategoryKey(book.categories[j].id) != k {
        CategoryKeyInjective(book.categories[j].id, c);
      }
      PerCategoryOtherViews(s, book, k);
    }
  }

  /**
   * The approaches part on views approach 6 never names: a cached view whose filter lists several ids, one
   * of them the book's, gains the book under approach 5 and stays as it was under approach 6.
   */
  lemma FilteringDiffersOnMultiIdView(s: Store, book: Book, ids: seq<CategoryId>)
    requires |ids| >= 2
    requires Filtered(BookFilter(Some(ids))) in s.views
    requires SharesCategory(ids, book.categories)
    ensures var k := Filtered(BookFilter(Some(ids)));
      && CategoryFiltering(s, book).views[k] == s.views[k] + [book.id]
      && PerCategoryQuery(s, book).views[k] == s.views[k]
  {
    var k := Filtered(BookFilter(Some(ids)));
    forall j | 0 <= j < |book.categories| ensures CategoryKey(book.categories[j].id) != k {
      assert |CategoryKey(book.categories[j].id).filter.categoryIds.value| == 1;
    }
    PerCategoryOtherViews(s, book, k);
  }
}
