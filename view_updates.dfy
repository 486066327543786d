/**
 * The per-view updaters of the book-creation handler: each takes the list of book references one cached
 * `books(filter)` query currently holds (or its absence) and gives the list to store back, together with
 * the membership predicate `doesMatch` of the category-filtering approach.
 */
module ViewUpdates {
  import opened Wrappers
  import opened Domain

  /** `categories.some(c => c.id === cId)`: the book carries category `cId`. */
  function HasCategory(cats: seq<Category>, cId: CategoryId): (r: bool)
    ensures r <==> exists j :: 0 <= j < |cats| && cats[j].id == cId
  {
    if cats == [] then false
    else if cats[0].id == cId then true
    else
      var rest := HasCategory(cats[1..], cId);
      assert forall j :: 1 <= j < |cats| ==> cats[j] == cats[1..][j - 1];
      rest
  }

  /** `ids.some(cId => categories.some(c => c.id === cId))`: some filter id is one of the book's categories. */
  function SharesCategory(ids: seq<CategoryId>, cats: seq<Category>): (r: bool)
    ensures r <==> exists i, j :: 0 <= i < |ids| && 0 <= j < |cats| && ids[i] == cats[j].id
  {
    if ids == [] then false
    else if HasCategory(cats, ids[0]) then true
    else
      var rest := SharesCategory(ids[1..], cats);
      assert forall i :: 1 <= i < |ids| ==> ids[i] == ids[1..][i - 1];
      rest
  }

  /** `filter?.categoryIds ?? []`: the ids a view filters by, none for an unfiltered view. */
  function FilterIds(key: FilterKey): (ids: seq<CategoryId>)
    ensures key.NoFilter? ==> ids == []
    ensures key.Filtered? ==> ids == key.filter.categoryIds.GetOr([])
  {
    match key
    case NoFilter => []
    case Filtered(f) => f.categoryIds.GetOr([])
  }

  /** `!filter?.categoryIds?.length`: the view does not restrict by category at all. */
  function AdmitsAll(key: FilterKey): (r: bool)
    ensures r <==> key.NoFilter? || key.filter.categoryIds.None? || key.filter.categoryIds.value == []
  {
    FilterIds(key) == []
  }

  /**
   * The test of the category-filtering approach: a view without category ids (no filter, no
   * `categoryIds`, or an empty list) admits every book; any other view admits the book exactly when one
   * of its ids is the id of one of the book's categories.
   */
  function Matches(key: FilterKey, book: Book): (r: bool)
    ensures AdmitsAll(key) ==> r
    ensures !AdmitsAll(key) ==>
      (r <==> exists i, j :: 0 <= i < |FilterIds(key)| && 0 <= j < |book.categories| &&
                             FilterIds(key)[i] == book.categories[j].id)
  {
    AdmitsAll(key) || SharesCategory(FilterIds(key), book.categories)
  }

  /** A book without categories belongs only to the views that admit every book. */
  lemma UncategorisedMatchesOnlyUnrestricted(key: FilterKey, book: Book)
    requires book.categories == []
    ensures Matches(key, book) <==> AdmitsAll(key)
  {
  }

  /** A single-category view admits exactly the books that carry that category. */
  lemma CategoryKeyMatches(c: CategoryId, book: Book)
    ensures Matches(CategoryKey(c), book) <==> HasCategory(book.categories, c)
  {
  }

  /**
   * `[...(existingData?.books || []), addedBook]`: the unfiltered view after the book is written, its old
   * references first and the new one last; an absent view becomes the one-element list.
   */
  function AppendOrCreate(existing: Option<seq<BookId>>, id: BookId): (r: seq<BookId>)
    ensures existing.None? ==> r == [id]
    ensures existing.Some? ==>
      |r| == |existing.value| + 1 && r[..|existing.value|] == existing.value && r[|existing.value|] == id
  {
    existing.GetOr([]) + [id]
  }

  /**
   * The updater of a single-category view: a cached view gains the book at its tail, and an absent one
   * stays absent (the updater returns the missing data, which writes nothing).
   */
  function AppendIfPresent(existing: Option<seq<BookId>>, id: BookId): (r: Option<seq<BookId>>)
    ensures r.None? <==> existing.None?
    ensures existing.Some? ==>
      |r.value| == |existing.value| + 1 && r.value[..|existing.value|] == existing.value &&
      r.value[|existing.value|] == id
  {
    match existing
    case None => None
    case Some(refs) => Some(refs + [id])
  }

  /** `[...existingRefs, newBookRef]`: a cached view with the new reference at its tail. */
  function AppendRef(existing: seq<BookId>, id: BookId): (r: seq<BookId>)
    ensures |r| == |existing| + 1 && r[..|existing|] == existing && r[|existing|] == id
  {
    existing + [id]
  }

  /** The modifier of the category-filtering approach: matching views gain the book, others are returned as they are. */
  function FilteredAppend(key: FilterKey, existing: seq<BookId>, book: Book): (r: seq<BookId>)
    ensures Matches(key, book) ==> r == AppendRef(existing, book.id)
    ensures !Matches(key, book) ==> r == existing
  {
    if AdmitsAll(key) || SharesCategory(FilterIds(key), book.categories) then AppendRef(existing, book.id) else existing
  }
}
