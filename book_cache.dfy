/**
 * The client's normalised cache as the book-creation handler sees it: an entity table and the cached
 * `books(filter)` results, both changed in place by `writeQuery`, `updateQuery` and `modify`.
 */
module BookCache {
  import opened Wrappers
  import opened Domain
  import opened ViewUpdates
  import opened Strategies

  class Cache {
    var entities: map<BookId, Book>
    var views: map<FilterKey, seq<BookId>>

    /** An empty cache: no book written, no query cached. */
    constructor ()
      ensures entities == map[] && views == map[]
    {
      entities := map[];
      views := map[];
    }

    /** The cache's contents as a value. */
    function State(): (s: Store)
      reads this
      ensures s.entities == entities && s.views == views
    {
      Store(entities, views)
    }

    /**
     * The mutation's `update` callback: without an `addBook` result nothing changes; otherwise the result
     * is applied with the per-category approach.
     */
    method Update(data: Option<Book>)
      modifies this
      ensures data.None? ==> entities == old(entities) && views == old(views)
      ensures data.Some? ==> State() == PerCategoryQuery(old(State()), data.value)
    {
      if data.None? {
        return;
      }
      UpdateCachePerCategoryQuery(data.value);
    }

    /** Approach 1: read the unfiltered query, write it back with the book appended. */
    method UpdateCacheWithReadWriteQuery(book: Book)
      modifies this
      ensures State() == UnfilteredAppend(old(State()), book)
    {
      var existing := if NoFilter in views then Some(views[NoFilter]) else None;
      views := views[NoFilter := AppendOrCreate(existing, book.id)];
      entities := entities[book.id := book];
    }

    /** Approach 2: `updateQuery` on the unfiltered query; the updater always returns data, which is written. */
    method UpdateCacheWithUpdateQuery(book: Book)
      modifies this
      ensures State() == UnfilteredAppend(old(State()), book)
    {
      var existing := Lookup(views, NoFilter);
      var updated := AppendOrCreate(existing, book.id);
      entities := entities[book.id := book];
      views := views[NoFilter := updated];
    }

    /** Approach 3: every cached books list gains the reference; the modifier writes the book as it runs. */
    method UpdateCacheWithWriteFragment(book: Book)
      modifies this
      ensures State() == WriteFragmentAppend(old(State()), book)
    {
      if views.Keys != {} {
        entities := entities[book.id := book];
      }
      views := map k | k in views :: AppendRef(views[k], book.id);
    }

    /** Approach 4: every cached books list gains a reference made with `toReference`. */
    method UpdateCacheWithSimpleToReference(book: Book)
      modifies this
      ensures State() == ToReferenceAppend(old(State()), book)
    {
      views := map k | k in views :: AppendRef(views[k], book.id);
    }

    /** Approach 5: every cached books list the book matches gains its reference. */
    method UpdateCacheWithCategoryFiltering(book: Book)
      modifies this
      ensures State() == CategoryFiltering(old(State()), book)
    {
      views := map k | k in views :: FilteredAppend(k, views[k], book);
    }

    /**
     * Approach 6: update the unfiltered query, then, category by category, the query filtered by that one
     * category when it is cached.
     */
    method UpdateCachePerCategoryQuery(book: Book)
      modifies this
      ensures State() == PerCategoryQuery(old(State()), book)
    {
      views := views[NoFilter := AppendOrCreate(Lookup(views, NoFilter), book.id)];
      entities := entities[book.id := book];
      ghost var unfiltered := views;
      var cats := book.categories;
      var i := 0;
      while i < |cats|
        invariant 0 <= i <= |cats|
        invariant entities == old(entities)[book.id := book]
        invariant views == AddToCategoryViews(unfiltered, book.id, cats[..i])
      {
        var key := CategoryKey(cats[i].id);
        var updated := AppendIfPresent(Lookup(views, key), book.id);
        if updated.Some? {
          views := views[key := updated.value];
          entities := entities[book.id := book];
        }
        assert cats[..i + 1][..i] == cats[..i];
        i := i + 1;
      }
      assert cats[..i] == book.categories;
    }
  }
}
