# Book library client: cache update after creating a book

This project models the one piece of real logic in the book library's web client: what happens to the
client's normalised GraphQL cache when the `addBook` mutation succeeds. The cache holds an entity table
(books by id) and one cached result per `books(filter)` query: an ordered list of book references. After
a book is created, the mutation's `update` callback patches those cached lists so that no refetch is
needed. The hook file keeps six alternative ways of doing this. The per-category approach is the one in
use; the other five are kept as demonstrations. The model also covers the `books` query hook, which
turns the raw query result into the list of books the UI shows.

Structure:

- `domain.dfy` (`Domain`): books, categories, the `filter` variable and the key of a cached `books`
  query. `NoFilter` is a query issued without a filter. `Filtered` carries the filter object, already
  parsed from the cache's store field name. `CategoryKey(c)` is the key `{ filter: { categoryIds: [c] } }`.
- `view_updates.dfy` (`ViewUpdates`): the per-view updaters, which build a new list from the old one,
  and the `doesMatch` membership test of the category-filtering approach.
- `strategies.dfy` (`Strategies`): the cache as a value (`Store`). Each approach is a function from the
  cache before the patch to the cache after it. Lemmas state what each approach does to every view, and
  compare approach 5 with approach 6.
- `book_cache.dfy` (`BookCache`): the cache as an object whose `entities` and `views` fields are changed
  in place. It has one method per approach and the `update` callback. Each method is proved to leave
  the cache in the state the matching `Strategies` function gives. Approach 6 keeps its loop over the
  book's categories.
- `get_books.dfy` (`GetBooks`): the variables the `books` query is cached under, and the
  normalisation `categories ?? []`.
- `wrappers.dfy` (`Wrappers`): `Option`.

The code appends without checking membership. A book that lists a category twice is appended twice to
that category's view (`Strategies.AddToCategoryViewsContents`). The in-use approach updates only the
unfiltered view and single-category views. A multi-id view, or one with empty or absent ids, is left as
it was (`Strategies.FilteringDiffersOnMultiIdView`).

## Model

| member | source | states |
|---|---|---|
| `Wrappers.Option.GetOr` | apps/client/src/hooks/books/useGetBooks.ts:40-41 | JavaScript's `x ?? default`: the value when there is one, the default otherwise. |
| `BookCache.Cache.Update` | apps/client/src/hooks/books/useAddBook.ts:39-47 | Without an `addBook` result the entity table and every view are unchanged. Otherwise the cache becomes what the per-category approach makes of it. |
| `BookCache.Cache.UpdateCacheWithReadWriteQuery` | apps/client/src/hooks/books/useAddBook.ts:62-82 | The cache afterwards is `UnfilteredAppend` of the cache before. |
| `BookCache.Cache.UpdateCacheWithUpdateQuery` | apps/client/src/hooks/books/useAddBook.ts:85-93 | The cache afterwards is `UnfilteredAppend` of the cache before. |
| `BookCache.Cache.UpdateCacheWithWriteFragment` | apps/client/src/hooks/books/useAddBook.ts:96-121 | The cache afterwards is `WriteFragmentAppend` of the cache before. |
| `BookCache.Cache.UpdateCacheWithSimpleToReference` | apps/client/src/hooks/books/useAddBook.ts:124-135 | The cache afterwards is `ToReferenceAppend` of the cache before. |
| `BookCache.Cache.UpdateCacheWithCategoryFiltering` | apps/client/src/hooks/books/useAddBook.ts:138-160 | The cache afterwards is `CategoryFiltering` of the cache before. |
| `BookCache.Cache.UpdateCachePerCategoryQuery` | apps/client/src/hooks/books/useAddBook.ts:163-193 | After the unfiltered update and the loop over the book's categories, the cache is `PerCategoryQuery` of the cache before. The loop invariant says the views equal the fold over the categories handled so far. |
| `Domain.CategoryKey` | apps/client/src/hooks/books/useAddBook.ts:178-181 | The key of one category's query is a filter whose `categoryIds` is exactly that one id. |
| `ViewUpdates.HasCategory` | apps/client/src/hooks/books/useAddBook.ts:149 | True iff some category of the book has the given id. |
| `ViewUpdates.SharesCategory` | apps/client/src/hooks/books/useAddBook.ts:148-150 | True iff some filter id equals the id of some category of the book. |
| `ViewUpdates.FilterIds` | apps/client/src/hooks/books/useAddBook.ts:143-148 | An unfiltered view has no ids. A filtered view has its `categoryIds`, or none when they are absent. |
| `ViewUpdates.AdmitsAll` | apps/client/src/hooks/books/useAddBook.ts:152 | `!filter?.categoryIds?.length`: true iff the view has no filter, no `categoryIds`, or an empty id list. |
| `ViewUpdates.Matches` | apps/client/src/hooks/books/useAddBook.ts:148-152 | A view with no filter, no `categoryIds` or an empty list admits every book. Any other view admits the book iff some filter id equals some category id of the book. |
| `ViewUpdates.UncategorisedMatchesOnlyUnrestricted` | apps/client/src/hooks/books/useAddBook.ts:148-152 | A book without categories matches exactly the views that admit every book. |
| `ViewUpdates.CategoryKeyMatches` | apps/client/src/hooks/books/useAddBook.ts:148-152 | A single-category view admits a book iff the book carries that category. |
| `ViewUpdates.AppendOrCreate` | apps/client/src/hooks/books/useAddBook.ts:165-170 | A cached list keeps all its old references in order, with the new one added last. An absent list becomes the one-element list. |
| `ViewUpdates.AppendIfPresent` | apps/client/src/hooks/books/useAddBook.ts:182-189 | An absent view stays absent. A cached view keeps its references in order, with the new one added last. |
| `ViewUpdates.AppendRef` | apps/client/src/hooks/books/useAddBook.ts:128-132 | The old references come first in order, and the new reference is last. |
| `ViewUpdates.FilteredAppend` | apps/client/src/hooks/books/useAddBook.ts:152-156 | A matching view gains the reference at its tail. A view that does not match is returned unchanged. |
| `Strategies.Lookup` | apps/client/src/hooks/books/useAddBook.ts:165-183 | The `existingData` read of a cached query: present and equal to the cached list exactly when the key is cached, absent otherwise. |
| `Strategies.UnfilteredAppend` | apps/client/src/hooks/books/useAddBook.ts:62-93 | Approaches 1 and 2: the unfiltered view becomes its old list plus the book, or the book alone when it was absent. Every other view is kept. The book is written to the entity table. |
| `Strategies.AppendToAll` | apps/client/src/hooks/books/useAddBook.ts:128-132 | Every cached view gains the reference at its tail. No view is created or dropped. |
| `Strategies.WriteFragmentAppend` | apps/client/src/hooks/books/useAddBook.ts:96-121 | Approach 3: every cached view gains the book, whatever its filter. The book is written exactly when at least one view is cached; otherwise nothing changes. |
| `Strategies.ToReferenceAppend` | apps/client/src/hooks/books/useAddBook.ts:124-135 | Approach 4: every cached view gains the book, whatever its filter. The entity table is unchanged. |
| `Strategies.CategoryFiltering` | apps/client/src/hooks/books/useAddBook.ts:138-160 | Approach 5: matching views become old list plus the book, and other views are unchanged. No view is created or dropped, and the entity table is unchanged. |
| `Strategies.CategoryFilteringUncategorised` | apps/client/src/hooks/books/useAddBook.ts:148-155 | Under approach 5, a book without categories reaches exactly the views that admit every book. |
| `Strategies.UpdateCategoryView` | apps/client/src/hooks/books/useAddBook.ts:177-190 | One category step: that category's view gains the reference if it is cached. Every other view is unchanged, and no view is created. |
| `Strategies.AddToCategoryViews` | apps/client/src/hooks/books/useAddBook.ts:173-192 | The category loop neither creates nor drops a view. |
| `Strategies.CountKeyZero` | apps/client/src/hooks/books/useAddBook.ts:175-180 | A view that none of the book's categories names receives no copy of the reference. |
| `Strategies.CountKeyNamed` | apps/client/src/hooks/books/useAddBook.ts:175-180 | The view of a category the book lists is named at least once. |
| `Strategies.PerCategoryQuery` | apps/client/src/hooks/books/useAddBook.ts:163-193 | Approach 6 writes the book to the entity table. The cached views afterwards are the old ones plus the unfiltered view. |
| `Strategies.AddToCategoryViewsContents` | apps/client/src/hooks/books/useAddBook.ts:175-191 | Each cached view ends as its old list followed by one copy of the reference per category of the book that names the view. |
| `Strategies.CountKeyOnce` | apps/client/src/hooks/books/useAddBook.ts:175-180 | When each category appears once in the book, the view of one of its categories is named exactly once. |
| `Strategies.PerCategoryUnfiltered` | apps/client/src/hooks/books/useAddBook.ts:165-170 | Approach 6: the unfiltered view becomes its old list plus the book, or the book alone when it was absent. |
| `Strategies.PerCategoryCategoryView` | apps/client/src/hooks/books/useAddBook.ts:173-191 | Approach 6: the cached view of each of the book's categories gains the book at its tail, once per listing. An absent one stays absent. |
| `Strategies.PerCategoryDistinctCategories` | apps/client/src/hooks/books/useAddBook.ts:175-191 | When each category appears once in the book, each cached view of one of its categories becomes exactly old list plus the book. |
| `Strategies.PerCategoryOtherViews` | apps/client/src/hooks/books/useAddBook.ts:163-193 | Approach 6 leaves unchanged every view other than the unfiltered one that no category of the book names. This covers multi-id filters and categories the book lacks. |
| `Strategies.PerCategoryUncategorised` | apps/client/src/hooks/books/useAddBook.ts:173 | Approach 6 on a book without categories changes only the unfiltered view, exactly as approaches 1 and 2 do. |
| `Strategies.FilteringAgreesOnUnfiltered` | apps/client/src/hooks/books/useAddBook.ts:141-170 | On a cached unfiltered view, approaches 5 and 6 give the same list. |
| `Strategies.FilteringAgreesOnCategoryView` | apps/client/src/hooks/books/useAddBook.ts:141-191 | On a cached single-category view, approaches 5 and 6 give the same list when each category appears once in the book. |
| `Strategies.FilteringDiffersOnMultiIdView` | apps/client/src/hooks/books/useAddBook.ts:141-191 | Take a cached view whose filter lists several ids, one of them the book's. Approach 5 appends the book to it, and approach 6 leaves it unchanged. |
| `GetBooks.QueryKey` | apps/client/src/hooks/books/useGetBooks.ts:25-30 | The query is cached under exactly the caller's filter. No filter means the unfiltered key. |
| `GetBooks.FilterOf` | apps/client/src/hooks/books/useGetBooks.ts:25-30 | The filter recovered from a key gives that key back. |
| `GetBooks.QueryKeyRoundTrip` | apps/client/src/hooks/books/useGetBooks.ts:25-30 | Recovering the filter from the key of a filter gives that filter. |
| `GetBooks.NormalizeBook` | apps/client/src/hooks/books/useGetBooks.ts:39-40 | `id` and `title` pass through unchanged. Missing categories become `[]`, and present ones are kept as they are. |
| `GetBooks.NormalizeAll` | apps/client/src/hooks/books/useGetBooks.ts:38-41 | One normalised book per raw book, with the same length and order. |
| `GetBooks.Books` | apps/client/src/hooks/books/useGetBooks.ts:37-42 | Missing data or a missing `books` gives the empty list. Otherwise the result is the books normalised one by one, in order. |
| `GetBooks.ToRaw` | apps/client/src/hooks/books/useGetBooks.ts:19 | A book read back as a raw book with its categories present normalises to itself. |
| `GetBooks.NormalizeIdempotent` | apps/client/src/hooks/books/useGetBooks.ts:37-42 | Normalising an already normalised list gives the same list. |

## Left out

- UI components, pages, routing and toasts (`onError`/`onCompleted`, useAddBook.ts:31-37) are presentation. They do not touch the cache.
- The `try`/`catch` and `console.error` of approach 1 (useAddBook.ts:63, 79-81) are left out. In the model, reading a query that was never cached gives no data; it does not throw.
- Serialising variables into store field names is part of the cache library. Keys are modelled as the parsed filter. The model therefore does not tell `filter: undefined` from `filter: null`: both are `NoFilter`. The cost: `useGetBooks()` called without a filter (Books.tsx:11 before its refetch, CategoryPage.tsx:14-16 without a category id) caches under `{filter: undefined}`. As far as the cache library's key serialisation goes, that is a different stored list from the `{filter: null}` one that approaches 1, 2 and 6 update. So `GetBooks.QueryKey`'s "no filter means the unfiltered key" holds only inside the model, and a list cached under `{filter: undefined}` is not shown to gain the new book.
- The cache library writes the mutation payload into the entity table before `update` runs. The model's entity table shows only the writes made by the code in the hook file, so approaches 4 and 5 leave it unchanged.
- Reads of incomplete data are left out: the cache library returns no data for a cached list whose referenced books lack fields, and the model does not represent this. Every cached view counts as readable.
- An entity write replaces the whole book rather than merging fields. The mutation selects every field of `Book`, so both give the same result.
- The `existingData.books || []` fallback of lines 89, 168 and 185 is left out. A cached view always holds a list in the model.
- A `null` `categories` in the mutation result is left out. `Book` declares categories as present, and an absent list would update the views exactly as `[]` does.
- The optimistic response with the `"temp-id"` placeholder and its rollback are behaviour of the cache library's optimistic layer.
- The cache library's read path (`useQuery`, hydrating references into books) is left out. The query hooks for one book and for categories are thin wrappers.
- Updating and deleting books (`useUpdateBook`, `useDeleteBook`) is not part of this model.
- `lib/utils` (`Book`, `BookFilter`, `getParamsFromStoreFieldName`) is not part of this model. Its types are declared in `Domain` as the hooks use them.
- The model does not claim that views stay free of duplicates, because the code appends without checking.
