/** The entities the book client exchanges with the GraphQL service, and the keys of the cached `books` queries. */
module Domain {
  import opened Wrappers

  type BookId = string
  type CategoryId = string

  datatype Category = Category(id: CategoryId, name: string)

  /** A book as returned by the `addBook` mutation and the `books` query: categories always present. */
  datatype Book = Book(id: BookId, title: string, categories: seq<Category>)

  /** The `filter` variable of the `books` query: `{ categoryIds?: [String] }`. */
  datatype BookFilter = BookFilter(categoryIds: Option<seq<CategoryId>>)

  /**
   * The identity of one cached `books(filter)` result. `NoFilter` stands for a query issued without a
   * filter (`filter: null` or no `filter` at all); `Filtered` carries the filter object, already parsed
   * out of the cache's store field name.
   */
  datatype FilterKey = NoFilter | Filtered(filter: BookFilter)

  /** The key `{ filter: { categoryIds: [c] } }` of the view listing the books of one category. */
  function CategoryKey(c: CategoryId): (k: FilterKey)
    ensures k.Filtered? && k.filter.categoryIds == Some([c])
  {
    Filtered(BookFilter(Some([c])))
  }

  /** A category view key names its category: two such keys are equal only for the same category. */
  lemma CategoryKeyInjective(c: CategoryId, d: CategoryId)
    ensures CategoryKey(c) == CategoryKey(d) <==> c == d
  {
  }
}
