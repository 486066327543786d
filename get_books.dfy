/** The `books` query hook: the variables its result is cached under, and the list of books it hands to the UI. */
module GetBooks {
  import opened Wrappers
  import opened Domain

  /** A book as the `books` query may return it: `categories` can be missing. */
  datatype RawBook = RawBook(id: BookId, title: string, categories: Option<seq<Category>>)

  /** The query's data: `books` can be missing. */
  datatype GetBooksData = GetBooksData(books: Option<seq<RawBook>>)

  /** `variables: { filter }`: the cached query is the caller's filter itself; no filter means the unfiltered query. */
  function QueryKey(filter: Option<BookFilter>): (k: FilterKey)
    ensures k.NoFilter? <==> filter.None?
    ensures filter.Some? ==> k.filter == filter.value
  {
    match filter
    case None => NoFilter
    case Some(f) => Filtered(f)
  }

  /** The filter a cached query was issued with, recovered from its key. */
  function FilterOf(k: FilterKey): (filter: Option<BookFilter>)
    ensures QueryKey(filter) == k
  {
    match k
    case NoFilter => None
    case Filtered(f) => Some(f)
  }

  /** Different filters are different cached queries: the key determines the filter. */
  lemma QueryKeyRoundTrip(filter: Option<BookFilter>)
    ensures FilterOf(QueryKey(filter)) == filter
  {
  }

  /** `{ ...rawBook, categories: rawBook.categories ?? [] }`. */
  function NormalizeBook(raw: RawBook): (b: Book)
    ensures b.id == raw.id && b.title == raw.title
    ensures raw.categories.None? ==> b.categories == []
    ensures raw.categories.Some? ==> b.categories == raw.categories.value
  {
    Book(raw.id, raw.title, raw.categories.GetOr([]))
  }

  /** `raws.map(NormalizeBook)`: one book per raw book, in the same order. */
  function NormalizeAll(raws: seq<RawBook>): (r: seq<Book>)
    ensures |r| == |raws|
    ensures forall i :: 0 <= i < |raws| ==> r[i] == NormalizeBook(raws[i])
  {
    if raws == [] then [] else [NormalizeBook(raws[0])] + NormalizeAll(raws[1..])
  }

  /** `data?.books?.map(...) ?? []`: the books handed to the UI, empty while there is no data. */
  function Books(data: Option<GetBooksData>): (r: seq<Book>)
    ensures data.None? ==> r == []
    ensures data.Some? && data.value.books.None? ==> r == []
    ensures data.Some? && data.value.books.Some? ==>
      |r| == |data.value.books.value| &&
      forall i :: 0 <= i < |r| ==> r[i] == NormalizeBook(data.value.books.value[i])
  {
    match data
    case None => []
    case Some(d) =>
      match d.books
      case None => []
      case Some(raws) => NormalizeAll(raws)
  }

  /** A normalised book seen again as a raw one: its categories present. */
  function ToRaw(b: Book): (raw: RawBook)
    ensures NormalizeBook(raw) == b
    ensures raw.categories.Some?
  {
    RawBook(b.id, b.title, Some(b.categories))
  }

  /** A list of normalised books as a raw response. */
  function ToRawAll(books: seq<Book>): (r: seq<RawBook>)
    ensures |r| == |books|
    ensures forall i :: 0 <= i < |books| ==> r[i] == ToRaw(books[i])
  {
    if books == [] then [] else [ToRaw(books[0])] + ToRawAll(books[1..])
  }

  /** Normalisation is idempotent: normalising an already normalised list gives the same list. */
  lemma NormalizeIdempotent(data: Option<GetBooksData>)
    ensures var books := Books(data);
      Books(Some(GetBooksData(Some(ToRawAll(books))))) == books
  {
  }
}
