/**
 * The storefront's catalog rules: the trending slider
 * (frontend/src/pages/home/Trending.jsx), the curator's spotlight with its genre
 * selector (frontend/src/pages/home/CuratorsSpotlight.jsx), and what a book card
 * shows (frontend/src/pages/books/BookCard.jsx).
 */
module CatalogViews {
  import opened Common
  import opened BookModel

  /**
   * The state of `useFetchAllBooksQuery()`: nothing yet (`data` defaults to
   * `{}`), or a response whose `data` array may be missing.
   */
  datatype Fetched = NotLoaded | Loaded(data: Option<seq<Book>>)

  /** `const books = data.data || []`. */
  function Catalog(f: Fetched): (books: seq<Book>)
    ensures f.NotLoaded? || f.data.None? ==> books == []
    ensures f.Loaded? && f.data.Some? ==> books == f.data.value
  {
    match f
    case NotLoaded => []
    case Loaded(d) => if d.Some? then d.value else []
  }

  predicate IsTrending(b: Book) {
    b.trending
  }

  /** `books.filter(book => book.trending == true)`. */
  function TrendingBooks(f: Fetched): (r: seq<Book>)
    ensures |r| <= |Catalog(f)|
    ensures forall b :: b in r <==> b in Catalog(f) && b.trending
    ensures Subsequence(r, Catalog(f))
  {
    FilterIsSubsequence(IsTrending, Catalog(f));
    Filter(IsTrending, Catalog(f))
  }

  /** The option the genre selector starts on. */
  const DefaultGenre := "Choose a genre"

  /** The spotlight's per-book test for a selection. */
  predicate InSpotlight(selected: string, b: Book) {
    if selected == DefaultGenre then b.trending == false
    else b.category == selected && b.trending != true
  }

  /** `filteredBooks`: the books the spotlight slider shows for the selected genre. */
  function SpotlightBooks(f: Fetched, selected: string): (r: seq<Book>)
    ensures selected == DefaultGenre ==> forall b :: b in r <==> b in Catalog(f) && !b.trending
    ensures selected != DefaultGenre ==>
              forall b :: b in r <==> b in Catalog(f) && b.category == selected && !b.trending
    ensures forall b :: b in r ==> !b.trending
    ensures Subsequence(r, Catalog(f))
  {
    var keep := (b: Book) => InSpotlight(selected, b);
    FilterIsSubsequence(keep, Catalog(f));
    Filter(keep, Catalog(f))
  }

  /** With nothing loaded both sliders are empty. */
  lemma NothingLoadedNothingShown(selected: string)
    ensures TrendingBooks(NotLoaded) == [] && SpotlightBooks(NotLoaded, selected) == []
  {
  }

  /**
   * The trending slider and the default spotlight split the catalog: no book is
   * in both, and every book is in one of them.
   */
  lemma {:induction false} TrendingAndDefaultSpotlightPartition(f: Fetched)
    ensures multiset(TrendingBooks(f)) + multiset(SpotlightBooks(f, DefaultGenre)) == multiset(Catalog(f))
    ensures |TrendingBooks(f)| + |SpotlightBooks(f, DefaultGenre)| == |Catalog(f)|
    ensures forall b :: b in TrendingBooks(f) ==> b !in SpotlightBooks(f, DefaultGenre)
  {
    FilterPartition(IsTrending, (b: Book) => InSpotlight(DefaultGenre, b), Catalog(f));
  }

  /** How many characters of a description a card shows before cutting it. */
  const DescriptionLimit: nat := 50

  /** `description.length > 50 ? `${description.slice(0, 50)}...` : description`. */
  function ShownDescription(description: string): (r: string)
    ensures |description| <= DescriptionLimit ==> r == description
    ensures |description| > DescriptionLimit ==> |r| == DescriptionLimit + 3 && r[DescriptionLimit..] == "..."
    ensures |r| <= DescriptionLimit + 3
    ensures var k := if |description| < DescriptionLimit then |description| else DescriptionLimit;
            k <= |r| && r[..k] == description[..k]
  {
    if |description| > DescriptionLimit then description[..DescriptionLimit] + "..." else description
  }

  /**
   * `book.oldPrice != null ? `$${book.oldPrice}` : ''`; `show` stands for the
   * conversion of a number to its text.
   */
  function OldPriceText(oldPrice: Option<Num>, show: Num -> string): (r: string)
    ensures oldPrice.None? <==> r == ""
    ensures oldPrice.Some? ==> r == "$" + show(oldPrice.value)
  {
    if oldPrice.Some? then "$" + show(oldPrice.value) else ""
  }

  /** The cover and the title of a card both link here. */
  function BookLink(b: Book): (r: string)
    ensures |r| == |"/books/"| + |b.id|
    ensures r[..7] == "/books/" && r[7..] == b.id
  {
    "/books/" + b.id
  }
}
