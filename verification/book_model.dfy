/**
 * The Book schema (backend/models/book.model.js): the request body a book is
 * built from, the saved document with its timestamps, the schema's `required`
 * rules, and the partial overwrite `findByIdAndUpdate` performs.
 */
module BookModel {
  import opened Common

  /** A request body handed to `new Book(...)`: any schema path may be missing. */
  datatype BookInput = BookInput(
    title: Option<string>,
    author: Option<string>,
    description: Option<string>,
    category: Option<string>,
    trending: Option<bool>,
    coverImage: Option<string>,
    oldPrice: Option<Num>,
    newPrice: Option<Num>,
    rating: Option<Num>)

  /** A saved book document. `oldPrice` is the only optional path. */
  datatype Book = Book(
    id: Id,
    title: string,
    author: string,
    description: string,
    category: string,
    trending: bool,
    coverImage: string,
    oldPrice: Option<Num>,
    newPrice: Num,
    rating: Num,
    createdAt: Time,
    updatedAt: Time)

  /** The schema's `required: true` rules: every path but `oldPrice` must be present. */
  predicate ValidBookInput(b: BookInput) {
    && Filled(b.title)
    && Filled(b.author)
    && Filled(b.description)
    && Filled(b.category)
    && b.trending.Some?
    && Filled(b.coverImage)
    && b.newPrice.Some?
    && b.rating.Some?
  }

  /** A stored document satisfies the schema's required rules. */
  predicate WellFormed(b: Book) {
    |b.title| > 0 && |b.author| > 0 && |b.description| > 0 && |b.category| > 0 && |b.coverImage| > 0
  }

  /** The schema paths of a stored book, as a request body carrying them would hold them. */
  function Fields(b: Book): BookInput {
    BookInput(Some(b.title), Some(b.author), Some(b.description), Some(b.category),
              Some(b.trending), Some(b.coverImage), b.oldPrice, Some(b.newPrice), Some(b.rating))
  }

  /**
   * `new Book(body).save()`: validation, then a document with the given fresh id
   * whose paths are exactly the body's and whose two timestamps are `now`.
   */
  function SaveBook(body: BookInput, id: Id, now: Time): (r: Option<Book>)
    ensures r.Some? <==> ValidBookInput(body)
    ensures r.Some? ==> Fields(r.value) == body && WellFormed(r.value)
    ensures r.Some? ==> r.value.id == id && r.value.createdAt == now && r.value.updatedAt == now
  {
    if !ValidBookInput(body) then None
    else Some(Book(id, body.title.value, body.author.value, body.description.value,
                   body.category.value, body.trending.value, body.coverImage.value,
                   body.oldPrice, body.newPrice.value, body.rating.value, now, now))
  }

  /** Saving the paths of a well-formed book gives the same book back, re-stamped. */
  lemma SaveFieldsRoundTrip(b: Book, now: Time)
    requires WellFormed(b)
    ensures SaveBook(Fields(b), b.id, now) == Some(b.(createdAt := now, updatedAt := now))
  {
  }

  /** One path of an update body: left out, or set to a value (`null` for `oldPrice`). */
  datatype Patch<+T> = Keep | Set(value: T)

  function Pick<T>(p: Patch<T>, current: T): T {
    match p
    case Keep => current
    case Set(v) => v
  }

  /** A path after the update: the old value when left out, the supplied one when set. */
  predicate Follows<T(==)>(p: Patch<T>, before: T, after: T) {
    if p.Set? then after == p.value else after == before
  }

  /** The body of `PUT /update-book/:id`; `oldPrice := Set(None)` stores `null`. */
  datatype BookPatch = BookPatch(
    title: Patch<string>,
    author: Patch<string>,
    description: Patch<string>,
    category: Patch<string>,
    trending: Patch<bool>,
    coverImage: Patch<string>,
    oldPrice: Patch<Option<Num>>,
    newPrice: Patch<Num>,
    rating: Patch<Num>)

  const NoChange := BookPatch(Keep, Keep, Keep, Keep, Keep, Keep, Keep, Keep, Keep)

  /**
   * `findByIdAndUpdate(id, body, {new: true})` on a found document: each supplied
   * path is overwritten, every other path keeps its value, `_id` and `createdAt`
   * are kept and `updatedAt` becomes `now`. No validator runs on this path.
   */
  function ApplyPatch(b: Book, p: BookPatch, now: Time): (r: Book)
    ensures r.id == b.id && r.createdAt == b.createdAt && r.updatedAt == now
    ensures Follows(p.title, b.title, r.title) && Follows(p.author, b.author, r.author)
    ensures Follows(p.description, b.description, r.description) && Follows(p.category, b.category, r.category)
    ensures Follows(p.trending, b.trending, r.trending) && Follows(p.coverImage, b.coverImage, r.coverImage)
    ensures Follows(p.oldPrice, b.oldPrice, r.oldPrice) && Follows(p.newPrice, b.newPrice, r.newPrice)
    ensures Follows(p.rating, b.rating, r.rating)
    ensures p == NoChange ==> r == b.(updatedAt := now)
  {
    b.(title := Pick(p.title, b.title),
       author := Pick(p.author, b.author),
       description := Pick(p.description, b.description),
       category := Pick(p.category, b.category),
       trending := Pick(p.trending, b.trending),
       coverImage := Pick(p.coverImage, b.coverImage),
       oldPrice := Pick(p.oldPrice, b.oldPrice),
       newPrice := Pick(p.newPrice, b.newPrice),
       rating := Pick(p.rating, b.rating),
       updatedAt := now)
  }

  /** Sending the same update twice leaves the book as sending it once did. */
  lemma ApplyPatchIdempotent(b: Book, p: BookPatch, now: Time)
    ensures ApplyPatch(ApplyPatch(b, p, now), p, now) == ApplyPatch(b, p, now)
  {
  }
  // Sequences of books: the stored collection and the client-side cart alike.

  /** The `_id` of every book, in order (`books.map(b => b._id)`). */
  function BookIds(books: seq<Book>): seq<Id> {
    Map((b: Book) => b.id, books)
  }

  /** No two books share an `_id`. */
  predicate DistinctIds(books: seq<Book>) {
    NoDuplicates(BookIds(books))
  }

  /** The first book with the given `_id`, if any (`find` / `findById`). */
  function FindById(books: seq<Book>, id: Id): (r: Option<Book>)
    ensures r.Some? ==> r.value in books && r.value.id == id
    ensures r.None? <==> id !in BookIds(books)
  {
    if |books| == 0 then None
    else if books[0].id == id then Some(books[0])
    else FindById(books[1..], id)
  }

  /** `books.filter(b => b._id !== id)`. */
  function WithoutId(books: seq<Book>, id: Id): (r: seq<Book>)
    ensures id !in BookIds(r)
    ensures forall b :: b in r <==> b in books && b.id != id
    ensures Subsequence(r, books)
    ensures DistinctIds(books) ==> DistinctIds(r)
  {
    var keep := (b: Book) => b.id != id;
    FilterIsSubsequence(keep, books);
    IdsWithoutId(books, id);
    if DistinctIds(books) then
      FilterNoDuplicates((x: Id) => x != id, BookIds(books));
      Filter(keep, books)
    else Filter(keep, books)
  }

  /** The ids left after dropping `id` are the old ids without `id`, in order. */
  lemma {:induction false} IdsWithoutId(books: seq<Book>, id: Id)
    ensures BookIds(Filter((b: Book) => b.id != id, books)) == Filter((x: Id) => x != id, BookIds(books))
  {
    if |books| > 0 {
      IdsWithoutId(books[1..], id);
      assert BookIds(books)[1..] == BookIds(books[1..]);
      var rest := Filter((b: Book) => b.id != id, books[1..]);
      if books[0].id != id {
        assert BookIds([books[0]] + rest) == [books[0].id] + BookIds(rest) by {
          assert ([books[0]] + rest)[1..] == rest;
        }
      }
    }
  }

  /** Dropping an id nobody has changes nothing. */
  lemma WithoutAbsentId(books: seq<Book>, id: Id)
    requires id !in BookIds(books)
    ensures WithoutId(books, id) == books
  {
    var keep := (b: Book) => b.id != id;
    forall b | b in books ensures keep(b) {
      var i :| 0 <= i < |books| && books[i] == b;
      assert BookIds(books)[i] == b.id;
    }
    FilterAll(keep, books);
  }

  /** Appending a book adds its id at the end of the id list. */
  lemma BookIdsAppend(books: seq<Book>, b: Book)
    ensures BookIds(books + [b]) == BookIds(books) + [b.id]
  {
    assert |BookIds(books + [b])| == |books| + 1;
  }
}
