/**
 * The book routes (backend/routes/book.route.js) over an in-memory Book
 * collection kept in insertion order. Reads are open; create, update and
 * delete run only when the admin-token middleware calls `next`.
 */
module BookRoute {
  import opened Common
  import opened BookModel
  import AdminToken

  datatype Body =
    | BookData(book: Option<Book>)
    | BookList(books: seq<Book>)
    | Message(text: string)

  datatype Reply = Reply(status: nat, success: bool, body: Body)

  /**
   * The replies a handler tries to send, in order: Express delivers the first;
   * later ones throw. `escaped` records an exception thrown by the `catch`
   * block's own send, which leaves the async handler as a rejected promise
   * that Express 4 does not catch.
   */
  datatype Sent = Sent(delivered: Reply, unsent: seq<Reply>, escaped: bool)

  const ListErrorReply := Reply(SERVER_ERROR, false, Message("Failed to fetch all books"))
  const NotFoundReply := Reply(NOT_FOUND, false, Message("Book not found"))
  const FetchErrorReply := Reply(SERVER_ERROR, false, Message("Failed to fetch the book"))
  const CreateErrorReply := Reply(SERVER_ERROR, false, Message("An error occurred while creating the book"))
  const UpdateErrorReply := Reply(SERVER_ERROR, false, Message("Failed to update book"))
  const DeletedReply := Reply(OK, true, Message("Book deleted successfully"))
  const DeleteErrorReply := Reply(SERVER_ERROR, false, Message("Failed to delete book"))

  /** `GET /`: the whole collection with 200, or 500 when the store throws. */
  function ListBooks(store: seq<Book>, findFails: bool): (r: Reply)
    ensures !findFails <==> r.status == OK
    ensures r.status == OK ==> r.body == BookList(store)
    ensures findFails ==> r == ListErrorReply
  {
    if findFails then ListErrorReply else Reply(OK, true, BookList(store))
  }

  /**
   * `GET /:id`. A missing book is answered with 404, but without a `return`
   * control goes on to the 200 line, whose send throws (headers already sent),
   * and so does the 500 of the catch block, whose exception escapes the handler.
   */
  function GetBook(store: seq<Book>, id: Id, findFails: bool): (r: Sent)
    ensures findFails ==> r == Sent(FetchErrorReply, [], false)
    ensures !findFails && id in BookIds(store) ==>
              r.unsent == [] && r.delivered.status == OK
              && r.delivered.body.BookData? && r.delivered.body.book.Some?
              && r.delivered.body.book.value in store && r.delivered.body.book.value.id == id
    ensures r.escaped <==> !findFails && id !in BookIds(store)
    ensures !findFails && id !in BookIds(store) ==>
              r == Sent(NotFoundReply, [Reply(OK, true, BookData(None)), FetchErrorReply], true)
  {
    if findFails then Sent(FetchErrorReply, [], false)
    else
      var book := FindById(store, id);
      if book.None? then Sent(NotFoundReply, [Reply(OK, true, BookData(book)), FetchErrorReply], true)
      else Sent(Reply(OK, true, BookData(book)), [], false)
  }

  /**
   * Run an admin-only handler behind the middleware: when `next` is not called
   * the middleware's reply is the answer and the store is left alone.
   */
  function Gated(gate: AdminToken.Outcome, store: seq<Book>, handler: (Reply, seq<Book>)): (r: (Reply, seq<Book>))
    requires gate.nextCalls + (if gate.reply.Some? then 1 else 0) == 1
    ensures gate.nextCalls == 1 ==> r == handler
    ensures gate.nextCalls != 1 ==> r == (MiddlewareReply(gate.reply.value), store)
  {
    if gate.nextCalls == 1 then handler else (MiddlewareReply(gate.reply.value), store)
  }

  /** The middleware's `{ success, message }` body as a reply of this router. */
  function MiddlewareReply(m: AdminToken.Reply): Reply {
    Reply(m.status, m.success, Message(m.message))
  }

  /** The create handler once the middleware let the request through. */
  function CreateBookHandler(store: seq<Book>, body: BookInput, freshId: Id, now: Time, saveFails: bool)
    : (r: (Reply, seq<Book>))
    requires freshId !in BookIds(store)
    ensures DistinctIds(store) ==> DistinctIds(r.1)
    ensures r.0.status == CREATED <==> !saveFails && ValidBookInput(body)
    ensures r.0.status == CREATED ==>
              SaveBook(body, freshId, now).Some?
              && r.0 == Reply(CREATED, true, BookData(SaveBook(body, freshId, now)))
              && r.1 == store + [SaveBook(body, freshId, now).value]
    ensures r.0.status != CREATED ==> r.0 == CreateErrorReply && r.1 == store
  {
    var saved := SaveBook(body, freshId, now);
    if saved.None? || saveFails then (CreateErrorReply, store)
    else
      BookIdsAppend(store, saved.value);
      (Reply(CREATED, true, BookData(saved)), store + [saved.value])
  }

  /** `POST /create-book` behind `verifyAdminToken`. */
  function CreateBook(store: seq<Book>, header: Option<string>, verify: string -> AdminToken.VerifyResult,
                      body: BookInput, freshId: Id, now: Time, saveFails: bool): (r: (Reply, seq<Book>))
    requires freshId !in BookIds(store)
    ensures r.1 != store ==> AdminToken.VerifyAdminToken(header, verify).nextCalls == 1
    ensures AdminToken.VerifyAdminToken(header, verify).nextCalls == 1 ==>
              r == CreateBookHandler(store, body, freshId, now, saveFails)

    ensures AdminToken.VerifyAdminToken(header, verify).nextCalls != 1 ==>
              r == (MiddlewareReply(AdminToken.VerifyAdminToken(header, verify).reply.value), store)
  {
    Gated(AdminToken.VerifyAdminToken(header, verify), store, CreateBookHandler(store, body, freshId, now, saveFails))
  }

  /** A book created by an admin is at the end of the next listing. */
  lemma CreatedBookIsListed(store: seq<Book>, body: BookInput, freshId: Id, now: Time)
    requires freshId !in BookIds(store)
    requires ValidBookInput(body)
    ensures var (reply, store') := CreateBookHandler(store, body, freshId, now, false);
            && reply.status == CREATED && reply.body.BookData? && reply.body.book.Some?
            && ListBooks(store', false) == Reply(OK, true, BookList(store + [reply.body.book.value]))
  {
  }

  /** Overwrite the book with the given id, keeping every other book and the order. */
  function ReplaceById(store: seq<Book>, id: Id, patch: BookPatch, now: Time): (r: seq<Book>)
    ensures |r| == |store|
    ensures BookIds(r) == BookIds(store)
    ensures forall i :: 0 <= i < |store| ==>
              r[i] == (if store[i].id == id then ApplyPatch(store[i], patch, now) else store[i])
  {
    if |store| == 0 then []
    else [if store[0].id == id then ApplyPatch(store[0], patch, now) else store[0]]
         + ReplaceById(store[1..], id, patch, now)
  }

  /** The update handler once the middleware let the request through. */
  function UpdateBookHandler(store: seq<Book>, id: Id, patch: BookPatch, now: Time, updateFails: bool)
    : (r: (Reply, seq<Book>))
    ensures DistinctIds(store) ==> DistinctIds(r.1)
    ensures updateFails ==> r == (UpdateErrorReply, store)
    ensures !updateFails && id !in BookIds(store) ==> r == (NotFoundReply, store)
    ensures !updateFails && id in BookIds(store) ==>
              r.0.status == OK && r.0.body.BookData? && r.0.body.book.Some?
              && r.0.body.book.value == ApplyPatch(FindById(store, id).value, patch, now)
              && r.0.body.book.value in r.1
    ensures |r.1| == |store|
    ensures forall i :: 0 <= i < |store| && store[i].id != id ==> r.1[i] == store[i]
  {
    if updateFails then (UpdateErrorReply, store)
    else
      var found := FindById(store, id);
      if found.None? then (NotFoundReply, store)
      else
        var store' := ReplaceById(store, id, patch, now);
        UpdatedIsStored(store, id, patch, now);
        (Reply(OK, true, BookData(Some(ApplyPatch(found.value, patch, now)))), store')
  }

  /** The patched version of the found book is in the updated store. */
  lemma {:induction false} UpdatedIsStored(store: seq<Book>, id: Id, patch: BookPatch, now: Time)
    requires FindById(store, id).Some?
    ensures ApplyPatch(FindById(store, id).value, patch, now) in ReplaceById(store, id, patch, now)
  {
    if store[0].id == id {
      assert ReplaceById(store, id, patch, now)[0] == ApplyPatch(store[0], patch, now);
    } else {
      UpdatedIsStored(store[1..], id, patch, now);
      assert ReplaceById(store, id, patch, now)[1..] == ReplaceById(store[1..], id, patch, now);
    }
  }

  /** `PUT /update-book/:id` behind `verifyAdminToken`. */
  function UpdateBook(store: seq<Book>, header: Option<string>, verify: string -> AdminToken.VerifyResult,
                      id: Id, patch: BookPatch, now: Time, updateFails: bool): (r: (Reply, seq<Book>))
    ensures r.1 != store ==> AdminToken.VerifyAdminToken(header, verify).nextCalls == 1
    ensures AdminToken.VerifyAdminToken(header, verify).nextCalls == 1 ==>
              r == UpdateBookHandler(store, id, patch, now, updateFails)

    ensures AdminToken.VerifyAdminToken(header, verify).nextCalls != 1 ==>
              r == (MiddlewareReply(AdminToken.VerifyAdminToken(header, verify).reply.value), store)
  {
    Gated(AdminToken.VerifyAdminToken(header, verify), store, UpdateBookHandler(store, id, patch, now, updateFails))
  }

  /** The delete handler once the middleware let the request through. */
  function DeleteBookHandler(store: seq<Book>, id: Id, deleteFails: bool): (r: (Reply, seq<Book>))
    ensures deleteFails ==> r == (DeleteErrorReply, store)
    ensures !deleteFails ==> r.0 == DeletedReply
    ensures !deleteFails ==> id !in BookIds(r.1)
    ensures forall b :: b in r.1 <==> b in store && (deleteFails || b.id != id)
    ensures Subsequence(r.1, store)
    ensures DistinctIds(store) ==> DistinctIds(r.1)
  {
    if deleteFails then
      SubsequenceReflexive(store);
      (DeleteErrorReply, store)
    else
      (DeletedReply, WithoutId(store, id))
  }

  /** `DELETE /delete-book/:id` behind `verifyAdminToken`. */
  function DeleteBook(store: seq<Book>, header: Option<string>, verify: string -> AdminToken.VerifyResult,
                      id: Id, deleteFails: bool): (r: (Reply, seq<Book>))
    ensures r.1 != store ==> AdminToken.VerifyAdminToken(header, verify).nextCalls == 1
    ensures AdminToken.VerifyAdminToken(header, verify).nextCalls == 1 ==> r == DeleteBookHandler(store, id, deleteFails)

    ensures AdminToken.VerifyAdminToken(header, verify).nextCalls != 1 ==>
              r == (MiddlewareReply(AdminToken.VerifyAdminToken(header, verify).reply.value), store)
  {
    Gated(AdminToken.VerifyAdminToken(header, verify), store, DeleteBookHandler(store, id, deleteFails))
  }

  /** Deleting an id nobody has still answers 200 and leaves the collection as it was. */
  lemma {:induction false} DeleteAbsentIsOk(store: seq<Book>, id: Id)
    requires id !in BookIds(store)
    ensures DeleteBookHandler(store, id, false) == (DeletedReply, store)
  {
    WithoutAbsentId(store, id);
  }
}
