# Bookstore: a Dafny model of the cart, checkout, admin routes and catalog rules

This project models the core of a small MERN bookstore. The server is Express plus Mongoose; the client is React plus Redux Toolkit. It proves properties of that model. The modelled parts are:

- **Client-side cart** (`CartSlice`): a Redux slice holding a list of books. `addToCart` refuses a book whose `_id` is already there, `removeFromCart` filters by `_id`, and `clearCart` empties the list. Every cart reachable from the initial state holds each `_id` at most once.
- **Checkout page** (`Checkout`): the order payload assembled from the form and the cart. The terms checkbox disables only the "Place an Order" button; the form's other, type-less buttons and the Enter key still submit (see Findings). The cart is cleared only after the server accepted the order.
- **Schemas** (`BookModel`, `OrderModel`, `UserModel`): the `required` rules, the `enum` on `role`, and the timestamps. `BookModel` also models the partial overwrite `findByIdAndUpdate` performs. `UserModel` models the `pre('save')` hook, which hashes a modified password with 10 salt rounds.
- **Admin-token middleware** (`AdminToken`): `Authorization` is split on single spaces, and its second field is handed to `jwt.verify`. The outcome is 401 when no token is present, 401 when the token has expired, 403 when it is invalid, and otherwise `next()` with `req.user` set.
- **Admin login** (`UserRoute`): a lookup by username, then a comparison with the stored password field *as written*. That comparison is JavaScript's loose `!=`, not `bcrypt.compare`. On success the route signs a one-hour token.
- **Order routes** (`OrderRoute`): create an order, and list orders by email.
- **Book routes** (`BookRoute`): list, get, and create/update/delete behind the middleware. Each handler is modelled on an in-memory collection kept in insertion order.
- **Storefront views** (`CatalogViews`, `UpdateBookForm`, `PrivateRoute`):
  - the trending slider and the curator's spotlight with its genre selector;
  - book-card text;
  - the dashboard edit form, covering its `oldPrice` round trip and the kept cover image;
  - the private-route guard.
- **End to end** (`Storefront`):
  - the client's `Bearer` header meets the middleware;
  - a login token is replayed on an admin route;
  - a checkout lands in the order collection;
  - an untouched edit form is re-saved.

Conventions:

- **Collections** are sequences in insertion order with a distinct-`_id` invariant.
- **Effects outside the model** are parameters:
  - the store's faults are boolean parameters;
  - generated ids and timestamps are parameters, and a generated id must be fresh;
  - `jwt.sign`, `jwt.verify` and `bcrypt.hash` are function parameters;
  - so are the number/text conversions.
- **JavaScript semantics** that the code relies on are written out:
  - truthiness;
  - the loose `==` under which `0 == ''`;
  - destructuring a missing key to `undefined`;
  - Express throwing on a second send.

## Model

| member | source | states |
|---|---|---|
| CartSlice.InitialStateValid | frontend/src/redux/features/cart/cartSlice.js:6-8 | The initial cart is empty and satisfies the one-entry-per-`_id` invariant. |
| CartSlice.AddToCart | frontend/src/redux/features/cart/cartSlice.js:14-44 | A payload whose `_id` is already in the cart leaves the cart unchanged. Otherwise the payload is appended at the end and the cart grows by one. Afterwards the `_id` is present, and the invariant is preserved. |
| CartSlice.RemoveFromCart | frontend/src/redux/features/cart/cartSlice.js:46-50 | Afterwards no item has the payload's `_id`. The items kept are exactly the old items with a different `_id`, in their old order. The invariant is preserved. |
| CartSlice.ClearCart | frontend/src/redux/features/cart/cartSlice.js:52-54 | The result is the initial (empty, valid) cart whatever the state. |
| CartSlice.AddIdempotent | frontend/src/redux/features/cart/cartSlice.js:17-19 | Adding the same book twice is the same as adding it once. |
| CartSlice.RemoveAbsentIsNoOp | frontend/src/redux/features/cart/cartSlice.js:49 | Removing an `_id` the cart does not hold changes nothing. |
| CartSlice.AddThenRemoveRestores | frontend/src/redux/features/cart/cartSlice.js:14-50 | Adding a new book and then removing it restores the original cart. |
| CartSlice.ReachableCartsValid | frontend/src/redux/features/cart/cartSlice.js:6-54 | Every cart reached from the initial state by any sequence of the three actions holds each `_id` at most once. |
| Checkout.BuildOrder | frontend/src/pages/books/CheckoutPage.jsx:43-56 | The form can be read back from the payload unchanged. `productIds` lists the cart's `_id`s in cart order, one per item, and is duplicate-free when the cart is valid. The total is passed through. |
| Checkout.PlaceOrder | frontend/src/pages/books/CheckoutPage.jsx:41-88 | An order is sent iff every required field is filled and either the terms box is checked or the submission did not come from the place-order button (Enter, or one of the icon buttons). It is `BuildOrder` of the cart. A resolved request clears the cart and navigates to `/orders`. A rejected one keeps the cart and stays on the page. Cart validity is preserved. |
| Checkout.TermsGateBypassed | frontend/src/pages/books/CheckoutPage.jsx:159-209 | With the terms box unchecked, Enter or an icon button still sends the order of a complete form. |
| Checkout.PlaceOrderGated | frontend/src/pages/books/CheckoutPage.jsx:205-209 | With the icon buttons made non-submitting, an order is sent only when the terms box is checked, and then iff the form is complete; the cart and navigation behave as in `PlaceOrder`. |
| Checkout.GatedAgreesWhenChecked | frontend/src/pages/books/CheckoutPage.jsx:207-209 | With the terms box checked the gated page acts exactly as written for Enter and the place-order button; with it unchecked it sends nothing. |
| AdminToken.Split | backend/middleware/verifyAdminToken.js:14 | `split(' ')` yields at least one field, none containing a space, and joining the fields with single spaces gives back the input. |
| AdminToken.SplitSpaceFree | backend/middleware/verifyAdminToken.js:14 | A string without a space splits into itself alone. |
| AdminToken.SplitTwoWords | backend/middleware/verifyAdminToken.js:14 | `a + " " + b` with space-free `a`, `b` splits into exactly `[a, b]`. |
| AdminToken.VerifyAdminToken | backend/middleware/verifyAdminToken.js:10-40 | Exactly one of `next()` and a reply happens. A missing or empty second header field gives 401 "Access denied. No token provided.". An expired token gives 401 "Token has expired. Please log in again.". Any other verification error gives 403 "Invalid token". `next()` is called iff a token is present and verifies, and then `req.user` is the decoded payload. |
| AdminToken.HeaderWithoutSpaceRejected | backend/middleware/verifyAdminToken.js:14-19 | A header with no space carries no token and is answered with the 401 no-token reply. |
| AdminToken.SchemeAndRoleIgnored | backend/middleware/verifyAdminToken.js:14-29 | Whatever word precedes the token, and whatever role the claims hold, a token that verifies passes the request on with its payload. |
| UserModel.PreSave | backend/models/user.model.js:22-33 | An unmodified password leaves the document as it is. A modified one is replaced by `hash(password, 10)`. No other path changes. |
| UserModel.SaveUser | backend/models/user.model.js:5-33 | A save succeeds iff the username and password are non-empty and the role is 'user' or 'admin'. The stored document is the one the hook produced. |
| UserModel.SaveDocument | backend/models/user.model.js:22-33 | A save succeeds iff the document validates. A new document, or a loaded one whose password was assigned a different value, is stored with `hash(password, 10)`; otherwise it is stored as it is. |
| UserModel.ResaveDoesNotRehash | backend/models/user.model.js:25 | A new user is stored with the hash of the password, and saving that stored document again stores it unchanged: a hash is never hashed twice. |
| UserRoute.FindOne | backend/routes/user.route.js:21 | The lookup reports a position holding the username with no earlier match, or reports none when no document holds it. |
| UserRoute.AdminLogin | backend/routes/user.route.js:15-55 | The status is one of 200/401/404/500, and a token and a public user are returned iff it is 200. A lookup failure gives 500. 404 iff no user has the username. 401 iff the user exists and the submitted password differs from the stored field. On 200 the password equals the stored field, the token is `sign({id, username, role}, 3600)`, and the body's user is `{username, role}`. A found user with a matching password gets 200 iff signing succeeds. Every 500 is the same "An error occurred while logging in admin" reply. |
| UserRoute.UnknownUserNeverUnauthorized | backend/routes/user.route.js:21-26 | An unknown username gets 404 "Admin not found" whatever password is sent. |
| UserRoute.PlaintextRefusedAfterHashing | backend/routes/user.route.js:29-31 | Once the save hook has hashed a user's password, logging in with the plaintext gets 401. Sending the hash string itself gets 200 when signing succeeds. |
| UserRoute.FindOneFirst | backend/routes/user.route.js:21 | When no earlier user has position k's username, the lookup reports k. |
| OrderModel.SaveOrder | backend/models/order.model.js:3-54 | A save succeeds iff name, email, phone and the five location paths are non-empty, every `productIds` element is present, and `totalPrice` is present. The order then has the fresh id and both timestamps equal to `now`, and every path equals the body's, `productIds` element by element. |
| OrderModel.EmptyProductIdsAccepted | backend/models/order.model.js:39-47 | An order with an empty or missing `productIds` passes validation and is stored with no product. |
| OrderRoute.CreateOrder | backend/routes/order.route.js:7-20 | 201 iff the body validates and the save does not fail. The reply then carries the saved order, which is appended to the collection. Otherwise the reply is the 500 message and the collection is unchanged. Id uniqueness is preserved. |
| OrderRoute.WithEmail | backend/routes/order.route.js:27 | The orders found are exactly the stored orders with that email, in collection order. |
| OrderRoute.GetOrdersByEmail | backend/routes/order.route.js:23-39 | A find failure gives 500 "Failed to fetch orders". Otherwise 200 with exactly the matching orders in collection order. The 404 is never delivered and no exception escapes the handler. |
| OrderRoute.NoMatchIsEmptyList | backend/routes/order.route.js:27-33 | When no order has the email, the answer is 200 with an empty list. |
| OrderRoute.CreatedOrderIsListed | backend/routes/order.route.js:7-39 | After a successful create, listing that email returns the previous matches followed by the new order. |
| BookModel.SaveBook | backend/models/book.model.js:4-43 | A save succeeds iff every path but `oldPrice` is present, with non-empty strings. The book then holds exactly the body's paths, the fresh id, and `createdAt = updatedAt = now`. |
| BookModel.SaveFieldsRoundTrip | backend/models/book.model.js:4-43 | Saving the paths of a well-formed book yields that book again, re-stamped. |
| BookModel.ApplyPatch | backend/routes/book.route.js:62 | Every supplied path is overwritten and every omitted path keeps its value; `_id` and `createdAt` are kept and `updatedAt` is `now`. An empty body only touches `updatedAt`. |
| BookModel.ApplyPatchIdempotent | backend/routes/book.route.js:62 | Applying the same update twice equals applying it once. |
| BookModel.FindById | backend/routes/book.route.js:24 | The lookup finds none iff no stored book has the id; a found book is stored and has that id. |
| BookModel.WithoutId | frontend/src/redux/features/cart/cartSlice.js:49 | Filtering by `_id` leaves no book with the id, keeps exactly the other books in order, and preserves distinct ids. |
| BookRoute.ListBooks | backend/routes/book.route.js:8-17 | 200 with the whole collection iff the find does not fail, and otherwise exactly the 500 "Failed to fetch all books" reply. |
| BookRoute.GetBook | backend/routes/book.route.js:20-36 | A stored id gives 200 with that book. A missing id delivers 404 "Book not found", and the following 200 (with `null`) and 500 sends are left unsent because headers are already out. An exception escapes the handler exactly in that case. A find failure gives 500. |
| BookRoute.CreatedBookIsListed | backend/routes/book.route.js:8-53 | After a successful create, the listing is the previous collection followed by the new book. |
| BookRoute.Gated | backend/routes/book.route.js:40 | Behind the middleware the handler runs iff `next()` is called. Otherwise the middleware's reply is the answer and the collection is untouched. |
| BookRoute.CreateBookHandler | backend/routes/book.route.js:40-53 | 201 iff the body validates and the save does not fail, with the saved book appended. Otherwise 500 and no change. Id distinctness is preserved. |
| BookRoute.CreateBook | backend/routes/book.route.js:40-53 | The collection changes only when the middleware called `next()`, and then the answer is the handler's. Otherwise the answer is the middleware's own 401 or 403 and the collection is unchanged. |
| BookRoute.ReplaceById | backend/routes/book.route.js:62 | Same length and same ids in the same order; the book with the id is patched and every other book is kept. |
| BookRoute.UpdateBookHandler | backend/routes/book.route.js:57-74 | A failure gives 500 and an unknown id gives 404, both leaving the collection unchanged. Otherwise 200 with the patched book, which is in the new collection, and no other book changes. |
| BookRoute.UpdatedIsStored | backend/routes/book.route.js:62-68 | The patched version of the found book is in the collection after the update. |
| BookRoute.UpdateBook | backend/routes/book.route.js:57-74 | The collection changes only when the middleware called `next()`, and then the answer is the handler's. Otherwise the answer is the middleware's own 401 or 403 and the collection is unchanged. |
| BookRoute.DeleteBookHandler | backend/routes/book.route.js:78-89 | Without failure the answer is 200 "Book deleted successfully" and no book with the id remains. The others are kept in order. A failure gives 500 and no change. |
| BookRoute.DeleteBook | backend/routes/book.route.js:78-89 | The collection changes only when the middleware called `next()`, and then the answer is the handler's. Otherwise the answer is the middleware's own 401 or 403 and the collection is unchanged. |
| BookRoute.DeleteAbsentIsOk | backend/routes/book.route.js:82-83 | Deleting an id nobody has still answers 200 and leaves the collection as it was. |
| CatalogViews.Catalog | frontend/src/pages/home/CuratorsSpotlight.jsx:21-26 | Nothing loaded, or a response without a `data` array, gives the empty list; otherwise the loaded array. |
| CatalogViews.TrendingBooks | frontend/src/pages/home/Trending.jsx:26 | The slider shows exactly the catalog's trending books, in catalog order. |
| CatalogViews.SpotlightBooks | frontend/src/pages/home/CuratorsSpotlight.jsx:33 | With "Choose a genre" selected, exactly the non-trending books are shown. With a genre selected, exactly the non-trending books of that genre. Never a trending book; catalog order is kept. |
| CatalogViews.NothingLoadedNothingShown | frontend/src/pages/home/Trending.jsx:19-26 | Before the query returns, both sliders are empty. |
| CatalogViews.TrendingAndDefaultSpotlightPartition | frontend/src/pages/home/CuratorsSpotlight.jsx:33 | The trending slider and the default spotlight together hold every catalog book exactly once (as multisets) and share no book. |
| CatalogViews.ShownDescription | frontend/src/pages/books/BookCard.jsx:29 | A description of at most 50 characters is shown whole. A longer one becomes its first 50 characters plus "...". |
| CatalogViews.OldPriceText | frontend/src/pages/books/BookCard.jsx:31 | The old price text is empty iff there is no old price, and is "$" followed by the number otherwise. |
| CatalogViews.BookLink | frontend/src/pages/books/BookCard.jsx:19 | A card links to "/books/" followed by the book's `_id`. |
| UpdateBookForm.PopulatedOldPrice | frontend/src/pages/dashboard/UpdateBook.jsx:35 | A missing or zero `oldPrice` fills the field with the empty text; any other value fills it with that number. |
| UpdateBookForm.SubmittedOldPrice | frontend/src/pages/dashboard/UpdateBook.jsx:51 | `null` is sent iff the field holds the empty text or the number 0 (loose `==`); otherwise the field's numeric value. |
| UpdateBookForm.PickFile | frontend/src/pages/dashboard/UpdateBook.jsx:105-111 | A picked file replaces the remembered cover name. No file changes nothing, and the form values are untouched. |
| UpdateBookForm.Submit | frontend/src/pages/dashboard/UpdateBook.jsx:43-55 | The body carries the form's text fields, `trending` and `rating` as they are. `oldPrice` is the loose-`==` conversion (`null` for the empty text or 0, else the number) and `newPrice` is the field's number. The cover is the remembered file name. |
| UpdateBookForm.Populate | frontend/src/pages/dashboard/UpdateBook.jsx:28-40 | Every form field is the loaded book's value, `oldPrice` through `oldPrice \|\| ''`, and the remembered cover name is the book's cover. |
| UpdateBookForm.SubmitForm | frontend/src/pages/dashboard/UpdateBook.jsx:118-160 | The body is built iff title, author, genre, `newPrice` and `rating` are not the empty text (the fields registered as required), and it is then `Submit`'s body. |
| UpdateBookForm.PopulatedFormSubmits | frontend/src/pages/dashboard/UpdateBook.jsx:119-160 | A loaded book's untouched form submits iff its title, author and genre are non-empty. |
| UpdateBookForm.UntouchedResubmit | frontend/src/pages/dashboard/UpdateBook.jsx:28-55 | Loading a book and submitting untouched sends back its fields and cover. `oldPrice` comes back as `null` when it was missing or 0. |
| UpdateBookForm.PickedFileIsSubmitted | frontend/src/pages/dashboard/UpdateBook.jsx:54 | After a file is picked, the submitted cover is that file's name. |
| PrivateRoute.Guard | frontend/src/routers/PrivateRoute.jsx:8-33 | The loading text shows iff the context's `loading` key is truthy. The page renders iff it is not and `currentUser` is truthy. Otherwise the guard redirects to `/login`, replacing the history entry. |
| PrivateRoute.LoadingBranchUnreachable | frontend/src/firebase/AuthContext.jsx:70-77 | The provider publishes `isLoading`, not `loading`. So under it the loading text never shows: a signed-in user gets the page and anyone else the redirect, even while loading. |
| Storefront.AuthorizationHeader | frontend/src/redux/features/books/booksAPI.js:19-22 | A header is set iff a non-empty token is stored, and it is then `Bearer ` followed by the token. |
| Storefront.BearerRoundTrip | frontend/src/redux/features/books/booksAPI.js:21 | The middleware extracts exactly the space-free token the client put after "Bearer ". |
| Storefront.LoginTokenPassesMiddleware | backend/routes/user.route.js:34-38 | Suppose signing and verifying agree within the hour. Then the token of a successful login, sent as the client sends it, passes the middleware with `req.user` holding the user's id, username and role. This holds whatever the role, so a 'user' passes too. |
| Storefront.ToOrderInput | frontend/src/pages/books/CheckoutPage.jsx:43-56 | The body the server receives carries the payload's name, email, phone and five location fields as present values, every payload id in order as a present element, and the cast total. |
| Storefront.CheckoutOnServer | frontend/src/pages/books/CheckoutPage.jsx:58-74 | The collection either stays as it was, with the cart kept and no navigation, or grows by one order. In that case the form was complete and the submission got past the terms gate, the cart is cleared, the page navigates to `/orders`, and the order holds the cart's ids in order (duplicate-free for a valid cart), the form's name, email, phone and location, and the cast total. A complete form that gets past the gate, whose total casts, with no store fault, always stores the order. |
| Storefront.EnterStoresOrderWithoutTerms | frontend/src/pages/books/CheckoutPage.jsx:159-209 | With the terms box unchecked, pressing Enter in a complete form stores a new order. |
| Storefront.UntouchedEditKeepsBook | frontend/src/pages/dashboard/UpdateBook.jsx:43-55 | Opening the edit form and saving untouched rewrites the stored book as it was, except that an `oldPrice` of 0 becomes `null` and `updatedAt` is new. |

## Left out

- HTTP, Express routing, JSON serialisation, MongoDB connections, `console` output and the Swal alerts are not modelled. Replies are values, and a store fault is a boolean parameter.
- `jwt.sign`, `jwt.verify` and `bcrypt.hash` are parameters. So are secrets, salt randomness and real clock time; the model does not model the cryptography.
- Generated `_id`s and timestamps are parameters, and a generated `_id` is assumed fresh. ObjectId format checks and Mongoose cast errors on malformed ids or numbers are not modelled. A malformed id is treated as an id nobody has.
- Numbers are stored and compared only. The checkout total (floating-point sum and `toFixed(2)`) is computed outside the model. `Number(text)` and number-to-text are parameters.
- String lengths are counted in characters, whereas JavaScript counts UTF-16 code units.
- `trending` is a boolean. A body holding another value that Mongoose would cast is not modelled.
- BookModel.SaveBook: an `_id`, `createdAt` or `updatedAt` in the create body is not modelled. Mongoose keeps a supplied `_id` and a supplied `createdAt`, and then sets `updatedAt` to that `createdAt`; the model always uses the generated id and `now`.
- OrderModel.SaveOrder: the same holds for an `_id`, `createdAt` or `updatedAt` in an order body.
- BookModel.ApplyPatch: an update body cannot set a required path to `null`. Mongoose would store it, because `findByIdAndUpdate` runs no validators.
- UserRoute.AdminLogin: the username is always a string and the password a string or missing. A body without `username` makes `findOne({})` match the first user; an object username such as `{"$ne": ""}` becomes a query operator that also matches the first user; a non-string password is compared by the loose `!=` after coercion (`["x"] != "x"` is false). None of these cases is modelled.
- BookRoute.GetBook: the escaping exception is recorded, not what Node does with the unhandled rejection.
- Registration, Firebase authentication, `localStorage`, the loading spinners and the image upload are not modelled; the edit form keeps only the file name. The remaining pages (orders list, dashboard statistics, book detail, navigation) are not modelled either.
- Usernames are not unique: the schema declares no `unique` index, so the login takes the first user with the username.
- The login never calls `bcrypt.compare`: it compares the submitted password with the stored field, which the save hook has replaced by a hash. The model keeps that comparison as written.
- The Order schema sets no minimum length on `productIds`, so an order naming no book is accepted.

## Findings

| source | as written | input that shows it | evidently intended | confidence | as-written member | corrected member |
|---|---|---|---|---|---|---|
| frontend/src/pages/books/CheckoutPage.jsx:159-209 | Only "Place an Order" has `disabled={!isChecked}`; the four icon buttons beside country and state have no `type`, so they are submit buttons, and the first of them is the form's default button for Enter. | Terms box unchecked, every field filled, Enter pressed in "Full Name": the order is sent, stored, and the cart cleared. | No order is placed unless the terms are accepted (the icon buttons as `type='button'`). | medium; not executed | Checkout.PlaceOrder, Checkout.TermsGateBypassed | Checkout.PlaceOrderGated, Checkout.GatedAgreesWhenChecked |

`Storefront.CheckoutOnServer` keeps the as-written gate, because it describes the page as it runs; `Storefront.EnterStoresOrderWithoutTerms` carries the bypass end to end.
