# Elite Fitness booking server, modelled in Dafny

The Elite Fitness server is a single Express module (`server.js`) for a fitness studio. Users create
accounts, log in, browse the catalog of classes, put classes in a cart and check out. Checkout
produces payment records. Its state lives in four document collections (users, classes, carts,
payments) and in the browser session (`hasLoggedIn`, `username`, `subscription`).

This project models that state as an in-memory studio. The four collections are sequences
and the session is a record (`records.dfy`). The handlers are methods of the class
`Handlers.Studio`, and each answers with a `Reply`: the page or plain-text message it would
render (`studio.dfy`). The document-store calls are functions on the sequences (`store.dfy`):
`findOne` returns the first match, `find` keeps the matches in stored order, `deleteOne` removes
the first match and `deleteMany` filters. The handlers repeat three loops, and each is a method
proved against a specification function:

- the availability filter (`availability.dfy`): the catalog classes that no cart line refers to,
  behind an empty-catalog guard and a "fully booked" guard that compares counts;
- the cart totals (`checkout.dfy`): a subtotal of 0 for subscribers and otherwise the sum of the
  line amounts, 13% tax, and the total;
- the cart join (`cart_join.dfy`): one display row per (cart line, class) pair with equal ids,
  carrying the line's amount.

`scenarios.dfy` states request sequences on a fresh studio and proves their outcomes from the
handlers' contracts and the store and filter lemmas, not from the handler bodies.

The model keeps the source's quirks. The "fully booked" test counts lines and does not compare ids.
remove-item is not scoped by user. pay trusts the total it is given and records the payment
before clearing the cart. An unknown class id in add-class fails before anything is saved.

Other behaviour of `server.js` that the model keeps as written:

- Login shows two different messages: "Invalid username or password" for an unknown user
  (server.js:135) and "Invalid password" for a wrong password (server.js:210).
- The "fully booked" guard compares raw counts, not distinct ids (server.js:176).
  `Availability.CountGuardExactForDistinctCarts` proves that the count agrees with a comparison
  of ids when the cart's ids are distinct catalog ids. `Availability.FullyBookedByCountOnly`
  shows a case where the two differ.
- Tax is `subtotal * 0.13` with no rounding. The model keeps it exact.
- remove-item reports "Could not find the item" only when no cart line has that class id. When a
  line is found it is always deleted, and the page then shows the session user's cart, which can
  itself be the empty-cart or no-classes error (server.js:608-615, 631-637).

## Model

| member | source | states |
|---|---|---|
| `Store.FindUser` | server.js:129 | `User.findOne({username})`: a found index holds that username and no earlier user does; nothing is found exactly when no user has it |
| `Store.FindClass` | server.js:411-413 | `Class.findOne({classId})`: the first class with that id, or none exactly when no class has it |
| `Store.FindLine` | server.js:587 | `Cart.findOne({classId})`: the first cart line for that class, whoever owns it, or none exactly when there is no such line |
| `Store.DeleteLine` | server.js:598-600 | `Cart.deleteOne({classId})` removes exactly the line `FindLine` picks and keeps the others in order; with no match the cart is unchanged |
| `Store.CartOf` | server.js:171-173 | `Cart.find({username})` returns exactly the lines of that user and none longer than the collection |
| `Store.CartOfMultiplicity` | server.js:517 | `Cart.find({username})` keeps duplicates: each of the user's lines appears in the result as often as in the collection, and no other line appears, so a class booked twice is listed and charged twice |
| `Store.WithoutUser` | server.js:697 | `Cart.deleteMany({username})` keeps exactly the lines of other users |
| `Store.AppendNewUser` | server.js:293-307 | saving a user whose name `findOne` did not find keeps usernames unique |
| `Store.CartOfAppend` | server.js:455-465 | a saved line is appended to its owner's cart and to no one else's |
| `Store.CheckoutPartition` | server.js:697 | the lines `deleteMany` removes and the lines it keeps partition the collection, as a multiset and by count |
| `Store.CheckoutDeletesIff` | server.js:697-702 | `deleteMany` deletes something if and only if the user has at least one line |
| `Store.CheckoutKeepsOtherCarts` | server.js:697 | after checkout the payer's cart is empty and every other user's cart is exactly as before |
| `Availability.Available` | server.js:186-199 | the availability list is never longer than the catalog |
| `Availability.AvailableMembership` | server.js:186-199 | a class is listed if and only if the catalog has it and no cart line has its id |
| `Availability.AvailableSnoc` | server.js:188-196 | one more catalog class adds that class at the end of the list, unless it is carted |
| `Availability.AvailableConcat` | server.js:374-389 | the filter distributes over concatenation, so the list keeps catalog order |
| `Availability.NothingCartedKeepsCatalog` | server.js:197-199 | when no catalog id is carted, and with an empty cart in particular, the list is the whole catalog |
| `Availability.EmptyCartSeesCatalog` | server.js:384-386 | a user with an empty cart is offered the whole non-empty catalog |
| `Availability.AvailablePartition` | server.js:477-485 | available and booked classes partition the catalog: the list's length plus the number of carted catalog classes is the catalog's length |
| `Availability.OfferFor` | server.js:160-184 | the classes page shows "no classes" exactly when the catalog is empty, and "no more classes" exactly when the catalog is non-empty and the cart has as many lines as the catalog has classes; otherwise it lists exactly the catalog classes no cart line refers to |
| `Availability.ComputeAvailable` | server.js:188-196 | the nested loop with early exit returns exactly the filter's result |
| `Availability.ResolveOffer` | server.js:158-199 | the guards come first (empty catalog, then equal counts); otherwise the list is the filter's result, including the whole catalog for an empty cart |
| `Availability.FullyBookedByCountOnly` | server.js:176-184 | the guard fires on counts alone: a line for a class the catalog lacks still yields "no more classes", while the filter would list the class |
| `Availability.CountGuardExactForDistinctCarts` | server.js:363-371 | when catalog ids are distinct and the cart holds distinct catalog ids, the filter is empty if and only if the counts are equal |
| `Checkout.ComputeTotals` | server.js:529-537 | the `subtotal +=` loop, tax and total give exactly the specified totals |
| `Checkout.SumConcat` | server.js:532-534 | the subtotal of two groups of lines is the sum of their subtotals |
| `Checkout.SumNonNegative` | server.js:532-534 | amounts that are not negative give a subtotal that is not negative |
| `Checkout.SubscriberPaysNothing` | server.js:529-530 | a subscriber's subtotal, tax and total are 0 whatever the lines hold |
| `Checkout.RegularTotals` | server.js:618-626 | without a subscription, for any amounts, the subtotal is the sum of the amounts, the tax is 0.13 times it and the total is 1.13 times it |
| `Checkout.RegularTotalsBounded` | server.js:618-626 | without a subscription and with amounts that are not negative, 0 <= subtotal <= total |
| `CartJoin.RowsFor` | server.js:554-562 | one line contributes at most one row per catalog class |
| `CartJoin.BuildRows` | server.js:551-564 | the nested loop returns exactly the join, in cart-line order |
| `CartJoin.RowsForMembership` | server.js:554-562 | a line's rows are exactly its pairings with the classes of equal id, each showing the line's amount |
| `CartJoin.JoinMembership` | server.js:640-652 | every row comes from a (cart line, class) pair with equal ids, and every such pair gives a row |
| `CartJoin.JoinConcat` | server.js:640-652 | joining two groups of lines concatenates their rows, so rows keep cart-line order |
| `CartJoin.MissingClassNoRows` | server.js:555 | a line whose class is not in the catalog produces no row |
| `CartJoin.RowsForDistinct` | server.js:553-564 | with distinct catalog ids a line gives exactly one row (its class, its amount) or none when the class is missing |
| `CartJoin.JoinAligned` | server.js:553-564 | with distinct catalog ids and every line's class present, row i shows line i's class id and line i's amount, and there are as many rows as lines |
| `Handlers.SessionCart` | server.js:513-517 | `Cart.find({username: req.session.username})`: an anonymous session has no lines; a logged-in one has exactly the lines owned by its username |
| `Handlers.CartReply` | server.js:519-574 | an empty cart, then an empty catalog, give the two cart errors, and only those; otherwise the page's rows are exactly the (line, class) pairs with equal ids, the subtotal is 0 for a subscriber and the sum of the amounts otherwise, the tax is 0.13 times the subtotal, and the total is 1.13 times the subtotal |
| `Handlers.Studio.constructor` | server.js:60-101 | a studio starts with the given catalog (the four collections of the schemas), no users, cart lines or payments, and an anonymous session |
| `Handlers.Studio.CreateAccount` | server.js:276-325 | an empty username or password, or an existing username, leaves the users unchanged; otherwise exactly one user is appended, with the hashed password and no subscription; the session is never touched; usernames stay unique |
| `Handlers.Studio.Login` | server.js:121-216 | an unknown user or a wrong password leaves the session unchanged, with two different messages; success binds `hasLoggedIn`, the username and the stored subscription, then shows the guarded availability for that user's cart; no collection changes |
| `Handlers.Studio.Signup` | server.js:218-274 | an unknown user changes nothing; plan "monthly" appends exactly one payment of 75 and sets only that user's subscription; other plans change no collection; either way the session is bound to the user, who sees the whole catalog |
| `Handlers.Studio.Logout` | server.js:327-335 | the session becomes anonymous and no collection changes |
| `Handlers.Studio.ViewClasses` | server.js:339-399 | an empty catalog gives the error; an anonymous visitor sees the whole catalog; a user sees the guarded availability for their cart |
| `Handlers.Studio.AddClass` | server.js:401-496 | the cart is unchanged when the catalog is empty, the session is anonymous, the session user is missing or the class is unknown (no response); otherwise exactly one line (session user, class id, current price) is appended and the guarded availability is shown |
| `Handlers.Studio.RenderCart` | server.js:513-575 | the cart page holds the session user's joined rows and totals, unless their cart or the catalog is empty |
| `Handlers.Studio.ViewCart` | server.js:500-579 | an anonymous session gets the login error; a user gets the cart page for their lines and subscription |
| `Handlers.Studio.RemoveItem` | server.js:581-668 | only the first cart line with that class id is deleted, whoever owns it; with none the cart is unchanged and an error is shown |
| `Handlers.Studio.Pay` | server.js:670-714 | exactly one payment with the given username and total is appended; all and only that user's lines are deleted; success is reported if and only if the user had a line |
| `Scenarios.AnonymousSeesCatalog` | server.js:387-389 | an anonymous visitor to a one-class catalog sees that class |
| `Scenarios.EmptyPasswordRejected` | server.js:283-290 | "bob" with an empty password gets the validation error and no account exists |
| `Scenarios.DuplicateUsernameRejected` | server.js:314-320 | a second "bob" is refused and only the first account exists |
| `Scenarios.AnonymousCannotBook` | server.js:426-434 | booking CF001 while anonymous is refused and the cart stays empty |
| `Scenarios.LoginThenBook` | server.js:186-199 | "alice" with an empty cart sees both classes; after booking CF001 only KB002 is offered |
| `Scenarios.CheckoutEmptiesCart` | server.js:678-699 | "alice" pays for CF001: one payment, an empty cart, success |
| `Scenarios.PaymentKeptOnFailedCheckout` | server.js:697-702 | paying with an empty cart reports failure, and the payment is recorded anyway |
| `Scenarios.RemoveItemCrossesUsers` | server.js:587-600 | "bob" removing CF001 deletes the line of "alice" |

## Left out

- Express wiring, static assets, body parsing, the port and `app.listen` (server.js:1-27, 733-738) are framework plumbing.
- Rendering with Handlebars and its `json` helper is left out. A page is a `Reply` value, and the `isLoggedIn`, `username` and `isMonthlyPlan` flags passed to templates are not modelled.
- `GET /` (the login page) and `GET /payments` (a raw dump of the payment collection, server.js:718-731) are left out; they hold no logic worth modelling beyond an empty-ledger message.
- express-session internals are left out. The session is a plain record, and `destroy()` resets it to `Anonymous`.
- bcrypt is left out. Hashing is the `hash` parameter of `CreateAccount`, and comparison is the `matches` parameter of `Login`. The cost factor and salt are not modelled.
- The Mongoose connection, schemas and dotenv are left out. The collections are in-memory sequences, and database failures are not modelled.
- Concurrency is left out. Handlers run sequentially and atomically, so races between requests (for example duplicate cart lines from a double submit, or a crash between pay's two steps) are not modelled.
- Handler paths that end in a caught and logged exception send no response. Only add-class with an unknown class id is modelled, as `NoResponse`. The fall-through render after signup's `catch` (server.js:272-273) is not modelled.
- Amounts are exact `real` numbers, with no floating-point rounding of `subtotal * 0.13`. The `total` path parameter of pay is taken as already numeric, so the string-to-number cast is not modelled.
- `Handlers.SessionCart`: an anonymous session is modelled as owning no cart lines. What the driver does with `Cart.find({ username: undefined })` (reachable only from remove-item) is not modelled.
- `Handlers.Studio.RemoveItem`: the branch where `deleteOne` deletes nothing after `findOne` found the line cannot happen sequentially, so it is not modelled.
- `Handlers.Studio.AddClass`: the availability is computed through the same guarded filter as `/login` and `/classes`. The source skips the `length > 0` test here, which gives the same result because the cart has just gained a line.
- Debug logging is left out.
- Loading the catalog is left out. The server never writes to the classes collection (the sample catalog at server.js:740-767 is only a comment), so the catalog is a constructor parameter and no handler changes it.
