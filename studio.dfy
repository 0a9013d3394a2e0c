/**
 * The request handlers as state transitions of one in-memory studio: the
 * users, classes, carts and payments collections and the session of the
 * browser sending the requests. Each handler answers with a `Reply`, the
 * page (or plain-text message) it would render.
 */
module Handlers {
  import opened Records
  import opened Store
  import opened Availability
  import opened Checkout
  import opened CartJoin

  /** The error messages the pages show inline, one per distinct message. */
  datatype Problem =
    | InvalidUsernameOrPassword   // login: no user with that name
    | InvalidPassword             // login: the password does not match the stored hash
    | UsernameNotFound            // signup: no user with that name
    | EmptyCredentials            // create-account: empty username or password
    | UsernameTaken               // create-account: the username exists
    | NoClassesOffered            // classes page over an empty catalog
    | NoMoreClasses               // the "fully booked" guard
    | NoClassesFound              // add-class over an empty catalog
    | LoginToBook                 // add-class while anonymous
    | SessionUserNotFound         // add-class: the session's user is not in the users collection
    | LoginToViewCart             // cart page while anonymous
    | CartEmpty                   // cart page without lines
    | NoItemsFound                // cart page over an empty catalog
    | ItemNotInCart               // remove-item: no line for that class

  /** What a handler answers. */
  datatype Reply =
    | LoginPage(problem: Option<Problem>)
    | AccountCreated(username: string)
    | ClassesPage(classes: seq<GymClass>, problem: Option<Problem>)
    | CartPage(rows: seq<CartRow>, totals: Totals)
    | CartError(error: Problem)
    | CheckoutMessage(success: bool)
    | NoResponse                  // an exception was caught and only logged; nothing is sent

  const MonthlyPlan := "monthly"
  const MonthlyFee: real := 75.0

  /** The classes page for an offer. */
  function OfferPage(offer: Offer): Reply {
    match offer
    case NoClasses => ClassesPage([], Some(NoClassesOffered))
    case FullyBooked => ClassesPage([], Some(NoMoreClasses))
    case Open(classes) => ClassesPage(classes, None)
  }

  /** The lines `Cart.find` returns for the session's username; none for an anonymous session. */
  function SessionCart(lines: seq<CartLine>, session: Session): (r: seq<CartLine>)
    ensures session.username.None? ==> r == []
    ensures forall l :: l in r <==> session.username.Some? && l in lines && l.username == session.username.value
  {
    match session.username
    case None => []
    case Some(name) => CartOf(lines, name)
  }

  /** The cart page for a user's lines: the joined rows and the totals, unless a guard fires first. */
  function CartReply(items: seq<CartLine>, catalog: seq<GymClass>, subscribed: bool): (r: Reply)
    ensures r.CartPage? || r.CartError?
    ensures r.CartError? <==> items == [] || catalog == []
    ensures r.CartError? ==> r.error == if items == [] then CartEmpty else NoItemsFound
    ensures r.CartPage? ==>
      r.totals.subtotal == (if subscribed then 0.0 else Sum(items)) &&
      r.totals.tax == r.totals.subtotal * TaxRate && r.totals.total == r.totals.subtotal * 1.13
    ensures r.CartPage? ==> forall row :: row in r.rows <==>
      exists i, j :: 0 <= i < |items| && 0 <= j < |catalog| &&
        items[i].classId == catalog[j].classId && row == RowOf(items[i], catalog[j])
  {
    if items == [] then CartError(CartEmpty)
    else if catalog == [] then CartError(NoItemsFound)
    else
      JoinMembership(items, catalog);
      CartPage(Join(items, catalog), TotalsFor(items, subscribed))
  }

  class Studio {
    var users: seq<User>
    var classes: seq<GymClass>
    var carts: seq<CartLine>
    var payments: seq<Payment>
    var session: Session

    /** Usernames are unique, and a session names a user exactly when it is logged in. */
    ghost predicate Valid()
      reads this
    {
      UniqueUsernames(users) && (session.hasLoggedIn <==> session.username.Some?)
    }

    /** A studio whose catalog was seeded out of band, with no accounts, carts or payments yet. */
    constructor (catalog: seq<GymClass>)
      ensures Valid()
      ensures users == [] && classes == catalog && carts == [] && payments == [] && session == Anonymous
    {
      users, classes, carts, payments, session := [], catalog, [], [], Anonymous;
    }

    /** POST /create-account. `hash` stands for the password-hashing library. */
    method CreateAccount(name: string, password: string, hash: string -> string) returns (reply: Reply)
      requires Valid()
      modifies this
      ensures Valid()
      ensures classes == old(classes) && carts == old(carts) && payments == old(payments) && session == old(session)
      ensures name == "" || password == "" ==>
                reply == LoginPage(Some(EmptyCredentials)) && users == old(users)
      ensures name != "" && password != "" && FindUser(old(users), name).Some? ==>
                reply == LoginPage(Some(UsernameTaken)) && users == old(users)
      ensures name != "" && password != "" && FindUser(old(users), name).None? ==>
                reply == AccountCreated(name) && users == old(users) + [User(name, hash(password), false)]
    {
      if name == "" || password == "" {
        return LoginPage(Some(EmptyCredentials));
      }
      if FindUser(users, name).Some? {
        return LoginPage(Some(UsernameTaken));
      }
      var account := User(name, hash(password), false);
      AppendNewUser(users, account);
      users := users + [account];
      reply := AccountCreated(name);
    }

    /**
     * POST /login. `matches(plain, stored)` stands for the library's hash
     * comparison. On success the session is bound and the user sees the
     * classes still available to them.
     */
    method Login(name: string, password: string, matches: (string, string) -> bool) returns (reply: Reply)
      requires Valid()
      modifies this
      ensures Valid()
      ensures users == old(users) && classes == old(classes) && carts == old(carts) && payments == old(payments)
      ensures FindUser(users, name).None? ==>
                session == old(session) && reply == LoginPage(Some(InvalidUsernameOrPassword))
      ensures FindUser(users, name).Some? ==>
                var user := users[FindUser(users, name).value];
                if matches(password, user.password) then
                  session == Session(true, Some(name), user.subscription) &&
                  reply == OfferPage(OfferFor(classes, CartOf(carts, name)))
                else
                  session == old(session) && reply == LoginPage(Some(InvalidPassword))
    {
      var found := FindUser(users, name);
      if found.None? {
        return LoginPage(Some(InvalidUsernameOrPassword));
      }
      var user := users[found.value];
      if !matches(password, user.password) {
        return LoginPage(Some(InvalidPassword));
      }
      session := Session(true, Some(name), user.subscription);
      var offer := ResolveOffer(classes, CartOf(carts, name));
      reply := OfferPage(offer);
    }

    /**
     * POST /signup/:username. The monthly plan records a payment of the
     * monthly fee and marks the user as subscribed; any plan binds the
     * session to the user, who then sees the whole catalog.
     */
    method Signup(name: string, plan: string) returns (reply: Reply)
      requires Valid()
      modifies this
      ensures Valid()
      ensures classes == old(classes) && carts == old(carts)
      ensures FindUser(old(users), name).None? ==>
                users == old(users) && payments == old(payments) && session == old(session) &&
                reply == LoginPage(Some(UsernameNotFound))
      ensures FindUser(old(users), name).Some? ==>
                var i := FindUser(old(users), name).value;
                && (plan == MonthlyPlan ==>
                      payments == old(payments) + [Payment(name, MonthlyFee)] &&
                      users == old(users)[i := old(users)[i].(subscription := true)])
                && (plan != MonthlyPlan ==> payments == old(payments) && users == old(users))
                && session == Session(true, Some(name), users[i].subscription)
                && reply == (if classes == [] then ClassesPage([], Some(NoClassesOffered)) else ClassesPage(classes, None))
    {
      var found := FindUser(users, name);
      if found.None? {
        return LoginPage(Some(UsernameNotFound));
      }
      var i := found.value;
      if plan == MonthlyPlan {
        payments := payments + [Payment(users[i].username, MonthlyFee)];
        users := users[i := users[i].(subscription := true)];
      }
      session := Session(true, Some(users[i].username), users[i].subscription);
      if classes == [] {
        return ClassesPage([], Some(NoClassesOffered));
      }
      reply := ClassesPage(classes, None);
    }

    /** POST /logout: the session is destroyed, so the next request is anonymous. */
    method Logout() returns (reply: Reply)
      requires Valid()
      modifies this
      ensures Valid()
      ensures users == old(users) && classes == old(classes) && carts == old(carts) && payments == old(payments)
      ensures session == Anonymous && reply == LoginPage(None)
    {
      session := Anonymous;
      reply := LoginPage(None);
    }

    /** GET /classes: the whole catalog for an anonymous visitor, the available classes for a user. */
    method ViewClasses() returns (reply: Reply)
      requires Valid()
      ensures classes == [] ==> reply == ClassesPage([], Some(NoClassesOffered))
      ensures classes != [] && !session.hasLoggedIn ==> reply == ClassesPage(classes, None)
      ensures session.hasLoggedIn ==>
                reply == OfferPage(OfferFor(classes, CartOf(carts, session.username.value)))
    {
      if classes == [] {
        return ClassesPage([], Some(NoClassesOffered));
      }
      if session.hasLoggedIn {
        var offer := ResolveOffer(classes, CartOf(carts, session.username.value));
        reply := OfferPage(offer);
      } else {
        reply := ClassesPage(classes, None);
      }
    }

    /**
     * POST /add-class/:classId. A logged-in user whose account exists gets
     * one more cart line, at the class's current price; an unknown class id
     * makes the handler fail before anything is saved.
     */
    method AddClass(classId: string) returns (reply: Reply)
      requires Valid()
      modifies this
      ensures Valid()
      ensures users == old(users) && classes == old(classes) && payments == old(payments) && session == old(session)
      ensures classes == [] ==>
                carts == old(carts) && reply == ClassesPage([], Some(NoClassesFound))
      ensures classes != [] && !session.hasLoggedIn ==>
                carts == old(carts) && reply == ClassesPage(classes, Some(LoginToBook))
      ensures classes != [] && session.hasLoggedIn && FindUser(users, session.username.value).None? ==>
                carts == old(carts) && reply == ClassesPage([], Some(SessionUserNotFound))
      ensures classes != [] && session.hasLoggedIn && FindUser(users, session.username.value).Some? ==>
                if FindClass(classes, classId).None? then
                  carts == old(carts) && reply == NoResponse
                else
                  var name := session.username.value;
                  carts == old(carts) + [CartLine(name, classId, classes[FindClass(classes, classId).value].price)] &&
                  reply == OfferPage(OfferFor(classes, CartOf(carts, name)))
    {
      var selected := FindClass(classes, classId);
      if classes == [] {
        return ClassesPage([], Some(NoClassesFound));
      }
      if !session.hasLoggedIn {
        return ClassesPage(classes, Some(LoginToBook));
      }
      var name := session.username.value;
      if FindUser(users, name).None? {
        return ClassesPage([], Some(SessionUserNotFound));
      }
      if selected.None? {
        // reading the price of a class that was not found throws; the handler only logs it
        return NoResponse;
      }
      carts := carts + [CartLine(name, classId, classes[selected.value].price)];
      var items := CartOf(carts, name);
      if |items| == |classes| {
        reply := ClassesPage([], Some(NoMoreClasses));
      } else {
        var shown := ComputeAvailable(classes, items);
        reply := ClassesPage(shown, None);
      }
    }

    /** The cart page the cart handlers render for the session's user. */
    method RenderCart() returns (reply: Reply)
      ensures reply == CartReply(SessionCart(carts, session), classes, session.subscription)
    {
      var items := SessionCart(carts, session);
      if items == [] {
        return CartError(CartEmpty);
      }
      var totals := ComputeTotals(items, session.subscription);
      if classes == [] {
        return CartError(NoItemsFound);
      }
      var rows := BuildRows(items, classes);
      reply := CartPage(rows, totals);
    }

    /** GET /cart. */
    method ViewCart() returns (reply: Reply)
      requires Valid()
      ensures !session.hasLoggedIn ==> reply == CartError(LoginToViewCart)
      ensures session.hasLoggedIn ==>
                reply == CartReply(CartOf(carts, session.username.value), classes, session.subscription)
    {
      if !session.hasLoggedIn {
        return CartError(LoginToViewCart);
      }
      reply := RenderCart();
    }

    /**
     * POST /remove-item/:id. Deletes the first cart line for that class,
     * whichever user it belongs to, then renders the session user's cart.
     */
    method RemoveItem(id: string) returns (reply: Reply)
      requires Valid()
      modifies this
      ensures Valid()
      ensures users == old(users) && classes == old(classes) && payments == old(payments) && session == old(session)
      ensures FindLine(old(carts), id).None? ==>
                carts == old(carts) && reply == CartError(ItemNotInCart)
      ensures FindLine(old(carts), id).Some? ==>
                var i := FindLine(old(carts), id).value;
                carts == old(carts)[..i] + old(carts)[i + 1..] &&
                reply == CartReply(SessionCart(carts, session), classes, session.subscription)
    {
      var found := FindLine(carts, id);
      if found.None? {
        return CartError(ItemNotInCart);
      }
      carts := DeleteLine(carts, carts[found.value].classId);
      reply := RenderCart();
    }

    /**
     * POST /pay/:username/:total. Records the payment with the total the
     * request carries, then deletes that user's cart; success is reported
     * only when something was deleted, and the payment stays either way.
     */
    method Pay(name: string, total: real) returns (reply: Reply)
      requires Valid()
      modifies this
      ensures Valid()
      ensures users == old(users) && classes == old(classes) && session == old(session)
      ensures payments == old(payments) + [Payment(name, total)]
      ensures carts == WithoutUser(old(carts), name)
      ensures reply == CheckoutMessage(CartOf(old(carts), name) != [])
    {
      payments := payments + [Payment(name, total)];
      var remaining := WithoutUser(carts, name);
      var deletedCount := |carts| - |remaining|;
      CheckoutDeletesIff(carts, name);
      carts := remaining;
      reply := CheckoutMessage(deletedCount > 0);
    }
  }
}
