/**
 * Request sequences on a fresh studio: the usual booking flow and the quirks
 * of remove-item and pay. Their outcomes are proved from the handlers'
 * contracts and the store and filter lemmas, not from the handler bodies.
 */
module Scenarios {
  import opened Records
  import opened Store
  import opened Availability
  import opened Handlers

  const CrossFit := GymClass("CF001", "/images/crossfit.jpg", "Cross Fit with Daniel - Beginner", 60, 25.0)
  const Kickboxing := GymClass("KB002", "/images/kickboxing.jpg", "Kickboxing with Joshua - Advanced", 45, 25.0)

  /** A stand-in for the password-hashing library. */
  function Hash(password: string): string {
    "$2a$10$" + password
  }

  /** A stand-in for the library's comparison of a password with a stored hash. */
  function Matches(password: string, stored: string): bool {
    stored == Hash(password)
  }

  /** An anonymous visitor sees the whole catalog. */
  method AnonymousSeesCatalog() returns (reply: Reply)
    ensures reply == ClassesPage([CrossFit], None)
  {
    var studio := new Studio([CrossFit]);
    reply := studio.ViewClasses();
  }

  /** An empty password creates no account. */
  method EmptyPasswordRejected() returns (reply: Reply, accounts: seq<User>)
    ensures reply == LoginPage(Some(EmptyCredentials)) && accounts == []
  {
    var studio := new Studio([CrossFit]);
    reply := studio.CreateAccount("bob", "", Hash);
    accounts := studio.users;
  }

  /** A second account with the same username is refused. */
  method DuplicateUsernameRejected() returns (first: Reply, second: Reply, accounts: seq<User>)
    ensures first == AccountCreated("bob")
    ensures second == LoginPage(Some(UsernameTaken))
    ensures accounts == [User("bob", Hash("pw"), false)]
  {
    var studio := new Studio([CrossFit]);
    first := studio.CreateAccount("bob", "pw", Hash);
    second := studio.CreateAccount("bob", "other", Hash);
    accounts := studio.users;
  }

  /** Booking while anonymous is refused and adds no cart line. */
  method AnonymousCannotBook() returns (reply: Reply, lines: seq<CartLine>)
    ensures reply == ClassesPage([CrossFit], Some(LoginToBook)) && lines == []
  {
    var studio := new Studio([CrossFit]);
    reply := studio.AddClass("CF001");
    lines := studio.carts;
  }

  /** With CF001 in the cart of "alice", only KB002 is still on offer. */
  lemma OnlyKickboxingLeft()
    ensures OfferFor([CrossFit, Kickboxing], CartOf([CartLine("alice", "CF001", 25.0)], "alice")) == Open([Kickboxing])
  {
    var lines := [CartLine("alice", "CF001", 25.0)];
    assert CartOf(lines, "alice") == lines by {
      CartOfAppend([], lines[0], "alice");
      assert [] + [lines[0]] == lines;
    }
    assert Carted("CF001", lines);
    assert !Carted("KB002", lines) by {
      assert "KB002"[0] != "CF001"[0];
    }
    AvailableSnoc([], CrossFit, lines);
    AvailableSnoc([CrossFit], Kickboxing, lines);
    assert [CrossFit, Kickboxing] == [] + [CrossFit] + [Kickboxing];
  }

  /** After logging in with an empty cart a user sees every class; a booked class then disappears. */
  method LoginThenBook() returns (atLogin: Reply, afterBooking: Reply, lines: seq<CartLine>)
    ensures atLogin == ClassesPage([CrossFit, Kickboxing], None)
    ensures afterBooking == ClassesPage([Kickboxing], None)
    ensures lines == [CartLine("alice", "CF001", 25.0)]
  {
    var catalog := [CrossFit, Kickboxing];
    var studio := new Studio(catalog);
    var _ := studio.CreateAccount("alice", "secret", Hash);
    assert FindUser(studio.users, "alice") == Some(0);
    atLogin := studio.Login("alice", "secret", Matches);
    EmptyCartSeesCatalog(catalog);
    assert FindClass(catalog, "CF001") == Some(0);
    afterBooking := studio.AddClass("CF001");
    lines := studio.carts;
    OnlyKickboxingLeft();
  }

  /** Checking out records one payment and empties the user's cart. */
  method CheckoutEmptiesCart() returns (reply: Reply, ledger: seq<Payment>, lines: seq<CartLine>)
    ensures reply == CheckoutMessage(true)
    ensures ledger == [Payment("alice", 28.25)] && lines == []
  {
    var studio := new Studio([CrossFit]);
    var _ := studio.CreateAccount("alice", "secret", Hash);
    var _ := studio.Login("alice", "secret", Matches);
    var _ := studio.AddClass("CF001");
    assert studio.carts == [CartLine("alice", "CF001", 25.0)];
    reply := studio.Pay("alice", 28.25);
    ledger, lines := studio.payments, studio.carts;
  }

  /** Paying with an empty cart reports a failure, yet the payment is recorded. */
  method PaymentKeptOnFailedCheckout() returns (reply: Reply, ledger: seq<Payment>)
    ensures reply == CheckoutMessage(false) && ledger == [Payment("alice", 10.0)]
  {
    var studio := new Studio([CrossFit]);
    reply := studio.Pay("alice", 10.0);
    ledger := studio.payments;
  }

  /** Two accounts, "alice" and "bob", and nobody logged in. */
  method TwoAccounts() returns (studio: Studio)
    ensures fresh(studio) && studio.Valid()
    ensures studio.users == [User("alice", Hash("secret"), false), User("bob", Hash("hunter2"), false)]
    ensures studio.classes == [CrossFit] && studio.carts == [] && studio.session == Anonymous
  {
    studio := new Studio([CrossFit]);
    var _ := studio.CreateAccount("alice", "secret", Hash);
    assert FindUser(studio.users, "bob").None? by {
      assert "bob"[0] != "alice"[0];
    }
    var _ := studio.CreateAccount("bob", "hunter2", Hash);
  }

  /** "alice" books CF001 and logs out. */
  method AliceBooksAndLeaves() returns (studio: Studio)
    ensures fresh(studio) && studio.Valid()
    ensures studio.users == [User("alice", Hash("secret"), false), User("bob", Hash("hunter2"), false)]
    ensures studio.classes == [CrossFit] && studio.carts == [CartLine("alice", "CF001", 25.0)]
    ensures studio.session == Anonymous
  {
    studio := TwoAccounts();
    assert FindUser(studio.users, "alice") == Some(0);
    var _ := studio.Login("alice", "secret", Matches);
    assert FindClass(studio.classes, "CF001") == Some(0);
    var _ := studio.AddClass("CF001");
    var _ := studio.Logout();
  }

  /** Removing an item deletes another user's line: "bob" empties the cart of "alice". */
  method RemoveItemCrossesUsers() returns (reply: Reply, lines: seq<CartLine>)
    ensures lines == [] && reply == CartError(CartEmpty)
  {
    var studio := AliceBooksAndLeaves();
    assert FindUser(studio.users, "bob") == Some(1) by {
      assert "bob"[0] != "alice"[0];
    }
    var _ := studio.Login("bob", "hunter2", Matches);
    assert FindLine(studio.carts, "CF001") == Some(0);
    reply := studio.RemoveItem("CF001");
    lines := studio.carts;
  }
}
