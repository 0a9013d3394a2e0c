/** The documents of the studio's four collections and the per-browser session record. */
module Records {

  datatype Option<+T> = None | Some(value: T)

  /** A registered account. `password` holds the stored hash, never the plain text. */
  datatype User = User(username: string, password: string, subscription: bool)

  /** A class offered by the studio; `length` is its duration in minutes. */
  datatype GymClass = GymClass(classId: string, image: string, name: string, length: int, price: real)

  /** One class reserved by one user, with the price it had when it was added. */
  datatype CartLine = CartLine(username: string, classId: string, amount: real)

  /** A ledger entry; payments are only ever appended. */
  datatype Payment = Payment(username: string, total: real)

  /** The session flags the handlers read and write. */
  datatype Session = Session(hasLoggedIn: bool, username: Option<string>, subscription: bool)

  /** A fresh or destroyed session. */
  const Anonymous := Session(false, None, false)

  /** No two catalog entries share a class id. */
  predicate DistinctClassIds(catalog: seq<GymClass>) {
    forall i, j :: 0 <= i < j < |catalog| ==> catalog[i].classId != catalog[j].classId
  }

  /** A non-empty sequence's multiset is its prefix's plus its last element. */
  lemma MultisetSnoc<T>(s: seq<T>)
    requires s != []
    ensures multiset(s) == multiset(s[..|s| - 1]) + multiset{s[|s| - 1]}
  {
    assert s == s[..|s| - 1] + [s[|s| - 1]];
  }
}
