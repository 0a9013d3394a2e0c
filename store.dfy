/**
 * The document-store calls the handlers make, each as a function on the
 * collection it reads: `findOne` is the first match, `find` keeps the
 * matches in stored order, `deleteOne` removes the first match and
 * `deleteMany` keeps everything that does not match. Each query is written
 * for the collection and key field it is run on (users by name, classes and
 * cart lines by class id, cart lines by owner), so every handler's contract
 * names the very store call the handler makes.
 */
module Store {
  import opened Records

  /** `User.findOne({ username: name })`: the index of the first user called `name`. */
  function FindUser(users: seq<User>, name: string): (r: Option<nat>)
    ensures r.Some? ==> r.value < |users| && users[r.value].username == name
    ensures r.Some? ==> forall j :: 0 <= j < r.value ==> users[j].username != name
    ensures r.None? <==> forall j :: 0 <= j < |users| ==> users[j].username != name
  {
    if users == [] then None
    else if users[0].username == name then Some(0)
    else match FindUser(users[1..], name)
      case None => None
      case Some(k) => Some(k + 1)
  }

  /** `Class.findOne({ classId: id })`: the index of the first class with that id. */
  function FindClass(catalog: seq<GymClass>, id: string): (r: Option<nat>)
    ensures r.Some? ==> r.value < |catalog| && catalog[r.value].classId == id
    ensures r.Some? ==> forall j :: 0 <= j < r.value ==> catalog[j].classId != id
    ensures r.None? <==> forall j :: 0 <= j < |catalog| ==> catalog[j].classId != id
  {
    if catalog == [] then None
    else
      var init := catalog[..|catalog| - 1];
      match FindClass(init, id)
      case Some(k) =>
        assert catalog[k] == init[k];
        assert forall j :: 0 <= j < k ==> catalog[j] == init[j];
        Some(k)
      case None =>
        assert forall j :: 0 <= j < |init| ==> catalog[j] == init[j];
        if catalog[|catalog| - 1].classId == id then Some(|catalog| - 1) else None
  }

  /** `Cart.findOne({ classId: id })`: the index of the first cart line for that class, whoever owns it. */
  function FindLine(lines: seq<CartLine>, id: string): (r: Option<nat>)
    ensures r.Some? ==> r.value < |lines| && lines[r.value].classId == id
    ensures r.Some? ==> forall j :: 0 <= j < r.value ==> lines[j].classId != id
    ensures r.None? <==> forall j :: 0 <= j < |lines| ==> lines[j].classId != id
  {
    if lines == [] then None
    else if lines[0].classId == id then Some(0)
    else match FindLine(lines[1..], id)
      case None => None
      case Some(k) => Some(k + 1)
  }

  /** Putting the head back in front of a tail with a gap at `k` gives the whole sequence with a gap at `k + 1`. */
  lemma ConsAroundGap<T>(s: seq<T>, k: nat)
    requires k + 1 < |s|
    ensures [s[0]] + (s[1..][..k] + s[1..][k + 1..]) == s[..k + 1] + s[k + 2..]
  {
    assert [s[0]] + s[1..][..k] == s[..k + 1];
    assert s[1..][k + 1..] == s[k + 2..];
  }

  /** `Cart.deleteOne({ classId: id })`: the lines without the one `FindLine` picks. */
  function DeleteLine(lines: seq<CartLine>, id: string): (r: seq<CartLine>)
    ensures FindLine(lines, id).None? ==> r == lines
    ensures FindLine(lines, id).Some? ==>
      var i := FindLine(lines, id).value; r == lines[..i] + lines[i + 1..]
  {
    if lines == [] then []
    else if lines[0].classId == id then lines[1..]
    else
      var rest := DeleteLine(lines[1..], id);
      match FindLine(lines[1..], id)
      case None =>
        assert [lines[0]] + lines[1..] == lines;
        [lines[0]] + rest
      case Some(k) =>
        ConsAroundGap(lines, k);
        [lines[0]] + rest
  }

  /** `Cart.find({ username: name })`: that user's lines, in stored order. */
  function CartOf(lines: seq<CartLine>, name: string): (r: seq<CartLine>)
    ensures |r| <= |lines|
    ensures forall l :: l in r <==> l in lines && l.username == name
  {
    if lines == [] then []
    else
      var last := lines[|lines| - 1];
      assert lines == lines[..|lines| - 1] + [last];
      CartOf(lines[..|lines| - 1], name) + (if last.username == name then [last] else [])
  }

  /** `Cart.find` keeps duplicates: each of the user's lines occurs in the result as often as in the collection. */
  lemma {:induction false} CartOfMultiplicity(lines: seq<CartLine>, name: string)
    ensures forall l :: multiset(CartOf(lines, name))[l] == if l.username == name then multiset(lines)[l] else 0
  {
    if lines != [] {
      var init, last := lines[..|lines| - 1], lines[|lines| - 1];
      CartOfMultiplicity(init, name);
      MultisetSnoc(lines);
      if last.username == name {
        assert CartOf(lines, name) == CartOf(init, name) + [last];
        assert multiset(CartOf(init, name) + [last]) == multiset(CartOf(init, name)) + multiset{last};
      }
    }
  }

  /** What `Cart.deleteMany({ username: name })` leaves behind: every other user's lines, in stored order. */
  function WithoutUser(lines: seq<CartLine>, name: string): (r: seq<CartLine>)
    ensures |r| <= |lines|
    ensures forall l :: l in r <==> l in lines && l.username != name
  {
    if lines == [] then []
    else
      var last := lines[|lines| - 1];
      assert lines == lines[..|lines| - 1] + [last];
      WithoutUser(lines[..|lines| - 1], name) + (if last.username != name then [last] else [])
  }

  /** No two accounts share a username. */
  predicate UniqueUsernames(users: seq<User>) {
    forall i, j :: 0 <= i < j < |users| ==> users[i].username != users[j].username
  }

  /** Appending a user whose name `findOne` does not find keeps usernames unique. */
  lemma AppendNewUser(users: seq<User>, u: User)
    requires UniqueUsernames(users)
    requires FindUser(users, u.username).None?
    ensures UniqueUsernames(users + [u])
  {
    var all := users + [u];
    forall i, j | 0 <= i < j < |all| ensures all[i].username != all[j].username {
      if j == |users| {
        assert all[i] == users[i];
      }
    }
  }

  /** A line saved to the cart collection joins its owner's cart, at the end, and no one else's. */
  lemma CartOfAppend(lines: seq<CartLine>, l: CartLine, name: string)
    ensures CartOf(lines + [l], name) ==
      if l.username == name then CartOf(lines, name) + [l] else CartOf(lines, name)
  {
    assert (lines + [l])[..|lines|] == lines;
  }

  /** One more line keeps the partition of the collection into removed and kept lines. */
  lemma PartitionStep(lines: seq<CartLine>, name: string)
    requires lines != []
    requires |WithoutUser(lines[..|lines| - 1], name)| + |CartOf(lines[..|lines| - 1], name)| == |lines| - 1
    requires multiset(WithoutUser(lines[..|lines| - 1], name)) + multiset(CartOf(lines[..|lines| - 1], name))
      == multiset(lines[..|lines| - 1])
    ensures |WithoutUser(lines, name)| + |CartOf(lines, name)| == |lines|
    ensures multiset(WithoutUser(lines, name)) + multiset(CartOf(lines, name)) == multiset(lines)
  {
    var init, last := lines[..|lines| - 1], lines[|lines| - 1];
    var kept, owned := WithoutUser(init, name), CartOf(init, name);
    MultisetSnoc(lines);
    if last.username == name {
      assert WithoutUser(lines, name) == kept && CartOf(lines, name) == owned + [last];
      assert multiset(owned + [last]) == multiset(owned) + multiset{last};
    } else {
      assert WithoutUser(lines, name) == kept + [last] && CartOf(lines, name) == owned;
      assert multiset(kept + [last]) == multiset(kept) + multiset{last};
    }
  }

  /** `deleteMany` removes exactly the lines `find` would return for that user: the two partition the collection. */
  lemma {:induction false} CheckoutPartition(lines: seq<CartLine>, name: string)
    ensures |WithoutUser(lines, name)| + |CartOf(lines, name)| == |lines|
    ensures multiset(WithoutUser(lines, name)) + multiset(CartOf(lines, name)) == multiset(lines)
  {
    if lines != [] {
      CheckoutPartition(lines[..|lines| - 1], name);
      PartitionStep(lines, name);
    }
  }

  /** `deleteMany` deletes something exactly when the user has at least one line. */
  lemma CheckoutDeletesIff(lines: seq<CartLine>, name: string)
    ensures |WithoutUser(lines, name)| < |lines| <==> CartOf(lines, name) != []
  {
    CheckoutPartition(lines, name);
  }

  /** After `deleteMany` for `name`, that user's cart is empty and every other user's cart is exactly as before. */
  lemma {:induction false} CheckoutKeepsOtherCarts(lines: seq<CartLine>, name: string, other: string)
    ensures CartOf(WithoutUser(lines, name), other) == if other == name then [] else CartOf(lines, other)
  {
    if lines != [] {
      var init := lines[..|lines| - 1];
      var last := lines[|lines| - 1];
      CheckoutKeepsOtherCarts(init, name, other);
      if last.username != name {
        assert WithoutUser(lines, name) == WithoutUser(init, name) + [last];
        CartOfAppend(WithoutUser(init, name), last, other);
      } else {
        assert WithoutUser(lines, name) == WithoutUser(init, name);
      }
      assert CartOf(lines, other) == CartOf(init, other) + (if last.username == other then [last] else []);
    }
  }
}
