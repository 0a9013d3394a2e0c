/**
 * The classes a logged-in user can still add: the catalog minus every class
 * some line of the user's cart refers to, with the two guards the handlers
 * put in front of that computation.
 */
module Availability {
  import opened Records

  /** Some cart line refers to class `id`. */
  predicate Carted(id: string, items: seq<CartLine>) {
    exists j :: 0 <= j < |items| && items[j].classId == id
  }

  /** The catalog entries whose id no cart line carries, in catalog order. */
  function Available(catalog: seq<GymClass>, items: seq<CartLine>): (r: seq<GymClass>)
    ensures |r| <= |catalog|
  {
    if catalog == [] then []
    else
      var last := catalog[|catalog| - 1];
      Available(catalog[..|catalog| - 1], items) + (if Carted(last.classId, items) then [] else [last])
  }

  /** The catalog entries that some cart line refers to, in catalog order: the complement of `Available`. */
  function Booked(catalog: seq<GymClass>, items: seq<CartLine>): seq<GymClass> {
    if catalog == [] then []
    else
      var last := catalog[|catalog| - 1];
      Booked(catalog[..|catalog| - 1], items) + (if Carted(last.classId, items) then [last] else [])
  }

  /** What a classes page shows a logged-in user. */
  datatype Offer =
    | NoClasses                         // the catalog is empty
    | FullyBooked                       // the cart has as many lines as the catalog has classes
    | Open(classes: seq<GymClass>)      // the classes still available

  /**
   * The guards in front of the filter: an empty catalog first, then a cart
   * whose length equals the catalog's. The second compares counts only.
   */
  function OfferFor(catalog: seq<GymClass>, items: seq<CartLine>): (r: Offer)
    ensures r.NoClasses? <==> catalog == []
    ensures r.FullyBooked? <==> catalog != [] && |items| == |catalog|
    ensures r.Open? ==> forall c :: c in r.classes <==> c in catalog && !Carted(c.classId, items)
  {
    if |catalog| == 0 then NoClasses
    else if |items| == |catalog| then FullyBooked
    else
      AvailableMembership(catalog, items);
      Open(Available(catalog, items))
  }

  /** The nested loop the handlers run: keep each class no cart line matches. */
  method ComputeAvailable(catalog: seq<GymClass>, items: seq<CartLine>) returns (shown: seq<GymClass>)
    ensures shown == Available(catalog, items)
  {
    shown := [];
    for i := 0 to |catalog|
      invariant shown == Available(catalog[..i], items)
    {
      var matching := false;
      var j := 0;
      while j < |items| && !matching
        invariant 0 <= j <= |items|
        invariant matching <==> exists k :: 0 <= k < j && items[k].classId == catalog[i].classId
      {
        if catalog[i].classId == items[j].classId {
          matching := true;
        }
        j := j + 1;
      }
      assert matching <==> Carted(catalog[i].classId, items);
      assert catalog[..i + 1][..i] == catalog[..i];
      if !matching {
        shown := shown + [catalog[i]];
      }
    }
    assert catalog[..|catalog|] == catalog;
  }

  /** The guards and the filter as the handlers run them, with the whole catalog for an empty cart. */
  method ResolveOffer(catalog: seq<GymClass>, items: seq<CartLine>) returns (offer: Offer)
    ensures offer == OfferFor(catalog, items)
  {
    if |catalog| == 0 {
      return NoClasses;
    }
    if |items| == |catalog| {
      return FullyBooked;
    }
    var shown;
    if |items| > 0 {
      shown := ComputeAvailable(catalog, items);
    } else {
      shown := catalog;
      NothingCartedKeepsCatalog(catalog, items);
    }
    offer := Open(shown);
  }

  /** A class is available exactly when the catalog offers it and no cart line refers to it. */
  lemma {:induction false} AvailableMembership(catalog: seq<GymClass>, items: seq<CartLine>)
    ensures forall c :: c in Available(catalog, items) <==> c in catalog && !Carted(c.classId, items)
  {
    if catalog != [] {
      var init := catalog[..|catalog| - 1];
      AvailableMembership(init, items);
      assert catalog == init + [catalog[|catalog| - 1]];
    }
  }

  /** Adding a class at the end of the catalog adds it at the end of the result, unless it is carted. */
  lemma AvailableSnoc(catalog: seq<GymClass>, c: GymClass, items: seq<CartLine>)
    ensures Available(catalog + [c], items) ==
      Available(catalog, items) + (if Carted(c.classId, items) then [] else [c])
  {
    assert (catalog + [c])[..|catalog|] == catalog;
  }

  /** Filtering a concatenation filters each part: the filter keeps catalog order. */
  lemma {:induction false} AvailableConcat(a: seq<GymClass>, b: seq<GymClass>, items: seq<CartLine>)
    ensures Available(a + b, items) == Available(a, items) + Available(b, items)
  {
    if b == [] {
      assert a + b == a;
    } else {
      var init, last := b[..|b| - 1], b[|b| - 1];
      var tail := if Carted(last.classId, items) then [] else [last];
      assert b == init + [last];
      calc {
        Available(a + b, items);
        { assert a + b == (a + init) + [last]; }
        Available((a + init) + [last], items);
        { AvailableSnoc(a + init, last, items); }
        Available(a + init, items) + tail;
        { AvailableConcat(a, init, items); }
        Available(a, items) + Available(init, items) + tail;
        { AvailableSnoc(init, last, items); }
        Available(a, items) + Available(b, items);
      }
    }
  }

  /** When no catalog id is carted (an empty cart in particular) the whole catalog is available. */
  lemma {:induction false} NothingCartedKeepsCatalog(catalog: seq<GymClass>, items: seq<CartLine>)
    requires forall i :: 0 <= i < |catalog| ==> !Carted(catalog[i].classId, items)
    ensures Available(catalog, items) == catalog
  {
    if catalog != [] {
      var init, last := catalog[..|catalog| - 1], catalog[|catalog| - 1];
      NothingCartedKeepsCatalog(init, items);
      assert !Carted(last.classId, items);
      assert Available(catalog, items) == Available(init, items) + [last];
      assert catalog == init + [last];
    }
  }

  /** An empty cart gets the whole, non-empty, catalog. */
  lemma EmptyCartSeesCatalog(catalog: seq<GymClass>)
    requires catalog != []
    ensures OfferFor(catalog, []) == Open(catalog)
  {
    NothingCartedKeepsCatalog(catalog, []);
  }

  /** Every catalog entry is either available or booked, never both. */
  lemma {:induction false} AvailablePartition(catalog: seq<GymClass>, items: seq<CartLine>)
    ensures |Available(catalog, items)| + |Booked(catalog, items)| == |catalog|
    ensures multiset(Available(catalog, items)) + multiset(Booked(catalog, items)) == multiset(catalog)
  {
    if catalog != [] {
      var init, last := catalog[..|catalog| - 1], catalog[|catalog| - 1];
      AvailablePartition(init, items);
      MultisetSnoc(catalog);
      var shown, booked := Available(init, items), Booked(init, items);
      if Carted(last.classId, items) {
        assert Available(catalog, items) == shown && Booked(catalog, items) == booked + [last];
        assert multiset(booked + [last]) == multiset(booked) + multiset{last};
      } else {
        assert Available(catalog, items) == shown + [last] && Booked(catalog, items) == booked;
        assert multiset(shown + [last]) == multiset(shown) + multiset{last};
      }
    }
  }

  /**
   * The "fully booked" guard compares counts, not ids: one line for a class
   * the catalog does not offer hides a one-class catalog whose class is
   * still available.
   */
  lemma FullyBookedByCountOnly()
    ensures var catalog := [GymClass("CF001", "crossfit.jpg", "Cross Fit", 60, 25.0)];
            var items := [CartLine("alice", "KB002", 25.0)];
            OfferFor(catalog, items) == FullyBooked && Available(catalog, items) == catalog
  {
    var catalog := [GymClass("CF001", "crossfit.jpg", "Cross Fit", 60, 25.0)];
    var items := [CartLine("alice", "KB002", 25.0)];
    assert items[0].classId[0] != catalog[0].classId[0];
    NothingCartedKeepsCatalog(catalog, items);
  }

  /** Some class of the catalog has this id. */
  predicate Offers(catalog: seq<GymClass>, id: string) {
    exists k :: 0 <= k < |catalog| && catalog[k].classId == id
  }

  /** The ids a catalog offers. */
  function OfferedIds(catalog: seq<GymClass>): set<string> {
    if catalog == [] then {}
    else OfferedIds(catalog[..|catalog| - 1]) + {catalog[|catalog| - 1].classId}
  }

  /** The ids a cart refers to. */
  function CartedIds(items: seq<CartLine>): set<string> {
    if items == [] then {}
    else CartedIds(items[..|items| - 1]) + {items[|items| - 1].classId}
  }

  lemma {:induction false} OfferedIdsMembership(catalog: seq<GymClass>)
    ensures forall id :: id in OfferedIds(catalog) <==> Offers(catalog, id)
  {
    if catalog != [] {
      var init := catalog[..|catalog| - 1];
      OfferedIdsMembership(init);
      forall id | Offers(init, id) ensures Offers(catalog, id) {
        var k :| 0 <= k < |init| && init[k].classId == id;
        assert catalog[k] == init[k];
      }
      forall id | Offers(catalog, id) && id != catalog[|catalog| - 1].classId ensures Offers(init, id) {
        var k :| 0 <= k < |catalog| && catalog[k].classId == id;
        assert init[k] == catalog[k];
      }
    }
  }

  lemma {:induction false} CartedIdsMembership(items: seq<CartLine>)
    ensures forall id :: id in CartedIds(items) <==> Carted(id, items)
  {
    if items != [] {
      var init := items[..|items| - 1];
      CartedIdsMembership(init);
      forall id | Carted(id, init) ensures Carted(id, items) {
        var j :| 0 <= j < |init| && init[j].classId == id;
        assert items[j] == init[j];
      }
      forall id | Carted(id, items) && id != items[|items| - 1].classId ensures Carted(id, init) {
        var j :| 0 <= j < |items| && items[j].classId == id;
        assert init[j] == items[j];
      }
    }
  }

  /** No two cart lines refer to the same class. */
  predicate DistinctLines(items: seq<CartLine>) {
    forall i, j :: 0 <= i < j < |items| ==> items[i].classId != items[j].classId
  }

  lemma {:induction false} OfferedIdsCount(catalog: seq<GymClass>)
    requires DistinctClassIds(catalog)
    ensures |OfferedIds(catalog)| == |catalog|
  {
    if catalog != [] {
      var init := catalog[..|catalog| - 1];
      OfferedIdsCount(init);
      OfferedIdsMembership(init);
      assert !Offers(init, catalog[|catalog| - 1].classId);
    }
  }

  lemma {:induction false} CartedIdsCount(items: seq<CartLine>)
    requires DistinctLines(items)
    ensures |CartedIds(items)| == |items|
  {
    if items != [] {
      var init := items[..|items| - 1];
      CartedIdsCount(init);
      CartedIdsMembership(init);
      assert !Carted(items[|items| - 1].classId, init);
    }
  }

  /** A subset of a finite set with as many elements is the whole set. */
  lemma SubsetOfSameSize<T>(a: set<T>, b: set<T>)
    requires a <= b && |a| == |b|
    ensures a == b
  {
    assert b == a + (b - a);
  }

  /**
   * When the cart refers to distinct classes the catalog offers, and the
   * catalog's ids are distinct, the count guard is exact: nothing is left
   * available if and only if the cart is as long as the catalog.
   */
  lemma {:induction false} CountGuardExactForDistinctCarts(catalog: seq<GymClass>, items: seq<CartLine>)
    requires DistinctClassIds(catalog) && DistinctLines(items)
    requires forall j :: 0 <= j < |items| ==> Offers(catalog, items[j].classId)
    ensures Available(catalog, items) == [] <==> |items| == |catalog|
  {
    OfferedIdsCount(catalog);
    CartedIdsCount(items);
    OfferedIdsMembership(catalog);
    CartedIdsMembership(items);
    AvailableMembership(catalog, items);
    var offered, carted := OfferedIds(catalog), CartedIds(items);
    assert carted <= offered;
    if Available(catalog, items) == [] {
      forall id | id in offered ensures id in carted {
        var k :| 0 <= k < |catalog| && catalog[k].classId == id;
        assert catalog[k] !in Available(catalog, items);
      }
      assert offered == carted;
    } else {
      var c := Available(catalog, items)[0];
      assert c in Available(catalog, items);
      assert c.classId in offered - carted;
      if |items| == |catalog| {
        SubsetOfSameSize(carted, offered);
      }
    }
  }
}
