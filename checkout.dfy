/**
 * Subtotal, tax and total of a cart. A subscriber (the monthly plan) pays
 * nothing per class; everyone else pays the sum of the amounts locked into
 * the cart lines, plus 13% tax. Amounts are exact reals.
 */
module Checkout {
  import opened Records

  const TaxRate: real := 0.13

  /** The sum of the lines' amounts. */
  function Sum(lines: seq<CartLine>): real {
    if lines == [] then 0.0 else Sum(lines[..|lines| - 1]) + lines[|lines| - 1].amount
  }

  datatype Totals = Totals(subtotal: real, tax: real, total: real)

  /** The totals the cart page shows. */
  function TotalsFor(lines: seq<CartLine>, subscribed: bool): Totals {
    var subtotal := if subscribed then 0.0 else Sum(lines);
    var tax := subtotal * TaxRate;
    Totals(subtotal, tax, subtotal + tax)
  }

  /** The loop the cart handlers run: `subtotal += amount` unless the user subscribes. */
  method ComputeTotals(lines: seq<CartLine>, subscribed: bool) returns (totals: Totals)
    ensures totals == TotalsFor(lines, subscribed)
  {
    var subtotal := 0.0;
    if !subscribed {
      for i := 0 to |lines|
        invariant subtotal == Sum(lines[..i])
      {
        assert lines[..i + 1][..i] == lines[..i];
        subtotal := subtotal + lines[i].amount;
      }
      assert lines[..|lines|] == lines;
    }
    var tax := subtotal * TaxRate;
    totals := Totals(subtotal, tax, subtotal + tax);
  }

  /** The sum of a concatenation is the sum of the sums. */
  lemma {:induction false} SumConcat(a: seq<CartLine>, b: seq<CartLine>)
    ensures Sum(a + b) == Sum(a) + Sum(b)
  {
    if b == [] {
      assert a + b == a;
    } else {
      var init := b[..|b| - 1];
      SumConcat(a, init);
      assert (a + b)[..|a + b| - 1] == a + init;
    }
  }

  /** Amounts that are never negative add up to a sum that is not negative. */
  lemma {:induction false} SumNonNegative(lines: seq<CartLine>)
    requires forall i :: 0 <= i < |lines| ==> lines[i].amount >= 0.0
    ensures Sum(lines) >= 0.0
  {
    if lines != [] {
      SumNonNegative(lines[..|lines| - 1]);
    }
  }

  /** A subscriber's subtotal, tax and total are all zero, whatever the lines hold. */
  lemma SubscriberPaysNothing(lines: seq<CartLine>)
    ensures TotalsFor(lines, true) == Totals(0.0, 0.0, 0.0)
  {
  }

  /** Without a subscription the subtotal is the sum of the amounts, and tax and total add 13% of it. */
  lemma RegularTotals(lines: seq<CartLine>)
    ensures TotalsFor(lines, false).subtotal == Sum(lines)
    ensures TotalsFor(lines, false).tax == Sum(lines) * 0.13
    ensures TotalsFor(lines, false).total == Sum(lines) * 1.13
  {
  }

  /** With amounts that are not negative the total is at least the subtotal, which is at least zero. */
  lemma RegularTotalsBounded(lines: seq<CartLine>)
    requires forall i :: 0 <= i < |lines| ==> lines[i].amount >= 0.0
    ensures 0.0 <= TotalsFor(lines, false).subtotal <= TotalsFor(lines, false).total
  {
    SumNonNegative(lines);
  }
}
