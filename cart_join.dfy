/**
 * The rows of the cart page: every cart line joined with every catalog
 * class of the same id. A row shows the class's id, name and length and
 * the amount locked into the cart line, not the class's current price.
 */
module CartJoin {
  import opened Records
  import opened Store

  datatype CartRow = CartRow(id: string, name: string, length: int, amount: real)

  function RowOf(line: CartLine, c: GymClass): CartRow {
    CartRow(c.classId, c.name, c.length, line.amount)
  }

  /** The rows one cart line contributes, in catalog order. */
  function RowsFor(line: CartLine, catalog: seq<GymClass>): (rows: seq<CartRow>)
    ensures |rows| <= |catalog|
  {
    if catalog == [] then []
    else
      var c := catalog[|catalog| - 1];
      RowsFor(line, catalog[..|catalog| - 1]) + (if line.classId == c.classId then [RowOf(line, c)] else [])
  }

  /** The rows of a whole cart, in cart-line order. */
  function Join(lines: seq<CartLine>, catalog: seq<GymClass>): seq<CartRow> {
    if lines == [] then []
    else Join(lines[..|lines| - 1], catalog) + RowsFor(lines[|lines| - 1], catalog)
  }

  /** The nested loop of the cart handlers: for each line, for each class, push a row when the ids match. */
  method BuildRows(lines: seq<CartLine>, catalog: seq<GymClass>) returns (rows: seq<CartRow>)
    ensures rows == Join(lines, catalog)
  {
    rows := [];
    for i := 0 to |lines|
      invariant rows == Join(lines[..i], catalog)
    {
      ghost var before := rows;
      for j := 0 to |catalog|
        invariant rows == before + RowsFor(lines[i], catalog[..j])
      {
        assert catalog[..j + 1][..j] == catalog[..j];
        if lines[i].classId == catalog[j].classId {
          rows := rows + [CartRow(catalog[j].classId, catalog[j].name, catalog[j].length, lines[i].amount)];
        }
      }
      assert catalog[..|catalog|] == catalog;
      assert lines[..i + 1][..i] == lines[..i];
    }
    assert lines[..|lines|] == lines;
  }

  /** A line's rows are exactly its joins with the catalog classes of the same id. */
  lemma {:induction false} RowsForMembership(line: CartLine, catalog: seq<GymClass>)
    ensures forall r :: r in RowsFor(line, catalog) <==>
      exists j :: 0 <= j < |catalog| && catalog[j].classId == line.classId && r == RowOf(line, catalog[j])
  {
    if catalog != [] {
      var init := catalog[..|catalog| - 1];
      RowsForMembership(line, init);
      forall r | r in RowsFor(line, catalog)
        ensures exists j :: 0 <= j < |catalog| && catalog[j].classId == line.classId && r == RowOf(line, catalog[j])
      {
        if r in RowsFor(line, init) {
          var j :| 0 <= j < |init| && init[j].classId == line.classId && r == RowOf(line, init[j]);
          assert catalog[j] == init[j];
        }
      }
      forall r, j | 0 <= j < |catalog| && catalog[j].classId == line.classId && r == RowOf(line, catalog[j])
        ensures r in RowsFor(line, catalog)
      {
        if j < |init| {
          assert init[j] == catalog[j];
        }
      }
    }
  }

  /** Every row comes from a (cart line, class) pair with equal ids, and every such pair gives a row. */
  lemma {:induction false} JoinMembership(lines: seq<CartLine>, catalog: seq<GymClass>)
    ensures forall r :: r in Join(lines, catalog) <==>
      exists i, j :: 0 <= i < |lines| && 0 <= j < |catalog| &&
        lines[i].classId == catalog[j].classId && r == RowOf(lines[i], catalog[j])
  {
    if lines != [] {
      var init, last := lines[..|lines| - 1], lines[|lines| - 1];
      JoinMembership(init, catalog);
      RowsForMembership(last, catalog);
      forall r | r in Join(lines, catalog)
        ensures exists i, j ::
                  0 <= i < |lines| && 0 <= j < |catalog| &&
                  lines[i].classId == catalog[j].classId && r == RowOf(lines[i], catalog[j])
      {
        if r in Join(init, catalog) {
          var i, j :| 0 <= i < |init| && 0 <= j < |catalog| &&
            init[i].classId == catalog[j].classId && r == RowOf(init[i], catalog[j]);
          assert lines[i] == init[i];
        } else {
          var j :| 0 <= j < |catalog| && catalog[j].classId == last.classId && r == RowOf(last, catalog[j]);
          assert lines[|lines| - 1] == last;
        }
      }
      forall r, i, j | 0 <= i < |lines| && 0 <= j < |catalog| &&
          lines[i].classId == catalog[j].classId && r == RowOf(lines[i], catalog[j])
        ensures r in Join(lines, catalog)
      {
        if i < |init| {
          assert init[i] == lines[i];
        }
      }
    }
  }

  /** Joining a concatenation joins each part: the rows keep cart-line order. */
  lemma {:induction false} JoinConcat(a: seq<CartLine>, b: seq<CartLine>, catalog: seq<GymClass>)
    ensures Join(a + b, catalog) == Join(a, catalog) + Join(b, catalog)
  {
    if b == [] {
      assert a + b == a;
    } else {
      var init, last := b[..|b| - 1], b[|b| - 1];
      assert b == init + [last];
      calc {
        Join(a + b, catalog);
        { assert (a + b)[..|a + b| - 1] == a + init; }
        Join(a + init, catalog) + RowsFor(last, catalog);
        { JoinConcat(a, init, catalog); }
        Join(a, catalog) + Join(init, catalog) + RowsFor(last, catalog);
      }
    }
  }

  /** A line whose class the catalog does not offer contributes no row. */
  lemma {:induction false} MissingClassNoRows(line: CartLine, catalog: seq<GymClass>)
    requires FindClass(catalog, line.classId).None?
    ensures RowsFor(line, catalog) == []
  {
    if catalog != [] {
      MissingClassNoRows(line, catalog[..|catalog| - 1]);
      assert catalog[|catalog| - 1].classId != line.classId;
    }
  }

  /** With distinct catalog ids a line contributes one row, for its class, or none when the class is missing. */
  lemma {:induction false} RowsForDistinct(line: CartLine, catalog: seq<GymClass>)
    requires DistinctClassIds(catalog)
    ensures FindClass(catalog, line.classId).None? ==> RowsFor(line, catalog) == []
    ensures FindClass(catalog, line.classId).Some? ==>
      RowsFor(line, catalog) == [RowOf(line, catalog[FindClass(catalog, line.classId).value])]
  {
    if catalog != [] {
      var init, c := catalog[..|catalog| - 1], catalog[|catalog| - 1];
      assert DistinctClassIds(init) by {
        forall i, j | 0 <= i < j < |init| ensures init[i].classId != init[j].classId {
          assert init[i] == catalog[i] && init[j] == catalog[j];
        }
      }
      RowsForDistinct(line, init);
      if c.classId == line.classId {
        assert FindClass(init, line.classId).None? by {
          forall j | 0 <= j < |init| ensures init[j].classId != line.classId {
            assert init[j] == catalog[j];
          }
        }
      } else {
        match FindClass(init, line.classId)
        case None =>
        case Some(k) =>
          assert catalog[k] == init[k];
      }
    }
  }

  /**
   * With distinct catalog ids and every line's class in the catalog, the
   * cart page has exactly one row per line, in line order, showing that
   * line's class and the line's own amount.
   */
  lemma {:induction false} JoinAligned(lines: seq<CartLine>, catalog: seq<GymClass>)
    requires DistinctClassIds(catalog)
    requires forall i :: 0 <= i < |lines| ==> FindClass(catalog, lines[i].classId).Some?
    ensures |Join(lines, catalog)| == |lines|
    ensures forall i :: 0 <= i < |lines| ==>
      Join(lines, catalog)[i].id == lines[i].classId && Join(lines, catalog)[i].amount == lines[i].amount
  {
    if lines != [] {
      var init, last := lines[..|lines| - 1], lines[|lines| - 1];
      assert forall i :: 0 <= i < |init| ==> init[i] == lines[i];
      JoinAligned(init, catalog);
      RowsForDistinct(last, catalog);
      var before, row := Join(init, catalog), RowOf(last, catalog[FindClass(catalog, last.classId).value]);
      assert Join(lines, catalog) == before + [row];
      forall i | 0 <= i < |lines|
        ensures Join(lines, catalog)[i].id == lines[i].classId && Join(lines, catalog)[i].amount == lines[i].amount
      {
        if i < |init| {
          assert Join(lines, catalog)[i] == before[i];
        } else {
          assert Join(lines, catalog)[i] == row;
        }
      }
    }
  }
}
