/** The basic cleaning step: an inclusive range filter over one column of a
    table (`filter_column_bounds`) and the fixed price -> longitude -> latitude
    chain of three such filters that `go` applies to the downloaded dataset.
    Fetching and publishing the dataset are not part of this model; `Clean`
    receives the loaded table and returns the table that would be published. */
module BasicCleaning {
  import opened Results

  /** One row of the table: column name to numeric value. */
  type Row = map<string, real>

  /** A table: its column labels and its rows, in order. */
  datatype Frame = Frame(columns: set<string>, rows: seq<Row>)

  /** A data frame is rectangular: every row has exactly the frame's columns. */
  predicate Rectangular(df: Frame) {
    forall i :: 0 <= i < |df.rows| ==> df.rows[i].Keys == df.columns
  }

  /** Selecting a column that the frame does not have raises a lookup error. */
  datatype CleaningError = MissingColumn(column: string)

  /** An inclusive bound on one column. */
  datatype Bound = Bound(column: string, lo: real, hi: real)

  /** A row passes a bound when it has the column and its value lies in
      `[lo, hi]`, both ends included (`Series.between` with its default
      `inclusive="both"`). */
  predicate Admits(b: Bound, row: Row) {
    b.column in row && b.lo <= row[b.column] <= b.hi
  }

  // ---------------------------------------------------------------------
  // Reference definitions: the rows a bound keeps and the rows it rejects.
  // ---------------------------------------------------------------------

  /** The rows that pass `b`, in their original order. */
  function Keep(rows: seq<Row>, b: Bound): seq<Row>
  {
    if rows == [] then []
    else (if Admits(b, rows[0]) then [rows[0]] else []) + Keep(rows[1..], b)
  }

  /** The rows that fail `b`, in their original order. */
  function Reject(rows: seq<Row>, b: Bound): seq<Row>
  {
    if rows == [] then []
    else (if Admits(b, rows[0]) then [] else [rows[0]]) + Reject(rows[1..], b)
  }

  /** `xs` is obtained from `ys` by deleting elements, keeping the order. */
  predicate IsSubsequence(xs: seq<Row>, ys: seq<Row>)
    decreases |ys|
  {
    if xs == [] then true
    else if ys == [] then false
    else (xs[0] == ys[0] && IsSubsequence(xs[1..], ys[1..])) || IsSubsequence(xs, ys[1..])
  }

  // ---------------------------------------------------------------------
  // filter_column_bounds, as the source computes it: a boolean mask,
  // boolean indexing with the mask, and the number of true entries.
  // ---------------------------------------------------------------------

  /** Every row has the column `col`. */
  predicate HasColumn(rows: seq<Row>, col: string) {
    forall i :: 0 <= i < |rows| ==> col in rows[i]
  }

  /** `df.loc[:, col].between(lo, hi)`. */
  function Mask(rows: seq<Row>, col: string, lo: real, hi: real): (mask: seq<bool>)
    requires HasColumn(rows, col)
    ensures |mask| == |rows|
    ensures forall i :: 0 <= i < |rows| ==> mask[i] == Admits(Bound(col, lo, hi), rows[i])
  {
    seq(|rows|, i requires 0 <= i < |rows| => lo <= rows[i][col] <= hi)
  }

  /** Boolean indexing `df[mask]`: the entries whose mask entry is true. */
  function Select(xs: seq<Row>, mask: seq<bool>): seq<Row>
    requires |xs| == |mask|
  {
    if xs == [] then []
    else (if mask[0] then [xs[0]] else []) + Select(xs[1..], mask[1..])
  }

  /** `mask.sum()`: the number of true entries. */
  function CountTrue(mask: seq<bool>): nat
  {
    if mask == [] then 0
    else (if mask[0] then 1 else 0) + CountTrue(mask[1..])
  }

  /** `filter_column_bounds(df, col, min_val, max_val)`: the rows whose `col`
      value lies in `[minVal, maxVal]`, as a new frame with the same columns,
      and the number of rows dropped. A missing column is an error; an empty
      range is not. */
  function FilterColumnBounds(df: Frame, col: string, minVal: real, maxVal: real)
    : (r: Result<(Frame, int), CleaningError>)
    requires Rectangular(df)
    ensures r.Err? <==> col !in df.columns
    ensures r.Err? ==> r.error == MissingColumn(col)
    ensures r.Ok? ==> r.value.0.columns == df.columns && Rectangular(r.value.0)
    ensures r.Ok? ==> r.value.0.rows == Keep(df.rows, Bound(col, minVal, maxVal))
    ensures r.Ok? ==> forall i :: 0 <= i < |r.value.0.rows| ==>
                        col in r.value.0.rows[i] && minVal <= r.value.0.rows[i][col] <= maxVal
    ensures r.Ok? ==> r.value.1 == |df.rows| - |r.value.0.rows| >= 0
  {
    if col !in df.columns then Err(MissingColumn(col))
    else
      assert HasColumn(df.rows, col);
      var mask := Mask(df.rows, col, minVal, maxVal);
      MaskSelectsKeep(df.rows, col, minVal, maxVal);
      KeepAdmitted(df.rows, df.columns, Bound(col, minVal, maxVal));
      KeepPartition(df.rows, Bound(col, minVal, maxVal));
      Ok((Frame(df.columns, Select(df.rows, mask)), |df.rows| - CountTrue(mask)))
  }

  // ---------------------------------------------------------------------
  // The mask computation agrees with the reference definition.
  // ---------------------------------------------------------------------

  lemma {:induction false} MaskSelectsKeep(rows: seq<Row>, col: string, lo: real, hi: real)
    requires HasColumn(rows, col)
    ensures Select(rows, Mask(rows, col, lo, hi)) == Keep(rows, Bound(col, lo, hi))
    ensures CountTrue(Mask(rows, col, lo, hi)) == |Keep(rows, Bound(col, lo, hi))|
  {
    if rows != [] {
      var mask := Mask(rows, col, lo, hi);
      assert mask[1..] == Mask(rows[1..], col, lo, hi);
      MaskSelectsKeep(rows[1..], col, lo, hi);
    }
  }

  // ---------------------------------------------------------------------
  // Properties of the reference filter.
  // ---------------------------------------------------------------------

  /** Unfolding `Keep` on a row put in front of others. */
  lemma KeepCons(row: Row, rows: seq<Row>, b: Bound)
    ensures Keep([row] + rows, b) == (if Admits(b, row) then [row] else []) + Keep(rows, b)
  {
    assert ([row] + rows)[1..] == rows;
  }

  /** Every kept row passes the bound, and the kept rows of a rectangular
      frame still have exactly its columns. */
  lemma {:induction false} KeepAdmitted(rows: seq<Row>, columns: set<string>, b: Bound)
    ensures forall i :: 0 <= i < |Keep(rows, b)| ==> Admits(b, Keep(rows, b)[i])
    ensures Rectangular(Frame(columns, rows)) ==> Rectangular(Frame(columns, Keep(rows, b)))
  {
    if rows != [] {
      KeepAdmitted(rows[1..], columns, b);
      var kept := Keep(rows, b);
      if Admits(b, rows[0]) {
        assert kept == [rows[0]] + Keep(rows[1..], b);
        forall i | 1 <= i < |kept| ensures kept[i] == Keep(rows[1..], b)[i - 1] { }
      }
      if Rectangular(Frame(columns, rows)) {
        assert Rectangular(Frame(columns, rows[1..])) by {
          forall i | 0 <= i < |rows[1..]| ensures rows[1..][i].Keys == columns {
            assert rows[1..][i] == rows[i + 1];
          }
        }
      }
    }
  }

  /** A row is kept exactly when it is an input row that passes the bound. */
  lemma {:induction false} KeepMembers(rows: seq<Row>, b: Bound)
    ensures forall row :: row in Keep(rows, b) <==> row in rows && Admits(b, row)
  {
    if rows != [] {
      KeepMembers(rows[1..], b);
      assert rows == [rows[0]] + rows[1..];
    }
  }

  /** Kept rows appear in their original relative order. */
  lemma {:induction false} KeepIsSubsequence(rows: seq<Row>, b: Bound)
    ensures IsSubsequence(Keep(rows, b), rows)
  {
    if rows != [] {
      KeepIsSubsequence(rows[1..], b);
      if Admits(b, rows[0]) {
        assert Keep(rows, b)[1..] == Keep(rows[1..], b);
      } else {
        assert Keep(rows, b) == Keep(rows[1..], b);
        SubsequenceOfTail(Keep(rows, b), rows);
      }
    }
  }

  lemma SubsequenceOfTail(xs: seq<Row>, ys: seq<Row>)
    requires ys != [] && IsSubsequence(xs, ys[1..])
    ensures IsSubsequence(xs, ys)
  {
  }

  /** Kept and rejected rows split the input: together they are the input
      rows, each exactly once, so kept + dropped = total. */
  lemma {:induction false} KeepPartition(rows: seq<Row>, b: Bound)
    ensures |Keep(rows, b)| + |Reject(rows, b)| == |rows|
    ensures multiset(Keep(rows, b)) + multiset(Reject(rows, b)) == multiset(rows)
  {
    if rows != [] {
      KeepPartition(rows[1..], b);
      assert rows == [rows[0]] + rows[1..];
    }
  }

  /** Every rejected row fails the bound. */
  lemma {:induction false} RejectFails(rows: seq<Row>, b: Bound)
    ensures forall row :: row in Reject(rows, b) <==> row in rows && !Admits(b, row)
  {
    if rows != [] {
      RejectFails(rows[1..], b);
      assert rows == [rows[0]] + rows[1..];
    }
  }

  /** Filtering twice with the same bound is filtering once. */
  lemma {:induction false} KeepIdempotent(rows: seq<Row>, b: Bound)
    ensures Keep(Keep(rows, b), b) == Keep(rows, b)
  {
    if rows != [] {
      KeepIdempotent(rows[1..], b);
      if Admits(b, rows[0]) {
        assert Keep(rows, b) == [rows[0]] + Keep(rows[1..], b);
        KeepCons(rows[0], Keep(rows[1..], b), b);
      } else {
        assert Keep(rows, b) == Keep(rows[1..], b);
      }
    }
  }

  /** Filtering by one bound and then another keeps the same rows in
      either order. */
  lemma {:induction false} KeepCommutes(rows: seq<Row>, b1: Bound, b2: Bound)
    ensures Keep(Keep(rows, b1), b2) == Keep(Keep(rows, b2), b1)
  {
    if rows != [] {
      var row, rest := rows[0], rows[1..];
      KeepCommutes(rest, b1, b2);
      if Admits(b1, row) {
        assert Keep(rows, b1) == [row] + Keep(rest, b1);
        KeepCons(row, Keep(rest, b1), b2);
      } else {
        assert Keep(rows, b1) == Keep(rest, b1);
      }
      if Admits(b2, row) {
        assert Keep(rows, b2) == [row] + Keep(rest, b2);
        KeepCons(row, Keep(rest, b2), b1);
      } else {
        assert Keep(rows, b2) == Keep(rest, b2);
      }
    }
  }

  /** An empty range (`lo > hi`) keeps nothing. */
  lemma {:induction false} KeepEmptyRange(rows: seq<Row>, b: Bound)
    requires b.lo > b.hi
    ensures Keep(rows, b) == []
  {
    if rows != [] {
      KeepEmptyRange(rows[1..], b);
    }
  }

  // ---------------------------------------------------------------------
  // Properties of filter_column_bounds.
  // ---------------------------------------------------------------------

  /** The kept rows are exactly the in-bound input rows, in input order, and
      the drop count is the number of out-of-bound rows. */
  lemma FilterKeepsExactlyInBoundRows(df: Frame, col: string, minVal: real, maxVal: real)
    requires Rectangular(df) && col in df.columns
    ensures var r := FilterColumnBounds(df, col, minVal, maxVal);
      && r.Ok?
      && (forall row :: row in r.value.0.rows <==>
            row in df.rows && minVal <= row[col] <= maxVal)
      && IsSubsequence(r.value.0.rows, df.rows)
      && r.value.1 == |Reject(df.rows, Bound(col, minVal, maxVal))|
      && (forall row :: row in Reject(df.rows, Bound(col, minVal, maxVal)) <==>
            row in df.rows && !(minVal <= row[col] <= maxVal))
  {
    var b := Bound(col, minVal, maxVal);
    KeepMembers(df.rows, b);
    KeepIsSubsequence(df.rows, b);
    KeepPartition(df.rows, b);
    RejectFails(df.rows, b);
    forall row | row in df.rows ensures col in row {
      var i :| 0 <= i < |df.rows| && df.rows[i] == row;
    }
  }

  /** Filtering a filtered frame again with the same column and bounds
      returns the same frame and drops nothing. */
  lemma FilterTwiceDropsNothing(df: Frame, col: string, minVal: real, maxVal: real)
    requires Rectangular(df) && col in df.columns
    ensures var once := FilterColumnBounds(df, col, minVal, maxVal);
      once.Ok? && FilterColumnBounds(once.value.0, col, minVal, maxVal) == Ok((once.value.0, 0))
  {
    KeepIdempotent(df.rows, Bound(col, minVal, maxVal));
  }

  /** With `minVal > maxVal` no row is kept, every row is dropped and no
      error is raised. */
  lemma FilterEmptyRange(df: Frame, col: string, minVal: real, maxVal: real)
    requires Rectangular(df) && col in df.columns && minVal > maxVal
    ensures FilterColumnBounds(df, col, minVal, maxVal) == Ok((Frame(df.columns, []), |df.rows|))
  {
    KeepEmptyRange(df.rows, Bound(col, minVal, maxVal));
  }

  /** Rows with prices 50, 500 and 5000 filtered on `[100, 1000]`: the
      500 row is kept and two rows are dropped. */
  lemma FilterPriceExample()
    ensures var low, mid, high := map["price" := 50.0], map["price" := 500.0], map["price" := 5000.0];
      FilterColumnBounds(Frame({"price"}, [low, mid, high]), "price", 100.0, 1000.0)
        == Ok((Frame({"price"}, [mid]), 2))
  {
    var low, mid, high := map["price" := 50.0], map["price" := 500.0], map["price" := 5000.0];
    var b := Bound("price", 100.0, 1000.0);
    KeepCons(low, [mid, high], b);
    KeepCons(mid, [high], b);
    KeepCons(high, [], b);
    assert Keep([low, mid, high], b) == [mid];
  }

  // ---------------------------------------------------------------------
  // The cleaning chain in `go`.
  // ---------------------------------------------------------------------

  /** The six bound arguments of the cleaning step. */
  datatype CleaningBounds = CleaningBounds(
    minPrice: real, maxPrice: real,
    minLongitude: real, maxLongitude: real,
    minLatitude: real, maxLatitude: real)

  /** The cleaned frame and the drop count logged after each filter. */
  datatype Cleaned = Cleaned(frame: Frame, droppedPrice: int, droppedLongitude: int, droppedLatitude: int)

  /** The three bounds in the order `go` applies them. */
  function ChainBounds(b: CleaningBounds): seq<Bound>
  {
    [Bound("price", b.minPrice, b.maxPrice),
     Bound("longitude", b.minLongitude, b.maxLongitude),
     Bound("latitude", b.minLatitude, b.maxLatitude)]
  }

  /** A row passes every bound in `bs`. */
  predicate AdmitsAll(bs: seq<Bound>, row: Row) {
    forall i :: 0 <= i < |bs| ==> Admits(bs[i], row)
  }

  /** The rows that pass every bound in `bs`, in their original order. */
  function KeepAll(rows: seq<Row>, bs: seq<Bound>): seq<Row>
  {
    if rows == [] then []
    else (if AdmitsAll(bs, rows[0]) then [rows[0]] else []) + KeepAll(rows[1..], bs)
  }

  /** The rebinding of `df` and `dropped` through the three filters of `go`.
      The chain fails exactly when one of its three columns is missing,
      naming the first missing one in filter order; otherwise it keeps
      exactly the input rows that satisfy all three bounds, in input order,
      and the three drop counts add up to the rows removed. */
  function Clean(df: Frame, b: CleaningBounds): (r: Result<Cleaned, CleaningError>)
    requires Rectangular(df)
    ensures r.Ok? <==> "price" in df.columns && "longitude" in df.columns && "latitude" in df.columns
    ensures "price" !in df.columns ==> r == Err(MissingColumn("price"))
    ensures "price" in df.columns && "longitude" !in df.columns ==> r == Err(MissingColumn("longitude"))
    ensures ("price" in df.columns && "longitude" in df.columns && "latitude" !in df.columns)
              ==> r == Err(MissingColumn("latitude"))
    ensures r.Ok? ==>
      && r.value.frame.columns == df.columns
      && r.value.frame.rows == KeepAll(df.rows, ChainBounds(b))
      && (forall row :: row in r.value.frame.rows <==> row in df.rows && AdmitsAll(ChainBounds(b), row))
      && IsSubsequence(r.value.frame.rows, df.rows)
      && r.value.droppedPrice + r.value.droppedLongitude + r.value.droppedLatitude
           == |df.rows| - |r.value.frame.rows|
  {
    ChainKeepsAll(df.rows, b);
    var byPrice :- FilterColumnBounds(df, "price", b.minPrice, b.maxPrice);
    var byLongitude :- FilterColumnBounds(byPrice.0, "longitude", b.minLongitude, b.maxLongitude);
    var byLatitude :- FilterColumnBounds(byLongitude.0, "latitude", b.minLatitude, b.maxLatitude);
    Ok(Cleaned(byLatitude.0, byPrice.1, byLongitude.1, byLatitude.1))
  }

  /** Keeping the rows that pass `bs` and then those that pass `b` keeps the
      rows that pass `bs + [b]`. */
  lemma {:induction false} KeepAfterKeepAll(rows: seq<Row>, bs: seq<Bound>, b: Bound)
    ensures Keep(KeepAll(rows, bs), b) == KeepAll(rows, bs + [b])
  {
    if rows != [] {
      KeepAfterKeepAll(rows[1..], bs, b);
      var row := rows[0];
      if AdmitsAll(bs, row) {
        assert KeepAll(rows, bs) == [row] + KeepAll(rows[1..], bs);
        KeepCons(row, KeepAll(rows[1..], bs), b);
      } else {
        assert KeepAll(rows, bs) == KeepAll(rows[1..], bs);
      }
      assert AdmitsAll(bs + [b], row) <==> AdmitsAll(bs, row) && Admits(b, row) by {
        if AdmitsAll(bs, row) && Admits(b, row) {
          forall i | 0 <= i < |bs + [b]| ensures Admits((bs + [b])[i], row) {
            if i < |bs| { assert (bs + [b])[i] == bs[i]; }
          }
        }
        if AdmitsAll(bs + [b], row) {
          forall i | 0 <= i < |bs| ensures Admits(bs[i], row) {
            assert (bs + [b])[i] == bs[i];
          }
          assert (bs + [b])[|bs|] == b;
        }
      }
    }
  }

  /** With no bounds every row is kept. */
  lemma {:induction false} KeepAllNone(rows: seq<Row>)
    ensures KeepAll(rows, []) == rows
  {
    if rows != [] {
      KeepAllNone(rows[1..]);
    }
  }

  /** The rows that pass every bound in `bs` are those input rows, in order. */
  lemma {:induction false} KeepAllMembers(rows: seq<Row>, bs: seq<Bound>)
    ensures forall row :: row in KeepAll(rows, bs) <==> row in rows && AdmitsAll(bs, row)
    ensures IsSubsequence(KeepAll(rows, bs), rows)
  {
    if rows != [] {
      KeepAllMembers(rows[1..], bs);
      assert rows == [rows[0]] + rows[1..];
      if AdmitsAll(bs, rows[0]) {
        assert KeepAll(rows, bs)[1..] == KeepAll(rows[1..], bs);
      } else {
        assert KeepAll(rows, bs) == KeepAll(rows[1..], bs);
        SubsequenceOfTail(KeepAll(rows, bs), rows);
      }
    }
  }

  /** The three filters of the chain, one after another, keep the rows that
      pass all three bounds. */
  lemma ChainKeepsAll(rows: seq<Row>, b: CleaningBounds)
    ensures var bs := ChainBounds(b);
      && Keep(Keep(Keep(rows, bs[0]), bs[1]), bs[2]) == KeepAll(rows, bs)
      && (forall row :: row in KeepAll(rows, bs) <==> row in rows && AdmitsAll(bs, row))
      && IsSubsequence(KeepAll(rows, bs), rows)
  {
    var bs := ChainBounds(b);
    KeepAllNone(rows);
    KeepAfterKeepAll(rows, [], bs[0]);
    assert [] + [bs[0]] == bs[..1];
    KeepAfterKeepAll(rows, bs[..1], bs[1]);
    assert bs[..1] + [bs[1]] == bs[..2];
    KeepAfterKeepAll(rows, bs[..2], bs[2]);
    assert bs[..2] + [bs[2]] == bs;
    KeepAllMembers(rows, bs);
  }
}
