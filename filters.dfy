/**
 * The sidebar filters of the data page: one list of allowed values per
 * column, defaulting to the column's distinct values, and the table narrowed
 * once per column to the rows whose cell is in that column's list.
 */
module Filters {
  import opened Tables

  /** The `filters` dictionary: column name to the values the user kept. */
  type Selection = map<string, seq<Value>>

  /** `row` keeps every selection among `cols` that names its column. */
  predicate PassesOn(row: Row, cols: seq<string>, sel: Selection)
  {
    forall c | c in cols && c in sel :: c in row && row[c] in sel[c]
  }

  /** `row`'s cell in every selected column is one of the selected values. */
  predicate Matches(row: Row, sel: Selection)
  {
    forall c | c in sel :: c in row && row[c] in sel[c]
  }

  /**
   * The specification of the filter: the rows that pass every selection among
   * `cols`, in their original order.
   */
  function Where(rows: seq<Row>, cols: seq<string>, sel: Selection): seq<Row>
  {
    if rows == [] then []
    else (if PassesOn(rows[0], cols, sel) then [rows[0]] else []) + Where(rows[1..], cols, sel)
  }

  /**
   * One narrowing step, `data[data[column].isin(selected_values)]`: the
   * specification `Where` for a selection of that one column.
   */
  function Narrow(rows: seq<Row>, c: string, allowed: seq<Value>): (r: seq<Row>)
    ensures r == Where(rows, [c], map[c := allowed])
  {
    if rows == [] then []
    else (if c in rows[0] && rows[0][c] in allowed then [rows[0]] else []) + Narrow(rows[1..], c, allowed)
  }

  /** `a` is `b` with some elements removed and none reordered. */
  predicate IsSubsequence<T(==)>(a: seq<T>, b: seq<T>)
    decreases |b|
  {
    if b == [] then a == []
    else (a != [] && a[0] == b[0] && IsSubsequence(a[1..], b[1..])) || IsSubsequence(a, b[1..])
  }

  /** Every selection list contains every value its column takes in `t`. */
  predicate Covers(t: Table, sel: Selection)
  {
    forall c, i | c in sel && 0 <= i < |t.rows| :: c in t.rows[i] && t.rows[i][c] in sel[c]
  }

  /**
   * `vs` lists the values column `c` takes in `rows`: each once, and no value
   * the column does not take.
   */
  predicate ListsColumn(vs: seq<Value>, rows: seq<Row>, c: string)
  {
    && Distinct(vs)
    && (forall i | 0 <= i < |rows| :: c in rows[i] && rows[i][c] in vs)
    && (forall v | v in vs :: exists i :: 0 <= i < |rows| && c in rows[i] && rows[i][c] == v)
  }

  /** `data[column].unique()` lists the column's values. */
  lemma UniqueListsColumn(rows: seq<Row>, c: string)
    requires HasColumn(rows, c)
    ensures ListsColumn(Unique(ColumnValues(rows, c)), rows, c)
  {
  }

  /** A column of a well-formed table has a cell in every row. */
  lemma ColumnPresent(t: Table, c: string)
    requires WellFormed(t) && c in t.columns
    ensures HasColumn(t.rows, c)
  {
  }

  /**
   * The first loop of the filter panel: for every column, in column order, the
   * multiselect's default, which is the list of the column's distinct values.
   */
  method DefaultFilters(t: Table) returns (filters: Selection)
    requires WellFormed(t)
    ensures forall c :: c in filters <==> c in t.columns
    ensures forall c | c in filters :: ListsColumn(filters[c], t.rows, c)
    ensures Covers(t, filters)
  {
    filters := map[];
    var k := 0;
    while k < |t.columns|
      invariant 0 <= k <= |t.columns|
      invariant forall c :: c in filters <==> c in t.columns[..k]
      invariant forall c | c in filters :: ListsColumn(filters[c], t.rows, c)
    {
      var column := t.columns[k];
      ColumnPresent(t, column);
      UniqueListsColumn(t.rows, column);
      var uniqueValues := Unique(ColumnValues(t.rows, column));
      filters := filters[column := uniqueValues];
      assert t.columns[..k + 1] == t.columns[..k] + [column];
      k := k + 1;
    }
    assert t.columns[..k] == t.columns;
  }

  /**
   * The second loop: narrow the table once per selected column, in column
   * order. The result is the specification `Where` over all the columns.
   */
  method ApplyFilters(t: Table, sel: Selection) returns (filtered: Table)
    requires forall c | c in sel :: c in t.columns
    ensures filtered.columns == t.columns
    ensures filtered.rows == Where(t.rows, t.columns, sel)
    ensures forall r :: r in filtered.rows <==> r in t.rows && Matches(r, sel)
    ensures WellFormed(t) ==> WellFormed(filtered)
  {
    var data := t.rows;
    WhereNoColumns(t.rows, sel);
    var k := 0;
    while k < |t.columns|
      invariant 0 <= k <= |t.columns|
      invariant data == Where(t.rows, t.columns[..k], sel)
    {
      var column := t.columns[k];
      WhereExtend(t.rows, t.columns[..k], column, sel);
      assert t.columns[..k + 1] == t.columns[..k] + [column];
      if column in sel {
        data := Narrow(data, column, sel[column]);
      }
      k := k + 1;
    }
    assert t.columns[..k] == t.columns;
    filtered := Table(t.columns, data);
    WhereMembers(t.rows, t.columns, sel);
    if WellFormed(t) {
      forall i | 0 <= i < |data| ensures RowFits(data[i], t.columns) {
        assert data[i] in t.rows;
      }
    }
  }

  /** With no columns processed, nothing is filtered out. */
  lemma {:induction false} WhereNoColumns(rows: seq<Row>, sel: Selection)
    ensures Where(rows, [], sel) == rows
  {
    if rows != [] {
      WhereNoColumns(rows[1..], sel);
    }
  }

  /** Narrowing by one more column is a logical AND with the columns already done. */
  lemma {:induction false} WhereExtend(rows: seq<Row>, cols: seq<string>, c: string, sel: Selection)
    ensures Where(rows, cols + [c], sel)
      == if c in sel then Narrow(Where(rows, cols, sel), c, sel[c]) else Where(rows, cols, sel)
  {
    if rows != [] {
      WhereExtend(rows[1..], cols, c, sel);
      var r := rows[0];
      assert PassesOn(r, cols + [c], sel) <==> PassesOn(r, cols, sel) && (c in sel ==> c in r && r[c] in sel[c]);
      var rest := Where(rows[1..], cols, sel);
      if c in sel && PassesOn(r, cols, sel) {
        var w := [r] + rest;
        assert Where(rows, cols, sel) == w;
        assert w[0] == r && w[1..] == rest;
        assert Narrow(w, c, sel[c])
          == (if c in r && r[c] in sel[c] then [r] else []) + Narrow(rest, c, sel[c]);
      } else if c in sel {
        assert Where(rows, cols, sel) == rest;
        assert Where(rows, cols + [c], sel) == Narrow(rest, c, sel[c]);
      }
    }
  }

  /**
   * The filtered rows are exactly the input rows that pass every selection,
   * each as many times as it occurs in the input.
   */
  lemma {:induction false} WhereCounts(rows: seq<Row>, cols: seq<string>, sel: Selection, r: Row)
    ensures multiset(Where(rows, cols, sel))[r] == if PassesOn(r, cols, sel) then multiset(rows)[r] else 0
  {
    if rows != [] {
      WhereCounts(rows[1..], cols, sel, r);
      assert rows == [rows[0]] + rows[1..];
    }
  }

  /** When the selection names only table columns, passing on the columns is matching. */
  lemma {:induction false} WhereMembers(rows: seq<Row>, cols: seq<string>, sel: Selection)
    requires forall c | c in sel :: c in cols
    ensures forall r :: r in Where(rows, cols, sel) <==> r in rows && Matches(r, sel)
  {
    forall r ensures r in Where(rows, cols, sel) <==> r in rows && Matches(r, sel) {
      WhereCounts(rows, cols, sel, r);
      assert PassesOn(r, cols, sel) <==> Matches(r, sel);
    }
  }

  /** Filtering never adds or reorders rows. */
  lemma {:induction false} WhereIsSubsequence(rows: seq<Row>, cols: seq<string>, sel: Selection)
    ensures IsSubsequence(Where(rows, cols, sel), rows)
  {
    if rows != [] {
      WhereIsSubsequence(rows[1..], cols, sel);
      var rest := Where(rows[1..], cols, sel);
      if PassesOn(rows[0], cols, sel) {
        var w := [rows[0]] + rest;
        assert w[0] == rows[0] && w[1..] == rest;
      } else {
        assert Where(rows, cols, sel) == rest;
      }
    }
  }

  /** Applying the same selection to its own output changes nothing. */
  lemma {:induction false} WhereIdempotent(rows: seq<Row>, cols: seq<string>, sel: Selection)
    ensures Where(Where(rows, cols, sel), cols, sel) == Where(rows, cols, sel)
  {
    if rows != [] {
      WhereIdempotent(rows[1..], cols, sel);
      if PassesOn(rows[0], cols, sel) {
        var w := [rows[0]] + Where(rows[1..], cols, sel);
        assert Where(rows, cols, sel) == w;
        assert w[0] == rows[0] && w[1..] == Where(rows[1..], cols, sel);
      } else {
        assert Where(rows, cols, sel) == Where(rows[1..], cols, sel);
      }
    }
  }

  /** Rows that all pass are kept, all of them, in order. */
  lemma {:induction false} WhereKeepsPassing(rows: seq<Row>, cols: seq<string>, sel: Selection)
    requires forall i | 0 <= i < |rows| :: PassesOn(rows[i], cols, sel)
    ensures Where(rows, cols, sel) == rows
  {
    if rows != [] {
      WhereKeepsPassing(rows[1..], cols, sel);
    }
  }

  /** With the default selection (or any that covers every value), the table is unchanged. */
  lemma CoveringSelectionKeepsAll(t: Table, sel: Selection)
    requires Covers(t, sel)
    ensures Where(t.rows, t.columns, sel) == t.rows
  {
    forall i | 0 <= i < |t.rows| ensures PassesOn(t.rows[i], t.columns, sel) {
    }
    WhereKeepsPassing(t.rows, t.columns, sel);
  }

  /** An empty list for any filtered column leaves no rows, without an error. */
  lemma {:induction false} EmptySelectionEmpties(rows: seq<Row>, cols: seq<string>, sel: Selection, c: string)
    requires c in cols && c in sel && sel[c] == []
    ensures Where(rows, cols, sel) == []
  {
    if rows != [] {
      EmptySelectionEmpties(rows[1..], cols, sel, c);
      assert !PassesOn(rows[0], cols, sel);
    }
  }

  /**
   * Two regions, one kept: filtering Region to ["A"] leaves the one row for
   * region A, and an empty list for Region leaves no rows.
   */
  lemma RegionExample()
    ensures
      var a := map["Region" := Text("A"), "Sales" := Number(10)];
      var b := map["Region" := Text("B"), "Sales" := Number(20)];
      && Where([a, b], ["Region", "Sales"], map["Region" := [Text("A")]]) == [a]
      && Where([a, b], ["Region", "Sales"], map["Region" := []]) == []
  {
    var a := map["Region" := Text("A"), "Sales" := Number(10)];
    var b := map["Region" := Text("B"), "Sales" := Number(20)];
    var cols := ["Region", "Sales"];
    var sel := map["Region" := [Text("A")]];
    assert PassesOn(a, cols, sel);
    assert !PassesOn(b, cols, sel) by {
      assert "Region" in cols;
    }
    assert [a, b][1..] == [b];
    assert [b][1..] == [];
    assert Where([b], cols, sel) == [];
    assert Where([a, b], cols, sel) == [a] + Where([b], cols, sel);
    EmptySelectionEmpties([a, b], cols, map["Region" := []], "Region");
  }
}
