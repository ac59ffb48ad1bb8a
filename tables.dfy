/**
 * The loaded spreadsheet as the page holds it: an ordered list of column
 * names and a sequence of rows, each row keyed by column name.
 */
module Tables {

  /** A cell, after best-effort type inference: text, a whole number, or empty. */
  datatype Value = Text(text: string) | Number(n: int) | Missing

  /** One row of the table, keyed by column name. */
  type Row = map<string, Value>

  datatype Table = Table(columns: seq<string>, rows: seq<Row>)

  predicate Distinct<T(==)>(s: seq<T>)
  {
    forall i, j :: 0 <= i < j < |s| ==> s[i] != s[j]
  }

  /** A row has a cell for exactly the table's columns. */
  predicate RowFits(row: Row, columns: seq<string>)
  {
    && (forall c | c in columns :: c in row)
    && (forall c | c in row :: c in columns)
  }

  /** Column names are unique and every row is aligned with them. */
  predicate WellFormed(t: Table)
  {
    && Distinct(t.columns)
    && forall i :: 0 <= i < |t.rows| ==> RowFits(t.rows[i], t.columns)
  }

  /** Every row has a cell in column `c`. */
  predicate HasColumn(rows: seq<Row>, c: string)
  {
    forall i :: 0 <= i < |rows| ==> c in rows[i]
  }

  /** The cells of column `c`, top to bottom (`data[column]`). */
  function ColumnValues(rows: seq<Row>, c: string): (vs: seq<Value>)
    requires HasColumn(rows, c)
    ensures |vs| == |rows|
    ensures forall i :: 0 <= i < |rows| ==> vs[i] == rows[i][c]
  {
    seq(|rows|, i requires 0 <= i < |rows| => rows[i][c])
  }

  /**
   * The distinct values of a column, each once, in order of first appearance
   * (pandas `Series.unique()`).
   */
  function Unique(s: seq<Value>): (u: seq<Value>)
    ensures Distinct(u)
    ensures forall v :: v in u <==> v in s
    ensures |u| <= |s|
    ensures forall i | 0 <= i < |u| :: u[i] in s
  {
    if s == [] then []
    else
      var before := Unique(s[..|s| - 1]);
      if s[|s| - 1] in before then before else before + [s[|s| - 1]]
  }

  /** Where `v` first appears in `s`. */
  function FirstIndex(s: seq<Value>, v: Value): (i: nat)
    requires v in s
    ensures i < |s| && s[i] == v && v !in s[..i]
  {
    if s[0] == v then 0 else 1 + FirstIndex(s[1..], v)
  }

  /** A value's first appearance in a prefix is its first appearance in the whole. */
  lemma {:induction false} FirstIndexInPrefix(s: seq<Value>, k: nat, v: Value)
    requires k <= |s| && v in s[..k]
    ensures FirstIndex(s, v) == FirstIndex(s[..k], v)
  {
    var i := FirstIndex(s[..k], v);
    assert s[..k][..i] == s[..i];
    FirstIndexUnique(s, v, i);
  }

  /** The first index is the one position holding `v` with no `v` before it. */
  lemma {:induction false} FirstIndexUnique(s: seq<Value>, v: Value, i: nat)
    requires i < |s| && s[i] == v && v !in s[..i]
    ensures FirstIndex(s, v) == i
  {
    if s[0] != v {
      assert i > 0;
      assert s[1..][..i - 1] == s[1..i];
      assert forall x | x in s[1..i] :: x in s[..i];
      FirstIndexUnique(s[1..], v, i - 1);
    }
  }

  /** `unique()` lists the values in the order of their first appearance. */
  lemma {:induction false} UniqueFirstAppearance(s: seq<Value>)
    ensures forall i, j | 0 <= i < j < |Unique(s)| :: FirstIndex(s, Unique(s)[i]) < FirstIndex(s, Unique(s)[j])
  {
    if s != [] {
      var init := s[..|s| - 1];
      var last := s[|s| - 1];
      var before := Unique(init);
      UniqueFirstAppearance(init);
      forall x | x in before ensures FirstIndex(s, x) == FirstIndex(init, x) && FirstIndex(init, x) < |s| - 1 {
        assert init == s[..|s| - 1];
        FirstIndexInPrefix(s, |s| - 1, x);
      }
      if last !in before {
        assert last !in s[..|s| - 1];
        FirstIndexUnique(s, last, |s| - 1);
        var u := before + [last];
        forall i, j | 0 <= i < j < |u| ensures FirstIndex(s, u[i]) < FirstIndex(s, u[j]) {
          assert u[i] in before;
          if j < |before| {
            assert u[j] in before;
          }
        }
      }
    }
  }
}
