/** The tabular data the core works on. An astropy table is a sequence of rows;
    every catalog table carries a `catalogid` and any number of other named columns.
    `Table` is the object form, for the places where a table is changed in place. */
module Tables {
  import opened Wrappers
  import opened Seqs
  import opened Sorting

  datatype Value = Int(i: int) | Str(s: string) | Real(x: real)

  datatype TargetRow = TargetRow(catalogid: int, columns: map<string, Value>)

  /** One row of the plate-plan summary (`allplate_summary`). */
  datatype SummaryRow = SummaryRow(
    name: string, plateid: int, platerun: string,
    raCen: real, decCen: real, programname: string)

  /** The `catalogid` column. */
  function CatalogIds(rows: seq<TargetRow>): (r: seq<int>)
    ensures |r| == |rows| && forall i :: 0 <= i < |rows| ==> r[i] == rows[i].catalogid
  {
    if rows == [] then [] else [rows[0].catalogid] + CatalogIds(rows[1..])
  }

  /** `table[name] = [v] * len(table)`: every row gets column `name` equal to `v`;
      `catalogid` and the other columns are kept. */
  function SetColumn(rows: seq<TargetRow>, name: string, v: Value): (r: seq<TargetRow>)
    ensures |r| == |rows|
    ensures forall i {:trigger r[i]} :: 0 <= i < |rows| ==> r[i] == TargetRow(rows[i].catalogid, rows[i].columns[name := v])
  {
    if rows == [] then []
    else [rows[0].(columns := rows[0].columns[name := v])] + SetColumn(rows[1..], name, v)
  }

  /** The table has a column `name`: some row carries it. */
  predicate HasColumn(rows: seq<TargetRow>, name: string) {
    exists i :: 0 <= i < |rows| && name in rows[i].columns
  }

  /** Reordering the rows does not change which columns the table has. */
  lemma HasColumnPermutation(a: seq<TargetRow>, b: seq<TargetRow>, name: string)
    requires multiset(a) == multiset(b)
    ensures HasColumn(a, name) <==> HasColumn(b, name)
  {
    if HasColumn(a, name) {
      var i :| 0 <= i < |a| && name in a[i].columns;
      assert a[i] in multiset(b);
      var j :| 0 <= j < |b| && b[j] == a[i];
    }
    if HasColumn(b, name) {
      var j :| 0 <= j < |b| && name in b[j].columns;
      assert b[j] in multiset(a);
      var i :| 0 <= i < |a| && a[i] == b[j];
    }
  }

  /** Row by row: the column holds `v`, every other column and the catalogid are kept, and
      no column but `name` is added. */
  lemma SetColumnFacts(rows: seq<TargetRow>, name: string, v: Value)
    ensures var r := SetColumn(rows, name, v);
      && (forall i :: 0 <= i < |rows| ==> r[i].catalogid == rows[i].catalogid)
      && (forall i :: 0 <= i < |rows| ==> name in r[i].columns && r[i].columns[name] == v)
      && (forall i :: 0 <= i < |rows| ==> r[i].columns.Keys == rows[i].columns.Keys + {name})
      && (forall i, c :: 0 <= i < |rows| && c != name && c in rows[i].columns ==>
            c in r[i].columns && r[i].columns[c] == rows[i].columns[c])
  {
  }

  /** The rows whose catalogid is among `ids`, in table order. */
  function KeepIn(rows: seq<TargetRow>, ids: seq<int>): (r: seq<TargetRow>)
    ensures forall x :: x in r <==> x in rows && x.catalogid in ids
  {
    if rows == [] then []
    else
      assert forall x :: x in rows <==> x == rows[0] || x in rows[1..];
      (if rows[0].catalogid in ids then [rows[0]] else []) + KeepIn(rows[1..], ids)
  }

  /** `rows[np.in1d(rows['catalogid'], ids)]` keeps exactly the rows listed by id, in order. */
  lemma {:induction false} CompressByIds(rows: seq<TargetRow>, ids: seq<int>)
    ensures Compress(rows, In1d(CatalogIds(rows), ids)) == KeepIn(rows, ids)
  {
    if rows != [] {
      CompressByIds(rows[1..], ids);
      assert In1d(CatalogIds(rows), ids)[1..] == In1d(CatalogIds(rows[1..]), ids);
    }
  }

  lemma {:induction false} CatalogIdsAppend(a: seq<TargetRow>, b: seq<TargetRow>)
    ensures CatalogIds(a + b) == CatalogIds(a) + CatalogIds(b)
  {
    var l := CatalogIds(a + b);
    var r := CatalogIds(a) + CatalogIds(b);
    assert |l| == |r|;
    forall k | 0 <= k < |l| ensures l[k] == r[k] {
      if k < |a| {
        assert (a + b)[k] == a[k];
      } else {
        assert (a + b)[k] == b[k - |a|];
      }
    }
  }

  /** `np.in1d(catIDs, rows['catalogid'])`: one flag per queried id, whether some row
      carries it. */
  function IdsPresent(catIDs: seq<int>, rows: seq<TargetRow>): (r: seq<bool>)
    ensures |r| == |catIDs|
    ensures forall i :: 0 <= i < |catIDs| ==> (r[i] <==> exists j :: 0 <= j < |rows| && rows[j].catalogid == catIDs[i])
  {
    var ids := CatalogIds(rows);
    assert forall x :: x in ids <==> exists j :: 0 <= j < |rows| && rows[j].catalogid == x;
    In1d(catIDs, ids)
  }

  /** `vstack(tables)`: the rows of all tables in order; an empty list of tables is an
      error (astropy raises ValueError), here None. */
  function VStack(tables: seq<seq<TargetRow>>): (r: Option<seq<TargetRow>>)
    ensures r.None? <==> tables == []
    ensures r.Some? ==> r.value == Flatten(tables) && |r.value| == TotalLength(tables)
  {
    FlattenFacts(tables);
    if tables == [] then None else Some(Flatten(tables))
  }

  predicate CatalogIdLe(a: TargetRow, b: TargetRow) {
    a.catalogid <= b.catalogid
  }

  lemma CatalogIdOrder()
    ensures TotalPreorder(CatalogIdLe)
  {
  }

  /** `table.sort('catalogid')`. */
  function SortByCatalogId(rows: seq<TargetRow>): (r: seq<TargetRow>)
    ensures multiset(r) == multiset(rows)
    ensures forall i, j :: 0 <= i < j < |r| ==> r[i].catalogid <= r[j].catalogid
  {
    CatalogIdOrder();
    SortBy(rows, CatalogIdLe)
  }

  /** An astropy table held by reference; `rows` changes when a column is set in place. */
  class Table {
    var rows: seq<TargetRow>

    constructor (rows: seq<TargetRow>)
      ensures this.rows == rows
    {
      this.rows := rows;
    }
  }
}
