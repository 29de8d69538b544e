/** Table concatenation helpers (src/ppv/util/__init__.py). `unique_cat` stacks tables and
    drops repeated rows; `unique_cat_w_provenance` first tags every non-empty table, in
    place, with the property paired with its group. */
module Util {
  import opened Wrappers
  import opened Seqs
  import opened Tables

  datatype UtilError = NoTablesToStack   // `vstack([])` raises ValueError

  /** `unique_cat`: every row of every table, once. */
  function UniqueCat(tables: seq<seq<TargetRow>>): (r: Result<seq<TargetRow>, UtilError>)
    ensures r.Err? <==> tables == []
    ensures r.Ok? ==> Distinct(r.value)
    ensures r.Ok? ==> forall x :: x in r.value <==> exists k :: 0 <= k < |tables| && x in tables[k]
  {
    match VStack(tables)
    case None => Err(NoTablesToStack)
    case Some(rows) =>
      FlattenFacts(tables);
      Ok(Dedup(rows))
  }

  /** The non-empty tables of a list, in order. */
  function NonEmpty<T>(s: seq<seq<T>>): (r: seq<seq<T>>)
    ensures |r| <= |s|
  {
    if s == [] then []
    else NonEmpty(s[..|s| - 1]) + (if s[|s| - 1] != [] then [s[|s| - 1]] else [])
  }

  lemma {:induction false} NonEmptyMembers<T>(s: seq<seq<T>>)
    ensures forall t :: t in NonEmpty(s) <==> t in s && t != []
  {
    if s != [] {
      NonEmptyMembers(s[..|s| - 1]);
      assert s == s[..|s| - 1] + [s[|s| - 1]];
    }
  }

  lemma NonEmptyStep<T>(s: seq<seq<T>>, j: nat)
    requires j < |s|
    ensures NonEmpty(s[..j + 1]) == NonEmpty(s[..j]) + (if s[j] != [] then [s[j]] else [])
  {
    assert s[..j + 1][..j] == s[..j];
  }

  /** Every table of a group with column `col` set to `prop`; an empty table has no rows
      to set and stays empty. */
  function TagRows(tabs: seq<seq<TargetRow>>, col: string, prop: Value): (r: seq<seq<TargetRow>>)
    ensures |r| == |tabs| && forall j :: 0 <= j < |tabs| ==> r[j] == SetColumn(tabs[j], col, prop)
  {
    seq(|tabs|, j requires 0 <= j < |tabs| => SetColumn(tabs[j], col, prop))
  }

  /** The tables of one group that the provenance loop keeps, in order: the non-empty
      ones, each with column `col` set to `prop`. */
  function Tagged(tabs: seq<seq<TargetRow>>, prop: Value, col: string): (r: seq<seq<TargetRow>>)
    ensures |r| <= |tabs|
  {
    NonEmpty(TagRows(tabs, col, prop))
  }

  /** The tables `unique_cat_w_provenance` stacks when it has visited the first `n`
      groups, each group paired with its property. */
  function Provenance(groups: seq<seq<seq<TargetRow>>>, props: seq<Value>, col: string, n: nat): (r: seq<seq<TargetRow>>)
    requires n <= |groups| && n <= |props|
  {
    if n == 0 then [] else Provenance(groups, props, col, n - 1) + Tagged(groups[n - 1], props[n - 1], col)
  }

  /** `zip` stops at the shorter list. */
  function ZipLength(a: nat, b: nat): (n: nat)
    ensures n <= a && n <= b && (n == a || n == b)
  {
    if a < b then a else b
  }

  lemma TaggedTables(tabs: seq<seq<TargetRow>>, prop: Value, col: string)
    ensures forall t :: t in Tagged(tabs, prop, col) <==>
      exists j :: 0 <= j < |tabs| && tabs[j] != [] && t == SetColumn(tabs[j], col, prop)
  {
    var all := TagRows(tabs, col, prop);
    NonEmptyMembers(all);
    forall t ensures t in Tagged(tabs, prop, col) <==>
      exists j :: 0 <= j < |tabs| && tabs[j] != [] && t == SetColumn(tabs[j], col, prop)
    {
      if t in all && t != [] {
        var j :| 0 <= j < |all| && all[j] == t;
        assert tabs[j] != [];
      }
      if exists j :: 0 <= j < |tabs| && tabs[j] != [] && t == SetColumn(tabs[j], col, prop) {
        var j :| 0 <= j < |tabs| && tabs[j] != [] && t == SetColumn(tabs[j], col, prop);
        assert all[j] == t;
      }
    }
  }

  /** The stacked tables are exactly the tagged non-empty tables of the visited groups. */
  lemma {:induction false} ProvenanceTables(groups: seq<seq<seq<TargetRow>>>, props: seq<Value>, col: string, n: nat)
    requires n <= |groups| && n <= |props|
    ensures forall t :: t in Provenance(groups, props, col, n) <==>
      exists i, j :: 0 <= i < n && 0 <= j < |groups[i]| && groups[i][j] != [] &&
        t == SetColumn(groups[i][j], col, props[i])
  {
    if n > 0 {
      ProvenanceTables(groups, props, col, n - 1);
      TaggedTables(groups[n - 1], props[n - 1], col);
    }
  }

  /** No empty table is stacked. */
  lemma ProvenanceSkipsEmpty(groups: seq<seq<seq<TargetRow>>>, props: seq<Value>, col: string, n: nat)
    requires n <= |groups| && n <= |props|
    ensures [] !in Provenance(groups, props, col, n)
  {
    ProvenanceTables(groups, props, col, n);
  }

  /** Nothing is stacked exactly when every visited table is empty. */
  lemma ProvenanceEmpty(groups: seq<seq<seq<TargetRow>>>, props: seq<Value>, col: string, n: nat)
    requires n <= |groups| && n <= |props|
    ensures Provenance(groups, props, col, n) == [] <==>
      forall i, j :: 0 <= i < n && 0 <= j < |groups[i]| ==> groups[i][j] == []
  {
    var p := Provenance(groups, props, col, n);
    ProvenanceTables(groups, props, col, n);
    if p != [] {
      assert p[0] in p;
    }
    if exists i, j :: 0 <= i < n && 0 <= j < |groups[i]| && groups[i][j] != [] {
      var i, j :| 0 <= i < n && 0 <= j < |groups[i]| && groups[i][j] != [];
      assert SetColumn(groups[i][j], col, props[i]) in p;
    }
  }

  /** A row is stacked exactly when it is a tagged row of a visited table. */
  lemma ProvenanceRows(groups: seq<seq<seq<TargetRow>>>, props: seq<Value>, col: string, n: nat, x: TargetRow)
    requires n <= |groups| && n <= |props|
    ensures var p := Provenance(groups, props, col, n);
      (exists k :: 0 <= k < |p| && x in p[k]) <==>
      exists i, j :: 0 <= i < n && 0 <= j < |groups[i]| && x in SetColumn(groups[i][j], col, props[i])
  {
    var p := Provenance(groups, props, col, n);
    if exists k :: 0 <= k < |p| && x in p[k] {
      var k :| 0 <= k < |p| && x in p[k];
      StackedRowIsTagged(groups, props, col, n, x, k);
    }
    if exists i, j :: 0 <= i < n && 0 <= j < |groups[i]| && x in SetColumn(groups[i][j], col, props[i]) {
      var i, j :| 0 <= i < n && 0 <= j < |groups[i]| && x in SetColumn(groups[i][j], col, props[i]);
      TaggedRowIsStacked(groups, props, col, n, x, i, j);
    }
  }

  lemma StackedRowIsTagged(groups: seq<seq<seq<TargetRow>>>, props: seq<Value>, col: string, n: nat, x: TargetRow, k: nat)
    requires n <= |groups| && n <= |props|
    requires k < |Provenance(groups, props, col, n)| && x in Provenance(groups, props, col, n)[k]
    ensures exists i, j :: 0 <= i < n && 0 <= j < |groups[i]| && x in SetColumn(groups[i][j], col, props[i])
  {
    var p := Provenance(groups, props, col, n);
    ProvenanceTables(groups, props, col, n);
    assert p[k] in p;
    var i, j :| 0 <= i < n && 0 <= j < |groups[i]| && groups[i][j] != [] &&
      p[k] == SetColumn(groups[i][j], col, props[i]);
  }

  lemma TaggedRowIsStacked(groups: seq<seq<seq<TargetRow>>>, props: seq<Value>, col: string, n: nat, x: TargetRow, i: nat, j: nat)
    requires n <= |groups| && n <= |props| && i < n && j < |groups[i]|
    requires x in SetColumn(groups[i][j], col, props[i])
    ensures exists k :: 0 <= k < |Provenance(groups, props, col, n)| && x in Provenance(groups, props, col, n)[k]
  {
    var p := Provenance(groups, props, col, n);
    ProvenanceTables(groups, props, col, n);
    var t := SetColumn(groups[i][j], col, props[i]);
    assert groups[i][j] != [];
    assert t in p;
    var k :| 0 <= k < |p| && p[k] == t;
    assert x in p[k];
  }

  /** Every tagged row carries the property of its group. */
  lemma TaggedRow(rows: seq<TargetRow>, col: string, prop: Value, x: TargetRow)
    requires x in SetColumn(rows, col, prop)
    ensures col in x.columns && x.columns[col] == prop
  {
    var t := SetColumn(rows, col, prop);
    var m :| 0 <= m < |t| && t[m] == x;
  }

  /** What the whole operation returns: the distinct rows of the non-empty tables of the
      visited groups, each row carrying its group's property in `col`; nothing to stack
      (every visited table empty) is the `vstack` error. */
  lemma ProvenanceResult(groups: seq<seq<seq<TargetRow>>>, props: seq<Value>, col: string)
    ensures var n := ZipLength(|groups|, |props|);
      var r := UniqueCat(Provenance(groups, props, col, n));
      && (r.Err? <==> forall i, j :: 0 <= i < n && 0 <= j < |groups[i]| ==> groups[i][j] == [])
      && (r.Ok? ==> Distinct(r.value))
      && (r.Ok? ==> forall x :: x in r.value <==>
           exists i, j :: 0 <= i < n && 0 <= j < |groups[i]| && x in SetColumn(groups[i][j], col, props[i]))
      && (r.Ok? ==> forall x :: x in r.value ==>
           col in x.columns && exists i :: 0 <= i < n && x.columns[col] == props[i])
  {
    var n := ZipLength(|groups|, |props|);
    var p := Provenance(groups, props, col, n);
    ProvenanceEmpty(groups, props, col, n);
    var r := UniqueCat(p);
    if r.Ok? {
      forall x ensures x in r.value <==>
        exists i, j :: 0 <= i < n && 0 <= j < |groups[i]| && x in SetColumn(groups[i][j], col, props[i])
      {
        ProvenanceRows(groups, props, col, n, x);
      }
      forall x | x in r.value ensures col in x.columns && exists i :: 0 <= i < n && x.columns[col] == props[i] {
        var i, j :| 0 <= i < n && 0 <= j < |groups[i]| && x in SetColumn(groups[i][j], col, props[i]);
        TaggedRow(groups[i][j], col, props[i], x);
      }
    }
  }

  /** The table objects of a list of lists. */
  ghost function AllTables(lst: seq<seq<Table>>): set<Table>
  {
    set i, t | 0 <= i < |lst| && t in lst[i] :: t
  }

  /** No table object appears twice. */
  ghost predicate DistinctTables(lst: seq<seq<Table>>) {
    forall i, j, i', j' ::
      (0 <= i < |lst| && 0 <= j < |lst[i]| && 0 <= i' < |lst| && 0 <= j' < |lst[i']| &&
       lst[i][j] == lst[i'][j']) ==> i == i' && j == j'
  }

  /** The rows one group's tables hold now. */
  ghost function GroupRows(tabs: seq<Table>): (r: seq<seq<TargetRow>>)
    reads tabs
    ensures |r| == |tabs| && forall j :: 0 <= j < |tabs| ==> r[j] == tabs[j].rows
  {
    seq(|tabs|, j requires 0 <= j < |tabs| reads tabs => tabs[j].rows)
  }

  /** The rows all the tables hold now, group by group. */
  ghost function RowsOf(lst: seq<seq<Table>>): (r: seq<seq<seq<TargetRow>>>)
    reads AllTables(lst)
    ensures |r| == |lst| && forall i :: 0 <= i < |lst| ==> r[i] == GroupRows(lst[i])
  {
    seq(|lst|, i requires 0 <= i < |lst| reads AllTables(lst) =>
      GroupInAll(lst, i);
      GroupRows(lst[i]))
  }

  lemma GroupInAll(lst: seq<seq<Table>>, i: nat)
    requires i < |lst|
    ensures forall t :: t in lst[i] ==> t in AllTables(lst)
  {
  }

  /** One step of the inner loop: a table with rows receives the column in place and is
      kept; an empty one is skipped. */
  method TagTable(tab: Table, prop: Value, col: string) returns (kept: seq<seq<TargetRow>>)
    modifies tab
    ensures tab.rows == SetColumn(old(tab.rows), col, prop)
    ensures kept == if old(tab.rows) != [] then [tab.rows] else []
  {
    kept := [];
    if |tab.rows| > 0 {
      tab.rows := SetColumn(tab.rows, col, prop);
      kept := [tab.rows];
    }
  }

  /** The rows of a group's tables once the first `j` are tagged. */
  ghost function TagPrefix(before: seq<seq<TargetRow>>, col: string, prop: Value, j: nat)
    : (r: seq<seq<TargetRow>>)
    requires j <= |before|
    ensures |r| == |before|
    ensures forall b :: 0 <= b < |before| ==> r[b] == if b < j then SetColumn(before[b], col, prop) else before[b]
  {
    seq(|before|, b requires 0 <= b < |before| => if b < j then SetColumn(before[b], col, prop) else before[b])
  }

  /** One pass of the inner loop, at table `j`: the tables before it are tagged, the
      others untouched. */
  method TagGroupStep(tabs: seq<Table>, j: nat, prop: Value, col: string,
                      ghost before: seq<seq<TargetRow>>, kept: seq<seq<TargetRow>>)
    returns (kept': seq<seq<TargetRow>>)
    requires forall j, k :: 0 <= j < |tabs| && 0 <= k < |tabs| && tabs[j] == tabs[k] ==> j == k
    requires j < |tabs| == |before|
    requires kept == NonEmpty(TagRows(before, col, prop)[..j])
    requires GroupRows(tabs) == TagPrefix(before, col, prop, j)
    modifies tabs[j]
    ensures kept' == NonEmpty(TagRows(before, col, prop)[..j + 1])
    ensures GroupRows(tabs) == TagPrefix(before, col, prop, j + 1)
  {
    ghost var after := TagRows(before, col, prop);
    ghost var pre := TagPrefix(before, col, prop, j);
    ghost var post := TagPrefix(before, col, prop, j + 1);
    NonEmptyStep(after, j);
    assert tabs[j].rows == pre[j] == before[j];
    var k := TagTable(tabs[j], prop, col);
    assert tabs[j].rows == after[j] && (before[j] != [] <==> after[j] != []);
    forall b | 0 <= b < |tabs|
      ensures tabs[b].rows == post[b]
    {
      if b != j {
        var o := tabs[b];
        assert o != tabs[j];
        assert tabs[b].rows == old(tabs[b].rows) == pre[b];
      }
    }
    assert GroupRows(tabs) == post;
    kept' := kept + k;
  }

  /** The inner loop over the tables of one group. */
  method TagGroup(tabs: seq<Table>, prop: Value, col: string) returns (kept: seq<seq<TargetRow>>)
    requires forall j, k :: 0 <= j < |tabs| && 0 <= k < |tabs| && tabs[j] == tabs[k] ==> j == k
    modifies tabs
    ensures kept == Tagged(old(GroupRows(tabs)), prop, col)
    ensures GroupRows(tabs) == TagRows(old(GroupRows(tabs)), col, prop)
  {
    ghost var before := old(GroupRows(tabs));
    kept := [];
    assert TagPrefix(before, col, prop, 0) == before;
    var j := 0;
    while j < |tabs|
      invariant 0 <= j <= |tabs|
      invariant kept == NonEmpty(TagRows(before, col, prop)[..j])
      invariant GroupRows(tabs) == TagPrefix(before, col, prop, j)
    {
      kept := TagGroupStep(tabs, j, prop, col, before, kept);
      j := j + 1;
    }
    ghost var after := TagRows(before, col, prop);
    assert j == |tabs| && after[..j] == after;
    assert kept == NonEmpty(after) == Tagged(before, prop, col);
    forall b | 0 <= b < |tabs| ensures tabs[b].rows == after[b] {
      assert tabs[b].rows == TagPrefix(before, col, prop, j)[b];
    }
  }

  /** In a list of distinct tables, one group's tables are distinct and belong to no
      other group. */
  lemma GroupOfDistinct(lst: seq<seq<Table>>, i: nat)
    requires DistinctTables(lst) && i < |lst|
    ensures forall j, k :: 0 <= j < |lst[i]| && 0 <= k < |lst[i]| && lst[i][j] == lst[i][k] ==> j == k
    ensures forall a, b :: 0 <= a < |lst| && a != i && 0 <= b < |lst[a]| ==> lst[a][b] !in lst[i]
    ensures forall t :: t in lst[i] ==> t in AllTables(lst)
  {
  }

  /** The rows of every group once the first `i` groups are tagged. */
  ghost function Progress(before: seq<seq<seq<TargetRow>>>, props: seq<Value>, col: string, i: nat)
    : (r: seq<seq<seq<TargetRow>>>)
    requires i <= |before| && i <= |props|
    ensures |r| == |before|
    ensures forall a :: 0 <= a < |before| ==>
      r[a] == if a < i then TagRows(before[a], col, props[a]) else before[a]
  {
    seq(|before|, a requires 0 <= a < |before| => if a < i then TagRows(before[a], col, props[a]) else before[a])
  }

  /** One pass of the outer loop, at group `i`: its tables are tagged and kept, and no
      table of another group changes. */
  method ProvenanceStep(lst: seq<seq<Table>>, i: nat, props: seq<Value>, col: string,
                        ghost before: seq<seq<seq<TargetRow>>>, good: seq<seq<TargetRow>>)
    returns (good': seq<seq<TargetRow>>)
    requires DistinctTables(lst) && i < |lst| == |before| && i < |props|
    requires good == Provenance(before, props, col, i)
    requires RowsOf(lst) == Progress(before, props, col, i)
    modifies lst[i]
    ensures good' == Provenance(before, props, col, i + 1)
    ensures RowsOf(lst) == Progress(before, props, col, i + 1)
  {
    GroupOfDistinct(lst, i);
    ghost var pre := Progress(before, props, col, i);
    assert GroupRows(lst[i]) == pre[i] == before[i];
    var kept := TagGroup(lst[i], props[i], col);
    ghost var post := Progress(before, props, col, i + 1);
    forall a | 0 <= a < |lst|
      ensures GroupRows(lst[a]) == post[a]
    {
      if a != i {
        forall b | 0 <= b < |lst[a]| ensures lst[a][b].rows == old(lst[a][b].rows) {
          var o := lst[a][b];
          assert o !in lst[i];
        }
        assert GroupRows(lst[a]) == old(GroupRows(lst[a])) == pre[a];
      }
    }
    assert RowsOf(lst) == post;
    assert kept == Tagged(before[i], props[i], col);
    good' := good + kept;
  }

  /** The loop of `unique_cat_w_provenance` over the first `n` groups: each group's
      tables are tagged in place and the non-empty ones collected. */
  method TagGroups(lst: seq<seq<Table>>, props: seq<Value>, col: string, n: nat)
    returns (good: seq<seq<TargetRow>>)
    requires DistinctTables(lst) && n <= |lst| && n <= |props|
    modifies AllTables(lst)
    ensures good == Provenance(old(RowsOf(lst)), props, col, n)
    ensures RowsOf(lst) == Progress(old(RowsOf(lst)), props, col, n)
  {
    ghost var before := old(RowsOf(lst));
    good := [];
    assert Progress(before, props, col, 0) == before;
    var i := 0;
    while i < n
      invariant 0 <= i <= n
      invariant good == Provenance(before, props, col, i)
      invariant RowsOf(lst) == Progress(before, props, col, i)
    {
      GroupInAll(lst, i);
      good := ProvenanceStep(lst, i, props, col, before, good);
      i := i + 1;
    }
  }

  /** `unique_cat_w_provenance(lst_of_tables, lst_of_properties, prop_colname)`. The
      list is copied shallowly, so the caller's tables themselves receive the column:
      every non-empty table of the first `n` groups is tagged with its group's property
      and every other table keeps its rows. The tables kept are those tagged, and they
      are not changed again before they are stacked, so their rows are collected as
      they are tagged. */
  method UniqueCatWithProvenance(lst: seq<seq<Table>>, props: seq<Value>, col: string)
    returns (r: Result<seq<TargetRow>, UtilError>)
    requires DistinctTables(lst)
    modifies AllTables(lst)
    ensures r == UniqueCat(Provenance(old(RowsOf(lst)), props, col, ZipLength(|lst|, |props|)))
    ensures forall i :: 0 <= i < |lst| ==>
      GroupRows(lst[i]) == (if i < ZipLength(|lst|, |props|) then TagRows(old(GroupRows(lst[i])), col, props[i])
                            else old(GroupRows(lst[i])))
  {
    var n := ZipLength(|lst|, |props|);
    ghost var before := old(RowsOf(lst));
    var good := TagGroups(lst, props, col, n);
    forall a | 0 <= a < |lst|
      ensures GroupRows(lst[a]) == (if a < n then TagRows(old(GroupRows(lst[a])), col, props[a]) else old(GroupRows(lst[a])))
    {
      assert before[a] == old(GroupRows(lst[a]));
      assert GroupRows(lst[a]) == RowsOf(lst)[a];
    }
    r := UniqueCat(good);
  }
}
