/** Plate runs (src/ppv/platerun.py): the fields of a run, loaded once, and the table of
    all targets the run assigned, each row tagged with its plate and its field. The run
    summary (`plansummary.load()`), the field summary (`load_plansummary()`, read by
    `field.py`) and the yanny reader are fixed for the lifetime of a run and are given to
    its constructor. */
module PlateRuns {
  import opened Wrappers
  import opened Seqs
  import opened Tables
  import opened PlanSummary
  import opened Util
  import PlanFields

  datatype PlateRunError =
    | IndexError        // a field name without rows in the field summary
    | NoTablesToStack   // `vstack([])` of no non-empty table

  /** The `_plugHoles` lists of the fields. */
  function PlugHolesOf(fs: seq<PlanFields.Field>): (r: seq<seq<Table>>)
    ensures |r| == |fs| && forall i :: 0 <= i < |fs| ==> r[i] == fs[i].plugHoles
  {
    seq(|fs|, i requires 0 <= i < |fs| => fs[i].plugHoles)
  }

  /** The `_plates` lists of the fields. */
  function PlatesOf(fs: seq<PlanFields.Field>): (r: seq<seq<int>>)
    ensures |r| == |fs| && forall i :: 0 <= i < |fs| ==> r[i] == fs[i].platenums
  {
    seq(|fs|, i requires 0 <= i < |fs| => fs[i].platenums)
  }

  /** The field names as the `field` column's values. */
  function FieldProps(names: seq<string>): (r: seq<Value>)
    ensures |r| == |names| && forall i :: 0 <= i < |names| ==> r[i] == Str(names[i])
  {
    seq(|names|, i requires 0 <= i < |names| => Str(names[i]))
  }

  /** Tables and plate lists of the same shape: one plate number per table. */
  predicate Aligned<T>(rows: seq<seq<T>>, plates: seq<seq<int>>) {
    |plates| == |rows| && forall i :: 0 <= i < |rows| ==> |plates[i]| == |rows[i]|
  }

  /** One field's tables with `tab['plate'] = [plates[ii]] * len(tab)` applied to each. */
  function PlateColumn(rows: seq<seq<TargetRow>>, plates: seq<int>): (r: seq<seq<TargetRow>>)
    requires |plates| == |rows|
  {
    seq(|rows|, j requires 0 <= j < |rows| => SetColumn(rows[j], "plate", Int(plates[j])))
  }

  /** Every field's tables with their plate column. */
  function Numbered(rows: seq<seq<seq<TargetRow>>>, plates: seq<seq<int>>): (r: seq<seq<seq<TargetRow>>>)
    requires Aligned(rows, plates)
  {
    seq(|rows|, i requires 0 <= i < |rows| => PlateColumn(rows[i], plates[i]))
  }

  /** A field's tables once the first `j` carry their plate column. */
  ghost function PlatePrefix(before: seq<seq<TargetRow>>, plates: seq<int>, j: nat): (r: seq<seq<TargetRow>>)
    requires j <= |before| == |plates|
    ensures |r| == |before|
    ensures forall b :: 0 <= b < |before| ==>
      r[b] == if b < j then SetColumn(before[b], "plate", Int(plates[b])) else before[b]
  {
    seq(|before|, b requires 0 <= b < |before| =>
      if b < j then SetColumn(before[b], "plate", Int(plates[b])) else before[b])
  }

  /** One pass of the inner loop of `assigned_table`, at table `j`. */
  method NumberTable(tabs: seq<Table>, j: nat, plates: seq<int>, ghost before: seq<seq<TargetRow>>)
    requires Distinct(tabs) && j < |tabs| == |plates| == |before|
    requires GroupRows(tabs) == PlatePrefix(before, plates, j)
    modifies tabs[j]
    ensures GroupRows(tabs) == PlatePrefix(before, plates, j + 1)
  {
    ghost var pre := PlatePrefix(before, plates, j);
    ghost var post := PlatePrefix(before, plates, j + 1);
    assert tabs[j].rows == pre[j] == before[j];
    tabs[j].rows := SetColumn(tabs[j].rows, "plate", Int(plates[j]));
    forall b | 0 <= b < |tabs|
      ensures tabs[b].rows == post[b]
    {
      if b != j {
        var o := tabs[b];
        assert o != tabs[j];
        assert tabs[b].rows == old(tabs[b].rows) == pre[b];
      }
    }
    assert GroupRows(tabs) == post;
  }

  /** The inner loop over one field's tables: the ii-th table receives the ii-th plate
      number of the field. */
  method NumberTables(tabs: seq<Table>, plates: seq<int>)
    requires Distinct(tabs) && |plates| == |tabs|
    modifies set t | t in tabs
    ensures GroupRows(tabs) == PlateColumn(old(GroupRows(tabs)), plates)
  {
    ghost var before := old(GroupRows(tabs));
    assert PlatePrefix(before, plates, 0) == before;
    var j := 0;
    while j < |tabs|
      invariant 0 <= j <= |tabs|
      invariant GroupRows(tabs) == PlatePrefix(before, plates, j)
    {
      NumberTable(tabs, j, plates, before);
      j := j + 1;
    }
    ghost var after := PlateColumn(before, plates);
    forall b | 0 <= b < |tabs| ensures tabs[b].rows == after[b] {
      assert tabs[b].rows == PlatePrefix(before, plates, j)[b];
    }
  }

  /** Every field's tables once the first `i` fields are numbered. */
  ghost function NumberedPrefix(before: seq<seq<seq<TargetRow>>>, plates: seq<seq<int>>, i: nat)
    : (r: seq<seq<seq<TargetRow>>>)
    requires Aligned(before, plates) && i <= |before|
    ensures |r| == |before|
    ensures forall a :: 0 <= a < |before| ==>
      r[a] == if a < i then PlateColumn(before[a], plates[a]) else before[a]
  {
    seq(|before|, a requires 0 <= a < |before| =>
      if a < i then PlateColumn(before[a], plates[a]) else before[a])
  }

  /** One pass of the outer loop, at field `i`: its tables are numbered and no table of
      another field changes. */
  method NumberField(lst: seq<seq<Table>>, i: nat, plates: seq<seq<int>>, ghost before: seq<seq<seq<TargetRow>>>)
    requires DistinctTables(lst) && Aligned(before, plates) && i < |lst| == |before|
    requires RowsOf(lst) == NumberedPrefix(before, plates, i)
    modifies set t | t in lst[i]
    ensures RowsOf(lst) == NumberedPrefix(before, plates, i + 1)
  {
    GroupOfDistinct(lst, i);
    ghost var pre := NumberedPrefix(before, plates, i);
    assert GroupRows(lst[i]) == pre[i] == before[i];
    NumberTables(lst[i], plates[i]);
    ghost var post := NumberedPrefix(before, plates, i + 1);
    forall a | 0 <= a < |lst|
      ensures GroupRows(lst[a]) == post[a]
    {
      if a != i {
        forall b | 0 <= b < |lst[a]| ensures lst[a][b].rows == old(lst[a][b].rows) {
          var o := lst[a][b];
          assert o !in lst[i];
        }
        assert GroupRows(lst[a]) == old(GroupRows(lst[a])) == pre[a];
      }
    }
    assert RowsOf(lst) == post;
  }

  /** The plate-numbering loops of `assigned_table`, over all fields. */
  method NumberFields(lst: seq<seq<Table>>, plates: seq<seq<int>>)
    requires DistinctTables(lst) && Aligned(lst, plates)
    modifies AllTables(lst)
    ensures RowsOf(lst) == Numbered(old(RowsOf(lst)), plates)
  {
    ghost var before := old(RowsOf(lst));
    assert NumberedPrefix(before, plates, 0) == before;
    var i := 0;
    while i < |lst|
      invariant 0 <= i <= |lst|
      invariant RowsOf(lst) == NumberedPrefix(before, plates, i)
    {
      GroupInAll(lst, i);
      NumberField(lst, i, plates, before);
      i := i + 1;
    }
    ghost var after := Numbered(before, plates);
    forall a | 0 <= a < |lst| ensures GroupRows(lst[a]) == after[a] {
      assert GroupRows(lst[a]) == NumberedPrefix(before, plates, i)[a];
    }
  }

  /** What the reader returns for every plate of every field. */
  function ReadRows(fs: seq<PlanFields.Field>, holes: int -> seq<TargetRow>): (r: seq<seq<seq<TargetRow>>>)
  {
    seq(|fs|, i requires 0 <= i < |fs| =>
      seq(|fs[i].platenums|, k requires 0 <= k < |fs[i].platenums| => holes(fs[i].platenums[k])))
  }

  /** The run's result: the plate-numbered tables of every field, tagged with the field
      name, stacked and made unique. */
  function AssignedRows(loaded: seq<seq<seq<TargetRow>>>, plates: seq<seq<int>>, names: seq<string>)
    : (r: Result<seq<TargetRow>, PlateRunError>)
    requires Aligned(loaded, plates)
  {
    match UniqueCat(Provenance(Numbered(loaded, plates), FieldProps(names), "field", ZipLength(|loaded|, |names|)))
    case Ok(rows) => Ok(rows)
    case Err(_) => Err(PlateRunError.NoTablesToStack)
  }

  /** A row of the result: a row of some table of some field, with the table's plate
      number in `plate` and the field's name in `field`, every other column kept. */
  ghost predicate FromTable(x: TargetRow, y: TargetRow, plate: int, name: string) {
    && x.catalogid == y.catalogid
    && x.columns == y.columns["plate" := Int(plate)]["field" := Str(name)]
  }

  /** `x` is a row of table `j` of field `i`, numbered and tagged. */
  ghost predicate RowOfRun(x: TargetRow, loaded: seq<seq<seq<TargetRow>>>, plates: seq<seq<int>>,
                           names: seq<string>) {
    exists i, j, y :: 0 <= i < |loaded| && 0 <= j < |loaded[i]| && y in loaded[i][j] &&
      i < |names| && i < |plates| && j < |plates[i]| && FromTable(x, y, plates[i][j], names[i])
  }

  lemma TwiceTagged(rows: seq<TargetRow>, plate: int, name: string, x: TargetRow)
    ensures x in SetColumn(SetColumn(rows, "plate", Int(plate)), "field", Str(name)) <==>
      exists y :: y in rows && FromTable(x, y, plate, name)
  {
    var t := SetColumn(SetColumn(rows, "plate", Int(plate)), "field", Str(name));
    if x in t {
      var m :| 0 <= m < |t| && t[m] == x;
      assert FromTable(x, rows[m], plate, name);
    }
    if exists y :: y in rows && FromTable(x, y, plate, name) {
      var y :| y in rows && FromTable(x, y, plate, name);
      var m :| 0 <= m < |rows| && rows[m] == y;
      assert t[m] == x;
    }
  }

  /** Numbering keeps a table empty or non-empty. */
  lemma NumberedEmpty(loaded: seq<seq<seq<TargetRow>>>, plates: seq<seq<int>>)
    requires Aligned(loaded, plates)
    ensures (forall i, j :: 0 <= i < |loaded| && 0 <= j < |loaded[i]| ==> Numbered(loaded, plates)[i][j] == []) <==>
      (forall i, j :: 0 <= i < |loaded| && 0 <= j < |loaded[i]| ==> loaded[i][j] == [])
  {
    var g := Numbered(loaded, plates);
    if exists i, j :: 0 <= i < |loaded| && 0 <= j < |loaded[i]| && loaded[i][j] != [] {
      var i, j :| 0 <= i < |loaded| && 0 <= j < |loaded[i]| && loaded[i][j] != [];
      assert |g[i][j]| == |loaded[i][j]|;
    }
  }

  /** A stacked row is a numbered and tagged row of some table. */
  lemma StackedIsRowOfRun(loaded: seq<seq<seq<TargetRow>>>, plates: seq<seq<int>>, names: seq<string>,
                          i: nat, j: nat, x: TargetRow)
    requires Aligned(loaded, plates) && |names| == |loaded| && i < |loaded| && j < |loaded[i]|
    requires x in SetColumn(Numbered(loaded, plates)[i][j], "field", FieldProps(names)[i])
    ensures RowOfRun(x, loaded, plates, names)
  {
    assert Numbered(loaded, plates)[i][j] == SetColumn(loaded[i][j], "plate", Int(plates[i][j]));
    TwiceTagged(loaded[i][j], plates[i][j], names[i], x);
  }

  /** A numbered and tagged row of some table is stacked. */
  lemma RowOfRunIsStacked(loaded: seq<seq<seq<TargetRow>>>, plates: seq<seq<int>>, names: seq<string>, x: TargetRow)
    requires Aligned(loaded, plates) && |names| == |loaded| && RowOfRun(x, loaded, plates, names)
    ensures exists i, j ::
      0 <= i < |loaded| && 0 <= j < |Numbered(loaded, plates)[i]| &&
      x in SetColumn(Numbered(loaded, plates)[i][j], "field", FieldProps(names)[i])
  {
    var i, j, y :| 0 <= i < |loaded| && 0 <= j < |loaded[i]| && y in loaded[i][j] &&
      i < |names| && i < |plates| && j < |plates[i]| && FromTable(x, y, plates[i][j], names[i]);
    assert Numbered(loaded, plates)[i][j] == SetColumn(loaded[i][j], "plate", Int(plates[i][j]));
    TwiceTagged(loaded[i][j], plates[i][j], names[i], x);
  }

  /** What the run's table holds: it is an error exactly when every table of every listed
      field is empty; otherwise it holds no row twice, and its rows are exactly the rows
      of the tables, each with its plate and its field. */
  lemma AssignedRowsTagged(loaded: seq<seq<seq<TargetRow>>>, plates: seq<seq<int>>, names: seq<string>)
    requires Aligned(loaded, plates) && |names| == |loaded|
    ensures var r := AssignedRows(loaded, plates, names);
      && (r.Err? <==> forall i, j :: 0 <= i < |loaded| && 0 <= j < |loaded[i]| ==> loaded[i][j] == [])
      && (r.Ok? ==> Distinct(r.value))
      && (r.Ok? ==> forall x :: x in r.value <==> RowOfRun(x, loaded, plates, names))
  {
    var groups := Numbered(loaded, plates);
    var props := FieldProps(names);
    ProvenanceResult(groups, props, "field");
    NumberedEmpty(loaded, plates);
    var r := AssignedRows(loaded, plates, names);
    if r.Ok? {
      forall x ensures x in r.value <==> RowOfRun(x, loaded, plates, names) {
        if x in r.value {
          var i, j :| 0 <= i < |groups| && 0 <= j < |groups[i]| && x in SetColumn(groups[i][j], "field", props[i]);
          StackedIsRowOfRun(loaded, plates, names, i, j, x);
        }
        if RowOfRun(x, loaded, plates, names) {
          RowOfRunIsStacked(loaded, plates, names, x);
        }
      }
    }
  }

  /** Every row of the run's table carries the plate number of its table and the name of
      its field. */
  lemma AssignedRowsColumns(loaded: seq<seq<seq<TargetRow>>>, plates: seq<seq<int>>, names: seq<string>, x: TargetRow)
    requires Aligned(loaded, plates) && |names| == |loaded|
    requires AssignedRows(loaded, plates, names).Ok? && x in AssignedRows(loaded, plates, names).value
    ensures "plate" in x.columns && "field" in x.columns
    ensures exists i, j ::
      0 <= i < |loaded| && 0 <= j < |loaded[i]| &&
      x.columns["plate"] == Int(plates[i][j]) && x.columns["field"] == Str(names[i])
  {
    AssignedRowsTagged(loaded, plates, names);
    var i, j, y :| 0 <= i < |loaded| && 0 <= j < |loaded[i]| && y in loaded[i][j] &&
      i < |names| && i < |plates| && j < |plates[i]| && FromTable(x, y, plates[i][j], names[i]);
  }

  /** When fields are read from the summary that lists the run, every field of the run
      has a row and loading them cannot fail. */
  lemma SameSummaryLoads(summary: seq<SummaryRow>, runName: string)
    ensures forall k :: 0 <= k < |PlaterunFields(summary, runName)| ==>
      FirstRow(summary, PlaterunFields(summary, runName)[k]).Some?
  {
    var names := PlaterunFields(summary, runName);
    forall k | 0 <= k < |names| ensures FirstRow(summary, names[k]).Some? {
      RunFieldsHaveRows(summary, runName, names[k]);
    }
  }

  /** A run's field list extended by one field whose tables are new. */
  lemma DistinctAppend(lst: seq<seq<Table>>, g: seq<Table>)
    requires DistinctTables(lst) && Distinct(g)
    requires forall t :: t in g ==> t !in AllTables(lst)
    ensures DistinctTables(lst + [g])
  {
    var l := lst + [g];
    forall i, j | 0 <= i < |lst| && 0 <= j < |lst[i]| ensures lst[i][j] !in g {
      GroupInAll(lst, i);
      assert lst[i][j] in lst[i];
    }
    forall i, j, i', j' | 0 <= i < |l| && 0 <= j < |l[i]| && 0 <= i' < |l| && 0 <= j' < |l[i']| &&
      l[i][j] == l[i'][j']
      ensures i == i' && j == j'
    {
      if i < |lst| && i' < |lst| {
        assert lst[i][j] == lst[i'][j'];
      }
    }
  }

  /** The tables of a field list extended by one field. */
  lemma TablesAppend(fs: seq<PlanFields.Field>, f: PlanFields.Field)
    ensures PlugHolesOf(fs + [f]) == PlugHolesOf(fs) + [f.plugHoles]
    ensures AllTables(PlugHolesOf(fs + [f])) == AllTables(PlugHolesOf(fs)) + set t | t in f.plugHoles
  {
    var a := PlugHolesOf(fs);
    var b := PlugHolesOf(fs + [f]);
    assert b == a + [f.plugHoles];
    forall t | t in AllTables(b) ensures t in AllTables(a) || t in f.plugHoles {
      var i :| 0 <= i < |b| && t in b[i];
      if i < |a| { assert t in a[i]; }
    }
    forall t | t in AllTables(a) ensures t in AllTables(b) {
      var i :| 0 <= i < |a| && t in a[i];
      assert t in b[i];
    }
    forall t | t in f.plugHoles ensures t in AllTables(b) {
      assert t in b[|a|];
    }
  }

  /** The rows of a field list extended by one field whose tables hold what the reader
      returned. */
  lemma ReadAppend(fs: seq<PlanFields.Field>, f: PlanFields.Field, holes: int -> seq<TargetRow>)
    requires RowsOf(PlugHolesOf(fs)) == ReadRows(fs, holes) && f.AsRead(holes)
    ensures RowsOf(PlugHolesOf(fs + [f])) == ReadRows(fs + [f], holes)
  {
    var l := fs + [f];
    var a := RowsOf(PlugHolesOf(l));
    var b := ReadRows(l, holes);
    forall i | 0 <= i < |l| ensures a[i] == b[i] {
      if i < |fs| {
        assert a[i] == RowsOf(PlugHolesOf(fs))[i];
        assert b[i] == ReadRows(fs, holes)[i];
      }
    }
  }

  /** After `assigned_table` on tables that held `loaded`: the result is the run's table
      of those rows, and the tables keep their `plate` and `field` columns. */
  ghost predicate Assigned(lst: seq<seq<Table>>, plates: seq<seq<int>>, names: seq<string>,
                           loaded: seq<seq<seq<TargetRow>>>, r: Result<seq<TargetRow>, PlateRunError>)
    reads AllTables(lst)
  {
    && Aligned(loaded, plates) && |names| == |loaded|
    && r == AssignedRows(loaded, plates, names)
    && RowsOf(lst) == Progress(Numbered(loaded, plates), FieldProps(names), "field", |loaded|)
  }

  /** The numbering and tagging of `assigned_table` on a list of distinct tables. */
  method NumberAndTag(lst: seq<seq<Table>>, plates: seq<seq<int>>, names: seq<string>)
    returns (r: Result<seq<TargetRow>, PlateRunError>)
    requires DistinctTables(lst) && Aligned(lst, plates) && |names| == |lst|
    modifies AllTables(lst)
    ensures Assigned(lst, plates, names, old(RowsOf(lst)), r)
  {
    ghost var before := old(RowsOf(lst));
    NumberFields(lst, plates);
    label numbered:
    ghost var numbered := RowsOf(lst);
    assert numbered == Numbered(before, plates);
    var tagged := UniqueCatWithProvenance(lst, FieldProps(names), "field");
    r := match tagged
      case Ok(rows) => Ok(rows)
      case Err(_) => Err(PlateRunError.NoTablesToStack);
    ghost var after := Progress(numbered, FieldProps(names), "field", |lst|);
    forall a | 0 <= a < |lst| ensures GroupRows(lst[a]) == after[a] {
      assert numbered[a] == old@numbered(GroupRows(lst[a]));
    }
    assert RowsOf(lst) == after;
  }

  class PlateRun {
    const name: string
    /** `_get_fields()`: the sorted, distinct names of the run's fields. */
    const fieldnames: seq<string>
    const fieldSummary: seq<SummaryRow>
    const holes: int -> seq<TargetRow>
    /** `_fields`, set the first time `fields` succeeds. */
    var fieldsCache: Option<seq<PlanFields.Field>>
    /** How many times `load_fields` ran. */
    ghost var fieldLoads: nat

    /** The first `|fs|` listed fields in order, each opened from the field summary, with
        no table shared. */
    ghost predicate OpenedInOrder(fs: seq<PlanFields.Field>) {
      && |fs| <= |fieldnames|
      && (forall i :: 0 <= i < |fs| ==> fs[i].Opened(fieldSummary, fieldnames[i]))
      && DistinctTables(PlugHolesOf(fs))
    }

    /** A list of fields loaded for this run: all the listed fields. */
    ghost predicate Loaded(fs: seq<PlanFields.Field>) {
      |fs| == |fieldnames| && OpenedInOrder(fs)
    }

    /** One more field, opened with new tables. */
    lemma OpenedAppend(fs: seq<PlanFields.Field>, f: PlanFields.Field)
      requires OpenedInOrder(fs) && |fs| < |fieldnames| && f.Opened(fieldSummary, fieldnames[|fs|])
      requires forall t :: t in f.plugHoles ==> t !in AllTables(PlugHolesOf(fs))
      ensures OpenedInOrder(fs + [f])
      ensures AllTables(PlugHolesOf(fs + [f])) == AllTables(PlugHolesOf(fs)) + set t | t in f.plugHoles
    {
      DistinctAppend(PlugHolesOf(fs), f.plugHoles);
      TablesAppend(fs, f);
      var l := fs + [f];
      forall i | 0 <= i < |l| ensures l[i].Opened(fieldSummary, fieldnames[i]) {
        if i < |fs| { assert l[i] == fs[i]; }
      }
    }

    /** Opened fields have one table per plate, and no table twice. */
    lemma OpenedAligned(fs: seq<PlanFields.Field>)
      requires OpenedInOrder(fs)
      ensures Aligned(PlugHolesOf(fs), PlatesOf(fs)) && DistinctTables(PlugHolesOf(fs))
    {
      forall i | 0 <= i < |fs| ensures |PlatesOf(fs)[i]| == |PlugHolesOf(fs)[i]| {
        assert fs[i].Opened(fieldSummary, fieldnames[i]);
      }
    }

    ghost predicate Valid()
      reads this
    {
      fieldsCache.Some? ==> Loaded(fieldsCache.value)
    }

    /** The tables of the cached fields, which `assigned_table` writes into. */
    ghost function CachedTables(): set<Table>
      reads this
    {
      if fieldsCache.Some? then AllTables(PlugHolesOf(fieldsCache.value)) else {}
    }

    /** `PlateRun(run_name)`. */
    constructor (runSummary: seq<SummaryRow>, fieldSummary: seq<SummaryRow>,
                 holes: int -> seq<TargetRow>, runName: string)
      ensures Valid()
      ensures name == runName && fieldnames == PlaterunFields(runSummary, runName)
      ensures this.fieldSummary == fieldSummary && this.holes == holes
      ensures fieldsCache == None && fieldLoads == 0
    {
      name := runName;
      fieldnames := PlaterunFields(runSummary, runName);
      this.fieldSummary := fieldSummary;
      this.holes := holes;
      fieldsCache := None;
      fieldLoads := 0;
    }

    /** `Field(fieldnames[|fs|])`, appended to the fields opened so far. */
    method OpenNext(fs: seq<PlanFields.Field>) returns (r: Option<PlanFields.Field>)
      requires |fs| < |fieldnames| && OpenedInOrder(fs)
      requires RowsOf(PlugHolesOf(fs)) == ReadRows(fs, holes)
      ensures r.None? <==> FirstRow(fieldSummary, fieldnames[|fs|]).None?
      ensures r.Some? ==> OpenedInOrder(fs + [r.value])
      ensures r.Some? ==> RowsOf(PlugHolesOf(fs + [r.value])) == ReadRows(fs + [r.value], holes)
      ensures r.Some? ==>
        AllTables(PlugHolesOf(fs + [r.value])) == AllTables(PlugHolesOf(fs)) + set t | t in r.value.plugHoles
      ensures r.Some? ==> fresh(set t | t in r.value.plugHoles)
    {
      var f := PlanFields.Field.Open(fieldSummary, fieldnames[|fs|], holes);
      if f.Err? {
        return None;
      }
      OpenedAppend(fs, f.value);
      ReadAppend(fs, f.value, holes);
      r := Some(f.value);
    }

    /** `load_fields`: `Field(fieldname)` for each name in turn; the first name without
        rows in the field summary raises IndexError. */
    method LoadFields() returns (r: Result<seq<PlanFields.Field>, PlateRunError>)
      ensures r.Err? <==> exists k :: 0 <= k < |fieldnames| && FirstRow(fieldSummary, fieldnames[k]).None?
      ensures r.Err? ==> r.error == IndexError
      ensures r.Ok? ==> Loaded(r.value)
      ensures r.Ok? ==> RowsOf(PlugHolesOf(r.value)) == ReadRows(r.value, holes)
      ensures r.Ok? ==> fresh(AllTables(PlugHolesOf(r.value)))
    {
      var fs: seq<PlanFields.Field> := [];
      for k := 0 to |fieldnames|
        invariant |fs| == k && OpenedInOrder(fs)
        invariant RowsOf(PlugHolesOf(fs)) == ReadRows(fs, holes)
        invariant fresh(AllTables(PlugHolesOf(fs)))
      {
        var f := OpenNext(fs);
        if f.None? {
          return Err(IndexError);
        }
        fs := fs + [f.value];
      }
      r := Ok(fs);
      forall k | 0 <= k < |fieldnames| ensures FirstRow(fieldSummary, fieldnames[k]).Some? {
        assert fs[k].Opened(fieldSummary, fieldnames[k]);
      }
    }

    /** The `fields` property: the first successful call runs `load_fields` and stores
        the list; every later call returns the stored list without loading. */
    method Fields() returns (r: Result<seq<PlanFields.Field>, PlateRunError>)
      requires Valid()
      modifies this
      ensures Valid()
      ensures old(fieldsCache).Some? ==>
        r == Ok(old(fieldsCache).value) && fieldsCache == old(fieldsCache) && fieldLoads == old(fieldLoads)
      ensures old(fieldsCache).None? ==> fieldLoads == old(fieldLoads) + 1
      ensures old(fieldsCache).None? && r.Ok? ==>
        fieldsCache == Some(r.value) && fresh(AllTables(PlugHolesOf(r.value))) &&
        RowsOf(PlugHolesOf(r.value)) == ReadRows(r.value, holes)
      ensures r.Err? ==>
        r == Err(IndexError) && fieldsCache == None &&
        exists k :: 0 <= k < |fieldnames| && FirstRow(fieldSummary, fieldnames[k]).None?
    {
      if fieldsCache.Some? {
        return Ok(fieldsCache.value);
      }
      fieldLoads := fieldLoads + 1;
      r := LoadFields();
      if r.Ok? {
        fieldsCache := Some(r.value);
      }
    }

    /** `assigned_table`: loads the fields if needed, writes into every table of every
        field a `plate` column with the table's plate number, then tags the tables with
        their field's name and stacks them through `unique_cat_w_provenance`. `loaded`
        is what the tables held before the numbering: what the reader returned for
        fields loaded here, or their current rows for cached ones. The tables keep both
        columns afterwards. */
    method AssignedTable() returns (r: Result<seq<TargetRow>, PlateRunError>, ghost loaded: seq<seq<seq<TargetRow>>>)
      requires Valid()
      modifies this, CachedTables()
      ensures Valid()
      ensures old(fieldsCache).Some? ==> fieldsCache == old(fieldsCache) && fieldLoads == old(fieldLoads)
      ensures old(fieldsCache).None? ==> fieldLoads == old(fieldLoads) + 1
      ensures fieldsCache.None? <==> r == Err(IndexError)
      ensures fieldsCache.None? ==>
        exists k :: 0 <= k < |fieldnames| && FirstRow(fieldSummary, fieldnames[k]).None?
      ensures fieldsCache.Some? ==>
        var fs := fieldsCache.value;
        && (old(fieldsCache).Some? ==> loaded == old(RowsOf(PlugHolesOf(fs))))
        && (old(fieldsCache).None? ==> loaded == ReadRows(fs, holes))
        && Assigned(PlugHolesOf(fs), PlatesOf(fs), fieldnames, loaded, r)
    {
      ghost var cached := fieldsCache;
      var got := Fields();
      if got.Err? {
        return Err(PlateRunError.IndexError), [];
      }
      var fs := got.value;
      var lst := PlugHolesOf(fs);
      var plates := PlatesOf(fs);
      loaded := RowsOf(lst);
      if cached.Some? {
        assert loaded == old(RowsOf(lst));
      }
      OpenedAligned(fs);
      r := NumberAndTag(lst, plates, fieldnames);
      assert fieldsCache == Some(fs);
    }
  }
}
