/** Fields and plateruns over the plate-plan summary (src/ppv/groups.py). A `Field` holds
    its plates and builds its target table on first use; a `Platerun` is checked against
    the runs of the summary and lists its fields. The plugHoles rows of a plate come from
    `holes`, which stands for reading the plate's file. */
module Groups {
  import opened Wrappers
  import opened Seqs
  import opened Sorting
  import opened Strings
  import opened Tables
  import Plates
  import opened PlanSummary

  datatype GroupsError =
    | IndexError                          // `[...][0]` of an empty selection
    | NoTablesToStack                     // `vstack([])`
    | PlateRunMissing(message: Option<string>)

  /** The value of the `field` column: the name stored with dtype `S200`, a byte string
      of at most 200 bytes. Field names are ASCII, one byte per character, so this keeps
      at most the first 200 characters. */
  function FieldTag(name: string): (v: Value)
    ensures v.Str? && |v.s| <= 200 && |v.s| <= |name| && v.s == name[..|v.s|]
    ensures |name| <= 200 ==> v == Str(name)
  {
    Str(if |name| <= 200 then name else name[..200])
  }

  /** The target tables of a list of plates. */
  function PlateTargets(plates: seq<Plates.Plate>): (r: seq<seq<TargetRow>>)
    ensures |r| == |plates| && forall k :: 0 <= k < |plates| ==> r[k] == plates[k].targets
  {
    seq(|plates|, k requires 0 <= k < |plates| => plates[k].targets)
  }

  /** `Field._load_table`: the plates' tables stacked in plate order, with a `field`
      column on every row; a field without plates has nothing to stack. */
  function FieldTable(name: string, plates: seq<Plates.Plate>): (r: Result<seq<TargetRow>, GroupsError>)
    ensures r.Err? <==> plates == []
    ensures r.Err? ==> r.error == NoTablesToStack
    ensures r.Ok? ==> var stacked := Flatten(PlateTargets(plates));
      && |r.value| == TotalLength(PlateTargets(plates))
      && CatalogIds(r.value) == CatalogIds(stacked)
      && (forall i :: 0 <= i < |r.value| ==>
            "field" in r.value[i].columns && r.value[i].columns["field"] == FieldTag(name))
      && (forall i, c :: 0 <= i < |r.value| && c != "field" && c in stacked[i].columns ==>
            c in r.value[i].columns && r.value[i].columns[c] == stacked[i].columns[c])
  {
    match VStack(PlateTargets(plates))
    case None => Err(NoTablesToStack)
    case Some(table) =>
      var r := SetColumn(table, "field", FieldTag(name));
      assert CatalogIds(r) == CatalogIds(table);
      Ok(r)
  }

  /** The plates of the numbers listed, each loaded from its plugHoles rows. */
  function LoadPlates(platenums: seq<int>, holes: int -> seq<TargetRow>): (r: seq<Plates.Plate>)
    ensures |r| == |platenums|
    ensures forall k :: 0 <= k < |r| ==> r[k].platenum == platenums[k] && |r[k].targets| == |holes(platenums[k])|
  {
    seq(|platenums|, k requires 0 <= k < |platenums| => Plates.Plate(platenums[k], Plates.LoadTable(platenums[k], holes(platenums[k]))))
  }

  /** `_check_platerun`: true for a run that some summary row belongs to
      (`available_plateruns` is the set of the `platerun` column); otherwise
      `PlateRunMissingError`, whose message is None for an empty name. */
  function CheckPlaterun(summary: seq<SummaryRow>, runName: string): (r: Result<bool, GroupsError>)
    ensures r.Ok? <==> exists i :: 0 <= i < |summary| && summary[i].platerun == runName
    ensures r.Ok? ==> r.value
    ensures r.Err? ==> r.error == PlateRunMissing(if runName == [] then None else Some(runName))
  {
    var available := set i | 0 <= i < |summary| :: summary[i].platerun;
    if runName in available then Ok(true)
    else Err(PlateRunMissing(if runName == [] then None else Some(runName)))
  }

  /** `Platerun.platesummary`: the summary rows of the run, in summary order. */
  function RunSummary(summary: seq<SummaryRow>, runName: string): (r: seq<SummaryRow>)
    ensures forall x :: x in r <==> x in summary && x.platerun == runName
    ensures var idx := InPlaterun(summary, runName);
      |r| == |idx| && forall k :: 0 <= k < |idx| ==> r[k] == summary[idx[k]]
  {
    var idx := InPlaterun(summary, runName);
    var r := Select(summary, idx);
    forall x ensures x in r <==> x in summary && x.platerun == runName {
      if x in summary && x.platerun == runName {
        var i :| 0 <= i < |summary| && summary[i] == x;
        var k :| 0 <= k < |idx| && idx[k] == i;
        assert r[k] == x;
      }
    }
    r
  }

  class Field {
    const name: string
    const platenums: seq<int>
    const raCen: real
    const decCen: real
    const platerun: string
    const programname: string
    const plates: seq<Plates.Plate>
    /** `_targets`, absent until `targets` is first read. */
    var targetsCache: Option<seq<TargetRow>>
    /** How often `_load_table` has run. */
    ghost var tableLoads: nat

    /** A cached table is the table the plates make. */
    ghost predicate Valid()
      reads this
    {
      targetsCache.Some? ==> FieldTable(name, plates) == Ok(targetsCache.value)
    }

    constructor (name: string, platenums: seq<int>, center: (real, real), meta: (string, string), plates: seq<Plates.Plate>)
      ensures this.name == name && this.platenums == platenums && this.plates == plates
      ensures (raCen, decCen) == center && (platerun, programname) == meta
      ensures targetsCache.None? && tableLoads == 0 && Valid()
    {
      this.name := name;
      this.platenums := platenums;
      this.raCen, this.decCen := center.0, center.1;
      this.platerun, this.programname := meta.0, meta.1;
      this.plates := plates;
      targetsCache := None;
      tableLoads := 0;
    }

    /** `Field(fieldname)`: the plates of the field's rows, the center and meta data of its
      first row; a name without rows raises IndexError at the center. */
    static method Open(summary: seq<SummaryRow>, fieldname: string, holes: int -> seq<TargetRow>)
      returns (r: Result<Field, GroupsError>)
      ensures r.Err? <==> FirstRow(summary, fieldname).None?
      ensures r.Err? ==> r.error == IndexError
      ensures r.Ok? ==> var f := r.value;
        && fresh(f) && f.Valid() && f.targetsCache.None? && f.tableLoads == 0
        && f.name == fieldname && f.platenums == PlatesOfField(summary, fieldname)
        && Center(summary, fieldname) == Some((f.raCen, f.decCen))
        && Meta(summary, fieldname) == Some((f.platerun, f.programname))
        && f.plates == LoadPlates(f.platenums, holes)
    {
      var platenums := PlatesOfField(summary, fieldname);
      var center := Center(summary, fieldname);
      if center.None? {
        return Err(IndexError);
      }
      var meta := Meta(summary, fieldname);
      var f := new Field(fieldname, platenums, center.value, meta.value, LoadPlates(platenums, holes));
      r := Ok(f);
    }

    /** `targets`: the cached table, or the table `_load_table` builds, which is then kept;
        a failed load keeps nothing. */
    method Targets() returns (r: Result<seq<TargetRow>, GroupsError>)
      requires Valid()
      modifies this
      ensures Valid() && r == FieldTable(name, plates)
      ensures old(targetsCache).Some? ==> targetsCache == old(targetsCache) && tableLoads == old(tableLoads)
      ensures old(targetsCache).None? ==> tableLoads == old(tableLoads) + 1
      ensures old(targetsCache).None? ==> targetsCache == (if r.Ok? then Some(r.value) else None)
    {
      if targetsCache.Some? {
        return Ok(targetsCache.value);
      }
      r := FieldTable(name, plates);
      tableLoads := tableLoads + 1;
      if r.Ok? {
        targetsCache := Some(r.value);
      }
    }

    /** `_contains(catIDs)`: one flag per target row, whether its catalogid is queried. */
    method MaskIn(catIDs: seq<int>) returns (r: Result<seq<bool>, GroupsError>)
      requires Valid()
      modifies this
      ensures Valid() && (r.Ok? <==> plates != [])
      ensures r.Err? ==> r.error == NoTablesToStack
      ensures r.Ok? ==> var rows := FieldTable(name, plates).value;
        |r.value| == |rows| && forall i :: 0 <= i < |rows| ==> (r.value[i] <==> rows[i].catalogid in catIDs)
      ensures old(targetsCache).Some? ==> targetsCache == old(targetsCache)
    {
      var t := Targets();
      match t
      case Err(e) => r := Err(e);
      case Ok(rows) => r := Ok(In1d(CatalogIds(rows), catIDs));
    }

    /** `get_targets(catalogIDs)`: the target rows whose catalogid is queried, in table order. */
    method GetTargets(catalogIDs: seq<int>) returns (r: Result<seq<TargetRow>, GroupsError>)
      requires Valid()
      modifies this
      ensures Valid() && (r.Ok? <==> plates != [])
      ensures r.Err? ==> r.error == NoTablesToStack
      ensures r.Ok? ==> r.value == KeepIn(FieldTable(name, plates).value, catalogIDs)
      ensures old(targetsCache).Some? ==> targetsCache == old(targetsCache)
    {
      var t := Targets();
      if t.Err? {
        return Err(t.error);
      }
      var rows := t.value;
      var mask := MaskIn(catalogIDs);
      assert mask.Ok?;
      ghost var ids := CatalogIds(rows);
      ghost var expected := In1d(ids, catalogIDs);
      forall i | 0 <= i < |rows| ensures mask.value[i] == expected[i] {
        assert ids[i] == rows[i].catalogid;
      }
      assert mask.value == expected;
      CompressByIds(rows, catalogIDs);
      r := Ok(Compress(rows, mask.value));
    }

    /** `contains(catIDs)`: one flag per queried id, whether the field has it. */
    method Contains(catIDs: seq<int>) returns (r: Result<seq<bool>, GroupsError>)
      requires Valid()
      modifies this
      ensures Valid() && (r.Ok? <==> plates != [])
      ensures r.Err? ==> r.error == NoTablesToStack
      ensures r.Ok? ==> var rows := FieldTable(name, plates).value;
        |r.value| == |catIDs| &&
        forall i :: 0 <= i < |catIDs| ==>
          (r.value[i] <==> exists j :: 0 <= j < |rows| && rows[j].catalogid == catIDs[i])
      ensures old(targetsCache).Some? ==> targetsCache == old(targetsCache)
    {
      var t := Targets();
      match t
      case Err(e) => r := Err(e);
      case Ok(rows) => r := Ok(IdsPresent(catIDs, rows));
    }
  }

  /** Whatever the field's ids, a stacked table's rows are those of its plates: the
      catalogids of `targets` are the plate tables' catalogids, plate after plate. */
  lemma {:induction false} FieldTableIds(name: string, plates: seq<Plates.Plate>)
    requires plates != []
    ensures CatalogIds(FieldTable(name, plates).value) == Flatten(seq(|plates|, k requires 0 <= k < |plates| => CatalogIds(plates[k].targets)))
  {
    var ts := PlateTargets(plates);
    var ids := seq(|plates|, k requires 0 <= k < |plates| => CatalogIds(plates[k].targets));
    CatalogIdsFlatten(ts, ids);
  }

  lemma {:induction false} CatalogIdsFlatten(ts: seq<seq<TargetRow>>, ids: seq<seq<int>>)
    requires |ts| == |ids| && forall k :: 0 <= k < |ts| ==> ids[k] == CatalogIds(ts[k])
    ensures CatalogIds(Flatten(ts)) == Flatten(ids)
  {
    if ts != [] {
      var n := |ts| - 1;
      CatalogIdsFlatten(ts[..n], ids[..n]);
      CatalogIdsAppend(Flatten(ts[..n]), ts[n]);
    }
  }

  class Platerun {
    const name: string
    /** `fieldnames`: `_get_fields()`, the run's field names, sorted and without repeats. */
    const fieldnames: seq<string>

    constructor (name: string, fieldnames: seq<string>)
      ensures this.name == name && this.fieldnames == fieldnames
    {
      this.name := name;
      this.fieldnames := fieldnames;
    }

    /** `Platerun(run_name)`: `_check_platerun` first, then the field names. */
    static method Open(summary: seq<SummaryRow>, runName: string) returns (r: Result<Platerun, GroupsError>)
      ensures r.Err? <==> CheckPlaterun(summary, runName).Err?
      ensures r.Err? ==> r.error == PlateRunMissing(if runName == [] then None else Some(runName))
      ensures r.Ok? ==> fresh(r.value) && r.value.name == runName
      ensures r.Ok? ==> r.value.fieldnames == PlaterunFields(summary, runName)
    {
      var check := CheckPlaterun(summary, runName);
      if check.Err? {
        return Err(check.error);
      }
      var p := new Platerun(runName, PlaterunFields(summary, runName));
      r := Ok(p);
    }
  }

  /** A run that passes the check has at least one field, and each of its fields opens. */
  lemma OpenRunHasFields(summary: seq<SummaryRow>, runName: string)
    requires CheckPlaterun(summary, runName).Ok?
    ensures PlaterunFields(summary, runName) != []
    ensures forall y :: y in PlaterunFields(summary, runName) ==> FirstRow(summary, y).Some?
  {
    var i :| 0 <= i < |summary| && summary[i].platerun == runName;
    assert summary[i].name in PlaterunFields(summary, runName);
    forall y | y in PlaterunFields(summary, runName) ensures FirstRow(summary, y).Some? {
      RunFieldsHaveRows(summary, runName, y);
    }
  }
}
