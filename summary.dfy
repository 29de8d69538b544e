/** Look-ups in the plate-plan summary table, one row per plate. `groups.py`, `field.py`
    and `platerun.py` each carry their own copy of these module functions; they are the
    same `np.where` selections and are defined once here. */
module PlanSummary {
  import opened Wrappers
  import opened Strings
  import opened Seqs
  import opened Sorting
  import opened Tables

  /** The `name` column. */
  function Names(summary: seq<SummaryRow>): (r: seq<string>)
    ensures |r| == |summary| && forall i :: 0 <= i < |summary| ==> r[i] == summary[i].name
  {
    seq(|summary|, i requires 0 <= i < |summary| => summary[i].name)
  }

  /** The `platerun` column. */
  function RunNames(summary: seq<SummaryRow>): (r: seq<string>)
    ensures |r| == |summary| && forall i :: 0 <= i < |summary| ==> r[i] == summary[i].platerun
  {
    seq(|summary|, i requires 0 <= i < |summary| => summary[i].platerun)
  }

  predicate Ascending(r: seq<nat>) {
    forall j, k :: 0 <= j < k < |r| ==> r[j] < r[k]
  }

  /** `indx_in_plateruns(fieldname)`: the positions of the field's rows, ascending. */
  function IndxInPlateruns(summary: seq<SummaryRow>, fieldname: string): (r: seq<nat>)
    ensures InRange(r, |summary|) && Ascending(r)
    ensures forall i :: 0 <= i < |summary| ==> (i in r <==> summary[i].name == fieldname)
  {
    Where(Names(summary), fieldname)
  }

  /** `in_platerun(run_name)` (and `indx_in_plateruns` of platerun.py): the positions of
      the run's rows, ascending. */
  function InPlaterun(summary: seq<SummaryRow>, runName: string): (r: seq<nat>)
    ensures InRange(r, |summary|) && Ascending(r)
    ensures forall i :: 0 <= i < |summary| ==> (i in r <==> summary[i].platerun == runName)
  {
    Where(RunNames(summary), runName)
  }

  /** `plates_of_field`: the plate ids of the field's rows, in summary order. */
  function PlatesOfField(summary: seq<SummaryRow>, fieldname: string): (r: seq<int>)
    ensures var idx := IndxInPlateruns(summary, fieldname);
      |r| == |idx| && forall k :: 0 <= k < |idx| ==> r[k] == summary[idx[k]].plateid
  {
    var idx := IndxInPlateruns(summary, fieldname);
    seq(|idx|, k requires 0 <= k < |idx| => summary[idx[k]].plateid)
  }

  /** A plate id is listed for a field exactly when some row of that field has it. */
  lemma PlatesOfFieldMembers(summary: seq<SummaryRow>, fieldname: string, p: int)
    ensures p in PlatesOfField(summary, fieldname) <==>
      exists i :: 0 <= i < |summary| && summary[i].name == fieldname && summary[i].plateid == p
  {
    var idx := IndxInPlateruns(summary, fieldname);
    var r := PlatesOfField(summary, fieldname);
    if p in r {
      var k :| 0 <= k < |r| && r[k] == p;
      assert summary[idx[k]].name == fieldname;
    }
    if exists i :: 0 <= i < |summary| && summary[i].name == fieldname && summary[i].plateid == p {
      var i :| 0 <= i < |summary| && summary[i].name == fieldname && summary[i].plateid == p;
      assert i in idx;
      var k :| 0 <= k < |idx| && idx[k] == i;
      assert r[k] == p;
    }
  }

  /** `_get_fields`: `np.unique` of the names of the run's rows. */
  function PlaterunFields(summary: seq<SummaryRow>, runName: string): (r: seq<string>)
    ensures SortedBy(r, StrLe) && Distinct(r)
    ensures forall y :: y in r <==>
      exists i :: 0 <= i < |summary| && summary[i].platerun == runName && summary[i].name == y
  {
    var idx := InPlaterun(summary, runName);
    var names := Select(Names(summary), idx);
    forall y ensures y in names <==>
      exists i :: 0 <= i < |summary| && summary[i].platerun == runName && summary[i].name == y
    {
      if exists i :: 0 <= i < |summary| && summary[i].platerun == runName && summary[i].name == y {
        var i :| 0 <= i < |summary| && summary[i].platerun == runName && summary[i].name == y;
        var k :| 0 <= k < |idx| && idx[k] == i;
        assert names[k] == y;
      }
    }
    StrLeIsTotalOrder();
    SortedUnique(names, StrLe)
  }

  /** The position of the first row of a field, which `[...][0]` reads; None where the
      selection is empty and Python raises IndexError. */
  function FirstRow(summary: seq<SummaryRow>, fieldname: string): (r: Option<nat>)
    ensures r.None? <==> forall i :: 0 <= i < |summary| ==> summary[i].name != fieldname
    ensures r.Some? ==> r.value < |summary| && summary[r.value].name == fieldname
    ensures r.Some? ==> forall j :: 0 <= j < r.value ==> summary[j].name != fieldname
  {
    var idx := IndxInPlateruns(summary, fieldname);
    if idx == [] then None
    else
      Some(idx[0])
  }

  /** `Field._center`: `raCen`, `decCen` of the field's first row. */
  function Center(summary: seq<SummaryRow>, fieldname: string): (r: Option<(real, real)>)
    ensures r.None? <==> forall i :: 0 <= i < |summary| ==> summary[i].name != fieldname
    ensures r.Some? ==>
      exists i :: 0 <= i < |summary| && summary[i].name == fieldname &&
        (forall j :: 0 <= j < i ==> summary[j].name != fieldname) &&
        r.value == (summary[i].raCen, summary[i].decCen)
  {
    match FirstRow(summary, fieldname)
    case None => None
    case Some(i) => Some((summary[i].raCen, summary[i].decCen))
  }

  /** `Field.meta`: `platerun`, `programname` of the field's first row. */
  function Meta(summary: seq<SummaryRow>, fieldname: string): (r: Option<(string, string)>)
    ensures r.None? <==> forall i :: 0 <= i < |summary| ==> summary[i].name != fieldname
    ensures r.Some? ==>
      exists i :: 0 <= i < |summary| && summary[i].name == fieldname &&
        (forall j :: 0 <= j < i ==> summary[j].name != fieldname) &&
        r.value == (summary[i].platerun, summary[i].programname)
  {
    match FirstRow(summary, fieldname)
    case None => None
    case Some(i) => Some((summary[i].platerun, summary[i].programname))
  }

  /** Every field of a run has a row, so looking up its center cannot fail. */
  lemma RunFieldsHaveRows(summary: seq<SummaryRow>, runName: string, fieldname: string)
    requires fieldname in PlaterunFields(summary, runName)
    ensures FirstRow(summary, fieldname).Some?
    ensures Center(summary, fieldname).Some? && Meta(summary, fieldname).Some?
  {
    var i :| 0 <= i < |summary| && summary[i].platerun == runName && summary[i].name == fieldname;
  }
}
