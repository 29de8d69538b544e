/** Fields (src/ppv/field.py): a field of the plate plan, its plates, its center and
    metadata from the first summary row with its name, and the plugHoles table of each of
    its plates. The tables are objects: `platerun.py` later writes columns into them. The
    summary table and the yanny reader (`plate.get_table`) are parameters. */
module PlanFields {
  import opened Wrappers
  import opened Seqs
  import opened Tables
  import opened PlanSummary

  datatype FieldError = IndexError   // `[...][0]` of an empty selection

  /** `[plate.get_table(platenum) for platenum in plates]`: one new table per plate,
      holding what the reader returns for that plate. */
  method LoadPlugHoles(platenums: seq<int>, holes: int -> seq<TargetRow>) returns (tabs: seq<Table>)
    ensures |tabs| == |platenums| && Distinct(tabs)
    ensures forall k :: 0 <= k < |tabs| ==> tabs[k].rows == holes(platenums[k])
    ensures fresh(set t | t in tabs)
  {
    tabs := [];
    for k := 0 to |platenums|
      invariant |tabs| == k && Distinct(tabs)
      invariant forall j :: 0 <= j < k ==> tabs[j].rows == holes(platenums[j])
      invariant fresh(set t | t in tabs)
    {
      var t := new Table(holes(platenums[k]));
      tabs := tabs + [t];
    }
  }

  class Field {
    const name: string
    /** `_plates`: the plate ids of the field, in summary order. */
    const platenums: seq<int>
    const raCen: real
    const decCen: real
    const platerun: string
    const programname: string
    /** `_plugHoles`: the table of each plate, held by reference. */
    const plugHoles: seq<Table>

    /** What `Field(fieldname)` establishes from the summary. */
    ghost predicate Opened(summary: seq<SummaryRow>, fieldname: string) {
      && name == fieldname
      && platenums == PlatesOfField(summary, fieldname)
      && Center(summary, fieldname) == Some((raCen, decCen))
      && Meta(summary, fieldname) == Some((platerun, programname))
      && |plugHoles| == |platenums| && Distinct(plugHoles)
    }

    /** Every table still holds what the reader returned for its plate. */
    ghost predicate AsRead(holes: int -> seq<TargetRow>)
      reads plugHoles
    {
      |plugHoles| == |platenums| &&
      forall k :: 0 <= k < |plugHoles| ==> plugHoles[k].rows == holes(platenums[k])
    }

    constructor (name: string, platenums: seq<int>, raCen: real, decCen: real,
                 platerun: string, programname: string, plugHoles: seq<Table>)
      ensures this.name == name && this.platenums == platenums
      ensures this.raCen == raCen && this.decCen == decCen
      ensures this.platerun == platerun && this.programname == programname
      ensures this.plugHoles == plugHoles
    {
      this.name := name;
      this.platenums := platenums;
      this.raCen := raCen;
      this.decCen := decCen;
      this.platerun := platerun;
      this.programname := programname;
      this.plugHoles := plugHoles;
    }

    /** `Field(fieldname)`: a name without summary rows raises IndexError at `_center`,
        before any plate is read. */
    static method Open(summary: seq<SummaryRow>, fieldname: string, holes: int -> seq<TargetRow>)
      returns (r: Result<Field, FieldError>)
      ensures r.Err? <==> FirstRow(summary, fieldname).None?
      ensures r.Err? ==> r.error == IndexError
      ensures r.Ok? ==> fresh(r.value) && r.value.Opened(summary, fieldname) && r.value.AsRead(holes)
      ensures r.Ok? ==> fresh(set t | t in r.value.plugHoles)
    {
      var platenums := PlatesOfField(summary, fieldname);
      var center := Center(summary, fieldname);
      if center.None? {
        return Err(IndexError);
      }
      var meta := Meta(summary, fieldname);
      var tabs := LoadPlugHoles(platenums, holes);
      var f := new Field(fieldname, platenums, center.value.0, center.value.1,
                         meta.value.0, meta.value.1, tabs);
      r := Ok(f);
    }
  }
}
