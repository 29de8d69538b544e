/** Plates (src/ppv/plate.py): a plate's target table with its `plate` column, catalogid
    membership and row selection. Reading the plugHoles file is outside the model: its
    STRUCT1 table arrives as rows. */
module Plates {
  import opened Wrappers
  import opened Seqs
  import opened Tables

  datatype PlateError =
    | IndexError            // a mask of the wrong length, or an index out of range
    | AmbiguousTruthValue   // `bool()` of a numpy array with more than one element

  /** A loaded plate: its number and its target table (`Plate.targets`). */
  datatype Plate = Plate(platenum: int, targets: seq<TargetRow>)

  /** `Plate._load_table`: the STRUCT1 rows, each with a `plate` column holding the plate
      number; the catalogids and every other column are those of the file. */
  function LoadTable(platenum: int, holes: seq<TargetRow>): (r: seq<TargetRow>)
    ensures |r| == |holes| && CatalogIds(r) == CatalogIds(holes)
    ensures forall i :: 0 <= i < |r| ==> "plate" in r[i].columns && r[i].columns["plate"] == Int(platenum)
    ensures forall i, c :: 0 <= i < |r| && c != "plate" && c in holes[i].columns ==>
      c in r[i].columns && r[i].columns[c] == holes[i].columns[c]
  {
    var r := SetColumn(holes, "plate", Int(platenum));
    assert CatalogIds(r) == CatalogIds(holes);
    r
  }

  /** `Plate.contains` and `Plate.__contains__` called directly: one flag per queried id.
      `np.in1d` also takes a single id (as a one-element array), so the `except TypeError`
      branches are never reached with integer ids. */
  function Contains(p: Plate, catIDs: seq<int>): (r: seq<bool>)
    ensures |r| == |catIDs|
    ensures forall i :: 0 <= i < |catIDs| ==>
      (r[i] <==> exists j :: 0 <= j < |p.targets| && p.targets[j].catalogid == catIDs[i])
  {
    IdsPresent(catIDs, p.targets)
  }

  /** `catIDs in plate`: Python's `in` takes the truth value of what `__contains__`
      returns, here the array from `np.in1d`. One flag is its own truth value, an empty
      array is False (with a deprecation warning), and more than one raises ValueError. */
  function InOperatorAsWritten(p: Plate, catIDs: seq<int>): (r: Result<bool, PlateError>)
    ensures r.Err? <==> |catIDs| > 1
    ensures r.Err? ==> r.error == AmbiguousTruthValue
    ensures |catIDs| == 1 ==> r == Ok(exists j :: 0 <= j < |p.targets| && p.targets[j].catalogid == catIDs[0])
    ensures catIDs == [] ==> r == Ok(false)
  {
    var mask := Contains(p, catIDs);
    if |mask| == 0 then Ok(false)
    else if |mask| == 1 then Ok(mask[0])
    else Err(AmbiguousTruthValue)
  }

  /** Two ids in a plate that holds both still raise instead of answering True. */
  lemma TwoIdsRaise(a: int, b: int)
    ensures InOperatorAsWritten(Plate(1, [TargetRow(a, map[]), TargetRow(b, map[])]), [a, b]) == Err(AmbiguousTruthValue)
  {
  }

  /** `catIDs in plate` as documented: True exactly when every queried id is on the plate. */
  function InOperator(p: Plate, catIDs: seq<int>): (r: bool)
    ensures r <==> forall i :: 0 <= i < |catIDs| ==>
      exists j :: 0 <= j < |p.targets| && p.targets[j].catalogid == catIDs[i]
  {
    var mask := Contains(p, catIDs);
    forall i | 0 <= i < |mask| ensures mask[i] in mask {}
    !(false in mask)
  }

  /** For a single id the as-written operator answers as documented. An empty query is
      False as written but True as documented (`np.all` of nothing). */
  lemma InOperatorAgrees(p: Plate, catIDs: seq<int>)
    requires |catIDs| == 1
    ensures InOperatorAsWritten(p, catIDs).value == InOperator(p, catIDs)
  {
  }

  /** What `table[row_indx]` accepts: a boolean mask or an array of integer positions. */
  datatype RowIndex = BoolMask(mask: seq<bool>) | Indices(ix: seq<int>)

  predicate IndexInRange(n: nat, k: int) {
    -(n as int) <= k < n
  }

  /** A numpy position: negative ones count from the end. */
  function Position(n: nat, k: int): (i: nat)
    requires IndexInRange(n, k)
    ensures i < n && (k >= 0 ==> i == k) && (k < 0 ==> i == n + k)
  {
    if k >= 0 then k else n + k
  }

  /** `Plate.get_targets(row_indx)`: the selected rows, in the order of the mask or of the
      positions; a mask of the wrong length or a position out of range raises IndexError. */
  function GetTargets(p: Plate, row: RowIndex): (r: Result<seq<TargetRow>, PlateError>)
    ensures row.BoolMask? ==> (r.Ok? <==> |row.mask| == |p.targets|)
    ensures row.Indices? ==> (r.Ok? <==> forall k :: 0 <= k < |row.ix| ==> IndexInRange(|p.targets|, row.ix[k]))
    ensures r.Err? ==> r.error == IndexError
    ensures r.Ok? && row.BoolMask? ==> r.value == Select(p.targets, Where(row.mask, true))
    ensures r.Ok? && row.Indices? ==>
      |r.value| == |row.ix| &&
      forall k :: 0 <= k < |row.ix| ==> r.value[k] == p.targets[Position(|p.targets|, row.ix[k])]
  {
    var n := |p.targets|;
    match row
    case BoolMask(mask) =>
      if |mask| != n then Err(IndexError)
      else
        CompressIsSelectWhere(p.targets, mask);
        Ok(Compress(p.targets, mask))
    case Indices(ix) =>
      if exists k :: 0 <= k < |ix| && !IndexInRange(n, ix[k]) then Err(IndexError)
      else Ok(seq(|ix|, k requires 0 <= k < |ix| => p.targets[Position(n, ix[k])]))
  }

  /** Selecting by the membership mask of the table's own catalogids keeps exactly the
      rows listed, in table order. */
  lemma GetTargetsByIds(p: Plate, ids: seq<int>)
    ensures GetTargets(p, BoolMask(In1d(CatalogIds(p.targets), ids))) == Ok(KeepIn(p.targets, ids))
  {
    CompressByIds(p.targets, ids);
    CompressIsSelectWhere(p.targets, In1d(CatalogIds(p.targets), ids));
  }
}
