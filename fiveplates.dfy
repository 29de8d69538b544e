/** The five_plates helpers (src/ppv/fiveplates.py): platerun lists, program names of
    cartons, the plateInput file names of a plate definition and what their names encode,
    the per-platerun memo caches, and the full target table of a five_plates field. */
module FivePlates {
  import opened Wrappers
  import opened Strings
  import opened Seqs
  import opened Sorting
  import opened Tables

  datatype FpError =
    | KeyError(key: string)
    | TypeError
    | NameError(name: string)                  // a name used but never bound
    | IndexError                               // `[...][0]` of an empty list
    | NoTablesToStack                          // `vstack([])` raises ValueError
    | PlateRunMissing(message: Option<string>) // `PlateRunMissingError(run_name)`
    | DuplicateColumn(name: string)            // `add_column` of a name the table has: ValueError

  /** `replace_space`: every space becomes an underscore. */
  function ReplaceSpace(val: string): (r: string)
    ensures |r| == |val| && ' ' !in r
    ensures forall i :: 0 <= i < |val| ==> r[i] == (if val[i] == ' ' then '_' else val[i])
  {
    if val == [] then []
    else ReplaceSpace(val[..|val| - 1]) + [if val[|val| - 1] == ' ' then '_' else val[|val| - 1]]
  }

  /** `available_plateruns`: the known plateruns in ascending order. */
  function AvailablePlateruns(fpAvailable: seq<string>): (r: seq<string>)
    ensures SortedBy(r, StrLe) && multiset(r) == multiset(fpAvailable)
  {
    StrLeIsTotalOrder();
    SortBy(fpAvailable, StrLe)
  }

  /** `_check_platerun`: true for an available run, `PlateRunMissingError` otherwise,
      whose message is None when the run name is empty. */
  function CheckPlaterun(runName: string, fpAvailable: seq<string>): (r: Result<bool, FpError>)
    ensures r.Ok? <==> runName in fpAvailable
    ensures r.Ok? ==> r.value
    ensures r.Err? ==> r.error == PlateRunMissing(if runName == [] then None else Some(runName))
  {
    var available := AvailablePlateruns(fpAvailable);
    assert runName in available <==> runName in multiset(fpAvailable);
    if runName in available then Ok(true)
    else Err(PlateRunMissing(if runName == [] then None else Some(runName)))
  }

  // ---- get_program_names ----

  /** `get_program_names` as written: the comprehension calls `re.findall` for every
      program with a `(`, and the module never imports `re`. */
  function GetProgramNamesAsWritten(programs: seq<string>): (r: Result<seq<string>, FpError>)
    ensures r.Ok? <==> forall k :: 0 <= k < |programs| ==> '(' !in programs[k]
    ensures r.Ok? ==> r.value == programs
    ensures r.Err? ==> r.error == NameError("re")
  {
    if programs == [] then Ok([])
    else
      match GetProgramNamesAsWritten(programs[..|programs| - 1])
      case Err(e) => Err(e)
      case Ok(init) =>
        var prog := programs[|programs| - 1];
        if '(' in prog then Err(NameError("re"))
        else
          assert programs == programs[..|programs| - 1] + [prog];
          Ok(init + [prog])
  }

  /** A carton program with a parenthesised part is never renamed: the call fails. */
  lemma ProgramNamesFailOnParenthesis()
    ensures GetProgramNamesAsWritten(["mwm_rv(long)"]) == Err(NameError("re"))
  {
    assert "mwm_rv(long)"[6] == '(';
  }

  /** Where `\(([^)]+)` first matches: the first `(` followed by a character other than `)`. */
  function MatchStart(s: string, i: nat): (r: Option<nat>)
    requires i <= |s|
    ensures r.Some? ==> i <= r.value && r.value + 1 < |s| && s[r.value] == '(' && s[r.value + 1] != ')'
    ensures r.Some? ==> forall k :: i <= k < r.value ==> !(s[k] == '(' && k + 1 < |s| && s[k + 1] != ')')
    ensures r.None? ==> forall k :: i <= k < |s| ==> !(s[k] == '(' && k + 1 < |s| && s[k + 1] != ')')
    decreases |s| - i
  {
    if i == |s| then None
    else if s[i] == '(' && i + 1 < |s| && s[i + 1] != ')' then Some(i)
    else MatchStart(s, i + 1)
  }

  /** Where the group `[^)]+` starting at j stops: the next `)` or the end of the string. */
  function CaptureEnd(s: string, j: nat): (r: nat)
    requires j <= |s|
    ensures j <= r <= |s| && (r == |s| || s[r] == ')')
    ensures forall k :: j <= k < r ==> s[k] != ')'
    decreases |s| - j
  {
    if j == |s| || s[j] == ')' then j else CaptureEnd(s, j + 1)
  }

  /** The name `get_program_names` gives one program, with `re` in scope: the program
      itself when it has no `(`, else the first `re.findall('\(([^)]+)', prog)`, and
      IndexError when that finds nothing. */
  function ProgramName(prog: string): (r: Result<string, FpError>)
    ensures '(' !in prog ==> r == Ok(prog)
    ensures '(' in prog && r.Ok? ==> |r.value| > 0 && ')' !in r.value
  {
    if '(' !in prog then Ok(prog)
    else
      match MatchStart(prog, 0)
      case None => Err(IndexError)
      case Some(i) =>
        var e := CaptureEnd(prog, i + 1);
        Ok(prog[i + 1..e])
  }

  lemma {:induction false} MatchStartAt(s: string, i: nat, m: nat)
    requires i <= m && m + 1 < |s| && s[m] == '(' && s[m + 1] != ')'
    requires forall k :: i <= k < m ==> s[k] != '('
    ensures MatchStart(s, i) == Some(m)
    decreases m - i
  {
    if i < m {
      MatchStartAt(s, i + 1, m);
    }
  }

  lemma {:induction false} CaptureEndAt(s: string, j: nat, e: nat)
    requires j <= e < |s| && s[e] == ')'
    requires forall k :: j <= k < e ==> s[k] != ')'
    ensures CaptureEnd(s, j) == e
    decreases e - j
  {
    if j < e {
      CaptureEndAt(s, j + 1, e);
    }
  }

  /** The text inside the first parentheses is the program name, as the docstring says. */
  lemma ProgramNameInParentheses(a: string, x: string, b: string)
    requires '(' !in a && |x| > 0 && ')' !in x
    ensures ProgramName(a + "(" + x + ")" + b) == Ok(x)
  {
    var s := a + "(" + x + ")" + b;
    var e := |a| + 1 + |x|;
    assert s[|a|] == '(' && s[|a| + 1] == x[0] && s[e] == ')';
    assert forall k :: 0 <= k < |a| ==> s[k] == a[k];
    assert forall k :: |a| + 1 <= k < e ==> s[k] == x[k - |a| - 1];
    MatchStartAt(s, 0, |a|);
    CaptureEndAt(s, |a| + 1, e);
    assert s[|a| + 1..e] == x;
  }

  /** A `(` directly followed by `)`, with no other `(` before it, finds no match. */
  lemma EmptyParenthesesFail()
    ensures ProgramName("bhm()") == Err(IndexError)
  {
    var s := "bhm()";
    assert s[3] == '(';
    assert MatchStart(s, 0) == None by {
      forall k | 0 <= k < |s| ensures !(s[k] == '(' && k + 1 < |s| && s[k + 1] != ')') {
      }
    }
  }

  /** `get_program_names` with `re` imported: one name per program, in order. */
  function GetProgramNames(programs: seq<string>): (r: Result<seq<string>, FpError>)
    ensures r.Ok? ==> |r.value| == |programs| && forall k :: 0 <= k < |programs| ==> Ok(r.value[k]) == ProgramName(programs[k])
    ensures r.Err? ==> exists k :: 0 <= k < |programs| && ProgramName(programs[k]) == Err(r.error)
  {
    if programs == [] then Ok([])
    else
      var last := programs[|programs| - 1];
      match GetProgramNames(programs[..|programs| - 1])
      case Err(e) => Err(e)
      case Ok(init) =>
        match ProgramName(last)
        case Err(e) => Err(e)
        case Ok(name) => Ok(init + [name])
  }

  /** With no parenthesised program the corrected and the written function agree. */
  lemma ProgramNamesAgreeWithoutParentheses(programs: seq<string>)
    requires forall k :: 0 <= k < |programs| ==> '(' !in programs[k]
    ensures GetProgramNames(programs) == GetProgramNamesAsWritten(programs)
  {
  }

  // ---- carton_to_program / carton_to_priority ----

  /** The row key of a program in the fibre-filling order file. */
  function PriorityKey(instrument: string, program: string): (k: string)
    ensures |k| == |instrument| + 5 + |program|
    ensures k[..|instrument|] == instrument && k[|instrument|..|instrument| + 5] == "_SCI_"
    ensures k[|instrument| + 5..] == program
  {
    instrument + "_SCI_" + program
  }

  /** One instrument never maps two programs to the same order-file row. */
  lemma PriorityKeyInjective(instrument: string, p1: string, p2: string)
    requires PriorityKey(instrument, p1) == PriorityKey(instrument, p2)
    ensures p1 == p2
  {
    assert PriorityKey(instrument, p1)[|instrument| + 5..] == p1;
  }

  /** `carton_to_program`: the `program` of the carton's row, KeyError without one. */
  function CartonToProgram(cartonProgram: map<string, string>, carton: string): (r: Result<string, FpError>)
    ensures r.Ok? <==> carton in cartonProgram
    ensures r.Ok? ==> r.value == cartonProgram[carton]
    ensures r.Err? ==> r.error == KeyError(carton)
  {
    if carton in cartonProgram then Ok(cartonProgram[carton]) else Err(KeyError(carton))
  }

  /** `carton_to_priority`: the order of row `{instrument}_SCI_{program}`. */
  function CartonToPriority(cartonProgram: map<string, string>, priorityOrder: map<string, int>,
                            carton: string, instrument: string): (r: Result<int, FpError>)
    ensures r.Ok? <==> carton in cartonProgram && PriorityKey(instrument, cartonProgram[carton]) in priorityOrder
    ensures r.Ok? ==> r.value == priorityOrder[PriorityKey(instrument, cartonProgram[carton])]
  {
    match CartonToProgram(cartonProgram, carton)
    case Err(e) => Err(e)
    case Ok(program) =>
      var key := PriorityKey(instrument, program);
      if key in priorityOrder then Ok(priorityOrder[key]) else Err(KeyError(key))
  }

  // ---- plate definition files ----

  function PlateInputKey(n: nat): string {
    "plateInput" + NatToDecimal(n)
  }

  /** Distinct file numbers are distinct plate-definition keys. */
  lemma PlateInputKeyInjective(m: nat, n: nat)
    requires PlateInputKey(m) == PlateInputKey(n)
    ensures m == n
  {
    assert PlateInputKey(m)[10..] == NatToDecimal(m);
    assert PlateInputKey(n)[10..] == NatToDecimal(n);
    ParseNatToDecimal(m);
    ParseNatToDecimal(n);
  }

  /** The values of `plateInput1` .. `plateInput{n}`. */
  function PlateInputsUpTo(params: map<string, Value>, n: nat): (r: Result<seq<Value>, FpError>)
    ensures r.Ok? <==> forall k :: 1 <= k <= n ==> PlateInputKey(k) in params
    ensures r.Ok? ==> |r.value| == n && forall k :: 0 <= k < n ==> r.value[k] == params[PlateInputKey(k + 1)]
  {
    if n == 0 then Ok([])
    else
      match PlateInputsUpTo(params, n - 1)
      case Err(e) => Err(e)
      case Ok(init) =>
        if PlateInputKey(n) in params then Ok(init + [params[PlateInputKey(n)]])
        else Err(KeyError(PlateInputKey(n)))
  }

  /** `plateInput_files`: `nInput` must be present and an integer; a negative count
      gives no files, as `range` does. */
  function PlateInputFiles(params: map<string, Value>): (r: Result<seq<Value>, FpError>)
    ensures "nInput" !in params ==> r == Err(KeyError("nInput"))
    ensures "nInput" in params && !params["nInput"].Int? ==> r == Err(TypeError)
    ensures r.Ok? ==>
      var n := params["nInput"].i;
      && |r.value| == (if n < 0 then 0 else n)
      && forall k :: 0 <= k < |r.value| ==> PlateInputKey(k + 1) in params && r.value[k] == params[PlateInputKey(k + 1)]
  {
    if "nInput" !in params then Err(KeyError("nInput"))
    else match params["nInput"]
      case Int(n) => PlateInputsUpTo(params, if n < 0 then 0 else n)
      case _ => Err(TypeError)
  }

  function ListPrefix(field: string): string {
    "targetlist_" + field + "_"
  }

  function DesignSuffix(designID: int): string {
    "_" + IntToDecimal(designID) + ".txt"
  }

  /** `parse_program_name_from_file`: remove every `targetlist_{field}_`, then every
      `_{designID}.txt`. */
  function ParseProgramNameFromFile(field: string, designID: int, filename: string): (r: string)
    ensures |r| <= |filename|
  {
    RemoveAll(RemoveAll(filename, ListPrefix(field)), DesignSuffix(designID))
  }

  /** For `targetlist_{field}_` + X + `_{designID}.txt`, where neither affix occurs
      elsewhere, the program name is X. */
  lemma ParseProgramName(field: string, designID: int, x: string)
    requires !Contains(x + DesignSuffix(designID), ListPrefix(field))
    requires forall i: nat :: i < |x| ==> !MatchAt(x + DesignSuffix(designID), DesignSuffix(designID), i)
    ensures ParseProgramNameFromFile(field, designID, ListPrefix(field) + x + DesignSuffix(designID)) == x
  {
    var pre := ListPrefix(field);
    var suf := DesignSuffix(designID);
    assert pre + x + suf == pre + (x + suf);
    RemoveAllLeading(pre, x + suf);
    RemoveAllAbsent(x + suf, pre);
    RemoveAllTrailing(x, suf);
  }

  /** `parse_instrument_name_from_file`: after removing the prefix, the text before the
      first underscore. */
  function ParseInstrumentNameFromFile(field: string, designID: int, filename: string): (r: string)
    ensures '_' !in r
  {
    Before(RemoveAll(filename, ListPrefix(field)), '_')
  }

  /** For `targetlist_{field}_{instrument}_...` the instrument is read back. */
  lemma ParseInstrumentName(field: string, designID: int, instrument: string, rest: string)
    requires '_' !in instrument
    requires !Contains(instrument + "_" + rest, ListPrefix(field))
    ensures ParseInstrumentNameFromFile(field, designID, ListPrefix(field) + instrument + "_" + rest) == instrument
  {
    var pre := ListPrefix(field);
    var t := instrument + "_" + rest;
    assert pre + instrument + "_" + rest == pre + t;
    RemoveAllLeading(pre, t);
    RemoveAllAbsent(t, pre);
    BeforeDelimiter(instrument, rest);
  }

  lemma {:induction false} BeforeDelimiter(a: string, rest: string)
    requires '_' !in a
    ensures Before(a + "_" + rest, '_') == a
    decreases |a|
  {
    if a != [] {
      assert (a + "_" + rest)[1..] == a[1..] + "_" + rest;
      BeforeDelimiter(a[1..], rest);
      assert a == [a[0]] + a[1..];
    }
  }

  // ---- _fp_to_prefect_name ----

  /** `{fp: prefect for prefect, fp in zip(prefect_names, available)}`: the shorter list
      decides the length, and a repeated five_plates name keeps its last pair. */
  function FpToPrefectName(prefectNames: seq<string>, available: seq<string>): (r: map<string, string>)
    ensures forall fp :: fp in r <==> exists j :: 0 <= j < |prefectNames| && j < |available| && available[j] == fp
    decreases |prefectNames|
  {
    var n := if |prefectNames| < |available| then |prefectNames| else |available|;
    if n == 0 then map[]
    else
      var prev := FpToPrefectName(prefectNames[..n - 1], available[..n - 1]);
      assert forall j :: 0 <= j < n - 1 ==> prefectNames[..n - 1][j] == prefectNames[j] && available[..n - 1][j] == available[j];
      prev[available[n - 1] := prefectNames[n - 1]]
  }

  /** The prefect name of a five_plates name comes from its last position in the zip. */
  lemma {:induction false} FpToPrefectNameLast(prefectNames: seq<string>, available: seq<string>, j: nat)
    requires j < |prefectNames| && j < |available|
    requires forall k :: j < k < |prefectNames| && k < |available| ==> available[k] != available[j]
    ensures FpToPrefectName(prefectNames, available)[available[j]] == prefectNames[j]
    decreases |prefectNames|
  {
    var n := if |prefectNames| < |available| then |prefectNames| else |available|;
    if j < n - 1 {
      FpToPrefectNameLast(prefectNames[..n - 1], available[..n - 1], j);
    }
  }

  // ---- the memo caches of default parameters and carton tables ----

  datatype Carton = Carton(carton: string, program: string)

  /** A carton table with its added `fp_program` column. */
  datatype CartonTable = CartonTable(rows: seq<Carton>, fpProgram: seq<string>)

  function Programs(rows: seq<Carton>): (r: seq<string>)
    ensures |r| == |rows| && forall k :: 0 <= k < |rows| ==> r[k] == rows[k].program
  {
    if rows == [] then [] else [rows[0].program] + Programs(rows[1..])
  }

  /** The module dicts `default_params` and `cartons`, with the two loaders as
      functions of their arguments. The ghost logs record every loader call. */
  class ParamCache {
    const loadDefaultParams: string -> map<string, string>
    const loadCartons: (string, string) -> seq<Carton>
    var defaultParams: map<string, map<string, string>>
    var cartons: map<string, CartonTable>
    ghost var paramLoads: seq<string>
    ghost var cartonLoads: seq<(string, string)>

    constructor (loadDefaultParams: string -> map<string, string>, loadCartons: (string, string) -> seq<Carton>)
      ensures this.loadDefaultParams == loadDefaultParams && this.loadCartons == loadCartons
      ensures defaultParams == map[] && cartons == map[] && paramLoads == [] && cartonLoads == []
    {
      this.loadDefaultParams := loadDefaultParams;
      this.loadCartons := loadCartons;
      defaultParams := map[];
      cartons := map[];
      paramLoads := [];
      cartonLoads := [];
    }

    /** `get_defaultparams`: the loader runs only on a miss, and its result is stored. */
    method GetDefaultParams(platerun: string) returns (dparams: map<string, string>)
      modifies this
      ensures platerun in old(defaultParams) ==>
        dparams == old(defaultParams)[platerun] && defaultParams == old(defaultParams) && paramLoads == old(paramLoads)
      ensures platerun !in old(defaultParams) ==>
        && dparams == loadDefaultParams(platerun)
        && defaultParams == old(defaultParams)[platerun := dparams]
        && paramLoads == old(paramLoads) + [platerun]
      ensures cartons == old(cartons) && cartonLoads == old(cartonLoads)
    {
      if platerun in defaultParams {
        return defaultParams[platerun];
      }
      dparams := loadDefaultParams(platerun);
      paramLoads := paramLoads + [platerun];
      defaultParams := defaultParams[platerun := dparams];
    }

    /** `get_cartons_table`: the default parameters are fetched, and their
        `carton_list_version` read, before the cache is consulted; a miss loads the
        cartons of that version and adds their program names. */
    method GetCartonsTable(platerun: string) returns (r: Result<CartonTable, FpError>)
      modifies this
      ensures platerun in old(defaultParams) ==> defaultParams == old(defaultParams) && paramLoads == old(paramLoads)
      ensures platerun !in old(defaultParams) ==>
        defaultParams == old(defaultParams)[platerun := loadDefaultParams(platerun)] && paramLoads == old(paramLoads) + [platerun]
      ensures "carton_list_version" !in defaultParams[platerun] ==>
        r == Err(KeyError("carton_list_version")) && cartons == old(cartons) && cartonLoads == old(cartonLoads)
      ensures "carton_list_version" in defaultParams[platerun] && platerun in old(cartons) ==>
        r == Ok(old(cartons)[platerun]) && cartons == old(cartons) && cartonLoads == old(cartonLoads)
      ensures "carton_list_version" in defaultParams[platerun] && platerun !in old(cartons) ==>
        var version := defaultParams[platerun]["carton_list_version"];
        var rows := loadCartons(platerun, version);
        && cartonLoads == old(cartonLoads) + [(platerun, version)]
        && match GetProgramNames(Programs(rows))
           case Err(e) => r == Err(e) && cartons == old(cartons)
           case Ok(names) => r == Ok(CartonTable(rows, names)) && cartons == old(cartons)[platerun := r.value]
    {
      var dparams := GetDefaultParams(platerun);
      if "carton_list_version" !in dparams {
        return Err(KeyError("carton_list_version"));
      }
      var listVersion := dparams["carton_list_version"];
      if platerun in cartons {
        return Ok(cartons[platerun]);
      }
      var cartonRows := loadCartons(platerun, listVersion);
      cartonLoads := cartonLoads + [(platerun, listVersion)];
      var fpProgram := GetProgramNames(Programs(cartonRows));
      if fpProgram.Err? {
        return Err(fpProgram.error);
      }
      var cartonTable := CartonTable(cartonRows, fpProgram.value);
      cartons := cartons[platerun := cartonTable];
      return Ok(cartonTable);
    }
  }

  // ---- the full plateInput table of a five_plates field ----

  /** The plateInput files kept: those whose name lacks `apogee_STA`; a name that is not
      a string cannot be searched. */
  function KeptInputs(files: seq<Value>): (r: Result<seq<string>, FpError>)
    ensures r.Ok? ==> forall k :: 0 <= k < |r.value| ==> !Contains(r.value[k], "apogee_STA")
    ensures r.Ok? ==> forall k :: 0 <= k < |files| ==> files[k].Str? && (!Contains(files[k].s, "apogee_STA") ==> files[k].s in r.value)
    ensures r.Ok? ==> forall f :: f in r.value ==> Str(f) in files
    ensures r.Err? <==> exists k :: 0 <= k < |files| && !files[k].Str?
  {
    if files == [] then Ok([])
    else if !files[0].Str? then Err(TypeError)
    else
      match KeptInputs(files[1..])
      case Err(e) =>
        var k :| 0 <= k < |files[1..]| && !files[1..][k].Str?;
        assert !files[k + 1].Str?;
        Err(e)
      case Ok(rest) =>
        assert forall k :: 1 <= k < |files| ==> files[k] == files[1..][k - 1];
        assert forall f :: Str(f) in files[1..] ==> Str(f) in files;
        if Contains(files[0].s, "apogee_STA") then Ok(rest)
        else Ok([files[0].s] + rest)
  }

  /** The column names the five_plates table gains are distinct. */
  lemma ColumnNamesDistinct()
    ensures "instrument" != "order_priority" && "instrument" != "order_name" && "order_priority" != "order_name"
    ensures "field" != "designid"
  {
    assert "instrument"[0] != "order_name"[0];
    assert "order_priority"[6] != "order_name"[6];
  }

  /** `_process_plateinput`: the file's rows with their instrument, priority order and
      program name added as columns. The priority is looked up first; each `add_column`
      then refuses a name the table already has. */
  function ProcessPlateInput(field: string, designID: int, filename: string, rows: seq<TargetRow>,
                             programPriorities: map<string, int>): (r: Result<seq<TargetRow>, FpError>)
    ensures var program := ParseProgramNameFromFile(field, designID, filename);
      && (r.Ok? <==> && program in programPriorities && !HasColumn(rows, "instrument")
                     && !HasColumn(rows, "order_priority") && !HasColumn(rows, "order_name"))
      && (program !in programPriorities ==> r == Err(KeyError(program)))
      && (program in programPriorities && HasColumn(rows, "instrument") ==> r == Err(DuplicateColumn("instrument")))
      && (r.Ok? ==>
        && |r.value| == |rows|
        && forall i :: 0 <= i < |rows| ==>
          && r.value[i].catalogid == rows[i].catalogid
          && "instrument" in r.value[i].columns && "order_priority" in r.value[i].columns
          && "order_name" in r.value[i].columns
          && r.value[i].columns["instrument"] == Str(ParseInstrumentNameFromFile(field, designID, filename))
          && r.value[i].columns["order_priority"] == Int(programPriorities[program])
          && r.value[i].columns["order_name"] == Str(program))
  {
    var program := ParseProgramNameFromFile(field, designID, filename);
    var instrument := ParseInstrumentNameFromFile(field, designID, filename);
    if program !in programPriorities then Err(KeyError(program))
    else if HasColumn(rows, "instrument") then Err(DuplicateColumn("instrument"))
    else if HasColumn(rows, "order_priority") then Err(DuplicateColumn("order_priority"))
    else if HasColumn(rows, "order_name") then Err(DuplicateColumn("order_name"))
    else
      var t1 := SetColumn(rows, "instrument", Str(instrument));
      var t2 := SetColumn(t1, "order_priority", Int(programPriorities[program]));
      var t3 := SetColumn(t2, "order_name", Str(program));
      ColumnNamesDistinct();
      Ok(t3)
  }

  /** One file of the comprehension: the `apogee_STA` test (which a non-string file
      fails), then the processing of a file that passes it. */
  function InputStep(field: string, designID: int, file: Value, load: string -> seq<TargetRow>,
                     programPriorities: map<string, int>): (r: Result<Option<seq<TargetRow>>, FpError>)
    ensures !file.Str? ==> r == Err(TypeError)
    ensures file.Str? && Contains(file.s, "apogee_STA") ==> r == Ok(None)
    ensures file.Str? && !Contains(file.s, "apogee_STA") ==>
      var p := ProcessPlateInput(field, designID, file.s, load(file.s), programPriorities);
      (r.Ok? <==> p.Ok?) && (p.Ok? ==> r == Ok(Some(p.value))) && (p.Err? ==> r == Err(p.error))
  {
    if !file.Str? then Err(TypeError)
    else if Contains(file.s, "apogee_STA") then Ok(None)
    else
      match ProcessPlateInput(field, designID, file.s, load(file.s), programPriorities)
      case Err(e) => Err(e)
      case Ok(t) => Ok(Some(t))
  }

  /** Table k is what processing kept file k gives. */
  predicate ProcessedAs(field: string, designID: int, kept: seq<string>, tables: seq<seq<TargetRow>>,
                        load: string -> seq<TargetRow>, programPriorities: map<string, int>) {
    && |tables| == |kept|
    && forall k :: 0 <= k < |kept| ==>
      ProcessPlateInput(field, designID, kept[k], load(kept[k]), programPriorities) == Ok(tables[k])
  }

  lemma ProcessedAsCons(field: string, designID: int, f: string, kept: seq<string>, t: seq<TargetRow>,
                        tables: seq<seq<TargetRow>>, load: string -> seq<TargetRow>, programPriorities: map<string, int>)
    requires ProcessPlateInput(field, designID, f, load(f), programPriorities) == Ok(t)
    requires ProcessedAs(field, designID, kept, tables, load, programPriorities)
    ensures ProcessedAs(field, designID, [f] + kept, [t] + tables, load, programPriorities)
  {
    var kept', tables' := [f] + kept, [t] + tables;
    forall k | 0 <= k < |kept'|
      ensures ProcessPlateInput(field, designID, kept'[k], load(kept'[k]), programPriorities) == Ok(tables'[k])
    {
      if k > 0 {
        assert kept'[k] == kept[k - 1] && tables'[k] == tables[k - 1];
      }
    }
  }

  /** The comprehension of `_full_plateinput_table`, file after file: on success, the
      processed tables of exactly the kept files, in order. */
  function ProcessAll(field: string, designID: int, files: seq<Value>, load: string -> seq<TargetRow>,
                      programPriorities: map<string, int>): (r: Result<seq<seq<TargetRow>>, FpError>)
    ensures r.Ok? ==> KeptInputs(files).Ok?
    ensures r.Ok? ==> ProcessedAs(field, designID, KeptInputs(files).value, r.value, load, programPriorities)
  {
    if files == [] then Ok([])
    else
      match InputStep(field, designID, files[0], load, programPriorities)
      case Err(e) => Err(e)
      case Ok(o) =>
        match ProcessAll(field, designID, files[1..], load, programPriorities)
        case Err(e) => Err(e)
        case Ok(rest) =>
          if o.Some? then
            ProcessedAsCons(field, designID, files[0].s, KeptInputs(files[1..]).value, o.value, rest, load, programPriorities);
            Ok([o.value] + rest)
          else Ok(rest)
  }

  /** Every kept file processes without error. */
  predicate AllProcess(field: string, designID: int, kept: seq<string>, load: string -> seq<TargetRow>,
                       programPriorities: map<string, int>) {
    forall k :: 0 <= k < |kept| ==> ProcessPlateInput(field, designID, kept[k], load(kept[k]), programPriorities).Ok?
  }

  lemma AllProcessCons(field: string, designID: int, f: string, rest: seq<string>,
                       load: string -> seq<TargetRow>, programPriorities: map<string, int>)
    ensures AllProcess(field, designID, [f] + rest, load, programPriorities) <==>
      && ProcessPlateInput(field, designID, f, load(f), programPriorities).Ok?
      && AllProcess(field, designID, rest, load, programPriorities)
  {
    var kept := [f] + rest;
    if AllProcess(field, designID, kept, load, programPriorities) {
      assert kept[0] == f;
      forall k | 0 <= k < |rest|
        ensures ProcessPlateInput(field, designID, rest[k], load(rest[k]), programPriorities).Ok?
      {
        assert rest[k] == kept[k + 1];
      }
    }
    if ProcessPlateInput(field, designID, f, load(f), programPriorities).Ok?
       && AllProcess(field, designID, rest, load, programPriorities) {
      forall k | 0 <= k < |kept|
        ensures ProcessPlateInput(field, designID, kept[k], load(kept[k]), programPriorities).Ok?
      {
        if k > 0 {
          assert kept[k] == rest[k - 1];
        }
      }
    }
  }

  /** The comprehension fails exactly when the file list holds a non-string or a kept file
      fails to process. */
  lemma {:induction false} ProcessAllSucceeds(field: string, designID: int, files: seq<Value>,
                                              load: string -> seq<TargetRow>, programPriorities: map<string, int>)
    ensures ProcessAll(field, designID, files, load, programPriorities).Ok? <==>
      KeptInputs(files).Ok? && AllProcess(field, designID, KeptInputs(files).value, load, programPriorities)
  {
    if files != [] {
      ProcessAllSucceeds(field, designID, files[1..], load, programPriorities);
      var rest := KeptInputs(files[1..]);
      if files[0].Str? && rest.Ok? && !Contains(files[0].s, "apogee_STA") {
        assert KeptInputs(files).value == [files[0].s] + rest.value;
        AllProcessCons(field, designID, files[0].s, rest.value, load, programPriorities);
      }
    }
  }

  /** The error of the comprehension is that of the first file whose step fails, every
      earlier file having passed: a KeyError of one file comes before a TypeError of a
      later one. */
  lemma {:induction false} ProcessAllFirstError(field: string, designID: int, files: seq<Value>,
                                                load: string -> seq<TargetRow>, programPriorities: map<string, int>)
    ensures var r := ProcessAll(field, designID, files, load, programPriorities);
      r.Err? ==> exists k :: (&& 0 <= k < |files|
        && (forall j :: 0 <= j < k ==> InputStep(field, designID, files[j], load, programPriorities).Ok?)
        && InputStep(field, designID, files[k], load, programPriorities) == Err(r.error))
  {
    var r := ProcessAll(field, designID, files, load, programPriorities);
    if r.Err? && InputStep(field, designID, files[0], load, programPriorities).Ok? {
      ProcessAllFirstError(field, designID, files[1..], load, programPriorities);
      var k :| 0 <= k < |files[1..]|
        && (forall j :: 0 <= j < k ==> InputStep(field, designID, files[1..][j], load, programPriorities).Ok?)
        && InputStep(field, designID, files[1..][k], load, programPriorities) == Err(r.error);
      assert forall j :: 1 <= j < k + 1 ==> files[j] == files[1..][j - 1];
      assert files[k + 1] == files[1..][k];
    }
  }

  /** `_full_plateinput_table`: stack the processed tables of the kept plateInput files,
      sort by catalogid, and add the `field` and `designid` columns. */
  function FullPlateInputTable(field: string, designID: int, params: map<string, Value>,
                               load: string -> seq<TargetRow>, programPriorities: map<string, int>)
    : (r: Result<seq<TargetRow>, FpError>)
    ensures r.Ok? ==> forall i, j :: 0 <= i < j < |r.value| ==> r.value[i].catalogid <= r.value[j].catalogid
    ensures r.Ok? ==> forall i :: 0 <= i < |r.value| ==>
      && "field" in r.value[i].columns && r.value[i].columns["field"] == Str(field)
      && "designid" in r.value[i].columns && r.value[i].columns["designid"] == Int(designID)
    ensures r.Ok? <==>
      && PlateInputFiles(params).Ok?
      && var tables := ProcessAll(field, designID, PlateInputFiles(params).value, load, programPriorities);
      && tables.Ok? && tables.value != []
      && !HasColumn(Flatten(tables.value), "field") && !HasColumn(Flatten(tables.value), "designid")
  {
    match PlateInputFiles(params)
    case Err(e) => Err(e)
    case Ok(files) =>
      match ProcessAll(field, designID, files, load, programPriorities)
      case Err(e) => Err(e)
      case Ok(tables) =>
        if tables == [] then Err(NoTablesToStack)
        else
          var sorted := SortByCatalogId(Flatten(tables));
          HasColumnPermutation(sorted, Flatten(tables), "field");
          HasColumnPermutation(sorted, Flatten(tables), "designid");
          if HasColumn(sorted, "field") then Err(DuplicateColumn("field"))
          else
            var withField := SetColumn(sorted, "field", Str(field));
            if HasColumn(sorted, "designid") then Err(DuplicateColumn("designid"))
            else
              var full := SetColumn(withField, "designid", Int(designID));
              ColumnNamesDistinct();
              Ok(full)
  }

  /** The full table holds the rows of the processed kept files and nothing else. */
  lemma FullTableRows(field: string, designID: int, params: map<string, Value>,
                      load: string -> seq<TargetRow>, programPriorities: map<string, int>)
    requires FullPlateInputTable(field, designID, params, load, programPriorities).Ok?
    ensures var files := PlateInputFiles(params).value;
      var kept := KeptInputs(files).value;
      var tables := ProcessAll(field, designID, files, load, programPriorities).value;
      var r := FullPlateInputTable(field, designID, params, load, programPriorities).value;
      && |kept| > 0
      && |r| == |Flatten(tables)|
      && multiset(CatalogIds(r)) == multiset(CatalogIds(Flatten(tables)))
  {
    var files := PlateInputFiles(params).value;
    var processed := ProcessAll(field, designID, files, load, programPriorities);
    assert processed.Ok?;
    var tables := processed.value;
    var sorted := SortByCatalogId(Flatten(tables));
    HasColumnPermutation(sorted, Flatten(tables), "field");
    HasColumnPermutation(sorted, Flatten(tables), "designid");
    var withField := SetColumn(sorted, "field", Str(field));
    var full := SetColumn(withField, "designid", Int(designID));
    assert FullPlateInputTable(field, designID, params, load, programPriorities) == Ok(full);
    assert CatalogIds(full) == CatalogIds(sorted);
    CatalogIdsPermutation(sorted, Flatten(tables));
  }

  lemma {:induction false} CatalogIdsPermutation(a: seq<TargetRow>, b: seq<TargetRow>)
    requires multiset(a) == multiset(b)
    ensures multiset(CatalogIds(a)) == multiset(CatalogIds(b))
    decreases |a|
  {
    if a != [] {
      var j := RemoveFirst(a, b);
      CatalogIdsRemove(b, j);
      CatalogIdsPermutation(a[1..], b[..j] + b[j + 1..]);
      assert CatalogIds(a) == [a[0].catalogid] + CatalogIds(a[1..]);
    }
  }

  lemma {:induction false} CatalogIdsRemove(b: seq<TargetRow>, j: nat)
    requires j < |b|
    ensures multiset(CatalogIds(b)) == multiset(CatalogIds(b[..j] + b[j + 1..])) + multiset{b[j].catalogid}
  {
    assert b == b[..j] + ([b[j]] + b[j + 1..]);
    CatalogIdsAppend(b[..j], [b[j]] + b[j + 1..]);
    CatalogIdsAppend([b[j]], b[j + 1..]);
    CatalogIdsAppend(b[..j], b[j + 1..]);
  }

  // ---- membership in a five_plates field ----

  /** `Field.contains`: one flag per queried id, whether the field's full table (however
      `targets` came out) has a row with it. */
  function FieldContains(targets: Result<seq<TargetRow>, FpError>, catIDs: seq<int>): (r: Result<seq<bool>, FpError>)
    ensures targets.Err? ==> r == Err(targets.error)
    ensures targets.Ok? ==> r.Ok? && |r.value| == |catIDs|
    ensures targets.Ok? ==> forall i :: 0 <= i < |catIDs| ==>
      (r.value[i] <==> exists j :: 0 <= j < |targets.value| && targets.value[j].catalogid == catIDs[i])
  {
    match targets
    case Err(e) => Err(e)
    case Ok(rows) => Ok(IdsPresent(catIDs, rows))
  }

  /** `Field.get_targets` as written: `_contains` reads the `Catalog_id` column, which
      `_full_plateinput_table` has renamed to `catalogid`, so the lookup raises KeyError
      whenever the table itself loads. */
  function FieldGetTargetsAsWritten(targets: Result<seq<TargetRow>, FpError>, catalogIDs: seq<int>)
    : (r: Result<seq<TargetRow>, FpError>)
    ensures r.Err?
    ensures targets.Err? ==> r == Err(targets.error)
  {
    match targets
    case Err(e) => Err(e)
    case Ok(_) => Err(KeyError("Catalog_id"))
  }

  /** A field whose table loads never answers `get_targets`, whatever is asked. */
  lemma GetTargetsAlwaysRaises(rows: seq<TargetRow>, catalogIDs: seq<int>)
    ensures FieldGetTargetsAsWritten(Ok(rows), catalogIDs) == Err(KeyError("Catalog_id"))
  {
  }

  /** `Field.get_targets` reading the renamed column, as `fiveplates.Platerun._contains`
      does: the rows of the table whose catalogid is asked for, in table order, and
      only those. */
  function FieldGetTargets(targets: Result<seq<TargetRow>, FpError>, catalogIDs: seq<int>)
    : (r: Result<seq<TargetRow>, FpError>)
    ensures targets.Err? ==> r == Err(targets.error)
    ensures targets.Ok? ==> r == Ok(KeepIn(targets.value, catalogIDs))
    ensures targets.Ok? ==> forall x :: x in r.value <==> x in targets.value && x.catalogid in catalogIDs
  {
    match targets
    case Err(e) => Err(e)
    case Ok(rows) =>
      CompressByIds(rows, catalogIDs);
      Ok(Compress(rows, In1d(CatalogIds(rows), catalogIDs)))
  }
}
