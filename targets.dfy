/** `Targets` (src/ppv/targets.py): a list of sky targets with two memo caches keyed by
    the `name` of a field, plate or platerun: `_available_indx` (which targets lie inside
    the field's circle) and `_assigned_indx` (which targets were given a fibre there).
    Angular separation is a caller-supplied function; availability tests it with `<`. */
module TargetsModule {
  import opened Wrappers
  import opened Seqs

  /** A sky position, kept abstract: only `separation` looks inside it. */
  datatype Coord = Coord(ra: real, dec: real)

  /** A `groups.Field` or `fiveplates.Field`: a name, a centre, a radius and its targets'
      catalogids. */
  datatype Pointing = Pointing(name: string, center: Coord, radius: real, catalogids: seq<int>)

  datatype RunKind = GroupsPlaterun | FivePlatesPlaterun

  /** The objects the masks are asked about. A `Plate` has no `name` or `center`
      attribute: the lookup falls through to a column of its table that does not exist.
      A `platerun.PlateRun` has a `name` but neither a `center` nor a `targets`, and it is
      not one of the two platerun classes `available_in` recognises. */
  datatype Region =
    | FieldOf(p: Pointing)
    | PlateOf(platenum: int)
    | PlaterunOf(kind: RunKind, name: string, fields: seq<Pointing>, catalogids: seq<int>)
    | PlateRunOf(runName: string)

  datatype TargetsError =
    | AttributeError(attr: string)  // an attribute the object lacks
    | KeyError(column: string)      // `Plate.__getattr__` looks the attribute up as a column
    | ReduceTypeError               // `np.bitwise_or.reduce([])` on an empty float array

  /** What `_available_in_field` returns: a mask, or None for a `groups.Platerun`. */
  datatype Availability = Mask(bits: seq<bool>) | NoneValue | Failed(error: TargetsError)

  /** `coords.separation(center) < radius`, one flag per target. */
  function Cone(coords: seq<Coord>, separation: (Coord, Coord) -> real, center: Coord, radius: real): (r: seq<bool>)
    ensures |r| == |coords|
    ensures forall i :: 0 <= i < |coords| ==> (r[i] <==> separation(coords[i], center) < radius)
  {
    if coords == [] then []
    else Cone(coords[..|coords| - 1], separation, center, radius) + [separation(coords[|coords| - 1], center) < radius]
  }

  /** np.bitwise_or.reduce over a non-empty list of equal-length masks. */
  function OrAll(masks: seq<seq<bool>>, n: nat): (r: seq<bool>)
    requires |masks| > 0 && forall k :: 0 <= k < |masks| ==> |masks[k]| == n
    ensures |r| == n
    ensures forall i :: 0 <= i < n ==> (r[i] <==> exists k :: 0 <= k < |masks| && masks[k][i])
  {
    if |masks| == 1 then masks[0]
    else
      var init := OrAll(masks[..|masks| - 1], n);
      var r := Or(init, masks[|masks| - 1]);
      assert forall i :: 0 <= i < n ==> (r[i] <==> init[i] || masks[|masks| - 1][i]);
      r
  }

  class Targets {
    const coords: seq<Coord>
    const catalogid: seq<int>
    const separation: (Coord, Coord) -> real
    var availableIndx: map<string, seq<bool>>
    var assignedIndx: map<string, seq<bool>>

    /** Every cached mask is aligned with the target list. */
    ghost predicate Valid()
      reads this
    {
      && |coords| == |catalogid|
      && WellSized(availableIndx)
      && WellSized(assignedIndx)
    }

    predicate WellSized(cache: map<string, seq<bool>>) {
      forall n :: n in cache ==> |cache[n]| == |catalogid|
    }

    constructor (coords: seq<Coord>, catalogid: seq<int>, separation: (Coord, Coord) -> real)
      requires |coords| == |catalogid|
      ensures Valid()
      ensures this.coords == coords && this.catalogid == catalogid && this.separation == separation
      ensures availableIndx == map[] && assignedIndx == map[]
    {
      this.coords := coords;
      this.catalogid := catalogid;
      this.separation := separation;
      availableIndx := map[];
      assignedIndx := map[];
    }

    /** `_radial_search`: the targets strictly closer than `radius` to `center`. */
    function RadialSearch(center: Coord, radius: real): (r: seq<bool>)
      ensures |r| == |coords|
      ensures forall i :: 0 <= i < |coords| ==> (r[i] <==> separation(coords[i], center) < radius)
    {
      Cone(coords, separation, center, radius)
    }

    /** A larger radius keeps every target a smaller one finds. */
    lemma RadialSearchMonotone(center: Coord, r1: real, r2: real)
      requires r1 <= r2
      ensures forall i :: 0 <= i < |coords| && RadialSearch(center, r1)[i] ==> RadialSearch(center, r2)[i]
    {
    }

    /** The mask `_available_in_field` answers for a field, given the cache. */
    function FieldMask(cache: map<string, seq<bool>>, p: Pointing): seq<bool> {
      if p.name in cache then cache[p.name] else RadialSearch(p.center, p.radius)
    }

    /** The cache after that call: the computed mask is stored only on a miss. */
    function Remember(cache: map<string, seq<bool>>, p: Pointing): map<string, seq<bool>> {
      if p.name in cache then cache else cache[p.name := RadialSearch(p.center, p.radius)]
    }

    /** The masks a list of fields gives, one call after another, and the final cache. */
    function Walk(cache: map<string, seq<bool>>, fields: seq<Pointing>): (r: (seq<seq<bool>>, map<string, seq<bool>>))
      requires |coords| == |catalogid| && WellSized(cache)
      ensures |r.0| == |fields| && WellSized(r.1)
      ensures forall k :: 0 <= k < |fields| ==> |r.0[k]| == |catalogid|
      ensures forall n :: n in cache ==> n in r.1 && r.1[n] == cache[n]
    {
      if fields == [] then ([], cache)
      else
        var prev := Walk(cache, fields[..|fields| - 1]);
        var p := fields[|fields| - 1];
        (prev.0 + [FieldMask(prev.1, p)], Remember(prev.1, p))
    }

    /** The cached lookup shared by fields and plates. */
    method LookupAvailable(p: Pointing) returns (m: seq<bool>)
      requires Valid()
      modifies this
      ensures Valid()
      ensures m == FieldMask(old(availableIndx), p)
      ensures availableIndx == Remember(old(availableIndx), p) && assignedIndx == old(assignedIndx)
      ensures p.name in old(availableIndx) ==> m == old(availableIndx)[p.name] && availableIndx == old(availableIndx)
      ensures p.name !in old(availableIndx) ==>
        m == RadialSearch(p.center, p.radius) && availableIndx == old(availableIndx)[p.name := m]
    {
      m := if p.name in availableIndx then availableIndx[p.name] else RadialSearch(p.center, p.radius);
      if p.name !in availableIndx {
        availableIndx := availableIndx[p.name := m];
      }
    }

    /** `_available_in_field`: a groups platerun gives None and stores nothing; a
        five_plates platerun has no `center`; a plate has no `name` column. */
    method AvailableInField(region: Region) returns (r: Availability)
      requires Valid()
      modifies this
      ensures Valid() && assignedIndx == old(assignedIndx)
      ensures region.FieldOf? ==>
        r == Mask(FieldMask(old(availableIndx), region.p)) && availableIndx == Remember(old(availableIndx), region.p)
      ensures region.PlaterunOf? && region.kind == GroupsPlaterun ==> r == NoneValue && availableIndx == old(availableIndx)
      ensures region.PlaterunOf? && region.kind == FivePlatesPlaterun ==>
        r == Failed(AttributeError("center")) && availableIndx == old(availableIndx)
      ensures region.PlateOf? ==> r == Failed(KeyError("name")) && availableIndx == old(availableIndx)
      ensures region.PlateRunOf? ==> r == Failed(AttributeError("center")) && availableIndx == old(availableIndx)
    {
      match region
      case PlaterunOf(kind, _, _, _) =>
        if kind == GroupsPlaterun {
          return NoneValue;
        }
        return Failed(AttributeError("center"));
      case PlateOf(_) =>
        return Failed(KeyError("name"));
      case PlateRunOf(_) =>
        return Failed(AttributeError("center"));
      case FieldOf(p) =>
        var m := LookupAvailable(p);
        return Mask(m);
    }

    /** `_available_in_platerun`: the OR of what `available_in` gives for each field. */
    method AvailableInPlaterun(fields: seq<Pointing>) returns (r: Result<seq<bool>, TargetsError>)
      requires Valid()
      modifies this
      ensures Valid() && assignedIndx == old(assignedIndx)
      ensures availableIndx == Walk(old(availableIndx), fields).1
      ensures fields == [] ==> r == Err(ReduceTypeError)
      ensures fields != [] ==> r == Ok(OrAll(Walk(old(availableIndx), fields).0, |catalogid|))
    {
      var indxAll: seq<seq<bool>> := [];
      for i := 0 to |fields|
        invariant Valid() && assignedIndx == old(assignedIndx)
        invariant (indxAll, availableIndx) == Walk(old(availableIndx), fields[..i])
      {
        assert fields[..i + 1][..i] == fields[..i];
        var m := LookupAvailable(fields[i]);
        indxAll := indxAll + [m];
      }
      assert fields[..|fields|] == fields;
      if indxAll == [] {
        return Err(ReduceTypeError);
      }
      return Ok(OrAll(indxAll, |catalogid|));
    }

    /** `available_in`: plateruns of either kind go to the platerun path. */
    method AvailableIn(region: Region) returns (r: Result<seq<bool>, TargetsError>)
      requires Valid()
      modifies this
      ensures Valid() && assignedIndx == old(assignedIndx)
      ensures region.FieldOf? ==>
        r == Ok(FieldMask(old(availableIndx), region.p)) && availableIndx == Remember(old(availableIndx), region.p)
      ensures region.PlateOf? ==> r == Err(KeyError("name")) && availableIndx == old(availableIndx)
      ensures region.PlateRunOf? ==> r == Err(AttributeError("center")) && availableIndx == old(availableIndx)
      ensures region.PlaterunOf? ==> availableIndx == Walk(old(availableIndx), region.fields).1
      ensures region.PlaterunOf? && region.fields == [] ==> r == Err(ReduceTypeError)
      ensures region.PlaterunOf? && region.fields != [] ==>
        r == Ok(OrAll(Walk(old(availableIndx), region.fields).0, |catalogid|))
    {
      match region
      case PlaterunOf(_, _, fields, _) =>
        r := AvailableInPlaterun(fields);
      case PlateOf(_) =>
        r := Err(KeyError("name"));
      case PlateRunOf(_) =>
        r := Err(AttributeError("center"));
      case FieldOf(p) =>
        var m := LookupAvailable(p);
        r := Ok(m);
    }

    /** `_within`: which targets have a catalogid among `ids`. */
    function Within(ids: seq<int>): (r: seq<bool>)
      ensures |r| == |catalogid| && forall i :: 0 <= i < |catalogid| ==> (r[i] <==> catalogid[i] in ids)
    {
      In1d(catalogid, ids)
    }

    /** The name and target catalogids `assigned_in` reads, or the failed lookup. */
    function NameAndIds(region: Region): Result<(string, seq<int>), TargetsError> {
      match region
      case FieldOf(p) => Ok((p.name, p.catalogids))
      case PlaterunOf(_, name, _, ids) => Ok((name, ids))
      case PlateOf(_) => Err(KeyError("name"))
      case PlateRunOf(_) => Err(AttributeError("targets"))
    }

    /** `assigned_in`: membership of each target's catalogid in the object's targets,
        stored under the object's name on the first call. */
    method AssignedIn(region: Region) returns (r: Result<seq<bool>, TargetsError>)
      requires Valid()
      modifies this
      ensures Valid() && availableIndx == old(availableIndx)
      ensures NameAndIds(region).Err? ==> r == Err(NameAndIds(region).error) && assignedIndx == old(assignedIndx)
      ensures NameAndIds(region).Ok? ==>
        var (name, ids) := NameAndIds(region).value;
        && r.Ok? && name in assignedIndx && r.value == assignedIndx[name]
        && (name in old(assignedIndx) ==> assignedIndx == old(assignedIndx))
        && (name !in old(assignedIndx) ==> assignedIndx == old(assignedIndx)[name := Within(ids)])
    {
      var key := NameAndIds(region);
      if key.Err? {
        return Err(key.error);
      }
      var (name, ids) := key.value;
      var indx := if name in assignedIndx then assignedIndx[name] else Within(ids);
      if name !in assignedIndx {
        assignedIndx := assignedIndx[name := indx];
      }
      return Ok(indx);
    }

    /** `not_assigned_in`: `available_in_platerun` is not an attribute, so the
        `available_in` fallback always runs; the answer is available and not assigned. */
    method NotAssignedIn(region: Region) returns (r: Result<seq<bool>, TargetsError>)
      requires Valid()
      modifies this
      ensures Valid()
      ensures r.Ok? ==> NameAndIds(region).Ok? && NameAndIds(region).value.0 in assignedIndx
      ensures r.Ok? ==>
        var taken := assignedIndx[NameAndIds(region).value.0];
        && |r.value| == |catalogid| == |taken|
        && forall i :: 0 <= i < |catalogid| ==> (r.value[i] ==> !taken[i])
      ensures region.FieldOf? ==>
        && r.Ok?
        && r.value == AndNot(FieldMask(old(availableIndx), region.p), assignedIndx[region.p.name])
      ensures region.PlateOf? ==> r == Err(KeyError("name"))
      ensures region.PlateRunOf? ==> r == Err(AttributeError("targets")) && availableIndx == old(availableIndx)
    {
      var assignedMask := AssignedIn(region);
      if assignedMask.Err? {
        return Err(assignedMask.error);
      }
      var available := AvailableIn(region);
      if available.Err? {
        return Err(available.error);
      }
      return Ok(AndNot(available.value, assignedMask.value));
    }

    /** Fields sharing a name in a platerun also share their circle. */
    ghost predicate NamesDetermine(fields: seq<Pointing>) {
      forall j, k :: 0 <= j < |fields| && 0 <= k < |fields| && fields[j].name == fields[k].name ==>
        fields[j].center == fields[k].center && fields[j].radius == fields[k].radius
    }

    /** Every cached entry for a field's name is that field's radial search. */
    ghost predicate Agrees(cache: map<string, seq<bool>>, fields: seq<Pointing>) {
      forall k :: 0 <= k < |fields| && fields[k].name in cache ==>
        cache[fields[k].name] == RadialSearch(fields[k].center, fields[k].radius)
    }

    /** With a cache that agrees with the fields, each field's mask is its own radial search. */
    lemma {:induction false} WalkIsRadial(cache: map<string, seq<bool>>, fields: seq<Pointing>)
      requires |coords| == |catalogid| && WellSized(cache)
      requires NamesDetermine(fields) && Agrees(cache, fields)
      ensures forall k :: 0 <= k < |fields| ==> Walk(cache, fields).0[k] == RadialSearch(fields[k].center, fields[k].radius)
      ensures Agrees(Walk(cache, fields).1, fields)
      decreases |fields|
    {
      if fields != [] {
        var init := fields[..|fields| - 1];
        var p := fields[|fields| - 1];
        assert NamesDetermine(init);
        assert Agrees(cache, init) by {
          forall k | 0 <= k < |init| && init[k].name in cache
            ensures cache[init[k].name] == RadialSearch(init[k].center, init[k].radius)
          {
            assert init[k] == fields[k];
          }
        }
        WalkIsRadial(cache, init);
        var prev := Walk(cache, init);
        forall k | 0 <= k < |fields| && fields[k].name in prev.1
          ensures prev.1[fields[k].name] == RadialSearch(fields[k].center, fields[k].radius)
        {
          if fields[k].name in cache {
          } else {
            var j := FirstWithName(prev.1, cache, init, fields[k].name);
            assert init[j] == fields[j];
          }
        }
      }
    }

    /** A name the walk added to the cache belongs to one of the fields walked. */
    lemma {:induction false} FirstWithName(c: map<string, seq<bool>>, cache: map<string, seq<bool>>, fields: seq<Pointing>, n: string)
      returns (j: nat)
      requires |coords| == |catalogid| && WellSized(cache)
      requires c == Walk(cache, fields).1 && n in c && n !in cache
      ensures j < |fields| && fields[j].name == n
      decreases |fields|
    {
      var init := fields[..|fields| - 1];
      var p := fields[|fields| - 1];
      if p.name == n {
        j := |fields| - 1;
      } else {
        j := FirstWithName(Walk(cache, init).1, cache, init, n);
      }
    }

    /** A target is available in a platerun exactly when it lies strictly inside the
        circle of one of its fields, whenever the cache agrees with those fields. */
    lemma PlaterunAvailability(cache: map<string, seq<bool>>, fields: seq<Pointing>, i: nat)
      requires |coords| == |catalogid| && WellSized(cache) && fields != [] && i < |catalogid|
      requires NamesDetermine(fields) && Agrees(cache, fields)
      ensures OrAll(Walk(cache, fields).0, |catalogid|)[i] <==>
        exists k :: 0 <= k < |fields| && separation(coords[i], fields[k].center) < fields[k].radius
    {
      WalkIsRadial(cache, fields);
      var masks := Walk(cache, fields).0;
      if OrAll(masks, |catalogid|)[i] {
        var k :| 0 <= k < |masks| && masks[k][i];
        assert separation(coords[i], fields[k].center) < fields[k].radius;
      }
      if exists k :: 0 <= k < |fields| && separation(coords[i], fields[k].center) < fields[k].radius {
        var k :| 0 <= k < |fields| && separation(coords[i], fields[k].center) < fields[k].radius;
        assert masks[k][i];
      }
    }
  }
}
