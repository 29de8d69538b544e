/** `simulate_platedesign` (src/ppv/process.py): a greedy estimate of which science
    targets of a five_plates field receive a fibre. Priority groups are visited in
    ascending `order_priority`; each instrument has a fibre goal (300 APOGEE, 500 BOSS,
    whatever the caller passes); a group that fits is taken whole, a group that does not
    fit gives a random draw of exactly the remaining number of rows, and an instrument
    that is full takes nothing more while the other instrument still can.

    The table comes already grouped (`fp_targets.group_by('order_priority').groups`),
    group i holding the rows of priority i: the source reads `groups[priority]` by
    position, which is the group of key `priority` only when the keys are 0..k-1.
    The random draw `np.random.choice(n, k, replace=False)` is the first k entries of a
    permutation of 0..n-1 supplied per group by the caller. */
module Process {
  import opened Wrappers
  import opened Seqs
  import opened Sorting

  datatype Target = Target(catalogid: int, instrument: string, orderPriority: int, ttype: int)

  datatype SimError =
    | UnknownInstrument(instrument: string)  // `nSCI_needed[instrument_]` raises KeyError
    | NoTablesToStack                         // `vstack([])` raises ValueError

  const Apogee: string := "apogee"
  const Boss: string := "boss"

  /** The goals the loop uses; the `nSCI_apogee`/`nSCI_boss` arguments are overwritten. */
  function Goals(): map<string, int> {
    map[Apogee := 300, Boss := 500]
  }

  /** The loop state: `nSCI_assigned` and the `assigned_targets` list of tables. */
  datatype Tally = Tally(counts: map<string, int>, taken: seq<seq<Target>>)

  function Start(): Tally {
    Tally(map[Apogee := 0, Boss := 0], [])
  }

  /** A non-empty group whose rows share one instrument and one `Type`. */
  predicate Homogeneous(g: seq<Target>) {
    |g| > 0 && forall j :: 0 <= j < |g| ==> g[j].instrument == g[0].instrument && g[j].ttype == g[0].ttype
  }

  predicate WellGrouped(groups: seq<seq<Target>>) {
    forall i :: 0 <= i < |groups| ==>
      Homogeneous(groups[i]) && forall j :: 0 <= j < |groups[i]| ==> groups[i][j].orderPriority == i
  }

  predicate IsPermutation(p: seq<nat>, n: nat) {
    |p| == n && InRange(p, n) && Distinct(p)
  }

  predicate Draws(groups: seq<seq<Target>>, perms: seq<seq<nat>>) {
    |perms| == |groups| && forall i :: 0 <= i < |groups| ==> IsPermutation(perms[i], |groups[i]|)
  }

  /** Number of rows of `rows` for instrument `inst`. */
  function CountOf(rows: seq<Target>, inst: string): nat
  {
    if rows == [] then 0
    else CountOf(rows[..|rows| - 1], inst) + (if rows[|rows| - 1].instrument == inst then 1 else 0)
  }

  lemma {:induction false} CountAppend(a: seq<Target>, b: seq<Target>, inst: string)
    ensures CountOf(a + b, inst) == CountOf(a, inst) + CountOf(b, inst)
    decreases |b|
  {
    if b != [] {
      assert (a + b)[..|a + b| - 1] == a + b[..|b| - 1];
      assert (a + b)[|a + b| - 1] == b[|b| - 1];
      CountAppend(a, b[..|b| - 1], inst);
    } else {
      assert a + b == a;
    }
  }

  lemma {:induction false} CountUniform(rows: seq<Target>, inst: string, other: string)
    requires forall x :: x in rows ==> x.instrument == inst
    requires other != inst
    ensures CountOf(rows, inst) == |rows| && CountOf(rows, other) == 0
    decreases |rows|
  {
    if rows != [] {
      assert rows[|rows| - 1] in rows;
      CountUniform(rows[..|rows| - 1], inst, other);
    }
  }

  lemma {:induction false} CountPermutation(a: seq<Target>, b: seq<Target>, inst: string)
    requires multiset(a) == multiset(b)
    ensures CountOf(a, inst) == CountOf(b, inst)
    decreases |a|
  {
    if a != [] {
      var x := a[|a| - 1];
      var a' := a[..|a| - 1];
      assert a == a' + [x];
      assert x in multiset(b);
      var j :| 0 <= j < |b| && b[j] == x;
      var b' := b[..j] + b[j + 1..];
      assert b == b[..j] + [x] + b[j + 1..];
      assert multiset(a') == multiset(a) - multiset{x};
      assert multiset(b') == multiset(b) - multiset{x};
      CountPermutation(a', b', inst);
      CountAppend(a', [x], inst);
      CountAppend(b[..j], [x], inst);
      CountAppend(b[..j] + [x], b[j + 1..], inst);
      CountAppend(b[..j], b[j + 1..], inst);
      assert CountOf([x], inst) == CountOf([], inst) + (if x.instrument == inst then 1 else 0);
    }
  }

  /** What every reachable state satisfies: both counters within their goals, each equal
      to the number of taken rows of its instrument, and nothing else taken. */
  ghost predicate Inv(t: Tally) {
    && t.counts.Keys == {Apogee, Boss}
    && 0 <= t.counts[Apogee] <= 300
    && 0 <= t.counts[Boss] <= 500
    && CountOf(Flatten(t.taken), Apogee) == t.counts[Apogee]
    && CountOf(Flatten(t.taken), Boss) == t.counts[Boss]
    && |Flatten(t.taken)| == t.counts[Apogee] + t.counts[Boss]
  }

  /** One iteration of the loop over priority groups. */
  function Step(t: Tally, group: seq<Target>, perm: seq<nat>): (r: Result<Tally, SimError>)
    requires Homogeneous(group) && IsPermutation(perm, |group|) && t.counts.Keys == Goals().Keys
    ensures r.Err? <==> group[0].ttype == 0 && group[0].instrument !in Goals()
    ensures r.Err? ==> r.error == UnknownInstrument(group[0].instrument)
    ensures r.Ok? ==> r.value.counts.Keys == t.counts.Keys && t.taken <= r.value.taken
  {
    var instrument := group[0].instrument;
    if group[0].ttype != 0 then Ok(t)
    else if instrument !in Goals() then Err(UnknownInstrument(instrument))
    else
      var needed := Goals()[instrument] - t.counts[instrument];
      if |group| <= needed then
        Ok(Tally(t.counts[instrument := t.counts[instrument] + |group|], t.taken + [group]))
      else if needed > 0 then
        Ok(Tally(t.counts[instrument := t.counts[instrument] + needed],
                 t.taken + [Select(group, perm[..needed])]))
      else
        Ok(t)
  }

  /** The counters after appending rows of one instrument. */
  lemma BlockCounts(f: seq<Target>, block: seq<Target>, inst: string, other: string)
    requires forall x :: x in block ==> x.instrument == inst
    requires other != inst
    ensures CountOf(f + block, inst) == CountOf(f, inst) + |block|
    ensures CountOf(f + block, other) == CountOf(f, other)
  {
    CountUniform(block, inst, other);
    CountAppend(f, block, inst);
    CountAppend(f, block, other);
  }

  /** Taking a block of one instrument's rows that fits its goal keeps the invariant. */
  lemma TakeBlock(t: Tally, block: seq<Target>, inst: string)
    requires Inv(t) && inst in Goals() && forall x :: x in block ==> x.instrument == inst
    requires t.counts[inst] + |block| <= Goals()[inst]
    ensures Inv(Tally(t.counts[inst := t.counts[inst] + |block|], t.taken + [block]))
  {
    var other := if inst == Apogee then Boss else Apogee;
    FlattenSnoc(t.taken, block);
    BlockCounts(Flatten(t.taken), block, inst, other);
  }

  /** A draw of the rows still needed keeps the invariant. */
  lemma DrawKeepsInv(t: Tally, group: seq<Target>, perm: seq<nat>)
    requires Homogeneous(group) && IsPermutation(perm, |group|) && Inv(t)
    requires group[0].ttype == 0 && group[0].instrument in Goals()
    requires 0 < Goals()[group[0].instrument] - t.counts[group[0].instrument] < |group|
    ensures Step(t, group, perm).Ok? && Inv(Step(t, group, perm).value)
  {
    var inst := group[0].instrument;
    var idx := perm[..Goals()[inst] - t.counts[inst]];
    var block := Select(group, idx);
    forall x | x in block ensures x.instrument == inst {
      var j :| 0 <= j < |block| && block[j] == x;
      assert x == group[idx[j]];
    }
    assert Step(t, group, perm) == Ok(Tally(t.counts[inst := t.counts[inst] + |block|], t.taken + [block]));
    TakeBlock(t, block, inst);
  }

  /** Every step from a state satisfying `Inv` that does not fail reaches one. */
  lemma StepKeepsInv(t: Tally, group: seq<Target>, perm: seq<nat>)
    requires Inv(t) && Homogeneous(group) && IsPermutation(perm, |group|)
    ensures Step(t, group, perm).Ok? ==> Inv(Step(t, group, perm).value)
  {
    var inst := group[0].instrument;
    if group[0].ttype == 0 && inst in Goals() {
      var needed := Goals()[inst] - t.counts[inst];
      if |group| <= needed {
        WholeGroupTaken(t, group, perm);
      } else if needed > 0 {
        DrawKeepsInv(t, group, perm);
      }
    }
  }

  /** The loop after its first k iterations, or the error it stopped at. */
  function Run(groups: seq<seq<Target>>, perms: seq<seq<nat>>, k: nat): (r: Result<Tally, SimError>)
    requires WellGrouped(groups) && Draws(groups, perms) && k <= |groups|
    ensures r.Ok? ==> r.value.counts.Keys == Goals().Keys
  {
    if k == 0 then Ok(Start())
    else
      var prev := Run(groups, perms, k - 1);
      if prev.Err? then prev
      else Step(prev.value, groups[k - 1], perms[k - 1])
  }

  /** Every state the loop reaches satisfies `Inv`. */
  lemma {:induction false} RunKeepsInv(groups: seq<seq<Target>>, perms: seq<seq<nat>>, k: nat)
    requires WellGrouped(groups) && Draws(groups, perms) && k <= |groups|
    ensures Run(groups, perms, k).Ok? ==> Inv(Run(groups, perms, k).value)
  {
    if k > 0 {
      RunKeepsInv(groups, perms, k - 1);
      var prev := Run(groups, perms, k - 1);
      if prev.Ok? {
        StepKeepsInv(prev.value, groups[k - 1], perms[k - 1]);
      }
    }
  }

  /** An exception ends the loop: the later groups change nothing. */
  lemma {:induction false} ErrorStops(groups: seq<seq<Target>>, perms: seq<seq<nat>>, k: nat, m: nat)
    requires WellGrouped(groups) && Draws(groups, perms) && k <= m <= |groups|
    requires Run(groups, perms, k).Err?
    ensures Run(groups, perms, m) == Run(groups, perms, k)
    decreases m - k
  {
    if k < m {
      ErrorStops(groups, perms, k, m - 1);
    }
  }

  predicate ByCatalogId(a: Target, b: Target) {
    a.catalogid <= b.catalogid
  }

  /** `vstack(assigned_targets)` sorted by catalogid, after the whole loop. */
  function Simulate(groups: seq<seq<Target>>, perms: seq<seq<nat>>): (r: Result<seq<Target>, SimError>)
    requires WellGrouped(groups) && Draws(groups, perms)
    ensures r.Ok? ==> Run(groups, perms, |groups|).Ok?
    ensures r.Ok? ==> multiset(r.value) == multiset(Flatten(Run(groups, perms, |groups|).value.taken))
    ensures r.Ok? ==> SortedBy(r.value, ByCatalogId)
    ensures Run(groups, perms, |groups|).Ok? && Run(groups, perms, |groups|).value.taken == [] ==> r == Err(NoTablesToStack)
  {
    match Run(groups, perms, |groups|)
    case Err(e) => Err(e)
    case Ok(t) =>
      if t.taken == [] then Err(NoTablesToStack)
      else
        assert TotalPreorder(ByCatalogId);
        Ok(SortBy(Flatten(t.taken), ByCatalogId))
  }

  /** The source's loop, with the `nSCI_goal`, `nSCI_assigned` and `nSCI_needed` dicts. */
  method SimulatePlateDesign(fpGroups: seq<seq<Target>>, perms: seq<seq<nat>>, nSciApogee: int, nSciBoss: int)
    returns (r: Result<seq<Target>, SimError>)
    requires WellGrouped(fpGroups) && Draws(fpGroups, perms)
    ensures r == Simulate(fpGroups, perms)
    ensures r.Ok? ==> |r.value| <= 800
    ensures r.Ok? ==> forall i, j :: 0 <= i < j < |r.value| ==> r.value[i].catalogid <= r.value[j].catalogid
  {
    var nSciGoal := map[Apogee := 300, Boss := 500];
    var nSciAssigned := map[Apogee := 0, Boss := 0];
    var nSciNeeded: map<string, int> := map[];
    var assignedTargets: seq<seq<Target>> := [];
    for ii := 0 to |fpGroups|
      invariant nSciGoal == Goals()
      invariant nSciAssigned.Keys == {Apogee, Boss}
      invariant nSciNeeded.Keys <= {Apogee, Boss}
      invariant Run(fpGroups, perms, ii) == Ok(Tally(nSciAssigned, assignedTargets))
    {
      ghost var before := Tally(nSciAssigned, assignedTargets);
      assert Homogeneous(fpGroups[ii]) && IsPermutation(perms[ii], |fpGroups[ii]|);
      assert Run(fpGroups, perms, ii + 1) == Step(before, fpGroups[ii], perms[ii]);
      nSciNeeded := nSciNeeded[Apogee := nSciGoal[Apogee] - nSciAssigned[Apogee]];
      nSciNeeded := nSciNeeded[Boss := nSciGoal[Boss] - nSciAssigned[Boss]];
      assert nSciNeeded.Keys == Goals().Keys;
      assert forall k | k in Goals() :: nSciNeeded[k] == Goals()[k] - nSciAssigned[k];
      var consider := fpGroups[ii];
      var instrument := consider[0].instrument;
      var nRows := |consider|;
      var targetType := consider[0].ttype;
      if targetType != 0 {
        continue;
      }
      if instrument !in nSciNeeded {
        r := Err(UnknownInstrument(instrument));
        ErrorStops(fpGroups, perms, ii + 1, |fpGroups|);
        return;
      }
      if nRows <= nSciNeeded[instrument] {
        assignedTargets := assignedTargets + [consider];
        nSciAssigned := nSciAssigned[instrument := nSciAssigned[instrument] + nRows];
        assert Step(before, consider, perms[ii]) == Ok(Tally(nSciAssigned, assignedTargets));
      } else if nSciNeeded[instrument] > 0 {
        var keepRowsIndx := perms[ii][..nSciNeeded[instrument]];
        assignedTargets := assignedTargets + [Select(consider, keepRowsIndx)];
        nSciAssigned := nSciAssigned[instrument := nSciAssigned[instrument] + |keepRowsIndx|];
        assert Step(before, consider, perms[ii]) == Ok(Tally(nSciAssigned, assignedTargets));
      } else {
        assert Step(before, consider, perms[ii]) == Ok(before);
      }
    }
    if assignedTargets == [] {
      return Err(NoTablesToStack);
    }
    assert TotalPreorder(ByCatalogId);
    r := Ok(SortBy(Flatten(assignedTargets), ByCatalogId));
    CapacityBound(fpGroups, perms);
  }

  /** No instrument receives more rows than its goal, so at most 800 rows come out. */
  lemma CapacityBound(groups: seq<seq<Target>>, perms: seq<seq<nat>>)
    requires WellGrouped(groups) && Draws(groups, perms)
    ensures var r := Simulate(groups, perms);
      r.Ok? ==> CountOf(r.value, Apogee) <= 300 && CountOf(r.value, Boss) <= 500 && |r.value| <= 800
  {
    var r := Simulate(groups, perms);
    if r.Ok? {
      var t := Run(groups, perms, |groups|).value;
      RunKeepsInv(groups, perms, |groups|);
      assert Apogee in Goals() && Boss in Goals();
      assert multiset(r.value) == multiset(Flatten(t.taken));
      CountPermutation(r.value, Flatten(t.taken), Apogee);
      CountPermutation(r.value, Flatten(t.taken), Boss);
      assert |r.value| == |multiset(r.value)| == |Flatten(t.taken)|;
    }
  }

  /** A group whose `Type` is not 0 (sky or standard) is skipped. */
  lemma NonScienceGroupSkipped(t: Tally, group: seq<Target>, perm: seq<nat>)
    requires Homogeneous(group) && IsPermutation(perm, |group|) && t.counts.Keys == Goals().Keys
    requires group[0].ttype != 0
    ensures Step(t, group, perm) == Ok(t)
  {
  }

  /** A science group that fits in what its instrument still needs is taken whole. */
  lemma WholeGroupTaken(t: Tally, group: seq<Target>, perm: seq<nat>)
    requires Homogeneous(group) && IsPermutation(perm, |group|) && Inv(t)
    requires group[0].ttype == 0 && group[0].instrument in Goals()
    requires |group| <= Goals()[group[0].instrument] - t.counts[group[0].instrument]
    ensures var s := Step(t, group, perm);
      && s.Ok? && s.value.taken == t.taken + [group]
      && s.value.counts[group[0].instrument] == t.counts[group[0].instrument] + |group|
      && Inv(s.value)
  {
    var inst := group[0].instrument;
    forall x | x in group ensures x.instrument == inst {
      var j :| 0 <= j < |group| && group[j] == x;
    }
    TakeBlock(t, group, inst);
  }

  /** A science group larger than what is still needed gives a random draw of exactly
      that many distinct rows of the group, and its instrument reaches its goal. */
  lemma RandomDrawFillsGoal(t: Tally, group: seq<Target>, perm: seq<nat>)
    requires Homogeneous(group) && IsPermutation(perm, |group|) && t.counts.Keys == Goals().Keys
    requires group[0].ttype == 0 && group[0].instrument in Goals()
    requires 0 < Goals()[group[0].instrument] - t.counts[group[0].instrument] < |group|
    ensures var s := Step(t, group, perm);
      var inst := group[0].instrument;
      && s.Ok? && |s.value.taken| == |t.taken| + 1 && s.value.taken[..|t.taken|] == t.taken
      && |s.value.taken[|t.taken|]| == Goals()[inst] - t.counts[inst]
      && multiset(s.value.taken[|t.taken|]) <= multiset(group)
      && s.value.counts[inst] == Goals()[inst]
      && (forall other | other in Goals() && other != inst :: s.value.counts[other] == t.counts[other])
  {
    var inst := group[0].instrument;
    var needed := Goals()[inst] - t.counts[inst];
    var idx := perm[..needed];
    var block := Select(group, idx);
    assert Step(t, group, perm) == Ok(Tally(t.counts[inst := Goals()[inst]], t.taken + [block]));
    assert Distinct(idx) && InRange(idx, |group|);
    SelectDistinctSubMultiset(group, idx);
    assert (t.taken + [block])[..|t.taken|] == t.taken;
  }

  /** A step either leaves the taken tables alone or appends one non-empty table whose
      rows are distinct rows of the group. */
  lemma StepAppends(t: Tally, group: seq<Target>, perm: seq<nat>) returns (block: seq<Target>)
    requires Homogeneous(group) && IsPermutation(perm, |group|) && t.counts.Keys == Goals().Keys
    ensures Step(t, group, perm).Ok? ==>
      || Step(t, group, perm).value.taken == t.taken
      || (&& Step(t, group, perm).value.taken == t.taken + [block]
          && |block| > 0 && multiset(block) <= multiset(group))
  {
    block := group;
    var inst := group[0].instrument;
    if group[0].ttype == 0 && inst in Goals() {
      var needed := Goals()[inst] - t.counts[inst];
      if needed < |group| && needed > 0 {
        block := Select(group, perm[..needed]);
        SelectDistinctSubMultiset(group, perm[..needed]);
      }
    }
  }

  /** An instrument that has reached its goal takes nothing from its next groups. */
  lemma FullInstrumentTakesNothing(t: Tally, group: seq<Target>, perm: seq<nat>)
    requires Homogeneous(group) && IsPermutation(perm, |group|) && Inv(t)
    requires group[0].instrument in Goals() && t.counts[group[0].instrument] == Goals()[group[0].instrument]
    ensures Step(t, group, perm) == Ok(t)
  {
  }

  /** The loop only appends: earlier tables stay as they were and no counter decreases. */
  lemma {:induction false} RunGrows(groups: seq<seq<Target>>, perms: seq<seq<nat>>, k: nat, m: nat)
    requires WellGrouped(groups) && Draws(groups, perms) && k <= m <= |groups|
    requires Run(groups, perms, m).Ok?
    ensures Run(groups, perms, k).Ok?
    ensures var a := Run(groups, perms, k).value; var b := Run(groups, perms, m).value;
      && |a.taken| <= |b.taken| && b.taken[..|a.taken|] == a.taken
      && forall inst | inst in Goals() :: a.counts[inst] <= b.counts[inst]
    decreases m - k
  {
    if k < m {
      RunGrows(groups, perms, k, m - 1);
    }
  }

  /** Once an instrument is full it stays full until the end. */
  lemma FullStaysFull(groups: seq<seq<Target>>, perms: seq<seq<nat>>, k: nat, inst: string)
    requires WellGrouped(groups) && Draws(groups, perms) && k <= |groups| && inst in Goals()
    requires Run(groups, perms, k).Ok? && Run(groups, perms, k).value.counts[inst] == Goals()[inst]
    ensures Run(groups, perms, |groups|).Ok? ==> Run(groups, perms, |groups|).value.counts[inst] == Goals()[inst]
  {
    if Run(groups, perms, |groups|).Ok? {
      RunGrows(groups, perms, k, |groups|);
      RunKeepsInv(groups, perms, |groups|);
    }
  }

  /** The tables taken after k groups: each is non-empty, holds rows of one priority
      below k, and their priorities strictly increase. */
  ghost predicate InPriorityOrder(taken: seq<seq<Target>>, k: nat) {
    && (forall i :: 0 <= i < |taken| ==>
          (&& |taken[i]| > 0 && taken[i][0].orderPriority < k
           && forall j :: 0 <= j < |taken[i]| ==> taken[i][j].orderPriority == taken[i][0].orderPriority))
    && (forall i, j :: 0 <= i < j < |taken| ==> taken[i][0].orderPriority < taken[j][0].orderPriority)
  }

  /** Appending a table of priority `p` to tables of priorities below `p`. */
  lemma InPriorityOrderAppend(taken: seq<seq<Target>>, block: seq<Target>, p: nat)
    requires InPriorityOrder(taken, p)
    requires |block| > 0 && forall j :: 0 <= j < |block| ==> block[j].orderPriority == p
    ensures InPriorityOrder(taken + [block], p + 1)
  {
    var t: seq<seq<Target>> := taken + [block];
    forall i: int | 0 <= i < |t|
      ensures |t[i]| > 0 && t[i][0].orderPriority < p + 1
      ensures forall j :: 0 <= j < |t[i]| ==> t[i][j].orderPriority == t[i][0].orderPriority
    {
      if i < |taken| { assert t[i] == taken[i]; } else { assert t[i] == block; }
    }
    forall i: int, j: int | 0 <= i < j < |t| ensures t[i][0].orderPriority < t[j][0].orderPriority {
      assert t[i] == taken[i];
      if j < |taken| { assert t[j] == taken[j]; } else { assert t[j] == block; }
    }
  }

  /** Groups are visited by ascending priority, and each contributes at most one table. */
  lemma {:induction false} TakenInPriorityOrder(groups: seq<seq<Target>>, perms: seq<seq<nat>>, k: nat)
    requires WellGrouped(groups) && Draws(groups, perms) && k <= |groups|
    ensures Run(groups, perms, k).Ok? ==> InPriorityOrder(Run(groups, perms, k).value.taken, k)
  {
    if k > 0 {
      TakenInPriorityOrder(groups, perms, k - 1);
      var prev := Run(groups, perms, k - 1);
      if prev.Ok? && Run(groups, perms, k).Ok? {
        var block := StepAppends(prev.value, groups[k - 1], perms[k - 1]);
        assert Run(groups, perms, k) == Step(prev.value, groups[k - 1], perms[k - 1]);
        if Run(groups, perms, k).value.taken != prev.value.taken {
          forall j | 0 <= j < |block| ensures block[j].orderPriority == k - 1 {
            assert block[j] in multiset(groups[k - 1]);
          }
          InPriorityOrderAppend(prev.value.taken, block, k - 1);
        }
      }
    }
  }

  /** One step takes rows of its group only. */
  lemma StepTakesFromGroup(t: Tally, group: seq<Target>, perm: seq<nat>)
    requires Homogeneous(group) && IsPermutation(perm, |group|) && t.counts.Keys == Goals().Keys
    ensures Step(t, group, perm).Ok? ==>
      multiset(Flatten(Step(t, group, perm).value.taken)) <= multiset(Flatten(t.taken)) + multiset(group)
  {
    var block := StepAppends(t, group, perm);
    FlattenSnoc(t.taken, block);
  }

  /** Blocks drawn from earlier groups, then rows of the next group. */
  lemma SubMultisetSnoc(before: seq<seq<Target>>, g: seq<Target>, taken: seq<seq<Target>>, taken': seq<seq<Target>>)
    requires multiset(Flatten(taken)) <= multiset(Flatten(before))
    requires multiset(Flatten(taken')) <= multiset(Flatten(taken)) + multiset(g)
    ensures multiset(Flatten(taken')) <= multiset(Flatten(before + [g]))
  {
    FlattenSnoc(before, g);
  }

  /** Every row taken is a row of an input group, and no row is taken twice. */
  lemma {:induction false} TakenFromInput(groups: seq<seq<Target>>, perms: seq<seq<nat>>, k: nat)
    requires WellGrouped(groups) && Draws(groups, perms) && k <= |groups|
    ensures Run(groups, perms, k).Ok? ==>
      multiset(Flatten(Run(groups, perms, k).value.taken)) <= multiset(Flatten(groups[..k]))
  {
    if k > 0 {
      TakenFromInput(groups, perms, k - 1);
      var prev := Run(groups, perms, k - 1);
      if prev.Ok? {
        var next := Step(prev.value, groups[k - 1], perms[k - 1]);
        StepTakesFromGroup(prev.value, groups[k - 1], perms[k - 1]);
        if next.Ok? {
          assert groups[..k] == groups[..k - 1] + [groups[k - 1]];
          SubMultisetSnoc(groups[..k - 1], groups[k - 1], prev.value.taken, next.value.taken);
        }
      }
    }
  }

  /** The simulated plate holds rows of the input, sorted by catalogid, with no row twice. */
  lemma ResultFromInput(groups: seq<seq<Target>>, perms: seq<seq<nat>>)
    requires WellGrouped(groups) && Draws(groups, perms)
    ensures var r := Simulate(groups, perms);
      r.Ok? ==>
        (&& |r.value| > 0 && multiset(r.value) <= multiset(Flatten(groups))
         && forall i, j :: 0 <= i < j < |r.value| ==> r.value[i].catalogid <= r.value[j].catalogid)
  {
    var r := Simulate(groups, perms);
    if r.Ok? {
      TakenFromInput(groups, perms, |groups|);
      TakenInPriorityOrder(groups, perms, |groups|);
      var taken := Run(groups, perms, |groups|).value.taken;
      assert groups[..|groups|] == groups;
      FlattenFacts(taken);
      assert taken[0][0] in taken[0];
      assert taken[0][0] in Flatten(taken);
    }
  }

  /** A science group of an instrument without a goal stops the simulation with KeyError. */
  lemma UnknownInstrumentFails(groups: seq<seq<Target>>, perms: seq<seq<nat>>, k: nat)
    requires WellGrouped(groups) && Draws(groups, perms) && k < |groups|
    requires Run(groups, perms, k).Ok?
    requires groups[k][0].ttype == 0 && groups[k][0].instrument !in Goals()
    ensures Simulate(groups, perms) == Err(UnknownInstrument(groups[k][0].instrument))
  {
    ErrorStops(groups, perms, k + 1, |groups|);
  }

  /** With no science group at all there is nothing to stack: ValueError. */
  lemma {:induction false} NoScienceRaises(groups: seq<seq<Target>>, perms: seq<seq<nat>>, k: nat)
    requires WellGrouped(groups) && Draws(groups, perms) && k <= |groups|
    requires forall i :: 0 <= i < |groups| ==> groups[i][0].ttype != 0
    ensures Run(groups, perms, k) == Ok(Start())
    ensures k == |groups| ==> Simulate(groups, perms) == Err(NoTablesToStack)
  {
    if k > 0 {
      NoScienceRaises(groups, perms, k - 1);
    }
  }
}
