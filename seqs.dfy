/** The numpy and astropy array operations the core uses, stated on sequences:
    `np.where(a == x)`, integer and boolean indexing, `np.in1d`, element-wise
    `|` and `& ~` on masks, `vstack` (concatenation) and duplicate removal. */
module Seqs {

  /** Ascending indices i with lo <= i < |a| and a[i] == x. */
  function WhereFrom<T(==)>(a: seq<T>, x: T, lo: nat): (r: seq<nat>)
    requires lo <= |a|
    ensures forall k :: 0 <= k < |r| ==> lo <= r[k] < |a|
    decreases |a| - lo
  {
    if lo == |a| then []
    else if a[lo] == x then [lo] + WhereFrom(a, x, lo + 1)
    else WhereFrom(a, x, lo + 1)
  }

  lemma {:induction false} WhereFromHits<T>(a: seq<T>, x: T, lo: nat)
    requires lo <= |a|
    ensures forall k :: 0 <= k < |WhereFrom(a, x, lo)| ==> a[WhereFrom(a, x, lo)[k]] == x
    decreases |a| - lo
  {
    if lo < |a| {
      WhereFromHits(a, x, lo + 1);
    }
  }

  lemma {:induction false} WhereFromAscending<T>(a: seq<T>, x: T, lo: nat)
    requires lo <= |a|
    ensures forall j, k :: 0 <= j < k < |WhereFrom(a, x, lo)| ==> WhereFrom(a, x, lo)[j] < WhereFrom(a, x, lo)[k]
    decreases |a| - lo
  {
    if lo < |a| {
      WhereFromAscending(a, x, lo + 1);
    }
  }

  lemma {:induction false} WhereFromComplete<T>(a: seq<T>, x: T, lo: nat)
    requires lo <= |a|
    ensures forall i :: lo <= i < |a| && a[i] == x ==> i in WhereFrom(a, x, lo)
    decreases |a| - lo
  {
    if lo < |a| {
      WhereFromComplete(a, x, lo + 1);
    }
  }

  /** `np.where(a == x)[0]`. */
  function Where<T(==)>(a: seq<T>, x: T): (r: seq<nat>)
    ensures forall k :: 0 <= k < |r| ==> r[k] < |a| && a[r[k]] == x
    ensures forall j, k :: 0 <= j < k < |r| ==> r[j] < r[k]
    ensures forall i :: 0 <= i < |a| && a[i] == x ==> i in r
  {
    WhereFromHits(a, x, 0);
    WhereFromAscending(a, x, 0);
    WhereFromComplete(a, x, 0);
    WhereFrom(a, x, 0)
  }

  predicate InRange(idx: seq<nat>, n: nat) {
    forall k :: 0 <= k < |idx| ==> idx[k] < n
  }

  predicate Distinct<T(==)>(s: seq<T>) {
    forall j, k :: 0 <= j < k < |s| ==> s[j] != s[k]
  }

  /** Integer-array indexing `a[idx]`. */
  function Select<T>(a: seq<T>, idx: seq<nat>): (r: seq<T>)
    requires InRange(idx, |a|)
    ensures |r| == |idx| && forall k :: 0 <= k < |idx| ==> r[k] == a[idx[k]]
  {
    if idx == [] then [] else [a[idx[0]]] + Select(a, idx[1..])
  }

  lemma SelectAppend<T>(a: seq<T>, p: seq<nat>, q: seq<nat>)
    requires InRange(p, |a|) && InRange(q, |a|)
    ensures InRange(p + q, |a|) && Select(a, p + q) == Select(a, p) + Select(a, q)
  {
  }

  /** Positions into `a` renumbered for `a` without its element at `i0`. */
  function Shift(rest: seq<nat>, i0: nat): (r: seq<nat>)
    requires forall k :: 0 <= k < |rest| ==> rest[k] != i0
    ensures |r| == |rest|
    ensures forall k :: 0 <= k < |rest| ==> r[k] == if rest[k] < i0 then rest[k] else rest[k] - 1
  {
    seq(|rest|, k requires 0 <= k < |rest| => if rest[k] < i0 then rest[k] else rest[k] - 1)
  }

  lemma ShiftSelects<T>(a: seq<T>, rest: seq<nat>, i0: nat)
    requires i0 < |a| && InRange(rest, |a|) && forall k :: 0 <= k < |rest| ==> rest[k] != i0
    ensures InRange(Shift(rest, i0), |a| - 1)
    ensures Select(a[..i0] + a[i0 + 1..], Shift(rest, i0)) == Select(a, rest)
  {
    var a' := a[..i0] + a[i0 + 1..];
    var sh := Shift(rest, i0);
    forall k | 0 <= k < |rest| ensures sh[k] < |a'| && a'[sh[k]] == a[rest[k]] {
      if rest[k] < i0 {
        assert a'[sh[k]] == a[..i0][rest[k]];
      } else {
        assert a'[sh[k]] == a[i0 + 1..][rest[k] - i0 - 1];
      }
    }
  }

  lemma ShiftDistinct(rest: seq<nat>, i0: nat)
    requires Distinct(rest) && forall k :: 0 <= k < |rest| ==> rest[k] != i0
    ensures Distinct(Shift(rest, i0))
  {
    var sh := Shift(rest, i0);
    forall j, k | 0 <= j < k < |sh| ensures sh[j] != sh[k] {
      assert rest[j] != rest[k];
    }
  }

  /** Rows picked at distinct positions form a sub-multiset of the table. */
  lemma {:induction false} SelectDistinctSubMultiset<T>(a: seq<T>, idx: seq<nat>)
    requires InRange(idx, |a|) && Distinct(idx)
    ensures multiset(Select(a, idx)) <= multiset(a)
    decreases |idx|
  {
    if idx != [] {
      var i0 := idx[0];
      var rest := idx[1..];
      assert forall k :: 0 <= k < |rest| ==> rest[k] == idx[k + 1];
      assert forall k :: 0 <= k < |rest| ==> rest[k] != i0;
      var a' := a[..i0] + a[i0 + 1..];
      ShiftSelects(a, rest, i0);
      ShiftDistinct(rest, i0);
      SelectDistinctSubMultiset(a', Shift(rest, i0));
      MultisetRemove(a, i0);
      assert Select(a, idx) == [a[i0]] + Select(a, rest);
    }
  }

  /** Boolean-mask indexing `a[m]`. */
  function Compress<T>(a: seq<T>, m: seq<bool>): (r: seq<T>)
    requires |m| == |a|
    ensures |r| <= |a| && multiset(r) <= multiset(a)
  {
    if a == [] then []
    else
      assert a == [a[0]] + a[1..];
      (if m[0] then [a[0]] else []) + Compress(a[1..], m[1..])
  }

  /** Indexing by a mask selects the same rows as indexing by `np.where(mask)`. */
  lemma {:induction false} CompressIsSelectWhere<T>(a: seq<T>, m: seq<bool>)
    requires |m| == |a|
    ensures Compress(a, m) == Select(a, Where(m, true))
  {
    CompressFrom(a, m, 0);
  }

  lemma {:induction false} CompressFrom<T>(a: seq<T>, m: seq<bool>, lo: nat)
    requires |m| == |a| && lo <= |a|
    ensures Compress(a[lo..], m[lo..]) == Select(a, WhereFrom(m, true, lo))
    decreases |a| - lo
  {
    if lo < |a| {
      CompressFrom(a, m, lo + 1);
      CompressStep(a, m, lo);
      if m[lo] {
        SelectHit(a, m, lo);
      } else {
        assert WhereFrom(m, true, lo) == WhereFrom(m, true, lo + 1);
      }
    }
  }

  /** A set mask bit at `lo` puts `a[lo]` in front of the later selected rows. */
  lemma SelectHit<T>(a: seq<T>, m: seq<bool>, lo: nat)
    requires |m| == |a| && lo < |a| && m[lo]
    ensures Select(a, WhereFrom(m, true, lo)) == [a[lo]] + Select(a, WhereFrom(m, true, lo + 1))
  {
    var rest := WhereFrom(m, true, lo + 1);
    assert WhereFrom(m, true, lo) == [lo] + rest;
    assert ([lo] + rest)[1..] == rest;
  }

  lemma CompressStep<T>(a: seq<T>, m: seq<bool>, lo: nat)
    requires |m| == |a| && lo < |a|
    ensures Compress(a[lo..], m[lo..]) == (if m[lo] then [a[lo]] else []) + Compress(a[lo + 1..], m[lo + 1..])
  {
    assert a[lo..][1..] == a[lo + 1..] && m[lo..][1..] == m[lo + 1..];
  }

  /** `np.in1d(a, b)`: one flag per element of `a`, whether it occurs in `b`. */
  function In1d<T(==)>(a: seq<T>, b: seq<T>): (r: seq<bool>)
    ensures |r| == |a| && forall i :: 0 <= i < |a| ==> r[i] == (a[i] in b)
  {
    if a == [] then [] else [a[0] in b] + In1d(a[1..], b)
  }

  /** Element-wise `a | b`. */
  function Or(a: seq<bool>, b: seq<bool>): (r: seq<bool>)
    requires |a| == |b|
    ensures |r| == |a| && forall i :: 0 <= i < |a| ==> (r[i] <==> a[i] || b[i])
  {
    if a == [] then [] else [a[0] || b[0]] + Or(a[1..], b[1..])
  }

  /** Element-wise `a & ~b`. */
  function AndNot(a: seq<bool>, b: seq<bool>): (r: seq<bool>)
    requires |a| == |b|
    ensures |r| == |a| && forall i :: 0 <= i < |a| ==> (r[i] <==> a[i] && !b[i])
  {
    if a == [] then [] else [a[0] && !b[0]] + AndNot(a[1..], b[1..])
  }

  /** `vstack` of a list of tables: their rows, one table after another. */
  function Flatten<T>(ss: seq<seq<T>>): seq<T>
  {
    if ss == [] then [] else Flatten(ss[..|ss| - 1]) + ss[|ss| - 1]
  }

  lemma FlattenSnoc<T>(ss: seq<seq<T>>, s: seq<T>)
    ensures Flatten(ss + [s]) == Flatten(ss) + s
  {
    assert (ss + [s])[..|ss|] == ss;
  }

  function TotalLength<T>(ss: seq<seq<T>>): nat
  {
    if ss == [] then 0 else TotalLength(ss[..|ss| - 1]) + |ss[|ss| - 1]|
  }

  lemma {:induction false} FlattenFacts<T>(ss: seq<seq<T>>)
    ensures |Flatten(ss)| == TotalLength(ss)
    ensures multiset(Flatten(ss)) == FlattenMultiset(ss)
    ensures forall x :: x in Flatten(ss) ==> exists i :: 0 <= i < |ss| && x in ss[i]
    ensures forall i, x :: 0 <= i < |ss| && x in ss[i] ==> x in Flatten(ss)
  {
    if ss != [] {
      var init := ss[..|ss| - 1];
      FlattenFacts(init);
      forall x | x in Flatten(ss) ensures exists i :: 0 <= i < |ss| && x in ss[i] {
        if x in Flatten(init) {
          var i :| 0 <= i < |init| && x in init[i];
          assert x in ss[i];
        } else {
          assert x in ss[|ss| - 1];
        }
      }
      forall i, x | 0 <= i < |ss| && x in ss[i] ensures x in Flatten(ss) {
        if i < |ss| - 1 { assert x in init[i]; }
      }
    }
  }

  function FlattenMultiset<T>(ss: seq<seq<T>>): multiset<T>
  {
    if ss == [] then multiset{} else FlattenMultiset(ss[..|ss| - 1]) + multiset(ss[|ss| - 1])
  }

  /** Removes repeated elements, keeping each first occurrence in place. */
  function Dedup<T(==,!new)>(s: seq<T>): (r: seq<T>)
    ensures Distinct(r)
    ensures forall x :: x in r <==> x in s
  {
    if s == [] then []
    else
      var d := Dedup(s[..|s| - 1]);
      var last := s[|s| - 1];
      assert forall x :: x in s <==> x in s[..|s| - 1] || x == last;
      if last in d then d else d + [last]
  }

  /** Removing the element at j removes one occurrence of it. */
  lemma MultisetRemove<T>(s: seq<T>, j: nat)
    requires j < |s|
    ensures multiset(s[..j] + s[j + 1..]) == multiset(s) - multiset{s[j]}
  {
    assert s == s[..j] + [s[j]] + s[j + 1..];
  }

  /** In two permutations of each other, the first element of one occurs in the other,
      and the rests are again permutations. */
  lemma RemoveFirst<T>(a: seq<T>, b: seq<T>) returns (j: nat)
    requires multiset(a) == multiset(b) && a != []
    ensures j < |b| && b[j] == a[0]
    ensures multiset(a[1..]) == multiset(b[..j] + b[j + 1..])
  {
    assert a == [a[0]] + a[1..];
    assert multiset(a) == multiset{a[0]} + multiset(a[1..]);
    assert a[0] in multiset(b);
    assert a[0] in b;
    j :| 0 <= j < |b| && b[j] == a[0];
    MultisetRemove(b, j);
  }
}
