/**
 * Distinct random id selection. `Math.random` is modelled as the finite
 * stream of values in [0, 1) it returns on successive calls; the selection
 * loop consumes draws until it holds `count` distinct ids.
 */
module RandomIds {
  import opened Wrappers
  import opened Constants

  predicate ValidDraws(draws: seq<real>) {
    forall i :: 0 <= i < |draws| ==> 0.0 <= draws[i] < 1.0
  }

  predicate NoDuplicates(s: seq<int>) {
    forall i, j :: 0 <= i < j < |s| ==> s[i] != s[j]
  }

  predicate InIdRange(s: seq<int>) {
    forall i :: 0 <= i < |s| ==> 1 <= s[i] <= MaxPokemonId
  }

  /** `Math.floor(u * MAX_POKEMON_ID) + 1` for one random value `u`. */
  function DrawId(u: real): (id: int)
    requires 0.0 <= u < 1.0
    ensures 1 <= id <= MaxPokemonId
  {
    var scaled := u * MaxPokemonId as real;
    assert scaled < MaxPokemonId as real;
    scaled.Floor + 1
  }

  function DrawnIds(draws: seq<real>): (ids: seq<int>)
    requires ValidDraws(draws)
    ensures |ids| == |draws| && InIdRange(ids)
    ensures forall i :: 0 <= i < |draws| ==> ids[i] == DrawId(draws[i])
  {
    seq(|draws|, i requires 0 <= i < |draws| => DrawId(draws[i]))
  }

  /** The distinct values of `s` in order of first appearance: the iteration order of a `Set` filled from `s`. */
  function Distinct(s: seq<int>): (r: seq<int>)
    ensures NoDuplicates(r)
    ensures forall x :: x in r <==> x in s
    decreases |s|
  {
    if s == [] then []
    else
      var d := Distinct(s[..|s| - 1]);
      var x := s[|s| - 1];
      assert forall y :: y in s <==> y in s[..|s| - 1] || y == x by {
        assert s == s[..|s| - 1] + [x];
      }
      if x in d then d else d + [x]
  }

  /** Selecting from a prefix of the draws yields a prefix of the full selection. */
  lemma {:induction false} DistinctPrefix(s: seq<int>, i: nat)
    requires i <= |s|
    ensures |Distinct(s[..i])| <= |Distinct(s)|
    ensures Distinct(s[..i]) == Distinct(s)[..|Distinct(s[..i])|]
    decreases |s| - i
  {
    if i < |s| {
      var t := s[..|s| - 1];
      assert t[..i] == s[..i];
      DistinctPrefix(t, i);
    } else {
      assert s[..i] == s;
    }
  }

  /** The ids 1 to n, in order. */
  function Iota(n: nat): (r: seq<int>)
    ensures |r| == n && NoDuplicates(r)
    ensures forall x :: x in r <==> 1 <= x <= n
  {
    var r := seq(n, i requires 0 <= i < n => i + 1);
    forall x | 1 <= x <= n
      ensures x in r
    {
      assert r[x - 1] == x;
    }
    r
  }

  lemma {:induction false} DistinctSetCardinality(s: seq<int>)
    requires NoDuplicates(s)
    ensures |set x | x in s| == |s|
    decreases |s|
  {
    if s != [] {
      var t := s[..|s| - 1];
      DistinctSetCardinality(t);
      assert (set x | x in s) == (set x | x in t) + {s[|s| - 1]};
      assert s[|s| - 1] !in t;
    }
  }

  lemma SubsetCardinality(a: set<int>, b: set<int>)
    requires a <= b
    ensures |a| <= |b|
  {
    assert b == a + (b - a);
  }

  /** At most `MAX_POKEMON_ID` distinct ids can ever be drawn. */
  lemma DistinctDrawsBounded(draws: seq<real>)
    requires ValidDraws(draws)
    ensures |Distinct(DrawnIds(draws))| <= MaxPokemonId
  {
    var ds := DrawnIds(draws);
    var d := Distinct(ds);
    var ids := Iota(MaxPokemonId);
    DistinctSetCardinality(d);
    DistinctSetCardinality(ids);
    assert forall x :: x in d ==> x in ds;
    SubsetCardinality(set x | x in d, set x | x in ids);
  }

  /**
   * Returns the first `count` distinct ids of the draws (none when `count` is
   * not positive), or `None` when the draws run out first: the source would
   * then go on calling `Math.random`.
   */
  method GetRandomPokemonIds(count: int, draws: seq<real>) returns (r: Option<seq<int>>)
    requires ValidDraws(draws)
    ensures var d := Distinct(DrawnIds(draws));
      r == if count <= 0 then Some([]) else if |d| >= count then Some(d[..count]) else None
    ensures r.Some? ==> NoDuplicates(r.value) && InIdRange(r.value)
    ensures r.Some? ==> |r.value| == if count <= 0 then 0 else count
  {
    ghost var ds := DrawnIds(draws);
    var ids: seq<int> := [];
    var i := 0;
    while |ids| < count
      invariant 0 <= i <= |draws|
      invariant ids == Distinct(ds[..i])
      invariant count > 0 ==> |ids| <= count
      invariant count <= 0 ==> ids == []
      decreases |draws| - i
    {
      if i == |draws| {
        assert ds[..i] == ds;
        return None;
      }
      var id := DrawId(draws[i]);
      assert ds[..i + 1][..i] == ds[..i];
      if id !in ids {
        ids := ids + [id];
      }
      i := i + 1;
    }
    DistinctPrefix(ds, i);
    assert forall k :: 0 <= k < |ids| ==> ids[k] in ds[..i];
    if count > 0 {
      assert |ids| == count;
      assert ids == Distinct(ds)[..count];
    }
    r := Some(ids);
  }

  /**
   * With more ids requested than exist, no sequence of draws ends the
   * selection: the source loops forever.
   */
  lemma RandomIdsNeedCountAtMostMax(count: int, draws: seq<real>)
    requires ValidDraws(draws) && count > MaxPokemonId
    ensures |Distinct(DrawnIds(draws))| < count
  {
    DistinctDrawsBounded(draws);
  }
}
