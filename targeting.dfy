/**
 * The nearest-enemy scan that both the combat system (a tower's range) and
 * the tower manager (no limit: `Infinity`) run: keep the best distance so
 * far and replace it only on a strictly smaller one, so ties go to the
 * earlier enemy.
 */
module Targeting {

  import opened Wrappers
  import opened Geometry
  import opened Entities

  /** The starting `minDistance` of a scan: a range, or `Infinity`. */
  datatype Limit = Below(bound: real) | Unlimited

  predicate Within(d: real, lim: Limit)
  {
    lim.Unlimited? || d < lim.bound
  }

  /**
   * Entry `k` is the scan's pick: within the limit, strictly nearer than
   * every earlier entry and no farther than any later one.
   */
  predicate IsNearest(ds: seq<real>, lim: Limit, k: nat)
  {
    && k < |ds|
    && Within(ds[k], lim)
    && (forall j :: 0 <= j < k ==> ds[j] > ds[k])
    && (forall j :: k < j < |ds| ==> ds[j] >= ds[k])
  }

  /** The index the scan picks among the distances `ds`, if any. */
  function Nearest(ds: seq<real>, lim: Limit): (r: Option<nat>)
    ensures r.Some? ==> IsNearest(ds, lim, r.value)
    ensures r.None? <==> forall j :: 0 <= j < |ds| ==> !Within(ds[j], lim)
    decreases |ds|
  {
    if ds == [] then None
    else
      var n := |ds| - 1;
      var best := Nearest(ds[..n], lim);
      assert forall j :: 0 <= j < n ==> ds[..n][j] == ds[j];
      var bar := if best.Some? then Below(ds[best.value]) else lim;
      if Within(ds[n], bar) then Some(n) else best
  }

  /** The pick is the only index with the nearest-first property. */
  lemma NearestUnique(ds: seq<real>, lim: Limit, k: nat)
    requires IsNearest(ds, lim, k)
    ensures Nearest(ds, lim) == Some(k)
  {
    assert Within(ds[k], lim);
  }

  /**
   * Scanning without a limit and then accepting the pick only below `bound`
   * picks the same enemy as scanning with `bound` as the limit.
   */
  lemma UnlimitedThenBound(ds: seq<real>, bound: real)
    ensures var r := Nearest(ds, Unlimited);
      (if r.Some? && ds[r.value] < bound then r else None) == Nearest(ds, Below(bound))
  {
    var r := Nearest(ds, Unlimited);
    if r.Some? {
      if ds[r.value] < bound {
        NearestUnique(ds, Below(bound), r.value);
      } else {
        assert forall j :: 0 <= j < |ds| ==> ds[j] >= ds[r.value];
      }
    }
  }

  /** A scan without a limit finds an enemy iff there is one. */
  lemma UnlimitedFindsAny(ds: seq<real>)
    ensures Nearest(ds, Unlimited).Some? <==> |ds| > 0
  {
    if |ds| > 0 {
      assert Within(ds[0], Unlimited);
    }
  }

  /** The distance from `pos` to every enemy, in list order. */
  function Distances(pos: Vec3, es: seq<Enemy>, m: Maths): (ds: seq<real>)
    ensures |ds| == |es|
    ensures forall i :: 0 <= i < |es| ==> ds[i] == m.dist(pos, es[i].pos)
  {
    seq(|es|, i requires 0 <= i < |es| => m.dist(pos, es[i].pos))
  }

  /** The scan loop itself: `if (distance < minDistance)` over the enemies. */
  method ScanNearest(pos: Vec3, es: seq<Enemy>, m: Maths, lim: Limit) returns (target: Option<nat>)
    ensures target == Nearest(Distances(pos, es, m), lim)
  {
    ghost var ds := Distances(pos, es, m);
    target := None;
    var minDistance := lim;
    for i := 0 to |es|
      invariant target == Nearest(ds[..i], lim)
      invariant minDistance == if target.Some? then Below(ds[target.value]) else lim
    {
      assert ds[..i + 1][..i] == ds[..i];
      var distance := m.dist(pos, es[i].pos);
      if Within(distance, minDistance) {
        minDistance := Below(distance);
        target := Some(i);
      }
    }
    assert ds[..|es|] == ds;
  }
}
