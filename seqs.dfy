/**
 * The shape shared by the passes that walk a list, update each entry and
 * drop some: map each entry to an optional new entry and keep the present
 * ones, in order.
 */
module Seqs {

  import opened Wrappers

  function FilterMap<T, U>(s: seq<T>, f: T -> Option<U>): (r: seq<U>)
    ensures |r| <= |s|
    decreases |s|
  {
    if s == [] then []
    else
      var n := |s| - 1;
      FilterMap(s[..n], f) + (if f(s[n]).Some? then [f(s[n]).value] else [])
  }

  /**
   * Every kept entry comes from its own original entry, originals are taken
   * in increasing order (so survivors keep their relative order and none is
   * visited twice), and an original is kept exactly when `f` keeps it.
   */
  lemma {:induction false} FilterMapOrigins<T, U>(s: seq<T>, f: T -> Option<U>) returns (idx: seq<nat>)
    ensures |idx| == |FilterMap(s, f)|
    ensures forall t :: 0 <= t < |idx| ==> idx[t] < |s| && f(s[idx[t]]) == Some(FilterMap(s, f)[t])
    ensures forall t, u :: 0 <= t < u < |idx| ==> idx[t] < idx[u]
    ensures forall j :: 0 <= j < |s| ==> (f(s[j]).Some? <==> j in idx)
    decreases |s|
  {
    if s == [] {
      idx := [];
    } else {
      var n := |s| - 1;
      var pre := FilterMapOrigins(s[..n], f);
      assert forall j :: 0 <= j < n ==> s[..n][j] == s[j];
      idx := pre + (if f(s[n]).Some? then [n] else []);
    }
  }

  /** Appending one entry appends at most its image. */
  lemma FilterMapSnoc<T, U>(s: seq<T>, x: T, f: T -> Option<U>)
    ensures FilterMap(s + [x], f) == FilterMap(s, f) + (if f(x).Some? then [f(x).value] else [])
  {
    assert (s + [x])[..|s|] == s;
  }

  /**
   * One step of a pass that walks a list from the back and updates or
   * removes entry `i` in place: the part still to visit stays the
   * original prefix, and the visited tail is the image of what was visited.
   */
  lemma FilterMapBackStep<T>(es: seq<T>, cur: seq<T>, i: nat, f: T -> Option<T>, target: seq<T>, out: seq<T>)
    requires i < |es| && i < |cur| && cur[..i + 1] == es[..i + 1]
    requires FilterMap(es[..i + 1], f) + cur[i + 1..] == target
    requires out == if f(es[i]).Some? then cur[i := f(es[i]).value] else cur[..i] + cur[i + 1..]
    ensures out[..i] == es[..i]
    ensures FilterMap(es[..i], f) + out[i..] == target
  {
    assert es[..i + 1][..i] == es[..i];
    assert cur[..i] == es[..i];
    assert cur[i] == es[i] by { assert cur[..i + 1][i] == es[..i + 1][i]; }
    if f(es[i]).Some? {
      var v := f(es[i]).value;
      assert FilterMap(es[..i + 1], f) == FilterMap(es[..i], f) + [v];
      assert out[i..] == [v] + cur[i + 1..];
      assert out[..i] == cur[..i];
    } else {
      assert FilterMap(es[..i + 1], f) == FilterMap(es[..i], f);
      assert out[i..] == cur[i + 1..];
      assert out[..i] == cur[..i];
    }
  }
}
