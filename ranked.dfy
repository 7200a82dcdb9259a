/** The one search every fallback chain of the bots performs: walk a ranked
    list, stop at the first entry that succeeds, and never look at the entries
    after it (`for x in xs: ... if ok: break`). */
module Ranked {
  import opened Oracle

  /** Position of the first entry of `xs` for which `hit` holds. */
  function FirstHit<T>(xs: seq<T>, hit: T -> bool): (k: Option<nat>)
    ensures k.Some? ==> k.value < |xs| && hit(xs[k.value])
    ensures k.Some? ==> forall j | 0 <= j < k.value :: !hit(xs[j])
    ensures k.None? <==> forall j | 0 <= j < |xs| :: !hit(xs[j])
    decreases |xs|
  {
    if |xs| == 0 then None
    else if hit(xs[0]) then Some(0)
    else match FirstHit(xs[1..], hit)
      case None => None
      case Some(i) => Some(i + 1)
  }

  /** The entries a search that ended with `k` has looked at, in order: all
      of them up to and including the winner, or the whole list. */
  function Consulted<T>(xs: seq<T>, k: Option<nat>): seq<T>
    requires k.Some? ==> k.value < |xs|
  {
    if k.Some? then xs[..k.value + 1] else xs
  }

  /** The loop itself.  It returns the winner and the entries it consulted;
      nothing after the winner is consulted. */
  method FirstWins<T>(xs: seq<T>, hit: T -> bool) returns (k: Option<nat>, tried: seq<T>)
    ensures k == FirstHit(xs, hit)
    ensures tried == Consulted(xs, k)
  {
    k, tried := None, [];
    var i := 0;
    while i < |xs|
      invariant 0 <= i <= |xs|
      invariant tried == xs[..i]
      invariant forall j | 0 <= j < i :: !hit(xs[j])
    {
      tried := tried + [xs[i]];
      if hit(xs[i]) {
        k := Some(i);
        return;
      }
      i := i + 1;
    }
  }

  /** Shifting a position found in the tail of a list. */
  function Shift(k: Option<nat>, n: nat): Option<nat> {
    if k.Some? then Some(k.value + n) else None
  }

  /** Searching a concatenation: the second list is only reached when the
      first has no winner.  This is "the alternatives are consulted only when
      the primary selector fails". */
  lemma {:induction false} FirstHitAppend<T>(xs: seq<T>, ys: seq<T>, hit: T -> bool)
    ensures FirstHit(xs + ys, hit) ==
      if FirstHit(xs, hit).Some? then FirstHit(xs, hit) else Shift(FirstHit(ys, hit), |xs|)
  {
    var k := FirstHit(xs + ys, hit);
    if FirstHit(xs, hit).Some? {
      var i := FirstHit(xs, hit).value;
      assert (xs + ys)[i] == xs[i];
      assert forall j | 0 <= j < i :: (xs + ys)[j] == xs[j];
    } else {
      var m := FirstHit(ys, hit);
      assert forall j | 0 <= j < |xs| :: (xs + ys)[j] == xs[j];
      assert forall j | 0 <= j < |ys| :: (xs + ys)[|xs| + j] == ys[j];
      if m.Some? {
        assert (xs + ys)[|xs| + m.value] == ys[m.value];
        assert k.Some?;
        assert k.value >= |xs|;
      }
    }
  }
}
