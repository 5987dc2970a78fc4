/** The flame's spark buffer. While the flame is excited an interval adds a
    spark every 80 ms; whenever the number of sparks changes a 900 ms
    timeout is (re)started that drops the oldest one. Sparks are opaque
    values; timer firings are events. */
module Flame {

  /** How many of the previous sparks an append keeps (`slice(-15)`). */
  const Kept: nat := 15

  /** The most sparks the buffer can ever hold. */
  const Capacity: nat := Kept + 1

  function Min(a: int, b: int): int { if a <= b then a else b }

  /** JavaScript's `a.slice(start)`: a negative start counts from the end,
      and either kind is clamped to the array. */
  function JsSlice<S>(a: seq<S>, start: int): (r: seq<S>)
    ensures start < 0 ==> r == a[|a| - Min(|a|, -start)..]
    ensures start >= 0 ==> r == a[Min(|a|, start)..]
  {
    var from := if start < 0 then (if |a| + start < 0 then 0 else |a| + start)
                else (if start > |a| then |a| else start);
    a[from..]
  }

  /** `[...prev.slice(-15), s]`: the last 15 sparks, in their order, then
      the new one. */
  function Appended<S>(prev: seq<S>, s: S): (r: seq<S>)
    ensures |r| == Min(|prev|, Kept) + 1 && |r| <= Capacity
    ensures r[|r| - 1] == s
    ensures r[..|r| - 1] == prev[|prev| - Min(|prev|, Kept)..]
  {
    JsSlice(prev, -(Kept as int)) + [s]
  }

  /** `prev.slice(1)`: the oldest spark removed, the rest in order. */
  function Dropped<S>(prev: seq<S>): (r: seq<S>)
    ensures prev != [] ==> |r| == |prev| - 1 && r == prev[1..]
    ensures prev == [] ==> r == []
  {
    JsSlice(prev, 1)
  }

  /** The last `n` elements of `a` (all of them when there are fewer). */
  function Last<S>(a: seq<S>, n: nat): seq<S>
  {
    a[|a| - Min(|a|, n)..]
  }

  /** Each interval tick appends one spark. */
  function AppendAll<S>(prev: seq<S>, xs: seq<S>): seq<S>
    decreases |xs|
  {
    if xs == [] then prev else AppendAll(Appended(prev, xs[0]), xs[1..])
  }

  /** One append is the window of the 16 most recent sparks. */
  lemma AppendedIsLast<S>(prev: seq<S>, x: S)
    ensures Appended(prev, x) == Last(prev + [x], Capacity)
  {
    var r := Appended(prev, x);
    var w := Last(prev + [x], Capacity);
    assert |w| == |r|;
    forall i | 0 <= i < |r| ensures r[i] == w[i] {
      if i < |r| - 1 {
        assert r[i] == r[..|r| - 1][i];
      }
    }
  }

  /** The buffer is a sliding window: after one or more ticks it holds
      exactly the 16 most recent sparks (all of them while there are
      fewer), in the order they were added. */
  lemma {:induction false} AppendAllIsWindow<S>(prev: seq<S>, xs: seq<S>)
    requires xs != []
    ensures AppendAll(prev, xs) == Last(prev + xs, Capacity)
    decreases |xs|
  {
    var next := Appended(prev, xs[0]);
    AppendedIsLast(prev, xs[0]);
    if xs[1..] != [] {
      AppendAllIsWindow(next, xs[1..]);
      LastOfLast(prev + [xs[0]], xs[1..]);
      assert prev + [xs[0]] + xs[1..] == prev + xs;
    } else {
      assert xs == [xs[0]];
    }
  }

  /** Taking the window of a window and then more elements is the window of
      everything. */
  lemma LastOfLast<S>(a: seq<S>, b: seq<S>)
    requires b != []
    ensures Last(Last(a, Capacity) + b, Capacity) == Last(a + b, Capacity)
  {
    var w := Last(a, Capacity);
    var n := Min(|w + b|, Capacity);
    assert n == Min(|a + b|, Capacity);
    forall i | 0 <= i < n
      ensures Last(w + b, Capacity)[i] == Last(a + b, Capacity)[i]
    {
      var k := |w + b| - n + i;
      if k >= |w| {
        assert (w + b)[k] == b[k - |w|] == (a + b)[|a + b| - n + i];
      } else {
        assert (w + b)[k] == w[k] == a[|a| - |w| + k] == (a + b)[|a + b| - n + i];
      }
    }
  }

  /** The component's state and its two timers. */
  class SparkBuffer<S> {
    var isExcited: bool
    var sparks: seq<S>
    /** whether the spark interval is set */
    var intervalRunning: bool
    /** whether a cleanup timeout is set */
    var cleanupPending: bool

    ghost predicate Valid()
      reads this
    {
      && |sparks| <= Capacity
      && intervalRunning == isExcited
      && cleanupPending == (|sparks| > 0)
    }

    /** The drop hint ("Drop here to release") is shown only while the
        flame is calm. */
    predicate ShowsDropHint()
      reads this
    {
      !isExcited
    }

    /** Mounting: no sparks, and the interval is set when mounted excited. */
    constructor (isExcited: bool)
      ensures Valid() && this.isExcited == isExcited && sparks == []
    {
      this.isExcited := isExcited;
      sparks := [];
      intervalRunning := isExcited;
      cleanupPending := false;
    }

    /** A new `isExcited` prop. The effect clears the old interval and sets
        a new one only when the flame becomes excited; sparks stay. */
    method SetExcited(e: bool)
      requires Valid()
      modifies this
      ensures Valid() && isExcited == e && intervalRunning == e
      ensures sparks == old(sparks) && cleanupPending == old(cleanupPending)
    {
      if e != isExcited {
        isExcited := e;
        intervalRunning := e;
      }
    }

    /** The cleanup effect keyed on `sparks.length`: it re-runs only when
        the length changed, clearing the pending timeout and setting a new
        one unless there are no sparks. */
    method SparksChanged(oldLength: nat)
      requires |sparks| <= Capacity && intervalRunning == isExcited
      requires oldLength == |sparks| ==> cleanupPending == (|sparks| > 0)
      modifies this`cleanupPending
      ensures Valid()
    {
      if |sparks| != oldLength {
        cleanupPending := |sparks| > 0;
      }
    }

    /** An interval tick: only while the interval is set, that is while the
        flame is excited. */
    method IntervalTick(s: S)
      requires Valid() && intervalRunning
      modifies this
      ensures Valid() && isExcited && !ShowsDropHint()
      ensures sparks == Appended(old(sparks), s)
      ensures isExcited == old(isExcited) && intervalRunning == old(intervalRunning)
    {
      var before := |sparks|;
      sparks := Appended(sparks, s);
      SparksChanged(before);
    }

    /** The cleanup timeout fires: it is only ever set while there are
        sparks, and drops the oldest. */
    method CleanupTimeout()
      requires Valid() && cleanupPending
      modifies this
      ensures Valid()
      ensures old(sparks) != [] && sparks == old(sparks)[1..]
      ensures isExcited == old(isExcited) && intervalRunning == old(intervalRunning)
    {
      var before := |sparks|;
      sparks := Dropped(sparks);
      SparksChanged(before);
    }
  }
}
