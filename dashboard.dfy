/**
 * The rolling history behind the sensor dashboard's plot: each timer tick
 * appends the newest reading, drops the oldest once more than 50 are kept,
 * and hands the plot a 50-point series (the history, then zeros) against the
 * fixed x axis 0..49.
 */
module Dashboard {

  /** Points on the fixed x axis, and the most readings the history keeps. */
  const Capacity: nat := 50

  /** `list(range(n))`. */
  function Range(n: nat): (r: seq<int>)
    ensures |r| == n
    ensures forall i | 0 <= i < n :: r[i] == i
  {
    if n == 0 then [] else Range(n - 1) + [n - 1]
  }

  /** `[0] * n`: n zeros, and none when n is not positive. */
  function Zeros(n: int): (r: seq<real>)
    ensures |r| == if n <= 0 then 0 else n
    ensures forall i | 0 <= i < |r| :: r[i] == 0.0
  {
    if n <= 0 then [] else Zeros(n - 1) + [0.0]
  }

  /** The history after one tick: the reading appended, then the oldest popped if over capacity. */
  function Pushed(h: seq<real>, v: real): (r: seq<real>)
    ensures |r| > 0 && r[|r| - 1] == v
    ensures |h| < Capacity ==> r == h + [v]
    ensures |h| == Capacity ==> r == h[1..] + [v]
    ensures |h| <= Capacity ==> |r| <= Capacity
  {
    var a := h + [v];
    if |a| > Capacity then a[1..] else a
  }

  /** The y values plotted for a history: the history, padded with zeros up to the axis length. */
  function Padded(h: seq<real>): (r: seq<real>)
    ensures |h| <= Capacity ==> |r| == Capacity
    ensures |r| >= |h| && r[..|h|] == h
    ensures forall i | |h| <= i < |r| :: r[i] == 0.0
  {
    h + Zeros(Capacity - |h|)
  }

  /** The last min(|vs|, Capacity) readings of vs, oldest first: what a bounded FIFO should hold. */
  function Recent(vs: seq<real>): (r: seq<real>)
  {
    if |vs| <= Capacity then vs else vs[|vs| - Capacity..]
  }

  /** One tick on the most recent readings gives the most recent readings of the longer stream. */
  lemma RecentPushed(vs: seq<real>, v: real)
    ensures Pushed(Recent(vs), v) == Recent(vs + [v])
  {
  }

  /** The history left by feeding `vs` one tick at a time to an empty buffer. */
  function History(vs: seq<real>): (h: seq<real>)
    ensures |h| <= Capacity
  {
    if vs == [] then [] else Pushed(History(vs[..|vs| - 1]), vs[|vs| - 1])
  }

  /** Starting empty, the history is always the latest min(n, 50) readings in arrival order. */
  lemma {:induction false} HistoryIsRecent(vs: seq<real>)
    ensures History(vs) == Recent(vs)
  {
    if vs != [] {
      var p := vs[..|vs| - 1];
      HistoryIsRecent(p);
      RecentPushed(p, vs[|vs| - 1]);
      assert p + [vs[|vs| - 1]] == vs;
    }
  }

  class SensorDashboard {
    /** The latest readings, oldest first. */
    var data: seq<real>
    /** The fixed x axis of the plot. */
    const x: seq<int>
    /** The y values last handed to the plot curve. */
    var curve: seq<real>
    /** Every reading taken so far, oldest first. */
    ghost var readings: seq<real>

    ghost predicate Valid()
      reads this
    {
      x == Range(Capacity) && data == Recent(readings) && curve == Padded(data)
    }

    /** The state the window sets up: an empty history, the axis 0..49, a curve of 50 zeros. */
    constructor ()
      ensures Valid() && readings == []
      ensures data == [] && x == Range(Capacity) && curve == Zeros(Capacity)
    {
      data := [];
      x := Range(Capacity);
      curve := Zeros(Capacity);
      readings := [];
    }

    /** One timer tick with the reading `value`. */
    method UpdatePlot(value: real)
      requires Valid()
      modifies this
      ensures Valid() && readings == old(readings) + [value]
      ensures data == Pushed(old(data), value)
      ensures curve == Padded(data) && |curve| == |x|
    {
      data := data + [value];
      if |data| > Capacity {
        data := data[1..];
      }
      curve := data + Zeros(Capacity - |data|);
      RecentPushed(readings, value);
      readings := readings + [value];
    }
  }
}
