/**
 * The river discharge sparkline: a window of twenty readings that an interval
 * shifts left every half second, appending a random-walk step clamped into
 * [10, 90]. The random step is a parameter in [-10, 10).
 */
module Telemetry {

  const WindowLength: nat := 20
  const InitialReading: real := 50.0
  const Floor: real := 10.0
  const Ceiling: real := 90.0

  /** The starting window: twenty readings of 50. */
  function InitialWindow(): (w: seq<real>)
    ensures |w| == WindowLength && forall i :: 0 <= i < |w| ==> w[i] == InitialReading
  {
    seq(WindowLength, _ => InitialReading)
  }

  /** The two `if`s on `next`: first capped at 90, then raised to 10. */
  function Clamp(x: real): (r: real)
    ensures Floor <= r <= Ceiling
    ensures Floor <= x <= Ceiling ==> r == x
    ensures x > Ceiling ==> r == Ceiling
    ensures x < Floor ==> r == Floor
  {
    var capped := if x > Ceiling then Ceiling else x;
    if capped < Floor then Floor else capped
  }

  /** One interval step: drop the oldest reading, append the clamped next one. */
  function Shift(w: seq<real>, change: real): (v: seq<real>)
    requires |w| > 0
    ensures |v| == |w|
    ensures forall i :: 0 <= i < |w| - 1 ==> v[i] == w[i + 1]
    ensures v[|v| - 1] == Clamp(w[|w| - 1] + change)
  {
    w[1..] + [Clamp(w[|w| - 1] + change)]
  }

  /** What the chart relies on: twenty readings, each within [10, 90]. */
  ghost predicate ValidWindow(w: seq<real>)
  {
    |w| == WindowLength && forall i :: 0 <= i < |w| ==> Floor <= w[i] <= Ceiling
  }

  lemma InitialWindowValid()
    ensures ValidWindow(InitialWindow())
  {
  }

  /** A step keeps the window valid, and with a step in [-10, 10) the new reading moves at most 10 from the last. */
  lemma ShiftKeepsValid(w: seq<real>, change: real)
    requires ValidWindow(w)
    ensures ValidWindow(Shift(w, change))
    ensures -10.0 <= change < 10.0 ==>
      -10.0 <= Shift(w, change)[WindowLength - 1] - w[WindowLength - 1] <= 10.0
  {
  }

  /** Several interval steps, one per random draw. */
  function Run(w: seq<real>, changes: seq<real>): seq<real>
    requires |w| > 0
    decreases |changes|
  {
    if changes == [] then w else Run(Shift(w, changes[0]), changes[1..])
  }

  /** However many steps run, the window stays twenty readings within [10, 90]. */
  lemma {:induction false} RunKeepsValid(w: seq<real>, changes: seq<real>)
    requires ValidWindow(w)
    ensures ValidWindow(Run(w, changes))
    decreases |changes|
  {
    if changes != [] {
      ShiftKeepsValid(w, changes[0]);
      RunKeepsValid(Shift(w, changes[0]), changes[1..]);
    }
  }

  /** The component, holding `dataPoints`. */
  class TelemetryGraph {
    var dataPoints: seq<real>

    ghost predicate Valid()
      reads this
    {
      ValidWindow(dataPoints)
    }

    constructor ()
      ensures Valid() && dataPoints == InitialWindow()
    {
      dataPoints := InitialWindow();
    }

    /** The interval callback, with `change` the random step drawn for it. */
    method IntervalTick(change: real)
      requires Valid() && -10.0 <= change < 10.0
      modifies this
      ensures Valid()
      ensures dataPoints == Shift(old(dataPoints), change)
    {
      var last := dataPoints[|dataPoints| - 1];
      var next := last + change;
      if next > Ceiling {
        next := Ceiling;
      }
      if next < Floor {
        next := Floor;
      }
      dataPoints := dataPoints[1..] + [next];
      ShiftKeepsValid(old(dataPoints), change);
    }
  }
}
