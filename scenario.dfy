/**
 * The scenario simulator dialog: three sliders over a parameter record, a
 * warning shown for extreme settings, and a "Run Simulation" button that
 * blocks the footer for 1.5 s and then reports the parameters and closes. The
 * timer's completion is an explicit event; the `onApply` and `onClose`
 * callbacks are recorded in the order they are called.
 */
module Scenario {
  import opened Optional

  datatype ScenarioParams = ScenarioParams(rainfallIntensity: int, dischargeDelay: int, drainageBlockage: int)

  /** 100 % rainfall, no discharge delay, no blockage. */
  function DefaultParams(): ScenarioParams { ScenarioParams(100, 0, 0) }

  datatype Field = RainfallIntensity | DischargeDelay | DrainageBlockage

  /** A `range` input's reachable values: `lo..hi` in steps of `step`. */
  predicate OnGrid(v: int, lo: int, hi: int, step: int)
    requires step > 0
  {
    lo <= v <= hi && (v - lo) % step == 0
  }

  /** The slider of each field: rainfall 50..200 by 10, discharge 0..24 by 1, blockage 0..100 by 5. */
  predicate SliderValue(f: Field, v: int)
  {
    match f
    case RainfallIntensity => OnGrid(v, 50, 200, 10)
    case DischargeDelay => OnGrid(v, 0, 24, 1)
    case DrainageBlockage => OnGrid(v, 0, 100, 5)
  }

  function Get(p: ScenarioParams, f: Field): int
  {
    match f
    case RainfallIntensity => p.rainfallIntensity
    case DischargeDelay => p.dischargeDelay
    case DrainageBlockage => p.drainageBlockage
  }

  /** Every field holds a value its slider can produce. */
  predicate OnSliders(p: ScenarioParams)
  {
    forall f :: SliderValue(f, Get(p, f))
  }

  /** `setParams({...params, field: value})`: that field takes the value, the other two stay. */
  function Set(p: ScenarioParams, f: Field, v: int): (q: ScenarioParams)
    ensures Get(q, f) == v
    ensures forall g :: g != f ==> Get(q, g) == Get(p, g)
  {
    match f
    case RainfallIntensity => p.(rainfallIntensity := v)
    case DischargeDelay => p.(dischargeDelay := v)
    case DrainageBlockage => p.(drainageBlockage := v)
  }

  /** Moving a slider keeps every field on its slider. */
  lemma SetKeepsOnSliders(p: ScenarioParams, f: Field, v: int)
    requires OnSliders(p) && SliderValue(f, v)
    ensures OnSliders(Set(p, f, v))
  {
    var q := Set(p, f, v);
    forall g ensures SliderValue(g, Get(q, g)) {
      if g != f {
        assert SliderValue(g, Get(p, g));
      }
    }
  }

  /** The "Catastrophic Failure" warning. */
  predicate ShowWarning(p: ScenarioParams)
  {
    p.rainfallIntensity > 150 || p.drainageBlockage > 60
  }

  /** The blockage percentage turns red. */
  predicate BlockageRed(p: ScenarioParams)
  {
    p.drainageBlockage > 50
  }

  /** The defaults sit on the sliders and raise no warning. */
  lemma DefaultsCalm()
    ensures OnSliders(DefaultParams())
    ensures !ShowWarning(DefaultParams()) && !BlockageRed(DefaultParams())
  {
    var d := DefaultParams();
    forall f ensures SliderValue(f, Get(d, f)) {
    }
  }

  /**
   * On the sliders' grids the warning appears from 160 % rainfall or 65 %
   * blockage, and a warning caused by blockage always comes with a red label.
   */
  lemma WarningOnSliders(p: ScenarioParams)
    requires OnSliders(p)
    ensures ShowWarning(p) <==> p.rainfallIntensity >= 160 || p.drainageBlockage >= 65
    ensures p.drainageBlockage > 60 ==> BlockageRed(p)
  {
    assert SliderValue(RainfallIntensity, Get(p, RainfallIntensity));
    assert SliderValue(DrainageBlockage, Get(p, DrainageBlockage));
  }

  /** A call the dialog makes on its parent. */
  datatype Callback = OnApply(params: ScenarioParams) | OnClose

  /** The dialog component; `isOpen` is its parent's prop. */
  class ScenarioBuilder {
    var isOpen: bool
    var params: ScenarioParams
    var isSimulating: bool
    /** The parameters the pending timer closed over when "Run Simulation" was clicked. */
    var captured: Option<ScenarioParams>
    var calls: seq<Callback>

    /** The timer is pending exactly while simulating. */
    ghost predicate Valid()
      reads this
    {
      isSimulating <==> captured.Some?
    }

    /** Nothing renders while closed, so no control can be used. */
    function Renders(): bool
      reads this
    {
      isOpen
    }

    /** Cancel and "Run Simulation" are disabled while simulating. */
    function FooterDisabled(): bool
      reads this
    {
      isSimulating
    }

    constructor (isOpen: bool)
      ensures Valid() && this.isOpen == isOpen
      ensures params == DefaultParams() && !isSimulating && calls == []
    {
      this.isOpen := isOpen;
      params := DefaultParams();
      isSimulating := false;
      captured := None;
      calls := [];
    }

    /** The parent changes `isOpen`; the dialog's own state is kept. */
    method SetOpen(open: bool)
      modifies this
      ensures isOpen == open
      ensures params == old(params) && isSimulating == old(isSimulating)
      ensures captured == old(captured) && calls == old(calls)
    {
      isOpen := open;
    }

    /** A slider moved to `v`; the sliders stay enabled while simulating. */
    method Slide(f: Field, v: int)
      requires SliderValue(f, v)
      modifies this
      ensures params == if old(Renders()) then Set(old(params), f, v) else old(params)
      ensures isOpen == old(isOpen) && isSimulating == old(isSimulating)
      ensures captured == old(captured) && calls == old(calls)
    {
      if isOpen {
        params := Set(params, f, v);
      }
    }

    /** `handleApply`, reachable only through the enabled "Run Simulation" button. */
    method ApplyClick()
      requires Valid()
      modifies this
      ensures Valid()
      ensures old(Renders() && !FooterDisabled()) ==> isSimulating && captured == Some(old(params))
      ensures !old(Renders() && !FooterDisabled()) ==> isSimulating == old(isSimulating) && captured == old(captured)
      ensures isOpen == old(isOpen) && params == old(params) && calls == old(calls)
    {
      if isOpen && !isSimulating {
        isSimulating := true;
        captured := Some(params);
      }
    }

    /** The Cancel button, disabled while simulating. */
    method CancelClick()
      modifies this
      ensures calls == if old(Renders() && !FooterDisabled()) then old(calls) + [OnClose] else old(calls)
      ensures isOpen == old(isOpen) && params == old(params)
      ensures isSimulating == old(isSimulating) && captured == old(captured)
    {
      if isOpen && !isSimulating {
        calls := calls + [OnClose];
      }
    }

    /** The header's close icon, which is never disabled. */
    method CloseIconClick()
      modifies this
      ensures calls == if old(Renders()) then old(calls) + [OnClose] else old(calls)
      ensures isOpen == old(isOpen) && params == old(params)
      ensures isSimulating == old(isSimulating) && captured == old(captured)
    {
      if isOpen {
        calls := calls + [OnClose];
      }
    }

    /**
     * The 1.5 s timer completing: simulation ends, then `onApply` receives the
     * parameters as they were at the click, then `onClose` runs.
     */
    method TimerDone()
      requires Valid()
      modifies this
      ensures Valid() && !isSimulating
      ensures old(captured).Some? ==> calls == old(calls) + [OnApply(old(captured).value), OnClose]
      ensures old(captured).None? ==> calls == old(calls)
      ensures isOpen == old(isOpen) && params == old(params)
    {
      if captured.Some? {
        var applied := captured.value;
        isSimulating := false;
        captured := None;
        calls := calls + [OnApply(applied), OnClose];
      }
    }
  }
}
