/**
 * The timeline widget under the replay map: play/pause button, the two skip
 * buttons, the speed buttons, the Space shortcut and the scrubber. It holds no
 * state of its own; every control turns into a call of one of the callbacks
 * its parent passed in, which is what the functions here return.
 */
module Timeline {
  import opened Optional

  /** A callback invocation the widget makes on its parent. */
  datatype Action =
    | FrameChange(frame: int)
    | PlayPause
    | SetSpeed(speed: int)
      /** The parent did not pass `setGameSpeed`, so the click calls `undefined` and throws. */
    | SpeedSetterMissing

  /** The props the widget reads. `gameSpeed` is absent when the parent does not pass it. */
  datatype Props = Props(
    currentFrame: int,
    totalFrames: int,
    isPlaying: bool,
    gameSpeed: Option<int>,
    hasSpeedSetter: bool)

  /** Frames moved by the "skip back" and "skip forward" buttons. */
  const SkipBackDelta: int := -10
  const SkipForwardDelta: int := 10

  /** The speed buttons, in display order. */
  const SpeedOptions: seq<int> := [1, 2, 5, 10]

  /** `handleSkip`: the target frame, clamped into `[0, totalFrames - 1]`. */
  function Skip(current: int, totalFrames: int, delta: int): (r: int)
    ensures totalFrames >= 1 ==> 0 <= r <= totalFrames - 1
    ensures 0 <= current + delta <= totalFrames - 1 ==> r == current + delta
    ensures current + delta < 0 ==> r == 0
    ensures totalFrames >= 1 && current + delta > totalFrames - 1 ==> r == totalFrames - 1
  {
    Max(0, Min(totalFrames - 1, current + delta))
  }

  /** Skipping back from the first frame stays there; skipping forward from the last stays there. */
  lemma SkipStopsAtEnds(totalFrames: int, delta: int)
    requires totalFrames >= 1 && delta >= 0
    ensures Skip(0, totalFrames, -delta) == 0
    ensures Skip(totalFrames - 1, totalFrames, delta) == totalFrames - 1
  {
  }

  /** A larger delta never lands on an earlier frame. */
  lemma SkipMonotone(current: int, totalFrames: int, d1: int, d2: int)
    requires d1 <= d2
    ensures Skip(current, totalFrames, d1) <= Skip(current, totalFrames, d2)
  {
  }

  /** The two skip buttons: `handleSkip(-10)` and `handleSkip(10)`. */
  function OnSkipButton(p: Props, forward: bool): (a: Action)
    ensures a.FrameChange?
    ensures p.totalFrames >= 1 ==> 0 <= a.frame < p.totalFrames
    ensures a.frame == Skip(p.currentFrame, p.totalFrames, if forward then 10 else -10)
  {
    FrameChange(Skip(p.currentFrame, p.totalFrames, if forward then SkipForwardDelta else SkipBackDelta))
  }

  /** Away from the ends, each skip button moves exactly ten frames. */
  lemma SkipButtonsMoveTen(p: Props)
    requires 10 <= p.currentFrame <= p.totalFrames - 11
    ensures OnSkipButton(p, false) == FrameChange(p.currentFrame - 10)
    ensures OnSkipButton(p, true) == FrameChange(p.currentFrame + 10)
  {
  }

  /** A speed button is highlighted exactly when it equals the `gameSpeed` prop. */
  predicate SpeedHighlighted(p: Props, speed: int) {
    p.gameSpeed == Some(speed)
  }

  /** The speed buttons are 1x, 2x, 5x and 10x, and at most one of them is highlighted. */
  lemma AtMostOneSpeedHighlighted(p: Props, i: int, j: int)
    requires 0 <= i < |SpeedOptions| && 0 <= j < |SpeedOptions|
    requires SpeedHighlighted(p, SpeedOptions[i]) && SpeedHighlighted(p, SpeedOptions[j])
    ensures i == j
    ensures SpeedOptions == [1, 2, 5, 10]
  {
  }

  /** A click on a speed button hands that button's value to `setGameSpeed`. */
  function OnSpeedButton(p: Props, i: int): (a: Action)
    requires 0 <= i < |SpeedOptions|
    ensures p.hasSpeedSetter <==> a.SetSpeed?
    ensures a.SetSpeed? ==> a.speed == SpeedOptions[i] && a.speed in {1, 2, 5, 10}
    ensures !p.hasSpeedSetter ==> a == SpeedSetterMissing
  {
    if p.hasSpeedSetter then SetSpeed(SpeedOptions[i]) else SpeedSetterMissing
  }

  /** The window `keydown` listener: Space toggles playback once; every other key does nothing. */
  function OnKeyDown(code: string): (calls: seq<Action>)
    ensures code == "Space" <==> calls == [PlayPause]
    ensures code != "Space" <==> calls == []
  {
    if code == "Space" then [PlayPause] else []
  }

  /** The play/pause button. */
  function OnPlayButton(): (calls: seq<Action>)
    ensures calls == OnKeyDown("Space")
  {
    [PlayPause]
  }

  /** The scrubber's `min` attribute. */
  const ScrubberMin: int := 0

  /** The scrubber's `max` attribute. */
  function ScrubberMax(totalFrames: int): int { totalFrames - 1 }

  /**
   * The value a `range` input reports for a requested position: the browser
   * keeps it within `[min, max]`, and uses `min` when `max < min`.
   */
  function RangeValue(raw: int, totalFrames: int): (v: int)
    ensures ScrubberMin <= v
    ensures totalFrames >= 1 ==> v <= ScrubberMax(totalFrames)
    ensures ScrubberMin <= raw <= ScrubberMax(totalFrames) ==> v == raw
  {
    if raw > ScrubberMax(totalFrames) then Max(ScrubberMin, ScrubberMax(totalFrames))
    else if raw < ScrubberMin then ScrubberMin
    else raw
  }

  /** Dragging the scrubber forwards the input's parsed value to `onFrameChange`. */
  function OnScrub(p: Props, raw: int): (a: Action)
    ensures a.FrameChange?
    ensures p.totalFrames >= 1 ==> 0 <= a.frame <= p.totalFrames - 1
    ensures 0 <= raw <= p.totalFrames - 1 ==> a.frame == raw
  {
    FrameChange(RangeValue(raw, p.totalFrames))
  }

  /** The scrubber and `handleSkip` clamp into the same range. */
  lemma ScrubberAgreesWithSkip(raw: int, totalFrames: int)
    ensures RangeValue(raw, totalFrames) == Skip(raw, totalFrames, 0)
  {
  }
}
