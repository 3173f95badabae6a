/**
 * The replay page: a frame index and a play/pause flag driven by a one-second
 * interval, the play/pause and frame-change handlers it hands to the timeline
 * widget, the lookup of the current frame and the colour band of its risk score.
 */
module Replay {
  import opened Optional
  import opened Fixtures
  import Timeline

  /** The page's playback state: `currentFrame` and `isPlaying`. */
  datatype Playback = Playback(frame: int, playing: bool)

  /** Both hooks start at frame 0, paused. */
  function InitialPlayback(): Playback { Playback(0, false) }

  /** Milliseconds between two interval ticks; no speed setting changes it. */
  /** Number of frames, once the replay fixture is loaded. */
  function FrameCount(data: Option<ReplayData>): int { if data.Some? then |data.value.frames| else 0 }

  /**
   * One firing of the auto-play interval. No interval exists unless playback is
   * on and the data is loaded; at or past the last frame the tick pauses
   * instead of advancing, so playback never wraps around.
   */
  function Tick(s: Playback, data: Option<ReplayData>): (t: Playback)
    ensures !s.playing || data.None? ==> t == s
    ensures t.frame == s.frame || t.frame == s.frame + 1
    ensures t.frame == s.frame + 1 <==> s.playing && data.Some? && s.frame < FrameCount(data) - 1
    ensures t.playing ==> s.playing
    ensures s.playing && !t.playing <==> s.playing && data.Some? && s.frame >= FrameCount(data) - 1
    ensures t.frame == s.frame + 1 ==> t.playing
  {
    if !s.playing || data.None? then s
    else if s.frame >= |data.value.frames| - 1 then s.(playing := false)
    else s.(frame := s.frame + 1)
  }

  /** `n` consecutive interval ticks. */
  function Ticks(s: Playback, data: Option<ReplayData>, n: nat): Playback
    decreases n
  {
    if n == 0 then s else Ticks(Tick(s, data), data, n - 1)
  }

  /** `handlePlayPause`: flips the flag and leaves the frame alone. */
  function PlayPause(s: Playback): (t: Playback)
    ensures t.frame == s.frame && t.playing != s.playing
  {
    s.(playing := !s.playing)
  }

  /** Pressing play/pause twice changes nothing. */
  lemma PlayPauseTwice(s: Playback)
    ensures PlayPause(PlayPause(s)) == s
  {
  }

  /** `handleFrameChange`: stores the requested frame as given, without clamping. */
  function FrameChange(s: Playback, frame: int): (t: Playback)
    ensures t.frame == frame && t.playing == s.playing
  {
    s.(frame := frame)
  }

  /** Once the index is within the frames, no run of ticks takes it past the last frame. */
  lemma {:induction false} TicksStayInRange(s: Playback, data: Option<ReplayData>, n: nat)
    requires 0 <= s.frame <= FrameCount(data) - 1
    ensures 0 <= Ticks(s, data, n).frame <= FrameCount(data) - 1
    decreases n
  {
    if n > 0 {
      TicksStayInRange(Tick(s, data), data, n - 1);
    }
  }

  /** Once paused, ticks change nothing. */
  lemma {:induction false} PausedTicksIdle(s: Playback, data: Option<ReplayData>, n: nat)
    requires !s.playing
    ensures Ticks(s, data, n) == s
    decreases n
  {
    if n > 0 {
      PausedTicksIdle(Tick(s, data), data, n - 1);
    }
  }

  /** Playing from frame `k`, the next `m` ticks visit the following `m` frames in order. */
  lemma {:induction false} TicksAdvance(data: ReplayData, k: nat, m: nat)
    requires k + m <= |data.frames| - 1
    ensures Ticks(Playback(k, true), Some(data), m) == Playback(k + m, true)
    decreases m
  {
    if m > 0 {
      TicksAdvance(data, k + 1, m - 1);
    }
  }

  /**
   * From the initial state on `N >= 1` frames, after pressing play tick `k` shows
   * frame `k` for every `k <= N - 1`, tick `N` pauses on the last frame, and
   * nothing moves after that.
   */
  lemma PlayThrough(data: ReplayData, k: nat, extra: nat)
    requires |data.frames| >= 1 && k <= |data.frames| - 1
    ensures Ticks(PlayPause(InitialPlayback()), Some(data), k) == Playback(k, true)
    ensures Ticks(PlayPause(InitialPlayback()), Some(data), |data.frames| + extra)
         == Playback(|data.frames| - 1, false)
  {
    var n := |data.frames|;
    TicksAdvance(data, 0, k);
    TicksAdvance(data, 0, n - 1);
    var last := Playback(n - 1, true);
    TicksSplit(PlayPause(InitialPlayback()), Some(data), n - 1, 1 + extra);
    assert Ticks(last, Some(data), 1 + extra) == Ticks(Playback(n - 1, false), Some(data), extra);
    PausedTicksIdle(Playback(n - 1, false), Some(data), extra);
  }

  /** Ticking `a` times and then `b` times is ticking `a + b` times. */
  lemma {:induction false} TicksSplit(s: Playback, data: Option<ReplayData>, a: nat, b: nat)
    ensures Ticks(s, data, a + b) == Ticks(Ticks(s, data, a), data, b)
    decreases a
  {
    if a > 0 {
      TicksSplit(Tick(s, data), data, a - 1, b);
    }
  }

  /** `replayData?.frames[currentFrame]`: undefined before loading or off the end of the list. */
  function FrameAt(data: Option<ReplayData>, index: int): (f: Option<ReplayFrame>)
    ensures f.Some? <==> data.Some? && 0 <= index < |data.value.frames|
    ensures f.Some? ==> f.value == data.value.frames[index]
  {
    if data.Some? && 0 <= index < |data.value.frames| then Some(data.value.frames[index]) else None
  }

  /** Colour band of a risk score. */
  datatype Band = Green | Yellow | Red

  /** The band's place in the order green < yellow < red. */
  function Severity(b: Band): nat
  {
    match b
    case Green => 0
    case Yellow => 1
    case Red => 2
  }

  /** The thresholds both risk displays use: above 7 is red, above 4 yellow, the rest green. */
  function RiskBand(score: real): (b: Band)
    ensures b == Red <==> score > 7.0
    ensures b == Yellow <==> 4.0 < score <= 7.0
    ensures b == Green <==> score <= 4.0
  {
    if score > 7.0 then Red else if score > 4.0 then Yellow else Green
  }

  /** A higher score never falls in a lower band. */
  lemma RiskBandMonotone(a: real, b: real)
    requires a <= b
    ensures Severity(RiskBand(a)) <= Severity(RiskBand(b))
  {
  }

  /** The class of the score text. */
  function RiskTextClass(score: real): string
  {
    if score > 7.0 then "text-red-400"
    else if score > 4.0 then "text-yellow-400"
    else "text-green-400"
  }

  /** The class of the score bar. */
  function RiskBarClass(score: real): string
  {
    if score > 7.0 then "bg-gradient-to-r from-red-500 to-rose-600"
    else if score > 4.0 then "bg-gradient-to-r from-yellow-500 to-orange-500"
    else "bg-gradient-to-r from-green-500 to-emerald-500"
  }

  /** The text and the bar always show the same band, so they never disagree. */
  lemma RiskTextAndBarAgree(score: real)
    ensures RiskTextClass(score) == "text-red-400"
        <==> RiskBarClass(score) == "bg-gradient-to-r from-red-500 to-rose-600"
    ensures RiskTextClass(score) == "text-yellow-400"
        <==> RiskBarClass(score) == "bg-gradient-to-r from-yellow-500 to-orange-500"
    ensures RiskTextClass(score) == "text-green-400" <==> RiskBand(score) == Green
    ensures RiskBarClass(score) == "bg-gradient-to-r from-red-500 to-rose-600" <==> RiskBand(score) == Red
  {
  }

  /** The replay page component. */
  class ReplayModePage {
    var replayData: Option<ReplayData>
    var loading: bool
    var currentFrame: int
    var isPlaying: bool

    function State(): Playback
      reads this
    {
      Playback(currentFrame, isPlaying)
    }

    /** Mounting: nothing loaded yet, the spinner showing, frame 0, paused. */
    constructor ()
      ensures replayData == None && loading
      ensures State() == InitialPlayback()
    {
      replayData := None;
      loading := true;
      currentFrame := 0;
      isPlaying := false;
    }

    /** The replay fetch resolved with `data`. */
    method DataLoaded(data: ReplayData)
      modifies this
      ensures replayData == Some(data) && !loading
      ensures State() == old(State())
    {
      replayData := Some(data);
      loading := false;
    }

    /** The replay fetch failed: the spinner goes away and nothing is loaded. */
    method LoadFailed()
      modifies this
      ensures !loading
      ensures replayData == old(replayData) && State() == old(State())
    {
      loading := false;
    }

    /** The interval callback firing (when no interval is running, nothing happens). */
    method IntervalTick()
      modifies this
      ensures State() == Tick(old(State()), old(replayData))
      ensures replayData == old(replayData) && loading == old(loading)
    {
      if isPlaying && replayData.Some? {
        if currentFrame >= |replayData.value.frames| - 1 {
          isPlaying := false;
        } else {
          currentFrame := currentFrame + 1;
        }
      }
    }

    method HandlePlayPause()
      modifies this
      ensures State() == PlayPause(old(State()))
      ensures replayData == old(replayData) && loading == old(loading)
    {
      isPlaying := !isPlaying;
    }

    method HandleFrameChange(frame: int)
      modifies this
      ensures State() == FrameChange(old(State()), frame)
      ensures replayData == old(replayData) && loading == old(loading)
    {
      currentFrame := frame;
    }

    /** `currentFrameData`. */
    function CurrentFrameData(): Option<ReplayFrame>
      reads this
    {
      FrameAt(replayData, currentFrame)
    }

    /**
     * The timeline renders only once data is loaded and the current frame
     * exists; its props then carry no `gameSpeed` and no `setGameSpeed`.
     */
    function TimelineProps(): (p: Option<Timeline.Props>)
      reads this
      ensures p.Some? <==> CurrentFrameData().Some?
      ensures p.Some? ==> && p.value.currentFrame == currentFrame && p.value.isPlaying == isPlaying
                          && p.value.totalFrames == FrameCount(replayData)
                          && 0 <= p.value.currentFrame < p.value.totalFrames
                          && p.value.gameSpeed == None && !p.value.hasSpeedSetter
    {
      if CurrentFrameData().Some? then Some(Timeline.Props(currentFrame, FrameCount(replayData), isPlaying, None, false))
      else None
    }
  }

  /**
   * Wired to this page, the timeline highlights no speed, a speed click reaches
   * no setter, and the frame a skip button hands to `handleFrameChange` lies
   * within the loaded frames.
   */
  lemma ReplayTimelineWiring(p: Timeline.Props, data: ReplayData, forward: bool, i: int)
    requires p.gameSpeed == None && !p.hasSpeedSetter && p.totalFrames == |data.frames| >= 1
    requires 0 <= i < |Timeline.SpeedOptions|
    ensures !Timeline.SpeedHighlighted(p, Timeline.SpeedOptions[i])
    ensures Timeline.OnSpeedButton(p, i) == Timeline.SpeedSetterMissing
    ensures FrameAt(Some(data), Timeline.OnSkipButton(p, forward).frame).Some?
  {
  }
}
