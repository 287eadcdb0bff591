/**
 * Properties relating several transitions of the simulation's control state:
 * self-inverse toggles, the agreement of buttons and keys, convergence of the
 * zoom smoothing, and the invariant kept by every event from the initial state.
 */
module SimulationProperties {
  import opened Optional
  import opened Levels
  import opened Buttons
  import opened Simulation

  // ---------------------------------------------------------------------------
  // Toggles

  /** Pausing twice restores the state, label included. */
  lemma TogglePauseTwice(s: State)
    requires LabelMatches(s)
    ensures TogglePause(TogglePause(s)) == s
  {
  }

  /** Following Earth and pressing follow again lands on the reset view. */
  lemma FollowEarthTwice(s: State, i: nat)
    requires FirstNamed(s.planets, FollowName, i) && s.followPlanet != Some(i)
    ensures ToggleFollowEarth(s).followPlanet == Some(i) && ToggleFollowEarth(s).targetScale == 2.0
    ensures ToggleFollowEarth(ToggleFollowEarth(s)) == ResetCamera(s)
  {
  }

  /** Resetting does not touch the clock or the current scale, and a second reset changes nothing. */
  lemma ResetKeepsClock(s: State)
    ensures ResetCamera(s).timeScale == s.timeScale && ResetCamera(s).isPaused == s.isPaused
    ensures ResetCamera(s).scale == s.scale
    ensures ResetCamera(ResetCamera(s)) == ResetCamera(s)
  {
  }

  // ---------------------------------------------------------------------------
  // Buttons and keys

  /** The key that performs the same action as a button. */
  function KeyFor(b: ButtonName): Key {
    match b
    case StartPause => Space
    case SlowDown => Down
    case SpeedUp => Up
    case ZoomIn => Plus
    case ZoomOut => Minus
    case ResetView => LetterR
    case FollowEarth => LetterE
  }

  /** Each button and its key produce identical transitions; '=' acts as '+'. */
  lemma ButtonsMatchKeys(s: State, b: ButtonName)
    ensures HandleKeypress(s, KeyFor(b)) == HandleButtonClick(s, b)
    ensures HandleKeypress(s, Equals) == HandleKeypress(s, Plus)
  {
  }

  // ---------------------------------------------------------------------------
  // Level scenarios

  /** From the initial speed 1, speeding up gives 2; at 50 it holds. */
  lemma SpeedScenarios(s: State)
    ensures s.timeScale == 1.0 ==> ChangeSpeed(s, true).timeScale == 2.0
    ensures s.timeScale == 50.0 ==> ChangeSpeed(s, true).timeScale == 50.0
    ensures s.timeScale == 0.1 ==> ChangeSpeed(s, false).timeScale == 0.1
  {
  }

  /** From zoom target 1, zooming out gives 0.5, and zooming out again stays at 0.5. */
  lemma ZoomOutScenario(s: State)
    requires s.targetScale == 1.0
    ensures ChangeZoom(s, false).targetScale == 0.5
    ensures ChangeZoom(ChangeZoom(s, false), false).targetScale == 0.5
  {
  }

  /** Repeated zooming reaches the end of the zoom list and holds there. */
  lemma ZoomWalksToEnds(n: nat)
    requires 4 <= n
    // Not a fact about the walk: it makes `Repeat`'s precondition hold in the clauses below.
    ensures Ascending(ZoomLevels)
    ensures Repeat(ZoomLevels, 0.5, true, n) == 8.0
    ensures Repeat(ZoomLevels, 8.0, false, n) == 0.5
  {
    ZoomLevelsAscending();
    RepeatWalksIndex(ZoomLevels, 0, true, n);
    RepeatWalksIndex(ZoomLevels, 4, false, n);
  }

  /** Repeated speed changes reach the end of the speed list and hold there. */
  lemma SpeedWalksToEnds(n: nat)
    requires 9 <= n
    // Not a fact about the walk: it makes `Repeat`'s precondition hold in the clauses below.
    ensures Ascending(SpeedLevels)
    ensures Repeat(SpeedLevels, 0.1, true, n) == 50.0
    ensures Repeat(SpeedLevels, 50.0, false, n) == 0.1
  {
    SpeedLevelsAscending();
    RepeatWalksIndex(SpeedLevels, 0, true, n);
    RepeatWalksIndex(SpeedLevels, 9, false, n);
  }

  // ---------------------------------------------------------------------------
  // Zoom smoothing

  /** `n` frames of zoom smoothing toward a fixed target. */
  function Settle(scale: real, target: real, n: nat): real
    decreases n
  {
    if n == 0 then scale else Settle(SmoothZoom(scale, target), target, n - 1)
  }

  /**
   * Smoothing reaches the target exactly: every frame above the snap distance
   * shrinks the gap by at least 0.05 * 0.01, so `n` frames suffice once
   * `n * 0.0005` covers the initial gap.
   */
  lemma {:induction false} SettleReachesTarget(scale: real, target: real, n: nat)
    requires Abs(scale - target) <= n as real * 0.0005
    ensures Settle(scale, target, n) == target
    decreases n
  {
    if n > 0 {
      var next := SmoothZoom(scale, target);
      if Abs(scale - target) > SnapDistance {
        assert Abs(next - target) == 0.95 * Abs(scale - target);
      }
      assert Abs(next - target) <= (n - 1) as real * 0.0005;
      SettleReachesTarget(next, target, n - 1);
    }
  }

  /** `n` frames with nothing else happening. */
  function Frames(s: State, n: nat, dt: real, advance: (Planet, real, real) -> real, position: Planet -> (real, real)): (r: State)
    requires s.followPlanet.Some? ==> s.followPlanet.value < |s.planets|
    ensures |r.planets| == |s.planets| && r.followPlanet == s.followPlanet
    ensures r.isPaused == s.isPaused && r.targetScale == s.targetScale
    decreases n
  {
    if n == 0 then s else Frames(Update(s, dt, advance, position), n - 1, dt, advance, position)
  }

  /** While paused, frames never move a planet, yet the zoom keeps converging. */
  lemma {:induction false} PausedFrames(s: State, n: nat, dt: real, advance: (Planet, real, real) -> real, position: Planet -> (real, real))
    requires s.followPlanet.Some? ==> s.followPlanet.value < |s.planets|
    requires s.isPaused
    ensures Frames(s, n, dt, advance, position).planets == s.planets
    ensures Frames(s, n, dt, advance, position).scale == Settle(s.scale, s.targetScale, n)
    decreases n
  {
    if n > 0 {
      PausedFrames(Update(s, dt, advance, position), n - 1, dt, advance, position);
    }
  }

  // ---------------------------------------------------------------------------
  // The invariant

  /** A frame keeps every reachable-state fact: it leaves the levels, label and follow index alone and keeps the scale positive. */
  lemma UpdatePreservesWf(s: State, dt: real, advance: (Planet, real, real) -> real, position: Planet -> (real, real))
    requires Wf(s)
    ensures Wf(Update(s, dt, advance, position))
  {
  }

  /** One input or frame event, as the event loop delivers them. */
  datatype Event = Click(x: int, y: int) | KeyPress(key: Key) | Frame(dt: real)

  function Apply(s: State, e: Event, advance: (Planet, real, real) -> real, position: Planet -> (real, real)): (r: State)
    requires Wf(s)
    ensures Wf(r)
  {
    match e
    case Click(x, y) => HandleClick(s, x, y).1
    case KeyPress(k) => HandleKeypress(s, k)
    case Frame(dt) => UpdatePreservesWf(s, dt, advance, position); Update(s, dt, advance, position)
  }

  /** Applies a sequence of events in order. */
  function Run(s: State, events: seq<Event>, advance: (Planet, real, real) -> real, position: Planet -> (real, real)): (r: State)
    requires Wf(s)
    ensures Wf(r)
    decreases |events|
  {
    if |events| == 0 then s
    else Run(Apply(s, events[0], advance, position), events[1..], advance, position)
  }

  /** From the constructor's defaults, every sequence of events keeps the levels listed, the scale positive, the label in step and the follow index valid. */
  lemma ReachableStatesWf(windowWidth: int, windowHeight: int, planets: seq<Planet>, events: seq<Event>,
                          advance: (Planet, real, real) -> real, position: Planet -> (real, real))
    ensures Wf(Run(Init(windowWidth, windowHeight, planets), events, advance, position))
  {
  }
}
