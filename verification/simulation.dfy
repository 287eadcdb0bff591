/**
 * The interactive control state of the solar-system simulation: one record
 * holding the clock (pause, time scale), the camera (pan, current and target
 * zoom, follow target) and the pause button's label, and the pure
 * transitions that the buttons, the keyboard and each frame apply to it.
 */
module Simulation {
  import opened Optional
  import opened Levels
  import opened Buttons

  /** An orbiting body: its name, its own orbit speed (fixed at setup) and its orbit angle, which only foreign code advances. */
  datatype Planet = Planet(name: string, orbitSpeed: real, angle: real)

  datatype State = State(
    windowWidth: int,
    windowHeight: int,
    planets: seq<Planet>,
    isPaused: bool,
    pauseLabel: string,
    timeScale: real,
    targetScale: real,
    scale: real,
    cameraX: real,
    cameraY: real,
    followPlanet: Option<nat>)

  /** Fraction of the remaining zoom distance covered per frame. */
  const ScaleSpeed: real := 0.05

  /** Zoom distance at or below which the current scale snaps to the target. */
  const SnapDistance: real := 0.01

  /** The body the follow control looks for. */
  const FollowName: string := "Earth"

  function Abs(x: real): real {
    if x < 0.0 then -x else x
  }

  /** Screen centre; window sizes are integers and halved with floor division. */
  function CenterX(s: State): real {
    (s.windowWidth / 2) as real
  }

  function CenterY(s: State): real {
    (s.windowHeight / 2) as real
  }

  predicate LabelMatches(s: State) {
    s.pauseLabel == (if s.isPaused then "Start" else "Pause")
  }

  /** What every reachable state satisfies. */
  predicate Wf(s: State) {
    && s.timeScale in SpeedLevels
    && s.targetScale in ZoomLevels
    && 0.0 < s.scale
    && LabelMatches(s)
    && (s.followPlanet.Some? ==> s.followPlanet.value < |s.planets|)
  }

  /** The constructor's defaults, given the window size and the planets built from the settings. */
  function Init(windowWidth: int, windowHeight: int, planets: seq<Planet>): (s: State)
    ensures Wf(s)
    ensures !s.isPaused && s.followPlanet.None? && s.scale == s.targetScale
    ensures s.cameraX == CenterX(s) && s.cameraY == CenterY(s)
    ensures s.planets == planets
    ensures s.windowWidth == windowWidth && s.windowHeight == windowHeight
    ensures s.timeScale == 1.0 && s.targetScale == 1.0 && s.scale == 1.0
  {
    State(windowWidth, windowHeight, planets, false, "Pause", 1.0, 1.0, 1.0,
          (windowWidth / 2) as real, (windowHeight / 2) as real, None)
  }

  // ---------------------------------------------------------------------------
  // Clock and zoom controls

  /** Flips the pause flag and relabels the pause button ('Start' while paused). */
  function TogglePause(s: State): (r: State)
    ensures r.isPaused == !s.isPaused
    ensures LabelMatches(r)
    ensures r == s.(isPaused := r.isPaused, pauseLabel := r.pauseLabel)
  {
    var paused := !s.isPaused;
    s.(isPaused := paused, pauseLabel := if paused then "Start" else "Pause")
  }

  /** Moves the time scale one permitted level up or down; nothing else changes. */
  function ChangeSpeed(s: State, up: bool): (r: State)
    ensures r == s.(timeScale := r.timeScale)
    ensures up && s.timeScale < Last(SpeedLevels) ==>
      r.timeScale in SpeedLevels && s.timeScale < r.timeScale &&
      forall l :: l in SpeedLevels && s.timeScale < l ==> r.timeScale <= l
    ensures !up && SpeedLevels[0] < s.timeScale ==>
      r.timeScale in SpeedLevels && r.timeScale < s.timeScale &&
      forall l :: l in SpeedLevels && l < s.timeScale ==> l <= r.timeScale
    ensures (up && Last(SpeedLevels) <= s.timeScale) || (!up && s.timeScale <= SpeedLevels[0]) ==>
      r == s
  {
    SpeedLevelsAscending();
    s.(timeScale := Step(SpeedLevels, s.timeScale, up))
  }

  /** Moves the zoom target (not the current scale) one permitted level in or out; nothing else changes. */
  function ChangeZoom(s: State, plus: bool): (r: State)
    ensures r == s.(targetScale := r.targetScale)
    ensures plus && s.targetScale < Last(ZoomLevels) ==>
      r.targetScale in ZoomLevels && s.targetScale < r.targetScale &&
      forall l :: l in ZoomLevels && s.targetScale < l ==> r.targetScale <= l
    ensures !plus && ZoomLevels[0] < s.targetScale ==>
      r.targetScale in ZoomLevels && r.targetScale < s.targetScale &&
      forall l :: l in ZoomLevels && l < s.targetScale ==> l <= r.targetScale
    ensures (plus && Last(ZoomLevels) <= s.targetScale) || (!plus && s.targetScale <= ZoomLevels[0]) ==>
      r == s
  {
    ZoomLevelsAscending();
    s.(targetScale := Step(ZoomLevels, s.targetScale, plus))
  }

  // ---------------------------------------------------------------------------
  // Camera controls

  /** Recentres the camera, resets the zoom target to 1 and stops following. */
  function ResetCamera(s: State): (r: State)
    ensures r.cameraX == CenterX(s) && r.cameraY == CenterY(s)
    ensures r.targetScale == 1.0 && r.followPlanet.None?
    ensures r.(cameraX := s.cameraX, cameraY := s.cameraY, targetScale := s.targetScale, followPlanet := s.followPlanet) == s
  {
    s.(cameraX := CenterX(s), cameraY := CenterY(s), targetScale := 1.0, followPlanet := None)
  }

  /** `i` is the position of the first planet called `name`. */
  predicate FirstNamed(planets: seq<Planet>, name: string, i: nat) {
    && i < |planets|
    && planets[i].name == name
    && forall j :: 0 <= j < i ==> planets[j].name != name
  }

  /** Index of the first planet carrying `name`, if any. */
  function IndexOfName(planets: seq<Planet>, name: string): (r: Option<nat>)
    ensures r.Some? ==> FirstNamed(planets, name, r.value)
    ensures r.None? ==> forall j :: 0 <= j < |planets| ==> planets[j].name != name
  {
    if |planets| == 0 then None
    else if planets[0].name == name then Some(0)
    else match IndexOfName(planets[1..], name)
      case None => None
      case Some(k) => Some(k + 1)
  }

  /**
   * The follow toggle: with no "Earth" nothing happens; when Earth is already
   * followed the view is reset; otherwise Earth is followed at zoom target 2.
   */
  function ToggleFollowEarth(s: State): (r: State)
    ensures (forall j :: 0 <= j < |s.planets| ==> s.planets[j].name != FollowName) ==> r == s
    ensures forall i: nat :: FirstNamed(s.planets, FollowName, i) && s.followPlanet == Some(i) ==>
      r == ResetCamera(s)
    ensures forall i: nat :: FirstNamed(s.planets, FollowName, i) && s.followPlanet != Some(i) ==>
      r == s.(followPlanet := Some(i), targetScale := 2.0)
  {
    match IndexOfName(s.planets, FollowName)
    case None => s
    case Some(i) =>
      if s.followPlanet == Some(i) then ResetCamera(s)
      else s.(followPlanet := Some(i), targetScale := 2.0)
  }

  // ---------------------------------------------------------------------------
  // Input dispatch

  /** Dispatch of a button press to its single transition. */
  function HandleButtonClick(s: State, b: ButtonName): (r: State)
    ensures r.planets == s.planets && r.scale == s.scale
    ensures r.windowWidth == s.windowWidth && r.windowHeight == s.windowHeight
    ensures Wf(s) ==> Wf(r)
    ensures r.isPaused != s.isPaused <==> b == StartPause
    ensures r.pauseLabel != s.pauseLabel ==> b == StartPause
    ensures r.timeScale != s.timeScale ==> b == SlowDown || b == SpeedUp
    ensures r.targetScale != s.targetScale ==> b == ZoomIn || b == ZoomOut || b == ResetView || b == FollowEarth
    ensures r.followPlanet != s.followPlanet || r.cameraX != s.cameraX || r.cameraY != s.cameraY ==>
      b == ResetView || b == FollowEarth
    ensures b == StartPause ==> r == TogglePause(s)
    ensures b == SlowDown ==> r == ChangeSpeed(s, false)
    ensures b == SpeedUp ==> r == ChangeSpeed(s, true)
    ensures b == ZoomIn ==> r == ChangeZoom(s, true)
    ensures b == ZoomOut ==> r == ChangeZoom(s, false)
    ensures b == ResetView ==> r == ResetCamera(s)
    ensures b == FollowEarth ==> r == ToggleFollowEarth(s)
  {
    SpeedLevelsAscending();
    ZoomLevelsAscending();
    match b
    case StartPause => TogglePause(s)
    case SlowDown => ChangeSpeed(s, false)
    case SpeedUp => ChangeSpeed(s, true)
    case ZoomIn => ChangeZoom(s, true)
    case ZoomOut => ChangeZoom(s, false)
    case ResetView => ResetCamera(s)
    case FollowEarth => ToggleFollowEarth(s)
  }

  /** The keys the simulation reacts to; every other key, none of these eight, is `Other`. */
  datatype Key = Space | Plus | Equals | Minus | Up | Down | LetterR | LetterE | Other

  /** Dispatch of a key press to its single transition; unknown keys change nothing. */
  function HandleKeypress(s: State, k: Key): (r: State)
    ensures r.planets == s.planets && r.scale == s.scale
    ensures r.windowWidth == s.windowWidth && r.windowHeight == s.windowHeight
    ensures Wf(s) ==> Wf(r)
    ensures k.Other? ==> r == s
    ensures r.isPaused != s.isPaused <==> k == Space
    ensures r.pauseLabel != s.pauseLabel ==> k == Space
    ensures r.timeScale != s.timeScale ==> k == Up || k == Down
    ensures r.targetScale != s.targetScale ==> k == Plus || k == Equals || k == Minus || k == LetterR || k == LetterE
    ensures r.followPlanet != s.followPlanet || r.cameraX != s.cameraX || r.cameraY != s.cameraY ==>
      k == LetterR || k == LetterE
    ensures k == Space ==> r == TogglePause(s)
    ensures k == Plus || k == Equals ==> r == ChangeZoom(s, true)
    ensures k == Minus ==> r == ChangeZoom(s, false)
    ensures k == Up ==> r == ChangeSpeed(s, true)
    ensures k == Down ==> r == ChangeSpeed(s, false)
    ensures k == LetterR ==> r == ResetCamera(s)
    ensures k == LetterE ==> r == ToggleFollowEarth(s)
  {
    SpeedLevelsAscending();
    ZoomLevelsAscending();
    match k
    case Space => TogglePause(s)
    case Plus => ChangeZoom(s, true)
    case Equals => ChangeZoom(s, true)
    case Minus => ChangeZoom(s, false)
    case Up => ChangeSpeed(s, true)
    case Down => ChangeSpeed(s, false)
    case LetterR => ResetCamera(s)
    case LetterE => ToggleFollowEarth(s)
    case Other => s
  }

  /** A click reports whether it hit a button, and applies that button's transition. */
  function HandleClick(s: State, x: int, y: int): (r: (bool, State))
    ensures r.0 <==> exists b :: Contains(RectOf(b), x, y)
    ensures forall b :: Contains(RectOf(b), x, y) ==> r.1 == HandleButtonClick(s, b)
    ensures !r.0 ==> r.1 == s
  {
    match HitTest(x, y)
    case Some(b) => (true, HandleButtonClick(s, b))
    case None => (false, s)
  }

  // ---------------------------------------------------------------------------
  // Per-frame update

  /** One frame of zoom smoothing: snap when close, otherwise cover a fixed fraction of the gap. */
  function SmoothZoom(scale: real, target: real): (r: real)
    ensures Abs(scale - target) <= SnapDistance ==> r == target
    ensures SnapDistance < Abs(scale - target) ==> r - target == (1.0 - ScaleSpeed) * (scale - target)
    ensures SnapDistance < Abs(scale - target) ==> (scale < r < target || target < r < scale)
  {
    if Abs(scale - target) > SnapDistance then scale + (target - scale) * ScaleSpeed else target
  }

  function Advanced(p: Planet, dt: real, timeScale: real, advance: (Planet, real, real) -> real): Planet {
    p.(angle := advance(p, dt, timeScale))
  }

  /**
   * One frame: smooth the zoom, advance the planets unless paused, and, when
   * following a planet, pan so that the followed planet sits at the centre.
   * `advance` stands for a planet's own update, which gives its new orbit
   * angle from the planet (and so its own orbit speed), the frame time and
   * the time scale, and `position` for its world
   * position; both are foreign code.
   */
  function Update(s: State, dt: real, advance: (Planet, real, real) -> real, position: Planet -> (real, real)): (r: State)
    requires s.followPlanet.Some? ==> s.followPlanet.value < |s.planets|
    ensures r.scale == SmoothZoom(s.scale, s.targetScale)
    ensures s.isPaused ==> r.planets == s.planets
    ensures !s.isPaused ==> |r.planets| == |s.planets|
    ensures !s.isPaused ==> forall i :: 0 <= i < |s.planets| ==>
      r.planets[i].name == s.planets[i].name && r.planets[i].orbitSpeed == s.planets[i].orbitSpeed &&
      r.planets[i].angle == advance(s.planets[i], dt, s.timeScale)
    ensures s.followPlanet.Some? ==>
      var p := position(r.planets[s.followPlanet.value]);
      r.cameraX + p.0 * r.scale == CenterX(s) && r.cameraY + p.1 * r.scale == CenterY(s)
    ensures s.followPlanet.None? ==> r.cameraX == s.cameraX && r.cameraY == s.cameraY
    ensures r == s.(scale := r.scale, planets := r.planets, cameraX := r.cameraX, cameraY := r.cameraY)
  {
    var scale := SmoothZoom(s.scale, s.targetScale);
    var planets :=
      if s.isPaused then s.planets
      else seq(|s.planets|, i requires 0 <= i < |s.planets| => Advanced(s.planets[i], dt, s.timeScale, advance));
    match s.followPlanet
    case None => s.(scale := scale, planets := planets)
    case Some(i) =>
      var p := position(planets[i]);
      s.(scale := scale, planets := planets,
         cameraX := CenterX(s) - p.0 * scale, cameraY := CenterY(s) - p.1 * scale)
  }
}
