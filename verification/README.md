# Solar-system simulation: interactive control state

A Dafny model of the interactive core of `SolarSystemSimulation` (`simulation.py`):
the single record that holds the simulation clock (pause flag, time scale), the
camera (pan offset, current and target zoom, followed planet) and the pause
button's label, and the pure transitions applied to it by the seven buttons,
the keyboard, and each frame's update.

Modules, one file each:

- `Optional` (`optional.dfy`): `Option`, standing in for Python's `None`.
- `Levels` (`levels.dfy`): the two fixed level lists (speed
  `[0.1, 0.5, 1, 2, 5, 10, 20, 30, 40, 50]`, zoom `[0.5, 1, 2, 5, 8]`) and
  stepping through them. The stepping is written as the source's scan: the
  first listed level above the value, or the last listed level below it, and
  then the fallback "move to the end level if still short of it". A
  position-based step that clamps the index is the reference it is proved equal to.
- `Buttons` (`buttons.dfy`): the seven button rectangles, half-open
  rectangle containment, and the first-match hit test.
- `Simulation` (`simulation.dfy`): the `State` record, the constructor
  defaults, the pause toggle, speed and zoom changes, the view reset, the
  "follow Earth" toggle, button and key dispatch, click handling, and the
  per-frame update (zoom smoothing, planet advance unless paused, follow camera).
- `SimulationProperties` (`properties.dfy`): properties relating several
  transitions. These are the self-inverse toggles, button/key agreement,
  walks to the ends of the level lists, convergence of the zoom smoothing,
  frames while paused, and the invariant kept from the initial state by any
  sequence of clicks, key presses and frames.

Modelling choices:

- Levels, scales and camera coordinates are `real`: the model states exact
  arithmetic, not IEEE rounding.
- The window size is an `int`. `window_width // 2` is Python floor division by
  a positive divisor, which agrees with Dafny's Euclidean `/ 2`.
- A planet is its name, its own orbit speed and its orbit angle. The planet's own per-frame update
  (`planet.update(delta_time, time_scale)`), as a function from the planet
  (and so its own orbit speed), the frame time and the time scale to the
  new angle, and its `get_position()` are parameters of `Update`
  (`advance`, `position`), since `planet.py` is not part
  of this model.
- Python's dictionary of buttons is iterated in insertion order; `Layout`
  lists the buttons in that order.

## Model

| member | source | states |
|---|---|---|
| Levels.FirstAbove | simulation.py:306-309 | the forward scan finds a level strictly above the value with every earlier level at or below it, or reports that every level is at or below it |
| Levels.LastBelow | simulation.py:315-318 | the reversed scan finds a level strictly below the value with every later level at or above it, or reports that every level is at or above it |
| Levels.StepUp | simulation.py:304-312 | below the top level, the result is the least listed level strictly above the value; at or above the top, the value is kept (the fallback never changes anything) |
| Levels.StepDown | simulation.py:313-321 | above the bottom level, the result is the greatest listed level strictly below the value; at or below the bottom, the value is kept |
| Levels.Step | simulation.py:301-321 | a step up never lowers the value and a step down never raises it, and the result is a listed level or the value itself |
| Levels.StepMatchesIndexStep | simulation.py:301-321 | on a listed level, the value scan equals stepping the index by one, clamped at both ends, in both directions |
| Levels.RepeatWalksIndex | simulation.py:301-341 | n steps from index i land on index i+n (or i-n), clamped to the list, so repeated steps reach an end and then hold there |
| Levels.StepStaysListed | simulation.py:301-321 | a listed level always steps to a listed level |
| Buttons.RectOf | simulation.py:77-85 | the seven button rectangles all lie in the bar spanning rows 10 to 49 and columns 10 to 529, each 40 high and non-empty |
| Buttons.Contains | simulation.py:213 | a point can only lie in a non-empty rectangle |
| Buttons.ContainsHalfOpen | simulation.py:213 | the left and top edges of a rectangle belong to it, the right and bottom edges do not |
| Buttons.HitTest | simulation.py:211-216 | a selected button's rectangle contains the click, and no selection means no button's rectangle contains it |
| Buttons.FirstHit | simulation.py:211-216 | the first-match scan returns a button whose rectangle contains the point, or none when no listed rectangle contains it |
| Buttons.RectsDisjoint | simulation.py:77-85 | no point lies in two button rectangles |
| Buttons.HitTestExact | simulation.py:211-216 | a click selects button b if and only if it lies in b's half-open rectangle |
| Buttons.HitTestBarOnly | simulation.py:77-85 | a click above row 10 or at or below row 50 selects no button |
| Simulation.Init | simulation.py:10-21 | the constructor's state is well formed and uses the given window and planets: running, label 'Pause', time scale, zoom target and scale all 1, camera at the window centre, nothing followed |
| Simulation.TogglePause | simulation.py:219-221 | the pause flag flips, the label reads 'Start' exactly when paused, and nothing else changes |
| Simulation.ChangeSpeed | simulation.py:301-321 | the time scale moves to the nearest listed level above (up) or below (down) it, holds at 50 and 0.1, and nothing else changes |
| Simulation.ChangeZoom | simulation.py:323-341 | the zoom target moves to the nearest listed level above (in) or below (out) it, holds at 8 and 0.5, and nothing else changes, the current scale included |
| Simulation.ResetCamera | simulation.py:235-239 | camera at the floor-halved window centre, zoom target 1, nothing followed, every other field unchanged |
| Simulation.IndexOfName | simulation.py:243-247 | returns the index of the first planet with the given name, or none when no planet has it |
| Simulation.ToggleFollowEarth | simulation.py:241-259 | with no Earth the state is unchanged; when the first Earth is followed the view is reset; otherwise that Earth is followed with zoom target 2 and nothing else changes |
| Simulation.HandleButtonClick | simulation.py:218-259 | each button performs its one transition (pause toggle, speed down/up, zoom in/out, reset, follow toggle); a button never touches planets or the current scale, keeps the invariant, and only its own control changes its fields |
| Simulation.HandleKeypress | simulation.py:262-298 | SPACE toggles pause, + and = zoom in, - zooms out, UP/DOWN change speed, R resets, E toggles follow; only the matching control changes its fields, and any other key changes nothing |
| Simulation.HandleClick | simulation.py:211-216 | a click is handled exactly when it hits some button, applies that button's transition, and otherwise leaves the state unchanged |
| Simulation.SmoothZoom | simulation.py:89-92 | within 0.01 of the target the scale snaps to it; otherwise the new scale lies strictly between the old scale and the target, and the gap shrinks by the factor 0.95 |
| Simulation.Update | simulation.py:87-103 | zoom is smoothed; planets advance their orbit angle, each by its own rule, with the frame time and time scale only when running, keeping their names and speeds; when following, the camera puts the followed planet, after its advance, at the window centre at the new scale; otherwise the camera is unchanged; nothing else changes |
| SimulationProperties.TogglePauseTwice | simulation.py:264-266 | pausing twice restores the state, label included |
| SimulationProperties.FollowEarthTwice | simulation.py:280-298 | from a state not following Earth, the follow toggle follows Earth at zoom 2, and a second press yields exactly the reset view of the original state |
| SimulationProperties.ResetKeepsClock | simulation.py:275-279 | reset leaves time scale, pause and current scale unchanged, and is idempotent |
| SimulationProperties.ButtonsMatchKeys | simulation.py:262-298 | each button and its key (SPACE, DOWN, UP, +, -, R, E) produce identical transitions, and '=' acts as '+' |
| SimulationProperties.SpeedScenarios | simulation.py:301-321 | speed 1 steps up to 2; 50 stays 50 going up; 0.1 stays 0.1 going down |
| SimulationProperties.ZoomOutScenario | simulation.py:334-341 | zoom target 1 steps out to 0.5, and out again stays at 0.5 |
| SimulationProperties.ZoomWalksToEnds | simulation.py:323-341 | four or more zoom steps from one end of the zoom list reach the other end and hold there |
| SimulationProperties.SpeedWalksToEnds | simulation.py:301-321 | nine or more speed steps from one end of the speed list reach the other end and hold there |
| SimulationProperties.SettleReachesTarget | simulation.py:89-92 | the zoom smoothing reaches the target exactly within n frames once n * 0.0005 covers the initial gap |
| SimulationProperties.PausedFrames | simulation.py:94-96 | while paused, any number of frames leaves every planet unchanged, while the scale still converges toward the target |
| SimulationProperties.UpdatePreservesWf | simulation.py:87-103 | a frame keeps both levels on their lists, the label in step with the pause flag, the follow index valid and the scale positive |
| SimulationProperties.Run | simulation.py:211-298 | applying any sequence of clicks, key presses and frames to a well-formed state yields a well-formed state |
| SimulationProperties.ReachableStatesWf | simulation.py:10-21 | from the constructor's defaults, every sequence of events keeps time scale and zoom target on their lists, the scale positive, the label in step and the follow index valid |

## Left out

- Drawing (`draw`, `draw_stars`, `draw_sun`, `draw_info`, `draw_buttons`, simulation.py:105-209): rendering only, no state changes. `draw_stars` reseeds the global random generator, which is also not modelled.
- `load_settings` (simulation.py:26-34): JSON file input. The window size and the planets are parameters of `Init`.
- `setup_planets` (simulation.py:36-73): its speeds and initial angles are floating-point `sqrt`/`pi` numerics passed to the `Planet` constructor, and `planet.py` is not part of this model. Planets enter the model as a sequence of names with orbit speeds and angles.
- `Planet.update` and `Planet.get_position` (simulation.py:96, 101): foreign code with trigonometry. `Update` takes them as the function parameters `advance` (planet, frame time and time scale to the new orbit angle, so each planet keeps its own speed and its name) and `position`.
- `zoom_scale` (simulation.py:11), which is never read, and `base_sun_radius` (simulation.py:13), which only `draw_sun` reads (simulation.py:144).
- Button labels other than the pause button's, and pygame's key codes: keys are a datatype with one constructor per handled key and `Other` for the rest.
- The event loop that feeds clicks, keys and frames is not part of this model. `Run` applies an event sequence in order to state the reachable-state invariant.
- IEEE floating-point rounding: the level values, the scale and the camera are exact reals.
