/**
 * Discrete level stepping: the simulation keeps its time scale and its zoom
 * target on short, fixed, ascending lists of permitted values, and the speed
 * and zoom controls move to the neighbouring entry, clamping at both ends.
 */
module Levels {
  import opened Optional

  /** Permitted time-scale multipliers (simulation.py:302). */
  const SpeedLevels: seq<real> := [0.1, 0.5, 1.0, 2.0, 5.0, 10.0, 20.0, 30.0, 40.0, 50.0]

  /** Permitted zoom targets (simulation.py:324). */
  const ZoomLevels: seq<real> := [0.5, 1.0, 2.0, 5.0, 8.0]

  predicate Ascending(levels: seq<real>) {
    forall i, j :: 0 <= i < j < |levels| ==> levels[i] < levels[j]
  }

  function Last(levels: seq<real>): real
    requires |levels| > 0
  {
    levels[|levels| - 1]
  }

  lemma SpeedLevelsAscending()
    ensures Ascending(SpeedLevels)
  {
  }

  lemma ZoomLevelsAscending()
    ensures Ascending(ZoomLevels)
  {
  }

  /** Index of the first level, in list order, strictly above `v`: the forward scan. */
  function FirstAbove(levels: seq<real>, v: real): (r: Option<nat>)
    ensures r.Some? ==> r.value < |levels| && v < levels[r.value]
    ensures r.Some? ==> forall j :: 0 <= j < r.value ==> levels[j] <= v
    ensures r.None? ==> forall j :: 0 <= j < |levels| ==> levels[j] <= v
  {
    if |levels| == 0 then None
    else if v < levels[0] then Some(0)
    else match FirstAbove(levels[1..], v)
      case None => None
      case Some(k) => Some(k + 1)
  }

  /** Index of the last level, in list order, strictly below `v`: the scan over the reversed list. */
  function LastBelow(levels: seq<real>, v: real): (r: Option<nat>)
    ensures r.Some? ==> r.value < |levels| && levels[r.value] < v
    ensures r.Some? ==> forall j :: r.value < j < |levels| ==> v <= levels[j]
    ensures r.None? ==> forall j :: 0 <= j < |levels| ==> v <= levels[j]
  {
    if |levels| == 0 then None
    else if levels[|levels| - 1] < v then Some(|levels| - 1)
    else LastBelow(levels[..|levels| - 1], v)
  }

  /**
   * One step up: the first listed level above `v`; when there is none, the
   * source's fallback moves `v` to the top level if it is below it (which a
   * failed scan rules out), and otherwise leaves `v` in place.
   */
  function StepUp(levels: seq<real>, v: real): (r: real)
    requires |levels| > 0 && Ascending(levels)
    ensures v < Last(levels) ==> r in levels && v < r
    ensures v < Last(levels) ==> forall l :: l in levels && v < l ==> r <= l
    ensures Last(levels) <= v ==> r == v
  {
    var top := Last(levels);
    match FirstAbove(levels, v)
    case Some(i) => levels[i]
    case None => if v < top then top else v
  }

  /** One step down, symmetric to StepUp, with the bottom level as fallback. */
  function StepDown(levels: seq<real>, v: real): (r: real)
    requires |levels| > 0 && Ascending(levels)
    ensures levels[0] < v ==> r in levels && r < v
    ensures levels[0] < v ==> forall l :: l in levels && l < v ==> l <= r
    ensures v <= levels[0] ==> r == v
  {
    var bottom := levels[0];
    match LastBelow(levels, v)
    case Some(i) => levels[i]
    case None => if bottom < v then bottom else v
  }

  /** A step in either direction moves toward its end of the list and lands on a listed level or stays put. */
  function Step(levels: seq<real>, v: real, up: bool): (r: real)
    requires |levels| > 0 && Ascending(levels)
    ensures r in levels || r == v
    ensures up ==> v <= r
    ensures !up ==> r <= v
  {
    if up then StepUp(levels, v) else StepDown(levels, v)
  }

  /**
   * Reference definition: stepping by position in the list, clamping the
   * index at both ends.
   */
  function IndexStep(levels: seq<real>, i: nat, up: bool): real
    requires i < |levels|
  {
    if up then levels[if i + 1 < |levels| then i + 1 else i]
    else levels[if i == 0 then 0 else i - 1]
  }

  /** On a listed level the value scan and the index step agree, in both directions. */
  lemma StepMatchesIndexStep(levels: seq<real>, i: nat, up: bool)
    requires Ascending(levels) && i < |levels|
    ensures Step(levels, levels[i], up) == IndexStep(levels, i, up)
  {
  }

  /** `n` consecutive steps in one direction. */
  function Repeat(levels: seq<real>, v: real, up: bool, n: nat): real
    requires |levels| > 0 && Ascending(levels)
    decreases n
  {
    if n == 0 then v else Repeat(levels, Step(levels, v, up), up, n - 1)
  }

  /** From the level at index `i`, `n` steps land on index `i + n` (or `i - n`), clamped to the list. */
  lemma {:induction false} RepeatWalksIndex(levels: seq<real>, i: nat, up: bool, n: nat)
    requires Ascending(levels) && i < |levels|
    ensures up ==> Repeat(levels, levels[i], up, n) == levels[if i + n < |levels| then i + n else |levels| - 1]
    ensures !up ==> Repeat(levels, levels[i], up, n) == levels[if n <= i then i - n else 0]
    decreases n
  {
    if n > 0 {
      StepMatchesIndexStep(levels, i, up);
      var i' := if up then (if i + 1 < |levels| then i + 1 else i) else (if i == 0 then 0 else i - 1);
      assert Step(levels, levels[i], up) == levels[i'];
      RepeatWalksIndex(levels, i', up, n - 1);
    }
  }

  /** Stepping never leaves the list: a listed level steps to a listed level. */
  lemma StepStaysListed(levels: seq<real>, v: real, up: bool)
    requires |levels| > 0 && Ascending(levels) && v in levels
    ensures Step(levels, v, up) in levels
  {
  }
}
