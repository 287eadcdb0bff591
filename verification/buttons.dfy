/**
 * The seven on-screen control buttons and the click hit test: a click is
 * routed to the first button, in layout order, whose rectangle contains it.
 */
module Buttons {
  import opened Optional

  datatype ButtonName = StartPause | SlowDown | SpeedUp | ZoomIn | ZoomOut | ResetView | FollowEarth

  /** An integer screen rectangle: left, top, width, height. */
  datatype Rect = Rect(left: int, top: int, width: int, height: int)

  /** Half-open containment: the left and top edges belong to the rectangle, the right and bottom do not. */
  predicate Contains(r: Rect, x: int, y: int)
    ensures Contains(r, x, y) ==> 0 < r.width && 0 < r.height
  {
    r.left <= x < r.left + r.width && r.top <= y < r.top + r.height
  }

  /** Every button sits in the bar spanning rows 10 to 49 and columns 10 to 529. */
  function RectOf(b: ButtonName): (r: Rect)
    ensures r.top == 10 && r.height == 40
    ensures 10 <= r.left && 0 < r.width && r.left + r.width <= 530
  {
    match b
    case StartPause => Rect(10, 10, 100, 40)
    case SlowDown => Rect(120, 10, 40, 40)
    case SpeedUp => Rect(170, 10, 40, 40)
    case ZoomIn => Rect(220, 10, 40, 40)
    case ZoomOut => Rect(270, 10, 40, 40)
    case ResetView => Rect(320, 10, 100, 40)
    case FollowEarth => Rect(430, 10, 100, 40)
  }

  /** The order in which the buttons are declared, and so tried. */
  const Layout: seq<ButtonName> := [StartPause, SlowDown, SpeedUp, ZoomIn, ZoomOut, ResetView, FollowEarth]

  /** The first button of `names` whose rectangle contains the point. */
  function FirstHit(names: seq<ButtonName>, x: int, y: int): (r: Option<ButtonName>)
    ensures r.Some? ==> r.value in names && Contains(RectOf(r.value), x, y)
    ensures r.None? ==> forall b :: b in names ==> !Contains(RectOf(b), x, y)
  {
    if |names| == 0 then None
    else if Contains(RectOf(names[0]), x, y) then Some(names[0])
    else FirstHit(names[1..], x, y)
  }

  function HitTest(x: int, y: int): (r: Option<ButtonName>)
    ensures r.Some? ==> Contains(RectOf(r.value), x, y)
    ensures r.None? ==> forall b :: !Contains(RectOf(b), x, y)
  {
    FirstHit(Layout, x, y)
  }

  /** The left and top edges belong to a non-empty rectangle; the right and bottom edges do not. */
  lemma ContainsHalfOpen(r: Rect)
    requires 0 < r.width && 0 < r.height
    ensures Contains(r, r.left, r.top)
    ensures Contains(r, r.left + r.width - 1, r.top + r.height - 1)
    ensures !Contains(r, r.left + r.width, r.top) && !Contains(r, r.left, r.top + r.height)
  {
  }

  /** No point lies on two buttons, so the layout order never decides a click. */
  lemma RectsDisjoint(b1: ButtonName, b2: ButtonName, x: int, y: int)
    requires b1 != b2
    ensures !(Contains(RectOf(b1), x, y) && Contains(RectOf(b2), x, y))
  {
  }

  /** A click selects a button exactly when it lies inside that button's rectangle. */
  lemma HitTestExact(b: ButtonName, x: int, y: int)
    ensures HitTest(x, y) == Some(b) <==> Contains(RectOf(b), x, y)
  {
  }

  /** Every click outside the button bar, which spans rows 10 to 49, selects nothing. */
  lemma HitTestBarOnly(x: int, y: int)
    requires y < 10 || 50 <= y
    ensures HitTest(x, y) == None
  {
  }
}
