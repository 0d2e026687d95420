/**
  The part of pygame's integer rectangle that the game relies on: the
  600x580 screen, placing a sprite by its centre, moving, clamping a
  rectangle into the screen and the overlap test used by every collision.
 */
module Geometry {

  const ScreenWidth: int := 600
  const ScreenHeight: int := 580

  datatype Option<T> = None | Some(value: T)

  /** An axis-aligned rectangle: top-left corner and size, in pixels. */
  datatype Rect = Rect(left: int, top: int, width: nat, height: nat) {
    function Right(): int { left + width }
    function Bottom(): int { top + height }
    function CenterX(): int { left + width / 2 }
    function CenterY(): int { top + height / 2 }

    /** `move_ip(dx, dy)`: the same rectangle, translated. */
    function Move(dx: int, dy: int): (r: Rect)
      ensures r.width == width && r.height == height
      ensures r.CenterX() == CenterX() + dx && r.CenterY() == CenterY() + dy
    {
      Rect(left + dx, top + dy, width, height)
    }

    /** The rectangle lies entirely within `c`. */
    predicate Inside(c: Rect) {
      c.left <= left && Right() <= c.Right() && c.top <= top && Bottom() <= c.Bottom()
    }
  }

  const Screen: Rect := Rect(0, 0, ScreenWidth as nat, ScreenHeight as nat)

  /** A rectangle of the given size whose centre is (cx, cy), as pygame's
      `rect.center = pos` places it (half sizes round down). */
  function AtCenter(cx: int, cy: int, width: nat, height: nat): (r: Rect)
    ensures r.CenterX() == cx && r.CenterY() == cy
    ensures r.width == width && r.height == height
  {
    Rect(cx - width / 2, cy - height / 2, width, height)
  }

  /** pygame's `colliderect`: the interiors intersect (touching edges do not). */
  predicate Overlaps(a: Rect, b: Rect) {
    a.left < b.Right() && b.left < a.Right() && a.top < b.Bottom() && b.top < a.Bottom()
  }

  /** One axis of `Rect.clamp`: a span of `size` starting at `pos` is pushed
      back into [lo, lo + room); one at least as long as the room is centred. */
  function ClampAxis(pos: int, size: nat, lo: int, room: nat): (p: int)
    ensures size <= room ==> lo <= p && p + size <= lo + room
    ensures lo <= pos && pos + size <= lo + room ==> p == pos
    ensures size < room && pos < lo ==> p == lo
    ensures size < room && lo + room < pos + size ==> p == lo + room - size
  {
    if size >= room then lo + room / 2 - size / 2
    else if pos < lo then lo
    else if pos + size > lo + room then lo + room - size
    else pos
  }

  /** `r.clamp(c)`: `r` moved as little as possible to lie inside `c`. */
  function Clamp(r: Rect, c: Rect): (q: Rect)
    ensures q.width == r.width && q.height == r.height
    ensures r.width <= c.width && r.height <= c.height ==> q.Inside(c)
    ensures r.Inside(c) ==> q == r
  {
    Rect(ClampAxis(r.left, r.width, c.left, c.width),
         ClampAxis(r.top, r.height, c.top, c.height),
         r.width, r.height)
  }
}
