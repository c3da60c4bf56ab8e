/** The part of pygame's integer rectangle that the game uses: a top-left
    corner and a non-negative size, the derived edges, the three position
    setters the game calls, and the two hit tests. */
module Rects {

  datatype Rect = Rect(x: int, y: int, w: nat, h: nat) {
    function Left(): int { x }
    function Right(): int { x + w }
    function Top(): int { y }
    function Bottom(): int { y + h }
    /** pygame's centre getters round half a size down. */
    function CenterX(): int { x + w / 2 }
    function CenterY(): int { y + h / 2 }
  }

  /** `image.get_rect()`: a rectangle of the image's size at the origin. */
  function SizedAt0(w: nat, h: nat): (r: Rect)
    ensures r.Left() == 0 && r.Top() == 0 && r.Right() == w && r.Bottom() == h
  {
    Rect(0, 0, w, h)
  }

  /** `rect.center = [cx, cy]`: moves the rectangle so that reading its centre
      back gives (cx, cy); the size is kept. */
  function WithCenter(r: Rect, cx: int, cy: int): (c: Rect)
    ensures c.w == r.w && c.h == r.h
    ensures c.CenterX() == cx && c.CenterY() == cy
  {
    r.(x := cx - r.w / 2, y := cy - r.h / 2)
  }

  /** `rect.bottomleft = [left, bottom]`. */
  function WithBottomLeft(r: Rect, left: int, bottom: int): (c: Rect)
    ensures c.w == r.w && c.h == r.h
    ensures c.Left() == left && c.Bottom() == bottom
  {
    r.(x := left, y := bottom - r.h)
  }

  /** `rect.topleft = [left, top]`. */
  function WithTopLeft(r: Rect, left: int, top: int): (c: Rect)
    ensures c.w == r.w && c.h == r.h
    ensures c.Left() == left && c.Top() == top
  {
    r.(x := left, y := top)
  }

  /** `a.colliderect(b)` as pygame 2 defines it: rectangles of zero size touch
      nothing, and edges that only meet do not overlap. */
  predicate Overlaps(a: Rect, b: Rect)
  {
    a.w > 0 && a.h > 0 && b.w > 0 && b.h > 0 &&
    a.Left() < b.Right() && b.Left() < a.Right() &&
    a.Top() < b.Bottom() && b.Top() < a.Bottom()
  }

  /** `r.collidepoint((px, py))`: half-open on both axes. */
  predicate ContainsPoint(r: Rect, px: int, py: int)
  {
    r.Left() <= px < r.Right() && r.Top() <= py < r.Bottom()
  }
}
