/**
  Geometry of the playing field: the 1280x720 canvas, the fixed sprite sizes,
  the hard clamp box that every ship move ends in, the 1-pixel inset rectangle
  that decides whether the ship is still "in bounds", and the rectangle
  overlap test used for collecting the astronaut.
*/
module Screen {

  const SCREEN_WIDTH: int := 1280
  const SCREEN_HEIGHT: int := 720

  /** The spaceship sprite is scaled to 50x50 and the astronaut to 25x25. */
  const SHIP_SIZE: int := 50
  const ASTRONAUT_SIZE: int := 25

  /** Largest top-left x and y the ship may have after a move. */
  const MAX_X: real := (SCREEN_WIDTH - SHIP_SIZE) as real
  const MAX_Y: real := (SCREEN_HEIGHT - SHIP_SIZE) as real

  /** An axis-aligned box: top-left corner, width and height. */
  datatype Rect = Rect(x: real, y: real, w: real, h: real)

  function Min(a: real, b: real): real { if a <= b then a else b }

  function Max(a: real, b: real): real { if a >= b then a else b }

  /** `max(0, min(hi, v))`: the two-step clamp applied to each ship coordinate. */
  function Clamp(v: real, hi: real): (r: real)
    requires 0.0 <= hi
    ensures 0.0 <= r <= hi
    ensures 0.0 <= v <= hi ==> r == v
    ensures v < 0.0 ==> r == 0.0
    ensures hi < v ==> r == hi
  {
    Max(0.0, Min(hi, v))
  }

  /** The box every ship position is clamped into: [0, 1230] x [0, 670]. */
  predicate InClampBox(x: real, y: real) {
    0.0 <= x <= MAX_X && 0.0 <= y <= MAX_Y
  }

  /**
    The "in bounds" test: the ship's top-left corner lies strictly inside the
    screen shrunk by one pixel, the right and bottom edges allowing for the
    ship's size.
  */
  predicate InsetBounds(x: real, y: real) {
    x > 1.0 && y > 1.0
    && x < (SCREEN_WIDTH - 1 - SHIP_SIZE) as real
    && y < (SCREEN_HEIGHT - 1 - SHIP_SIZE) as real
  }

  /** The inset test is exactly `1 < x < 1229 and 1 < y < 669`. */
  lemma InsetBoundsExactly(x: real, y: real)
    ensures InsetBounds(x, y) <==> 1.0 < x < 1229.0 && 1.0 < y < 669.0
  {
  }

  /** Every in-bounds position is inside the clamp box ... */
  lemma InsetWithinClampBox(x: real, y: real)
    requires InsetBounds(x, y)
    ensures InClampBox(x, y)
  {
  }

  /** ... but not the other way round: a clamped ship can sit on the 1-pixel margin. */
  lemma ClampBoxLeavesInset(y: real)
    requires 0.0 <= y <= MAX_Y
    ensures InClampBox(0.0, y) && !InsetBounds(0.0, y)
    ensures InClampBox(MAX_X, y) && !InsetBounds(MAX_X, y)
  {
  }

  /** Axis-aligned overlap of two boxes; touching edges do not count. */
  predicate Collide(a: Rect, b: Rect) {
    a.x < b.x + b.w && b.x < a.x + a.w && a.y < b.y + b.h && b.y < a.y + a.h
  }
}
