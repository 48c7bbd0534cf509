/** Screen geometry of the game: integer rectangles as the windowing
    library keeps them, the truncation that turns a float coordinate into a
    rectangle coordinate, and the sub-pixel motion accumulator that every
    gameplay object uses to move by fractional amounts. */
module Geometry {

  /** The fixed window of the game, in pixels. */
  const ScreenWidth: int := 800
  const ScreenHeight: int := 640

  function Abs(r: real): real {
    if r < 0.0 then -r else r
  }

  /** Python's `int()` on a float, and the C cast the windowing library
      applies when a float is stored into a rectangle: truncation toward
      zero. */
  function Trunc(r: real): (n: int)
    ensures Abs(r - n as real) < 1.0
    ensures 0.0 <= r ==> 0 <= n && n as real <= r
    ensures r <= 0.0 ==> n <= 0 && r <= n as real
  {
    if r >= 0.0 then r.Floor else -((-r).Floor)
  }

  /** An axis-aligned rectangle with integer top-left corner and size. */
  datatype Rect = Rect(x: int, y: int, w: nat, h: nat) {

    /** `move_ip`: shift by an integer offset, keeping the size. */
    function Move(dx: int, dy: int): Rect {
      Rect(x + dx, y + dy, w, h)
    }

    /** `colliderect`: a rectangle of zero width or height touches nothing;
        otherwise the interiors must overlap on both axes, so rectangles
        that only share an edge do not collide. */
    predicate Collides(o: Rect) {
      && w > 0 && h > 0 && o.w > 0 && o.h > 0
      && x < o.x + o.w && o.x < x + w
      && y < o.y + o.h && o.y < y + h
    }

    /** `center`, with the library's integer halving of the size. */
    function Center(): (int, int) {
      (x + w / 2, y + h / 2)
    }
  }

  /** Collision is symmetric, and rectangles that meet along an edge or a
      corner do not collide. */
  lemma CollisionFacts(a: Rect, b: Rect)
    ensures a.Collides(b) <==> b.Collides(a)
    ensures a.x + a.w == b.x ==> !a.Collides(b)
    ensures a.y + a.h == b.y ==> !a.Collides(b)
  {
  }

  /** What every gameplay object shares: its rectangle, and the fractional
      motion not yet applied to it (`dx`, `dy`). */
  datatype Body = Body(rect: Rect, dx: real, dy: real) {

    /** `moveFloat`: add the deltas to the accumulators; on each axis whose
        accumulator now exceeds 1 in magnitude, move the rectangle by its
        integer part (truncated toward zero) and keep only the remainder. */
    function MoveFloat(x: real, y: real): (b: Body)
      ensures b.rect.w == rect.w && b.rect.h == rect.h
      ensures b.rect.x as real + b.dx == rect.x as real + dx + x
      ensures b.rect.y as real + b.dy == rect.y as real + dy + y
      ensures Abs(b.dx) <= 1.0 && Abs(b.dy) <= 1.0
      ensures (b.rect.x != rect.x) == (Abs(dx + x) > 1.0)
      ensures (b.rect.y != rect.y) == (Abs(dy + y) > 1.0)
      ensures b.rect.x != rect.x ==> b.rect.x - rect.x == Trunc(dx + x) && Abs(b.dx) < 1.0
      ensures b.rect.y != rect.y ==> b.rect.y - rect.y == Trunc(dy + y) && Abs(b.dy) < 1.0
    {
      var ax := dx + x;
      var ay := dy + y;
      var mx := if Abs(ax) > 1.0 then Trunc(ax) else 0;
      var my := if Abs(ay) > 1.0 then Trunc(ay) else 0;
      Body(rect.Move(mx, my), ax - mx as real, ay - my as real)
    }

    /** The same body placed elsewhere, with the accumulators untouched:
        what assigning `rect.x` or `rect.y` does. */
    function At(x: int, y: int): Body {
      Body(Rect(x, y, rect.w, rect.h), dx, dy)
    }
  }

  /** `moveFloat` called once per element of `steps`, in order. */
  function MoveMany(b: Body, steps: seq<(real, real)>): Body
    decreases |steps|
  {
    if steps == [] then b
    else MoveMany(b.MoveFloat(steps[0].0, steps[0].1), steps[1..])
  }

  function SumX(steps: seq<(real, real)>): real
    decreases |steps|
  {
    if steps == [] then 0.0 else steps[0].0 + SumX(steps[1..])
  }

  function SumY(steps: seq<(real, real)>): real
    decreases |steps|
  {
    if steps == [] then 0.0 else steps[0].1 + SumY(steps[1..])
  }

  /** No sub-pixel motion is ever lost, only delayed: after any sequence of
      `moveFloat` calls, position plus accumulator has advanced by exactly
      the sum of the deltas, so the integer position is within one pixel of
      the exact one whenever the accumulator started within one. */
  lemma {:induction false} MoveManyConserves(b: Body, steps: seq<(real, real)>)
    ensures MoveMany(b, steps).rect.x as real + MoveMany(b, steps).dx
            == b.rect.x as real + b.dx + SumX(steps)
    ensures MoveMany(b, steps).rect.y as real + MoveMany(b, steps).dy
            == b.rect.y as real + b.dy + SumY(steps)
    ensures Abs(b.dx) <= 1.0 ==>
      Abs(MoveMany(b, steps).rect.x as real - (b.rect.x as real + b.dx + SumX(steps))) <= 1.0
    ensures Abs(b.dy) <= 1.0 ==>
      Abs(MoveMany(b, steps).rect.y as real - (b.rect.y as real + b.dy + SumY(steps))) <= 1.0
    decreases |steps|
  {
    if steps != [] {
      var b1 := b.MoveFloat(steps[0].0, steps[0].1);
      MoveManyConserves(b1, steps[1..]);
    }
  }
}
