/** Obstacles of the endless runner, their lethal hit boxes and the collision
 *  test (src/pages/FunPage.tsx, getObstacleHitbox and isColliding). */
module RunnerGeometry {

  datatype Kind = Ground | Flying

  datatype Obstacle = Obstacle(id: int, kind: Kind, x: real, y: real, width: real, height: real)

  /** An axis-aligned rectangle in screen coordinates: y grows downwards. */
  datatype Rect = Rect(x: real, y: real, width: real, height: real)

  /** The rectangle an obstacle is drawn in. */
  function Box(o: Obstacle): Rect {
    Rect(o.x, o.y, o.width, o.height)
  }

  predicate Inside(inner: Rect, outer: Rect) {
    && outer.x <= inner.x && inner.x + inner.width <= outer.x + outer.width
    && outer.y <= inner.y && inner.y + inner.height <= outer.y + outer.height
  }

  /** Strict overlap: rectangles that only share an edge do not overlap. */
  predicate Overlaps(a: Rect, b: Rect) {
    && a.x < b.x + b.width && a.x + a.width > b.x
    && a.y < b.y + b.height && a.y + a.height > b.y
  }

  /** Two rectangles are apart when one lies entirely on one side of the other,
   *  touching allowed. */
  predicate Apart(a: Rect, b: Rect) {
    || a.x + a.width <= b.x || b.x + b.width <= a.x
    || a.y + a.height <= b.y || b.y + b.height <= a.y
  }

  /** The lethal area of an obstacle, smaller than its sprite: a ground
   *  obstacle loses 22% of its width on each side and 18% of its height at the
   *  top; a flying one loses 28% of its width on the left, 12.6% on the right
   *  and 20% of its height at the top and at the bottom. */
  function Hitbox(o: Obstacle): (h: Rect)
    ensures o.width > 0.0 && o.height > 0.0 ==> Inside(h, Box(o)) && h.width > 0.0 && h.height > 0.0
    ensures o.kind == Ground ==>
      && h.x - o.x == 0.22 * o.width && (o.x + o.width) - (h.x + h.width) == 0.22 * o.width
      && h.y - o.y == 0.18 * o.height && h.y + h.height == o.y + o.height
    ensures o.kind == Flying ==>
      && h.x - o.x == 0.28 * o.width && (o.x + o.width) - (h.x + h.width) == 0.126 * o.width
      && h.y - o.y == 0.2 * o.height && (o.y + o.height) - (h.y + h.height) == 0.2 * o.height
  {
    match o.kind
    case Flying =>
      var insetX := o.width * 0.28;
      var insetY := o.height * 0.2;
      Rect(o.x + insetX, o.y + insetY, o.width - insetX * 1.45, o.height - insetY * 2.0)
    case Ground =>
      var sideInset := o.width * 0.22;
      var topInset := o.height * 0.18;
      Rect(o.x + sideInset, o.y + topInset, o.width - sideInset * 2.0, o.height - topInset)
  }

  /** The player's box hits an obstacle when it strictly overlaps the hit box.
   *  So a hit always means the sprites overlap too. A player box lying inside
   *  the hit box is always a hit. A player box that only touches the hit box,
   *  or lies apart from it, is never a hit, however much the sprites overlap. */
  function IsColliding(player: Rect, o: Obstacle): (hit: bool)
    ensures hit && o.width > 0.0 && o.height > 0.0 ==> Overlaps(player, Box(o))
    ensures Inside(player, Hitbox(o)) && player.width > 0.0 && player.height > 0.0 ==> hit
    ensures Apart(player, Hitbox(o)) ==> !hit
  {
    var h := Hitbox(o);
    && player.x < h.x + h.width
    && player.x + player.width > h.x
    && player.y < h.y + h.height
    && player.y + player.height > h.y
  }
}
