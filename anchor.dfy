/**
 * The artwork's anchor: the point, in percent of the preview container,
 * where the centre of the artwork is pinned. A pointer position in client
 * coordinates is converted to percentages of the container's bounding box
 * and each axis is clamped to [10, 90].
 */
module Anchor {

  import opened Optional

  const MinPercent: real := 10.0
  const MaxPercent: real := 90.0

  /** Anchor position, in percent of the container's width and height. */
  datatype Position = Position(x: real, y: real)

  const DefaultPosition: Position := Position(50.0, 50.0)

  /** The container's bounding box in client coordinates. */
  datatype Rect = Rect(left: real, top: real, width: real, height: real)

  predicate InBounds(p: Position) {
    MinPercent <= p.x <= MaxPercent && MinPercent <= p.y <= MaxPercent
  }

  /** `max(lo, min(hi, v))`: the point of [lo, hi] closest to `v`. */
  function Clamp(v: real, lo: real, hi: real): (c: real)
    requires lo <= hi
    ensures lo <= c <= hi
    ensures lo <= v <= hi ==> c == v
    ensures v < lo ==> c == lo
    ensures hi < v ==> c == hi
  {
    if hi < v then hi else if v < lo then lo else v
  }

  /** Offset of a client coordinate into the box, in percent of its extent. */
  function Percent(client: real, origin: real, extent: real): real
    requires extent > 0.0
  {
    (client - origin) / extent * 100.0
  }

  /**
   * The anchor a pointer at (clientX, clientY) designates, or None while
   * the container is not mounted. Pointer events reach the handlers only
   * through the container, so a mounted container has a non-empty box.
   */
  function PositionFromEvent(container: Option<Rect>, clientX: real, clientY: real): (p: Option<Position>)
    requires container.Some? ==> container.value.width > 0.0 && container.value.height > 0.0
    ensures p.Some? <==> container.Some?
    ensures p.Some? ==> InBounds(p.value)
    ensures p.Some? ==> p.value.x == Clamp(Percent(clientX, container.value.left, container.value.width), MinPercent, MaxPercent)
    ensures p.Some? ==> p.value.y == Clamp(Percent(clientY, container.value.top, container.value.height), MinPercent, MaxPercent)
  {
    match container
    case None => None
    case Some(rect) =>
      var x := Percent(clientX, rect.left, rect.width);
      var y := Percent(clientY, rect.top, rect.height);
      Some(Position(Clamp(x, MinPercent, MaxPercent), Clamp(y, MinPercent, MaxPercent)))
  }

  /**
   * A pointer inside the central 80% of the container's width lands
   * exactly under itself: clamping only acts on pointers outside it.
   */
  lemma PointerInsideIsExact(rect: Rect, clientX: real, clientY: real)
    requires rect.width > 0.0 && rect.height > 0.0
    requires rect.left + rect.width / 10.0 <= clientX <= rect.left + rect.width * 9.0 / 10.0
    ensures PositionFromEvent(Some(rect), clientX, clientY).value.x == (clientX - rect.left) / rect.width * 100.0
  {
    var t := (clientX - rect.left) / rect.width;
    assert rect.width / 10.0 <= clientX - rect.left <= rect.width * 9.0 / 10.0;
    assert t * rect.width == clientX - rect.left;
    assert 1.0 / 10.0 <= t <= 9.0 / 10.0;
  }

  /** Moving the pointer right (down) never moves the anchor left (up). */
  lemma PositionMonotone(rect: Rect, x1: real, y1: real, x2: real, y2: real)
    requires rect.width > 0.0 && rect.height > 0.0
    requires x1 <= x2 && y1 <= y2
    ensures PositionFromEvent(Some(rect), x1, y1).value.x <= PositionFromEvent(Some(rect), x2, y2).value.x
    ensures PositionFromEvent(Some(rect), x1, y1).value.y <= PositionFromEvent(Some(rect), x2, y2).value.y
  {
    PercentMonotone(x1, x2, rect.left, rect.width);
    PercentMonotone(y1, y2, rect.top, rect.height);
  }

  lemma PercentMonotone(a: real, b: real, origin: real, extent: real)
    requires a <= b && extent > 0.0
    ensures Percent(a, origin, extent) <= Percent(b, origin, extent)
  {
    var ta, tb := (a - origin) / extent, (b - origin) / extent;
    assert ta * extent == a - origin && tb * extent == b - origin;
    if ta > tb {
      assert (ta - tb) * extent > 0.0;
    }
  }

  /** Clamping is idempotent: an in-bounds anchor is a fixed point. */
  lemma ClampIdempotent(v: real, lo: real, hi: real)
    requires lo <= hi
    ensures Clamp(Clamp(v, lo, hi), lo, hi) == Clamp(v, lo, hi)
  {
  }
}
