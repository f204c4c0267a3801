/**
  The two static trigger boxes and the per-frame classification: a turn when
  the smoothed angle leaves the deadzone, otherwise forward or backward when
  both palm reference points lie strictly inside the upper or lower box.
 */
module Zones {
  import opened Wrappers
  import opened Commands

  /** Frame dimensions in pixels. */
  const Width: int := 1280
  const Height: int := 720

  /** `width // 2` and `height // 2` (non-negative operands: floor and Euclidean division agree). */
  const CenterX: int := Width / 2
  const CenterY: int := Height / 2

  /** Half the width of a box and the height of a box, in pixels. */
  const HalfBoxWidth: int := 100
  const BoxHeight: int := 200

  datatype Pixel = Pixel(x: int, y: int)

  /** An axis-aligned rectangle given by its top-left and bottom-right corners. */
  datatype Box = Box(topLeft: Pixel, bottomRight: Pixel)

  const TopBox: Box := Box(Pixel(CenterX - HalfBoxWidth, 0), Pixel(CenterX + HalfBoxWidth, BoxHeight))
  const BottomBox: Box := Box(Pixel(CenterX - HalfBoxWidth, Height - BoxHeight), Pixel(CenterX + HalfBoxWidth, Height))

  /** The corners the constants work out to. */
  lemma BoxCorners()
    ensures TopBox == Box(Pixel(540, 0), Pixel(740, 200))
    ensures BottomBox == Box(Pixel(540, 520), Pixel(740, 720))
  {
  }

  /** Strictly inside: a point on an edge is outside. */
  predicate Inside(p: Pixel, b: Box)
    ensures p.x == b.topLeft.x || p.x == b.bottomRight.x || p.y == b.topLeft.y || p.y == b.bottomRight.y ==> !Inside(p, b)
  {
    b.topLeft.x < p.x < b.bottomRight.x && b.topLeft.y < p.y < b.bottomRight.y
  }

  /** Both reference points (landmarks 9 and 13) are inside the box: either point lying
      on an edge of the box is enough to fail. */
  predicate BothInside(middle: Pixel, ring: Pixel, b: Box)
    ensures (|| middle.x == b.topLeft.x || middle.x == b.bottomRight.x
             || middle.y == b.topLeft.y || middle.y == b.bottomRight.y
             || ring.x == b.topLeft.x || ring.x == b.bottomRight.x
             || ring.y == b.topLeft.y || ring.y == b.bottomRight.y) ==> !BothInside(middle, ring, b)
  {
    Inside(middle, b) && Inside(ring, b)
  }

  /** No point is inside both boxes, so at most one zone can match. */
  lemma BoxesDisjoint(p: Pixel)
    ensures !(Inside(p, TopBox) && Inside(p, BottomBox))
  {
  }

  /** Half-width of the deadzone around 0 degrees. */
  const TurnThreshold: real := 20.0

  /** The turn rule: Right beyond +20 degrees, Left beyond -20, otherwise no turn. */
  function Turn(angle: real): (t: Option<Cmd>)
    ensures t.Some? <==> (angle > TurnThreshold || angle < -TurnThreshold)
    ensures t.Some? ==> t.value == (if angle > 0.0 then Right else Left)
  {
    if angle > TurnThreshold then Some(Right)
    else if angle < -TurnThreshold then Some(Left)
    else None
  }

  /** The zone rule, consulted only when no turn is active. */
  function Zone(middle: Pixel, ring: Pixel): (c: Cmd)
    ensures c == Forward <==> BothInside(middle, ring, TopBox)
    ensures c == Backward <==> BothInside(middle, ring, BottomBox)
    ensures c == Stop <==> !BothInside(middle, ring, TopBox) && !BothInside(middle, ring, BottomBox)
  {
    BoxesDisjoint(middle);
    if BothInside(middle, ring, TopBox) then Forward
    else if BothInside(middle, ring, BottomBox) then Backward
    else Stop
  }

  /** The command of one frame with a hand, from the smoothed angle and the pixel
      positions of landmarks 9 (middle finger base) and 13 (ring finger base). */
  function Classify(angle: real, middle: Pixel, ring: Pixel): (c: Cmd)
    ensures angle > TurnThreshold ==> c == Right
    ensures angle < -TurnThreshold ==> c == Left
    ensures (c == Right || c == Left) <==> (angle > TurnThreshold || angle < -TurnThreshold)
    ensures c == Forward <==> -TurnThreshold <= angle <= TurnThreshold && BothInside(middle, ring, TopBox)
    ensures c == Backward <==> -TurnThreshold <= angle <= TurnThreshold && BothInside(middle, ring, BottomBox)
  {
    match Turn(angle)
    case Some(t) => t
    case None => Zone(middle, ring)
  }

  /** A turn takes precedence: the landmark positions do not matter. */
  lemma TurnIgnoresZones(angle: real, m1: Pixel, r1: Pixel, m2: Pixel, r2: Pixel)
    requires angle > TurnThreshold || angle < -TurnThreshold
    ensures Classify(angle, m1, r1) == Classify(angle, m2, r2)
  {
  }

  /** Inside the deadzone the exact angle does not matter. */
  lemma DeadzoneIgnoresAngle(a1: real, a2: real, middle: Pixel, ring: Pixel)
    requires -TurnThreshold <= a1 <= TurnThreshold && -TurnThreshold <= a2 <= TurnThreshold
    ensures Classify(a1, middle, ring) == Classify(a2, middle, ring)
  {
  }

  /** With no turn, a reference point that is outside both boxes, or on an edge, gives Stop
      whatever the other point does. */
  lemma OutsidePointStops(angle: real, middle: Pixel, ring: Pixel)
    requires -TurnThreshold <= angle <= TurnThreshold
    requires (!Inside(middle, TopBox) && !Inside(middle, BottomBox)) || (!Inside(ring, TopBox) && !Inside(ring, BottomBox))
    ensures Classify(angle, middle, ring) == Stop
  {
  }

  /** With no turn, points split between the two boxes give Stop. */
  lemma SplitPointsStop(angle: real, middle: Pixel, ring: Pixel)
    requires -TurnThreshold <= angle <= TurnThreshold
    requires Inside(middle, TopBox) && Inside(ring, BottomBox)
    ensures Classify(angle, middle, ring) == Stop
  {
    BoxesDisjoint(middle);
    BoxesDisjoint(ring);
  }
}
