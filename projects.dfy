/** A project card: it tilts towards the pointer while the pointer is over
    it, grows slightly while hovered, and springs back when the pointer
    leaves. Angles are in degrees. */
module Projects {
  import opened Wrappers

  /** Largest tilt, reached at the card's edges. */
  const MaxTilt: real := 10.0
  /** Scale of a hovered card. */
  const HoverScale: real := 1.02

  datatype Rotation = Rotation(x: real, y: real)

  /** The card's bounding box on screen. */
  datatype Rect = Rect(left: real, top: real, width: real, height: real)

  const Flat: Rotation := Rotation(0.0, 0.0)

  lemma QuotientSign(a: real, b: real)
    requires 0.0 < b
    ensures a / b * b == a
    ensures a / b == 0.0 <==> a == 0.0
    ensures 0.0 < a / b <==> 0.0 < a
    ensures -b <= a <= b ==> -1.0 <= a / b <= 1.0
  {
    assert a / b * b == a;
  }

  /** The tilt for a pointer at (x, y) relative to the card's top left
      corner, for a card of the given size: rotateX from the vertical
      offset, negated, and rotateY from the horizontal offset, each the offset
      from the centre as a fraction of half the side, times 10. Inside the
      card both angles lie in [-10, 10]; at the centre both are 0; below the
      centre rotateX is negative and right of it rotateY is positive. */
  function TiltAngles(x: real, y: real, width: real, height: real): (r: Rotation)
    requires 0.0 < width && 0.0 < height
    ensures 0.0 <= x <= width && 0.0 <= y <= height ==>
      -MaxTilt <= r.x <= MaxTilt && -MaxTilt <= r.y <= MaxTilt
    ensures r.x == 0.0 <==> y == height / 2.0
    ensures r.x < 0.0 <==> y > height / 2.0
    ensures r.y == 0.0 <==> x == width / 2.0
    ensures r.y > 0.0 <==> x > width / 2.0
  {
    var centerX := width / 2.0;
    var centerY := height / 2.0;
    QuotientSign(y - centerY, centerY);
    QuotientSign(x - centerX, centerX);
    Rotation(((y - centerY) / centerY) * -MaxTilt, ((x - centerX) / centerX) * MaxTilt)
  }

  /** The card's scale: 1.02 while hovered, 1 otherwise. */
  function CardScale(isHovered: bool): (s: real)
    ensures 1.0 <= s <= HoverScale
    ensures s == HoverScale <==> isHovered
  {
    if isHovered then HoverScale else 1.0
  }

  /** Centre of the shine gradient, in percent of the card: it moves twice
      the tilt angle away from the middle, so a flat card has it in the
      middle and a card tilted at most MaxTilt keeps it within [30, 70]. */
  function ShineCentre(r: Rotation): (c: (real, real))
    ensures r == Flat ==> c == (50.0, 50.0)
    ensures -MaxTilt <= r.x <= MaxTilt && -MaxTilt <= r.y <= MaxTilt ==>
      30.0 <= c.0 <= 70.0 && 30.0 <= c.1 <= 70.0
    ensures c.0 > 50.0 <==> r.y > 0.0
    ensures c.1 > 50.0 <==> r.x > 0.0
  {
    (50.0 + r.y * 2.0, 50.0 + r.x * 2.0)
  }

  class ProjectCard {
    var rotation: Rotation
    var isHovered: bool

    constructor ()
      ensures rotation == Flat && !isHovered
    {
      rotation := Flat;
      isHovered := false;
    }

    /** Pointer move at (clientX, clientY). Without a card element (card is
        None) nothing changes; otherwise the rotation becomes the tilt for
        the pointer's position inside the card. */
    method HandleMouseMove(clientX: real, clientY: real, card: Option<Rect>)
      requires card.Some? ==> 0.0 < card.value.width && 0.0 < card.value.height
      modifies this`rotation
      ensures card.None? ==> rotation == old(rotation)
      ensures card.Some? ==>
        rotation == TiltAngles(clientX - card.value.left, clientY - card.value.top, card.value.width, card.value.height)
    {
      if card.None? {
        return;
      }
      var rect := card.value;
      var x := clientX - rect.left;
      var y := clientY - rect.top;
      var centerX := rect.width / 2.0;
      var centerY := rect.height / 2.0;
      var rotateX := ((y - centerY) / centerY) * -MaxTilt;
      var rotateY := ((x - centerX) / centerX) * MaxTilt;
      rotation := Rotation(rotateX, rotateY);
    }

    method HandleMouseEnter()
      modifies this`isHovered
      ensures isHovered
      ensures CardScale(isHovered) == HoverScale
    {
      isHovered := true;
    }

    /** Pointer leaves: the card lies flat again and is no longer hovered. */
    method HandleMouseLeave()
      modifies this
      ensures rotation == Flat && !isHovered
      ensures CardScale(isHovered) == 1.0
    {
      rotation := Flat;
      isHovered := false;
    }
  }
}
