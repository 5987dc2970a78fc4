/** The draggable note: the drop-zone test and the drag-gesture handler.
    Element rectangles (as `getBoundingClientRect` reports them) and the
    gesture's movement are inputs; a missing element reference is `None`. */
module PaperCard {
  import opened Wrappers
  import opened Text

  /** The vertical extent of an element's bounding rectangle. */
  datatype Rect = Rect(top: real, bottom: real)

  /** How far above the flame's top edge the drop zone begins. */
  const FlameMargin: real := 30.0

  /** The downward drag below which a drop never counts. */
  const MinDragDistance: real := 80.0

  /** `checkFlameCollision(cardY)`: both elements are mounted, the card's
      bottom edge is past the flame's top edge less the margin, and the card
      has been dragged down more than the threshold (both strict). */
  function CheckFlameCollision(flame: Option<Rect>, card: Option<Rect>, cardY: real): (hit: bool)
    ensures hit ==> flame.Some? && card.Some?
    ensures hit ==> cardY > MinDragDistance
    ensures flame.Some? && card.Some? && cardY > MinDragDistance ==>
              (hit <==> card.value.bottom + FlameMargin > flame.value.top)
  {
    match (flame, card)
    case (Some(f), Some(c)) => c.bottom > f.top - FlameMargin && cardY > MinDragDistance
    case _ => false
  }

  /** A drag of exactly the threshold, or less, never collides. */
  lemma ThresholdIsStrict(flame: Option<Rect>, card: Option<Rect>, cardY: real)
    requires cardY <= MinDragDistance
    ensures !CheckFlameCollision(flame, card, cardY)
  {
  }

  /** Moving further into the zone keeps the collision: a lower card bottom
      edge or a longer drag never turns a hit into a miss. */
  lemma CollisionMonotone(f: Rect, c: Rect, cardY: real, c': Rect, cardY': real)
    requires CheckFlameCollision(Some(f), Some(c), cardY)
    requires c'.bottom >= c.bottom && cardY' >= cardY
    ensures CheckFlameCollision(Some(f), Some(c'), cardY')
  {
  }

  /** The callbacks one gesture event fires: `onDragStart`, `onDragEnd`
      with its proximity argument, and `onBurn`. */
  datatype Fired = Fired(dragStart: bool, dragEnd: Option<bool>, burn: bool)

  const NoCallbacks: Fired := Fired(false, None, false)

  /** The card's drag state: the `isDragging` cell and the motion values. */
  class Card {
    const disabled: bool
    var isDragging: bool
    var x: real
    var y: real

    constructor (disabled: bool)
      ensures this.disabled == disabled
      ensures !isDragging && x == 0.0 && y == 0.0
    {
      this.disabled := disabled;
      isDragging := false;
      x, y := 0.0, 0.0;
    }

    /** The `useDrag` callback for one gesture event with `active` and
        `movement = (mx, my)`, while the note reads `value`.
        While active the card follows the pointer and reports proximity; on
        release it either asks for a burn (near the flame with non-blank
        text, position kept) or snaps back to the origin and reports
        "not near". A disabled card ignores every event. */
    method OnDrag(active: bool, mx: real, my: real, flame: Option<Rect>, card: Option<Rect>, value: string)
      returns (fired: Fired)
      modifies this
      ensures disabled ==> isDragging == old(isDragging) && x == old(x) && y == old(y) && fired == NoCallbacks
      ensures !disabled ==> isDragging == active
      ensures !disabled && active ==>
                x == mx && y == my && fired == Fired(true, Some(CheckFlameCollision(flame, card, my)), false)
      ensures !disabled && !active && CheckFlameCollision(flame, card, my) && !IsBlank(value) ==>
                x == old(x) && y == old(y) && fired == Fired(false, None, true)
      ensures !disabled && !active && !(CheckFlameCollision(flame, card, my) && !IsBlank(value)) ==>
                x == 0.0 && y == 0.0 && fired == Fired(false, Some(false), false)
    {
      if disabled {
        return NoCallbacks;
      }
      isDragging := active;
      if active {
        x, y := mx, my;
        var near := CheckFlameCollision(flame, card, my);
        fired := Fired(true, Some(near), false);
      } else if CheckFlameCollision(flame, card, my) && !IsBlank(value) {
        fired := Fired(false, None, true);
      } else {
        x, y := 0.0, 0.0;
        fired := Fired(false, Some(false), false);
      }
    }
  }
}
