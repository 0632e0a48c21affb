/**
 * The pointer-gesture mode of the editor (src/stores/interaction_mode.rs):
 * a closed sum of four variants, held in one mutable cell that the setters
 * overwrite.
 */
module Interaction {
  import opened TextBoxes

  /**
   * `Idle` is the Rust variant `InteractionMode::None`, the resting state;
   * the other variants carry the index of the box being manipulated.
   */
  datatype InteractionMode =
    | Idle
    | Dragging(index: nat, offset: (real, real))
    | Resizing(index: nat, handle: HandleType, startPos: (real, real))
    | Rotating(index: nat, startAngle: real)

  /** The store cell that holds the current mode. */
  class ModeCell {
    var mode: InteractionMode

    constructor (initial: InteractionMode)
      ensures mode == initial
    {
      mode := initial;
    }

    /** The store's plain `set`: the new mode replaces the old one whatever it was. */
    method Set(m: InteractionMode)
      modifies this
      ensures mode == m
    {
      mode := m;
    }

    /** `set_dragging` */
    method SetDragging(index: nat, offset: (real, real))
      modifies this
      ensures mode == Dragging(index, offset)
    {
      Set(Dragging(index, offset));
    }

    /** `set_resize` */
    method SetResize(index: nat, handle: HandleType, startPos: (real, real))
      modifies this
      ensures mode == Resizing(index, handle, startPos)
    {
      Set(Resizing(index, handle, startPos));
    }

    /** `set_rotating` */
    method SetRotating(index: nat, startAngle: real)
      modifies this
      ensures mode == Rotating(index, startAngle)
    {
      Set(Rotating(index, startAngle));
    }
  }
}
