/**
 * The pointer handlers of the generator page (src/pages/generator.rs). They
 * work on the scene store directly, not through its `mouse_*` methods, but
 * each is proved to leave the store in the state the corresponding
 * transition function of module MemeCanvasStore describes, so the page and
 * the store implement one state machine.
 *
 * The pointer position arrives already converted to canvas coordinates; the
 * conversion and the redraw after each move are outside the model.
 */
module GeneratorPage {
  import opened Support
  import opened TextBoxes
  import opened Interaction
  import opened MemeCanvasStore

  /**
   * `onmousedown`: on a handle of the selected box, start rotating or
   * resizing it and stop; otherwise select the topmost box under the pointer
   * and start dragging it, or clear the selection.
   */
  method OnMouseDown(store: MemeCanvas, x: real, y: real, trig: Trig)
    modifies store, store.interactionMode
    ensures store.State() == Pressed(old(store.State()), x, y, trig)
  {
    // the `if let` chain: the selected index, the box it names, a handle of that box under the pointer
    var handle := HandleHit(store.State(), x, y, trig);
    if handle.Some? {
      GrabHandle(store, handle.value, x, y, trig);
      return;
    }
    PickBox(store, x, y, trig);
  }

  /** The handle branch of `onmousedown`: the rotate handle records the grab angle, a corner the grab point. */
  method GrabHandle(store: MemeCanvas, handle: HandleType, x: real, y: real, trig: Trig)
    requires store.selectedIndex.Some? && store.selectedIndex.value < |store.textBoxes|
    modifies store.interactionMode
    ensures store.State() == Grabbed(old(store.State()), handle, x, y, trig)
  {
    var selectedIdx := store.selectedIndex.value;
    var tb := store.textBoxes[selectedIdx];
    if handle == Rotate {
      var startAngle := trig.atan2(y - tb.y, x - tb.x) - tb.rotation;
      store.interactionMode.mode := Rotating(selectedIdx, startAngle);
    } else {
      store.interactionMode.mode := Resizing(selectedIdx, handle, (x, y));
    }
  }

  /** The rest of `onmousedown`: select the box under the pointer and drag it by the grab offset, or clear the selection. */
  method PickBox(store: MemeCanvas, x: real, y: real, trig: Trig)
    modifies store, store.interactionMode
    ensures store.State() == Picked(old(store.State()), x, y, trig)
  {
    var hit := HitTest(store.textBoxes, x, y, trig);
    if hit.Some? {
      var index := hit.value;
      store.SelectTextBox(Some(index));
      var tb := store.textBoxes[index];
      store.interactionMode.mode := Dragging(index, (x - tb.x, y - tb.y));
    } else {
      store.SelectTextBox(None);
      store.interactionMode.mode := Idle;
    }
  }

  /**
   * `onmousemove`: in the current mode, drag, rotate or rescale the box the
   * mode names, writing its fields in place; the first write of `y` in the
   * drag branch is overwritten by the second.
   */
  method OnMouseMove(store: MemeCanvas, mouseX: real, mouseY: real, trig: Trig)
    requires ResizeDefined(store.State())
    modifies store
    ensures store.State() == Moved(old(store.State()), mouseX, mouseY, trig)
  {
    match store.interactionMode.mode
    case Dragging(index, offset) =>
      if index < |store.textBoxes| {
        var textBox := store.textBoxes[index];
        textBox := textBox.(x := Clamp(mouseX - offset.0, 0.0, DRAG_LIMIT));
        textBox := textBox.(y := Min(Max(textBox.y, textBox.style.size as real), DRAG_LIMIT));
        textBox := textBox.(y := Min(Max(mouseY - offset.1, textBox.style.size as real), DRAG_LIMIT));
        assert textBox == Dragged(store.textBoxes[index], offset, mouseX, mouseY);
        store.textBoxes := store.textBoxes[index := textBox];
      }
    case Rotating(index, startAngle) =>
      if index < |store.textBoxes| {
        var textBox := store.textBoxes[index];
        var currentAngle := trig.atan2(mouseY - textBox.y, mouseX - textBox.x);
        store.textBoxes := store.textBoxes[index := textBox.(rotation := currentAngle - startAngle)];
      }
    case Resizing(index, handle, startPos) =>
      if index < |store.textBoxes| {
        var textBox := store.textBoxes[index];
        var dx := mouseX - startPos.0;
        var dy := mouseY - startPos.1;
        var bounds := GetBounds(textBox, false);
        if handle == ResizeBottomRight {
          textBox := textBox.(scaleX := ((bounds.right - bounds.left) + 2.0 * dx) / (bounds.right - bounds.left));
          textBox := textBox.(scaleY := ((bounds.bottom - bounds.top) + 2.0 * dy) / (bounds.bottom - bounds.top));
          assert textBox == Resized(store.textBoxes[index], handle, startPos, mouseX, mouseY);
          store.textBoxes := store.textBoxes[index := textBox];
        } else if handle == ResizeTopLeft {
          textBox := textBox.(scaleX := ((bounds.right - bounds.left) - 2.0 * dx) / (bounds.right - bounds.left));
          textBox := textBox.(scaleY := ((bounds.bottom - bounds.top) - 2.0 * dy) / (bounds.bottom - bounds.top));
          assert textBox == Resized(store.textBoxes[index], handle, startPos, mouseX, mouseY);
          store.textBoxes := store.textBoxes[index := textBox];
        }
      }
    case Idle =>
  }

  /** `onmouseup`: end any gesture. */
  method OnMouseUp(store: MemeCanvas)
    modifies store.interactionMode
    ensures store.State() == Released(old(store.State()))
  {
    store.interactionMode.mode := Idle;
  }

  /** `onmouseleave`: end any gesture, as mouse-up does. */
  method OnMouseLeave(store: MemeCanvas)
    modifies store.interactionMode
    ensures store.State() == Released(old(store.State()))
  {
    store.interactionMode.mode := Idle;
  }
}
