/**
 * What the scene store of src/stores/meme_canvas.rs guarantees, stated over
 * the transition functions of module MemeCanvasStore: selection stays
 * exclusive, the topmost box wins a hit test, a gesture changes only its
 * target box, a drag stays on the canvas, rotating and resizing are computed
 * absolutely from the mouse-down point, and a box can only be removed while
 * another remains.
 */
module MemeCanvasProperties {
  import opened Support
  import opened TextBoxes
  import opened Interaction
  import opened MemeCanvasStore

  // ---------------------------------------------------------------------------
  // Selection
  // ---------------------------------------------------------------------------

  /** No two boxes carry the selected flag. */
  predicate AtMostOneSelected(boxes: seq<TextBox>)
  {
    forall i, j :: 0 <= i < j < |boxes| ==> !(boxes[i].isSelected && boxes[j].isSelected)
  }

  /** `selected_index` names an existing box exactly when that box, and only it, is flagged. */
  predicate SelectionConsistent(s: MemeState)
  {
    && (s.selectedIndex.Some? ==> s.selectedIndex.value < |s.textBoxes|)
    && forall i :: 0 <= i < |s.textBoxes| ==> (s.textBoxes[i].isSelected <==> s.selectedIndex == Some(i))
  }

  /** The index a gesture in progress refers to names an existing box. */
  predicate ModeInRange(s: MemeState)
  {
    match s.mode
    case Idle => true
    case Dragging(i, _) => i < |s.textBoxes|
    case Resizing(i, _, _) => i < |s.textBoxes|
    case Rotating(i, _) => i < |s.textBoxes|
  }

  /**
   * `select_text_box(index)` leaves at most one flag set and stores `index`
   * as given; for an index in range (or none) flags and index agree, and for
   * an index out of range every flag is cleared although the index is kept.
   */
  lemma SelectIsExclusive(s: MemeState, index: Option<nat>)
    ensures var r := SelectState(s, index);
            && AtMostOneSelected(r.textBoxes)
            && r.selectedIndex == index
            && (index.None? || index.value < |s.textBoxes| ==> SelectionConsistent(r))
            && (index.Some? && index.value >= |s.textBoxes| ==> forall i :: 0 <= i < |r.textBoxes| ==> !r.textBoxes[i].isSelected)
  {
  }

  /** A mouse-down keeps the selection consistent and leaves any new gesture pointing at an existing box. */
  lemma PressKeepsSelectionConsistent(s: MemeState, x: real, y: real, trig: Trig)
    requires SelectionConsistent(s)
    ensures SelectionConsistent(Pressed(s, x, y, trig))
    ensures ModeInRange(Pressed(s, x, y, trig))
  {
    match HandleHit(s, x, y, trig)
    case Some(h) =>
    case None =>
      match HitTest(s.textBoxes, x, y, trig)
      case Some(i) => SelectIsExclusive(s, Some(i));
      case None => SelectIsExclusive(s, None);
  }

  /** A mouse-move never touches the selection. */
  lemma MoveKeepsSelectionConsistent(s: MemeState, mouseX: real, mouseY: real, trig: Trig)
    requires ResizeDefined(s) && SelectionConsistent(s) && ModeInRange(s)
    ensures SelectionConsistent(Moved(s, mouseX, mouseY, trig))
    ensures ModeInRange(Moved(s, mouseX, mouseY, trig))
  {
  }

  /** Adding a box keeps the selection consistent: the new box is not selected. */
  lemma AddKeepsSelectionConsistent(s: MemeState)
    requires SelectionConsistent(s) && ModeInRange(s)
    ensures SelectionConsistent(Added(s)) && ModeInRange(Added(s))
  {
    var r := Added(s);
    forall i | 0 <= i < |r.textBoxes|
      ensures r.textBoxes[i].isSelected <==> r.selectedIndex == Some(i)
    {
      if i < |s.textBoxes| {
        assert r.textBoxes[i] == s.textBoxes[i];
      } else {
        assert r.textBoxes[i] == NewBox(s.width, s.height);
      }
    }
  }

  /** Removing a box never leaves two boxes selected. */
  lemma RemoveKeepsAtMostOneSelected(s: MemeState, index: nat)
    requires AtMostOneSelected(s.textBoxes)
    ensures AtMostOneSelected(Removed(s, index).textBoxes)
  {
    var r := Removed(s, index);
    if |s.textBoxes| > 1 && index < |s.textBoxes| {
      forall i, j | 0 <= i < j < |r.textBoxes|
        ensures !(r.textBoxes[i].isSelected && r.textBoxes[j].isSelected)
      {
        var i' := if i < index then i else i + 1;
        var j' := if j < index then j else j + 1;
        assert r.textBoxes[i] == s.textBoxes[i'] && r.textBoxes[j] == s.textBoxes[j'];
      }
    }
  }

  /**
   * `remove_text_box` does not adjust `selected_index`: removing the selected
   * first box of two leaves the index naming the remaining, unselected box.
   */
  lemma RemoveKeepsStaleSelectedIndex(url: string, a: TextBox, b: TextBox)
    requires !b.isSelected
    ensures var s := MemeState(url, 500, 500, [a.(isSelected := true), b], Some(0), Idle);
            && SelectionConsistent(s)
            && Removed(s, 0).selectedIndex == Some(0)
            && Removed(s, 0).textBoxes == [b]
            && !SelectionConsistent(Removed(s, 0))
  {
    var s := MemeState(url, 500, 500, [a.(isSelected := true), b], Some(0), Idle);
    assert Removed(s, 0).textBoxes == [b];
  }

  // ---------------------------------------------------------------------------
  // Hit testing
  // ---------------------------------------------------------------------------

  /** Of two boxes that both contain the point, the later one (painted on top) is never passed over for the earlier. */
  lemma TopmostWins(boxes: seq<TextBox>, i: nat, j: nat, x: real, y: real, trig: Trig)
    requires i < j < |boxes|
    requires ContainsPoint(boxes[i], x, y, trig) && ContainsPoint(boxes[j], x, y, trig)
    ensures HitTest(boxes, x, y, trig).Some? && HitTest(boxes, x, y, trig).value >= j
  {
  }

  /** A box just added is the first one a click at the canvas centre picks. */
  lemma AddedBoxIsTopmostAtCentre(s: MemeState, trig: Trig)
    ensures var r := Added(s);
            HitTest(r.textBoxes, s.width as real / 2.0, s.height as real / 2.0, trig) == Some(|s.textBoxes|)
  {
    var r := Added(s);
    assert r.textBoxes[|s.textBoxes|] == NewBox(s.width, s.height);
  }

  // ---------------------------------------------------------------------------
  // Mouse-down
  // ---------------------------------------------------------------------------

  /** A mouse-down on a handle of the selected box changes only the mode, to a rotation or a resize of that box. */
  lemma PressOnHandle(s: MemeState, x: real, y: real, trig: Trig)
    requires HandleHit(s, x, y, trig).Some?
    ensures var r := Pressed(s, x, y, trig);
            var i := s.selectedIndex.value;
            var h := HandleHit(s, x, y, trig).value;
            var tb := s.textBoxes[i];
            && r == s.(mode := r.mode)
            && (h == Rotate ==> r.mode == Rotating(i, trig.atan2(y - tb.y, x - tb.x) - tb.rotation))
            && (h != Rotate ==> r.mode == Resizing(i, h, (x, y)))
  {
  }

  /** Without a handle hit, a mouse-down on a box selects the topmost box under the pointer and drags it by the grab offset. */
  lemma PressOnBox(s: MemeState, x: real, y: real, trig: Trig)
    requires HandleHit(s, x, y, trig).None? && HitTest(s.textBoxes, x, y, trig).Some?
    ensures var i := HitTest(s.textBoxes, x, y, trig).value;
            var r := Pressed(s, x, y, trig);
            && SelectionConsistent(r) && r.selectedIndex == Some(i)
            && ContainsPoint(s.textBoxes[i], x, y, trig)
            && (forall j :: i < j < |s.textBoxes| ==> !ContainsPoint(s.textBoxes[j], x, y, trig))
            && r.mode == Dragging(i, (x - s.textBoxes[i].x, y - s.textBoxes[i].y))
  {
    var i := HitTest(s.textBoxes, x, y, trig).value;
    var t := SelectState(s, Some(i));
    assert t.textBoxes[i].x == s.textBoxes[i].x && t.textBoxes[i].y == s.textBoxes[i].y;
    assert Pressed(s, x, y, trig) == t.(mode := Dragging(i, (x - s.textBoxes[i].x, y - s.textBoxes[i].y)));
    SelectIsExclusive(s, Some(i));
  }

  /** A mouse-down that hits neither a handle nor a box clears the selection and ends any gesture. */
  lemma PressOnEmptyCanvas(s: MemeState, x: real, y: real, trig: Trig)
    requires HandleHit(s, x, y, trig).None?
    requires forall j :: 0 <= j < |s.textBoxes| ==> !ContainsPoint(s.textBoxes[j], x, y, trig)
    ensures var r := Pressed(s, x, y, trig);
            && r.selectedIndex == None && r.mode == Idle
            && (forall j :: 0 <= j < |r.textBoxes| ==> !r.textBoxes[j].isSelected)
  {
  }

  // ---------------------------------------------------------------------------
  // Mouse-move
  // ---------------------------------------------------------------------------

  /**
   * A drag move puts the target box at the pointer minus the grab offset,
   * with x clamped to [0, 500] and y raised to the font size and capped at 500.
   */
  lemma DragClampsToCanvas(s: MemeState, mouseX: real, mouseY: real, trig: Trig)
    requires s.mode.Dragging? && s.mode.index < |s.textBoxes|
    ensures var i, off := s.mode.index, s.mode.offset;
            var tb := Moved(s, mouseX, mouseY, trig).textBoxes[i];
            && tb.x == Clamp(mouseX - off.0, 0.0, DRAG_LIMIT)
            && tb.y == Min(Max(mouseY - off.1, s.textBoxes[i].style.size as real), DRAG_LIMIT)
            && 0.0 <= tb.x <= DRAG_LIMIT
            && (s.textBoxes[i].style.size as real <= DRAG_LIMIT ==> s.textBoxes[i].style.size as real <= tb.y <= DRAG_LIMIT)
  {
  }

  /** Dragging a 48-pixel box with the pointer far above and left of the canvas leaves it at x = 0 and y = 48. */
  lemma DragPastTopLeftCorner(s: MemeState, mouseX: real, mouseY: real, trig: Trig)
    requires s.mode.Dragging? && s.mode.index < |s.textBoxes|
    requires s.textBoxes[s.mode.index].style.size == 48
    requires mouseX - s.mode.offset.0 < 0.0 && mouseY - s.mode.offset.1 < 48.0
    ensures Moved(s, mouseX, mouseY, trig).textBoxes[s.mode.index].x == 0.0
    ensures Moved(s, mouseX, mouseY, trig).textBoxes[s.mode.index].y == 48.0
  {
  }

  /** A move while idle, or while the gesture's index names no box, changes nothing. */
  lemma MoveWithoutTargetIsNoop(s: MemeState, mouseX: real, mouseY: real, trig: Trig)
    requires ResizeDefined(s) && MoveTarget(s).None?
    ensures Moved(s, mouseX, mouseY, trig) == s
  {
  }

  /** After mouse-up (or mouse-leave) a move changes nothing. */
  lemma ReleaseEndsGesture(s: MemeState, mouseX: real, mouseY: real, trig: Trig)
    ensures Released(s).mode == Idle
    ensures Released(s) == s.(mode := Idle)
    ensures Moved(Released(s), mouseX, mouseY, trig) == Released(s)
  {
  }

  /**
   * Grabbing a box and moving the pointer back to the grab point leaves
   * the box where it was, provided it was inside the drag limits.
   */
  lemma DragBackToGrabPoint(s: MemeState, x: real, y: real, trig: Trig)
    requires Pressed(s, x, y, trig).mode.Dragging?
    requires var i := Pressed(s, x, y, trig).mode.index;
             i < |s.textBoxes| &&
             var tb := s.textBoxes[i];
             0.0 <= tb.x <= DRAG_LIMIT && tb.style.size as real <= tb.y <= DRAG_LIMIT
    ensures var p := Pressed(s, x, y, trig);
            Moved(p, x, y, trig) == p
  {
    var p := Pressed(s, x, y, trig);
    PressDragsOnlyBoxes(s, x, y, trig);
    var i := p.mode.index;
    assert p.textBoxes[i] == s.textBoxes[i].(isSelected := true);
    assert Dragged(p.textBoxes[i], p.mode.offset, x, y) == p.textBoxes[i];
    assert p.textBoxes[i := p.textBoxes[i]] == p.textBoxes;
  }

  /**
   * Grabbing the rotate handle and moving the pointer back to the grab point
   * restores the rotation the box had: the grab angle is taken relative to it.
   */
  lemma RotateBackToGrabPoint(s: MemeState, x: real, y: real, trig: Trig)
    requires Pressed(s, x, y, trig).mode.Rotating?
    ensures var p := Pressed(s, x, y, trig);
            Moved(p, x, y, trig) == p
  {
    var p := Pressed(s, x, y, trig);
    PressGrabsOnlyHandles(s, x, y, trig);
    var i := p.mode.index;
    assert Rotated(p.textBoxes[i], p.mode.startAngle, x, y, trig) == p.textBoxes[i];
    assert p.textBoxes[i := p.textBoxes[i]] == p.textBoxes;
  }

  /**
   * A resize is computed from the mouse-down point against the unscaled
   * extent, not added to the current scale: moving back to the grab point of
   * a bottom-right or top-left handle resets the scale to 1 on both axes,
   * whatever it was before.
   */
  lemma ResizeBackToGrabPoint(s: MemeState, x: real, y: real, trig: Trig)
    requires Pressed(s, x, y, trig).mode.Resizing?
    requires var m := Pressed(s, x, y, trig).mode;
             m.handle == ResizeBottomRight || m.handle == ResizeTopLeft
    requires HasExtent(s.textBoxes[s.selectedIndex.value])
    ensures var p := Pressed(s, x, y, trig);
            var r := Moved(p, x, y, trig);
            var i := p.mode.index;
            && r.textBoxes[i] == s.textBoxes[i].(scaleX := 1.0, scaleY := 1.0)
            && (forall j :: 0 <= j < |s.textBoxes| && j != i ==> r.textBoxes[j] == s.textBoxes[j])
  {
    PressGrabsOnlyHandles(s, x, y, trig);
    var h := HandleHit(s, x, y, trig).value;
    var i := s.selectedIndex.value;
    var p := Grabbed(s, h, x, y, trig);
    assert p == s.(mode := Resizing(i, h, (x, y)));
    ResizeAtGrabPointIsUnit(s.textBoxes[i], h, (x, y));
    assert Moved(p, x, y, trig).textBoxes == s.textBoxes[i := s.textBoxes[i].(scaleX := 1.0, scaleY := 1.0)];
  }

  /** A drag on the top-right or bottom-left handle is accepted but rescales nothing. */
  lemma OtherCornersDoNotResize(s: MemeState, mouseX: real, mouseY: real, trig: Trig)
    requires s.mode.Resizing? && (s.mode.handle == ResizeTopRight || s.mode.handle == ResizeBottomLeft)
    ensures Moved(s, mouseX, mouseY, trig) == s
  {
    if s.mode.index < |s.textBoxes| {
      var i := s.mode.index;
      assert s.textBoxes[i := s.textBoxes[i]] == s.textBoxes;
    }
  }

  /** A mouse-down starts a rotation or a resize only through a handle of the selected box, and then changes nothing but the mode. */
  lemma PressGrabsOnlyHandles(s: MemeState, x: real, y: real, trig: Trig)
    ensures var p := Pressed(s, x, y, trig);
            p.mode.Rotating? || p.mode.Resizing? ==>
              && HandleHit(s, x, y, trig).Some?
              && p == Grabbed(s, HandleHit(s, x, y, trig).value, x, y, trig)
  {
    if HandleHit(s, x, y, trig).None? {
      var p := Picked(s, x, y, trig);
      assert p.mode.Dragging? || p.mode.Idle?;
    }
  }

  /** A mouse-down starts a drag only on a box under the pointer, which it selects, recording the grab offset. */
  lemma PressDragsOnlyBoxes(s: MemeState, x: real, y: real, trig: Trig)
    ensures var p := Pressed(s, x, y, trig);
            p.mode.Dragging? ==>
              var i := p.mode.index;
              && HandleHit(s, x, y, trig).None?
              && HitTest(s.textBoxes, x, y, trig) == Some(i)
              && p == SelectState(s, Some(i)).(mode := Dragging(i, (x - s.textBoxes[i].x, y - s.textBoxes[i].y)))
  {
    var p := Pressed(s, x, y, trig);
    if HandleHit(s, x, y, trig).None? {
      var hit := HitTest(s.textBoxes, x, y, trig);
      if hit.Some? {
        var i := hit.value;
        var t := SelectState(s, hit);
        assert p.textBoxes == t.textBoxes;
      }
    } else {
      assert !p.mode.Dragging?;
    }
  }

  /** A corner resize evaluated at its own grab point gives scale 1 on both axes. */
  lemma ResizeAtGrabPointIsUnit(tb: TextBox, handle: HandleType, startPos: (real, real))
    requires handle == ResizeBottomRight || handle == ResizeTopLeft
    requires HasExtent(tb)
    ensures Resized(tb, handle, startPos, startPos.0, startPos.1) == tb.(scaleX := 1.0, scaleY := 1.0)
  {
    var b := GetBounds(tb, false);
    var w, h := b.right - b.left, b.bottom - b.top;
    assert w != 0.0 && h != 0.0;
    var dx, dy := startPos.0 - startPos.0, startPos.1 - startPos.1;
    assert 2.0 * dx / w == 0.0 && 2.0 * dy / h == 0.0;
    var r := Resized(tb, handle, startPos, startPos.0, startPos.1);
    assert r.scaleX == 1.0 && r.scaleY == 1.0;
  }

  // ---------------------------------------------------------------------------
  // Adding and removing boxes
  // ---------------------------------------------------------------------------

  /** `add_text_box` appends one unselected "new text" box of size 48 at the canvas centre and changes nothing else. */
  lemma AddAppendsCentredBox(s: MemeState)
    ensures var r := Added(s);
            var tb := r.textBoxes[|s.textBoxes|];
            && |r.textBoxes| == |s.textBoxes| + 1
            && r.textBoxes[..|s.textBoxes|] == s.textBoxes
            && tb.text == "new text" && tb.style.size == 48
            && tb.x == s.width as real / 2.0 && tb.y == s.height as real / 2.0
            && !tb.isSelected && tb.rotation == 0.0 && tb.scaleX == 1.0 && tb.scaleY == 1.0
            && r == s.(textBoxes := r.textBoxes)
  {
  }

  /**
   * `remove_text_box(index)` deletes exactly box `index` when more than one
   * box exists and the index is in range, and otherwise changes nothing; it
   * never touches `selected_index`, and a store with a box keeps one.
   */
  lemma RemoveGuard(s: MemeState, index: nat)
    ensures var r := Removed(s, index);
            && r == s.(textBoxes := r.textBoxes)
            && (|s.textBoxes| >= 1 ==> |r.textBoxes| >= 1)
            && (|s.textBoxes| > 1 && index < |s.textBoxes| ==>
                  && |r.textBoxes| == |s.textBoxes| - 1
                  && (forall j :: 0 <= j < index ==> r.textBoxes[j] == s.textBoxes[j])
                  && (forall j :: index <= j < |r.textBoxes| ==> r.textBoxes[j] == s.textBoxes[j + 1]))
            && (|s.textBoxes| <= 1 || index >= |s.textBoxes| ==> r == s)
  {
  }

  // ---------------------------------------------------------------------------
  // A whole editing session
  // ---------------------------------------------------------------------------

  /**
   * On a 500 x 500 canvas with "top text" at (375, 125) and "bottom text" at
   * (375, 375), both of size 48: a mouse-down at (375, 125) selects the top
   * box and starts dragging it with no offset; a move to (400, 150) puts it
   * there; mouse-up ends the drag; adding puts a third box at (250, 250);
   * removing box 0 leaves two boxes and, as written, the selected index 0;
   * a store reduced to one box refuses to remove it.
   */
  lemma EditingSession(url: string, family: string, effect: string, trig: Trig)
    requires trig.cos(0.0) == 1.0 && trig.sin(0.0) == 0.0
    ensures var top := NewTextBox("top text", 375.0, 125.0, 48, family, effect);
            var bottom := NewTextBox("bottom text", 375.0, 375.0, 48, family, effect);
            var s0 := MemeState(url, 500, 500, [top, bottom], None, Idle);
            var s1 := Pressed(s0, 375.0, 125.0, trig);
            var s2 := Moved(s1, 400.0, 150.0, trig);
            var s3 := Released(s2);
            var s4 := Added(s3);
            var s5 := Removed(s4, 0);
            var s6 := Removed(s5, 0);
            && s1.selectedIndex == Some(0) && s1.textBoxes[0].isSelected && !s1.textBoxes[1].isSelected
            && s1.mode == Dragging(0, (0.0, 0.0))
            && s2.textBoxes[0].x == 400.0 && s2.textBoxes[0].y == 150.0 && s2.textBoxes[1] == s1.textBoxes[1]
            && s3.mode == Idle
            && |s4.textBoxes| == 3 && s4.textBoxes[2].x == 250.0 && s4.textBoxes[2].y == 250.0
            && |s5.textBoxes| == 2 && s5.textBoxes[0] == s4.textBoxes[1] && s5.selectedIndex == Some(0)
            && |s6.textBoxes| == 1
            && Removed(s6, 0) == s6
  {
    var top := NewTextBox("top text", 375.0, 125.0, 48, family, effect);
    var bottom := NewTextBox("bottom text", 375.0, 375.0, 48, family, effect);
    var s0 := MemeState(url, 500, 500, [top, bottom], None, Idle);
    assert HandleHit(s0, 375.0, 125.0, trig) == None;
    assert ContainsPoint(top, 375.0, 125.0, trig);
    assert CanvasToLocalCoords(bottom, 375.0, 125.0, trig) == (0.0, -250.0);
    assert !ContainsPoint(bottom, 375.0, 125.0, trig);
    assert s0.textBoxes[0] == top && s0.textBoxes[1] == bottom;
    var hit := HitTest(s0.textBoxes, 375.0, 125.0, trig);
    assert hit.Some? && hit.value != 1;
    assert hit == Some(0);
    var s1 := Pressed(s0, 375.0, 125.0, trig);
    assert s1 == SelectState(s0, Some(0)).(mode := Dragging(0, (0.0, 0.0)));
    var s2 := Moved(s1, 400.0, 150.0, trig);
    var s3 := Released(s2);
    var s4 := Added(s3);
    var s5 := Removed(s4, 0);
    assert s5.textBoxes == s4.textBoxes[1..];
    var s6 := Removed(s5, 0);
    assert s6.textBoxes == s5.textBoxes[1..];
  }
}
