/**
 * The scene store of the editor (src/stores/meme_canvas.rs): the ordered
 * text boxes, the selection, the canvas dimensions and the pointer state
 * machine that drags, resizes and rotates the selected box.
 *
 * The behaviour of each operation is first given as a function on a value of
 * the whole store (`MemeState`); the class `MemeCanvas` then performs the
 * same operation in place, step by step as the Rust code does, and each of
 * its methods is proved to reach exactly the state the function describes.
 * The pointer closures of the generator page are proved against the same
 * functions (module GeneratorPage).
 */
module MemeCanvasStore {
  import opened Support
  import opened TextBoxes
  import opened Interaction

  /** The drag target is kept inside [0, 500] on both axes (a fixed canvas size, not the store's width and height). */
  const DRAG_LIMIT: real := 500.0
  /** Font size of a box added by the "Add Text" button. */
  const NEW_BOX_SIZE: nat := 48

  datatype MemeState = MemeState(
    mainImgUrl: string,
    width: nat,
    height: nat,
    textBoxes: seq<TextBox>,
    selectedIndex: Option<nat>,
    mode: InteractionMode)

  // ---------------------------------------------------------------------------
  // Queries
  // ---------------------------------------------------------------------------

  /** `get_text_box_at_position`: the topmost (last painted) box containing the point. */
  function HitTest(boxes: seq<TextBox>, x: real, y: real, trig: Trig): (r: Option<nat>)
    ensures r.Some? ==> r.value < |boxes| && ContainsPoint(boxes[r.value], x, y, trig)
    ensures r.Some? ==> forall j :: r.value < j < |boxes| ==> !ContainsPoint(boxes[j], x, y, trig)
    ensures r.None? <==> forall j :: 0 <= j < |boxes| ==> !ContainsPoint(boxes[j], x, y, trig)
  {
    LastMatch(boxes, (tb: TextBox) => ContainsPoint(tb, x, y, trig))
  }

  /** `get_textbox_position`, which panics on an index out of range: the centre of the box. */
  function GetTextboxPosition(boxes: seq<TextBox>, index: nat): (p: (real, real))
    requires index < |boxes|
    ensures var b := GetBounds(boxes[index], false);
            p == ((b.left + b.right) / 2.0, (b.top + b.bottom) / 2.0)
  {
    (boxes[index].x, boxes[index].y)
  }

  /** The handle that `select_handle` finds: one of the handles of the box `selected_index` names, if that box exists. */
  function HandleHit(s: MemeState, x: real, y: real, trig: Trig): (r: Option<HandleType>)
    ensures r.Some? ==> s.selectedIndex.Some? && s.selectedIndex.value < |s.textBoxes|
    ensures r.Some? ==> s.textBoxes[s.selectedIndex.value].isSelected
    ensures s.selectedIndex.Some? && s.selectedIndex.value < |s.textBoxes| ==>
              r == GetHandleAtPosition(s.textBoxes[s.selectedIndex.value], x, y, trig)
    ensures s.selectedIndex.None? || s.selectedIndex.value >= |s.textBoxes| ==> r == None
  {
    match s.selectedIndex
    case Some(i) => if i < |s.textBoxes| then GetHandleAtPosition(s.textBoxes[i], x, y, trig) else None
    case None => None
  }

  // ---------------------------------------------------------------------------
  // Selection, addition, removal
  // ---------------------------------------------------------------------------

  /**
   * What `select_text_box(index)` leaves in the boxes: every flag cleared,
   * then the flag of `index` set if that box exists.
   */
  function Select(boxes: seq<TextBox>, index: Option<nat>): (r: seq<TextBox>)
    ensures |r| == |boxes|
    ensures forall i :: 0 <= i < |r| ==> (r[i].isSelected <==> index == Some(i))
    ensures forall i :: 0 <= i < |r| ==> r[i] == boxes[i].(isSelected := r[i].isSelected)
  {
    seq(|boxes|, i requires 0 <= i < |boxes| => boxes[i].(isSelected := index == Some(i)))
  }

  /** `select_text_box` on the whole store: the flags as `Select` leaves them, and `selected_index` set to the argument even when it names no box. */
  function SelectState(s: MemeState, index: Option<nat>): (r: MemeState)
    ensures r == s.(textBoxes := r.textBoxes, selectedIndex := r.selectedIndex)
    ensures r.selectedIndex == index && |r.textBoxes| == |s.textBoxes|
    ensures forall i :: 0 <= i < |r.textBoxes| ==>
              r.textBoxes[i] == s.textBoxes[i].(isSelected := index == Some(i))
  {
    s.(textBoxes := Select(s.textBoxes, index), selectedIndex := index)
  }

  /** The box the "Add Text" button appends for a canvas of the given size. */
  function NewBox(width: nat, height: nat): TextBox
  {
    NewTextBox("new text", width as real / 2.0, height as real / 2.0, NEW_BOX_SIZE, "Ariel", "bold")
  }

  /** `add_text_box` */
  function Added(s: MemeState): (r: MemeState)
    ensures |r.textBoxes| == |s.textBoxes| + 1
  {
    s.(textBoxes := s.textBoxes + [NewBox(s.width, s.height)])
  }

  /** `remove_text_box`: removes only when more than one box exists and the index is in range. */
  function Removed(s: MemeState, index: nat): (r: MemeState)
    ensures |s.textBoxes| >= 1 ==> |r.textBoxes| >= 1
  {
    if |s.textBoxes| > 1 && index < |s.textBoxes| then
      s.(textBoxes := s.textBoxes[..index] + s.textBoxes[index + 1..])
    else
      s
  }

  // ---------------------------------------------------------------------------
  // The pointer state machine
  // ---------------------------------------------------------------------------

  /** A mouse-down on a handle of the selected box starts a rotation or a resize of that box. */
  function Grabbed(s: MemeState, h: HandleType, x: real, y: real, trig: Trig): (r: MemeState)
    requires s.selectedIndex.Some? && s.selectedIndex.value < |s.textBoxes|
    ensures r == s.(mode := r.mode)
    ensures MoveTarget(r) == s.selectedIndex
    ensures r.mode.Rotating? <==> h == Rotate
    ensures r.mode.Rotating? ==>
              var tb := s.textBoxes[s.selectedIndex.value];
              r.mode.startAngle + tb.rotation == trig.atan2(y - tb.y, x - tb.x)
    ensures r.mode.Resizing? <==> h != Rotate
    ensures r.mode.Resizing? ==> r.mode.handle == h && r.mode.startPos == (x, y)
  {
    var i := s.selectedIndex.value;
    var tb := s.textBoxes[i];
    if h == Rotate then s.(mode := Rotating(i, trig.atan2(y - tb.y, x - tb.x) - tb.rotation))
    else s.(mode := Resizing(i, h, (x, y)))
  }

  /** `maybe_select_text_box`: select the topmost box under the point and start dragging it, or clear the selection. */
  function Picked(s: MemeState, x: real, y: real, trig: Trig): (r: MemeState)
    ensures r.mainImgUrl == s.mainImgUrl && r.width == s.width && r.height == s.height
    ensures r.selectedIndex == HitTest(s.textBoxes, x, y, trig)
    ensures |r.textBoxes| == |s.textBoxes|
    ensures forall i :: 0 <= i < |r.textBoxes| ==>
              r.textBoxes[i] == s.textBoxes[i].(isSelected := r.selectedIndex == Some(i))
    ensures r.selectedIndex.None? ==> r.mode == Idle
    ensures r.selectedIndex.Some? ==>
              var i := r.selectedIndex.value;
              r.mode == Dragging(i, (x - s.textBoxes[i].x, y - s.textBoxes[i].y))
  {
    match HitTest(s.textBoxes, x, y, trig)
    case Some(i) =>
      var t := SelectState(s, Some(i));
      var p := GetTextboxPosition(t.textBoxes, i);
      t.(mode := Dragging(i, (x - p.0, y - p.1)))
    case None =>
      SelectState(s, None).(mode := Idle)
  }

  /** `mouse_down` */
  function Pressed(s: MemeState, x: real, y: real, trig: Trig): (r: MemeState)
    ensures r.mainImgUrl == s.mainImgUrl && r.width == s.width && r.height == s.height
    ensures |r.textBoxes| == |s.textBoxes|
    ensures HandleHit(s, x, y, trig).Some? ==>
              r == s.(mode := r.mode) && (r.mode.Rotating? || r.mode.Resizing?) && MoveTarget(r) == s.selectedIndex
    ensures HandleHit(s, x, y, trig).None? ==>
              && r.selectedIndex == HitTest(s.textBoxes, x, y, trig)
              && (r.mode.Dragging? || r.mode.Idle?)
              && MoveTarget(r) == r.selectedIndex
  {
    match HandleHit(s, x, y, trig)
    case Some(h) => Grabbed(s, h, x, y, trig)
    case None => Picked(s, x, y, trig)
  }

  /** `mouse_up` and `mouse_leave` */
  function Released(s: MemeState): (r: MemeState)
    ensures r.textBoxes == s.textBoxes && r.selectedIndex == s.selectedIndex
    ensures r.mainImgUrl == s.mainImgUrl && r.width == s.width && r.height == s.height
    ensures MoveTarget(r).None? && ResizeDefined(r)
  {
    s.(mode := Idle)
  }

  /** The box has a nonzero unscaled extent on both axes, so a resize can divide by it. */
  predicate HasExtent(tb: TextBox)
  {
    tb.text != [] && tb.style.size > 0
  }

  /** A resize move from the current mode divides by a nonzero extent. */
  predicate ResizeDefined(s: MemeState)
  {
    match s.mode
    case Resizing(i, h, _) =>
      i < |s.textBoxes| && (h == ResizeBottomRight || h == ResizeTopLeft) ==> HasExtent(s.textBoxes[i])
    case _ => true
  }

  /** The box dragged to the pointer minus the grab offset, clamped to the canvas and kept at least one font size from the top. */
  function Dragged(tb: TextBox, offset: (real, real), mouseX: real, mouseY: real): (r: TextBox)
    ensures 0.0 <= r.x <= DRAG_LIMIT && r.y <= DRAG_LIMIT
    ensures tb.style.size as real <= DRAG_LIMIT ==> tb.style.size as real <= r.y
    ensures r == tb.(x := r.x, y := r.y)
  {
    tb.(x := Clamp(mouseX - offset.0, 0.0, DRAG_LIMIT),
        y := Min(Max(mouseY - offset.1, tb.style.size as real), DRAG_LIMIT))
  }

  /** The box turned so that the pointer's angle about its centre, minus the grab angle, is its rotation. */
  function Rotated(tb: TextBox, startAngle: real, mouseX: real, mouseY: real, trig: Trig): (r: TextBox)
    ensures r == tb.(rotation := r.rotation)
    ensures r.rotation + startAngle == trig.atan2(mouseY - tb.y, mouseX - tb.x)
  {
    tb.(rotation := trig.atan2(mouseY - tb.y, mouseX - tb.x) - startAngle)
  }

  /**
   * The box rescaled by a corner drag from `startPos`: the scale is computed
   * afresh against the unscaled extent, twice the pointer displacement
   * because the box stays centred. Only the bottom-right and top-left
   * corners resize; the other two handles leave the box as it is.
   */
  function Resized(tb: TextBox, handle: HandleType, startPos: (real, real), mouseX: real, mouseY: real): (r: TextBox)
    requires handle == ResizeBottomRight || handle == ResizeTopLeft ==> HasExtent(tb)
    ensures r == tb.(scaleX := r.scaleX, scaleY := r.scaleY)
    ensures handle != ResizeBottomRight && handle != ResizeTopLeft ==> r == tb
    ensures var b := GetBounds(tb, false);
            var w, h := b.right - b.left, b.bottom - b.top;
            var dx, dy := mouseX - startPos.0, mouseY - startPos.1;
            && (handle == ResizeBottomRight ==> r.scaleX == 1.0 + 2.0 * dx / w && r.scaleY == 1.0 + 2.0 * dy / h)
            && (handle == ResizeTopLeft ==> r.scaleX == 1.0 - 2.0 * dx / w && r.scaleY == 1.0 - 2.0 * dy / h)
  {
    var dx := mouseX - startPos.0;
    var dy := mouseY - startPos.1;
    var b := GetBounds(tb, false);
    match handle
    case ResizeBottomRight =>
      assert b.right - b.left > 0.0 && b.bottom - b.top > 0.0;
      SplitQuotient(b.right - b.left, 2.0 * dx);
      SplitQuotient(b.bottom - b.top, 2.0 * dy);
      tb.(scaleX := ((b.right - b.left) + 2.0 * dx) / (b.right - b.left),
          scaleY := ((b.bottom - b.top) + 2.0 * dy) / (b.bottom - b.top))
    case ResizeTopLeft =>
      assert b.right - b.left > 0.0 && b.bottom - b.top > 0.0;
      SplitQuotient(b.right - b.left, 2.0 * dx);
      SplitQuotient(b.bottom - b.top, 2.0 * dy);
      tb.(scaleX := ((b.right - b.left) - 2.0 * dx) / (b.right - b.left),
          scaleY := ((b.bottom - b.top) - 2.0 * dy) / (b.bottom - b.top))
    case _ => tb
  }

  lemma SplitQuotient(w: real, d: real)
    requires w != 0.0
    ensures (w + d) / w == 1.0 + d / w && (w - d) / w == 1.0 - d / w
  {
    var q := d / w;
    assert q * w == d;
    assert (1.0 + q) * w == w + d && (1.0 - q) * w == w - d;
    assert ((w + d) / w) * w == w + d && ((w - d) / w) * w == w - d;
    CancelFactor((w + d) / w, 1.0 + q, w);
    CancelFactor((w - d) / w, 1.0 - q, w);
  }

  lemma CancelFactor(a: real, b: real, w: real)
    requires w != 0.0 && a * w == b * w
    ensures a == b
  {
  }

  /** The box a move in the current mode changes, if the mode's index names one. */
  function MoveTarget(s: MemeState): Option<nat>
  {
    match s.mode
    case Idle => None
    case Dragging(i, _) => if i < |s.textBoxes| then Some(i) else None
    case Resizing(i, _, _) => if i < |s.textBoxes| then Some(i) else None
    case Rotating(i, _) => if i < |s.textBoxes| then Some(i) else None
  }

  /** `mouse_move`: only the target box of the current mode changes, and only its position, rotation or scale. */
  function Moved(s: MemeState, mouseX: real, mouseY: real, trig: Trig): (r: MemeState)
    requires ResizeDefined(s)
    ensures r == s.(textBoxes := r.textBoxes)
    ensures |r.textBoxes| == |s.textBoxes|
    ensures forall j :: 0 <= j < |s.textBoxes| && MoveTarget(s) != Some(j) ==> r.textBoxes[j] == s.textBoxes[j]
    ensures forall j :: 0 <= j < |s.textBoxes| ==>
              var (a, b) := (s.textBoxes[j], r.textBoxes[j]);
              b.text == a.text && b.style == a.style && b.isSelected == a.isSelected
    ensures s.mode.Dragging? && s.mode.index < |s.textBoxes| ==>
              r.textBoxes[s.mode.index] == Dragged(s.textBoxes[s.mode.index], s.mode.offset, mouseX, mouseY)
    ensures s.mode.Rotating? && s.mode.index < |s.textBoxes| ==>
              r.textBoxes[s.mode.index] == Rotated(s.textBoxes[s.mode.index], s.mode.startAngle, mouseX, mouseY, trig)
    ensures s.mode.Resizing? && s.mode.index < |s.textBoxes| ==>
              r.textBoxes[s.mode.index] == Resized(s.textBoxes[s.mode.index], s.mode.handle, s.mode.startPos, mouseX, mouseY)
  {
    match s.mode
    case Idle => s
    case Dragging(i, offset) =>
      if i < |s.textBoxes| then s.(textBoxes := s.textBoxes[i := Dragged(s.textBoxes[i], offset, mouseX, mouseY)]) else s
    case Rotating(i, startAngle) =>
      if i < |s.textBoxes| then s.(textBoxes := s.textBoxes[i := Rotated(s.textBoxes[i], startAngle, mouseX, mouseY, trig)]) else s
    case Resizing(i, handle, startPos) =>
      if i < |s.textBoxes| then s.(textBoxes := s.textBoxes[i := Resized(s.textBoxes[i], handle, startPos, mouseX, mouseY)]) else s
  }

  // ---------------------------------------------------------------------------
  // The store, updated in place
  // ---------------------------------------------------------------------------

  class MemeCanvas {
    var mainImgUrl: string
    var width: nat
    var height: nat
    var textBoxes: seq<TextBox>
    var selectedIndex: Option<nat>
    const interactionMode: ModeCell

    /** The whole store as a value. */
    function State(): MemeState
      reads this, interactionMode
    {
      MemeState(mainImgUrl, width, height, textBoxes, selectedIndex, interactionMode.mode)
    }

    /** `MemeCanvas::new`: nothing selected, no gesture in progress. */
    constructor (width: nat, height: nat, mainImgUrl: string, textBoxes: seq<TextBox>)
      ensures fresh(interactionMode)
      ensures State() == MemeState(mainImgUrl, width, height, textBoxes, None, Idle)
    {
      this.mainImgUrl := mainImgUrl;
      this.width := width;
      this.height := height;
      this.textBoxes := textBoxes;
      this.selectedIndex := None;
      this.interactionMode := new ModeCell(Idle);
    }

    /** `select_handle`: on a handle of the selected box, start rotating or resizing it. */
    method SelectHandle(x: real, y: real, trig: Trig) returns (h: Option<HandleType>)
      modifies interactionMode
      ensures h == HandleHit(old(State()), x, y, trig)
      ensures State() == if h.Some? then Pressed(old(State()), x, y, trig) else old(State())
    {
      h := None;
      if selectedIndex.Some? && selectedIndex.value < |textBoxes| {
        var selectedIdx := selectedIndex.value;
        var tb := textBoxes[selectedIdx];
        var handle := GetHandleAtPosition(tb, x, y, trig);
        if handle.Some? {
          if handle.value == Rotate {
            var startAngle := trig.atan2(y - tb.y, x - tb.x) - tb.rotation;
            interactionMode.SetRotating(selectedIdx, startAngle);
          } else {
            interactionMode.SetResize(selectedIdx, handle.value, (x, y));
          }
          h := handle;
        }
      }
    }

    /** `maybe_select_text_box` */
    method MaybeSelectTextBox(x: real, y: real, trig: Trig)
      modifies this, interactionMode
      ensures State() == Picked(old(State()), x, y, trig)
    {
      var hit := HitTest(textBoxes, x, y, trig);
      if hit.Some? {
        var index := hit.value;
        SelectTextBox(Some(index));
        var position := GetTextboxPosition(textBoxes, index);
        interactionMode.Set(Dragging(index, (x - position.0, y - position.1)));
      } else {
        SelectTextBox(None);
        interactionMode.Set(Idle);
      }
    }

    /** `mouse_down`: a handle of the selected box first, otherwise the box under the pointer. */
    method MouseDown(x: real, y: real, trig: Trig)
      modifies this, interactionMode
      ensures State() == Pressed(old(State()), x, y, trig)
    {
      var h := SelectHandle(x, y, trig);
      if h.None? {
        MaybeSelectTextBox(x, y, trig);
      }
    }

    /** `mouse_up` */
    method MouseUp()
      modifies interactionMode
      ensures State() == Released(old(State()))
    {
      interactionMode.Set(Idle);
    }

    /** `mouse_leave` */
    method MouseLeave()
      modifies interactionMode
      ensures State() == Released(old(State()))
    {
      interactionMode.Set(Idle);
    }

    /** `mouse_move`: writes the fields of the target box one by one, as the Rust code does. */
    method MouseMove(mouseX: real, mouseY: real, trig: Trig)
      requires ResizeDefined(State())
      modifies this
      ensures State() == Moved(old(State()), mouseX, mouseY, trig)
    {
      match interactionMode.mode
      case Dragging(index, offset) =>
        if index < |textBoxes| {
          var tb := textBoxes[index];
          tb := tb.(x := Clamp(mouseX - offset.0, 0.0, DRAG_LIMIT));
          tb := tb.(y := Min(Max(tb.y, tb.style.size as real), DRAG_LIMIT));
          tb := tb.(y := Min(Max(mouseY - offset.1, tb.style.size as real), DRAG_LIMIT));
          assert tb == Dragged(textBoxes[index], offset, mouseX, mouseY);
          textBoxes := textBoxes[index := tb];
        }
      case Rotating(index, startAngle) =>
        if index < |textBoxes| {
          var tb := textBoxes[index];
          var currentAngle := trig.atan2(mouseY - tb.y, mouseX - tb.x);
          textBoxes := textBoxes[index := tb.(rotation := currentAngle - startAngle)];
        }
      case Resizing(index, handle, startPos) =>
        if index < |textBoxes| {
          var tb := textBoxes[index];
          var dx := mouseX - startPos.0;
          var dy := mouseY - startPos.1;
          var b := GetBounds(tb, false);
          if handle == ResizeBottomRight {
            tb := tb.(scaleX := ((b.right - b.left) + 2.0 * dx) / (b.right - b.left));
            tb := tb.(scaleY := ((b.bottom - b.top) + 2.0 * dy) / (b.bottom - b.top));
            assert tb == Resized(textBoxes[index], handle, startPos, mouseX, mouseY);
            textBoxes := textBoxes[index := tb];
          } else if handle == ResizeTopLeft {
            tb := tb.(scaleX := ((b.right - b.left) - 2.0 * dx) / (b.right - b.left));
            tb := tb.(scaleY := ((b.bottom - b.top) - 2.0 * dy) / (b.bottom - b.top));
            assert tb == Resized(textBoxes[index], handle, startPos, mouseX, mouseY);
            textBoxes := textBoxes[index := tb];
          }
        }
      case Idle =>
    }

    /** `unselect_text_boxes`: clears the flag of every box, one box at a time. */
    method UnselectTextBoxes()
      modifies this
      ensures textBoxes == Select(old(textBoxes), None)
      ensures mainImgUrl == old(mainImgUrl) && width == old(width) && height == old(height)
      ensures selectedIndex == old(selectedIndex)
    {
      var i := 0;
      while i < |textBoxes|
        invariant 0 <= i <= |textBoxes| == |old(textBoxes)|
        invariant forall k :: 0 <= k < i ==> textBoxes[k] == old(textBoxes[k]).(isSelected := false)
        invariant forall k :: i <= k < |textBoxes| ==> textBoxes[k] == old(textBoxes[k])
        invariant mainImgUrl == old(mainImgUrl) && width == old(width) && height == old(height)
        invariant selectedIndex == old(selectedIndex)
      {
        textBoxes := textBoxes[i := textBoxes[i].(isSelected := false)];
        i := i + 1;
      }
    }

    /** `select_text_box`: clear every flag, set the one of `index` if that box exists, and record `index` as given. */
    method SelectTextBox(index: Option<nat>)
      modifies this
      ensures State() == SelectState(old(State()), index)
    {
      UnselectTextBoxes();
      if index.Some? && index.value < |textBoxes| {
        textBoxes := textBoxes[index.value := textBoxes[index.value].(isSelected := true)];
      }
      selectedIndex := index;
    }

    /** `add_text_box` */
    method AddTextBox()
      modifies this
      ensures State() == Added(old(State()))
    {
      textBoxes := textBoxes + [NewTextBox("new text", width as real / 2.0, height as real / 2.0, NEW_BOX_SIZE, "Ariel", "bold")];
    }

    /** `remove_text_box` */
    method RemoveTextBox(index: nat)
      modifies this
      ensures State() == Removed(old(State()), index)
    {
      if |textBoxes| > 1 && index < |textBoxes| {
        textBoxes := textBoxes[..index] + textBoxes[index + 1..];
      }
    }
  }
}
