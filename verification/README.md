# Meme editor scene model

A Dafny model of the editing core of a browser meme generator written in Rust
(Dioxus). The editor keeps an ordered list of text boxes over a background
image. A box has text, a centre position, a rotation, a scale on each axis, a
font style and a selected flag. The pointer drives a small state machine:

- A mouse-down on a handle of the selected box starts a rotation or a resize.
- A mouse-down on a box selects the topmost box under the pointer and starts
  dragging it.
- A mouse-down anywhere else clears the selection.
- Each mouse-move updates the box the current gesture names.
- Mouse-up and mouse-leave end the gesture.

The project has seven modules:

| module | file | source |
|---|---|---|
| `Support` | support.dfy | `Option`, the `f64` helpers the code calls (`abs`, `max`, `min`, `clamp`), the byte length of a Rust `String`, the first-hit and last-hit searches the hit tests perform, and `Trig`, the platform's `cos`, `sin` and `atan2` passed in as a value |
| `TextBoxes` | text_box.dfy | `src/stores/text_box.rs`: the box, its bounds, the canvas-to-local mapping, the point test and the handle test, all as pure functions |
| `Interaction` | interaction_mode.dfy | `src/stores/interaction_mode.rs`: the four-variant gesture mode and the cell holding it, with its setters |
| `MemeCanvasStore` | meme_canvas.dfy | `src/stores/meme_canvas.rs`: the scene store (see below) |
| `MemeCanvasProperties` | meme_canvas_properties.dfy | what the store guarantees, stated as lemmas about its transition functions |
| `CanvasObjectStore` | canvas_objects.dfy | `src/stores/canvas_objects.rs`: the earlier copy of the box and store. It has a bare font size, the same geometry (proved to agree with `TextBoxes`), and a class mutated in place by loops |
| `GeneratorPage` | generator.dfy | the four pointer closures of `src/pages/generator.rs`, written against the store's fields |

The scene store is modelled twice:

- Each operation is a function on a value of the whole store (`MemeState`):
  `Pressed`, `Moved`, `Released`, `SelectState`, `Added` and `Removed`.
- The class `MemeCanvas` performs the same operations in place, step by step
  as the Rust code does.

Each method of `MemeCanvas` is proved to reach exactly the state its function
describes. The generator page's closures are proved against the same
functions, so the page and the store run one state machine.

Some behaviour is modelled exactly as the code has it:

- `remove_text_box` does not touch `selected_index`. Removing the selected box
  can leave the index naming a different, unselected box, or no box at all
  (`RemoveKeepsStaleSelectedIndex`).
- No code resets the gesture when its box disappears. A move whose index names
  no box changes nothing (`MoveWithoutTargetIsNoop`).
- Dragging clamps to a fixed 500, not to the store's `width` and `height`.
- The first write of `y` in the drag branch is dead: the next line overwrites
  it. The model performs both writes.
- Resizing is absolute. The new scale is computed from the mouse-down point
  against the unscaled extent, not added to the current scale.
- Only the bottom-right and top-left corners resize. The other two corners are
  hit-tested, but a drag on them changes nothing.

Some names in the source do not resolve against the struct definitions. The
model reads them as follows:

- `get_text_bounds` (meme_canvas.rs:117, generator.rs:106-107) is read as
  `TextBox::get_bounds`.
- `style.font_size` (generator.rs:83, 86) is read as `style.size`.
- The store field `mode` (generator.rs:16) is read as `interaction_mode`.
- `use_meme_canvas()` (generator.rs:15) is called with no arguments, but
  meme_canvas.rs:197 takes the width, height, image URL and boxes. The
  source therefore never fixes the page's initial store. `EditingSession`
  assumes a 500×500 canvas holding the two default boxes of
  canvas_objects.rs:234-237.

## Model

| member | source | states |
|---|---|---|
| Support.Abs | src/stores/text_box.rs:153 | `f64::abs`: the result is non-negative and is the value or its negation |
| Support.Max | src/stores/meme_canvas.rs:101 | `f64::max`: the result is at least both arguments and is one of them |
| Support.Min | src/stores/meme_canvas.rs:101 | `f64::min`: the result is at most both arguments and is one of them |
| Support.Clamp | src/stores/meme_canvas.rs:99 | `f64::clamp`: the result lies in [lo, hi], is the value itself when that is in range, and is lo below the range and hi above it |
| Support.Utf8Length | src/stores/text_box.rs:51 | `String::len` is the UTF-8 byte count: at least the number of characters, at most four times it, and zero only for the empty string |
| Support.AsciiByteLength | src/stores/text_box.rs:51 | on ASCII text the byte length used by the width heuristic equals the character count |
| Support.FirstMatch | src/stores/text_box.rs:162-167 | the early-return `for` loop over the handles: the index returned satisfies the test and no earlier one does; nothing is returned exactly when no element satisfies it |
| Support.LastMatch | src/stores/meme_canvas.rs:75-77 | the reverse `find_map`: the index returned satisfies the test and no later one does; nothing is returned exactly when no element satisfies it |
| TextBoxes.CenteredBounds | src/stores/text_box.rs:53 | the bounds are centred on the given point and have the given width and height |
| TextBoxes.ToLocal | src/stores/text_box.rs:118-126 | the origin maps to (0, 0); with cos = 1 and sin = 0 the map is a pure translation. Its direction, the inverse of the drawing turn, is fixed by `ToLocalInvertsDrawTransform` |
| TextBoxes.ToLocalInvertsDrawTransform | src/stores/text_box.rs:118-126 | translate-then-turn-by-minus-rotation undoes the drawing transform (translate to the centre, turn by +rotation, text_box.rs:59-60): with cos even, sin odd and cos² + sin² = 1, the drawn image `FromLocal` of any local point maps back to that point |
| TextBoxes.ToLocalPreservesDistance | src/stores/text_box.rs:118-126 | when cos² + sin² = 1 the local frame is a rigid rotation: distance from the box centre is preserved |
| TextBoxes.HandleAtLocal | src/stores/text_box.rs:150-167 | the rotate handle wins whenever it is within tolerance 4; a handle returned is within tolerance and every handle tried before it is not; nothing is returned exactly when no handle is within tolerance |
| TextBoxes.NewTextBox | src/stores/text_box.rs:37-48 | a new box keeps the given text, position and style, and is upright, unscaled and unselected |
| TextBoxes.GetBounds | src/stores/text_box.rs:50-54 | the bounds are centred on (x, y), with width bytes·size·0.6 (times scale_x when scaling) and height size (times scale_y when scaling) |
| TextBoxes.CanvasToLocalCoords | src/stores/text_box.rs:118-126 | the box's own position maps to (0, 0); an unrotated box maps by pure translation; `LocalCoordsInvertDrawing` ties it to the box's drawing turn |
| TextBoxes.LocalCoordsInvertDrawing | src/stores/text_box.rs:118-126 | a point drawn at local coordinates (lx, ly) of the box, turned by its rotation about its centre, maps back to (lx, ly) |
| TextBoxes.ContainsPoint | src/stores/text_box.rs:128-137 | true exactly when the local point lies in the scaled bounds moved to the origin; a box with non-negative scales contains its own position; a box with non-empty text, positive font size and a negative scale contains no point |
| TextBoxes.ExtentSign | src/stores/text_box.rs:130-131 | the scaled width and height are non-negative for non-negative scales, and negative for a negative scale of a nonempty text of positive size |
| TextBoxes.GetHandleAtPosition | src/stores/text_box.rs:139-168 | an unselected box has no handles; for a selected box, the handle test of `HandleAtLocal` applied to the local point and the scaled local bounds |
| TextBoxes.UnscaledBoundsIgnoreScale | src/stores/text_box.rs:50-54 | the unscaled bounds do not depend on the scale |
| TextBoxes.NewTextBoxIsPlain | src/stores/text_box.rs:37-168 | a new box has equal scaled and unscaled bounds, contains its own position, and shows no handle anywhere |
| Interaction.ModeCell.Set | src/stores/meme_canvas.rs:60-63 | the store's `set`: the new mode replaces the old one |
| Interaction.ModeCell.SetDragging | src/stores/interaction_mode.rs:14-16 | the mode becomes `Dragging` with the given index and offset |
| Interaction.ModeCell.SetResize | src/stores/interaction_mode.rs:18-20 | the mode becomes `Resizing` with the given index, handle and start point |
| Interaction.ModeCell.SetRotating | src/stores/interaction_mode.rs:22-24 | the mode becomes `Rotating` with the given index and start angle |
| MemeCanvasStore.HitTest | src/stores/meme_canvas.rs:75-77 | the index returned names a box containing the point, and no later (higher-drawn) box contains it; nothing is returned exactly when no box contains it |
| MemeCanvasStore.GetTextboxPosition | src/stores/meme_canvas.rs:51-54 | the position returned is the centre of the box's bounds |
| MemeCanvasStore.HandleHit | src/stores/meme_canvas.rs:33-35 | when `selected_index` names an existing box, the result is exactly that box's `get_handle_at_position` at the pointer; otherwise no handle. A handle is found only on a box carrying the selected flag |
| MemeCanvasStore.Select | src/stores/meme_canvas.rs:136-151 | after `select_text_box(index)` the boxes keep their number and content, and box i is flagged exactly when index is Some(i) |
| MemeCanvasStore.SelectState | src/stores/meme_canvas.rs:142-151 | `select_text_box` on the whole store: `selected_index` becomes the argument even when it names no box, box i is the old box flagged exactly when the argument is Some(i), and nothing else changes |
| MemeCanvasStore.Grabbed | src/stores/meme_canvas.rs:37-45 | only the mode changes, and it targets the selected box. It is `Rotating` exactly for the rotate handle, with grab angle plus the box's rotation equal to the pointer's angle about the centre; otherwise `Resizing` with that handle and the pointer as start point |
| MemeCanvasStore.Picked | src/stores/meme_canvas.rs:56-65 | the selection becomes the hit test's result, box i is the old box flagged exactly when it is selected, and the mode is `Dragging` the hit box by pointer minus centre, or `Idle` when nothing is hit; image and size are unchanged |
| MemeCanvasStore.Pressed | src/stores/meme_canvas.rs:67-74 | on a handle hit only the mode changes, to a rotation or resize of the selected box; otherwise the selection becomes the hit test's result and the mode is a drag of that box or `Idle`. The number of boxes, image and size never change |
| MemeCanvasStore.Released | src/stores/meme_canvas.rs:79-89 | boxes, selection, image and size are unchanged, and the new mode has no move target |
| MemeCanvasStore.Added | src/stores/meme_canvas.rs:153-156 | adding grows the list by one box |
| MemeCanvasStore.Removed | src/stores/meme_canvas.rs:158-163 | a store with at least one box keeps at least one |
| MemeCanvasStore.Dragged | src/stores/meme_canvas.rs:96-102 | a dragged box ends with x in [0, 500] and y ≤ 500, and y at least its font size when that size is ≤ 500; only x and y change |
| MemeCanvasStore.Rotated | src/stores/meme_canvas.rs:105-109 | only the rotation changes, and rotation plus grab angle equals the pointer's current angle about the box centre |
| MemeCanvasStore.Resized | src/stores/meme_canvas.rs:112-129 | only the scales change. Bottom-right gives scale 1 + 2·d/w and top-left gives 1 − 2·d/w, per axis, with d the pointer displacement from the grab point and w the unscaled extent. The other handles change nothing |
| MemeCanvasStore.Moved | src/stores/meme_canvas.rs:91-134 | a move changes only the box list, keeps its length, changes no box but the target of the current gesture, and never changes any box's text, style or selected flag. The target becomes `Dragged` in a drag, `Rotated` in a rotation and `Resized` in a resize (each characterised by its own row) |
| MemeCanvasStore.MemeCanvas.constructor | src/stores/meme_canvas.rs:25-27 | a new store has the given image, size and boxes, no selection and no gesture |
| MemeCanvasStore.MemeCanvas.SelectHandle | src/stores/meme_canvas.rs:32-49 | returns the handle hit on the selected box; on a hit the store moves to the mouse-down state, otherwise nothing changes |
| MemeCanvasStore.MemeCanvas.MaybeSelectTextBox | src/stores/meme_canvas.rs:56-65 | selects the topmost box under the pointer and starts dragging it by the grab offset, or clears the selection and the gesture |
| MemeCanvasStore.MemeCanvas.MouseDown | src/stores/meme_canvas.rs:67-74 | the store reaches `Pressed` of its old state |
| MemeCanvasStore.MemeCanvas.MouseUp | src/stores/meme_canvas.rs:79-83 | the gesture ends; nothing else changes |
| MemeCanvasStore.MemeCanvas.MouseLeave | src/stores/meme_canvas.rs:85-89 | the gesture ends; nothing else changes |
| MemeCanvasStore.MemeCanvas.MouseMove | src/stores/meme_canvas.rs:91-134 | the in-place field writes reach `Moved` of the old state |
| MemeCanvasStore.MemeCanvas.UnselectTextBoxes | src/stores/meme_canvas.rs:136-140 | every flag is cleared and nothing else changes |
| MemeCanvasStore.MemeCanvas.SelectTextBox | src/stores/meme_canvas.rs:142-151 | the store reaches `SelectState` of its old state |
| MemeCanvasStore.MemeCanvas.AddTextBox | src/stores/meme_canvas.rs:153-156 | the store reaches `Added` of its old state |
| MemeCanvasStore.MemeCanvas.RemoveTextBox | src/stores/meme_canvas.rs:158-163 | the store reaches `Removed` of its old state |
| MemeCanvasProperties.SelectIsExclusive | src/stores/meme_canvas.rs:142-151 | selection leaves at most one flag set and stores the index as given. For an index in range (or none), flags and index agree. For an index out of range, every flag is cleared but the index is kept |
| MemeCanvasProperties.PressKeepsSelectionConsistent | src/stores/meme_canvas.rs:67-74 | a mouse-down keeps flags and `selected_index` in agreement, and any gesture it starts names an existing box |
| MemeCanvasProperties.MoveKeepsSelectionConsistent | src/stores/meme_canvas.rs:91-134 | a mouse-move preserves the agreement of flags and index and the validity of the gesture's index |
| MemeCanvasProperties.AddKeepsSelectionConsistent | src/stores/meme_canvas.rs:153-156 | adding a box preserves the agreement of flags and index and the validity of the gesture's index |
| MemeCanvasProperties.RemoveKeepsAtMostOneSelected | src/stores/meme_canvas.rs:158-163 | removing a box never leaves two boxes selected |
| MemeCanvasProperties.RemoveKeepsStaleSelectedIndex | src/stores/meme_canvas.rs:158-163 | removing the selected first of two boxes keeps `selected_index` at 0, now naming the unselected remaining box |
| MemeCanvasProperties.TopmostWins | src/stores/meme_canvas.rs:75-77 | of two boxes containing the point, the hit test never returns the lower one |
| MemeCanvasProperties.AddedBoxIsTopmostAtCentre | src/stores/meme_canvas.rs:153-156 | a box just added is what a click at the canvas centre picks |
| MemeCanvasProperties.PressOnHandle | src/stores/meme_canvas.rs:32-49 | a mouse-down on a handle changes only the mode: to `Rotating` with the grab angle relative to the current rotation, or to `Resizing` with the grab point |
| MemeCanvasProperties.PressOnBox | src/stores/meme_canvas.rs:56-60 | without a handle hit, a mouse-down on boxes selects the topmost box containing the point, consistently, and drags it by pointer minus box centre |
| MemeCanvasProperties.PressOnEmptyCanvas | src/stores/meme_canvas.rs:61-64 | a mouse-down hitting nothing clears every flag and the index and ends the gesture |
| MemeCanvasProperties.DragClampsToCanvas | src/stores/meme_canvas.rs:96-102 | a drag sets x = clamp(mx − ox, 0, 500) and y = min(max(my − oy, size), 500) on the target box |
| MemeCanvasProperties.DragPastTopLeftCorner | src/stores/meme_canvas.rs:99-101 | a size-48 box dragged past the top-left corner ends at x = 0, y = 48 |
| MemeCanvasProperties.MoveWithoutTargetIsNoop | src/stores/meme_canvas.rs:91-134 | a move while idle, or whose gesture index names no box, changes nothing |
| MemeCanvasProperties.ReleaseEndsGesture | src/stores/meme_canvas.rs:79-89 | release changes only the mode, to idle, and every move after it changes nothing |
| MemeCanvasProperties.DragBackToGrabPoint | src/stores/meme_canvas.rs:56-60 | grabbing a box inside the drag limits and moving back to the grab point leaves it where it was |
| MemeCanvasProperties.RotateBackToGrabPoint | src/stores/meme_canvas.rs:38-40 | grabbing the rotate handle and moving back to the grab point restores the original rotation |
| MemeCanvasProperties.ResizeBackToGrabPoint | src/stores/meme_canvas.rs:112-126 | grabbing a resizing corner and moving back to the grab point resets the scale to 1 on both axes, whatever it was, and changes no other box |
| MemeCanvasProperties.OtherCornersDoNotResize | src/stores/meme_canvas.rs:127 | a drag on the top-right or bottom-left handle changes nothing |
| MemeCanvasProperties.PressGrabsOnlyHandles | src/stores/meme_canvas.rs:67-74 | a mouse-down starts a rotation or resize only on a handle hit, and then changes only the mode |
| MemeCanvasProperties.PressDragsOnlyBoxes | src/stores/meme_canvas.rs:56-74 | a mouse-down starts a drag only without a handle hit and on the box the hit test returns, which it selects |
| MemeCanvasProperties.ResizeAtGrabPointIsUnit | src/stores/meme_canvas.rs:119-126 | a corner resize evaluated at its own grab point gives scale 1 on both axes |
| MemeCanvasProperties.AddAppendsCentredBox | src/stores/meme_canvas.rs:153-156 | adding appends one upright, unscaled, unselected "new text" box of size 48 at the canvas centre and changes nothing else |
| MemeCanvasProperties.RemoveGuard | src/stores/meme_canvas.rs:158-163 | with more than one box and an index in range, exactly that box is deleted and the order of the others kept. Otherwise nothing changes. The selection is never touched, and a store with a box keeps one |
| MemeCanvasProperties.EditingSession | src/pages/generator.rs:30-134 | on a 500×500 canvas with the two default boxes: press (375,125) selects box 0 with zero offset; a move to (400,150) puts it there; release ends the drag; add puts a third box at (250,250); removing box 0 leaves two boxes and the index 0; a one-box store refuses removal |
| CanvasObjectStore.NewTextBox | src/stores/canvas_objects.rs:40-43 | a new box keeps text, position and font size, and is upright, unscaled and unselected |
| CanvasObjectStore.GetTextBounds | src/stores/canvas_objects.rs:45-54 | the bounds are centred on (pos_x, pos_y), with width bytes·font_size·0.6 (times scale_x when scaling) and height font_size (times scale_y when scaling) |
| CanvasObjectStore.CanvasToLocalCoords | src/stores/canvas_objects.rs:133-146 | the box's own position maps to (0, 0); an unrotated box maps by pure translation; `LocalCoordsInvertDrawing` ties it to the box's drawing turn |
| CanvasObjectStore.LocalCoordsInvertDrawing | src/stores/canvas_objects.rs:133-146 | a point drawn at local coordinates (lx, ly) of the box, turned by its rotation about its centre (canvas_objects.rs:60-61), maps back to (lx, ly) |
| CanvasObjectStore.ContainsPoint | src/stores/canvas_objects.rs:148-161 | true exactly when the local point lies in the scaled bounds moved to the origin; the own position is contained for non-negative scales; a box with non-empty text, positive font size and a negative scale contains no point |
| CanvasObjectStore.GetHandleAtPosition | src/stores/canvas_objects.rs:163-204 | no handles on an unselected box; rotate handle first, then the first corner within tolerance 4 in the order top-left, top-right, bottom-right, bottom-left; none exactly when no handle is within tolerance |
| CanvasObjectStore.AgreesWithStyledBox | src/stores/canvas_objects.rs:45-204 | the earlier box and the later one with the same font size give the same bounds, local coordinates, point test and handle test |
| CanvasObjectStore.DefaultBoxes | src/stores/canvas_objects.rs:234-237 | two size-48 boxes, "top text" at (3w/4, h/4) and "bottom text" at (3w/4, 3h/4): same column, half a canvas height apart |
| CanvasObjectStore.DefaultBoxesArePlain | src/stores/canvas_objects.rs:234-237 | each default box contains its own position and shows no handle there |
| CanvasObjectStore.CanvasObjects.constructor | src/stores/canvas_objects.rs:229-240 | a new store has the stock image URL, the given size, the two default boxes and no selection |
| CanvasObjectStore.CanvasObjects.GetTextBoxAtPosition | src/stores/canvas_objects.rs:245-254 | the reverse scan returns a box containing the point with no later box containing it, or nothing exactly when no box contains it |
| CanvasObjectStore.CanvasObjects.SelectTextBox | src/stores/canvas_objects.rs:256-272 | every box keeps its content and is flagged exactly when it is the index; at most one box is flagged; the index is stored as given |
| CanvasObjectStore.CanvasObjects.AddTextBox | src/stores/canvas_objects.rs:274-277 | appends one "new text" box of size 48 at the canvas centre; nothing else changes |
| CanvasObjectStore.CanvasObjects.RemoveTextBox | src/stores/canvas_objects.rs:279-284 | deletes exactly box `index` when more than one box exists and the index is in range, keeping the others in order; otherwise nothing changes; at least one box remains |
| GeneratorPage.OnMouseDown | src/pages/generator.rs:30-70 | the page's mouse-down reaches `Pressed` of the old store state |
| GeneratorPage.GrabHandle | src/pages/generator.rs:37-53 | the handle branch reaches `Grabbed`: the rotate handle records the grab angle, a corner the grab point |
| GeneratorPage.PickBox | src/pages/generator.rs:56-69 | the rest of the mouse-down reaches `Picked`: select and drag the topmost box, or clear the selection and the gesture |
| GeneratorPage.OnMouseMove | src/pages/generator.rs:71-128 | the page's in-place writes reach `Moved` of the old store state |
| GeneratorPage.OnMouseUp | src/pages/generator.rs:129-131 | the gesture ends; nothing else changes |
| GeneratorPage.OnMouseLeave | src/pages/generator.rs:132-134 | the gesture ends; nothing else changes |

## Left out

- Rendering is not modelled: `render_canvas`, `draw_to_canvas` and `draw_selection_handles` in both stores, the image `onload` closure, and the call to `render_canvas` after each move.
- The DOM is not modelled: `get_meme_canvas`, `get_canvas_mouse_pos`, `download_canvas_as_image`, the rsx markup and the form inputs of the generator page. Pointer coordinates arrive as parameters, already in canvas space.
- Event bookkeeping (`prevent_default`, `stop_propagation`, `element_coordinates`) is not modelled.
- The reactive machinery of the Dioxus store (`transpose`, `read`, `write`, lenses, `use_meme_canvas`) is not modelled. Store fields are plain fields.
- Floating point is modelled by real arithmetic: no rounding, no NaN, no infinity. `max`, `min` and `clamp` are written out for ordered reals.
- `cos`, `sin` and `atan2` are not modelled. They are a parameter `Trig` about which nothing is assumed; lemmas that need `cos(0) = 1` or a unit circle state it as a precondition.
- The integer widths `u32` and `usize` are not bounded: sizes and indices are unbounded `nat`, and `as f64` is exact.
- MemeCanvasStore.Moved, MemeCanvasStore.Resized, MemeCanvasStore.MemeCanvas.MouseMove and GeneratorPage.OnMouseMove require a nonzero unscaled extent (nonempty text, positive size) when a bottom-right or top-left resize is in progress on an existing box. In Rust a zero extent yields an infinite or NaN scale, which reals cannot express.
- MemeCanvasStore.GetTextboxPosition requires an index in range, because the Rust `expect` panics otherwise. Its only caller passes the index the hit test returned.
- Support.Clamp requires lo ≤ hi, as `f64::clamp` panics otherwise. Every call uses the constant range [0, 500].
- The second `MemeCanvas` struct in src/stores/text_box.rs:183-190 is declared but never used, and is not modelled.
- `CanvasObjectStore` reuses the `HandleType` of `TextBoxes`. The two Rust enums are declared identically.
- Selection handles are tested against the exact handle positions the code computes. The drawn rotate handle is a circle, but the code tests a square, and so does the model.
