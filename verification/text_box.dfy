/**
 * One text box of the meme editor (src/stores/text_box.rs): its data, its
 * bounds, the mapping of a canvas point into the box's own unrotated frame,
 * the point-in-box test and the hit test of the selection handles.
 *
 * The frame geometry is written once, on plain numbers, and shared with the
 * earlier copy of the same box in module CanvasObjectStore.
 */
module TextBoxes {
  import opened Support

  /** Side of a square selection handle, in pixels. */
  const HANDLE_SIZE: real := 8.0
  /** How far a pointer may be from a handle, on each axis, and still hit it. */
  const HANDLE_TOLERANCE: real := HANDLE_SIZE / 2.0
  /** Distance of the rotate handle above the top edge, in local pixels. */
  const ROTATE_HANDLE_GAP: real := 20.0
  /** Width of one byte of text, as a fraction of the font size. */
  const GLYPH_WIDTH_RATIO: real := 0.6

  datatype TextBoxStyle = TextBoxStyle(size: nat, family: string, effect: string)

  datatype TextBox = TextBox(
    text: string,
    x: real,
    y: real,
    rotation: real,
    scaleX: real,
    scaleY: real,
    style: TextBoxStyle,
    isSelected: bool)

  datatype TextBounds = TextBounds(left: real, top: real, right: real, bottom: real)

  datatype HandleType = ResizeTopLeft | ResizeTopRight | ResizeBottomRight | ResizeBottomLeft | Rotate

  // ---------------------------------------------------------------------------
  // Frame geometry on plain numbers
  // ---------------------------------------------------------------------------

  /** The width heuristic: bytes of text times font size times 0.6 times a scale. */
  function TextWidth(text: string, size: nat, scale: real): real
  {
    Utf8Length(text) as real * size as real * GLYPH_WIDTH_RATIO * scale
  }

  /** The rectangle of width `w` and height `h` centred on `(cx, cy)`. */
  function CenteredBounds(cx: real, cy: real, w: real, h: real): (b: TextBounds)
    ensures (b.left + b.right) / 2.0 == cx && (b.top + b.bottom) / 2.0 == cy
    ensures b.right - b.left == w && b.bottom - b.top == h
  {
    TextBounds(cx - w / 2.0, cy - h / 2.0, cx + w / 2.0, cy + h / 2.0)
  }

  /**
   * Translate `(x, y)` by minus the origin `(ox, oy)`, then rotate it by
   * minus `rotation`.
   */
  function ToLocal(ox: real, oy: real, rotation: real, x: real, y: real, trig: Trig): (p: (real, real))
    ensures x == ox && y == oy ==> p == (0.0, 0.0)
    ensures trig.cos(-rotation) == 1.0 && trig.sin(-rotation) == 0.0 ==> p == (x - ox, y - oy)
  {
    var tx := x - ox;
    var ty := y - oy;
    var c := trig.cos(-rotation);
    var s := trig.sin(-rotation);
    (tx * c - ty * s, tx * s + ty * c)
  }

  /**
   * When `cos` and `sin` of the angle lie on the unit circle, the local frame
   * is the canvas frame turned rigidly: distances from the origin agree.
   */
  lemma ToLocalPreservesDistance(ox: real, oy: real, rotation: real, x: real, y: real, trig: Trig)
    requires trig.cos(-rotation) * trig.cos(-rotation) + trig.sin(-rotation) * trig.sin(-rotation) == 1.0
    ensures var p := ToLocal(ox, oy, rotation, x, y, trig);
            p.0 * p.0 + p.1 * p.1 == (x - ox) * (x - ox) + (y - oy) * (y - oy)
  {
    var tx, ty := x - ox, y - oy;
    var c, s := trig.cos(-rotation), trig.sin(-rotation);
    calc {
      (tx * c - ty * s) * (tx * c - ty * s) + (tx * s + ty * c) * (tx * s + ty * c);
      tx * tx * (c * c + s * s) + ty * ty * (c * c + s * s);
      tx * tx + ty * ty;
    }
  }

  /** Where a point at `(lx, ly)` in the frame of a box centred at `(ox, oy)` and turned by `rotation` is drawn on the canvas. */
  function FromLocal(ox: real, oy: real, rotation: real, lx: real, ly: real, trig: Trig): (real, real)
  {
    var c, s := trig.cos(rotation), trig.sin(rotation);
    (ox + (lx * c - ly * s), oy + (lx * s + ly * c))
  }

  /**
   * A box is drawn by turning its local frame by `rotation` about its
   * centre; `ToLocal` undoes exactly that turn. With `cos` even, `sin` odd
   * and the pair on the unit circle, the drawn image of a local point maps
   * back to that point.
   */
  lemma ToLocalInvertsDrawTransform(ox: real, oy: real, rotation: real, lx: real, ly: real, trig: Trig)
    requires trig.cos(-rotation) == trig.cos(rotation) && trig.sin(-rotation) == -trig.sin(rotation)
    requires trig.cos(rotation) * trig.cos(rotation) + trig.sin(rotation) * trig.sin(rotation) == 1.0
    ensures var q := FromLocal(ox, oy, rotation, lx, ly, trig);
            ToLocal(ox, oy, rotation, q.0, q.1, trig) == (lx, ly)
  {
    var c, s := trig.cos(rotation), trig.sin(rotation);
    var tx, ty := lx * c - ly * s, lx * s + ly * c;
    var q := FromLocal(ox, oy, rotation, lx, ly, trig);
    assert q.0 - ox == tx && q.1 - oy == ty;
    var back := trig.sin(-rotation);
    var r := ToLocal(ox, oy, rotation, q.0, q.1, trig);
    assert r.0 == (q.0 - ox) * trig.cos(-rotation) - (q.1 - oy) * back;
    assert r.0 == tx * c - ty * back;
    assert r.1 == tx * back + ty * c;
    TurnBack(c, s, back, lx, ly);
    assert r.0 == lx;
    assert r.1 == ly;
    assert r == (lx, ly);
  }

  /** Turning by (c, s) and then by (c, -s) is the identity when c² + s² = 1. */
  lemma TurnBack(c: real, s: real, back: real, lx: real, ly: real)
    requires c * c + s * s == 1.0 && back == -s
    ensures var tx, ty := lx * c - ly * s, lx * s + ly * c;
            tx * c - ty * back == lx && tx * back + ty * c == ly
  {
    var tx, ty := lx * c - ly * s, lx * s + ly * c;
    calc {
      tx * c - ty * back;
      lx * (c * c + s * s) + ly * (s * c - c * s);
      lx;
    }
    calc {
      tx * back + ty * c;
      lx * (s * c - c * s) + ly * (c * c + s * s);
      ly;
    }
  }

  predicate InBounds(p: (real, real), b: TextBounds)
  {
    p.0 >= b.left && p.0 <= b.right && p.1 >= b.top && p.1 <= b.bottom
  }

  /** Where handle `h` sits, in the local frame whose bounds are `b`. */
  function HandlePosition(b: TextBounds, h: HandleType): (real, real)
  {
    match h
    case ResizeTopLeft => (b.left, b.top)
    case ResizeTopRight => (b.right, b.top)
    case ResizeBottomRight => (b.right, b.bottom)
    case ResizeBottomLeft => (b.left, b.bottom)
    case Rotate => (0.0, b.top - ROTATE_HANDLE_GAP)
  }

  /** The order in which the handles are tried: the rotate handle, then the corners clockwise from top-left. */
  function HandleRank(h: HandleType): nat
  {
    match h
    case Rotate => 0
    case ResizeTopLeft => 1
    case ResizeTopRight => 2
    case ResizeBottomRight => 3
    case ResizeBottomLeft => 4
  }

  predicate WithinTolerance(p: (real, real), q: (real, real))
  {
    Abs(p.0 - q.0) <= HANDLE_TOLERANCE && Abs(p.1 - q.1) <= HANDLE_TOLERANCE
  }

  /**
   * The handle under the local point `p`: the rotate handle if it is within
   * tolerance, otherwise the first corner within tolerance in the order
   * top-left, top-right, bottom-right, bottom-left.
   */
  function HandleAtLocal(p: (real, real), b: TextBounds): (r: Option<HandleType>)
    ensures WithinTolerance(p, HandlePosition(b, Rotate)) ==> r == Some(Rotate)
    ensures r.Some? ==> WithinTolerance(p, HandlePosition(b, r.value))
    ensures r.Some? ==> forall h :: HandleRank(h) < HandleRank(r.value) ==> !WithinTolerance(p, HandlePosition(b, h))
    ensures r.None? ==> forall h :: !WithinTolerance(p, HandlePosition(b, h))
  {
    if WithinTolerance(p, (0.0, b.top - ROTATE_HANDLE_GAP)) then Some(Rotate)
    else
      var handles := [
        (b.left, b.top, ResizeTopLeft),
        (b.right, b.top, ResizeTopRight),
        (b.right, b.bottom, ResizeBottomRight),
        (b.left, b.bottom, ResizeBottomLeft)];
      assert forall h :: h != Rotate ==>
        var hd := handles[HandleRank(h) - 1]; hd.2 == h && (hd.0, hd.1) == HandlePosition(b, h);
      match FirstMatch(handles, (hd: (real, real, HandleType)) => WithinTolerance(p, (hd.0, hd.1)))
      case Some(k) => Some(handles[k].2)
      case None => None
  }

  // ---------------------------------------------------------------------------
  // The text box
  // ---------------------------------------------------------------------------

  /** `TextBox::new`: an upright, unscaled, unselected box. */
  function NewTextBox(text: string, x: real, y: real, fontSize: nat, fontFamily: string, fontEffect: string): (tb: TextBox)
    ensures tb.text == text && tb.x == x && tb.y == y
    ensures tb.rotation == 0.0 && tb.scaleX == 1.0 && tb.scaleY == 1.0 && !tb.isSelected
    ensures tb.style == TextBoxStyle(fontSize, fontFamily, fontEffect)
  {
    TextBox(text, x, y, 0.0, 1.0, 1.0, TextBoxStyle(fontSize, fontFamily, fontEffect), false)
  }

  /** `get_bounds`: the canvas rectangle of the text, with or without the box's scale. */
  function GetBounds(tb: TextBox, useScaling: bool): (b: TextBounds)
    ensures (b.left + b.right) / 2.0 == tb.x && (b.top + b.bottom) / 2.0 == tb.y
    ensures b.right - b.left
         == Utf8Length(tb.text) as real * tb.style.size as real * 0.6 * (if useScaling then tb.scaleX else 1.0)
    ensures b.bottom - b.top == tb.style.size as real * (if useScaling then tb.scaleY else 1.0)
  {
    var w := TextWidth(tb.text, tb.style.size, if useScaling then tb.scaleX else 1.0);
    var h := tb.style.size as real * if useScaling then tb.scaleY else 1.0;
    CenteredBounds(tb.x, tb.y, w, h)
  }

  /** The scaled bounds of the box in its own frame, centred on the origin. */
  function LocalBounds(tb: TextBox): TextBounds
  {
    CenteredBounds(0.0, 0.0, TextWidth(tb.text, tb.style.size, tb.scaleX), tb.style.size as real * tb.scaleY)
  }

  /** `canvas_to_local_coords` */
  function CanvasToLocalCoords(tb: TextBox, x: real, y: real, trig: Trig): (p: (real, real))
    ensures x == tb.x && y == tb.y ==> p == (0.0, 0.0)
    ensures trig.cos(-tb.rotation) == 1.0 && trig.sin(-tb.rotation) == 0.0 ==> p == (x - tb.x, y - tb.y)
  {
    ToLocal(tb.x, tb.y, tb.rotation, x, y, trig)
  }

  /** A point drawn at local coordinates `(lx, ly)` of the box maps back to them. */
  lemma LocalCoordsInvertDrawing(tb: TextBox, lx: real, ly: real, trig: Trig)
    requires trig.cos(-tb.rotation) == trig.cos(tb.rotation) && trig.sin(-tb.rotation) == -trig.sin(tb.rotation)
    requires trig.cos(tb.rotation) * trig.cos(tb.rotation) + trig.sin(tb.rotation) * trig.sin(tb.rotation) == 1.0
    ensures var q := FromLocal(tb.x, tb.y, tb.rotation, lx, ly, trig);
            CanvasToLocalCoords(tb, q.0, q.1, trig) == (lx, ly)
  {
    ToLocalInvertsDrawTransform(tb.x, tb.y, tb.rotation, lx, ly, trig);
  }

  /** `contains_point`: the point, seen in the box's frame, lies inside the scaled bounds. */
  function ContainsPoint(tb: TextBox, x: real, y: real, trig: Trig): (r: bool)
    ensures var b := GetBounds(tb, true);
            var p := CanvasToLocalCoords(tb, x, y, trig);
            r <==> b.left - tb.x <= p.0 <= b.right - tb.x && b.top - tb.y <= p.1 <= b.bottom - tb.y
    ensures x == tb.x && y == tb.y && tb.scaleX >= 0.0 && tb.scaleY >= 0.0 ==> r
    ensures tb.text != [] && tb.style.size > 0 && (tb.scaleX < 0.0 || tb.scaleY < 0.0) ==> !r
  {
    ExtentSign(tb.text, tb.style.size, tb.scaleX, tb.scaleY);
    InBounds(CanvasToLocalCoords(tb, x, y, trig), LocalBounds(tb))
  }

  /** The scaled extents of a text are non-negative for non-negative scales, and negative for a negative scale of a nonempty text of positive size. */
  lemma ExtentSign(text: string, size: nat, scaleX: real, scaleY: real)
    ensures scaleX >= 0.0 ==> TextWidth(text, size, scaleX) >= 0.0
    ensures scaleY >= 0.0 ==> size as real * scaleY >= 0.0
    ensures text != [] && size > 0 && scaleX < 0.0 ==> TextWidth(text, size, scaleX) < 0.0
    ensures size > 0 && scaleY < 0.0 ==> size as real * scaleY < 0.0
  {
    var k := Utf8Length(text) as real * size as real;
    assert k >= 0.0;
    assert text != [] && size > 0 ==> k > 0.0;
    ProductSign(k * GLYPH_WIDTH_RATIO, scaleX);
    ProductSign(size as real, scaleY);
  }

  lemma ProductSign(a: real, b: real)
    requires a >= 0.0
    ensures b >= 0.0 ==> a * b >= 0.0
    ensures a > 0.0 && b < 0.0 ==> a * b < 0.0
  {
  }

  /**
   * `get_handle_at_position`: nothing for an unselected box; otherwise the
   * handle under the point, tried in the order of `HandleRank`.
   */
  function GetHandleAtPosition(tb: TextBox, x: real, y: real, trig: Trig): (r: Option<HandleType>)
    ensures !tb.isSelected ==> r == None
    ensures var p := CanvasToLocalCoords(tb, x, y, trig);
            var b := LocalBounds(tb);
            && (tb.isSelected && WithinTolerance(p, HandlePosition(b, Rotate)) ==> r == Some(Rotate))
            && (r.Some? ==> WithinTolerance(p, HandlePosition(b, r.value)))
            && (r.Some? ==> forall h :: HandleRank(h) < HandleRank(r.value) ==> !WithinTolerance(p, HandlePosition(b, h)))
            && (tb.isSelected && r.None? ==> forall h :: !WithinTolerance(p, HandlePosition(b, h)))
  {
    if !tb.isSelected then None
    else HandleAtLocal(CanvasToLocalCoords(tb, x, y, trig), LocalBounds(tb))
  }

  /** The unscaled bounds do not depend on the scale. */
  lemma UnscaledBoundsIgnoreScale(tb: TextBox, sx: real, sy: real)
    ensures GetBounds(tb.(scaleX := sx, scaleY := sy), false) == GetBounds(tb, false)
  {
  }

  /** A new box has equal scaled and unscaled bounds, contains its own position and shows no handles. */
  lemma NewTextBoxIsPlain(text: string, x: real, y: real, fontSize: nat, family: string, effect: string, px: real, py: real, trig: Trig)
    ensures var tb := NewTextBox(text, x, y, fontSize, family, effect);
            && GetBounds(tb, true) == GetBounds(tb, false)
            && ContainsPoint(tb, x, y, trig)
            && GetHandleAtPosition(tb, px, py, trig) == None
  {
  }
}
