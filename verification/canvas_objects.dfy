/**
 * The earlier copy of the editor's scene store (src/stores/canvas_objects.rs):
 * a text box with a bare font size instead of a style, the same geometry, and
 * a store that the page mutates in place.
 *
 * The geometry is the frame geometry of module TextBoxes applied to this
 * box's fields; `HandleType` is the enum of that module, declared identically
 * in both files.
 */
module CanvasObjectStore {
  import opened Support
  import TextBoxes

  const DEFAULT_IMAGE_URL: string := "https://i.imgflip.com/4/30b1gx.jpg"
  /** Font size of every box the store creates. */
  const DEFAULT_FONT_SIZE: nat := 48

  datatype TextBox = TextBox(
    text: string,
    posX: real,
    posY: real,
    fontSize: nat,
    rotation: real,
    scaleX: real,
    scaleY: real,
    isSelected: bool)

  /** `TextBox::new`: an upright, unscaled, unselected box. */
  function NewTextBox(text: string, posX: real, posY: real, fontSize: nat): (tb: TextBox)
    ensures tb.text == text && tb.posX == posX && tb.posY == posY && tb.fontSize == fontSize
    ensures tb.rotation == 0.0 && tb.scaleX == 1.0 && tb.scaleY == 1.0 && !tb.isSelected
  {
    TextBox(text, posX, posY, fontSize, 0.0, 1.0, 1.0, false)
  }

  /** `get_text_bounds`: the canvas rectangle of the text, with or without the box's scale. */
  function GetTextBounds(tb: TextBox, useScaling: bool): (b: TextBoxes.TextBounds)
    ensures (b.left + b.right) / 2.0 == tb.posX && (b.top + b.bottom) / 2.0 == tb.posY
    ensures b.right - b.left
         == Utf8Length(tb.text) as real * tb.fontSize as real * 0.6 * (if useScaling then tb.scaleX else 1.0)
    ensures b.bottom - b.top == tb.fontSize as real * (if useScaling then tb.scaleY else 1.0)
  {
    TextBoxes.CenteredBounds(
      tb.posX, tb.posY,
      TextBoxes.TextWidth(tb.text, tb.fontSize, if useScaling then tb.scaleX else 1.0),
      tb.fontSize as real * if useScaling then tb.scaleY else 1.0)
  }

  /** The scaled bounds in the box's own frame, centred on the origin. */
  function LocalBounds(tb: TextBox): TextBoxes.TextBounds
  {
    TextBoxes.CenteredBounds(0.0, 0.0, TextBoxes.TextWidth(tb.text, tb.fontSize, tb.scaleX), tb.fontSize as real * tb.scaleY)
  }

  /** `canvas_to_local_coords` */
  function CanvasToLocalCoords(tb: TextBox, x: real, y: real, trig: Trig): (p: (real, real))
    ensures x == tb.posX && y == tb.posY ==> p == (0.0, 0.0)
    ensures trig.cos(-tb.rotation) == 1.0 && trig.sin(-tb.rotation) == 0.0 ==> p == (x - tb.posX, y - tb.posY)
  {
    TextBoxes.ToLocal(tb.posX, tb.posY, tb.rotation, x, y, trig)
  }

  /** A point drawn at local coordinates `(lx, ly)` of the box maps back to them. */
  lemma LocalCoordsInvertDrawing(tb: TextBox, lx: real, ly: real, trig: Trig)
    requires trig.cos(-tb.rotation) == trig.cos(tb.rotation) && trig.sin(-tb.rotation) == -trig.sin(tb.rotation)
    requires trig.cos(tb.rotation) * trig.cos(tb.rotation) + trig.sin(tb.rotation) * trig.sin(tb.rotation) == 1.0
    ensures var q := TextBoxes.FromLocal(tb.posX, tb.posY, tb.rotation, lx, ly, trig);
            CanvasToLocalCoords(tb, q.0, q.1, trig) == (lx, ly)
  {
    TextBoxes.ToLocalInvertsDrawTransform(tb.posX, tb.posY, tb.rotation, lx, ly, trig);
  }

  /** `contains_point`: the point, seen in the box's frame, lies inside the scaled bounds. */
  function ContainsPoint(tb: TextBox, x: real, y: real, trig: Trig): (r: bool)
    ensures var b := GetTextBounds(tb, true);
            var p := CanvasToLocalCoords(tb, x, y, trig);
            r <==> b.left - tb.posX <= p.0 <= b.right - tb.posX && b.top - tb.posY <= p.1 <= b.bottom - tb.posY
    ensures x == tb.posX && y == tb.posY && tb.scaleX >= 0.0 && tb.scaleY >= 0.0 ==> r
    ensures tb.text != [] && tb.fontSize > 0 && (tb.scaleX < 0.0 || tb.scaleY < 0.0) ==> !r
  {
    TextBoxes.ExtentSign(tb.text, tb.fontSize, tb.scaleX, tb.scaleY);
    TextBoxes.InBounds(CanvasToLocalCoords(tb, x, y, trig), LocalBounds(tb))
  }

  /**
   * `get_handle_at_position`: nothing for an unselected box; otherwise the
   * rotate handle if it is within tolerance, else the first corner within
   * tolerance in the order top-left, top-right, bottom-right, bottom-left.
   */
  function GetHandleAtPosition(tb: TextBox, x: real, y: real, trig: Trig): (r: Option<TextBoxes.HandleType>)
    ensures !tb.isSelected ==> r == None
    ensures var p := CanvasToLocalCoords(tb, x, y, trig);
            var b := LocalBounds(tb);
            && (tb.isSelected && TextBoxes.WithinTolerance(p, TextBoxes.HandlePosition(b, TextBoxes.Rotate)) ==> r == Some(TextBoxes.Rotate))
            && (r.Some? ==> TextBoxes.WithinTolerance(p, TextBoxes.HandlePosition(b, r.value)))
            && (r.Some? ==> forall h :: TextBoxes.HandleRank(h) < TextBoxes.HandleRank(r.value) ==>
                                !TextBoxes.WithinTolerance(p, TextBoxes.HandlePosition(b, h)))
            && (tb.isSelected && r.None? ==> forall h :: !TextBoxes.WithinTolerance(p, TextBoxes.HandlePosition(b, h)))
  {
    if !tb.isSelected then None
    else TextBoxes.HandleAtLocal(CanvasToLocalCoords(tb, x, y, trig), LocalBounds(tb))
  }

  /** The same box in the later representation, with the font size moved into a style. */
  function Styled(tb: TextBox, family: string, effect: string): TextBoxes.TextBox
  {
    TextBoxes.TextBox(tb.text, tb.posX, tb.posY, tb.rotation, tb.scaleX, tb.scaleY,
                      TextBoxes.TextBoxStyle(tb.fontSize, family, effect), tb.isSelected)
  }

  /**
   * The two copies of the text box agree: bounds, local coordinates, the
   * point test and the handle test give the same answers whatever style the
   * later copy carries.
   */
  lemma AgreesWithStyledBox(tb: TextBox, family: string, effect: string, useScaling: bool, x: real, y: real, trig: Trig)
    ensures var s := Styled(tb, family, effect);
            && GetTextBounds(tb, useScaling) == TextBoxes.GetBounds(s, useScaling)
            && CanvasToLocalCoords(tb, x, y, trig) == TextBoxes.CanvasToLocalCoords(s, x, y, trig)
            && ContainsPoint(tb, x, y, trig) == TextBoxes.ContainsPoint(s, x, y, trig)
            && GetHandleAtPosition(tb, x, y, trig) == TextBoxes.GetHandleAtPosition(s, x, y, trig)
  {
    var s := Styled(tb, family, effect);
    assert LocalBounds(tb) == TextBoxes.LocalBounds(s);
    assert CanvasToLocalCoords(tb, x, y, trig) == TextBoxes.CanvasToLocalCoords(s, x, y, trig);
  }

  /**
   * The two boxes `CanvasObjects::new` starts with: "top text" and "bottom
   * text", both of size 48 and in the right-hand column at three quarters of
   * the width, one a quarter and one three quarters of the way down.
   */
  function DefaultBoxes(width: nat, height: nat): (r: seq<TextBox>)
    ensures |r| == 2
    ensures r[0].text == "top text" && r[1].text == "bottom text"
    ensures forall i :: 0 <= i < 2 ==>
              r[i] == NewTextBox(r[i].text, 0.75 * width as real, r[i].posY, DEFAULT_FONT_SIZE)
    ensures r[0].posY == 0.25 * height as real && r[1].posY == 0.75 * height as real
    ensures height > 0 ==> r[0].posY < r[1].posY
    ensures r[1].posY - r[0].posY == height as real / 2.0
  {
    [ NewTextBox("top text", (3.0 / 4.0) * width as real, (1.0 / 4.0) * height as real, DEFAULT_FONT_SIZE),
      NewTextBox("bottom text", (3.0 / 4.0) * width as real, (3.0 / 4.0) * height as real, DEFAULT_FONT_SIZE) ]
  }

  /** Each default box contains its own position and none is selected. */
  lemma DefaultBoxesArePlain(width: nat, height: nat, trig: Trig)
    ensures forall i :: 0 <= i < 2 ==>
              var tb := DefaultBoxes(width, height)[i];
              ContainsPoint(tb, tb.posX, tb.posY, trig) && GetHandleAtPosition(tb, tb.posX, tb.posY, trig) == None
  {
  }

  /** The store of the earlier page, mutated in place by its event handlers. */
  class CanvasObjects {
    var mainImgUrl: string
    var width: nat
    var height: nat
    var textBoxes: seq<TextBox>
    var selectedIndex: Option<nat>

    /** `CanvasObjects::new`: the stock image, the two default boxes and no selection. */
    constructor (width: nat, height: nat)
      ensures this.width == width && this.height == height
      ensures mainImgUrl == DEFAULT_IMAGE_URL
      ensures textBoxes == DefaultBoxes(width, height)
      ensures selectedIndex == None
    {
      this.width := width;
      this.height := height;
      mainImgUrl := DEFAULT_IMAGE_URL;
      textBoxes := DefaultBoxes(width, height);
      selectedIndex := None;
    }

    /**
     * `get_text_box_at_position`: scanning from the last box (drawn on top)
     * down to the first, the index of the first box that contains the point.
     */
    method GetTextBoxAtPosition(x: real, y: real, trig: Trig) returns (r: Option<nat>)
      ensures r.Some? ==> r.value < |textBoxes| && ContainsPoint(textBoxes[r.value], x, y, trig)
      ensures r.Some? ==> forall j :: r.value < j < |textBoxes| ==> !ContainsPoint(textBoxes[j], x, y, trig)
      ensures r.None? <==> forall j :: 0 <= j < |textBoxes| ==> !ContainsPoint(textBoxes[j], x, y, trig)
    {
      var i := |textBoxes|;
      while i > 0
        invariant 0 <= i <= |textBoxes|
        invariant forall j :: i <= j < |textBoxes| ==> !ContainsPoint(textBoxes[j], x, y, trig)
      {
        i := i - 1;
        if ContainsPoint(textBoxes[i], x, y, trig) {
          return Some(i);
        }
      }
      return None;
    }

    /**
     * `select_text_box`: clear every flag, set the flag of box `index` if it
     * exists, and store `index` as given, even when it names no box.
     */
    method SelectTextBox(index: Option<nat>)
      modifies this
      ensures |textBoxes| == |old(textBoxes)|
      ensures forall i :: 0 <= i < |textBoxes| ==>
                textBoxes[i] == old(textBoxes[i]).(isSelected := index == Some(i))
      ensures forall i, j :: 0 <= i < j < |textBoxes| ==> !(textBoxes[i].isSelected && textBoxes[j].isSelected)
      ensures selectedIndex == index
      ensures mainImgUrl == old(mainImgUrl) && width == old(width) && height == old(height)
    {
      var k := 0;
      while k < |textBoxes|
        invariant 0 <= k <= |textBoxes| == |old(textBoxes)|
        invariant forall i :: 0 <= i < k ==> textBoxes[i] == old(textBoxes[i]).(isSelected := false)
        invariant forall i :: k <= i < |textBoxes| ==> textBoxes[i] == old(textBoxes[i])
        invariant mainImgUrl == old(mainImgUrl) && width == old(width) && height == old(height)
        invariant selectedIndex == old(selectedIndex)
      {
        textBoxes := textBoxes[k := textBoxes[k].(isSelected := false)];
        k := k + 1;
      }
      if index.Some? && index.value < |textBoxes| {
        textBoxes := textBoxes[index.value := textBoxes[index.value].(isSelected := true)];
      }
      selectedIndex := index;
    }

    /** `add_text_box`: push an unselected "new text" box of size 48 at the canvas centre. */
    method AddTextBox()
      modifies this
      ensures textBoxes == old(textBoxes) + [NewTextBox("new text", width as real / 2.0, height as real / 2.0, DEFAULT_FONT_SIZE)]
      ensures mainImgUrl == old(mainImgUrl) && width == old(width) && height == old(height)
      ensures selectedIndex == old(selectedIndex)
    {
      textBoxes := textBoxes + [NewTextBox("new text", width as real / 2.0, height as real / 2.0, DEFAULT_FONT_SIZE)];
    }

    /**
     * `remove_text_box`: delete box `index` when it exists and is not the only
     * box; otherwise do nothing. The selection is not adjusted.
     */
    method RemoveTextBox(index: nat)
      modifies this
      ensures |old(textBoxes)| > 1 && index < |old(textBoxes)| ==>
                && |textBoxes| == |old(textBoxes)| - 1
                && (forall j :: 0 <= j < index ==> textBoxes[j] == old(textBoxes[j]))
                && (forall j :: index <= j < |textBoxes| ==> textBoxes[j] == old(textBoxes[j + 1]))
      ensures |old(textBoxes)| <= 1 || index >= |old(textBoxes)| ==> textBoxes == old(textBoxes)
      ensures |old(textBoxes)| >= 1 ==> |textBoxes| >= 1
      ensures mainImgUrl == old(mainImgUrl) && width == old(width) && height == old(height)
      ensures selectedIndex == old(selectedIndex)
    {
      if |textBoxes| > 1 && index < |textBoxes| {
        textBoxes := textBoxes[..index] + textBoxes[index + 1..];
      }
    }
  }
}
