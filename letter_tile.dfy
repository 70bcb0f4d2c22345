/**
 * The letter tile drawable: the static palette shared by every tile, the
 * tile's own state and setters, drawing onto a canvas, and rendering into a
 * square bitmap.
 */
module LetterTile {
  import opened JavaInt
  import opened JavaString
  import opened TileColor
  import opened TileDraw

  /** A Java `float` field. The model stores and passes these values and never computes with them. */
  type Float = real

  /** The resource values the first construction reads. */
  datatype Resources = Resources(defaultColor: Color, tileColors: ColorResources, fontColor: Color)

  /**
   * Building the palette array: a one-element array holding the default
   * colour when the resource array is empty, otherwise an array of the
   * resource array's length whose positions are filled from the last down to 0.
   */
  method LoadPalette(defaultColor: Color, entries: ColorResources) returns (colors: array<Color>)
    ensures colors[..] == InitialPalette(defaultColor, entries)
  {
    if |entries| == 0 {
      colors := new Color[] [defaultColor];
    } else {
      colors := new Color[|entries|];
      var i := |entries| - 1;
      while i >= 0
        invariant -1 <= i < |entries|
        invariant forall k :: i < k < |entries| ==> colors[k] == ResolveColor(entries[k], defaultColor)
      {
        colors[i] := ResolveColor(entries[i], defaultColor);
        i := i - 1;
      }
      assert forall k :: 0 <= k < |entries| ==> colors[..][k] == InitialPalette(defaultColor, entries)[k];
    }
  }

  /** The static fields of the tile class, shared by every tile. */
  class TileStatics {
    /** `sColors`: null until the first tile is constructed. */
    var colors: array?<Color>
    var defaultColor: Color
    var tileFontColor: Color

    /** The state when the class is loaded: every static field at its Java default. */
    constructor ()
      ensures colors == null && defaultColor == 0 && tileFontColor == 0
    {
      colors := null;
      defaultColor := 0;
      tileFontColor := 0;
    }

    /** The palette has been loaded; `pickColor` may divide by its length. */
    ghost predicate Ready()
      reads this, colors
    {
      colors != null && 0 < colors.Length <= INT_MAX
    }

    function Palette(): seq<Color>
      reads this, colors
      requires colors != null
    {
      colors[..]
    }

    /**
     * The one-time setup of the constructor: only while `sColors` is null it
     * reads the default colour, the palette and the font colour; afterwards
     * it changes nothing.
     */
    method EnsureInitialized(res: Resources)
      requires colors != null ==> Ready()
      modifies this
      ensures Ready()
      ensures old(colors) != null ==> unchanged(this)
      ensures old(colors) == null ==>
        && Palette() == InitialPalette(res.defaultColor, res.tileColors)
        && defaultColor == res.defaultColor
        && tileFontColor == res.fontColor
    {
      if colors == null {
        defaultColor := res.defaultColor;
        colors := LoadPalette(defaultColor, res.tileColors);
        tileFontColor := res.fontColor;
      }
    }
  }

  /** An `android.graphics.Rect` object: a rectangle whose fields can be set in place. */
  class MutableRect {
    var left: Int32
    var top: Int32
    var right: Int32
    var bottom: Int32

    constructor ()
      ensures Value() == Rect(0, 0, 0, 0)
    {
      left, top, right, bottom := 0, 0, 0, 0;
    }

    function Value(): Rect
      reads this
    {
      Rect(left, top, right, bottom)
    }

    /** `Rect.set(left, top, right, bottom)`. */
    method Set(l: Int32, t: Int32, r: Int32, b: Int32)
      modifies this
      ensures Value() == Rect(l, t, r, b)
    {
      left, top, right, bottom := l, t, r, b;
    }
  }

  /** A canvas, reduced to the sequence of drawing calls made on it. */
  class Canvas {
    var commands: seq<Command>

    constructor ()
      ensures commands == []
    {
      commands := [];
    }

    method DrawRect(rect: Rect, color: Color)
      modifies this
      ensures commands == old(commands) + [Command.DrawRect(rect, color)]
    {
      commands := commands + [Command.DrawRect(rect, color)];
    }

    method DrawCircle(centerX: Int32, centerY: Int32, radius: Int32, color: Color)
      modifies this
      ensures commands == old(commands) + [Command.DrawCircle(centerX, centerY, radius, color)]
    {
      commands := commands + [Command.DrawCircle(centerX, centerY, radius, color)];
    }

    method DrawText(text: JavaString)
      modifies this
      ensures commands == old(commands) + [Command.DrawText(text)]
    {
      commands := commands + [Command.DrawText(text)];
    }

    method DrawAvatar(avatar: Avatar, tint: Color)
      modifies this
      ensures commands == old(commands) + [Command.DrawAvatar(avatar, tint)]
    {
      commands := commands + [Command.DrawAvatar(avatar, tint)];
    }
  }

  /** A square bitmap and the drawing calls rendered into it. */
  datatype Bitmap = Bitmap(width: Int32, height: Int32, commands: seq<Command>)

  /** `Bitmap.createBitmap` throws `IllegalArgumentException` for a size that is not positive. */
  datatype BitmapResult = Created(bitmap: Bitmap) | IllegalArgument

  class LetterTileDrawable {
    const statics: TileStatics

    var letters: Option<JavaString>
    var color: Color
    var contactType: Int32
    var scale: Float
    var offset: Float
    var isCircle: bool

    /** The bounds rectangle object held by the `Drawable` base class. */
    const bounds: MutableRect
    /** The visibility flag held by the `Drawable` base class. */
    var visible: bool

    /** The identifier of the last `setContactDetails`, and the contact type at that call. */
    ghost var identifier: Option<JavaString>
    ghost var detailsType: Int32

    /**
     * The palette is loaded, and the colour is the one chosen for the last
     * identifier under the contact type of that moment (not necessarily the
     * current one: `setContactType` does not recompute it).
     */
    ghost predicate Valid()
      reads this, statics, statics.colors
    {
      && statics.Ready()
      && color == PickColor(identifier, detailsType, statics.Palette(), statics.defaultColor)
    }

    /**
     * `LetterTileDrawable(res, letters, identifier)`: the scale is set to 0.7,
     * the shared palette is loaded if no tile has loaded it yet, and the
     * details are set while the contact type is still the person type.
     */
    constructor (statics: TileStatics, res: Resources, letters: Option<JavaString>,
                 identifier: Option<JavaString>)
      requires statics.colors != null ==> statics.Ready()
      modifies statics
      ensures this.statics == statics && Valid()
      ensures old(statics.colors) != null ==> unchanged(statics)
      ensures old(statics.colors) == null ==>
        && statics.Palette() == InitialPalette(res.defaultColor, res.tileColors)
        && statics.defaultColor == res.defaultColor
        && statics.tileFontColor == res.fontColor
      ensures this.letters == letters && this.identifier == identifier
      ensures detailsType == TYPE_PERSON
      ensures color == PickColor(identifier, TYPE_PERSON, statics.Palette(), statics.defaultColor)
      ensures contactType == TYPE_DEFAULT && scale == 0.7 && offset == 0.0 && !isCircle
      ensures bounds.Value() == Rect(0, 0, 0, 0) && visible
      ensures fresh(bounds)
    {
      this.statics := statics;
      this.letters := None;
      color := 0;
      contactType := TYPE_DEFAULT;
      scale := 1.0;
      offset := 0.0;
      isCircle := false;
      bounds := new MutableRect();
      visible := true;
      this.identifier := None;
      detailsType := TYPE_DEFAULT;
      new;
      SetScale(0.7);
      statics.EnsureInitialized(res);
      SetContactDetails(letters, identifier);
    }

    /** `getColor()`. */
    method GetColor() returns (c: Color)
      requires Valid()
      ensures c == PickColor(identifier, detailsType, statics.Palette(), statics.defaultColor)
    {
      c := color;
    }

    /** `setScale`: changes the scale and nothing else. */
    method SetScale(scale: Float)
      modifies this`scale
      ensures this.scale == scale
    {
      this.scale := scale;
    }

    /** `setOffset`: changes the vertical offset and nothing else. */
    method SetOffset(offset: Float)
      modifies this`offset
      ensures this.offset == offset
    {
      this.offset := offset;
    }

    /**
     * `setContactDetails`: stores the letters and recomputes the colour from
     * the identifier under the current contact type.
     */
    method SetContactDetails(letters: Option<JavaString>, identifier: Option<JavaString>)
      requires statics.Ready()
      modifies this`letters, this`color, this`identifier, this`detailsType
      ensures Valid()
      ensures this.letters == letters
      ensures color == PickColor(identifier, contactType, statics.Palette(), statics.defaultColor)
      ensures this.identifier == identifier && detailsType == contactType
    {
      this.letters := letters;
      color := PickColor(identifier, contactType, statics.colors[..], statics.defaultColor);
      this.identifier := identifier;
      detailsType := contactType;
    }

    /** `setContactType`: changes the contact type only; the colour stays as it was until the next `setContactDetails`. */
    method SetContactType(contactType: Int32)
      requires Valid()
      modifies this`contactType
      ensures Valid()
      ensures this.contactType == contactType
      ensures color == old(color)
    {
      this.contactType := contactType;
    }

    /** `setIsCircular`: changes the background shape and nothing else. */
    method SetIsCircular(isCircle: bool)
      modifies this`isCircle
      ensures this.isCircle == isCircle
    {
      this.isCircle := isCircle;
    }

    /** `Drawable.getBounds()`: the drawable's own bounds object, not a copy. */
    method GetBounds() returns (r: MutableRect)
      ensures r == bounds
    {
      r := bounds;
    }

    /** `Drawable.copyBounds()`: a copy of the bounds. */
    method CopyBounds() returns (r: Rect)
      ensures r == bounds.Value()
    {
      r := bounds.Value();
    }

    /** `Drawable.setBounds(left, top, right, bottom)`: sets the bounds object in place. */
    method SetBounds(l: Int32, t: Int32, r: Int32, b: Int32)
      modifies bounds
      ensures bounds.Value() == Rect(l, t, r, b)
    {
      bounds.Set(l, t, r, b);
    }

    /** `Drawable.setBounds(Rect)`: copies the given rectangle's fields into the bounds object. */
    method SetBoundsFrom(rect: MutableRect)
      modifies bounds
      ensures bounds.Value() == old(rect.Value())
    {
      bounds.Set(rect.left, rect.top, rect.right, rect.bottom);
    }

    /** `Drawable.setVisible`: sets the visibility flag and reports whether it changed. */
    method SetVisible(visible: bool) returns (changed: bool)
      modifies this`visible
      ensures this.visible == visible && changed == (old(this.visible) != visible)
    {
      changed := this.visible != visible;
      this.visible := visible;
    }

    /** What `draw` puts on a canvas in the current state. */
    function Commands(): seq<Command>
      reads this, bounds, statics
    {
      TileCommands(visible, bounds.Value(), color, isCircle, letters, contactType, statics.tileFontColor)
    }

    /** `draw`: nothing when invisible or when the bounds are empty, otherwise the letter tile. */
    method Draw(canvas: Canvas)
      modifies canvas
      ensures canvas.commands == old(canvas.commands) + Commands()
    {
      if !visible || bounds.Value().IsEmpty() {
        return;
      }
      DrawLetterTile(canvas);
    }

    /** `drawLetterTile`: the background shape in the tile's colour, then the letters or the avatar. */
    method DrawLetterTile(canvas: Canvas)
      modifies canvas
      ensures canvas.commands == old(canvas.commands)
        + [Background(bounds.Value(), color, isCircle), Foreground(letters, contactType, statics.tileFontColor)]
    {
      var rect := bounds.Value();
      var minDimension := Min(rect.Width(), rect.Height());
      if isCircle {
        canvas.DrawCircle(rect.CenterX(), rect.CenterY(), Quot(minDimension, 2), color);
      } else {
        canvas.DrawRect(rect, color);
      }
      if !IsEmpty(letters) {
        canvas.DrawText(letters.value);
      } else {
        var avatar := AvatarFor(contactType);
        DrawAvatarOnCanvas(avatar, canvas);
      }
    }

    /** `drawDrawableOnCanvas`: the avatar, tinted with the tile font colour. */
    method DrawAvatarOnCanvas(avatar: Avatar, canvas: Canvas)
      modifies canvas
      ensures canvas.commands == old(canvas.commands) + [Command.DrawAvatar(avatar, statics.tileFontColor)]
    {
      canvas.DrawAvatar(avatar, statics.tileFontColor);
    }

    /**
     * `toBitmap` as written: it keeps the bounds object returned by
     * `getBounds()`, which the following `setBounds` overwrites in place, so
     * the final `setBounds(bounds)` restores nothing and the tile keeps the
     * bitmap's square bounds.
     */
    method ToBitmapAsWritten(size: Int32) returns (r: BitmapResult)
      modifies bounds
      ensures size <= 0 ==> r == IllegalArgument && bounds.Value() == old(bounds.Value())
      ensures size > 0 ==> r == Created(Bitmap(size, size,
        TileCommands(visible, Rect(0, 0, size, size), color, isCircle, letters, contactType, statics.tileFontColor)))
      ensures size > 0 ==> bounds.Value() == Rect(0, 0, size, size)
    {
      if size <= 0 {
        return IllegalArgument;
      }
      var canvas := new Canvas();
      var saved := GetBounds();
      SetBounds(0, 0, size, size);
      Draw(canvas);
      SetBoundsFrom(saved);
      r := Created(Bitmap(size, size, canvas.commands));
    }

    /**
     * `toBitmap` with the bounds saved by `copyBounds()`: the bitmap holds the
     * tile drawn at `(0, 0, size, size)` and the bounds are restored afterwards.
     */
    method ToBitmap(size: Int32) returns (r: BitmapResult)
      modifies bounds
      ensures bounds.Value() == old(bounds.Value())
      ensures size <= 0 ==> r == IllegalArgument
      ensures size > 0 ==> r == Created(Bitmap(size, size,
        TileCommands(visible, Rect(0, 0, size, size), color, isCircle, letters, contactType, statics.tileFontColor)))
    {
      if size <= 0 {
        return IllegalArgument;
      }
      var canvas := new Canvas();
      var saved := CopyBounds();
      SetBounds(0, 0, size, size);
      Draw(canvas);
      SetBounds(saved.left, saved.top, saved.right, saved.bottom);
      r := Created(Bitmap(size, size, canvas.commands));
    }
  }

  /**
   * Call order matters: switching a tile to the voicemail type keeps its
   * palette colour until the details are set again, and only then does the
   * tile take the default colour.
   */
  method VoicemailTakesEffectOnNextDetails(statics: TileStatics, res: Resources, identifier: JavaString)
      returns (atConstruction: Color, afterType: Color, afterDetails: Color)
    requires statics.colors != null ==> statics.Ready()
    requires identifier != []
    modifies statics
    ensures statics.Ready()
    ensures atConstruction == PickColor(Some(identifier), TYPE_PERSON, statics.Palette(), statics.defaultColor)
    ensures atConstruction in statics.Palette()
    ensures afterType == atConstruction
    ensures afterDetails == statics.defaultColor
  {
    var tile := new LetterTileDrawable(statics, res, None, Some(identifier));
    atConstruction := tile.GetColor();
    tile.SetContactType(TYPE_VOICEMAIL);
    afterType := tile.GetColor();
    tile.SetContactDetails(None, Some(identifier));
    afterDetails := tile.GetColor();
  }

  /** With `toBitmap` as written, a tile showing "A" laid out at 10 by 10 is left at 64 by 64 after rendering a 64-pixel bitmap. */
  method ToBitmapAsWrittenKeepsBitmapBounds(statics: TileStatics, res: Resources)
      returns (before: Rect, after: Rect)
    requires statics.colors != null ==> statics.Ready()
    modifies statics
    ensures before == Rect(0, 0, 10, 10)
    ensures after == Rect(0, 0, 64, 64)
  {
    var tile := new LetterTileDrawable(statics, res, Some([65]), None);
    tile.SetBounds(0, 0, 10, 10);
    before := tile.CopyBounds();
    var bitmap := tile.ToBitmapAsWritten(64);
    after := tile.CopyBounds();
  }
}
