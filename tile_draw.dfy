/**
 * What drawing a letter tile puts on a canvas, as a sequence of abstract
 * canvas commands: the background shape and then either the letters or the
 * fallback avatar of the contact type.
 */
module TileDraw {
  import opened JavaInt
  import opened JavaString
  import opened TileColor

  /** `android.graphics.Rect`, with the integer arithmetic of its accessors. */
  datatype Rect = Rect(left: Int32, top: Int32, right: Int32, bottom: Int32) {
    /** `Rect.isEmpty()`: no area, including rectangles whose sides are inverted. */
    predicate IsEmpty()
      ensures !IsEmpty() && NoOverflow() ==> Width() > 0 && Height() > 0
    {
      left >= right || top >= bottom
    }

    /** Neither side length overflows an `int`. */
    predicate NoOverflow() {
      right as int - left as int <= INT_MAX && bottom as int - top as int <= INT_MAX
    }

    /** `Rect.width()`, `right - left` in `int` arithmetic. */
    function Width(): (w: Int32)
      ensures (w - (right - left)) % MODULUS == 0
      ensures INT_MIN <= right - left <= INT_MAX ==> w == right - left
    {
      Wrap(right - left)
    }

    /** `Rect.height()`, `bottom - top` in `int` arithmetic. */
    function Height(): (h: Int32)
      ensures (h - (bottom - top)) % MODULUS == 0
      ensures INT_MIN <= bottom - top <= INT_MAX ==> h == bottom - top
    {
      Wrap(bottom - top)
    }

    /**
     * `Rect.centerX()`, `(left + right) >> 1`: the sum in `int` arithmetic,
     * then halved rounding down. Without overflow it lies between the sides.
     */
    function CenterX(): (x: Int32)
      ensures INT_MIN <= left + right <= INT_MAX ==> 2 * x <= left + right <= 2 * x + 1
      ensures INT_MIN <= left + right <= INT_MAX && left <= right ==> left <= x <= right
    {
      Wrap(left + right) / 2
    }

    /** `Rect.centerY()`, `(top + bottom) >> 1`. */
    function CenterY(): (y: Int32)
      ensures INT_MIN <= top + bottom <= INT_MAX ==> 2 * y <= top + bottom <= 2 * y + 1
      ensures INT_MIN <= top + bottom <= INT_MAX && top <= bottom ==> top <= y <= bottom
    {
      Wrap(top + bottom) / 2
    }
  }

  /** The three fallback avatars. The resources load all three from the same person icon. */
  datatype Avatar = PersonAvatar | BusinessAvatar | VoicemailAvatar

  /** One call the tile makes on the canvas it draws on. */
  datatype Command =
    | DrawRect(rect: Rect, color: Color)
    | DrawCircle(centerX: Int32, centerY: Int32, radius: Int32, color: Color)
    | DrawText(text: JavaString)
    | DrawAvatar(avatar: Avatar, tint: Color)

  function Min(a: Int32, b: Int32): (m: Int32)
    ensures m <= a && m <= b && (m == a || m == b)
  {
    if a <= b then a else b
  }

  /** The side of the largest square centred in the bounds, `Math.min(width, height)`. */
  function MinDimension(bounds: Rect): (m: Int32)
    ensures m <= bounds.Width() && m <= bounds.Height()
    ensures m == bounds.Width() || m == bounds.Height()
  {
    Min(bounds.Width(), bounds.Height())
  }

  /**
   * `getDrawablepForContactType`: the business and voicemail types have
   * their own avatar; the person type and every other value get the person avatar.
   */
  function AvatarFor(contactType: Int32): (a: Avatar)
    ensures a == BusinessAvatar <==> contactType == TYPE_BUSINESS
    ensures a == VoicemailAvatar <==> contactType == TYPE_VOICEMAIL
    ensures a == PersonAvatar <==> contactType != TYPE_BUSINESS && contactType != TYPE_VOICEMAIL
  {
    if contactType == TYPE_PERSON then PersonAvatar
    else if contactType == TYPE_BUSINESS then BusinessAvatar
    else if contactType == TYPE_VOICEMAIL then VoicemailAvatar
    else PersonAvatar
  }

  /** The background of `drawLetterTile`: a circle of radius `minDimension / 2` about the centre, or the whole rectangle. */
  function Background(bounds: Rect, color: Color, isCircle: bool): (c: Command)
    ensures (c.DrawRect? || c.DrawCircle?) && c.color == color
    ensures c.DrawCircle? <==> isCircle
    ensures c.DrawRect? ==> c.rect == bounds
    ensures c.DrawCircle? ==> c.centerX == bounds.CenterX() && c.centerY == bounds.CenterY()
    ensures c.DrawCircle? ==> 2 * c.radius + Rem(MinDimension(bounds), 2) == MinDimension(bounds)
  {
    QuotRemIdentity(MinDimension(bounds), 2);
    if isCircle then DrawCircle(bounds.CenterX(), bounds.CenterY(), Quot(MinDimension(bounds), 2), color)
    else DrawRect(bounds, color)
  }

  /** The foreground of `drawLetterTile`: the letters when there are any, otherwise the tinted avatar of the contact type. */
  function Foreground(letters: Option<JavaString>, contactType: Int32, tint: Color): (c: Command)
    ensures c.DrawText? <==> !IsEmpty(letters)
    ensures c.DrawText? ==> Some(c.text) == letters
    ensures c.DrawAvatar? <==> IsEmpty(letters)
    ensures c.DrawAvatar? ==> c.avatar == AvatarFor(contactType) && c.tint == tint
  {
    if !IsEmpty(letters) then DrawText(letters.value)
    else DrawAvatar(AvatarFor(contactType), tint)
  }

  /**
   * The commands `draw` issues: none when the drawable is invisible or its
   * bounds are empty, otherwise the background followed by the foreground.
   */
  function TileCommands(visible: bool, bounds: Rect, color: Color, isCircle: bool,
                        letters: Option<JavaString>, contactType: Int32, tint: Color): (r: seq<Command>)
    ensures r == [] <==> !visible || bounds.IsEmpty()
    ensures r != [] ==> |r| == 2
  {
    if !visible || bounds.IsEmpty() then []
    else [Background(bounds, color, isCircle), Foreground(letters, contactType, tint)]
  }

  /**
   * A non-empty draw paints exactly one background, in the tile's colour and
   * of the tile's shape, and then exactly one of the letters or the avatar.
   */
  lemma DrawOrder(visible: bool, bounds: Rect, color: Color, isCircle: bool,
                  letters: Option<JavaString>, contactType: Int32, tint: Color)
    requires visible && !bounds.IsEmpty()
    ensures var r := TileCommands(visible, bounds, color, isCircle, letters, contactType, tint);
      && |r| == 2
      && r[0].color == color
      && (r[0].DrawCircle? <==> isCircle) && (r[0].DrawRect? <==> !isCircle)
      && (r[0].DrawRect? ==> r[0].rect == bounds)
      && (r[0].DrawCircle? ==> r[0].centerX == bounds.CenterX() && r[0].centerY == bounds.CenterY())
      && (r[1].DrawText? <==> !IsEmpty(letters))
      && (r[1].DrawText? ==> Some(r[1].text) == letters)
      && (r[1].DrawAvatar? <==> IsEmpty(letters))
      && (r[1].DrawAvatar? ==> r[1].avatar == AvatarFor(contactType) && r[1].tint == tint)
  {
  }

  /**
   * For bounds whose width and height do not overflow an `int`, the circular
   * background has radius `floor(min(width, height) / 2)`, so its diameter
   * fits the shorter side of the bounds.
   */
  lemma CircleFitsBounds(bounds: Rect, color: Color)
    requires !bounds.IsEmpty()
    requires bounds.NoOverflow()
    ensures var c := Background(bounds, color, true);
      && c.DrawCircle?
      && 0 <= 2 * c.radius <= MinDimension(bounds)
      && MinDimension(bounds) <= 2 * c.radius + 1
      && MinDimension(bounds) == Min(bounds.right - bounds.left, bounds.bottom - bounds.top)
  {
  }
}
