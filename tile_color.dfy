/**
 * How a letter tile chooses its background colour: the contact types, the
 * shared palette as it is first loaded from the resources, and the choice of
 * a palette entry from the hash of the contact's identifier.
 */
module TileColor {
  import opened JavaInt
  import opened JavaString

  /** Contact types. Any other `int` is accepted and treated like a person. */
  const TYPE_PERSON: Int32 := 1
  const TYPE_BUSINESS: Int32 := 2
  const TYPE_VOICEMAIL: Int32 := 3
  const TYPE_DEFAULT: Int32 := TYPE_PERSON

  /** 2^31, the magnitude of `Integer.MIN_VALUE`. */
  const TWO_POW_31: int := 0x8000_0000

  /** A colour is an ARGB value held in a Java `int`. */
  type Color = Int32

  /**
   * The entries of the `letter_tile_colors` resource array. An entry that
   * does not resolve to a colour is `None`. Java arrays hold at most
   * `Integer.MAX_VALUE` elements.
   */
  type ColorResources = s: seq<Option<Color>> | |s| <= INT_MAX

  /** `TypedArray.getColor(i, defaultColor)`: the entry's colour, or the default when it has none. */
  function ResolveColor(entry: Option<Color>, defaultColor: Color): (c: Color)
    ensures entry == Some(c) || (entry == None && c == defaultColor)
  {
    match entry
    case Some(c) => c
    case None => defaultColor
  }

  /**
   * The palette the first construction stores: a one-element palette holding
   * the default colour when the resource array is empty, otherwise one entry
   * per resource position, resolved against the default colour.
   */
  function InitialPalette(defaultColor: Color, entries: ColorResources): (p: seq<Color>)
    ensures 0 < |p| <= INT_MAX
    ensures entries == [] ==> p == [defaultColor]
    ensures entries != [] ==> |p| == |entries|
  {
    if entries == [] then [defaultColor]
    else seq(|entries|, k requires 0 <= k < |entries| => ResolveColor(entries[k], defaultColor))
  }

  /** Every palette entry after initialisation is a resource colour or the default colour. */
  lemma InitialPaletteEntries(defaultColor: Color, entries: ColorResources, k: nat)
    requires k < |InitialPalette(defaultColor, entries)|
    ensures var p := InitialPalette(defaultColor, entries);
      p[k] == defaultColor || (k < |entries| && entries[k] == Some(p[k]))
    ensures entries != [] ==> InitialPalette(defaultColor, entries)[k] == ResolveColor(entries[k], defaultColor)
  {
  }

  /** The cases in which `pickColor` returns the default colour without consulting the palette. */
  predicate UsesDefaultColor(identifier: Option<JavaString>, contactType: Int32)
    ensures UsesDefaultColor(identifier, contactType)
        <==> identifier == None || identifier == Some([]) || contactType == TYPE_VOICEMAIL
  {
    IsEmpty(identifier) || contactType == TYPE_VOICEMAIL
  }

  // ---------------------------------------------------------------------------
  // The palette index as the source computes it
  // ---------------------------------------------------------------------------

  /** `Math.abs(hash) % n`, the index `pickColor` uses. It is negative for some hashes. */
  function IndexAsWritten(hash: Int32, n: int): (i: Int32)
    requires 0 < n <= INT_MAX
    ensures -n < i < n
  {
    Rem(MathAbs(hash), n)
  }

  /**
   * The index is a valid array index exactly when the hash is not
   * `Integer.MIN_VALUE`, or the palette length divides 2^31.
   */
  lemma IndexAsWrittenInRange(hash: Int32, n: int)
    requires 0 < n <= INT_MAX
    ensures 0 <= IndexAsWritten(hash, n) < n <==> hash != INT_MIN || TWO_POW_31 % n == 0
  {
  }

  /** The outcome of `pickColor` as written: a colour, or the array access that throws. */
  datatype Picked = PickedColor(color: Color) | IndexOutOfBounds(index: int)

  /** `pickColor` as written, including the `ArrayIndexOutOfBoundsException` of a negative index. */
  function PickColorAsWritten(identifier: Option<JavaString>, contactType: Int32,
                              palette: seq<Color>, defaultColor: Color): (r: Picked)
    requires !UsesDefaultColor(identifier, contactType) ==> 0 < |palette| <= INT_MAX
    ensures r.IndexOutOfBounds? ==> r.index < 0
    ensures UsesDefaultColor(identifier, contactType) ==> r == PickedColor(defaultColor)
  {
    if UsesDefaultColor(identifier, contactType) then PickedColor(defaultColor)
    else
      var i := IndexAsWritten(HashCode(identifier.value), |palette|);
      if 0 <= i then PickedColor(palette[i]) else IndexOutOfBounds(i)
  }

  /** `pickColor` as written throws exactly for a non-default case whose hash is `Integer.MIN_VALUE`, unless 2^31 is a multiple of the palette length. */
  lemma PickColorAsWrittenThrows(identifier: Option<JavaString>, contactType: Int32,
                                 palette: seq<Color>, defaultColor: Color)
    requires !UsesDefaultColor(identifier, contactType) ==> 0 < |palette| <= INT_MAX
    ensures PickColorAsWritten(identifier, contactType, palette, defaultColor).IndexOutOfBounds?
        <==> !UsesDefaultColor(identifier, contactType)
             && HashCode(identifier.value) == INT_MIN && TWO_POW_31 % |palette| != 0
  {
  }

  /** With a three-colour palette, the identifier "polygenelubricants" makes `pickColor` index position -2. */
  lemma PolygenelubricantsIndexesOutOfBounds(palette: seq<Color>, defaultColor: Color)
    requires |palette| == 3
    ensures PickColorAsWritten(Some(POLYGENELUBRICANTS), TYPE_PERSON, palette, defaultColor)
            == IndexOutOfBounds(-2)
  {
    HashOfPolygenelubricants();
    assert MathAbs(INT_MIN) == INT_MIN;
    assert Rem(INT_MIN, 3) == -2;
  }

  // ---------------------------------------------------------------------------
  // The corrected palette index
  // ---------------------------------------------------------------------------

  /** `Math.abs(hash % n)`: always a valid index, and the source's index whenever that one is valid. */
  function PaletteIndex(hash: Int32, n: int): (i: nat)
    requires 0 < n <= INT_MAX
    ensures i < n
    ensures 0 <= IndexAsWritten(hash, n) ==> i == IndexAsWritten(hash, n)
  {
    assert hash == INT_MIN ==> Rem(hash, n) == -(TWO_POW_31 % n);
    MathAbs(Rem(hash, n))
  }

  /** The corrected index differs from the source's only for the hash `Integer.MIN_VALUE`. */
  lemma PaletteIndexAgreesOffMinValue(hash: Int32, n: int)
    requires 0 < n <= INT_MAX
    requires hash != INT_MIN
    ensures PaletteIndex(hash, n) == IndexAsWritten(hash, n)
  {
  }

  /**
   * `pickColor` with the corrected index: the default colour for a null or
   * empty identifier or a voicemail contact, otherwise a palette entry chosen
   * by the identifier's `hashCode()`.
   */
  function PickColor(identifier: Option<JavaString>, contactType: Int32,
                     palette: seq<Color>, defaultColor: Color): (r: Color)
    requires !UsesDefaultColor(identifier, contactType) ==> 0 < |palette| <= INT_MAX
    ensures UsesDefaultColor(identifier, contactType) ==> r == defaultColor
    ensures !UsesDefaultColor(identifier, contactType) ==> r in palette
  {
    if UsesDefaultColor(identifier, contactType) then defaultColor
    else palette[PaletteIndex(HashCode(identifier.value), |palette|)]
  }

  /** Whenever `pickColor` as written returns a colour, it is the colour `PickColor` returns. */
  lemma PickColorAgreesWithSource(identifier: Option<JavaString>, contactType: Int32,
                                  palette: seq<Color>, defaultColor: Color)
    requires !UsesDefaultColor(identifier, contactType) ==> 0 < |palette| <= INT_MAX
    ensures var picked := PickColorAsWritten(identifier, contactType, palette, defaultColor);
      picked.PickedColor? ==> picked.color == PickColor(identifier, contactType, palette, defaultColor)
    ensures !UsesDefaultColor(identifier, contactType) && HashCode(identifier.value) != INT_MIN ==>
      PickColorAsWritten(identifier, contactType, palette, defaultColor)
        == PickedColor(PickColor(identifier, contactType, palette, defaultColor))
  {
  }

  /**
   * The colour depends on a non-empty identifier only through its `hashCode()`:
   * equal identifiers, or identifiers that collide, get equal colours.
   */
  lemma PickColorDependsOnHashOnly(a: JavaString, b: JavaString, contactType: Int32,
                                   palette: seq<Color>, defaultColor: Color)
    requires a != [] && b != [] && HashCode(a) == HashCode(b)
    requires 0 < |palette| <= INT_MAX
    ensures PickColor(Some(a), contactType, palette, defaultColor)
         == PickColor(Some(b), contactType, palette, defaultColor)
  {
  }
}
