# Letter tile drawable, modelled in Dafny

`LetterTileDrawable` is the placeholder avatar of the car apps: a coloured
square or circle showing a contact's initials, or a fallback person icon when
there are none. This project models the logic under its drawing calls:

- the palette that the first tile loads into the class's static fields:
  a one-element palette holding the default colour when the resource array
  is empty, otherwise one colour per resource position, filled by a
  descending loop;
- `pickColor`: the default colour for a null or empty identifier or a
  voicemail contact, otherwise the palette entry at
  `Math.abs(identifier.hashCode()) % sColors.length`. `String.hashCode()`,
  `Math.abs` and `%` are modelled with Java's 32-bit semantics;
- the tile's fields and their setters. The colour is recomputed only by
  `setContactDetails`, so the contact type in force at that call decides it;
- `draw`, as the sequence of canvas calls it makes;
- `toBitmap`, which draws the tile into a square bitmap.

Modules: `JavaInt` (32-bit `int` arithmetic), `JavaString` (strings as UTF-16
code units, `TextUtils.isEmpty`, `String.hashCode()`), `TileColor` (contact
types, palette initialisation, the colour choice), `TileDraw` (rectangles, the
avatar lookup, the commands of one draw) and `LetterTile` (the classes: the
shared static fields, the canvas, the rectangle object and the drawable).

Inputs from the platform become parameters. The resource values are a
`Resources` value, with one `Option` per colour-array entry: `None` stands for
an entry that `TypedArray.getColor` replaces by the default colour. The canvas
becomes a list of commands. A null string is `None`. `String.hashCode()` is the
JDK's loop `h = 31 * h + c` over the UTF-16 code units in 32-bit arithmetic.
The contract of `HashCode` proves that it equals the polynomial the API
documents, `s[0]*31^(n-1) + ... + s[n-1]`, wrapped to 32 bits.

Four behaviours of the code that are easy to misread:
- The colour is not always the colour of the current contact type.
  `setContactType` leaves it unchanged until `setContactDetails` runs again,
  and the class invariant `Valid` records the contact type of that last call.
- The contact type is any `int`. Every value other than business and
  voicemail gets the person avatar.
- As written, the colour is not always a palette entry: for one class of
  identifiers `pickColor` throws (first finding below).
- As written, `toBitmap` does not restore the bounds (second finding below).

## Model

| member | source | states |
|---|---|---|
| `JavaInt.Wrap` | car-apps-common/src/main/java/com/android/car/apps/common/LetterTileDrawable.java:196 | the result is the unique `int` congruent to the argument modulo 2^32, and values already in range are kept |
| `JavaInt.WrapMulAdd` | car-apps-common/src/main/java/com/android/car/apps/common/LetterTileDrawable.java:196 | wrapping an intermediate value before a multiply-add does not change the wrapped result, so the hash loop may wrap at every step |
| `JavaInt.MathAbs` | car-apps-common/src/main/java/com/android/car/apps/common/LetterTileDrawable.java:196 | `Math.abs`: non-negative and equal to `x` or `-x` for every `int` except `Integer.MIN_VALUE`, which maps to itself; the result is negative exactly for that value |
| `JavaInt.Rem` | car-apps-common/src/main/java/com/android/car/apps/common/LetterTileDrawable.java:196 | Java `%` by a positive divisor: the remainder lies strictly between `-n` and `n`, takes the sign of the dividend, and is no larger in magnitude than the dividend |
| `JavaInt.Quot` | car-apps-common/src/main/java/com/android/car/apps/common/LetterTileDrawable.java:161 | Java `/` by a positive divisor rounds toward zero: the quotient has the dividend's sign and is no larger in magnitude |
| `JavaInt.QuotRemIdentity` | car-apps-common/src/main/java/com/android/car/apps/common/LetterTileDrawable.java:161 | Java's division identity `(a / n) * n + a % n == a` holds for the modelled `/` and `%` |
| `JavaString.HashFromIsPolynomial` | car-apps-common/src/main/java/com/android/car/apps/common/LetterTileDrawable.java:196 | the hash loop started from `h` gives `h * 31^n` plus the documented polynomial, wrapped to 32 bits |
| `JavaString.IsEmpty` | car-apps-common/src/main/java/com/android/car/apps/common/LetterTileDrawable.java:166 | `TextUtils.isEmpty`, as used at :166 and :190: true exactly of a null string and of the empty string |
| `JavaString.HashCode` | car-apps-common/src/main/java/com/android/car/apps/common/LetterTileDrawable.java:196 | `identifier.hashCode()`, the JDK loop started from 0, equals the documented `s[0]*31^(n-1) + ... + s[n-1]` in 32-bit arithmetic |
| `JavaString.HashOfPolygenelubricants` | car-apps-common/src/main/java/com/android/car/apps/common/LetterTileDrawable.java:196 | the identifier "polygenelubricants" hashes to `Integer.MIN_VALUE` |
| `TileColor.ResolveColor` | car-apps-common/src/main/java/com/android/car/apps/common/LetterTileDrawable.java:98 | `ta.getColor(i, sDefaultColor)`: the entry's own colour when it has one, otherwise the default colour |
| `TileColor.InitialPalette` | car-apps-common/src/main/java/com/android/car/apps/common/LetterTileDrawable.java:89-100 | the palette is never empty and fits a Java array; it is `[sDefaultColor]` for an empty resource array and otherwise has the resource array's length |
| `TileColor.InitialPaletteEntries` | car-apps-common/src/main/java/com/android/car/apps/common/LetterTileDrawable.java:97-100 | every palette entry is the default colour or the colour of the resource entry at that position, and for a non-empty resource array position `k` holds `getColor(k, sDefaultColor)` |
| `TileColor.UsesDefaultColor` | car-apps-common/src/main/java/com/android/car/apps/common/LetterTileDrawable.java:190 | the default colour is used exactly for a null identifier, the empty identifier, or the voicemail type |
| `TileColor.IndexAsWritten` | car-apps-common/src/main/java/com/android/car/apps/common/LetterTileDrawable.java:196 | `Math.abs(hash) % length` lies strictly between `-length` and `length` (it can be negative) |
| `TileColor.IndexAsWrittenInRange` | car-apps-common/src/main/java/com/android/car/apps/common/LetterTileDrawable.java:196-197 | the index is a valid array index if and only if the hash is not `Integer.MIN_VALUE` or the palette length divides 2^31 |
| `TileColor.PickColorAsWritten` | car-apps-common/src/main/java/com/android/car/apps/common/LetterTileDrawable.java:189-198 | `pickColor` as written gives the default colour in the default cases; its only failure is an out-of-bounds access at a negative index |
| `TileColor.PickColorAsWrittenThrows` | car-apps-common/src/main/java/com/android/car/apps/common/LetterTileDrawable.java:190-197 | `pickColor` as written throws if and only if the identifier is non-empty, the type is not voicemail, the hash is `Integer.MIN_VALUE` and the palette length does not divide 2^31 |
| `TileColor.PolygenelubricantsIndexesOutOfBounds` | car-apps-common/src/main/java/com/android/car/apps/common/LetterTileDrawable.java:196-197 | with any three-colour palette, the person-type identifier "polygenelubricants" makes `pickColor` read index -2 |
| `TileColor.PaletteIndex` | car-apps-common/src/main/java/com/android/car/apps/common/LetterTileDrawable.java:196 | the corrected index `Math.abs(hash % length)` is always in `[0, length)` and equals the as-written index whenever that one is non-negative |
| `TileColor.PaletteIndexAgreesOffMinValue` | car-apps-common/src/main/java/com/android/car/apps/common/LetterTileDrawable.java:196 | for every hash other than `Integer.MIN_VALUE` the corrected index is the as-written one |
| `TileColor.PickColor` | car-apps-common/src/main/java/com/android/car/apps/common/LetterTileDrawable.java:189-198 | corrected (the palette index computed as `Math.abs(hash % length)`, so it returns a palette entry where the original throws at hash `Integer.MIN_VALUE`): the default colour for a null or empty identifier or the voicemail type; otherwise a palette entry |
| `TileColor.PickColorAgreesWithSource` | car-apps-common/src/main/java/com/android/car/apps/common/LetterTileDrawable.java:189-198 | whenever `pickColor` as written returns a colour it is `PickColor`'s, and it always returns one when the hash is not `Integer.MIN_VALUE` |
| `TileColor.PickColorDependsOnHashOnly` | car-apps-common/src/main/java/com/android/car/apps/common/LetterTileDrawable.java:193-197 | non-empty identifiers with equal hashes, and thus equal identifiers, get equal colours |
| `TileDraw.Rect.IsEmpty` | car-apps-common/src/main/java/com/android/car/apps/common/LetterTileDrawable.java:124 | `bounds.isEmpty()`: a non-empty rectangle whose sides do not overflow has positive width and height |
| `TileDraw.Rect.Width` | car-apps-common/src/main/java/com/android/car/apps/common/LetterTileDrawable.java:156 | `bounds.width()`: `right - left` wrapped to 32 bits, and exactly `right - left` when that fits an `int` |
| `TileDraw.Rect.Height` | car-apps-common/src/main/java/com/android/car/apps/common/LetterTileDrawable.java:156 | `bounds.height()`: `bottom - top` wrapped to 32 bits, and exactly `bottom - top` when that fits an `int` |
| `TileDraw.Rect.CenterX` | car-apps-common/src/main/java/com/android/car/apps/common/LetterTileDrawable.java:161 | `bounds.centerX()`: without overflow, half of `left + right` rounded down, lying between the two sides |
| `TileDraw.Rect.CenterY` | car-apps-common/src/main/java/com/android/car/apps/common/LetterTileDrawable.java:161 | `bounds.centerY()`: without overflow, half of `top + bottom` rounded down, lying between the two sides |
| `TileDraw.MinDimension` | car-apps-common/src/main/java/com/android/car/apps/common/LetterTileDrawable.java:156 | `Math.min(bounds.width(), bounds.height())`: no larger than either side and equal to one of them |
| `TileDraw.Background` | car-apps-common/src/main/java/com/android/car/apps/common/LetterTileDrawable.java:159-164 | the background is painted in the tile colour; it is a circle if and only if the tile is circular, centred at the bounds' centre with radius `minDimension / 2` truncated (twice the radius plus `minDimension % 2` is `minDimension`); otherwise it is the bounds rectangle |
| `TileDraw.Foreground` | car-apps-common/src/main/java/com/android/car/apps/common/LetterTileDrawable.java:166-179 | the letters if and only if `TextUtils.isEmpty(mLetters)` is false; otherwise the avatar of the contact type tinted with the font colour |
| `TileDraw.AvatarFor` | car-apps-common/src/main/java/com/android/car/apps/common/LetterTileDrawable.java:200-211 | business gives the business avatar and voicemail the voicemail avatar (each if and only if); person and every other value give the person avatar |
| `TileDraw.TileCommands` | car-apps-common/src/main/java/com/android/car/apps/common/LetterTileDrawable.java:122-129 | a draw issues no command if and only if the drawable is invisible or its bounds are empty, and exactly two commands otherwise |
| `TileDraw.DrawOrder` | car-apps-common/src/main/java/com/android/car/apps/common/LetterTileDrawable.java:156-179 | a non-empty draw first paints one background in the tile colour, a circle centred at the bounds' centre if and only if the tile is circular, and otherwise the bounds rectangle; second it paints the letters if and only if there are any, and otherwise the contact type's avatar tinted with the font colour |
| `TileDraw.CircleFitsBounds` | car-apps-common/src/main/java/com/android/car/apps/common/LetterTileDrawable.java:156-161 | for bounds whose sides do not overflow, the circle's radius is `floor(min(width, height) / 2)`, so its diameter fits the shorter side |
| `LetterTile.LoadPalette` | car-apps-common/src/main/java/com/android/car/apps/common/LetterTileDrawable.java:89-100 | the array built (one default-colour entry, or filled by the descending loop) holds exactly `InitialPalette` |
| `LetterTile.TileStatics.constructor` | car-apps-common/src/main/java/com/android/car/apps/common/LetterTileDrawable.java:39-41 | before any tile exists, `sColors` is null |
| `LetterTile.TileStatics.EnsureInitialized` | car-apps-common/src/main/java/com/android/car/apps/common/LetterTileDrawable.java:86-116 | while `sColors` is null it loads the default colour, the palette and the font colour from the resources; once the palette is loaded it changes nothing; afterwards the palette is never empty |
| `LetterTile.LetterTileDrawable.constructor` | car-apps-common/src/main/java/com/android/car/apps/common/LetterTileDrawable.java:79-119 | scale 0.7, offset 0, rectangular, person type; later constructions leave the shared palette unchanged; the letters are stored and the colour is picked under the person type, so voicemail never applies at construction |
| `LetterTile.LetterTileDrawable.GetColor` | car-apps-common/src/main/java/com/android/car/apps/common/LetterTileDrawable.java:182-184 | returns the colour picked for the last identifier under the contact type of that call |
| `LetterTile.LetterTileDrawable.SetScale` | car-apps-common/src/main/java/com/android/car/apps/common/LetterTileDrawable.java:234-236 | sets the scale and changes no other field |
| `LetterTile.LetterTileDrawable.SetOffset` | car-apps-common/src/main/java/com/android/car/apps/common/LetterTileDrawable.java:250-252 | sets the offset and changes no other field |
| `LetterTile.LetterTileDrawable.SetContactDetails` | car-apps-common/src/main/java/com/android/car/apps/common/LetterTileDrawable.java:260-263 | stores the letters and sets the colour to `PickColor` of the identifier under the current contact type; no other visible field changes |
| `LetterTile.LetterTileDrawable.SetContactType` | car-apps-common/src/main/java/com/android/car/apps/common/LetterTileDrawable.java:265-267 | sets the contact type only; the colour is unchanged |
| `LetterTile.LetterTileDrawable.SetIsCircular` | car-apps-common/src/main/java/com/android/car/apps/common/LetterTileDrawable.java:269-271 | sets the shape flag and changes no other field |
| `LetterTile.LetterTileDrawable.GetBounds` | car-apps-common/src/main/java/com/android/car/apps/common/LetterTileDrawable.java:282 | returns the drawable's own bounds object, not a copy |
| `LetterTile.LetterTileDrawable.CopyBounds` | car-apps-common/src/main/java/com/android/car/apps/common/LetterTileDrawable.java:138 | returns the current bounds as a value |
| `LetterTile.LetterTileDrawable.SetBounds` | car-apps-common/src/main/java/com/android/car/apps/common/LetterTileDrawable.java:283 | sets the bounds object in place to the given rectangle |
| `LetterTile.LetterTileDrawable.SetBoundsFrom` | car-apps-common/src/main/java/com/android/car/apps/common/LetterTileDrawable.java:285 | sets the bounds to what the given rectangle held before the call, so passing the bounds object itself changes nothing |
| `LetterTile.LetterTileDrawable.SetVisible` | car-apps-common/src/main/java/com/android/car/apps/common/LetterTileDrawable.java:124 | `setVisible` of the `Drawable` base class, the only way `isVisible()` at :124 becomes false: sets the flag and reports whether it changed |
| `LetterTile.LetterTileDrawable.Draw` | car-apps-common/src/main/java/com/android/car/apps/common/LetterTileDrawable.java:121-129 | appends exactly `TileCommands` of the current state to the canvas |
| `LetterTile.LetterTileDrawable.DrawLetterTile` | car-apps-common/src/main/java/com/android/car/apps/common/LetterTileDrawable.java:154-180 | appends the background and then the foreground command |
| `LetterTile.LetterTileDrawable.DrawAvatarOnCanvas` | car-apps-common/src/main/java/com/android/car/apps/common/LetterTileDrawable.java:135-152 | appends the avatar tinted with the tile font colour |
| `LetterTile.LetterTileDrawable.ToBitmapAsWritten` | car-apps-common/src/main/java/com/android/car/apps/common/LetterTileDrawable.java:279-287 | as written: fails for a non-positive size; otherwise returns a `size` by `size` bitmap holding the tile drawn at `(0, 0, size, size)`, and leaves the bounds at that square |
| `LetterTile.LetterTileDrawable.ToBitmap` | car-apps-common/src/main/java/com/android/car/apps/common/LetterTileDrawable.java:279-287 | corrected: the same bitmap, and afterwards the bounds equal those before the call |
| `LetterTile.VoicemailTakesEffectOnNextDetails` | car-apps-common/src/main/java/com/android/car/apps/common/LetterTileDrawable.java:260-267 | a tile built for a non-empty identifier gets a palette colour; switching it to voicemail keeps that colour; the next `setContactDetails` gives the default colour |
| `LetterTile.ToBitmapAsWrittenKeepsBitmapBounds` | car-apps-common/src/main/java/com/android/car/apps/common/LetterTileDrawable.java:279-287 | with `toBitmap` as written, a tile laid out at `(0, 0, 10, 10)` is left at `(0, 0, 64, 64)` after `toBitmap(64)` |

## Findings

| source | as written | input that shows it | evidently intended | confidence | as-written member | corrected member |
|---|---|---|---|---|---|---|
| car-apps-common/src/main/java/com/android/car/apps/common/LetterTileDrawable.java:196-197 | `Math.abs(identifier.hashCode()) % sColors.length` is negative when the hash is `Integer.MIN_VALUE` and the length does not divide 2^31, so `sColors[color]` throws `ArrayIndexOutOfBoundsException` | identifier "polygenelubricants" (hash -2147483648), person type, palette of 3 colours: index -2 | a palette index in `[0, length)` for every identifier, e.g. `Math.abs(hash % length)`, which agrees with the original for every other hash | high; not executed | `TileColor.PolygenelubricantsIndexesOutOfBounds` | `TileColor.PickColor` |
| car-apps-common/src/main/java/com/android/car/apps/common/LetterTileDrawable.java:282-285 | `getBounds()` returns the drawable's own `Rect`; `setBounds(0, 0, w, h)` overwrites that object in place, so `setBounds(bounds)` sets the bounds to themselves and the old bounds are lost | bounds `(0, 0, 10, 10)`, then `toBitmap(64)`: the bounds are `(0, 0, 64, 64)` afterwards (method `ToBitmapAsWrittenKeepsBitmapBounds`) | the bounds restored to their value before the call, e.g. saved with `copyBounds()` | medium: rests on AOSP's `Drawable.getBounds()` returning its own `mBounds` object (its documentation says only that the result may be that object); not executed | `LetterTile.LetterTileDrawable.ToBitmapAsWritten` | `LetterTile.LetterTileDrawable.ToBitmap` |

## Left out

- Floating-point geometry is not modelled: the text size `mScale * sLetterToTileRatio * minDimension`, the font-metric centring, the vertical offset shift, and the float-to-int casts of the avatar's destination rectangle. They depend on font metrics. `DrawText` therefore carries only the letters, `DrawAvatar` only the avatar and its tint, and `scale` and `offset` are stored values (`real`) that nothing computes with; each holds the real number its literal denotes, so `0.7f` is stored as 0.7 rather than the nearest `float`, 0.699999988….
- Platform objects are abstract. `Resources`, `TypedArray`, `Paint`, `Typeface`, `Canvas`, `Bitmap` and rasterisation become inputs, a command list and a value. The typeface, text alignment, anti-aliasing, filter and dither settings of the paints are not modelled, nor is `sLetterToTileRatio`, which only feeds the text size. Neither is `ta.recycle()`.
- `TileColor.ResolveColor` does not model `TypedArray.getColor` throwing for an entry that is not a colour. Such a throw inside the loop at lines 97-99 would leave `sColors` allocated and partly filled, so every later construction would skip the initialisation. Each entry is modelled as a colour or as absent (`None`, replaced by the default).
- The three avatar `Drawable`s are enumeration values. The resources load all three from the same person icon.
- `setAlpha`, `setColorFilter` and `getOpacity` are one-line paint passthroughs or a constant, and are not modelled.
- The one-argument constructor `LetterTileDrawable(res)` is not modelled separately. It delegates with null letters and identifier, which the model's constructor covers with `None, None`.
- The default scale written as 1.0 in the field initialiser and the documentation is not modelled; the constructor sets 0.7, which the model follows.
- The lazy static initialisation is not thread-safe. Concurrency is outside this sequential model.
- In the `Drawable` base class, `setBounds` also invalidates the drawable and calls `onBoundsChange`. The tile does not override those, so they are left out. The zero-bounds sentinel rectangle, which `getBounds` replaces by a fresh one, is modelled as the tile's own empty rectangle from construction on.
- `LetterTile.LetterTileDrawable.SetContactDetails` uses the corrected colour choice. So it does not model the `ArrayIndexOutOfBoundsException` that the original throws for an identifier whose hash is `Integer.MIN_VALUE`. That exception comes after `mLetters` has already been updated; `PickColorAsWritten` models it.
- `LetterTile.LetterTileDrawable.constructor` uses the corrected colour choice too, for the same reason.
- Strings are sequences of UTF-16 code units given as integers. Characters outside the Basic Multilingual Plane are given as their two surrogate code units, as Java stores them.
