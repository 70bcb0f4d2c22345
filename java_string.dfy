/**
 * The parts of `java.lang.String` and `android.text.TextUtils` that the tile
 * depends on. A Java string is a sequence of UTF-16 code units; a reference
 * that may be null is an `Option`.
 */
module JavaString {
  import opened JavaInt

  datatype Option<+T> = None | Some(value: T)

  /** One UTF-16 code unit (a supplementary character occupies two of them). */
  type CodeUnit = c: int | 0 <= c < 0x1_0000

  type JavaString = seq<CodeUnit>

  /** `TextUtils.isEmpty`: true of a null reference and of the empty string. */
  predicate IsEmpty(s: Option<JavaString>)
    ensures IsEmpty(s) <==> s == None || s == Some([])
  {
    s.None? || s.value == []
  }

  /**
   * The loop of `String.hashCode()`: starting from `h`, each code unit `c`
   * replaces `h` by `31 * h + c`, computed in 32-bit `int` arithmetic.
   */
  function HashFrom(h: Int32, s: JavaString): Int32
    decreases |s|
  {
    if s == [] then h else HashFrom(Wrap(31 * h + s[0]), s[1..])
  }


  function Pow31(k: nat): (r: nat)
    ensures r > 0
  {
    if k == 0 then 1 else 31 * Pow31(k - 1)
  }

  /** The documented value `s[0]*31^(n-1) + s[1]*31^(n-2) + ... + s[n-1]`, before int arithmetic. */
  function Polynomial(s: JavaString): int
    decreases |s|
  {
    if s == [] then 0 else s[0] * Pow31(|s| - 1) + Polynomial(s[1..])
  }

  /** The loop started from `h` computes `h * 31^n` plus the polynomial, wrapped to 32 bits. */
  lemma {:induction false} HashFromIsPolynomial(h: Int32, s: JavaString)
    ensures HashFrom(h, s) == Wrap(h * Pow31(|s|) + Polynomial(s))
    decreases |s|
  {
    if s != [] {
      var c, rest := s[0], s[1..];
      var p := Pow31(|rest|);
      HashFromIsPolynomial(Wrap(31 * h + c), rest);
      WrapMulAdd(31 * h + c, p, Polynomial(rest));
      Regroup(h, c, p, Polynomial(rest));
      assert Pow31(|s|) == 31 * p;
      assert Polynomial(s) == c * p + Polynomial(rest);
    }
  }

  lemma Regroup(h: int, c: int, p: int, t: int)
    ensures (31 * h + c) * p + t == h * (31 * p) + (c * p + t)
  {
  }

  /**
   * `String.hashCode()`: the loop above started from 0. It computes the
   * polynomial the API documents, wrapped to a 32-bit `int`.
   */
  function HashCode(s: JavaString): (r: Int32)
    ensures r == Wrap(Polynomial(s))
  {
    HashFromIsPolynomial(0, s);
    HashFrom(0, s)
  }

  /**
   * The hash of a string, given every intermediate value `hs[i]` of the loop and
   * the multiple `ks[i]` of 2^32 that each turn discards on overflow.
   */
  lemma {:induction false} HashFromTrace(s: JavaString, hs: seq<Int32>, ks: seq<int>)
    requires |hs| == |s| + 1 && |ks| == |s|
    requires forall i :: 0 <= i < |s| ==> 31 * (hs[i] as int) + s[i] == hs[i + 1] + ks[i] * MODULUS
    ensures HashFrom(hs[0], s) == hs[|s|]
    decreases |s|
  {
    if s != [] {
      WrapCongruent(31 * (hs[0] as int) + s[0], hs[1]);
      HashFromTrace(s[1..], hs[1..], ks[1..]);
    }
  }

  /** The code units of the identifier "polygenelubricants". */
  const POLYGENELUBRICANTS: JavaString := [112, 111, 108, 121, 103, 101, 110, 101, 108, 117, 98, 114, 105, 99, 97, 110, 116, 115]

  /** The identifier "polygenelubricants" hashes to `Integer.MIN_VALUE`. */
  lemma HashOfPolygenelubricants()
    ensures HashCode(POLYGENELUBRICANTS) == INT_MIN
  {
    HashFromTrace(POLYGENELUBRICANTS, [0, 112, 3583, 111181, 3446732, 106848795, -982654550, -397519868, 561786081, 235499435, -1289451990, -1318305928, 2082189306, 123359151, -470833516, -1710937011, -1499439679, 762010323, -2147483648], [0, 0, 0, 0, 0, 1, -7, -3, 4, 2, -9, -10, 15, 1, -3, -12, -11, 6]);
  }
}
