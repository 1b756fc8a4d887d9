/** The transport layer the settings object is written to and read from: Java's 32-bit
    `int` and `float`, a stream of optional slots (a presence flag followed, when set, by a
    32-bit payload), and the protocol version ids that gate newer slots. */
module Wire {
  import opened Wrappers

  const TwoTo32: int := 0x1_0000_0000

  /** An unsigned 32-bit payload as it travels on the wire. */
  type Word = w: int | 0 <= w < 0x1_0000_0000

  /** Java `int`. */
  type Int32 = i: int | -0x8000_0000 <= i < 0x8000_0000

  /** Two's complement image of an `int`, as `writeInt` sends it. */
  function ToWord(i: Int32): (w: Word)
    ensures FromWord(w) == i
    ensures (w < 0x8000_0000) == (i >= 0)
  {
    if i < 0 then i + TwoTo32 else i
  }

  /** The `int` that `readInt` makes of a payload. */
  function FromWord(w: Word): Int32 {
    if w < 0x8000_0000 then w else w - TwoTo32
  }

  /** The three fields of an IEEE 754 binary32 bit pattern. */
  function SignBit(w: Word): nat { w / 0x8000_0000 }
  function ExponentBits(w: Word): nat { (w / 0x80_0000) % 0x100 }
  function FractionBits(w: Word): nat { w % 0x80_0000 }

  /** A NaN bit pattern: all exponent bits set and a non-zero fraction. */
  predicate IsNaN(w: Word) {
    ExponentBits(w) == 0xFF && FractionBits(w) != 0
  }

  const CanonicalNaN: Word := 0x7FC0_0000

  /** A Java `float` identified by `Float.floatToIntBits`, which folds every NaN into one
      pattern. Equality on this type is exactly `Float.equals`. */
  type FloatBits = w: Word | !IsNaN(w) || w == CanonicalNaN

  /** `Float.intBitsToFloat`, seen through `floatToIntBits`. */
  function IntBitsToFloat(w: Word): (f: FloatBits)
    ensures IsNaN(w) <==> IsNaN(f)
    ensures !IsNaN(w) ==> f == w
  {
    if IsNaN(w) then CanonicalNaN else w
  }

  function Pow2(k: nat): (p: nat)
    ensures p >= 1
  {
    if k == 0 then 1 else 2 * Pow2(k - 1)
  }

  lemma {:induction false} Pow2Add(a: nat, b: nat)
    ensures Pow2(a) * Pow2(b) == Pow2(a + b)
  {
    if a > 0 {
      Pow2Add(a - 1, b);
      assert Pow2(a) * Pow2(b) == 2 * (Pow2(a - 1) * Pow2(b));
    }
  }

  /** The position of the leading one of a positive number. */
  function Log2(n: nat): (e: nat)
    requires n > 0
    ensures Pow2(e) <= n < 2 * Pow2(e)
  {
    if n == 1 then 0 else 1 + Log2(n / 2)
  }

  /** The real number a finite float denotes: its significand (with the implicit leading
      one when the exponent field is not zero) scaled by 2 to the power
      `exponent - 127 - 23`, negated when the sign bit is set. */
  function FloatValue(w: Word): real
    requires ExponentBits(w) != 0xFF
  {
    var significand := if ExponentBits(w) == 0 then FractionBits(w) else 0x80_0000 + FractionBits(w);
    var scale := (if ExponentBits(w) == 0 then 1 else ExponentBits(w)) - 150;
    var magnitude := if scale >= 0 then (significand * Pow2(scale)) as real
                     else significand as real / Pow2(-scale) as real;
    if SignBit(w) == 1 then -magnitude else magnitude
  }

  /** The largest magnitude up to which every integer is exactly a `float`. */
  const ExactFloatIntBound: int := 0x100_0000

  function Compose(sign: nat, exponent: nat, fraction: nat): (w: Word)
    requires sign <= 1 && exponent < 0x100 && fraction < 0x80_0000
    ensures SignBit(w) == sign && ExponentBits(w) == exponent && FractionBits(w) == fraction
  {
    var high := sign * 0x100 + exponent;
    assert (high * 0x80_0000 + fraction) / 0x80_0000 == high;
    high * 0x80_0000 + fraction
  }

  /** Java's `(float) i` for an integer a `float` holds exactly: the sign, the biased
      position of the leading one, and the 23 bits below it. */
  function IntToFloat(i: int): (f: FloatBits)
    requires -ExactFloatIntBound <= i <= ExactFloatIntBound
    ensures ExponentBits(f) != 0xFF && FloatValue(f) == i as real
    ensures f == 0 <==> i == 0
    ensures SignBit(f) == 1 <==> i < 0
  {
    if i == 0 then
      ZeroValue();
      0
    else
      var n: nat := if i < 0 then -i else i;
      var e := Log2(n);
      LeadingOneBelow25(n, e);
      NonZeroValue(i, n, e);
      Compose(if i < 0 then 1 else 0, 127 + e, Significand(n, e) - 0x80_0000)
  }

  lemma ZeroValue()
    ensures SignBit(0) == 0 && ExponentBits(0) == 0 && FloatValue(0) == 0.0
  {
    var p := Pow2(149);
    assert 0 as real / p as real == 0.0;
  }

  lemma NonZeroValue(i: int, n: nat, e: nat)
    requires i != 0 && n == (if i < 0 then -i else i) && n <= ExactFloatIntBound
    requires e <= 24 && Pow2(e) <= n < 2 * Pow2(e)
    ensures var w := Compose(if i < 0 then 1 else 0, 127 + e, Significand(n, e) - 0x80_0000);
            ExponentBits(w) != 0xFF && FloatValue(w) == i as real && w != 0
  {
    NormalValue(if i < 0 then 1 else 0, e, Significand(n, e));
    SignificandValue(n, e);
  }

  lemma Pow2Constants()
    ensures Pow2(23) == 0x80_0000 && Pow2(24) == 0x100_0000 && Pow2(25) == 0x200_0000
  {
    assert Pow2(5) == 32;
    Pow2Add(5, 5);
    Pow2Add(10, 10);
    assert Pow2(3) == 8;
    Pow2Add(20, 3);
  }

  lemma LeadingOneBelow25(n: nat, e: nat)
    requires 0 < n <= ExactFloatIntBound && Pow2(e) <= n
    ensures e <= 24
  {
    if e > 24 {
      Pow2Add(25, e - 25);
      Pow2Constants();
    }
  }

  lemma ScaleBetween(low: nat, n: nat, scale: nat)
    requires low <= n < 2 * low && scale >= 1
    ensures low * scale <= n * scale < 2 * (low * scale)
  {
  }

  lemma DivideOut(n: nat, p: nat)
    requires p >= 1
    ensures (n * p) as real / p as real == n as real
  {
    assert (n * p) as real == n as real * p as real;
  }

  /** The 24-bit significand of a positive integer whose leading one is at position `e`. */
  function Significand(n: nat, e: nat): (s: nat)
    requires 0 < n <= ExactFloatIntBound && e <= 24 && Pow2(e) <= n < 2 * Pow2(e)
    ensures 0x80_0000 <= s < 0x100_0000
    ensures e <= 23 ==> s == n * Pow2(23 - e)
    ensures e == 24 ==> s * 2 == n
  {
    Pow2Constants();
    if e <= 23 then
      ScaledBounds(n, e);
      n * Pow2(23 - e)
    else
      n / 2
  }

  lemma ScaledBounds(n: nat, e: nat)
    requires e <= 23 && Pow2(e) <= n < 2 * Pow2(e)
    ensures Pow2(23) <= n * Pow2(23 - e) < 2 * Pow2(23)
  {
    Pow2Add(e, 23 - e);
    ScaleBetween(Pow2(e), n, Pow2(23 - e));
  }

  /** Scaling the significand back by `2^(e - 23)` gives the integer it came from. */
  lemma SignificandValue(n: nat, e: nat)
    requires 0 < n <= ExactFloatIntBound && e <= 24 && Pow2(e) <= n < 2 * Pow2(e)
    ensures var s := Significand(n, e);
            (if e <= 23 then s as real / Pow2(23 - e) as real else (s * 2) as real) == n as real
  {
    if e <= 23 {
      DivideOut(n, Pow2(23 - e));
    }
  }

  /** The value of the normal float with the given sign, leading one at position `e` and
      24-bit significand `s`. */
  lemma NormalValue(sign: nat, e: nat, s: nat)
    requires sign <= 1 && e <= 24 && 0x80_0000 <= s < 0x100_0000
    ensures var w := Compose(sign, 127 + e, s - 0x80_0000);
            ExponentBits(w) != 0xFF
            && FloatValue(w) == (if sign == 1 then -1.0 else 1.0)
                                * (if e <= 23 then s as real / Pow2(23 - e) as real else (s * 2) as real)
  {
  }

  /** One optional value on the stream: the presence flag, then the payload when present. */
  datatype Slot = Absent | Present(payload: Word)

  /** What a read produced, and the stream left after it. */
  datatype Read<T> = Read(value: T, rest: seq<Slot>)

  /** `StreamOutput.writeOptionalInt`. */
  function WriteOptionalInt(v: Option<Int32>): Slot {
    if v.None? then Absent else Present(ToWord(v.value))
  }

  /** `StreamOutput.writeOptionalFloat`. */
  function WriteOptionalFloat(v: Option<FloatBits>): Slot {
    if v.None? then Absent else Present(v.value)
  }

  /** `StreamInput.readOptionalInt`; `None` is the end-of-stream exception. */
  function ReadOptionalInt(input: seq<Slot>): (r: Option<Read<Option<Int32>>>)
    ensures r.Some? <==> |input| > 0
    ensures r.Some? ==> r.value.rest == input[1..]
    ensures r.Some? ==> (r.value.value.None? <==> input[0].Absent?)
  {
    if |input| == 0 then None
    else
      var v := match input[0]
        case Absent => None
        case Present(w) => Some(FromWord(w));
      Some(Read(v, input[1..]))
  }

  /** `StreamInput.readOptionalFloat`; `None` is the end-of-stream exception. */
  function ReadOptionalFloat(input: seq<Slot>): (r: Option<Read<Option<FloatBits>>>)
    ensures r.Some? <==> |input| > 0
    ensures r.Some? ==> r.value.rest == input[1..]
    ensures r.Some? ==> (r.value.value.None? <==> input[0].Absent?)
  {
    if |input| == 0 then None
    else
      var v := match input[0]
        case Absent => None
        case Present(w) => Some(IntBitsToFloat(w));
      Some(Read(v, input[1..]))
  }

  lemma OptionalIntRoundTrip(v: Option<Int32>, rest: seq<Slot>)
    ensures ReadOptionalInt([WriteOptionalInt(v)] + rest) == Some(Read(v, rest))
  {
  }

  lemma OptionalFloatRoundTrip(v: Option<FloatBits>, rest: seq<Slot>)
    ensures ReadOptionalFloat([WriteOptionalFloat(v)] + rest) == Some(Read(v, rest))
  {
  }

  /** Protocol version ids (major, minor, revision, build), ordered like the releases. */
  const V7_11_0: int := 7_11_00_99
  const V7_15_0: int := 7_15_00_99

  /** `Version.onOrAfter`. */
  predicate OnOrAfter(version: int, threshold: int) {
    version >= threshold
  }
}
