/**
  Decoding of one Modbus holding register. Every metric of both plugins reads
  a single 16-bit word, lets `BinaryPayloadDecoder` turn it into two
  big-endian bytes, decodes those with `decode_16bit_int` (a signed,
  two's-complement value, whatever the "Unsigned" comments beside the calls
  say) and then divides by a fixed per-metric divisor, rounding to three
  decimals.
 */
module Register {

  type Byte = b: int | 0 <= b < 0x100
  type Word = w: int | 0 <= w < 0x1_0000

  /** The payload of one register, high byte first. */
  function WordBytes(w: Word): (b: seq<Byte>)
    ensures |b| == 2
    ensures (b[0] as int) * 0x100 + (b[1] as int) == w
  {
    [w / 0x100, w % 0x100]
  }

  /** `decode_16bit_int` on a big-endian two-byte payload: the unique value in
      [-32768, 32767] congruent to the unsigned reading modulo 2^16. */
  function DecodeInt16(hi: Byte, lo: Byte): (x: int)
    ensures -0x8000 <= x < 0x8000
    ensures (x - ((hi as int) * 0x100 + (lo as int))) % 0x1_0000 == 0
  {
    var u := (hi as int) * 0x100 + (lo as int);
    if u < 0x8000 then u else u - 0x1_0000
  }

  /** The signed integer one register word decodes to. */
  function Signed16(w: Word): (x: int)
    ensures -0x8000 <= x < 0x8000
    ensures (x - w) % 0x1_0000 == 0
  {
    if w < 0x8000 then w else w - 0x1_0000
  }

  /** The plugins' decoding path, word to big-endian bytes to
      `decode_16bit_int`, gives exactly `Signed16`. */
  lemma PayloadDecode(w: Word)
    ensures DecodeInt16(WordBytes(w)[0], WordBytes(w)[1]) == Signed16(w)
  {
    var b := WordBytes(w);
    assert (b[0] as int) * 0x100 + (b[1] as int) == w;
  }

  /** The register word a device holds for a signed 16-bit value. */
  function EncodeInt16(x: int): (w: Word)
    requires -0x8000 <= x < 0x8000
    ensures (w - x) % 0x1_0000 == 0
  {
    if x < 0 then x + 0x1_0000 else x
  }

  /** Decoding the register a signed value was stored in gives that value back. */
  lemma DecodeEncode(x: int)
    requires -0x8000 <= x < 0x8000
    ensures Signed16(EncodeInt16(x)) == x
  {
  }

  /** And every word is the encoding of what it decodes to. */
  lemma EncodeDecode(w: Word)
    ensures EncodeInt16(Signed16(w)) == w
  {
  }

  /** Python's `round(y)` on an exact value: the nearest integer, ties to the
      even one. */
  function RoundHalfEven(y: real): (n: int)
    ensures -0.5 <= (n as real) - y <= 0.5
    ensures (y.Floor as real) == y ==> n == y.Floor
    ensures y - (y.Floor as real) == 0.5 ==> n % 2 == 0
  {
    var f := y.Floor;
    var frac := y - (f as real);
    if frac < 0.5 then f
    else if frac > 0.5 then f + 1
    else if f % 2 == 0 then f
    else f + 1
  }

  /** `round(x, 3)` over exact reals: within half a thousandth of `x`, and
      `x` itself when `x` already has at most three decimals. */
  function Round3(x: real): (r: real)
    ensures -0.0005 <= r - x <= 0.0005
    ensures ((r * 1000.0).Floor as real) == r * 1000.0
    ensures ((x * 1000.0).Floor as real) == x * 1000.0 ==> r == x
    ensures x * 1000.0 - ((x * 1000.0).Floor as real) == 0.5 ==> (r * 1000.0).Floor % 2 == 0
  {
    var n := RoundHalfEven(x * 1000.0);
    Thousandths(n);
    (n as real) / 1000.0
  }

  /** A whole number of thousandths, scaled back up, is that whole number. */
  lemma Thousandths(n: int)
    ensures ((n as real) / 1000.0) * 1000.0 == n as real
    ensures (((n as real) / 1000.0) * 1000.0).Floor == n
  {
  }

  /** A value with at most three decimals survives `round(x, 3)` unchanged. */
  lemma Round3Exact(x: real, thousandths: int)
    requires x * 1000.0 == thousandths as real
    ensures Round3(x) == x
  {
    assert (x * 1000.0).Floor == thousandths;
  }

  /** How a metric turns its decoded integer into a physical value: divide by
      10, by 100 or by 0.1 (the divisor literally written in the source), or
      leave the integer as it is. */
  datatype Scaling = DivideBy10 | DivideBy100 | DivideByTenth | Unscaled

  /** The physical value of a metric: the decoded integer over the metric's
      divisor, or the integer itself for an unscaled metric. The source
      rounds the quotient to three decimals; `ScaledValueIsRounded` shows
      that rounding changes nothing for these divisors. */
  function ScaledValue(w: Word, s: Scaling): (v: real)
    ensures s == DivideBy10 ==> v * 10.0 == Signed16(w) as real
    ensures s == DivideBy100 ==> v * 100.0 == Signed16(w) as real
    ensures s == DivideByTenth ==> v == 10.0 * (Signed16(w) as real)
    ensures s == Unscaled ==> v == Signed16(w) as real
  {
    var n := Signed16(w) as real;
    match s
    case Unscaled => n
    case DivideBy10 => n / 10.0
    case DivideBy100 => n / 100.0
    case DivideByTenth => n / 0.1
  }

  /** `round(value / divisor, 3)` as the source computes it gives the same
      real as `ScaledValue`: a quotient by 10, 100 or 0.1 of an integer has
      at most two decimals. */
  lemma ScaledValueIsRounded(w: Word, s: Scaling)
    requires !s.Unscaled?
    ensures s == DivideBy10 ==> ScaledValue(w, s) == Round3((Signed16(w) as real) / 10.0)
    ensures s == DivideBy100 ==> ScaledValue(w, s) == Round3((Signed16(w) as real) / 100.0)
    ensures s == DivideByTenth ==> ScaledValue(w, s) == Round3((Signed16(w) as real) / 0.1)
  {
    var n := Signed16(w);
    match s
    case DivideBy10 => Round3Exact((n as real) / 10.0, 100 * n);
    case DivideBy100 => Round3Exact((n as real) / 100.0, 10 * n);
    case DivideByTenth => Round3Exact((n as real) / 0.1, 10000 * n);
  }
}
