/** Packed 0xRRGGBB colours as used by the sun texture generator. */
module Color {
  import opened Numeric


  /** An 8-bit colour channel. */
  type Channel = c: int | 0 <= c <= 255

  datatype RGBA = RGBA(r: Channel, g: Channel, b: Channel, a: int)

  /** (n >> 16) & 255; the arithmetic shift of a two's-complement integer is a
      floor division, and `& 255` keeps the low byte, so this is exact for every
      integer n. */
  function Red(n: int): Channel { (n / 65536) % 256 }
  /** (n >> 8) & 255 */
  function Green(n: int): Channel { (n / 256) % 256 }
  /** n & 255 */
  function Blue(n: int): Channel { n % 256 }

  /** (r << 16) | (g << 8) | b: with every channel in [0, 255] the three
      shifted bytes do not overlap, so the bitwise or is a sum. */
  function Pack(r: Channel, g: Channel, b: Channel): (c: int)
    ensures 0 <= c < 0x100_0000
  {
    r * 65536 + g * 256 + b
  }

  /** Packing then unpacking gives back each channel. */
  lemma UnpackPack(r: Channel, g: Channel, b: Channel)
    ensures var c := Pack(r, g, b); Red(c) == r && Green(c) == g && Blue(c) == b
  {
    var c := Pack(r, g, b);
    assert c / 256 == r * 256 + g;
    assert c / 65536 == r;
  }

  /** The three channels of n are the low 24 bits of n. */
  lemma ChannelsAreLowBits(n: int)
    ensures Red(n) * 65536 + Green(n) * 256 + Blue(n) == n % 0x100_0000
  {
    var b, q := n % 256, n / 256;
    assert n == q * 256 + b;
    var g, p := q % 256, q / 256;
    assert q == p * 256 + g;
    assert p == n / 65536;
    var r, s := p % 256, p / 256;
    assert p == s * 256 + r;
    assert n == s * 0x100_0000 + (r * 65536 + g * 256 + b);
    assert 0 <= r * 65536 + g * 256 + b < 0x100_0000;
  }

  /** toRGBA(n, a): the three channels of n, then the alpha. */
  function ToRGBA(n: int, a: int := 255): (px: RGBA)
    ensures Pack(px.r, px.g, px.b) == n % 0x100_0000
    ensures px.a == a
  {
    ChannelsAreLowBits(n);
    RGBA(Red(n), Green(n), Blue(n), a)
  }

  lemma ModSmall(n: int)
    requires 0 <= n < 0x100_0000
    ensures n % 0x100_0000 == n
  {
  }

  /** Unpacking then packing a 24-bit colour gives it back. */
  lemma ToRGBARoundTrip(n: int)
    requires 0 <= n < 0x100_0000
    ensures var px := ToRGBA(n); Pack(px.r, px.g, px.b) == n
  {
    var px := ToRGBA(n);
    assert Pack(px.r, px.g, px.b) == n % 0x100_0000;
    ModSmall(n);
  }

  /** One channel of lerpColor: Math.round(lerp(a, b, t)). */
  function LerpChannel(a: Channel, b: Channel, t: real): (c: Channel)
    requires 0.0 <= t <= 1.0
    ensures Min(a as real, b as real) - 0.5 <= c as real <= Max(a as real, b as real) + 0.5
  {
    LerpBetween(a as real, b as real, t);
    Round(Lerp(a as real, b as real, t))
  }

  /** lerpColor(c1, c2, t). Every caller passes t in [0, 1] (a clamped mix
      and its square times 0.7), which keeps each rounded channel a byte. */
  function LerpColor(c1: int, c2: int, t: real): (c: int)
    requires 0.0 <= t <= 1.0
    ensures 0 <= c < 0x100_0000
    ensures Red(c) == LerpChannel(Red(c1), Red(c2), t)
    ensures Green(c) == LerpChannel(Green(c1), Green(c2), t)
    ensures Blue(c) == LerpChannel(Blue(c1), Blue(c2), t)
  {
    var r, g, b := LerpChannel(Red(c1), Red(c2), t), LerpChannel(Green(c1), Green(c2), t), LerpChannel(Blue(c1), Blue(c2), t);
    UnpackPack(r, g, b);
    Pack(r, g, b)
  }

  /** At t = 0 the mix is the first colour, at t = 1 the second. */
  lemma LerpColorEnds(c1: int, c2: int)
    ensures LerpColor(c1, c2, 0.0) == c1 % 0x100_0000
    ensures LerpColor(c1, c2, 1.0) == c2 % 0x100_0000
  {
    RoundOfInt(Red(c1));
    RoundOfInt(Green(c1));
    RoundOfInt(Blue(c1));
    RoundOfInt(Red(c2));
    RoundOfInt(Green(c2));
    RoundOfInt(Blue(c2));
    assert ToRGBA(c1).r == Red(c1);
    assert ToRGBA(c2).r == Red(c2);
  }

  /** Mixing a colour with itself leaves it unchanged. */
  lemma LerpColorSame(c: int, t: real)
    requires 0.0 <= t <= 1.0
    ensures LerpColor(c, c, t) == c % 0x100_0000
  {
    RoundOfInt(Red(c));
    RoundOfInt(Green(c));
    RoundOfInt(Blue(c));
    assert ToRGBA(c).r == Red(c);
  }
}
