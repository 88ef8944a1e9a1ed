/** Decoding of a PMW3610 motion burst: the 12-bit X/Y deltas packed into
    three registers, the configured divisor, the orientation presets, and the
    9-bit shutter value with the "smart" hysteresis it drives. */
module MotionDecode {
  import opened Base

  /** An unsigned 12-bit register field. */
  type u12 = x: int | 0 <= x < 0x1000

  // Positions in the motion burst
  const X_L_POS: nat := 1
  const Y_L_POS: nat := 2
  const XY_H_POS: nat := 3
  const SHUTTER_H_POS: nat := 5
  const SHUTTER_L_POS: nat := 6

  /** `buf[X_L] + ((buf[XY_H] & 0xF0) << 4)`: the high nibble of XY_H on top
      of the low byte of X. */
  function RawX(buf: seq<byte>): (raw: u12)
    requires |buf| > XY_H_POS
    ensures raw % 0x100 == buf[X_L_POS] as int && raw / 0x100 == buf[XY_H_POS] as int / 0x10
  {
    buf[X_L_POS] as int + (buf[XY_H_POS] as int / 0x10) * 0x100
  }

  /** `buf[Y_L] + ((buf[XY_H] & 0x0F) << 8)`: the low nibble of XY_H on top
      of the low byte of Y. */
  function RawY(buf: seq<byte>): (raw: u12)
    requires |buf| > XY_H_POS
    ensures raw % 0x100 == buf[Y_L_POS] as int && raw / 0x100 == buf[XY_H_POS] as int % 0x10
  {
    buf[Y_L_POS] as int + (buf[XY_H_POS] as int % 0x10) * 0x100
  }

  /** `TOINT16(raw, 12)`: a 12-bit two's-complement field read as a signed
      number. */
  function Sext12(raw: u12): (v: int)
    ensures -0x800 <= v < 0x800
    ensures (v - raw) % 0x1000 == 0
    ensures v < 0 <==> raw >= 0x800
  {
    if raw < 0x800 then raw else raw - 0x1000
  }

  /** The 12-bit two's-complement encoding of a value in [-2048, 2047]. */
  function Pack12(v: int): (raw: u12)
    requires -0x800 <= v < 0x800
    ensures (raw - v) % 0x1000 == 0
  {
    v % 0x1000
  }

  /** Reading a field back after encoding it gives the value. */
  lemma Sext12Pack12(v: int)
    requires -0x800 <= v < 0x800
    ensures Sext12(Pack12(v)) == v
  {
  }

  /** Encoding a field after reading it gives the field: the two are
      inverse bijections between 12-bit fields and [-2048, 2047]. */
  lemma Pack12Sext12(raw: u12)
    ensures Pack12(Sext12(raw)) == raw
  {
  }

  /** The registers X_L, Y_L and XY_H that carry the deltas (x, y). */
  function PackDeltas(x: int, y: int): (regs: seq<byte>)
    requires -0x800 <= x < 0x800 && -0x800 <= y < 0x800
    ensures |regs| == 3
  {
    var px, py := Pack12(x), Pack12(y);
    [px % 0x100, py % 0x100, (px / 0x100) * 0x10 + py / 0x100]
  }

  /** Decoding the registers that carry (x, y) gives back (x, y). */
  lemma DecodePackDeltas(b0: byte, x: int, y: int)
    requires -0x800 <= x < 0x800 && -0x800 <= y < 0x800
    ensures var buf := [b0] + PackDeltas(x, y);
            Sext12(RawX(buf)) == x && Sext12(RawY(buf)) == y
  {
    var buf := [b0] + PackDeltas(x, y);
    var px, py := Pack12(x), Pack12(y);
    assert buf[XY_H_POS] / 0x10 == px / 0x100;
    assert buf[XY_H_POS] % 0x10 == py / 0x100;
    assert RawX(buf) == px;
    assert RawY(buf) == py;
    Sext12Pack12(x);
    Sext12Pack12(y);
  }

  /** Every content of the three registers is the encoding of the deltas it
      decodes to: the decoding loses nothing. */
  lemma PackDecodedDeltas(buf: seq<byte>)
    requires |buf| > XY_H_POS
    ensures PackDeltas(Sext12(RawX(buf)), Sext12(RawY(buf))) == buf[X_L_POS..XY_H_POS + 1]
  {
    Pack12Sext12(RawX(buf));
    Pack12Sext12(RawY(buf));
    var h := buf[XY_H_POS];
    assert (h / 0x10) * 0x10 + h % 0x10 == h;
  }

  /** C integer division, which truncates toward zero (Dafny's rounds toward
      negative infinity for a negative dividend). */
  function TruncDiv(a: int, d: int): int
    requires d >= 1
  {
    if a >= 0 then a / d else -((-a) / d)
  }

  /** The quotient is the number of whole divisors in the dividend, taken
      toward zero: the remainder has the sign of the dividend and is smaller
      than the divisor. */
  lemma TruncDivRounding(a: int, d: int)
    requires d >= 1
    ensures var q := TruncDiv(a, d);
            && (a >= 0 ==> 0 <= q * d <= a < q * d + d)
            && (a < 0 ==> q * d - d < a <= q * d <= 0)
  {
    if a >= 0 {
      NatDivBounds(a, d);
    } else {
      NatDivBounds(-a, d);
      var q0 := (-a) / d;
      assert TruncDiv(a, d) == -q0;
      assert (-q0) * d == -(q0 * d);
    }
  }

  /** Euclidean division of a non-negative number. */
  lemma NatDivBounds(n: int, d: int)
    requires n >= 0 && d >= 1
    ensures 0 <= (n / d) * d <= n < (n / d) * d + d
  {
    var q := n / d;
    assert n == q * d + n % d;
    assert q >= 0;
    MulNonneg(q, d);
  }

  lemma MulNonneg(x: int, y: int)
    requires x >= 0 && y >= 0
    ensures x * y >= 0
  {
  }

  /** Truncating division is odd: it rounds both signs the same way. */
  lemma TruncDivOdd(a: int, d: int)
    requires d >= 1
    ensures TruncDiv(-a, d) == -TruncDiv(a, d)
  {
  }

  /** Truncating division never moves a value away from zero. */
  lemma TruncDivShrinks(a: int, d: int)
    requires d >= 1
    ensures a >= 0 ==> 0 <= TruncDiv(a, d) <= a
    ensures a < 0 ==> a <= TruncDiv(a, d) <= 0
  {
    TruncDivRounding(a, d);
    var q := TruncDiv(a, d);
    if a >= 0 {
      MulNonneg(q, d - 1);
      assert q * d == q * (d - 1) + q;
    } else {
      MulNonneg(-q, d - 1);
      assert q * d == q * (d - 1) + q;
    }
  }

  /** The X delta of a burst, scaled down by the configured divisor. */
  function DeltaX(buf: seq<byte>, divisor: int): (x: int16)
    requires |buf| > XY_H_POS && divisor >= 1
    ensures -0x800 <= x < 0x800
    ensures x == TruncDiv(Sext12(RawX(buf)), divisor)
  {
    TruncDivShrinks(Sext12(RawX(buf)), divisor);
    TruncDiv(Sext12(RawX(buf)), divisor)
  }

  /** The Y delta of a burst, scaled down by the configured divisor. */
  function DeltaY(buf: seq<byte>, divisor: int): (y: int16)
    requires |buf| > XY_H_POS && divisor >= 1
    ensures -0x800 <= y < 0x800
    ensures y == TruncDiv(Sext12(RawY(buf)), divisor)
  {
    TruncDivShrinks(Sext12(RawY(buf)), divisor);
    TruncDiv(Sext12(RawY(buf)), divisor)
  }

  /** The orientation preset chosen at build time. */
  datatype Orientation = Deg0 | Deg90 | Deg180 | Deg270

  /** The reported (x, y) for decoded deltas (x, y) under a preset. */
  function Orient(o: Orientation, x: int, y: int): (r: (int, int))
    ensures o == Deg0 ==> r == (-x, y)
    ensures o == Deg90 ==> r == (y, -x)
    ensures o == Deg180 ==> r == (x, -y)
    ensures o == Deg270 ==> r == (-y, x)
  {
    match o
    case Deg0 => (-x, y)
    case Deg90 => (y, -x)
    case Deg180 => (x, -y)
    case Deg270 => (-y, x)
  }

  /** Each reported component is one decoded delta or its negation, and
      the other component is the other delta. */
  lemma OrientPermutesAxes(o: Orientation, x: int, y: int)
    ensures var r := Orient(o, x, y);
            && (o == Deg0 || o == Deg180 ==> (r.0 == x || r.0 == -x) && (r.1 == y || r.1 == -y))
            && (o == Deg90 || o == Deg270 ==> (r.0 == y || r.0 == -y) && (r.1 == x || r.1 == -x))
  {
  }

  /** Deltas decoded from 12 bits stay within int16 after any preset: the
      negation of -2048 is 2048, which int16 holds. */
  lemma OrientFitsInt16(o: Orientation, x: int, y: int)
    requires -0x800 <= x <= 0x800 && -0x800 <= y <= 0x800
    ensures var r := Orient(o, x, y);
            -0x8000 <= r.0 < 0x8000 && -0x8000 <= r.1 < 0x8000
  {
  }

  /** The 0 and 180 presets are reflections, each its own inverse. */
  lemma ReflectionsAreInvolutions(x: int, y: int)
    ensures var r := Orient(Deg0, x, y); Orient(Deg0, r.0, r.1) == (x, y)
    ensures var r := Orient(Deg180, x, y); Orient(Deg180, r.0, r.1) == (x, y)
  {
  }

  /** The 90 and 270 presets are rotations, each the inverse of the other. */
  lemma RotationsAreInverse(x: int, y: int)
    ensures var r := Orient(Deg90, x, y); Orient(Deg270, r.0, r.1) == (x, y)
    ensures var r := Orient(Deg270, x, y); Orient(Deg90, r.0, r.1) == (x, y)
  {
  }

  /** Applying the 90 preset twice negates both deltas, which is not what
      the 180 preset reports. */
  lemma NinetyTwiceIsNotOneEighty(x: int, y: int)
    ensures var r := Orient(Deg90, x, y); Orient(Deg90, r.0, r.1) == (-x, -y)
    ensures var r := Orient(Deg90, x, y); x != 0 ==> Orient(Deg90, r.0, r.1) != Orient(Deg180, x, y)
  {
  }

  /** The reported motion of a burst under a preset. */
  function Motion(buf: seq<byte>, divisor: int, o: Orientation): (r: (int16, int16))
    requires |buf| > XY_H_POS && divisor >= 1
    ensures (r.0 as int, r.1 as int) == Orient(o, DeltaX(buf, divisor), DeltaY(buf, divisor))
  {
    var m := Orient(o, DeltaX(buf, divisor), DeltaY(buf, divisor));
    (m.0, m.1)
  }

  /** `((buf[SHUTTER_H] & 0x01) << 8) + buf[SHUTTER_L]`: the 9-bit shutter. */
  function Shutter(buf: seq<byte>): (s: int)
    requires |buf| > SHUTTER_L_POS
    ensures 0 <= s < 0x200
    ensures s % 0x100 == buf[SHUTTER_L_POS] as int && s / 0x100 == buf[SHUTTER_H_POS] as int % 2
  {
    (buf[SHUTTER_H_POS] as int % 2) * 0x100 + buf[SHUTTER_L_POS] as int
  }

  const SHUTTER_THRESHOLD: int := 45
  const REG_SMART: byte := 0x32
  const SMART_OFF: byte := 0x00
  const SMART_ON: byte := 0x80

  /** The new smart flag and the value written to register 0x32, if any. */
  datatype SmartResult = SmartResult(flag: bool, write: Option<byte>)

  /** The smart-algorithm hysteresis of one fetch: the flag is cleared (and
      0x00 written) when set and the shutter is below 45, then set (and 0x80
      written) when clear and the shutter is above 45. */
  function SmartStep(flag: bool, shutter: int): (r: SmartResult)
    ensures r.flag == (if shutter < SHUTTER_THRESHOLD then false
                       else if shutter > SHUTTER_THRESHOLD then true
                       else flag)
    ensures r.write.Some? <==> r.flag != flag
    ensures r.write.Some? ==> r.write.value == (if r.flag then SMART_ON else SMART_OFF)
  {
    var r1 := if flag && shutter < SHUTTER_THRESHOLD then SmartResult(false, Some(SMART_OFF))
              else SmartResult(flag, None);
    if !r1.flag && shutter > SHUTTER_THRESHOLD then SmartResult(true, Some(SMART_ON)) else r1
  }

  /** The flag after a series of fetches with the given shutter values. */
  function FlagAfter(flag: bool, shutters: seq<int>): bool
    decreases |shutters|
  {
    if shutters == [] then flag
    else SmartStep(FlagAfter(flag, shutters[..|shutters| - 1]), shutters[|shutters| - 1]).flag
  }

  /** The values written to register 0x32 over a series of fetches. */
  function SmartWrites(flag: bool, shutters: seq<int>): seq<byte>
    decreases |shutters|
  {
    if shutters == [] then []
    else
      var w := SmartStep(FlagAfter(flag, shutters[..|shutters| - 1]), shutters[|shutters| - 1]).write;
      SmartWrites(flag, shutters[..|shutters| - 1]) + (if w.Some? then [w.value] else [])
  }

  /** The last shutter value other than 45, if there is one. */
  function LastDecisive(shutters: seq<int>): Option<int>
    decreases |shutters|
  {
    if shutters == [] then None
    else if shutters[|shutters| - 1] != SHUTTER_THRESHOLD then Some(shutters[|shutters| - 1])
    else LastDecisive(shutters[..|shutters| - 1])
  }

  /** The hysteresis has no memory beyond one bit: after any series of
      fetches the flag says whether the last shutter value other than 45
      was above 45, and is the starting flag when there was none. */
  lemma {:induction false} FlagFollowsLastDecisive(flag: bool, shutters: seq<int>)
    ensures FlagAfter(flag, shutters)
         == match LastDecisive(shutters)
            case None => flag
            case Some(s) => s > SHUTTER_THRESHOLD
    decreases |shutters|
  {
    if shutters != [] && shutters[|shutters| - 1] == SHUTTER_THRESHOLD {
      FlagFollowsLastDecisive(flag, shutters[..|shutters| - 1]);
    }
  }

  /** Every write toggles the flag, so writes alternate between 0x80 and
      0x00 and their number is the number of flag changes. */
  lemma {:induction false} WritesAlternate(flag: bool, shutters: seq<int>)
    ensures var w := SmartWrites(flag, shutters);
            && (forall i :: 0 <= i < |w| ==> w[i] == (if (i % 2 == 0) != flag then SMART_ON else SMART_OFF))
            && (FlagAfter(flag, shutters) == (if |w| % 2 == 0 then flag else !flag))
    decreases |shutters|
  {
    if shutters != [] {
      var init := shutters[..|shutters| - 1];
      WritesAlternate(flag, init);
      var w0 := SmartWrites(flag, init);
      var w := SmartWrites(flag, shutters);
      forall i | 0 <= i < |w| ensures w[i] == (if (i % 2 == 0) != flag then SMART_ON else SMART_OFF) {
        if i < |w0| {
          assert w[i] == w0[i];
        }
      }
    }
  }

  /** Starting from the reset value false, shutter values 50, 40, 50 toggle
      the flag on every fetch: a value that crosses 45 always writes. */
  lemma CrossingAlwaysWrites()
    ensures SmartWrites(false, [50, 40, 50]) == [SMART_ON, SMART_OFF, SMART_ON]
  {
    assert [50, 40, 50][..2] == [50, 40];
    assert [50, 40][..1] == [50];
    assert [50][..0] == [];
  }
}
