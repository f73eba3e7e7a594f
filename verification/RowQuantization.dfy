/** Row-wise 8-bit quantization of an embedding, and the packing of 4-bit zero points. */
module RowQuantization {

  const TINY: real := 0.000000000000000000000000000000000000011754943508222875

  // ---------------------------------------------------------------- rounding half to even

  function Rint(x: real): (r: int)
    ensures x - 0.5 <= r as real <= x + 0.5
    ensures r as real == x + 0.5 || r as real == x - 0.5 ==> r % 2 == 0
  {
    var low := x.Floor;
    var rest := x - low as real;
    if rest < 0.5 then low else if rest > 0.5 then low + 1 else if low % 2 == 0 then low else low + 1
  }

  lemma RintIsMonotone(x: real, y: real)
    requires x <= y
    ensures Rint(x) <= Rint(y)
  {
    assert x.Floor <= y.Floor;
  }

  /** Rounding half to even is symmetric. */
  lemma RintIsOdd(x: real)
    ensures Rint(-x) == -Rint(x)
  {
    assert (-x).Floor == if x == x.Floor as real then -x.Floor else -x.Floor - 1;
  }

  lemma RintOfInt(n: int)
    ensures Rint(n as real) == n
  {}

  function Clip(n: int): (r: int)
    ensures 0 <= r <= 255
  {
    if n < 0 then 0 else if n > 255 then 255 else n
  }

  // ---------------------------------------------------------------- one row

  datatype Row = Row(codes: seq<int>, scale: real, zero: int)

  ghost predicate IsRange(weights: seq<real>, low: real, high: real) {
    && low <= 0.0 <= high && (low == 0.0 || low in weights) && (high == 0.0 || high in weights)
    && forall i | 0 <= i < |weights| :: low <= weights[i] <= high
  }

  /** The least and the greatest weight, with 0 among them. */
  method RangeOf(weights: seq<real>) returns (low: real, high: real)
    ensures IsRange(weights, low, high)
  {
    low, high := 0.0, 0.0;
    for i := 0 to |weights|
      invariant low <= 0.0 <= high && (low == 0.0 || low in weights) && (high == 0.0 || high in weights)
      invariant forall k | 0 <= k < i :: low <= weights[k] <= high
    {
      if weights[i] < low { low := weights[i]; }
      if weights[i] > high { high := weights[i]; }
    }
  }

  function Code(weight: real, scale: real, zero: int): int
    requires scale != 0.0
  {
    Clip(Rint(weight / scale) + zero)
  }

  method QuantizeRow(weights: seq<real>) returns (row: Row)
    requires weights != []
    ensures |row.codes| == |weights| && row.scale > 0.0 && 0 <= row.zero <= 255
    ensures exists low, high :: IsRange(weights, low, high) && Quantizes(row, weights, low, high)
    ensures forall i | 0 <= i < |weights| && weights[i] == 0.0 :: Restored(row, i) == 0.0
    ensures forall i | 0 <= i < |weights| :: -(row.scale / 2.0) <= Restored(row, i) - weights[i] <= row.scale / 2.0
  {
    var low, high := RangeOf(weights);
    if high - low < TINY {
      row := Row(seq(|weights|, _ => 0), 1.0, 0);
    } else {
      var scale := (high - low) / 255.0;
      var zero := Clip(Rint(-low / scale));
      var codes := seq(|weights|, i requires 0 <= i < |weights| => Code(weights[i], scale, zero));
      row := Row(codes, scale, zero);
    }
    assert Quantizes(row, weights, low, high);
    hide Rint, Clip, Code;
    forall i: nat | i < |weights|
      ensures weights[i] == 0.0 ==> Restored(row, i) == 0.0
      ensures -(row.scale / 2.0) <= Restored(row, i) - weights[i] <= row.scale / 2.0
    {
      if weights[i] == 0.0 { ZeroIsExact(row, weights, low, high, i); }
      RowError(row, weights, low, high, i);
    }
  }

  ghost predicate Quantizes(row: Row, weights: seq<real>, low: real, high: real) {
    && |row.codes| == |weights| && row.scale > 0.0
    && if high - low < TINY then row.scale == 1.0 && row.zero == 0 && forall i | 0 <= i < |weights| :: row.codes[i] == 0
       else
         && row.scale == (high - low) / 255.0 && row.zero == Clip(Rint(-low / row.scale))
         && forall i | 0 <= i < |weights| :: row.codes[i] == Code(weights[i], row.scale, row.zero)
  }

  function Restored(row: Row, i: nat): real
    requires i < |row.codes|
  {
    (row.codes[i] - row.zero) as real * row.scale
  }

  // ---------------------------------------------------------------- the error

  lemma Divided(low: real, high: real, weight: real, scale: real)
    requires low <= 0.0 <= high && low <= weight <= high && high - low > 0.0 && scale == (high - low) / 255.0
    ensures scale > 0.0 && 0.0 <= -low / scale && -low / scale + high / scale == 255.0
    ensures -(-low / scale) <= weight / scale <= high / scale
  {
    Quotients(low, weight, scale);
    Quotients(weight, high, scale);
    Quotients(low, 0.0, scale);
    assert -low / scale + high / scale == (high - low) / scale;
    assert (high - low) / scale == 255.0 by { assert high - low == 255.0 * scale; Ratio(255.0, scale); }
    assert -(-low / scale) == low / scale by { Negated(low, scale); }
  }

  lemma Quotients(a: real, b: real, s: real)
    requires a <= b && s > 0.0
    ensures a / s <= b / s
  {}

  lemma Ratio(a: real, s: real)
    requires s != 0.0
    ensures (a * s) / s == a
  {}

  lemma Negated(a: real, s: real)
    requires s != 0.0
    ensures -(-a / s) == a / s
  {}

  /**
   * In units of the scale: with `m` below zero and 255 - m above, the clipped code restores every `u` of the row to
   * within one half. The lower clip never acts; the upper one acts only on a tie at the very top, and costs exactly the half.
   */
  lemma CodeWithinHalf(m: real, u: real)
    requires 0.0 <= m <= 255.0 && -m <= u <= 255.0 - m
    ensures var zero := Rint(m);
      && 0 <= zero <= 255 && Rint(u) + zero >= 0
      && -0.5 <= (Clip(Rint(u) + zero) - zero) as real - u <= 0.5
      && (Rint(u) + zero > 255 ==> u == 255.0 - m && Rint(u) + zero == 256)
  {
    var zero := Rint(m);
    RintOfInt(0);
    RintOfInt(255);
    RintIsMonotone(0.0, m);
    RintIsMonotone(m, 255.0);
    RintIsOdd(m);
    RintIsMonotone(-m, u);
    if Rint(u) + zero > 255 {
      assert Rint(u) as real >= 256.0 - zero as real;
      assert u >= 255.5 - zero as real && zero as real <= m + 0.5;
    }
  }

  lemma Scaled(d: real, s: real)
    requires s > 0.0 && -0.5 <= d <= 0.5
    ensures -(s / 2.0) <= d * s <= s / 2.0
  {}

  lemma Restores(code: real, weight: real, s: real)
    requires s > 0.0
    ensures code * s - weight == (code - weight / s) * s
  {}

  /** In units of the scale, the zero point and a weight of the row meet the premises of `CodeWithinHalf`. */
  lemma InUnits(low: real, high: real, weight: real, scale: real)
    requires low <= 0.0 <= high && low <= weight <= high && high - low > 0.0 && scale == (high - low) / 255.0
    ensures scale > 0.0 && 0.0 <= -low / scale <= 255.0 && -(-low / scale) <= weight / scale <= 255.0 - -low / scale
  {
    Divided(low, high, weight, scale);
    Quotients(0.0, high, scale);
  }

  /** The same for one entry, in its own units. */
  lemma EntryError(low: real, high: real, weight: real, s: real, zero: int, code: int)
    requires low <= 0.0 <= high && low <= weight <= high && high - low > 0.0 && s == (high - low) / 255.0
    requires s != 0.0 && zero == Clip(Rint(-low / s)) && code == Code(weight, s, zero)
    ensures -(s / 2.0) <= (code - zero) as real * s - weight <= s / 2.0
  {
    hide Rint, Clip;
    InUnits(low, high, weight, s);
    UnitError(-low / s, weight / s, zero, code);
    WithinHalf((code - zero) as real, weight, s);
  }

  lemma UnitError(m: real, u: real, zero: int, code: int)
    requires 0.0 <= m <= 255.0 && -m <= u <= 255.0 - m
    requires zero == Clip(Rint(m)) && code == Clip(Rint(u) + zero)
    ensures -0.5 <= (code - zero) as real - u <= 0.5
  {
    hide Rint;
    CodeWithinHalf(m, u);
    assert zero == Rint(m);
  }

  lemma WithinHalf(code: real, weight: real, s: real)
    requires s > 0.0 && -0.5 <= code - weight / s <= 0.5
    ensures -(s / 2.0) <= code * s - weight <= s / 2.0
  {
    Restores(code, weight, s);
    Scaled(code - weight / s, s);
  }

  /** Every weight of every row is restored to within half the scale: ties and clipping included, and also where the whole
      row is taken for zero. */
  lemma RowError(row: Row, weights: seq<real>, low: real, high: real, i: nat)
    requires IsRange(weights, low, high) && Quantizes(row, weights, low, high) && i < |weights|
    ensures -(row.scale / 2.0) <= Restored(row, i) - weights[i] <= row.scale / 2.0
  {
    hide Rint, Clip, Code;
    if high - low >= TINY {
      EntryError(low, high, weights[i], row.scale, row.zero, row.codes[i]);
    } else {
      assert Restored(row, i) == 0.0 && -TINY < weights[i] < TINY;
    }
  }

  /** Zero is restored exactly, in every row. */
  lemma ZeroIsExact(row: Row, weights: seq<real>, low: real, high: real, i: nat)
    requires IsRange(weights, low, high) && Quantizes(row, weights, low, high) && i < |weights| && weights[i] == 0.0
    ensures Restored(row, i) == 0.0
  {
    RintOfInt(0);
    if high - low >= TINY {
      assert 0.0 / row.scale == 0.0;
      assert row.codes[i] == row.zero;
    }
  }

  /** All codes are made use of: the least weight gets the code 0, and the greatest 255 or, where both ends round down, 254. */
  lemma CodesReachTheEnds(row: Row, weights: seq<real>, low: real, high: real, i: nat)
    requires IsRange(weights, low, high) && Quantizes(row, weights, low, high) && i < |weights| && high - low >= TINY
    ensures weights[i] == low ==> row.codes[i] == 0
    ensures weights[i] == high ==> row.codes[i] >= 254
  {
    hide Rint;
    var s := row.scale;
    InUnits(low, high, weights[i], s);
    Divided(low, high, weights[i], s);
    RintIsOdd(-low / s);
    RintOfInt(0);
    RintOfInt(255);
    RintIsMonotone(0.0, -low / s);
    RintIsMonotone(-low / s, 255.0);
    Negated(low, s);
    if weights[i] == high { assert Rint(high / s) as real + Rint(-low / s) as real >= 254.0; }
  }

  /** The upper clip does act: the row of -3/2 and 507/2 has the scale 1 and the zero point 2, its top ties up to 256 and loses the half. */
  lemma TheTopCanTie(row: Row)
    requires Quantizes(row, [-1.5, 253.5], -1.5, 253.5)
    ensures Rint(253.5 / row.scale) + row.zero == 256 && Restored(row, 1) == 253.5 - row.scale / 2.0
  {
    assert row.scale == 1.0;
    assert -(-1.5) / row.scale == 1.5 && 253.5 / row.scale == 253.5;
    assert Rint(1.5) == 2 && Rint(253.5) == 254;
    assert row.codes[1] == 255;
  }

  // ---------------------------------------------------------------- packing two zero points into a byte

  type Byte = b: int | 0 <= b < 256

  /** `low | (high << 4)` of two four-bit numbers. */
  function Merged(low: Byte, high: Byte): Byte
    requires low < 16 && high < 16
  {
    low + 16 * high
  }

  /** `byte & 15` and `byte >> 4`. */
  function LowHalf(byte: Byte): Byte { byte % 16 }

  function HighHalf(byte: Byte): Byte { byte / 16 }

  predicate FourBits(points: seq<Byte>) { forall i | 0 <= i < |points| :: points[i] < 16 }

  /** Two points a byte, the first one in the low half; the last of an odd number keeps its high half clear. */
  predicate Packs(bytes: seq<Byte>, points: seq<Byte>) {
    && |bytes| == (|points| + 1) / 2
    && (forall i | 0 <= i < |points| :: points[i] == if i % 2 == 0 then LowHalf(bytes[i / 2]) else HighHalf(bytes[i / 2]))
    && (|points| % 2 == 1 ==> HighHalf(bytes[|points| / 2]) == 0)
  }

  /** Both halves of every byte, the surplus one cut off. */
  function Unpacked(bytes: seq<Byte>, count: nat): seq<Byte>
    requires count <= 2 * |bytes|
  {
    seq(2 * |bytes|, i requires 0 <= i < 2 * |bytes| => if i % 2 == 0 then LowHalf(bytes[i / 2]) else HighHalf(bytes[i / 2]))[..count]
  }

  /**
   * Even entries are written first; odd ones are merged into the high halves of as many bytes as there are pairs.
   * Unpacking gives the zero points back, for an even and for an odd number of blocks.
   */
  method PackRow(points: seq<Byte>) returns (bytes: seq<Byte>)
    requires FourBits(points)
    ensures Packs(bytes, points) && Unpacked(bytes, |points|) == points
  {
    var n := (|points| + 1) / 2;
    bytes := seq(n, k requires 0 <= k < n => points[2 * k]);
    for k := 0 to |points| / 2
      invariant |bytes| == n
      invariant forall j | 0 <= j < k :: LowHalf(bytes[j]) == points[2 * j] && HighHalf(bytes[j]) == points[2 * j + 1]
      invariant forall j | k <= j < n :: bytes[j] == points[2 * j]
    {
      bytes := bytes[k := Merged(bytes[k], points[2 * k + 1])];
    }
    forall i | 0 <= i < |points| ensures points[i] == if i % 2 == 0 then LowHalf(bytes[i / 2]) else HighHalf(bytes[i / 2]) {
      assert i == 2 * (i / 2) + i % 2;
    }
  }

  /** Only one row of bytes packs a row of points. */
  lemma PackingIsUnique(points: seq<Byte>, one: seq<Byte>, other: seq<Byte>)
    requires Packs(one, points) && Packs(other, points)
    ensures one == other
  {
    forall k | 0 <= k < |one| ensures one[k] == other[k] {
      assert LowHalf(one[k]) == points[2 * k] == LowHalf(other[k]);
      if 2 * k + 1 < |points| {
        assert HighHalf(one[k]) == points[2 * k + 1] == HighHalf(other[k]);
      }
      assert one[k] == 16 * HighHalf(one[k]) + LowHalf(one[k]);
      assert other[k] == 16 * HighHalf(other[k]) + LowHalf(other[k]);
    }
  }
}
