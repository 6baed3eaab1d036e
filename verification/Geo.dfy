/** The geohash score (src/geo/geo_score.hpp): two cell numbers interleaved bit by bit. Coordinates are real numbers;
    rounding of doubles is not modelled. A 32-bit cell number is held in the low half of a 64-bit word. */
module Geo {

  const LAT_MIN: real := -85.05112878
  const LAT_MAX: real := 85.05112878
  const LON_MIN: real := -180.0
  const LON_MAX: real := 180.0
  const LAT_RANGE: real := LAT_MAX - LAT_MIN
  const LON_RANGE: real := LON_MAX - LON_MIN
  const GEO_STEP: nat := 0x400_0000

  // ---------------------------------------------------------------- words

  /** `spread`: five mask-and-shift rounds. */
  function Spread(v: bv64): (r: bv64) {
    var b := (v | (v << 16)) & 0x0000_FFFF_0000_FFFF;
    var c := (b | (b << 8)) & 0x00FF_00FF_00FF_00FF;
    var d := (c | (c << 4)) & 0x0F0F_0F0F_0F0F_0F0F;
    var e := (d | (d << 2)) & 0x3333_3333_3333_3333;
    (e | (e << 1)) & 0x5555_5555_5555_5555
  }

  function Unspread(x: bv64): (r: bv64) {
    var a := x & 0x5555_5555_5555_5555;
    var b := (a | (a >> 1)) & 0x3333_3333_3333_3333;
    var c := (b | (b >> 2)) & 0x0F0F_0F0F_0F0F_0F0F;
    var d := (c | (c >> 4)) & 0x00FF_00FF_00FF_00FF;
    var e := (d | (d >> 8)) & 0x0000_FFFF_0000_FFFF;
    (e | (e >> 16)) & 0x0000_0000_FFFF_FFFF
  }

  /** Latitude on the even bits, longitude on the odd ones. */
  function Interleave(lat: bv64, lon: bv64): (r: bv64) {
    Spread(lat) | (Spread(lon) << 1)
  }

  const WORD32: bv64 := 0xFFFF_FFFF

  lemma UnspreadInterleave(lat: bv64, lon: bv64)
    requires lat <= WORD32 && lon <= WORD32
    ensures Unspread(Interleave(lat, lon)) == lat && Unspread(Interleave(lat, lon) >> 1) == lon
  {}

  /** Below 2^52 exactly when both numbers are below 2^26. */
  lemma WordBelow(lat: bv64, lon: bv64)
    requires lat <= 0x400_0000 && lon <= 0x400_0000
    ensures Interleave(lat, lon) < 0x10_0000_0000_0000 <==> lat < 0x400_0000 && lon < 0x400_0000
  {}

  // ---------------------------------------------------------------- words as numbers

  function Bit(x: bv64): (b: nat)
    ensures b <= 1
  {
    if x & 1 == 1 then 1 else 0
  }

  function Half(x: bv64): (r: bv64) {
    x >> 1
  }

  /** The number in the low `k` bits. */
  function Number(x: bv64, k: nat): (n: nat) {
    if k == 0 then 0 else Bit(x) + 2 * Number(Half(x), k - 1)
  }

  function Double(x: bv64): (r: bv64) {
    x << 1
  }

  function AppendOne(x: bv64): (r: bv64) {
    (x << 1) | 1
  }

  function Append(x: bv64, b: nat): (r: bv64) {
    if b == 1 then AppendOne(x) else Double(x)
  }

  /** The word that holds a number. */
  function Word(n: nat): (x: bv64) {
    if n == 0 then 0 else Append(Word(n / 2), n % 2)
  }

  function Pow2(k: nat): (r: nat) {
    if k == 0 then 1 else 2 * Pow2(k - 1)
  }

  /** Bit-by-bit interleaving with zeros, on numbers. */
  function Morton(n: nat): (r: nat) {
    if n == 0 then 0 else n % 2 + 4 * Morton(n / 2)
  }

  lemma MortonStep(b: nat, n: nat)
    requires b <= 1
    ensures Morton(b + 2 * n) == b + 4 * Morton(n)
  {
    assert (b + 2 * n) / 2 == n && (b + 2 * n) % 2 == b;
  }

  predicate Is32(v: bv64) {
    v <= WORD32
  }

  lemma SpreadStep(v: bv64)
    requires Is32(v)
    ensures Bit(Spread(v)) == Bit(v) && Bit(Half(Spread(v))) == 0 && Half(Half(Spread(v))) == Spread(Half(v))
    ensures Is32(Half(v))
  {}

  /** The mask-and-shift rounds compute exactly the bit-by-bit interleaving. */
  lemma {:induction false} SpreadIsMorton(v: bv64, k: nat)
    requires Is32(v)
    ensures Number(Spread(v), 2 * k) == Morton(Number(v, k))
    decreases k
  {
    hide Spread, Bit, Half, Is32, Morton;
    if k > 0 {
      SpreadStep(v);
      SpreadIsMorton(Half(v), k - 1);
      MortonStep(Bit(v), Number(Half(v), k - 1));
      assert Number(Spread(v), 2 * k) == Bit(Spread(v)) + 2 * Number(Half(Spread(v)), 2 * k - 1);
      assert Number(Half(Spread(v)), 2 * k - 1) == 0 + 2 * Number(Half(Half(Spread(v))), 2 * k - 2);
    } else {
      MortonZero();
    }
  }

  lemma MortonZero()
    ensures Morton(0) == 0
  {}

  // ---------------------------------------------------------------- numbers up to 2^26 as words

  const POWERS: seq<bv64> :=
    [ 0x1, 0x2, 0x4, 0x8, 0x10, 0x20, 0x40, 0x80, 0x100, 0x200, 0x400, 0x800, 0x1000, 0x2000, 0x4000,
      0x8000, 0x10000, 0x20000, 0x40000, 0x80000, 0x100000, 0x200000, 0x400000, 0x800000, 0x1000000,
      0x2000000, 0x4000000 ]

  function Power(k: nat): (x: bv64)
    requires k <= 26
  {
    POWERS[k]
  }

  lemma PowersDouble(k: nat)
    requires k < 26
    ensures Power(k + 1) == Double(Power(k)) && WordLess(Power(k), 0x200_0001)
  {
    hide Power, Double, WordLess;
    if k < 13 { LowPowersDouble(k); } else { HighPowersDouble(k); }
  }

  lemma LowPowersDouble(k: nat)
    requires k < 13
    ensures Power(k + 1) == Double(Power(k)) && WordLess(Power(k), 0x200_0001)
  {
    if k == 0 {
    } else if k == 1 {
    } else if k == 2 {
    } else if k == 3 {
    } else if k == 4 {
    } else if k == 5 {
    } else if k == 6 {
    } else if k == 7 {
    } else if k == 8 {
    } else if k == 9 {
    } else if k == 10 {
    } else if k == 11 {
    } else if k == 12 {
    }
  }

  lemma HighPowersDouble(k: nat)
    requires 13 <= k < 26
    ensures Power(k + 1) == Double(Power(k)) && WordLess(Power(k), 0x200_0001)
  {
    if k == 13 {
    } else if k == 14 {
    } else if k == 15 {
    } else if k == 16 {
    } else if k == 17 {
    } else if k == 18 {
    } else if k == 19 {
    } else if k == 20 {
    } else if k == 21 {
    } else if k == 22 {
    } else if k == 23 {
    } else if k == 24 {
    } else if k == 25 {
    }
  }

  predicate WordLess(x: bv64, y: bv64) {
    x < y
  }

  lemma DoubleBelow(x: bv64, p: bv64)
    requires WordLess(x, p) && WordLess(p, 0x200_0001)
    ensures WordLess(Double(x), Double(p)) && WordLess(AppendOne(x), Double(p))
  {}

  lemma ZeroWord()
    ensures Word(0) == 0
  {}

  lemma WordStep(n: nat)
    ensures Word(n) == Append(Word(n / 2), n % 2)
  {}

  lemma NextBound(n: nat, k: nat)
    requires 0 < k <= 26 && WordLess(Word(n / 2), Power(k - 1))
    ensures WordLess(Word(n), Power(k))
  {
    hide Word, Power, WordLess, AppendOne, Double;
    PowersDouble(k - 1);
    WordStep(n);
    DoubleBelow(Word(n / 2), Power(k - 1));
  }

  lemma {:induction false} WordBound(n: nat, k: nat)
    requires k <= 26 && n < Pow2(k)
    ensures WordLess(Word(n), Power(k))
    decreases k
  {
    hide Word;
    if k == 0 {
      ZeroWord();
    } else {
      WordBound(n / 2, k - 1);
      NextBound(n, k);
    }
  }

  lemma {:induction false} WordOfPower(k: nat)
    requires k <= 26
    ensures Word(Pow2(k)) == Power(k)
    decreases k
  {
    if k > 0 {
      PowersDouble(k - 1);
      WordOfPower(k - 1);
      assert Pow2(k) / 2 == Pow2(k - 1) && Pow2(k) % 2 == 0;
      AppendZero(Word(Pow2(k - 1)));
    }
  }

  lemma AppendZero(x: bv64)
    ensures Append(x, 0) == Double(x)
  {}

  lemma StepIs26()
    ensures Pow2(26) == GEO_STEP && Pow2(32) == 0x1_0000_0000
  {
    assert Pow2(8) == 256;
    assert Pow2(16) == 65536;
    assert Pow2(24) == 0x100_0000;
  }

  lemma WordRange(n: nat)
    requires n <= GEO_STEP
    ensures Word(n) <= 0x400_0000 && (Word(n) < 0x400_0000 <==> n < GEO_STEP)
  {
    StepIs26();
    if n < GEO_STEP {
      WordBound(n, 26);
    } else {
      WordOfPower(26);
    }
  }

  predicate Small(x: bv64) {
    x <= 0x400_0000
  }

  lemma WordSmall(n: nat)
    requires n <= GEO_STEP
    ensures Small(Word(n))
  {
    WordRange(n);
  }

  lemma ShiftIn(x: bv64)
    requires Small(x)
    ensures Half(AppendOne(x)) == x && Half(Double(x)) == x && Bit(AppendOne(x)) == 1 && Bit(Double(x)) == 0
  {}

  lemma HalfWord(n: nat)
    requires n <= GEO_STEP
    ensures Half(Word(n)) == Word(n / 2) && Bit(Word(n)) == n % 2
  {
    hide Word, AppendOne, Double, Bit, Half, Small;
    WordSmall(n / 2);
    WordStep(n);
    ShiftIn(Word(n / 2));
  }

  /** The word of a cell number holds that number. */
  lemma {:induction false} NumberOfWord(n: nat, k: nat)
    requires n <= GEO_STEP && n < Pow2(k)
    ensures Number(Word(n), k) == n
    decreases k
  {
    hide Word, Bit, Half;
    if k > 0 {
      NumberOfWord(n / 2, k - 1);
      HalfWord(n);
    }
  }

  // ---------------------------------------------------------------- cells

  /** Number of the cell a coordinate falls into; the cast truncates. */
  function Cell(x: real, low: real, range: real): (n: int)
    requires range > 0.0
  {
    (GEO_STEP as real * (x - low) / range).Floor
  }

  /** Centre of a cell. */
  function Centre(n: int, low: real, range: real): (x: real) {
    (n as real + 0.5) * range / GEO_STEP as real + low
  }

  lemma CellRange(x: real, low: real, range: real)
    requires range > 0.0 && low <= x <= low + range
    ensures 0 <= Cell(x, low, range) <= GEO_STEP
    ensures Cell(x, low, range) < GEO_STEP <==> x < low + range
  {
    var u := GEO_STEP as real * (x - low) / range;
    assert u * range == GEO_STEP as real * (x - low);
    assert 0.0 <= u <= GEO_STEP as real;
    assert u < GEO_STEP as real <==> x < low + range;
  }

  lemma Scaled(t: real, w: real)
    requires w > 0.0 && -0.5 <= t <= 0.5
    ensures -0.5 * w <= t * w <= 0.5 * w
  {}

  lemma CentreOffset(x: real, n: int, u: real, low: real, range: real)
    requires range > 0.0 && u * range == GEO_STEP as real * (x - low)
    ensures Centre(n, low, range) - x == (n as real + 0.5 - u) * (range / GEO_STEP as real)
  {
    var w := range / GEO_STEP as real;
    assert u * w == x - low;
    assert (n as real + 0.5) * range / GEO_STEP as real == (n as real + 0.5) * w;
  }

  lemma CellBelow(x: real, low: real, range: real) returns (u: real)
    requires range > 0.0
    ensures u * range == GEO_STEP as real * (x - low)
    ensures Cell(x, low, range) as real <= u < Cell(x, low, range) as real + 1.0
  {
    u := GEO_STEP as real * (x - low) / range;
  }

  /** The centre of a coordinate's cell is at most half a cell away. */
  lemma CentreIsNear(x: real, low: real, range: real)
    requires range > 0.0
    ensures var d := Centre(Cell(x, low, range), low, range) - x;
      -0.5 * (range / GEO_STEP as real) <= d <= 0.5 * (range / GEO_STEP as real)
  {
    hide Cell, Centre;
    var n := Cell(x, low, range);
    var u := CellBelow(x, low, range);
    CentreOffset(x, n, u, low, range);
    Scaled(n as real + 0.5 - u, range / GEO_STEP as real);
  }

  // ---------------------------------------------------------------- the codec

  predicate InRange(lat: real, lon: real) {
    LAT_MIN <= lat <= LAT_MAX && LON_MIN <= lon <= LON_MAX
  }

  lemma CellsInRange(lat: real, lon: real)
    requires InRange(lat, lon)
    ensures 0 <= Cell(lat, LAT_MIN, LAT_RANGE) <= GEO_STEP && 0 <= Cell(lon, LON_MIN, LON_RANGE) <= GEO_STEP
  {
    CellRange(lat, LAT_MIN, LAT_RANGE);
    CellRange(lon, LON_MIN, LON_RANGE);
  }

  function Encode(lat: real, lon: real): (score: bv64)
    requires InRange(lat, lon)
  {
    CellsInRange(lat, lon);
    Interleave(Word(Cell(lat, LAT_MIN, LAT_RANGE)), Word(Cell(lon, LON_MIN, LON_RANGE)))
  }

  datatype Coordinates = Coordinates(lat: real, lon: real)

  function Decode(score: bv64): (r: Coordinates) {
    Coordinates(Centre(Number(Unspread(score), 32), LAT_MIN, LAT_RANGE),
                Centre(Number(Unspread(score >> 1), 32), LON_MIN, LON_RANGE))
  }

  /** Decoding recovers both cell numbers. */
  lemma CellsRecovered(lat: real, lon: real)
    requires InRange(lat, lon)
    ensures var score := Encode(lat, lon);
      Number(Unspread(score), 32) == Cell(lat, LAT_MIN, LAT_RANGE) &&
      Number(Unspread(score >> 1), 32) == Cell(lon, LON_MIN, LON_RANGE)
  {
    hide Interleave, Unspread, Cell, Number, Word;
    CellsInRange(lat, lon);
    var a: nat, b: nat := Cell(lat, LAT_MIN, LAT_RANGE), Cell(lon, LON_MIN, LON_RANGE);
    WordRange(a);
    WordRange(b);
    UnspreadInterleave(Word(a), Word(b));
    StepIs26();
    NumberOfWord(a, 32);
    NumberOfWord(b, 32);
  }

  /** Decoding an encoded position gives, on each axis, a point at most half a cell away. */
  lemma GeoRoundTrip(lat: real, lon: real)
    requires InRange(lat, lon)
    ensures var p := Decode(Encode(lat, lon));
      -0.5 * (LAT_RANGE / GEO_STEP as real) <= p.lat - lat <= 0.5 * (LAT_RANGE / GEO_STEP as real) &&
      -0.5 * (LON_RANGE / GEO_STEP as real) <= p.lon - lon <= 0.5 * (LON_RANGE / GEO_STEP as real)
  {
    hide Encode, Unspread, Cell, Centre, Number;
    CellsRecovered(lat, lon);
    CentreIsNear(lat, LAT_MIN, LAT_RANGE);
    CentreIsNear(lon, LON_MIN, LON_RANGE);
  }

  /** The score fits in 52 bits, so that a double holds it exactly, if and only if both coordinates lie strictly
      below their maxima. */
  lemma ScoreFits(lat: real, lon: real)
    requires InRange(lat, lon)
    ensures Encode(lat, lon) < 0x10_0000_0000_0000 <==> lat < LAT_MAX && lon < LON_MAX
  {
    hide Interleave, Cell, Word;
    CellRange(lat, LAT_MIN, LAT_RANGE);
    CellRange(lon, LON_MIN, LON_RANGE);
    WordRange(Cell(lat, LAT_MIN, LAT_RANGE));
    WordRange(Cell(lon, LON_MIN, LON_RANGE));
    WordBelow(Word(Cell(lat, LAT_MIN, LAT_RANGE)), Word(Cell(lon, LON_MIN, LON_RANGE)));
  }
}
