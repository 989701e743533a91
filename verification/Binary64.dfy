/** The software conversion of Float64_t to and from the binary64 interchange format (section 3.4 of IEEE Std
    754-2008), over exact reals: `exp2l` is Pow2 and `floorl(log2l(x))` is FloorLog2. */
module Binary64 {
  import opened Schema

  // ---------------------------------------------------------------- powers of two

  function Pow2(e: int): (r: real)
    ensures r > 0.0
    decreases if e < 0 then -e else e
  {
    if e == 0 then 1.0 else if e > 0 then 2.0 * Pow2(e - 1) else Pow2(e + 1) / 2.0
  }

  lemma Pow2Next(e: int)
    ensures Pow2(e + 1) == 2.0 * Pow2(e)
  {
  }

  lemma {:induction false} Pow2Grows(d: int, e: int)
    requires d <= e
    ensures Pow2(d) <= Pow2(e)
    decreases e - d
  {
    if d < e {
      Pow2Grows(d, e - 1);
      Pow2Next(e - 1);
    }
  }

  /** The exponent of a positive real: Pow2(e) <= x < Pow2(e + 1). */
  function FloorLog2(x: real): (e: int)
    requires x > 0.0
    ensures Pow2(e) <= x < Pow2(e + 1)
    decreases x < 1.0, if x < 1.0 then (1.0 / x).Floor else x.Floor
  {
    if x >= 2.0 then
      var e := FloorLog2(x / 2.0);
      Pow2Next(e);
      Pow2Next(e + 1);
      e + 1
    else if x >= 1.0 then
      Pow2Next(0);
      0
    else
      Halving(x);
      var e := FloorLog2(2.0 * x);
      Pow2Next(e - 1);
      Pow2Next(e);
      e - 1
  }

  lemma Halving(x: real)
    requires 0.0 < x < 1.0
    ensures (1.0 / (2.0 * x)).Floor < (1.0 / x).Floor
    ensures (1.0 / x).Floor >= 0 && (1.0 / (2.0 * x)).Floor >= 0
  {
    var y := 1.0 / x;
    assert y * x == 1.0;
    assert y > 1.0;
    assert 1.0 / (2.0 * x) == y / 2.0;
  }

  lemma ExponentUnique(x: real, d: int, e: int)
    requires Pow2(d) <= x < Pow2(d + 1) && Pow2(e) <= x < Pow2(e + 1)
    ensures d == e
  {
    if d < e {
      Pow2Grows(d + 1, e);
    } else if e < d {
      Pow2Grows(e + 1, d);
    }
  }

  // ---------------------------------------------------------------- the conversion

  /** A Float64_t: a finite value keeps the sign of zero. */
  datatype Float = NaN(neg: bool) | Infinite(neg: bool) | Finite(neg: bool, mag: real)

  const EXP_NAN := 1024
  const EXP_MAX := 1023
  const EXP_SUB := -1023
  const EXP_MIN := -1022
  const BIAS := 1023
  const MNT_BASE := 0x10_0000_0000_0000
  const SIGN_BIT := 0x8000_0000_0000_0000

  /** MNT_BASE as a real. */
  function Base(): (b: real)
    ensures b > 0.0
  {
    MNT_BASE as real
  }

  function Word(neg: bool, exp: int, mnt: nat): nat
    requires EXP_SUB <= exp <= EXP_NAN && mnt < MNT_BASE
  {
    (if neg then SIGN_BIT else 0) + (exp + BIAS) * MNT_BASE + mnt
  }

  /** Build: None when the number is too big. */
  function Encode(x: Float): (w: Option<nat>)
    requires x.Finite? ==> x.mag >= 0.0
  {
    match x
    case NaN(neg) => Some(Word(neg, EXP_NAN, 1))
    case Infinite(neg) => Some(Word(neg, EXP_NAN, 0))
    case Finite(neg, mag) =>
      if mag == 0.0 then Some(Word(neg, EXP_SUB, 0)) else
      var exp := FloorLog2(mag);
      if exp > EXP_MAX then None
      else if exp >= EXP_MIN then Some(Word(neg, exp, NormalMantissa(mag, exp)))
      else
        Pow2Grows(exp + 1, EXP_MIN);
        Some(Word(neg, EXP_SUB, SubnormalMantissa(mag)))
  }

  /** norm * 2^52 with norm = mag / p. */
  function Units(mag: real, p: real): real
    requires p > 0.0
  {
    mag / p * Base()
  }

  /** floor(norm * 2^52 - 2^52) with norm = mag / 2^exp. */
  function NormalMantissa(mag: real, exp: int): (mnt: nat)
    requires Pow2(exp) <= mag < Pow2(exp + 1)
    ensures mnt < MNT_BASE
  {
    UnitsBounds(mag, Pow2(exp));
    Pow2Next(exp);
    (Units(mag, Pow2(exp)) - Base()).Floor
  }

  /** floor(norm * 2^52) with norm = mag / 2^-1022; zero is kept for the number zero. */
  function SubnormalMantissa(mag: real): (mnt: nat)
    requires 0.0 < mag < Pow2(EXP_MIN)
    ensures 0 < mnt < MNT_BASE
  {
    UnitsBounds(mag, Pow2(EXP_MIN));
    var mnt := Units(mag, Pow2(EXP_MIN)).Floor;
    if mnt == 0 then 1 else mnt
  }

  /** exp2l(exp) * n / 2^52. */
  function Scale(p: real, n: nat): real { p * (n as real / Base()) }

  // Inequalities between products and quotients of reals.

  lemma LessScaled(a: real, b: real, p: real)
    requires p > 0.0 && a < b
    ensures a * p < b * p
  {
    assert (b - a) * p > 0.0;
  }

  lemma QuotientBounds(x: real, p: real, k: real)
    requires p > 0.0
    ensures k * p <= x <==> k <= x / p
  {
    var q := x / p;
    assert q * p == x;
    if q < k {
      LessScaled(q, k, p);
    } else if k < q {
      LessScaled(k, q, p);
    }
  }

  lemma ScaledByFraction(p: real, x: real, base: real)
    requires p > 0.0 && base > 0.0 && x >= 0.0
    ensures base <= x < 2.0 * base ==> p <= p * (x / base) < 2.0 * p
    ensures 0.0 < x < base ==> 0.0 < p * (x / base) < p
    ensures x == 0.0 ==> p * (x / base) == 0.0
    ensures p * (x / base) >= 0.0
  {
    var f := x / base;
    QuotientBounds(x, base, 1.0);
    QuotientBounds(x, base, 2.0);
    QuotientBounds(x, base, 0.0);
    Products(p, f);
  }

  lemma Products(p: real, f: real)
    requires p > 0.0 && f >= 0.0
    ensures p * f >= 0.0 && (f == 0.0 ==> p * f == 0.0)
    ensures 1.0 <= f < 2.0 ==> p <= p * f < 2.0 * p
    ensures 0.0 < f < 1.0 ==> 0.0 < p * f < p
  {
    if 1.0 < f {
      LessScaled(1.0, f, p);
    }
    if f < 2.0 {
      LessScaled(f, 2.0, p);
    }
    if f < 1.0 {
      LessScaled(f, 1.0, p);
    }
  }

  lemma UnitsOfProduct(p: real, x: real, base: real)
    requires p > 0.0 && base > 0.0
    ensures p * (x / base) / p * base == x
  {
    var f := x / base;
    assert p * f / p == f;
    assert f * base == x;
  }

  lemma ProductWithUnits(mag: real, p: real, base: real)
    requires p > 0.0
    ensures mag / p * base * p == mag * base
  {
    var q := mag / p;
    assert q * p == mag;
    assert q * base * p == q * p * base;
  }

  lemma ProductWithBase(p: real, x: real, base: real)
    requires base > 0.0
    ensures p * (x / base) * base == x * p
  {
    var f := x / base;
    assert f * base == x;
    assert p * f * base == p * (f * base);
  }

  // The same for Units and Scale.

  lemma UnitsBounds(mag: real, p: real)
    requires p > 0.0 && mag > 0.0
    ensures Units(mag, p) > 0.0
    ensures p <= mag < 2.0 * p ==> Base() <= Units(mag, p) < 2.0 * Base()
    ensures mag < p ==> Units(mag, p) < Base()
  {
    hide Base;
    QuotientBounds(mag, p, 1.0);
    QuotientBounds(mag, p, 2.0);
    Products(Base(), mag / p);
    assert mag / p > 0.0;
  }

  lemma BaseCompared(n: nat)
    ensures MNT_BASE <= n < 2 * MNT_BASE ==> Base() <= n as real < 2.0 * Base()
    ensures 0 < n < MNT_BASE ==> 0.0 < n as real < Base()
  {
  }

  lemma ScaleBounds(p: real, n: nat)
    requires p > 0.0
    ensures MNT_BASE <= n < 2 * MNT_BASE ==> p <= Scale(p, n) < 2.0 * p
    ensures 0 < n < MNT_BASE ==> 0.0 < Scale(p, n) < p
    ensures n == 0 ==> Scale(p, n) == 0.0
    ensures Scale(p, n) >= 0.0
  {
    hide Base;
    BaseCompared(n);
    ScaledByFraction(p, n as real, Base());
  }

  lemma UnitsOfScale(p: real, n: nat)
    requires p > 0.0
    ensures Units(Scale(p, n), p) == n as real
  {
    hide Base;
    UnitsOfProduct(p, n as real, Base());
  }

  /** Parse of a 64-bit word. */
  function Decode(w: nat): (x: Float)
    requires w < UINT64_LIMIT
    ensures x.Finite? ==> x.mag >= 0.0
  {
    ScaleBounds(Pow2(EXP_MIN), w % MNT_BASE);
    var neg, exp, mnt := w >= SIGN_BIT, w / MNT_BASE % 2048 - BIAS, w % MNT_BASE;
    if exp == EXP_NAN then
      if mnt == 0 then Infinite(neg) else NaN(neg)
    else if exp == EXP_SUB then Finite(neg, Scale(Pow2(EXP_MIN), mnt))
    else Finite(neg, Scale(Pow2(exp), mnt + MNT_BASE))
  }

  // ---------------------------------------------------------------- decode, then encode

  /** The parts of a word. */
  lemma WordParts(w: nat)
    requires w < UINT64_LIMIT
    ensures w == Word(w >= SIGN_BIT, w / MNT_BASE % 2048 - BIAS, w % MNT_BASE)
  {
    var q := w / MNT_BASE;
    assert q < 4096;
    assert q % 2048 == if q >= 2048 then q - 2048 else q;
  }

  lemma NormalMagnitude(exp: int, mnt: nat)
    requires mnt < MNT_BASE
    ensures var mag := Scale(Pow2(exp), mnt + MNT_BASE);
            mag > 0.0 && FloorLog2(mag) == exp && NormalMantissa(mag, exp) == mnt
  {
    hide Pow2, FloorLog2, Scale, Units;
    var mag := Scale(Pow2(exp), mnt + MNT_BASE);
    ScaleBounds(Pow2(exp), mnt + MNT_BASE);
    UnitsOfScale(Pow2(exp), mnt + MNT_BASE);
    Pow2Next(exp);
    ExponentUnique(mag, FloorLog2(mag), exp);
  }

  lemma SubnormalMagnitude(mnt: nat)
    requires 0 < mnt < MNT_BASE
    ensures var mag := Scale(Pow2(EXP_MIN), mnt);
            0.0 < mag < Pow2(EXP_MIN) && FloorLog2(mag) < EXP_MIN && SubnormalMantissa(mag) == mnt
  {
    hide Pow2, FloorLog2, Scale, Units;
    ScaleBounds(Pow2(EXP_MIN), mnt);
    UnitsOfScale(Pow2(EXP_MIN), mnt);
    BelowExponent(Scale(Pow2(EXP_MIN), mnt), EXP_MIN);
  }

  lemma BelowExponent(x: real, e: int)
    requires 0.0 < x < Pow2(e)
    ensures FloorLog2(x) < e
  {
    hide FloorLog2, Pow2;
    if FloorLog2(x) >= e {
      Pow2Grows(e, FloorLog2(x));
    }
  }

  /** Every word comes back from its number, except that all NaN words of one sign come back as one of them. */
  lemma DecodeThenEncode(w: nat)
    requires w < UINT64_LIMIT
    ensures Encode(Decode(w)) == Some(w) <==> !(w / MNT_BASE % 2048 == 2047 && w % MNT_BASE > 1)
  {
    var neg, exp, mnt := w >= SIGN_BIT, w / MNT_BASE % 2048 - BIAS, w % MNT_BASE;
    WordParts(w);
    PartsOfWord(neg, EXP_NAN, 1);
    hide Pow2, FloorLog2, Scale, Word, NormalMantissa, SubnormalMantissa;
    if EXP_MIN <= exp <= EXP_MAX {
      NormalMagnitude(exp, mnt);
    } else if exp == EXP_SUB && mnt > 0 {
      SubnormalMagnitude(mnt);
    } else if exp == EXP_SUB {
      ScaleBounds(Pow2(EXP_MIN), 0);
    }
  }

  // ---------------------------------------------------------------- encode, then decode

  lemma PartsOfWord(neg: bool, exp: int, mnt: nat)
    requires EXP_SUB <= exp <= EXP_NAN && mnt < MNT_BASE
    ensures var w := Word(neg, exp, mnt);
            w < UINT64_LIMIT && (w >= SIGN_BIT <==> neg) && w / MNT_BASE % 2048 - BIAS == exp && w % MNT_BASE == mnt
  {
    var w := Word(neg, exp, mnt);
    var q := (if neg then 2048 else 0) + exp + BIAS;
    assert w == q * MNT_BASE + mnt;
    assert w / MNT_BASE == q && w % MNT_BASE == mnt;
  }

  /** In the normal range the decoded number is below the encoded one by less than a 2^-52 part of it. */
  lemma EncodeThenDecode(neg: bool, mag: real)
    requires Pow2(EXP_MIN) <= mag < Pow2(EXP_MAX + 1)
    ensures Encode(Finite(neg, mag)).Some? && Encode(Finite(neg, mag)).value < UINT64_LIMIT
    ensures var x := Decode(Encode(Finite(neg, mag)).value);
            && x.Finite? && x.neg == neg
            && 0.0 <= mag - x.mag && (mag - x.mag) * Base() < mag
  {
    hide Pow2, FloorLog2, Scale, Units, Word;
    var e := FloorLog2(mag);
    InNormalRange(mag);
    var mnt := NormalMantissa(mag, e);
    PartsOfWord(neg, e, mnt);
    Pow2Next(e);
    Truncation(mag, Pow2(e), mnt);
  }

  lemma InNormalRange(mag: real)
    requires Pow2(EXP_MIN) <= mag < Pow2(EXP_MAX + 1)
    ensures EXP_MIN <= FloorLog2(mag) <= EXP_MAX
  {
    hide Pow2, FloorLog2;
    var e := FloorLog2(mag);
    if e < EXP_MIN {
      Pow2Grows(e + 1, EXP_MIN);
    }
    BelowExponent(mag, EXP_MAX + 1);
  }

  /** Cutting off the fraction of the units of `p` costs less than one unit. */
  lemma Truncation(mag: real, p: real, mnt: nat)
    requires 0.0 < p <= mag
    requires 0.0 <= Units(mag, p) - (mnt + MNT_BASE) as real < 1.0
    ensures var y := Scale(p, mnt + MNT_BASE); 0.0 <= mag - y && (mag - y) * Base() < mag
  {
    hide Base;
    var n := mnt + MNT_BASE;
    ProductWithUnits(mag, p, Base());
    ProductWithBase(p, n as real, Base());
    LessThanOneUnit(mag, Scale(p, n), Units(mag, p), n as real, p, Base());
  }

  lemma LessThanOneUnit(mag: real, y: real, u: real, n: real, p: real, base: real)
    requires 0.0 < p <= mag && base > 0.0 && 0.0 <= u - n < 1.0 && mag * base == u * p && y * base == n * p
    ensures 0.0 <= mag - y && (mag - y) * base < mag
  {
    var d, v := mag - y, u - n;
    assert d * base == v * p;
    LessScaled(v, 1.0, p);
    assert v * p >= 0.0;
    if d < 0.0 {
      LessScaled(d, 0.0, base);
    }
  }

  /** A number is refused exactly when it is too big for the format, and only zero becomes zero. */
  lemma EncodeTotal(neg: bool, mag: real)
    requires mag >= 0.0
    ensures Encode(Finite(neg, mag)).None? <==> mag >= Pow2(EXP_MAX + 1)
    ensures var w := Encode(Finite(neg, mag)); w.Some? ==> (w.value % SIGN_BIT == 0 <==> mag == 0.0)
  {
    hide Pow2, FloorLog2, NormalMantissa, SubnormalMantissa;
    if mag > 0.0 {
      var e := FloorLog2(mag);
      if e > EXP_MAX {
        Pow2Grows(EXP_MAX + 1, e);
      } else {
        Pow2Grows(e + 1, EXP_MAX + 1);
      }
    }
  }

  // ---------------------------------------------------------------- order

  lemma UnitsMonotone(a: real, b: real, p: real)
    requires p > 0.0 && a <= b
    ensures Units(a, p) <= Units(b, p)
  {
    hide Base;
    QuotientBounds(b, p, a / p);
    assert a / p * p == a;
    var x, y := a / p, b / p;
    if x < y {
      LessScaled(x, y, Base());
    }
  }

  lemma ExponentMonotone(a: real, b: real)
    requires 0.0 < a <= b
    ensures FloorLog2(a) <= FloorLog2(b)
  {
    hide Pow2, FloorLog2;
    if FloorLog2(a) > FloorLog2(b) {
      Pow2Grows(FloorLog2(b) + 1, FloorLog2(a));
    }
  }

  /** The words of positive numbers are in the order of the numbers. */
  lemma EncodeMonotone(a: real, b: real)
    requires 0.0 < a <= b && b < Pow2(EXP_MAX + 1)
    ensures Encode(Finite(false, a)).Some? && Encode(Finite(false, b)).Some?
    ensures Encode(Finite(false, a)).value <= Encode(Finite(false, b)).value
  {
    hide Pow2, FloorLog2, Units;
    EncodeTotal(false, a);
    EncodeTotal(false, b);
    ExponentMonotone(a, b);
    var d, e := FloorLog2(a), FloorLog2(b);
    if d == e && d >= EXP_MIN {
      UnitsMonotone(a, b, Pow2(d));
    } else if e < EXP_MIN {
      UnitsMonotone(a, b, Pow2(EXP_MIN));
    }
  }

  /** Some words of section 3.4 of IEEE Std 754-2008: 1, -2, the infinities, the zeros, and the smallest number, which
      is 2^-1022 divided by 2^52. */
  lemma KnownWords()
    ensures Decode(0x3ff0_0000_0000_0000) == Finite(false, 1.0)
    ensures Decode(0xc000_0000_0000_0000) == Finite(true, 2.0)
    ensures Decode(0x7ff0_0000_0000_0000) == Infinite(false) && Decode(0xfff0_0000_0000_0000) == Infinite(true)
    ensures Decode(0) == Finite(false, 0.0) && Decode(0x8000_0000_0000_0000) == Finite(true, 0.0)
    ensures var x := Decode(1); x.Finite? && !x.neg && x.mag * (0x10_0000_0000_0000 as real) == Pow2(-1022)
  {
    assert Pow2(0) == 1.0 && Pow2(1) == 2.0;
    BaseScales(Pow2(0));
    BaseScales(Pow2(1));
    BaseScales(Pow2(-1022));
    hide Pow2, Scale, Base;
  }

  lemma BaseScales(p: real)
    ensures Scale(p, MNT_BASE) == p && Scale(p, 0) == 0.0
    ensures Scale(p, 1) * (0x10_0000_0000_0000 as real) == p
  {
    Ratio(p, Base());
  }

  lemma Ratio(p: real, base: real)
    requires base > 0.0
    ensures p * (base / base) == p && p * (0.0 / base) == 0.0 && p * (1.0 / base) * base == p
  {
    assert base / base == 1.0 && 0.0 / base == 0.0;
    assert 1.0 / base * base == 1.0;
  }
}
