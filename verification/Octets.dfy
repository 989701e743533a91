/** Octets, byte orders and bit masks: what `cpu_to_net*`, `cpu_to_le64` and `&` do to the values
    that the library moves in and out of a message. */
module Octets {
  type Octet = x: int | 0 <= x < 256

  function Pow256(w: nat): (r: nat)
    ensures r > 0
  {
    if w == 0 then 1 else 256 * Pow256(w - 1)
  }

  lemma Pow256Values()
    ensures Pow256(1) == 0x100 && Pow256(2) == 0x1_0000 && Pow256(4) == 0x1_0000_0000
    ensures Pow256(6) == 0x1_0000_0000_0000 && Pow256(8) == 0x1_0000_0000_0000_0000
  {
    assert Pow256(2) == 256 * Pow256(1);
    assert Pow256(4) == 256 * 256 * Pow256(2);
    assert Pow256(6) == 256 * 256 * Pow256(4);
    assert Pow256(8) == 256 * 256 * Pow256(6);
  }

  lemma SmallMod(n: nat, m: nat)
    requires n < m
    ensures n % m == n
  {
  }

  lemma OneMore(m: nat, k: int)
    ensures m * (k + 1) == m * k + m
  {
  }

  /** Network order: the most significant octet first. */
  function BigEndian(w: nat, n: nat): (b: seq<Octet>)
    ensures |b| == w
  {
    if w == 0 then [] else BigEndian(w - 1, n / 256) + [n % 256]
  }

  function FromBigEndian(b: seq<Octet>): nat {
    if b == [] then 0 else 256 * FromBigEndian(b[..|b| - 1]) + b[|b| - 1]
  }

  lemma {:induction false} BigEndianRoundTrip(w: nat, n: nat)
    requires n < Pow256(w)
    ensures FromBigEndian(BigEndian(w, n)) == n
  {
    if w > 0 {
      BigEndianRoundTrip(w - 1, n / 256);
      var b := BigEndian(w, n);
      assert b[..|b| - 1] == BigEndian(w - 1, n / 256);
    }
  }

  lemma {:induction false} FromBigEndianRoundTrip(b: seq<Octet>)
    ensures FromBigEndian(b) < Pow256(|b|)
    ensures BigEndian(|b|, FromBigEndian(b)) == b
  {
    if b != [] {
      FromBigEndianRoundTrip(b[..|b| - 1]);
      assert b == b[..|b| - 1] + [b[|b| - 1]];
    }
  }

  lemma HighAndLow(n: nat, h: nat, low: nat)
    requires n == 256 * h + low
    ensures n / 256 == h + low / 256 && n % 256 == low % 256
  {
  }

  /** Octets of the low part follow octets of the high part. */
  lemma {:induction false} BigEndianSplit(v: nat, w: nat, high: nat, low: nat)
    requires low < Pow256(w)
    ensures BigEndian(v, high) + BigEndian(w, low) == BigEndian(v + w, high * Pow256(w) + low)
  {
    if w == 0 {
      assert BigEndian(v, high) + [] == BigEndian(v, high);
    } else {
      BigEndianSplit(v, w - 1, high, low / 256);
      var n, h := high * Pow256(w) + low, high * Pow256(w - 1);
      assert high * Pow256(w) == 256 * h;
      HighAndLow(n, h, low);
      assert BigEndian(v, high) + BigEndian(w, low)
          == (BigEndian(v, high) + BigEndian(w - 1, low / 256)) + [low % 256];
    }
  }

  /** Little-endian order, used only by the counters of PORT_STATS_NP. */
  function LittleEndian(w: nat, n: nat): (b: seq<Octet>)
    ensures |b| == w
  {
    if w == 0 then [] else [n % 256] + LittleEndian(w - 1, n / 256)
  }

  function FromLittleEndian(b: seq<Octet>): nat {
    if b == [] then 0 else b[0] + 256 * FromLittleEndian(b[1..])
  }

  lemma {:induction false} LittleEndianRoundTrip(w: nat, n: nat)
    requires n < Pow256(w)
    ensures FromLittleEndian(LittleEndian(w, n)) == n
  {
    if w > 0 {
      LittleEndianRoundTrip(w - 1, n / 256);
      assert LittleEndian(w, n)[1..] == LittleEndian(w - 1, n / 256);
    }
  }

  lemma LowOctet(x: Octet, n: nat)
    ensures (x + 256 * n) % 256 == x && (x + 256 * n) / 256 == n
  {
  }

  lemma {:induction false} FromLittleEndianRoundTrip(b: seq<Octet>)
    ensures FromLittleEndian(b) < Pow256(|b|)
    ensures LittleEndian(|b|, FromLittleEndian(b)) == b
  {
    if b != [] {
      FromLittleEndianRoundTrip(b[1..]);
      var n := FromLittleEndian(b[1..]);
      LowOctet(b[0], n);
      assert b == [b[0]] + b[1..];
    }
  }

  /** Bitwise and. */
  function And(x: nat, mask: nat): (r: nat)
    ensures r <= x && r <= mask
  {
    if x == 0 then 0 else 2 * And(x / 2, mask / 2) + (x % 2) * (mask % 2)
  }

  lemma {:induction false} AndIdempotent(x: nat, mask: nat)
    ensures And(And(x, mask), mask) == And(x, mask)
  {
    if x != 0 {
      AndIdempotent(x / 2, mask / 2);
      var r := And(x, mask);
      assert r / 2 == And(x / 2, mask / 2) && r % 2 == (x % 2) * (mask % 2);
      assert (r % 2) * (mask % 2) == r % 2;
      if r == 0 {
        assert And(x / 2, mask / 2) == 0;
      }
    }
  }

  // ---------------------------------------------------------------- what the octets and the bits are

  /** Octet i of w octets in network order is the digit of weight 256^(w-1-i). */
  lemma {:induction false} BigEndianDigit(w: nat, n: nat, i: nat)
    requires i < w
    ensures BigEndian(w, n)[i] == n / Pow256(w - 1 - i) % 256
  {
    if i == w - 1 {
      assert BigEndian(w, n)[i] == n % 256;
    } else {
      BigEndianDigit(w - 1, n / 256, i);
      DivTwice(n, 256, Pow256(w - 2 - i));
    }
  }

  /** Octet i in little-endian order is the digit of weight 256^i. */
  lemma {:induction false} LittleEndianDigit(w: nat, n: nat, i: nat)
    requires i < w
    ensures LittleEndian(w, n)[i] == n / Pow256(i) % 256
  {
    if i > 0 {
      LittleEndianDigit(w - 1, n / 256, i - 1);
      DivTwice(n, 256, Pow256(i - 1));
    }
  }

  lemma MoreTimes(m: nat, c: int, q: int)
    ensures q >= c + 1 ==> m * q >= m * c + m
  {
    if q >= c + 1 {
      var d := q - c - 1;
      assert m * q == m * c + m + m * d;
      assert m * d >= 0;
    }
  }

  lemma QuotientIs(n: nat, m: nat, c: int, rest: nat)
    requires m > 0 && n == m * c + rest && rest < m
    ensures n / m == c
  {
    var q, r := n / m, n % m;
    assert n == m * q + r && 0 <= r < m;
    MoreTimes(m, c, q);
    MoreTimes(m, q, c);
  }

  /** Dividing twice is dividing by the product. */
  lemma DivTwice(n: nat, a: nat, b: nat)
    requires a > 0 && b > 0
    ensures a * b > 0 && n / (a * b) == n / a / b
  {
    var q, r := n / a, n % a;
    var c, d := q / b, q % b;
    assert n == a * q + r && q == b * c + d && 0 <= r < a && 0 <= d <= b - 1;
    Regroup(a, b, c, d, r);
    QuotientIs(n, a * b, c, a * d + r);
  }

  lemma Regroup(a: nat, b: nat, c: int, d: nat, r: nat)
    requires 0 < a && 0 < b && d <= b - 1 && r < a
    ensures a * (b * c + d) + r == a * b * c + (a * d + r)
    ensures 0 <= a * d + r < a * b
  {
    assert a * (b * c + d) == a * (b * c) + a * d;
    assert a * (b * c) == a * b * c;
    MoreTimes(a, d, b);
    assert a * d >= 0;
  }

  function Pow2N(k: nat): (r: nat)
    ensures r > 0
  {
    if k == 0 then 1 else 2 * Pow2N(k - 1)
  }

  /** Bit k of a number. */
  function Bit(x: nat, k: nat): nat { x / Pow2N(k) % 2 }

  lemma BitOfHalf(x: nat, k: nat)
    requires k > 0
    ensures Bit(x, k) == Bit(x / 2, k - 1)
  {
    DivTwice(x, 2, Pow2N(k - 1));
  }

  /** And, bit by bit. */
  lemma {:induction false} AndBits(x: nat, mask: nat, k: nat)
    ensures Bit(And(x, mask), k) == 1 <==> Bit(x, k) == 1 && Bit(mask, k) == 1
  {
    hide And, Bit;
    AndStep(x, mask);
    if x == 0 {
      ZeroBits(k);
    } else if k > 0 {
      BitOfHalf(And(x, mask), k);
      BitOfHalf(x, k);
      BitOfHalf(mask, k);
      AndBits(x / 2, mask / 2, k - 1);
    } else {
      BitZero(And(x, mask));
      BitZero(x);
      BitZero(mask);
    }
  }

  lemma BitZero(x: nat)
    ensures Bit(x, 0) == x % 2
  {
  }

  lemma AndStep(x: nat, mask: nat)
    ensures x == 0 ==> And(x, mask) == 0
    ensures x > 0 ==> And(x, mask) / 2 == And(x / 2, mask / 2)
    ensures And(x, mask) % 2 == 1 <==> x % 2 == 1 && mask % 2 == 1
  {
    hide And;
    AndNothing(mask);
    if x > 0 {
      var p := AndUnfolds(x, mask);
    }
  }

  lemma AndUnfolds(x: nat, mask: nat) returns (p: nat)
    requires x > 0
    ensures p < 2 && (p == 1 <==> x % 2 == 1 && mask % 2 == 1)
    ensures And(x, mask) == 2 * And(x / 2, mask / 2) + p
  {
    p := (x % 2) * (mask % 2);
    BitProduct(x % 2, mask % 2);
  }

  lemma AndNothing(mask: nat)
    ensures And(0, mask) == 0
  {
  }

  lemma BitProduct(a: nat, b: nat)
    requires a < 2 && b < 2
    ensures a * b < 2 && (a * b == 1 <==> a == 1 && b == 1)
  {
    assert a == 0 || a == 1;
    assert b == 0 || b == 1;
  }

  lemma {:induction false} ZeroBits(k: nat)
    ensures Bit(0, k) == 0
  {
    if k > 0 {
      BitOfHalf(0, k);
      ZeroBits(k - 1);
    }
  }

  lemma Regrouped(x: seq<Octet>, y: seq<Octet>, z: seq<Octet>)
    ensures x + y + z == x + (y + z)
  {
  }
}
