/** The readable forms of octets and port identities, and reading them back. */
module Texts {
  import opened Octets
  import opened Schema
  import opened MessageSpec

  // ---------------------------------------------------------------- strtol

  predicate IsSpace(c: char) { c == ' ' || c == '\t' || c == '\n' || c == '\r' || c == '\U{0B}' || c == '\U{0C}' }

  /** The value of a digit of any base up to 16; 16 for other characters. */
  function DigitOf(c: char): (d: nat)
    ensures d <= 16
  {
    if '0' <= c <= '9' then (c as int) - ('0' as int)
    else if 'a' <= c <= 'f' then (c as int) - ('a' as int) + 10
    else if 'A' <= c <= 'F' then (c as int) - ('A' as int) + 10
    else 16
  }

  function Spaces(s: string): (n: nat)
    ensures n <= |s|
  {
    if s != "" && IsSpace(s[0]) then 1 + Spaces(s[1..]) else 0
  }

  /** How many digits of the radix `s` starts with. */
  function Digits(s: string, radix: nat): (n: nat)
    ensures n <= |s|
  {
    if s != "" && DigitOf(s[0]) < radix then 1 + Digits(s[1..], radix) else 0
  }

  function ValueOf(s: string, radix: nat): nat {
    if s == "" then 0 else radix * ValueOf(s[..|s| - 1], radix) + DigitOf(s[|s| - 1])
  }

  const LONG_MAX := 0x7fff_ffff_ffff_ffff

  /** A number and the position behind it; position 0 when there is none. */
  datatype Long = Long(value: int, end: nat)

  predicate PrefixAt(s: string, j: nat) {
    j + 2 < |s| && s[j] == '0' && (s[j + 1] == 'x' || s[j + 1] == 'X') && DigitOf(s[j + 2]) < 16
  }

  /** strtol of a string without terminator, for the bases 0 and 16. */
  function Strtol(s: string, base: nat): Long {
    var i := Spaces(s);
    var signed := i < |s| && (s[i] == '-' || s[i] == '+');
    var j := if signed then i + 1 else i;
    var prefix := (base == 0 || base == 16) && PrefixAt(s, j);
    var radix := if base != 0 then base else if prefix then 16 else if j < |s| && s[j] == '0' then 8 else 10;
    var k := if prefix then j + 2 else j;
    var n := Digits(s[k..], radix);
    if n == 0 then Long(0, 0) else
    var v := ValueOf(s[k..k + n], radix);
    Long(if signed && s[i] == '-' then (if v > LONG_MAX then -LONG_MAX - 1 else 0 - v)
         else if v > LONG_MAX then LONG_MAX else v, k + n)
  }

  /** The octet a piece of text stands for, if all of it is a number from 0 to 255. */
  function OctetOf(s: string): Option<Octet> {
    var l := Strtol(s, 16);
    if l.end != |s| || l.value < 0 || l.value > 255 then None else Some(l.value)
  }

  /** What a pair of characters stands for: two digits, or one behind a space or a plus sign, or "-0". */
  lemma PairExactly(c: char, d: char)
    ensures OctetOf([c, d])
         == if DigitOf(c) < 16 && DigitOf(d) < 16 then Some(16 * DigitOf(c) + DigitOf(d))
            else if (IsSpace(c) || c == '+') && DigitOf(d) < 16 then Some(DigitOf(d))
            else if c == '-' && DigitOf(d) == 0 then Some(0) else None
  {
    var s := [c, d];
    assert s[0..] == s && s[1..] == [d] && [d][1..] == [] && s[2..] == [];
    assert Digits([d], 16) == (if DigitOf(d) < 16 then 1 else 0) && Digits([], 16) == 0;
    assert Spaces([d]) == (if IsSpace(d) then 1 else 0);
    assert ValueOf([], 16) == 0 && [d][..0] == [];
    assert ValueOf([d], 16) == DigitOf(d) && s[..1] == [c] && [c][..0] == [];
    assert ValueOf([c], 16) == DigitOf(c) && ValueOf(s, 16) == 16 * DigitOf(c) + DigitOf(d);
    assert s[0..2] == s && s[1..2] == [d];
  }

  /** A single character is an octet if it is a digit. */
  lemma SingleExactly(c: char)
    ensures OctetOf([c]) == if DigitOf(c) < 16 then Some(DigitOf(c)) else None
  {
    assert [c][0..] == [c] && [c][1..] == [] && [c][..0] == [] && [c][0..1] == [c];
    assert ValueOf([c], 16) == DigitOf(c);
    assert Digits([c], 16) == (if DigitOf(c) < 16 then 1 else 0) && Digits([], 16) == 0;
  }

  // ---------------------------------------------------------------- octets as text

  function HexDigit(d: nat): char
    requires d < 16
  {
    if d < 10 then ('0' as int + d) as char else ('a' as int + d - 10) as char
  }

  /** "%02x". */
  function HexPair(x: Octet): (s: string)
    ensures |s| == 2
  {
    [HexDigit(x / 16), HexDigit(x % 16)]
  }

  function HexText(b: seq<Octet>): string {
    if b == [] then "" else HexPair(b[0]) + HexText(b[1..])
  }

  function IdText(b: seq<Octet>): string {
    if b == [] then "" else if |b| == 1 then HexPair(b[0]) else HexPair(b[0]) + ":" + IdText(b[1..])
  }

  // ---------------------------------------------------------------- text as octets

  predicate IsSep(c: char) { c == ':' || c == '.' || c == '-' }

  /** c_str(): the text up to the first terminator. */
  function CString(s: string): string {
    if s == "" || s[0] == '\0' then "" else [s[0]] + CString(s[1..])
  }

  /** The length of the token at the start of `s`. */
  function TokenLen(s: string): (n: nat)
    ensures n <= |s| && (s != "" && !IsSep(s[0]) ==> n > 0)
  {
    if s != "" && !IsSep(s[0]) then 1 + TokenLen(s[1..]) else 0
  }

  function Prepend(x: Option<Octet>, rest: Option<seq<Octet>>): Option<seq<Octet>> {
    if x.None? || rest.None? then None else Some([x.value] + rest.value)
  }

  /** fromHex without its token loop: separators anywhere between pieces of two digits, or of one before a
      separator or the end. */
  function HexOctets(s: string): Option<seq<Octet>>
    decreases |s|
  {
    if s == "" then Some([])
    else if IsSep(s[0]) then HexOctets(s[1..])
    else if |s| == 1 || IsSep(s[1]) then Prepend(OctetOf(s[..1]), HexOctets(s[1..]))
    else Prepend(OctetOf(s[..2]), HexOctets(s[2..]))
  }

  function FromHexSpec(s: string): Option<seq<Octet>> { if s == "" then None else HexOctets(CString(s)) }

  /** fromId without its token loop: every run between separators is one octet. */
  function IdOctets(s: string): Option<seq<Octet>>
    decreases |s|
  {
    if s == "" then Some([])
    else if IsSep(s[0]) then IdOctets(s[1..])
    else Prepend(OctetOf(s[..TokenLen(s)]), IdOctets(s[TokenLen(s)..]))
  }

  function FromIdSpec(s: string): Option<seq<Octet>> { if |s| < 2 then None else IdOctets(CString(s)) }

  // ---------------------------------------------------------------- hex pairs

  lemma HexDigitOf(d: nat)
    requires d < 16
    ensures DigitOf(HexDigit(d)) == d && !IsSpace(HexDigit(d)) && !IsSep(HexDigit(d)) && HexDigit(d) != '\0'
    ensures HexDigit(d) != '-' && HexDigit(d) != '+' && HexDigit(d) != 'x' && HexDigit(d) != 'X'
  {
  }

  lemma TwoDigits(s: string, radix: nat)
    requires |s| == 2 && DigitOf(s[0]) < radix && DigitOf(s[1]) < radix
    ensures Digits(s, radix) == 2 && ValueOf(s, radix) == radix * DigitOf(s[0]) + DigitOf(s[1])
  {
    assert Digits(s[1..], radix) == 1 by { assert Digits(s[1..][1..], radix) == 0; }
    assert s[..1] == [s[0]] && s[..1][..0] == "";
    assert ValueOf(s[..1], radix) == radix * ValueOf(s[..1][..0], radix) + DigitOf(s[0]);
    assert radix * 0 == 0;
  }

  lemma HexPairRead(x: Octet)
    ensures OctetOf(HexPair(x)) == Some(x)
  {
    HexDigitOf(x / 16);
    HexDigitOf(x % 16);
    var s := HexPair(x);
    TwoDigits(s, 16);
    assert Spaces(s) == 0;
    assert s[0..] == s && s[0..2] == s;
  }

  // ---------------------------------------------------------------- round trips

  predicate AllSeps(s: string) { forall i | 0 <= i < |s| :: IsSep(s[i]) }

  predicate NoNul(s: string) { forall i | 0 <= i < |s| :: s[i] != '\0' }

  lemma {:induction false} CStringSame(s: string)
    requires NoNul(s)
    ensures CString(s) == s
  {
    if s != "" {
      CStringSame(s[1..]);
    }
  }

  /** The hex text of `b` with the runs `seps` before, between and after the octets. */
  function Separated(b: seq<Octet>, seps: seq<string>): string
    requires |seps| == |b| + 1
  {
    if b == [] then seps[0] else seps[0] + HexPair(b[0]) + Separated(b[1..], seps[1..])
  }

  lemma {:induction false} SkipSeps(run: string, s: string)
    requires AllSeps(run)
    ensures HexOctets(run + s) == HexOctets(s) && IdOctets(run + s) == IdOctets(s)
  {
    if run == "" {
      assert run + s == s;
    } else {
      SkipSeps(run[1..], s);
      assert (run + s)[1..] == run[1..] + s;
    }
  }

  lemma {:induction false} SeparatedRead(b: seq<Octet>, seps: seq<string>)
    requires |seps| == |b| + 1 && forall r | r in seps :: AllSeps(r)
    ensures HexOctets(Separated(b, seps)) == Some(b)
  {
    if b == [] {
      SkipSeps(seps[0], "");
      assert seps[0] + "" == seps[0];
    } else {
      SeparatedRead(b[1..], seps[1..]);
      var rest := Separated(b[1..], seps[1..]);
      var s := HexPair(b[0]) + rest;
      SkipSeps(seps[0], s);
      assert seps[0] + HexPair(b[0]) + rest == seps[0] + s;
      PairThen(b[0], rest);
      assert [b[0]] + b[1..] == b;
    }
  }

  lemma {:induction false} SeparatedNoNul(b: seq<Octet>, seps: seq<string>)
    requires |seps| == |b| + 1 && forall r | r in seps :: AllSeps(r)
    ensures NoNul(Separated(b, seps))
  {
    assert AllSeps(seps[0]);
    if b != [] {
      SeparatedNoNul(b[1..], seps[1..]);
      HexDigitOf(b[0] / 16);
      HexDigitOf(b[0] % 16);
    }
  }

  /** Runs of separators at the octet boundaries of a hex text do not change what fromHex reads. */
  lemma HexWithSeparators(b: seq<Octet>, seps: seq<string>)
    requires b != [] && |seps| == |b| + 1 && forall r | r in seps :: AllSeps(r)
    ensures FromHexSpec(Separated(b, seps)) == Some(b)
  {
    SeparatedRead(b, seps);
    SeparatedNoNul(b, seps);
    CStringSame(Separated(b, seps));
  }

  /** Between two octets exactly a colon, a dot or a dash is skipped, by both readers. */
  lemma SeparatorsExactly(x: Octet, y: Octet, c: char)
    ensures var s, skipped := HexPair(x) + ([c] + HexPair(y)), c == ':' || c == '.' || c == '-';
            && (HexOctets(s) == Some([x, y]) <==> skipped)
            && (IdOctets(s) == Some([x, y]) <==> skipped)
  {
    hide HexPair, HexOctets, IdOctets, OctetOf, Prepend;
    PairThen(x, [c] + HexPair(y));
    PrependOnce(x, y, HexOctets([c] + HexPair(y)));
    if IsSep(c) {
      AfterSeparator(x, y, c);
    } else {
      NotSkipped(x, y, c);
    }
  }

  lemma PrependOnce(x: Octet, y: Octet, r: Option<seq<Octet>>)
    ensures Prepend(Some(x), r) == Some([x, y]) <==> r == Some([y])
  {
    if r.Some? {
      assert ([x] + r.value)[1..] == r.value && [x, y][1..] == [y];
      assert [x] + [y] == [x, y];
    }
  }

  lemma AfterSeparator(x: Octet, y: Octet, c: char)
    requires IsSep(c)
    ensures HexOctets([c] + HexPair(y)) == Some([y])
    ensures IdOctets(HexPair(x) + ([c] + HexPair(y))) == Some([x, y])
  {
    PlainPair(y);
    hide HexPair, HexOctets, IdOctets, OctetOf;
    NothingRead();
    SkipSeps([c], HexPair(y));
    assert HexPair(y) + "" == HexPair(y) && [y] + [] == [y];
    PrependOnce(x, y, Some([y]));
    PairThen(y, "");
    IdPairThen(y, "");
    IdPairThen(x, [c] + HexPair(y));
  }

  lemma PlainPair(y: Octet)
    ensures var s := HexPair(y); NoNul(s) && !IsSep(s[0]) && !IsSep(s[1])
  {
    HexDigitOf(y / 16);
    HexDigitOf(y % 16);
  }

  /** Another character belongs to the octets around it. */
  lemma NotSkipped(x: Octet, y: Octet, c: char)
    requires !IsSep(c)
    ensures HexOctets([c] + HexPair(y)) != Some([y])
    ensures IdOctets(HexPair(x) + ([c] + HexPair(y))) != Some([x, y])
  {
    PlainPair(x);
    PlainPair(y);
    hide HexPair, OctetOf;
    NothingRead();
    var s := [c] + HexPair(y);
    assert s[2..] == [s[2]] && s[2..][1..] == "";
    OneToken(HexPair(x) + s);
  }

  /** Without a separator the text is one token. */
  lemma OneToken(s: string)
    requires |s| == 5 && forall i | 0 <= i < 5 :: !IsSep(s[i])
    ensures IdOctets(s).Some? ==> |IdOctets(s).value| == 1
  {
    hide OctetOf;
    NothingRead();
    AllToken(s);
    assert s[5..] == "";
  }

  lemma {:induction false} AllToken(s: string)
    requires forall i | 0 <= i < |s| :: !IsSep(s[i])
    ensures TokenLen(s) == |s|
  {
    if s != "" {
      AllToken(s[1..]);
    }
  }

  lemma {:induction false} HexTextSeparated(b: seq<Octet>)
    ensures HexText(b) == Separated(b, seq(|b| + 1, _ => ""))
  {
    if b != [] {
      HexTextSeparated(b[1..]);
      assert seq(|b| + 1, _ => "")[1..] == seq(|b[1..]| + 1, _ => "");
      assert "" + HexPair(b[0]) == HexPair(b[0]);
    }
  }

  /** fromHex(toHex(b)) == b. */
  lemma HexRoundTrip(b: seq<Octet>)
    requires b != []
    ensures FromHexSpec(HexText(b)) == Some(b)
  {
    HexTextSeparated(b);
    HexWithSeparators(b, seq(|b| + 1, _ => ""));
  }

  lemma PairToken(x: Octet, rest: string)
    requires rest == "" || IsSep(rest[0])
    ensures TokenLen(HexPair(x) + rest) == 2
  {
    HexDigitOf(x / 16);
    HexDigitOf(x % 16);
    var s := HexPair(x) + rest;
    assert s[1..][1..] == rest;
    assert TokenLen(s[1..]) == 1 + TokenLen(s[1..][1..]);
  }

  lemma {:induction false} IdTextRead(b: seq<Octet>)
    requires b != []
    ensures IdOctets(IdText(b)) == Some(b) && NoNul(IdText(b)) && |IdText(b)| >= 2
  {
    hide HexPair, IdOctets, NoNul, IdText, Prepend;
    NothingRead();
    IdTextParts(b);
    PrependSome(b);
    if |b| == 1 {
      NoNulBehind("");
      IdPairThen(b[0], "");
    } else {
      IdTextRead(b[1..]);
      var rest := ":" + IdText(b[1..]);
      NoNulBehind(IdText(b[1..]));
      IdPairThen(b[0], rest);
      SkipSeps(":", IdText(b[1..]));
    }
  }

  lemma IdTextParts(b: seq<Octet>)
    requires b != []
    ensures IdText(b) == HexPair(b[0]) + if |b| == 1 then "" else ":" + IdText(b[1..])
    ensures |IdText(b)| >= 2
  {
    hide HexPair;
  }

  lemma PrependSome(b: seq<Octet>)
    requires b != []
    ensures Prepend(Some(b[0]), Some(b[1..])) == Some(b)
    ensures |b| == 1 ==> b[1..] == []
  {
    assert [b[0]] + b[1..] == b;
  }

  lemma NoNulBehind(s: string)
    ensures NoNul("") && (NoNul(s) ==> NoNul(":" + s))
  {
  }

  lemma IdPairThen(x: Octet, rest: string)
    requires (rest == "" || IsSep(rest[0])) && NoNul(rest)
    ensures IdOctets(HexPair(x) + rest) == Prepend(Some(x), IdOctets(rest)) && NoNul(HexPair(x) + rest)
  {
    var s := HexPair(x) + rest;
    HexDigitOf(x / 16);
    HexDigitOf(x % 16);
    HexPairRead(x);
    PairToken(x, rest);
    hide OctetOf, TokenLen;
    assert s[..2] == HexPair(x) && s[2..] == rest;
  }

  /** fromId(toId(b)) == b. */
  lemma IdRoundTrip(b: seq<Octet>)
    requires b != []
    ensures FromIdSpec(IdText(b)) == Some(b)
  {
    IdTextRead(b);
    CStringSame(IdText(b));
  }

  // ---------------------------------------------------------------- port identities

  /** std::to_string of an unsigned number. */
  function Decimal(n: nat): (s: string)
    ensures |s| >= 1
  {
    if n < 10 then [HexDigit(n)] else Decimal(n / 10) + [HexDigit(n % 10)]
  }

  /** ClockIdentity_t::string(): "%02x%02x%02x.%02x%02x.%02x%02x%02x". */
  function ClockText(clock: seq<Octet>): string
    requires |clock| == 8
  {
    HexText(clock[..3]) + "." + HexText(clock[3..5]) + "." + HexText(clock[5..])
  }

  /** PortIdentity_t::string(). */
  function PortText(p: PortId): string { ClockText(p.clock) + "-" + Decimal(p.port) }

  function FirstDash(s: string): (i: nat)
    ensures i <= |s|
  {
    if s == "" || s[0] == '-' then 0 else 1 + FirstDash(s[1..])
  }

  /** updatePortIdentity: hex octets before the first dash, a number after it. */
  function ReadPortText(s: string): Option<PortId> {
    var i := FirstDash(s);
    if i == |s| then None else
    var clock := FromHexSpec(s[..i]);
    var port := Strtol(s[i + 1..], 0);
    if clock.None? || |clock.value| != 8 then None
    else if port.end != |s| - i - 1 || port.value < 0 || port.value > 0xffff then None
    else Some(PortIdentity(clock.value, port.value))
  }

  const DIGITS := "0123456789abcdef"
  const CAPITALS := "0123456789ABCDEF"

  /** The digits of the readable forms are lower case, the high digit of each octet first. */
  lemma {:induction false} HexDigitsAt(b: seq<Octet>, i: nat)
    requires i < |b|
    ensures |HexText(b)| == 2 * |b|
    ensures HexText(b)[2 * i] == DIGITS[b[i] / 16] && HexText(b)[2 * i + 1] == DIGITS[b[i] % 16]
  {
    hide HexDigit;
    DigitIs(b[i] / 16);
    DigitIs(b[i] % 16);
    HexLength(b[1..]);
    if i > 0 {
      HexDigitsAt(b[1..], i - 1);
    }
  }

  /** The digits that are read, in both cases of the letters, and no other character. */
  lemma DigitsExactly(c: char)
    ensures forall d: nat | d < 16 :: DigitOf(DIGITS[d]) == d && DigitOf(CAPITALS[d]) == d
    ensures DigitOf(c) < 16 ==> c == DIGITS[DigitOf(c)] || c == CAPITALS[DigitOf(c)]
  {
    forall d: nat | d < 16
      ensures DigitOf(DIGITS[d]) == d && DigitOf(CAPITALS[d]) == d
    {
      if d < 10 {
        assert DIGITS[d] == ('0' as int + d) as char == CAPITALS[d];
      } else {
        assert DIGITS[d] == ('a' as int + d - 10) as char && CAPITALS[d] == ('A' as int + d - 10) as char;
      }
    }
  }

  lemma DigitIs(d: nat)
    requires d < 16
    ensures HexDigit(d) == DIGITS[d]
  {
  }

  lemma {:induction false} HexLength(b: seq<Octet>)
    ensures |HexText(b)| == 2 * |b|
  {
    if b != [] {
      HexLength(b[1..]);
    }
  }

  /** With colons between the octets. */
  lemma {:induction false} IdDigitsAt(b: seq<Octet>, i: nat)
    requires i < |b|
    ensures |IdText(b)| == 3 * |b| - 1
    ensures IdText(b)[3 * i] == DIGITS[b[i] / 16] && IdText(b)[3 * i + 1] == DIGITS[b[i] % 16]
    ensures i + 1 < |b| ==> IdText(b)[3 * i + 2] == ':'
  {
    hide HexDigit;
    DigitIs(b[i] / 16);
    DigitIs(b[i] % 16);
    if |b| > 1 {
      IdDigitsAt(b[1..], if i > 0 then i - 1 else 0);
    }
  }

  /** A clock identity: three octets, a dot, two octets, a dot, three octets. */
  lemma ClockTextAt(clock: seq<Octet>, i: nat)
    requires |clock| == 8 && i < 8
    ensures var t, p := ClockText(clock), 2 * i + if i < 3 then 0 else if i < 5 then 1 else 2;
            && |t| == 18 && t[6] == '.' && t[11] == '.'
            && t[p] == DIGITS[clock[i] / 16] && t[p + 1] == DIGITS[clock[i] % 16]
  {
    hide HexText;
    HexLength(clock[..3]);
    HexLength(clock[3..5]);
    HexLength(clock[5..]);
    if i < 3 {
      HexDigitsAt(clock[..3], i);
    } else if i < 5 {
      HexDigitsAt(clock[3..5], i - 3);
    } else {
      HexDigitsAt(clock[5..], i - 5);
    }
  }

  /** A port identity: its clock, a dash, and the port in decimal digits without leading zeros. */
  lemma PortTextAt(p: PortId)
    ensures var t := PortText(p);
            && |t| >= 20 && t[..18] == ClockText(p.clock) && t[18] == '-' && ValueOf(t[19..], 10) == p.port
            && (forall i | 19 <= i < |t| :: '0' <= t[i] <= '9') && (p.port > 0 ==> t[19] != '0')
  {
    ClockTextAt(p.clock, 0);
    DecimalDigits(p.port);
    hide ClockText, Decimal, ValueOf;
    var t, a, d := PortText(p), ClockText(p.clock), Decimal(p.port);
    assert t[..18] == a && t[19..] == d;
    assert forall i | 19 <= i < |t| :: t[i] == d[i - 19];
  }

  lemma {:induction false} HexTextPlain(b: seq<Octet>)
    ensures forall i | 0 <= i < |HexText(b)| :: HexText(b)[i] != '-' && HexText(b)[i] != '\0'
  {
    if b != [] {
      HexTextPlain(b[1..]);
      HexDigitOf(b[0] / 16);
      HexDigitOf(b[0] % 16);
    }
  }

  lemma PairThen(x: Octet, s: string)
    ensures HexOctets(HexPair(x) + s) == Prepend(Some(x), HexOctets(s))
  {
    HexDigitOf(x / 16);
    HexDigitOf(x % 16);
    HexPairRead(x);
    hide HexPair, OctetOf;
    var t := HexPair(x) + s;
    assert t[..2] == HexPair(x) && t[2..] == s;
    assert t[0] == HexPair(x)[0] && t[1] == HexPair(x)[1];
  }

  /** Any octets in front of octets that are already read. */
  lemma {:induction false} HexTextThen(b: seq<Octet>, s: string, rest: seq<Octet>)
    requires HexOctets(s) == Some(rest)
    ensures HexOctets(HexText(b) + s) == Some(b + rest)
  {
    hide HexPair, HexOctets;
    if b == [] {
      assert HexText(b) + s == s && b + rest == rest;
    } else {
      HexTextThen(b[1..], s, rest);
      PairThen(b[0], HexText(b[1..]) + s);
      assert HexText(b) + s == HexPair(b[0]) + (HexText(b[1..]) + s);
      assert [b[0]] + (b[1..] + rest) == b + rest;
    }
  }

  lemma ClockTextPlain(clock: seq<Octet>)
    requires |clock| == 8
    ensures forall i | 0 <= i < |ClockText(clock)| :: ClockText(clock)[i] != '-' && ClockText(clock)[i] != '\0'
  {
    hide HexText;
    HexTextPlain(clock[..3]);
    HexTextPlain(clock[3..5]);
    HexTextPlain(clock[5..]);
  }

  lemma ClockTextRead(clock: seq<Octet>)
    requires |clock| == 8
    ensures FromHexSpec(ClockText(clock)) == Some(clock)
  {
    var a, b, c := clock[..3], clock[3..5], clock[5..];
    ClockTextPlain(clock);
    CStringSame(ClockText(clock));
    hide HexText, HexOctets, CString;
    PartsRead(a, b, c);
    ClockParts(HexText(a), HexText(b), HexText(c));
    assert a + (b + c) == clock;
  }

  lemma PartsRead(a: seq<Octet>, b: seq<Octet>, c: seq<Octet>)
    ensures HexOctets(HexText(a) + ("." + (HexText(b) + ("." + HexText(c))))) == Some(a + (b + c))
  {
    hide HexText, HexOctets;
    assert HexOctets("") == Some([]) by { NothingRead(); }
    HexTextThen(c, "", []);
    assert HexText(c) + "" == HexText(c) && c + [] == c;
    SkipSeps(".", HexText(c));
    HexTextThen(b, "." + HexText(c), c);
    SkipSeps(".", HexText(b) + ("." + HexText(c)));
    HexTextThen(a, "." + (HexText(b) + ("." + HexText(c))), b + c);
  }

  lemma NothingRead()
    ensures HexOctets("") == Some([]) && IdOctets("") == Some([])
  {
  }

  lemma ClockParts(a: string, b: string, c: string)
    ensures a + ("." + (b + ("." + c))) == a + "." + b + "." + c
  {
  }

  lemma {:induction false} DecimalDigits(n: nat)
    ensures forall i | 0 <= i < |Decimal(n)| :: DigitOf(Decimal(n)[i]) < 10 && '0' <= Decimal(n)[i] <= '9'
    ensures ValueOf(Decimal(n), 10) == n
    ensures n > 0 ==> Decimal(n)[0] != '0'
    ensures n == 0 ==> Decimal(n) == "0"
  {
    if n < 10 {
      HexDigitOf(n);
      assert Decimal(n)[..0] == "";
    } else {
      DecimalDigits(n / 10);
      HexDigitOf(n % 10);
      var s := Decimal(n);
      assert s[..|s| - 1] == Decimal(n / 10);
    }
  }

  lemma {:induction false} AllDigits(s: string, radix: nat)
    requires forall i | 0 <= i < |s| :: DigitOf(s[i]) < radix
    ensures Digits(s, radix) == |s|
  {
    if s != "" {
      AllDigits(s[1..], radix);
    }
  }

  lemma DecimalRead(n: nat)
    requires n <= 0xffff
    ensures Strtol(Decimal(n), 0) == Long(n, |Decimal(n)|)
  {
    var s := Decimal(n);
    DecimalDigits(n);
    hide Decimal;
    if n == 0 {
      ZeroRead();
    } else {
      assert Spaces(s) == 0;
      assert s[0..] == s && s[0..|s|] == s;
      AllDigits(s, 10);
    }
  }

  lemma ZeroRead()
    ensures Strtol("0", 0) == Long(0, 1)
  {
    var s := "0";
    assert Spaces(s) == 0;
    assert s[0..] == s && s[0..|s|] == s;
    AllDigits(s, 8);
    assert s[..0] == "";
    assert ValueOf(s, 8) == 8 * ValueOf(s[..0], 8) + DigitOf(s[0]);
  }

  lemma {:induction false} DashBehind(a: string, b: string)
    requires forall i | 0 <= i < |a| :: a[i] != '-'
    ensures FirstDash(a + "-" + b) == |a|
  {
    if a != "" {
      DashBehind(a[1..], b);
      assert (a + "-" + b)[1..] == a[1..] + "-" + b;
    }
  }

  /** The text of a port identity reads back as that identity, for every clock identity and port number. */
  lemma PortTextRoundTrip(p: PortId)
    ensures ReadPortText(PortText(p)) == Some(p)
  {
    hide HexText, HexOctets, FromHexSpec, Strtol, Decimal, ClockText;
    ClockTextRead(p.clock);
    ClockTextPlain(p.clock);
    DecimalRead(p.port);
    var a, b := ClockText(p.clock), Decimal(p.port);
    DashBehind(a, b);
    var s := PortText(p);
    assert s[..|a|] == a && s[|a| + 1..] == b;
  }

  // Which texts behind the dash are read as a port.

  /** Space, a sign, a prefix and digits, as strtol takes them in base 0. */
  datatype Numeral = Numeral(spaces: string, sign: string, prefix: string, digits: string)

  function Spelling(x: Numeral): string { x.spaces + (x.sign + (x.prefix + x.digits)) }

  function Radix(x: Numeral): nat {
    if x.prefix != "" then 16 else if x.digits != "" && x.digits[0] == '0' then 8 else 10
  }

  predicate IsNumeral(x: Numeral) {
    && (forall i | 0 <= i < |x.spaces| :: IsSpace(x.spaces[i]))
    && (x.sign == "" || x.sign == "+" || x.sign == "-")
    && (x.prefix == "" || x.prefix == "0x" || x.prefix == "0X")
    && x.digits != "" && forall i | 0 <= i < |x.digits| :: DigitOf(x.digits[i]) < Radix(x)
  }

  /** The port that the text `t` stands for: nothing at all is port 0. */
  ghost predicate PortTail(t: string, n: nat) {
    || (t == "" && n == 0)
    || (n <= 0xffff
        && exists x: Numeral :: IsNumeral(x) && t == Spelling(x) && ValueOf(x.digits, Radix(x)) == n
                                && (x.sign == "-" ==> n == 0))
  }

  lemma {:induction false} SpacesBefore(a: string, b: string)
    requires forall i | 0 <= i < |a| :: IsSpace(a[i])
    requires b == "" || !IsSpace(b[0])
    ensures Spaces(a + b) == |a|
  {
    if a == "" {
      assert a + b == b;
    } else {
      SpacesBefore(a[1..], b);
      assert (a + b)[1..] == a[1..] + b;
    }
  }

  lemma {:induction false} SpacesAreSpaces(s: string)
    ensures forall i | 0 <= i < Spaces(s) :: IsSpace(s[i])
    ensures Spaces(s) < |s| ==> !IsSpace(s[Spaces(s)])
  {
    if s != "" && IsSpace(s[0]) {
      SpacesAreSpaces(s[1..]);
      assert forall i | 1 <= i < Spaces(s) :: s[i] == s[1..][i - 1];
      assert Spaces(s) < |s| ==> s[Spaces(s)] == s[1..][Spaces(s) - 1];
    }
  }

  lemma {:induction false} DigitsAreDigits(s: string, radix: nat)
    ensures forall i | 0 <= i < Digits(s, radix) :: DigitOf(s[i]) < radix
  {
    if s != "" && DigitOf(s[0]) < radix {
      DigitsAreDigits(s[1..], radix);
      assert forall i | 1 <= i < Digits(s, radix) :: s[i] == s[1..][i - 1];
    }
  }

  /** strtol reads a numeral to its end. */
  lemma NumeralRead(x: Numeral)
    requires IsNumeral(x)
    ensures var v := ValueOf(x.digits, Radix(x));
            Strtol(Spelling(x), 0)
            == Long(if x.sign == "-" then (if v > LONG_MAX then -LONG_MAX - 1 else 0 - v)
                    else if v > LONG_MAX then LONG_MAX else v, |Spelling(x)|)
  {
    hide Spelling, Spaces, Digits, ValueOf, PrefixAt, IsNumeral, Radix, DigitOf, IsSpace;
    var s, j := Spelling(x), |x.spaces| + |x.sign|;
    var k := j + |x.prefix|;
    NumeralStart(x);
    NumeralDigits(x);
    NoPrefix(x, s, j);
    StrtolOf(s, |x.spaces|, x.sign != "", x.prefix != "", Radix(x));
    assert x.sign == "-" <==> x.sign != "" && s[|x.spaces|] == '-';
  }

  /** strtol when all of the text is digits behind a space, a sign and a prefix. */
  lemma StrtolOf(s: string, i: nat, signed: bool, prefix: bool, radix: nat)
    requires Spaces(s) == i < |s| && (signed <==> s[i] == '-' || s[i] == '+')
    requires var j := if signed then i + 1 else i;
             var k := if prefix then j + 2 else j;
             && j < |s| && (prefix <==> PrefixAt(s, j)) && k < |s| && Digits(s[k..], radix) == |s| - k
             && radix == if prefix then 16 else if s[j] == '0' then 8 else 10
    ensures var j := if signed then i + 1 else i;
            var v := ValueOf(s[if prefix then j + 2 else j..], radix);
            Strtol(s, 0) == Long(if signed && s[i] == '-' then (if v > LONG_MAX then -LONG_MAX - 1 else 0 - v)
                                 else if v > LONG_MAX then LONG_MAX else v, |s|)
  {
    hide Spaces, Digits, ValueOf, PrefixAt;
    var j := if signed then i + 1 else i;
    var k := if prefix then j + 2 else j;
    assert s[k..|s|] == s[k..];
  }

  lemma Behind(a: string, b: string)
    ensures (a + b)[|a|..] == b && (b != "" ==> (a + b)[|a|] == b[0])
  {
  }

  lemma SliceSlice(s: string, i: nat, n: nat)
    requires i + n <= |s|
    ensures s[i..][n..] == s[i + n..]
  {
  }

  /** Where strtol finds the space and the sign of a numeral. */
  lemma NumeralStart(x: Numeral)
    requires IsNumeral(x)
    ensures var s, i := Spelling(x), |x.spaces|;
            && Spaces(s) == i < |s| && |x.sign| <= 1 && s[i..] == x.sign + (x.prefix + x.digits)
            && ((s[i] == '-' || s[i] == '+') <==> x.sign != "") && (x.sign != "" ==> [s[i]] == x.sign)
  {
    var u := x.prefix + x.digits;
    var v := x.sign + u;
    assert u[0] == if x.prefix == "" then x.digits[0] else '0';
    assert v[0] == if x.sign == "" then u[0] else x.sign[0];
    assert DigitOf(x.digits[0]) < 16;
    Behind(x.spaces, v);
    SpacesBefore(x.spaces, v);
  }

  /** Where it finds the prefix and the digits. */
  lemma NumeralDigits(x: Numeral)
    requires IsNumeral(x)
    ensures var s, j, k := Spelling(x), |x.spaces| + |x.sign|, |x.spaces| + |x.sign| + |x.prefix|;
            && k < |s| && s[j..] == x.prefix + x.digits && s[k..] == x.digits && (x.prefix != "" ==> |x.prefix| == 2)
            && Digits(s[k..], Radix(x)) == |s| - k
            && Radix(x) == if x.prefix != "" then 16 else if s[j] == '0' then 8 else 10
  {
    hide Spaces, IsSpace, Digits;
    var s, u := Spelling(x), x.prefix + x.digits;
    var j := |x.spaces| + |x.sign|;
    Behind(x.spaces, x.sign + u);
    Behind(x.sign, u);
    Behind(x.prefix, x.digits);
    SliceSlice(s, |x.spaces|, |x.sign|);
    SliceSlice(s, j, |x.prefix|);
    assert s[j] == s[j..][0];
    AllDigits(x.digits, Radix(x));
  }

  lemma FourParts(s: string, i: nat, j: nat, k: nat)
    requires i <= j <= k <= |s|
    ensures s == s[..i] + (s[i..j] + (s[j..k] + s[k..]))
  {
    assert s[j..k] + s[k..] == s[j..];
    assert s[i..j] + s[j..] == s[i..];
  }

  /** Digits of radix 8 or 10 are not taken for a prefix. */
  lemma NoPrefix(x: Numeral, s: string, j: nat)
    requires IsNumeral(x) && j <= |s| && s[j..] == x.prefix + x.digits
    ensures PrefixAt(s, j) <==> x.prefix != ""
  {
    var u := x.prefix + x.digits;
    assert |u| == |s| - j;
    assert forall i | 0 <= i < |u| :: s[j + i] == u[i];
    if x.prefix == "" {
      assert u == x.digits;
      assert |u| > 1 ==> DigitOf(u[1]) < 10;
      assert |u| > 1 ==> s[j + 1] == u[1];
    } else {
      assert u[0] == '0' && u[1] == x.prefix[1] && u[2] == x.digits[0];
      assert s[j + 0] == u[0] && s[j + 1] == u[1] && s[j + 2] == u[2];
    }
  }

  /** What strtol reads to its end is a numeral. */
  lemma ReadIsNumeral(s: string) returns (x: Numeral)
    requires s != "" && Strtol(s, 0).end == |s|
    ensures IsNumeral(x) && s == Spelling(x)
  {
    hide ValueOf;
    var i := Spaces(s);
    var signed := i < |s| && (s[i] == '-' || s[i] == '+');
    var j := if signed then i + 1 else i;
    var prefix := PrefixAt(s, j);
    var radix := if prefix then 16 else if j < |s| && s[j] == '0' then 8 else 10;
    var k := if prefix then j + 2 else j;
    var n := Digits(s[k..], radix);
    assert n != 0 && k + n == |s|;
    SpacesAreSpaces(s);
    DigitsAreDigits(s[k..], radix);
    hide Strtol, Spaces, Digits, IsSpace, DigitOf;
    PartsAreNumeral(s, i, j, k, radix);
    x := Numeral(s[..i], s[i..j], s[j..k], s[k..]);
  }

  lemma PartsAreNumeral(s: string, i: nat, j: nat, k: nat, radix: nat)
    requires i <= j <= k < |s| && forall n | 0 <= n < i :: IsSpace(s[n])
    requires j == i || (j == i + 1 && (s[i] == '-' || s[i] == '+'))
    requires k == j || (k == j + 2 && s[j] == '0' && (s[j + 1] == 'x' || s[j + 1] == 'X'))
    requires radix == if k > j then 16 else if s[j] == '0' then 8 else 10
    requires forall n | 0 <= n < |s| - k :: DigitOf(s[k..][n]) < radix
    ensures var x := Numeral(s[..i], s[i..j], s[j..k], s[k..]); IsNumeral(x) && s == Spelling(x)
  {
    hide IsSpace, DigitOf;
    FourParts(s, i, j, k);
    assert s[k..][0] == s[k];
    assert j > i ==> s[i..j] == [s[i]];
    assert k > j ==> s[j..k] == [s[j], s[j + 1]];
  }

  lemma EmptyNumber(x: Numeral)
    ensures Strtol("", 0) == Long(0, 0)
    ensures IsNumeral(x) ==> Spelling(x) != ""
  {
  }

  /** The texts that strtol reads to their end as the number `n`. */
  lemma NumberTail(t: string, n: nat)
    requires n <= 0xffff
    ensures Strtol(t, 0) == Long(n, |t|) <==> PortTail(t, n)
  {
    hide Strtol, IsNumeral, Spelling, Radix, ValueOf;
    if Strtol(t, 0) == Long(n, |t|) {
      if t == "" {
        EmptyNumber(Numeral("", "", "", ""));
      } else {
        var x := ReadIsNumeral(t);
        NumeralRead(x);
      }
    }
    if PortTail(t, n) {
      if t == "" && n == 0 {
        EmptyNumber(Numeral("", "", "", ""));
      } else {
        var x :| IsNumeral(x) && t == Spelling(x) && ValueOf(x.digits, Radix(x)) == n && (x.sign == "-" ==> n == 0);
        NumeralRead(x);
      }
    }
  }

  /** Behind a clock identity and a dash exactly these texts are read, and as these ports: a numeral of strtol's, with
      leading space, a plus sign, octal and hexadecimal digits and "-0" among them, or nothing at all. */
  lemma PortTails(clock: seq<Octet>, t: string, n: nat)
    requires |clock| == 8 && n <= 0xffff
    ensures ReadPortText(ClockText(clock) + "-" + t) == Some(PortIdentity(clock, n)) <==> PortTail(t, n)
    ensures var r := ReadPortText(ClockText(clock) + "-" + t);
            r.Some? ==> r.value.clock == clock && PortTail(t, r.value.port)
  {
    hide ClockText, FromHexSpec, Strtol, PortTail;
    ClockTextRead(clock);
    ClockTextPlain(clock);
    var a, s := ClockText(clock), ClockText(clock) + "-" + t;
    DashBehind(a, t);
    assert s[..|a|] == a && s[|a| + 1..] == t;
    var l := Strtol(t, 0);
    NumberTail(t, n);
    if 0 <= l.value <= 0xffff {
      NumberTail(t, l.value);
    }
  }

  /** So nothing behind the dash is port 0. */
  lemma EmptyPort(clock: seq<Octet>)
    requires |clock| == 8
    ensures ReadPortText(ClockText(clock) + "-") == Some(PortIdentity(clock, 0))
  {
    hide ClockText, ReadPortText;
    PortTails(clock, "", 0);
    assert ClockText(clock) + "-" + "" == ClockText(clock) + "-";
  }

  // ---------------------------------------------------------------- the loops

  /** bufToHex. */
  method BufToHex(b: seq<Octet>) returns (r: string)
    ensures r == HexText(b)
  {
    hide HexPair;
    r := "";
    var i := 0;
    assert b[0..] == b;
    while i < |b|
      invariant 0 <= i <= |b| && HexText(b) == r + HexText(b[i..])
    {
      assert b[i..][1..] == b[i + 1..];
      assert r + (HexPair(b[i]) + HexText(b[i + 1..])) == r + HexPair(b[i]) + HexText(b[i + 1..]);
      r := r + HexPair(b[i]);
      i := i + 1;
    }
  }

  /** bufToId. */
  method BufToId(b: seq<Octet>) returns (r: string)
    ensures r == IdText(b)
  {
    if b == [] {
      return "";
    }
    r := HexPair(b[0]);
    var i := 1;
    while i < |b|
      invariant 1 <= i <= |b|
      invariant IdText(b) == if i < |b| then r + ":" + IdText(b[i..]) else r
    {
      assert b[i..][1..] == b[i + 1..];
      r := r + ":" + HexPair(b[i]);
      i := i + 1;
    }
  }

  /** strtok_r from position `from`: the next token, or the end of the text. */
  method Token(s: string, from: nat) returns (start: nat, end: nat)
    requires from <= |s|
    ensures from <= start <= end <= |s|
    ensures AllSeps(s[from..start]) && (start == |s| || !IsSep(s[start]))
    ensures end == start + TokenLen(s[start..]) && (start < |s| ==> start < end)
  {
    start := from;
    while start < |s| && IsSep(s[start])
      invariant from <= start <= |s| && AllSeps(s[from..start])
    {
      assert s[from..start + 1] == s[from..start] + [s[start]];
      start := start + 1;
    }
    end := start;
    while end < |s| && !IsSep(s[end])
      invariant start <= end <= |s| && TokenLen(s[start..]) == end - start + TokenLen(s[end..])
    {
      assert s[end..][1..] == s[end + 1..];
      end := end + 1;
    }
  }

  /** `id` followed by what is still to be read. */
  function Onto(id: seq<Octet>, rest: Option<seq<Octet>>): Option<seq<Octet>> {
    if rest.None? then None else Some(id + rest.value)
  }

  lemma NextToken(s: string, from: nat, start: nat)
    requires from <= start <= |s| && AllSeps(s[from..start])
    ensures HexOctets(s[from..]) == HexOctets(s[start..]) && IdOctets(s[from..]) == IdOctets(s[start..])
  {
    SkipSeps(s[from..start], s[start..]);
    assert s[from..] == s[from..start] + s[start..];
  }

  lemma OntoNothing(rest: Option<seq<Octet>>)
    ensures Onto([], rest) == rest
  {
    if rest.Some? {
      assert [] + rest.value == rest.value;
    }
  }

  lemma OntoEnd(id: seq<Octet>)
    ensures Onto(id, Some([])) == Some(id) && Onto(id, None) == None
  {
    assert id + [] == id;
  }

  lemma OntoNext(id: seq<Octet>, x: Option<Octet>, rest: Option<seq<Octet>>)
    requires x.Some?
    ensures Onto(id, Prepend(x, rest)) == Onto(id + [x.value], rest)
  {
    if rest.Some? {
      assert id + ([x.value] + rest.value) == id + [x.value] + rest.value;
    }
  }

  lemma PrependNone(rest: Option<seq<Octet>>)
    ensures Prepend(None, rest) == None
  {
  }

  lemma IdToken(s: string, cur: nat, end: nat)
    requires cur < |s| && !IsSep(s[cur]) && end == cur + TokenLen(s[cur..])
    ensures end <= |s| && IdOctets(s[cur..]) == Prepend(OctetOf(s[cur..end]), IdOctets(s[end..]))
  {
    hide OctetOf;
    assert s[cur..][..end - cur] == s[cur..end] && s[cur..][end - cur..] == s[end..];
  }

  lemma HexPiece(s: string, cur: nat, n: nat)
    requires cur + n <= |s| && cur < |s| && !IsSep(s[cur])
    requires n == if cur + 1 == |s| || IsSep(s[cur + 1]) then 1 else 2
    ensures HexOctets(s[cur..]) == Prepend(OctetOf(s[cur..cur + n]), HexOctets(s[cur + n..]))
  {
    hide OctetOf;
    assert s[cur..][..n] == s[cur..cur + n] && s[cur..][n..] == s[cur + n..];
  }

  /** fromId. */
  method FromId(text: string) returns (r: Option<seq<Octet>>)
    ensures r == FromIdSpec(text)
  {
    hide OctetOf, IdOctets, TokenLen, AllSeps, CString, Prepend, Onto, IsSep;
    if |text| < 2 {
      return None;
    }
    var s := CString(text);
    var id: seq<Octet> := [];
    var cur, end := Token(s, 0);
    NextToken(s, 0, cur);
    assert s[0..] == s;
    OntoNothing(IdOctets(s));
    while cur < |s|
      invariant cur <= end <= |s| && end == cur + TokenLen(s[cur..]) && (cur == |s| || !IsSep(s[cur]))
      invariant cur < |s| ==> cur < end
      invariant IdOctets(s) == Onto(id, IdOctets(s[cur..]))
      decreases |s| - cur
    {
      var x := OctetOf(s[cur..end]);
      IdToken(s, cur, end);
      if x.None? {
        PrependNone(IdOctets(s[end..]));
        OntoEnd(id);
        return None;
      }
      OntoNext(id, x, IdOctets(s[end..]));
      id := id + [x.value];
      ghost var from := end;
      cur, end := Token(s, end);
      NextToken(s, from, cur);
    }
    assert s[cur..] == "";
    NothingRead();
    OntoEnd(id);
    r := Some(id);
  }

  /** fromHex: two characters at a time inside a token. */
  method FromHex(text: string) returns (r: Option<seq<Octet>>)
    ensures r == FromHexSpec(text)
  {
    hide OctetOf, HexOctets, TokenLen, AllSeps, CString, Prepend, Onto, IsSep;
    if text == "" {
      return None;
    }
    var s := CString(text);
    var id: seq<Octet> := [];
    var cur, end := Token(s, 0);
    NextToken(s, 0, cur);
    assert s[0..] == s;
    OntoNothing(HexOctets(s));
    while cur < |s|
      invariant cur <= end <= |s| && end == cur + TokenLen(s[cur..]) && (cur == |s| || !IsSep(s[cur]))
      invariant HexOctets(s) == Onto(id, HexOctets(s[cur..]))
      decreases |s| - cur
    {
      InToken(s, cur);
      var n := if cur + 1 == end then 1 else 2;
      var x := OctetOf(s[cur..cur + n]);
      HexPiece(s, cur, n);
      if x.None? {
        PrependNone(HexOctets(s[cur + n..]));
        OntoEnd(id);
        return None;
      }
      OntoNext(id, x, HexOctets(s[cur + n..]));
      id := id + [x.value];
      if cur + 2 >= end {
        var next;
        ghost var was := end;
        next, end := Token(s, end);
        NextToken(s, was, next);
        cur := next;
      } else {
        cur := cur + 2;
      }
    }
    assert s[cur..] == "";
    NothingRead();
    OntoEnd(id);
    r := Some(id);
  }

  /** A token of at least two characters has a second one that is no separator, and so on. */
  lemma InToken(s: string, cur: nat)
    requires cur < |s| && !IsSep(s[cur])
    ensures var n := TokenLen(s[cur..]);
            && n >= 1 && (n == 1 <==> cur + 1 == |s| || IsSep(s[cur + 1]))
            && (n > 2 ==> n == 2 + TokenLen(s[cur + 2..]) && !IsSep(s[cur + 2]))
  {
    assert s[cur..][1..] == s[cur + 1..];
    if cur + 1 < |s| {
      assert s[cur + 1..][1..] == s[cur + 2..];
    }
  }

  /** updatePortIdentity. */
  method UpdatePortIdentity(s: string) returns (r: Option<PortId>)
    requires NoNul(s)
    ensures r == ReadPortText(s)
  {
    var i := FirstDash(s);
    if i == |s| {
      return None;
    }
    var clock := FromHex(s[..i]);
    if clock.None? || |clock.value| != 8 {
      return None;
    }
    var port := Strtol(s[i + 1..], 0);
    if port.end != |s| - i - 1 || port.value < 0 || port.value > 0xffff {
      return None;
    }
    r := Some(PortIdentity(clock.value, port.value));
  }
}
