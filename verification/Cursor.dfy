/** The cursor of a message and the walkers that move it, in both directions. */
module Cursors {
  import opened Octets
  import opened Schema
  import opened Walkers
  import opened Decoding

  /** `before` with the octets `x` written from `at` on. */
  function Spliced(before: seq<Octet>, at: nat, x: seq<Octet>): (after: seq<Octet>)
    requires at + |x| <= |before|
    ensures |after| == |before|
  {
    before[..at] + x + before[at + |x|..]
  }

  lemma SplicedTwice(before: seq<Octet>, at: nat, x: seq<Octet>, y: seq<Octet>)
    requires at + |x| + |y| <= |before|
    ensures Spliced(Spliced(before, at, x), at + |x|, y) == Spliced(before, at, x + y)
  {
  }

  /** Only octets from `low` to `high` differ. */
  predicate SameOutside(before: seq<Octet>, after: seq<Octet>, low: nat, high: int) {
    && |before| == |after| && low <= high <= |before|
    && before[..low] == after[..low] && before[high..] == after[high..]
  }

  /** What a walker does with a structure in build: it writes the whole of it and normalises it, or fails, with the
      structure normalised up to the failing field, without touching an octet outside the room it was given. */
  ghost predicate Built(
    s: Schema, v: Value, cur: nat, left: int, before: seq<Octet>,
    fail: bool, r: Value, cur': nat, err: Status, after: seq<Octet>)
    requires Typed(s, v)
  {
    match BuildError(s, v, left)
    case None =>
      && !fail && r == Normalize(s, v) && cur' == cur + |Emit(s, v)| <= |before|
      && after == Spliced(before, cur, Emit(s, v))
    case Some(e) =>
      fail && err == e && r == Attempt(s, v, left) && left >= 0 && SameOutside(before, after, cur, cur + left)
  }

  ghost predicate BuiltAll(
    rec: Schema, items: seq<Value>, cur: nat, left: int, before: seq<Octet>,
    fail: bool, r: seq<Value>, cur': nat, err: Status, after: seq<Octet>)
    requires AllTyped(rec, items)
  {
    match BuildErrorAll(rec, items, left)
    case None =>
      && !fail && r == NormalizeAll(rec, items) && cur' == cur + |EmitAll(rec, items)| <= |before|
      && after == Spliced(before, cur, EmitAll(rec, items))
    case Some(e) =>
      fail && err == e && r == AttemptAll(rec, items, left) && left >= 0 && SameOutside(before, after, cur, cur + left)
  }

  /** What a walker does in parse: it decodes what stands at the cursor. */
  ghost predicate Parsed(
    s: Schema, b: seq<Octet>, cur: nat, fail: bool, r: Value, cur': nat, err: Status)
    requires Proper(s)
  {
    match Decode(s, b, cur)
    case Decoded(v, at) => !fail && r == v && cur' == at
    case Failed(e) => fail && err == e
  }

  method Write(buf: array<Octet>, at: nat, x: seq<Octet>)
    requires at + |x| <= buf.Length
    modifies buf
    ensures buf[..] == Spliced(old(buf[..]), at, x)
  {
    forall i | 0 <= i < |x| {
      buf[at + i] := x[i];
    }
    assert buf[..at] == old(buf[..at]) && buf[at..at + |x|] == x && buf[at + |x|..] == old(buf[at + |x|..]);
    assert buf[..] == buf[..at] + buf[at..at + |x|] + buf[at + |x|..];
  }

  class Cursor {
    const buf: array<Octet>
    const build: bool
    var cur: nat
    var left: int
    var size: nat
    var err: Status
    var reserved: Octet

    constructor (buf: array<Octet>, build: bool, cur: nat, left: int)
      requires 0 <= cur + left <= buf.Length && (build ==> left >= 0)
      ensures this.buf == buf && this.build == build && this.cur == cur && this.left == left && size == 0
      ensures Ready() && Limit() == cur + left
    {
      this.buf, this.build, this.cur, this.left := buf, build, cur, left;
      size, err, reserved := 0, TOO_SMALL, 0;
    }

    /** Where the room of the cursor ends.  `left` may be negative, the limit never passes the buffer. */
    ghost function Limit(): int
      reads this
    {
      cur + left
    }

    /** The state between two fields. */
    ghost predicate Ready()
      reads this
    {
      && 0 <= Limit() <= buf.Length && err == TOO_SMALL
      && (build ==> reserved == 0 && left >= 0)
    }

    /** The octets a parse may read. */
    ghost function Field(): seq<Octet>
      requires 0 <= Limit() <= buf.Length
      reads this, buf
    {
      buf[..Limit()]
    }

    method Move(n: nat)
      modifies this`cur, this`left, this`size
      ensures cur == old(cur) + n && left == old(left) - n && size == old(size) + n
    {
      cur := cur + n;
      left := left - n;
      size := size + n;
    }

    /** proc(uint8_t *, size_t), and the move that every integer overload makes. */
    method ProcOctets(n: nat, x: seq<Octet>) returns (fail: bool, r: seq<Octet>)
      requires Ready() && (build ==> |x| == n)
      modifies this`cur, this`left, this`size, buf
      ensures fail <==> old(left) < n
      ensures fail ==> r == x && cur == old(cur) && left == old(left) && size == old(size)
      ensures !fail ==> cur == old(cur) + n && left == old(left) - n && size == old(size) + n
      ensures !fail && !build ==> Take(old(Field()), old(cur), n) == Some(r)
      ensures !fail && build ==> r == x && buf[..] == Spliced(old(buf[..]), old(cur), x)
      ensures fail || !build ==> buf[..] == old(buf[..])
    {
      if left < n {
        return true, x;
      }
      if build {
        Write(buf, cur, x);
        r := x;
      } else {
        r := buf[cur..cur + n];
        assert r == Field()[cur..cur + n];
      }
      Move(n);
      fail := false;
    }

    /** The integer overloads of proc, and procLe. */
    method ProcNumber(c: Codec, n: int) returns (fail: bool, r: int)
      requires Ready() && (build ==> Fits(c, n))
      modifies this`cur, this`left, this`size, buf
      ensures fail <==> old(left) < c.w
      ensures fail ==> r == n && cur == old(cur) && left == old(left) && size == old(size)
      ensures !fail ==> cur == old(cur) + c.w && left == old(left) - c.w && size == old(size) + c.w
      ensures !fail && !build ==>
                Take(old(Field()), old(cur), c.w).Some? && r == Get(c, Take(old(Field()), old(cur), c.w).value)
      ensures !fail && build ==> r == n && buf[..] == Spliced(old(buf[..]), old(cur), Put(c, n))
      ensures fail || !build ==> buf[..] == old(buf[..])
    {
      var x: seq<Octet> := if build then Put(c, n) else [];
      fail, x := ProcOctets(c.w, x);
      r := if fail || build then n else Get(c, x);
    }

    /** proc48(uint64_t): the range check, then the high 16 bits and the low 32 bits. */
    method Proc48(n: nat) returns (fail: bool, r: nat)
      requires Ready() && (build ==> n < UINT64_LIMIT)
      modifies this`cur, this`left, this`size, this`err, buf
      ensures fail <==> (build && n >= UINT48_LIMIT) || old(left) < 6
      ensures cur + left == old(cur + left) && size - cur == old(size - cur)
      ensures fail ==> err == (if build && n >= UINT48_LIMIT then VAL else TOO_SMALL)
      ensures !fail ==> cur == old(cur) + 6 && err == TOO_SMALL
      ensures !fail && !build ==>
                Take(old(Field()), old(cur), 6).Some? && r == FromBigEndian(Take(old(Field()), old(cur), 6).value)
      ensures build ==> r == n
      ensures !fail && build ==> buf[..] == Spliced(old(buf[..]), old(cur), BigEndian(6, n))
      ensures fail && build ==> SameOutside(old(buf[..]), buf[..], old(cur), old(cur + left))
      ensures !build ==> buf[..] == old(buf[..])
    {
      hide Put, Get, Wrap;
      ghost var before := buf[..];
      Pow256Values();
      r := n;
      var high, low := 0, 0;
      if build {
        if n >= UINT48_LIMIT {
          err := VAL;
          return true, n;
        }
        high, low := n / 0x1_0000_0000, n % 0x1_0000_0000;
      }
      fail, high := ProcNumber(Unsigned(2), high);
      if fail {
        return;
      }
      ghost var mid := buf[..];
      fail, low := ProcNumber(Unsigned(4), low);
      if fail {
        return;
      }
      if build {
        Halves48(high, low);
        SplicedTwice(before, old(cur), Put(Unsigned(2), high), Put(Unsigned(4), low));
      } else {
        r := low + high * 0x1_0000_0000;
        Join48(before[..old(cur + left)], old(cur), high, low);
      }
    }

    /** proc48(int64_t): the encoder writes the 48-bit two's complement of every value in range; the decoder puts
        the sign into bit 63 without extending it. */
    method ProcSigned48(n: int) returns (fail: bool, r: int)
      requires Ready() && (build ==> -UINT64_LIMIT / 2 <= n < UINT64_LIMIT / 2)
      modifies this`cur, this`left, this`size, this`err, buf
      ensures fail <==> (build && !(-INT48_LIMIT <= n < INT48_LIMIT)) || old(left) < 6
      ensures cur + left == old(cur + left) && size - cur == old(size - cur)
      ensures fail ==> err == (if build && !(-INT48_LIMIT <= n < INT48_LIMIT) then VAL else TOO_SMALL)
      ensures !fail ==> cur == old(cur) + 6 && err == TOO_SMALL
      ensures !fail && build ==>
                r == n && Fits(Signed(6), n) && buf[..] == Spliced(old(buf[..]), old(cur), Put(Signed(6), n))
      ensures !fail && !build ==>
                && Take(old(Field()), old(cur), 6).Some?
                && r == ReadSigned48(Take(old(Field()), old(cur), 6).value)
      ensures fail && build ==> SameOutside(old(buf[..]), buf[..], old(cur), old(cur + left))
      ensures !build ==> buf[..] == old(buf[..])
    {
      hide Put, Get, Wrap;
      ghost var before := buf[..];
      Pow256Values();
      r := n;
      var high, low := 0, 0;
      if build {
        if n < -INT48_LIMIT || n >= INT48_LIMIT {
          err := VAL;
          return true, n;
        }
        high, low := n / 0x1_0000_0000 % 0x8000, n % 0x1_0000_0000;
        if n < 0 {
          high := high + 0x8000;
        }
      }
      fail, high := ProcNumber(Unsigned(2), high);
      if fail {
        return;
      }
      fail, low := ProcNumber(Unsigned(4), low);
      if fail {
        return;
      }
      if build {
        Split48(n, high, low);
        SplicedTwice(before, old(cur), Put(Unsigned(2), high), Put(Unsigned(4), low));
      } else {
        r := low + high % 0x8000 * 0x1_0000_0000;
        if high >= 0x8000 {
          r := r - UINT64_LIMIT / 2;
        }
        Join48(before[..old(cur + left)], old(cur), high, low);
        HighAndLow48(high, low);
      }
    }

    /** procFlags. */
    method ProcFlags(mask: Octet, n: Octet) returns (fail: bool, r: Octet)
      requires Ready()
      modifies this`cur, this`left, this`size, buf
      ensures fail <==> old(left) < 1
      ensures cur + left == old(cur + left) && size - cur == old(size - cur)
      ensures !fail ==> cur == old(cur) + 1
      ensures !fail && !build ==> Take(old(Field()), old(cur), 1) == Some([r])
      ensures build ==> r == MaskFlags(mask, n)
      ensures !fail && build ==> buf[..] == Spliced(old(buf[..]), old(cur), [r])
      ensures fail || !build ==> buf[..] == old(buf[..])
    {
      r := n;
      if build {
        if mask > 1 {
          r := And(n, mask);
        } else if n > 0 {
          r := 1;
        }
      }
      var x: seq<Octet>;
      fail, x := ProcOctets(1, [r]);
      if !fail {
        r := x[0];
        assert x == [r];
      }
    }

    /** A length field followed by the octets it counts: proc(PTPText_t), and an address after its length. */
    method ProcSized(w: nat, v: Value) returns (fail: bool, r: Value)
      requires Ready() && Proper(Sized(w)) && (build ==> Typed(Sized(w), v))
      modifies this`cur, this`left, this`size, buf
      ensures cur + left == old(cur + left) && size - cur == old(size - cur)
      ensures build ==> Built(Sized(w), v, old(cur), old(left), old(buf[..]), fail, r, cur, err, buf[..])
      ensures !build ==> Parsed(Sized(w), old(Field()), old(cur), fail, r, cur, err) && buf[..] == old(buf[..])
    {
      hide Wrap, Get, Put, BigEndian, Built, Parsed, Take;
      ghost var before, b := buf[..], Field();
      var len := if build then Wrap(Unsigned(w), |v.s|) else 0;
      r := if build then Blob(len, v.s) else v;
      fail, len := ProcNumber(Unsigned(w), len);
      if fail {
        if build { BuiltNoRoom(Sized(w), v, cur, left, before); }
        else { ParsedNoRoom(Sized(w), b, cur, v); }
        return;
      }
      assert !build ==> Field() == b;
      var x: seq<Octet> := if build then v.s else [];
      fail, x := ProcOctets(if build then |v.s| else len, x);
      if !fail {
        r := Blob(len, x);
      }
      if build {
        BuiltSized(w, v, old(cur), old(left), before, fail, r, cur, err, buf[..]);
      } else {
        ParsedSized(w, b, old(cur), len, fail, x, r, cur, err);
      }
    }

    /** proc(Float64_t), with the number given by its word (module Binary64): the octets are moved once, the cursor
        twice. */
    method ProcFloat64(n: nat) returns (fail: bool, r: nat)
      requires Ready() && (build ==> n < UINT64_LIMIT)
      modifies this`cur, this`left, this`size, buf
      ensures cur + left == old(cur + left) && size - cur == old(size - cur)
      ensures fail <==> old(left) < 8
      ensures fail ==> cur == old(cur) && r == n
      ensures !fail ==> cur == old(cur) + 16
      ensures !fail && !build ==>
                Take(old(Field()), old(cur), 8).Some? && r == FromBigEndian(Take(old(Field()), old(cur), 8).value)
      ensures !fail && build ==> r == n && buf[..] == Spliced(old(buf[..]), old(cur), BigEndian(8, n))
      ensures fail || !build ==> buf[..] == old(buf[..])
    {
      r := n;
      var x: seq<Octet> := if build then BigEndian(8, n) else [];
      fail, x := ProcOctets(8, x);
      if fail {
        return;
      }
      if !build {
        r := FromBigEndian(x);
      }
      Move(8);
    }

    /** Numbers and flags. */
    method ProcScalar(s: Schema, v: Value) returns (fail: bool, r: Value)
      requires Ready() && (build ==> Typed(s, v)) && (s.Number? || s.Unsigned48? || s.Flags?)
      modifies this`cur, this`left, this`size, this`err, buf
      ensures cur + left == old(cur + left) && size - cur == old(size - cur)
      ensures !fail ==> Ready()
      ensures build ==> Built(s, v, old(cur), old(left), old(buf[..]), fail, r, cur, err, buf[..])
      ensures !build ==> Parsed(s, old(Field()), old(cur), fail, r, cur, err) && buf[..] == old(buf[..])
    {
      var n := if build then v.n else 0;
      match s {
        case Number(c) => fail, n := ProcNumber(c, n);
        case Unsigned48 => fail, n := Proc48(n);
        case Flags(mask) => fail, n := ProcFlags(mask, n);
      }
      r := if fail && !build then v else Int(n);
    }

    /** Octets of a given number, a reserved octet, and all octets left. */
    method ProcRaw(s: Schema, v: Value) returns (fail: bool, r: Value)
      requires Ready() && (build ==> Typed(s, v)) && (s.Reserved? || s.Fixed? || s.Remaining?)
      modifies this`cur, this`left, this`size, this`reserved, buf
      ensures cur + left == old(cur + left) && size - cur == old(size - cur)
      ensures !fail ==> Ready()
      ensures build ==> Built(s, v, old(cur), old(left), old(buf[..]), fail, r, cur, err, buf[..])
      ensures !build ==> Parsed(s, old(Field()), old(cur), fail, r, cur, err) && buf[..] == old(buf[..])
    {
      r := v;
      if s.Reserved? {
        var x: seq<Octet>;
        fail, x := ProcOctets(1, [reserved]);
        if !fail {
          reserved := x[0];
          r := Void;
        }
      } else {
        var x: seq<Octet> := if build then v.s else [];
        fail, x := ProcOctets(if s.Fixed? then s.n else if build then |v.s| else left % 0x1_0000, x);
        r := if fail then v else Octs(x);
      }
    }

    /** The overloads of proc that move a single field. */
    method ProcField(s: Schema, v: Value) returns (fail: bool, r: Value)
      requires Ready() && Proper(s) && (build ==> NoFloat(s) && Typed(s, v))
      requires !(s.Both? || s.Repeat? || s.Table? || s.Many? || s.Checked?)
      modifies this`cur, this`left, this`size, this`err, this`reserved, buf
      ensures cur + left == old(cur + left) && size - cur == old(size - cur)
      ensures !fail ==> Ready()
      ensures build ==> Built(s, v, old(cur), old(left), old(buf[..]), fail, r, cur, err, buf[..])
      ensures !build ==> Parsed(s, old(Field()), old(cur), fail, r, cur, err) && buf[..] == old(buf[..])
    {
      r := v;
      match s
      case Reserved => fail, r := ProcRaw(s, v);
      case Fixed(_) => fail, r := ProcRaw(s, v);
      case Remaining => fail, r := ProcRaw(s, v);
      case Sized(w) => fail, r := ProcSized(w, v);
      case Float64 =>
        var n;
        fail, n := ProcFloat64(0);
        r := if fail then v else Int(n);
      case Number(_) => fail, r := ProcScalar(s, v);
      case Unsigned48 => fail, r := ProcScalar(s, v);
      case Flags(_) => fail, r := ProcScalar(s, v);
    }

    /** The walker of a field list. */
    method Walk(s: Schema, v: Value) returns (fail: bool, r: Value)
      requires Ready() && Proper(s) && (build ==> NoFloat(s) && Typed(s, v))
      modifies this`cur, this`left, this`size, this`err, this`reserved, buf
      ensures cur + left == old(cur + left) && size - cur == old(size - cur)
      ensures !fail ==> Ready()
      ensures build ==> Built(s, v, old(cur), old(left), old(buf[..]), fail, r, cur, err, buf[..])
      ensures !build ==> Parsed(s, old(Field()), old(cur), fail, r, cur, err) && buf[..] == old(buf[..])
      decreases s, 1
    {
      match s
      case Both(_, _) => fail, r := WalkBoth(s, v);
      case Repeat(_, _) => fail, r := WalkList(s, v);
      case Table(_, _, _) => fail, r := WalkTable(s, v);
      case Many(_, _) => fail, r := WalkList(s, v);
      case Checked(_) => fail, r := WalkChecked(s, v);
      case _ => fail, r := ProcField(s, v);
    }

    /** `proc(a) || proc(b)`. */
    method WalkBoth(s: Schema, v: Value) returns (fail: bool, r: Value)
      requires s.Both? && Ready() && Proper(s) && (build ==> NoFloat(s) && Typed(s, v))
      modifies this`cur, this`left, this`size, this`err, this`reserved, buf
      ensures cur + left == old(cur + left) && size - cur == old(size - cur)
      ensures !fail ==> Ready()
      ensures build ==> Built(s, v, old(cur), old(left), old(buf[..]), fail, r, cur, err, buf[..])
      ensures !build ==> Parsed(s, old(Field()), old(cur), fail, r, cur, err) && buf[..] == old(buf[..])
      decreases s, 0
    {
      hide Emit, Normalize, BuildError, Attempt, Decode;
      ghost var before := buf[..];
      var x, y;
      r := v;
      if build { PartsTyped(s, v); }
      fail, x := Walk(s.first, if build then v.first else Void);
      if fail {
        if build {
          BuiltFirstFails(s, v, old(cur), old(left), before, x, cur, err, buf[..]);
          r := Pair(x, Preset(s.second, v.second));
        }
        else { ParsedFirstFails(s, before[..Limit()], old(cur), r, cur, err); }
        return;
      }
      ghost var mid, at := buf[..], cur;
      fail, y := Walk(s.second, if build then v.second else Void);
      r := if fail && !build then v else Pair(x, y);
      if build {
        BuiltSecond(s, v, old(cur), old(left), before, x, at, mid, fail, y, r, cur, err, buf[..]);
      } else {
        ParsedSecond(s, before[..Limit()], old(cur), x, at, fail, y, r, cur, err);
      }
    }

    /** vector_b: the records of a list in build. */
    method BuildItems(rec: Schema, items: seq<Value>) returns (fail: bool, r: seq<Value>)
      requires build && Ready() && Proper(rec) && NoFloat(rec) && AllTyped(rec, items)
      modifies this`cur, this`left, this`size, this`err, this`reserved, buf
      ensures cur + left == old(cur + left) && size - cur == old(size - cur)
      ensures !fail ==> Ready()
      ensures BuiltAll(rec, items, old(cur), old(left), old(buf[..]), fail, r, cur, err, buf[..])
      decreases rec, 2
    {
      hide Emit, Normalize, BuildError, Attempt, Typed, Proper, NoFloat, SoFar, Built, BuiltAll;
      ghost var before := buf[..];
      r := [];
      var i := 0;
      NoneSoFar(rec, items, cur, left, before);
      while i < |items|
        invariant 0 <= i <= |items| && Ready() && cur + left == old(cur + left) && size - cur == old(size - cur)
        invariant SoFar(rec, items, i, old(cur), old(left), before, r, cur, left, buf[..])
      {
        var x;
        ghost var mid, at, room := buf[..], cur, left;
        fail, x := Walk(rec, items[i]);
        if fail {
          ItemFails(rec, items, i, old(cur), old(left), before, r, at, room, mid, x, cur, err, buf[..]);
          r := r + [x] + items[i + 1..];
          return;
        }
        NextItem(rec, items, i, old(cur), old(left), before, r, at, room, mid, x, cur, buf[..]);
        r := r + [x];
        i := i + 1;
      }
      fail := false;
      AllItems(rec, items, old(cur), old(left), before, r, cur, left, err, buf[..]);
    }

    /** The loop of vector_f, and the for loops over fixed arrays, in parse. */
    method ParseCount(rec: Schema, n: nat) returns (fail: bool, r: seq<Value>)
      requires !build && Ready() && Proper(rec)
      modifies this`cur, this`left, this`size, this`err, this`reserved, buf
      ensures cur + left == old(cur + left) && size - cur == old(size - cur) && buf[..] == old(buf[..])
      ensures !fail ==> Ready()
      ensures match DecodeCount(rec, old(Field()), old(cur), n, [])
              case Decoded(v, at) => !fail && Items(r) == v && cur == at
              case Failed(e) => fail && err == e
      decreases rec, 2
    {
      hide Decode, Proper;
      ghost var b := Field();
      r := [];
      var i := 0;
      while i < n
        invariant 0 <= i <= n && Ready() && cur + left == old(cur + left) && size - cur == old(size - cur)
        invariant buf[..] == old(buf[..])
        invariant DecodeCount(rec, b, old(cur), n, []) == DecodeCount(rec, b, cur, n - i, r)
      {
        var x;
        assert Field() == b;
        fail, x := Walk(rec, Void);
        if fail {
          return;
        }
        r := r + [x];
        i := i + 1;
      }
      fail := false;
    }

    /** The loop of vector_o in parse. */
    method ParseMany(size_: nat, rec: Schema) returns (fail: bool, r: seq<Value>)
      requires !build && Ready() && Proper(rec) && size_ > 0 && IsFixed(rec) && FixedLen(rec) == size_
      modifies this`cur, this`left, this`size, this`err, this`reserved, buf
      ensures cur + left == old(cur + left) && size - cur == old(size - cur) && buf[..] == old(buf[..])
      ensures !fail ==> Ready()
      ensures match DecodeMany(size_, rec, old(Field()), old(cur), [])
              case Decoded(v, at) => !fail && Items(r) == v && cur == at
              case Failed(e) => fail && err == e
      decreases rec, 2
    {
      hide Decode, Proper, IsFixed, FixedLen;
      ghost var b := Field();
      r := [];
      while left >= size_
        invariant Ready() && cur + left == old(cur + left) && size - cur == old(size - cur)
        invariant buf[..] == old(buf[..])
        invariant DecodeMany(size_, rec, b, old(cur), []) == DecodeMany(size_, rec, b, cur, r)
        decreases if left < 0 then 0 else left
      {
        var x;
        ghost var at := cur;
        assert Field() == b;
        fail, x := Walk(rec, Void);
        if fail {
          return;
        }
        assert cur == at + size_;
        r := r + [x];
      }
      fail := false;
    }

    /** A fixed array or a countless list. */
    method WalkList(s: Schema, v: Value) returns (fail: bool, r: Value)
      requires (s.Repeat? || s.Many?) && Ready() && Proper(s) && (build ==> NoFloat(s) && Typed(s, v))
      modifies this`cur, this`left, this`size, this`err, this`reserved, buf
      ensures cur + left == old(cur + left) && size - cur == old(size - cur)
      ensures !fail ==> Ready()
      ensures build ==> Built(s, v, old(cur), old(left), old(buf[..]), fail, r, cur, err, buf[..])
      ensures !build ==> Parsed(s, old(Field()), old(cur), fail, r, cur, err) && buf[..] == old(buf[..])
      decreases s, 0
    {
      var items;
      if build {
        fail, items := BuildItems(s.rec, v.items);
      } else if s.Repeat? {
        fail, items := ParseCount(s.rec, s.n);
      } else {
        fail, items := ParseMany(s.size, s.rec);
      }
      r := if fail && !build then v else Items(items);
    }

    /** A list after its count. */
    method WalkTable(s: Schema, v: Value) returns (fail: bool, r: Value)
      requires s.Table? && Ready() && Proper(s) && (build ==> NoFloat(s) && Typed(s, v))
      modifies this`cur, this`left, this`size, this`err, this`reserved, buf
      ensures cur + left == old(cur + left) && size - cur == old(size - cur)
      ensures !fail ==> Ready()
      ensures build ==> Built(s, v, old(cur), old(left), old(buf[..]), fail, r, cur, err, buf[..])
      ensures !build ==> Parsed(s, old(Field()), old(cur), fail, r, cur, err) && buf[..] == old(buf[..])
      decreases s, 0
    {
      hide Wrap, Get, Put, DecodeCount, Built, BuiltAll, Parsed;
      ghost var before, b := buf[..], Field();
      var count := if !build then 0 else if s.counted then Wrap(s.c, |v.items|) else v.count;
      r := if build then Counted(count, v.items) else v;
      fail, count := ProcNumber(s.c, count);
      if fail {
        if build { BuiltNoRoom(s, v, cur, left, before); }
        else { ParsedNoRoom(s, b, cur, v); }
        return;
      }
      var items;
      if build {
        ghost var mid := buf[..];
        fail, items := BuildItems(s.rec, v.items);
        r := Counted(count, items);
        BuiltTable(s, v, old(cur), old(left), before, mid, fail, items, r, cur, err, buf[..]);
      } else {
        assert Field() == b;
        fail, items := ParseCount(s.rec, AsCount(count));
        r := if fail then v else Counted(count, items);
        ParsedTable(s, b, old(cur), count, fail, items, r, cur, err);
      }
    }

    /** proc(FaultRecord_t): a record whose declared length is not its own is refused. */
    method WalkChecked(s: Schema, v: Value) returns (fail: bool, r: Value)
      requires s.Checked? && Ready() && Proper(s) && (build ==> NoFloat(s) && Typed(s, v))
      modifies this`cur, this`left, this`size, this`err, this`reserved, buf
      ensures cur + left == old(cur + left) && size - cur == old(size - cur)
      ensures !fail ==> Ready()
      ensures build ==> Built(s, v, old(cur), old(left), old(buf[..]), fail, r, cur, err, buf[..])
      ensures !build ==> Parsed(s, old(Field()), old(cur), fail, r, cur, err) && buf[..] == old(buf[..])
      decreases s, 0
    {
      hide FaultLengthOk, Built, Decode;
      fail, r := Walk(s.rec, v);
      ghost var fail', err' := fail, err;
      if !fail && !FaultLengthOk(r) {
        err := SIZE_MISS;
        fail := true;
      }
      if build {
        BuiltChecked(s, v, old(cur), old(left), old(buf[..]), fail', r, cur, err', buf[..]);
      } else {
        ParsedChecked(s, old(Field()), old(cur), fail', r, cur, err');
      }
    }
  }

  /** Two halves read one after the other are the 6-octet number. */
  lemma Join48(b: seq<Octet>, at: nat, high: nat, low: nat)
    requires at + 6 <= |b|
    requires high == Get(Unsigned(2), b[at..at + 2]) && low == Get(Unsigned(4), b[at + 2..at + 6])
    ensures FromBigEndian(b[at..at + 6]) == low + high * 0x1_0000_0000
  {
    Pow256Values();
    var x, y := b[at..at + 2], b[at + 2..at + 6];
    GetThenPut(Unsigned(2), x);
    GetThenPut(Unsigned(4), y);
    BigEndianSplit(2, 4, high, low);
    assert b[at..at + 6] == x + y;
    BigEndianRoundTrip(6, low + high * 0x1_0000_0000);
  }

  lemma Halves48(high: nat, low: nat)
    requires high < 0x1_0000 && low < 0x1_0000_0000
    ensures Fits(Unsigned(2), high) && Fits(Unsigned(4), low)
    ensures Put(Unsigned(2), high) + Put(Unsigned(4), low) == BigEndian(6, high * 0x1_0000_0000 + low)
  {
    Pow256Values();
    BigEndianSplit(2, 4, high, low);
  }

  /** The two stores of a negative or non-negative number are its 48-bit two's complement. */
  lemma Split48(n: int, high: nat, low: nat)
    requires -INT48_LIMIT <= n < INT48_LIMIT && low == n % 0x1_0000_0000
    requires high == n / 0x1_0000_0000 % 0x8000 + if n < 0 then 0x8000 else 0
    ensures Fits(Signed(6), n) && Fits(Unsigned(2), high) && Fits(Unsigned(4), low)
    ensures Put(Unsigned(2), high) + Put(Unsigned(4), low) == Put(Signed(6), n)
  {
    Pow256Values();
    var q := n / 0x1_0000_0000;
    assert -0x8000 <= q < 0x8000;
    assert q % 0x8000 == if q < 0 then q + 0x8000 else q;
    BigEndianSplit(2, 4, high, low);
  }

  lemma HighAndLow48(high: nat, low: nat)
    requires high < 0x1_0000 && low < 0x1_0000_0000
    ensures var u := low + high * 0x1_0000_0000;
            u % INT48_LIMIT == low + high % 0x8000 * 0x1_0000_0000 && (u >= INT48_LIMIT <==> high >= 0x8000)
  {
    var q, r := high / 0x8000, high % 0x8000;
    assert low + high * 0x1_0000_0000 == q * INT48_LIMIT + (low + r * 0x1_0000_0000);
  }

  /** The signed decoder: bits 0 to 46 as they are, bit 47 moved to bit 63. */
  function ReadSigned48(x: seq<Octet>): int
    requires |x| == 6
  {
    var u := FromBigEndian(x);
    u % INT48_LIMIT - if u >= INT48_LIMIT then UINT64_LIMIT / 2 else 0
  }

  /** The signed decoder inverts the encoder exactly for the values that are not negative; a negative value comes
      back too low by 2^63 - 2^47, since its sign is not extended. */
  lemma Signed48RoundTrip(v: int)
    requires -INT48_LIMIT <= v < INT48_LIMIT
    ensures Fits(Signed(6), v)
    ensures ReadSigned48(Put(Signed(6), v)) == v <==> v >= 0
    ensures v < 0 ==> ReadSigned48(Put(Signed(6), v)) == v - (UINT64_LIMIT / 2 - INT48_LIMIT)
  {
    Pow256Values();
    BigEndianRoundTrip(6, if v < 0 then v + UINT48_LIMIT else v);
  }

  /** proc(Binary &, uint16_t) in build checks the room for the length modulo 2^16 and then copies the whole address:
      it writes outside a room of `left` octets exactly when this holds. */
  predicate WritesOutside(length: nat, left: nat) { length % 0x1_0000 <= left < length }

  /** So an address can be written outside some room if and only if it has 65536 octets or more. */
  lemma LongAddressesOnly(length: nat)
    ensures (exists left: nat :: WritesOutside(length, left)) <==> length >= 0x1_0000
  {
    if length >= 0x1_0000 {
      assert WritesOutside(length, length % 0x1_0000);
    }
  }

  lemma UnsignedGet(w: nat, x: seq<Octet>)
    requires |x| == w
    ensures Get(Unsigned(w), x) == FromBigEndian(x)
  {
    FromBigEndianRoundTrip(x);
    WrapSmall(Unsigned(w), FromBigEndian(x));
  }

  /** The length or the count finds no room. */
  lemma BuiltNoRoom(s: Schema, v: Value, cur: nat, left: int, before: seq<Octet>)
    requires (s.Sized? || s.Table?) && Typed(s, v) && 0 <= left < (if s.Sized? then s.w else s.c.w)
    requires cur + left <= |before|
    ensures Built(s, v, cur, left, before, true, Attempt(s, v, left), cur, TOO_SMALL, before)
    ensures s.Sized? ==> Attempt(s, v, left) == Blob(Wrap(Unsigned(s.w), |v.s|), v.s)
    ensures s.Table? ==>
              Attempt(s, v, left) == Counted(if s.counted then Wrap(s.c, |v.items|) else v.count, v.items)
  {
    hide Wrap, Put, EmitAll, NormalizeAll, BuildErrorAll, AttemptAll;
  }

  lemma ParsedNoRoom(s: Schema, b: seq<Octet>, cur: nat, v: Value)
    requires (s.Sized? || s.Table?) && Proper(s) && |b| - cur < (if s.Sized? then s.w else s.c.w)
    ensures Parsed(s, b, cur, true, v, cur, TOO_SMALL)
  {
    hide Get, DecodeCount;
  }

  lemma ParsedSized(
    w: nat, b: seq<Octet>, cur: nat, len: nat, fail: bool, x: seq<Octet>, r: Value, cur': nat, err: Status)
    requires Proper(Sized(w)) && Take(b, cur, w).Some? && len == Get(Unsigned(w), Take(b, cur, w).value)
    requires fail <==> |b| - cur - w < len
    requires if fail then err == TOO_SMALL
             else r == Blob(len, x) && Take(b, cur + w, len) == Some(x) && cur' == cur + w + len
    ensures Parsed(Sized(w), b, cur, fail, r, cur', err)
  {
    hide Get;
    UnsignedGet(w, Take(b, cur, w).value);
  }

  lemma ParsedTable(
    s: Schema, b: seq<Octet>, cur: nat, count: int, fail: bool, items: seq<Value>, r: Value, cur': nat, err: Status)
    requires s.Table? && Proper(s) && Take(b, cur, s.c.w).Some? && count == Get(s.c, Take(b, cur, s.c.w).value)
    requires match DecodeCount(s.rec, b, cur + s.c.w, AsCount(count), [])
             case Decoded(v, at) => !fail && Items(items) == v && r == Counted(count, items) && cur' == at
             case Failed(e) => fail && err == e
    ensures Parsed(s, b, cur, fail, r, cur', err)
  {
    hide Get, DecodeCount;
  }

  lemma BuiltSized(
    w: nat, v: Value, cur: nat, left: int, before: seq<Octet>,
    fail: bool, r: Value, cur': nat, err: Status, after: seq<Octet>)
    requires 1 <= w <= 2 && Typed(Sized(w), v) && w <= left && cur + left <= |before|
    requires var len := Wrap(Unsigned(w), |v.s|);
             var mid := Spliced(before, cur, Put(Unsigned(w), len));
             && r == Blob(len, v.s)
             && if left - w < |v.s| then fail && err == TOO_SMALL && after == mid
                else !fail && cur' == cur + w + |v.s| && after == Spliced(mid, cur + w, v.s)
    ensures Built(Sized(w), v, cur, left, before, fail, r, cur', err, after)
  {
    hide Wrap;
    var len := BigEndian(w, Wrap(Unsigned(w), |v.s|));
    if left - w < |v.s| {
      assert SameOutside(before, after, cur, cur + left);
    } else {
      SplicedTwice(before, cur, len, v.s);
    }
  }

  lemma PartsTyped(s: Schema, v: Value)
    requires s.Both? && Typed(s, v)
    ensures v.Pair? && Typed(s.first, v.first) && Typed(s.second, v.second)
  {
  }

  lemma BuiltFirstFails(
    s: Schema, v: Value, cur: nat, left: int, before: seq<Octet>,
    x: Value, cur': nat, err: Status, after: seq<Octet>)
    requires s.Both? && Typed(s, v)
    requires Built(s.first, v.first, cur, left, before, true, x, cur', err, after)
    ensures Built(s, v, cur, left, before, true, Pair(x, Preset(s.second, v.second)), cur', err, after)
  {
  }

  lemma BothBuild(s: Schema, v: Value, left: int)
    requires s.Both? && Typed(s, v)
    ensures Emit(s, v) == Emit(s.first, v.first) + Emit(s.second, v.second)
    ensures Normalize(s, v) == Pair(Normalize(s.first, v.first), Normalize(s.second, v.second))
    ensures BuildError(s, v, left)
         == var e := BuildError(s.first, v.first, left);
            if e.Some? then e else BuildError(s.second, v.second, left - |Emit(s.first, v.first)|)
    ensures Attempt(s, v, left)
         == if BuildError(s.first, v.first, left).Some?
            then Pair(Attempt(s.first, v.first, left), Preset(s.second, v.second))
            else Pair(Normalize(s.first, v.first), Attempt(s.second, v.second, left - |Emit(s.first, v.first)|))
  {
  }

  lemma BuiltSecond(
    s: Schema, v: Value, cur: nat, left: int, before: seq<Octet>,
    x: Value, at: nat, mid: seq<Octet>,
    fail: bool, y: Value, r: Value, cur': nat, err: Status, after: seq<Octet>)
    requires s.Both? && Typed(s, v) && left >= 0 && cur + left <= |before|
    requires Built(s.first, v.first, cur, left, before, false, x, at, TOO_SMALL, mid)
    requires Built(s.second, v.second, at, left - (at - cur), mid, fail, y, cur', err, after)
    requires r == Pair(x, y)
    ensures Built(s, v, cur, left, before, fail, r, cur', err, after)
  {
    hide Emit, Normalize, BuildError, Attempt, InRange;
    BothBuild(s, v, left);
    BuildThreshold(s.first, v.first, left);
    var e := Emit(s.first, v.first);
    if fail {
      assert before[..cur] == after[..cur] by { assert after[..at] == mid[..at]; }
      assert before[cur + left..] == mid[cur + left..] == after[cur + left..];
    } else {
      SplicedTwice(before, cur, e, Emit(s.second, v.second));
    }
  }

  lemma ParsedFirstFails(s: Schema, b: seq<Octet>, cur: nat, r: Value, cur': nat, err: Status)
    requires s.Both? && Proper(s)
    requires exists x :: Parsed(s.first, b, cur, true, x, cur', err)
    ensures Parsed(s, b, cur, true, r, cur', err)
  {
  }

  lemma ParsedSecond(
    s: Schema, b: seq<Octet>, cur: nat, x: Value, at: nat, fail: bool, y: Value, r: Value, cur': nat, err: Status)
    requires s.Both? && Proper(s)
    requires Parsed(s.first, b, cur, false, x, at, TOO_SMALL) && Parsed(s.second, b, at, fail, y, cur', err)
    requires !fail ==> r == Pair(x, y)
    ensures Parsed(s, b, cur, fail, r, cur', err)
  {
  }

  /** The first `i` records are written and normalised. */
  ghost predicate SoFar(
    rec: Schema, items: seq<Value>, i: nat, cur: nat, left: int, before: seq<Octet>,
    r: seq<Value>, cur': nat, left': int, after: seq<Octet>)
    requires AllTyped(rec, items) && i <= |items|
  {
    && AllTyped(rec, items[..i]) && AllTyped(rec, items[i..])
    && r == NormalizeAll(rec, items[..i])
    && cur' == cur + |EmitAll(rec, items[..i])| <= |before| && cur' + left' == cur + left <= |before|
    && after == Spliced(before, cur, EmitAll(rec, items[..i]))
    && BuildErrorAll(rec, items, left) == BuildErrorAll(rec, items[i..], left')
    && AttemptAll(rec, items, left) == r + AttemptAll(rec, items[i..], left')
  }

  lemma NoneSoFar(rec: Schema, items: seq<Value>, cur: nat, left: int, before: seq<Octet>)
    requires AllTyped(rec, items) && cur <= |before| && cur + left <= |before|
    ensures SoFar(rec, items, 0, cur, left, before, [], cur, left, before)
  {
    hide Emit, Normalize, BuildError, Attempt, Typed;
    assert items[0..] == items;
    assert Spliced(before, cur, []) == before;
  }

  lemma AttemptNext(rec: Schema, items: seq<Value>, room: int, r: seq<Value>)
    requires AllTyped(rec, items) && items != [] && BuildError(rec, items[0], room).None?
    ensures AllTyped(rec, items[1..])
    ensures r + AttemptAll(rec, items, room)
         == (r + [Normalize(rec, items[0])]) + AttemptAll(rec, items[1..], room - |Emit(rec, items[0])|)
  {
    hide Emit, Normalize, BuildError, Attempt, Typed;
    var n, rest := Normalize(rec, items[0]), AttemptAll(rec, items[1..], room - |Emit(rec, items[0])|);
    assert r + ([n] + rest) == (r + [n]) + rest;
  }

  lemma NextItem(
    rec: Schema, items: seq<Value>, i: nat, cur: nat, left: int, before: seq<Octet>,
    r: seq<Value>, at: nat, room: int, mid: seq<Octet>, x: Value, cur': nat, after: seq<Octet>)
    requires AllTyped(rec, items) && i < |items| && room >= 0
    requires SoFar(rec, items, i, cur, left, before, r, at, room, mid)
    requires Built(rec, items[i], at, room, mid, false, x, cur', TOO_SMALL, after)
    ensures SoFar(rec, items, i + 1, cur, left, before, r + [x], cur', room - (cur' - at), after)
  {
    hide Emit, EmitAll, Normalize, NormalizeAll, BuildError, Attempt, AttemptAll, Typed, InRange;
    EmitAllAppend(rec, items[..i], items[i]);
    assert items[..i + 1] == items[..i] + [items[i]];
    assert items[i..][1..] == items[i + 1..];
    BuildThreshold(rec, items[i], room);
    AttemptNext(rec, items[i..], room, r);
    SplicedTwice(before, cur, EmitAll(rec, items[..i]), Emit(rec, items[i]));
  }

  lemma ItemFails(
    rec: Schema, items: seq<Value>, i: nat, cur: nat, left: int, before: seq<Octet>,
    r: seq<Value>, at: nat, room: int, mid: seq<Octet>, x: Value, cur': nat, err: Status, after: seq<Octet>)
    requires AllTyped(rec, items) && i < |items| && left >= 0 && room >= 0
    requires SoFar(rec, items, i, cur, left, before, r, at, room, mid)
    requires Built(rec, items[i], at, room, mid, true, x, cur', err, after)
    ensures BuiltAll(rec, items, cur, left, before, true, r + [x] + items[i + 1..], cur', err, after)
  {
    hide Emit, Normalize, BuildError, Attempt, Typed;
    assert items[i..][1..] == items[i + 1..];
    assert r + ([x] + items[i + 1..]) == r + [x] + items[i + 1..];
    assert before[..cur] == mid[..cur] == mid[..at][..cur] == after[..at][..cur] == after[..cur];
    assert before[cur + left..] == mid[cur + left..] == after[cur + left..];
  }

  lemma AllItems(
    rec: Schema, items: seq<Value>, cur: nat, left: int, before: seq<Octet>,
    r: seq<Value>, cur': nat, left': int, err: Status, after: seq<Octet>)
    requires AllTyped(rec, items) && SoFar(rec, items, |items|, cur, left, before, r, cur', left', after)
    ensures BuiltAll(rec, items, cur, left, before, false, r, cur', err, after)
  {
    hide Emit, Normalize, BuildError, Typed;
    assert items[..|items|] == items && items[|items|..] == [];
  }

  lemma BuiltTable(
    s: Schema, v: Value, cur: nat, left: int, before: seq<Octet>, mid: seq<Octet>,
    fail: bool, items: seq<Value>, r: Value, cur': nat, err: Status, after: seq<Octet>)
    requires s.Table? && Typed(s, v) && s.c.w <= left && cur + left <= |before|
    requires var count := if s.counted then Wrap(s.c, |v.items|) else v.count;
             && mid == Spliced(before, cur, Put(s.c, count))
             && r == Counted(count, items)
    requires BuiltAll(s.rec, v.items, cur + s.c.w, left - s.c.w, mid, fail, items, cur', err, after)
    ensures Built(s, v, cur, left, before, fail, r, cur', err, after)
  {
    hide Wrap, Put, EmitAll, NormalizeAll, BuildErrorAll, AttemptAll;
    var count := if s.counted then Wrap(s.c, |v.items|) else v.count;
    if fail {
      assert before[..cur] == mid[..cur] == mid[..cur + s.c.w][..cur] == after[..cur + s.c.w][..cur] == after[..cur];
      assert before[cur + left..] == mid[cur + left..] == after[cur + left..];
    } else {
      SplicedTwice(before, cur, Put(s.c, count), EmitAll(s.rec, v.items));
    }
  }

  lemma BuiltChecked(
    s: Schema, v: Value, cur: nat, left: int, before: seq<Octet>,
    fail: bool, r: Value, cur': nat, err: Status, after: seq<Octet>)
    requires s.Checked? && Typed(s, v) && left >= 0 && cur + left <= |before|
    requires Built(s.rec, v, cur, left, before, fail, r, cur', err, after)
    ensures Built(s, v, cur, left, before, fail || !FaultLengthOk(r), r, cur',
                  if fail || FaultLengthOk(r) then err else SIZE_MISS, after)
  {
    hide FaultLengthOk;
    BuildThreshold(s.rec, v, left);
    if BuildError(s.rec, v, left).None? {
      AttemptDone(s.rec, v, left);
    }
  }

  lemma ParsedChecked(s: Schema, b: seq<Octet>, cur: nat, fail: bool, r: Value, cur': nat, err: Status)
    requires s.Checked? && Proper(s) && Parsed(s.rec, b, cur, fail, r, cur', err)
    ensures Parsed(s, b, cur, fail || !FaultLengthOk(r), r, cur', if fail || FaultLengthOk(r) then err else SIZE_MISS)
  {
    hide FaultLengthOk;
  }
}
