/** The field lists of the TLV structures and what a field walker does with them.

    The library has one walker per TLV, a chain `proc(a) || proc(b) || ...` that encodes or decodes
    according to one flag.  Here a walker is a `Schema`, a structure it walks is a `Value`, and the two
    directions are the functions `Emit`/`Normalize`/`BuildError` and `Decode`. */
module Schema {
  import opened Octets

  datatype Option<+T> = None | Some(value: T)

  /** MNG_PARSE_ERROR_e, without the allocation failure.  `Overrun` is not a value of the library: it marks a read
      behind the caller's buffer (see module Signaling). */
  datatype Status =
    | OK | MSG | SIG | INVALID_ID | INVALID_TLV | SIZE_MISS | TOO_SMALL | SIZE | VAL | HEADER | ACTION
    | UNSUPPORT | Overrun

  const UINT48_LIMIT := 0x1_0000_0000_0000
  const INT48_LIMIT := 0x8000_0000_0000
  const UINT64_LIMIT := 0x1_0000_0000_0000_0000

  // ---------------------------------------------------------------- integers

  /** An integer field of `w` octets. */
  datatype Codec = Unsigned(w: nat) | Signed(w: nat) | Little(w: nat)

  ghost predicate Fits(c: Codec, n: int) {
    if c.Signed? then 0 <= 2 * n + Pow256(c.w) < 2 * Pow256(c.w) else 0 <= n < Pow256(c.w)
  }

  function Put(c: Codec, n: int): (b: seq<Octet>)
    requires Fits(c, n)
    ensures |b| == c.w
  {
    match c
    case Unsigned(w) => BigEndian(w, n)
    case Signed(w) => BigEndian(w, if n < 0 then n + Pow256(w) else n)
    case Little(w) => LittleEndian(w, n)
  }

  /** The conversion of an unsigned number to a field: it keeps the low octets. */
  function Wrap(c: Codec, n: nat): (r: int)
    ensures Fits(c, r)
  {
    var u := n % Pow256(c.w);
    if c.Signed? && 2 * u >= Pow256(c.w) then u - Pow256(c.w) else u
  }

  function Get(c: Codec, b: seq<Octet>): (n: int)
    requires |b| == c.w
    ensures Fits(c, n)
  {
    FromBigEndianRoundTrip(b);
    FromLittleEndianRoundTrip(b);
    if c.Little? then FromLittleEndian(b) else Wrap(c, FromBigEndian(b))
  }

  /** Wrap keeps a number that fits, up to the sign. */
  lemma WrapSmall(c: Codec, n: nat)
    requires n < Pow256(c.w)
    ensures Wrap(c, n) == if c.Signed? && 2 * n >= Pow256(c.w) then n - Pow256(c.w) else n
  {
    SmallMod(n, Pow256(c.w));
  }

  lemma PutThenGet(c: Codec, n: int)
    requires Fits(c, n)
    ensures Get(c, Put(c, n)) == n
  {
    if c.Little? {
      LittleEndianRoundTrip(c.w, n);
    } else {
      var u := if n < 0 then n + Pow256(c.w) else n;
      BigEndianRoundTrip(c.w, u);
      WrapSmall(c, u);
    }
  }

  lemma GetThenPut(c: Codec, b: seq<Octet>)
    requires |b| == c.w
    ensures Put(c, Get(c, b)) == b
  {
    FromBigEndianRoundTrip(b);
    FromLittleEndianRoundTrip(b);
    WrapSmall(c, FromBigEndian(b));
  }

  // ---------------------------------------------------------------- schemas and values

  datatype Schema =
    | Number(c: Codec)                  // proc of an integer or of an enumeration
    | Unsigned48                        // proc48(uint64_t)
    | Flags(mask: Octet)                // procFlags
    | Reserved                          // proc(reserved)
    | Fixed(n: nat)                     // proc(uint8_t *, n)
    | Sized(w: nat)                     // a length of w octets and the octets it counts
    | Remaining                         // proc(d.dataField, m_left)
    | Float64                           // proc(Float64_t)
    | Both(first: Schema, second: Schema)
    | Repeat(n: nat, rec: Schema)       // for loop over a fixed array
    | Table(c: Codec, counted: bool, rec: Schema) // vector_f after its count; counted: build sets the count
    | Many(size: nat, rec: Schema)      // vector_o, with the record's size()
    | Checked(rec: Schema)              // proc(FaultRecord_t): the record's declared length is checked
  {
    function Then(next: Schema): (r: Schema)
      ensures IsFixed(r) <==> IsFixed(this) && IsFixed(next)
      ensures FixedLen(r) == FixedLen(this) + FixedLen(next)
    {
      Both(this, next)
    }
  }

  /** The content of a structure, field by field, lengths and counts included. */
  datatype Value =
    | Void
    | Int(n: int)
    | Octs(s: seq<Octet>)
    | Blob(len: int, s: seq<Octet>)
    | Pair(first: Value, second: Value)
    | Items(items: seq<Value>)
    | Counted(count: int, items: seq<Value>)

  /** The values a structure's own C++ types can hold.  A text or an address is bounded by the 16-bit length
      parameter of `proc(std::string &, uint16_t)` and `proc(Binary &, uint16_t)`. */
  ghost predicate Typed(s: Schema, v: Value) {
    match s
    case Number(c) => v.Int? && Fits(c, v.n)
    case Unsigned48 => v.Int? && 0 <= v.n < UINT64_LIMIT
    case Flags(_) => v.Int? && 0 <= v.n < 256
    case Reserved => v.Void?
    case Fixed(n) => v.Octs? && |v.s| == n
    case Sized(w) => v.Blob? && 0 <= v.len < Pow256(w) && |v.s| < 0x1_0000
    case Remaining => v.Octs? && |v.s| < 0x1_0000
    case Float64 => v.Int? && 0 <= v.n < UINT64_LIMIT
    case Both(a, b) => v.Pair? && Typed(a, v.first) && Typed(b, v.second)
    case Repeat(n, rec) => v.Items? && |v.items| == n && AllTyped(rec, v.items)
    case Table(c, _, rec) => v.Counted? && Fits(c, v.count) && AllTyped(rec, v.items)
    case Many(_, rec) => v.Items? && AllTyped(rec, v.items)
    case Checked(rec) => Typed(rec, v)
  }

  ghost predicate AllTyped(rec: Schema, items: seq<Value>) {
    forall i | 0 <= i < |items| :: Typed(rec, items[i])
  }

  /** A structure that always has the same number of octets. */
  predicate IsFixed(s: Schema) {
    match s
    case Sized(_) => false
    case Remaining => false
    case Float64 => false
    case Both(a, b) => IsFixed(a) && IsFixed(b)
    case Repeat(_, rec) => IsFixed(rec)
    case Table(_, _, _) => false
    case Many(_, _) => false
    case Checked(_) => false
    case _ => true
  }

  /** The number of octets of a fixed structure. */
  function FixedLen(s: Schema): nat {
    match s
    case Number(c) => c.w
    case Unsigned48 => 6
    case Flags(_) => 1
    case Reserved => 1
    case Fixed(n) => n
    case Both(a, b) => FixedLen(a) + FixedLen(b)
    case Repeat(n, rec) => n * FixedLen(rec)
    case _ => 0
  }

  /** No part of the schema takes as many octets as it finds. */
  predicate Closed(s: Schema) {
    match s
    case Remaining => false
    case Many(_, _) => false
    case Both(a, b) => Closed(a) && Closed(b)
    case Repeat(_, rec) => Closed(rec)
    case Table(_, _, rec) => Closed(rec)
    case Checked(rec) => Closed(rec)
    case _ => true
  }

  /** No floating point field, so the cursor never moves twice over one field. */
  predicate NoFloat(s: Schema) {
    match s
    case Float64 => false
    case Both(a, b) => NoFloat(a) && NoFloat(b)
    case Repeat(_, rec) => NoFloat(rec)
    case Table(_, _, rec) => NoFloat(rec)
    case Many(_, rec) => NoFloat(rec)
    case Checked(rec) => NoFloat(rec)
    case _ => true
  }

  /** No flags and no reserved octet, so no octet is dropped on the way. */
  predicate Plain(s: Schema) {
    match s
    case Flags(_) => false
    case Reserved => false
    case Both(a, b) => Plain(a) && Plain(b)
    case Repeat(_, rec) => Plain(rec)
    case Table(_, _, rec) => Plain(rec)
    case Many(_, rec) => Plain(rec)
    case Checked(rec) => Plain(rec)
    case _ => true
  }

  /** What every field list of the library satisfies: a list takes the rest of a TLV only at its end, and the
      size() of a record in such a list is the number of octets its walker moves. */
  predicate Proper(s: Schema) {
    match s
    case Sized(w) => 1 <= w <= 2
    case Both(a, b) => Proper(a) && Proper(b) && Closed(a)
    case Repeat(_, rec) => Proper(rec) && Closed(rec)
    case Table(c, _, rec) => Proper(rec) && Closed(rec) && !c.Little? && c.w <= 4
    case Many(size, rec) => Proper(rec) && Closed(rec) && size > 0 && IsFixed(rec) && FixedLen(rec) == size
    case Checked(rec) => Proper(rec) && Closed(rec) && Plain(rec)
    case _ => true
  }

  // ---------------------------------------------------------------- build

  /** procFlags: a mask of more than one bit selects bits, a single flag becomes 0 or 1. */
  function MaskFlags(mask: Octet, n: Octet): (r: Octet) {
    if mask > 1 then And(n, mask) else if n > 0 then 1 else 0
  }

  /** The check at the end of proc(FaultRecord_t). */
  predicate FaultLengthOk(v: Value) {
    match v
    case Pair(Pair(Pair(Pair(Pair(Int(declared), _), _), Blob(name, _)), Blob(value, _)), Blob(description, _)) =>
      declared == 16 + name + value + description
    case _ => false
  }

  /** The structure after a build: flags masked, lengths and counts set to what was sent. */
  ghost function Normalize(s: Schema, v: Value): Value
    requires Typed(s, v)
    decreases s, 0
  {
    match s
    case Flags(mask) => Int(MaskFlags(mask, v.n))
    case Sized(w) => Blob(Wrap(Unsigned(w), |v.s|), v.s)
    case Both(a, b) => Pair(Normalize(a, v.first), Normalize(b, v.second))
    case Repeat(_, rec) => Items(NormalizeAll(rec, v.items))
    case Table(c, counted, rec) =>
      Counted(if counted then Wrap(c, |v.items|) else v.count, NormalizeAll(rec, v.items))
    case Many(_, rec) => Items(NormalizeAll(rec, v.items))
    case Checked(rec) => Normalize(rec, v)
    case _ => v
  }

  ghost function NormalizeAll(rec: Schema, items: seq<Value>): (r: seq<Value>)
    requires AllTyped(rec, items)
    ensures |r| == |items|
    decreases rec, 1 + |items|
  {
    if items == [] then [] else [Normalize(rec, items[0])] + NormalizeAll(rec, items[1..])
  }

  /** The octets a build writes for a structure. */
  ghost function Emit(s: Schema, v: Value): seq<Octet>
    requires Typed(s, v)
    decreases s, 0
  {
    match s
    case Number(c) => Put(c, v.n)
    case Unsigned48 => BigEndian(6, v.n)
    case Flags(mask) => [MaskFlags(mask, v.n)]
    case Reserved => [0]
    case Fixed(_) => v.s
    case Sized(w) => BigEndian(w, Wrap(Unsigned(w), |v.s|)) + v.s
    case Remaining => v.s
    case Float64 => BigEndian(8, v.n)
    case Both(a, b) => Emit(a, v.first) + Emit(b, v.second)
    case Repeat(_, rec) => EmitAll(rec, v.items)
    case Table(c, counted, rec) =>
      Put(c, if counted then Wrap(c, |v.items|) else v.count) + EmitAll(rec, v.items)
    case Many(_, rec) => EmitAll(rec, v.items)
    case Checked(rec) => Emit(rec, v)
  }

  ghost function EmitAll(rec: Schema, items: seq<Value>): seq<Octet>
    requires AllTyped(rec, items)
    decreases rec, 1 + |items|
  {
    if items == [] then [] else Emit(rec, items[0]) + EmitAll(rec, items[1..])
  }

  /** How a build with `left` octets of room ends; None when it writes the whole structure. */
  ghost function BuildError(s: Schema, v: Value, left: int): (r: Option<Status>)
    requires Typed(s, v)
    ensures r != Some(OK)
    decreases s, 0
  {
    match s
    case Unsigned48 =>
      if v.n >= UINT48_LIMIT then Some(VAL) else if left < 6 then Some(TOO_SMALL) else None
    case Both(a, b) =>
      var e := BuildError(a, v.first, left);
      if e.Some? then e else BuildError(b, v.second, left - |Emit(a, v.first)|)
    case Repeat(_, rec) => BuildErrorAll(rec, v.items, left)
    case Table(c, _, rec) =>
      if left < c.w then Some(TOO_SMALL) else BuildErrorAll(rec, v.items, left - c.w)
    case Many(_, rec) => BuildErrorAll(rec, v.items, left)
    case Checked(rec) =>
      var e := BuildError(rec, v, left);
      if e.Some? then e
      else if FaultLengthOk(Normalize(rec, v)) then None else Some(SIZE_MISS)
    case _ => if left < |Emit(s, v)| then Some(TOO_SMALL) else None
  }

  ghost function BuildErrorAll(rec: Schema, items: seq<Value>, left: int): (r: Option<Status>)
    requires AllTyped(rec, items)
    ensures r != Some(OK)
    decreases rec, 1 + |items|
  {
    if items == [] then None
    else
      var e := BuildError(rec, items[0], left);
      if e.Some? then e else BuildErrorAll(rec, items[1..], left - |Emit(rec, items[0])|)
  }

  /** What a walker stores before its first field: the length of an address and the count of a list.  The length of
      a text is stored when the text is reached. */
  function Preset(s: Schema, v: Value): Value {
    if s.Sized? && s.w == 2 && v.Blob? then Blob(Wrap(Unsigned(s.w), |v.s|), v.s)
    else if s.Table? && s.counted && v.Counted? then Counted(Wrap(s.c, |v.items|), v.items)
    else v
  }

  /** The structure after a build with `left` octets of room, up to the field where it failed. */
  ghost function Attempt(s: Schema, v: Value, left: int): Value
    requires Typed(s, v)
    decreases s, 0
  {
    match s
    case Flags(_) => Normalize(s, v)
    case Sized(_) => Normalize(s, v)
    case Both(a, b) =>
      if BuildError(a, v.first, left).Some? then Pair(Attempt(a, v.first, left), Preset(b, v.second))
      else Pair(Normalize(a, v.first), Attempt(b, v.second, left - |Emit(a, v.first)|))
    case Repeat(_, rec) => Items(AttemptAll(rec, v.items, left))
    case Table(c, counted, rec) =>
      Counted(if counted then Wrap(c, |v.items|) else v.count,
              if left < c.w then v.items else AttemptAll(rec, v.items, left - c.w))
    case Many(_, rec) => Items(AttemptAll(rec, v.items, left))
    case Checked(rec) => Attempt(rec, v, left)
    case _ => v
  }

  ghost function AttemptAll(rec: Schema, items: seq<Value>, left: int): (r: seq<Value>)
    requires AllTyped(rec, items)
    ensures |r| == |items|
    decreases rec, 1 + |items|
  {
    if items == [] then []
    else if BuildError(rec, items[0], left).Some? then [Attempt(rec, items[0], left)] + items[1..]
    else [Normalize(rec, items[0])] + AttemptAll(rec, items[1..], left - |Emit(rec, items[0])|)
  }

  // ---------------------------------------------------------------- parse

  /** A decoded value and the position after it, or the error. */
  datatype Decoded = Decoded(v: Value, at: nat) | Failed(err: Status)

  function Take(b: seq<Octet>, at: nat, n: nat): (r: Option<seq<Octet>>)
    ensures r.Some? <==> |b| - at >= n
    ensures r.Some? ==> |r.value| == n
  {
    if |b| - at < n then None else Some(b[at..at + n])
  }

  /** `(uint32_t)d.cnt`: the bound of the vector_f loop. */
  function AsCount(n: int): nat { n % 0x1_0000_0000 }

  /** Decodes from position `at` of `b`; the walker's m_left is |b| - at, which a floating point field makes
      negative when it moves the cursor twice. */
  function Decode(s: Schema, b: seq<Octet>, at: nat): (r: Decoded)
    requires Proper(s)
    ensures r.Failed? ==> r.err == TOO_SMALL || r.err == SIZE_MISS
    ensures r.Decoded? ==> r.at >= at
    ensures r.Decoded? && IsFixed(s) ==> r.at == at + FixedLen(s)
    decreases s, 0, 0
  {
    match s
    case Number(c) =>
      var t := Take(b, at, c.w);
      if t.None? then Failed(TOO_SMALL) else Decoded(Int(Get(c, t.value)), at + c.w)
    case Unsigned48 =>
      var t := Take(b, at, 6);
      if t.None? then Failed(TOO_SMALL) else Decoded(Int(FromBigEndian(t.value)), at + 6)
    case Flags(_) =>
      var t := Take(b, at, 1);
      if t.None? then Failed(TOO_SMALL) else Decoded(Int(t.value[0]), at + 1)
    case Reserved =>
      var t := Take(b, at, 1);
      if t.None? then Failed(TOO_SMALL) else Decoded(Void, at + 1)
    case Fixed(n) =>
      var t := Take(b, at, n);
      if t.None? then Failed(TOO_SMALL) else Decoded(Octs(t.value), at + n)
    case Sized(w) =>
      var t := Take(b, at, w);
      if t.None? then Failed(TOO_SMALL) else
      var len := FromBigEndian(t.value);
      var u := Take(b, at + w, len);
      if u.None? then Failed(TOO_SMALL) else Decoded(Blob(len, u.value), at + w + len)
    case Remaining =>
      var len := (|b| - at) % 0x1_0000;
      var t := Take(b, at, len);
      if t.None? then Failed(TOO_SMALL) else Decoded(Octs(t.value), at + len)
    case Float64 =>
      var t := Take(b, at, 8);
      if t.None? then Failed(TOO_SMALL) else Decoded(Int(FromBigEndian(t.value)), at + 16)
    case Both(first, second) =>
      var x := Decode(first, b, at);
      if x.Failed? then x else
      var y := Decode(second, b, x.at);
      if y.Failed? then y else Decoded(Pair(x.v, y.v), y.at)
    case Repeat(n, rec) => DecodeCount(rec, b, at, n, [])
    case Table(c, _, rec) =>
      var t := Take(b, at, c.w);
      if t.None? then Failed(TOO_SMALL) else
      var count := Get(c, t.value);
      var x := DecodeCount(rec, b, at + c.w, AsCount(count), []);
      if x.Failed? then x else Decoded(Counted(count, x.v.items), x.at)
    case Many(size, rec) => DecodeMany(size, rec, b, at, [])
    case Checked(rec) =>
      var x := Decode(rec, b, at);
      if x.Failed? then x else if FaultLengthOk(x.v) then x else Failed(SIZE_MISS)
  }

  /** The vector_f loop with `n` records still to come. */
  function DecodeCount(rec: Schema, b: seq<Octet>, at: nat, n: nat, done: seq<Value>): (r: Decoded)
    requires Proper(rec)
    ensures r.Failed? ==> r.err == TOO_SMALL || r.err == SIZE_MISS
    ensures r.Decoded? ==> r.v.Items? && |r.v.items| == |done| + n && done <= r.v.items && r.at >= at
    ensures r.Decoded? && IsFixed(rec) ==> r.at == at + n * FixedLen(rec)
    decreases rec, 1, n
  {
    if n == 0 then Decoded(Items(done), at) else
    OneMore(FixedLen(rec), n - 1);
    var x := Decode(rec, b, at);
    if x.Failed? then x else DecodeCount(rec, b, x.at, n - 1, done + [x.v])
  }

  /** The vector_o loop. */
  function DecodeMany(size: nat, rec: Schema, b: seq<Octet>, at: nat, done: seq<Value>): (r: Decoded)
    requires Proper(rec) && size > 0 && IsFixed(rec) && FixedLen(rec) == size
    ensures r.Failed? ==> r.err == TOO_SMALL || r.err == SIZE_MISS
    ensures r.Decoded? ==> r.v.Items? && r.at >= at
    decreases rec, 1, if |b| - at < 0 then 0 else |b| - at
  {
    if |b| - at < size then Decoded(Items(done), at) else
    var x := Decode(rec, b, at);
    if x.Failed? then x else DecodeMany(size, rec, b, x.at, done + [x.v])
  }
}
