/** Theorems about what a walker can decode, for every sequence of octets. */
module Decoding {
  import opened Octets
  import opened Schema
  import opened Walkers

  // ---------------------------------------------------------------- lists grow at their end

  lemma {:induction false} EmitAllAppend(rec: Schema, items: seq<Value>, x: Value)
    requires AllTyped(rec, items) && Typed(rec, x)
    ensures AllTyped(rec, items + [x])
    ensures EmitAll(rec, items + [x]) == EmitAll(rec, items) + Emit(rec, x)
    ensures NormalizeAll(rec, items + [x]) == NormalizeAll(rec, items) + [Normalize(rec, x)]
    decreases |items|
  {
    hide Emit, Normalize, Typed;
    assert AllTyped(rec, items + [x]);
    var all := items + [x];
    if items == [] {
      assert all == [x] && all[1..] == [];
    } else {
      EmitAllAppend(rec, items[1..], x);
      assert all[0] == items[0] && all[1..] == items[1..] + [x];
      EmitAllFirst(rec, all);
      EmitAllFirst(rec, items);
      hide EmitAll, NormalizeAll, AllTyped;
      Regrouped(Emit(rec, items[0]), EmitAll(rec, items[1..]), Emit(rec, x));
    }
  }

  lemma EmitAllFirst(rec: Schema, items: seq<Value>)
    requires AllTyped(rec, items) && items != []
    ensures EmitAll(rec, items) == Emit(rec, items[0]) + EmitAll(rec, items[1..])
    ensures NormalizeAll(rec, items) == [Normalize(rec, items[0])] + NormalizeAll(rec, items[1..])
  {
  }

  // ---------------------------------------------------------------- a decoded structure is well formed

  /** A decoded count survives being set again by a build. */
  lemma WrapOfCount(c: Codec, count: int)
    requires Fits(c, count) && !c.Little? && c.w <= 4
    ensures Wrap(c, AsCount(count)) == count
  {
    var m, p := 0x1_0000_0000, Pow256(c.w);
    Pow256Values();
    assert p == 1 || p == 0x100 || p == 0x1_0000 || p == 256 * Pow256(2) || p == m;
    assert Pow256(3) == 0x100_0000;
    if count >= 0 {
      assert AsCount(count) == count;
      WrapSmall(c, count);
    } else {
      assert AsCount(count) == count + m;
      assert (count + m) % p == count + p;
    }
  }

  /** `v` decoded from the octets `b[at..end]`. */
  ghost predicate Faithful(s: Schema, b: seq<Octet>, at: nat, v: Value, end: nat) {
    && Typed(s, v) && WellFormed(s, v)
    && at <= end <= |b| && end == at + |Emit(s, v)|
    && (Plain(s) ==> Normalize(s, v) == v && Emit(s, v) == b[at..end])
  }

  ghost predicate FaithfulAll(rec: Schema, b: seq<Octet>, at: nat, items: seq<Value>, end: nat) {
    && AllTyped(rec, items) && AllWellFormed(rec, items)
    && at <= end <= |b| && end == at + |EmitAll(rec, items)|
    && (Plain(rec) ==> NormalizeAll(rec, items) == items && EmitAll(rec, items) == b[at..end])
  }

  /** Whatever the octets are, a decoded structure is well formed, the cursor has moved by exactly the octets a
      build of it takes, all of them inside the field, and without flags and reserved octets a build of it
      writes the very octets it came from. */
  lemma {:induction false} DecodeSound(s: Schema, b: seq<Octet>, at: nat)
    requires Proper(s) && NoFloat(s) && at <= |b|
    ensures var r := Decode(s, b, at); r.Decoded? ==> Faithful(s, b, at, r.v, r.at)
    decreases s, 0
  {
    hide Faithful, FaithfulAll;
    match s
    case Both(x, y) =>
      DecodeSound(x, b, at);
      var r := Decode(x, b, at);
      if r.Decoded? {
        assert r.at <= |b| by { FaithfulBounds(x, b, at, r.v, r.at); }
        DecodeSound(y, b, r.at);
        var q := Decode(y, b, r.at);
        if q.Decoded? {
          FaithfulBoth(x, y, b, at, r.v, r.at, q.v, q.at);
        }
      }
    case Repeat(n, rec) =>
      EmptyFaithful(rec, b, at);
      DecodeCountSound(rec, b, at, at, n, []);
      FaithfulList(s, b, at);
    case Table(c, counted, rec) =>
      if |b| - at >= c.w {
        var count := Get(c, b[at..at + c.w]);
        EmptyFaithful(rec, b, at + c.w);
        DecodeCountSound(rec, b, at + c.w, at + c.w, AsCount(count), []);
        FaithfulTable(c, counted, rec, b, at);
      }
    case Many(size, rec) =>
      EmptyFaithful(rec, b, at);
      DecodeManySound(size, rec, b, at, at, []);
      FaithfulList(s, b, at);
    case Checked(rec) =>
      DecodeSound(rec, b, at);
      FaithfulChecked(rec, b, at);
    case Sized(w) => SizedFaithful(w, b, at);
    case _ => SimpleFaithful(s, b, at);
  }

  lemma FaithfulBounds(s: Schema, b: seq<Octet>, at: nat, v: Value, end: nat)
    requires Faithful(s, b, at, v, end)
    ensures end <= |b|
  {
  }

  lemma DecodedIsWellFormed(s: Schema, b: seq<Octet>, at: nat)
    requires Proper(s) && NoFloat(s) && at <= |b|
    ensures var r := Decode(s, b, at); r.Decoded? ==> Typed(s, r.v) && WellFormed(s, r.v)
  {
    hide Decode, Typed, WellFormed, Emit, Normalize, Plain;
    DecodeSound(s, b, at);
  }

  lemma EmptyFaithful(rec: Schema, b: seq<Octet>, at: nat)
    requires at <= |b|
    ensures FaithfulAll(rec, b, at, [], at)
  {
  }

  lemma SimpleFaithful(s: Schema, b: seq<Octet>, at: nat)
    requires s.Number? || s.Unsigned48? || s.Flags? || s.Reserved? || s.Fixed? || s.Remaining?
    requires Proper(s) && at <= |b|
    ensures var r := Decode(s, b, at); r.Decoded? ==> Faithful(s, b, at, r.v, r.at)
  {
    var r := Decode(s, b, at);
    if r.Decoded? {
      match s
      case Number(c) => GetThenPut(c, b[at..at + c.w]);
      case Unsigned48 =>
        Pow256Values();
        FromBigEndianRoundTrip(b[at..at + 6]);
      case _ =>
    }
  }

  lemma SizedFaithful(w: nat, b: seq<Octet>, at: nat)
    requires 1 <= w <= 2 && at <= |b|
    ensures var r := Decode(Sized(w), b, at); r.Decoded? ==> Faithful(Sized(w), b, at, r.v, r.at)
  {
    hide Faithful;
    if Decode(Sized(w), b, at).Decoded? {
      BlobFaithful(w, b, at, FromBigEndian(b[at..at + w]));
    }
  }

  lemma BlobFaithful(w: nat, b: seq<Octet>, at: nat, n: nat)
    requires 1 <= w <= 2 && at + w + n <= |b| && n == FromBigEndian(b[at..at + w])
    ensures Faithful(Sized(w), b, at, Blob(n, b[at + w..at + w + n]), at + w + n)
  {
    hide Wrap, BigEndian, FromBigEndian, Pow256;
    var x, y := b[at..at + w], b[at + w..at + w + n];
    assert b[at..at + w + n] == x + y;
    ShortLength(w);
    FromBigEndianRoundTrip(x);
    WrapSmall(Unsigned(w), n);
  }

  lemma ShortLength(w: nat)
    requires 1 <= w <= 2
    ensures Pow256(w) <= 0x1_0000
  {
    Pow256Values();
  }

  lemma FaithfulBoth(x: Schema, y: Schema, b: seq<Octet>, at: nat, v: Value, mid: nat, w: Value, end: nat)
    requires Faithful(x, b, at, v, mid) && Faithful(y, b, mid, w, end)
    ensures Faithful(Both(x, y), b, at, Pair(v, w), end)
  {
    assert b[at..end] == b[at..mid] + b[mid..end];
  }

  lemma FaithfulList(s: Schema, b: seq<Octet>, at: nat)
    requires Proper(s) && (s.Repeat? || s.Many?)
    requires var r := Decode(s, b, at);
             r.Decoded? ==> r.v.Items? && FaithfulAll(s.rec, b, at, r.v.items, r.at)
    ensures var r := Decode(s, b, at); r.Decoded? ==> Faithful(s, b, at, r.v, r.at)
  {
  }

  lemma FaithfulTable(c: Codec, counted: bool, rec: Schema, b: seq<Octet>, at: nat)
    requires Proper(Table(c, counted, rec)) && at <= |b| && |b| - at >= c.w
    requires var q := DecodeCount(rec, b, at + c.w, AsCount(Get(c, b[at..at + c.w])), []);
             q.Decoded? ==> FaithfulAll(rec, b, at + c.w, q.v.items, q.at)
    ensures var r := Decode(Table(c, counted, rec), b, at);
            r.Decoded? ==> Faithful(Table(c, counted, rec), b, at, r.v, r.at)
  {
    hide Get, AsCount, FaithfulAll, Faithful, DecodeCount, Proper;
    var r := Decode(Table(c, counted, rec), b, at);
    if r.Decoded? {
      CountedFaithful(c, counted, rec, b, at, r.v.count, r.v.items, r.at);
    }
  }

  lemma CountedFaithful(
    c: Codec, counted: bool, rec: Schema, b: seq<Octet>, at: nat, count: int, items: seq<Value>, end: nat)
    requires Proper(Table(c, counted, rec)) && at + c.w <= |b| && count == Get(c, b[at..at + c.w])
    requires |items| == AsCount(count) && FaithfulAll(rec, b, at + c.w, items, end)
    ensures Faithful(Table(c, counted, rec), b, at, Counted(count, items), end)
  {
    hide Get, Put, Wrap, AsCount, EmitAll, NormalizeAll, AllTyped, AllWellFormed, Fits;
    GetThenPut(c, b[at..at + c.w]);
    WrapOfCount(c, count);
    assert b[at..end] == b[at..at + c.w] + b[at + c.w..end];
  }

  lemma FaithfulChecked(rec: Schema, b: seq<Octet>, at: nat)
    requires Proper(Checked(rec))
    requires var r := Decode(rec, b, at); r.Decoded? ==> Faithful(rec, b, at, r.v, r.at)
    ensures var r := Decode(Checked(rec), b, at); r.Decoded? ==> Faithful(Checked(rec), b, at, r.v, r.at)
  {
  }

  /** Records decoded so far stand between `start` and `at`. */
  lemma {:induction false} DecodeCountSound(
    rec: Schema, b: seq<Octet>, start: nat, at: nat, n: nat, done: seq<Value>)
    requires Proper(rec) && NoFloat(rec) && FaithfulAll(rec, b, start, done, at)
    ensures var r := DecodeCount(rec, b, at, n, done); r.Decoded? ==> FaithfulAll(rec, b, start, r.v.items, r.at)
    decreases rec, 1, n
  {
    hide Decode, Faithful, FaithfulAll, Proper, NoFloat;
    FaithfulAllBounds(rec, b, start, done, at);
    if n > 0 {
      DecodeSound(rec, b, at);
      var x := Decode(rec, b, at);
      if x.Decoded? {
        FaithfulAppend(rec, b, start, done, at, x.v, x.at);
        DecodeCountSound(rec, b, start, x.at, n - 1, done + [x.v]);
      }
    }
  }

  lemma {:induction false} DecodeManySound(
    size: nat, rec: Schema, b: seq<Octet>, start: nat, at: nat, done: seq<Value>)
    requires Proper(rec) && NoFloat(rec) && size > 0 && IsFixed(rec) && FixedLen(rec) == size
    requires FaithfulAll(rec, b, start, done, at)
    ensures var r := DecodeMany(size, rec, b, at, done); r.Decoded? ==> FaithfulAll(rec, b, start, r.v.items, r.at)
    decreases rec, 1, if |b| - at < 0 then 0 else |b| - at
  {
    hide Decode, Faithful, FaithfulAll, Proper, NoFloat;
    FaithfulAllBounds(rec, b, start, done, at);
    if |b| - at >= size {
      DecodeSound(rec, b, at);
      var x := Decode(rec, b, at);
      if x.Decoded? {
        FaithfulAppend(rec, b, start, done, at, x.v, x.at);
        DecodeManySound(size, rec, b, start, x.at, done + [x.v]);
      }
    }
  }

  lemma FaithfulAllBounds(rec: Schema, b: seq<Octet>, start: nat, items: seq<Value>, at: nat)
    requires FaithfulAll(rec, b, start, items, at)
    ensures start <= at <= |b|
  {
  }

  lemma FaithfulAppend(rec: Schema, b: seq<Octet>, start: nat, done: seq<Value>, at: nat, x: Value, end: nat)
    requires FaithfulAll(rec, b, start, done, at) && Faithful(rec, b, at, x, end)
    ensures FaithfulAll(rec, b, start, done + [x], end)
  {
    hide Emit, EmitAll, Normalize, NormalizeAll, Typed, WellFormed, Plain;
    EmitAllAppend(rec, done, x);
    assert b[start..end] == b[start..at] + b[at..end];
  }

  // ---------------------------------------------------------------- the round trip needs well-formed data

  lemma {:induction false} NormalizeKeepsWellFormed(s: Schema, v: Value)
    requires Typed(s, v) && Typed(s, Normalize(s, v))
    ensures WellFormed(s, Normalize(s, v)) <==> WellFormed(s, v)
    decreases s, 0
  {
    match s
    case Both(a, b) =>
      NormalizeKeepsWellFormed(a, v.first);
      NormalizeKeepsWellFormed(b, v.second);
    case Repeat(_, rec) => NormalizeKeepsAll(rec, v.items);
    case Table(_, _, rec) => NormalizeKeepsAll(rec, v.items);
    case Many(_, rec) => NormalizeKeepsAll(rec, v.items);
    case Checked(rec) =>
      NormalizeKeepsWellFormed(rec, v);
      NormalizeStable(rec, v);
    case _ =>
  }

  lemma {:induction false} NormalizeKeepsAll(rec: Schema, items: seq<Value>)
    requires AllTyped(rec, items) && AllTyped(rec, NormalizeAll(rec, items))
    ensures AllWellFormed(rec, NormalizeAll(rec, items)) <==> AllWellFormed(rec, items)
    decreases rec, 1 + |items|
  {
    hide Normalize, Typed, WellFormed;
    if items != [] {
      var n := NormalizeAll(rec, items);
      assert n[0] == Normalize(rec, items[0]) && n[1..] == NormalizeAll(rec, items[1..]);
      assert Typed(rec, n[0]);
      NormalizeKeepsWellFormed(rec, items[0]);
      NormalizeKeepsAll(rec, items[1..]);
      AllWellFormedCons(rec, items);
      AllWellFormedCons(rec, n);
    }
  }

  lemma AllWellFormedCons(rec: Schema, items: seq<Value>)
    requires AllTyped(rec, items) && items != []
    ensures AllTyped(rec, items[1..])
    ensures AllWellFormed(rec, items) <==> WellFormed(rec, items[0]) && AllWellFormed(rec, items[1..])
  {
    hide Typed, WellFormed;
    assert forall i | 1 <= i < |items| :: items[i] == items[1..][i - 1];
  }

  /** The echo of a structure is the structure that build left if and only if the caller's data are well formed. */
  lemma RoundTripExact(s: Schema, v: Value, pre: seq<Octet>, post: seq<Octet>)
    requires Proper(s) && NoFloat(s) && Typed(s, v) && Tolerates(s, |post|)
    ensures Decode(s, pre + Emit(s, v) + post, |pre|) == Decoded(Normalize(s, v), |pre| + |Emit(s, v)|)
            <==> WellFormed(s, v)
  {
    hide *;
    var b := pre + Emit(s, v) + post;
    if WellFormed(s, v) {
      RoundTrip(s, v, pre, post);
    } else if Decode(s, b, |pre|).Decoded? && Decode(s, b, |pre|).v == Normalize(s, v) {
      EchoIsWellFormed(s, v, b, |pre|);
    }
  }

  lemma EchoIsWellFormed(s: Schema, v: Value, b: seq<Octet>, at: nat)
    requires Proper(s) && NoFloat(s) && Typed(s, v) && at <= |b|
    requires Decode(s, b, at).Decoded? && Decode(s, b, at).v == Normalize(s, v)
    ensures WellFormed(s, v)
  {
    hide *;
    DecodedIsWellFormed(s, b, at);
    NormalizeStable(s, v);
    NormalizeKeepsWellFormed(s, v);
  }

  // ---------------------------------------------------------------- where the octets stand does not matter

  function Moved(r: Decoded, k: nat): Decoded {
    if r.Failed? then r else Decoded(r.v, r.at + k)
  }

  lemma TakeMoved(pre: seq<Octet>, b: seq<Octet>, at: nat, n: nat)
    ensures Take(pre + b, |pre| + at, n) == Take(b, at, n)
  {
    if |b| - at >= n {
      assert (pre + b)[|pre| + at..|pre| + at + n] == b[at..at + n];
    }
  }

  /** A field is decoded from its own octets only. */
  lemma {:induction false} DecodeMoved(s: Schema, pre: seq<Octet>, b: seq<Octet>, at: nat)
    requires Proper(s)
    ensures Decode(s, pre + b, |pre| + at) == Moved(Decode(s, b, at), |pre|)
    decreases s, 0
  {
    hide DecodeCount, DecodeMany, FixedLen, IsFixed, Take;
    match s
    case Both(x, y) =>
      DecodeMoved(x, pre, b, at);
      var r := Decode(x, b, at);
      if r.Decoded? {
        DecodeMoved(y, pre, b, r.at);
      }
      BothMoved(x, y, pre, b, at);
    case Repeat(n, rec) => DecodeCountMoved(rec, pre, b, at, n, []);
    case Table(c, counted, rec) =>
      TakeMoved(pre, b, at, c.w);
      var t := Take(b, at, c.w);
      if t.Some? {
        DecodeCountMoved(rec, pre, b, at + c.w, AsCount(Get(c, t.value)), []);
      }
    case Many(size, rec) => DecodeManyMoved(size, rec, pre, b, at, []);
    case Checked(rec) => DecodeMoved(rec, pre, b, at);
    case _ => LeafMoved(s, pre, b, at);
  }

  lemma BothMoved(x: Schema, y: Schema, pre: seq<Octet>, b: seq<Octet>, at: nat)
    requires Proper(Both(x, y))
    requires Decode(x, pre + b, |pre| + at) == Moved(Decode(x, b, at), |pre|)
    requires var r := Decode(x, b, at);
             r.Decoded? ==> Decode(y, pre + b, |pre| + r.at) == Moved(Decode(y, b, r.at), |pre|)
    ensures Decode(Both(x, y), pre + b, |pre| + at) == Moved(Decode(Both(x, y), b, at), |pre|)
  {
    hide Take, IsFixed, FixedLen, Get, FromBigEndian, DecodeCount, DecodeMany;
    assert (|pre| + at) + 0 == |pre| + at;
  }

  lemma LeafMoved(s: Schema, pre: seq<Octet>, b: seq<Octet>, at: nat)
    requires Proper(s) && !(s.Both? || s.Repeat? || s.Table? || s.Many? || s.Checked?)
    ensures Decode(s, pre + b, |pre| + at) == Moved(Decode(s, b, at), |pre|)
  {
    hide Take;
    match s
    case Number(c) => TakeMoved(pre, b, at, c.w);
    case Fixed(n) => TakeMoved(pre, b, at, n);
    case Sized(w) =>
      TakeMoved(pre, b, at, w);
      var t := Take(b, at, w);
      if t.Some? {
        TakeMoved(pre, b, at + w, FromBigEndian(t.value));
      }
    case Remaining => TakeMoved(pre, b, at, (|b| - at) % 0x1_0000);
    case Flags(_) => TakeMoved(pre, b, at, 1);
    case Reserved => TakeMoved(pre, b, at, 1);
    case Unsigned48 => TakeMoved(pre, b, at, 6);
    case Float64 => TakeMoved(pre, b, at, 8);
  }

  lemma {:induction false} DecodeCountMoved(
    rec: Schema, pre: seq<Octet>, b: seq<Octet>, at: nat, n: nat, done: seq<Value>)
    requires Proper(rec)
    ensures DecodeCount(rec, pre + b, |pre| + at, n, done) == Moved(DecodeCount(rec, b, at, n, done), |pre|)
    decreases rec, 1, n
  {
    hide Decode, Proper;
    if n > 0 {
      DecodeMoved(rec, pre, b, at);
      var x := Decode(rec, b, at);
      if x.Decoded? {
        DecodeCountMoved(rec, pre, b, x.at, n - 1, done + [x.v]);
      }
    }
  }

  lemma {:induction false} DecodeManyMoved(
    size: nat, rec: Schema, pre: seq<Octet>, b: seq<Octet>, at: nat, done: seq<Value>)
    requires Proper(rec) && size > 0 && IsFixed(rec) && FixedLen(rec) == size
    ensures DecodeMany(size, rec, pre + b, |pre| + at, done) == Moved(DecodeMany(size, rec, b, at, done), |pre|)
    decreases rec, 1, if |b| - at < 0 then 0 else |b| - at
  {
    hide Decode, Proper;
    if |b| - at >= size {
      DecodeMoved(rec, pre, b, at);
      var x := Decode(rec, b, at);
      if x.Decoded? {
        DecodeManyMoved(size, rec, pre, b, x.at, done + [x.v]);
      }
    }
  }

  // ---------------------------------------------------------------- lists

  lemma {:induction false} FixedDecodes(s: Schema, b: seq<Octet>, at: nat)
    requires Proper(s) && IsFixed(s) && |b| - at >= FixedLen(s)
    ensures Decode(s, b, at).Decoded?
    decreases s, 0
  {
    match s
    case Both(x, y) =>
      FixedDecodes(x, b, at);
      FixedDecodes(y, b, at + FixedLen(x));
    case Repeat(n, rec) => FixedDecodesCount(rec, b, at, n, []);
    case _ =>
  }

  lemma {:induction false} FixedDecodesCount(rec: Schema, b: seq<Octet>, at: nat, n: nat, done: seq<Value>)
    requires Proper(rec) && IsFixed(rec) && |b| - at >= n * FixedLen(rec)
    ensures DecodeCount(rec, b, at, n, done).Decoded?
    decreases rec, 1, n
  {
    hide Decode, Proper, FixedLen, IsFixed;
    if n > 0 {
      var k := FixedLen(rec);
      assert n * k == (n - 1) * k + k;
      FixedDecodes(rec, b, at);
      FixedDecodesCount(rec, b, at + k, n - 1, done + [Decode(rec, b, at).v]);
    }
  }

  /** vector_o never fails: it takes as many whole records as there are and leaves the remainder. */
  lemma {:induction false} ManyTakesAll(size: nat, rec: Schema, b: seq<Octet>, at: nat, done: seq<Value>)
    requires Proper(rec) && size > 0 && IsFixed(rec) && FixedLen(rec) == size && at <= |b|
    ensures var r := DecodeMany(size, rec, b, at, done);
            && r.Decoded?
            && |b| - at == size * (|r.v.items| - |done|) + (|b| - r.at)
            && 0 <= |b| - r.at < size
    decreases |b| - at
  {
    hide Decode, Proper;
    if |b| - at >= size {
      FixedDecodes(rec, b, at);
      var next := done + [Decode(rec, b, at).v];
      ManyTakesAll(size, rec, b, at + size, next);
      var r := DecodeMany(size, rec, b, at + size, next);
      OneMore(size, |r.v.items| - |next|);
    } else {
      assert size * 0 == 0;
    }
  }

  /** The fewest octets a structure can have. */
  function MinLen(s: Schema): nat {
    match s
    case Number(c) => c.w
    case Unsigned48 => 6
    case Flags(_) => 1
    case Reserved => 1
    case Fixed(n) => n
    case Sized(w) => w
    case Remaining => 0
    case Float64 => 8
    case Both(a, b) => MinLen(a) + MinLen(b)
    case Repeat(n, rec) => n * MinLen(rec)
    case Table(c, _, _) => c.w
    case Many(_, _) => 0
    case Checked(rec) => MinLen(rec)
  }

  lemma {:induction false} AtLeastMinLen(s: Schema, b: seq<Octet>, at: nat)
    requires Proper(s)
    ensures var r := Decode(s, b, at); r.Decoded? ==> r.at >= at + MinLen(s)
    decreases s, 0
  {
    match s
    case Both(x, y) =>
      AtLeastMinLen(x, b, at);
      var r := Decode(x, b, at);
      if r.Decoded? {
        AtLeastMinLen(y, b, r.at);
      }
    case Repeat(n, rec) => AtLeastMinLenCount(rec, b, at, n, []);
    case Checked(rec) => AtLeastMinLen(rec, b, at);
    case _ =>
  }

  lemma {:induction false} AtLeastMinLenCount(rec: Schema, b: seq<Octet>, at: nat, n: nat, done: seq<Value>)
    requires Proper(rec)
    ensures var r := DecodeCount(rec, b, at, n, done); r.Decoded? ==> r.at >= at + n * MinLen(rec)
    decreases rec, 1, n
  {
    hide Decode, Proper, MinLen;
    if n > 0 {
      AtLeastMinLen(rec, b, at);
      var x := Decode(rec, b, at);
      if x.Decoded? {
        AtLeastMinLenCount(rec, b, x.at, n - 1, done + [x.v]);
        assert n * MinLen(rec) == (n - 1) * MinLen(rec) + MinLen(rec);
      }
    }
  }

  /** vector_f yields exactly the declared count, and a declared count that the remaining octets cannot hold is
      refused, a negative count read as a huge one included. */
  lemma TableTakesCount(c: Codec, counted: bool, rec: Schema, b: seq<Octet>, at: nat)
    requires Proper(Table(c, counted, rec)) && NoFloat(rec) && at <= |b|
    ensures var r := Decode(Table(c, counted, rec), b, at);
            r.Decoded? ==>
              && |r.v.items| == AsCount(r.v.count)
              && |r.v.items| * MinLen(rec) <= |b| - at - c.w
    ensures |b| - at >= c.w && AsCount(Get(c, b[at..at + c.w])) * MinLen(rec) > |b| - at - c.w
            ==> Decode(Table(c, counted, rec), b, at).Failed?
  {
    hide MinLen, Plain, WellFormed, Typed, Emit, Normalize;
    if |b| - at >= c.w {
      var n := AsCount(Get(c, b[at..at + c.w]));
      AtLeastMinLenCount(rec, b, at + c.w, n, []);
      DecodeSound(Table(c, counted, rec), b, at);
    }
  }
}
