/** Every field stands where the table of fields says, in both directions. */
module Placing {
  import opened Octets
  import opened Schema
  import opened Walkers
  import opened Decoding
  import opened Ids
  import opened Sizes
  import opened Signaling
  import opened Layouts
  import opened LayoutTables

  // ---------------------------------------------------------------- build

  /** Numbers are sent by their low octets. */
  lemma {:induction false} BigEndianLow(w: nat, n: nat)
    ensures BigEndian(w, n % Pow256(w)) == BigEndian(w, n)
  {
    if w > 0 {
      var p := Pow256(w - 1);
      LowOctets(n, p);
      BigEndianLow(w - 1, n / 256);
    }
  }

  lemma LowOctets(n: nat, p: nat)
    requires p > 0
    ensures n % (256 * p) / 256 == n / 256 % p && n % (256 * p) % 256 == n % 256
  {
    var q, r := n / 256, n % 256;
    var c, d := q / p, q % p;
    assert q == p * c + d && 0 <= d <= p - 1;
    assert 256 * (p * c) == (256 * p) * c;
    assert n == (256 * p) * c + (256 * d + r) && 256 * d + r < 256 * p;
    QuotientIs(n, 256 * p, c, 256 * d + r);
    assert n % (256 * p) == 256 * d + r;
  }

  lemma MaskSent(mask: Octet, n: Octet)
    ensures FlagsSent(mask, n, MaskFlags(mask, n))
  {
    if mask > 1 {
      forall k: nat ensures Bit(MaskFlags(mask, n), k) == 1 <==> Bit(n, k) == 1 && Bit(mask, k) == 1 {
        AndBits(n, mask, k);
      }
    }
  }

  /** What an integer field sends. */
  lemma NumberSent(k: Kind, c: Codec, n: int)
    requires Matches(k, Number(c)) && Fits(c, n)
    ensures k.Uint? || k.Sint?
    ensures |Put(c, n)| == CountWidth(k) && Sent(k, Put(c, n), 0, Int(n))
    ensures c == Unsigned(c.w) || c == Signed(c.w)
  {
    var x := Put(c, n);
    assert x[0..c.w] == x;
    if n < 0 {
      QuotientIs(n + Pow256(c.w), Pow256(c.w), 0, n + Pow256(c.w));
      assert n % Pow256(c.w) == n + Pow256(c.w) by { NegativeMod(n, Pow256(c.w)); }
    } else {
      SmallMod(n, Pow256(c.w));
    }
  }

  lemma NegativeMod(n: int, m: nat)
    requires 0 - m <= n < 0
    ensures n % m == n + m
  {
  }

  /** What a walker of one field sends. */
  lemma LeafSent(k: Kind, s: Schema, v: Value)
    requires Matches(k, s) && Typed(s, v) && NoFloat(s)
    ensures Sent(k, Emit(s, v), 0, v)
  {
    if s.Sized? {
      TextSent(s.w, v);
    } else if s.Repeat? {
      CountersSent(s.n, v);
    } else if s.Table? {
      TableSent(k, s, v);
    } else if s.Many? {
      RecordsFollow(s.rec, [], v.items);
      assert [] + EmitAll(s.rec, v.items) == EmitAll(s.rec, v.items);
    } else {
      PlainLeafSent(k, s, v);
    }
  }

  lemma PlainLeafSent(k: Kind, s: Schema, v: Value)
    requires s.Number? || s.Unsigned48? || s.Flags? || s.Reserved? || s.Fixed? || s.Remaining?
    requires Matches(k, s) && Typed(s, v)
    ensures Sent(k, Emit(s, v), 0, v)
  {
    var x := Emit(s, v);
    match s
    case Number(c) => NumberSent(k, c, v.n);
    case Unsigned48 => assert x[0..6] == x;
    case Flags(mask) => MaskSent(mask, v.n);
    case Reserved =>
    case _ => assert x[0..|x|] == x;
  }

  lemma TextSent(w: nat, v: Value)
    requires Typed(Sized(w), v)
    ensures Sent(Text(w), Emit(Sized(w), v), 0, v)
  {
    BigEndianLow(w, |v.s|);
    var x := Emit(Sized(w), v);
    assert x[0..w] == BigEndian(w, |v.s|) && x[w..w + |v.s|] == v.s;
  }

  /** Record j stands behind the records before it. */
  lemma RecordsFollow(rec: Schema, pre: seq<Octet>, items: seq<Value>)
    requires AllTyped(rec, items)
    ensures RecordsSent(rec, pre + EmitAll(rec, items), |pre|, items)
  {
    hide Emit, EmitAll, Typed;
    forall j | 0 <= j < |items|
      ensures var p, e := |pre| + |EmitAll(rec, items[..j])|, Emit(rec, items[j]);
              p + |e| <= |pre + EmitAll(rec, items)| && (pre + EmitAll(rec, items))[p..p + |e|] == e
    {
      RecordHere(rec, pre, items, j);
    }
  }

  lemma RecordHere(rec: Schema, pre: seq<Octet>, items: seq<Value>, j: nat)
    requires j < |items| && AllTyped(rec, items)
    ensures AllTyped(rec, items[..j])
    ensures var p, e := |pre| + |EmitAll(rec, items[..j])|, Emit(rec, items[j]);
            p + |e| <= |pre + EmitAll(rec, items)| && (pre + EmitAll(rec, items))[p..p + |e|] == e
  {
    hide Emit, EmitAll, Typed;
    RecordAt(rec, items, j);
    Middle(pre, EmitAll(rec, items[..j]), Emit(rec, items[j]), EmitAll(rec, items[j + 1..]));
  }

  lemma RecordAt(rec: Schema, items: seq<Value>, j: nat)
    requires j < |items| && AllTyped(rec, items)
    ensures AllTyped(rec, items[..j]) && AllTyped(rec, items[j + 1..])
    ensures EmitAll(rec, items) == (EmitAll(rec, items[..j]) + Emit(rec, items[j])) + EmitAll(rec, items[j + 1..])
  {
    hide Emit, EmitAll, Typed;
    EmitAllSplit(rec, items, j);
    EmitAllAppend(rec, items[..j], items[j]);
    assert items[..j] + [items[j]] == items[..j + 1];
    EmitAllSplit(rec, items, j + 1);
  }

  lemma Middle(a: seq<Octet>, b: seq<Octet>, e: seq<Octet>, c: seq<Octet>)
    ensures var p := |a| + |b|; (a + ((b + e) + c))[p..p + |e|] == e
  {
  }

  lemma TypedParts(rec: Schema, items: seq<Value>, j: nat)
    requires j <= |items| && AllTyped(rec, items)
    ensures AllTyped(rec, items[..j]) && AllTyped(rec, items[j..])
    ensures items != [] ==> Typed(rec, items[0])
  {
  }

  lemma SplitLater(items: seq<Value>, j: nat)
    requires 0 < j <= |items|
    ensures items[..j] != [] && items[..j][0] == items[0]
    ensures items[..j][1..] == items[1..][..j - 1] && items[1..][j - 1..] == items[j..]
  {
  }

  lemma {:induction false} EmitAllSplit(rec: Schema, items: seq<Value>, j: nat)
    requires j <= |items| && AllTyped(rec, items)
    ensures AllTyped(rec, items[..j]) && AllTyped(rec, items[j..])
    ensures EmitAll(rec, items) == EmitAll(rec, items[..j]) + EmitAll(rec, items[j..])
    decreases j
  {
    hide Emit, Typed, AllTyped;
    TypedParts(rec, items, j);
    if j == 0 {
      assert items[..0] == [] && items[0..] == items;
      assert [] + EmitAll(rec, items) == EmitAll(rec, items);
    } else {
      TypedParts(rec, items, 1);
      EmitAllSplit(rec, items[1..], j - 1);
      SplitLater(items, j);
      EmitAllFirst(rec, items);
      EmitAllFirst(rec, items[..j]);
      hide EmitAll;
      Regrouped(Emit(rec, items[0]), EmitAll(rec, items[1..][..j - 1]), EmitAll(rec, items[j..]));
    }
  }

  lemma CountersSent(n: nat, v: Value)
    requires Typed(Repeat(n, Number(Little(8))), v)
    ensures Sent(Counters(n), Emit(Repeat(n, Number(Little(8))), v), 0, v)
  {
    var rec := Number(Little(8));
    var x := EmitAll(rec, v.items);
    RecordsFollow(rec, [], v.items);
    assert [] + x == x;
    CountersLength(v.items);
    forall j | 0 <= j < n
      ensures CounterAt(x, 0, j, v.items[j])
    {
      assert Typed(rec, v.items[j]);
      CountersLength(v.items[..j]);
    }
  }

  lemma {:induction false} CountersLength(items: seq<Value>)
    requires AllTyped(Number(Little(8)), items)
    ensures |EmitAll(Number(Little(8)), items)| == 8 * |items|
  {
    if items != [] {
      assert Typed(Number(Little(8)), items[0]);
      CountersLength(items[1..]);
    }
  }

  lemma TableSent(k: Kind, s: Schema, v: Value)
    requires s.Table? && Matches(k, s) && Typed(s, v)
    ensures Sent(k, Emit(s, v), 0, v)
  {
    var count := if s.counted then Wrap(s.c, |v.items|) else v.count;
    var y := Put(s.c, count);
    NumberSent(k.count, s.c, count);
    RecordsFollow(s.rec, y, v.items);
    hide EmitAll, RecordsSent, Put, Wrap;
    var x := Emit(s, v);
    assert x == y + EmitAll(s.rec, v.items);
    assert x[0..|y|] == y == y[0..|y|];
    if s.counted {
      CountSent(k.count, s.c, |v.items|, y, x);
    }
  }

  /** The count sent is the number of records, by its low octets. */
  lemma CountSent(k: Kind, c: Codec, n: nat, y: seq<Octet>, x: seq<Octet>)
    requires Matches(k, Number(c)) && y == Put(c, Wrap(c, n)) && y <= x && |y| == c.w == CountWidth(k)
    ensures Sent(k, x, 0, Int(n))
  {
    NumberSent(k, c, Wrap(c, n));
    assert x[0..c.w] == y == y[0..c.w];
    BigEndianLow(c.w, n);
    var u := n % Pow256(c.w);
    SmallMod(u, Pow256(c.w));
    if c.Signed? && Wrap(c, n) < 0 {
      NegativeMod(u - Pow256(c.w), Pow256(c.w));
    }
  }

  /** A field keeps its place when octets stand before and behind it. */
  lemma SentBehind(k: Kind, pre: seq<Octet>, e: seq<Octet>, post: seq<Octet>, o: nat, v: Value)
    requires Sent(k, e, o, v)
    ensures Sent(k, pre + e + post, |pre| + o, v)
    decreases k, 1
  {
    hide FlagsSent, RecordsSent, BigEndian;
    match k
    case Uint(w) => SliceMoved(pre, e, post, o, o + w);
    case Sint(w) => SliceMoved(pre, e, post, o, o + w);
    case Raw(n) => SliceMoved(pre, e, post, o, o + n);
    case Text(w) =>
      SliceMoved(pre, e, post, o, o + w);
      SliceMoved(pre, e, post, o + w, o + w + |v.s|);
    case Rest => SliceMoved(pre, e, post, o, o + |v.s|);
    case Bits(_) => OctetMoved(pre, e, post, o);
    case Zero => OctetMoved(pre, e, post, o);
    case Counters(n) => CountersBehind(n, pre, e, post, o, v);
    case Endless(rec) => RecordsMoved(rec, pre, e, post, o, v.items);
    case List(_, _, _) => ListBehind(k, pre, e, post, o, v);
    case Double =>
  }

  lemma ListBehind(k: Kind, pre: seq<Octet>, e: seq<Octet>, post: seq<Octet>, o: nat, v: Value)
    requires k.List? && Sent(k, e, o, v)
    ensures Sent(k, pre + e + post, |pre| + o, v)
    decreases k, 0
  {
    hide RecordsSent;
    SentBehind(k.count, pre, e, post, o, Int(if k.counted then |v.items| else v.count));
    RecordsMoved(k.rec, pre, e, post, o + CountWidth(k.count), v.items);
  }

  lemma CountersBehind(n: nat, pre: seq<Octet>, e: seq<Octet>, post: seq<Octet>, o: nat, v: Value)
    requires Sent(Counters(n), e, o, v)
    ensures Sent(Counters(n), pre + e + post, |pre| + o, v)
  {
    forall j | 0 <= j < n
      ensures CounterAt(pre + e + post, |pre| + o, j, v.items[j])
    {
      assert CounterAt(e, o, j, v.items[j]);
      SliceMoved(pre, e, post, o + 8 * j, o + 8 * j + 8);
    }
  }

  lemma OctetMoved(pre: seq<Octet>, e: seq<Octet>, post: seq<Octet>, o: nat)
    requires o < |e|
    ensures (pre + e + post)[|pre| + o] == e[o]
  {
  }

  lemma SliceMoved(pre: seq<Octet>, e: seq<Octet>, post: seq<Octet>, i: nat, j: nat)
    requires i <= j <= |e|
    ensures (pre + e + post)[|pre| + i..|pre| + j] == e[i..j]
  {
  }

  lemma RecordsMoved(rec: Schema, pre: seq<Octet>, e: seq<Octet>, post: seq<Octet>, o: nat, items: seq<Value>)
    requires AllTyped(rec, items) && RecordsSent(rec, e, o, items)
    ensures RecordsSent(rec, pre + e + post, |pre| + o, items)
  {
    hide Emit, EmitAll;
    var x := pre + e + post;
    forall j | 0 <= j < |items|
      ensures var p, y := |pre| + o + |EmitAll(rec, items[..j])|, Emit(rec, items[j]);
              p + |y| <= |x| && x[p..p + |y|] == y
    {
      var p, y := o + |EmitAll(rec, items[..j])|, Emit(rec, items[j]);
      assert x[|pre| + p..|pre| + p + |y|] == e[p..p + |y|];
    }
  }

  lemma {:induction false} ScanCounts(s: Schema, fs: seq<Field>, i: nat, at: nat)
    requires Scan(s, fs, i, at) != Mismatch
    ensures var r := Scan(s, fs, i, at);
            r.i == i + LeafCount(s) <= |fs| && (r.Next? ==> r.at == at + Span(s))
  {
    if s.Both? {
      ScanCounts(s.first, fs, i, at);
      ScanCounts(s.second, fs, i + LeafCount(s.first), at + Span(s.first));
    }
  }

  /** A walker without a list at its end sends its span and the content of its texts. */
  lemma {:induction false} SpanSent(s: Schema, fs: seq<Field>, i: nat, at: nat, v: Value)
    requires Scan(s, fs, i, at).Next? && Typed(s, v) && NoFloat(s)
    ensures |Emit(s, v)| == Span(s) + Content(s, v)
  {
    if s.Both? {
      ScanCounts(s.first, fs, i, at);
      SpanSent(s.first, fs, i, at, v.first);
      SpanSent(s.second, fs, i + LeafCount(s.first), at + Span(s.first), v.second);
    } else if s.Repeat? {
      CountersLength(v.items);
    }
  }

  /** Field k of a walker stands at its place in what the walker sends. */
  lemma {:induction false} FieldSent(s: Schema, fs: seq<Field>, i: nat, at: nat, v: Value, k: nat)
    requires Scan(s, fs, i, at) != Mismatch && Typed(s, v) && NoFloat(s) && k < LeafCount(s)
    ensures i + k < |fs| && fs[i + k].at >= at
    ensures Sent(fs[i + k].kind, Emit(s, v), fs[i + k].at - at + Before(s, v, k), Leaf(s, v, k))
    decreases s, 1
  {
    ScanCounts(s, fs, i, at);
    hide Sent, Emit, Typed, NoFloat, Matches;
    if s.Both? {
      BothFieldSent(s, fs, i, at, v, k);
    } else {
      LeafSent(fs[i].kind, s, v);
    }
  }

  lemma {:induction false} BothFieldSent(s: Schema, fs: seq<Field>, i: nat, at: nat, v: Value, k: nat)
    requires s.Both? && Scan(s, fs, i, at) != Mismatch && Typed(s, v) && NoFloat(s) && k < LeafCount(s)
    ensures i + k < |fs| && fs[i + k].at >= at
    ensures Sent(fs[i + k].kind, Emit(s, v), fs[i + k].at - at + Before(s, v, k), Leaf(s, v, k))
    decreases s, 0
  {
    hide Sent, Matches;
    var n, m := LeafCount(s.first), Span(s.first);
    ScanCounts(s.first, fs, i, at);
    ScanCounts(s.second, fs, i + n, at + m);
    var x, y := Emit(s.first, v.first), Emit(s.second, v.second);
    hide Emit, Typed, NoFloat;
    if k < n {
      FieldSent(s.first, fs, i, at, v.first, k);
      var p := fs[i + k].at - at + Before(s.first, v.first, k);
      SentBehind(fs[i + k].kind, [], x, y, p, Leaf(s.first, v.first, k));
      assert [] + x + y == x + y;
    } else {
      FieldSent(s.second, fs, i + n, at + m, v.second, k - n);
      SpanSent(s.first, fs, i, at, v.first);
      var p := fs[i + k].at - (at + m) + Before(s.second, v.second, k - n);
      SentBehind(fs[i + k].kind, x, y, [], p, Leaf(s.second, v.second, k - n));
      assert x + y + [] == x + y;
    }
  }

  // ---------------------------------------------------------------- parse

  lemma NumberRead(k: Kind, c: Codec, b: seq<Octet>, o: nat)
    requires Matches(k, Number(c)) && o + c.w <= |b|
    ensures KindProper(k) && ReadAs(k, b, o, Int(Get(c, b[o..o + c.w])))
  {
    var x := b[o..o + c.w];
    var n := Get(c, x);
    GetThenPut(c, x);
    if n < 0 {
      NegativeMod(n, Pow256(c.w));
    } else {
      SmallMod(n, Pow256(c.w));
    }
  }

  /** What a walker of one field makes of its place. */
  lemma LeafRead(k: Kind, s: Schema, b: seq<Octet>, o: nat)
    requires Proper(s) && Matches(k, s) && Decode(s, b, o).Decoded?
    ensures KindProper(k) && ReadAs(k, b, o, Decode(s, b, o).v)
  {
    if s.Number? {
      NumberRead(k, s.c, b, o);
    } else if s.Repeat? {
      CountersRead(b, o, s.n, o, []);
    } else if s.Table? {
      TableRead(k, s, b, o);
    } else if s.Many? {
      ManyRead(s.size, s.rec, b, o, []);
    } else {
      PlainLeafRead(k, s, b, o);
    }
  }

  lemma PlainLeafRead(k: Kind, s: Schema, b: seq<Octet>, o: nat)
    requires s.Unsigned48? || s.Flags? || s.Reserved? || s.Fixed? || s.Sized? || s.Remaining? || s.Float64?
    requires Proper(s) && Matches(k, s) && Decode(s, b, o).Decoded?
    ensures KindProper(k) && ReadAs(k, b, o, Decode(s, b, o).v)
  {
    if s.Sized? {
      TextRead(s.w, b, o);
    } else if s.Unsigned48? || s.Float64? {
      WordRead(k, s, b, o);
    } else {
      OctetsRead(k, s, b, o);
    }
  }

  lemma WordRead(k: Kind, s: Schema, b: seq<Octet>, o: nat)
    requires (s.Unsigned48? || s.Float64?) && Matches(k, s) && Decode(s, b, o).Decoded?
    ensures KindProper(k) && ReadAs(k, b, o, Decode(s, b, o).v)
  {
    if s.Unsigned48? {
      FromBigEndianRoundTrip(b[o..o + 6]);
    } else {
      FromBigEndianRoundTrip(b[o..o + 8]);
    }
  }

  lemma OctetsRead(k: Kind, s: Schema, b: seq<Octet>, o: nat)
    requires (s.Flags? || s.Reserved? || s.Fixed? || s.Remaining?) && Matches(k, s) && Decode(s, b, o).Decoded?
    ensures KindProper(k) && ReadAs(k, b, o, Decode(s, b, o).v)
  {
    hide FromBigEndian;
  }

  lemma TextRead(w: nat, b: seq<Octet>, o: nat)
    requires Proper(Sized(w)) && Decode(Sized(w), b, o).Decoded?
    ensures ReadAs(Text(w), b, o, Decode(Sized(w), b, o).v)
  {
    hide BigEndian, FromBigEndian, Pow256;
    FromBigEndianRoundTrip(b[o..o + w]);
  }

  /** Counter j is read at its eight octets; `done` have been read from `start` on. */
  lemma {:induction false} CountersRead(b: seq<Octet>, start: nat, n: nat, at: nat, done: seq<Value>)
    requires at == start + 8 * |done|
    requires forall j | 0 <= j < |done| :: CounterAt(b, start, j, done[j])
    ensures var r := DecodeCount(Number(Little(8)), b, at, n, done);
            r.Decoded? ==> forall j | 0 <= j < |r.v.items| :: CounterAt(b, start, j, r.v.items[j])
    decreases n
  {
    if n > 0 && Take(b, at, 8).Some? {
      var x := b[at..at + 8];
      FromLittleEndianRoundTrip(x);
      assert CounterAt(b, start, |done|, Int(FromLittleEndian(x)));
      CountersRead(b, start, n - 1, at + 8, done + [Int(FromLittleEndian(x))]);
    }
  }

  lemma TableRead(k: Kind, s: Schema, b: seq<Octet>, o: nat)
    requires s.Table? && Proper(s) && Matches(k, s) && Decode(s, b, o).Decoded?
    ensures KindProper(k) && ReadAs(k, b, o, Decode(s, b, o).v)
  {
    TableParts(k, s);
    hide Get, AsCount, ReadAs, Matches, RecordsRead, Proper;
    var count := Get(s.c, b[o..o + s.c.w]);
    var r := DecodeCount(s.rec, b, o + s.c.w, AsCount(count), []);
    NumberRead(k.count, s.c, b, o);
    CountTaken(s.c, count);
    CountRead(s.rec, b, o + s.c.w, AsCount(count), []);
    assert r.v.items[0..] == r.v.items;
    ListRead(k, b, o, count, r.v.items);
  }

  lemma TableParts(k: Kind, s: Schema)
    requires s.Table? && Proper(s) && Matches(k, s)
    ensures k.List? && Matches(k.count, Number(s.c)) && CountWidth(k.count) == s.c.w && k.rec == s.rec && Proper(s.rec)
  {
  }

  lemma ListRead(k: Kind, b: seq<Octet>, o: nat, count: int, items: seq<Value>)
    requires k.List? && KindProper(k.count) && Proper(k.rec) && ReadAs(k.count, b, o, Int(count))
    requires |items| == (if count < 0 then count + 0x1_0000_0000 else count)
    requires RecordsRead(k.rec, b, o + CountWidth(k.count), items)
    ensures KindProper(k) && ReadAs(k, b, o, Counted(count, items))
  {
    hide RecordsRead;
  }

  /** A negative count is taken as a number of 32 bits. */
  lemma CountTaken(c: Codec, n: int)
    requires Fits(c, n) && !c.Little? && c.w <= 4
    ensures AsCount(n) == if n < 0 then n + 0x1_0000_0000 else n
  {
    Pow256Values();
    assert Pow256(3) == 0x100_0000;
    assert c.w == 0 || c.w == 1 || c.w == 2 || c.w == 3 || c.w == 4;
  }

  lemma {:induction false} CountRead(rec: Schema, b: seq<Octet>, at: nat, n: nat, done: seq<Value>)
    requires Proper(rec)
    ensures var r := DecodeCount(rec, b, at, n, done);
            r.Decoded? ==> done <= r.v.items && RecordsRead(rec, b, at, r.v.items[|done|..])
    decreases n
  {
    hide Decode, Proper;
    if n > 0 && Decode(rec, b, at).Decoded? {
      var x := Decode(rec, b, at);
      CountRead(rec, b, x.at, n - 1, done + [x.v]);
      var r := DecodeCount(rec, b, at, n, done);
      if r.Decoded? {
        Later(done, x.v, r.v.items);
      }
    }
  }

  lemma Later(done: seq<Value>, x: Value, items: seq<Value>)
    requires done + [x] <= items
    ensures done <= items && items[|done|..] != [] && items[|done|..][0] == x
    ensures items[|done|..][1..] == items[|done + [x]|..]
  {
    assert items[|done|] == (done + [x])[|done|];
  }

  lemma {:induction false} ManyRead(size: nat, rec: Schema, b: seq<Octet>, at: nat, done: seq<Value>)
    requires Proper(rec) && size > 0 && IsFixed(rec) && FixedLen(rec) == size
    ensures var r := DecodeMany(size, rec, b, at, done);
            r.Decoded? ==> done <= r.v.items && RecordsRead(rec, b, at, r.v.items[|done|..])
    decreases if |b| - at < 0 then 0 else |b| - at
  {
    hide Decode, Proper, IsFixed, FixedLen;
    if |b| - at >= size && Decode(rec, b, at).Decoded? {
      var x := Decode(rec, b, at);
      ManyRead(size, rec, b, x.at, done + [x.v]);
      var r := DecodeMany(size, rec, b, at, done);
      if r.Decoded? {
        Later(done, x.v, r.v.items);
      }
    }
  }

  /** A walker without a list at its end moves over its span and the content of its texts. */
  lemma {:induction false} SpanRead(s: Schema, fs: seq<Field>, i: nat, at: nat, b: seq<Octet>, o: nat)
    requires Scan(s, fs, i, at).Next? && Proper(s) && Decode(s, b, o).Decoded?
    ensures var r := Decode(s, b, o); r.at == o + Span(s) + Content(s, r.v)
  {
    hide Matches, Decode, Proper;
    if s.Both? {
      ScanParts(s, fs, i, at);
      BothDecoded(s, b, o);
      SpanRead(s.first, fs, i, at, b, o);
      SpanRead(s.second, fs, i + LeafCount(s.first), at + Span(s.first), b, Decode(s.first, b, o).at);
    } else {
      LeafSpanRead(s, fs[i].kind, b, o);
    }
  }

  lemma LeafSpanRead(s: Schema, k: Kind, b: seq<Octet>, o: nat)
    requires Matches(k, s) && Proper(s) && Decode(s, b, o).Decoded?
    requires !(s.Both? || s.Remaining? || s.Table? || s.Many? || s.Checked?)
    ensures var r := Decode(s, b, o); r.at == o + Span(s) + Content(s, r.v)
  {
    if s.Repeat? {
      assert s.rec == Number(Little(8));
    }
  }

  /** Field k of a walker is read from its place. */
  lemma {:induction false} FieldRead(s: Schema, fs: seq<Field>, i: nat, at: nat, b: seq<Octet>, o: nat, k: nat)
    requires Scan(s, fs, i, at) != Mismatch && Proper(s) && k < LeafCount(s) && Decode(s, b, o).Decoded?
    ensures i + k < |fs| && fs[i + k].at >= at && KindProper(fs[i + k].kind)
    ensures var v := Decode(s, b, o).v;
            ReadAs(fs[i + k].kind, b, o + (fs[i + k].at - at) + Before(s, v, k), Leaf(s, v, k))
    decreases s, 1
  {
    ScanCounts(s, fs, i, at);
    hide ReadAs, KindProper, Matches, Decode, Proper;
    if s.Both? {
      BothFieldRead(s, fs, i, at, b, o, k);
    } else {
      LeafRead(fs[i].kind, s, b, o);
    }
  }

  lemma {:induction false} BothFieldRead(s: Schema, fs: seq<Field>, i: nat, at: nat, b: seq<Octet>, o: nat, k: nat)
    requires s.Both? && Scan(s, fs, i, at) != Mismatch && Proper(s) && k < LeafCount(s) && Decode(s, b, o).Decoded?
    ensures i + k < |fs| && fs[i + k].at >= at && KindProper(fs[i + k].kind)
    ensures var v := Decode(s, b, o).v;
            ReadAs(fs[i + k].kind, b, o + (fs[i + k].at - at) + Before(s, v, k), Leaf(s, v, k))
    decreases s, 0
  {
    hide ReadAs, KindProper, Matches, Decode, Proper, Scan, Span, Content;
    var n, m := LeafCount(s.first), Span(s.first);
    ScanParts(s, fs, i, at);
    ScanCounts(s.second, fs, i + n, at + m);
    BothDecoded(s, b, o);
    var x := Decode(s.first, b, o);
    if k < n {
      FieldRead(s.first, fs, i, at, b, o, k);
    } else {
      SpanRead(s.first, fs, i, at, b, o);
      FieldRead(s.second, fs, i + n, at + m, b, x.at, k - n);
    }
  }

  lemma ScanParts(s: Schema, fs: seq<Field>, i: nat, at: nat)
    requires s.Both? && Scan(s, fs, i, at) != Mismatch
    ensures Scan(s.first, fs, i, at) == Next(i + LeafCount(s.first), at + Span(s.first))
    ensures Scan(s.second, fs, i + LeafCount(s.first), at + Span(s.first)) != Mismatch
  {
    ScanCounts(s.first, fs, i, at);
  }

  lemma BothDecoded(s: Schema, b: seq<Octet>, o: nat)
    requires s.Both? && Proper(s) && Decode(s, b, o).Decoded?
    ensures Proper(s.first) && Proper(s.second)
    ensures var x := Decode(s.first, b, o);
            && x.Decoded?
            && var y := Decode(s.second, b, x.at);
               y.Decoded? && Decode(s, b, o) == Decoded(Pair(x.v, y.v), y.at)
  {
  }

  // ---------------------------------------------------------------- the theorems

  lemma DescribedAll(fs: seq<Field>, s: Schema)
    requires Describes(fs, Some(s))
    ensures Scan(s, fs, 0, 0) != Mismatch && LeafCount(s) == |fs|
  {
    ScanCounts(s, fs, 0, 0);
  }

  /** Of every structure that a table describes, a build sends field k at the place of the table, moved on by the texts
      and addresses before it. */
  lemma DescribedSent(fs: seq<Field>, s: Schema, v: Value, k: nat)
    requires Describes(fs, Some(s)) && Typed(s, v) && NoFloat(s) && k < |fs|
    ensures Sent(fs[k].kind, Emit(s, v), fs[k].at + Before(s, v, k), Leaf(s, v, k))
  {
    DescribedAll(fs, s);
    FieldSent(s, fs, 0, 0, v, k);
  }

  /** And a parse reads it from there. */
  lemma DescribedRead(fs: seq<Field>, s: Schema, b: seq<Octet>, o: nat, k: nat)
    requires Describes(fs, Some(s)) && Proper(s) && k < |fs| && Decode(s, b, o).Decoded?
    ensures KindProper(fs[k].kind)
    ensures var v := Decode(s, b, o).v; ReadAs(fs[k].kind, b, o + fs[k].at + Before(s, v, k), Leaf(s, v, k))
  {
    hide Decode, ReadAs;
    DescribedAll(fs, s);
    FieldRead(s, fs, 0, 0, b, o, k);
  }

  /** Management: for every ID, field k of the dataField stands where the table of the IDs says. */
  lemma ManagementFieldSent(id: MngId, s: Schema, v: Value, k: nat)
    requires SchemaOf(id) == Some(s) && Typed(s, v) && k < |Layout(id)|
    ensures var f := Layout(id)[k]; Sent(f.kind, Emit(s, v), f.at + Before(s, v, k), Leaf(s, v, k))
  {
    hide Layout, SchemaOf, Sent, Typed, Emit, RowOf, Describes;
    LayoutRight(id);
    TableProper(id);
    DescribedSent(Layout(id), s, v, k);
  }

  lemma ManagementFieldRead(id: MngId, s: Schema, b: seq<Octet>, o: nat, k: nat)
    requires SchemaOf(id) == Some(s) && k < |Layout(id)|
    ensures Proper(s)
    ensures var r, f := Decode(s, b, o), Layout(id)[k];
            r.Decoded? ==>
              KindProper(f.kind) && ReadAs(f.kind, b, o + f.at + Before(s, r.v, k), Leaf(s, r.v, k))
  {
    hide Layout, SchemaOf, ReadAs, Decode, RowOf, Describes, Proper;
    LayoutRight(id);
    TableProper(id);
    if Decode(s, b, o).Decoded? {
      DescribedRead(Layout(id), s, b, o, k);
    }
  }

  /** Signaling: the same for every TLV that parseSig keeps. */
  lemma SignalingFieldRead(tlvType: nat, linuxptp: bool, body: seq<Octet>, k: nat)
    requires SigLayout(tlvType, linuxptp).Some? && k < |SigLayout(tlvType, linuxptp).value|
    ensures SigSchema(tlvType, linuxptp).Some? && Proper(SigSchema(tlvType, linuxptp).value)
    ensures var s := SigSchema(tlvType, linuxptp).value;
            var r, f := Decode(s, body, 0), SigLayout(tlvType, linuxptp).value[k];
            r.Decoded? ==> KindProper(f.kind) && ReadAs(f.kind, body, f.at + Before(s, r.v, k), Leaf(s, r.v, k))
  {
    hide SigLayout, SigSchema, ReadAs, Decode, Describes, Proper;
    SigLayoutRight(tlvType, linuxptp);
    SigSchemasProper(tlvType, linuxptp);
    var s := SigSchema(tlvType, linuxptp).value;
    if Decode(s, body, 0).Decoded? {
      DescribedRead(SigLayout(tlvType, linuxptp).value, s, body, 0, k);
    }
  }
}
