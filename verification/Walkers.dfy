/** Theorems about every field walker, by induction over its schema. */
module Walkers {
  import opened Octets
  import opened Schema

  // ---------------------------------------------------------------- build normalises

  /** Build leaves a structure of the same types, normalising it again changes nothing, and it is sent as the
      same octets. */
  lemma {:induction false} NormalizeStable(s: Schema, v: Value)
    requires Typed(s, v)
    ensures Typed(s, Normalize(s, v))
    ensures Normalize(s, Normalize(s, v)) == Normalize(s, v)
    ensures Emit(s, Normalize(s, v)) == Emit(s, v)
    decreases s, 0
  {
    match s
    case Flags(mask) =>
      if mask > 1 {
        AndIdempotent(v.n, mask);
      }
    case Both(a, b) =>
      NormalizeStable(a, v.first);
      NormalizeStable(b, v.second);
    case Repeat(_, rec) => NormalizeAllStable(rec, v.items);
    case Table(_, _, rec) => NormalizeAllStable(rec, v.items);
    case Many(_, rec) => NormalizeAllStable(rec, v.items);
    case Checked(rec) => NormalizeStable(rec, v);
    case _ =>
  }

  lemma {:induction false} NormalizeAllStable(rec: Schema, items: seq<Value>)
    requires AllTyped(rec, items)
    ensures AllTyped(rec, NormalizeAll(rec, items))
    ensures NormalizeAll(rec, NormalizeAll(rec, items)) == NormalizeAll(rec, items)
    ensures EmitAll(rec, NormalizeAll(rec, items)) == EmitAll(rec, items)
    decreases rec, 1 + |items|
  {
    hide Emit, Normalize, Typed;
    if items != [] {
      NormalizeStable(rec, items[0]);
      NormalizeAllStable(rec, items[1..]);
      assert NormalizeAll(rec, items)[1..] == NormalizeAll(rec, items[1..]);
    }
  }

  /** The errors of the single fields: VAL for a 48-bit number out of range, otherwise TOO_SMALL exactly when the room
      is less than the field. */
  lemma FieldErrors(s: Schema, v: Value, left: int)
    requires Typed(s, v)
    ensures s.Unsigned48? ==>
              BuildError(s, v, left) ==
              if v.n >= 0x1_0000_0000_0000 then Some(VAL) else if left < 6 then Some(TOO_SMALL) else None
    ensures s.Number? ==> BuildError(s, v, left) == if left < s.c.w then Some(TOO_SMALL) else None
    ensures s.Flags? || s.Reserved? ==> BuildError(s, v, left) == if left < 1 then Some(TOO_SMALL) else None
    ensures s.Fixed? ==> BuildError(s, v, left) == if left < s.n then Some(TOO_SMALL) else None
    ensures s.Sized? ==> BuildError(s, v, left) == if left < s.w + |v.s| then Some(TOO_SMALL) else None
  {
  }

  // ---------------------------------------------------------------- a build that fails

  /** Normalising changes neither whether nor how a build fails. */
  lemma {:induction false} NormalizeKeepsError(s: Schema, v: Value, left: int)
    requires Typed(s, v)
    ensures Typed(s, Normalize(s, v)) && BuildError(s, Normalize(s, v), left) == BuildError(s, v, left)
    decreases s, 0
  {
    NormalizeStable(s, v);
    match s
    case Both(a, b) =>
      NormalizeStable(a, v.first);
      NormalizeKeepsError(a, v.first, left);
      NormalizeKeepsError(b, v.second, left - |Emit(a, v.first)|);
    case Repeat(_, rec) => NormalizeKeepsErrors(rec, v.items, left);
    case Table(c, _, rec) => NormalizeKeepsErrors(rec, v.items, left - c.w);
    case Many(_, rec) => NormalizeKeepsErrors(rec, v.items, left);
    case Checked(rec) =>
      NormalizeStable(rec, v);
      NormalizeKeepsError(rec, v, left);
    case _ =>
  }

  lemma {:induction false} NormalizeKeepsErrors(rec: Schema, items: seq<Value>, left: int)
    requires AllTyped(rec, items)
    ensures AllTyped(rec, NormalizeAll(rec, items))
    ensures BuildErrorAll(rec, NormalizeAll(rec, items), left) == BuildErrorAll(rec, items, left)
    decreases rec, 1 + |items|
  {
    hide Emit, Normalize, Typed, BuildError;
    NormalizeAllStable(rec, items);
    if items != [] {
      NormalizeStable(rec, items[0]);
      NormalizeKeepsError(rec, items[0], left);
      NormalizeKeepsErrors(rec, items[1..], left - |Emit(rec, items[0])|);
      assert NormalizeAll(rec, items)[1..] == NormalizeAll(rec, items[1..]);
    }
  }

  lemma PresetKeeps(s: Schema, v: Value)
    requires Typed(s, v)
    ensures Typed(s, Preset(s, v)) && Normalize(s, Preset(s, v)) == Normalize(s, v)
  {
  }

  /** A structure that a failed build has left half done still has its types and normalises to the same structure. */
  lemma {:induction false} AttemptKeeps(s: Schema, v: Value, left: int)
    requires Typed(s, v)
    ensures Typed(s, Attempt(s, v, left)) && Normalize(s, Attempt(s, v, left)) == Normalize(s, v)
    decreases s, 0
  {
    NormalizeStable(s, v);
    match s
    case Both(a, b) =>
      NormalizeStable(a, v.first);
      AttemptKeeps(a, v.first, left);
      AttemptKeeps(b, v.second, left - |Emit(a, v.first)|);
      PresetKeeps(b, v.second);
    case Repeat(_, rec) => AttemptAllKeeps(rec, v.items, left);
    case Table(c, _, rec) => AttemptAllKeeps(rec, v.items, left - c.w);
    case Many(_, rec) => AttemptAllKeeps(rec, v.items, left);
    case Checked(rec) => AttemptKeeps(rec, v, left);
    case _ =>
  }

  lemma {:induction false} AttemptAllKeeps(rec: Schema, items: seq<Value>, left: int)
    requires AllTyped(rec, items)
    ensures AllTyped(rec, AttemptAll(rec, items, left))
    ensures NormalizeAll(rec, AttemptAll(rec, items, left)) == NormalizeAll(rec, items)
    decreases rec, 1 + |items|
  {
    hide Emit, Normalize, Typed, BuildError, Attempt;
    if items != [] {
      var r := AttemptAll(rec, items, left);
      NormalizeStable(rec, items[0]);
      AttemptKeeps(rec, items[0], left);
      AttemptAllKeeps(rec, items[1..], left - |Emit(rec, items[0])|);
      assert AllTyped(rec, r[1..]) && NormalizeAll(rec, r[1..]) == NormalizeAll(rec, items[1..]);
    }
  }

  /** So it is sent as the same octets, and fails in the same rooms for the same reasons. */
  lemma AttemptSendsSame(s: Schema, v: Value, left: int, room: int)
    requires Typed(s, v)
    ensures var u := Attempt(s, v, left);
            && Typed(s, u) && Normalize(s, u) == Normalize(s, v) && Emit(s, u) == Emit(s, v)
            && BuildError(s, u, room) == BuildError(s, v, room)
  {
    hide Emit, Normalize, Typed, BuildError, Attempt;
    var u := Attempt(s, v, left);
    AttemptKeeps(s, v, left);
    NormalizeStable(s, v);
    NormalizeStable(s, u);
    NormalizeKeepsError(s, v, room);
    NormalizeKeepsError(s, u, room);
  }

  /** A build that does not fail has normalised everything. */
  lemma {:induction false} AttemptDone(s: Schema, v: Value, left: int)
    requires Typed(s, v) && BuildError(s, v, left).None?
    ensures Attempt(s, v, left) == Normalize(s, v)
    decreases s, 0
  {
    match s
    case Both(a, b) =>
      AttemptDone(a, v.first, left);
      AttemptDone(b, v.second, left - |Emit(a, v.first)|);
    case Repeat(_, rec) => AttemptAllDone(rec, v.items, left);
    case Table(c, _, rec) => AttemptAllDone(rec, v.items, left - c.w);
    case Many(_, rec) => AttemptAllDone(rec, v.items, left);
    case Checked(rec) => AttemptDone(rec, v, left);
    case _ =>
  }

  lemma {:induction false} AttemptAllDone(rec: Schema, items: seq<Value>, left: int)
    requires AllTyped(rec, items) && BuildErrorAll(rec, items, left).None?
    ensures AttemptAll(rec, items, left) == NormalizeAll(rec, items)
    decreases rec, 1 + |items|
  {
    hide Emit, Normalize, Typed, BuildError, Attempt;
    if items != [] {
      AttemptAllDone(rec, items[1..], left - |Emit(rec, items[0])|);
    }
  }

  // ---------------------------------------------------------------- the exact room a build needs

  /** Every 48-bit field is in range and every checked record declares its own length. */
  ghost predicate InRange(s: Schema, v: Value)
    requires Typed(s, v)
    decreases s, 0
  {
    match s
    case Unsigned48 => v.n < UINT48_LIMIT
    case Both(a, b) => InRange(a, v.first) && InRange(b, v.second)
    case Repeat(_, rec) => AllInRange(rec, v.items)
    case Table(_, _, rec) => AllInRange(rec, v.items)
    case Many(_, rec) => AllInRange(rec, v.items)
    case Checked(rec) => InRange(rec, v) && FaultLengthOk(Normalize(rec, v))
    case _ => true
  }

  ghost predicate AllInRange(rec: Schema, items: seq<Value>)
    requires AllTyped(rec, items)
    decreases rec, 1
  {
    forall i | 0 <= i < |items| :: InRange(rec, items[i])
  }

  /** The walker succeeds exactly when the values are in range and the octets fit, and a structure whose values
      are in range can only fail for lack of room. */
  lemma {:induction false} BuildThreshold(s: Schema, v: Value, left: int)
    requires Typed(s, v) && left >= 0
    ensures BuildError(s, v, left) == None <==> InRange(s, v) && |Emit(s, v)| <= left
    ensures InRange(s, v) && |Emit(s, v)| > left ==> BuildError(s, v, left) == Some(TOO_SMALL)
    decreases s, 0
  {
    match s
    case Both(a, b) =>
      BuildThreshold(a, v.first, left);
      if BuildError(a, v.first, left) == None {
        BuildThreshold(b, v.second, left - |Emit(a, v.first)|);
      }
    case Repeat(_, rec) => BuildThresholdAll(rec, v.items, left);
    case Table(c, _, rec) =>
      if left >= c.w {
        BuildThresholdAll(rec, v.items, left - c.w);
      }
    case Many(_, rec) => BuildThresholdAll(rec, v.items, left);
    case Checked(rec) => BuildThreshold(rec, v, left);
    case _ =>
  }

  lemma {:induction false} BuildThresholdAll(rec: Schema, items: seq<Value>, left: int)
    requires AllTyped(rec, items) && left >= 0
    ensures BuildErrorAll(rec, items, left) == None
            <==> AllInRange(rec, items) && |EmitAll(rec, items)| <= left
    ensures AllInRange(rec, items) && |EmitAll(rec, items)| > left
            ==> BuildErrorAll(rec, items, left) == Some(TOO_SMALL)
    decreases rec, 1 + |items|
  {
    hide BuildError, Emit, InRange, Typed;
    if items != [] {
      BuildThreshold(rec, items[0], left);
      assert forall i | 1 <= i < |items| :: items[i] == items[1..][i - 1];
      if BuildError(rec, items[0], left) == None {
        BuildThresholdAll(rec, items[1..], left - |Emit(rec, items[0])|);
      }
    }
  }

  // ---------------------------------------------------------------- well-formed structures

  /** In range, and every length and count that is sent tells the actual size. */
  ghost predicate WellFormed(s: Schema, v: Value)
    requires Typed(s, v)
    decreases s, 0
  {
    match s
    case Unsigned48 => v.n < UINT48_LIMIT
    case Sized(w) => |v.s| < Pow256(w)
    case Both(a, b) => WellFormed(a, v.first) && WellFormed(b, v.second)
    case Repeat(_, rec) => AllWellFormed(rec, v.items)
    case Table(c, counted, rec) =>
      && AsCount(if counted then Wrap(c, |v.items|) else v.count) == |v.items|
      && AllWellFormed(rec, v.items)
    case Many(_, rec) => AllWellFormed(rec, v.items)
    case Checked(rec) => WellFormed(rec, v) && FaultLengthOk(Normalize(rec, v))
    case _ => true
  }

  ghost predicate AllWellFormed(rec: Schema, items: seq<Value>)
    requires AllTyped(rec, items)
    decreases rec, 1
  {
    forall i | 0 <= i < |items| :: WellFormed(rec, items[i])
  }

  lemma {:induction false} WellFormedInRange(s: Schema, v: Value)
    requires Typed(s, v) && WellFormed(s, v)
    ensures InRange(s, v)
    decreases s
  {
    match s
    case Both(a, b) =>
      WellFormedInRange(a, v.first);
      WellFormedInRange(b, v.second);
    case Repeat(_, rec) =>
      forall i | 0 <= i < |v.items| ensures InRange(rec, v.items[i]) { WellFormedInRange(rec, v.items[i]); }
    case Table(_, _, rec) =>
      forall i | 0 <= i < |v.items| ensures InRange(rec, v.items[i]) { WellFormedInRange(rec, v.items[i]); }
    case Many(_, rec) =>
      forall i | 0 <= i < |v.items| ensures InRange(rec, v.items[i]) { WellFormedInRange(rec, v.items[i]); }
    case Checked(rec) => WellFormedInRange(rec, v);
    case _ =>
  }

  /** What the count clause of WellFormed means for the caller: the list fits its count field. */
  lemma CountFits(c: Codec, n: nat)
    requires 1 <= c.w <= 2 && n < 0x8000_0000
    ensures AsCount(Wrap(c, n)) == n <==> n < (if c.Signed? then Pow256(c.w) / 2 else Pow256(c.w))
  {
    Pow256Values();
    hide Pow256;
    var u := Wrap(c, n);
    if c.w == 1 {
      CountOf(n, 0x100, c.Signed?, u);
    } else {
      CountOf(n, 0x1_0000, c.Signed?, u);
    }
  }

  lemma CountOf(n: nat, p: nat, signed: bool, r: int)
    requires (p == 0x100 || p == 0x1_0000) && n < 0x8000_0000
    requires r == if signed && 2 * (n % p) >= p then n % p - p else n % p
    ensures AsCount(r) == n <==> n < if signed then p / 2 else p
  {
  }

  /** How many foreign octets may follow without being taken for a part of the structure. */
  predicate Tolerates(s: Schema, following: nat) {
    match s
    case Remaining => following == 0
    case Many(size, _) => following < size
    case Both(_, b) => Tolerates(b, following)
    case Checked(rec) => Tolerates(rec, following)
    case _ => true
  }

  lemma {:induction false} ClosedTolerates(s: Schema, following: nat)
    requires Closed(s)
    ensures Tolerates(s, following)
  {
    match s
    case Both(_, b) => ClosedTolerates(b, following);
    case Checked(rec) => ClosedTolerates(rec, following);
    case _ =>
  }

  // ---------------------------------------------------------------- round trip

  lemma TakeMiddle(pre: seq<Octet>, mid: seq<Octet>, post: seq<Octet>)
    ensures Take(pre + mid + post, |pre|, |mid|) == Some(mid)
  {
    assert (pre + mid + post)[|pre|..|pre| + |mid|] == mid;
  }

  lemma Regroup(a: seq<Octet>, b: seq<Octet>, c: seq<Octet>, d: seq<Octet>)
    ensures a + (b + c) + d == a + b + (c + d)
    ensures a + (b + c) + d == (a + b) + c + d
  {
  }

  /** A walker decodes what it has built, wherever the octets stand in a message: the structure comes back as
      build left it, and the cursor stops where it stopped. */
  lemma {:induction false} RoundTrip(s: Schema, v: Value, pre: seq<Octet>, post: seq<Octet>)
    requires Proper(s) && NoFloat(s) && Typed(s, v) && WellFormed(s, v) && Tolerates(s, |post|)
    ensures Decode(s, pre + Emit(s, v) + post, |pre|) == Decoded(Normalize(s, v), |pre| + |Emit(s, v)|)
    decreases s, 1
  {
    hide Decode, DecodeCount, DecodeMany, Emit, EmitAll, Normalize, NormalizeAll, AllTyped, AllWellFormed,
      FaultLengthOk, FixedLen, IsFixed, Take;
    match s
    case Sized(w) => RoundTripSized(w, v, pre, post);
    case Both(a, b) =>
      var x, y := Emit(a, v.first), Emit(b, v.second);
      ClosedTolerates(a, |y + post|);
      RoundTrip(a, v.first, pre, y + post);
      RoundTrip(b, v.second, pre + x, post);
      BothInTurn(a, b, v, pre, post);
    case Checked(rec) =>
      RoundTrip(rec, v, pre, post);
      CheckedSteps(rec, v, pre, post);
    case Repeat(_, _) => RoundTripList(s, v, pre, post);
    case Table(_, _, _) => RoundTripList(s, v, pre, post);
    case Many(_, _) => RoundTripList(s, v, pre, post);
    case Remaining =>
      RoundTripRemaining(v, pre);
      assert Emit(s, v) == v.s && Normalize(s, v) == v by { RemainingSteps(v); }
      assert pre + v.s + post == pre + v.s;
    case _ => RoundTripSimple(s, v, pre, post);
  }

  lemma {:induction false} RoundTripList(s: Schema, v: Value, pre: seq<Octet>, post: seq<Octet>)
    requires s.Repeat? || s.Table? || s.Many?
    requires Proper(s) && NoFloat(s) && Typed(s, v) && WellFormed(s, v) && Tolerates(s, |post|)
    ensures Decode(s, pre + Emit(s, v) + post, |pre|) == Decoded(Normalize(s, v), |pre| + |Emit(s, v)|)
    decreases s, 0
  {
    hide Decode, DecodeCount, DecodeMany, Emit, EmitAll, Normalize, NormalizeAll, AllTyped, AllWellFormed,
      FaultLengthOk, FixedLen, IsFixed, Take;
    ListSteps(s, v, pre, post);
    match s
    case Repeat(n, rec) =>
      RoundTripCount(rec, v.items, pre, post, []);
    case Table(c, counted, rec) =>
      var count := if counted then Wrap(c, |v.items|) else v.count;
      RoundTripCount(rec, v.items, pre + Put(c, count), post, []);
      TableAfterCount(c, counted, rec, count, pre, EmitAll(rec, v.items), post);
    case Many(size, rec) =>
      RoundTripMany(size, rec, v.items, pre, post, []);
  }

  lemma RemainingSteps(v: Value)
    requires Typed(Remaining, v)
    ensures Emit(Remaining, v) == v.s && Normalize(Remaining, v) == v
  {
  }

  lemma BothInTurn(a: Schema, b: Schema, v: Value, pre: seq<Octet>, post: seq<Octet>)
    requires Proper(Both(a, b)) && Typed(Both(a, b), v)
    ensures
      var s, x, y := Both(a, b), Emit(a, v.first), Emit(b, v.second);
      && Emit(s, v) == x + y && Normalize(s, v) == Pair(Normalize(a, v.first), Normalize(b, v.second))
      && Decode(s, pre + Emit(s, v) + post, |pre|)
         == (var d := Decode(a, pre + x + (y + post), |pre|);
             if d.Failed? then d else
             var e := Decode(b, (pre + x) + y + post, d.at);
             if e.Failed? then e else Decoded(Pair(d.v, e.v), e.at))
  {
    Regroup(pre, Emit(a, v.first), Emit(b, v.second), post);
  }

  lemma ListSteps(s: Schema, v: Value, pre: seq<Octet>, post: seq<Octet>)
    requires Proper(s) && Typed(s, v) && (s.Repeat? || s.Table? || s.Many?)
    ensures s.Table? ==>
              var count := if s.counted then Wrap(s.c, |v.items|) else v.count;
              && Emit(s, v) == Put(s.c, count) + EmitAll(s.rec, v.items)
              && Normalize(s, v) == Counted(count, NormalizeAll(s.rec, v.items))
    ensures !s.Table? ==>
              && Emit(s, v) == EmitAll(s.rec, v.items)
              && Normalize(s, v) == Items(NormalizeAll(s.rec, v.items))
    ensures s.Repeat? ==>
              Decode(s, pre + Emit(s, v) + post, |pre|) == DecodeCount(s.rec, pre + Emit(s, v) + post, |pre|, s.n, [])
    ensures s.Many? ==>
              Decode(s, pre + Emit(s, v) + post, |pre|) == DecodeMany(s.size, s.rec, pre + Emit(s, v) + post, |pre|, [])
  {
  }

  lemma CheckedSteps(rec: Schema, v: Value, pre: seq<Octet>, post: seq<Octet>)
    requires Proper(Checked(rec)) && Typed(rec, v)
    ensures Emit(Checked(rec), v) == Emit(rec, v) && Normalize(Checked(rec), v) == Normalize(rec, v)
    ensures Decode(Checked(rec), pre + Emit(rec, v) + post, |pre|)
         == (var x := Decode(rec, pre + Emit(rec, v) + post, |pre|);
             if x.Failed? || FaultLengthOk(x.v) then x else Failed(SIZE_MISS))
  {
  }

  lemma RoundTripSimple(s: Schema, v: Value, pre: seq<Octet>, post: seq<Octet>)
    requires s.Number? || s.Unsigned48? || s.Flags? || s.Reserved? || s.Fixed?
    requires Typed(s, v) && WellFormed(s, v)
    ensures Decode(s, pre + Emit(s, v) + post, |pre|) == Decoded(Normalize(s, v), |pre| + |Emit(s, v)|)
  {
    TakeMiddle(pre, Emit(s, v), post);
    match s
    case Number(c) => PutThenGet(c, v.n);
    case Unsigned48 => RoundTrip48(v.n);
    case _ =>
  }

  lemma RoundTripRemaining(v: Value, pre: seq<Octet>)
    requires Typed(Remaining, v)
    ensures Decode(Remaining, pre + v.s, |pre|) == Decoded(v, |pre| + |v.s|)
  {
    hide IsFixed, FixedLen, Get, FromBigEndian, DecodeCount, DecodeMany;
    SmallMod(|v.s|, 0x1_0000);
    assert (pre + v.s)[|pre|..] == v.s;
  }

  lemma RoundTrip48(n: nat)
    requires n < UINT48_LIMIT
    ensures FromBigEndian(BigEndian(6, n)) == n
  {
    Pow256Values();
    BigEndianRoundTrip(6, n);
  }

  lemma RoundTripSized(w: nat, v: Value, pre: seq<Octet>, post: seq<Octet>)
    requires 1 <= w <= 2 && Typed(Sized(w), v) && WellFormed(Sized(w), v)
    ensures var e := Emit(Sized(w), v);
            Decode(Sized(w), pre + e + post, |pre|) == Decoded(Normalize(Sized(w), v), |pre| + |e|)
  {
    WrapSmall(Unsigned(w), |v.s|);
    hide Wrap;
    BigEndianRoundTrip(w, |v.s|);
    var len := BigEndian(w, |v.s|);
    TakeMiddle(pre, len, v.s + post);
    TakeMiddle(pre + len, v.s, post);
    Regroup(pre, len, v.s, post);
  }

  /** A table is its count followed by its records. */
  lemma TableAfterCount(
    c: Codec, counted: bool, rec: Schema, count: int, pre: seq<Octet>, records: seq<Octet>, post: seq<Octet>)
    requires Proper(Table(c, counted, rec)) && Fits(c, count)
    ensures
      var x := DecodeCount(rec, (pre + Put(c, count)) + records + post, |pre| + c.w, AsCount(count), []);
      Decode(Table(c, counted, rec), pre + (Put(c, count) + records) + post, |pre|)
      == if x.Failed? then x else Decoded(Counted(count, x.v.items), x.at)
  {
    hide Put, Get, DecodeCount, Take, Fits, Proper;
    PutThenGet(c, count);
    TakeMiddle(pre, Put(c, count), records + post);
    Regroup(pre, Put(c, count), records, post);
  }

  lemma {:induction false} RoundTripCount(
    rec: Schema, items: seq<Value>, pre: seq<Octet>, post: seq<Octet>, done: seq<Value>)
    requires Proper(rec) && NoFloat(rec) && Closed(rec) && AllTyped(rec, items) && AllWellFormed(rec, items)
    ensures DecodeCount(rec, pre + EmitAll(rec, items) + post, |pre|, |items|, done)
         == Decoded(Items(done + NormalizeAll(rec, items)), |pre| + |EmitAll(rec, items)|)
    decreases rec, 3 + |items|
  {
    hide Decode, Emit, Normalize, Typed, WellFormed, Proper, NoFloat, Closed;
    if items == [] {
      assert done + [] == done;
    } else {
      var x, y, head := RoundTripHead(rec, items, pre, post, done);
      RoundTripCount(rec, items[1..], pre + x, post, done + [head]);
    }
  }

  lemma {:induction false} RoundTripMany(
    size: nat, rec: Schema, items: seq<Value>, pre: seq<Octet>, post: seq<Octet>, done: seq<Value>)
    requires Proper(rec) && NoFloat(rec) && Closed(rec) && AllTyped(rec, items) && AllWellFormed(rec, items)
    requires size > 0 && IsFixed(rec) && FixedLen(rec) == size && |post| < size
    ensures DecodeMany(size, rec, pre + EmitAll(rec, items) + post, |pre|, done)
         == Decoded(Items(done + NormalizeAll(rec, items)), |pre| + |EmitAll(rec, items)|)
    decreases rec, 3 + |items|
  {
    hide Decode, Emit, Normalize, Typed, WellFormed, Proper, NoFloat, Closed;
    if items == [] {
      assert done + [] == done;
    } else {
      var x, y, head := RoundTripHead(rec, items, pre, post, done);
      RoundTripMany(size, rec, items[1..], pre + x, post, done + [head]);
    }
  }

  /** The first record of a list, in front of the octets of the others. */
  lemma {:induction false} RoundTripHead(
    rec: Schema, items: seq<Value>, pre: seq<Octet>, post: seq<Octet>, done: seq<Value>)
    returns (x: seq<Octet>, y: seq<Octet>, head: Value)
    requires Proper(rec) && NoFloat(rec) && Closed(rec) && AllTyped(rec, items) && AllWellFormed(rec, items)
    requires items != []
    ensures AllTyped(rec, items[1..]) && AllWellFormed(rec, items[1..])
    ensures x == Emit(rec, items[0]) && y == EmitAll(rec, items[1..]) && EmitAll(rec, items) == x + y
    ensures pre + (x + y) + post == (pre + x) + y + post
    ensures Decode(rec, pre + (x + y) + post, |pre|) == Decoded(head, |pre + x|)
    ensures done + NormalizeAll(rec, items) == (done + [head]) + NormalizeAll(rec, items[1..])
    decreases rec, 2
  {
    hide Decode, Emit, Normalize, Typed, WellFormed, Proper, NoFloat, Closed, Tolerates;
    x, y, head := Emit(rec, items[0]), EmitAll(rec, items[1..]), Normalize(rec, items[0]);
    Regroup(pre, x, y, post);
    ClosedTolerates(rec, |y + post|);
    RoundTrip(rec, items[0], pre, y + post);
    assert done + ([head] + NormalizeAll(rec, items[1..])) == (done + [head]) + NormalizeAll(rec, items[1..]);
  }
}
