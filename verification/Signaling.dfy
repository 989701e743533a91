/** Signaling messages (section 13.12 of IEEE Std 1588-2008): a stream of TLVs, each a type, a length and a body.
    The specification splits the stream into frames, drops those the filter does not allow, decodes every other
    body alone and keeps the order. */
module Signaling {
  import opened Octets
  import opened Schema
  import opened Walkers
  import opened Decoding
  import opened Ids
  import opened Sizes

  // ---------------------------------------------------------------- TLV types and their walkers

  const MANAGEMENT := 0x0001
  const MANAGEMENT_ERROR_STATUS := 0x0002
  const ORGANIZATION_EXTENSION := 0x0003
  const PATH_TRACE := 0x0008
  const ALTERNATE_TIME_OFFSET_INDICATOR := 0x0009
  const ORGANIZATION_EXTENSION_PROPAGATE := 0x4000
  const ENHANCED_ACCURACY_METRICS := 0x4001
  const SLAVE_DELAY_TIMING_DATA_NP := 0x7f00
  const ORGANIZATION_EXTENSION_DO_NOT_PROPAGATE := 0x8000
  const L1_SYNC := 0x8001
  const PORT_COMMUNICATION_AVAILABILITY := 0x8002
  const PROTOCOL_ADDRESS := 0x8003
  const SLAVE_RX_SYNC_TIMING_DATA := 0x8004
  const SLAVE_RX_SYNC_COMPUTED_DATA := 0x8005
  const SLAVE_TX_EVENT_TIMESTAMPS := 0x8006
  const CUMULATIVE_RATE_RATIO := 0x8007

  const ORGANIZATION := Fixed(3).Then(Fixed(3)).Then(Remaining)
  const ALTERNATE_OFFSET := UINT8.Then(INT32).Then(INT32).Then(UINT64).Then(TEXT)
  const METRIC := INT64.Then(Float64)
  const ACCURACY_HEAD := UINT8.Then(UINT8).Then(Reserved).Then(Reserved)
  const ACCURACY_METRICS := ACCURACY_HEAD.Then(METRIC).Then(METRIC).Then(METRIC).Then(METRIC).Then(METRIC)
  const RX_SYNC_RECORD := UINT16.Then(TIMESTAMP).Then(INT64).Then(INT32).Then(TIMESTAMP)
  const COMPUTED_RECORD := UINT16.Then(INT64).Then(INT64).Then(INT32)
  const TX_EVENT_RECORD := UINT16.Then(TIMESTAMP)
  const DELAY_RECORD := UINT16.Then(TIMESTAMP).Then(INT64).Then(TIMESTAMP)

  /** The walker of a TLV type; None for the types that parseSig ignores and for MANAGEMENT. */
  function SigSchema(tlvType: nat, linuxptp: bool): Option<Schema> {
    if tlvType == ORGANIZATION_EXTENSION || tlvType == ORGANIZATION_EXTENSION_PROPAGATE
       || tlvType == ORGANIZATION_EXTENSION_DO_NOT_PROPAGATE then Some(ORGANIZATION)
    else if tlvType == PATH_TRACE then Some(Many(8, CLOCK_IDENTITY))
    else if tlvType == ALTERNATE_TIME_OFFSET_INDICATOR then Some(ALTERNATE_OFFSET)
    else if tlvType == ENHANCED_ACCURACY_METRICS then Some(ACCURACY_METRICS)
    else if tlvType == L1_SYNC then Some(Flags(0xf).Then(Flags(0x7)))
    else if tlvType == PORT_COMMUNICATION_AVAILABILITY then Some(Flags(0xf).Then(Flags(0xf)))
    else if tlvType == PROTOCOL_ADDRESS then Some(PORT_ADDRESS)
    else if tlvType == SLAVE_RX_SYNC_TIMING_DATA then Some(PORT_IDENTITY.Then(Many(34, RX_SYNC_RECORD)))
    else if tlvType == SLAVE_RX_SYNC_COMPUTED_DATA then
      Some(PORT_IDENTITY.Then(Flags(0x7)).Then(Reserved).Then(Many(22, COMPUTED_RECORD)))
    else if tlvType == SLAVE_TX_EVENT_TIMESTAMPS then
      Some(PORT_IDENTITY.Then(UINT8).Then(Reserved).Then(Many(12, TX_EVENT_RECORD)))
    else if tlvType == CUMULATIVE_RATE_RATIO then Some(INT32)
    else if tlvType == SLAVE_DELAY_TIMING_DATA_NP && linuxptp then
      Some(PORT_IDENTITY.Then(Many(30, DELAY_RECORD)))
    else None
  }

  lemma RecordSizes()
    ensures IsFixed(RX_SYNC_RECORD) && FixedLen(RX_SYNC_RECORD) == 34
    ensures IsFixed(COMPUTED_RECORD) && FixedLen(COMPUTED_RECORD) == 22
    ensures IsFixed(TX_EVENT_RECORD) && FixedLen(TX_EVENT_RECORD) == 12
    ensures IsFixed(DELAY_RECORD) && FixedLen(DELAY_RECORD) == 30
    ensures IsFixed(CLOCK_IDENTITY) && FixedLen(CLOCK_IDENTITY) == 8
  {
  }

  /** Every list takes the rest of its TLV, and the size() of its record is what the record's walker moves. */
  lemma SigSchemasProper(tlvType: nat, linuxptp: bool)
    ensures SigSchema(tlvType, linuxptp).Some? ==> Proper(SigSchema(tlvType, linuxptp).value)
  {
    hide IsFixed, FixedLen;
    RecordSizes();
  }

  lemma SigSchemasNoFloat(tlvType: nat, linuxptp: bool)
    requires tlvType != ENHANCED_ACCURACY_METRICS
    ensures SigSchema(tlvType, linuxptp).Some? ==> NoFloat(SigSchema(tlvType, linuxptp).value)
  {
    hide IsFixed, FixedLen;
    RecordsNoFloat();
  }

  lemma RecordsNoFloat()
    ensures NoFloat(ORGANIZATION) && NoFloat(ALTERNATE_OFFSET) && NoFloat(PORT_IDENTITY) && NoFloat(PORT_ADDRESS)
    ensures NoFloat(RX_SYNC_RECORD) && NoFloat(COMPUTED_RECORD) && NoFloat(TX_EVENT_RECORD) && NoFloat(DELAY_RECORD)
  {
    hide IsFixed, FixedLen;
  }

  // ---------------------------------------------------------------- frames

  datatype Frame = Frame(tlvType: nat, body: seq<Octet>)

  /** The complete frames of a stream and the octets after them: fewer than a TLV header, or a TLV cut short. */
  datatype Stream = Stream(frames: seq<Frame>, rest: seq<Octet>)

  function BodyLength(b: seq<Octet>): nat
    requires |b| >= 4
  {
    FromBigEndian(b[2..4])
  }

  function Split(b: seq<Octet>): Stream {
    if |b| < 4 || BodyLength(b) > |b| - 4 then Stream([], b)
    else
      var n := BodyLength(b);
      var tail := Split(b[4 + n..]);
      Stream([Frame(FromBigEndian(b[..2]), b[4..4 + n])] + tail.frames, tail.rest)
  }

  /** A frame that 16-bit type and length fields can carry. */
  predicate Framed(f: Frame) { f.tlvType < 0x1_0000 && |f.body| < 0x1_0000 }

  function FrameOctets(f: Frame): seq<Octet> {
    BigEndian(2, f.tlvType) + BigEndian(2, |f.body|) + f.body
  }

  function JoinFrames(fs: seq<Frame>): seq<Octet> {
    if fs == [] then [] else FrameOctets(fs[0]) + JoinFrames(fs[1..])
  }

  /** Frames written one after the other are found again, whatever follows. */
  lemma {:induction false} SplitJoined(fs: seq<Frame>, b: seq<Octet>)
    requires forall f | f in fs :: Framed(f)
    ensures Split(JoinFrames(fs) + b) == Stream(fs + Split(b).frames, Split(b).rest)
  {
    hide Split, FrameOctets, Framed;
    if fs == [] {
      assert JoinFrames(fs) + b == b;
      assert fs + Split(b).frames == Split(b).frames;
    } else {
      var f := fs[0];
      SplitJoined(fs[1..], b);
      SplitFirst(f, JoinFrames(fs[1..]) + b);
      assert JoinFrames(fs) + b == FrameOctets(f) + (JoinFrames(fs[1..]) + b);
      assert fs == [f] + fs[1..];
      assert [f] + (fs[1..] + Split(b).frames) == fs + Split(b).frames;
    }
  }

  lemma SplitFirst(f: Frame, b: seq<Octet>)
    requires Framed(f)
    ensures Split(FrameOctets(f) + b) == Stream([f] + Split(b).frames, Split(b).rest)
  {
    Pow256Values();
    BigEndianRoundTrip(2, f.tlvType);
    BigEndianRoundTrip(2, |f.body|);
    var all := FrameOctets(f) + b;
    assert all[..2] == BigEndian(2, f.tlvType) && all[2..4] == BigEndian(2, |f.body|);
    assert all[4..4 + |f.body|] == f.body && all[4 + |f.body|..] == b;
  }

  /** Splitting loses nothing. */
  lemma {:induction false} JoinSplit(b: seq<Octet>)
    ensures JoinFrames(Split(b).frames) + Split(b).rest == b
    ensures forall f | f in Split(b).frames :: Framed(f)
    decreases |b|
  {
    if |b| < 4 || BodyLength(b) > |b| - 4 {
      assert JoinFrames([]) + b == b;
    } else {
      var f, tail := FirstFrame(b);
      JoinSplit(tail);
      hide FrameOctets, BodyLength, Framed, Split;
      var fs := Split(b).frames;
      assert fs == [f] + Split(tail).frames && fs[1..] == Split(tail).frames;
      Regrouped(FrameOctets(f), JoinFrames(fs[1..]), Split(tail).rest);
    }
  }

  lemma FirstFrame(b: seq<Octet>) returns (f: Frame, tail: seq<Octet>)
    requires |b| >= 4 && BodyLength(b) <= |b| - 4
    ensures Framed(f) && b == FrameOctets(f) + tail && |tail| < |b|
    ensures Split(b) == Stream([f] + Split(tail).frames, Split(tail).rest)
  {
    var n := BodyLength(b);
    f, tail := Frame(FromBigEndian(b[..2]), b[4..4 + n]), b[4 + n..];
    Pow256Values();
    FromBigEndianRoundTrip(b[..2]);
    FromBigEndianRoundTrip(b[2..4]);
    assert FrameOctets(f) == b[..2] + b[2..4] + b[4..4 + n] == b[..4 + n];
  }

  /** A stream ends with a TLV cut short exactly when a whole TLV header is left. */
  lemma {:induction false} RestIsShort(b: seq<Octet>)
    ensures |Split(b).rest| < 4 || BodyLength(Split(b).rest) > |Split(b).rest| - 4
    decreases |b|
  {
    if !(|b| < 4 || BodyLength(b) > |b| - 4) {
      RestIsShort(b[4 + BodyLength(b)..]);
    }
  }

  // ---------------------------------------------------------------- one frame

  datatype SigData = Own(v: Value) | Mng(id: MngId, data: Option<Value>)
  datatype SigTlv = SigTlv(tlvType: nat, data: SigData)

  /** Overran: the TLV is kept and the cursor stands `past` octets behind its end. */
  datatype FrameResult = Ignored | Kept(tlv: SigTlv) | Overran(tlv: SigTlv, past: nat) | Refused(err: Status)

  function DecodeFrame(f: Frame, linuxptp: bool): (r: FrameResult)
    ensures r.Refused? ==> r.err == TOO_SMALL || r.err == SIZE_MISS
  {
    if f.tlvType == MANAGEMENT then DecodeManagement(f.body, linuxptp) else
    var s := SigSchema(f.tlvType, linuxptp);
    if s.None? then Ignored else
    SigSchemasProper(f.tlvType, linuxptp);
    match Decode(s.value, f.body, 0)
    case Failed(e) => Refused(e)
    case Decoded(v, at) =>
      var tlv := SigTlv(f.tlvType, Own(v));
      if at > |f.body| then Overran(tlv, at - |f.body|) else Kept(tlv)
  }

  /** A MANAGEMENT TLV inside a signaling message; one with an unknown ID or without data is ignored. */
  function DecodeManagement(body: seq<Octet>, linuxptp: bool): (r: FrameResult)
    ensures r.Refused? ==> r.err == TOO_SMALL || r.err == SIZE_MISS
    ensures !r.Overran?
  {
    if |body| < 2 then Refused(TOO_SMALL) else
    var id := FindId(FromBigEndian(body[..2]), linuxptp);
    if id.None? || |body| == 2 then Ignored else
    TableProper(id.value);
    var s := SchemaOf(id.value);
    if s.None? then Kept(SigTlv(MANAGEMENT, Mng(id.value, None))) else
    match Decode(s.value, body, 2)
    case Failed(e) => Refused(e)
    case Decoded(v, _) => Kept(SigTlv(MANAGEMENT, Mng(id.value, Some(v))))
  }

  // ---------------------------------------------------------------- the stream

  datatype Filter = Filter(on: bool, allow: set<nat>, linuxptp: bool)

  predicate Passes(p: Filter, f: Frame) { !p.on || f.tlvType in p.allow }

  datatype SigResult = SigResult(status: Status, tlvs: seq<SigTlv>)

  // The specification: every frame is decoded alone.

  /** What the frames give after `done`: in order, up to the first one that is refused. */
  function Process(p: Filter, st: Stream, done: seq<SigTlv>): SigResult
    decreases |st.frames|
  {
    if st.frames == [] then SigResult(if |st.rest| >= 4 then TOO_SMALL else SIG, done)
    else
      var f, tail := st.frames[0], Stream(st.frames[1..], st.rest);
      if !Passes(p, f) then Process(p, tail, done)
      else
        match DecodeFrame(f, p.linuxptp)
        case Ignored => Process(p, tail, done)
        case Kept(tlv) => Process(p, tail, done + [tlv])
        case Overran(tlv, _) => Process(p, tail, done + [tlv])
        case Refused(e) => SigResult(e, done)
  }

  function SigSpec(p: Filter, b: seq<Octet>): SigResult { Process(p, Split(b), []) }

  // The loop: the cursor may leave the frames.

  function Drop(b: seq<Octet>, n: nat): seq<Octet> { if n <= |b| then b[n..] else [] }

  /** The loop of parseSig: `b` are the octets of the buffer from the cursor on, `left` is how many of them belong to
      the message by the loop's own count.  A frame that reaches behind the buffer, where the source reads foreign
      memory, ends in `Overrun`. */
  function SigRun(p: Filter, b: seq<Octet>, left: nat, done: seq<SigTlv>): SigResult
    decreases left, 0
  {
    if left < 4 then SigResult(SIG, done)
    else if |b| < 4 then SigResult(Overrun, done) else
    var n := BodyLength(b);
    if n > left - 4 then SigResult(TOO_SMALL, done)
    else if n > |b| - 4 then SigResult(Overrun, done) else
    FrameRun(p, Frame(FromBigEndian(b[..2]), b[4..4 + n]), b[4 + n..], left - 4 - n, done)
  }

  /** The round of the loop for the frame `f`, and the rounds after it. */
  function FrameRun(p: Filter, f: Frame, next: seq<Octet>, left: nat, done: seq<SigTlv>): SigResult
    decreases left, 1
  {
    if !Passes(p, f) then SigRun(p, next, left, done)
    else
      match DecodeFrame(f, p.linuxptp)
      case Ignored => SigRun(p, next, left, done)
      case Kept(tlv) => SigRun(p, next, left, done + [tlv])
      case Overran(tlv, past) => SigRun(p, Drop(next, past), left, done + [tlv])
      case Refused(e) => SigResult(e, done)
  }

  /** No frame that passes displaces the cursor, unless the stream ends there. */
  predicate Undisturbed(p: Filter, st: Stream)
    decreases |st.frames|
  {
    st.frames == []
    || ((Passes(p, st.frames[0]) && DecodeFrame(st.frames[0], p.linuxptp).Overran? ==>
           |st.frames| == 1 && |st.rest| < 4)
        && Undisturbed(p, Stream(st.frames[1..], st.rest)))
  }

  /** On an undisturbed stream the loop gives what the specification gives, whatever stands behind the message. */
  lemma {:induction false} RunRefinesSpec(p: Filter, m: seq<Octet>, behind: seq<Octet>, done: seq<SigTlv>)
    requires Undisturbed(p, Split(m))
    ensures SigRun(p, m + behind, |m|, done) == Process(p, Split(m), done)
    decreases |m|
  {
    hide DecodeFrame, SigRun;
    var b := m + behind;
    if |m| < 4 || BodyLength(m) > |m| - 4 {
      RunEnds(p, m, behind, done);
    } else {
      var n := BodyLength(m);
      var f, tail := Frame(FromBigEndian(m[..2]), m[4..4 + n]), m[4 + n..];
      RunStep(p, m, behind, done);
      assert Split(m).frames[1..] == Split(tail).frames;
      if !Passes(p, f) {
        RunRefinesSpec(p, tail, behind, done);
      } else {
        match DecodeFrame(f, p.linuxptp)
        case Ignored => RunRefinesSpec(p, tail, behind, done);
        case Kept(tlv) => RunRefinesSpec(p, tail, behind, done + [tlv]);
        case Overran(tlv, past) =>
          RunRefinesSpec(p, tail, behind, done + [tlv]);
          RunShort(p, Drop(tail + behind, past), |tail|, done + [tlv]);
          RunShort(p, tail + behind, |tail|, done + [tlv]);
          JoinSplit(tail);
        case Refused(_) =>
      }
    }
  }

  lemma RunShort(p: Filter, b: seq<Octet>, left: nat, done: seq<SigTlv>)
    requires left < 4
    ensures SigRun(p, b, left, done) == SigResult(SIG, done)
  {
  }

  /** A message without a complete frame. */
  lemma RunEnds(p: Filter, m: seq<Octet>, behind: seq<Octet>, done: seq<SigTlv>)
    requires |m| < 4 || BodyLength(m) > |m| - 4
    ensures SigRun(p, m + behind, |m|, done) == SigResult(if |m| < 4 then SIG else TOO_SMALL, done)
  {
    hide DecodeFrame;
    assert |m| >= 4 ==> (m + behind)[2..4] == m[2..4];
  }

  /** A message that begins with a complete frame. */
  lemma RunStep(p: Filter, m: seq<Octet>, behind: seq<Octet>, done: seq<SigTlv>)
    requires |m| >= 4 && BodyLength(m) <= |m| - 4
    ensures
      var n := BodyLength(m);
      var f, tail := Frame(FromBigEndian(m[..2]), m[4..4 + n]), m[4 + n..];
      SigRun(p, m + behind, |m|, done) == FrameRun(p, f, tail + behind, |tail|, done)
  {
    hide FrameRun;
    var n, b := BodyLength(m), m + behind;
    assert b[2..4] == m[2..4] && b[..2] == m[..2] && b[4..4 + n] == m[4..4 + n] && b[4 + n..] == m[4 + n..] + behind;
  }

  predicate Decodable(p: Filter, f: Frame) {
    Framed(f) && (Passes(p, f) ==> DecodeFrame(f, p.linuxptp).Ignored? || DecodeFrame(f, p.linuxptp).Kept?)
  }

  /** What was kept before does not matter for what comes after. */
  lemma {:induction false} RunFrom(p: Filter, b: seq<Octet>, left: nat, done: seq<SigTlv>)
    ensures SigRun(p, b, left, done)
         == SigResult(SigRun(p, b, left, []).status, done + SigRun(p, b, left, []).tlvs)
    decreases left, 0
  {
    hide DecodeFrame, Drop;
    if left < 4 || |b| < 4 || BodyLength(b) > left - 4 || BodyLength(b) > |b| - 4 {
      assert done + [] == done;
    } else {
      var n := BodyLength(b);
      var f, next, left' := Frame(FromBigEndian(b[..2]), b[4..4 + n]), b[4 + n..], left - 4 - n;
      if !Passes(p, f) {
        RunFrom(p, next, left', done);
      } else {
        match DecodeFrame(f, p.linuxptp)
        case Ignored => RunFrom(p, next, left', done);
        case Kept(tlv) => RunFromNext(p, next, left', done, tlv);
        case Overran(tlv, past) => RunFromNext(p, Drop(next, past), left', done, tlv);
        case Refused(e) => assert done + [] == done;
      }
    }
  }

  lemma {:induction false} RunFromNext(p: Filter, b: seq<Octet>, left: nat, done: seq<SigTlv>, tlv: SigTlv)
    ensures var r := SigRun(p, b, left, [] + [tlv]);
            SigRun(p, b, left, done + [tlv]) == SigResult(r.status, done + r.tlvs)
    decreases left, 1
  {
    hide SigRun;
    RunFrom(p, b, left, done + [tlv]);
    RunFrom(p, b, left, [] + [tlv]);
    var r := SigRun(p, b, left, []);
    assert (done + [tlv]) + r.tlvs == done + (([] + [tlv]) + r.tlvs);
  }

  /** Decodable frames are passed one by one. */
  lemma {:induction false} RunOverFrames(p: Filter, fs: seq<Frame>, b: seq<Octet>, left: nat, done: seq<SigTlv>)
    requires forall f | f in fs :: Decodable(p, f)
    requires left <= |b|
    ensures SigRun(p, JoinFrames(fs) + b, |JoinFrames(fs)| + left, done)
         == SigRun(p, b, left, SigRun(p, JoinFrames(fs), |JoinFrames(fs)|, done).tlvs)
    decreases |fs|
  {
    hide DecodeFrame, SigRun, FrameOctets, Framed;
    if fs == [] {
      assert JoinFrames(fs) + b == b;
      RunShort(p, [], 0, done);
    } else {
      var f, tail := fs[0], JoinFrames(fs[1..]);
      assert Decodable(p, f);
      assert JoinFrames(fs) + b == FrameOctets(f) + (tail + b);
      var next := if Passes(p, f) && DecodeFrame(f, p.linuxptp).Kept?
                  then done + [DecodeFrame(f, p.linuxptp).tlv] else done;
      RunFirst(p, f, tail + b, |tail| + left, done);
      RunFirst(p, f, tail, |tail|, done);
      RunOverFrames(p, fs[1..], b, left, next);
    }
  }

  lemma RunFirst(p: Filter, f: Frame, b: seq<Octet>, left: nat, done: seq<SigTlv>)
    requires Decodable(p, f) && left <= |b|
    ensures SigRun(p, FrameOctets(f) + b, |FrameOctets(f)| + left, done)
         == SigRun(p, b, left, if Passes(p, f) && DecodeFrame(f, p.linuxptp).Kept?
                               then done + [DecodeFrame(f, p.linuxptp).tlv] else done)
  {
    hide DecodeFrame, SigRun;
    var m, behind := FrameOctets(f) + b[..left], b[left..];
    FrameRead(f, b[..left]);
    RunStep(p, m, behind, done);
    assert m + behind == FrameOctets(f) + b;
    assert b[..left] + behind == b;
  }

  lemma FrameRead(f: Frame, b: seq<Octet>)
    requires Framed(f)
    ensures var m := FrameOctets(f) + b;
            && |m| == 4 + |f.body| + |b| && BodyLength(m) == |f.body| && FromBigEndian(m[..2]) == f.tlvType
            && m[4..4 + |f.body|] == f.body && m[4 + |f.body|..] == b
  {
    Pow256Values();
    var m := FrameOctets(f) + b;
    BigEndianRoundTrip(2, f.tlvType);
    BigEndianRoundTrip(2, |f.body|);
    assert m[..2] == BigEndian(2, f.tlvType) && m[2..4] == BigEndian(2, |f.body|);
  }

  /** A run of complete decodable frames followed by any octets, disturbed or not, gives the TLVs of the run and then
      those of the octets, with their status. */
  lemma SigConcatenation(p: Filter, fs: seq<Frame>, b: seq<Octet>, behind: seq<Octet>)
    requires forall f | f in fs :: Decodable(p, f)
    ensures var a, r := JoinFrames(fs), SigRun(p, b + behind, |b|, []);
            SigRun(p, (a + b) + behind, |a + b|, [])
            == SigResult(r.status, SigRun(p, a, |a|, []).tlvs + r.tlvs)
  {
    hide SigRun, JoinFrames, Decodable;
    var a := JoinFrames(fs);
    RunOverFrames(p, fs, b + behind, |b|, []);
    RunFrom(p, b + behind, |b|, SigRun(p, a, |a|, []).tlvs);
    assert (a + b) + behind == a + (b + behind);
  }

  // ---------------------------------------------------------------- the filter

  function Allowed(p: Filter, fs: seq<Frame>): (r: seq<Frame>)
    ensures forall f | f in r :: f in fs
  {
    if fs == [] then [] else (if Passes(p, fs[0]) then [fs[0]] else []) + Allowed(p, fs[1..])
  }

  /** The stream without the frames the filter does not allow. */
  function Reduced(p: Filter, b: seq<Octet>): seq<Octet> {
    JoinFrames(Allowed(p, Split(b).frames)) + Split(b).rest
  }

  lemma {:induction false} ProcessFiltered(p: Filter, st: Stream, done: seq<SigTlv>)
    ensures Process(p, st, done) == Process(p.(on := false), Stream(Allowed(p, st.frames), st.rest), done)
    decreases |st.frames|
  {
    hide DecodeFrame;
    if st.frames != [] {
      var f, tail := st.frames[0], Stream(st.frames[1..], st.rest);
      var kept := Allowed(p, st.frames);
      if !Passes(p, f) {
        assert kept == Allowed(p, tail.frames);
        ProcessFiltered(p, tail, done);
      } else {
        assert kept[0] == f && kept[1..] == Allowed(p, tail.frames);
        var r := DecodeFrame(f, p.linuxptp);
        ProcessFiltered(p, tail, if r.Kept? || r.Overran? then done + [r.tlv] else done);
      }
    }
  }

  /** Parsing with the filter on is parsing, with the filter off, the stream without the disallowed frames: same
      TLVs and same status, also when the stream ends in a TLV cut short, whatever stands behind the messages. */
  lemma FilteringCommutes(p: Filter, m: seq<Octet>, behind: seq<Octet>, behind': seq<Octet>)
    requires Undisturbed(p, Split(m))
    ensures SigRun(p, m + behind, |m|, [])
         == SigRun(p.(on := false), Reduced(p, m) + behind', |Reduced(p, m)|, [])
  {
    hide DecodeFrame, Split, Process, Allowed, SigRun, Undisturbed;
    var st := Split(m);
    JoinSplit(m);
    SplitJoined(Allowed(p, st.frames), st.rest);
    SplitRest(m);
    assert Allowed(p, st.frames) + [] == Allowed(p, st.frames);
    ProcessFiltered(p, st, []);
    UndisturbedFiltered(p, st);
    RunRefinesSpec(p, m, behind, []);
    RunRefinesSpec(p.(on := false), Reduced(p, m), behind', []);
  }

  lemma {:induction false} UndisturbedFiltered(p: Filter, st: Stream)
    requires Undisturbed(p, st)
    ensures Undisturbed(p.(on := false), Stream(Allowed(p, st.frames), st.rest))
    decreases |st.frames|
  {
    hide DecodeFrame;
    if st.frames != [] {
      var f, tail := st.frames[0], Stream(st.frames[1..], st.rest);
      UndisturbedFiltered(p, tail);
      var kept := Allowed(p, st.frames);
      if Passes(p, f) {
        assert kept[0] == f && kept[1..] == Allowed(p, tail.frames);
        assert |st.frames| == 1 ==> tail.frames == [] && Allowed(p, tail.frames) == [];
      } else {
        assert kept == Allowed(p, tail.frames);
      }
    }
  }

  lemma SplitRest(b: seq<Octet>)
    ensures Split(Split(b).rest) == Stream([], Split(b).rest)
  {
    RestIsShort(b);
  }

  lemma DecodeKeepsType(f: Frame, linuxptp: bool)
    ensures var r := DecodeFrame(f, linuxptp); r.Kept? || r.Overran? ==> r.tlv.tlvType == f.tlvType
  {
    hide SigSchema, Decode, FindId, SchemaOf;
  }

  /** With the filter on, only TLVs of the types that the caller allows are kept, on any stream. */
  lemma {:induction false} OnlyAllowedKept(p: Filter, b: seq<Octet>, left: nat, done: seq<SigTlv>)
    requires p.on && forall t | t in done :: t.tlvType in p.allow
    ensures forall t | t in SigRun(p, b, left, done).tlvs :: t.tlvType in p.allow
    decreases left
  {
    hide DecodeFrame, Drop;
    if left >= 4 && |b| >= 4 && BodyLength(b) <= left - 4 && BodyLength(b) <= |b| - 4 {
      var n := BodyLength(b);
      var f, next, left' := Frame(FromBigEndian(b[..2]), b[4..4 + n]), b[4 + n..], left - 4 - n;
      DecodeKeepsType(f, p.linuxptp);
      var r := DecodeFrame(f, p.linuxptp);
      if f.tlvType !in p.allow || r.Ignored? {
        OnlyAllowedKept(p, next, left', done);
      } else if r.Kept? {
        OnlyAllowedKept(p, next, left', done + [r.tlv]);
      } else if r.Overran? {
        OnlyAllowedKept(p, Drop(next, r.past), left', done + [r.tlv]);
      }
    }
  }

  lemma {:induction false} ProcessAllAllowed(p: Filter, st: Stream, done: seq<SigTlv>)
    requires forall f | f in st.frames :: f.tlvType in p.allow
    ensures Process(p, st, done) == Process(p.(on := false), st, done)
    decreases |st.frames|
  {
    hide DecodeFrame;
    if st.frames != [] {
      var f, tail := st.frames[0], Stream(st.frames[1..], st.rest);
      assert f.tlvType in p.allow;
      var r := DecodeFrame(f, p.linuxptp);
      ProcessAllAllowed(p, tail, if r.Kept? || r.Overran? then done + [r.tlv] else done);
    }
  }

  /** A stream of allowed types gives the same with the filter on and off. */
  lemma AllAllowed(p: Filter, m: seq<Octet>, behind: seq<Octet>)
    requires forall f | f in Split(m).frames :: f.tlvType in p.allow
    requires Undisturbed(p.(on := false), Split(m))
    ensures SigRun(p, m + behind, |m|, []) == SigRun(p.(on := false), m + behind, |m|, [])
  {
    hide DecodeFrame, Split, Process, SigRun;
    ProcessAllAllowed(p, Split(m), []);
    UndisturbedOn(p, Split(m));
    RunRefinesSpec(p, m, behind, []);
    RunRefinesSpec(p.(on := false), m, behind, []);
  }

  lemma {:induction false} UndisturbedOn(p: Filter, st: Stream)
    requires Undisturbed(p.(on := false), st)
    ensures Undisturbed(p, st)
    decreases |st.frames|
  {
    hide DecodeFrame;
    if st.frames != [] {
      UndisturbedOn(p, Stream(st.frames[1..], st.rest));
    }
  }

  /** A stream of types that are not allowed gives nothing with the filter on, whatever its TLVs hold. */
  lemma {:induction false} NoneAllowed(p: Filter, m: seq<Octet>, behind: seq<Octet>)
    requires p.on && forall f | f in Split(m).frames :: f.tlvType !in p.allow
    ensures SigRun(p, m + behind, |m|, []) == SigResult(if |Split(m).rest| < 4 then SIG else TOO_SMALL, [])
    decreases |m|
  {
    hide DecodeFrame, SigRun;
    if |m| < 4 || BodyLength(m) > |m| - 4 {
      RunEnds(p, m, behind, []);
    } else {
      RunStep(p, m, behind, []);
      var f, tail := FirstFrame(m);
      assert f in Split(m).frames;
      var n := BodyLength(m);
      assert m[4 + n..] == tail by { TailIs(m, f, tail); }
      assert FromBigEndian(m[..2]) == f.tlvType by { TailIs(m, f, tail); }
      NoneAllowed(p, tail, behind);
    }
  }

  lemma TailIs(m: seq<Octet>, f: Frame, tail: seq<Octet>)
    requires Framed(f) && m == FrameOctets(f) + tail
    ensures |m| >= 4 && BodyLength(m) == |f.body| && m[4 + BodyLength(m)..] == tail
    ensures FromBigEndian(m[..2]) == f.tlvType
  {
    FrameRead(f, tail);
  }

  // ---------------------------------------------------------------- what is kept

  /** With the filter off, frames that are kept are all kept, in their order, and the status is SIG. */
  lemma {:induction false} EveryFrameKept(p: Filter, fs: seq<Frame>, done: seq<SigTlv>)
    requires !p.on && forall f | f in fs :: Framed(f) && DecodeFrame(f, p.linuxptp).Kept?
    ensures SigRun(p, JoinFrames(fs), |JoinFrames(fs)|, done)
         == SigResult(SIG, done + seq(|fs|, i requires 0 <= i < |fs| => DecodeFrame(fs[i], p.linuxptp).tlv))
    decreases |fs|
  {
    hide DecodeFrame, SigRun, FrameOctets, Framed;
    var kept := seq(|fs|, i requires 0 <= i < |fs| => DecodeFrame(fs[i], p.linuxptp).tlv);
    if fs == [] {
      RunShort(p, [], 0, done);
      assert done + kept == done;
    } else {
      var tlv := DecodeFrame(fs[0], p.linuxptp).tlv;
      RunFirst(p, fs[0], JoinFrames(fs[1..]), |JoinFrames(fs[1..])|, done);
      EveryFrameKept(p, fs[1..], done + [tlv]);
      var rest := seq(|fs[1..]|, i requires 0 <= i < |fs[1..]| => DecodeFrame(fs[1..][i], p.linuxptp).tlv);
      assert kept == [tlv] + rest;
      assert (done + [tlv]) + rest == done + ([tlv] + rest);
    }
  }

  /** A frame that is refused ends the stream with its error, whatever follows; what was kept before stays. */
  lemma RefusedEnds(p: Filter, fs: seq<Frame>, f: Frame, rest: seq<Octet>, behind: seq<Octet>)
    requires forall g | g in fs :: Decodable(p, g)
    requires Framed(f) && (!p.on || f.tlvType in p.allow) && DecodeFrame(f, p.linuxptp).Refused?
    ensures var m, a := JoinFrames(fs) + (FrameOctets(f) + rest), JoinFrames(fs);
            SigRun(p, m + behind, |m|, [])
            == SigResult(DecodeFrame(f, p.linuxptp).err, SigRun(p, a, |a|, []).tlvs)
  {
    hide DecodeFrame, SigRun, JoinFrames, FrameOctets, Decodable;
    var a, t := JoinFrames(fs), FrameOctets(f) + rest;
    RunOverFrames(p, fs, t + behind, |t|, []);
    assert (a + t) + behind == a + (t + behind);
    FrameRead(f, rest);
    RunStep(p, t, behind, SigRun(p, a, |a|, []).tlvs);
  }

  /** A TLV that is too short for its fields is refused. */
  lemma ShortTlvRefused(f: Frame, linuxptp: bool)
    requires f.tlvType != MANAGEMENT && f.tlvType != ENHANCED_ACCURACY_METRICS
    requires SigSchema(f.tlvType, linuxptp).Some? && |f.body| < MinLen(SigSchema(f.tlvType, linuxptp).value)
    ensures DecodeFrame(f, linuxptp).Refused?
  {
    var s := SigSchema(f.tlvType, linuxptp).value;
    SigSchemasProper(f.tlvType, linuxptp);
    SigSchemasNoFloat(f.tlvType, linuxptp);
    hide SigSchema, Proper, NoFloat, Decode, MinLen;
    AtLeastMinLen(s, f.body, 0);
    DecodedInside(s, f.body);
  }

  lemma DecodedInside(s: Schema, b: seq<Octet>)
    requires Proper(s) && NoFloat(s)
    ensures Decode(s, b, 0).Decoded? ==> Decode(s, b, 0).at <= |b|
  {
    hide Decode, Proper, NoFloat;
    DecodeSound(s, b, 0);
    if Decode(s, b, 0).Decoded? {
      FaithfulBounds(s, b, 0, Decode(s, b, 0).v, Decode(s, b, 0).at);
    }
  }

  /** A TLV of a type that the library knows is kept with the structure it was written from, normalised. */
  lemma OwnTlvKept(tlvType: nat, linuxptp: bool, s: Schema, v: Value)
    requires tlvType != MANAGEMENT && SigSchema(tlvType, linuxptp) == Some(s) && NoFloat(s)
    requires Typed(s, v) && WellFormed(s, v)
    ensures DecodeFrame(Frame(tlvType, Emit(s, v)), linuxptp) == Kept(SigTlv(tlvType, Own(Normalize(s, v))))
  {
    SigSchemasProper(tlvType, linuxptp);
    hide SigSchema, Proper, NoFloat, Typed, WellFormed, Emit, Normalize, Decode;
    TolerantOfNothing(s);
    RoundTrip(s, v, [], []);
    assert [] + Emit(s, v) + [] == Emit(s, v);
  }

  lemma {:induction false} TolerantOfNothing(s: Schema)
    requires Proper(s)
    ensures Tolerates(s, 0)
  {
    match s
    case Both(_, b) => TolerantOfNothing(b);
    case Checked(rec) => TolerantOfNothing(rec);
    case _ =>
  }

  /** A MANAGEMENT TLV of a known ID is kept with its structure, whatever octets its padding has. */
  lemma ManagementTlvKept(id: MngId, linuxptp: bool, s: Schema, v: Value, pad: seq<Octet>)
    requires FindId(RowOf(id).value, linuxptp) == Some(id) && SchemaOf(id) == Some(s)
    requires Typed(s, v) && WellFormed(s, v) && Emit(s, v) + pad != [] && Tolerates(s, |pad|)
    ensures DecodeFrame(Frame(MANAGEMENT, BigEndian(2, RowOf(id).value) + Emit(s, v) + pad), linuxptp)
         == Kept(SigTlv(MANAGEMENT, Mng(id, Some(Normalize(s, v)))))
  {
    hide SchemaOf, RowOf, IdOfValue, FindId, Proper, NoFloat, Typed, WellFormed, Emit, Normalize, Decode, Tolerates,
      BigEndian, FromBigEndian, DecodeManagement, DecodeFrame;
    TableProper(id);
    var n, e := BigEndian(2, RowOf(id).value), Emit(s, v);
    assert n + (e + pad) == n + e + pad;
    OfManagement(n + e + pad, linuxptp);
    NumberRead(id);
    RoundTrip(s, v, n, pad);
    ManagementDecoded(id, linuxptp, s, n, e + pad);
  }

  lemma OfManagement(body: seq<Octet>, linuxptp: bool)
    ensures DecodeFrame(Frame(MANAGEMENT, body), linuxptp) == DecodeManagement(body, linuxptp)
  {
    hide DecodeManagement, SigSchema;
  }

  lemma NumberRead(id: MngId)
    ensures FromBigEndian(BigEndian(2, RowOf(id).value)) == RowOf(id).value
  {
    hide RowOf, IdOfValue;
    TableRows(id);
    Pow256Values();
    BigEndianRoundTrip(2, RowOf(id).value);
  }

  /** The body of a MANAGEMENT TLV is the number of its ID and its data. */
  lemma ManagementDecoded(id: MngId, linuxptp: bool, s: Schema, n: seq<Octet>, data: seq<Octet>)
    requires |n| == 2 && FindId(FromBigEndian(n), linuxptp) == Some(id) && SchemaOf(id) == Some(s) && Proper(s)
    requires data != []
    ensures DecodeManagement(n + data, linuxptp)
         == match Decode(s, n + data, 2)
            case Failed(e) => Refused(e)
            case Decoded(v, _) => Kept(SigTlv(MANAGEMENT, Mng(id, Some(v))))
  {
    hide SchemaOf, FindId, Proper, Decode, FromBigEndian, RowOf;
    assert (n + data)[..2] == n;
  }

  /** Other TLVs: an unknown type, a MANAGEMENT TLV without data or of an unknown ID are ignored, a MANAGEMENT TLV of
      less than 2 octets is refused. */
  lemma OtherTlvs(f: Frame, linuxptp: bool)
    ensures f.tlvType != MANAGEMENT ==> (DecodeFrame(f, linuxptp).Ignored? <==> SigSchema(f.tlvType, linuxptp).None?)
    ensures f.tlvType == MANAGEMENT && |f.body| < 2 ==> DecodeFrame(f, linuxptp) == Refused(TOO_SMALL)
    ensures f.tlvType == MANAGEMENT && |f.body| >= 2 ==>
              (DecodeFrame(f, linuxptp).Ignored?
               <==> |f.body| == 2 || FindId(FromBigEndian(f.body[..2]), linuxptp).None?)
  {
    hide SigSchema, FindId, SchemaOf, Decode;
  }

  // ---------------------------------------------------------------- the floating point TLV

  /** A metric is read when 16 octets are left and moves the cursor over 24. */
  lemma MetricSteps(b: seq<Octet>, at: nat)
    ensures Proper(METRIC)
    ensures if |b| - at >= 16 then Decode(METRIC, b, at).Decoded? && Decode(METRIC, b, at).at == at + 24
            else Decode(METRIC, b, at) == Failed(TOO_SMALL)
  {
  }

  /** Needs `need` octets and moves over `moved`. */
  predicate Takes(s: Schema, b: seq<Octet>, need: nat, moved: nat)
    requires Proper(s)
  {
    var r := Decode(s, b, 0);
    if |b| >= need then r.Decoded? && r.at == moved else r == Failed(TOO_SMALL)
  }

  lemma OneMetricMore(s: Schema, b: seq<Octet>, need: nat, moved: nat)
    requires Proper(s.Then(METRIC)) && Proper(s) && Takes(s, b, need, moved) && need <= moved + 16
    ensures Takes(s.Then(METRIC), b, moved + 16, moved + 24)
  {
    MetricSteps(b, moved);
  }

  lemma AccuracyMetricsProper()
    ensures Proper(ACCURACY_METRICS)
  {
  }

  /** Five metrics after four octets: 116 octets are needed, 124 are moved over.  The body of 84 octets that the
      standard prescribes is refused. */
  lemma AccuracyMetricsLengths(b: seq<Octet>)
    ensures Proper(ACCURACY_METRICS) && Takes(ACCURACY_METRICS, b, 116, 124)
  {
    hide Takes, Proper;
    AccuracyMetricsProper();
    HeadSteps(b);
    var s4 := ACCURACY_METRICS.first;
    var s3 := s4.first;
    var s2 := s3.first;
    var s1 := s2.first;
    ProperParts(ACCURACY_METRICS);
    ProperParts(s4);
    ProperParts(s3);
    ProperParts(s2);
    OneMetricMore(ACCURACY_HEAD, b, 4, 4);
    OneMetricMore(s1, b, 20, 28);
    OneMetricMore(s2, b, 44, 52);
    OneMetricMore(s3, b, 68, 76);
    OneMetricMore(s4, b, 92, 100);
  }

  lemma ProperParts(s: Schema)
    requires s.Both? && Proper(s)
    ensures Proper(s.first) && Proper(s.second)
  {
  }

  lemma HeadSteps(b: seq<Octet>)
    ensures Proper(ACCURACY_HEAD) && Takes(ACCURACY_HEAD, b, 4, 4)
  {
  }

  /** The cursor leaves a TLV exactly when the TLV is an ENHANCED_ACCURACY_METRICS of 116 to 123 octets, and then it
      stands 124 octets behind the TLV's beginning. */
  lemma OverranExactly(f: Frame, linuxptp: bool)
    ensures DecodeFrame(f, linuxptp).Overran?
            <==> f.tlvType == ENHANCED_ACCURACY_METRICS && 116 <= |f.body| < 124
    ensures DecodeFrame(f, linuxptp).Overran? ==> |f.body| + DecodeFrame(f, linuxptp).past == 124
  {
    hide IsFixed, FixedLen;
    if f.tlvType == ENHANCED_ACCURACY_METRICS {
      hide Decode;
      AccuracyMetricsLengths(f.body);
    } else if f.tlvType != MANAGEMENT && SigSchema(f.tlvType, linuxptp).Some? {
      var s := SigSchema(f.tlvType, linuxptp).value;
      SigSchemasProper(f.tlvType, linuxptp);
      SigSchemasNoFloat(f.tlvType, linuxptp);
      hide SigSchema, Decode, Proper, NoFloat;
      DecodeSound(s, f.body, 0);
      if Decode(s, f.body, 0).Decoded? {
        FaithfulBounds(s, f.body, 0, Decode(s, f.body, 0).v, Decode(s, f.body, 0).at);
      }
    }
  }

  /** Without such a TLV in the stream the cursor stays on the frames to the end. */
  lemma {:induction false} NeverDisturbed(p: Filter, st: Stream)
    requires forall f | f in st.frames && Passes(p, f) ::
               !(f.tlvType == ENHANCED_ACCURACY_METRICS && 116 <= |f.body| < 124)
    ensures Undisturbed(p, st)
    decreases |st.frames|
  {
    hide DecodeFrame;
    if st.frames != [] {
      OverranExactly(st.frames[0], p.linuxptp);
      NeverDisturbed(p, Stream(st.frames[1..], st.rest));
    }
  }

  /** An input where the loop does not do what the specification says: an ENHANCED_ACCURACY_METRICS TLV of 116 octets
      before an empty PATH_TRACE TLV.  The cursor skips 8 octets, the second TLV and 4 octets behind the message. */
  lemma DisturbedStream(linuxptp: bool, body: seq<Octet>)
    requires |body| == 116
    ensures var p, m := Filter(false, {}, linuxptp),
                        JoinFrames([Frame(ENHANCED_ACCURACY_METRICS, body), Frame(PATH_TRACE, [])]);
            SigSpec(p, m).status == SIG && SigRun(p, m, |m|, []).status == Overrun
  {
    var p := Filter(false, {}, linuxptp);
    var f, g := Frame(ENHANCED_ACCURACY_METRICS, body), Frame(PATH_TRACE, []);
    var m := JoinFrames([f, g]);
    assert Framed(f) && Framed(g) && !p.on;
    hide *;
    EmptyPathTrace(linuxptp);
    OverranExactly(f, linuxptp);
    DisturbedRun(p, f, g);
    ProcessTwo(p, f, g);
  }

  lemma DisturbedRun(p: Filter, f: Frame, g: Frame)
    requires !p.on && Framed(f) && g == Frame(PATH_TRACE, [])
    requires DecodeFrame(f, p.linuxptp).Overran? && DecodeFrame(f, p.linuxptp).past == 8
    ensures SigRun(p, JoinFrames([f, g]), |JoinFrames([f, g])|, []).status == Overrun
  {
    hide DecodeFrame, SigRun, JoinFrames, BigEndian, FromBigEndian, BodyLength;
    var m := JoinFrames([f, g]);
    JoinTwo(f, g);
    FrameRead(f, FrameOctets(g));
    RunStep(p, m, [], []);
    assert m + [] == m;
    assert Drop(FrameOctets(g) + [], 8) == [];
    RunNothing(p, [] + [DecodeFrame(f, p.linuxptp).tlv]);
  }

  lemma JoinTwo(f: Frame, g: Frame)
    ensures JoinFrames([f, g]) == FrameOctets(f) + FrameOctets(g)
  {
    hide FrameOctets;
    assert [f, g][1..] == [g] && [g][1..] == [];
    assert JoinFrames([g]) == FrameOctets(g) + JoinFrames([]);
  }

  lemma SplitEmpty()
    ensures Split([]) == Stream([], [])
  {
  }

  lemma RunNothing(p: Filter, done: seq<SigTlv>)
    ensures SigRun(p, [], 4, done) == SigResult(Overrun, done)
  {
  }

  lemma EmptyPathTrace(linuxptp: bool)
    ensures DecodeFrame(Frame(PATH_TRACE, []), linuxptp).Kept?
  {
  }

  lemma ProcessTwo(p: Filter, f: Frame, g: Frame)
    requires !p.on && Framed(f) && Framed(g)
    requires DecodeFrame(f, p.linuxptp).Overran? && DecodeFrame(g, p.linuxptp).Kept?
    ensures SigSpec(p, JoinFrames([f, g])).status == SIG
  {
    hide DecodeFrame, Split, JoinFrames;
    SplitJoined([f, g], []);
    SplitEmpty();
    assert [f, g] + [] == [f, g] && JoinFrames([f, g]) + [] == JoinFrames([f, g]);
    assert [f, g][1..] == [g] && [g][1..] == [];
    var tlv := DecodeFrame(f, p.linuxptp).tlv;
    assert Process(p, Stream([g], []), [] + [tlv]).status == SIG;
  }

  // ---------------------------------------------------------------- the time of the next jump

  /** A body of ALTERNATE_TIME_OFFSET_INDICATOR in its own layout, with a time of 6 octets. */
  function OffsetBody(head: seq<Octet>, time: nat, name: seq<Octet>): seq<Octet>
    requires |name| < 256
  {
    head + BigEndian(6, time) + [|name|] + name
  }

  /** The walker reads the time as 8 octets: it takes the length and the first octet of the name for the low octets of
      the time and the second octet of the name for its length.  So the TLV is kept exactly when the name has two
      octets and the second one counts no more than those behind it; otherwise the whole message is refused. */
  lemma OffsetIndicatorShifted(head: seq<Octet>, time: nat, name: seq<Octet>, linuxptp: bool)
    requires |head| == 9 && time < UINT48_LIMIT && |name| < 256
    ensures var r := DecodeFrame(Frame(ALTERNATE_TIME_OFFSET_INDICATOR, OffsetBody(head, time, name)), linuxptp);
            && (r.Kept? <==> |name| >= 2 && name[1] <= |name| - 2)
            && (!r.Kept? ==> r == Refused(TOO_SMALL))
            && (r.Kept? ==>
                  && r.tlv.data.Own? && r.tlv.data.v.Pair? && r.tlv.data.v.first.Pair?
                  && r.tlv.data.v.first.second == Int(time * 0x1_0000 + |name| * 0x100 + name[0])
                  && r.tlv.data.v.second == Blob(name[1], name[2..2 + name[1]]))
  {
    var b, s := OffsetBody(head, time, name), ALTERNATE_OFFSET;
    var h, st := s.first.first, s.first;
    SigSchemasProper(ALTERNATE_TIME_OFFSET_INDICATOR, linuxptp);
    OffsetHead(b);
    OffsetTime(head, time, name);
    if name != [] {
      OffsetName(head, time, name);
    }
    hide OffsetBody, BigEndian, IsFixed, FixedLen, Proper;
    assert Proper(h) && Proper(st) && Proper(UINT64) && Proper(TEXT) by { OffsetProper(); }
  }

  lemma OffsetProper()
    ensures Proper(ALTERNATE_OFFSET) && Proper(ALTERNATE_OFFSET.first) && Proper(ALTERNATE_OFFSET.first.first)
    ensures Proper(UINT64) && Proper(TEXT)
  {
  }

  lemma OffsetHead(b: seq<Octet>)
    requires |b| >= 9
    ensures Proper(ALTERNATE_OFFSET.first.first)
    ensures Decode(ALTERNATE_OFFSET.first.first, b, 0).Decoded? && Decode(ALTERNATE_OFFSET.first.first, b, 0).at == 9
  {
  }

  lemma OffsetTime(head: seq<Octet>, time: nat, name: seq<Octet>)
    requires |head| == 9 && time < UINT48_LIMIT && |name| < 256
    ensures Decode(UINT64, OffsetBody(head, time, name), 9)
         == if |name| == 0 then Failed(TOO_SMALL)
            else Decoded(Int(time * 0x1_0000 + |name| * 0x100 + name[0]), 17)
  {
    var b := OffsetBody(head, time, name);
    if |name| > 0 {
      var low := |name| * 0x100 + name[0];
      Pow256Values();
      BigEndianSplit(6, 2, time, low);
      assert BigEndian(2, low) == [|name|, name[0]];
      assert b[9..17] == BigEndian(6, time) + BigEndian(2, low);
      PutThenGet(Unsigned(8), time * 0x1_0000 + low);
    }
  }

  lemma OffsetName(head: seq<Octet>, time: nat, name: seq<Octet>)
    requires |head| == 9 && time < UINT48_LIMIT && 0 < |name| < 256
    ensures Decode(TEXT, OffsetBody(head, time, name), 17)
         == if |name| >= 2 && name[1] <= |name| - 2
            then Decoded(Blob(name[1], name[2..2 + name[1]]), 18 + name[1] as int)
            else Failed(TOO_SMALL)
  {
    var b := OffsetBody(head, time, name);
    assert b[16..] == name;
    if |name| >= 2 {
      assert b[17..18] == [name[1]];
      assert [name[1]][..0] == [];
      assert FromBigEndian([name[1]]) == name[1];
      if name[1] <= |name| - 2 {
        assert b[18..18 + name[1]] == name[2..2 + name[1]];
      }
    }
  }
}
