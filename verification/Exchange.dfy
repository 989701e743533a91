/** Theorems about whole messages: what a build sends, what a parse makes of the reply, and what holds after every
    run of the object. */
module Exchange {
  import opened Octets
  import opened Schema
  import opened Walkers
  import opened Decoding
  import opened Ids
  import opened Sizes
  import opened Signaling
  import opened MessageSpec

  // ---------------------------------------------------------------- ready to send

  /** What a successful setAction leaves. */
  ghost predicate Sendable(st: State) {
    && ActionAllowed(st.tlvId, st.sendAction, st.prms.linuxptp)
    && (st.dataSend.Some? <==> st.sendAction != GET && RowOf(st.tlvId).size != 0)
    && TypedToSend(st)
  }

  lemma SetActionMakesSendable(st: State, a: Action, id: MngId, data: Value)
    ensures SetActionSpec(st, a, id).ok ==> Sendable(SetActionSpec(st, a, id).st)
    ensures SetActionDataSpec(st, a, id, data).ok && (SchemaOf(id).Some? ==> Typed(SchemaOf(id).value, data))
            ==> Sendable(SetActionDataSpec(st, a, id, data).st)
  {
    hide RowOf, SchemaOf, Typed;
  }

  /** Values in range: no 48-bit field above its limit. */
  ghost predicate DataInRange(st: State)
    requires TypedToSend(st)
  {
    st.dataSend.Some? && SchemaOf(st.tlvId).Some? ==> InRange(SchemaOf(st.tlvId).value, st.dataSend.value)
  }

  ghost predicate DataWellFormed(st: State)
    requires TypedToSend(st)
  {
    st.dataSend.Some? && SchemaOf(st.tlvId).Some? ==> WellFormed(SchemaOf(st.tlvId).value, st.dataSend.value)
  }

  lemma DescriptionIsReadOnly(id: MngId, a: Action, linuxptp: bool)
    requires id.CLOCK_DESCRIPTION? && ActionAllowed(id, a, linuxptp)
    ensures a == GET
  {
  }

  /** A structure and its padding have the planned length. */
  lemma WalkedPayload(st: State, room: nat)
    requires Sendable(st) && st.sendAction != GET && st.dataSend.Some? && DataInRange(st)
    ensures PlannedLen(st) >= BASE_SIZE && PlannedLen(st) % 2 == 0
    ensures var r := PayloadOf(st, room);
            if room >= PlannedLen(st) - BASE_SIZE then r.Payload? && |r.octets| == PlannedLen(st) - BASE_SIZE
            else r.NoPayload? && r.err == TOO_SMALL
  {
    hide RowOf, SchemaOf, Emit, BuildError, InRange, Typed, ExpectedSize;
    TableProper(st.tlvId);
    var s, v := SchemaOf(st.tlvId).value, st.dataSend.value;
    if st.tlvId.CLOCK_DESCRIPTION? {
      DescriptionIsReadOnly(st.tlvId, st.sendAction, st.prms.linuxptp);
      assert false;
    }
    SizeAgreement(st.tlvId, s, v);
    BuildThreshold(s, v, room);
  }

  /** After a successful setAction with values in range, build succeeds exactly when the buffer has the planned
      length, otherwise it reports TOO_SMALL; the message has the planned length, which is even. */
  lemma BuildExactly(st: State, bufSize: nat, seqno: nat)
    requires Sendable(st) && DataInRange(st)
    ensures PlannedLen(st) >= BASE_SIZE && PlannedLen(st) % 2 == 0
    ensures var r := BuildSpec(st, bufSize, seqno);
            if bufSize >= PlannedLen(st) then
              r.status == OK && |r.octets| == PlannedLen(st) && r.st.msgLen == PlannedLen(st)
            else
              r.status == TOO_SMALL && r.st.msgLen == st.msgLen
  {
    hide RowOf, SchemaOf, Emit, BuildError, InRange, Typed, ExpectedSize, SentData, MessageOctets;
    if st.sendAction != GET && st.dataSend.Some? {
      hide PayloadOf, PlannedLen;
      if bufSize >= BASE_SIZE {
        WalkedPayload(st, bufSize - BASE_SIZE);
      } else {
        WalkedPayload(st, 0);
      }
    } else {
      assert st.sendAction == GET || RowOf(st.tlvId).size == 0;
      assert RowOf(st.tlvId).size == 0 ==> ExpectedSize(st.tlvId, st.dataSend) == 0;
    }
  }

  /** The length fields of a message that fits them: messageLength is the whole, lengthField 52 octets less. */
  lemma LengthFields(p: Params, a: Action, id: MngId, seqno: nat, data: seq<Octet>)
    requires BASE_SIZE + |data| < 0x1_0000
    ensures var m := MessageOctets(p, a, id, seqno, data);
            FromBigEndian(m[2..4]) == |m| && FromBigEndian(m[50..52]) == |m| - 52
  {
    Pow256Values();
    BigEndianRoundTrip(2, BASE_SIZE + |data|);
    BigEndianRoundTrip(2, 2 + |data|);
    TlvLayout(p, a, id, seqno, data);
    HeaderLayout(p, a, seqno, BASE_SIZE + |data|);
    var m, h := MessageOctets(p, a, id, seqno, data), Header(p, a, seqno, BASE_SIZE + |data|);
    hide *;
    assert m[2..4] == m[..48][2..4] == h[2..4];
  }

  lemma TlvLayout(p: Params, a: Action, id: MngId, seqno: nat, data: seq<Octet>)
    ensures var m := MessageOctets(p, a, id, seqno, data);
            && m[..48] == Header(p, a, seqno, BASE_SIZE + |data|)
            && m[48..50] == BigEndian(2, MANAGEMENT) && m[50..52] == BigEndian(2, 2 + |data|)
            && m[52..54] == BigEndian(2, RowOf(id).value) && m[54..] == data
  {
    hide Header, BigEndian, RowOf;
    FiveParts(Header(p, a, seqno, BASE_SIZE + |data|), BigEndian(2, MANAGEMENT), BigEndian(2, 2 + |data|),
              BigEndian(2, RowOf(id).value), data);
  }

  lemma FiveParts(h: seq<Octet>, t: seq<Octet>, l: seq<Octet>, i: seq<Octet>, d: seq<Octet>)
    requires |h| == 48 && |t| == |l| == |i| == 2
    ensures var m := h + t + l + i + d;
            m[..48] == h && m[48..50] == t && m[50..52] == l && m[52..54] == i && m[54..] == d
  {
    Part(h, t, l + i + d);
    Part(h + t, l, i + d);
    Part(h + t + l, i, d);
    var m := h + t + l + i + d;
    assert m == h + t + (l + i + d);
    assert m == h + t + l + (i + d);
  }

  lemma Part(x: seq<Octet>, y: seq<Octet>, z: seq<Octet>)
    ensures (x + y + z)[..|x|] == x && (x + y + z)[|x|..|x| + |y|] == y && (x + y + z)[|x| + |y|..] == z
  {
  }

  lemma HeaderLayout(p: Params, a: Action, seqno: nat, length: nat)
    ensures var h := Header(p, a, seqno, length);
            && h[0] == MANAGEMENT_TYPE + 16 * (p.transportSpecific % 16) && h[1] == 2
            && h[2..4] == BigEndian(2, length) && h[4] == p.domainNumber && h[5] == 0
            && h[6] == (if p.isUnicast then 4 else 0)
            && h[20..28] == p.selfId.clock && h[28..30] == BigEndian(2, p.selfId.port)
            && h[30..32] == BigEndian(2, seqno) && h[32] == 4 && h[33] == 0x7f
            && h[34..42] == p.target.clock && h[42..44] == BigEndian(2, p.target.port)
            && h[7] == 0 && h[8..20] == Zeros(12)
            && h[44] == h[45] == p.boundaryHops && h[46] == ActionCode(a) && h[47] == 0
  {
    hide BigEndian, Zeros;
  }

  // ---------------------------------------------------------------- the reply to a message

  /** The message with only its action octet changed to the matching reply, and any octets behind it. */
  function Reply(m: seq<Octet>, a: Action, extra: seq<Octet>): seq<Octet>
    requires |m| >= BASE_SIZE
  {
    m[46 := ActionCode(ReplyTo(a))] + extra
  }

  lemma ReplyKeeps(m: seq<Octet>, a: Action, extra: seq<Octet>)
    requires |m| >= BASE_SIZE
    ensures var e := Reply(m, a, extra);
            && |e| == |m| + |extra| && e[..46] == m[..46] && e[46] == ActionCode(ReplyTo(a))
            && e[48..|m|] == m[48..]
  {
  }

  /** The object after the header of a message sent with the parameters `p`. */
  function HeaderEchoed(rst: State, p: Params, seqno: nat): State {
    rst.(msgType := MANAGEMENT_TYPE, versionPTP := 2, minorVersionPTP := 0,
         sdoId := p.transportSpecific as int % 16 * 256, domainNumber := p.domainNumber, isUnicast := p.isUnicast,
         sequence := seqno, peer := p.selfId, target := p.target)
  }

  lemma HeaderOfReply(p: Params, a: Action, seqno: nat, length: nat, rst: State, e: seq<Octet>)
    requires seqno < 0x1_0000 && |e| >= BASE_SIZE && e[..46] == Header(p, a, seqno, length)[..46]
    ensures HeaderError(rst.prms, e).None? && e[0] % 16 == MANAGEMENT_TYPE && e[1] % 16 == 2 && e[33] == 0x7f
    ensures HeaderRead(rst, e) == HeaderEchoed(rst, p, seqno)
  {
    HeaderLayout(p, a, seqno, length);
    var h := Header(p, a, seqno, length);
    hide Header, BigEndian, FromBigEndian;
    SamePart(e, h, 20, 28);
    SamePart(e, h, 28, 30);
    SamePart(e, h, 30, 32);
    SamePart(e, h, 34, 42);
    SamePart(e, h, 42, 44);
    FieldsOfHeader(e, h);
    Number16(p.selfId.port);
    Number16(p.target.port);
    Number16(seqno);
  }

  lemma SamePart(e: seq<Octet>, h: seq<Octet>, i: nat, j: nat)
    requires |e| >= 46 && |h| >= 46 && e[..46] == h[..46] && i <= j <= 46
    ensures e[i..j] == h[i..j]
  {
    assert forall k | 0 <= k < 46 :: e[..46][k] == e[k] && h[..46][k] == h[k];
  }

  lemma FieldsOfHeader(e: seq<Octet>, h: seq<Octet>)
    requires |e| >= 46 && |h| >= 46 && e[..46] == h[..46]
    ensures e[0] == h[0] && e[1] == h[1] && e[4] == h[4] && e[5] == h[5] && e[6] == h[6]
    ensures e[32] == h[32] && e[33] == h[33]
  {
    assert forall k | 0 <= k < 46 :: e[..46][k] == h[..46][k];
  }

  lemma Number16(n: nat)
    requires n < 0x1_0000
    ensures FromBigEndian(BigEndian(2, n)) == n
  {
    Pow256Values();
    BigEndianRoundTrip(2, n);
  }

  lemma ActionFound(id: MngId, a: Action, linuxptp: bool)
    requires ActionAllowed(id, a, linuxptp)
    ensures FindId(RowOf(id).value, linuxptp) == Some(id) && ReplyAllowed(id, ReplyTo(a))
  {
    TableRows(id);
    hide IdOfValue, RowOf;
  }

  /** A reply gets as far as the dataField. */
  lemma ReplyReachesData(
    p: Params, a: Action, id: MngId, seqno: nat, data: seq<Octet>, extra: seq<Octet>, rst: State, behind: seq<Octet>)
    requires seqno < 0x1_0000 && |data| + 2 < 0x1_0000 && |data| % 2 == 0
    requires ActionAllowed(id, a, rst.prms.linuxptp)
    ensures
      var e := Reply(MessageOctets(p, a, id, seqno, data), a, extra);
      var read := HeaderEchoed(rst, p, seqno).(replyAction := ReplyTo(a), tlvId := id);
      ParseSpec(rst, e, behind) == if data == [] then ParseResult(OK, read) else ParseData(read, e[..54] + data)
  {
    var m := MessageOctets(p, a, id, seqno, data);
    var e := Reply(m, a, extra);
    hide MessageOctets, Reply, Header, BigEndian, FromBigEndian, HeaderError, HeaderRead, ParseData, RowOf, IdOfValue,
      FindId, ReplyAllowed, ActionAllowed, HeaderEchoed, VariableList, ParseSpec, ParseTlv;
    TlvLayout(p, a, id, seqno, data);
    ReplyKeeps(m, a, extra);
    assert e[..46] == m[..48][..46];
    HeaderOfReply(p, a, seqno, BASE_SIZE + |data|, rst, e);
    TlvOfReply(m, e, data);
    Number16(MANAGEMENT);
    Number16(2 + |data|);
    ReplyFields(rst, p, seqno);
    GoodHeader(rst, e, a, behind);
    TableRows(id);
    Number16(RowOf(id).value);
    ActionFound(id, a, rst.prms.linuxptp);
    GoodTlv(HeaderEchoed(rst, p, seqno).(replyAction := ReplyTo(a)), e, id, data);
  }

  /** A good header of a management message with a reply action leads to the MANAGEMENT TLV. */
  lemma GoodHeader(rst: State, e: seq<Octet>, a: Action, behind: seq<Octet>)
    requires |e| >= BASE_SIZE && HeaderError(rst.prms, e).None? && e[0] % 16 == MANAGEMENT_TYPE && e[1] % 16 == 2
    requires e[33] == 0x7f && e[46] == ActionCode(ReplyTo(a)) && FromBigEndian(e[48..50]) == MANAGEMENT
    ensures ParseSpec(rst, e, behind)
         == ParseTlv(HeaderRead(rst, e).(replyAction := ReplyTo(a)), e, FromBigEndian(e[50..52]))
  {
    hide FromBigEndian, HeaderError, HeaderRead, ParseTlv;
  }

  /** A MANAGEMENT TLV of a known ID and an allowed reply leads to its dataField. */
  lemma GoodTlv(st: State, e: seq<Octet>, id: MngId, data: seq<Octet>)
    requires |e| >= BASE_SIZE + |data| && |data| % 2 == 0
    requires FindId(FromBigEndian(e[52..54]), st.prms.linuxptp) == Some(id) && ReplyAllowed(id, st.replyAction)
    requires e[..54 + |data|] == e[..54] + data
    ensures ParseTlv(st, e, 2 + |data|)
         == if data == [] then ParseResult(OK, st.(tlvId := id)) else ParseData(st.(tlvId := id), e[..54] + data)
  {
    hide FindId, ReplyAllowed, FromBigEndian, ParseData;
  }

  lemma ReplyFields(rst: State, p: Params, seqno: nat)
    ensures HeaderEchoed(rst, p, seqno).prms == rst.prms
  {
  }

  lemma TlvOfReply(m: seq<Octet>, e: seq<Octet>, data: seq<Octet>)
    requires BASE_SIZE + |data| == |m| <= |e| && e[48..|m|] == m[48..] && m[54..] == data
    ensures e[48..50] == m[48..50] && e[50..52] == m[50..52] && e[52..54] == m[52..54]
    ensures e[..54 + |data|] == e[..54] + data
  {
    var x, y := e[48..|m|], m[48..];
    assert e[48..50] == x[..2] && m[48..50] == y[..2];
    assert e[50..52] == x[2..4] && m[50..52] == y[2..4];
    assert e[52..54] == x[4..6] && m[52..54] == y[4..6];
    assert e[54..|m|] == x[6..] && m[54..] == y[6..];
  }

  lemma PaddedData(s: Schema, v: Value, pre: seq<Octet>, data: seq<Octet>)
    requires Proper(s) && NoFloat(s) && Typed(s, v) && WellFormed(s, v) && Tolerates(s, 1) && Tolerates(s, 0)
    requires data == Emit(s, v) || data == Emit(s, v) + [0]
    ensures var r := Decode(s, pre + data, |pre|); r.Decoded? && r.v == Normalize(s, v)
  {
    hide *;
    if data == Emit(s, v) {
      RoundTrip(s, v, pre, []);
      assert pre + data + [] == pre + data;
    } else {
      RoundTrip(s, v, pre, [0]);
      assert pre + Emit(s, v) + [0] == pre + data;
    }
  }

  /** The structure is not mistaken when a padding octet follows. */
  predicate Patient(s: Option<Schema>) { s.Some? ==> Tolerates(s.value, 1) && Tolerates(s.value, 0) }

  lemma VariablePatient(id: MngId)
    ensures Patient(VariableList(id))
  {
    ListsPatient();
    hide Patient, Tolerates, IsFixed, FixedLen, CLOCK_DESCRIPTION_LIST, GRANDMASTER_CLUSTER_TABLE_LIST,
      UNICAST_MASTER_TABLE_LIST, ALTERNATE_TIME_OFFSET_NAME_LIST, PORT_PROPERTIES_NP_LIST;
  }

  lemma ListsPatient()
    ensures Patient(None) && Patient(Some(TEXT)) && Patient(Some(Many(8, CLOCK_IDENTITY)))
    ensures Patient(Some(CLOCK_DESCRIPTION_LIST)) && Patient(Some(GRANDMASTER_CLUSTER_TABLE_LIST))
    ensures Patient(Some(UNICAST_MASTER_TABLE_LIST)) && Patient(Some(ALTERNATE_TIME_OFFSET_NAME_LIST))
    ensures Patient(Some(PORT_PROPERTIES_NP_LIST)) && Patient(Some(Table(Signed(2), true, ACCEPTABLE_MASTER)))
    ensures Patient(Some(Table(Unsigned(2), false, Checked(FAULT_RECORD))))
  {
    hide IsFixed, FixedLen;
  }

  lemma ToleratesPadding(id: MngId, s: Schema)
    requires SchemaOf(id) == Some(s)
    ensures Tolerates(s, 1) && Tolerates(s, 0)
  {
    hide SingleField, FixedList, VariableList, Tolerates, RowOf, Proper, NoFloat;
    TableProper(id);
    TableKinds(id);
    VariablePatient(id);
    if RowOf(id).size > 0 {
      FixedIsProper(s);
      ClosedTolerates(s, 1);
      ClosedTolerates(s, 0);
    }
  }

  /** An empty structure is sent as zeros. */
  predicate ZeroFill(s: Schema) {
    match s
    case Checked(_) => false
    case Both(a, b) => ZeroFill(a) && ZeroFill(b)
    case Repeat(_, rec) => ZeroFill(rec)
    case _ => true
  }

  /** All octets are 0. */
  predicate AllZero(x: seq<Octet>) { forall i | 0 <= i < |x| :: x[i] == 0 }

  lemma {:induction false} ZeroBigEndian(w: nat)
    ensures AllZero(BigEndian(w, 0)) && AllZero(LittleEndian(w, 0))
  {
    if w > 0 {
      ZeroBigEndian(w - 1);
    }
  }

  lemma {:induction false} EmptyIsZeros(s: Schema)
    requires ZeroFill(s)
    ensures Typed(s, EmptyValue(s)) && AllZero(Emit(s, EmptyValue(s)))
    ensures WellFormed(s, EmptyValue(s)) && Normalize(s, EmptyValue(s)) == EmptyValue(s)
    decreases s, 0
  {
    EmptyIsTyped(s);
    match s
    case Number(c) => ZeroBigEndian(c.w);
    case Unsigned48 => ZeroBigEndian(6);
    case Float64 => ZeroBigEndian(8);
    case Flags(mask) => assert And(0, mask) == 0;
    case Sized(w) =>
      WrapSmall(Unsigned(w), 0);
      ZeroBigEndian(w);
    case Table(c, _, _) =>
      WrapSmall(c, 0);
      ZeroBigEndian(c.w);
    case Both(a, b) =>
      EmptyIsZeros(a);
      EmptyIsZeros(b);
    case Repeat(n, rec) =>
      EmptyIsZeros(rec);
      EmptyRecordsAreZeros(rec, seq(n, _ => EmptyValue(rec)));
    case _ =>
  }

  lemma {:induction false} EmptyRecordsAreZeros(rec: Schema, items: seq<Value>)
    requires forall i | 0 <= i < |items| :: items[i] == EmptyValue(rec)
    requires Typed(rec, EmptyValue(rec)) && AllZero(Emit(rec, EmptyValue(rec)))
    requires WellFormed(rec, EmptyValue(rec)) && Normalize(rec, EmptyValue(rec)) == EmptyValue(rec)
    ensures AllTyped(rec, items) && AllZero(EmitAll(rec, items))
    ensures AllWellFormed(rec, items) && NormalizeAll(rec, items) == items
    decreases rec, |items|
  {
    hide Emit, Normalize, Typed, WellFormed, EmptyValue;
    if items != [] {
      EmptyRecordsAreZeros(rec, items[1..]);
    }
  }

  lemma TableZeroFill(id: MngId, s: Schema)
    requires SchemaOf(id) == Some(s)
    ensures ZeroFill(s)
  {
    hide RowOf, SingleField, FixedList, VariableList, ZeroFill, IsFixed, Proper, NoFloat;
    TableProper(id);
    TableKinds(id);
    if RowOf(id).size > 0 {
      FixedZeroFill(s);
    } else {
      VariableZeroFill(id);
    }
  }

  lemma VariableZeroFill(id: MngId)
    ensures VariableList(id).Some? ==> ZeroFill(VariableList(id).value)
  {
    hide IsFixed, FixedLen;
  }

  lemma {:induction false} FixedZeroFill(s: Schema)
    requires IsFixed(s)
    ensures ZeroFill(s)
  {
    match s
    case Both(a, b) =>
      FixedZeroFill(a);
      FixedZeroFill(b);
    case Repeat(_, rec) => FixedZeroFill(rec);
    case _ =>
  }

  lemma EmptyDescriptionSize()
    ensures CalculatedSize(CLOCK_DESCRIPTION, EmptyValue(VariableList(CLOCK_DESCRIPTION).value)) == 21
  {
    hide EmptyValue, IsFixed, FixedLen;
    var s := VariableList(CLOCK_DESCRIPTION).value;
    EmptyPair(s);
    EmptyPair(s.first);
    EmptyPair(s.first.first);
    EmptyPair(s.first.first.first);
    var t := s.first.first.first.first;
    EmptyPair(t);
    EmptyPair(t.first);
    EmptyPair(t.first.first);
    EmptyPair(t.first.first.first);
    EmptyPair(t.first.first.first.first);
    EmptyPair(PORT_ADDRESS);
    EmptyBlobs();
  }

  lemma EmptyPair(s: Schema)
    requires s.Both?
    ensures EmptyValue(s) == Pair(EmptyValue(s.first), EmptyValue(s.second))
  {
  }

  lemma EmptyBlobs()
    ensures EmptyValue(TEXT) == EmptyValue(Sized(2)) == Blob(0, [])
  {
  }

  /** What GET sends is an empty structure of the ID, padded. */
  lemma GetSendsEmpty(id: MngId, s: Schema)
    requires SchemaOf(id) == Some(s)
    ensures Typed(s, EmptyValue(s))
    ensures var z, x := Zeros(Even(ExpectedSize(id, None))), Emit(s, EmptyValue(s)); z == x || z == x + [0]
  {
    hide RowOf, SingleField, FixedList, VariableList, ZeroFill, Typed, Emit, EmptyValue, Normalize, WellFormed,
      CalculatedSize, Even, AllZero;
    var v := EmptyValue(s);
    TableZeroFill(id, s);
    EmptyIsZeros(s);
    SizeAgreement(id, s, v);
    TableKinds(id);
    assert ExpectedSize(id, None) == ExpectedSize(id, Some(v)) by {
      if RowOf(id).size == -2 { VariableOnly(id); }
    }
    var x, n := Emit(s, v), Even(ExpectedSize(id, None));
    if id.CLOCK_DESCRIPTION? {
      EvenDescription(s);
    }
    assert n == Even(|x|);
    ZerosOf(x, n);
  }

  lemma EvenDescription(s: Schema)
    requires SchemaOf(CLOCK_DESCRIPTION) == Some(s) && Typed(s, EmptyValue(s))
    ensures |Emit(s, EmptyValue(s))| % 2 == 0
  {
    DescriptionIsVariable();
    VariableOnly(CLOCK_DESCRIPTION);
    hide Emit, CalculatedSize, Typed, EmptyValue;
    CalculatedSizes(CLOCK_DESCRIPTION, s, EmptyValue(s));
    EmptyDescriptionSize();
  }

  lemma ZerosOf(x: seq<Octet>, n: nat)
    requires AllZero(x) && n == Even(|x|)
    ensures Zeros(n) == x || Zeros(n) == x + [0]
  {
  }

  /** What the receiver of a reply holds. */
  ghost function Echoed(rst: State, st: State, sent: State, seqno: nat): State {
    var read := HeaderEchoed(rst, st.prms, seqno).(replyAction := ReplyTo(st.sendAction), tlvId := st.tlvId);
    if PlannedLen(st) == BASE_SIZE || SchemaOf(st.tlvId).None? then read
    else read.(mngType := MANAGEMENT,
               dataGet := if st.sendAction == GET then Some(EmptyValue(SchemaOf(st.tlvId).value)) else sent.dataSend)
  }

  /** The dataField of a buildable message decodes to the structure that build left, or to an empty one for GET. */
  lemma PayloadDecodes(st: State, room: nat, s: Schema, pre: seq<Octet>)
    requires Sendable(st) && DataWellFormed(st) && SchemaOf(st.tlvId) == Some(s)
    requires PayloadOf(st, room).Payload? && PayloadOf(st, room).octets != []
    ensures Proper(s)
    ensures var r := Decode(s, pre + PayloadOf(st, room).octets, |pre|);
            r.Decoded? && Some(r.v) == if st.sendAction == GET then Some(EmptyValue(s)) else SentData(st)
  {
    hide RowOf, SchemaOf, Emit, BuildError, Typed, ExpectedSize, WellFormed, Normalize, Decode, Proper, NoFloat,
      Tolerates, EmptyValue, ZeroFill;
    TableProper(st.tlvId);
    ToleratesPadding(st.tlvId, s);
    if st.sendAction == GET {
      GetSendsEmpty(st.tlvId, s);
      TableZeroFill(st.tlvId, s);
      EmptyIsZeros(s);
      PaddedData(s, EmptyValue(s), pre, PayloadOf(st, room).octets);
    } else {
      PaddedData(s, st.dataSend.value, pre, PayloadOf(st, room).octets);
    }
  }

  /** The echo of every message: build succeeds in a buffer of the planned length, and when only its action octet is
      changed to the matching reply, any receiver that knows the ID parses it with OK and holds the same sequence,
      domain, sdoId, port identities and ID, and the structure as build left it.  This is for well-formed data and
      a lengthField of 16 bits. */
  lemma EchoRoundTrip(st: State, bufSize: nat, seqno: nat, extra: seq<Octet>, rst: State, behind: seq<Octet>)
    requires Sendable(st) && DataWellFormed(st) && seqno < 0x1_0000
    requires PlannedLen(st) <= bufSize && PlannedLen(st) - 52 < 0x1_0000
    requires ActionAllowed(st.tlvId, st.sendAction, rst.prms.linuxptp)
    ensures var r := BuildSpec(st, bufSize, seqno);
            && r.status == OK && |r.octets| >= BASE_SIZE
            && ParseSpec(rst, Reply(r.octets, st.sendAction, extra), behind)
               == ParseResult(OK, Echoed(rst, st, r.st, seqno))
  {
    hide RowOf, SchemaOf, Emit, BuildError, Typed, ExpectedSize, WellFormed, InRange, Normalize, Decode, Proper,
      NoFloat, EmptyValue, MessageOctets, ActionAllowed, PlannedLen, ParseSpec, HeaderEchoed, Reply, PayloadOf;
    InRangeToSend(st);
    BuildExactly(st, bufSize, seqno);
    var data := PayloadOf(st, bufSize - BASE_SIZE).octets;
    ReplyReachesData(st.prms, st.sendAction, st.tlvId, seqno, data, extra, rst, behind);
    var e := Reply(MessageOctets(st.prms, st.sendAction, st.tlvId, seqno, data), st.sendAction, extra);
    ReplyKeeps(MessageOctets(st.prms, st.sendAction, st.tlvId, seqno, data), st.sendAction, extra);
    TableProper(st.tlvId);
    if SchemaOf(st.tlvId).None? {
      NothingPlanned(st);
    } else if data != [] {
      PayloadDecodes(st, bufSize - BASE_SIZE, SchemaOf(st.tlvId).value, e[..54]);
    }
  }

  lemma NothingPlanned(st: State)
    requires Sendable(st) && RowOf(st.tlvId).size == 0
    ensures PlannedLen(st) == BASE_SIZE
  {
    hide RowOf, SchemaOf, Typed;
  }

  lemma InRangeToSend(st: State)
    requires TypedToSend(st) && DataWellFormed(st)
    ensures DataInRange(st)
  {
    hide SchemaOf, Typed, WellFormed, InRange;
    if st.dataSend.Some? && SchemaOf(st.tlvId).Some? {
      WellFormedInRange(SchemaOf(st.tlvId).value, st.dataSend.value);
    }
  }

  // ---------------------------------------------------------------- building again

  /** Structures that normalise alike are sent alike. */
  lemma SameToSend(st: State, u: Option<Value>, room: nat)
    requires TypedToSend(st)
    requires st.dataSend.Some? == u.Some? && TypedToSend(st.(dataSend := u))
    requires st.sendAction == GET || SchemaOf(st.tlvId).None? ==> u == st.dataSend
    requires SchemaOf(st.tlvId).Some? && u.Some? ==>
               var s := SchemaOf(st.tlvId).value;
               && Normalize(s, u.value) == Normalize(s, st.dataSend.value)
               && Emit(s, u.value) == Emit(s, st.dataSend.value)
               && BuildError(s, u.value, room) == BuildError(s, st.dataSend.value, room)
    ensures PayloadOf(st.(dataSend := u), room) == PayloadOf(st, room)
    ensures SentData(st.(dataSend := u)) == SentData(st)
  {
    hide SchemaOf, Emit, Normalize, BuildError, Typed, ExpectedSize;
  }

  /** What any build, whether it fails or not, does to the structure. */
  lemma StructureAfter(st: State, bufSize: nat, seqno: nat, room: nat)
    requires TypedToSend(st)
    ensures var u := BuildSpec(st, bufSize, seqno).st.dataSend;
            && u.Some? == st.dataSend.Some? && TypedToSend(st.(dataSend := u))
            && (st.sendAction == GET || SchemaOf(st.tlvId).None? ==> u == st.dataSend)
            && (SchemaOf(st.tlvId).Some? && u.Some? ==>
                  var s := SchemaOf(st.tlvId).value;
                  && Normalize(s, u.value) == Normalize(s, st.dataSend.value)
                  && Emit(s, u.value) == Emit(s, st.dataSend.value)
                  && BuildError(s, u.value, room) == BuildError(s, st.dataSend.value, room))
  {
    hide SchemaOf, Emit, Normalize, BuildError, Attempt, Typed, ExpectedSize, PayloadOf, MessageOctets;
    if st.sendAction != GET && st.dataSend.Some? && SchemaOf(st.tlvId).Some? {
      var s, v := SchemaOf(st.tlvId).value, st.dataSend.value;
      NormalizeStable(s, v);
      NormalizeKeepsError(s, v, room);
      if bufSize >= BASE_SIZE {
        AttemptSendsSame(s, v, bufSize - BASE_SIZE, room);
      }
    }
  }

  /** After any build, failed or not, a build ends with the same status and octets as it would have before it: a
      failed build can be repeated in a larger buffer. */
  lemma BuildRetry(st: State, first: nat, seqno: nat, bufSize: nat, seqno': nat)
    requires TypedToSend(st)
    ensures var tried := BuildSpec(st, first, seqno).st;
            && TypedToSend(tried)
            && var r, r' := BuildSpec(st, bufSize, seqno'), BuildSpec(tried, bufSize, seqno');
               && r'.status == r.status && r'.octets == r.octets
               && (r.status == OK ==> r'.st == r.st)
  {
    hide SchemaOf, Emit, Normalize, BuildError, Attempt, Typed, ExpectedSize, PayloadOf, SentData, Tried, MessageOctets,
      TypedToSend;
    var tried := BuildSpec(st, first, seqno).st;
    var room := if bufSize >= BASE_SIZE then bufSize - BASE_SIZE else 0;
    StructureAfter(st, first, seqno, room);
    SameToSend(st, tried.dataSend, room);
    OtherLength(st.(dataSend := tried.dataSend), tried.msgLen, room);
  }

  /** A build, failed or not, leaves an object that is as ready to send, with the same planned length. */
  lemma BuildKeepsPlan(st: State, bufSize: nat, seqno: nat)
    requires Sendable(st)
    ensures var tried := BuildSpec(st, bufSize, seqno).st; Sendable(tried) && PlannedLen(tried) == PlannedLen(st)
  {
    hide RowOf, SchemaOf, Emit, Normalize, BuildError, Typed, ExpectedSize, PayloadOf, SentData, Tried, MessageOctets,
      ActionAllowed;
    StructureAfter(st, bufSize, seqno, 0);
    if st.dataSend.Some? {
      var id, u := st.tlvId, BuildSpec(st, bufSize, seqno).st.dataSend.value;
      TableProper(id);
      assert !id.CLOCK_DESCRIPTION? by {
        if id.CLOCK_DESCRIPTION? {
          DescriptionIsReadOnly(id, st.sendAction, st.prms.linuxptp);
        }
      }
      SizeAgreement(id, SchemaOf(id).value, st.dataSend.value);
      SizeAgreement(id, SchemaOf(id).value, u);
    }
  }

  /** The length of the last message plays no part in a build. */
  lemma OtherLength(st: State, n: nat, room: nat)
    requires TypedToSend(st)
    ensures TypedToSend(st.(msgLen := n))
    ensures PayloadOf(st.(msgLen := n), room) == PayloadOf(st, room) && SentData(st.(msgLen := n)) == SentData(st)
  {
    hide SchemaOf, Emit, Normalize, BuildError, Typed, ExpectedSize;
  }

  /** Build normalises the caller's structure once: a second build leaves it alone and writes the same octets. */
  lemma BuildIdempotent(st: State, bufSize: nat, seqno: nat)
    requires TypedToSend(st) && BuildSpec(st, bufSize, seqno).status == OK
    ensures var r := BuildSpec(st, bufSize, seqno);
            TypedToSend(r.st) && BuildSpec(r.st, bufSize, seqno) == r
  {
    hide BuildSpec;
    BuildRetry(st, bufSize, seqno, bufSize, seqno);
  }

  // ---------------------------------------------------------------- octets behind the message

  /** A management message tells by its lengthField how many of its octets count.  When it has those, and the octets
      before the displayData of an error status, no octet behind them changes the status or a parsed field: none
      rescues a structure that does not fit its own dataField. */
  lemma ParseLocality(st: State, m: seq<Octet>, extra: seq<Octet>, behind: seq<Octet>, behind': seq<Octet>)
    requires |m| >= BASE_SIZE && m[0] % 16 == MANAGEMENT_TYPE && |m| >= 52 + FromBigEndian(m[50..52])
    requires FromBigEndian(m[48..50]) == MANAGEMENT_ERROR_STATUS ==> |m| >= 60
    ensures ParseSpec(st, m + extra, behind') == ParseSpec(st, m, behind)
  {
    hide FindId, ReplyAllowed, FromBigEndian, ParseData, ParseDisplay, HeaderError, HeaderRead;
    HeaderLocal(st, m, extra);
    LeadingPart(m, extra, 48, 50);
    LeadingPart(m, extra, 50, 52);
    LeadingPart(m, extra, 52, 54);
    LeadingPart(m, extra, 0, 52 + FromBigEndian(m[50..52]));
    if |m| >= 60 {
      LeadingPart(m, extra, 54, 56);
      DisplayLocal(m, extra, FromBigEndian(m[50..52]));
    }
  }

  lemma DisplayLocal(m: seq<Octet>, extra: seq<Octet>, length: nat)
    requires |m| >= 52 + length
    ensures forall st :: ParseDisplay(st, m + extra, length) == ParseDisplay(st, m, length)
  {
    hide Decode;
    LeadingPart(m, extra, 0, 52 + length);
  }

  /** Without looking at the framing: OK and an error status need 52 octets and the lengthField, and only TOO_SMALL
      can be changed by octets behind a message. */
  lemma AcceptedIsFramed(st: State, m: seq<Octet>, extra: seq<Octet>, behind: seq<Octet>, behind': seq<Octet>)
    requires |m| >= 1 && m[0] % 16 == MANAGEMENT_TYPE && ParseSpec(st, m, behind).status != TOO_SMALL
    ensures ParseSpec(st, m + extra, behind') == ParseSpec(st, m, behind)
    ensures ParseSpec(st, m, behind).status in {OK, MSG} ==> |m| >= 52 + FromBigEndian(m[50..52])
  {
    hide RowOf, SchemaOf, Decode, FindId, ReplyAllowed, FromBigEndian, PortAt, ParseData, ParseTlv, ParseErrorStatus;
    assert |m| >= 52;
    var e := m + extra;
    LeadingPart(m, extra, 20, 28);
    LeadingPart(m, extra, 28, 30);
    LeadingPart(m, extra, 30, 32);
    LeadingPart(m, extra, 34, 42);
    LeadingPart(m, extra, 42, 44);
    LeadingPart(m, extra, 48, 50);
    LeadingPart(m, extra, 50, 52);
    HeaderLocal(st, m, extra);
    if m[46] % 16 == 2 || m[46] % 16 == 4 {
      var replied := HeaderRead(st, m).(replyAction := if m[46] % 16 == 2 then RESPONSE else ACKNOWLEDGE);
      TlvLocal(replied, m, extra, FromBigEndian(m[50..52]));
      ErrorStatusLocal(replied, m, extra, FromBigEndian(m[50..52]));
    }
  }

  /** A signaling message whose cursor is not displaced does not depend on what stands behind it either. */
  lemma SignalingLocality(st: State, m: seq<Octet>, behind: seq<Octet>, behind': seq<Octet>)
    requires |m| >= SIGNALING_SIZE && m[0] % 16 == SIGNALING_TYPE
    requires Undisturbed(FilterOf(st.prms), Split(m[SIGNALING_SIZE..]))
    ensures ParseSpec(st, m, behind) == ParseSpec(st, m, behind')
    ensures ParseSpec(st, m, behind).status != HEADER ==>
              SigResult(ParseSpec(st, m, behind).status, ParseSpec(st, m, behind).st.sigTlvs)
              == SigSpec(FilterOf(st.prms), m[SIGNALING_SIZE..])
  {
    hide SigRun, Split, Process, Undisturbed, HeaderRead;
    var p := FilterOf(st.prms);
    RunRefinesSpec(p, m[SIGNALING_SIZE..], behind, []);
    RunRefinesSpec(p, m[SIGNALING_SIZE..], behind', []);
  }

  lemma LeadingPart(m: seq<Octet>, extra: seq<Octet>, i: nat, j: nat)
    requires i <= j <= |m|
    ensures (m + extra)[i..j] == m[i..j]
  {
  }

  lemma HeaderLocal(st: State, m: seq<Octet>, extra: seq<Octet>)
    requires |m| >= PREFIX_SIZE + 4
    ensures HeaderError(st.prms, m + extra) == HeaderError(st.prms, m)
    ensures HeaderRead(st, m + extra) == HeaderRead(st, m)
  {
    hide FromBigEndian;
    LeadingPart(m, extra, 20, 28);
    LeadingPart(m, extra, 28, 30);
    LeadingPart(m, extra, 30, 32);
    LeadingPart(m, extra, 34, 42);
    LeadingPart(m, extra, 42, 44);
  }

  lemma TlvLocal(st: State, m: seq<Octet>, extra: seq<Octet>, length: nat)
    requires |m| >= PREFIX_SIZE + 4
    ensures ParseTlv(st, m, length).status != TOO_SMALL ==>
              && ParseTlv(st, m + extra, length) == ParseTlv(st, m, length)
              && (ParseTlv(st, m, length).status in {OK, MSG} ==> |m| >= 52 + length)
  {
    hide FindId, ReplyAllowed, FromBigEndian, ParseData;
    if |m| >= BASE_SIZE {
      LeadingPart(m, extra, 52, 54);
      if 52 + length <= |m| {
        LeadingPart(m, extra, 0, 52 + length);
      }
    }
  }

  lemma ErrorStatusLocal(st: State, m: seq<Octet>, extra: seq<Octet>, length: nat)
    requires |m| >= PREFIX_SIZE + 4
    ensures ParseErrorStatus(st, m, length).status != TOO_SMALL ==>
              && ParseErrorStatus(st, m + extra, length) == ParseErrorStatus(st, m, length)
              && (ParseErrorStatus(st, m, length).status in {OK, MSG} ==> |m| >= 52 + length)
  {
    hide FindId, ReplyAllowed, FromBigEndian, Decode;
    if |m| >= 60 {
      LeadingPart(m, extra, 52, 54);
      LeadingPart(m, extra, 54, 56);
      if 52 + length <= |m| {
        LeadingPart(m, extra, 0, 52 + length);
      }
    }
  }

  // ---------------------------------------------------------------- every run

  datatype Call =
    | DoSetAction(a: Action, id: MngId)
    | DoSetActionData(a: Action, id: MngId, data: Value)
    | DoUpdateParams(prms: Params)
    | DoUseConfig(transportSpecific: Octet, domainNumber: Octet)
    | DoSetAllClocks
    | DoWriteData(data: Value)          // the caller changes the structure it has passed
    | DoBuild(bufSize: nat, seqno: nat)
    | DoParse(m: seq<Octet>, behind: seq<Octet>)  // the message and what stands behind it in the buffer

  /** The object after a call.  Build is called only with a structure of the ID to send, as the library asks. */
  ghost function Step(st: State, c: Call): State
    requires c.DoBuild? ==> TypedToSend(st)
  {
    match c
    case DoSetAction(a, id) => SetActionSpec(st, a, id).st
    case DoSetActionData(a, id, data) => SetActionDataSpec(st, a, id, data).st
    case DoUpdateParams(prms) => UpdateParamsSpec(st, prms).st
    case DoUseConfig(ts, domain) => UseConfigSpec(st, ts, domain).st
    case DoSetAllClocks => st.(prms := st.prms.(target := ALL_CLOCKS))
    case DoWriteData(data) => if st.dataSend.None? then st else st.(dataSend := Some(data))
    case DoBuild(bufSize, seqno) => BuildSpec(st, bufSize, seqno).st
    case DoParse(m, behind) => ParseSpec(st, m, behind).st
  }

  ghost predicate Invariant(st: State) {
    && st.prms.transportSpecific <= 15
    && (st.replyAction == RESPONSE || st.replyAction == ACKNOWLEDGE)
    && (st.msgLen == 0 || (st.msgLen >= BASE_SIZE && st.msgLen % 2 == 0))
    && (st.dataSend.Some? ==> st.sendAction == SET || st.sendAction == COMMAND)
  }

  /** Every constructor establishes the invariant. */
  lemma InitialInvariant(st: State)
    requires Initial(st)
    ensures Invariant(st)
  {
  }

  lemma ParseKeeps(st: State, m: seq<Octet>, behind: seq<Octet>)
    ensures var r := ParseSpec(st, m, behind).st;
            && r.sendAction == st.sendAction && r.msgLen == st.msgLen && r.dataSend == st.dataSend && r.prms == st.prms
            && (r.replyAction == st.replyAction || r.replyAction == RESPONSE || r.replyAction == ACKNOWLEDGE)
    ensures ParseSpec(st, m, behind).st.dataGet == st.dataGet
            || (ParseSpec(st, m, behind).status == OK && |m| >= BASE_SIZE && FromBigEndian(m[50..52]) > 2)
  {
    hide RowOf, SchemaOf, Decode, FindId, ReplyAllowed, FromBigEndian, PortAt, SigRun;
  }

  lemma StepKeeps(st: State, c: Call)
    requires Invariant(st) && (c.DoBuild? ==> TypedToSend(st))
    ensures Invariant(Step(st, c))
  {
    hide RowOf, SchemaOf, ParseSpec, Emit, Normalize, BuildError, ExpectedSize, MessageOctets;
    if c.DoParse? {
      ParseKeeps(st, c.m, c.behind);
    }
  }

  ghost predicate Runs(st: State, calls: seq<Call>)
    decreases |calls|
  {
    calls == [] || ((calls[0].DoBuild? ==> TypedToSend(st)) && Runs(Step(st, calls[0]), calls[1..]))
  }

  ghost function After(st: State, calls: seq<Call>): State
    requires Runs(st, calls)
    decreases |calls|
  {
    if calls == [] then st else After(Step(st, calls[0]), calls[1..])
  }

  /** After every run of a Message object: four bits of transportSpecific, a reply action, an even message length
      that a message can have, and data only for SET and COMMAND. */
  lemma {:induction false} EveryRun(st: State, calls: seq<Call>)
    requires Invariant(st) && Runs(st, calls)
    ensures Invariant(After(st, calls))
    decreases |calls|
  {
    hide Step, Invariant;
    if calls != [] {
      StepKeeps(st, calls[0]);
      EveryRun(Step(st, calls[0]), calls[1..]);
    }
  }

  /** Some call of the run is a parse that ends in OK, with a dataField in its message. */
  ghost predicate SomeReplaces(st: State, calls: seq<Call>)
    requires Runs(st, calls)
    decreases |calls|
  {
    calls != [] && (Replaces(st, calls[0]) || SomeReplaces(Step(st, calls[0]), calls[1..]))
  }

  ghost predicate Replaces(st: State, c: Call) {
    c.DoParse? && ParseSpec(st, c.m, c.behind).status == OK && |c.m| >= BASE_SIZE && FromBigEndian(c.m[50..52]) > 2
  }

  /** Received data are replaced only by a parse that ends in OK with a dataField, in every run. */
  lemma {:induction false} DataGetChanges(st: State, calls: seq<Call>)
    requires Runs(st, calls)
    ensures After(st, calls).dataGet == st.dataGet || SomeReplaces(st, calls)
    decreases |calls|
  {
    hide Replaces, Step;
    if calls != [] {
      StepKeepsDataGet(st, calls[0]);
      DataGetChanges(Step(st, calls[0]), calls[1..]);
    }
  }

  lemma StepKeepsDataGet(st: State, c: Call)
    requires c.DoBuild? ==> TypedToSend(st)
    ensures Step(st, c).dataGet == st.dataGet || Replaces(st, c)
  {
    hide RowOf, SchemaOf, ParseSpec, Emit, Normalize, BuildError, ExpectedSize, MessageOctets, FromBigEndian;
    if c.DoParse? {
      ParseKeeps(st, c.m, c.behind);
    }
  }
}
