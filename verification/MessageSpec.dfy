/** The specification of the Message class: its state, the octets it sends and what it makes of received octets.
    Octet offsets follow sections 13.3, 15.4, 15.5.2 and 15.5.4 of IEEE Std 1588-2008. */
module MessageSpec {
  import opened Octets
  import opened Schema
  import opened Walkers
  import opened Decoding
  import opened Ids
  import opened Sizes
  import opened Signaling

  // ---------------------------------------------------------------- state

  datatype PortIdentity = PortIdentity(clock: seq<Octet>, port: nat)
  type PortId = p: PortIdentity | |p.clock| == 8 && p.port < 0x1_0000
    witness PortIdentity([0, 0, 0, 0, 0, 0, 0, 0], 0)

  const ALL_CLOCKS: PortId := PortIdentity([255, 255, 255, 255, 255, 255, 255, 255], 0xffff)

  /** MsgParams. */
  datatype Params = Params(
    transportSpecific: Octet, domainNumber: Octet, boundaryHops: Octet, isUnicast: bool, linuxptp: bool,
    target: PortId, selfId: PortId, useZeroGet: bool, rcvSignaling: bool, filterSignaling: bool,
    allowSigTlvs: set<nat>)

  /** What a Message object holds between two calls. */
  datatype State = State(
    // build
    sendAction: Action, msgLen: nat, dataSend: Option<Value>,
    // generic
    tlvId: MngId, prms: Params,
    // last parsed header
    msgType: nat, versionPTP: nat, minorVersionPTP: nat, sdoId: nat, domainNumber: nat, isUnicast: bool,
    sequence: nat, peer: PortId, target: PortId,
    // last parsed content
    replyAction: Action, mngType: nat, dataGet: Option<Value>, sigTlvs: seq<SigTlv>,
    errorId: nat, errorDisplay: seq<Octet>)

  /** A Message object just constructed. */
  ghost predicate Initial(st: State) {
    && st.sendAction == GET && st.msgLen == 0 && st.dataSend == None && st.sequence == 0
    && st.replyAction == RESPONSE && st.tlvId == NULL_PTP_MANAGEMENT && st.dataGet == None
    && st.prms.transportSpecific <= 15
  }

  const SIGNALING_TYPE := 0xc
  const MANAGEMENT_TYPE := 0xd
  const PREFIX_SIZE := 48       // managementMessage_p
  const BASE_SIZE := 54         // mngMsgBaseSize
  const SIGNALING_SIZE := 44    // sigBaseSize

  // ---------------------------------------------------------------- actions

  function ActionAllowed(id: MngId, a: Action, linuxptp: bool): bool {
    var allowed := RowOf(id).allowed;
    && (linuxptp || !allowed.linuxptp)
    && match a
       case GET => allowed.get
       case SET => allowed.set_
       case COMMAND => allowed.command
       case _ => false
  }

  function ReplyAllowed(id: MngId, a: Action): bool {
    match a
    case ACKNOWLEDGE => RowOf(id).allowed.command
    case RESPONSE => RowOf(id).allowed.set_ || RowOf(id).allowed.get
    case _ => false
  }

  function ReplyTo(a: Action): Action { if a == COMMAND then ACKNOWLEDGE else RESPONSE }

  datatype Update = Update(ok: bool, st: State)

  /** setAction without data. */
  function SetActionSpec(st: State, a: Action, id: MngId): Update {
    if !ActionAllowed(id, a, st.prms.linuxptp) || (a != GET && RowOf(id).size != 0) then Update(false, st)
    else Update(true, st.(sendAction := a, tlvId := id, dataSend := None))
  }

  /** setAction with data: GET and IDs without a dataField do not keep the data. */
  function SetActionDataSpec(st: State, a: Action, id: MngId, data: Value): Update {
    if !ActionAllowed(id, a, st.prms.linuxptp) then Update(false, st)
    else Update(true, st.(sendAction := a, tlvId := id,
                          dataSend := if a != GET && RowOf(id).size != 0 then Some(data) else None))
  }

  function UpdateParamsSpec(st: State, prms: Params): Update {
    if prms.transportSpecific > 15 then Update(false, st) else Update(true, st.(prms := prms))
  }

  function UseConfigSpec(st: State, transportSpecific: Octet, domainNumber: Octet): Update {
    if transportSpecific > 15 then Update(false, st)
    else Update(true, st.(prms := st.prms.(transportSpecific := transportSpecific, domainNumber := domainNumber)))
  }

  // ---------------------------------------------------------------- build

  /** getMsgPlanedLen. */
  function PlannedLen(st: State): int {
    if st.sendAction == GET && st.prms.useZeroGet then BASE_SIZE
    else if RowOf(st.tlvId).size == -2 && st.sendAction != GET && st.dataSend.None? then -2
    else BASE_SIZE + Even(ExpectedSize(st.tlvId, if st.sendAction == GET then None else st.dataSend))
  }

  function Zeros(n: nat): (z: seq<Octet>)
    ensures |z| == n
  {
    seq(n, _ => 0)
  }

  /** The 48 octets before the TLV. */
  function Header(p: Params, a: Action, sequence: nat, length: nat): (h: seq<Octet>)
    ensures |h| == PREFIX_SIZE
  {
    [MANAGEMENT_TYPE + 16 * (p.transportSpecific % 16), 0x02] + BigEndian(2, length)
    + [p.domainNumber, 0, if p.isUnicast then 4 else 0, 0] + Zeros(12)
    + p.selfId.clock + BigEndian(2, p.selfId.port) + BigEndian(2, sequence) + [4, 0x7f]
    + p.target.clock + BigEndian(2, p.target.port) + [p.boundaryHops, p.boundaryHops, ActionCode(a), 0]
  }

  /** A whole management message with the dataField `data`. */
  function MessageOctets(p: Params, a: Action, id: MngId, sequence: nat, data: seq<Octet>): (m: seq<Octet>)
    ensures |m| == BASE_SIZE + |data|
  {
    Header(p, a, sequence, BASE_SIZE + |data|)
    + BigEndian(2, MANAGEMENT) + BigEndian(2, 2 + |data|) + BigEndian(2, RowOf(id).value) + data
  }

  datatype Payload = Payload(octets: seq<Octet>) | NoPayload(err: Status)

  /** The dataField of the message to send, or why it does not get into `room` octets. */
  ghost function PayloadOf(st: State, room: nat): (r: Payload)
    requires TypedToSend(st)
    ensures r.NoPayload? ==> r.err != OK
  {
    if st.sendAction != GET && st.dataSend.Some? then
      var s := SchemaOf(st.tlvId);
      if s.None? then Payload([]) else
      var e := BuildError(s.value, st.dataSend.value, room);
      if e.Some? then NoPayload(e.value) else
      var x := Emit(s.value, st.dataSend.value);
      if |x| % 2 == 0 then Payload(x)
      else if room - |x| < 1 then NoPayload(TOO_SMALL) else Payload(x + [0])
    else if st.sendAction == GET && !st.prms.useZeroGet then
      var n := Even(ExpectedSize(st.tlvId, None));
      if n > room then NoPayload(TOO_SMALL) else Payload(Zeros(n))
    else Payload([])
  }

  /** The caller passed a structure of the ID that is to be sent.  Only a parse in between can change the ID. */
  ghost predicate TypedToSend(st: State) {
    st.dataSend.Some? && SchemaOf(st.tlvId).Some? ==> Typed(SchemaOf(st.tlvId).value, st.dataSend.value)
  }

  ghost function SentData(st: State): Option<Value>
    requires TypedToSend(st)
  {
    if st.sendAction != GET && st.dataSend.Some? && SchemaOf(st.tlvId).Some?
    then Some(Normalize(SchemaOf(st.tlvId).value, st.dataSend.value))
    else st.dataSend
  }

  /** The caller's structure after a build that failed with `room` octets for the dataField. */
  ghost function Tried(st: State, room: nat): Option<Value>
    requires TypedToSend(st)
  {
    if st.sendAction != GET && st.dataSend.Some? && SchemaOf(st.tlvId).Some?
    then Some(Attempt(SchemaOf(st.tlvId).value, st.dataSend.value, room))
    else st.dataSend
  }

  datatype BuildResult = BuildResult(status: Status, st: State, octets: seq<Octet>)

  /** build into a buffer of `bufSize` octets: the status, the object after it and, when OK, the message. */
  ghost function BuildSpec(st: State, bufSize: nat, sequence: nat): BuildResult
    requires TypedToSend(st)
  {
    if bufSize < BASE_SIZE then BuildResult(TOO_SMALL, st, [])
    else
      match PayloadOf(st, bufSize - BASE_SIZE)
      case NoPayload(e) => BuildResult(e, st.(dataSend := Tried(st, bufSize - BASE_SIZE)), [])
      case Payload(data) =>
        BuildResult(OK, st.(msgLen := BASE_SIZE + |data|, dataSend := SentData(st)),
                    MessageOctets(st.prms, st.sendAction, st.tlvId, sequence, data))
  }

  // ---------------------------------------------------------------- parse

  datatype ParseResult = ParseResult(status: Status, st: State)

  function HeaderError(p: Params, m: seq<Octet>): Option<Status>
    requires |m| >= SIGNALING_SIZE
  {
    var t := m[0] % 16;
    if t == SIGNALING_TYPE then
      if !p.rcvSignaling || m[32] != 5 then Some(HEADER) else None
    else if t == MANAGEMENT_TYPE then
      if |m| < PREFIX_SIZE + 4 then Some(TOO_SMALL) else if m[32] != 4 then Some(HEADER) else None
    else Some(HEADER)
  }

  function PortAt(m: seq<Octet>, at: nat): PortId
    requires at + 10 <= |m|
  {
    Pow256Values();
    FromBigEndianRoundTrip(m[at + 8..at + 10]);
    PortIdentity(m[at..at + 8], FromBigEndian(m[at + 8..at + 10]))
  }

  /** getMajorSdoId above the minorSdoId octet. */
  function SdoId(first: Octet, minor: Octet): nat { minor as int + first as int / 16 * 256 }

  /** The unicastFlag. */
  function IsUnicast(flags: Octet): bool { flags / 4 % 2 == 1 }

  /** The object after a good header. */
  function HeaderRead(st: State, m: seq<Octet>): State
    requires |m| >= SIGNALING_SIZE
  {
    st.(msgType := m[0] % 16, versionPTP := m[1] % 16, minorVersionPTP := m[1] / 16,
        sdoId := SdoId(m[0], m[5]), domainNumber := m[4], isUnicast := IsUnicast(m[6]),
        sequence := FromBigEndian(m[30..32]), peer := PortAt(m, 20), target := PortAt(m, 34))
  }

  function FilterOf(p: Params): Filter { Filter(p.filterSignaling, p.allowSigTlvs, p.linuxptp) }

  /** parse of the received octets `m`; `behind` are the octets of the buffer behind the message, which only a
      displaced cursor reads. */
  function ParseSpec(st: State, m: seq<Octet>, behind: seq<Octet>): ParseResult {
    if |m| < SIGNALING_SIZE then ParseResult(TOO_SMALL, st) else
    var e := HeaderError(st.prms, m);
    if e.Some? then ParseResult(e.value, st.(msgType := m[0] % 16)) else
    if m[1] % 16 != 2 || m[33] != 0x7f then
      ParseResult(HEADER, st.(msgType := m[0] % 16, versionPTP := m[1] % 16, minorVersionPTP := m[1] / 16))
    else
      var read := HeaderRead(st, m);
      if m[0] % 16 == SIGNALING_TYPE then
        var r := SigRun(FilterOf(st.prms), m[SIGNALING_SIZE..] + behind, |m| - SIGNALING_SIZE, []);
        ParseResult(r.status, read.(sigTlvs := r.tlvs))
      else ParseManagement(read, m)
  }

  function ParseManagement(st: State, m: seq<Octet>): ParseResult
    requires |m| >= PREFIX_SIZE + 4
  {
    var code := m[46] % 16;
    if code != ActionCode(RESPONSE) && code != ActionCode(ACKNOWLEDGE) then ParseResult(ACTION, st) else
    var replied := st.(replyAction := if code == ActionCode(RESPONSE) then RESPONSE else ACKNOWLEDGE);
    var tlvType, length := FromBigEndian(m[48..50]), FromBigEndian(m[50..52]);
    if tlvType == MANAGEMENT_ERROR_STATUS then ParseErrorStatus(replied, m, length)
    else if tlvType != MANAGEMENT then ParseResult(INVALID_TLV, replied)
    else ParseTlv(replied, m, length)
  }

  /** The MANAGEMENT TLV of lengthField `length`. */
  function ParseTlv(st: State, m: seq<Octet>, length: nat): ParseResult
    requires |m| >= PREFIX_SIZE + 4
  {
    if |m| < BASE_SIZE then ParseResult(TOO_SMALL, st) else
    var id := FindId(FromBigEndian(m[52..54]), st.prms.linuxptp);
    if id.None? then ParseResult(INVALID_ID, st) else
    var found := st.(tlvId := id.value);
    if !ReplyAllowed(id.value, st.replyAction) then ParseResult(ACTION, found)
    else if length < 2 || length % 2 == 1 then ParseResult(TOO_SMALL, found)
    else if length == 2 then ParseResult(OK, found)
    else if |m| < 52 + length then ParseResult(TOO_SMALL, found)
    else ParseData(found, m[..52 + length])
  }

  /** The dataField from octet 54 to the end of `m`; an ID without a walker leaves no data. */
  function ParseData(st: State, m: seq<Octet>): ParseResult {
    TableProper(st.tlvId);
    var s := SchemaOf(st.tlvId);
    if s.None? then ParseResult(OK, st.(dataGet := None, mngType := MANAGEMENT)) else
    match Decode(s.value, m, BASE_SIZE)
    case Failed(e) => ParseResult(e, st)
    case Decoded(v, _) => ParseResult(OK, st.(dataGet := Some(v), mngType := MANAGEMENT))
  }

  /** The MANAGEMENT_ERROR_STATUS TLV of lengthField `length`. */
  function ParseErrorStatus(st: State, m: seq<Octet>, length: nat): ParseResult
    requires |m| >= PREFIX_SIZE + 4
  {
    if |m| < 60 then ParseResult(TOO_SMALL, st) else
    var id := FindId(FromBigEndian(m[54..56]), st.prms.linuxptp);
    if id.None? then ParseResult(INVALID_ID, st) else
    var found := st.(tlvId := id.value);
    if !ReplyAllowed(id.value, st.replyAction) then ParseResult(ACTION, found) else
    ParseDisplay(found.(errorId := FromBigEndian(m[52..54])), m, length)
  }

  /** The displayData of an error status. */
  function ParseDisplay(st: State, m: seq<Octet>, length: nat): ParseResult {
    if length < 8 || length % 2 == 1 || |m| < 52 + length then ParseResult(TOO_SMALL, st)
    else if length == 8 then ParseResult(MSG, st.(mngType := MANAGEMENT_ERROR_STATUS))
    else
      match Decode(TEXT, m[..52 + length], 60)
      case Failed(_) => ParseResult(TOO_SMALL, st)
      case Decoded(v, _) =>
        ParseResult(MSG, st.(errorDisplay := v.s, mngType := MANAGEMENT_ERROR_STATUS))
  }
}
