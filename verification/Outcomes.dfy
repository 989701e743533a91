/** What a caller can tell beforehand: which actions are accepted, how long a message will be, what its octets are, and
    how a parse ends, stated over the caller's arguments and the octets of the message alone. */
module Outcomes {
  import opened Octets
  import opened Schema
  import opened Walkers
  import opened Decoding
  import opened Ids
  import opened Sizes
  import opened Signaling
  import opened MessageSpec
  import opened Exchange
  import opened Layouts
  import opened Placing

  // ---------------------------------------------------------------- what can be done with an ID

  /** The IDs that can be set. */
  predicate Settable(id: MngId) {
    id.NULL_PTP_MANAGEMENT? || id.USER_DESCRIPTION? || id.PRIORITY1? || id.PRIORITY2? || id.DOMAIN?
     || id.SLAVE_ONLY? || id.LOG_ANNOUNCE_INTERVAL? || id.ANNOUNCE_RECEIPT_TIMEOUT? || id.LOG_SYNC_INTERVAL?
     || id.VERSION_NUMBER? || id.TIME? || id.CLOCK_ACCURACY? || id.UTC_PROPERTIES? || id.TRACEABILITY_PROPERTIES?
     || id.TIMESCALE_PROPERTIES? || id.UNICAST_NEGOTIATION_ENABLE? || id.PATH_TRACE_ENABLE?
     || id.GRANDMASTER_CLUSTER_TABLE? || id.UNICAST_MASTER_TABLE? || id.ACCEPTABLE_MASTER_TABLE?
     || id.ACCEPTABLE_MASTER_TABLE_ENABLED? || id.ALTERNATE_MASTER? || id.ALTERNATE_TIME_OFFSET_ENABLE?
     || id.ALTERNATE_TIME_OFFSET_NAME? || id.ALTERNATE_TIME_OFFSET_PROPERTIES? || id.LOG_MIN_PDELAY_REQ_INTERVAL?
     || id.PRIMARY_DOMAIN? || id.DELAY_MECHANISM? || id.EXTERNAL_PORT_CONFIGURATION_ENABLED? || id.MASTER_ONLY?
     || id.HOLDOVER_UPGRADE_ENABLE? || id.EXT_PORT_CONFIG_PORT_DATA_SET? || id.GRANDMASTER_SETTINGS_NP?
     || id.PORT_DATA_SET_NP? || id.SUBSCRIBE_EVENTS_NP? || id.SYNCHRONIZATION_UNCERTAIN_NP?
  }

  /** The IDs that can be commanded. */
  predicate Commandable(id: MngId) {
    id.NULL_PTP_MANAGEMENT? || id.SAVE_IN_NON_VOLATILE_STORAGE? || id.RESET_NON_VOLATILE_STORAGE? || id.INITIALIZE?
     || id.FAULT_LOG_RESET? || id.ENABLE_PORT? || id.DISABLE_PORT?
  }

  /** The IDs that can be read: all but those that can only be commanded. */
  predicate Readable(id: MngId) {
    id.NULL_PTP_MANAGEMENT? || !Commandable(id)
  }

  /** The IDs of linuxptp. */
  predicate OfLinuxptp(id: MngId) { 0xc000 <= RowOf(id).value <= 0xc006 }

  /** The IDs without a dataField. */
  predicate WithoutData(id: MngId) {
    id.NULL_PTP_MANAGEMENT? || id.SAVE_IN_NON_VOLATILE_STORAGE? || id.RESET_NON_VOLATILE_STORAGE?
     || id.FAULT_LOG_RESET? || id.ENABLE_PORT? || id.DISABLE_PORT?
  }

  /** The rights in the table. */
  lemma Rights(id: MngId)
    ensures RowOf(id).allowed == Allowed(Readable(id), Settable(id), Commandable(id), OfLinuxptp(id))
    ensures RowOf(id).size == 0 <==> WithoutData(id)
  {
    Gets(id);
    Sets(id);
    Commands(id);
    OnlyLinuxptp(id);
    NoSize(id);
    hide RowOf, Readable, Settable, Commandable, OfLinuxptp, WithoutData;
  }

  lemma Gets(id: MngId)
    ensures RowOf(id).allowed.get == Readable(id)
  {
  }

  lemma Sets(id: MngId)
    ensures RowOf(id).allowed.set_ == Settable(id)
  {
    assert GSC.set_ && GS.set_ && GSL.set_ && !G.set_ && !C.set_ && !GL.set_;
    hide GSC, GS, GSL, G, C, GL;
  }

  lemma Commands(id: MngId)
    ensures RowOf(id).allowed.command == Commandable(id)
  {
  }

  lemma OnlyLinuxptp(id: MngId)
    ensures RowOf(id).allowed.linuxptp == OfLinuxptp(id)
  {
    OwnAreLinuxptp(id);
    LastValue(id);
    hide RowOf;
  }

  lemma OwnAreLinuxptp(id: MngId)
    ensures RowOf(id).allowed.linuxptp <==> RowOf(id).value >= 0xc000
  {
  }

  lemma LastValue(id: MngId)
    ensures RowOf(id).value <= 0xc006
  {
  }

  lemma NoSize(id: MngId)
    ensures RowOf(id).size == 0 <==> WithoutData(id)
  {
  }

  predicate Accepted(a: Action, id: MngId, linuxptp: bool) {
    && (linuxptp || !OfLinuxptp(id))
    && (a == GET || a == SET || a == COMMAND)
    && (a == GET ==> Readable(id)) && (a == SET ==> Settable(id)) && (a == COMMAND ==> Commandable(id))
  }

  /** setAction without data succeeds exactly when the ID allows the action and the action needs no data. */
  lemma SetActionExactly(st: State, a: Action, id: MngId)
    ensures var r := SetActionSpec(st, a, id);
            && (r.ok <==> Accepted(a, id, st.prms.linuxptp) && (a == GET || WithoutData(id)))
            && r.st == if r.ok then st.(sendAction := a, tlvId := id, dataSend := None) else st
  {
    Rights(id);
    hide RowOf, Readable, Settable, Commandable, OfLinuxptp, WithoutData;
  }

  /** setAction with data succeeds exactly when the ID allows the action, and keeps the data that will be sent. */
  lemma SetActionDataExactly(st: State, a: Action, id: MngId, data: Value)
    ensures var r := SetActionDataSpec(st, a, id, data);
            && (r.ok <==> Accepted(a, id, st.prms.linuxptp))
            && r.st == if r.ok then
                         st.(sendAction := a, tlvId := id,
                             dataSend := if a != GET && !WithoutData(id) then Some(data) else None)
                       else st
  {
    Rights(id);
    hide RowOf, Readable, Settable, Commandable, OfLinuxptp, WithoutData;
  }

  /** An ID is found by its number, those of linuxptp only when they are in use. */
  lemma IdFound(value: nat, linuxptp: bool, id: MngId)
    ensures FindId(value, linuxptp) == Some(id) <==> RowOf(id).value == value && (linuxptp || !OfLinuxptp(id))
  {
    TableRows(id);
    Rights(id);
    ValueOfFound(value);
    hide RowOf, IdOfValue, Readable, Settable, Commandable, OfLinuxptp, WithoutData, VariableList;
  }

  lemma ValueOfFound(value: nat)
    ensures IdOfValue(value).Some? ==> RowOf(IdOfValue(value).value).value == value
  {
    GeneralFound(value);
    PropertiesFound(value);
    OtherFound(value);
    hide RowOf, IdOfAll, IdOfClock, IdOfProperties, IdOfOther;
  }

  lemma GeneralFound(value: nat)
    ensures IdOfAll(value).Some? ==> RowOf(IdOfAll(value).value).value == value
    ensures IdOfClock(value).Some? ==> RowOf(IdOfClock(value).value).value == value
  {
  }

  lemma PropertiesFound(value: nat)
    ensures IdOfProperties(value).Some? ==> RowOf(IdOfProperties(value).value).value == value
  {
  }

  lemma OtherFound(value: nat)
    ensures IdOfOther(value).Some? ==> RowOf(IdOfOther(value).value).value == value
  {
    hide IdOfOther, RowOf;
    if value < 0xc000 {
      OtherClocksFound(value);
    } else {
      LinuxptpFound(value);
    }
  }

  lemma OtherClocksFound(value: nat)
    requires value < 0xc000
    ensures IdOfOther(value).Some? ==> RowOf(IdOfOther(value).value).value == value
  {
  }

  lemma LinuxptpFound(value: nat)
    requires value >= 0xc000
    ensures IdOfOther(value).Some? ==> RowOf(IdOfOther(value).value).value == value
  {
  }

  /** A reply is accepted for an ID that can be read or set, an acknowledgement for one that can be commanded. */
  predicate ReplyFits(id: MngId, code: nat) {
    (code == 2 && (Readable(id) || Settable(id))) || (code == 4 && Commandable(id))
  }

  lemma ReplyFitsExactly(id: MngId, code: nat)
    requires code == 2 || code == 4
    ensures ReplyAllowed(id, if code == 2 then RESPONSE else ACKNOWLEDGE) <==> ReplyFits(id, code)
  {
    Rights(id);
    hide RowOf, Readable, Settable, Commandable, OfLinuxptp, WithoutData;
  }

  /** New parameters are taken exactly when transportSpecific has four bits, and as they are. */
  lemma ParamsExactly(st: State, p: Params, transportSpecific: Octet, domainNumber: Octet)
    ensures UpdateParamsSpec(st, p) ==
            if p.transportSpecific < 16 then Update(true, st.(prms := p)) else Update(false, st)
    ensures var r := UseConfigSpec(st, transportSpecific, domainNumber);
            && (r.ok <==> transportSpecific < 16)
            && (!r.ok ==> r.st == st)
            && (r.ok ==> r.st.prms.transportSpecific == transportSpecific && r.st.prms.domainNumber == domainNumber
                         && r.st == st.(prms := r.st.prms)
                         && r.st.prms.(transportSpecific := st.prms.transportSpecific,
                                       domainNumber := st.prms.domainNumber) == st.prms)
  {
  }

  // ---------------------------------------------------------------- the header of a received message

  /** A header that parse accepts (sections 13.3 and 15.4.1 of IEEE Std 1588-2008). */
  predicate GoodHeader(p: Params, m: seq<Octet>) {
    && |m| >= 44
    && (m[0] % 16 == 0xc ==> p.rcvSignaling && m[32] == 5)
    && (m[0] % 16 == 0xd ==> |m| >= 52 && m[32] == 4)
    && (m[0] % 16 == 0xc || m[0] % 16 == 0xd)
    && m[1] % 16 == 2 && m[33] == 0x7f
  }

  /** Parse ends in HEADER exactly for the messages that are long enough and do not have a good header. */
  lemma HeaderRefused(st: State, m: seq<Octet>, behind: seq<Octet>)
    ensures ParseSpec(st, m, behind).status == HEADER
            <==> |m| >= 44 && (m[0] % 16 == 0xd ==> |m| >= 52) && !GoodHeader(st.prms, m)
    ensures ParseSpec(st, m, behind).status == HEADER ==> ParseSpec(st, m, behind).st.sequence == st.sequence
  {
    hide SigRun, ParseManagement, HeaderRead;
    if |m| >= 44 && HeaderError(st.prms, m).None? && m[1] % 16 == 2 && m[33] == 0x7f {
      RunStatus(FilterOf(st.prms), m[44..] + behind, |m| - 44, []);
      if m[0] % 16 == 0xd {
        ManagementStatus(HeaderRead(st, m), m);
      }
    }
  }

  lemma {:induction false} RunStatus(p: Filter, b: seq<Octet>, left: nat, done: seq<SigTlv>)
    ensures SigRun(p, b, left, done).status in {SIG, TOO_SMALL, SIZE_MISS, Overrun}
    decreases left
  {
    hide DecodeFrame, Drop;
    if left >= 4 && |b| >= 4 && BodyLength(b) <= left - 4 && BodyLength(b) <= |b| - 4 {
      var n := BodyLength(b);
      var f, next, left' := Frame(FromBigEndian(b[..2]), b[4..4 + n]), b[4 + n..], left - 4 - n;
      var r := DecodeFrame(f, p.linuxptp);
      if !Passes(p, f) || r.Ignored? {
        RunStatus(p, next, left', done);
      } else if r.Kept? {
        RunStatus(p, next, left', done + [r.tlv]);
      } else if r.Overran? {
        RunStatus(p, Drop(next, r.past), left', done + [r.tlv]);
      }
    }
  }

  lemma ManagementStatus(st: State, m: seq<Octet>)
    requires |m| >= 52
    ensures ParseManagement(st, m).status
            in {OK, MSG, ACTION, INVALID_TLV, INVALID_ID, TOO_SMALL, SIZE_MISS}
  {
    hide FindId, ReplyAllowed, SchemaOf, Decode, FromBigEndian, Proper;
  }

  /** What a good header says is what the object holds afterwards. */
  lemma HeaderKept(st: State, m: seq<Octet>, behind: seq<Octet>)
    requires GoodHeader(st.prms, m)
    ensures var r := ParseSpec(st, m, behind).st;
            && r.msgType == m[0] % 16 && r.versionPTP == 2 && r.minorVersionPTP == m[1] / 16
            && r.sdoId == m[5] as int + 256 * (m[0] as int / 16) && r.domainNumber == m[4]
            && (r.isUnicast <==> Bit(m[6], 2) == 1)
            && BigEndian(2, r.sequence) == m[30..32] && r.sequence < 0x1_0000
            && r.peer.clock == m[20..28] && BigEndian(2, r.peer.port) == m[28..30]
            && r.target.clock == m[34..42] && BigEndian(2, r.target.port) == m[42..44]
  {
    hide SigRun, ParseManagement, FromBigEndian, BigEndian, Pow256;
    HeaderFields(st, m);
    if m[0] % 16 == 0xd {
      ManagementKeepsHeader(HeaderRead(st, m), m);
    }
  }

  /** A signaling message: the loop runs over the octets behind the header with the object's own parameters, the TLVs
      of the object are its result and no others, and with the filter on they are of the types the caller allows. */
  lemma SignalingOutcome(st: State, m: seq<Octet>, behind: seq<Octet>)
    requires GoodHeader(st.prms, m) && m[0] % 16 == 0xc
    ensures var r, p := ParseSpec(st, m, behind), st.prms;
            var run := SigRun(Filter(p.filterSignaling, p.allowSigTlvs, p.linuxptp), m[44..] + behind, |m| - 44, []);
            && r.status == run.status && r.st.sigTlvs == run.tlvs
            && (p.filterSignaling ==> forall t | t in r.st.sigTlvs :: t.tlvType in p.allowSigTlvs)
            && r.st.dataGet == st.dataGet && r.st.tlvId == st.tlvId && r.st.replyAction == st.replyAction
  {
    hide SigRun, FromBigEndian;
    var p := st.prms;
    var f := Filter(p.filterSignaling, p.allowSigTlvs, p.linuxptp);
    if f.on {
      OnlyAllowedKept(f, m[44..] + behind, |m| - 44, []);
    }
  }

  lemma HeaderFields(st: State, m: seq<Octet>)
    requires |m| >= 44
    ensures var r := HeaderRead(st, m);
            && r.msgType == m[0] % 16 && r.versionPTP == m[1] % 16 && r.minorVersionPTP == m[1] / 16
            && r.sdoId == m[5] as int + 256 * (m[0] as int / 16) && r.domainNumber == m[4]
            && (r.isUnicast <==> Bit(m[6], 2) == 1)
            && BigEndian(2, r.sequence) == m[30..32] && r.sequence < 0x1_0000
            && r.peer.clock == m[20..28] && BigEndian(2, r.peer.port) == m[28..30]
            && r.target.clock == m[34..42] && BigEndian(2, r.target.port) == m[42..44]
  {
    Pow256Values();
    FromBigEndianRoundTrip(m[30..32]);
    FromBigEndianRoundTrip(m[28..30]);
    FromBigEndianRoundTrip(m[42..44]);
    assert Pow2N(2) == 2 * Pow2N(1) == 4;
    hide FromBigEndian, BigEndian, Pow256;
  }

  predicate SameHeader(a: State, b: State) {
    && a.msgType == b.msgType && a.versionPTP == b.versionPTP && a.minorVersionPTP == b.minorVersionPTP
    && a.sdoId == b.sdoId && a.domainNumber == b.domainNumber && a.isUnicast == b.isUnicast
    && a.sequence == b.sequence && a.peer == b.peer && a.target == b.target
  }

  lemma ManagementKeepsHeader(st: State, m: seq<Octet>)
    requires |m| >= 52
    ensures SameHeader(ParseManagement(st, m).st, st)
  {
    hide FindId, ReplyAllowed, SchemaOf, Decode, FromBigEndian, Proper;
  }

  // ---------------------------------------------------------------- the refusals of a management message

  /** The ID field of a management message: behind the error ID in an error status. */
  predicate HasId(m: seq<Octet>) {
    |m| >= 54 && (FromBigEndian(m[48..50]) == 1 || (FromBigEndian(m[48..50]) == 2 && |m| >= 60))
  }

  function IdField(m: seq<Octet>): nat
    requires |m| >= 54
  {
    if FromBigEndian(m[48..50]) == 1 then FromBigEndian(m[52..54])
    else if |m| >= 60 then FromBigEndian(m[54..56]) else 0
  }

  /** With a good header parse ends in ACTION exactly when the action is no reply, or is one that the message's ID does
      not have; in INVALID_TLV exactly when a reply holds another TLV than MANAGEMENT and MANAGEMENT_ERROR_STATUS; and
      in INVALID_ID exactly when the ID of such a TLV is unknown. */
  lemma ManagementRefused(st: State, m: seq<Octet>, behind: seq<Octet>)
    requires GoodHeader(st.prms, m) && m[0] % 16 == 0xd
    ensures var status, code, id :=
              ParseSpec(st, m, behind).status, m[46] % 16,
              if |m| >= 54 then FindId(IdField(m), st.prms.linuxptp) else None;
            && (status == ACTION <==>
                  (code != 2 && code != 4) || (HasId(m) && id.Some? && !ReplyFits(id.value, code)))
            && (status == INVALID_TLV <==>
                  (code == 2 || code == 4) && FromBigEndian(m[48..50]) != 1 && FromBigEndian(m[48..50]) != 2)
            && (status == INVALID_ID <==> (code == 2 || code == 4) && HasId(m) && id.None?)
  {
    hide FromBigEndian, HeaderRead, FindId, ReplyFits;
    var code := m[46] % 16;
    HeaderKeepsParams(st, m);
    if code == 2 || code == 4 {
      var replied := HeaderRead(st, m).(replyAction := if code == 2 then RESPONSE else ACKNOWLEDGE);
      if |m| >= 54 && FindId(IdField(m), st.prms.linuxptp).Some? {
        ReplyFitsExactly(FindId(IdField(m), st.prms.linuxptp).value, code);
      }
      hide ReplyAllowed, ParseData, ParseDisplay;
      if FromBigEndian(m[48..50]) == 1 && |m| >= 54 {
        TlvRefused(replied, m, FromBigEndian(m[50..52]));
      } else if FromBigEndian(m[48..50]) == 2 && |m| >= 60 {
        ErrorStatusRefused(replied, m, FromBigEndian(m[50..52]));
      }
    }
  }

  lemma HeaderKeepsParams(st: State, m: seq<Octet>)
    requires |m| >= 44
    ensures HeaderRead(st, m).prms == st.prms
  {
  }

  lemma TlvRefused(st: State, m: seq<Octet>, length: nat)
    requires |m| >= 54
    ensures var id, r := FindId(FromBigEndian(m[52..54]), st.prms.linuxptp), ParseTlv(st, m, length);
            && (r.status == INVALID_ID <==> id.None?)
            && (r.status == ACTION <==> id.Some? && !ReplyAllowed(id.value, st.replyAction))
            && r.status != INVALID_TLV
  {
    hide FromBigEndian, FindId, ReplyAllowed, SchemaOf, Decode, Proper;
  }

  lemma ErrorStatusRefused(st: State, m: seq<Octet>, length: nat)
    requires |m| >= 60
    ensures var id, r := FindId(FromBigEndian(m[54..56]), st.prms.linuxptp), ParseErrorStatus(st, m, length);
            && (r.status == INVALID_ID <==> id.None?)
            && (r.status == ACTION <==> id.Some? && !ReplyAllowed(id.value, st.replyAction))
            && r.status != INVALID_TLV
  {
    hide FromBigEndian, FindId, ReplyAllowed, Decode;
  }

  // ---------------------------------------------------------------- error replies

  /** The octets of a MANAGEMENT_ERROR_STATUS TLV (section 15.5.4 of IEEE Std 1588-2008): `display` is the displayData
      with its padding. */
  function ErrorTlv(errorId: nat, id: MngId, reserved: seq<Octet>, display: seq<Octet>): seq<Octet> {
    BigEndian(2, 2) + BigEndian(2, 8 + |display|) + BigEndian(2, errorId) + BigEndian(2, RowOf(id).value)
    + reserved + display
  }

  /** A text of less than 256 octets and its padding to an even number. */
  function Display(text: seq<Octet>, pad: Octet): (d: seq<Octet>)
    requires |text| < 256
    ensures |d| % 2 == 0
  {
    [|text|] + text + if |text| % 2 == 0 then [pad] else []
  }

  /** An error reply for an ID that the receiver knows: the error, the ID and the text are those of the octets.  Without
      displayData the text of an earlier reply stays. */
  lemma ErrorReplyParsed(
    st: State, h: seq<Octet>, errorId: nat, id: MngId, reserved: seq<Octet>, text: Option<seq<Octet>>, pad: Octet,
    behind: seq<Octet>)
    requires |h| == 48 && errorId < 0x1_0000 && |reserved| == 4 && (text.Some? ==> |text.value| < 256)
    requires var display := if text.Some? then Display(text.value, pad) else [];
             GoodHeader(st.prms, h + ErrorTlv(errorId, id, reserved, display))
    requires h[0] % 16 == 0xd && (h[46] % 16 == 2 || h[46] % 16 == 4) && ReplyFits(id, h[46] % 16)
    requires st.prms.linuxptp || !OfLinuxptp(id)
    ensures var display := if text.Some? then Display(text.value, pad) else [];
            var r := ParseSpec(st, h + ErrorTlv(errorId, id, reserved, display), behind);
            && r.status == MSG && r.st.errorId == errorId && r.st.tlvId == id && r.st.mngType == 2
            && r.st.replyAction == (if h[46] % 16 == 2 then RESPONSE else ACKNOWLEDGE)
            && r.st.errorDisplay == (if text.Some? then text.value else st.errorDisplay)
            && r.st.dataGet == st.dataGet && r.st.sigTlvs == st.sigTlvs
  {
    var display := if text.Some? then Display(text.value, pad) else [];
    var m := h + ErrorTlv(errorId, id, reserved, display);
    var replied := HeaderRead(st, m).(replyAction := if h[46] % 16 == 2 then RESPONSE else ACKNOWLEDGE);
    TableRows(id);
    DisplayLength(text, pad);
    hide ErrorTlv, BigEndian, FromBigEndian, RowOf, IdOfValue, FindId, ReplyAllowed, ReplyFits, OfLinuxptp, HeaderRead,
      Display, ParseSpec, ParseErrorStatus, ParseDisplay, VariableList;
    ErrorTlvParts(h, errorId, id, reserved, display);
    Number16(2);
    Number16(8 + |display|);
    Number16(errorId);
    Number16(RowOf(id).value);
    HeaderKeepsRest(st, m);
    ErrorStatusReached(st, m, behind);
    IdFound(RowOf(id).value, st.prms.linuxptp, id);
    ReplyFitsExactly(id, h[46] % 16);
    ErrorStatusRead(replied, m, id, errorId, 8 + |display|);
    DisplayParsed(replied.(tlvId := id, errorId := errorId), m, text, pad);
  }

  lemma DisplayLength(text: Option<seq<Octet>>, pad: Octet)
    requires text.Some? ==> |text.value| < 256
    ensures text.Some? ==> 2 <= |Display(text.value, pad)| <= 258
  {
  }

  /** A good header and a reply lead to the error status. */
  lemma ErrorStatusReached(st: State, m: seq<Octet>, behind: seq<Octet>)
    requires GoodHeader(st.prms, m) && m[0] % 16 == 0xd && (m[46] % 16 == 2 || m[46] % 16 == 4)
    requires FromBigEndian(m[48..50]) == 2
    ensures ParseSpec(st, m, behind)
         == ParseErrorStatus(
              HeaderRead(st, m).(replyAction := if m[46] % 16 == 2 then RESPONSE else ACKNOWLEDGE), m,
              FromBigEndian(m[50..52]))
  {
    hide FromBigEndian, HeaderRead, ParseErrorStatus;
  }

  lemma ErrorStatusRead(st: State, m: seq<Octet>, id: MngId, errorId: nat, length: nat)
    requires |m| >= 60 && FindId(FromBigEndian(m[54..56]), st.prms.linuxptp) == Some(id)
    requires ReplyAllowed(id, st.replyAction) && FromBigEndian(m[52..54]) == errorId
    ensures ParseErrorStatus(st, m, length) == ParseDisplay(st.(tlvId := id, errorId := errorId), m, length)
  {
    hide FromBigEndian, FindId, ReplyAllowed, ParseDisplay;
  }

  /** The displayData of a message that ends with it. */
  lemma DisplayParsed(st: State, m: seq<Octet>, text: Option<seq<Octet>>, pad: Octet)
    requires text.Some? ==> |text.value| < 256
    requires |m| >= 60 && m[60..] == if text.Some? then Display(text.value, pad) else []
    ensures ParseDisplay(st, m, |m| - 52)
         == ParseResult(MSG, st.(mngType := 2,
                                 errorDisplay := if text.Some? then text.value else st.errorDisplay))
  {
    assert m[..52 + (|m| - 52)] == m && m == m[..60] + m[60..];
    if text.Some? {
      DisplayLength(text, pad);
      DisplayRead(m[..60], text.value, pad);
    }
    hide Decode, Display;
  }

  lemma HeaderKeepsRest(st: State, m: seq<Octet>)
    requires |m| >= 44
    ensures var r := HeaderRead(st, m);
            && r.prms == st.prms && r.errorDisplay == st.errorDisplay && r.dataGet == st.dataGet
            && r.sigTlvs == st.sigTlvs
  {
  }

  lemma ErrorTlvParts(h: seq<Octet>, errorId: nat, id: MngId, reserved: seq<Octet>, display: seq<Octet>)
    requires |h| == 48 && |reserved| == 4
    ensures var m := h + ErrorTlv(errorId, id, reserved, display);
            && |m| == 60 + |display| && (forall i | 0 <= i < 48 :: m[i] == h[i])
            && m[48..50] == BigEndian(2, 2) && m[50..52] == BigEndian(2, 8 + |display|)
            && m[52..54] == BigEndian(2, errorId) && m[54..56] == BigEndian(2, RowOf(id).value)
            && m[60..] == display
  {
    hide BigEndian, RowOf;
    var t, l := BigEndian(2, 2), BigEndian(2, 8 + |display|);
    var e, i := BigEndian(2, errorId), BigEndian(2, RowOf(id).value);
    SixParts(h, t, l, e, i, reserved, display);
  }

  lemma SixParts(
    h: seq<Octet>, t: seq<Octet>, l: seq<Octet>, e: seq<Octet>, i: seq<Octet>, r: seq<Octet>, d: seq<Octet>)
    requires |h| == 48 && |t| == |l| == |e| == |i| == 2 && |r| == 4
    ensures var m := h + (t + l + e + i + r + d);
            && |m| == 60 + |d| && m[48..50] == t && m[50..52] == l && m[52..54] == e && m[54..56] == i && m[60..] == d
            && forall k | 0 <= k < 48 :: m[k] == h[k]
  {
    var x := t + l + e + i + r;
    HeadParts(t, l, e, i, r);
    Inner(h, x, d, 0, 2);
    Inner(h, x, d, 2, 4);
    Inner(h, x, d, 4, 6);
    Inner(h, x, d, 6, 8);
  }

  lemma HeadParts(t: seq<Octet>, l: seq<Octet>, e: seq<Octet>, i: seq<Octet>, r: seq<Octet>)
    requires |t| == |l| == |e| == |i| == 2 && |r| == 4
    ensures var x := t + l + e + i + r;
            |x| == 12 && x[0..2] == t && x[2..4] == l && x[4..6] == e && x[6..8] == i
  {
  }

  lemma Inner(h: seq<Octet>, x: seq<Octet>, d: seq<Octet>, from: nat, to: nat)
    requires from <= to <= |x|
    ensures (h + (x + d))[|h| + from..|h| + to] == x[from..to] && (h + (x + d))[|h| + |x|..] == d
  {
  }

  lemma DisplayRead(pre: seq<Octet>, text: seq<Octet>, pad: Octet)
    requires |text| < 256
    ensures var r := Decode(TEXT, pre + Display(text, pad), |pre|); r.Decoded? && r.v == Blob(|text|, text)
  {
    var post := if |text| % 2 == 0 then [pad] else [];
    var v := Blob(|text|, text);
    Pow256Values();
    WrapSmall(Unsigned(1), |text|);
    RoundTrip(TEXT, v, pre, post);
    assert BigEndian(1, |text|) == [|text|] by { assert BigEndian(0, |text| / 256) == []; }
    assert pre + Emit(TEXT, v) + post == pre + Display(text, pad);
  }

  // ---------------------------------------------------------------- the lengths that parse accepts

  /** How a reply for a known ID ends, by its lengthField: without data OK and nothing else changes; otherwise the
      lengthField is even, at least 2, and inside the message, and the data are those of the dataField it bounds. */
  lemma DataReplyOutcome(st: State, m: seq<Octet>, behind: seq<Octet>, id: MngId)
    requires GoodHeader(st.prms, m) && m[0] % 16 == 0xd && |m| >= 54 && FromBigEndian(m[48..50]) == 1
    requires FindId(FromBigEndian(m[52..54]), st.prms.linuxptp) == Some(id) && ReplyFits(id, m[46] % 16)
    ensures SchemaOf(id).Some? ==> Proper(SchemaOf(id).value)
    ensures var r, length := ParseSpec(st, m, behind), FromBigEndian(m[50..52]);
            var framed := length >= 2 && length % 2 == 0 && (length == 2 || |m| >= 52 + length);
            && r.st.tlvId == id
            && (!framed ==> r.status == TOO_SMALL && r.st.dataGet == st.dataGet)
            && (framed && length == 2 ==> r.status == OK && r.st.dataGet == st.dataGet && r.st.mngType == st.mngType)
            && (framed && length > 2 ==>
                  if SchemaOf(id).None? then r.status == OK && r.st.dataGet == None && r.st.mngType == 1
                  else match Decode(SchemaOf(id).value, m[..52 + length], 54)
                       case Decoded(v, _) => r.status == OK && r.st.dataGet == Some(v) && r.st.mngType == 1
                       case Failed(e) => r.status == e && r.st.dataGet == st.dataGet)
  {
    hide FromBigEndian, FindId, RowOf, ReplyFits, SchemaOf, Decode, Proper, HeaderRead, ParseTlv;
    TableProper(id);
    HeaderKeepsRest(st, m);
    HeaderKeepsMore(st, m);
    ReplyFitsCode(id, m[46] % 16);
    ReplyFitsExactly(id, m[46] % 16);
    var replied := HeaderRead(st, m).(replyAction := if m[46] % 16 == 2 then RESPONSE else ACKNOWLEDGE);
    assert ParseSpec(st, m, behind) == ParseTlv(replied, m, FromBigEndian(m[50..52]));
    TlvOutcome(replied, m, FromBigEndian(m[50..52]), id);
  }

  lemma ReplyFitsCode(id: MngId, code: nat)
    requires ReplyFits(id, code)
    ensures code == 2 || code == 4
  {
  }

  lemma HeaderKeepsMore(st: State, m: seq<Octet>)
    requires |m| >= 44
    ensures HeaderRead(st, m).mngType == st.mngType
  {
  }

  lemma TlvOutcome(st: State, m: seq<Octet>, length: nat, id: MngId)
    requires |m| >= 54 && FindId(FromBigEndian(m[52..54]), st.prms.linuxptp) == Some(id)
    requires ReplyAllowed(id, st.replyAction)
    ensures SchemaOf(id).Some? ==> Proper(SchemaOf(id).value)
    ensures var r := ParseTlv(st, m, length);
            var framed := length >= 2 && length % 2 == 0 && (length == 2 || |m| >= 52 + length);
            && r.st.tlvId == id
            && (!framed ==> r.status == TOO_SMALL && r.st.dataGet == st.dataGet)
            && (framed && length == 2 ==> r.status == OK && r.st.dataGet == st.dataGet && r.st.mngType == st.mngType)
            && (framed && length > 2 ==>
                  if SchemaOf(id).None? then r.status == OK && r.st.dataGet == None && r.st.mngType == 1
                  else match Decode(SchemaOf(id).value, m[..52 + length], 54)
                       case Decoded(v, _) => r.status == OK && r.st.dataGet == Some(v) && r.st.mngType == 1
                       case Failed(e) => r.status == e && r.st.dataGet == st.dataGet)
  {
    hide FromBigEndian, FindId, ReplyAllowed, RowOf, SchemaOf, Decode, Proper;
    TableProper(id);
  }

  /** The same for an error status: it is too small or carries the text that its lengthField bounds. */
  lemma ErrorReplyOutcome(st: State, m: seq<Octet>, behind: seq<Octet>, id: MngId)
    requires GoodHeader(st.prms, m) && m[0] % 16 == 0xd && |m| >= 60 && FromBigEndian(m[48..50]) == 2
    requires FindId(FromBigEndian(m[54..56]), st.prms.linuxptp) == Some(id) && ReplyFits(id, m[46] % 16)
    ensures var r, length := ParseSpec(st, m, behind), FromBigEndian(m[50..52]);
            var framed := length >= 8 && length % 2 == 0 && |m| >= 52 + length;
            && r.st.tlvId == id && r.st.errorId == FromBigEndian(m[52..54])
            && (r.status == MSG || r.status == TOO_SMALL)
            && (r.status == MSG <==> framed && (length == 8 || 60 + 1 + m[60] as int <= 52 + length))
  {
    hide FromBigEndian, FindId, RowOf, ReplyFits, HeaderRead, ParseErrorStatus, ParseDisplay;
    HeaderKeepsRest(st, m);
    ReplyFitsCode(id, m[46] % 16);
    ReplyFitsExactly(id, m[46] % 16);
    ErrorStatusReached(st, m, behind);
    var replied := HeaderRead(st, m).(replyAction := if m[46] % 16 == 2 then RESPONSE else ACKNOWLEDGE);
    ErrorStatusRead(replied, m, id, FromBigEndian(m[52..54]), FromBigEndian(m[50..52]));
    DisplayOutcome(replied.(tlvId := id, errorId := FromBigEndian(m[52..54])), m, FromBigEndian(m[50..52]));
  }

  lemma DisplayOutcome(st: State, m: seq<Octet>, length: nat)
    requires |m| >= 60
    ensures var r := ParseDisplay(st, m, length);
            && r.st.tlvId == st.tlvId && r.st.errorId == st.errorId && (r.status == MSG || r.status == TOO_SMALL)
            && (r.status == MSG <==> length >= 8 && length % 2 == 0 && |m| >= 52 + length
                                     && (length == 8 || 60 + 1 + m[60] as int <= 52 + length))
  {
    if length > 8 && |m| >= 52 + length {
      var b := m[..52 + length];
      assert b[60..61] == [m[60]] && [m[60]][..0] == [];
      assert FromBigEndian([m[60]]) == m[60];
    }
  }

  // ---------------------------------------------------------------- the octets of a message

  /** How long a message will be, by its action and ID alone where the data do not matter. */
  lemma PlannedLength(st: State)
    requires Sendable(st)
    ensures st.sendAction == GET && st.prms.useZeroGet ==> PlannedLen(st) == 54
    ensures WithoutData(st.tlvId) ==> PlannedLen(st) == 54
    ensures !(st.sendAction == GET && st.prms.useZeroGet) && RowOf(st.tlvId).size > 0 ==>
              PlannedLen(st) == 54 + Even(RowOf(st.tlvId).size)
    ensures st.sendAction != GET && st.dataSend.Some? && SchemaOf(st.tlvId).Some? ==>
              PlannedLen(st) == 54 + Even(|Emit(SchemaOf(st.tlvId).value, st.dataSend.value)|)
  {
    Rights(st.tlvId);
    hide RowOf, SchemaOf, Typed, Emit, ExpectedSize, WithoutData, Readable, Settable, Commandable, OfLinuxptp,
      ActionAllowed;
    TableKinds(st.tlvId);
    if st.sendAction != GET && st.dataSend.Some? && SchemaOf(st.tlvId).Some? {
      assert !st.tlvId.CLOCK_DESCRIPTION? by {
        if st.tlvId.CLOCK_DESCRIPTION? {
          DescriptionIsReadOnly(st.tlvId, st.sendAction, st.prms.linuxptp);
        }
      }
      SizeAgreement(st.tlvId, SchemaOf(st.tlvId).value, st.dataSend.value);
    }
  }

  /** Without the data it needs no length can be planned for a variable ID. */
  lemma NoPlan(st: State)
    ensures PlannedLen(st) == -2 <==>
              RowOf(st.tlvId).size == -2 && st.sendAction != GET && st.dataSend.None?
  {
    hide RowOf, ExpectedSize;
  }

  /** The message that a successful build writes: the header and TLV of section 15.4 with the caller's parameters, the
      action's and the ID's numbers, and for SET and COMMAND the structure and a zero octet when it is odd, for GET
      zeros. */
  lemma MessageSent(st: State, bufSize: nat, seqno: nat)
    requires Sendable(st) && BuildSpec(st, bufSize, seqno).status == OK
    ensures var m := BuildSpec(st, bufSize, seqno).octets;
            && |m| >= 54
            && m[46] == (if st.sendAction == GET then 0 else if st.sendAction == SET then 1 else 3)
            && m[48..50] == [0, 1] && m[52..54] == BigEndian(2, RowOf(st.tlvId).value)
            && (st.sendAction == GET || st.dataSend.None? ==> forall i | 54 <= i < |m| :: m[i] == 0)
            && (st.sendAction != GET && st.dataSend.Some? && SchemaOf(st.tlvId).Some? ==>
                  var x := Emit(SchemaOf(st.tlvId).value, st.dataSend.value);
                  m[54..] == if |x| % 2 == 0 then x else x + [0])
  {
    assert BigEndian(2, MANAGEMENT) == [0, 1] by {
      assert BigEndian(1, 0) == [0] by { assert BigEndian(0, 0) == []; }
    }
    hide RowOf, SchemaOf, Typed, Emit, MessageOctets, BigEndian, ActionAllowed, BuildSpec, PayloadOf, Header;
    var data := PayloadOf(st, bufSize - BASE_SIZE).octets;
    PayloadSent(st, bufSize, seqno);
    TlvLayout(st.prms, st.sendAction, st.tlvId, seqno, data);
    HeaderLayout(st.prms, st.sendAction, seqno, BASE_SIZE + |data|);
    OnlyThreeActions(st);
    var m := MessageOctets(st.prms, st.sendAction, st.tlvId, seqno, data);
    assert m[46] == m[..48][46];
    SameBehind(m, data);
  }

  lemma PayloadSent(st: State, bufSize: nat, seqno: nat)
    requires Sendable(st) && BuildSpec(st, bufSize, seqno).status == OK
    ensures bufSize >= BASE_SIZE
    ensures var data := PayloadOf(st, bufSize - BASE_SIZE).octets;
            && BuildSpec(st, bufSize, seqno).octets == MessageOctets(st.prms, st.sendAction, st.tlvId, seqno, data)
            && (st.sendAction == GET || st.dataSend.None? ==> forall i | 0 <= i < |data| :: data[i] == 0)
            && (st.sendAction != GET && st.dataSend.Some? && SchemaOf(st.tlvId).Some? ==>
                  var x := Emit(SchemaOf(st.tlvId).value, st.dataSend.value);
                  data == if |x| % 2 == 0 then x else x + [0])
  {
    hide RowOf, SchemaOf, Typed, Emit, BuildError, ExpectedSize, Attempt, Normalize, MessageOctets, BigEndian,
      ActionAllowed;
  }

  lemma SameBehind(m: seq<Octet>, data: seq<Octet>)
    requires |m| >= 54 && m[54..] == data
    ensures forall i | 54 <= i < |m| :: m[i] == data[i - 54]
  {
    assert forall i | 54 <= i < |m| :: m[i] == m[54..][i - 54];
  }

  lemma OnlyThreeActions(st: State)
    requires Sendable(st)
    ensures st.sendAction == GET || st.sendAction == SET || st.sendAction == COMMAND
  {
    hide RowOf, SchemaOf, Typed;
  }

  /** A time whose seconds do not fit 48 bits is refused with VAL, in every buffer that takes a message at all. */
  lemma TimeOutOfRange(st: State, bufSize: nat, seqno: nat, seconds: nat, nanoseconds: nat)
    requires Sendable(st) && st.sendAction == SET && st.tlvId == TIME
    requires st.dataSend == Some(Pair(Int(seconds), Int(nanoseconds)))
    ensures BuildSpec(st, bufSize, seqno).status == VAL <==> bufSize >= 54 && seconds >= 0x1_0000_0000_0000
  {
    TimeList();
    hide RowOf, SingleField, FixedList, VariableList, ExpectedSize, Attempt, MessageOctets;
    FieldErrors(Unsigned48, Int(seconds), bufSize - 54);
    FieldErrors(UINT32, Int(nanoseconds), bufSize - 60);
  }

  lemma TimeList()
    ensures SchemaOf(TIME) == Some(Both(Unsigned48, UINT32))
  {
  }

  /** So field k of the data stands at its place in the message. */
  lemma MessageFieldSent(st: State, bufSize: nat, seqno: nat, s: Schema, k: nat)
    requires Sendable(st) && BuildSpec(st, bufSize, seqno).status == OK && st.sendAction != GET && st.dataSend.Some?
    requires SchemaOf(st.tlvId) == Some(s) && k < |Layout(st.tlvId)|
    ensures var m, v, f := BuildSpec(st, bufSize, seqno).octets, st.dataSend.value, Layout(st.tlvId)[k];
            Sent(f.kind, m, 54 + f.at + Before(s, v, k), Leaf(s, v, k))
  {
    hide RowOf, SchemaOf, Typed, Emit, BuildSpec, Layout, Sent, ActionAllowed;
    MessageSent(st, bufSize, seqno);
    var m, v, f := BuildSpec(st, bufSize, seqno).octets, st.dataSend.value, Layout(st.tlvId)[k];
    ManagementFieldSent(st.tlvId, s, v, k);
    var x := Emit(s, v);
    var pad: seq<Octet> := if |x| % 2 == 0 then [] else [0];
    assert m == m[..54] + x + pad;
    SentBehind(f.kind, m[..54], x, pad, f.at + Before(s, v, k), Leaf(s, v, k));
  }

  /** And is read from its place in a received message. */
  lemma MessageFieldRead(st: State, m: seq<Octet>, behind: seq<Octet>, id: MngId, s: Schema, k: nat)
    requires GoodHeader(st.prms, m) && m[0] % 16 == 0xd && |m| >= 54 && FromBigEndian(m[48..50]) == 1
    requires FindId(FromBigEndian(m[52..54]), st.prms.linuxptp) == Some(id) && ReplyFits(id, m[46] % 16)
    requires SchemaOf(id) == Some(s) && k < |Layout(id)|
    requires ParseSpec(st, m, behind).status == OK && FromBigEndian(m[50..52]) > 2
    ensures 52 + FromBigEndian(m[50..52]) <= |m|
    ensures var v, f := ParseSpec(st, m, behind).st.dataGet, Layout(id)[k];
            && v.Some? && KindProper(f.kind)
            && ReadAs(f.kind, m[..52 + FromBigEndian(m[50..52])], 54 + f.at + Before(s, v.value, k),
                      Leaf(s, v.value, k))
  {
    hide FromBigEndian, FindId, ReplyFits, SchemaOf, Decode, Proper, ParseSpec, Layout, ReadAs;
    DataReplyOutcome(st, m, behind, id);
    DecodeNeverOk(s, m[..52 + FromBigEndian(m[50..52])], 54);
    ManagementFieldRead(id, s, m[..52 + FromBigEndian(m[50..52])], 54, k);
  }

  lemma DecodeNeverOk(s: Schema, b: seq<Octet>, at: nat)
    requires Proper(s)
    ensures Decode(s, b, at).Failed? ==> Decode(s, b, at).err != OK
  {
  }
}
