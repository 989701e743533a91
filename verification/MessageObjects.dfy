/** The Message object: it keeps what is to be sent and what was received, builds management messages into a
    caller's buffer and parses management and signaling messages. */
module MessageObjects {
  import opened Octets
  import opened Schema
  import opened Walkers
  import opened Decoding
  import opened Ids
  import opened Sizes
  import opened Signaling
  import opened Cursors
  import opened MessageSpec

  /** A caller's TLV structure. */
  class Structure {
    var value: Value

    constructor (v: Value)
      ensures value == v
    {
      value := v;
    }
  }

  class Message {
    var sendAction: Action
    var msgLen: nat
    var dataSend: Structure?
    var tlvId: MngId
    var prms: Params
    var msgType: nat
    var versionPTP: nat
    var minorVersionPTP: nat
    var sdoId: nat
    var domainNumber: nat
    var isUnicast: bool
    var sequence: nat
    var peer: PortId
    var target: PortId
    var replyAction: Action
    var mngType: nat
    var dataGet: Option<Value>
    var sigTlvs: seq<SigTlv>
    var errorId: nat
    var errorDisplay: seq<Octet>

    ghost function St(): State
      reads this, dataSend
    {
      State(sendAction, msgLen, if dataSend == null then None else Some(dataSend.value), tlvId, prms,
            msgType, versionPTP, minorVersionPTP, sdoId, domainNumber, isUnicast, sequence, peer, target,
            replyAction, mngType, dataGet, sigTlvs, errorId, errorDisplay)
    }

    /** Message(): the members that the source leaves unset are arbitrary here too. */
    constructor ()
      ensures Initial(St()) && dataSend == null && isUnicast
      ensures prms.transportSpecific == 0 && prms.domainNumber == 0 && prms.boundaryHops == 1 && prms.isUnicast
      ensures prms.linuxptp && prms.filterSignaling && !prms.rcvSignaling && !prms.useZeroGet
      ensures prms.allowSigTlvs == {} && prms.selfId.port == 0 && (forall i | 0 <= i < 8 :: prms.selfId.clock[i] == 0)
      ensures prms.target.port == 0xffff && forall i | 0 <= i < 8 :: prms.target.clock[i] == 255
    {
      sendAction, msgLen, dataSend, sequence, isUnicast := GET, 0, null, 0, true;
      replyAction, tlvId, dataGet, sigTlvs, errorDisplay := RESPONSE, NULL_PTP_MANAGEMENT, None, [], [];
      var zero: PortId := PortIdentity([0, 0, 0, 0, 0, 0, 0, 0], 0);
      peer, target := zero, zero;
      prms := Params(0, 0, 1, true, true, ALL_CLOCKS, zero, false, false, true, {});
    }

    /** Message(MsgParams): a transportSpecific of more than four bits becomes 0. */
    constructor WithParams(p: Params)
      ensures Initial(St()) && dataSend == null
      ensures prms == if p.transportSpecific > 15 then p.(transportSpecific := 0) else p
    {
      sendAction, msgLen, dataSend, sequence, isUnicast := GET, 0, null, 0, true;
      replyAction, tlvId, dataGet, sigTlvs, errorDisplay := RESPONSE, NULL_PTP_MANAGEMENT, None, [], [];
      var zero: PortId := PortIdentity([0, 0, 0, 0, 0, 0, 0, 0], 0);
      peer, target := zero, zero;
      prms := if p.transportSpecific > 15 then p.(transportSpecific := 0) else p;
    }

    method UpdateParams(p: Params) returns (ok: bool)
      modifies this`prms
      ensures Update(ok, St()) == UpdateParamsSpec(old(St()), p)
    {
      if p.transportSpecific > 15 {
        return false;
      }
      prms := p;
      return true;
    }

    method UseConfig(transportSpecific: Octet, domain: Octet) returns (ok: bool)
      modifies this`prms
      ensures Update(ok, St()) == UseConfigSpec(old(St()), transportSpecific, domain)
    {
      if transportSpecific > 15 {
        return false;
      }
      prms := prms.(transportSpecific := transportSpecific);
      prms := prms.(domainNumber := domain);
      return true;
    }

    method SetAllClocks()
      modifies this`prms
      ensures St() == old(St()).(prms := old(prms).(target := ALL_CLOCKS))
      ensures prms.target.port == 0xffff && forall i | 0 <= i < 8 :: prms.target.clock[i] == 255
    {
      prms := prms.(target := prms.target.(port := ALL_CLOCKS.port));
      prms := prms.(target := prms.target.(clock := ALL_CLOCKS.clock));
    }

    method SetAction(action: Action, id: MngId) returns (ok: bool)
      modifies this`sendAction, this`tlvId, this`dataSend
      ensures Update(ok, St()) == SetActionSpec(old(St()), action, id)
      ensures ok ==> dataSend == null
      ensures !ok ==> dataSend == old(dataSend)
    {
      hide RowOf, ActionAllowed;
      if !ActionAllowed(id, action, prms.linuxptp) {
        return false;
      }
      if action != GET && RowOf(id).size != 0 {
        return false;
      }
      sendAction := action;
      tlvId := id;
      dataSend := null;
      return true;
    }

    method SetActionData(action: Action, id: MngId, data: Structure) returns (ok: bool)
      modifies this`sendAction, this`tlvId, this`dataSend
      ensures Update(ok, St()) == SetActionDataSpec(old(St()), action, id, data.value)
      ensures ok ==> dataSend == null || dataSend == data
      ensures !ok ==> dataSend == old(dataSend)
    {
      hide ActionAllowed;
      NullHasNoData();
      hide RowOf;
      if !ActionAllowed(id, action, prms.linuxptp) {
        return false;
      }
      sendAction := action;
      tlvId := id;
      if id != NULL_PTP_MANAGEMENT && action != GET && RowOf(id).size != 0 {
        dataSend := data;
      } else {
        dataSend := null;
      }
      return true;
    }

    method GetMsgPlanedLen() returns (n: int)
      ensures n == PlannedLen(St())
    {
      TableKinds(tlvId);
      var data: Option<Value> := None;
      if sendAction != GET {
        if dataSend != null {
          data := Some(dataSend.value);
        }
      } else if prms.useZeroGet {
        return BASE_SIZE;
      }
      n := RowOf(tlvId).size;
      if n == -2 {
        if data.None? && sendAction != GET {
          return -2;
        }
        n := CalculatedSize(tlvId, if data.Some? then data.value else EmptyValue(VariableList(tlvId).value));
      }
      if n % 2 == 1 {
        n := n + 1;
      }
      n := n + BASE_SIZE;
    }

    /** build: header, TLV head, dataField padded to an even length, and last the two length fields. */
    method Build(buf: array<Octet>, seqno: nat) returns (status: Status)
      requires TypedToSend(St())
      modifies this`msgLen, dataSend, buf
      ensures dataSend == old(dataSend)
      ensures var r := BuildSpec(old(St()), buf.Length, seqno);
              && status == r.status && St() == r.st
              && (status == OK ==> |r.octets| <= buf.Length && buf[..] == r.octets + old(buf[..])[|r.octets|..])
      ensures buf.Length < BASE_SIZE ==> buf[..] == old(buf[..])
    {
      hide Header, BigEndian, RowOf, PayloadOf, SentData, Tried, MessageOctets, Spliced;
      ghost var before, st := buf[..], St();
      if buf.Length < BASE_SIZE {
        return TOO_SMALL;
      }
      Write(buf, 0, Header(prms, sendAction, seqno, 0));
      Write(buf, 48, BigEndian(2, MANAGEMENT));
      Write(buf, 52, BigEndian(2, RowOf(tlvId).value));
      var ok, n, err := BuildData(buf);
      if !ok {
        return err;
      }
      Write(buf, 50, BigEndian(2, 2 + n));
      msgLen := BASE_SIZE + n;
      Write(buf, 2, BigEndian(2, BASE_SIZE + n));
      status := OK;
      Assembled(st, seqno, before, PayloadOf(st, buf.Length - BASE_SIZE).octets);
    }

    /** The dataField from octet 54 on, padded to an even length. */
    method BuildData(buf: array<Octet>) returns (ok: bool, n: nat, err: Status)
      requires TypedToSend(St()) && buf.Length >= BASE_SIZE
      modifies dataSend, buf
      ensures match PayloadOf(old(St()), buf.Length - BASE_SIZE)
              case Payload(x) =>
                && ok && n == |x| && St() == old(St()).(dataSend := SentData(old(St())))
                && BASE_SIZE + |x| <= buf.Length && buf[..] == Spliced(old(buf[..]), BASE_SIZE, x)
              case NoPayload(e) =>
                !ok && err == e && St() == old(St()).(dataSend := Tried(old(St()), buf.Length - BASE_SIZE))
    {
      ok, n, err := true, 0, OK;
      if sendAction != GET && dataSend != null && SchemaOf(tlvId).Some? {
        hide SchemaOf, RowOf, Built, Attempt;
        ok, n, err := BuildWalked(buf, SchemaOf(tlvId).value);
      } else {
        hide SchemaOf, RowOf, ExpectedSize;
        assert Spliced(buf[..], BASE_SIZE, []) == buf[..];
        if sendAction == GET && !prms.useZeroGet {
          n := EmptyDataSize();
          if n > buf.Length - BASE_SIZE {
            return false, 0, TOO_SMALL;
          }
          Write(buf, BASE_SIZE, Zeros(n));
        }
      }
    }

    /** What GET sends: the even length of an empty dataField. */
    method EmptyDataSize() returns (n: nat)
      ensures n == Even(ExpectedSize(tlvId, None))
    {
      TableKinds(tlvId);
      var size := RowOf(tlvId).size;
      if size == -2 {
        size := CalculatedSize(tlvId, EmptyValue(VariableList(tlvId).value));
      }
      if size % 2 == 1 {
        size := size + 1;
      }
      return size;
    }

    /** What SET and COMMAND send: the structure, which is left normalised, and a padding octet. */
    method BuildWalked(buf: array<Octet>, s: Schema) returns (ok: bool, n: nat, err: Status)
      requires dataSend != null && SchemaOf(tlvId) == Some(s) && Typed(s, dataSend.value)
      requires buf.Length >= BASE_SIZE
      modifies dataSend, buf
      ensures dataSend.value == Attempt(s, old(dataSend.value), buf.Length - BASE_SIZE)
      ensures var room := buf.Length - BASE_SIZE;
              var e := BuildError(s, old(dataSend.value), room);
              var x := Emit(s, old(dataSend.value));
              if e.Some? then !ok && err == e.value
              else
                && dataSend.value == Normalize(s, old(dataSend.value)) && |x| <= room
                && if |x| % 2 == 1 && room - |x| < 1 then !ok && err == TOO_SMALL
                   else
                     var y := if |x| % 2 == 1 then x + [0] else x;
                     ok && n == |y| && buf[..] == Spliced(old(buf[..]), BASE_SIZE, y)
    {
      hide Emit, Normalize, BuildError, Attempt, Typed, SchemaOf, Proper, NoFloat;
      ok, n, err := true, 0, OK;
      ghost var before, room := buf[..], buf.Length - BASE_SIZE;
      ghost var x := Emit(s, dataSend.value);
      TableProper(tlvId);
      BuildThreshold(s, dataSend.value, room);
      var c := new Cursor(buf, true, BASE_SIZE, buf.Length - BASE_SIZE);
      var fail, v := c.Walk(s, dataSend.value);
      dataSend.value := v;
      if fail {
        return false, 0, c.err;
      }
      AttemptDone(s, old(dataSend.value), room);
      if c.size % 2 == 1 {
        var pad;
        fail, pad := c.ProcOctets(1, [c.reserved]);
        if fail {
          return false, 0, TOO_SMALL;
        }
        SplicedTwice(before, BASE_SIZE, x, [0]);
      }
      n := c.size;
    }

    /** The body of one TLV of a signaling message, `len` octets from `at` on.  `left` octets of it remain behind
        the cursor, fewer than none when the cursor has left the TLV. */
    method ParseFrame(buf: array<Octet>, at: nat, len: nat, tlvType: nat)
      returns (fail: bool, err: Status, tlv: Option<SigTlv>, cur: nat, left: int)
      requires at + len <= buf.Length
      modifies buf
      ensures buf[..] == old(buf[..]) && cur + left == at + len
      ensures FrameParsed(DecodeFrame(Frame(tlvType, buf[at..at + len]), prms.linuxptp), fail, err, tlv, left)
    {
      hide SigSchema, Decode, Proper, FrameParsed;
      ghost var before, body := buf[..], buf[at..at + len];
      if tlvType == MANAGEMENT {
        fail, err, tlv, cur, left := ParseMngFrame(buf, at, len);
        return;
      }
      fail, err, tlv, cur, left := false, TOO_SMALL, None, at, len;
      var s := SigSchema(tlvType, prms.linuxptp);
      if s.Some? {
        SigSchemasProper(tlvType, prms.linuxptp);
        var c := new Cursor(buf, false, cur, left);
        var v;
        fail, v := c.Walk(s.value, Void);
        BodyParsed(s.value, before[..at + len], at, 0, body, fail, v, c.cur, c.err);
        err, cur, left := c.err, c.cur, c.left;
        tlv := Some(SigTlv(tlvType, Own(v)));
      }
      OwnFrameParsed(Frame(tlvType, body), prms.linuxptp, fail, err, tlv, left);
    }

    /** A MANAGEMENT TLV of a signaling message. */
    method ParseMngFrame(buf: array<Octet>, at: nat, len: nat)
      returns (fail: bool, err: Status, tlv: Option<SigTlv>, cur: nat, left: int)
      requires at + len <= buf.Length
      modifies buf
      ensures buf[..] == old(buf[..]) && cur + left == at + len
      ensures FrameParsed(DecodeManagement(buf[at..at + len], prms.linuxptp), fail, err, tlv, left)
    {
      hide IdOfValue, RowOf, SchemaOf, Decode, Proper, NoFloat;
      fail, err, tlv, cur, left := false, TOO_SMALL, None, at, len;
      if left < 2 {
        return true, TOO_SMALL, None, cur, left;
      }
      ghost var before, body := buf[..], buf[at..at + len];
      assert buf[cur..cur + 2] == body[..2];
      var id := FindId(FromBigEndian(buf[cur..cur + 2]), prms.linuxptp);
      cur, left := cur + 2, left - 2;
      if id.Some? && left > 0 {
        TableProper(id.value);
        var s := SchemaOf(id.value);
        tlv := Some(SigTlv(MANAGEMENT, Mng(id.value, None)));
        if s.Some? {
          var c := new Cursor(buf, false, cur, left);
          var v;
          fail, v := c.Walk(s.value, Void);
          BodyParsed(s.value, before[..at + len], at, 2, body, fail, v, c.cur, c.err);
          StaysInside(s.value, body, 2);
          err, cur, left := c.err, c.cur, c.left;
          tlv := Some(SigTlv(MANAGEMENT, Mng(id.value, Some(v))));
        }
      }
    }

    /** parseSig: the loop over the TLVs.  The cursor and `leftAll` meet at the end of the message, or behind it when
        a TLV has displaced the cursor. */
    method ParseSig(buf: array<Octet>, msgSize: nat) returns (status: Status)
      requires SIGNALING_SIZE <= msgSize <= buf.Length
      modifies this`sigTlvs, buf
      ensures buf[..] == old(buf[..])
      ensures SigResult(status, sigTlvs)
           == SigRun(FilterOf(prms), buf[SIGNALING_SIZE..], msgSize - SIGNALING_SIZE, [])
    {
      hide DecodeFrame, SigRun, FrameRun, Drop, BodyLength, FromBigEndian;
      var cur, leftAll := SIGNALING_SIZE, msgSize - SIGNALING_SIZE;
      sigTlvs := [];
      ghost var b, p := buf[..], FilterOf(prms);
      ghost var rest := Drop(b, SIGNALING_SIZE);
      DropAt(b, SIGNALING_SIZE, 0);
      while leftAll >= 4
        invariant leftAll >= 0 && cur + leftAll >= msgSize
        invariant buf[..] == b && rest == Drop(b, cur)
        invariant SigRun(p, b[SIGNALING_SIZE..], msgSize - SIGNALING_SIZE, []) == SigRun(p, rest, leftAll, sigTlvs)
        decreases leftAll
      {
        RunRound(p, rest, leftAll, sigTlvs);
        DropAt(b, cur, 0);
        if buf.Length - cur < 4 {
          return Overrun;
        }
        var tlvType, len := ReadTlvHead(buf, cur);
        cur, leftAll := cur + 4, leftAll - 4;
        if len > leftAll {
          return TOO_SMALL;
        }
        leftAll := leftAll - len;
        if len > buf.Length - cur {
          return Overrun;
        }
        DropAt(b, cur - 4, len);
        var fail, err;
        fail, err, cur := ParseTlvBody(buf, cur, len, tlvType, leftAll);
        if fail {
          return err;
        }
        rest := Drop(b, cur);
      }
      RunShort(p, rest, leftAll, sigTlvs);
      return SIG;
    }

    /** The round of the loop behind a TLV's head: the filter, the TLV, and the cursor moved to its end unless it stands
        behind it. */
    method ParseTlvBody(buf: array<Octet>, at: nat, len: nat, tlvType: nat, ghost leftAll: nat)
      returns (fail: bool, err: Status, cur: nat)
      requires at + len <= buf.Length
      modifies this`sigTlvs, buf
      ensures buf[..] == old(buf[..])
      ensures var r := FrameRun(FilterOf(prms), Frame(tlvType, buf[at..at + len]), Drop(buf[..], at + len), leftAll,
                                old(sigTlvs));
              if fail then r == SigResult(err, sigTlvs)
              else cur >= at + len && r == SigRun(FilterOf(prms), Drop(buf[..], cur), leftAll, sigTlvs)
    {
      hide DecodeFrame, SigRun, FrameRun, Drop;
      ghost var b, f := buf[..], Frame(tlvType, buf[at..at + len]);
      FrameRound(FilterOf(prms), f, Drop(b, at + len), leftAll, sigTlvs);
      fail, err, cur := false, OK, at + len;
      if prms.filterSignaling && tlvType !in prms.allowSigTlvs {
        return;
      }
      var tlv, left;
      fail, err, tlv, cur, left := ParseFrame(buf, at, len, tlvType);
      if fail {
        return;
      }
      if left > 0 {
        cur := cur + left;
      }
      DropTwice(b, at + len, if left < 0 then -left else 0);
      if tlv.Some? {
        sigTlvs := sigTlvs + [tlv.value];
      }
    }

    /** parse of the first `msgSize` octets of a received buffer. */
    method Parse(buf: array<Octet>, msgSize: int) returns (status: Status)
      requires msgSize <= buf.Length
      modifies this, buf
      ensures dataSend == old(dataSend) && buf[..] == old(buf[..])
      ensures var size := if msgSize < 0 then 0 else msgSize;
              ParseResult(status, St()) == ParseSpec(old(St()), old(buf[..])[..size], old(buf[..])[size..])
    {
      hide ParseManagement, SigRun, HeaderError, HeaderRead;
      if msgSize < SIGNALING_SIZE {
        return TOO_SMALL;
      }
      var bad := CheckType(buf, msgSize);
      if bad.Some? {
        return bad.value;
      }
      var version := ReadVersion(buf[1]);
      if version != 2 || buf[33] != 0x7f {
        return HEADER;
      }
      HeaderReadAnew(old(St()), buf[..][..msgSize]);
      ReadHeader(buf, msgSize);
      if msgType == SIGNALING_TYPE {
        assert buf[..][..msgSize][SIGNALING_SIZE..] + buf[..][msgSize..] == buf[SIGNALING_SIZE..];
        status := ParseSig(buf, msgSize);
      } else {
        status := ParseMng(buf, msgSize);
      }
    }

    method ReadVersion(x: Octet) returns (version: nat)
      modifies this`versionPTP, this`minorVersionPTP
      ensures St() == old(St()).(versionPTP := x % 16, minorVersionPTP := x / 16) && version == x % 16
    {
      versionPTP, minorVersionPTP := x % 16, x / 16;
      version := versionPTP;
    }

    /** The checks of parse that depend on the message type. */
    method CheckType(buf: array<Octet>, msgSize: nat) returns (bad: Option<Status>)
      requires SIGNALING_SIZE <= msgSize <= buf.Length
      modifies this`msgType
      ensures St() == old(St()).(msgType := buf[0] % 16)
      ensures bad == HeaderError(prms, buf[..][..msgSize])
      ensures bad.None? && msgType != SIGNALING_TYPE ==> msgSize >= PREFIX_SIZE + 4
    {
      msgType := buf[0] % 16;
      if msgType == SIGNALING_TYPE {
        if !prms.rcvSignaling || buf[32] != 5 {
          return Some(HEADER);
        }
      } else if msgType == MANAGEMENT_TYPE {
        if msgSize < PREFIX_SIZE + 4 {
          return Some(TOO_SMALL);
        }
        if buf[32] != 4 {
          return Some(HEADER);
        }
      } else {
        return Some(HEADER);
      }
      return None;
    }

    /** The header fields that both kinds of message have. */
    method ReadHeader(buf: array<Octet>, msgSize: nat)
      requires SIGNALING_SIZE <= msgSize <= buf.Length
      requires msgType == buf[0] % 16 && versionPTP == buf[1] % 16 && minorVersionPTP == buf[1] / 16
      modifies this`sdoId, this`domainNumber, this`isUnicast, this`sequence, this`peer, this`target
      ensures St() == HeaderRead(old(St()), buf[..][..msgSize])
    {
      hide FromBigEndian, PortAt, HeaderRead, SdoId, IsUnicast;
      HeaderReadFrom(St(), buf[..], msgSize);
      sdoId, domainNumber, isUnicast := SdoId(buf[0], buf[5]), buf[4], IsUnicast(buf[6]);
      ReadSender(FromBigEndian(buf[..][30..32]), PortAt(buf[..], 20), PortAt(buf[..], 34));
    }

    method ReadSender(seqno: nat, source: PortId, destination: PortId)
      modifies this`sequence, this`peer, this`target
      ensures St() == old(St()).(sequence := seqno, peer := source, target := destination)
    {
      sequence, peer, target := seqno, source, destination;
    }

    /** The management part of parse. */
    method ParseMng(buf: array<Octet>, msgSize: nat) returns (status: Status)
      requires PREFIX_SIZE + 4 <= msgSize <= buf.Length
      modifies this`replyAction, this`tlvId, this`errorId, this`errorDisplay, this`mngType, this`dataGet, buf
      ensures buf[..] == old(buf[..])
      ensures ParseResult(status, St()) == ParseManagement(old(St()), buf[..][..msgSize])
    {
      hide ParseTlv, ParseErrorStatus;
      ghost var m := buf[..][..msgSize];
      var code := buf[46] % 16;
      if code != 2 && code != 4 {
        return ACTION;
      }
      replyAction := if code == 2 then RESPONSE else ACKNOWLEDGE;
      Inside(buf[..], msgSize, 48, 50);
      Inside(buf[..], msgSize, 50, 52);
      assert buf[48..50] == buf[..][48..50] && buf[50..52] == buf[..][50..52];
      var tlvType, length := FromBigEndian(buf[48..50]), FromBigEndian(buf[50..52]);
      if tlvType == MANAGEMENT_ERROR_STATUS {
        status := ParseErr(buf, msgSize, length);
      } else if tlvType != MANAGEMENT {
        status := INVALID_TLV;
      } else {
        status := ParseMngTlv(buf, msgSize, length);
      }
    }

    method ParseMngTlv(buf: array<Octet>, msgSize: nat, length: nat) returns (status: Status)
      requires PREFIX_SIZE + 4 <= msgSize <= buf.Length
      modifies this`tlvId, this`mngType, this`dataGet, buf
      ensures buf[..] == old(buf[..])
      ensures ParseResult(status, St()) == ParseTlv(old(St()), buf[..][..msgSize], length)
    {
      hide FindId, ReplyAllowed, FromBigEndian, ParseData;
      ghost var m := buf[..][..msgSize];
      var size: int := msgSize - 52;
      if size < 2 {
        return TOO_SMALL;
      }
      size := size - 2;
      Inside(buf[..], msgSize, 52, 54);
      assert buf[52..54] == buf[..][52..54];
      var id := FindId(FromBigEndian(buf[52..54]), prms.linuxptp);
      if id.None? {
        return INVALID_ID;
      }
      tlvId := id.value;
      if !ReplyAllowed(tlvId, replyAction) {
        return ACTION;
      }
      var left := length;
      if left < 2 || left % 2 == 1 {
        return TOO_SMALL;
      }
      left := left - 2;
      if left == 0 {
        return OK;
      }
      if size < left {
        return TOO_SMALL;
      }
      assert m[..52 + length] == buf[..][..BASE_SIZE + left];
      status := ParseDataField(buf, left);
    }

    /** call_tlv_data in parse. */
    method ParseDataField(buf: array<Octet>, left: nat) returns (status: Status)
      requires BASE_SIZE + left <= buf.Length
      modifies this`mngType, this`dataGet, buf
      ensures buf[..] == old(buf[..])
      ensures ParseResult(status, St()) == ParseData(old(St()), buf[..][..BASE_SIZE + left])
    {
      hide SchemaOf, Decode;
      TableProper(tlvId);
      var s := SchemaOf(tlvId);
      if s.None? {
        dataGet := None;
      } else {
        var c := new Cursor(buf, false, BASE_SIZE, left);
        var fail, v := c.Walk(s.value, Void);
        if fail {
          return c.err;
        }
        dataGet := Some(v);
      }
      mngType := MANAGEMENT;
      return OK;
    }

    method ParseErr(buf: array<Octet>, msgSize: nat, length: nat) returns (status: Status)
      requires PREFIX_SIZE + 4 <= msgSize <= buf.Length
      modifies this`tlvId, this`mngType, this`errorId, this`errorDisplay, buf
      ensures buf[..] == old(buf[..])
      ensures ParseResult(status, St()) == ParseErrorStatus(old(St()), buf[..][..msgSize], length)
    {
      hide FindId, ReplyAllowed, FromBigEndian, ParseDisplay;
      ghost var m := buf[..][..msgSize];
      var size: int := msgSize - 52;
      if size < 8 {
        return TOO_SMALL;
      }
      Inside(buf[..], msgSize, 52, 54);
      Inside(buf[..], msgSize, 54, 56);
      assert buf[52..54] == buf[..][52..54] && buf[54..56] == buf[..][54..56];
      var id := FindId(FromBigEndian(buf[54..56]), prms.linuxptp);
      if id.None? {
        return INVALID_ID;
      }
      tlvId := id.value;
      if !ReplyAllowed(tlvId, replyAction) {
        return ACTION;
      }
      errorId := FromBigEndian(buf[52..54]);
      status := ParseErrDisplay(buf, msgSize, length);
    }

    method ParseErrDisplay(buf: array<Octet>, msgSize: nat, length: nat) returns (status: Status)
      requires 60 <= msgSize <= buf.Length
      modifies this`mngType, this`errorDisplay, buf
      ensures buf[..] == old(buf[..])
      ensures ParseResult(status, St()) == ParseDisplay(old(St()), buf[..][..msgSize], length)
    {
      hide Get, Wrap;
      ghost var m := buf[..][..msgSize];
      var size, left := msgSize - 60, length;
      if left < 8 || left % 2 == 1 {
        return TOO_SMALL;
      }
      left := left - 8;
      if size < left {
        return TOO_SMALL;
      }
      if left > 1 {
        var c := new Cursor(buf, false, 60, left);
        assert c.Field() == m[..52 + length];
        var fail, v := c.Walk(TEXT, Void);
        if fail {
          return TOO_SMALL;
        }
        errorDisplay := v.s;
      }
      mngType := MANAGEMENT_ERROR_STATUS;
      return MSG;
    }
  }

  lemma NullHasNoData()
    ensures RowOf(NULL_PTP_MANAGEMENT).size == 0
  {
  }

  /** The length field is the only part of the header that is written late. */
  lemma HeaderLength(p: Params, a: Action, sequence: nat, length: nat)
    ensures Header(p, a, sequence, length) == Spliced(Header(p, a, sequence, 0), 2, BigEndian(2, length))
  {
    hide BigEndian, Zeros;
  }

  /** Replacing the middle of three parts. */
  lemma Replaced(pre: seq<Octet>, mid: seq<Octet>, post: seq<Octet>, x: seq<Octet>)
    requires |x| == |mid|
    ensures Spliced(pre + mid + post, |pre|, x) == pre + x + post
  {
  }

  /** The stores of a build, one after the other, make up the message. */
  lemma Assembled(st: State, seqno: nat, before: seq<Octet>, x: seq<Octet>)
    requires BASE_SIZE + |x| <= |before|
    ensures
      var b1 := Spliced(before, 0, Header(st.prms, st.sendAction, seqno, 0));
      var b2 := Spliced(b1, 48, BigEndian(2, MANAGEMENT));
      var b3 := Spliced(b2, 52, BigEndian(2, RowOf(st.tlvId).value));
      var b4 := Spliced(b3, BASE_SIZE, x);
      var b5 := Spliced(b4, 50, BigEndian(2, 2 + |x|));
      Spliced(b5, 2, BigEndian(2, BASE_SIZE + |x|))
      == MessageOctets(st.prms, st.sendAction, st.tlvId, seqno, x) + before[BASE_SIZE + |x|..]
  {
    hide Header, BigEndian, RowOf, Spliced;
    var h := Header(st.prms, st.sendAction, seqno, 0);
    var t, l, i := BigEndian(2, MANAGEMENT), BigEndian(2, 2 + |x|), BigEndian(2, RowOf(st.tlvId).value);
    var tail := before[BASE_SIZE + |x|..];
    StoreHead(before, h, t, i, x, tail);
    var l0 := before[50..52];
    Replaced(h + t, l0, i + x + tail, l);
    var rest := t + l + i + x + tail;
    Grouped(h, t, l0, i, x, tail);
    Grouped(h, t, l, i, x, tail);
    StoreLength(st.prms, st.sendAction, seqno, BASE_SIZE + |x|, rest);
    Grouped(Header(st.prms, st.sendAction, seqno, BASE_SIZE + |x|), t, l, i, x, tail);
  }

  lemma Grouped(
    h: seq<Octet>, t: seq<Octet>, l: seq<Octet>, i: seq<Octet>, x: seq<Octet>, tail: seq<Octet>)
    ensures (h + t) + l + (i + x + tail) == h + t + l + i + x + tail
    ensures h + (t + l + i + x + tail) == h + t + l + i + x + tail
  {
    var y := i + x + tail;
    assert h + (t + l + y) == h + t + l + y;
    assert t + l + y == t + l + i + x + tail;
    assert (h + t + l) + y == h + t + l + i + x + tail;
  }

  lemma StoreLength(p: Params, a: Action, seqno: nat, length: nat, rest: seq<Octet>)
    ensures Spliced(Header(p, a, seqno, 0) + rest, 2, BigEndian(2, length)) == Header(p, a, seqno, length) + rest
  {
    hide Header, BigEndian;
    HeaderLength(p, a, seqno, length);
  }

  lemma StoreHead(
    before: seq<Octet>, h: seq<Octet>, t: seq<Octet>, i: seq<Octet>, x: seq<Octet>, tail: seq<Octet>)
    requires |h| == 48 && |t| == 2 && |i| == 2 && BASE_SIZE + |x| <= |before| && tail == before[BASE_SIZE + |x|..]
    ensures Spliced(Spliced(Spliced(Spliced(before, 0, h), 48, t), 52, i), BASE_SIZE, x)
         == h + t + before[50..52] + i + x + tail
  {
    var b1 := Spliced(before, 0, h);
    var b2 := Spliced(b1, 48, t);
    assert b2 == h + t + before[50..];
    var b3 := Spliced(b2, 52, i);
    assert b3 == h + t + before[50..52] + i + before[54..];
  }

  /** What the checks have stored already is stored again. */
  lemma HeaderReadAnew(st: State, m: seq<Octet>)
    requires |m| >= SIGNALING_SIZE
    ensures HeaderRead(st.(msgType := m[0] % 16, versionPTP := m[1] % 16, minorVersionPTP := m[1] / 16), m)
         == HeaderRead(st, m)
    ensures HeaderRead(st, m).prms == st.prms && HeaderRead(st, m).msgType == m[0] % 16
  {
    hide FromBigEndian, PortAt;
  }

  /** Only the octets of the message matter, so the header is read off the buffer. */
  lemma HeaderReadFrom(st: State, b: seq<Octet>, size: nat)
    requires SIGNALING_SIZE <= size <= |b|
    requires st.msgType == b[0] % 16 && st.versionPTP == b[1] % 16 && st.minorVersionPTP == b[1] / 16
    ensures HeaderRead(st, b[..size])
         == st.(sdoId := SdoId(b[0], b[5]), domainNumber := b[4], isUnicast := IsUnicast(b[6]),
                sequence := FromBigEndian(b[30..32]), peer := PortAt(b, 20), target := PortAt(b, 34))
  {
    hide FromBigEndian;
    assert b[..size][30..32] == b[30..32];
    PortLocal(b, size, 20);
    PortLocal(b, size, 34);
    hide PortAt;
  }

  lemma Inside(b: seq<Octet>, size: nat, i: nat, j: nat)
    requires i <= j <= size <= |b|
    ensures b[..size][i..j] == b[i..j]
  {
  }

  lemma PortLocal(b: seq<Octet>, size: nat, at: nat)
    requires at + 10 <= size <= |b|
    ensures PortAt(b[..size], at) == PortAt(b, at)
  {
    assert b[..size][at..at + 8] == b[at..at + 8];
    assert b[..size][at + 8..at + 10] == b[at + 8..at + 10];
  }

  /** What ParseFrame reports of a decoded frame. */
  ghost predicate FrameParsed(r: FrameResult, fail: bool, err: Status, tlv: Option<SigTlv>, left: int) {
    match r
    case Ignored => !fail && tlv == None && left >= 0
    case Kept(t) => !fail && tlv == Some(t) && left >= 0
    case Overran(t, past) => !fail && tlv == Some(t) && left == 0 - past && past > 0
    case Refused(e) => fail && err == e
  }

  /** A walker at position `at + k` of the message decodes position `k` of the body that starts at `at`. */
  lemma BodyParsed(
    s: Schema, m: seq<Octet>, at: nat, k: nat, body: seq<Octet>, fail: bool, v: Value, cur: nat, err: Status)
    requires Proper(s) && at <= |m| && body == m[at..] && Parsed(s, m, at + k, fail, v, cur, err)
    ensures match Decode(s, body, k)
            case Decoded(x, end) => !fail && v == x && cur == at + end
            case Failed(e) => fail && err == e
  {
    hide Decode, Proper;
    assert m == m[..at] + body;
    DecodeMoved(s, m[..at], body, k);
  }

  lemma StaysInside(s: Schema, b: seq<Octet>, at: nat)
    requires Proper(s) && NoFloat(s) && at <= |b|
    ensures Decode(s, b, at).Decoded? ==> Decode(s, b, at).at <= |b|
  {
    hide Decode, Proper, NoFloat;
    DecodeSound(s, b, at);
    if Decode(s, b, at).Decoded? {
      FaithfulBounds(s, b, at, Decode(s, b, at).v, Decode(s, b, at).at);
    }
  }

  lemma OwnFrameParsed(f: Frame, linuxptp: bool, fail: bool, err: Status, tlv: Option<SigTlv>, left: int)
    requires f.tlvType != MANAGEMENT
    requires SigSchema(f.tlvType, linuxptp).None? ==> !fail && tlv == None && left >= 0
    requires SigSchema(f.tlvType, linuxptp).Some? ==>
               && Proper(SigSchema(f.tlvType, linuxptp).value)
               && match Decode(SigSchema(f.tlvType, linuxptp).value, f.body, 0)
                  case Decoded(x, end) => !fail && tlv == Some(SigTlv(f.tlvType, Own(x))) && left == |f.body| - end
                  case Failed(e) => fail && err == e
    ensures FrameParsed(DecodeFrame(f, linuxptp), fail, err, tlv, left)
  {
    hide SigSchema, Decode, Proper;
  }

  /** One round of the loop of parseSig, up to the frame. */
  lemma RunRound(p: Filter, b: seq<Octet>, left: nat, done: seq<SigTlv>)
    requires left >= 4
    ensures |b| < 4 ==> SigRun(p, b, left, done) == SigResult(Overrun, done)
    ensures |b| >= 4 && BodyLength(b) > left - 4 ==> SigRun(p, b, left, done) == SigResult(TOO_SMALL, done)
    ensures |b| >= 4 && |b| - 4 < BodyLength(b) <= left - 4 ==> SigRun(p, b, left, done) == SigResult(Overrun, done)
    ensures |b| >= 4 && BodyLength(b) <= left - 4 && BodyLength(b) <= |b| - 4 ==>
              var n := BodyLength(b);
              SigRun(p, b, left, done)
              == FrameRun(p, Frame(FromBigEndian(b[..2]), b[4..4 + n]), b[4 + n..], left - 4 - n, done)
  {
    hide FrameRun;
  }

  /** What the round does with the frame. */
  lemma FrameRound(p: Filter, f: Frame, next: seq<Octet>, left: nat, done: seq<SigTlv>)
    ensures var r, x := FrameRun(p, f, next, left, done), DecodeFrame(f, p.linuxptp);
            && (!Passes(p, f) || x.Ignored? ==> r == SigRun(p, next, left, done))
            && (Passes(p, f) && x.Kept? ==> r == SigRun(p, next, left, done + [x.tlv]))
            && (Passes(p, f) && x.Overran? ==> r == SigRun(p, Drop(next, x.past), left, done + [x.tlv]))
            && (Passes(p, f) && x.Refused? ==> r == SigResult(x.err, done))
  {
    hide DecodeFrame, SigRun;
  }

  lemma DropAt(b: seq<Octet>, cur: nat, len: nat)
    ensures |Drop(b, cur)| == if cur <= |b| then |b| - cur else 0
    ensures cur <= |b| ==> Drop(b, cur) == b[cur..]
    ensures cur + 4 + len <= |b| ==>
              Drop(b, cur)[4..4 + len] == b[cur + 4..cur + 4 + len] && Drop(b, cur)[4 + len..] == Drop(b, cur + 4 + len)
  {
  }

  /** The type and the length of the TLV at the cursor. */
  method ReadTlvHead(buf: array<Octet>, cur: nat) returns (tlvType: nat, len: nat)
    requires cur + 4 <= buf.Length
    ensures var rest := Drop(buf[..], cur);
            |rest| >= 4 && tlvType == FromBigEndian(rest[..2]) && len == BodyLength(rest)
  {
    tlvType, len := FromBigEndian(buf[cur..cur + 2]), FromBigEndian(buf[cur + 2..cur + 4]);
    ghost var rest := buf[..][cur..];
    assert buf[cur..cur + 2] == rest[..2] && buf[cur + 2..cur + 4] == rest[2..4];
  }

  lemma DropTwice(b: seq<Octet>, i: nat, j: nat)
    ensures Drop(Drop(b, i), j) == Drop(b, i + j) && Drop(b, i + 0) == Drop(b, i)
  {
  }
}
