/** The lengths of a dataField: the table, the per-ID size functions and the walkers, which are written
    separately and have to agree. */
module Sizes {
  import opened Octets
  import opened Schema
  import opened Walkers
  import opened Decoding
  import opened Ids

  // ---------------------------------------------------------------- the table

  /** Every value of the table is 16 bits wide and leads back to its ID, so no two IDs share a value. */
  lemma TableRows(id: MngId)
    ensures IdOfValue(RowOf(id).value) == Some(id) && RowOf(id).value < 0x1_0000
  {
    match id
    case NULL_PTP_MANAGEMENT => case CLOCK_DESCRIPTION => case USER_DESCRIPTION =>
    case SAVE_IN_NON_VOLATILE_STORAGE => case RESET_NON_VOLATILE_STORAGE => case INITIALIZE => case FAULT_LOG =>
    case FAULT_LOG_RESET => case DEFAULT_DATA_SET => case CURRENT_DATA_SET => case PARENT_DATA_SET =>
    case TIME_PROPERTIES_DATA_SET => case PORT_DATA_SET => case PRIORITY1 => case PRIORITY2 => case DOMAIN =>
    case SLAVE_ONLY => case LOG_ANNOUNCE_INTERVAL => case ANNOUNCE_RECEIPT_TIMEOUT => case LOG_SYNC_INTERVAL =>
    case VERSION_NUMBER => case ENABLE_PORT => case DISABLE_PORT => case TIME => case CLOCK_ACCURACY =>
    case UTC_PROPERTIES => case TRACEABILITY_PROPERTIES => case TIMESCALE_PROPERTIES =>
    case UNICAST_NEGOTIATION_ENABLE => case PATH_TRACE_LIST => case PATH_TRACE_ENABLE =>
    case GRANDMASTER_CLUSTER_TABLE => case UNICAST_MASTER_TABLE => case UNICAST_MASTER_MAX_TABLE_SIZE =>
    case ACCEPTABLE_MASTER_TABLE => case ACCEPTABLE_MASTER_TABLE_ENABLED => case ACCEPTABLE_MASTER_MAX_TABLE_SIZE =>
    case ALTERNATE_MASTER => case ALTERNATE_TIME_OFFSET_ENABLE => case ALTERNATE_TIME_OFFSET_NAME =>
    case ALTERNATE_TIME_OFFSET_MAX_KEY => case ALTERNATE_TIME_OFFSET_PROPERTIES =>
    case TRANSPARENT_CLOCK_PORT_DATA_SET => case LOG_MIN_PDELAY_REQ_INTERVAL =>
    case TRANSPARENT_CLOCK_DEFAULT_DATA_SET => case PRIMARY_DOMAIN => case DELAY_MECHANISM =>
    case EXTERNAL_PORT_CONFIGURATION_ENABLED => case MASTER_ONLY => case HOLDOVER_UPGRADE_ENABLE =>
    case EXT_PORT_CONFIG_PORT_DATA_SET => case TIME_STATUS_NP => case GRANDMASTER_SETTINGS_NP =>
    case PORT_DATA_SET_NP => case SUBSCRIBE_EVENTS_NP => case PORT_PROPERTIES_NP => case PORT_STATS_NP =>
    case SYNCHRONIZATION_UNCERTAIN_NP =>
  }

  /** A negative size is -2, for the IDs whose walker has a variable length. */
  lemma NegativeSizes(id: MngId)
    ensures RowOf(id).size < 0 ==> RowOf(id).size == -2 && VariableList(id).Some?
  {
    match id
    case NULL_PTP_MANAGEMENT => case CLOCK_DESCRIPTION => case USER_DESCRIPTION =>
    case SAVE_IN_NON_VOLATILE_STORAGE => case RESET_NON_VOLATILE_STORAGE => case INITIALIZE => case FAULT_LOG =>
    case FAULT_LOG_RESET => case DEFAULT_DATA_SET => case CURRENT_DATA_SET => case PARENT_DATA_SET =>
    case TIME_PROPERTIES_DATA_SET => case PORT_DATA_SET => case PRIORITY1 => case PRIORITY2 => case DOMAIN =>
    case SLAVE_ONLY => case LOG_ANNOUNCE_INTERVAL => case ANNOUNCE_RECEIPT_TIMEOUT => case LOG_SYNC_INTERVAL =>
    case VERSION_NUMBER => case ENABLE_PORT => case DISABLE_PORT => case TIME => case CLOCK_ACCURACY =>
    case UTC_PROPERTIES => case TRACEABILITY_PROPERTIES => case TIMESCALE_PROPERTIES =>
    case UNICAST_NEGOTIATION_ENABLE => case PATH_TRACE_LIST => case PATH_TRACE_ENABLE =>
    case GRANDMASTER_CLUSTER_TABLE => case UNICAST_MASTER_TABLE => case UNICAST_MASTER_MAX_TABLE_SIZE =>
    case ACCEPTABLE_MASTER_TABLE => case ACCEPTABLE_MASTER_TABLE_ENABLED => case ACCEPTABLE_MASTER_MAX_TABLE_SIZE =>
    case ALTERNATE_MASTER => case ALTERNATE_TIME_OFFSET_ENABLE => case ALTERNATE_TIME_OFFSET_NAME =>
    case ALTERNATE_TIME_OFFSET_MAX_KEY => case ALTERNATE_TIME_OFFSET_PROPERTIES =>
    case TRANSPARENT_CLOCK_PORT_DATA_SET => case LOG_MIN_PDELAY_REQ_INTERVAL =>
    case TRANSPARENT_CLOCK_DEFAULT_DATA_SET => case PRIMARY_DOMAIN => case DELAY_MECHANISM =>
    case EXTERNAL_PORT_CONFIGURATION_ENABLED => case MASTER_ONLY => case HOLDOVER_UPGRADE_ENABLE =>
    case EXT_PORT_CONFIG_PORT_DATA_SET => case TIME_STATUS_NP => case GRANDMASTER_SETTINGS_NP =>
    case PORT_DATA_SET_NP => case SUBSCRIBE_EVENTS_NP => case PORT_PROPERTIES_NP => case PORT_STATS_NP =>
    case SYNCHRONIZATION_UNCERTAIN_NP =>
  }

  lemma {:induction false} FixedIsProper(s: Schema)
    requires IsFixed(s)
    ensures Proper(s) && NoFloat(s) && Closed(s)
  {
    match s
    case Both(a, b) =>
      FixedIsProper(a);
      FixedIsProper(b);
    case Repeat(_, rec) => FixedIsProper(rec);
    case _ =>
  }

  lemma SingleFieldFixed(id: MngId)
    ensures SingleField(id).Some? ==> IsFixed(SingleField(id).value)
  {
  }

  lemma ListLengths1()
    ensures IsFixed(DEFAULT_DATA_SET_LIST) && FixedLen(DEFAULT_DATA_SET_LIST) == 19
    ensures IsFixed(CURRENT_DATA_SET_LIST) && FixedLen(CURRENT_DATA_SET_LIST) == 18
    ensures IsFixed(PARENT_DATA_SET_LIST) && FixedLen(PARENT_DATA_SET_LIST) == 32
    ensures IsFixed(TIME_PROPERTIES_DATA_SET_LIST) && FixedLen(TIME_PROPERTIES_DATA_SET_LIST) == 4
    ensures IsFixed(PORT_DATA_SET_LIST) && FixedLen(PORT_DATA_SET_LIST) == 26
  {
    hide IsFixed, FixedLen;
    LeavesFixed();
    LeafLengths();
  }

  lemma ListLengths2()
    ensures IsFixed(TIMESTAMP) && FixedLen(TIMESTAMP) == 10
    ensures IsFixed(UTC_PROPERTIES_LIST) && FixedLen(UTC_PROPERTIES_LIST) == 3
    ensures IsFixed(TIMESCALE_PROPERTIES_LIST) && FixedLen(TIMESCALE_PROPERTIES_LIST) == 2
    ensures IsFixed(ALTERNATE_MASTER_LIST) && FixedLen(ALTERNATE_MASTER_LIST) == 3
    ensures IsFixed(ALTERNATE_TIME_OFFSET_ENABLE_LIST) && FixedLen(ALTERNATE_TIME_OFFSET_ENABLE_LIST) == 2
  {
    hide IsFixed, FixedLen;
    LeavesFixed();
    LeafLengths();
  }

  lemma ListLengths3()
    ensures IsFixed(ALTERNATE_TIME_OFFSET_PROPERTIES_LIST) && FixedLen(ALTERNATE_TIME_OFFSET_PROPERTIES_LIST) == 15
    ensures IsFixed(TRANSPARENT_CLOCK_PORT_DATA_SET_LIST) && FixedLen(TRANSPARENT_CLOCK_PORT_DATA_SET_LIST) == 20
    ensures IsFixed(TRANSPARENT_CLOCK_DEFAULT_DATA_SET_LIST) && FixedLen(TRANSPARENT_CLOCK_DEFAULT_DATA_SET_LIST) == 12
    ensures IsFixed(EXT_PORT_CONFIG_PORT_DATA_SET_LIST) && FixedLen(EXT_PORT_CONFIG_PORT_DATA_SET_LIST) == 2
    ensures IsFixed(TIME_STATUS_NP_LIST) && FixedLen(TIME_STATUS_NP_LIST) == 50
  {
    hide IsFixed, FixedLen;
    LeavesFixed();
    LeafLengths();
  }

  lemma ListLengths4()
    ensures IsFixed(GRANDMASTER_SETTINGS_NP_LIST) && FixedLen(GRANDMASTER_SETTINGS_NP_LIST) == 8
    ensures IsFixed(PORT_DATA_SET_NP_LIST) && FixedLen(PORT_DATA_SET_NP_LIST) == 8
    ensures IsFixed(SUBSCRIBE_EVENTS_NP_LIST) && FixedLen(SUBSCRIBE_EVENTS_NP_LIST) == 66
    ensures IsFixed(PORT_STATS_NP_LIST) && FixedLen(PORT_STATS_NP_LIST) == 266
  {
    hide IsFixed, FixedLen;
    LeavesFixed();
    LeafLengths();
  }

  lemma FixedListFixed(id: MngId)
    ensures FixedList(id).Some? ==> IsFixed(FixedList(id).value)
  {
    ListLengths1();
    ListLengths2();
    ListLengths3();
    ListLengths4();
    hide IsFixed, FixedLen, DEFAULT_DATA_SET_LIST, CURRENT_DATA_SET_LIST, PARENT_DATA_SET_LIST,
      TIME_PROPERTIES_DATA_SET_LIST, PORT_DATA_SET_LIST, TIMESTAMP, UTC_PROPERTIES_LIST, TIMESCALE_PROPERTIES_LIST,
      ALTERNATE_MASTER_LIST, ALTERNATE_TIME_OFFSET_ENABLE_LIST, ALTERNATE_TIME_OFFSET_PROPERTIES_LIST,
      TRANSPARENT_CLOCK_PORT_DATA_SET_LIST, TRANSPARENT_CLOCK_DEFAULT_DATA_SET_LIST,
      EXT_PORT_CONFIG_PORT_DATA_SET_LIST, TIME_STATUS_NP_LIST, GRANDMASTER_SETTINGS_NP_LIST, PORT_DATA_SET_NP_LIST,
      SUBSCRIBE_EVENTS_NP_LIST, PORT_STATS_NP_LIST;
  }

  lemma LeavesFixed()
    ensures IsFixed(UINT8) && IsFixed(UINT16) && IsFixed(UINT32) && IsFixed(UINT64)
    ensures IsFixed(INT8) && IsFixed(INT16) && IsFixed(INT32) && IsFixed(INT64)
    ensures IsFixed(Reserved) && IsFixed(Unsigned48) && IsFixed(Repeat(16, Number(Little(8))))
    ensures forall m: Octet :: IsFixed(Flags(m))
    ensures forall n: nat :: IsFixed(Fixed(n))
  {
  }

  lemma VariableListProper(id: MngId)
    ensures VariableList(id).Some? ==> Proper(VariableList(id).value) && NoFloat(VariableList(id).value)
  {
    hide NoFloat, IsFixed, FixedLen;
    VariableListNoFloat(id);
    LeavesFixed();
    LeafLengths();
    if id.CLOCK_DESCRIPTION? {
      hide Proper;
      DescriptionProper();
    }
  }

  lemma DescriptionProper()
    ensures VariableList(CLOCK_DESCRIPTION).Some?
    ensures Proper(VariableList(CLOCK_DESCRIPTION).value) && NoFloat(VariableList(CLOCK_DESCRIPTION).value)
  {
    hide Proper, Closed, NoFloat, IsFixed, FixedLen;
    var s := VariableList(CLOCK_DESCRIPTION).value;
    var t := s.first.first.first.first;
    LeavesProper();
    ProperBoth(t.first.first.first.first);
    ProperBoth(t.first.first.first);
    ProperBoth(t.first.first);
    ProperBoth(t.first);
    ProperBoth(t);
    ProperBoth(s.first.first.first);
    ProperBoth(s.first.first);
    ProperBoth(s.first);
    ProperBoth(s);
  }

  lemma LeavesProper()
    ensures Proper(UINT16) && Closed(UINT16) && Proper(TEXT) && Closed(TEXT) && Proper(Sized(2)) && Closed(Sized(2))
    ensures Proper(PORT_ADDRESS) && Closed(PORT_ADDRESS) && Proper(Reserved) && Closed(Reserved)
    ensures forall n: nat :: Proper(Fixed(n)) && Closed(Fixed(n))
    ensures NoFloat(UINT16) && NoFloat(TEXT) && NoFloat(Sized(2)) && NoFloat(PORT_ADDRESS) && NoFloat(Reserved)
    ensures forall n: nat :: NoFloat(Fixed(n))
  {
  }

  lemma ProperBoth(s: Schema)
    requires s.Both? && Proper(s.first) && Closed(s.first) && Proper(s.second) && Closed(s.second)
    requires NoFloat(s.first) && NoFloat(s.second)
    ensures Proper(s) && Closed(s) && NoFloat(s)
  {
  }

  lemma VariableListNoFloat(id: MngId)
    ensures VariableList(id).Some? ==> NoFloat(VariableList(id).value)
  {
    hide IsFixed, FixedLen;
    if id.CLOCK_DESCRIPTION? {
      hide NoFloat, Proper;
      DescriptionProper();
    }
  }

  /** The three kinds of walker are those of a positive size, of size -2 and, without a walker, of size 0. */
  lemma TableKinds(id: MngId)
    ensures RowOf(id).size > 0 <==> SingleField(id).Some? || FixedList(id).Some?
    ensures RowOf(id).size == -2 <==> VariableList(id).Some?
    ensures RowOf(id).size >= 0 || RowOf(id).size == -2
  {
    hide RowOf, SingleField, FixedList, VariableList;
    FixedKinds(id);
    PositiveSizes(id);
    VariableKinds(id);
    NegativeSizes(id);
  }

  lemma FixedKinds(id: MngId)
    ensures SingleField(id).Some? || FixedList(id).Some? ==> RowOf(id).size > 0
  {
    hide IsFixed, FixedLen;
  }

  lemma PositiveSizes(id: MngId)
    ensures RowOf(id).size > 0 ==> SingleField(id).Some? || FixedList(id).Some?
  {
    hide IsFixed, FixedLen;
  }

  lemma VariableKinds(id: MngId)
    ensures VariableList(id).Some? ==> RowOf(id).size == -2
  {
  }

  /** An ID has a walker unless its size is 0, and every walker is proper and without floating point. */
  lemma TableProper(id: MngId)
    ensures SchemaOf(id).None? <==> RowOf(id).size == 0
    ensures SchemaOf(id).Some? ==> Proper(SchemaOf(id).value) && NoFloat(SchemaOf(id).value)
    ensures SchemaOf(id).Some? && RowOf(id).size > 0 ==> IsFixed(SchemaOf(id).value)
  {
    hide SingleField, FixedList, VariableList, RowOf, IsFixed, Proper, NoFloat;
    TableKinds(id);
    SingleFieldFixed(id);
    FixedListFixed(id);
    VariableListProper(id);
    if SchemaOf(id).Some? && RowOf(id).size > 0 {
      FixedIsProper(SchemaOf(id).value);
    }
  }

  function Even(n: nat): nat { if n % 2 == 1 then n + 1 else n }

  lemma LeafLengths()
    ensures FixedLen(UINT8) == 1 && FixedLen(UINT16) == 2 && FixedLen(UINT32) == 4 && FixedLen(UINT64) == 8
    ensures FixedLen(INT8) == 1 && FixedLen(INT16) == 2 && FixedLen(INT32) == 4 && FixedLen(INT64) == 8
    ensures FixedLen(Reserved) == 1 && FixedLen(Unsigned48) == 6
    ensures FixedLen(CLOCK_IDENTITY) == 8 && FixedLen(PORT_IDENTITY) == 10 && FixedLen(CLOCK_QUALITY) == 4
    ensures FixedLen(Repeat(16, Number(Little(8)))) == 128
    ensures forall m: Octet :: FixedLen(Flags(m)) == 1
    ensures forall n: nat :: FixedLen(Fixed(n)) == n
  {
  }

  lemma FixedListLengths(id: MngId)
    requires FixedList(id).Some?
    ensures RowOf(id).size == Even(FixedLen(FixedList(id).value))
  {
    ListLengths1();
    ListLengths2();
    ListLengths3();
    ListLengths4();
    hide IsFixed, FixedLen, DEFAULT_DATA_SET_LIST, CURRENT_DATA_SET_LIST, PARENT_DATA_SET_LIST,
      TIME_PROPERTIES_DATA_SET_LIST, PORT_DATA_SET_LIST, TIMESTAMP, UTC_PROPERTIES_LIST, TIMESCALE_PROPERTIES_LIST,
      ALTERNATE_MASTER_LIST, ALTERNATE_TIME_OFFSET_ENABLE_LIST, ALTERNATE_TIME_OFFSET_PROPERTIES_LIST,
      TRANSPARENT_CLOCK_PORT_DATA_SET_LIST, TRANSPARENT_CLOCK_DEFAULT_DATA_SET_LIST,
      EXT_PORT_CONFIG_PORT_DATA_SET_LIST, TIME_STATUS_NP_LIST, GRANDMASTER_SETTINGS_NP_LIST, PORT_DATA_SET_NP_LIST,
      SUBSCRIBE_EVENTS_NP_LIST, PORT_STATS_NP_LIST;
  }

  lemma SingleFieldLengths(id: MngId)
    requires SingleField(id).Some?
    ensures RowOf(id).size == Even(FixedLen(SingleField(id).value))
  {
  }

  /** The table's size is the number of octets the walker moves, made even. */
  lemma TableLengths(id: MngId)
    requires RowOf(id).size > 0
    ensures SchemaOf(id).Some? && RowOf(id).size == Even(FixedLen(SchemaOf(id).value))
  {
    hide FixedLen, FixedList, SingleField, VariableList, RowOf;
    TableKinds(id);
    if SingleField(id).Some? {
      SingleFieldLengths(id);
    } else {
      FixedListLengths(id);
    }
  }

  // ---------------------------------------------------------------- the size functions

  function TextSize(v: Value): nat {
    match v case Blob(_, text) => 1 + |text| case _ => 0
  }

  function AddressSize(v: Value): nat {
    match v case Pair(_, Blob(_, address)) => 4 + |address| case _ => 0
  }

  function FaultRecordSize(v: Value): nat {
    match v
    case Pair(Pair(Pair(_, name), value), description) =>
      3 + 10 + TextSize(name) + TextSize(value) + TextSize(description)
    case _ => 0
  }

  function FaultRecordSizes(items: seq<Value>): nat {
    if items == [] then 0 else FaultRecordSize(items[0]) + FaultRecordSizes(items[1..])
  }

  function AddressSizes(items: seq<Value>): nat {
    if items == [] then 0 else AddressSize(items[0]) + AddressSizes(items[1..])
  }

  /** The functions n##_s of the IDs whose size is -2; 0 for a structure of another ID. */
  function CalculatedSize(id: MngId, v: Value): nat {
    match (id, v)
    case (CLOCK_DESCRIPTION, Pair(Pair(Pair(Pair(Pair(Pair(Pair(Pair(Pair(_,
            layer), Blob(_, physical)), protocol), _), _), product), revision), user), _)) =>
      13 + |physical| + AddressSize(protocol) + TextSize(layer) + TextSize(product) + TextSize(revision)
      + TextSize(user)
    case (USER_DESCRIPTION, user) => TextSize(user)
    case (FAULT_LOG, Counted(_, records)) => 2 + FaultRecordSizes(records)
    case (PATH_TRACE_LIST, Items(path)) => 8 * |path|
    case (GRANDMASTER_CLUSTER_TABLE, Pair(_, Counted(_, addresses))) => 2 + AddressSizes(addresses)
    case (UNICAST_MASTER_TABLE, Pair(_, Counted(_, addresses))) => 3 + AddressSizes(addresses)
    case (ACCEPTABLE_MASTER_TABLE, Counted(_, masters)) => 2 + 11 * |masters|
    case (ALTERNATE_TIME_OFFSET_NAME, Pair(_, name)) => 1 + TextSize(name)
    case (PORT_PROPERTIES_NP, Pair(_, name)) => 2 + 10 + TextSize(name)
    case _ => 0
  }

  lemma {:induction false} FixedEmits(s: Schema, v: Value)
    requires IsFixed(s) && Typed(s, v)
    ensures |Emit(s, v)| == FixedLen(s)
    decreases s, 0
  {
    match s
    case Both(a, b) =>
      FixedEmits(a, v.first);
      FixedEmits(b, v.second);
    case Repeat(_, rec) => FixedEmitsAll(rec, v.items);
    case _ =>
  }

  lemma {:induction false} FixedEmitsAll(rec: Schema, items: seq<Value>)
    requires IsFixed(rec) && AllTyped(rec, items)
    ensures |EmitAll(rec, items)| == |items| * FixedLen(rec)
    decreases rec, 1 + |items|
  {
    hide Emit, FixedLen, IsFixed, Typed;
    if items == [] {
      assert 0 * FixedLen(rec) == 0;
    } else {
      FixedEmits(rec, items[0]);
      FixedEmitsAll(rec, items[1..]);
      OneMore(FixedLen(rec), |items| - 1);
    }
  }

  /** A structure of two parts is written part by part. */
  lemma Parts(s: Schema, v: Value)
    requires s.Both? && Typed(s, v)
    ensures v.Pair? && Typed(s.first, v.first) && Typed(s.second, v.second)
    ensures Emit(s, v) == Emit(s.first, v.first) + Emit(s.second, v.second)
  {
  }

  lemma SizedEmits(w: nat, v: Value)
    requires Typed(Sized(w), v)
    ensures v.Blob? && |Emit(Sized(w), v)| == w + |v.s|
  {
  }

  lemma TextEmits(v: Value)
    requires Typed(TEXT, v)
    ensures |Emit(TEXT, v)| == TextSize(v)
  {
  }

  lemma AddressEmits(v: Value)
    requires Typed(PORT_ADDRESS, v)
    ensures v.Pair? && v.second.Blob? && |Emit(PORT_ADDRESS, v)| == AddressSize(v)
  {
    hide Typed, Emit;
    Parts(PORT_ADDRESS, v);
    FixedEmits(UINT16, v.first);
    SizedEmits(2, v.second);
  }

  lemma {:induction false} AddressesEmit(items: seq<Value>)
    requires AllTyped(PORT_ADDRESS, items)
    ensures |EmitAll(PORT_ADDRESS, items)| == AddressSizes(items)
  {
    hide Typed, Emit;
    if items != [] {
      AddressEmits(items[0]);
      AddressesEmit(items[1..]);
    }
  }

  lemma FaultRecordEmits(v: Value)
    requires Typed(FAULT_RECORD, v)
    ensures |Emit(FAULT_RECORD, v)| == FaultRecordSize(v)
  {
    hide Typed, Emit;
    var s := FAULT_RECORD;
    Parts(s, v);
    Parts(s.first, v.first);
    Parts(s.first.first, v.first.first);
    SizedEmits(1, v.second);
    SizedEmits(1, v.first.second);
    SizedEmits(1, v.first.first.second);
    FixedEmits(s.first.first.first, v.first.first.first);
  }

  /** An accepted fault record has consumed exactly as many octets as its faultRecordLength declares. */
  lemma FaultRecordConsumes(b: seq<Octet>, at: nat)
    requires at <= |b|
    ensures Proper(Checked(FAULT_RECORD))
    ensures var r := Decode(Checked(FAULT_RECORD), b, at);
            r.Decoded? ==> at + 2 <= r.at <= |b| && r.at - at == FromBigEndian(b[at..at + 2])
  {
    FaultRecordProper();
    hide Proper, NoFloat, Decode, Emit, Normalize, Typed, WellFormed;
    var r, s := Decode(Checked(FAULT_RECORD), b, at), FAULT_RECORD;
    DecodeSound(Checked(s), b, at);
    if r.Decoded? {
      CheckedDecodes(s, b, at);
      FaultRecordEmits(r.v);
      DeclaredLength(r.v);
      FaultRecordHead(r.v);
      assert b[at..r.at][..2] == b[at..at + 2];
    }
  }

  /** A fault record with texts of less than 256 octets is accepted exactly when it declares its own length. */
  lemma FaultRecordAccepted(v: Value, pre: seq<Octet>, post: seq<Octet>)
    requires Typed(FAULT_RECORD, v) && WellFormed(FAULT_RECORD, v)
    ensures Proper(Checked(FAULT_RECORD))
    ensures Decode(Checked(FAULT_RECORD), pre + Emit(FAULT_RECORD, v) + post, |pre|).Decoded?
            <==> FaultRecordLength(v) == |Emit(FAULT_RECORD, v)|
  {
    var s := FAULT_RECORD;
    FaultRecordProper();
    hide Proper, NoFloat, Plain, Typed, WellFormed, Normalize, Emit, FaultLengthOk, Decode, Closed, Tolerates;
    FaultRecordTolerates(|post|);
    RoundTrip(s, v, pre, post);
    CheckedUnfolds(pre + Emit(s, v) + post, |pre|);
    NormalizeStable(s, v);
    NormalizeKeepsWellFormed(s, v);
    FaultRecordEmits(v);
    NormalizeFaultRecord(v);
    FaultLengths(Normalize(s, v));
  }

  lemma FaultRecordTolerates(n: nat)
    ensures Tolerates(FAULT_RECORD, n)
  {
  }

  lemma CheckedUnfolds(b: seq<Octet>, at: nat)
    requires Proper(Checked(FAULT_RECORD)) && Proper(FAULT_RECORD)
    ensures Decode(Checked(FAULT_RECORD), b, at)
         == var x := Decode(FAULT_RECORD, b, at);
            if x.Failed? || FaultLengthOk(x.v) then x else Failed(SIZE_MISS)
  {
    hide FaultLengthOk;
  }

  lemma NormalizeFaultRecord(v: Value)
    requires Typed(FAULT_RECORD, v)
    ensures Typed(FAULT_RECORD, Normalize(FAULT_RECORD, v))
    ensures FaultRecordLength(Normalize(FAULT_RECORD, v)) == FaultRecordLength(v)
    ensures FaultRecordSize(Normalize(FAULT_RECORD, v)) == FaultRecordSize(v)
  {
    hide Normalize, Typed, TextSize;
    NormalizeStable(FAULT_RECORD, v);
    NormalParts(FAULT_RECORD, v);
    NormalTextSize(v.second);
    var s1, v1 := FAULT_RECORD.first, v.first;
    NormalParts(s1, v1);
    NormalTextSize(v1.second);
    var s2, v2 := s1.first, v1.first;
    NormalParts(s2, v2);
    NormalTextSize(v2.second);
    NormalHead(s2.first, v2.first);
  }

  lemma NormalParts(s: Schema, v: Value)
    requires s.Both? && Typed(s, v)
    ensures v.Pair? && Typed(s.first, v.first) && Typed(s.second, v.second)
    ensures Normalize(s, v) == Pair(Normalize(s.first, v.first), Normalize(s.second, v.second))
  {
  }

  lemma NormalHead(s: Schema, v: Value)
    requires s == FAULT_RECORD.first.first.first && Typed(s, v)
    ensures v.Pair? && v.first.Pair?
    ensures var n := Normalize(s, v); n.Pair? && n.first.Pair? && n.first.first == v.first.first
  {
    hide Normalize, Typed;
    NormalParts(s, v);
    NormalParts(s.first, v.first);
    NormalNumber(v.first.first);
  }

  lemma NormalTextSize(v: Value)
    requires Typed(TEXT, v)
    ensures TextSize(Normalize(TEXT, v)) == TextSize(v)
  {
  }

  lemma NormalNumber(v: Value)
    requires Typed(UINT16, v)
    ensures v.Int? && Normalize(UINT16, v) == v
  {
  }

  /** The check of a normalised record compares its declared length with its size. */
  lemma FaultLengths(v: Value)
    requires Typed(FAULT_RECORD, v) && WellFormed(FAULT_RECORD, v) && Normalize(FAULT_RECORD, v) == v
    ensures FaultLengthOk(v) <==> FaultRecordLength(v) == FaultRecordSize(v)
  {
    hide Typed, WellFormed, Normalize;
    var s := FAULT_RECORD;
    FixedParts(s, v);
    FixedParts(s.first, v.first);
    FixedParts(s.first.first, v.first.first);
    FixedText(v.second);
    FixedText(v.first.second);
    FixedText(v.first.first.second);
    FaultHead(v.first.first.first);
  }

  lemma FaultHead(v: Value)
    requires Typed(FAULT_RECORD.first.first.first, v)
    ensures v.Pair? && v.first.Pair? && v.first.first.Int?
  {
    hide Typed, Emit;
    var s := FAULT_RECORD.first.first.first;
    Parts(s, v);
    Parts(s.first, v.first);
    HeadNumber(v.first.first);
  }

  lemma FaultRecordProper()
    ensures Proper(Checked(FAULT_RECORD)) && NoFloat(Checked(FAULT_RECORD)) && Plain(FAULT_RECORD)
  {
  }

  lemma CheckedDecodes(s: Schema, b: seq<Octet>, at: nat)
    requires Proper(Checked(s)) && Decode(Checked(s), b, at).Decoded?
    requires var r := Decode(Checked(s), b, at); Faithful(Checked(s), b, at, r.v, r.at)
    ensures var r := Decode(Checked(s), b, at); Faithful(s, b, at, r.v, r.at) && FaultLengthOk(r.v)
  {
  }

  function FaultRecordLength(v: Value): int {
    match v
    case Pair(Pair(Pair(Pair(Pair(Int(declared), _), _), _), _), _) => declared
    case _ => 0
  }

  lemma DeclaredLength(v: Value)
    requires Typed(FAULT_RECORD, v) && WellFormed(FAULT_RECORD, v)
    requires Normalize(FAULT_RECORD, v) == v && FaultLengthOk(v)
    ensures FaultRecordLength(v) == FaultRecordSize(v)
  {
    hide Typed, WellFormed, Normalize;
    var s := FAULT_RECORD;
    FixedParts(s, v);
    FixedParts(s.first, v.first);
    FixedParts(s.first.first, v.first.first);
    FixedText(v.second);
    FixedText(v.first.second);
    FixedText(v.first.first.second);
  }

  lemma FixedParts(s: Schema, v: Value)
    requires s.Both? && Typed(s, v) && WellFormed(s, v) && Normalize(s, v) == v
    ensures v.Pair? && Typed(s.first, v.first) && WellFormed(s.first, v.first) && Normalize(s.first, v.first) == v.first
    ensures Typed(s.second, v.second) && WellFormed(s.second, v.second) && Normalize(s.second, v.second) == v.second
  {
  }

  lemma FixedText(v: Value)
    requires Typed(TEXT, v) && WellFormed(TEXT, v) && Normalize(TEXT, v) == v
    ensures v.Blob? && v.len == |v.s|
  {
    WrapSmall(Unsigned(1), |v.s|);
  }

  lemma FaultRecordHead(v: Value)
    requires Typed(FAULT_RECORD, v)
    ensures |Emit(FAULT_RECORD, v)| >= 2 && FromBigEndian(Emit(FAULT_RECORD, v)[..2]) == FaultRecordLength(v)
  {
    hide Emit, Typed;
    Parts(FAULT_RECORD, v);
    var s1, v1 := FAULT_RECORD.first, v.first;
    Parts(s1, v1);
    var s2, v2 := s1.first, v1.first;
    Parts(s2, v2);
    var s3, v3 := s2.first, v2.first;
    Parts(s3, v3);
    var s4, v4 := s3.first, v3.first;
    Parts(s4, v4);
    HeadNumber(v4.first);
    assert Emit(s4, v4)[..2] == Emit(UINT16, v4.first);
    assert Emit(s3, v3)[..2] == Emit(s4, v4)[..2];
    assert Emit(s2, v2)[..2] == Emit(s3, v3)[..2];
    assert Emit(s1, v1)[..2] == Emit(s2, v2)[..2];
  }

  lemma HeadNumber(v: Value)
    requires Typed(UINT16, v)
    ensures v.Int? && |Emit(UINT16, v)| == 2 && FromBigEndian(Emit(UINT16, v)) == v.n
  {
    BigEndianRoundTrip(2, v.n);
  }

  lemma {:induction false} FaultRecordsEmit(items: seq<Value>)
    requires AllTyped(Checked(FAULT_RECORD), items)
    ensures |EmitAll(Checked(FAULT_RECORD), items)| == FaultRecordSizes(items)
  {
    if items != [] {
      FaultRecordEmits(items[0]);
      FaultRecordsEmit(items[1..]);
    }
  }

  lemma ClockDescriptionEmits(s: Schema, v: Value)
    requires Some(s) == VariableList(CLOCK_DESCRIPTION) && Typed(s, v)
    ensures |Emit(s, v)| == CalculatedSize(CLOCK_DESCRIPTION, v) + 1
  {
    hide Typed, Emit, IsFixed, FixedLen;
    LeavesFixed();
    LeafLengths();
    Parts(s, v);
    FixedEmits(s.second, v.second);
    var s1, v1 := s.first, v.first;
    Parts(s1, v1);
    SizedEmits(1, v1.second);
    var s2, v2 := s1.first, v1.first;
    Parts(s2, v2);
    SizedEmits(1, v2.second);
    var s3, v3 := s2.first, v2.first;
    Parts(s3, v3);
    SizedEmits(1, v3.second);
    var s4, v4 := s3.first, v3.first;
    Parts(s4, v4);
    FixedEmits(s4.second, v4.second);
    var s5, v5 := s4.first, v4.first;
    Parts(s5, v5);
    FixedEmits(s5.second, v5.second);
    var s6, v6 := s5.first, v5.first;
    Parts(s6, v6);
    AddressEmits(v6.second);
    var s7, v7 := s6.first, v6.first;
    Parts(s7, v7);
    SizedEmits(2, v7.second);
    var s8, v8 := s7.first, v7.first;
    Parts(s8, v8);
    SizedEmits(1, v8.second);
    FixedEmits(s8.first, v8.first);
  }

  lemma TableEmits(s: Schema, v: Value)
    requires s.Table? && Typed(s, v)
    ensures v.Counted? && AllTyped(s.rec, v.items) && |Emit(s, v)| == s.c.w + |EmitAll(s.rec, v.items)|
  {
  }

  lemma ManyEmits(s: Schema, v: Value)
    requires s.Many? && Typed(s, v)
    ensures v.Items? && AllTyped(s.rec, v.items) && |Emit(s, v)| == |EmitAll(s.rec, v.items)|
  {
  }

  lemma AddressTableEmits(s: Schema, v: Value)
    requires s.Both? && s.first == INT8 && s.second.Table? && s.second.rec == PORT_ADDRESS && Typed(s, v)
    ensures v.Pair? && v.second.Counted? && |Emit(s, v)| == 1 + s.second.c.w + AddressSizes(v.second.items)
  {
    hide Typed, Emit, EmitAll, AllTyped, AddressSizes;
    Parts(s, v);
    FixedEmits(s.first, v.first);
    TableEmits(s.second, v.second);
    AddressesEmit(v.second.items);
  }

  /** A size function tells what its walker writes, except that CLOCK_DESCRIPTION's is one octet short. */
  lemma CalculatedSizes(id: MngId, s: Schema, v: Value)
    requires VariableList(id) == Some(s) && Typed(s, v)
    ensures |Emit(s, v)| == CalculatedSize(id, v) + if id.CLOCK_DESCRIPTION? then 1 else 0
  {
    hide Typed, Emit, CalculatedSize, VariableList;
    if id.CLOCK_DESCRIPTION? {
      ClockDescriptionEmits(s, v);
    } else {
      OtherSizes(id, s, v);
    }
  }

  lemma OtherSizes(id: MngId, s: Schema, v: Value)
    requires VariableList(id) == Some(s) && !id.CLOCK_DESCRIPTION? && Typed(s, v)
    ensures |Emit(s, v)| == CalculatedSize(id, v)
  {
    hide Typed, Emit, EmitAll, AllTyped, AddressSizes, FaultRecordSizes, IsFixed, FixedLen, CLOCK_DESCRIPTION_LIST,
      TextSize, FAULT_RECORD;
    LeavesFixed();
    LeafLengths();
    match id
    case USER_DESCRIPTION => TextEmits(v);
    case FAULT_LOG =>
      TableEmits(s, v);
      FaultRecordsEmit(v.items);
    case PATH_TRACE_LIST =>
      ManyEmits(s, v);
      FixedEmitsAll(CLOCK_IDENTITY, v.items);
    case GRANDMASTER_CLUSTER_TABLE => AddressTableEmits(s, v);
    case UNICAST_MASTER_TABLE => AddressTableEmits(s, v);
    case ACCEPTABLE_MASTER_TABLE =>
      TableEmits(s, v);
      FixedEmitsAll(ACCEPTABLE_MASTER, v.items);
    case ALTERNATE_TIME_OFFSET_NAME => TextBehindEmits(s, v);
    case PORT_PROPERTIES_NP => TextBehindEmits(s, v);
  }

  lemma TextBehindEmits(s: Schema, v: Value)
    requires s.Both? && IsFixed(s.first) && s.second == TEXT && Typed(s, v)
    ensures v.Pair? && |Emit(s, v)| == FixedLen(s.first) + TextSize(v.second)
  {
    hide Typed, Emit, IsFixed, FixedLen;
    Parts(s, v);
    FixedEmits(s.first, v.first);
    SizedEmits(1, v.second);
  }

  // ---------------------------------------------------------------- all lengths agree

  /** A structure just constructed, with empty texts and lists. */
  function EmptyValue(s: Schema): Value {
    match s
    case Reserved => Void
    case Fixed(n) => Octs(seq(n, _ => 0))
    case Sized(_) => Blob(0, [])
    case Remaining => Octs([])
    case Both(a, b) => Pair(EmptyValue(a), EmptyValue(b))
    case Repeat(n, rec) => Items(seq(n, _ => EmptyValue(rec)))
    case Table(_, _, _) => Counted(0, [])
    case Many(_, _) => Items([])
    case Checked(rec) => EmptyValue(rec)
    case _ => Int(0)
  }

  lemma {:induction false} EmptyIsTyped(s: Schema)
    ensures Typed(s, EmptyValue(s))
  {
    match s
    case Both(a, b) =>
      EmptyIsTyped(a);
      EmptyIsTyped(b);
    case Repeat(n, rec) => EmptyIsTyped(rec);
    case Checked(rec) => EmptyIsTyped(rec);
    case _ =>
  }

  /** The dataField octets that getMsgPlanedLen and build expect for a structure (dataFieldSize and the table),
      before they are made even; a null pointer stands for an empty structure. */
  function ExpectedSize(id: MngId, data: Option<Value>): (n: nat)
    ensures RowOf(id).size >= 0 ==> n == RowOf(id).size
  {
    TableKinds(id);
    if RowOf(id).size != -2 then RowOf(id).size
    else CalculatedSize(id, if data.Some? then data.value else EmptyValue(VariableList(id).value))
  }

  /** For every ID and every structure of it, the expected size made even is what the walker writes made even;
      for CLOCK_DESCRIPTION, which can only be read, this is so exactly when the walker writes an even number. */
  lemma SizeAgreement(id: MngId, s: Schema, v: Value)
    requires SchemaOf(id) == Some(s) && Typed(s, v)
    ensures !id.CLOCK_DESCRIPTION? ==> Even(ExpectedSize(id, Some(v))) == Even(|Emit(s, v)|)
    ensures id.CLOCK_DESCRIPTION? ==>
              (Even(ExpectedSize(id, Some(v))) == Even(|Emit(s, v)|) <==> |Emit(s, v)| % 2 == 0)
  {
    hide Typed, Emit, IsFixed, FixedLen, CalculatedSize, RowOf, SingleField, FixedList, VariableList;
    TableKinds(id);
    TableProper(id);
    if RowOf(id).size == -2 {
      assert VariableList(id) == Some(s) by { VariableOnly(id); }
      CalculatedSizes(id, s, v);
    } else {
      TableLengths(id);
      FixedEmits(s, v);
    }
    assert RowOf(CLOCK_DESCRIPTION).size == -2 by { DescriptionIsVariable(); }
  }

  lemma DescriptionIsVariable()
    ensures RowOf(CLOCK_DESCRIPTION).size == -2
  {
  }

  lemma VariableOnly(id: MngId)
    requires RowOf(id).size == -2
    ensures SchemaOf(id) == VariableList(id)
  {
    hide RowOf, SingleField, FixedList, VariableList;
    TableKinds(id);
  }
}
