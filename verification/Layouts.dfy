/** Where every field of every TLV stands: a table of octet offsets written down field by field, against which the
    walkers are proved in both directions (sections 5.3, 13.12, 15.5.3 and 16 of IEEE Std 1588-2008). */
module Layouts {
  import opened Octets
  import opened Schema
  import opened Walkers
  import opened Decoding
  import opened Ids
  import opened Sizes
  import opened Signaling

  /** What stands at a place. */
  datatype Kind =
    | Uint(w: nat)                                  // an unsigned number of w octets
    | Sint(w: nat)                                  // a number of w octets in two's complement
    | Bits(mask: Octet)                             // flags
    | Zero                                          // a reserved octet
    | Raw(n: nat)                                   // n octets
    | Text(w: nat)                                  // a length of w octets and as many octets
    | Counters(n: nat)                              // n numbers of 8 octets, the least significant octet first
    | Rest                                          // all octets to the end
    | Double                                        // a binary64 word, read once and passed over twice
    | List(count: Kind, counted: bool, rec: Schema) // a count and that many records
    | Endless(rec: Schema)                          // records to the end

  /** The fields of the TLV structures, by the names of the source. */
  datatype Name =
    | clockIdentity | portNumber | clockType | physicalLayerProtocol | physicalAddress
    | protocolAddress_networkProtocol | protocolAddress_addressField | manufacturerIdentity | reserved
    | productDescription | revisionData | userDescription | profileIdentity | flags | numberPorts | priority1
    | clockClass | clockAccuracy | offsetScaledLogVariance | priority2 | domainNumber | stepsRemoved
    | offsetFromMaster | meanPathDelay | parentPortIdentity_clockIdentity | parentPortIdentity_portNumber
    | observedParentOffsetScaledLogVariance | observedParentClockPhaseChangeRate | grandmasterPriority1
    | grandmasterPriority2 | grandmasterIdentity | currentUtcOffset | timeSource | portIdentity_clockIdentity
    | portIdentity_portNumber | portState | logMinDelayReqInterval | peerMeanPathDelay | logAnnounceInterval
    | announceReceiptTimeout | logSyncInterval | delayMechanism | logMinPdelayReqInterval | versionNumber
    | secondsField | nanosecondsField | logQueryInterval | PortAddress | logAlternateMulticastSyncInterval
    | numberOfAlternateMasters | keyField | displayName | currentOffset | jumpSeconds | timeOfNextJump | primaryDomain
    | desiredState | master_offset | ingress_time | cumulativeScaledRateOffset | scaledLastGmPhaseChange
    | gmTimeBaseIndicator | nanoseconds_msb | nanoseconds_lsb | fractional_nanoseconds | gmPresent | gmIdentity
    | neighborPropDelayThresh | asCapable | duration | bitmask | timestamping | interface | rxMsgType | txMsgType
    | networkProtocol | addressField | faultRecordLength | faultTime_secondsField | faultTime_nanosecondsField
    | severityCode | faultName | faultValue | faultDescription | acceptablePortIdentity_clockIdentity
    | acceptablePortIdentity_portNumber | alternatePriority1 | sequenceId | syncOriginTimestamp_secondsField
    | syncOriginTimestamp_nanosecondsField | totalCorrectionField | scaledCumulativeRateOffset
    | syncEventIngressTimestamp_secondsField | syncEventIngressTimestamp_nanosecondsField | scaledNeighborRateRatio
    | eventEgressTimestamp_secondsField | eventEgressTimestamp_nanosecondsField | delayOriginTimestamp_secondsField
    | delayOriginTimestamp_nanosecondsField | delayResponseTimestamp_secondsField
    | delayResponseTimestamp_nanosecondsField | bcHopCount | tcHopCount | maxGmInaccuracy | varGmInaccuracy
    | maxTransientInaccuracy | varTransientInaccuracy | maxDynamicInaccuracy | varDynamicInaccuracy
    | maxStaticInstanceInaccuracy | varStaticInstanceInaccuracy | maxStaticMediumInaccuracy
    | varStaticMediumInaccuracy | organizationId | organizationSubType | dataField | pathSequence | flags1 | flags2
    | syncMessageAvailability | delayRespMessageAvailability | list | computedFlags | eventMessageType
    | scaledCumulativeRateRatio | initializationKey | faultRecords | maxTableSize | maxKey | val

  /** `at` counts the octets before the field without the content of texts and addresses. */
  datatype Field = Field(name: Name, at: nat, kind: Kind)

  // ---------------------------------------------------------------- the table of the management IDs

  const CLOCK_DESCRIPTION_FIELDS :=
    [Field(clockType, 0, Uint(2)), Field(physicalLayerProtocol, 2, Text(1)), Field(physicalAddress, 3, Text(2)),
     Field(protocolAddress_networkProtocol, 5, Uint(2)), Field(protocolAddress_addressField, 7, Text(2)),
     Field(manufacturerIdentity, 9, Raw(3)), Field(reserved, 12, Zero), Field(productDescription, 13, Text(1)),
     Field(revisionData, 14, Text(1)), Field(userDescription, 15, Text(1)), Field(profileIdentity, 16, Raw(6))]
  const DEFAULT_DATA_SET_FIELDS :=
    [Field(flags, 0, Bits(0x3)), Field(reserved, 1, Zero), Field(numberPorts, 2, Uint(2)),
     Field(priority1, 4, Uint(1)), Field(clockClass, 5, Uint(1)), Field(clockAccuracy, 6, Uint(1)),
     Field(offsetScaledLogVariance, 7, Uint(2)), Field(priority2, 9, Uint(1)), Field(clockIdentity, 10, Raw(8)),
     Field(domainNumber, 18, Uint(1))]
  const CURRENT_DATA_SET_FIELDS :=
    [Field(stepsRemoved, 0, Uint(2)), Field(offsetFromMaster, 2, Sint(8)), Field(meanPathDelay, 10, Sint(8))]
  const PARENT_DATA_SET_FIELDS :=
    [Field(parentPortIdentity_clockIdentity, 0, Raw(8)), Field(parentPortIdentity_portNumber, 8, Uint(2)),
     Field(flags, 10, Bits(0x1)), Field(reserved, 11, Zero),
     Field(observedParentOffsetScaledLogVariance, 12, Uint(2)),
     Field(observedParentClockPhaseChangeRate, 14, Sint(4)), Field(grandmasterPriority1, 18, Uint(1)),
     Field(clockClass, 19, Uint(1)), Field(clockAccuracy, 20, Uint(1)), Field(offsetScaledLogVariance, 21, Uint(2)),
     Field(grandmasterPriority2, 23, Uint(1)), Field(grandmasterIdentity, 24, Raw(8))]
  const TIME_PROPERTIES_DATA_SET_FIELDS :=
    [Field(currentUtcOffset, 0, Sint(2)), Field(flags, 2, Bits(0x3f)), Field(timeSource, 3, Uint(1))]
  const PORT_DATA_SET_FIELDS :=
    [Field(portIdentity_clockIdentity, 0, Raw(8)), Field(portIdentity_portNumber, 8, Uint(2)),
     Field(portState, 10, Uint(1)), Field(logMinDelayReqInterval, 11, Sint(1)),
     Field(peerMeanPathDelay, 12, Sint(8)), Field(logAnnounceInterval, 20, Sint(1)),
     Field(announceReceiptTimeout, 21, Uint(1)), Field(logSyncInterval, 22, Sint(1)),
     Field(delayMechanism, 23, Uint(1)), Field(logMinPdelayReqInterval, 24, Sint(1)),
     Field(versionNumber, 25, Uint(1))]
  const TIME_FIELDS := [Field(secondsField, 0, Uint(6)), Field(nanosecondsField, 6, Uint(4))]
  const UTC_PROPERTIES_FIELDS := [Field(currentUtcOffset, 0, Sint(2)), Field(flags, 2, Bits(0x7))]
  const TIMESCALE_PROPERTIES_FIELDS := [Field(flags, 0, Bits(0x8)), Field(timeSource, 1, Uint(1))]
  const GRANDMASTER_CLUSTER_TABLE_FIELDS :=
    [Field(logQueryInterval, 0, Sint(1)), Field(PortAddress, 1, List(Uint(1), true, PORT_ADDRESS))]
  const UNICAST_MASTER_TABLE_FIELDS :=
    [Field(logQueryInterval, 0, Sint(1)), Field(PortAddress, 1, List(Uint(2), true, PORT_ADDRESS))]
  const ALTERNATE_MASTER_FIELDS :=
    [Field(flags, 0, Bits(0x1)), Field(logAlternateMulticastSyncInterval, 1, Sint(1)),
     Field(numberOfAlternateMasters, 2, Uint(1))]
  const ALTERNATE_TIME_OFFSET_ENABLE_FIELDS := [Field(keyField, 0, Uint(1)), Field(flags, 1, Bits(0x1))]
  const ALTERNATE_TIME_OFFSET_NAME_FIELDS := [Field(keyField, 0, Uint(1)), Field(displayName, 1, Text(1))]
  const ALTERNATE_TIME_OFFSET_PROPERTIES_FIELDS :=
    [Field(keyField, 0, Uint(1)), Field(currentOffset, 1, Sint(4)), Field(jumpSeconds, 5, Sint(4)),
     Field(timeOfNextJump, 9, Uint(6))]
  const TRANSPARENT_CLOCK_PORT_DATA_SET_FIELDS :=
    [Field(portIdentity_clockIdentity, 0, Raw(8)), Field(portIdentity_portNumber, 8, Uint(2)),
     Field(flags, 10, Bits(0x1)), Field(logMinPdelayReqInterval, 11, Sint(1)), Field(peerMeanPathDelay, 12, Sint(8))]
  const TRANSPARENT_CLOCK_DEFAULT_DATA_SET_FIELDS :=
    [Field(clockIdentity, 0, Raw(8)), Field(numberPorts, 8, Uint(2)), Field(delayMechanism, 10, Uint(1)),
     Field(primaryDomain, 11, Uint(1))]
  const EXT_PORT_CONFIG_PORT_DATA_SET_FIELDS := [Field(flags, 0, Bits(0x1)), Field(desiredState, 1, Uint(1))]
  const TIME_STATUS_NP_FIELDS :=
    [Field(master_offset, 0, Sint(8)), Field(ingress_time, 8, Sint(8)),
     Field(cumulativeScaledRateOffset, 16, Sint(4)), Field(scaledLastGmPhaseChange, 20, Sint(4)),
     Field(gmTimeBaseIndicator, 24, Uint(2)), Field(nanoseconds_msb, 26, Uint(2)),
     Field(nanoseconds_lsb, 28, Uint(8)), Field(fractional_nanoseconds, 36, Uint(2)), Field(gmPresent, 38, Sint(4)),
     Field(gmIdentity, 42, Raw(8))]
  const GRANDMASTER_SETTINGS_NP_FIELDS :=
    [Field(clockClass, 0, Uint(1)), Field(clockAccuracy, 1, Uint(1)), Field(offsetScaledLogVariance, 2, Uint(2)),
     Field(currentUtcOffset, 4, Sint(2)), Field(flags, 6, Bits(0x3f)), Field(timeSource, 7, Uint(1))]
  const PORT_DATA_SET_NP_FIELDS := [Field(neighborPropDelayThresh, 0, Uint(4)), Field(asCapable, 4, Sint(4))]
  const SUBSCRIBE_EVENTS_NP_FIELDS := [Field(duration, 0, Uint(2)), Field(bitmask, 2, Raw(64))]
  const PORT_PROPERTIES_NP_FIELDS :=
    [Field(portIdentity_clockIdentity, 0, Raw(8)), Field(portIdentity_portNumber, 8, Uint(2)),
     Field(portState, 10, Uint(1)), Field(timestamping, 11, Uint(1)), Field(interface, 12, Text(1))]
  const PORT_STATS_NP_FIELDS :=
    [Field(portIdentity_clockIdentity, 0, Raw(8)), Field(portIdentity_portNumber, 8, Uint(2)),
     Field(rxMsgType, 10, Counters(16)), Field(txMsgType, 138, Counters(16))]

  /** The fields of each ID; none for the commands without a dataField and NULL_PTP_MANAGEMENT. */
  function Layout(id: MngId): seq<Field> {
    if FixedFields(id) != [] then FixedFields(id)
    else if OneField(id) != [] then OneField(id)
    else VariableFields(id)
  }

  /** The IDs with several fields of a fixed length. */
  function FixedFields(id: MngId): seq<Field> {
    match id
    case DEFAULT_DATA_SET => DEFAULT_DATA_SET_FIELDS
    case CURRENT_DATA_SET => CURRENT_DATA_SET_FIELDS
    case PARENT_DATA_SET => PARENT_DATA_SET_FIELDS
    case TIME_PROPERTIES_DATA_SET => TIME_PROPERTIES_DATA_SET_FIELDS
    case PORT_DATA_SET => PORT_DATA_SET_FIELDS
    case TIME => TIME_FIELDS
    case UTC_PROPERTIES => UTC_PROPERTIES_FIELDS
    case TIMESCALE_PROPERTIES => TIMESCALE_PROPERTIES_FIELDS
    case ALTERNATE_MASTER => ALTERNATE_MASTER_FIELDS
    case ALTERNATE_TIME_OFFSET_ENABLE => ALTERNATE_TIME_OFFSET_ENABLE_FIELDS
    case ALTERNATE_TIME_OFFSET_PROPERTIES => ALTERNATE_TIME_OFFSET_PROPERTIES_FIELDS
    case TRANSPARENT_CLOCK_PORT_DATA_SET => TRANSPARENT_CLOCK_PORT_DATA_SET_FIELDS
    case TRANSPARENT_CLOCK_DEFAULT_DATA_SET => TRANSPARENT_CLOCK_DEFAULT_DATA_SET_FIELDS
    case EXT_PORT_CONFIG_PORT_DATA_SET => EXT_PORT_CONFIG_PORT_DATA_SET_FIELDS
    case TIME_STATUS_NP => TIME_STATUS_NP_FIELDS
    case GRANDMASTER_SETTINGS_NP => GRANDMASTER_SETTINGS_NP_FIELDS
    case PORT_DATA_SET_NP => PORT_DATA_SET_NP_FIELDS
    case SUBSCRIBE_EVENTS_NP => SUBSCRIBE_EVENTS_NP_FIELDS
    case PORT_STATS_NP => PORT_STATS_NP_FIELDS
    case _ => []
  }

  /** The IDs with one field. */
  function OneField(id: MngId): seq<Field> {
    match id
    case INITIALIZE => [Field(initializationKey, 0, Uint(2))]
    case PRIORITY1 => [Field(priority1, 0, Uint(1))]
    case PRIORITY2 => [Field(priority2, 0, Uint(1))]
    case DOMAIN => [Field(domainNumber, 0, Uint(1))]
    case SLAVE_ONLY => [Field(flags, 0, Bits(0x1))]
    case LOG_ANNOUNCE_INTERVAL => [Field(logAnnounceInterval, 0, Sint(1))]
    case ANNOUNCE_RECEIPT_TIMEOUT => [Field(announceReceiptTimeout, 0, Uint(1))]
    case LOG_SYNC_INTERVAL => [Field(logSyncInterval, 0, Sint(1))]
    case VERSION_NUMBER => [Field(versionNumber, 0, Uint(1))]
    case CLOCK_ACCURACY => [Field(clockAccuracy, 0, Uint(1))]
    case TRACEABILITY_PROPERTIES => [Field(flags, 0, Bits(0x30))]
    case UNICAST_NEGOTIATION_ENABLE => [Field(flags, 0, Bits(0x1))]
    case PATH_TRACE_ENABLE => [Field(flags, 0, Bits(0x1))]
    case UNICAST_MASTER_MAX_TABLE_SIZE => [Field(maxTableSize, 0, Uint(2))]
    case ACCEPTABLE_MASTER_TABLE_ENABLED => [Field(flags, 0, Bits(0x1))]
    case ACCEPTABLE_MASTER_MAX_TABLE_SIZE => [Field(maxTableSize, 0, Uint(2))]
    case ALTERNATE_TIME_OFFSET_MAX_KEY => [Field(maxKey, 0, Uint(1))]
    case LOG_MIN_PDELAY_REQ_INTERVAL => [Field(logMinPdelayReqInterval, 0, Sint(1))]
    case PRIMARY_DOMAIN => [Field(primaryDomain, 0, Uint(1))]
    case DELAY_MECHANISM => [Field(delayMechanism, 0, Uint(1))]
    case EXTERNAL_PORT_CONFIGURATION_ENABLED => [Field(flags, 0, Bits(0x1))]
    case MASTER_ONLY => [Field(flags, 0, Bits(0x1))]
    case HOLDOVER_UPGRADE_ENABLE => [Field(flags, 0, Bits(0x1))]
    case SYNCHRONIZATION_UNCERTAIN_NP => [Field(val, 0, Uint(1))]
    case _ => []
  }

  /** The IDs with a text, an address or a list. */
  function VariableFields(id: MngId): seq<Field> {
    match id
    case CLOCK_DESCRIPTION => CLOCK_DESCRIPTION_FIELDS
    case USER_DESCRIPTION => [Field(userDescription, 0, Text(1))]
    case FAULT_LOG => [Field(faultRecords, 0, List(Uint(2), false, Checked(FAULT_RECORD)))]
    case PATH_TRACE_LIST => [Field(pathSequence, 0, Endless(CLOCK_IDENTITY))]
    case GRANDMASTER_CLUSTER_TABLE => GRANDMASTER_CLUSTER_TABLE_FIELDS
    case UNICAST_MASTER_TABLE => UNICAST_MASTER_TABLE_FIELDS
    case ACCEPTABLE_MASTER_TABLE => [Field(list, 0, List(Sint(2), true, ACCEPTABLE_MASTER))]
    case ALTERNATE_TIME_OFFSET_NAME => ALTERNATE_TIME_OFFSET_NAME_FIELDS
    case PORT_PROPERTIES_NP => PORT_PROPERTIES_NP_FIELDS
    case _ => []
  }

  // ---------------------------------------------------------------- records and signaling TLVs

  const PORT_ADDRESS_FIELDS := [Field(networkProtocol, 0, Uint(2)), Field(addressField, 2, Text(2))]
  const FAULT_RECORD_FIELDS :=
    [Field(faultRecordLength, 0, Uint(2)), Field(faultTime_secondsField, 2, Uint(6)),
     Field(faultTime_nanosecondsField, 8, Uint(4)), Field(severityCode, 12, Uint(1)),
     Field(faultName, 13, Text(1)), Field(faultValue, 14, Text(1)), Field(faultDescription, 15, Text(1))]
  const ACCEPTABLE_MASTER_FIELDS :=
    [Field(acceptablePortIdentity_clockIdentity, 0, Raw(8)), Field(acceptablePortIdentity_portNumber, 8, Uint(2)),
     Field(alternatePriority1, 10, Uint(1))]
  const RX_SYNC_FIELDS :=
    [Field(sequenceId, 0, Uint(2)), Field(syncOriginTimestamp_secondsField, 2, Uint(6)),
     Field(syncOriginTimestamp_nanosecondsField, 8, Uint(4)), Field(totalCorrectionField, 12, Sint(8)),
     Field(scaledCumulativeRateOffset, 20, Sint(4)), Field(syncEventIngressTimestamp_secondsField, 24, Uint(6)),
     Field(syncEventIngressTimestamp_nanosecondsField, 30, Uint(4))]
  const COMPUTED_FIELDS :=
    [Field(sequenceId, 0, Uint(2)), Field(offsetFromMaster, 2, Sint(8)), Field(meanPathDelay, 10, Sint(8)),
     Field(scaledNeighborRateRatio, 18, Sint(4))]
  const TX_EVENT_FIELDS :=
    [Field(sequenceId, 0, Uint(2)), Field(eventEgressTimestamp_secondsField, 2, Uint(6)),
     Field(eventEgressTimestamp_nanosecondsField, 8, Uint(4))]
  const DELAY_FIELDS :=
    [Field(sequenceId, 0, Uint(2)), Field(delayOriginTimestamp_secondsField, 2, Uint(6)),
     Field(delayOriginTimestamp_nanosecondsField, 8, Uint(4)), Field(totalCorrectionField, 12, Sint(8)),
     Field(delayResponseTimestamp_secondsField, 20, Uint(6)),
     Field(delayResponseTimestamp_nanosecondsField, 26, Uint(4))]
  const METRIC_FIELDS :=
    [Field(bcHopCount, 0, Uint(1)), Field(tcHopCount, 1, Uint(1)), Field(reserved, 2, Zero),
     Field(reserved, 3, Zero), Field(maxGmInaccuracy, 4, Sint(8)), Field(varGmInaccuracy, 12, Double),
     Field(maxTransientInaccuracy, 28, Sint(8)), Field(varTransientInaccuracy, 36, Double),
     Field(maxDynamicInaccuracy, 52, Sint(8)), Field(varDynamicInaccuracy, 60, Double),
     Field(maxStaticInstanceInaccuracy, 76, Sint(8)), Field(varStaticInstanceInaccuracy, 84, Double),
     Field(maxStaticMediumInaccuracy, 100, Sint(8)), Field(varStaticMediumInaccuracy, 108, Double)]

  const ORGANIZATION_FIELDS :=
    [Field(organizationId, 0, Raw(3)), Field(organizationSubType, 3, Raw(3)), Field(dataField, 6, Rest)]
  const ALTERNATE_OFFSET_FIELDS :=
    [Field(keyField, 0, Uint(1)), Field(currentOffset, 1, Sint(4)), Field(jumpSeconds, 5, Sint(4)),
     Field(timeOfNextJump, 9, Uint(8)), Field(displayName, 17, Text(1))]
  const RX_SYNC_DATA_FIELDS :=
    [Field(clockIdentity, 0, Raw(8)), Field(portNumber, 8, Uint(2)), Field(list, 10, Endless(RX_SYNC_RECORD))]
  const COMPUTED_DATA_FIELDS :=
    [Field(clockIdentity, 0, Raw(8)), Field(portNumber, 8, Uint(2)), Field(computedFlags, 10, Bits(0x7)),
     Field(reserved, 11, Zero), Field(list, 12, Endless(COMPUTED_RECORD))]
  const TX_EVENT_DATA_FIELDS :=
    [Field(clockIdentity, 0, Raw(8)), Field(portNumber, 8, Uint(2)), Field(eventMessageType, 10, Uint(1)),
     Field(reserved, 11, Zero), Field(list, 12, Endless(TX_EVENT_RECORD))]
  const DELAY_DATA_FIELDS :=
    [Field(clockIdentity, 0, Raw(8)), Field(portNumber, 8, Uint(2)), Field(list, 10, Endless(DELAY_RECORD))]

  /** The types of TLVs that parseSig keeps, beside MANAGEMENT, and their fields.  timeOfNextJump is given the 8 octets
      that the walker reads. */
  function SigLayout(tlvType: nat, linuxptp: bool): Option<seq<Field>> {
    if tlvType == 0x0003 || tlvType == 0x4000 || tlvType == 0x8000 then Some(ORGANIZATION_FIELDS)
    else if tlvType == 0x0008 then Some([Field(pathSequence, 0, Endless(CLOCK_IDENTITY))])
    else if tlvType == 0x0009 then Some(ALTERNATE_OFFSET_FIELDS)
    else if tlvType == 0x4001 then Some(METRIC_FIELDS)
    else if tlvType == 0x8001 then Some([Field(flags1, 0, Bits(0xf)), Field(flags2, 1, Bits(0x7))])
    else if tlvType == 0x8002 then
      Some([Field(syncMessageAvailability, 0, Bits(0xf)), Field(delayRespMessageAvailability, 1, Bits(0xf))])
    else if tlvType == 0x8003 then Some(PORT_ADDRESS_FIELDS)
    else if tlvType == 0x8004 then Some(RX_SYNC_DATA_FIELDS)
    else if tlvType == 0x8005 then Some(COMPUTED_DATA_FIELDS)
    else if tlvType == 0x8006 then Some(TX_EVENT_DATA_FIELDS)
    else if tlvType == 0x8007 then Some([Field(scaledCumulativeRateRatio, 0, Sint(4))])
    else if tlvType == 0x7f00 && linuxptp then Some(DELAY_DATA_FIELDS)
    else None
  }

  // ---------------------------------------------------------------- the fields of a walker

  /** A kind names the walker of its field. */
  predicate Matches(k: Kind, s: Schema) {
    match k
    case Uint(w) => s == Number(Unsigned(w)) || (w == 6 && s == Unsigned48)
    case Sint(w) => s == Number(Signed(w))
    case Bits(mask) => s == Flags(mask)
    case Zero => s == Reserved
    case Raw(n) => s == Fixed(n)
    case Text(w) => s == Sized(w)
    case Counters(n) => s == Repeat(n, Number(Little(8)))
    case Rest => s == Remaining
    case Double => s == Float64
    case List(c, counted, rec) => s.Table? && Matches(c, Number(s.c)) && s.counted == counted && s.rec == rec
    case Endless(rec) => s.Many? && s.rec == rec
  }

  function LeafCount(s: Schema): nat {
    if s.Both? then LeafCount(s.first) + LeafCount(s.second) else 1
  }

  function Leaf(s: Schema, v: Value, k: nat): Value {
    if s.Both? && v.Pair? then
      if k < LeafCount(s.first) then Leaf(s.first, v.first, k) else Leaf(s.second, v.second, k - LeafCount(s.first))
    else v
  }

  /** The octets of a structure without the content of its texts, as the cursor counts them. */
  function Span(s: Schema): nat {
    match s
    case Number(c) => c.w
    case Unsigned48 => 6
    case Flags(_) => 1
    case Reserved => 1
    case Fixed(n) => n
    case Sized(w) => w
    case Float64 => 16
    case Both(a, b) => Span(a) + Span(b)
    case Repeat(n, rec) => n * Span(rec)
    case _ => 0
  }

  /** The content of its texts and addresses. */
  function Content(s: Schema, v: Value): nat {
    if s.Both? && v.Pair? then Content(s.first, v.first) + Content(s.second, v.second)
    else if s.Sized? && v.Blob? then |v.s| else 0
  }

  /** The content before field k. */
  function Before(s: Schema, v: Value, k: nat): nat {
    if s.Both? && v.Pair? then
      if k < LeafCount(s.first) then Before(s.first, v.first, k)
      else Content(s.first, v.first) + Before(s.second, v.second, k - LeafCount(s.first))
    else 0
  }

  /** Reading the fields of a table along a walker: the number of the next field and the octets before it; Last behind
      a list or a field that takes the rest. */
  datatype Scanned = Mismatch | Next(i: nat, at: nat) | Last(i: nat)

  function Scan(s: Schema, fs: seq<Field>, i: nat, at: nat): Scanned {
    if s.Both? then
      var r := Scan(s.first, fs, i, at);
      if r.Next? then Scan(s.second, fs, r.i, r.at) else Mismatch
    else if i >= |fs| || fs[i].at != at || !Matches(fs[i].kind, s) then Mismatch
    else if s.Remaining? || s.Table? || s.Many? || s.Checked? then Last(i + 1)
    else Next(i + 1, at + Span(s))
  }

  /** The fields of a walker, and no more. */
  predicate Describes(fs: seq<Field>, s: Option<Schema>) {
    if s.None? then fs == []
    else Scan(s.value, fs, 0, 0) != Mismatch && Scan(s.value, fs, 0, 0).i == |fs|
  }

  // ---------------------------------------------------------------- what stands in a field

  function CountWidth(k: Kind): nat { if k.Uint? || k.Sint? then k.w else 0 }

  /** The octet sent for flags: of several flags exactly the caller's bits inside the mask, of a single flag 0 or 1. */
  ghost predicate FlagsSent(mask: Octet, n: nat, x: Octet) {
    if mask > 1 then forall k: nat :: Bit(x, k) == 1 <==> Bit(n, k) == 1 && Bit(mask, k) == 1
    else x == if n != 0 then 1 else 0
  }

  /** Counter j of those that begin at `o`, its least significant octet first. */
  predicate CounterAt(x: seq<Octet>, o: nat, j: nat, v: Value) {
    && v.Int? && v.n >= 0 && o + 8 * j + 8 <= |x|
    && x[o + 8 * j..o + 8 * j + 8] == LittleEndian(8, v.n)
  }

  /** Place `o` of the octets `x` holds what a build sends for the field's value `v`. */
  ghost predicate Sent(k: Kind, x: seq<Octet>, o: nat, v: Value) {
    match k
    case Uint(w) => v.Int? && v.n >= 0 && o + w <= |x| && x[o..o + w] == BigEndian(w, v.n)
    case Sint(w) => v.Int? && o + w <= |x| && x[o..o + w] == BigEndian(w, v.n % Pow256(w))
    case Bits(mask) => v.Int? && 0 <= v.n < 256 && o < |x| && FlagsSent(mask, v.n, x[o])
    case Zero => o < |x| && x[o] == 0
    case Raw(n) => v.Octs? && |v.s| == n && o + n <= |x| && x[o..o + n] == v.s
    case Text(w) =>
      && v.Blob? && o + w + |v.s| <= |x|
      && x[o..o + w] == BigEndian(w, |v.s|) && x[o + w..o + w + |v.s|] == v.s
    case Counters(n) =>
      v.Items? && |v.items| == n && forall j | 0 <= j < n :: CounterAt(x, o, j, v.items[j])
    case Rest => v.Octs? && o + |v.s| <= |x| && x[o..o + |v.s|] == v.s
    case Double => false
    case List(c, counted, rec) =>
      && v.Counted? && AllTyped(rec, v.items)
      && Sent(c, x, o, Int(if counted then |v.items| else v.count))
      && RecordsSent(rec, x, o + CountWidth(c), v.items)
    case Endless(rec) => v.Items? && AllTyped(rec, v.items) && RecordsSent(rec, x, o, v.items)
  }

  /** Records one behind the other. */
  ghost predicate RecordsSent(rec: Schema, x: seq<Octet>, o: nat, items: seq<Value>)
    requires AllTyped(rec, items)
  {
    forall j | 0 <= j < |items| ::
      var p, e := o + |EmitAll(rec, items[..j])|, Emit(rec, items[j]);
      p + |e| <= |x| && x[p..p + |e|] == e
  }

  /** The value `v` is what a parse makes of place `o` of the octets `b`. */
  ghost predicate ReadAs(k: Kind, b: seq<Octet>, o: nat, v: Value)
    requires KindProper(k)
  {
    match k
    case Uint(w) => v.Int? && v.n >= 0 && o + w <= |b| && b[o..o + w] == BigEndian(w, v.n) && v.n < Pow256(w)
    case Sint(w) =>
      && v.Int? && Fits(Signed(w), v.n) && o + w <= |b| && b[o..o + w] == BigEndian(w, v.n % Pow256(w))
    case Bits(_) => o < |b| && v == Int(b[o])
    case Zero => o < |b|
    case Raw(n) => v.Octs? && o + n <= |b| && v.s == b[o..o + n]
    case Text(w) =>
      && v.Blob? && v.len == |v.s| && o + w + |v.s| <= |b| && |v.s| < Pow256(w)
      && b[o..o + w] == BigEndian(w, |v.s|) && v.s == b[o + w..o + w + |v.s|]
    case Counters(n) =>
      v.Items? && |v.items| == n && forall j | 0 <= j < n :: CounterAt(b, o, j, v.items[j])
    case Rest => v.Octs? && o + |v.s| <= |b| && v.s == b[o..o + |v.s|] && |v.s| == (|b| - o) % 0x1_0000
    case Double => v.Int? && v.n >= 0 && o + 8 <= |b| && b[o..o + 8] == BigEndian(8, v.n)
    case List(c, _, rec) =>
      && v.Counted? && ReadAs(c, b, o, Int(v.count))
      && |v.items| == (if v.count < 0 then v.count + 0x1_0000_0000 else v.count)
      && RecordsRead(rec, b, o + CountWidth(c), v.items)
    case Endless(rec) => v.Items? && RecordsRead(rec, b, o, v.items)
  }

  predicate KindProper(k: Kind) {
    match k
    case List(c, _, rec) => Proper(rec) && KindProper(c)
    case Endless(rec) => Proper(rec)
    case _ => true
  }

  /** Each record is read where the one before it ended. */
  predicate RecordsRead(rec: Schema, b: seq<Octet>, o: nat, items: seq<Value>)
    requires Proper(rec)
    decreases |items|
  {
    items == []
    || (Decode(rec, b, o).Decoded? && Decode(rec, b, o).v == items[0]
        && RecordsRead(rec, b, Decode(rec, b, o).at, items[1..]))
  }
}
