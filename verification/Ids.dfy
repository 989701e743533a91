/** The table of management IDs: value, allowed actions, dataField size and field list of each one, and the
    per-ID size functions that are written apart from the field lists. */
module Ids {
  import opened Octets
  import opened Schema
  import opened Walkers
  import opened Decoding

  datatype MngId =
    | NULL_PTP_MANAGEMENT | CLOCK_DESCRIPTION | USER_DESCRIPTION | SAVE_IN_NON_VOLATILE_STORAGE
    | RESET_NON_VOLATILE_STORAGE | INITIALIZE | FAULT_LOG | FAULT_LOG_RESET | DEFAULT_DATA_SET
    | CURRENT_DATA_SET | PARENT_DATA_SET | TIME_PROPERTIES_DATA_SET | PORT_DATA_SET | PRIORITY1 | PRIORITY2
    | DOMAIN | SLAVE_ONLY | LOG_ANNOUNCE_INTERVAL | ANNOUNCE_RECEIPT_TIMEOUT | LOG_SYNC_INTERVAL
    | VERSION_NUMBER | ENABLE_PORT | DISABLE_PORT | TIME | CLOCK_ACCURACY | UTC_PROPERTIES
    | TRACEABILITY_PROPERTIES | TIMESCALE_PROPERTIES | UNICAST_NEGOTIATION_ENABLE | PATH_TRACE_LIST
    | PATH_TRACE_ENABLE | GRANDMASTER_CLUSTER_TABLE | UNICAST_MASTER_TABLE | UNICAST_MASTER_MAX_TABLE_SIZE
    | ACCEPTABLE_MASTER_TABLE | ACCEPTABLE_MASTER_TABLE_ENABLED | ACCEPTABLE_MASTER_MAX_TABLE_SIZE
    | ALTERNATE_MASTER | ALTERNATE_TIME_OFFSET_ENABLE | ALTERNATE_TIME_OFFSET_NAME
    | ALTERNATE_TIME_OFFSET_MAX_KEY | ALTERNATE_TIME_OFFSET_PROPERTIES | TRANSPARENT_CLOCK_PORT_DATA_SET
    | LOG_MIN_PDELAY_REQ_INTERVAL | TRANSPARENT_CLOCK_DEFAULT_DATA_SET | PRIMARY_DOMAIN | DELAY_MECHANISM
    | EXTERNAL_PORT_CONFIGURATION_ENABLED | MASTER_ONLY | HOLDOVER_UPGRADE_ENABLE
    | EXT_PORT_CONFIG_PORT_DATA_SET | TIME_STATUS_NP | GRANDMASTER_SETTINGS_NP | PORT_DATA_SET_NP
    | SUBSCRIBE_EVENTS_NP | PORT_PROPERTIES_NP | PORT_STATS_NP | SYNCHRONIZATION_UNCERTAIN_NP

  /** actionField_e, the low nibble of an octet. */
  datatype Action = GET | SET | RESPONSE | COMMAND | ACKNOWLEDGE

  function ActionCode(a: Action): Octet {
    match a
    case GET => 0 case SET => 1 case RESPONSE => 2 case COMMAND => 3 case ACKNOWLEDGE => 4
  }

  datatype Allowed = Allowed(get: bool, set_: bool, command: bool, linuxptp: bool)

  const GSC := Allowed(true, true, true, false)
  const GS := Allowed(true, true, false, false)
  const G := Allowed(true, false, false, false)
  const C := Allowed(false, false, true, false)
  const GL := Allowed(true, false, false, true)
  const GSL := Allowed(true, true, false, true)

  /** size: the octets of the dataField, 0 for none, -2 when they are calculated. */
  datatype Row = Row(value: nat, allowed: Allowed, size: int)

  function RowOf(id: MngId): Row {
    match id
    case NULL_PTP_MANAGEMENT => Row(0x0000, GSC, 0)
    case CLOCK_DESCRIPTION => Row(0x0001, G, -2)
    case USER_DESCRIPTION => Row(0x0002, GS, -2)
    case SAVE_IN_NON_VOLATILE_STORAGE => Row(0x0003, C, 0)
    case RESET_NON_VOLATILE_STORAGE => Row(0x0004, C, 0)
    case INITIALIZE => Row(0x0005, C, 2)
    case FAULT_LOG => Row(0x0006, G, -2)
    case FAULT_LOG_RESET => Row(0x0007, C, 0)
    case DEFAULT_DATA_SET => Row(0x2000, G, 20)
    case CURRENT_DATA_SET => Row(0x2001, G, 18)
    case PARENT_DATA_SET => Row(0x2002, G, 32)
    case TIME_PROPERTIES_DATA_SET => Row(0x2003, G, 4)
    case PORT_DATA_SET => Row(0x2004, G, 26)
    case PRIORITY1 => Row(0x2005, GS, 2)
    case PRIORITY2 => Row(0x2006, GS, 2)
    case DOMAIN => Row(0x2007, GS, 2)
    case SLAVE_ONLY => Row(0x2008, GS, 2)
    case LOG_ANNOUNCE_INTERVAL => Row(0x2009, GS, 2)
    case ANNOUNCE_RECEIPT_TIMEOUT => Row(0x200a, GS, 2)
    case LOG_SYNC_INTERVAL => Row(0x200b, GS, 2)
    case VERSION_NUMBER => Row(0x200c, GS, 2)
    case ENABLE_PORT => Row(0x200d, C, 0)
    case DISABLE_PORT => Row(0x200e, C, 0)
    case TIME => Row(0x200f, GS, 10)
    case CLOCK_ACCURACY => Row(0x2010, GS, 2)
    case UTC_PROPERTIES => Row(0x2011, GS, 4)
    case TRACEABILITY_PROPERTIES => Row(0x2012, GS, 2)
    case TIMESCALE_PROPERTIES => Row(0x2013, GS, 2)
    case UNICAST_NEGOTIATION_ENABLE => Row(0x2014, GS, 2)
    case PATH_TRACE_LIST => Row(0x2015, G, -2)
    case PATH_TRACE_ENABLE => Row(0x2016, GS, 2)
    case GRANDMASTER_CLUSTER_TABLE => Row(0x2017, GS, -2)
    case UNICAST_MASTER_TABLE => Row(0x2018, GS, -2)
    case UNICAST_MASTER_MAX_TABLE_SIZE => Row(0x2019, G, 2)
    case ACCEPTABLE_MASTER_TABLE => Row(0x201a, GS, -2)
    case ACCEPTABLE_MASTER_TABLE_ENABLED => Row(0x201b, GS, 2)
    case ACCEPTABLE_MASTER_MAX_TABLE_SIZE => Row(0x201c, G, 2)
    case ALTERNATE_MASTER => Row(0x201d, GS, 4)
    case ALTERNATE_TIME_OFFSET_ENABLE => Row(0x201e, GS, 2)
    case ALTERNATE_TIME_OFFSET_NAME => Row(0x201f, GS, -2)
    case ALTERNATE_TIME_OFFSET_MAX_KEY => Row(0x2020, G, 2)
    case ALTERNATE_TIME_OFFSET_PROPERTIES => Row(0x2021, GS, 16)
    case TRANSPARENT_CLOCK_PORT_DATA_SET => Row(0x4001, G, 20)
    case LOG_MIN_PDELAY_REQ_INTERVAL => Row(0x6001, GS, 2)
    case TRANSPARENT_CLOCK_DEFAULT_DATA_SET => Row(0x4000, G, 12)
    case PRIMARY_DOMAIN => Row(0x4002, GS, 2)
    case DELAY_MECHANISM => Row(0x6000, GS, 2)
    case EXTERNAL_PORT_CONFIGURATION_ENABLED => Row(0x3000, GS, 2)
    case MASTER_ONLY => Row(0x3001, GS, 2)
    case HOLDOVER_UPGRADE_ENABLE => Row(0x3002, GS, 2)
    case EXT_PORT_CONFIG_PORT_DATA_SET => Row(0x3003, GS, 2)
    case TIME_STATUS_NP => Row(0xc000, GL, 50)
    case GRANDMASTER_SETTINGS_NP => Row(0xc001, GSL, 8)
    case PORT_DATA_SET_NP => Row(0xc002, GSL, 8)
    case SUBSCRIBE_EVENTS_NP => Row(0xc003, GSL, 66)
    case PORT_PROPERTIES_NP => Row(0xc004, GL, -2)
    case PORT_STATS_NP => Row(0xc005, GL, 266)
    case SYNCHRONIZATION_UNCERTAIN_NP => Row(0xc006, GSL, 2)
  }

  /** The body of findTlvId: the value of the wire back to the ID; an ID of linuxptp only when it is in use. */
  function FindId(value: nat, linuxptp: bool): Option<MngId> {
    var id := IdOfValue(value);
    if id.Some? && !linuxptp && RowOf(id.value).allowed.linuxptp then None else id
  }

  function IdOfValue(value: nat): Option<MngId> {
    if value < 0x2000 then IdOfAll(value) else if value < 0x2010 then IdOfClock(value)
    else if value < 0x3000 then IdOfProperties(value) else IdOfOther(value)
  }

  /** The IDs of every kind of clock. */
  function IdOfAll(value: nat): Option<MngId> {
    if value == 0x0000 then Some(NULL_PTP_MANAGEMENT)
    else if value == 0x0001 then Some(CLOCK_DESCRIPTION)
    else if value == 0x0002 then Some(USER_DESCRIPTION)
    else if value == 0x0003 then Some(SAVE_IN_NON_VOLATILE_STORAGE)
    else if value == 0x0004 then Some(RESET_NON_VOLATILE_STORAGE)
    else if value == 0x0005 then Some(INITIALIZE)
    else if value == 0x0006 then Some(FAULT_LOG)
    else if value == 0x0007 then Some(FAULT_LOG_RESET)
    else None
  }

  /** The IDs of ordinary and boundary clocks. */
  function IdOfClock(value: nat): Option<MngId> {
    if value == 0x2000 then Some(DEFAULT_DATA_SET)
    else if value == 0x2001 then Some(CURRENT_DATA_SET)
    else if value == 0x2002 then Some(PARENT_DATA_SET)
    else if value == 0x2003 then Some(TIME_PROPERTIES_DATA_SET)
    else if value == 0x2004 then Some(PORT_DATA_SET)
    else if value == 0x2005 then Some(PRIORITY1)
    else if value == 0x2006 then Some(PRIORITY2)
    else if value == 0x2007 then Some(DOMAIN)
    else if value == 0x2008 then Some(SLAVE_ONLY)
    else if value == 0x2009 then Some(LOG_ANNOUNCE_INTERVAL)
    else if value == 0x200a then Some(ANNOUNCE_RECEIPT_TIMEOUT)
    else if value == 0x200b then Some(LOG_SYNC_INTERVAL)
    else if value == 0x200c then Some(VERSION_NUMBER)
    else if value == 0x200d then Some(ENABLE_PORT)
    else if value == 0x200e then Some(DISABLE_PORT)
    else if value == 0x200f then Some(TIME)
    else None
  }

  /** The IDs of time properties and of the optional features. */
  function IdOfProperties(value: nat): Option<MngId> {
    if value == 0x2010 then Some(CLOCK_ACCURACY)
    else if value == 0x2011 then Some(UTC_PROPERTIES)
    else if value == 0x2012 then Some(TRACEABILITY_PROPERTIES)
    else if value == 0x2013 then Some(TIMESCALE_PROPERTIES)
    else if value == 0x2014 then Some(UNICAST_NEGOTIATION_ENABLE)
    else if value == 0x2015 then Some(PATH_TRACE_LIST)
    else if value == 0x2016 then Some(PATH_TRACE_ENABLE)
    else if value == 0x2017 then Some(GRANDMASTER_CLUSTER_TABLE)
    else if value == 0x2018 then Some(UNICAST_MASTER_TABLE)
    else if value == 0x2019 then Some(UNICAST_MASTER_MAX_TABLE_SIZE)
    else if value == 0x201a then Some(ACCEPTABLE_MASTER_TABLE)
    else if value == 0x201b then Some(ACCEPTABLE_MASTER_TABLE_ENABLED)
    else if value == 0x201c then Some(ACCEPTABLE_MASTER_MAX_TABLE_SIZE)
    else if value == 0x201d then Some(ALTERNATE_MASTER)
    else if value == 0x201e then Some(ALTERNATE_TIME_OFFSET_ENABLE)
    else if value == 0x201f then Some(ALTERNATE_TIME_OFFSET_NAME)
    else if value == 0x2020 then Some(ALTERNATE_TIME_OFFSET_MAX_KEY)
    else if value == 0x2021 then Some(ALTERNATE_TIME_OFFSET_PROPERTIES)
    else None
  }

  /** The IDs of other clocks and of linuxptp. */
  function IdOfOther(value: nat): Option<MngId> {
    if value == 0x4001 then Some(TRANSPARENT_CLOCK_PORT_DATA_SET)
    else if value == 0x6001 then Some(LOG_MIN_PDELAY_REQ_INTERVAL)
    else if value == 0x4000 then Some(TRANSPARENT_CLOCK_DEFAULT_DATA_SET)
    else if value == 0x4002 then Some(PRIMARY_DOMAIN)
    else if value == 0x6000 then Some(DELAY_MECHANISM)
    else if value == 0x3000 then Some(EXTERNAL_PORT_CONFIGURATION_ENABLED)
    else if value == 0x3001 then Some(MASTER_ONLY)
    else if value == 0x3002 then Some(HOLDOVER_UPGRADE_ENABLE)
    else if value == 0x3003 then Some(EXT_PORT_CONFIG_PORT_DATA_SET)
    else if value == 0xc000 then Some(TIME_STATUS_NP)
    else if value == 0xc001 then Some(GRANDMASTER_SETTINGS_NP)
    else if value == 0xc002 then Some(PORT_DATA_SET_NP)
    else if value == 0xc003 then Some(SUBSCRIBE_EVENTS_NP)
    else if value == 0xc004 then Some(PORT_PROPERTIES_NP)
    else if value == 0xc005 then Some(PORT_STATS_NP)
    else if value == 0xc006 then Some(SYNCHRONIZATION_UNCERTAIN_NP)
    else None
  }

  // ---------------------------------------------------------------- field lists

  const UINT8 := Number(Unsigned(1))
  const UINT16 := Number(Unsigned(2))
  const UINT32 := Number(Unsigned(4))
  const UINT64 := Number(Unsigned(8))
  const INT8 := Number(Signed(1))
  const INT16 := Number(Signed(2))
  const INT32 := Number(Signed(4))
  const INT64 := Number(Signed(8))
  const TIMESTAMP := Unsigned48.Then(UINT32)
  const CLOCK_IDENTITY := Fixed(8)
  const PORT_IDENTITY := CLOCK_IDENTITY.Then(UINT16)
  const PORT_ADDRESS := UINT16.Then(Sized(2))
  const CLOCK_QUALITY := UINT8.Then(UINT8).Then(UINT16)
  const TEXT := Sized(1)
  const FAULT_RECORD := UINT16.Then(TIMESTAMP).Then(UINT8).Then(TEXT).Then(TEXT).Then(TEXT)
  const ACCEPTABLE_MASTER := PORT_IDENTITY.Then(UINT8)

  // The walkers that move several fields.

  const DEFAULT_DATA_SET_LIST :=
    Flags(0x3).Then(Reserved).Then(UINT16).Then(UINT8).Then(CLOCK_QUALITY).Then(UINT8).Then(CLOCK_IDENTITY)
    .Then(UINT8)
  const CURRENT_DATA_SET_LIST := UINT16.Then(INT64).Then(INT64)
  const PARENT_DATA_SET_LIST :=
    PORT_IDENTITY.Then(Flags(0x1)).Then(Reserved).Then(UINT16).Then(INT32).Then(UINT8).Then(CLOCK_QUALITY)
    .Then(UINT8).Then(CLOCK_IDENTITY)
  const TIME_PROPERTIES_DATA_SET_LIST := INT16.Then(Flags(0x3f)).Then(UINT8)
  const PORT_DATA_SET_LIST :=
    PORT_IDENTITY.Then(UINT8).Then(INT8).Then(INT64).Then(INT8).Then(UINT8).Then(INT8).Then(UINT8).Then(INT8)
    .Then(UINT8)
  const UTC_PROPERTIES_LIST := INT16.Then(Flags(0x7))
  const TIMESCALE_PROPERTIES_LIST := Flags(0x8).Then(UINT8)
  const ALTERNATE_MASTER_LIST := Flags(0x1).Then(INT8).Then(UINT8)
  const ALTERNATE_TIME_OFFSET_ENABLE_LIST := UINT8.Then(Flags(0x1))
  const ALTERNATE_TIME_OFFSET_PROPERTIES_LIST := UINT8.Then(INT32).Then(INT32).Then(Unsigned48)
  const TRANSPARENT_CLOCK_PORT_DATA_SET_LIST := PORT_IDENTITY.Then(Flags(0x1)).Then(INT8).Then(INT64)
  const TRANSPARENT_CLOCK_DEFAULT_DATA_SET_LIST := CLOCK_IDENTITY.Then(UINT16).Then(UINT8).Then(UINT8)
  const EXT_PORT_CONFIG_PORT_DATA_SET_LIST := Flags(0x1).Then(UINT8)
  const TIME_STATUS_NP_LIST :=
    INT64.Then(INT64).Then(INT32).Then(INT32).Then(UINT16).Then(UINT16).Then(UINT64).Then(UINT16).Then(INT32)
    .Then(CLOCK_IDENTITY)
  const GRANDMASTER_SETTINGS_NP_LIST := CLOCK_QUALITY.Then(INT16).Then(Flags(0x3f)).Then(UINT8)
  const PORT_DATA_SET_NP_LIST := UINT32.Then(INT32)
  const SUBSCRIBE_EVENTS_NP_LIST := UINT16.Then(Fixed(64))
  const PORT_STATS_NP_LIST := PORT_IDENTITY.Then(Repeat(16, Number(Little(8)))).Then(Repeat(16, Number(Little(8))))
  const CLOCK_DESCRIPTION_LIST :=
    UINT16.Then(TEXT).Then(Sized(2)).Then(PORT_ADDRESS).Then(Fixed(3)).Then(Reserved).Then(TEXT).Then(TEXT)
    .Then(TEXT).Then(Fixed(6))
  const GRANDMASTER_CLUSTER_TABLE_LIST := INT8.Then(Table(Unsigned(1), true, PORT_ADDRESS))
  const UNICAST_MASTER_TABLE_LIST := INT8.Then(Table(Unsigned(2), true, PORT_ADDRESS))
  const ALTERNATE_TIME_OFFSET_NAME_LIST := UINT8.Then(TEXT)
  const PORT_PROPERTIES_NP_LIST := PORT_IDENTITY.Then(UINT8).Then(UINT8).Then(TEXT)

  /** The walkers that move one field. */
  function SingleField(id: MngId): Option<Schema> {
    match id
    case INITIALIZE => Some(UINT16)
    case PRIORITY1 => Some(UINT8)
    case PRIORITY2 => Some(UINT8)
    case DOMAIN => Some(UINT8)
    case SLAVE_ONLY => Some(Flags(0x1))
    case LOG_ANNOUNCE_INTERVAL => Some(INT8)
    case ANNOUNCE_RECEIPT_TIMEOUT => Some(UINT8)
    case LOG_SYNC_INTERVAL => Some(INT8)
    case VERSION_NUMBER => Some(UINT8)
    case CLOCK_ACCURACY => Some(UINT8)
    case TRACEABILITY_PROPERTIES => Some(Flags(0x30))
    case UNICAST_NEGOTIATION_ENABLE => Some(Flags(0x1))
    case PATH_TRACE_ENABLE => Some(Flags(0x1))
    case UNICAST_MASTER_MAX_TABLE_SIZE => Some(UINT16)
    case ACCEPTABLE_MASTER_TABLE_ENABLED => Some(Flags(0x1))
    case ACCEPTABLE_MASTER_MAX_TABLE_SIZE => Some(UINT16)
    case ALTERNATE_TIME_OFFSET_MAX_KEY => Some(UINT8)
    case LOG_MIN_PDELAY_REQ_INTERVAL => Some(INT8)
    case PRIMARY_DOMAIN => Some(UINT8)
    case DELAY_MECHANISM => Some(UINT8)
    case EXTERNAL_PORT_CONFIGURATION_ENABLED => Some(Flags(0x1))
    case MASTER_ONLY => Some(Flags(0x1))
    case HOLDOVER_UPGRADE_ENABLE => Some(Flags(0x1))
    case SYNCHRONIZATION_UNCERTAIN_NP => Some(UINT8)
    case _ => None
  }

  /** The walkers that move several fields of fixed length. */
  function FixedList(id: MngId): Option<Schema> {
    match id
    case DEFAULT_DATA_SET => Some(DEFAULT_DATA_SET_LIST)
    case CURRENT_DATA_SET => Some(CURRENT_DATA_SET_LIST)
    case PARENT_DATA_SET => Some(PARENT_DATA_SET_LIST)
    case TIME_PROPERTIES_DATA_SET => Some(TIME_PROPERTIES_DATA_SET_LIST)
    case PORT_DATA_SET => Some(PORT_DATA_SET_LIST)
    case TIME => Some(TIMESTAMP)
    case UTC_PROPERTIES => Some(UTC_PROPERTIES_LIST)
    case TIMESCALE_PROPERTIES => Some(TIMESCALE_PROPERTIES_LIST)
    case ALTERNATE_MASTER => Some(ALTERNATE_MASTER_LIST)
    case ALTERNATE_TIME_OFFSET_ENABLE => Some(ALTERNATE_TIME_OFFSET_ENABLE_LIST)
    case ALTERNATE_TIME_OFFSET_PROPERTIES => Some(ALTERNATE_TIME_OFFSET_PROPERTIES_LIST)
    case TRANSPARENT_CLOCK_PORT_DATA_SET => Some(TRANSPARENT_CLOCK_PORT_DATA_SET_LIST)
    case TRANSPARENT_CLOCK_DEFAULT_DATA_SET => Some(TRANSPARENT_CLOCK_DEFAULT_DATA_SET_LIST)
    case EXT_PORT_CONFIG_PORT_DATA_SET => Some(EXT_PORT_CONFIG_PORT_DATA_SET_LIST)
    case TIME_STATUS_NP => Some(TIME_STATUS_NP_LIST)
    case GRANDMASTER_SETTINGS_NP => Some(GRANDMASTER_SETTINGS_NP_LIST)
    case PORT_DATA_SET_NP => Some(PORT_DATA_SET_NP_LIST)
    case SUBSCRIBE_EVENTS_NP => Some(SUBSCRIBE_EVENTS_NP_LIST)
    case PORT_STATS_NP => Some(PORT_STATS_NP_LIST)
    case _ => None
  }

  /** The walkers with a text, an address or a list. */
  function VariableList(id: MngId): Option<Schema> {
    match id
    case CLOCK_DESCRIPTION => Some(CLOCK_DESCRIPTION_LIST)
    case USER_DESCRIPTION => Some(TEXT)
    case FAULT_LOG => Some(Table(Unsigned(2), false, Checked(FAULT_RECORD)))
    case PATH_TRACE_LIST => Some(Many(8, CLOCK_IDENTITY))
    case GRANDMASTER_CLUSTER_TABLE => Some(GRANDMASTER_CLUSTER_TABLE_LIST)
    case UNICAST_MASTER_TABLE => Some(UNICAST_MASTER_TABLE_LIST)
    case ACCEPTABLE_MASTER_TABLE => Some(Table(Signed(2), true, ACCEPTABLE_MASTER))
    case ALTERNATE_TIME_OFFSET_NAME => Some(ALTERNATE_TIME_OFFSET_NAME_LIST)
    case PORT_PROPERTIES_NP => Some(PORT_PROPERTIES_NP_LIST)
    case _ => None
  }

  /** The walker of each ID; None for the IDs without a dataField. */
  function SchemaOf(id: MngId): Option<Schema> {
    if SingleField(id).Some? then SingleField(id)
    else if FixedList(id).Some? then FixedList(id)
    else VariableList(id)
  }
}
