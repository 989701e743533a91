/** The table of fields agrees with the walkers. */
module LayoutTables {
  import opened Octets
  import opened Schema
  import opened Ids
  import opened Sizes
  import opened Signaling
  import opened Layouts

  // ---------------------------------------------------------------- the table is right

  /** One level of a walker. */
  predicate Level(s: Schema, fs: seq<Field>) {
    s.Both? ==>
      Scan(s, fs, 0, 0) == var r := Scan(s.first, fs, 0, 0);
                           if r.Next? then Scan(s.second, fs, r.i, r.at) else Mismatch
  }

  function Down(s: Schema): Schema { if s.Both? then s.first else s }

  /** Four levels of a walker. */
  lemma Levels(s: Schema, fs: seq<Field>)
    ensures Level(s, fs) && Level(Down(s), fs) && Level(Down(Down(s)), fs) && Level(Down(Down(Down(s))), fs)
  {
  }

  lemma SingleRight(id: MngId)
    ensures Describes(OneField(id), SingleField(id))
  {
    hide IsFixed, FixedLen;
  }

  lemma ListsRight1()
    ensures Describes(CURRENT_DATA_SET_FIELDS, Some(CURRENT_DATA_SET_LIST))
    ensures Describes(TIME_PROPERTIES_DATA_SET_FIELDS, Some(TIME_PROPERTIES_DATA_SET_LIST))
    ensures Describes(UTC_PROPERTIES_FIELDS, Some(UTC_PROPERTIES_LIST))
    ensures Describes(TIMESCALE_PROPERTIES_FIELDS, Some(TIMESCALE_PROPERTIES_LIST))
  {
    hide IsFixed, FixedLen;
  }

  lemma ListsRight2()
    ensures Describes(ALTERNATE_MASTER_FIELDS, Some(ALTERNATE_MASTER_LIST))
    ensures Describes(ALTERNATE_TIME_OFFSET_ENABLE_FIELDS, Some(ALTERNATE_TIME_OFFSET_ENABLE_LIST))
    ensures Describes(ALTERNATE_TIME_OFFSET_PROPERTIES_FIELDS, Some(ALTERNATE_TIME_OFFSET_PROPERTIES_LIST))
    ensures Describes(TRANSPARENT_CLOCK_PORT_DATA_SET_FIELDS, Some(TRANSPARENT_CLOCK_PORT_DATA_SET_LIST))
  {
    hide IsFixed, FixedLen;
  }

  lemma ListsRight3()
    ensures Describes(TRANSPARENT_CLOCK_DEFAULT_DATA_SET_FIELDS, Some(TRANSPARENT_CLOCK_DEFAULT_DATA_SET_LIST))
    ensures Describes(EXT_PORT_CONFIG_PORT_DATA_SET_FIELDS, Some(EXT_PORT_CONFIG_PORT_DATA_SET_LIST))
    ensures Describes(GRANDMASTER_SETTINGS_NP_FIELDS, Some(GRANDMASTER_SETTINGS_NP_LIST))
    ensures Describes(PORT_DATA_SET_NP_FIELDS, Some(PORT_DATA_SET_NP_LIST))
  {
    hide IsFixed, FixedLen;
  }

  lemma ListsRight4()
    ensures Describes(SUBSCRIBE_EVENTS_NP_FIELDS, Some(SUBSCRIBE_EVENTS_NP_LIST))
    ensures Describes(PORT_STATS_NP_FIELDS, Some(PORT_STATS_NP_LIST))
    ensures Describes(ALTERNATE_TIME_OFFSET_NAME_FIELDS, Some(ALTERNATE_TIME_OFFSET_NAME_LIST))
    ensures Describes(PORT_PROPERTIES_NP_FIELDS, Some(PORT_PROPERTIES_NP_LIST))
  {
    hide IsFixed, FixedLen;
  }

  lemma ListsRight5()
    ensures Describes(TIME_FIELDS, Some(TIMESTAMP))
  {
    hide IsFixed, FixedLen;
  }

  lemma AddressTablesRight()
    ensures Describes(GRANDMASTER_CLUSTER_TABLE_FIELDS, Some(GRANDMASTER_CLUSTER_TABLE_LIST))
    ensures Describes(UNICAST_MASTER_TABLE_FIELDS, Some(UNICAST_MASTER_TABLE_LIST))
  {
    hide IsFixed, FixedLen, Matches;
    TablesMatch();
    IntervalMatches();
    ScanPair(INT8, Table(Unsigned(1), true, PORT_ADDRESS), GRANDMASTER_CLUSTER_TABLE_FIELDS);
    ScanPair(INT8, Table(Unsigned(2), true, PORT_ADDRESS), UNICAST_MASTER_TABLE_FIELDS);
  }

  lemma IntervalMatches()
    ensures Matches(Sint(1), INT8) && Span(INT8) == 1
  {
  }

  lemma ScanPair(a: Schema, b: Schema, fs: seq<Field>)
    requires a.Number? && b.Table? && |fs| == 2 && fs[0].at == 0 && fs[1].at == Span(a)
    requires Matches(fs[0].kind, a) && Matches(fs[1].kind, b)
    ensures Describes(fs, Some(a.Then(b)))
  {
    hide Matches;
    assert Scan(a, fs, 0, 0) == Next(1, Span(a));
    assert Scan(b, fs, 1, Span(a)) == Last(2);
  }

  lemma DefaultDataSetHead()
    ensures Scan(Down(Down(Down(Down(DEFAULT_DATA_SET_LIST)))), DEFAULT_DATA_SET_FIELDS, 0, 0) == Next(4, 5)
  {
    hide IsFixed, FixedLen;
    Levels(Down(Down(Down(Down(DEFAULT_DATA_SET_LIST)))), DEFAULT_DATA_SET_FIELDS);
  }

  lemma DefaultDataSetMiddle()
    ensures Scan(Down(Down(DEFAULT_DATA_SET_LIST)), DEFAULT_DATA_SET_FIELDS, 0, 0) == Next(8, 10)
  {
    hide IsFixed, FixedLen;
    DefaultDataSetHead();
    Levels(DEFAULT_DATA_SET_LIST, DEFAULT_DATA_SET_FIELDS);
  }

  lemma DefaultDataSetRight()
    ensures Describes(DEFAULT_DATA_SET_FIELDS, Some(DEFAULT_DATA_SET_LIST))
  {
    DefaultDataSetMiddle();
    DefaultDataSetTail();
    var h, fs := Down(Down(DEFAULT_DATA_SET_LIST)), DEFAULT_DATA_SET_FIELDS;
    assert |fs| == 10;
    hide Scan, DEFAULT_DATA_SET_FIELDS, IsFixed, FixedLen;
    Behind(h, CLOCK_IDENTITY, fs, 8, 10);
    Behind(h.Then(CLOCK_IDENTITY), UINT8, fs, 9, 18);
  }

  lemma DefaultDataSetTail()
    ensures Scan(CLOCK_IDENTITY, DEFAULT_DATA_SET_FIELDS, 8, 10) == Next(9, 18)
    ensures Scan(UINT8, DEFAULT_DATA_SET_FIELDS, 9, 18) == Next(10, 19)
  {
  }

  lemma Behind(a: Schema, b: Schema, fs: seq<Field>, i: nat, at: nat)
    requires Scan(a, fs, 0, 0) == Next(i, at)
    ensures Scan(a.Then(b), fs, 0, 0) == Scan(b, fs, i, at)
  {
  }

  lemma ParentDataSetHead()
    ensures Scan(Down(Down(Down(Down(PARENT_DATA_SET_LIST)))), PARENT_DATA_SET_FIELDS, 0, 0) == Next(6, 18)
  {
    hide IsFixed, FixedLen;
    Levels(Down(Down(Down(Down(PARENT_DATA_SET_LIST)))), PARENT_DATA_SET_FIELDS);
  }

  lemma ParentDataSetRight()
    ensures Describes(PARENT_DATA_SET_FIELDS, Some(PARENT_DATA_SET_LIST))
  {
    ParentDataSetHead();
    ParentDataSetTail();
    var h, fs := Down(Down(Down(Down(PARENT_DATA_SET_LIST)))), PARENT_DATA_SET_FIELDS;
    assert |fs| == 12;
    hide Scan, PARENT_DATA_SET_FIELDS, IsFixed, FixedLen;
    Behind(h, UINT8, fs, 6, 18);
    Behind(h.Then(UINT8), CLOCK_QUALITY, fs, 7, 19);
    Behind(h.Then(UINT8).Then(CLOCK_QUALITY), UINT8, fs, 10, 23);
    Behind(h.Then(UINT8).Then(CLOCK_QUALITY).Then(UINT8), CLOCK_IDENTITY, fs, 11, 24);
  }

  lemma ParentDataSetTail()
    ensures Scan(UINT8, PARENT_DATA_SET_FIELDS, 6, 18) == Next(7, 19)
    ensures Scan(CLOCK_QUALITY, PARENT_DATA_SET_FIELDS, 7, 19) == Next(10, 23)
    ensures Scan(UINT8, PARENT_DATA_SET_FIELDS, 10, 23) == Next(11, 24)
    ensures Scan(CLOCK_IDENTITY, PARENT_DATA_SET_FIELDS, 11, 24) == Next(12, 32)
  {
    hide IsFixed, FixedLen;
  }

  lemma PortDataSetRight()
    ensures Describes(PORT_DATA_SET_FIELDS, Some(PORT_DATA_SET_LIST))
  {
    hide IsFixed, FixedLen;
    Levels(PORT_DATA_SET_LIST, PORT_DATA_SET_FIELDS);
    Levels(Down(Down(Down(Down(PORT_DATA_SET_LIST)))), PORT_DATA_SET_FIELDS);
  }

  lemma TimeStatusNpRight()
    ensures Describes(TIME_STATUS_NP_FIELDS, Some(TIME_STATUS_NP_LIST))
  {
    hide IsFixed, FixedLen;
    Levels(TIME_STATUS_NP_LIST, TIME_STATUS_NP_FIELDS);
    Levels(Down(Down(Down(Down(TIME_STATUS_NP_LIST)))), TIME_STATUS_NP_FIELDS);
  }

  lemma ClockDescriptionRight()
    ensures Describes(CLOCK_DESCRIPTION_FIELDS, Some(CLOCK_DESCRIPTION_LIST))
  {
    hide IsFixed, FixedLen;
    Levels(CLOCK_DESCRIPTION_LIST, CLOCK_DESCRIPTION_FIELDS);
    Levels(Down(Down(Down(Down(CLOCK_DESCRIPTION_LIST)))), CLOCK_DESCRIPTION_FIELDS);
  }

  lemma NothingDescribed()
    ensures Describes([], None)
  {
  }

  lemma FixedRight(id: MngId)
    ensures Describes(FixedFields(id), FixedList(id))
  {
    NothingDescribed();
    hide Describes, Scan, Matches, Span, IsFixed, FixedLen, DEFAULT_DATA_SET_FIELDS, CURRENT_DATA_SET_FIELDS,
      PARENT_DATA_SET_FIELDS, TIME_PROPERTIES_DATA_SET_FIELDS, PORT_DATA_SET_FIELDS, TIME_FIELDS,
      UTC_PROPERTIES_FIELDS, TIMESCALE_PROPERTIES_FIELDS, ALTERNATE_MASTER_FIELDS,
      ALTERNATE_TIME_OFFSET_ENABLE_FIELDS, ALTERNATE_TIME_OFFSET_NAME_FIELDS, ALTERNATE_TIME_OFFSET_PROPERTIES_FIELDS,
      TRANSPARENT_CLOCK_PORT_DATA_SET_FIELDS, TRANSPARENT_CLOCK_DEFAULT_DATA_SET_FIELDS,
      EXT_PORT_CONFIG_PORT_DATA_SET_FIELDS, TIME_STATUS_NP_FIELDS, GRANDMASTER_SETTINGS_NP_FIELDS,
      PORT_DATA_SET_NP_FIELDS, SUBSCRIBE_EVENTS_NP_FIELDS, PORT_PROPERTIES_NP_FIELDS, PORT_STATS_NP_FIELDS,
      DEFAULT_DATA_SET_LIST, CURRENT_DATA_SET_LIST, PARENT_DATA_SET_LIST, TIME_PROPERTIES_DATA_SET_LIST,
      PORT_DATA_SET_LIST, TIMESTAMP, UTC_PROPERTIES_LIST, TIMESCALE_PROPERTIES_LIST, ALTERNATE_MASTER_LIST,
      ALTERNATE_TIME_OFFSET_ENABLE_LIST, ALTERNATE_TIME_OFFSET_NAME_LIST, ALTERNATE_TIME_OFFSET_PROPERTIES_LIST,
      TRANSPARENT_CLOCK_PORT_DATA_SET_LIST, TRANSPARENT_CLOCK_DEFAULT_DATA_SET_LIST,
      EXT_PORT_CONFIG_PORT_DATA_SET_LIST, TIME_STATUS_NP_LIST, GRANDMASTER_SETTINGS_NP_LIST, PORT_DATA_SET_NP_LIST,
      SUBSCRIBE_EVENTS_NP_LIST, PORT_PROPERTIES_NP_LIST, PORT_STATS_NP_LIST;
    if id.DEFAULT_DATA_SET? {
      DefaultDataSetRight();
    } else if id.PARENT_DATA_SET? {
      ParentDataSetRight();
    } else if id.PORT_DATA_SET? {
      PortDataSetRight();
    } else if id.TIME? {
      ListsRight5();
    } else if id.TIME_STATUS_NP? {
      TimeStatusNpRight();
    } else {
      ListsRight1();
      ListsRight2();
      ListsRight3();
      ListsRight4();
    }
  }

  lemma VariableRight(id: MngId)
    ensures Describes(VariableFields(id), VariableList(id))
  {
    NothingDescribed();
    ListsRight4();
    ClockDescriptionRight();
    AddressTablesRight();
    OneVariableRight();
    hide Describes, Scan, Matches, Span, IsFixed, FixedLen, CLOCK_DESCRIPTION_FIELDS,
      GRANDMASTER_CLUSTER_TABLE_FIELDS, UNICAST_MASTER_TABLE_FIELDS,
      ALTERNATE_TIME_OFFSET_NAME_FIELDS, PORT_PROPERTIES_NP_FIELDS, SUBSCRIBE_EVENTS_NP_FIELDS, PORT_STATS_NP_FIELDS,
      CLOCK_DESCRIPTION_LIST, GRANDMASTER_CLUSTER_TABLE_LIST, UNICAST_MASTER_TABLE_LIST,
      ALTERNATE_TIME_OFFSET_NAME_LIST, PORT_PROPERTIES_NP_LIST, SUBSCRIBE_EVENTS_NP_LIST, PORT_STATS_NP_LIST;
  }

  lemma OneVariableRight()
    ensures Describes([Field(userDescription, 0, Text(1))], Some(TEXT))
    ensures Describes([Field(faultRecords, 0, List(Uint(2), false, Checked(FAULT_RECORD)))],
                      Some(Table(Unsigned(2), false, Checked(FAULT_RECORD))))
    ensures Describes([Field(pathSequence, 0, Endless(CLOCK_IDENTITY))], Some(Many(8, CLOCK_IDENTITY)))
    ensures Describes([Field(list, 0, List(Sint(2), true, ACCEPTABLE_MASTER))],
                      Some(Table(Signed(2), true, ACCEPTABLE_MASTER)))
  {
    hide IsFixed, FixedLen, Matches;
    TablesMatch();
    TextMatches();
  }

  lemma TextMatches()
    ensures Matches(Text(1), TEXT) && Matches(Endless(CLOCK_IDENTITY), Many(8, CLOCK_IDENTITY))
  {
  }

  lemma TablesMatch()
    ensures Matches(List(Uint(1), true, PORT_ADDRESS), Table(Unsigned(1), true, PORT_ADDRESS))
    ensures Matches(List(Uint(2), true, PORT_ADDRESS), Table(Unsigned(2), true, PORT_ADDRESS))
    ensures Matches(List(Sint(2), true, ACCEPTABLE_MASTER), Table(Signed(2), true, ACCEPTABLE_MASTER))
    ensures Matches(List(Uint(2), false, Checked(FAULT_RECORD)), Table(Unsigned(2), false, Checked(FAULT_RECORD)))
  {
  }

  /** For every ID the table has the fields of its walker, each where the table says. */
  lemma LayoutRight(id: MngId)
    ensures Describes(Layout(id), SchemaOf(id))
  {
    SingleRight(id);
    FixedRight(id);
    VariableRight(id);
    ListsApart(id);
    if SingleField(id).Some? {
      NotEmpty(OneField(id), SingleField(id).value);
    } else if FixedList(id).Some? {
      NotEmpty(FixedFields(id), FixedList(id).value);
    }
    hide SingleField, FixedList, VariableList, OneField, FixedFields, VariableFields;
  }

  /** No ID has two walkers. */
  lemma ListsApart(id: MngId)
    ensures SingleField(id).Some? ==> FixedList(id).None?
  {
  }

  lemma NotEmpty(fs: seq<Field>, s: Schema)
    requires Describes(fs, Some(s))
    ensures fs != []
  {
    if fs == [] {
      NothingScanned(s);
    }
  }

  lemma {:induction false} NothingScanned(s: Schema)
    ensures Scan(s, [], 0, 0) == Mismatch
  {
    if s.Both? {
      NothingScanned(s.first);
    }
  }

  // ---------------------------------------------------------------- records and signaling TLVs

  /** The records of the lists. */
  lemma RecordsRight()
    ensures Describes(PORT_ADDRESS_FIELDS, Some(PORT_ADDRESS))
    ensures Describes(ACCEPTABLE_MASTER_FIELDS, Some(ACCEPTABLE_MASTER))
    ensures Describes(COMPUTED_FIELDS, Some(COMPUTED_RECORD))
    ensures Describes(TX_EVENT_FIELDS, Some(TX_EVENT_RECORD))
  {
    hide IsFixed, FixedLen;
  }

  lemma LongRecordsRight()
    ensures Describes(FAULT_RECORD_FIELDS, Some(FAULT_RECORD))
    ensures Describes(RX_SYNC_FIELDS, Some(RX_SYNC_RECORD))
    ensures Describes(DELAY_FIELDS, Some(DELAY_RECORD))
  {
    hide IsFixed, FixedLen;
    Levels(FAULT_RECORD, FAULT_RECORD_FIELDS);
  }

  lemma MetricsRight()
    ensures Describes(METRIC_FIELDS, Some(ACCURACY_METRICS))
  {
    hide IsFixed, FixedLen;
    Levels(ACCURACY_METRICS, METRIC_FIELDS);
    Levels(Down(Down(Down(Down(ACCURACY_METRICS)))), METRIC_FIELDS);
  }

  lemma SignalingRight()
    ensures Describes(ORGANIZATION_FIELDS, Some(ORGANIZATION))
    ensures Describes(ALTERNATE_OFFSET_FIELDS, Some(ALTERNATE_OFFSET))
  {
    hide IsFixed, FixedLen;
  }

  /** A list behind the fields `a`. */
  lemma ListBehind(a: Schema, size: nat, rec: Schema, fs: seq<Field>, at: nat)
    requires fs != [] && Scan(a, fs, 0, 0) == Next(|fs| - 1, at) && fs[|fs| - 1].at == at
    requires fs[|fs| - 1].kind == Endless(rec)
    ensures Describes(fs, Some(a.Then(Many(size, rec))))
  {
    assert Scan(Many(size, rec), fs, |fs| - 1, at) == Last(|fs|);
  }

  lemma SignalingListsRight()
    ensures Describes(RX_SYNC_DATA_FIELDS, Some(PORT_IDENTITY.Then(Many(34, RX_SYNC_RECORD))))
    ensures Describes(DELAY_DATA_FIELDS, Some(PORT_IDENTITY.Then(Many(30, DELAY_RECORD))))
    ensures Describes(COMPUTED_DATA_FIELDS,
                      Some(PORT_IDENTITY.Then(Flags(0x7)).Then(Reserved).Then(Many(22, COMPUTED_RECORD))))
    ensures Describes(TX_EVENT_DATA_FIELDS,
                      Some(PORT_IDENTITY.Then(UINT8).Then(Reserved).Then(Many(12, TX_EVENT_RECORD))))
  {
    HeadsRight();
    hide Scan, Describes;
    ListBehind(PORT_IDENTITY, 34, RX_SYNC_RECORD, RX_SYNC_DATA_FIELDS, 10);
    ListBehind(PORT_IDENTITY, 30, DELAY_RECORD, DELAY_DATA_FIELDS, 10);
    ListBehind(PORT_IDENTITY.Then(Flags(0x7)).Then(Reserved), 22, COMPUTED_RECORD, COMPUTED_DATA_FIELDS, 12);
    ListBehind(PORT_IDENTITY.Then(UINT8).Then(Reserved), 12, TX_EVENT_RECORD, TX_EVENT_DATA_FIELDS, 12);
  }

  lemma HeadsRight()
    ensures Scan(PORT_IDENTITY, RX_SYNC_DATA_FIELDS, 0, 0) == Next(2, 10)
    ensures Scan(PORT_IDENTITY, DELAY_DATA_FIELDS, 0, 0) == Next(2, 10)
    ensures Scan(PORT_IDENTITY.Then(Flags(0x7)).Then(Reserved), COMPUTED_DATA_FIELDS, 0, 0) == Next(4, 12)
    ensures Scan(PORT_IDENTITY.Then(UINT8).Then(Reserved), TX_EVENT_DATA_FIELDS, 0, 0) == Next(4, 12)
  {
    hide IsFixed, FixedLen;
    Levels(PORT_IDENTITY.Then(Flags(0x7)).Then(Reserved), COMPUTED_DATA_FIELDS);
    Levels(PORT_IDENTITY.Then(UINT8).Then(Reserved), TX_EVENT_DATA_FIELDS);
  }

  /** The table of the signaling TLVs: exactly the types that parseSig keeps, with the fields of their walkers. */
  lemma SigLayoutRight(tlvType: nat, linuxptp: bool)
    ensures SigLayout(tlvType, linuxptp).Some? <==> SigSchema(tlvType, linuxptp).Some?
    ensures SigLayout(tlvType, linuxptp).Some? ==>
              Describes(SigLayout(tlvType, linuxptp).value, SigSchema(tlvType, linuxptp))
  {
    RecordsRight();
    MetricsRight();
    SignalingRight();
    SignalingListsRight();
    FlagsRight();
    hide Describes, IsFixed, FixedLen;
  }

  lemma FlagsRight()
    ensures Describes([Field(flags1, 0, Bits(0xf)), Field(flags2, 1, Bits(0x7))], Some(Flags(0xf).Then(Flags(0x7))))
    ensures Describes([Field(syncMessageAvailability, 0, Bits(0xf)), Field(delayRespMessageAvailability, 1, Bits(0xf))],
                      Some(Flags(0xf).Then(Flags(0xf))))
    ensures Describes([Field(pathSequence, 0, Endless(CLOCK_IDENTITY))], Some(Many(8, CLOCK_IDENTITY)))
    ensures Describes([Field(scaledCumulativeRateRatio, 0, Sint(4))], Some(INT32))
  {
    hide IsFixed, FixedLen;
  }
}
