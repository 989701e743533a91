# A verified model of the PTP management library

The library builds and parses management messages of the Precision Time Protocol (IEEE Std 1588-2008) and parses
signaling messages. Its centre is the class `Message`: one set of field walkers encodes or decodes according to one
flag, over a cursor that moves through a message. This project models that class and the smaller parts around it, and
proves what a caller relies on: what is built is parsed back, the planned length is the exact length, no octet outside
the given room is touched, a stream of TLVs is parsed as if each TLV stood alone, and some facts hold after every run.

| file | content |
|---|---|
| `Octets.dfy` | octets, byte orders, bit masks |
| `Schema.dfy` | a field list as a value: what its walker emits, normalises, decodes and when it fails |
| `Walkers.dfy`, `Decoding.dfy` | theorems over every field list, by induction over the schema |
| `Ids.dfy`, `Sizes.dfy` | the table of management IDs, their field lists and the separately written size functions |
| `Cursor.dfy` | the cursor object and one method for each primitive `proc`, for the walkers and for the list macros |
| `Signaling.dfy` | the signaling stream: split into frames, filter, decode each alone |
| `Layouts.dfy` | a table of the place, width, kind and mask of every field of every TLV, written without the walkers |
| `LayoutTables.dfy`, `Placing.dfy` | the walkers agree with that table: what is sent and read at each place |
| `MessageSpec.dfy` | the state of a `Message` object and the specification of its operations |
| `MessageObjects.dfy` | the `Message` object itself, working on a caller's buffer |
| `Exchange.dfy` | theorems about whole messages and about every run of calls |
| `Outcomes.dfy` | when each operation succeeds or refuses, over the caller's arguments and the octets alone |
| `Binary64.dfy` | the software IEEE 754 conversion over exact reals |
| `Texts.dfy`, `Quotes.dfy`, `Json.dfy` | identity and hex texts, quoted command line strings, the JSON emitter |

A walker `n##_f` is a value of the datatype `Schema`, a structure is a `Value`, and one pair of theorems by induction
serves all 58 IDs and all signaling TLVs. `WellFormed` says that every text and address fits its length field, every
list its count field, every 48-bit number its range, and every fault record its declared length. The objects
(`Cursors.Cursor`, `MessageObjects.Message`, `Json.Emitter`) are proved against pure functions (`Emit`, `Decode`,
`Attempt`, `BuildSpec`, `ParseSpec`, `SigRun`, `Step`), and the theorems are about those functions. What these functions
do is also fixed from the outside: by the table of field places (`Layouts.Layout`), by the octet offsets of messages, and
by equivalences that say when an operation succeeds in terms a caller can read.

Where the code departs from what it seems meant to do, the model does what the code does:

- `proc(Float64_t)` moves the cursor twice (msg.cpp:1116 and msg.cpp:1142). `Signaling.OverranExactly` says exactly
  which frames displace the cursor: ENHANCED_ACCURACY_METRICS with 116 to 123 octets. A TLV of the 84 octets its fields
  have is refused (`Signaling.AccuracyMetricsLengths`). `Signaling.SigRun` follows the displaced cursor,
  `Signaling.RunRefinesSpec` says when the loop still decodes frame by frame, and `Signaling.DisturbedStream` is a
  message where it does not.
- The signed 48-bit decoder does not extend the sign (msg.cpp:984-989): `Cursors.Signed48RoundTrip`.
- CLOCK_DESCRIPTION's size function counts one octet less than its walker moves (proc.cpp:18): `Sizes.SizeAgreement`
  says when the two still agree. The ID can only be sent with GET, where they do.
- The signaling TLV ALTERNATE_TIME_OFFSET_INDICATOR reads `timeOfNextJump`, a 48-bit number, as 8 octets (sig.cpp:27):
  `Signaling.OffsetIndicatorShifted` says what becomes of a TLV in its own layout, for every name.
- A build that fails has already stored lengths, counts and flags in the caller's structure (msg.cpp:1247-1288,
  proc.cpp:207-231): `Schema.Attempt` is the structure it leaves, and `Exchange.BuildRetry` says that this does no harm.
- A quoted text that ends in an escaped backslash is not closed at its own quote (pmc_dump.cpp:648):
  `Quotes.QuoteRoundTrip` is an equivalence.
- A port identity text with nothing behind the dash is accepted as port 0, since `strtol` then reads nothing and stops
  at the terminator (pmc.cpp:82-84): `Texts.EmptyPort`; `Texts.PortTails` gives all texts that are accepted there.
- `proc(Binary &, uint16_t)` checks the length modulo 2^16 and copies the whole address (msg.cpp:1158-1170, bin.h:121):
  `Cursors.LongAddressesOnly`.
- msg2json names a signaling message "Unsupported", because a `break` is missing (json.cpp:717-720).

## Model

| member | source | states |
|---|---|---|
| `Octets.BigEndianRoundTrip` | msg.cpp:884-934 | a number that fits is read back from its network order octets |
| `Octets.FromBigEndianRoundTrip` | msg.cpp:884-934 | writing what was read gives the same octets, and what was read fits |
| `Octets.LittleEndianRoundTrip` | msg.cpp:1289-1299 | the same for the little-endian counters of PORT_STATS_NP |
| `Octets.BigEndianDigit` | msg.cpp:884-934 | octet i of a number in network order is its digit at 256 to the power of w - 1 - i |
| `Octets.LittleEndianDigit` | msg.cpp:1289-1299 | and in the little-endian counters its digit at 256 to the power of i |
| `Octets.AndBits` | msg.cpp:1279-1288 | masking bit by bit: bit k of the result is 1 if and only if bit k of the flags and bit k of the mask are 1 |
| `Octets.AndIdempotent` | msg.cpp:1279-1288 | masking twice masks once |
| `Schema.PutThenGet` | msg.cpp:873-1003 | every integer overload of proc decodes what it encoded, for each width, sign and byte order |
| `Schema.GetThenPut` | msg.cpp:873-1003 | and encodes back to the octets it decoded |
| `Walkers.NormalizeStable` | msg.cpp:1247-1288 | building normalises a structure once: a normalised structure stays as it is and gives the same octets |
| `Walkers.NormalizeKeepsError` | msg.cpp:1247-1288 | normalising changes neither whether nor how a build fails, in any room |
| `Walkers.AttemptKeeps` | msg.cpp:1247-1288 | a structure left half done by a failed build still normalises to the same structure |
| `Walkers.AttemptSendsSame` | msg.cpp:1247-1288 | it is sent as the same octets, and fails in the same rooms with the same errors |
| `Walkers.AttemptDone` | msg.cpp:1247-1288 | a walker that does not fail has normalised every part |
| `Walkers.BuildThreshold` | msg.cpp:873-1181 | a walker succeeds if and only if its 48-bit numbers and fault records are in range and the room holds exactly the octets it emits; in range it fails only with TOO_SMALL |
| `Walkers.RoundTrip` | proc.cpp:87-347 | for every field list and every well-formed structure, decoding what was emitted, at any place and followed by octets the list tolerates, gives the normalised structure and stops at its end |
| `Walkers.CountFits` | proc.cpp:207-231 | the count that a build sets is read back as the number of records if and only if the list fits its count field, with its sign |
| `Walkers.WellFormedInRange` | msg.cpp:906-923 | well-formed data never make a build fail with a value error |
| `Decoding.DecodeSound` | msg.cpp:873-1181 | for arbitrary octets, what decodes is well formed, the cursor moved by exactly the octets a build of it takes and stayed in the field, and without flags and reserved octets a build of it gives back those octets |
| `Decoding.DecodedIsWellFormed` | proc.cpp:87-347 | whatever was parsed can be sent |
| `Decoding.RoundTripExact` | msg.cpp:1145-1170 | the round trip holds if and only if the structure is well formed |
| `Decoding.NormalizeKeepsWellFormed` | msg.cpp:1247-1288 | normalising neither repairs nor breaks a structure |
| `Decoding.DecodeMoved` | msg.cpp:488-567 | a walker depends only on the octets of its field, not on where the field stands |
| `Decoding.FixedDecodes` | msg.cpp:873-905 | a fixed field list fails only for want of room |
| `Decoding.ManyTakesAll` | msg.h:1011-1022 | vector_o never fails, takes the left octets divided by size() records and leaves the remainder |
| `Decoding.TableTakesCount` | msg.h:1000-1010 | vector_f gives exactly the declared count, never more than the room allows, and fails when the count, read as uint32_t, cannot fit; this includes a negative actualTableSize |
| `Decoding.AtLeastMinLen` | msg.h:1000-1010 | every decoded record takes at least its minimal length |
| `Sizes.TableRows` | ids.h:69-131 | findTlvId finds every ID of the table by its value, so the values are distinct |
| `Sizes.NegativeSizes` | ids.h:69-131 | a negative size is -2, for the IDs with a size function |
| `Sizes.TableKinds` | ids.h:69-131 | the sign of the table's size tells the kind of walker |
| `Sizes.TableProper` | proc.cpp:87-347 | an ID has a walker unless its size is 0; every walker meets the conditions of the theorems over field lists (its fields are fixed by `LayoutTables.LayoutRight`) |
| `Sizes.TableLengths` | ids.h:69-131 | for every fixed ID the table's size is the number of octets its walker moves, made even |
| `Sizes.CalculatedSizes` | proc.cpp:16-54 | every size function n##_s gives the octets its walker emits, through texts, addresses and lists; CLOCK_DESCRIPTION one less |
| `Sizes.SizeAgreement` | proc.cpp:56-71 | for every ID and structure the planned dataField is the emitted octets and the padding; for CLOCK_DESCRIPTION if and only if the emitted number is even |
| `Sizes.FaultRecordConsumes` | msg.cpp:1263-1274 | an accepted FaultRecord has consumed exactly the octets its faultRecordLength declares |
| `Sizes.FaultRecordAccepted` | msg.cpp:1263-1274 | a fault record sent by a build is accepted if and only if it declares the length it has |
| `Sizes.FaultRecordEmits` | msg.h:399-402 | FaultRecord_t::size() is what the walker emits |
| `LayoutTables.LayoutRight` | proc.cpp:87-347 | for every ID the table of fields holds exactly the fields of its walker, in order, each with the octet offset, width, kind and mask of section 15.5.3 of IEEE Std 1588-2008 |
| `LayoutTables.SigLayoutRight` | sig.cpp:14-74 | the same for every signaling TLV; the types in the table are those that parseSig keeps |
| `LayoutTables.RecordsRight` | sig.cpp:75-100 | the same for the records of the lists: port addresses, acceptable masters, computed data, event timestamps |
| `LayoutTables.LongRecordsRight` | msg.cpp:1263-1274 | and for fault records and the records with two timestamps |
| `LayoutTables.MetricsRight` | sig.cpp:29-38 | and for the fields of ENHANCED_ACCURACY_METRICS, each floating point field taking 16 octets |
| `Placing.DescribedSent` | proc.cpp:87-347 | of a structure that a table describes, a build sends field k at the place of the table, moved on by the texts and addresses before it: numbers in network order, counters least significant octet first, flags bit by bit inside the mask or 1 if and only if the single flag is set, reserved octets 0, texts behind their length, records behind their count |
| `Placing.DescribedRead` | proc.cpp:87-347 | and a parse makes of arbitrary octets in each field what stands at that place |
| `Placing.ManagementFieldSent` | proc.cpp:87-347 | so for every field of every management ID in a build |
| `Placing.ManagementFieldRead` | proc.cpp:87-347 | and in a parse |
| `Placing.SignalingFieldRead` | sig.cpp:14-74 | and for every field of every signaling TLV |
| `Cursors.Cursor.Move` | msg.h:554-558 | the cursor and the octets left move by the same number |
| `Cursors.Cursor.ProcOctets` | msg.cpp:1171-1181 | fails exactly when too few octets are left, else copies them in the one direction or the other, with everything else unchanged |
| `Cursors.Cursor.ProcNumber` | msg.cpp:873-905 | the integer overloads: Put in build, Get in parse |
| `Cursors.Cursor.Proc48` | msg.cpp:906-923 | writes the 6 octets of exactly the numbers below 2^48, else VAL; reads them back |
| `Cursors.Cursor.ProcSigned48` | msg.cpp:968-991 | writes the 48-bit two's complement of exactly the numbers in range, else VAL; reads bit 47 into bit 63 |
| `Cursors.Signed48RoundTrip` | msg.cpp:968-991 | the signed decoder inverts the encoder if and only if the number is not negative; a negative one comes back lower by 2^63 - 2^47 |
| `Cursors.Cursor.ProcFlags` | msg.cpp:1279-1288 | masks in build, also when no octet is left, and leaves the octet in parse; the mask is that of `Octets.AndBits` |
| `Cursors.Cursor.ProcSized` | msg.cpp:1258-1262 | a text or address with its length: sets the length in build, also when it fails, and reads that many octets in parse |
| `Cursors.LongAddressesOnly` | msg.cpp:1158-1170 | an address can be written outside the room it was given if and only if it has 65536 octets or more |
| `Cursors.Cursor.ProcFloat64` | msg.cpp:1104-1144 | moves 8 octets, in either direction, and the cursor by 16 |
| `Cursors.Cursor.Walk` | proc.cpp:87-347 | every walker: in build it writes Emit and leaves Normalize, or fails as BuildError says, leaves Attempt and changes no octet outside its room; in parse it gives Decode of the field and changes no octet; cur + left is constant |
| `Cursors.Cursor.BuildItems` | msg.h:993-999 | the loop of vector_b writes all records in order, or fails at the first that does not fit, with the records before it normalised and those after it untouched |
| `Cursors.Cursor.ParseCount` | msg.h:1000-1010 | the loop of vector_f |
| `Cursors.Cursor.ParseMany` | msg.h:1011-1022 | the loop of vector_o |
| `Cursors.Cursor.WalkChecked` | msg.cpp:1263-1274 | a fault record with another length than it declares ends in SIZE_MISS |
| `Signaling.RecordSizes` | sig.cpp:75-100 | the size() of each signaling record is what its walker moves |
| `Signaling.SigSchemasProper` | sig.cpp:14-74 | the signaling walkers meet the conditions of the theorems over field lists |
| `Signaling.SplitJoined` | msg.cpp:492-500 | frames written one after the other are found again, whatever follows |
| `Signaling.JoinSplit` | msg.cpp:492-500 | the frames found and the rest are the stream, nothing lost or repeated |
| `Signaling.RestIsShort` | msg.cpp:492-500 | what remains holds no complete frame |
| `Signaling.RunRefinesSpec` | msg.cpp:488-567 | the loop gives "split into frames, drop filtered ones, decode each alone, keep the order", whatever stands behind the message, unless a displaced cursor goes on reading |
| `Signaling.SigConcatenation` | msg.cpp:488-567 | on complete decodable frames followed by any octets the loop gives the concatenation of the two results, with the status of the second, also where the second displaces the cursor |
| `Signaling.FilteringCommutes` | msg.cpp:501-506 | without a displaced cursor the filter on gives the same TLVs and status as the filter off on the stream without the disallowed frames; which frames these are is fixed by the next rows |
| `Signaling.OnlyAllowedKept` | msg.cpp:501-506 | with the filter on every TLV kept, of any stream and cursor, has its type in allowSigTlvs |
| `Signaling.AllAllowed` | msg.cpp:501-506 | a stream of types in allowSigTlvs gives the same with the filter on and off |
| `Signaling.NoneAllowed` | msg.cpp:501-506 | a stream of other types gives no TLV and SIG, or TOO_SMALL when it is cut short |
| `Signaling.EveryFrameKept` | msg.cpp:488-567 | decodable frames are all kept, in their order, with SIG |
| `Signaling.RefusedEnds` | msg.cpp:507-567 | a refused frame ends the loop with its error, and what was kept before stays |
| `Signaling.OwnTlvKept` | msg.cpp:507-559 | a TLV of a known type is kept with the structure it was written from |
| `Signaling.ManagementTlvKept` | msg.cpp:533-552 | a MANAGEMENT TLV of a known ID is kept with its ID and structure, with any padding |
| `Signaling.OtherTlvs` | msg.cpp:507-559 | unknown types and MANAGEMENT TLVs of an unknown ID or without data are ignored, a MANAGEMENT TLV of less than two octets is refused |
| `Signaling.ShortTlvRefused` | msg.cpp:507-559 | a TLV too short for its fields is refused |
| `Signaling.AccuracyMetricsLengths` | sig.cpp:29-38 | ENHANCED_ACCURACY_METRICS needs 116 octets and moves the cursor by 124 |
| `Signaling.OverranExactly` | msg.cpp:1004-1144 | a frame displaces the cursor if and only if it is ENHANCED_ACCURACY_METRICS of 116 to 123 octets, and then to 124 octets behind its beginning |
| `Signaling.NeverDisturbed` | msg.cpp:488-567 | without such a frame that passes the filter no cursor is displaced |
| `Signaling.DisturbedStream` | msg.cpp:488-567 | with such a frame before another one the loop reads behind the message, where decoding frame by frame would succeed |
| `Signaling.OffsetIndicatorShifted` | sig.cpp:24-28 | ALTERNATE_TIME_OFFSET_INDICATOR in its own layout is kept if and only if the name has two octets and the second counts no more than those behind it; the time kept is then 65536 times the time plus the name's length and first octet, the name kept starts at the third octet |
| `MessageObjects.Message.constructor` | msg.cpp:210-227 | the initial state |
| `MessageObjects.Message.WithParams` | msg.cpp:228-242 | the initial state; a transportSpecific above 15 becomes 0 |
| `MessageObjects.Message.UpdateParams` | msg.cpp:270-276 | refuses a transportSpecific above 15 without a change |
| `MessageObjects.Message.UseConfig` | msg.cpp:623-631 | the same for values of a configuration file |
| `MessageObjects.Message.SetAllClocks` | msg.cpp:613-617 | addresses all clocks and ports |
| `MessageObjects.Message.SetAction` | msg.cpp:284-294 | refuses actions the table does not allow and actions that need data, exactly as `Outcomes.SetActionExactly` says |
| `MessageObjects.Message.SetActionData` | msg.cpp:295-308 | keeps the caller's structure only for SET and COMMAND of an ID with a dataField, exactly as `Outcomes.SetActionDataExactly` says |
| `MessageObjects.Message.GetMsgPlanedLen` | msg.cpp:243-269 | the planned length, or -2 without the data it needs |
| `MessageObjects.Message.Build` | msg.cpp:309-374 | the status, state and message of BuildSpec; octets behind the message stay; the caller's structure is normalised, or on failure left as Attempt says |
| `MessageObjects.Message.BuildWalked` | msg.cpp:343-353 | the dataField and its padding octet, or the walker's error, and in each case the structure that is left |
| `MessageObjects.Message.Parse` | msg.cpp:375-475 | the status and state of ParseSpec on the received octets; the buffer is only read |
| `MessageObjects.Message.CheckType` | msg.cpp:380-396 | the checks that depend on the message type |
| `MessageObjects.Message.ParseMngTlv` | msg.cpp:452-474 | the MANAGEMENT TLV, with the early OK on an empty dataField |
| `MessageObjects.Message.ParseErr` | msg.cpp:428-449 | the MANAGEMENT_ERROR_STATUS TLV |
| `MessageObjects.Message.ParseFrame` | msg.cpp:507-559 | one signaling frame as if it stood alone, and the resynchronisation: cursor and octets left add up to the frame's end |
| `MessageObjects.Message.ParseTlvBody` | msg.cpp:501-565 | one round of the loop: the filter, the TLV and where the cursor goes |
| `MessageObjects.Message.ParseSig` | msg.cpp:488-567 | the loop does what SigRun says, from the buffer and the message size, with the cursor displaced where the source displaces it |
| `MessageObjects.Assembled` | msg.cpp:309-374 | the stores of a build, in their order, make up the message |
| `MessageObjects.StaysInside` | msg.h:554-558 | without a floating point field the cursor never passes the end of its field |
| `Exchange.SetActionMakesSendable` | msg.cpp:284-308 | a successful setAction leaves an object that is ready to send |
| `Exchange.BuildExactly` | msg.cpp:243-374 | after setAction with values in range, build returns OK if and only if the buffer has the planned length, else TOO_SMALL; m_msgLen is then the planned length, which is even and at least 54 |
| `Exchange.LengthFields` | msg.cpp:367-373 | messageLength is the whole message and lengthField 52 less |
| `Exchange.HeaderLayout` | msg.cpp:315-334 | where each field of the header stands (section 13.3 of IEEE Std 1588-2008) |
| `Exchange.TlvLayout` | msg.cpp:335-373 | where each field of the TLV stands (section 15.5.2 of IEEE Std 1588-2008) |
| `Exchange.GetSendsEmpty` | msg.cpp:354-366 | the zeros GET sends are an empty structure of the ID and its padding |
| `Exchange.EchoRoundTrip` | msg.cpp:309-475 | with only the action octet changed to the matching reply, a built message is parsed with OK by any receiver that knows the ID, with the same sequence, domain, sdoId, port identities and ID; the data are the structure build left, or the empty structure for GET |
| `Exchange.BuildRetry` | msg.cpp:309-374 | after any build, failed or not, a build ends with the same status, octets and state as it would have before: a failed build can be repeated in a larger buffer |
| `Exchange.BuildKeepsPlan` | msg.cpp:243-374 | any build leaves the object as ready to send, with the same planned length |
| `Exchange.BuildIdempotent` | msg.cpp:343-371 | a second build with the same sequence leaves the structure and state alone and writes the same octets |
| `Exchange.ParseLocality` | msg.cpp:424-474 | for a management message with as many octets as its lengthField says, octets behind it change neither status nor any parsed field, whether it is accepted or refused |
| `Exchange.AcceptedIsFramed` | msg.cpp:424-474 | OK or an error status needs 52 octets and the lengthField, and only TOO_SMALL can be changed by further octets |
| `Exchange.SignalingLocality` | msg.cpp:415-420 | a signaling message without a displaced cursor does not depend on what stands behind it and gives what decoding frame by frame gives |
| `Exchange.InitialInvariant` | msg.cpp:210-242 | every constructor establishes the invariant of the runs |
| `Exchange.StepKeeps` | msg.cpp:270-475 | every call keeps it |
| `Exchange.EveryRun` | msg.cpp:210-475 | after every run: transportSpecific at most 15, the reply action RESPONSE or ACKNOWLEDGE, m_msgLen 0 or even and at least 54, data to send only for SET and COMMAND |
| `Exchange.DataGetChanges` | msg.cpp:463-474 | in every run m_dataGet is replaced only by a parse that ends in OK with a dataField |
| `Outcomes.SetActionExactly` | msg.cpp:284-294 | without data setAction succeeds if and only if the action is GET of a readable ID, or SET or COMMAND of a settable or commandable ID without a dataField, and the ID is none of 0xc000 to 0xc006 unless linuxptp is chosen; then sendAction and tlvId are the arguments, else nothing changes |
| `Outcomes.SetActionDataExactly` | msg.cpp:295-308 | with data it succeeds if and only if the ID is readable, settable or commandable, as the action asks, with the same rule for linuxptp; it keeps the data exactly for SET and COMMAND of an ID with a dataField |
| `Outcomes.IdFound` | msg.cpp:168-183 | a value is found if and only if it is that of an ID of the table, and not one of linuxptp unless linuxptp is chosen |
| `Outcomes.ReplyFitsExactly` | msg.cpp:184-192 | ACKNOWLEDGE fits the commandable IDs, RESPONSE those that can be read or set |
| `Outcomes.ParamsExactly` | msg.cpp:270-276 | parameters are taken, as they are, if and only if transportSpecific is below 16, and of a configuration only transportSpecific and the domain |
| `Outcomes.PlannedLength` | msg.cpp:243-269 | the planned length from the action, the ID and the octets of the structure |
| `Outcomes.MessageSent` | msg.cpp:309-374 | the octets of a built message: action, TLV type, ID, and behind octet 54 the structure with a zero octet when it is odd, or zeros for GET |
| `Outcomes.MessageFieldSent` | proc.cpp:87-347 | every field of the structure stands in the built message at octet 54 and its place in the table |
| `Outcomes.TimeOutOfRange` | msg.cpp:906-923 | a TIME of 2^48 seconds or more, and no other, is refused with VAL in any buffer that takes a message |
| `Outcomes.HeaderRefused` | msg.cpp:375-414 | parse ends in HEADER if and only if the message is long enough and its type, control field, version or interval is not that of an accepted message |
| `Outcomes.HeaderKept` | msg.cpp:397-414 | after a good header the object holds the type, versions, sdoId, domain, unicast flag, sequence and port identities of the header octets |
| `Outcomes.SignalingOutcome` | msg.cpp:415-420 | a signaling message is filtered by the object's own parameters; the TLVs held are those of the loop, with the filter on only of allowed types |
| `Outcomes.ManagementRefused` | msg.cpp:420-460 | parse ends in ACTION, INVALID_TLV and INVALID_ID each if and only if the action nibble, TLV type and ID field of the octets say so |
| `Outcomes.DataReplyOutcome` | msg.cpp:452-474 | how a reply of a known ID ends by its lengthField, and which octets are the dataField |
| `Outcomes.MessageFieldRead` | proc.cpp:87-347 | every field of the data parsed is what stands in the message at octet 54 and the field's place in the table |
| `Outcomes.ErrorReplyParsed` | msg.cpp:428-449 | a MANAGEMENT_ERROR_STATUS with error e, ID and text is parsed to MSG with errorId e, that ID and that text; without displayData the old text stays |
| `Outcomes.ErrorReplyOutcome` | msg.cpp:428-449 | for any octets of an error status of a known ID: MSG if and only if its lengthField is even, at least 8, inside the message, and holds the text; else TOO_SMALL |
| `Binary64.FloorLog2` | msg.cpp:1065 | the exponent is the one with 2^e <= x < 2^(e+1) |
| `Binary64.DecodeThenEncode` | msg.cpp:1034-1141 | a 64-bit word is decoded and encoded back to itself if and only if it is not a NaN with a mantissa above 1 |
| `Binary64.EncodeThenDecode` | msg.cpp:1034-1141 | a number of the normal range comes back with its sign, not larger, and with a relative error below 2^-52 |
| `Binary64.EncodeTotal` | msg.cpp:1063-1098 | encoding fails if and only if the magnitude is 2^1024 or more, and gives a zero word only for zero |
| `Binary64.EncodeMonotone` | msg.cpp:1063-1102 | encoding is monotone on positive finite numbers |
| `Binary64.KnownWords` | msg.cpp:1118-1141 | the words of 1, -2, both infinities and zeros, and of the least number above zero |
| `Texts.BufToHex` | bin.cpp:148-159 | the loop gives two hex digits for each octet |
| `Texts.BufToId` | bin.cpp:64-76 | the same with colons between |
| `Texts.FromHex` | bin.cpp:115-147 | the loop over tokens and pairs of digits reads what the specification reads |
| `Texts.FromId` | bin.cpp:77-100 | the loop over tokens reads what the specification reads |
| `Texts.HexWithSeparators` | bin.cpp:115-147 | runs of ':', '.' and '-' at octet boundaries do not change what is read |
| `Texts.SeparatorsExactly` | bin.cpp:77-147 | between two octets exactly a colon, a dot and a dash are skipped |
| `Texts.PairExactly` | bin.cpp:115-147 | what two characters stand for, as strtol takes them: two digits, or one behind a space or a plus sign, or "-0" |
| `Texts.SingleExactly` | bin.cpp:115-147 | one character stands for its digit, or is refused |
| `Texts.DigitsExactly` | bin.cpp:115-147 | digits are read in lower and upper case, and no other character is one |
| `Texts.HexDigitsAt` | bin.cpp:148-159 | octet i gives its two lower-case digits at 2i, the high digit first |
| `Texts.IdDigitsAt` | bin.cpp:64-76 | at 3i, with a colon behind each octet but the last |
| `Texts.ClockTextAt` | msg.cpp:845-851 | a clock identity is 18 characters with dots at 6 and 11, and where each digit stands |
| `Texts.PortTextAt` | msg.cpp:852-858 | a port identity is the clock, a dash at 18 and the decimal port without leading zeros |
| `Texts.HexRoundTrip` | bin.cpp:115-159 | fromHex undoes toHex for every non-empty octet string |
| `Texts.IdRoundTrip` | bin.cpp:64-100 | fromId undoes toId for every non-empty octet string |
| `Texts.UpdatePortIdentity` | pmc.cpp:72-89 | the parsing of a target port identity |
| `Texts.PortTextRoundTrip` | msg.cpp:845-858 | updatePortIdentity restores every port identity from its text |
| `Texts.PortTails` | pmc.cpp:81-86 | behind a clock identity and a dash exactly the numerals of strtol with a value of a port, and nothing at all, are read |
| `Texts.EmptyPort` | pmc.cpp:81-86 | nothing behind the dash is port 0 |
| `Quotes.FindClose` | pmc_dump.cpp:646-652 | the first closing quote with no backslash before it, or none |
| `Quotes.ParseQuote` | pmc_dump.cpp:638-701 | the unescaped text stands terminated where the quoted text began, the rest of the line is unchanged, the next token begins behind the quote; without a closing quote nothing changes |
| `Quotes.UnescapeInPlace` | pmc_dump.cpp:659-699 | the loop with two cursors equals the left-to-right function, and writes never pass reads |
| `Quotes.UnescapeEscape` | pmc_dump.cpp:663-694 | unescaping undoes an escaping that writes control characters as their letters and escapes the quote and the backslash |
| `Quotes.QuoteRoundTrip` | pmc_dump.cpp:646-699 | an escaped text is closed at its own quote, and read back, if and only if it does not end in a backslash |
| `Json.ForestSpells` | json.cpp:79-128 | every balanced run of calls is the run of a tree |
| `Json.CallsAreBalanced` | json.cpp:79-128 | the calls of a tree are balanced and give that tree back |
| `Json.EveryBalancedRun` | json.cpp:56-128 | every balanced run appends what the recursive printer gives for its tree: a comma before every member but the first, each at the indentation of its depth; the stack is restored |
| `Json.Emitter.StartName` | json.cpp:71-78 | separator, line, indentation and name |
| `Json.Emitter.CloseGroup` | json.cpp:85-91 | closes at the depth below and takes back the saved flag |
| `Json.Emitter.ProcAll` | json.cpp:129-242 | the nested calls of the walkers print their nodes |
| `Json.Msg2Json` | json.cpp:702-760 | the calls of msg2json print the document of the message's tree |
| `Json.DocumentText` | json.cpp:702-760 | the whole text of msg2json, character by character: each name with the value of its field, the braces and the indentation |
| `Json.EmptyArrayPrinted` | json.cpp:262-267 | an array is opened and closed by its brackets |

## Left out

- ParseSig: when a displaced cursor stands on a frame that reaches behind the caller's buffer, where a read is undefined,
  the model ends in the status `Overrun`, which is not a status of the library, also for a frame that would be skipped.
- Build: texts and addresses are bounded by 65535 octets. The source cuts a longer text to its length modulo 2^16, while
  its size functions count the whole text; a longer address is written outside the room (`Cursors.LongAddressesOnly`).
- ProcFloat64: the build direction is used by no walker, since no management TLV has such a field.
- Parse: enumerated fields are numbers; the cast of a value outside the enumeration is not modelled. An ID without a
  walker leaves no data, where the source leaves a pointer unset (msg.cpp:139-143, 468-472).
- UseConfig: the values of a configuration file are arbitrary octets; the file itself is not part of this model.
- Msg2Json: names of enumerated values and the nodes of the data walkers are parameters; JSON string escaping does not
  exist in the source and no JSON validity is claimed. An array is always empty in the source.
- ParseQuote: the skipping of separators before the opening quote and the split into tokens by `strtok_r`.
- ProcAll: the calls of each `proc_*` function are given as a tree.
- EncodeThenDecode: `log2l` and `exp2l` are exact; the branches that copy the host's own representation are left out.
- Null buffers, allocation failure, alignment and packed structure layout; the signaling TLV objects' copy operations.
- The lengthField of the error display, which only mirrors the text.
- Sockets, timers, the configuration file, the dump functions, command line keys, IP address texts, language bindings.
