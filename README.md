# genie-rec recorded-game codec, modelled in Dafny

This project models the core of the `genie-rec` crate, which reads Age of
Empires II recorded games (`.mgx`/`.aoe2record`). It covers four parts:

- **The action stream** (`actions.rs`). This is a sequence of command
  frames. Each frame is a u32 length, an opcode byte and that opcode's
  command, read inside a window of the stated length. The rest of the
  window is drained, and a u32 world time follows outside it.
  - The commands are Order, Stop, Work, Move, Create and the others, plus
    the nested Game sub-protocol (`RawGameCommand`, `GameCommand`).
  - Around the frames sit the outer records: view lock, time, sync, meta,
    chat and the `Action` wrapper.
  - Objects lists are count-prefixed id lists. Their count width decides
    whether 0xFF means "same as last" or an empty list.
  - Most commands have a writer, and their round trips are proved.
- **Persisted unit actions** (`unit_action.rs`). These are zero-terminated
  lists of tagged actions. Each carries a version-dependent state width,
  a nested sub-action list and a tag-dispatched parameter payload.
- **Unit objects** (`unit.rs`). These are class-gated attribute blocks:
  - static, animated, moving, action, base combat, missile, combat and
    building;
  - sprite lists with a writer;
  - path data, the unit AI and its records;
  - the building's gather point, linked children and production queue.
- **The save header** (`header.rs`). This covers:
  - the AI scripts (commands, rules split into facts and actions, lists,
    group tables, the fact state);
  - the particle system;
  - the flag- and version-gated fields of the header.

## How it is modelled

Bytes are `seq<Byte>`. Every integer width of the source is an integer
subset type (`U16`, `I32`, …), and two's-complement readings are written
out (`Signed8`, `Unsigned32`, …). An `f32` is kept as its 32-bit pattern
(`F32`), so round trips are bit-exact. The few float comparisons the source
makes, `f32_neq!(x, -1.0)`, `x >= 0.0` and turning the header's save version
into a number, are parameters of type `Wire.Floats`. Versions are integer
hundredths: 11.76 is 1176.

Every reader has two forms:

- **The specification:** a function from the remaining input to
  `Result<T> = Ok(value, rest) | Fail(error)`. What it consumes is the
  difference between the input and `rest`.
- **The imperative reader:** a method on a `Streams.Cursor` that advances
  the cursor step by step, as the source's `Read` does. It runs the
  source's loops (reading ids into a vector, filling the fixed waypoint
  and queue buffers in place, draining a frame's window). Each such method
  is proved to return exactly its specification function's result and to
  leave the cursor at `rest`.

The writers work the same way:

- **The specification:** a function to `Option<Bytes>`, where None means
  the source panics on a narrowing `unwrap()`.
- **The imperative writer:** a `Streams.Sink` method whose output grows by
  exactly those bytes.

Failures are classified as follows:

- `Truncated`: short input.
- `Unsupported`: an unknown opcode, sub-opcode or tag.
- `BadGuard`: a failed `assert!` or guard value.
- `OutOfRange`: a failed `try_into().unwrap()`.
- `Unimplemented`: a reached `todo!()`.

Code outside the modelled files is a parameter sized by the number of
bytes it takes (`Wire.ForeignFrom`). This covers the game version, the
string table, the map, the players, the scenario and the unit-type record.
The unit base-class conversion is a parameter too.

The "## Findings" section records three writers that do not produce what
their readers read. For each, the Dafny has the writer as written, a lemma
exhibiting the discrepancy, and a corrected writer whose round trip is
proved.

## Model

Some decoders only compute: their contracts are the lemmas about them, so
the table rows those lemmas, not the decoders. Each such source reader maps
to its decoder, and to the rows that state its behaviour, as follows:

- `Command::read_from` (actions.rs:1410-1454) is `Frames.CommandFrom`, with the opcode dispatch `Frames.PayloadFrom`: `Frames.FrameReadsBody`, `FrameConsumes`, `FrameRoundTrip`, `PayloadFollowsTable`, `UnknownOpcodeFails`.
- `ObjectsList::read_from` is `ObjectLists.ObjectsListFrom`: `ObjectLists.ObjectsListByCount`, `ObjectsListRoundTrip`.
- `OrderCommand`, `StopCommand`, `WorkCommand`, `MoveCommand`, `AIOrderCommand`, `GroupWaypointCommand`, `UnitAIStateCommand`, `PatrolCommand`, `FormFormationCommand`, `UserPatchAICommand`, `AttackGroundCommand` and `SetGatherPointCommand`, each `::read_from`, are `Commands.OrderFrom`, `StopFrom`, `WorkFrom`, `MoveFrom`, `AIOrderFrom`, `GroupWaypointFrom`, `UnitAIStateFrom`, `PatrolFrom`, `FormFormationFrom`, `UserPatchAIFrom`, `AttackGroundFrom` and `SetGatherPointFrom`: the `CommandLaws.*RoundTrip` lemma of the same name.
- `GuardCommand`, `FollowCommand` and `RepairCommand::read_from` are the one `Commands.TargetCommandFrom`: `CommandLaws.TargetCommandRoundTrip`.
- `BuildCommand`, `BuildWallCommand`, `UngarrisonCommand`, `FlareCommand` and `UnitOrderCommand::read_from` are `Commands.BuildFrom`, `BuildWallFrom`, `UngarrisonFrom`, `FlareFrom` and `UnitOrderFrom`: the `DecoderLaws.*Layout` lemma of the same name.
- `GameCommand::read_from` is `GameCommands.GameCommandOf` applied to the raw record: `GameCommands.GameCommandAccepts`, `GameCommandSlots`, `GameCommandRoundTrip`.
- `Sync::read_from`, `Meta::read_from_mgl`, `Meta::read_from_mgx` and `Chat::read_from` are `Frames.SyncFrom`, `MetaFromMgl`, `MetaFromMgx` and `ChatFrom`: `Frames.SyncConsumes`, `MglLayout`, `MgxLayout`, `ChatLayout`.
- `UnitAction::read_from` (unit_action.rs:25-28) is `UnitActions.ActionFrom`: `UnitActions.ReadAction`, `ListStep`, `ZeroTagIsNoTerminator`.
- The `linked_children` loop of `BuildingUnitAttributes::read_from` is `UnitBuilding.ChildrenFrom`: `UnitBuilding.ChildrenAgree`, `ChildrenBounded`.

| member | source | states |
|---|---|---|
| Wire.OptU32From | crates/genie-rec/src/actions.rs:234 | the optional u32 reader takes exactly 4 bytes and never yields the 0xFFFFFFFF sentinel as an id |
| Wire.OptU16From | crates/genie-rec/src/actions.rs:1255-1258 | the optional u16 reader takes exactly 2 bytes and never yields the 0xFFFF sentinel as an id |
| Wire.OptU32Write | crates/genie-rec/src/actions.rs:1268 | an id other than the sentinel, or None written as 0xFFFFFFFF, reads back as itself, and None is exactly the all-ones word |
| Wire.OptU16Write | crates/genie-rec/src/actions.rs:1269 | the same law for the 16-bit sentinel 0xFFFF |
| Wire.SentinelReadsNone | crates/genie-rec/src/actions.rs:1255-1256 | the all-ones patterns always read as None, whatever follows |
| Wire.MinusOneIsSentinel | crates/genie-rec/src/actions.rs:390 | an `i32` -1 is written as the same four bytes as the u32 sentinel |
| Wire.I8OfU8Write | crates/genie-rec/src/actions.rs:1266 | a byte written as `u8` and read as `i8` comes back as its two's-complement reading |
| Wire.SignedUnsigned8 | crates/genie-rec/src/actions.rs:170 | an `i8` written through its bit pattern reads back as itself |
| ObjectLists.ObjectIdFrom | crates/genie-rec/src/actions.rs:73 | one id takes four bytes: an `i32` narrowed to an object id |
| ObjectLists.IdsDecode | crates/genie-rec/src/actions.rs:71-74 | the loop of `count` reads succeeds exactly when 4·count bytes remain and none of those words is negative as an `i32`; the ids are those words in stream order and exactly 4·count bytes are consumed |
| ObjectLists.ObjectsListByCount | crates/genie-rec/src/actions.rs:69-79 | counts 0..254 give `List` of exactly that many ids from the next 4·count bytes; 255 and above give `SameAsLast` reading nothing; a negative count gives an empty `List` reading nothing |
| ObjectLists.ObjectsListBytes | crates/genie-rec/src/actions.rs:82-89 | the writer emits four bytes per id and nothing for `SameAsLast` |
| ObjectLists.IdsRoundTrip | crates/genie-rec/src/actions.rs:71-74 | ids below 2^31 written as u32 words read back unchanged, and the reader stops right after them |
| ObjectLists.ObjectsListRoundTrip | crates/genie-rec/src/actions.rs:69-99 | a list shorter than 255 whose ids fit an `i32`, read back with its own `len()` as the count, is the same list; `SameAsLast` (len 0) reads back as the empty list |
| ObjectLists.EmptyWritesNothing | crates/genie-rec/src/actions.rs:91-105 | `is_empty` holds exactly when the writer emits no bytes |
| ObjectLists.ReadObjectsList | crates/genie-rec/src/actions.rs:69-79 | the push loop on a cursor yields exactly the count rule's result and leaves the cursor after the consumed ids |
| ObjectLists.WriteObjectsList | crates/genie-rec/src/actions.rs:82-89 | the writing loop appends exactly the list's bytes to the sink |
| Commands.TargetFrom | crates/genie-rec/src/actions.rs:128 | a target slot always takes four bytes, whatever its value |
| Commands.TargetI32Bytes | crates/genie-rec/src/actions.rs:139-143 | a target is writable as an `i32` exactly when it is None (written -1) or an id below 2^31; it takes four bytes |
| Commands.I8Count | crates/genie-rec/src/actions.rs:170 | an object count converts to an `i8` exactly when the list is shorter than 128 |
| Commands.U8Count | crates/genie-rec/src/actions.rs:470 | an object count converts to a `u8` exactly when the list is shorter than 256 |
| Commands.U32Count | crates/genie-rec/src/actions.rs:144 | an object count converts to a `u32` exactly when the list is shorter than 2^32 |
| Commands.CreateFrom | crates/genie-rec/src/actions.rs:269-282 | Create succeeds exactly when 17 bytes remain and takes exactly 17 |
| Commands.AddResourceFrom | crates/genie-rec/src/actions.rs:311-322 | AddResource succeeds exactly when 7 bytes remain and takes exactly 7 |
| Commands.ResignFrom | crates/genie-rec/src/actions.rs:428-438 | Resign succeeds exactly when 3 bytes remain and takes exactly 3 |
| Commands.Pairs | crates/genie-rec/src/actions.rs:595-598 | the kept waypoints are exactly `waypoint_count` entries |
| Commands.WaypointSlotsFrom | crates/genie-rec/src/actions.rs:588-594 | both passes over the raw waypoints yield ten coordinates each |
| Commands.PatrolHeadFrom | crates/genie-rec/src/actions.rs:584-594 | the fields ahead of Patrol's objects always carry the ten x and ten y slots |
| Commands.UserPatchParamCount | crates/genie-rec/src/actions.rs:676-681 | whenever the frame size gives a parameter count, that count is below 4 |
| Commands.MakeFrom | crates/genie-rec/src/actions.rs:716-729 | Make succeeds exactly when 15 bytes remain and takes exactly 15 |
| Commands.ResearchFrom | crates/genie-rec/src/actions.rs:759-772 | Research succeeds exactly when 15 bytes remain and takes exactly 15 |
| Commands.NarrowIds | crates/genie-rec/src/actions.rs:1008 | the builder ids narrow into object ids exactly when none is negative, and then they are unchanged |
| Commands.CancelBuildFrom | crates/genie-rec/src/actions.rs:1028-1036 | a successful CancelBuild takes exactly 11 bytes |
| Commands.QueueFrom | crates/genie-rec/src/actions.rs:1218-1225 | Queue succeeds exactly when 11 bytes remain and takes exactly 11 |
| Commands.MarketFrom | crates/genie-rec/src/actions.rs:1291-1298 | Buy and Sell succeed exactly when 7 bytes remain and take exactly 7 |
| Commands.Unknown7FFrom | crates/genie-rec/src/actions.rs:1350-1355 | opcode 0x7f's record succeeds exactly when 11 bytes remain and takes exactly 11; after three pad bytes, the object id is the u32 at offset 3 and the value the u32 at offset 7 |
| Commands.BackToWorkFrom | crates/genie-rec/src/actions.rs:1365-1369 | BackToWork succeeds exactly when 7 bytes remain and takes exactly 7; after three pad bytes, the building id is the u32 at offset 3 |
| Commands.OrderBytes | crates/genie-rec/src/actions.rs:136-149 | the Order writer completes exactly when the target fits an `i32` and the count a `u32`; it emits 19 bytes plus four per object |
| Commands.StopBytes | crates/genie-rec/src/actions.rs:169-173 | the Stop writer completes exactly when the count fits an `i8`; it emits one byte plus four per object |
| Commands.WorkBytes | crates/genie-rec/src/actions.rs:201-210 | the Work writer completes exactly when the count fits an `i8`; it emits 19 bytes plus four per object |
| Commands.MoveBytesAsWritten | crates/genie-rec/src/actions.rs:243-252 | the Move writer as written completes exactly when the count fits an `i8`; it emits 19 bytes plus four per object |
| Commands.MoveBytes | crates/genie-rec/src/actions.rs:228-241 | the Move writer laid out as the reader reads completes under the same condition and emits the same number of bytes |
| Commands.CreateBytes | crates/genie-rec/src/actions.rs:284-293 | the Create writer emits 17 bytes |
| Commands.AddResourceBytes | crates/genie-rec/src/actions.rs:324-330 | the AddResource writer emits 7 bytes |
| Commands.InlineObjectBytes | crates/genie-rec/src/actions.rs:386-391 | the AI order's inline object slot is four bytes |
| Commands.TrailingIdsBytes | crates/genie-rec/src/actions.rs:408-410 | the AI order's trailing ids are four bytes per trailing object |
| Commands.AIOrderBytesWith | crates/genie-rec/src/actions.rs:382-412 | an AI order with any target-player slot is writable exactly when the count fits an `i8` and the target an `i32`; its length is 38 bytes, the slot and the trailing ids |
| Commands.AIOrderBytesAsWritten | crates/genie-rec/src/actions.rs:382-412 | the AI-order writer as written completes exactly when the count fits an `i8` and the target an `i32`; it emits 39 bytes plus the trailing ids |
| Commands.AIOrderBytes | crates/genie-rec/src/actions.rs:350-380 | the AI-order writer laid out as the reader reads also needs a target player below 128; it emits the same length |
| Commands.ResignBytes | crates/genie-rec/src/actions.rs:440-445 | the Resign writer emits 3 bytes |
| Commands.GroupWaypointBytes | crates/genie-rec/src/actions.rs:468-475 | the GroupWaypoint writer completes exactly when the count fits a `u8`; 4 bytes plus four per object |
| Commands.UnitAIStateBytes | crates/genie-rec/src/actions.rs:497-502 | the UnitAIState writer completes exactly when the count fits a `u8`; 2 bytes plus four per object |
| Commands.TargetCommandBytes | crates/genie-rec/src/actions.rs:526-536 | the Guard writer, and the identical Follow and Repair writers (560-570, 1098-1108), complete exactly when the count fits a `u8` and the target an `i32`; 7 bytes plus four per object |
| Commands.Column | crates/genie-rec/src/actions.rs:607-612 | the writer always emits ten slots of each coordinate |
| Commands.PatrolBytes | crates/genie-rec/src/actions.rs:603-615 | the Patrol writer completes exactly when the count fits an `i8`; 83 bytes plus four per object |
| Commands.FormFormationBytes | crates/genie-rec/src/actions.rs:640-647 | the FormFormation writer completes exactly when the count fits an `i8`; 7 bytes plus four per object |
| Commands.UserPatchAIBytes | crates/genie-rec/src/actions.rs:696-704 | the UserPatch AI writer emits 3 bytes plus four per parameter |
| Commands.MakeBytes | crates/genie-rec/src/actions.rs:731-742 | the Make writer completes exactly when the target fits an `i32`, and emits 15 bytes |
| Commands.ResearchBytes | crates/genie-rec/src/actions.rs:774-785 | the Research writer completes exactly when the target fits an `i32`, and emits 15 bytes |
| Commands.CancelBuildBytes | crates/genie-rec/src/actions.rs:1038-1043 | the CancelBuild writer emits 11 bytes |
| Commands.AttackGroundBytes | crates/genie-rec/src/actions.rs:1067-1074 | the AttackGround writer completes exactly when the count fits an `i8`; 11 bytes plus four per object |
| Commands.QueueBytes | crates/genie-rec/src/actions.rs:1227-1233 | the Queue writer emits 11 bytes |
| Commands.SetGatherPointBytesAsWritten | crates/genie-rec/src/actions.rs:1265-1283 | the gather-point writer as written completes exactly when the count fits a `u8`; 19 bytes plus four per building |
| Commands.SetGatherPointBytes | crates/genie-rec/src/actions.rs:1250-1263 | the gather-point writer with the count in the reader's `i8` width completes exactly when the count fits an `i8` |
| Commands.MarketBytes | crates/genie-rec/src/actions.rs:1300-1307 | the Buy and Sell writer emits 7 bytes |
| CommandLaws.TargetI32Write | crates/genie-rec/src/actions.rs:139-143 | a target written as `i32` (None as -1) reads back through the u32 sentinel reader as the same target |
| CommandLaws.TargetBitsWrite | crates/genie-rec/src/actions.rs:202 | a target written as `u32 as i32` reads back unless the id is the 0xFFFFFFFF sentinel itself |
| CommandLaws.I8CountWrite | crates/genie-rec/src/actions.rs:170 | a count below 128 written as `i8` reads back as that count |
| CommandLaws.MinusOneSentinels | crates/genie-rec/src/actions.rs:360-363 | an `i8` of -1, and only -1, decodes to no target player and to no UnitOrder parameter (1188-1191); any other negative player fails its narrowing, and a parameter keeps its bit pattern |
| CommandLaws.CreateRoundTrip | crates/genie-rec/src/actions.rs:269-293 | the Create bytes read back as the same command |
| CommandLaws.AddResourceRoundTrip | crates/genie-rec/src/actions.rs:311-330 | the AddResource bytes read back as the same command |
| CommandLaws.ResignRoundTrip | crates/genie-rec/src/actions.rs:428-445 | the Resign bytes read back as the same command |
| CommandLaws.MakeRoundTrip | crates/genie-rec/src/actions.rs:716-742 | when the target fits an `i32`, the Make bytes read back as the same command |
| CommandLaws.ResearchRoundTrip | crates/genie-rec/src/actions.rs:759-785 | when the target fits an `i32`, the Research bytes read back as the same command |
| CommandLaws.CancelBuildRoundTrip | crates/genie-rec/src/actions.rs:1028-1043 | the CancelBuild bytes read back as the same command |
| CommandLaws.QueueRoundTrip | crates/genie-rec/src/actions.rs:1218-1233 | the Queue bytes read back as the same command |
| CommandLaws.MarketRoundTrip | crates/genie-rec/src/actions.rs:1286-1309 | the Buy and Sell bytes read back as the same command |
| CommandLaws.UserPatchAIRoundTrip | crates/genie-rec/src/actions.rs:675-704 | with fewer than four parameters, the writer's bytes read back through a size of 4 + 4n as the same command |
| CommandLaws.UserPatchParamCountRule | crates/genie-rec/src/actions.rs:676-681 | a size is accepted exactly when 4 ≤ size < 20, giving (size − 4)/4 parameters; any other size fails the assertion whatever the bytes |
| CommandLaws.OrderRoundTrip | crates/genie-rec/src/actions.rs:122-149 | with an `i32` target, fewer than 255 objects and ids that fit an `i32`, Order bytes read back with the objects made explicit |
| CommandLaws.StopRoundTrip | crates/genie-rec/src/actions.rs:161-173 | with fewer than 128 objects whose ids fit an `i32`, Stop bytes read back with the objects made explicit |
| CommandLaws.WorkRoundTrip | crates/genie-rec/src/actions.rs:189-210 | Work bytes read back under the same conditions, the target being any id but the sentinel |
| CommandLaws.MoveRoundTrip | crates/genie-rec/src/actions.rs:228-241 | the Move layout the reader expects round-trips every field, the player id included |
| CommandLaws.MoveWriterDropsPlayer | crates/genie-rec/src/actions.rs:243-252 | the Move writer as written reads back with every field but the player id, which reads back as 0 |
| CommandLaws.MoveWriterCounterexample | crates/genie-rec/src/actions.rs:243-252 | a move by player 1 written and read back comes out as a move by player 0 |
| CommandLaws.AIOrderObjectsRoundTrip | crates/genie-rec/src/actions.rs:374-378 | the count, the inline slot and the trailing ids read back as the list: one object travels in the inline slot alone, two or more as trailing ids |
| CommandLaws.AIOrderTailRoundTrip | crates/genie-rec/src/actions.rs:364-378 | the fields after the target player read back, 23 bytes plus the trailing ids, with the objects rebuilt |
| CommandLaws.AIOrderRoundTripWith | crates/genie-rec/src/actions.rs:350-380 | whatever byte of at least -1 sits in the target-player slot, the other fields read back and the slot decodes by the -1 sentinel |
| CommandLaws.AIOrderRoundTrip | crates/genie-rec/src/actions.rs:350-380 | with the target player in its own slot, an AI order round-trips every field |
| CommandLaws.AIOrderWriterTargetsOwnPlayer | crates/genie-rec/src/actions.rs:399 | the writer as written makes the target player read back as the issuing player's id, as None for player 255, and makes the decoder fail for players 128 to 254 |
| CommandLaws.AIOrderFailsWith | crates/genie-rec/src/actions.rs:360-363 | a target-player byte below -1 makes the decoder fail its narrowing |
| CommandLaws.AIOrderWriterCounterexample | crates/genie-rec/src/actions.rs:399 | an order from player 1 with no target player reads back targeting player 1 |
| CommandLaws.GroupWaypointRoundTrip | crates/genie-rec/src/actions.rs:456-475 | with fewer than 255 objects whose ids fit an `i32`, GroupWaypoint bytes read back with the objects made explicit |
| CommandLaws.UnitAIStateRoundTrip | crates/genie-rec/src/actions.rs:489-502 | UnitAIState bytes, 2 + 4n, read back under the same conditions |
| CommandLaws.TargetCommandRoundTrip | crates/genie-rec/src/actions.rs:516-536 | Guard (and the identical Follow and Repair) bytes, 7 + 4n, read back when the list is shorter than 255 and the ids and target fit an `i32` |
| CommandLaws.ColumnsPairUp | crates/genie-rec/src/actions.rs:595-598 | the two padded columns pair back up into the waypoints they came from |
| CommandLaws.WaypointSlotsRoundTrip | crates/genie-rec/src/actions.rs:588-594 | the two written columns of 40 bytes each read back as the ten x and ten y slots |
| CommandLaws.PatrolRoundTrip | crates/genie-rec/src/actions.rs:583-615 | up to ten waypoints, padded to ten slots with (0, 0), round-trip through the column-major layout together with the objects |
| CommandLaws.FormFormationRoundTrip | crates/genie-rec/src/actions.rs:630-647 | with fewer than 128 objects whose ids fit an `i32`, FormFormation bytes read back |
| CommandLaws.AttackGroundRoundTrip | crates/genie-rec/src/actions.rs:1057-1074 | with fewer than 128 objects whose ids fit an `i32`, AttackGround bytes read back |
| CommandLaws.GatherLocationWrite | crates/genie-rec/src/actions.rs:1270-1279 | a gather location reads back as its two floats, and an absent one as (0, 0) |
| CommandLaws.SetGatherPointRoundTrip | crates/genie-rec/src/actions.rs:1250-1263 | with an `i8` count, the gather point round-trips: the 0xFFFFFFFF and 0xFFFF sentinels map back to None and a missing location reads back as Some((0, 0)) |
| CommandLaws.SetGatherPointWriterCountSign | crates/genie-rec/src/actions.rs:1266 | the writer's `u8` count for 128 to 254 buildings reads back as a negative `i8`, giving an empty list and leaving the ids unread |
| CommandLaws.SetGatherPointWritersAgree | crates/genie-rec/src/actions.rs:1265-1283 | below 128 buildings the writer as written and the corrected one emit the same bytes |
| CommandLaws.MoveLayout | crates/genie-rec/src/actions.rs:228-241 | the Move bytes are the fields the reader takes, in its order, followed by the objects list |
| CommandLaws.MoveHeadWrite | crates/genie-rec/src/actions.rs:229-237 | the Move fields ahead of the objects read back, whatever follows them |
| CommandLaws.AIOrderHeadWrite | crates/genie-rec/src/actions.rs:352-359 | the AI-order fields up to the target id read back, the inline slot holding the single object's id or -1 |
| CommandLaws.AIOrderAfterHead | crates/genie-rec/src/actions.rs:359-378 | after its head, an AI order reads the target-player byte, its -1 sentinel and narrowing, and then the tail |
| CommandLaws.AIOrderTailLayout | crates/genie-rec/src/actions.rs:400-410 | the AI-order tail is three pad bytes, the location, the range, the two flags, two pad bytes and the trailing ids |
| CommandLaws.AIOrderLayout | crates/genie-rec/src/actions.rs:382-410 | the AI-order bytes are the head, the target-player slot and the tail, in that order |
| CommandLaws.GatherHeadWrite | crates/genie-rec/src/actions.rs:1252-1260 | whatever count byte leads, the gather-point fields after it read back, an absent location as (0, 0) |
| CommandLaws.SetGatherPointLayout | crates/genie-rec/src/actions.rs:1250-1263 | the corrected gather-point bytes are the `i8` count and the fields the reader takes, in its order |
| CommandLaws.SetGatherPointLayoutAsWritten | crates/genie-rec/src/actions.rs:1265-1283 | the gather-point bytes as written are the `u8` count, the two sentinel-coded ids, the location and the objects list |
| DecoderLaws.FlagsFrom | crates/genie-rec/src/actions.rs:1158-1160 | nine flag bytes read one by one take exactly nine bytes, and each flag is set exactly when its byte is not zero |
| DecoderLaws.OptParamRule | crates/genie-rec/src/actions.rs:1188-1191 | the parameter byte 0xFF (-1) is no parameter; every other byte comes back unchanged through the wrapping `as u8` |
| DecoderLaws.BuildLayout | crates/genie-rec/src/actions.rs:806-821 | Build takes 23 bytes at fixed offsets (player, location, unit type, unique id, frame), then the builders as an objects list under the signed count; it succeeds exactly when that list does |
| DecoderLaws.WallBuildersRule | crates/genie-rec/src/actions.rs:998-1007 | a count of -1 is "same as last" and reads nothing; a lower count fails; a single -1 id is the empty list; otherwise count i32 ids are read and the list succeeds exactly when none is negative |
| DecoderLaws.BuildWallLayout | crates/genie-rec/src/actions.rs:985-1015 | BuildWall reads 11 bytes of tiles and unit type, then a guard word: anything but 0xFFFFFFFF fails, and with it the builders follow and decide success |
| DecoderLaws.UngarrisonLayout | crates/genie-rec/src/actions.rs:1121-1137 | Ungarrison takes 19 bytes, then the objects list; the location is present exactly when both coordinates differ from -1.0, and is then those coordinates |
| DecoderLaws.FlareTailLayout | crates/genie-rec/src/actions.rs:1161-1165 | after the flags a flare takes 15 bytes: pad, location, player, communicating player, pad |
| DecoderLaws.FlareLayout | crates/genie-rec/src/actions.rs:1150-1167 | a unit id other than -1 fails the guard; otherwise a flare succeeds exactly on 31 bytes, with each recipient flag set exactly when its byte is non-zero, and the location and the two players at fixed offsets |
| DecoderLaws.UnitOrderLayout | crates/genie-rec/src/actions.rs:1182-1203 | UnitOrder takes 23 bytes, then the objects list; the parameter is absent exactly for the byte 0xFF and otherwise equals its byte; the location is present exactly when both coordinates differ from -1.0 |
| CommandStreams.FillColumn | crates/genie-rec/src/actions.rs:589-591 | one `iter_mut` pass reads one f32 per slot, exactly as the repetition reader does, puts each into the x (or y) half of its slot and leaves the other half as it was |
| CommandStreams.Place | crates/genie-rec/src/actions.rs:590 | writing a coordinate sets that half of a slot and keeps the other |
| CommandStreams.ReadWaypointSlots | crates/genie-rec/src/actions.rs:589-594 | the two passes leave every slot holding the k-th x and the k-th y read, as the column decoder reads them |
| CommandStreams.ReadPatrolHead | crates/genie-rec/src/actions.rs:585-594 | the counts and both passes over the buffer read what the patrol head decoder reads, and leave the slots filled |
| CommandStreams.ReadPatrol | crates/genie-rec/src/actions.rs:583-601 | reading a patrol on a cursor yields exactly the decoded patrol, and the cursor ends where the decoder stops |
| CommandStreams.FillFlags | crates/genie-rec/src/actions.rs:1158-1160 | the recipient loop fills the flag array with what the repetition reader decodes, and fails where it fails |
| CommandStreams.ReadFlare | crates/genie-rec/src/actions.rs:1150-1167 | reading a flare on a cursor yields exactly the decoded flare |
| CommandStreams.ReadFlareTail | crates/genie-rec/src/actions.rs:1161-1166 | the part after the flags read on a cursor is the decoded tail |
| CommandStreams.ReadParams | crates/genie-rec/src/actions.rs:686-688 | the parameter loop pushes exactly the n words the repetition reader decodes |
| CommandStreams.ReadUserPatchAI | crates/genie-rec/src/actions.rs:675-694 | reading a UserPatch AI record on a cursor yields exactly the decoded record, its parameter count taken from the frame size |
| CommandStreams.PatrolPayload | crates/genie-rec/src/actions.rs:1427 | opcode 0x15 decodes a patrol and wraps it |
| CommandStreams.FlarePayload | crates/genie-rec/src/actions.rs:1439 | opcode 0x73 decodes a flare and wraps it |
| CommandStreams.ReadPayload | crates/genie-rec/src/actions.rs:1414-1448 | the opcode dispatch on the bounded view yields the payload decoder's result for every opcode |
| CommandStreams.ReadCommand | crates/genie-rec/src/actions.rs:1410-1454 | reading a framed command on a cursor yields exactly the frame decoder's result, the cursor past the bound and the world time |
| CommandStreams.WriteColumn | crates/genie-rec/src/actions.rs:607-609 | the `for i in 0..10` loop appends the ten coordinates of the column, 0 past the last waypoint |
| CommandStreams.WritePatrol | crates/genie-rec/src/actions.rs:603-615 | the sink grows by the patrol encoding when the count fits an i8, and is untouched when the count conversion panics |
| CommandStreams.WriteUserPatchAI | crates/genie-rec/src/actions.rs:696-704 | the sink grows by the three header bytes and every parameter |
| Frames.PayloadFollowsTable | crates/genie-rec/src/actions.rs:1414-1447 | an opcode outside the dispatch table fails as unsupported whatever follows it |
| Frames.FrameReadsBody | crates/genie-rec/src/actions.rs:1410-1454 | a complete frame reads 4 + len + 4 bytes and its command is decoded from the bounded body alone, the excess skipped |
| Frames.FrameTruncated | crates/genie-rec/src/actions.rs:1411-1452 | a frame shorter than its length field and world time fails |
| Frames.FrameConsumes | crates/genie-rec/src/actions.rs:1410-1454 | a decoded frame consumed exactly its length word, its body and the world time |
| Frames.FrameRoundTrip | crates/genie-rec/src/actions.rs:1410-1454 | a frame built around a body reads back as the body's command followed by what comes after |
| Frames.UnknownOpcodeFails | crates/genie-rec/src/actions.rs:1447 | a frame whose opcode is outside the table fails as unsupported |
| Frames.UserPatchAIFrameRoundTrip | crates/genie-rec/src/actions.rs:675-704 | a UserPatch AI record with fewer than four parameters, framed, reads back as itself: the count comes back from the frame size |
| Frames.UserPatchAIPayload | crates/genie-rec/src/actions.rs:1429 | opcode 0x35 decodes the UserPatch AI record with the frame length |
| Frames.ViewLockFrom | crates/genie-rec/src/actions.rs:32-38 | a view lock takes exactly 12 bytes |
| Frames.ViewLockBytes | crates/genie-rec/src/actions.rs:40-45 | a view lock is written as 12 bytes |
| Frames.ViewLockRoundTrip | crates/genie-rec/src/actions.rs:32-45 | the view-lock writer is inverted by the reader |
| Frames.ViewLockNarrowsPlayer | crates/genie-rec/src/actions.rs:36 | a view lock decodes exactly when its i32 player fits a player id |
| Frames.TimeFrom | crates/genie-rec/src/actions.rs:1465-1476 | a time record takes exactly four bytes, its time is the u32 read, and the old-record fields stay zero |
| Frames.SyncConsumes | crates/genie-rec/src/actions.rs:1490-1506 | a sync record takes 24 bytes when its action checksum is zero and 356 otherwise, and decodes exactly when that many remain; the checksum and position checksum are the u32s at offsets 4 and 8, the action checksum the u32 at 12, and the next world time the last u32, after the 332 skipped bytes when there are any |
| Frames.MetaInnerFrom | crates/genie-rec/src/actions.rs:1527-1541 | the common metadata decodes exactly on 20 bytes whose local-player word fits a player id, and sets neither the log version nor the chapter count; the checksum interval, multiplayer flag, local player, header position and sequence-number flag are the u32s at offsets 0, 4, 8, 12 and 16, in that order, the two flags as `!= 0` |
| Frames.MglLayout | crates/genie-rec/src/actions.rs:1545-1555 | the mgl metadata decodes exactly when the common part does and 36 bytes remain, takes those 36, and is exactly the common part read at offset 0: no log version, no chapter count |
| Frames.MgxLayout | crates/genie-rec/src/actions.rs:1559-1572 | a log version outside 3, 4 and 5 fails; the record is 32 bytes for version 5 and 28 otherwise; its common fields are the common part read at offset 4, its log version the u32 at 0, and its chapter count, present exactly when the version is not 5, the u32 at offset 24 |
| Frames.ChatLayout | crates/genie-rec/src/actions.rs:1582-1586 | the -1 marker and a length-prefixed text read back as that text; any other marker fails |
| GameCommands.RawGameCommandFrom | crates/genie-rec/src/actions.rs:892-906 | the raw game command decodes exactly when 15 bytes remain, and takes those 15 |
| GameCommands.GameCommandFrom | crates/genie-rec/src/actions.rs:910-971 | a decoded game command took exactly its 15-byte raw record |
| GameCommands.SubOpcode | crates/genie-rec/src/actions.rs:920-968 | every game command has a sub-opcode of the dispatch table |
| GameCommands.RawOf | crates/genie-rec/src/actions.rs:920-968 | the reference raw record of a command carries its sub-opcode and its player |
| GameCommands.GameCommandAccepts | crates/genie-rec/src/actions.rs:920-970 | the dispatch succeeds exactly for the 13 sub-opcodes, a player slot that fits a player id and, for SetStrategicNumber, a value below 2^31; an unknown sub-opcode fails before any narrowing |
| GameCommands.GameCommandSlots | crates/genie-rec/src/actions.rs:920-968 | a decoded command takes its fields from exactly the slots its sub-opcode uses, and AlliedVictory's status is var2 != 0 |
| GameCommands.GameCommandIgnoresUnusedSlots | crates/genie-rec/src/actions.rs:920-968 | two raw records that agree on the slots their sub-opcode uses decode alike |
| GameCommands.RawOfDecodes | crates/genie-rec/src/actions.rs:950-954 | every game command is the decoding of its reference raw record, except a negative strategic-number value, which the u32-to-i32 narrowing rejects |
| GameCommands.RawRoundTrip | crates/genie-rec/src/actions.rs:892-906 | the 15-byte image of a raw record reads back field by field |
| GameCommands.GameCommandRoundTrip | crates/genie-rec/src/actions.rs:910-971 | every game command the decoder can yield has a 15-byte encoding that decodes back to it |
| UnitActions.AttackWeaponFrom | crates/genie-rec/src/unit_action.rs:169-175 | the weapon part of an attack payload decodes exactly when 17 bytes remain, and takes those 17 |
| UnitActions.AttackSpritesFrom | crates/genie-rec/src/unit_action.rs:176-183 | the sprite part decodes exactly on 18 bytes, and no sprite comes back as the 0xFFFF sentinel |
| UnitActions.ActionAttackFrom | crates/genie-rec/src/unit_action.rs:167-185 | an attack payload decodes exactly when 35 bytes remain, takes those 35, and is representable |
| UnitActions.ActionTypeFrom | crates/genie-rec/src/unit_action.rs:100-114 | a decoded payload came from a tag of the table, took exactly that tag's payload size, and is the variant the tag names |
| UnitActions.StateFrom | crates/genie-rec/src/unit_action.rs:36-40 | the state consumes input, and up to version 11.76 fits a byte |
| UnitActions.ActionHeadFrom | crates/genie-rec/src/unit_action.rs:41-53 | the fields between the state and the sub-actions decode exactly on 36 bytes, with the optional ids and task never the sentinel |
| UnitActions.ActionTailFrom | crates/genie-rec/src/unit_action.rs:55-56 | the sprite id and the payload take at least two bytes, the sprite is never the sentinel and the payload is the variant of the tag |
| UnitActions.ActionInnerFrom | crates/genie-rec/src/unit_action.rs:32-71 | a decoded action consumed input and its payload carries the tag it was read under |
| UnitActions.ActionListFrom | crates/genie-rec/src/unit_action.rs:73-83 | a decoded list consumed at least its two-byte 0 tag |
| UnitActions.ActionMoveToBytes | crates/genie-rec/src/unit_action.rs:128-131 | the MoveTo payload is written as four bytes |
| UnitActions.ActionEnterBytes | crates/genie-rec/src/unit_action.rs:145-148 | the Enter payload is written as four bytes |
| UnitActions.ActionMakeBytes | crates/genie-rec/src/unit_action.rs:199-202 | the Make payload is written as four bytes |
| UnitActions.TagOf | crates/genie-rec/src/unit_action.rs:101-111 | every payload variant has a tag of the table |
| UnitActions.ActionTypeAccepts | crates/genie-rec/src/unit_action.rs:100-114 | a tag outside the table fails as unsupported; a tag of it succeeds exactly when its payload is there |
| UnitActions.AttackWeaponWrite | crates/genie-rec/src/unit_action.rs:169-175 | the weapon fields reread through the weapon reader are the same fields |
| UnitActions.AttackSpritesWrite | crates/genie-rec/src/unit_action.rs:176-183 | the sprite fields and last position reread through the sprite reader are the same |
| UnitActions.AttackRoundTrip | crates/genie-rec/src/unit_action.rs:167-185 | an attack payload whose sprites are not the sentinel reads back as itself |
| UnitActions.MoveToRoundTrip | crates/genie-rec/src/unit_action.rs:122-131 | `ActionMoveTo::write_to` is inverted by the reader under tag 1 |
| UnitActions.EnterRoundTrip | crates/genie-rec/src/unit_action.rs:139-148 | `ActionEnter::write_to` is inverted by the reader under tag 3 |
| UnitActions.AttackParamsRoundTrip | crates/genie-rec/src/unit_action.rs:105 | an attack payload reads back under tag 9 |
| UnitActions.AttackTag | crates/genie-rec/src/unit_action.rs:105 | whatever the attack reader yields, tag 9 yields wrapped as an attack |
| UnitActions.AttackDispatch | crates/genie-rec/src/unit_action.rs:105 | tag 9 is exactly the attack reader, failure included |
| UnitActions.MakeRoundTrip | crates/genie-rec/src/unit_action.rs:193-202 | `ActionMake::write_to` is inverted by the reader under tag 21 |
| UnitActions.ParamsRoundTrip | crates/genie-rec/src/unit_action.rs:100-114 | every representable payload reads back under its own tag |
| UnitActions.StateWidth | crates/genie-rec/src/unit_action.rs:36-40 | up to version 11.76 the state is one byte, after it a u32 |
| UnitActions.StateRoundTrip | crates/genie-rec/src/unit_action.rs:36-40 | a state that fits the version's width reads back |
| UnitActions.HeadRoundTrip | crates/genie-rec/src/unit_action.rs:41-53 | the head fields, without sentinel ids, read back |
| UnitActions.TailRoundTrip | crates/genie-rec/src/unit_action.rs:55-56 | a sprite id and a representable payload read back under the payload's tag |
| UnitActions.ActionBodyRoundTrip | crates/genie-rec/src/unit_action.rs:32-71 | the byte image of a representable action, sub-actions included, reads back as that action under its tag |
| UnitActions.ActionListRoundTrip | crates/genie-rec/src/unit_action.rs:73-83 | a list of representable actions reads back, up to and including its 0 tag |
| UnitActions.ListConsRoundTrip | crates/genie-rec/src/unit_action.rs:75-82 | one loop turn: the first action and the rest of the list read back give the whole list |
| UnitActions.InnerRepresentable | crates/genie-rec/src/unit_action.rs:32-71 | whatever the inner reader yields is representable, so decoding is onto the representable actions |
| UnitActions.InnerParts | crates/genie-rec/src/unit_action.rs:36-70 | a decoded action is assembled from its state, head, sub-action list and tail, each of which decoded |
| UnitActions.ListRepresentable | crates/genie-rec/src/unit_action.rs:73-83 | every action of a decoded list is representable |
| UnitActions.ListStopsAtZeroTag | crates/genie-rec/src/unit_action.rs:76-79 | a 0 tag ends the list, taking its two bytes and nothing more |
| UnitActions.ZeroTagIsNoTerminator | crates/genie-rec/src/unit_action.rs:25-28 | `read_from` given a 0 tag reaches the tag table and fails there |
| UnitActions.ListStep | crates/genie-rec/src/unit_action.rs:76-81 | a nonzero tag introduces one action and the list goes on after it |
| UnitActions.ReadState | crates/genie-rec/src/unit_action.rs:36-40 | reading the state on a cursor yields the state decoder's result |
| UnitActions.ReadActionInner | crates/genie-rec/src/unit_action.rs:32-71 | reading an action on a cursor yields exactly the inner decoder's result |
| UnitActions.ReadActionList | crates/genie-rec/src/unit_action.rs:73-83 | the push loop yields exactly the list decoder's result, the cursor after the 0 tag |
| UnitActions.ReadAction | crates/genie-rec/src/unit_action.rs:25-28 | the tag and the inner read yield the action decoder's result |
| UnitActions.WriteMoveTo | crates/genie-rec/src/unit_action.rs:128-131 | the sink grows by the MoveTo payload's bytes |
| UnitActions.WriteEnter | crates/genie-rec/src/unit_action.rs:145-148 | the sink grows by the Enter payload's bytes |
| UnitActions.WriteMake | crates/genie-rec/src/unit_action.rs:199-202 | the sink grows by the Make payload's bytes |
| Sprites.AnimationFrom | crates/genie-rec/src/unit.rs:110-120 | an animation record decodes exactly when 17 bytes remain, and takes those 17 |
| Sprites.NodeHeadFrom | crates/genie-rec/src/unit.rs:155-159 | the fixed fields of a node decode exactly on 13 bytes |
| Sprites.NodeAnimationFrom | crates/genie-rec/src/unit.rs:160-164 | a node has an animation exactly under type 2 |
| Sprites.NodeTailFrom | crates/genie-rec/src/unit.rs:165-167 | the order, flag and count bytes decode exactly on 3 bytes |
| Sprites.NodeBodyFrom | crates/genie-rec/src/unit.rs:154-168 | a node body consumes input and has an animation exactly under type 2 |
| Sprites.SpriteNodeFrom | crates/genie-rec/src/unit.rs:148-169 | type 0 is no node; any other type is a node, with an animation exactly under type 2 |
| Sprites.SpriteListFrom | crates/genie-rec/src/unit.rs:195-201 | a decoded sprite list consumed at least its closing 0 byte |
| Sprites.AnimationBytes | crates/genie-rec/src/unit.rs:122-131 | an animation is written as 17 bytes |
| Sprites.AnimationRoundTrip | crates/genie-rec/src/unit.rs:110-131 | `SpriteNodeAnimation::write_to` is inverted by its reader |
| Sprites.NodeHeadRoundTrip | crates/genie-rec/src/unit.rs:155-159 | the fixed fields written by the node writer read back |
| Sprites.NodeTypeChoice | crates/genie-rec/src/unit.rs:172-173 | the written type byte is 2 exactly when the node has an animation, and never 0 |
| Sprites.NodeTailRoundTrip | crates/genie-rec/src/unit.rs:182-184 | the order, flag and count bytes read back |
| Sprites.NodeBodyRoundTrip | crates/genie-rec/src/unit.rs:154-185 | a node body written after its type byte reads back under that type |
| Sprites.NodeAnimationRoundTrip | crates/genie-rec/src/unit.rs:179-181 | the optional animation reads back under the type the writer chose |
| Sprites.SpriteNodeRoundTrip | crates/genie-rec/src/unit.rs:148-186 | `SpriteNode::write_to` is inverted by `read_from`, which yields Some of the node |
| Sprites.SpriteListStops | crates/genie-rec/src/unit.rs:197 | a 0 type byte ends the list and is consumed |
| Sprites.SpriteListRoundTrip | crates/genie-rec/src/unit.rs:195-209 | every list the writer emits reads back as the same nodes |
| Sprites.SpriteListStep | crates/genie-rec/src/unit.rs:197-199 | one loop turn: a node, then the rest of the list |
| Sprites.ReadAnimation | crates/genie-rec/src/unit.rs:110-120 | the seven little-endian field reads on a cursor (two u32, a u16, three bytes, an f32) yield exactly the animation decoder's result and leave the cursor just past them |
| Sprites.ReadSpriteNode | crates/genie-rec/src/unit.rs:148-169 | the type byte, the fixed fields read one by one, the animation only under type 2 and the three closing bytes yield exactly the node decoder's result: no node after a 0 type byte alone |
| Sprites.ReadSpriteList | crates/genie-rec/src/unit.rs:195-201 | the `while let` loop yields exactly the list decoder's result |
| Sprites.WriteAnimation | crates/genie-rec/src/unit.rs:122-131 | the sink grows by the animation's bytes |
| Sprites.WriteSpriteNode | crates/genie-rec/src/unit.rs:171-186 | the sink grows by the node's bytes |
| Sprites.WriteNodeHead | crates/genie-rec/src/unit.rs:174-178 | the sink grows by the node's fixed fields |
| Sprites.WriteSpriteList | crates/genie-rec/src/unit.rs:203-209 | the sink grows by every node and the closing 0 byte |
| UnitStatic.Position3From | crates/genie-rec/src/unit.rs:255-259 | a position decodes exactly on 12 bytes |
| UnitStatic.Position3Bytes | crates/genie-rec/src/unit.rs:255-259 | a position is 12 bytes |
| UnitStatic.Position3RoundTrip | crates/genie-rec/src/unit.rs:255-259 | a position written as three f32 reads back |
| UnitStatic.StaticHeadFrom | crates/genie-rec/src/unit.rs:244-252 | the owner through the sleep flags decode exactly on 17 bytes |
| UnitStatic.StaticPlaceFrom | crates/genie-rec/src/unit.rs:253-261 | the id through the shadow offset decode exactly on 25 bytes |
| UnitStatic.SelectedGroupFrom | crates/genie-rec/src/unit.rs:264-269 | the selected group takes one byte before 11.58 and none after |
| UnitStatic.SelectedGroupGate | crates/genie-rec/src/unit.rs:264-269 | from 11.58 no byte is read and there is no group; before, 0xFF is no group, a byte below 0x80 is the group, any other fails its conversion |
| UnitStatic.StaticHeldFrom | crates/genie-rec/src/unit.rs:270-275 | the held resource through the attack flag decode exactly on 10 bytes |
| UnitStatic.StaticTailFrom | crates/genie-rec/src/unit.rs:284-288 | the group id is never the sentinel, and the sprite list is present exactly when the flag byte is nonzero |
| UnitStatic.StaticFrom | crates/genie-rec/src/unit.rs:242-290 | from version 11.58 a decoded unit has no selected group |
| UnitStatic.AnimatedFrom | crates/genie-rec/src/unit.rs:306-309 | the animated block decodes exactly on four bytes |
| UnitStatic.AnimatedBytes | crates/genie-rec/src/unit.rs:311-314 | the animated block is written as four bytes |
| UnitStatic.AnimatedRoundTrip | crates/genie-rec/src/unit.rs:306-314 | `AnimatedUnitAttributes::write_to` is inverted by its reader |
| UnitStatic.ReadSelectedGroup | crates/genie-rec/src/unit.rs:264-269 | the gated i8 read yields the selected-group decoder's result |
| UnitStatic.ReadPathingGroupMembers | crates/genie-rec/src/unit.rs:276-283 | the counted buffer filled in place holds exactly the counted u32 list |
| UnitStatic.ReadStaticTail | crates/genie-rec/src/unit.rs:284-288 | the tail read on a cursor is the tail decoder's result |
| UnitStatic.ReadStatic | crates/genie-rec/src/unit.rs:242-290 | the struct literal and the field assignments read exactly what the static decoder reads |
| UnitStatic.StaticWrittenBytes | crates/genie-rec/src/unit.rs:292-297 | the static writer emits five bytes, the owner first, before it reaches `todo!()` |
| UnitStatic.WriteStaticPrefix | crates/genie-rec/src/unit.rs:292-296 | the sink grows by those five bytes |
| UnitStatic.ReadAnimated | crates/genie-rec/src/unit.rs:306-309 | reading the animated block on a cursor is its decoder's result |
| UnitStatic.WriteAnimated | crates/genie-rec/src/unit.rs:311-314 | the sink grows by the animated block's bytes |
| UnitMotion.PathHeadFrom | crates/genie-rec/src/unit.rs:337-341 | the five leading path words decode exactly on 20 bytes |
| UnitMotion.PathFlagsFrom | crates/genie-rec/src/unit.rs:344-349 | `disable_flags` is read exactly below 10.25 and `enable_flags` exactly from 10.20 up to 10.25, taking exactly the flag words the version has |
| UnitMotion.PathTailFrom | crates/genie-rec/src/unit.rs:350-355 | the six closing path words decode exactly on 24 bytes |
| UnitMotion.PathDataFrom | crates/genie-rec/src/unit.rs:335-357 | a decoded path has its flag words exactly where the version gates them |
| UnitMotion.PathDataConsumes | crates/genie-rec/src/unit.rs:335-357 | a path decodes exactly on 44 bytes plus its version's flag words, and takes exactly those |
| UnitMotion.MovementDataFrom | crates/genie-rec/src/unit.rs:371-386 | movement data decodes exactly on 24 bytes |
| UnitMotion.MovementDataBytes | crates/genie-rec/src/unit.rs:388-396 | movement data is written as 24 bytes |
| UnitMotion.MovementDataRoundTrip | crates/genie-rec/src/unit.rs:371-396 | `MovementData::write_to` is inverted by its reader |
| UnitMotion.MovingHeadFrom | crates/genie-rec/src/unit.rs:426-435 | the trail remainder through the continue counter decode exactly on 32 bytes |
| UnitMotion.MovingGroundFrom | crates/genie-rec/src/unit.rs:436-439 | the terrain exceptions and the three bytes after them decode exactly on 11 bytes |
| UnitMotion.PathsFrom | crates/genie-rec/src/unit.rs:440-447 | the path list has exactly as many records as its u32 count, each gated by the version |
| UnitMotion.FuturePathFrom | crates/genie-rec/src/unit.rs:450-452 | the future path is present exactly when its presence word is nonzero |
| UnitMotion.MovementOptFrom | crates/genie-rec/src/unit.rs:453-455 | the movement data is present exactly when its presence word is nonzero |
| UnitMotion.MovingPoseFrom | crates/genie-rec/src/unit.rs:456-471 | the position, the two orientations and the move time decode exactly on 40 bytes |
| UnitMotion.WaypointsFrom | crates/genie-rec/src/unit.rs:472-483 | the waypoint list has exactly as many entries as its i32 count clamped at 0 |
| UnitMotion.WaypointsConsume | crates/genie-rec/src/unit.rs:472-483 | the waypoints take 4 bytes and 12 per entry, so a negative count takes only the count |
| UnitMotion.SubstituteFrom | crates/genie-rec/src/unit.rs:484-494 | the substitute position always takes 16 bytes and is present exactly when its presence word is nonzero |
| UnitMotion.MovingFrom | crates/genie-rec/src/unit.rs:424-497 | every decoded path, the future one included, has its flag words exactly as the version gates them |
| UnitMotion.ReadPathData | crates/genie-rec/src/unit.rs:335-357 | the struct literal and the gated flag reads yield exactly the path decoder's result |
| UnitMotion.ReadPaths | crates/genie-rec/src/unit.rs:440-447 | the `for _ in 0..num_paths` loop yields exactly the path-list decoder's result |
| UnitMotion.ReadFuturePath | crates/genie-rec/src/unit.rs:450-452 | the presence check and read yield the future-path decoder's result |
| UnitMotion.ReadMovementData | crates/genie-rec/src/unit.rs:371-386 | reading movement data on a cursor is its decoder's result |
| UnitMotion.WriteMovementData | crates/genie-rec/src/unit.rs:388-396 | the sink grows by the movement data's bytes |
| UnitMotion.ReadWaypoints | crates/genie-rec/src/unit.rs:472-483 | the clamped count and the push loop yield exactly the waypoint decoder's result |
| UnitMotion.ReadSubstitute | crates/genie-rec/src/unit.rs:484-494 | reading all four words before the choice yields the substitute decoder's result |
| UnitMotion.ReadMoving | crates/genie-rec/src/unit.rs:424-497 | reading the moving block on a cursor yields exactly the moving decoder's result |
| UnitBlocks.GatedU8From | crates/genie-rec/src/unit.rs:518-520 | a gated byte is read exactly when the gate is open, and is 0 otherwise |
| UnitBlocks.ActionAttrsLayout | crates/genie-rec/src/unit.rs:513-526 | the action block reads its head at fixed offsets, with `command_flag` from 6.5 and `selected_group_info` from 11.58 (0 below), and its actions are the list right after the head; it decodes exactly when that list does |
| UnitBlocks.FormationFrom | crates/genie-rec/src/unit.rs:548-552 | the formation bytes are read exactly from 9.05, and are 0 below |
| UnitBlocks.RadiusFrom | crates/genie-rec/src/unit.rs:557-560 | the two radius bytes are read exactly from 9.09, and are 0 below |
| UnitBlocks.AttackCountFrom | crates/genie-rec/src/unit.rs:561-563 | the attack count is read exactly from 10.02, and is 0 below |
| UnitBlocks.BaseCombatFrom | crates/genie-rec/src/unit.rs:546-565 | the base-combat block decodes exactly on its version's size, and every gated field is at its default below its gate |
| UnitBlocks.OwnBaseFrom | crates/genie-rec/src/unit.rs:584-590 | a zero flag is no own base and takes one byte; a nonzero flag is followed by a unit-type record of the size its reader takes |
| UnitBlocks.MissileFrom | crates/genie-rec/src/unit.rs:580-592 | the missile block takes at least 9 bytes, and has an own base exactly when its flag byte is nonzero |
| UnitBlocks.ReadActionAttrs | crates/genie-rec/src/unit.rs:513-526 | reading the action block on a cursor yields exactly its decoder's result |
| UnitBlocks.ReadBaseCombat | crates/genie-rec/src/unit.rs:546-565 | the gated reads yield exactly the base-combat decoder's result |
| UnitBlocks.ReadOwnBase | crates/genie-rec/src/unit.rs:584-590 | the presence check and read yield the own-base decoder's result |
| UnitBlocks.ReadMissile | crates/genie-rec/src/unit.rs:580-592 | reading the missile block on a cursor yields its decoder's result |
| UnitCombat.CombatHeadFrom | crates/genie-rec/src/unit.rs:943-951 | the volley and animation bytes and the own-base flag take at least 3 bytes, and the own base is absent exactly when its flag is 0 |
| UnitCombat.AmountsFrom | crates/genie-rec/src/unit.rs:954-956 | exactly six attribute amounts are read |
| UnitCombat.AmountsConsume | crates/genie-rec/src/unit.rs:954-956 | the six amounts decode exactly on 12 bytes and take those 12 |
| UnitCombat.CountersFrom | crates/genie-rec/src/unit.rs:957-968 | the four counters take exactly their version's bytes, each 0 below its gate (9.16, 9.61, 9.65, 11.56) |
| UnitCombat.UnitAIOptFrom | crates/genie-rec/src/unit.rs:969-976 | the unit AI is present exactly when its presence word is nonzero, and a present one has no patrol path |
| UnitCombat.TownBellFrom | crates/genie-rec/src/unit.rs:977-988 | from 10.30 the town-bell block takes 13 bytes and keeps its location exactly when the first coordinate is not negative; below, nothing is read and the fields are defaults |
| UnitCombat.TownBellLaterFrom | crates/genie-rec/src/unit.rs:989-995 | the second target and type are read from 11.71 and the action from 11.74, defaults below |
| UnitCombat.CombatTailFrom | crates/genie-rec/src/unit.rs:996-1004 | the berserker timer, builder and healer counts are 0 below 10.42, 10.46 and 11.69 |
| UnitCombat.CombatFrom | crates/genie-rec/src/unit.rs:941-1006 | a decoded combat block has six amounts, town-bell defaults below 10.30, and an AI without a patrol path |
| UnitCombat.ReadCombatHead | crates/genie-rec/src/unit.rs:943-951 | reading the head on a cursor yields its decoder's result |
| UnitCombat.ReadAmounts | crates/genie-rec/src/unit.rs:954-956 | the `iter_mut` loop fills the six amounts exactly as the amounts decoder reads them |
| UnitCombat.ReadCounters | crates/genie-rec/src/unit.rs:957-968 | the gated counter reads yield the counters decoder's result |
| UnitCombat.ReadUnitAIOpt | crates/genie-rec/src/unit.rs:969-976 | the presence check and read yield the optional-AI decoder's result |
| UnitCombat.ReadTownBell | crates/genie-rec/src/unit.rs:977-988 | the gated town-bell block read on a cursor is its decoder's result |
| UnitCombat.ReadTownBellLater | crates/genie-rec/src/unit.rs:989-995 | the two later gated blocks read on a cursor are their decoder's result |
| UnitCombat.ReadCombatTail | crates/genie-rec/src/unit.rs:996-1004 | the three gated tail reads yield the tail decoder's result |
| UnitCombat.ReadCombat | crates/genie-rec/src/unit.rs:941-1006 | reading the combat block on a cursor yields exactly the combat decoder's result |
| UnitBuilding.BuildingHeadFrom | crates/genie-rec/src/unit.rs:1089-1097 | the built flag through the relic counts decode exactly on 27 bytes, the flag being its first byte's nonzero test |
| UnitBuilding.GatherRawFrom | crates/genie-rec/src/unit.rs:1099-1106 | the gather-point words decode exactly on 22 bytes, all read before any is looked at |
| UnitBuilding.GatherPointOf | crates/genie-rec/src/unit.rs:1107-1114 | no gather point exactly when the exists word is 0; a location exactly for ids -1 and -1; an object exactly when both are otherwise non-negative, with those ids; a panic exactly when either is otherwise negative |
| UnitBuilding.GatherPointFrom | crates/genie-rec/src/unit.rs:1098-1115 | a decoded gather point took exactly 22 bytes |
| UnitBuilding.BuildingLinkFrom | crates/genie-rec/src/unit.rs:1116-1122 | the desolid flag, the pending order from 10.54 (0 below) and the linked owner take 9 bytes from 10.54 and 5 below |
| UnitBuilding.SlotsValidCons | crates/genie-rec/src/unit.rs:1126-1129 | a slot list is valid exactly when its first id is at least -1 and the rest is valid |
| UnitBuilding.Kept | crates/genie-rec/src/unit.rs:1127-1129 | the occupied slots are no more than the slots |
| UnitBuilding.ChildrenAgree | crates/genie-rec/src/unit.rs:1123-1132 | the annex loop succeeds exactly when the block of i32 slots is there with no negative other than -1, and keeps the ids other than -1, in order |
| UnitBuilding.ChildrenBounded | crates/genie-rec/src/unit.rs:1123-1132 | the linked children are at most four and take 16 bytes |
| UnitBuilding.EntryFrom | crates/genie-rec/src/unit.rs:1026-1033 | a production queue entry decodes exactly on 4 bytes: the unit type is the u16 at offset 0 and the count the u16 at offset 2 |
| UnitBuilding.QueueBodyFrom | crates/genie-rec/src/unit.rs:1138-1142 | the queue has exactly `capacity` entries |
| UnitBuilding.QueueFrom | crates/genie-rec/src/unit.rs:1136-1144 | the queue has exactly as many entries as its u16 capacity |
| UnitBuilding.QueueConsumes | crates/genie-rec/src/unit.rs:1136-1144 | the queue takes its capacity word, 4 bytes an entry and the ignored size word |
| UnitBuilding.BuildingActionsFrom | crates/genie-rec/src/unit.rs:1133-1135 | the captured count and the two action lists take at least one byte |
| UnitBuilding.QueueStateFrom | crates/genie-rec/src/unit.rs:1145-1147 | the queue's total and enabled flag take at least 3 bytes, the flag being the third byte's nonzero test |
| UnitBuilding.EndpointFrom | crates/genie-rec/src/unit.rs:1148-1164 | from 10.65 the endpoint block takes 36 bytes; below, nothing is read and the fields are defaults |
| UnitBuilding.EndpointSecondWins | crates/genie-rec/src/unit.rs:1151-1160 | of the two endpoint triples read into one field, the second is the one kept |
| UnitBuilding.BuildingFlagsFrom | crates/genie-rec/src/unit.rs:1165-1173 | the terrain is present exactly from 10.67, the semi-asleep flag false below 11.43 and the snow flag false below 11.54, taking exactly the version's bytes |
| UnitBuilding.BuildingFrom | crates/genie-rec/src/unit.rs:1087-1175 | a decoded building has its terrain exactly from 10.67, and its pending order and endpoint fields at defaults below their gates |
| UnitBuilding.ReadGatherPoint | crates/genie-rec/src/unit.rs:1098-1115 | every gather-point word is read, then classified, as the gather-point decoder does |
| UnitBuilding.ReadBuildingLink | crates/genie-rec/src/unit.rs:1116-1122 | the link fields read on a cursor are their decoder's result |
| UnitBuilding.ReadBuildingActions | crates/genie-rec/src/unit.rs:1133-1135 | the count and the two lists read on a cursor are their decoder's result |
| UnitBuilding.ReadQueueState | crates/genie-rec/src/unit.rs:1145-1147 | the queue state read on a cursor is its decoder's result |
| UnitBuilding.ReadLinkedChildren | crates/genie-rec/src/unit.rs:1123-1132 | the `for _ in 0..4` loop pushes exactly the ids the children decoder keeps |
| UnitBuilding.ReadQueue | crates/genie-rec/src/unit.rs:1136-1144 | the buffer filled in place holds exactly the decoded queue |
| UnitBuilding.ReadEndpoint | crates/genie-rec/src/unit.rs:1148-1164 | the doubly assigned endpoint block reads as its decoder does, the second triple kept |
| UnitBuilding.ReadBuildingFlags | crates/genie-rec/src/unit.rs:1165-1173 | the three gated flag reads yield their decoder's result |
| UnitBuilding.ReadBuilding | crates/genie-rec/src/unit.rs:1087-1175 | reading the building block on a cursor yields exactly the building decoder's result |
| UnitAIs.OrderHeadFrom | crates/genie-rec/src/unit.rs:613-616 | the issuer through the target id decode exactly on 16 bytes, as the u32 words at offsets 0, 4, 8 and 12 |
| UnitAIs.OrderTailFrom | crates/genie-rec/src/unit.rs:618-623 | the target location and range decode exactly on 16 bytes |
| UnitAIs.OrderFrom | crates/genie-rec/src/unit.rs:611-625 | an order decodes exactly on 36 bytes whose target-player word fits a player id, and keeps that word |
| UnitAIs.NotificationFrom | crates/genie-rec/src/unit.rs:641-652 | a notification decodes exactly on 24 bytes: caller, recipient, type and the three parameters are the u32 words at offsets 0 to 20, in that order |
| UnitAIs.OrderHistoryFrom | crates/genie-rec/src/unit.rs:671-693 | a history entry decodes exactly on its version's size, with no attack category below 10.50 |
| UnitAIs.RetargetEntryFrom | crates/genie-rec/src/unit.rs:707-714 | a retarget entry decodes exactly on 8 bytes: the target id is the u32 at offset 0 and the timeout the u32 at offset 4 |
| UnitAIs.WaypointFrom | crates/genie-rec/src/unit.rs:728-741 | a waypoint decodes exactly on 16 bytes, its facet being byte 12 |
| UnitAIs.AICurrentFrom | crates/genie-rec/src/unit.rs:807-824 | the current-order block decodes exactly on 40 bytes, its target type absent exactly for 0xFFFF |
| UnitAIs.AILastFrom | crates/genie-rec/src/unit.rs:825-829 | the five `last_*` words decode exactly on 20 bytes, each the optional u32 (0xFFFFFFFF as none) at offsets 0, 4, 8, 12 and 16 |
| UnitAIs.AITimersFrom | crates/genie-rec/src/unit.rs:830-837 | the timers, defend target and defense buffer decode exactly on 32 bytes |
| UnitAIs.AIStateFrom | crates/genie-rec/src/unit.rs:863-868 | the stop flag through the alert object decode exactly on 19 bytes, the flag being its first byte's nonzero test |
| UnitAIs.PatrolFrom | crates/genie-rec/src/unit.rs:869-876 | an absent patrol path decodes and takes its presence word; a present one reaches the unwritten reader and fails |
| UnitAIs.AIGatedFrom | crates/genie-rec/src/unit.rs:878-909 | every version-gated field is a default below its gate (10.48, 10.50, 11.04, 11.05, 11.14, 11.44) |
| UnitAIs.HistoryListFrom | crates/genie-rec/src/unit.rs:879-886 | the history has exactly as many entries as its count, none with an attack category below 10.50 |
| UnitAIs.UnitAIFrom | crates/genie-rec/src/unit.rs:805-911 | a decoded AI has no patrol path, a target type below 0xFFFF, and empty gated lists below their gates |
| UnitAIs.OrdersConsume | crates/genie-rec/src/unit.rs:839-846 | the order list takes its count word and 36 bytes an order |
| UnitAIs.NotificationsConsume | crates/genie-rec/src/unit.rs:847-854 | the notification list takes its count word and 24 bytes a notification |
| UnitAIs.HistoryConsumes | crates/genie-rec/src/unit.rs:879-886 | the history takes its count word and 40 bytes an entry, 44 from 10.50 |
| UnitAIs.ReadOrder | crates/genie-rec/src/unit.rs:611-625 | reading an order on a cursor is the order decoder's result |
| UnitAIs.ReadOrderHistory | crates/genie-rec/src/unit.rs:671-693 | the struct literal and the gated read yield the history decoder's result |
| UnitAIs.ReadWaypoint | crates/genie-rec/src/unit.rs:728-741 | reading a waypoint on a cursor is the waypoint decoder's result |
| UnitAIs.ReadPatrol | crates/genie-rec/src/unit.rs:869-876 | the `has_path` step yields the patrol decoder's result |
| UnitAIs.ReadAIGated | crates/genie-rec/src/unit.rs:878-909 | each `if version >= …` block read in turn yields the gated decoder's result |
| UnitAIs.ReadUnitAI | crates/genie-rec/src/unit.rs:805-911 | reading an AI on a cursor yields exactly the AI decoder's result |
| Units.MotionBlocksFrom | crates/genie-rec/src/unit.rs:48-56 | the animated, moving and action blocks are present exactly when the class reaches Animated, Moving and Action |
| Units.CombatBlocksFrom | crates/genie-rec/src/unit.rs:57-68 | the base-combat, missile, combat and building blocks are present exactly when the class reaches them |
| Units.UnitFrom | crates/genie-rec/src/unit.rs:30-70 | a zero class byte is no unit and takes one byte; a class byte the table does not know fails; otherwise each block is present exactly when the class reaches it |
| Units.UnitWrittenBytes | crates/genie-rec/src/unit.rs:72-75 | the unit writer emits six bytes, the class byte and the owner first, before the static writer stops |
| Units.WrittenPrefixReadsBack | crates/genie-rec/src/unit.rs:31-36 | the emitted prefix reads back as the class byte and the static block's owner |
| Units.ReadMotionBlocks | crates/genie-rec/src/unit.rs:48-56 | the three gated reads yield the motion-block decoder's result |
| Units.ReadCombatBlocks | crates/genie-rec/src/unit.rs:57-68 | the four gated reads yield the combat-block decoder's result |
| Units.ReadUnit | crates/genie-rec/src/unit.rs:30-70 | reading a unit on a cursor yields exactly the unit decoder's result |
| Units.WriteUnit | crates/genie-rec/src/unit.rs:72-75 | the sink grows by the six-byte prefix and the write never completes |
| HeaderAI.ParametersFrom | crates/genie-rec/src/header.rs:28 | the four parameters decode exactly on 16 bytes, as little-endian i32 values |
| HeaderAI.AICommandFrom | crates/genie-rec/src/header.rs:21-30 | a command decodes exactly on 24 bytes: the type at 0, the id at 4, two skipped bytes, and the parameters from 8 |
| HeaderAI.CommandPrefix | crates/genie-rec/src/header.rs:21-30 | a command depends only on its own 24 bytes |
| HeaderAI.SlotsFrom | crates/genie-rec/src/header.rs:55-56 | n command slots decode exactly on 24·n bytes and yield n commands |
| HeaderAI.ManyCommands | crates/genie-rec/src/header.rs:55-56 | reading the slots one command at a time is the same as reading the slot run |
| HeaderAI.RuleHeadFrom | crates/genie-rec/src/header.rs:45-54 | the rule head decodes exactly on 16 bytes, the two counts being bytes 12 and 13 |
| HeaderAI.DistributeNext | crates/genie-rec/src/header.rs:57-61 | one more slot joins the facts below the fact count, the actions below the fact-and-action count, else neither |
| HeaderAI.DistributeSlices | crates/genie-rec/src/header.rs:55-62 | the facts are the first slots up to the fact count and the actions the following slots up to the fact-and-action count, in order |
| HeaderAI.RuleFrom | crates/genie-rec/src/header.rs:44-64 | a rule decodes exactly on 400 bytes |
| HeaderAI.KeptSlotsFrom | crates/genie-rec/src/header.rs:55-62 | the sixteen slots decode exactly on 384 bytes |
| HeaderAI.RuleKeepsSlots | crates/genie-rec/src/header.rs:44-64 | a rule keeps exactly the slots below its fact count as facts and those up to its fact-and-action count as actions; at most sixteen survive |
| HeaderAI.ListHeadFrom | crates/genie-rec/src/header.rs:77-84 | the list head decodes exactly on 16 bytes, the maximum at 8 and the count at 10 |
| HeaderAI.ListFrom | crates/genie-rec/src/header.rs:76-89 | a list has exactly its count's rules, whatever its stored maximum |
| HeaderAI.ListConsumes | crates/genie-rec/src/header.rs:76-89 | a list of n rules decodes exactly on its head and n rules, and takes just those |
| HeaderAI.GroupTableFrom | crates/genie-rec/src/header.rs:99-110 | a group table decodes exactly on 8 bytes plus two per group, with exactly its count's groups |
| HeaderAI.NarrowU8From | crates/genie-rec/src/header.rs:160 | a u32 narrowed into a u8 is read exactly when it is below 256, and keeps its value |
| HeaderAI.FactFlagsFrom | crates/genie-rec/src/header.rs:156-159 | the versions and flags decode exactly on 16 bytes |
| HeaderAI.FactSettingsFrom | crates/genie-rec/src/header.rs:160-165 | the settings decode exactly on 24 bytes whose narrowed words all fit in a u8 |
| HeaderAI.FactHeadFrom | crates/genie-rec/src/header.rs:156-165 | the ten leading fields decode exactly on 40 bytes whose five narrowed words fit in a u8 |
| HeaderAI.WordTableFrom | crates/genie-rec/src/header.rs:174 | a word table decodes exactly on 1024 bytes into 256 words |
| HeaderAI.TimersFrom | crates/genie-rec/src/header.rs:171-173 | the timers decode exactly on 320 bytes into eight rows of ten |
| HeaderAI.TimersExact | crates/genie-rec/src/header.rs:171-173 | eight rows of ten i32 values take exactly 320 bytes |
| HeaderAI.TauntsFrom | crates/genie-rec/src/header.rs:177-179 | the taunts decode exactly on 2048 bytes into eight rows of 256 |
| HeaderAI.TauntsExact | crates/genie-rec/src/header.rs:177-179 | eight rows of 256 i8 values take exactly 2048 bytes |
| HeaderAI.WordTablesFrom | crates/genie-rec/src/header.rs:174-176 | the three word tables decode exactly on 3072 bytes, 256 words each |
| HeaderAI.FactTablesFrom | crates/genie-rec/src/header.rs:171-179 | the tables decode exactly on 5440 bytes with their fixed shapes |
| HeaderAI.FactStateFrom | crates/genie-rec/src/header.rs:155-198 | the fact state decodes exactly on 5480 bytes whose narrowed fields fit in a u8, with its fixed table shapes |
| HeaderAI.ScriptsHeadFrom | crates/genie-rec/src/header.rs:211-214 | the string table is the prefix its reader measures, followed by three u16 maxima of which the list maximum is kept |
| HeaderAI.ScriptsFrom | crates/genie-rec/src/header.rs:210-234 | there are as many lists as group tables, both exactly the list maximum |
| HeaderAI.ReadAICommand | crates/genie-rec/src/header.rs:21-30 | reading a command on a cursor is the command decoder's result |
| HeaderAI.ReadRule | crates/genie-rec/src/header.rs:44-64 | reading a rule on a cursor is the rule decoder's result |
| HeaderAI.ReadKeptSlots | crates/genie-rec/src/header.rs:55-62 | the sixteen-slot loop pushes exactly the facts and actions the slot sorter keeps |
| HeaderAI.ReadList | crates/genie-rec/src/header.rs:76-89 | the rule loop reads exactly the list decoder's result |
| HeaderAI.ReadGroupTable | crates/genie-rec/src/header.rs:99-110 | the group loop reads exactly the group-table decoder's result |
| HeaderAI.ReadNarrowU8 | crates/genie-rec/src/header.rs:160 | a narrowed read on a cursor is the narrowing decoder's result |
| HeaderAI.ReadFactHead | crates/genie-rec/src/header.rs:156-165 | the ten reads yield the head decoder's result |
| HeaderAI.ReadFactFlags | crates/genie-rec/src/header.rs:156-159 | the four reads yield the flags decoder's result |
| HeaderAI.ReadFactSettings | crates/genie-rec/src/header.rs:160-165 | the six reads yield the settings decoder's result |
| HeaderAI.ReadI32Row | crates/genie-rec/src/header.rs:172 | the row loop reads exactly w little-endian i32 values |
| HeaderAI.ReadI32Rows | crates/genie-rec/src/header.rs:171-173 | the `iter_mut` loop reads exactly n rows of w values |
| HeaderAI.ReadI8Row | crates/genie-rec/src/header.rs:178 | the row loop reads exactly w i8 values |
| HeaderAI.ReadI8Rows | crates/genie-rec/src/header.rs:177-179 | the `iter_mut` loop reads exactly n rows of w values |
| HeaderAI.ReadWordTable | crates/genie-rec/src/header.rs:174 | a word table read on a cursor is its decoder's result |
| HeaderAI.ReadWordTables | crates/genie-rec/src/header.rs:174-176 | the three table reads yield their decoder's result |
| HeaderAI.ReadFactTables | crates/genie-rec/src/header.rs:171-179 | the table reads yield their decoder's result |
| HeaderAI.ReadFactState | crates/genie-rec/src/header.rs:155-198 | reading the fact state on a cursor is its decoder's result |
| HeaderAI.ReadScripts | crates/genie-rec/src/header.rs:210-234 | the two loops over the list maximum read exactly the scripts decoder's result |
| SaveHeader.ParticleFrom | crates/genie-rec/src/header.rs:384-397 | a particle decodes exactly on 27 bytes: three u32 times, the sprite at 12, the location, and the flag byte at 26 |
| SaveHeader.ParticleSystemFrom | crates/genie-rec/src/header.rs:407-418 | a particle system keeps its world time and has exactly as many particles as its u32 count |
| SaveHeader.ParticleSystemConsumes | crates/genie-rec/src/header.rs:407-418 | a system of n particles decodes exactly on 8 + 27·n bytes and takes just those |
| SaveHeader.ReadParticleSystem | crates/genie-rec/src/header.rs:407-418 | the particle loop reads exactly the system decoder's result |
| SaveHeader.Zip | crates/genie-rec/src/header.rs:314-316 | each player record is paired with the information block of the same position |
| SaveHeader.PlayersFrom | crates/genie-rec/src/header.rs:306-316 | exactly the player count's records are read, each given the count as a u8, then as many information blocks, paired in order |
| SaveHeader.ReadPlayers | crates/genie-rec/src/header.rs:306-316 | the push loop and the in-place update loop yield the two-pass player decoder's result |
| SaveHeader.StartFrom | crates/genie-rec/src/header.rs:254-263 | the game version is the prefix its reader measures and the save version the next word; the scripts are read exactly when the flag word after them is nonzero |
| SaveHeader.ClockFrom | crates/genie-rec/src/header.rs:265-278 | the 47 discarded clock bytes and the player count decode exactly on 49 bytes, the count at 47 |
| SaveHeader.FlagPairFrom | crates/genie-rec/src/header.rs:280-281 | the aegis and cheat flags are the nonzero tests of two bytes |
| SaveHeader.KingFrom | crates/genie-rec/src/header.rs:288-290 | the king-campaign fields decode exactly on 6 bytes: the campaign is the u32 at offset 0, then the player and scenario bytes 4 and 5 |
| SaveHeader.CampaignIdsFrom | crates/genie-rec/src/header.rs:283-286 | the game mode and campaign ids decode exactly on 13 bytes, the mode first |
| SaveHeader.CampaignFrom | crates/genie-rec/src/header.rs:279-291 | the aegis and cheat flags are there exactly from 11.76 and the king campaign exactly from 10.13, taking exactly the version's bytes |
| SaveHeader.TurnFrom | crates/genie-rec/src/header.rs:292-294 | the turn and the nine time deltas decode exactly on 40 bytes: the turn word is discarded and the k-th delta is the u32 at offset 4 + 4k |
| SaveHeader.CountsFrom | crates/genie-rec/src/header.rs:265-294 | the clock, campaign and turn decode exactly on their version's bytes and keep only the player count |
| SaveHeader.FrontFrom | crates/genie-rec/src/header.rs:254-294 | the front keeps the start's versions and scripts and the clock's player count |
| SaveHeader.PlayerNameFrom | crates/genie-rec/src/header.rs:333-337 | a name record decodes exactly when its length's bytes follow its 12-byte head, and its name is those bytes |
| SaveHeader.SelectionFrom | crates/genie-rec/src/header.rs:359-361 | a selection decodes exactly on 161 bytes: the count byte and forty ids |
| SaveHeader.SelectionsFrom | crates/genie-rec/src/header.rs:358-362 | the nine selections decode exactly on 1449 bytes |
| SaveHeader.SelectionsExact | crates/genie-rec/src/header.rs:358-362 | nine selections of forty ids take exactly 1449 bytes |
| SaveHeader.SentCommandsFrom | crates/genie-rec/src/header.rs:351-363 | the commanded-units block decodes exactly on its version's bytes, the validity word exactly from 11.39 |
| SaveHeader.SettingsFrom | crates/genie-rec/src/header.rs:320-329 | the difficulty is there exactly from 7.16 and the team lock false below 10.23 |
| SaveHeader.RosterFrom | crates/genie-rec/src/header.rs:331-349 | nine names exactly from 11.32, nine resignation words exactly from 11.35, and a count word exactly from 11.36 |
| SaveHeader.TrailerFrom | crates/genie-rec/src/header.rs:320-365 | every trailer block is there exactly from its gate, and below 7.16 the trailer is only the path count |
| SaveHeader.WorldFrom | crates/genie-rec/src/header.rs:296-304 | the map is the prefix its reader measures and the particle system is read right after it |
| SaveHeader.HeaderFrom | crates/genie-rec/src/header.rs:253-370 | a header keeps the versions and scripts of its start, has exactly the player count's players, and has scripts exactly when their flag word is nonzero |
| SaveHeader.ReadClock | crates/genie-rec/src/header.rs:265-278 | the clock reads on a cursor yield the clock decoder's result |
| SaveHeader.ReadCampaign | crates/genie-rec/src/header.rs:279-291 | the gated campaign reads yield the campaign decoder's result |
| SaveHeader.ReadTurn | crates/genie-rec/src/header.rs:292-294 | the turn reads yield the turn decoder's result |
| SaveHeader.ReadPlayerName | crates/genie-rec/src/header.rs:333-337 | the name buffer of the read length holds exactly the decoded name |
| SaveHeader.ReadSelection | crates/genie-rec/src/header.rs:359-361 | a selection read on a cursor is its decoder's result |
| SaveHeader.ReadSentCommands | crates/genie-rec/src/header.rs:351-363 | the commanded-units reads yield their decoder's result |
| SaveHeader.ReadSettings | crates/genie-rec/src/header.rs:320-329 | the gated settings reads yield their decoder's result |
| SaveHeader.ReadRoster | crates/genie-rec/src/header.rs:331-349 | the gated roster loops yield their decoder's result |
| SaveHeader.ReadTrailer | crates/genie-rec/src/header.rs:320-365 | the trailer reads yield the trailer decoder's result |
| SaveHeader.ReadStart | crates/genie-rec/src/header.rs:254-263 | the default header gains its two versions and, when the flag word is nonzero, the scripts, as the start decoder reads them |
| SaveHeader.ReadCounts | crates/genie-rec/src/header.rs:265-294 | the clock, campaign and turn reads yield their decoder's result |
| SaveHeader.ReadWorld | crates/genie-rec/src/header.rs:296-304 | the map, particle and identifier reads yield their decoder's result |
| SaveHeader.ReadHeader | crates/genie-rec/src/header.rs:253-370 | updating the header field by field yields exactly the header decoder's result |

## Left out

- The `todo!()` writers are not modelled past the point where they stop:
  - static unit attributes (after its first three fields);
  - `PathData`, `MovingUnitAttributes`, `ActionUnitAttributes`;
  - `BaseCombatUnitAttributes`, `MissileUnitAttributes`, `CombatUnitAttributes`;
  - `UnitAI` and its records;
  - `BuildingUnitAttributes`;
  - `PatrolPath`.

  `Units.WriteUnit` emits the class byte and the static prefix and then reports that the write never completes. The order in which `Unit::write_to` would emit the present blocks, and the fact that it never emits the building block, are therefore not modelled: the static writer's `todo!()` stops every write before them.
- `PatrolPath::read_from` is `todo!()`. A unit AI whose patrol-path flag is set decodes as `Fail(Unimplemented)`, so a decoded AI never has a patrol path.
- Several readers come from code that is not part of this model. Each is a caller-supplied function giving the number of bytes it takes, and its record is kept as those raw bytes:
  - `GameVersion`, `StringTable`, `Map`, `Player::read_from`, `Player::read_info` and `TribeScen`;
  - `UnitType::read_from`.
- The conversion of the unit class byte into `UnitBaseClass`, and that enumeration's order, are a caller-supplied table (`Units.ClassTable`).
- Floating point is not modelled. An `f32` is its bit pattern. The comparisons with -1.0 and 0.0, and turning the f32 save version into hundredths, are caller-supplied (`Wire.Floats`).
- The id types `PlayerID`, `ObjectID`, `UnitTypeID`, `TechID` and `SpriteID` are defined outside the modelled files. The model assumes they wrap a u8, a u32 and a u16 (`PlayerId`, `ObjectId`, `UnitTypeId`/`TechId`/`SpriteId` in wire.dfy). These are the widths their plain `.into()` reads convert from. Every `try_into().unwrap()` from a wider or signed integer therefore fails as `OutOfRange` outside that range, and the model treats the panic as that failure. For example, the `i32` player of a view lock (actions.rs:35) and the `u32` target player of a unit AI order (unit.rs:617) must lie in 0..255, and an `i32` object id in an objects list must not be negative. If an id type's real range is different, these failure conditions are different too.
- `std::io` plumbing is modelled as a byte sequence (`Cursor.rest`) and an output sequence (`Sink.out`): `Read`/`Write`, `take` and `io::copy` into a sink, and the error types. The draining of a frame's window is modelled as dropping its unread bytes.
- Short input, the `assert!`s, `unwrap()`s and `unimplemented!()`s become failures of the decoder. No panic is distinguished from an error return beyond the error kind above.
- Chat text is kept as raw bytes. No character encoding is decoded.
- Allocation failure is not modelled. `ParticleSystem::read_from` reserves room for `num_particles` entries up front (header.rs:410). With a huge count that allocation can abort the process. The model, `SaveHeader.ParticleSystemFrom`, instead fails as `Truncated` when the particles are not there, or succeeds.
- Resolving `SameAsLast` against earlier commands is not modelled. No code in the modelled files does it.
- The `Debug` implementation of `AIFactState` only formats, and is not modelled.
- The `is_old_record` branch of `Time::read_from` is dead: its flag is the constant `false`. Only the live path is modelled.
- The unit paths and unit groups are not read by `Header::read_from`: the source stops after the path count. The discarded clock, campaign and turn fields are read and dropped, as the source drops them.
- `Header::players` and the other accessors are not modelled: they are iterators over the decoded fields.
- Wire.Many: its own contract states only the number of items. Consumption and exact success are stated separately by `Wire.ManyConsumes` and `Wire.ManyExact`.

## Findings

| source | as written | input that shows it | evidently intended | confidence | as-written member | corrected member |
|---|---|---|---|---|---|---|
| crates/genie-rec/src/actions.rs:243-252 | `MoveCommand::write_to` starts with three zero bytes, but the reader takes the first byte as `player_id` (lines 230-233). | a move by player 1 with no target, location (0, 0) and no objects reads back as a move by player 0 | the writer emits `player_id` and then two pad bytes, so every field round-trips | high (proved in the model; not executed) | Commands.MoveBytesAsWritten, with CommandLaws.MoveWriterDropsPlayer and CommandLaws.MoveWriterCounterexample | Commands.MoveBytes, with CommandLaws.MoveRoundTrip |
| crates/genie-rec/src/actions.rs:399 | `AIOrderCommand::write_to` writes `player_id` into the slot the reader decodes as `target_player_id` (lines 360-363). | an order from player 1 with no target player reads back as targeting player 1; players 128 to 254 make the reader's narrowing fail | the writer emits `target_player_id`, with -1 for None | high (proved in the model; not executed) | Commands.AIOrderBytesAsWritten, with CommandLaws.AIOrderWriterTargetsOwnPlayer and CommandLaws.AIOrderWriterCounterexample | Commands.AIOrderBytes, with CommandLaws.AIOrderRoundTrip |
| crates/genie-rec/src/actions.rs:1266 | `SetGatherPointCommand::write_to` writes the building count as a `u8`, but the reader reads it as an `i8` (line 1252). | 128 buildings are written with count byte 0x80, which reads back as -128: an empty list, with the ids left unread | the count is written as an `i8`, as the other `i8`-counted commands do, so counts of 128 or more are refused | medium (proved in the model; not executed) | Commands.SetGatherPointBytesAsWritten, with CommandLaws.SetGatherPointWriterCountSign | Commands.SetGatherPointBytes, with CommandLaws.SetGatherPointRoundTrip |
