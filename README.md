# A verified model of the JDWP client core and the project registry

This project models three pieces of an Android reverse-engineering GUI in Dafny and proves
properties of each.

- **The JDWP value model** (`jdwp.dfy`, module `Jdwp`, from `lib/Debugger/Jdwp/jdwp.h`).
  It covers:
  - the fixed-width identifiers;
  - the constant tables for tags, type tags, event kinds, suspend policies and modifier
    kinds, each with a decoder and a round trip;
  - the tagged value `JValue` with its constructors and its hand-written `operator==`;
  - the records `ClassInfo`, `MethodInfo`, `FieldInfo` and `Location`;
  - the modifier union `JdwpEventMod`.

  The value's eight-byte union is modelled as the 64-bit word `L` that the equality reads,
  with 64-bit pointers and the narrow members in its low bytes (a little-endian host).
- **The debugger session** (`debugger.dfy`, module `Debugger`, from
  `lib/Debugger/DebugHandler.cpp`). The handler keeps a request-id counter (`mSockId`) and
  a table of pending requests keyed by id (`mRequestMap`). An inbound packet is either a
  reply, which fires the handler of its pending request exactly once, or an event
  Composite, which is switched on event kind.

  The reply handlers of the C++ code are lambdas. Here they are the data type
  `Continuation`, and the function `Fire` says what each one does.

  The session is stated twice:
  - as a value `Session` with spec functions such as `Reply`, `Connect` and
    `SetBreakPoint`;
  - as the class `DebugHandler`, whose fields are updated in place by methods that are
    each proved equal to the matching spec function.

  Lemmas about the spec functions cover:
  - the session invariant: ids are fresh, each pending entry is filed under its own id and
    its request was sent, and sent ids strictly increase;
  - at-most-once delivery of a reply;
  - the four registrations made on connect;
  - the complete breakpoint workflow, including its two early exits.
- **The project registry** (`projects.dfy`, module `Projects`, from
  `lib/utils/ProjectInfo.cpp` and `include/utils/ProjectInfo.h`). It covers:
  - a project's settings `PConfig`;
  - its root, source, build and config paths;
  - the registry of projects by name, with a current project and a last project, and its
    open and close operations.

  The registry's static members are one `Registry` object.

`wrappers.dfy` holds the shared `Option` type.

Three behaviours of the code that the model keeps as they are:
- Every inbound packet without the reply bit is decoded as a Composite; its command set and
  command are never checked (`lib/Debugger/DebugHandler.cpp:46-50`, `:73`).
- Resume is sent right after the breakpoint's EventRequest.Set, without waiting for the Set's
  reply (`lib/Debugger/DebugHandler.cpp:294-295`). `Debugger.BreakpointWorkflow` shows both
  requests pending at once.
- On connect the code makes four registrations: class prepare, class unload, a suspend-all
  class-prepare for `java.lang.Throwable`, and one for the entry activity
  (`lib/Debugger/DebugHandler.cpp:178-212`).

## Model

| member | source | states |
|---|---|---|
| Jdwp.TagCode | lib/Debugger/Jdwp/jdwp.h:33-50 | each value tag has its ASCII character, and decoding that character gives the tag back |
| Jdwp.TypeTagCode | lib/Debugger/Jdwp/jdwp.h:52-56 | class, interface and array are 1, 2 and 3, and decoding the code gives the type tag back |
| Jdwp.EventKindCode | lib/Debugger/Jdwp/jdwp.h:58-82 | each event kind has its protocol number (1 to 100), and decoding the number gives the kind back |
| Jdwp.SuspendPolicyCode | lib/Debugger/Jdwp/jdwp.h:84-88 | none, event thread and all are 0, 1 and 2, and decoding the code gives the policy back |
| Jdwp.ModKindCode | lib/Debugger/Jdwp/jdwp.h:90-103 | each modifier kind has its number 1 to 12, and decoding the number gives the kind back |
| Jdwp.ConstantCodesDistinct | lib/Debugger/Jdwp/jdwp.h:33-103 | the converse round trip for all five tables: a character or code that decodes to a constant is that constant's code, so no two constants of a table share a code |
| Jdwp.DefaultValue | lib/Debugger/Jdwp/jdwp.h:136 | the default value has the void tag and a null (all-zero) union |
| Jdwp.OfTag | lib/Debugger/Jdwp/jdwp.h:151-154 | a value built from a tag alone has that tag and a zero union, whatever member it is read through |
| Jdwp.OfByte | lib/Debugger/Jdwp/jdwp.h:137 | the byte tag, the byte reads back through B, and the other seven union bytes keep their earlier contents |
| Jdwp.OfBoolean | lib/Debugger/Jdwp/jdwp.h:138 | the boolean tag, the flag reads back through Z, and the other seven union bytes keep their earlier contents |
| Jdwp.OfChar | lib/Debugger/Jdwp/jdwp.h:139 | the given tag (char by default), the signed 16-bit value reads back through C/S, and the higher six bytes keep their earlier contents |
| Jdwp.OfInt | lib/Debugger/Jdwp/jdwp.h:141 | the int tag, the signed 32-bit value reads back through I, and the higher four bytes keep their earlier contents |
| Jdwp.OfObject | lib/Debugger/Jdwp/jdwp.h:142 | the given reference tag (object by default), and the 64-bit id reads back |
| Jdwp.OfLong | lib/Debugger/Jdwp/jdwp.h:144 | the long tag, and the signed 64-bit value reads back through J |
| Jdwp.CompareAsWritten | lib/Debugger/Jdwp/jdwp.h:155-169 | the loop of operator== as written: false on different tags; otherwise true exactly when the words agree modulo 16^(w+1), that is on bits 0 to 4w+3 rather than on the w bytes of the tag's width |
| Jdwp.AgreeAsWrittenExamines | lib/Debugger/Jdwp/jdwp.h:159-168 | the mask-0xff, shift-4 loop run w times accepts two words exactly when they agree modulo 16^(w+1) |
| Jdwp.EqualsAsWrittenReflexive | lib/Debugger/Jdwp/jdwp.h:155-169 | operator== as written is reflexive for every width |
| Jdwp.HighBitsIgnoredAsWritten | lib/Debugger/Jdwp/jdwp.h:160-167 | values with equal tags whose words differ only above bit 4w+3 compare equal |
| Jdwp.AsWrittenLongsCollide | lib/Debugger/Jdwp/jdwp.h:160-167 | the longs 0 and 2^36 are different values that operator== as written calls equal at width 8 |
| Jdwp.AsWrittenCharsCollide | lib/Debugger/Jdwp/jdwp.h:160-167 | the chars 0 and 0x1000 are different values that operator== as written calls equal at width 2 |
| Jdwp.Compare | lib/Debugger/Jdwp/jdwp.h:155-169 | the corrected comparison: false on different tags; otherwise true exactly when the low w bytes of the two words agree (modulo 256^w) |
| Jdwp.AgreeBytewiseExamines | lib/Debugger/Jdwp/jdwp.h:159-168 | the corrected loop, which shifts by 8, run w times accepts two words exactly when they agree modulo 256^w |
| Jdwp.ValueEqualsExact | lib/Debugger/Jdwp/jdwp.h:155-169 | at the full eight-byte width the corrected equality holds exactly when the two values are equal |
| Jdwp.ByteValuesCompareByPayload | lib/Debugger/Jdwp/jdwp.h:137 | two byte values compare equal at width 1 exactly when their bytes are equal, whatever the rest of their unions held |
| Jdwp.CharValuesCompareByPayload | lib/Debugger/Jdwp/jdwp.h:139 | two char values compare equal at width 2 exactly when their 16-bit values are equal, whatever the rest of their unions held |
| Jdwp.KindOfMod | lib/Debugger/Jdwp/jdwp.h:205-256 | the leading modKind of a modifier; no arm carries the source-name-match kind |
| Jdwp.KindDeterminesArm | lib/Debugger/Jdwp/jdwp.h:205-256 | two modifiers have the same kind exactly when they are in the same arm of the union |
| Debugger.FirstMatch | lib/Debugger/DebugHandler.cpp:282-297 | a found index is inside the method list and names a method whose name and signature both match |
| Debugger.FirstMatchIsFirst | lib/Debugger/DebugHandler.cpp:282-297 | the scan finds the first matching method: none before it matches, and it finds nothing exactly when no method matches |
| Debugger.Reply | lib/Debugger/DebugHandler.cpp:53-65 | after a reply its id is no longer pending, and a reply whose id is not pending changes nothing |
| Debugger.DefaultBranchKinds | lib/Debugger/DebugHandler.cpp:75-154 | an event kind takes the default branch exactly when it is none of 1, 2, 4, 6, 7, 8, 40, 41, 90 and 99 |
| Debugger.UnhandledEventKinds | lib/Debugger/DebugHandler.cpp:77-153 | the protocol's event kinds that fall to the default branch are exactly the thirteen whose cases are commented out, including class unload and VM disconnected |
| Debugger.IssueExtends | lib/Debugger/DebugHandler.cpp:158-163 | sending a request with id mSockId++ appends exactly that request to the socket, advances the counter by one, and keeps every pending entry; the only new entry is under the old counter value |
| Debugger.IssueKeepsInv | lib/Debugger/DebugHandler.cpp:158-163 | sending a request with id mSockId++ keeps the session invariant, including that every pending request was sent |
| Debugger.FireExtends | lib/Debugger/DebugHandler.cpp:274-359 | every reply handler only adds pending entries, each under a fresh id, and keeps the existing ones |
| Debugger.FireKeepsInv | lib/Debugger/DebugHandler.cpp:274-359 | every reply handler keeps the session invariant |
| Debugger.ReplyKeepsOtherEntries | lib/Debugger/DebugHandler.cpp:53-65 | a reply leaves every other pending entry in place, any entry it adds has a fresh id, and the socket output only grows |
| Debugger.ReplyKeepsInv | lib/Debugger/DebugHandler.cpp:53-65 | a reply keeps the session invariant |
| Debugger.ReplyAtMostOnce | lib/Debugger/DebugHandler.cpp:57-64 | a second reply with the same id changes nothing, so each handler fires at most once |
| Debugger.ConnectRegistrations | lib/Debugger/DebugHandler.cpp:170-213 | on connect the counter restarts and exactly four EventRequest.Set requests go out with ids 1 to 4: class prepare and class unload with no suspension, then the suspend-all, count-1, class-match registrations for java.lang.Throwable and for the entry activity; all four handlers only log |
| Debugger.ConnectKeepsInv | lib/Debugger/DebugHandler.cpp:170-213 | whatever the state before, the session invariant holds after the connect, counted from the outbox position at the connect |
| Debugger.DisconnectDropsEverything | lib/Debugger/DebugHandler.cpp:225-231 | after a disconnect the counter is 1, nothing is pending, and no reply, stale or not, fires a handler |
| Debugger.ClassLookupStops | lib/Debugger/DebugHandler.cpp:343-355 | a class lookup that returns no class, or an unresolved type id 0, ends the breakpoint workflow without sending anything |
| Debugger.MethodLookupStops | lib/Debugger/DebugHandler.cpp:319-334 | a method lookup in which no method matches, the empty list included, ends the workflow without sending anything |
| Debugger.ClassResolvedStep | lib/Debugger/DebugHandler.cpp:339-359 | a resolved class lookup sends exactly the method lookup for the first class entry's type id, under the next id |
| Debugger.MethodMatchedStep | lib/Debugger/DebugHandler.cpp:280-297 | a method lookup whose first match is method i sends the breakpoint Set and then Resume, with consecutive ids |
| Debugger.BreakpointWorkflow | lib/Debugger/DebugHandler.cpp:274-300 | the whole breakpoint workflow when the class resolves and method i is the first match: four requests with consecutive ids, namely the class lookup, the method lookup, the Set with one location-only modifier (class type tag, type id, method id, code index) and Resume; afterwards the Set and the Resume are pending besides what was pending before |
| Debugger.BreakpointKeepsInv | lib/Debugger/DebugHandler.cpp:274-359 | whatever the class and method replies hold, the breakpoint workflow keeps the session invariant |
| Debugger.BreakpointWithoutClass | lib/Debugger/DebugHandler.cpp:339-359 | with no class or an unresolved one, the workflow sends only the class lookup and leaves nothing pending |
| Debugger.BreakpointWithoutMethod | lib/Debugger/DebugHandler.cpp:315-337 | with no matching method, the workflow sends only the two lookups and leaves nothing pending |
| Debugger.DebugHandler.constructor | lib/Debugger/DebugHandler.cpp:19-35 | a fresh handler has the given decoders, counter 1 (as after a reset), no pending requests and nothing sent |
| Debugger.DebugHandler.OnJdwpRequest | lib/Debugger/DebugHandler.cpp:43-51 | a packet with the reply bit is handled as a reply; any other packet changes no state and is dispatched as a Composite |
| Debugger.DebugHandler.HandleReply | lib/Debugger/DebugHandler.cpp:53-65 | the new state is `Reply` of the old one |
| Debugger.DebugHandler.HandleCommand | lib/Debugger/DebugHandler.cpp:67-156 | one branch per decoded event, in packet order, chosen by the event kind |
| Debugger.DebugHandler.SendNewRequest | lib/Debugger/DebugHandler.cpp:158-163 | files the package under its id, writes its request, and returns true |
| Debugger.DebugHandler.OnSocketConnected | lib/Debugger/DebugHandler.cpp:170-213 | the new state is `Connect` of the old one |
| Debugger.DebugHandler.OnStartupTimer | lib/Debugger/DebugHandler.cpp:215-222 | asks for the version, then starts the breakpoint workflow for MainActivity.onCreate(Bundle) at code index 0 |
| Debugger.DebugHandler.OnSocketDisconnected | lib/Debugger/DebugHandler.cpp:225-231 | the new state is `Disconnect` of the old one |
| Debugger.DebugHandler.SendCommand | lib/Debugger/DebugHandler.cpp:234-243 | takes mSockId++ as the id and sends the command with its reply handler |
| Debugger.DebugHandler.DbgVersion | lib/Debugger/DebugHandler.cpp:234-244 | sends VirtualMachine.Version under the next id, with a handler that only logs |
| Debugger.DebugHandler.DbgAllClassesWithGeneric | lib/Debugger/DebugHandler.cpp:246-262 | sends VirtualMachine.AllClassesWithGeneric under the next id, with a handler that only logs |
| Debugger.DebugHandler.DbgResume | lib/Debugger/DebugHandler.cpp:264-272 | sends VirtualMachine.Resume under the next id; its reply emits the resume notification |
| Debugger.DebugHandler.DbgSetBreakPoint | lib/Debugger/DebugHandler.cpp:274-300 | starts the breakpoint workflow with the class lookup for the requested signature |
| Debugger.DebugHandler.DbgEventRequestSet | lib/Debugger/DebugHandler.cpp:302-313 | sends EventRequest.Set with the given kind, policy and modifiers under the next id |
| Debugger.DebugHandler.DbgGetRefTypeMethodsWithGeneric | lib/Debugger/DebugHandler.cpp:315-337 | sends ReferenceType.MethodsWithGeneric for the type id under the next id, continuing the workflow, and returns true |
| Debugger.DebugHandler.DbgGetClassBySignature | lib/Debugger/DebugHandler.cpp:339-362 | sends VirtualMachine.ClassesBySignature under the next id, continuing the workflow, and returns true |
| Debugger.DebugHandler.FindMethod | lib/Debugger/DebugHandler.cpp:282-297 | the loop with continue and break finds the first method whose name and signature match, or reports that none does |
| Debugger.DebugHandler.OnReply | lib/Debugger/DebugHandler.cpp:274-359 | running a reply handler leaves the state that `Fire` gives |
| Projects.PathsExtendRoot | lib/utils/ProjectInfo.cpp:100-114 | the source, build and config paths are the root path plus "/Project", "/Bin" and "/Config.xml"; cutting that suffix off gives the root back, and the three paths differ |
| Projects.PathsDetermineRoot | lib/utils/ProjectInfo.cpp:100-114 | two projects with the same source, build or config path have the same root path |
| Projects.ProjectInfo.constructor | lib/utils/ProjectInfo.cpp:92-98 | a new project has its name and the compile and decompile commands stored in its configuration file |
| Projects.ProjectInfo.Config | include/utils/ProjectInfo.h:71 | reads the project's own settings |
| Projects.ProjectInfo.SetConfig | include/utils/ProjectInfo.h:71 | a write through config() replaces this project's settings |
| Projects.Registry.constructor | lib/utils/ProjectInfo.cpp:67-69 | the registry starts with no projects and no current or last project |
| Projects.Registry.IsProjectOpened | include/utils/ProjectInfo.h:69 | a project is open exactly when there is a current project |
| Projects.Registry.Current | include/utils/ProjectInfo.h:63 | the current project, or null |
| Projects.Registry.Last | include/utils/ProjectInfo.h:64 | the last closed project, or null |
| Projects.Registry.OpenProject | lib/utils/ProjectInfo.cpp:71-80 | a registered name gives back its project and changes nothing, even if that project was closed; a new name, allowed only with no current project, creates the project, registers it and makes it current; current and last stay registered projects |
| Projects.Registry.CloseProject | lib/utils/ProjectInfo.cpp:82-90 | true exactly when a project was current; it then becomes the last project and none is current; otherwise nothing changes; the map never changes |
| Projects.ReopenAfterClose | lib/utils/ProjectInfo.cpp:71-90 | opening, closing and opening a project again returns the same project, but no project is current afterwards, and that project is the last |

## Left out

- The socket, the Qt signals and slots, and `onSocketError` are not modelled; the error
  handler only logs. A request "written to the socket" is appended to the typed `outbox`
  sequence.
- The wire encoding and decoding of requests, replies and Composite packets are left out.
  Their code is not part of this model. The handler is given total decoders
  (`Debugger.Codec`) for class lists, method lists and Composites, so a malformed packet
  cannot be represented. The decoded `mSize` is taken to be the length of the decoded list.
- Each packet header is not decoded either. A `Packet` carries its id, its flags and its
  payload, and the reply bit is read as flag 0x80. A reply's error code is never consulted,
  as in the code.
- Logging (`qDebug`, `cmdmsg`) is left out. It has no effect on state.
- The ten-second single-shot timer is left out. Its body is the method
  `OnStartupTimer`, which may be called at any time.
- `m_event.exit()` on disconnect and the handler's destructor are left out.
- The `dbgOnResume` notification is counted by the `resumed` field.
- `mSockId` is declared in `DebugHandler.h`, which is not part of this model. The counter is
  an unbounded natural number with no wrap-around. The constructor's initial value is taken
  as 1, the value every reset uses.
- The first two registrations on connect pass no modifier list. They are modelled with an
  empty list, taken to be `dbgEventRequestSet`'s default argument, which is declared in
  `DebugHandler.h`, not part of this model.
- `lib/Debugger/DebugHandler.cpp:283` compares a `QByteArray` method name and signature
  with `QString`s, which Qt decodes first. `Debugger.Matches` compares plain strings, so
  decoding differences are not modelled.
- `lib/Debugger/DebugHandler.cpp:341` sends `classSignature.toLocal8Bit()`. The model's
  `ClassesBySignature` request keeps the signature as a string, so the local 8-bit encoding
  of the class signature is not modelled.
- The float and double members of `JValue` and their constructors are not modelled.
- The `JValue(tag, const void*)` constructor is not modelled. It copies `GetTagWidth(tag)`
  bytes from a raw pointer.
- `GetTagWidth`, `IsPrimitiveTag` and `JdwpLocation::operator==` are declared but not
  defined in the code modelled here. The width is therefore a parameter of the equality,
  and a `Location`'s equality is structural.
- The padded modifier `JdwpEventModPad` is not modelled. `MK_SOURCE_NAME_MATCH` has no arm
  in the C union, but C++ code can still set a modifier's `modKind` to it. The model's
  `EventMod` cannot represent such a modifier.
- `V = nullptr` (`jdwp.h:136`, `:153`) zeroes all eight union bytes only where pointers are
  64 bits wide. `DefaultValue` and `OfTag` rely on that.
- The narrow members `B`, `Z`, `C`/`S` and `I` are placed in the low bytes of `L`, which
  holds on a little-endian host. `OfByte` to `OfInt` and the readers `ByteOf` to `IntOf`
  rely on that.
- The narrow constructors take the union's earlier contents as a parameter (`stale`), since
  they leave the higher bytes unwritten.
- `GetProjectsPath` is not part of this model. It is the parameter `projectsPath`.
- Reading a project's configuration file is left out. The constructor takes the stored
  compile and decompile commands as parameters.
- `saveAllConfig` is left out. It only writes files.
- The global settings `SConfig` and `sConfig()` are left out. They are not used by the
  modelled operations.
- The commented-out singleton in `ProjectInfo.cpp` and `ProjectInfo.h` is dead code and is
  not modelled.
- Projects.Registry.OpenProject: the `Q_ASSERT` that no project is current when a new name
  is opened is a precondition. The behaviour of a release build, which skips the assertion
  and overwrites `m_current`, is not modelled.

## Findings

| source | as written | input that shows it | evidently intended | confidence | as-written member | corrected member |
|---|---|---|---|---|---|---|
| lib/Debugger/Jdwp/jdwp.h:165 | `JValue::operator==` masks 0xff but shifts both words by 4 bits per unit of width, so it compares bits 0 to 4w+3 instead of the w bytes of the width | two `JT_LONG` values 0 and 2^36 at width 8 compare equal (also the chars 0 and 0x1000 at width 2) | shift by 8 bits per byte, so that the low w bytes are compared | not executed; follows from the proved characterisation of the loop | Jdwp.AsWrittenLongsCollide | Jdwp.Compare |
