/**
 * The request/reply session of the JDWP client (lib/Debugger/DebugHandler.cpp).
 *
 * The handler keeps a request-id counter, a table of pending requests keyed by id, and
 * writes requests to the socket. Each pending request carries what to do with its reply;
 * here that continuation is data (`Continuation`) rather than a closure. The first half of
 * the module gives the session as values and functions; the class `DebugHandler` at the
 * end is the stateful handler, and each of its methods is proved against those functions.
 */
module Debugger {
  import opened Wrappers
  import opened Jdwp

  type Bytes = seq<u8>

  /** A breakpoint asked for by class signature, method name and signature, and code index. */
  datatype BreakpointRequest =
    BreakpointRequest(classSignature: string, methodName: string, methodSign: string, codeIdx: u64)

  /** The commands the handler sends, with their typed parameters. */
  datatype Command =
    | Version
    | ClassesBySignature(signature: string)
    | AllClassesWithGeneric
    | Resume
    | MethodsWithGeneric(refTypeId: RefTypeId)
    | EventRequestSet(eventKind: EventKind, policy: SuspendPolicy, mods: seq<EventMod>)

  datatype Request = Request(id: nat, command: Command)

  /** What a reply triggers once it arrives. */
  datatype Continuation =
    | LogVersion
    | LogAllClasses
    | LogEventSet
    | SignalResume
      /** The class lookup of a breakpoint: continue with the method lookup. */
    | ClassFound(bp: BreakpointRequest)
      /** The method lookup of a breakpoint in a resolved class: set it and resume. */
    | MethodsFound(bp: BreakpointRequest, classInfo: ClassInfo)

  /** A request together with its reply handler (ReqestPackage). */
  datatype Package = Package(request: Request, onReply: Continuation)

  /** An inbound packet: id, flags, the two bytes after the flags, and the payload. */
  datatype Packet = Packet(id: u32, flags: u8, commandSet: u8, command: u8, data: Bytes)

  /** The reply bit, 0x80, of the flags byte. */
  predicate IsReply(p: Packet) {
    p.flags >= 0x80
  }

  /** One event of a Composite packet; only its kind decides what the handler does. */
  datatype Event = Event(kind: u8)

  datatype Composite = Composite(suspendPolicy: u8, events: seq<Event>)

  /** The reply and event decoders, whose byte layouts are not part of this model. */
  datatype Codec = Codec(
    classes: Bytes -> seq<ClassInfo>,
    methods: Bytes -> seq<MethodInfo>,
    composite: Bytes -> Composite)

  /**
   * The handler's state: the next request id, the pending requests, every request written
   * to the socket in order, and how often the resume notification was emitted.
   */
  datatype Session = Session(sockId: nat, pending: map<nat, Package>, outbox: seq<Request>, resumed: nat)

  // ---------------------------------------------------------------------------------
  // Sending
  // ---------------------------------------------------------------------------------

  /** sendNewRequest: file the package under its id (replacing any entry) and write it. */
  function SendNew(s: Session, p: Package): Session {
    s.(pending := s.pending[p.request.id := p], outbox := s.outbox + [p.request])
  }

  /** The shape of every dbg* operation: take `mSockId++` as the id, then sendNewRequest. */
  function Issue(s: Session, c: Command, k: Continuation): Session {
    SendNew(s.(sockId := s.sockId + 1), Package(Request(s.sockId, c), k))
  }

  function SetBreakPoint(s: Session, bp: BreakpointRequest): Session {
    Issue(s, ClassesBySignature(bp.classSignature), ClassFound(bp))
  }

  // ---------------------------------------------------------------------------------
  // Connection lifecycle
  // ---------------------------------------------------------------------------------

  const ThrowablePattern: string := "java.lang.Throwable"
  const EntryActivityPattern: string := "com.example.ring.myapplication.MainActivity"

  /** The class-prepare registration that suspends everything once a class matching `pattern` loads. */
  function SuspendOnPrepare(pattern: string): Command {
    EventRequestSet(ClassPrepare, SuspendAll, [ClassMatchMod(pattern), CountMod(1)])
  }

  /** onSocketConnected: reset the session, then the four standing registrations. */
  function Connect(s: Session): Session {
    var s0 := s.(sockId := 1, pending := map[]);
    var s1 := Issue(s0, EventRequestSet(ClassPrepare, SuspendNone, []), LogEventSet);
    var s2 := Issue(s1, EventRequestSet(ClassUnload, SuspendNone, []), LogEventSet);
    var s3 := Issue(s2, SuspendOnPrepare(ThrowablePattern), LogEventSet);
    Issue(s3, SuspendOnPrepare(EntryActivityPattern), LogEventSet)
  }

  /** onSocketDisconnected: reset the session; pending handlers are dropped uninvoked. */
  function Disconnect(s: Session): Session {
    s.(sockId := 1, pending := map[])
  }

  /** The breakpoint that the delayed start-up action sets. */
  const EntryBreakpoint: BreakpointRequest :=
    BreakpointRequest("Lcom/example/ring/myapplication/MainActivity;", "onCreate",
                      "(Landroid/os/Bundle;)V", 0)

  /** The delayed start-up action: ask for the version, then set the entry breakpoint. */
  function TimerFired(s: Session): Session {
    SetBreakPoint(Issue(s, Version, LogVersion), EntryBreakpoint)
  }

  // ---------------------------------------------------------------------------------
  // Replies
  // ---------------------------------------------------------------------------------

  predicate Matches(m: MethodInfo, bp: BreakpointRequest) {
    m.name == bp.methodName && m.signature == bp.methodSign
  }

  /** The index of the first method whose name and signature match. */
  function FirstMatch(ms: seq<MethodInfo>, bp: BreakpointRequest): (r: Option<nat>)
    ensures r.Some? ==> r.value < |ms| && Matches(ms[r.value], bp)
  {
    if |ms| == 0 then None
    else if Matches(ms[0], bp) then Some(0)
    else match FirstMatch(ms[1..], bp)
      case None => None
      case Some(i) => Some(i + 1)
  }

  /** The location-only modifier for a method of a class at the requested code index. */
  function BreakpointMod(bp: BreakpointRequest, ci: ClassInfo, m: MethodInfo): EventMod {
    LocationOnlyMod(Location(ClassType, ci.typeId, m.methodId, bp.codeIdx))
  }

  /** What a continuation does with the reply payload. */
  function Fire(codec: Codec, s: Session, k: Continuation, data: Bytes): Session {
    match k
    case LogVersion => s
    case LogAllClasses => s
    case LogEventSet => s
    case SignalResume => s.(resumed := s.resumed + 1)
    case ClassFound(bp) =>
      var infos := codec.classes(data);
      if |infos| == 0 || infos[0].typeId == 0 then s
      else Issue(s, MethodsWithGeneric(infos[0].typeId), MethodsFound(bp, infos[0]))
    case MethodsFound(bp, ci) =>
      var ms := codec.methods(data);
      if |ms| == 0 then s
      else match FirstMatch(ms, bp)
        case None => s
        case Some(i) =>
          var s1 := Issue(s, EventRequestSet(Breakpoint, SuspendAll, [BreakpointMod(bp, ci, ms[i])]), LogEventSet);
          Issue(s1, Resume, SignalResume)
  }

  /** handleReply: an unknown id is ignored; a pending one fires its handler and is erased. */
  function Reply(codec: Codec, s: Session, id: nat, data: Bytes): (r: Session)
    ensures id !in r.pending
    ensures id !in s.pending ==> r == s
  {
    if id !in s.pending then s
    else
      var t := Fire(codec, s, s.pending[id].onReply, data);
      t.(pending := t.pending - {id})
  }

  // ---------------------------------------------------------------------------------
  // Events
  // ---------------------------------------------------------------------------------

  /** The branch of handleCommand's switch that an event kind takes. */
  datatype Branch =
    | LocationEventBranch | ExceptionBranch | ThreadChangeBranch | ClassPrepareBranch
    | VmStartBranch | VmDeathBranch | DefaultBranch

  function BranchOf(kind: int): Branch {
    match EventKindOf(kind)
    case Some(SingleStep) => LocationEventBranch
    case Some(Breakpoint) => LocationEventBranch
    case Some(MethodEntry) => LocationEventBranch
    case Some(MethodExit) => LocationEventBranch
    case Some(Exception) => ExceptionBranch
    case Some(ThreadStart) => ThreadChangeBranch
    case Some(ThreadDeath) => ThreadChangeBranch
    case Some(ClassPrepare) => ClassPrepareBranch
    case Some(VmStart) => VmStartBranch
    case Some(VmDeath) => VmDeathBranch
    case _ => DefaultBranch
  }

  /** Exactly the ten kinds 1, 2, 4, 6, 7, 8, 40, 41, 90 and 99 have a branch of their own. */
  lemma DefaultBranchKinds(kind: int)
    ensures BranchOf(kind) == DefaultBranch <==> kind !in {1, 2, 4, 6, 7, 8, 40, 41, 90, 99}
  {
  }

  /** The protocol's event kinds that fall to the default branch. */
  lemma UnhandledEventKinds(k: EventKind)
    ensures BranchOf(EventKindCode(k)) == DefaultBranch <==>
      k in {FramePop, UserDefined, ClassUnload, ClassLoad, FieldAccess, FieldModification,
            ExceptionCatch, MethodExitWithReturnValue, MonitorContendedEnter,
            MonitorContendedEntered, MonitorWait, MonitorWaited, VmDisconnected}
  {
  }

  // ---------------------------------------------------------------------------------
  // The session invariant
  // ---------------------------------------------------------------------------------

  /**
   * Since the connection began at outbox index `start`: every pending id is below the
   * counter, is filed under its own request, and that request was sent; every id sent is
   * below the counter, and the ids sent are strictly increasing.
   */
  ghost predicate Inv(s: Session, start: nat) {
    start <= |s.outbox| &&
    PendingBelowCounter(s) &&
    (forall id :: id in s.pending ==> s.pending[id].request.id == id) &&
    (forall id :: id in s.pending ==> s.pending[id].request in s.outbox[start..]) &&
    (forall i :: start <= i < |s.outbox| ==> s.outbox[i].id < s.sockId) &&
    (forall i, j :: start <= i < j < |s.outbox| ==> s.outbox[i].id < s.outbox[j].id)
  }

  /** Every pending id was taken from the counter before its current value. */
  ghost predicate PendingBelowCounter(s: Session) {
    forall id :: id in s.pending ==> id < s.sockId
  }

  /** `t` is `s` after some requests were issued: old entries kept, new ones fresh ids. */
  ghost predicate Extends(s: Session, t: Session) {
    s.sockId <= t.sockId && s.outbox <= t.outbox &&
    (forall id :: id in s.pending ==> id in t.pending && t.pending[id] == s.pending[id]) &&
    (forall id :: id in t.pending && id !in s.pending ==> s.sockId <= id < t.sockId)
  }

  /** Issuing a request only adds an entry, under the counter's current value. */
  lemma IssueExtends(s: Session, c: Command, k: Continuation)
    requires PendingBelowCounter(s)
    ensures PendingBelowCounter(Issue(s, c, k)) && Extends(s, Issue(s, c, k))
    ensures Issue(s, c, k).outbox == s.outbox + [Request(s.sockId, c)]
    ensures Issue(s, c, k).sockId == s.sockId + 1
  {
  }

  /** Issuing a request keeps the session invariant. */
  lemma IssueKeepsInv(s: Session, start: nat, c: Command, k: Continuation)
    requires Inv(s, start)
    ensures Inv(Issue(s, c, k), start)
  {
    assert Issue(s, c, k).outbox[start..] == s.outbox[start..] + [Request(s.sockId, c)];
  }

  /** A reply handler only adds entries, each under a fresh id. */
  lemma {:induction false} FireExtends(codec: Codec, s: Session, k: Continuation, data: Bytes)
    requires PendingBelowCounter(s)
    ensures PendingBelowCounter(Fire(codec, s, k, data)) && Extends(s, Fire(codec, s, k, data))
  {
    match k
    case ClassFound(bp) =>
      var infos := codec.classes(data);
      if |infos| > 0 && infos[0].typeId != 0 {
        IssueExtends(s, MethodsWithGeneric(infos[0].typeId), MethodsFound(bp, infos[0]));
      }
    case MethodsFound(bp, ci) =>
      var ms := codec.methods(data);
      if |ms| > 0 && FirstMatch(ms, bp).Some? {
        var c := EventRequestSet(Breakpoint, SuspendAll, [BreakpointMod(bp, ci, ms[FirstMatch(ms, bp).value])]);
        IssueExtends(s, c, LogEventSet);
        IssueExtends(Issue(s, c, LogEventSet), Resume, SignalResume);
      }
    case _ =>
  }

  /** Every reply handler keeps the session invariant. */
  lemma {:induction false} FireKeepsInv(codec: Codec, s: Session, start: nat, k: Continuation, data: Bytes)
    requires Inv(s, start)
    ensures Inv(Fire(codec, s, k, data), start)
  {
    match k
    case ClassFound(bp) =>
      var infos := codec.classes(data);
      if |infos| > 0 && infos[0].typeId != 0 {
        IssueKeepsInv(s, start, MethodsWithGeneric(infos[0].typeId), MethodsFound(bp, infos[0]));
      }
    case MethodsFound(bp, ci) =>
      var ms := codec.methods(data);
      if |ms| > 0 && FirstMatch(ms, bp).Some? {
        var c := EventRequestSet(Breakpoint, SuspendAll, [BreakpointMod(bp, ci, ms[FirstMatch(ms, bp).value])]);
        IssueKeepsInv(s, start, c, LogEventSet);
        IssueKeepsInv(Issue(s, c, LogEventSet), start, Resume, SignalResume);
      }
    case _ =>
  }

  /**
   * A reply whose id is pending fires that entry's handler once and erases exactly that
   * id: every other entry stays as it was, and any new entry has a fresh id.
   */
  lemma ReplyKeepsOtherEntries(codec: Codec, s: Session, id: nat, data: Bytes)
    requires PendingBelowCounter(s)
    ensures PendingBelowCounter(Reply(codec, s, id, data))
    ensures forall other :: other in s.pending && other != id ==>
      other in Reply(codec, s, id, data).pending && Reply(codec, s, id, data).pending[other] == s.pending[other]
    ensures forall other :: other in Reply(codec, s, id, data).pending && other !in s.pending ==>
      s.sockId <= other
    ensures s.outbox <= Reply(codec, s, id, data).outbox
  {
    if id in s.pending {
      FireExtends(codec, s, s.pending[id].onReply, data);
    }
  }

  /** A reply keeps the session invariant. */
  lemma ReplyKeepsInv(codec: Codec, s: Session, start: nat, id: nat, data: Bytes)
    requires Inv(s, start)
    ensures Inv(Reply(codec, s, id, data), start)
  {
    if id in s.pending {
      FireKeepsInv(codec, s, start, s.pending[id].onReply, data);
    }
  }

  /** A pending id is handled at most once: a second reply with the same id changes nothing. */
  lemma ReplyAtMostOnce(codec: Codec, s: Session, id: nat, data: Bytes, again: Bytes)
    ensures Reply(codec, Reply(codec, s, id, data), id, again) == Reply(codec, s, id, data)
  {
  }

  /**
   * On connect the counter and the table are reset, and exactly four EventRequest.Set
   * requests go out with ids 1 to 4, each with a handler that only logs.
   */
  lemma ConnectRegistrations(s: Session)
    ensures Connect(s).sockId == 5
    ensures Connect(s).outbox == s.outbox + [
      Request(1, EventRequestSet(ClassPrepare, SuspendNone, [])),
      Request(2, EventRequestSet(ClassUnload, SuspendNone, [])),
      Request(3, SuspendOnPrepare(ThrowablePattern)),
      Request(4, SuspendOnPrepare(EntryActivityPattern))]
    ensures Connect(s).pending.Keys == {1, 2, 3, 4}
    ensures forall id :: id in Connect(s).pending ==> Connect(s).pending[id].onReply == LogEventSet
  {
  }

  /** The session invariant holds from the connect on, with the outbox index at the connect. */

  lemma ConnectKeepsInv(s: Session)
    ensures Inv(Connect(s), |s.outbox|)
  {
    var start := |s.outbox|;
    var s0 := s.(sockId := 1, pending := map[]);
    assert Inv(s0, start);
    var s1 := Issue(s0, EventRequestSet(ClassPrepare, SuspendNone, []), LogEventSet);
    IssueKeepsInv(s0, start, EventRequestSet(ClassPrepare, SuspendNone, []), LogEventSet);
    var s2 := Issue(s1, EventRequestSet(ClassUnload, SuspendNone, []), LogEventSet);
    IssueKeepsInv(s1, start, EventRequestSet(ClassUnload, SuspendNone, []), LogEventSet);
    var s3 := Issue(s2, SuspendOnPrepare(ThrowablePattern), LogEventSet);
    IssueKeepsInv(s2, start, SuspendOnPrepare(ThrowablePattern), LogEventSet);
    IssueKeepsInv(s3, start, SuspendOnPrepare(EntryActivityPattern), LogEventSet);
    assert Connect(s) == Issue(s3, SuspendOnPrepare(EntryActivityPattern), LogEventSet);
  }

  /** After a disconnect, no reply fires any handler, including stale ones. */
  lemma DisconnectDropsEverything(codec: Codec, s: Session, id: nat, data: Bytes)
    ensures Disconnect(s).sockId == 1 && Disconnect(s).pending == map[]
    ensures Inv(Disconnect(s), |s.outbox|)
    ensures Reply(codec, Disconnect(s), id, data) == Disconnect(s)
  {
  }

  // ---------------------------------------------------------------------------------
  // The breakpoint workflow
  // ---------------------------------------------------------------------------------

  /** FirstMatch finds the first method whose name and signature both match, if any. */
  lemma {:induction false} FirstMatchIsFirst(ms: seq<MethodInfo>, bp: BreakpointRequest)
    ensures FirstMatch(ms, bp).Some? ==>
      FirstMatch(ms, bp).value < |ms| && Matches(ms[FirstMatch(ms, bp).value], bp) &&
      forall j :: 0 <= j < FirstMatch(ms, bp).value ==> !Matches(ms[j], bp)
    ensures FirstMatch(ms, bp).None? <==> forall j :: 0 <= j < |ms| ==> !Matches(ms[j], bp)
  {
    if |ms| > 0 && !Matches(ms[0], bp) {
      FirstMatchIsFirst(ms[1..], bp);
      assert forall j :: 1 <= j < |ms| ==> ms[j] == ms[1..][j - 1];
    }
  }

  /** The class lookup stops on an empty result or an unresolved (zero) type id. */
  lemma ClassLookupStops(codec: Codec, s: Session, bp: BreakpointRequest, data: Bytes)
    requires |codec.classes(data)| == 0 || codec.classes(data)[0].typeId == 0
    ensures Fire(codec, s, ClassFound(bp), data) == s
  {
  }

  /** The method lookup sends nothing when no method matches (the empty list included). */
  lemma MethodLookupStops(codec: Codec, s: Session, bp: BreakpointRequest, ci: ClassInfo, data: Bytes)
    requires forall j :: 0 <= j < |codec.methods(data)| ==> !Matches(codec.methods(data)[j], bp)
    ensures Fire(codec, s, MethodsFound(bp, ci), data) == s
  {
    FirstMatchIsFirst(codec.methods(data), bp);
  }

  /** A resolved class lookup sends exactly the method lookup for its first entry. */
  lemma ClassResolvedStep(codec: Codec, s: Session, bp: BreakpointRequest, classReply: Bytes)
    requires PendingBelowCounter(s)
    requires |codec.classes(classReply)| > 0 && codec.classes(classReply)[0].typeId != 0
    ensures
      var id := s.sockId;
      var ci := codec.classes(classReply)[0];
      var lookup := Request(id + 1, MethodsWithGeneric(ci.typeId));
      Reply(codec, SetBreakPoint(s, bp), id, classReply) ==
        Session(id + 2, s.pending[id + 1 := Package(lookup, MethodsFound(bp, ci))],
                s.outbox + [Request(id, ClassesBySignature(bp.classSignature)), lookup], s.resumed)
  {
    var id := s.sockId;
    var ci := codec.classes(classReply)[0];
    var s1 := SetBreakPoint(s, bp);
    var f1 := Issue(s1, MethodsWithGeneric(ci.typeId), MethodsFound(bp, ci));
    assert Reply(codec, s1, id, classReply) == f1.(pending := f1.pending - {id});
    assert id !in s.pending;
    assert f1.pending - {id} == s.pending[id + 1 := Package(Request(id + 1, MethodsWithGeneric(ci.typeId)), MethodsFound(bp, ci))];
  }

  /** A method lookup whose first match is at index i sends the Set and then the Resume. */
  lemma MethodMatchedStep(codec: Codec, s: Session, id: nat, bp: BreakpointRequest,
                          ci: ClassInfo, methodsReply: Bytes, i: nat)
    requires PendingBelowCounter(s) && id in s.pending && s.pending[id].onReply == MethodsFound(bp, ci)
    requires var ms := codec.methods(methodsReply);
      i < |ms| && Matches(ms[i], bp) && forall j :: 0 <= j < i ==> !Matches(ms[j], bp)
    ensures
      var n := s.sockId;
      var setCmd := EventRequestSet(Breakpoint, SuspendAll, [BreakpointMod(bp, ci, codec.methods(methodsReply)[i])]);
      Reply(codec, s, id, methodsReply) ==
        Session(n + 2, (s.pending - {id})[n := Package(Request(n, setCmd), LogEventSet)]
                                         [n + 1 := Package(Request(n + 1, Resume), SignalResume)],
                s.outbox + [Request(n, setCmd), Request(n + 1, Resume)], s.resumed)
  {
    var ms := codec.methods(methodsReply);
    FirstMatchIsFirst(ms, bp);
    assert FirstMatch(ms, bp) == Some(i);
    var n := s.sockId;
    var setCmd := EventRequestSet(Breakpoint, SuspendAll, [BreakpointMod(bp, ci, ms[i])]);
    var g2 := Issue(Issue(s, setCmd, LogEventSet), Resume, SignalResume);
    assert Reply(codec, s, id, methodsReply) == g2.(pending := g2.pending - {id});
    assert id != n && id != n + 1;
    assert g2.pending - {id} == (s.pending - {id})[n := Package(Request(n, setCmd), LogEventSet)]
                                                   [n + 1 := Package(Request(n + 1, Resume), SignalResume)];
  }

  /**
   * The whole workflow when the class resolves and method i is the first whose name and
   * signature match: four requests with consecutive ids (the class lookup, the method
   * lookup, the breakpoint Set, then Resume without waiting for the Set reply); afterwards
   * only the Set and the Resume are pending besides what was pending before.
   */
  lemma BreakpointWorkflow(codec: Codec, s: Session, bp: BreakpointRequest,
                           classReply: Bytes, methodsReply: Bytes, i: nat)
    requires PendingBelowCounter(s)
    requires |codec.classes(classReply)| > 0 && codec.classes(classReply)[0].typeId != 0
    requires var ms := codec.methods(methodsReply);
      i < |ms| && Matches(ms[i], bp) && forall j :: 0 <= j < i ==> !Matches(ms[j], bp)
    ensures
      var id := s.sockId;
      var ci := codec.classes(classReply)[0];
      var m := codec.methods(methodsReply)[i];
      var setCmd := EventRequestSet(Breakpoint, SuspendAll,
                                    [LocationOnlyMod(Location(ClassType, ci.typeId, m.methodId, bp.codeIdx))]);
      var s3 := Reply(codec, Reply(codec, SetBreakPoint(s, bp), id, classReply), id + 1, methodsReply);
      s3.outbox == s.outbox + [Request(id, ClassesBySignature(bp.classSignature)),
                               Request(id + 1, MethodsWithGeneric(ci.typeId)),
                               Request(id + 2, setCmd),
                               Request(id + 3, Resume)] &&
      s3.sockId == id + 4 &&
      s3.pending == s.pending[id + 2 := Package(Request(id + 2, setCmd), LogEventSet)]
                             [id + 3 := Package(Request(id + 3, Resume), SignalResume)]
  {
    var id := s.sockId;
    var ci := codec.classes(classReply)[0];
    ClassResolvedStep(codec, s, bp, classReply);
    var s2 := Reply(codec, SetBreakPoint(s, bp), id, classReply);
    MethodMatchedStep(codec, s2, id + 1, bp, ci, methodsReply, i);
    assert s2.pending - {id + 1} == s.pending;
    var setCmd := EventRequestSet(Breakpoint, SuspendAll, [BreakpointMod(bp, ci, codec.methods(methodsReply)[i])]);
    assert s.outbox + [Request(id, ClassesBySignature(bp.classSignature)), Request(id + 1, MethodsWithGeneric(ci.typeId))]
           + [Request(id + 2, setCmd), Request(id + 3, Resume)]
        == s.outbox + [Request(id, ClassesBySignature(bp.classSignature)), Request(id + 1, MethodsWithGeneric(ci.typeId)),
                       Request(id + 2, setCmd), Request(id + 3, Resume)];
  }

  /** Whatever the two replies hold, the breakpoint workflow keeps the session invariant. */
  lemma BreakpointKeepsInv(codec: Codec, s: Session, start: nat, bp: BreakpointRequest,
                           classReply: Bytes, methodsReply: Bytes)
    requires Inv(s, start)
    ensures Inv(Reply(codec, Reply(codec, SetBreakPoint(s, bp), s.sockId, classReply), s.sockId + 1, methodsReply), start)
  {
    IssueKeepsInv(s, start, ClassesBySignature(bp.classSignature), ClassFound(bp));
    var s2 := Reply(codec, SetBreakPoint(s, bp), s.sockId, classReply);
    ReplyKeepsInv(codec, SetBreakPoint(s, bp), start, s.sockId, classReply);
    ReplyKeepsInv(codec, s2, start, s.sockId + 1, methodsReply);
  }

  /** With an empty or unresolved class lookup the workflow ends after its first request. */
  lemma BreakpointWithoutClass(codec: Codec, s: Session, bp: BreakpointRequest, classReply: Bytes)
    requires PendingBelowCounter(s)
    requires |codec.classes(classReply)| == 0 || codec.classes(classReply)[0].typeId == 0
    ensures
      var s2 := Reply(codec, SetBreakPoint(s, bp), s.sockId, classReply);
      s2.outbox == s.outbox + [Request(s.sockId, ClassesBySignature(bp.classSignature))] &&
      s2.pending == s.pending && s2.sockId == s.sockId + 1
  {
    assert s.sockId !in s.pending;
  }

  /** With no matching method the workflow ends after the method lookup: no Set, no Resume. */
  lemma BreakpointWithoutMethod(codec: Codec, s: Session, bp: BreakpointRequest,
                                classReply: Bytes, methodsReply: Bytes)
    requires PendingBelowCounter(s)
    requires |codec.classes(classReply)| > 0 && codec.classes(classReply)[0].typeId != 0
    requires forall j :: 0 <= j < |codec.methods(methodsReply)| ==> !Matches(codec.methods(methodsReply)[j], bp)
    ensures
      var id := s.sockId;
      var ci := codec.classes(classReply)[0];
      var s3 := Reply(codec, Reply(codec, SetBreakPoint(s, bp), id, classReply), id + 1, methodsReply);
      s3.outbox == s.outbox + [Request(id, ClassesBySignature(bp.classSignature)),
                               Request(id + 1, MethodsWithGeneric(ci.typeId))] &&
      s3.pending == s.pending && s3.sockId == id + 2
  {
    var id := s.sockId;
    var ci := codec.classes(classReply)[0];
    ClassResolvedStep(codec, s, bp, classReply);
    var s2 := Reply(codec, SetBreakPoint(s, bp), id, classReply);
    MethodLookupStops(codec, s2, bp, ci, methodsReply);
    assert s2.pending - {id + 1} == s.pending;
  }

  // ---------------------------------------------------------------------------------
  // The handler object
  // ---------------------------------------------------------------------------------

  class DebugHandler {
    const codec: Codec
    /** mSockId: the id the next request takes. */
    var sockId: nat
    /** mRequestMap: the pending requests, keyed by id. */
    var requestMap: map<nat, Package>
    /** Every request written to the socket, in order. */
    var outbox: seq<Request>
    /** How often the dbgOnResume notification was emitted. */
    var resumed: nat

    function State(): Session
      reads this
    {
      Session(sockId, requestMap, outbox, resumed)
    }

    constructor (codec: Codec)
      ensures this.codec == codec && State() == Session(1, map[], [], 0)
    {
      this.codec := codec;
      sockId, requestMap, outbox, resumed := 1, map[], [], 0;
    }

    /** onJDWPRequest: a reply goes to handleReply, anything else to handleCommand. */
    method OnJdwpRequest(p: Packet) returns (trace: seq<Branch>)
      modifies this
      ensures IsReply(p) ==> State() == Reply(codec, old(State()), p.id, p.data) && trace == []
      ensures !IsReply(p) ==> State() == old(State()) && trace == HandleCommandTrace(codec, p)
    {
      if IsReply(p) {
        HandleReply(p);
        trace := [];
      } else {
        trace := HandleCommand(p);
      }
    }

    method HandleReply(reply: Packet)
      modifies this
      ensures State() == Reply(codec, old(State()), reply.id, reply.data)
    {
      var id := reply.id;
      if id !in requestMap {
        return;
      }
      var package := requestMap[id];
      OnReply(package.onReply, reply.data);
      requestMap := requestMap - {id};
    }

    /** handleCommand: decode a Composite and take one branch per event, in order. */
    method HandleCommand(request: Packet) returns (trace: seq<Branch>)
      ensures |trace| == |codec.composite(request.data).events|
      ensures forall i :: 0 <= i < |trace| ==> trace[i] == BranchOf(codec.composite(request.data).events[i].kind)
    {
      var composite := codec.composite(request.data);
      trace := [];
      for i := 0 to |composite.events|
        invariant |trace| == i
        invariant forall j :: 0 <= j < i ==> trace[j] == BranchOf(composite.events[j].kind)
      {
        var eventKind := composite.events[i].kind;
        var branch := BranchOf(eventKind);
        trace := trace + [branch];
      }
    }

    method SendNewRequest(req: Package) returns (ok: bool)
      modifies this
      ensures ok && State() == SendNew(old(State()), req)
    {
      requestMap := requestMap[req.request.id := req];
      outbox := outbox + [req.request];
      ok := true;
    }

    method OnSocketConnected()
      modifies this
      ensures State() == Connect(old(State()))
    {
      sockId := 1;
      requestMap := map[];
      DbgEventRequestSet(ClassPrepare, SuspendNone, []);
      DbgEventRequestSet(ClassUnload, SuspendNone, []);
      DbgEventRequestSet(ClassPrepare, SuspendAll, [ClassMatchMod(ThrowablePattern), CountMod(1)]);
      DbgEventRequestSet(ClassPrepare, SuspendAll, [ClassMatchMod(EntryActivityPattern), CountMod(1)]);
    }

    /** The body of the ten-second single-shot timer that onSocketConnected starts. */
    method OnStartupTimer()
      modifies this
      ensures State() == TimerFired(old(State()))
    {
      DbgVersion();
      DbgSetBreakPoint(EntryBreakpoint.classSignature, EntryBreakpoint.methodName,
                       EntryBreakpoint.methodSign, EntryBreakpoint.codeIdx);
    }

    method OnSocketDisconnected()
      modifies this
      ensures State() == Disconnect(old(State()))
    {
      sockId := 1;
      requestMap := map[];
    }

    /** Takes the next id and sends `c` with continuation `k`. */
    method SendCommand(c: Command, k: Continuation)
      modifies this
      ensures State() == Issue(old(State()), c, k)
    {
      var id := sockId;
      sockId := sockId + 1;
      var _ := SendNewRequest(Package(Request(id, c), k));
    }

    method DbgVersion()
      modifies this
      ensures State() == Issue(old(State()), Version, LogVersion)
    {
      SendCommand(Version, LogVersion);
    }

    method DbgAllClassesWithGeneric()
      modifies this
      ensures State() == Issue(old(State()), AllClassesWithGeneric, LogAllClasses)
    {
      SendCommand(AllClassesWithGeneric, LogAllClasses);
    }

    method DbgResume()
      modifies this
      ensures State() == Issue(old(State()), Resume, SignalResume)
    {
      SendCommand(Resume, SignalResume);
    }

    method DbgSetBreakPoint(classSignature: string, methodName: string, methodSign: string, codeIdx: u64)
      modifies this
      ensures State() == SetBreakPoint(old(State()),
                                       BreakpointRequest(classSignature, methodName, methodSign, codeIdx))
    {
      var extra := BreakpointRequest(classSignature, methodName, methodSign, codeIdx);
      var _ := DbgGetClassBySignature(classSignature, extra);
    }

    method DbgEventRequestSet(eventKind: EventKind, policy: SuspendPolicy, mods: seq<EventMod>)
      modifies this
      ensures State() == Issue(old(State()), EventRequestSet(eventKind, policy, mods), LogEventSet)
    {
      SendCommand(EventRequestSet(eventKind, policy, mods), LogEventSet);
    }

    /** Looks up the methods of a resolved class, continuing the breakpoint `bp`. */
    method DbgGetRefTypeMethodsWithGeneric(refTypeId: RefTypeId, bp: BreakpointRequest, ci: ClassInfo)
      returns (ok: bool)
      modifies this
      ensures ok && State() == Issue(old(State()), MethodsWithGeneric(refTypeId), MethodsFound(bp, ci))
    {
      SendCommand(MethodsWithGeneric(refTypeId), MethodsFound(bp, ci));
      ok := true;
    }

    /** Looks up a class by signature, continuing the breakpoint `bp`. */
    method DbgGetClassBySignature(classSignature: string, bp: BreakpointRequest) returns (ok: bool)
      modifies this
      ensures ok && State() == Issue(old(State()), ClassesBySignature(classSignature), ClassFound(bp))
    {
      SendCommand(ClassesBySignature(classSignature), ClassFound(bp));
      ok := true;
    }

    /** The first method whose name and signature match, scanning in list order. */
    method FindMethod(methods: seq<MethodInfo>, bp: BreakpointRequest) returns (found: Option<nat>)
      ensures found == FirstMatch(methods, bp)
      ensures found.Some? ==> found.value < |methods| && Matches(methods[found.value], bp) &&
                              forall j :: 0 <= j < found.value ==> !Matches(methods[j], bp)
      ensures found.None? ==> forall j :: 0 <= j < |methods| ==> !Matches(methods[j], bp)
    {
      FirstMatchIsFirst(methods, bp);
      found := None;
      for i := 0 to |methods|
        invariant forall j :: 0 <= j < i ==> !Matches(methods[j], bp)
      {
        var method_ := methods[i];
        if method_.name != bp.methodName || method_.signature != bp.methodSign {
          continue;
        }
        found := Some(i);
        break;
      }
    }

    /** The reply handlers: what each continuation does once its reply arrives. */
    method OnReply(k: Continuation, data: Bytes)
      modifies this
      ensures State() == Fire(codec, old(State()), k, data)
    {
      match k
      case LogVersion =>
      case LogAllClasses =>
      case LogEventSet =>
      case SignalResume =>
        resumed := resumed + 1;
      case ClassFound(bp) =>
        var infos := codec.classes(data);
        if |infos| == 0 {
          return;
        }
        var info := infos[0];
        if info.typeId == 0 {
          return;
        }
        var _ := DbgGetRefTypeMethodsWithGeneric(info.typeId, bp, info);
      case MethodsFound(bp, ci) =>
        var methods := codec.methods(data);
        if |methods| == 0 {
          return;
        }
        var found := FindMethod(methods, bp);
        if found.Some? {
          DbgEventRequestSet(Breakpoint, SuspendAll, [BreakpointMod(bp, ci, methods[found.value])]);
          DbgResume();
        }
    }
  }

  /** The branches handleCommand takes for a packet, in event order. */
  function HandleCommandTrace(codec: Codec, p: Packet): seq<Branch> {
    seq(|codec.composite(p.data).events|, i requires 0 <= i < |codec.composite(p.data).events| =>
      BranchOf(codec.composite(p.data).events[i].kind))
  }
}
