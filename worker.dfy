/**
 * The Web Worker transport: the worker host's routing, dispatch and stream
 * lifecycle with its joints, and one call made through a worker bridge (its
 * filters, its start and cancel packets, and when the start is posted).
 */
module WorkerBridge {
  import opened Wire
  import opened HealthMonitor
  import opened Handshake
  import opened Host
  import opened Calls

  // ---------------------------------------------------------------------------
  // Host side

  /** Why the dispatch pipeline stopped: an error it throws, or a value without `pipe`. */
  datatype Stop = Thrown(message: string) | NotPipeable

  datatype WorkerAction =
    | Ignore                       // another service's packet
    | ReplyCapabilities(reply: Packet)
    | WatchCancel                  // `complete: true`: seen only by the running streams' cancel watchers
    | CheckOk(reply: Packet)       // an `isCheck` packet
    | Halt(message: string)        // dispatch throws and stops
    | SyncError(reply: Packet)     // the method threw: one error envelope goes back
    | StartStream(joint: Joint)
    | StartFails(joint: Joint)     // a joint is added, then piping the value throws and dispatch stops

  function UnknownName(p: Packet, service: string): string
  {
    "method:\"" + Key(p.methodName) + "\" or property:\"" + Key(p.property) + "\" does not exist in host service:\"" + service + "\""
  }

  function NotInitialized(p: Packet): string
  {
    "method " + Key(p.methodName) + " is not initialized"
  }

  const NonExistingApi: string := "non existing API"

  /** The reply to an `isCheck` packet: `{id, method, property, data: {kind: "N", value: "OK"}, complete: true, service}`. */
  function CheckReply(p: Packet, service: string): Packet
  {
    Packet(p.id, p.methodName, p.property, Envelope(N(Str("OK"))), true, service, false)
  }

  /** The packet the completion handler posts after the materialised ones: no data, `complete: true`. */
  function CompletionPacket(start: Packet, service: string): Packet
  {
    Packet(start.id, start.methodName, start.property, NoData, true, service, false)
  }

  /** The packet classifier of the worker host's message listener and dispatch pipeline. */
  function WorkerClassify(h: HostService, service: string, p: Packet): (a: WorkerAction)
    ensures p.service != service <==> a == Ignore
    ensures p.service == service && p.id == HandshakeId <==> a == ReplyCapabilities(CapabilityReply(h, service))
    ensures p.complete && p.id != HandshakeId && p.service == service <==> a == WatchCancel
    ensures a.CheckOk? <==> p.service == service && p.id != HandshakeId && !p.complete && p.isCheck
    ensures a == Halt(UnknownName(p, service)) <==>
              && p.service == service && p.id != HandshakeId && !p.complete && !p.isCheck
              && !Present(h, Key(p.methodName)) && !Present(h, Key(p.property))
    ensures a.SyncError? ==> && a.reply.id == p.id && a.reply.methodName == p.methodName && a.reply.property == p.property
                             && a.reply.complete && a.reply.service == service
                             && a.reply.data.Envelope? && a.reply.data.notification.E?
    ensures a.StartStream? || a.StartFails? ==> a.joint == JointOf(p, Worker, service)
    ensures a.StartStream? || a.StartFails? || a.SyncError? ==> Present(h, Key(p.methodName)) || Present(h, Key(p.property))
  {
    if p.service != service then Ignore
    else if p.id == HandshakeId then ReplyCapabilities(CapabilityReply(h, service))
    else if p.complete then WatchCancel
    else if p.isCheck then CheckOk(CheckReply(p, service))
    else if !Present(h, Key(p.methodName)) && !Present(h, Key(p.property)) then Halt(UnknownName(p, service))
    else if Truthy(p.methodName) then
      match Invoke(h, Key(p.methodName), p.data)
      case Raised(e) => SyncError(Packet(p.id, p.methodName, p.property, Envelope(E(e)), true, service, false))
      case Produced(ReturnsUndefined) => HaltMessagesDiffer(p, service); Halt(NotInitialized(p))
      case Produced(ReturnsStream) => StartStream(JointOf(p, Worker, service))
      case Produced(_) => StartFails(JointOf(p, Worker, service))
    else if Truthy(p.property) then
      if Key(p.property) !in h.members then HaltMessagesDiffer(p, service); Halt(NotInitialized(p))
      else if h.members[Key(p.property)].StreamMember? then StartStream(JointOf(p, Worker, service))
      else StartFails(JointOf(p, Worker, service))
    else HaltMessagesDiffer(p, service); Halt(NonExistingApi)
  }

  /** The three messages that stop dispatch are told apart: an unknown name's message is neither of the others. */
  lemma HaltMessagesDiffer(p: Packet, service: string)
    ensures NotInitialized(p) != UnknownName(p, service) && NonExistingApi != UnknownName(p, service)
  {
    assert NotInitialized(p)[6] != UnknownName(p, service)[6];
    assert NonExistingApi[0] != UnknownName(p, service)[0];
  }

  /**
   * The registered worker host of one service: its own readiness flag, why
   * its dispatch stopped if it did, the streams dispatched, the joint
   * registry, and the packets posted to the bridge.
   */
  datatype WorkerHostState = WorkerHostState(
    hostReady: Readiness,
    stopped: Option<Stop>,
    streams: seq<HostStream>,
    joints: seq<Joint>,
    posted: seq<Packet>)

  /** A host just constructed: its readiness flag is reset to false. */
  function NewWorkerHost(joints: seq<Joint>): WorkerHostState
  {
    WorkerHostState(Pending, None, [], joints, [])
  }

  datatype WorkerHostEvent =
    | Message(p: Packet)
    | SourceNext(k: nat, v: Value)
    | SourceError(k: nat, e: ErrorRecord)
    | SourceComplete(k: nat)

  /**
   * A stream ends with its last envelope: the envelope is posted, then the
   * completion handler removes the joint and posts the completion packet.
   * `cancelled` says whether the cancel watcher removed the joint first.
   */
  function EndWorkerStream(s: WorkerHostState, k: nat, n: Notification, service: string, cancelled: bool): (r: WorkerHostState)
    requires k < |s.streams|
    ensures |r.streams| == |s.streams|
  {
    var start := s.streams[k].start;
    var first := if cancelled then RemoveFirst(s.joints, start.id, Worker) else s.joints;
    s.(joints := RemoveFirst(first, start.id, Worker),
       streams := s.streams[k := s.streams[k].(status := Ended)],
       posted := s.posted + [ResultPacket(start, n, service), CompletionPacket(start, service)])
  }

  /** Every running stream with the cancel's id, from the k-th on, in subscription order. */
  function CancelFrom(s: WorkerHostState, id: int, service: string, k: nat, doubleRemoval: bool): (r: WorkerHostState)
    requires k <= |s.streams|
    ensures |r.streams| == |s.streams|
    decreases |s.streams| - k
  {
    if k == |s.streams| then s
    else if s.streams[k].status == Live && s.streams[k].start.id == id then
      CancelFrom(EndWorkerStream(s, k, C, service, doubleRemoval), id, service, k + 1, doubleRemoval)
    else CancelFrom(s, id, service, k + 1, doubleRemoval)
  }

  predicate LiveAt(s: WorkerHostState, k: nat)
  {
    k < |s.streams| && s.streams[k].status == Live
  }

  /** One event at the host; `doubleRemoval` says whether a cancel removes a joint in its watcher as well as in the completion handler. */
  function HostStep(s: WorkerHostState, h: HostService, service: string, e: WorkerHostEvent, doubleRemoval: bool): WorkerHostState
  {
    match e
    case Message(p) =>
      (match WorkerClassify(h, service, p)
        case Ignore => s
        case ReplyCapabilities(reply) => s.(hostReady := AfterNext(s.hostReady, true), posted := s.posted + [reply])
        case WatchCancel => CancelFrom(s, p.id, service, 0, doubleRemoval)
        case CheckOk(reply) => if s.stopped.None? then s.(posted := s.posted + [reply]) else s
        case Halt(m) => if s.stopped.None? then s.(stopped := Some(Thrown(m))) else s
        case SyncError(reply) => if s.stopped.None? then s.(posted := s.posted + [reply]) else s
        case StartStream(j) =>
          if s.stopped.None? then s.(joints := s.joints + [j], streams := s.streams + [HostStream(p, Live)]) else s
        case StartFails(j) =>
          if s.stopped.None? then s.(joints := s.joints + [j], streams := s.streams + [HostStream(p, Leaked)], stopped := Some(NotPipeable))
          else s)
    case SourceNext(k, v) =>
      if LiveAt(s, k) then s.(posted := s.posted + [ResultPacket(s.streams[k].start, N(v), service)]) else s
    case SourceError(k, err) =>
      if LiveAt(s, k) then EndWorkerStream(s, k, E(err), service, false) else s
    case SourceComplete(k) =>
      if LiveAt(s, k) then EndWorkerStream(s, k, C, service, false) else s
  }

  /** The host as written: a cancel removes a joint in its watcher and again in the completion handler. */
  function WorkerHostStepAsWritten(s: WorkerHostState, h: HostService, service: string, e: WorkerHostEvent): WorkerHostState
  {
    HostStep(s, h, service, e, true)
  }

  /** The host as intended: every stream's end removes one joint, in the completion handler. */
  function WorkerHostStep(s: WorkerHostState, h: HostService, service: string, e: WorkerHostEvent): WorkerHostState
  {
    HostStep(s, h, service, e, false)
  }

  lemma {:induction false} CancelFromAccounted(s: WorkerHostState, id: int, service: string, k: nat, initial: seq<Joint>)
    requires k <= |s.streams|
    requires Accounted(s.joints, initial, s.streams, Worker)
    ensures Accounted(CancelFrom(s, id, service, k, false).joints, initial, CancelFrom(s, id, service, k, false).streams, Worker)
    decreases |s.streams| - k
  {
    if k < |s.streams| {
      if s.streams[k].status == Live && s.streams[k].start.id == id {
        AccountedEnd(s.joints, initial, s.streams, Worker, k);
        CancelFromAccounted(EndWorkerStream(s, k, C, service, false), id, service, k + 1, initial);
      } else {
        CancelFromAccounted(s, id, service, k + 1, initial);
      }
    }
  }

  /**
   * With one removal per stream end, the registry stays in agreement with the
   * host's streams: a start adds one worker joint, a stream's completion,
   * error or cancel removes one, and a value that cannot be piped keeps its joint.
   */
  lemma WorkerHostAccounted(s: WorkerHostState, h: HostService, service: string, e: WorkerHostEvent, initial: seq<Joint>)
    requires Accounted(s.joints, initial, s.streams, Worker)
    ensures Accounted(WorkerHostStep(s, h, service, e).joints, initial, WorkerHostStep(s, h, service, e).streams, Worker)
  {
    match e
    case Message(p) => MessageAccounted(s, h, service, p, initial);
    case SourceNext(k, v) =>
    case SourceError(k, err) =>
      if LiveAt(s, k) {
        AccountedEnd(s.joints, initial, s.streams, Worker, k);
      }
    case SourceComplete(k) =>
      if LiveAt(s, k) {
        AccountedEnd(s.joints, initial, s.streams, Worker, k);
      }
  }

  lemma MessageAccounted(s: WorkerHostState, h: HostService, service: string, p: Packet, initial: seq<Joint>)
    requires Accounted(s.joints, initial, s.streams, Worker)
    ensures Accounted(WorkerHostStep(s, h, service, Message(p)).joints, initial, WorkerHostStep(s, h, service, Message(p)).streams, Worker)
  {
    var a := WorkerClassify(h, service, p);
    var r := WorkerHostStep(s, h, service, Message(p));
    if a.WatchCancel? {
      assert r == CancelFrom(s, p.id, service, 0, false);
      CancelFromAccounted(s, p.id, service, 0, initial);
    } else if (a.StartStream? || a.StartFails?) && s.stopped.None? {
      var status := if a.StartStream? then Live else Leaked;
      assert r.joints == s.joints + [JointOf(p, Worker, service)] && r.streams == s.streams + [HostStream(p, status)];
      AccountedStart(s.joints, initial, s.streams, Worker, p, service, status);
    } else {
      assert r.joints == s.joints && r.streams == s.streams;
    }
  }

  /**
   * Routing at the host: another service's packet changes nothing; a probe
   * sets the host's readiness flag and gets exactly one capability reply; a
   * `complete` packet never starts a stream; an `isCheck` packet gets one OK
   * reply and adds no joint; an unknown name stops dispatch before any joint
   * is added; a method that throws gets one error reply with `complete: true`
   * and no joint. All of this holds with one removal per cancel or two.
   */
  lemma WorkerRouting(s: WorkerHostState, h: HostService, service: string, p: Packet, doubleRemoval: bool)
    ensures var r := HostStep(s, h, service, Message(p), doubleRemoval);
      && (p.service != service ==> r == s)
      && (p.service == service && p.id == HandshakeId ==>
            r == s.(hostReady := AfterNext(s.hostReady, true), posted := s.posted + [CapabilityReply(h, service)]))
      && (p.complete ==> |r.streams| == |s.streams| && r.stopped == s.stopped)
      && (s.stopped.None? && p.service == service && p.id != HandshakeId && !p.complete && p.isCheck ==>
            r == s.(posted := s.posted + [CheckReply(p, service)]))
      && (s.stopped.None? && WorkerClassify(h, service, p) == Halt(UnknownName(p, service)) ==>
            r == s.(stopped := Some(Thrown(UnknownName(p, service)))))
      && (s.stopped.None? && WorkerClassify(h, service, p).SyncError? ==>
            r.joints == s.joints && r.streams == s.streams && |r.posted| == |s.posted| + 1 && r.posted[|s.posted|].complete)
      && (s.stopped.Some? && p.id != HandshakeId && !p.complete ==> r == s)
  {
    if p.complete && p.service == service && p.id != HandshakeId {
      CancelKeepsStop(s, p.id, service, 0, doubleRemoval);
    }
  }

  lemma {:induction false} CancelKeepsStop(s: WorkerHostState, id: int, service: string, k: nat, doubleRemoval: bool)
    requires k <= |s.streams|
    ensures CancelFrom(s, id, service, k, doubleRemoval).stopped == s.stopped
    decreases |s.streams| - k
  {
    if k < |s.streams| {
      if s.streams[k].status == Live && s.streams[k].start.id == id {
        CancelKeepsStop(EndWorkerStream(s, k, C, service, doubleRemoval), id, service, k + 1, doubleRemoval);
      } else {
        CancelKeepsStop(s, id, service, k + 1, doubleRemoval);
      }
    }
  }

  /** A start the classifier accepts, on a host still dispatching, adds its joint and a running stream. */
  lemma StepOnStart(s: WorkerHostState, h: HostService, service: string, p: Packet, doubleRemoval: bool)
    requires s.stopped.None? && WorkerClassify(h, service, p).StartStream?
    ensures HostStep(s, h, service, Message(p), doubleRemoval)
         == s.(joints := s.joints + [JointOf(p, Worker, service)], streams := s.streams + [HostStream(p, Live)])
  {
  }

  /** A `complete` packet of this service goes to the cancel watchers only. */
  lemma StepOnCancel(s: WorkerHostState, h: HostService, service: string, p: Packet, doubleRemoval: bool)
    requires p.service == service && p.id != HandshakeId && p.complete
    ensures HostStep(s, h, service, Message(p), doubleRemoval) == CancelFrom(s, p.id, service, 0, doubleRemoval)
  {
  }

  /** A cancel that finds exactly one stream, running with its id, ends that stream. */
  lemma CancelSingle(s: WorkerHostState, id: int, service: string, doubleRemoval: bool)
    requires |s.streams| == 1 && s.streams[0].status == Live && s.streams[0].start.id == id
    ensures CancelFrom(s, id, service, 0, doubleRemoval) == EndWorkerStream(s, 0, C, service, doubleRemoval)
  {
    var r := EndWorkerStream(s, 0, C, service, doubleRemoval);
    assert CancelFrom(r, id, service, 1, doubleRemoval) == r;
  }

  /** The two-stream scene of the cancel lemmas: a running start of "tick" with id 0 on service "clock". */
  lemma TickStarted(other: Joint, doubleRemoval: bool)
    ensures var h := HostService([], ["tick"], map["tick" := MethodMember(ReturnsStream)]);
      var start := Packet(0, Some("tick"), None, Args([]), false, "clock", false);
      var s1 := HostStep(NewWorkerHost([other]), h, "clock", Message(start), doubleRemoval);
      && s1.joints == [other, Joint(Worker, "clock", Some("tick"), 0)]
      && s1.streams == [HostStream(start, Live)]
      && HostStep(s1, h, "clock", Message(Packet(0, Some("tick"), None, NoData, true, "clock", false)), doubleRemoval)
         == EndWorkerStream(s1, 0, C, "clock", doubleRemoval)
  {
    var h := HostService([], ["tick"], map["tick" := MethodMember(ReturnsStream)]);
    var start := Packet(0, Some("tick"), None, Args([]), false, "clock", false);
    assert Key(Some("tick")) == "tick";
    assert Invoke(h, "tick", Args([])) == Produced(ReturnsStream);
    assert WorkerClassify(h, "clock", start) == StartStream(Joint(Worker, "clock", Some("tick"), 0));
    var s1 := HostStep(NewWorkerHost([other]), h, "clock", Message(start), doubleRemoval);
    CancelSingle(s1, 0, "clock", doubleRemoval);
  }

  /**
   * As written, cancelling one stream also removes another stream's joint
   * with the same id: here a worker joint of another service with id 0 is
   * in the registry, a stream with id 0 starts and is cancelled, and the
   * registry is left empty although the other stream still runs.
   */
  lemma CancelRemovesTwiceAsWritten()
    ensures var other := Joint(Worker, "other", Some("tick"), 0);
      var h := HostService([], ["tick"], map["tick" := MethodMember(ReturnsStream)]);
      var start := Packet(0, Some("tick"), None, Args([]), false, "clock", false);
      var cancel := Packet(0, Some("tick"), None, NoData, true, "clock", false);
      var s1 := WorkerHostStepAsWritten(NewWorkerHost([other]), h, "clock", Message(start));
      var s2 := WorkerHostStepAsWritten(s1, h, "clock", Message(cancel));
      && |s1.joints| == 2
      && s2.joints == []
      && HealthOf(s2.joints).workerJointAmount == 0
  {
    var other := Joint(Worker, "other", Some("tick"), 0);
    var j := Joint(Worker, "clock", Some("tick"), 0);
    TickStarted(other, true);
    assert FirstMatch([other, j], 0, Worker) == Some(0);
    assert RemoveFirst([other, j], 0, Worker) == [j];
    assert FirstMatch([j], 0, Worker) == Some(0);
    assert RemoveFirst([j], 0, Worker) == [];
    HealthTotals([]);
  }

  /** As intended, the same cancel removes one joint and the registry still counts the running stream. */
  lemma CancelRemovesOnce()
    ensures var other := Joint(Worker, "other", Some("tick"), 0);
      var h := HostService([], ["tick"], map["tick" := MethodMember(ReturnsStream)]);
      var start := Packet(0, Some("tick"), None, Args([]), false, "clock", false);
      var cancel := Packet(0, Some("tick"), None, NoData, true, "clock", false);
      var s1 := WorkerHostStep(NewWorkerHost([other]), h, "clock", Message(start));
      var s2 := WorkerHostStep(s1, h, "clock", Message(cancel));
      && |s2.joints| == 1
      && HealthOf(s2.joints).workerJointAmount == 1
  {
    var other := Joint(Worker, "other", Some("tick"), 0);
    var j := Joint(Worker, "clock", Some("tick"), 0);
    TickStarted(other, false);
    assert FirstMatch([other, j], 0, Worker) == Some(0);
    assert RemoveFirst([other, j], 0, Worker) == [j];
    HealthTotals([j]);
    assert [j][..0] == [];
  }

  /** A cancel that finds exactly two streams, the first ended and the second running with its id, ends the second. */
  lemma CancelSecond(s: WorkerHostState, id: int, service: string, doubleRemoval: bool)
    requires |s.streams| == 2 && s.streams[0].status == Ended && s.streams[1].status == Live && s.streams[1].start.id == id
    ensures CancelFrom(s, id, service, 0, doubleRemoval) == EndWorkerStream(s, 1, C, service, doubleRemoval)
  {
    var r := EndWorkerStream(s, 1, C, service, doubleRemoval);
    assert CancelFrom(r, id, service, 2, doubleRemoval) == r;
  }

  /** Of two running streams, a cancel with the first one's id ends only the first. */
  lemma CancelFirstOfTwo(s: WorkerHostState, id: int, service: string, doubleRemoval: bool)
    requires |s.streams| == 2 && s.streams[0].status == Live && s.streams[0].start.id == id && s.streams[1].start.id != id
    ensures CancelFrom(s, id, service, 0, doubleRemoval) == EndWorkerStream(s, 0, C, service, doubleRemoval)
  {
    var r := EndWorkerStream(s, 0, C, service, doubleRemoval);
    assert CancelFrom(r, id, service, 2, doubleRemoval) == r;
  }

  /**
   * Two calls of a stream method with the ids 0 and 1 on an otherwise idle
   * registry, then their cancels one after the other: the worker amount reads
   * 2, then 1, then 0, on the host as written (the second removal of each
   * cancel finds no joint with its id) as on the host as intended.
   */
  lemma UnsubscribeScenario(h: HostService, service: string, name: string, args: seq<Value>, doubleRemoval: bool)
    requires name != "" && name in h.members && h.members[name] == MethodMember(ReturnsStream)
    ensures var target := MethodTarget(name, args);
      var s1 := HostStep(NewWorkerHost([]), h, service, Message(WorkerStart(0, target, service)), doubleRemoval);
      var s2 := HostStep(s1, h, service, Message(WorkerStart(1, target, service)), doubleRemoval);
      var s3 := HostStep(s2, h, service, Message(CancelPacket(0, target, service)), doubleRemoval);
      var s4 := HostStep(s3, h, service, Message(CancelPacket(1, target, service)), doubleRemoval);
      && HealthOf(s2.joints).workerJointAmount == 2
      && HealthOf(s3.joints).workerJointAmount == 1
      && HealthOf(s4.joints).workerJointAmount == 0
  {
    var target := MethodTarget(name, args);
    var p0, p1 := WorkerStart(0, target, service), WorkerStart(1, target, service);
    var c0, c1 := CancelPacket(0, target, service), CancelPacket(1, target, service);
    var s0 := NewWorkerHost([]);
    var j0, j1 := JointOf(p0, Worker, service), JointOf(p1, Worker, service);
    StepOnStart(s0, h, service, p0, doubleRemoval);
    var s1 := HostStep(s0, h, service, Message(p0), doubleRemoval);
    StepOnStart(s1, h, service, p1, doubleRemoval);
    var s2 := HostStep(s1, h, service, Message(p1), doubleRemoval);
    assert s2.joints == [j0, j1];
    assert s2.streams == [HostStream(p0, Live), HostStream(p1, Live)];
    StepOnCancel(s2, h, service, c0, doubleRemoval);
    CancelFirstOfTwo(s2, 0, service, doubleRemoval);
    var s3 := HostStep(s2, h, service, Message(c0), doubleRemoval);
    assert FirstMatch([j0, j1], 0, Worker) == Some(0);
    assert [j0, j1][..0] + [j0, j1][1..] == [j1];
    assert FirstMatch([j1], 0, Worker) == None;
    assert s3.joints == [j1];
    assert s3.streams == [HostStream(p0, Ended), HostStream(p1, Live)];
    StepOnCancel(s3, h, service, c1, doubleRemoval);
    CancelSecond(s3, 1, service, doubleRemoval);
    var s4 := HostStep(s3, h, service, Message(c1), doubleRemoval);
    assert FirstMatch([j1], 1, Worker) == Some(0);
    assert FirstMatch([], 1, Worker) == None;
    assert s4.joints == [];
    HealthTotals([j0, j1]);
    HealthTotals([j1]);
    HealthTotals([]);
    assert [j0, j1][..1] == [j0];
    assert [j0][..0] == [];
    assert [j1][..0] == [];
  }

  // ---------------------------------------------------------------------------
  // Caller side

  /**
   * One subscription of a bridged method or property: its correlation id,
   * whether its start waits for readiness, its phase, the values it delivered
   * and the packets it posted.
   */
  datatype WorkerCall = WorkerCall(
    id: int,
    target: CallTarget,
    service: string,
    armed: bool,
    phase: Phase,
    delivered: seq<Value>,
    sent: seq<Packet>)

  datatype WorkerCallEvent =
    | ReadinessValue(r: Readiness)
    | Inbound(p: Packet)
    | Unsubscribe

  /** A method start `{id, data: args, method, service}`; a property start `{id, data: operators, property, service}`. */
  function WorkerStart(id: int, target: CallTarget, service: string): Packet
  {
    match target
    case MethodTarget(name, args) => Packet(id, Some(name), None, Args(args), false, service, false)
    case PropertyTarget(key, operators) => Packet(id, None, Some(key), Operators(operators), false, service, false)
  }

  /** The filter: id, method name and service, with no `complete` test; for a property: id, property key and service. */
  predicate Accepts(c: WorkerCall, p: Packet)
  {
    match c.target
    case MethodTarget(name, _) => p.id == c.id && p.methodName == Some(name) && p.service == c.service
    case PropertyTarget(key, _) => p.id == c.id && p.property == Some(key) && p.service == c.service
  }

  /** The call ends and its teardown posts the cancel; `stopsSender` says whether a pending start is dropped too. */
  function EndCall(c: WorkerCall, end: End, stopsSender: bool): WorkerCall
  {
    c.(phase := Done(end), armed := c.armed && !stopsSender, sent := c.sent + [CancelPacket(c.id, c.target, c.service)])
  }

  function CallStep(c: WorkerCall, e: WorkerCallEvent, stopsSender: bool): WorkerCall
  {
    match e
    case ReadinessValue(r) =>
      if !c.armed then c
      else (match r
        case Ready =>
          c.(armed := false, phase := if c.phase.Done? then c.phase else Sent,
             sent := c.sent + [WorkerStart(c.id, c.target, c.service)])
        case Failed(_) => c.(armed := false)
        case Pending => c)
    case Inbound(p) =>
      if c.phase.Done? || !Accepts(c, p) then c
      else (match Dematerialize(p.data)
        case Deliver(v) => c.(delivered := c.delivered + [v])
        case Finish(end) => EndCall(c, end, stopsSender))
    case Unsubscribe =>
      if c.phase.Done? then c else EndCall(c, Unsubscribed, stopsSender)
  }

  /** A call as written: its teardown leaves a pending start in place. */
  function WorkerCallStepAsWritten(c: WorkerCall, e: WorkerCallEvent): WorkerCall
  {
    CallStep(c, e, false)
  }

  /** A call as intended: its teardown also drops a start still waiting for readiness. */
  function WorkerCallStep(c: WorkerCall, e: WorkerCallEvent): WorkerCall
  {
    CallStep(c, e, true)
  }

  /**
   * A subscription with a fresh id: it listens at once, and posts its start at
   * once when the readiness is already true, waits for it while false, and
   * never posts it when the readiness has errored; such a call then waits
   * forever, since the readiness error reaches no handler of the call.
   */
  function WorkerSubscribe(id: int, target: CallTarget, service: string, readiness: Readiness): WorkerCall
  {
    var c := WorkerCall(id, target, service, true, Waiting, [], []);
    CallStep(c, ReadinessValue(readiness), true)
  }

  /**
   * What a call has posted, as written or as intended: one cancel exactly
   * when it has ended, and that cancel last, save that a start still pending
   * when the call ended may follow it, once.
   */
  predicate CallPosted(c: WorkerCall)
  {
    && CancelCount(c.sent) == (if c.phase.Done? then 1 else 0)
    && (c.phase.Done? ==>
          || c.sent[|c.sent| - 1].complete
          || (!c.armed && |c.sent| >= 2 && c.sent[|c.sent| - 2].complete
              && c.sent[|c.sent| - 1] == WorkerStart(c.id, c.target, c.service)))
  }

  /** As intended: the cancel is the last packet, and nothing is pending after it. */
  predicate CallValid(c: WorkerCall)
  {
    TornDown(c.phase, c.sent) && (c.phase.Done? ==> !c.armed)
  }

  /**
   * What one step `c` to `r` of a call keeps, as written or as intended: it
   * posts at most the start or the cancel; the cancel is posted exactly when
   * the call ends; a start is posted only when the readiness turns true while
   * the start waits for it; after the end, nothing changes but that a pending
   * start may still be posted; a value is delivered only from a packet the
   * filter accepts. As intended, the cancel stays the last packet and an
   * ended call ignores every event.
   */
  ghost predicate StepFacts(c: WorkerCall, e: WorkerCallEvent, r: WorkerCall, stopsSender: bool)
  {
    var start := WorkerStart(c.id, c.target, c.service);
    var cancel := CancelPacket(c.id, c.target, c.service);
    && CallPosted(r)
    && (r.sent == c.sent || r.sent == c.sent + [start] || r.sent == c.sent + [cancel])
    && (r.sent == c.sent + [cancel] <==> !c.phase.Done? && r.phase.Done?)
    && (r.sent == c.sent + [start] ==> c.armed && e == ReadinessValue(Ready))
    && (c.phase.Done? ==> r.phase == c.phase && r.delivered == c.delivered
                          && (r.sent == c.sent || (c.armed && r.sent == c.sent + [start])))
    && (r.delivered != c.delivered ==>
          && e.Inbound? && Accepts(c, e.p) && e.p.data.Envelope? && e.p.data.notification.N?
          && r.delivered == c.delivered + [e.p.data.notification.value])
    && (stopsSender && CallValid(c) ==> CallValid(r) && (c.phase.Done? ==> r == c))
  }

  /** Every step of a call, as written or as intended, keeps `StepFacts`. */
  lemma WorkerCallStepFacts(c: WorkerCall, e: WorkerCallEvent, stopsSender: bool)
    requires CallPosted(c)
    ensures var r := CallStep(c, e, stopsSender);
      var start := WorkerStart(c.id, c.target, c.service);
      var cancel := CancelPacket(c.id, c.target, c.service);
      && CallPosted(r)
      && (r.sent == c.sent || r.sent == c.sent + [start] || r.sent == c.sent + [cancel])
      && (r.sent == c.sent + [cancel] <==> !c.phase.Done? && r.phase.Done?)
      && (r.sent == c.sent + [start] ==> c.armed && e == ReadinessValue(Ready))
      && (c.phase.Done? ==> r.phase == c.phase && r.delivered == c.delivered
                            && (r.sent == c.sent || (c.armed && r.sent == c.sent + [start])))
      && (r.delivered != c.delivered ==>
            && e.Inbound? && Accepts(c, e.p) && e.p.data.Envelope? && e.p.data.notification.N?
            && r.delivered == c.delivered + [e.p.data.notification.value])
      && (stopsSender && CallValid(c) ==> CallValid(r) && (c.phase.Done? ==> r == c))
  {
    match e {
      case ReadinessValue(rv) => ReadinessFacts(c, rv, stopsSender);
      case Inbound(p) => InboundFacts(c, p, stopsSender);
      case Unsubscribe => UnsubscribeFacts(c, stopsSender);
    }
  }

  /** The readiness takes a value: only a waiting start can be posted, after the cancel if the call has ended. */
  lemma ReadinessFacts(c: WorkerCall, rv: Readiness, stopsSender: bool)
    requires CallPosted(c)
    ensures StepFacts(c, ReadinessValue(rv), CallStep(c, ReadinessValue(rv), stopsSender), stopsSender)
  {
    var start := WorkerStart(c.id, c.target, c.service);
    var cancel := CancelPacket(c.id, c.target, c.service);
    var r := CallStep(c, ReadinessValue(rv), stopsSender);
    if c.armed && rv == Ready {
      CancelCountAppend(c.sent, start);
      assert r.sent == c.sent + [start];
      assert r.sent[|c.sent|] == start;
      assert start != cancel;
      if c.phase.Done? {
        assert r.sent[|r.sent| - 2] == c.sent[|c.sent| - 1];
      }
    } else {
      assert r.sent == c.sent && r.phase == c.phase && r.delivered == c.delivered && (r.armed ==> c.armed);
    }
  }

  /** The call ends: its cancel is appended, and it was running before. */
  lemma EndFacts(c: WorkerCall, end: End, stopsSender: bool)
    requires CallPosted(c) && !c.phase.Done?
    ensures var r := EndCall(c, end, stopsSender);
      && CallPosted(r) && r.phase.Done? && r.delivered == c.delivered
      && r.sent == c.sent + [CancelPacket(c.id, c.target, c.service)]
      && r.sent != c.sent + [WorkerStart(c.id, c.target, c.service)]
      && (CallValid(c) && stopsSender ==> CallValid(r))
  {
    var cancel := CancelPacket(c.id, c.target, c.service);
    CancelCountAppend(c.sent, cancel);
    var r := EndCall(c, end, stopsSender);
    assert r.sent[|c.sent|] == cancel;
  }

  /** A packet arrives: it is delivered, ends the call, or changes nothing. */
  lemma InboundFacts(c: WorkerCall, p: Packet, stopsSender: bool)
    requires CallPosted(c)
    ensures StepFacts(c, Inbound(p), CallStep(c, Inbound(p), stopsSender), stopsSender)
  {
    if !c.phase.Done? && Accepts(c, p) {
      match Dematerialize(p.data) {
        case Deliver(v) =>
        case Finish(end) => EndFacts(c, end, stopsSender);
      }
    }
  }

  /** The consumer unsubscribes: a running call ends, an ended one changes nothing. */
  lemma UnsubscribeFacts(c: WorkerCall, stopsSender: bool)
    requires CallPosted(c)
    ensures StepFacts(c, Unsubscribe, CallStep(c, Unsubscribe, stopsSender), stopsSender)
  {
    if !c.phase.Done? {
      EndFacts(c, Unsubscribed, stopsSender);
    }
  }

  lemma SubscribeValid(id: int, target: CallTarget, service: string, readiness: Readiness)
    ensures var c := WorkerSubscribe(id, target, service, readiness);
      && CallValid(c)
      && c.sent == (if readiness == Ready then [WorkerStart(id, target, service)] else [])
      && c.armed == readiness.Pending?
      && c.phase == (if readiness == Ready then Sent else Waiting)
  {
    var start := WorkerStart(id, target, service);
    assert CancelCount([]) == 0;
    CancelCountAppend([], start);
    assert [] + [start] == [start];
  }

  /** A call after a sequence of events, with its teardown as written or as intended. */
  function WorkerRun(c: WorkerCall, events: seq<WorkerCallEvent>, stopsSender: bool): WorkerCall
  {
    if events == [] then c
    else CallStep(WorkerRun(c, events[..|events| - 1], stopsSender), events[|events| - 1], stopsSender)
  }

  /**
   * Over any run, as written or as intended, a call has posted one cancel
   * exactly when it has ended, followed by at most its pending start; as
   * intended, the cancel is last and nothing is pending after it.
   */
  lemma {:induction false} WorkerRunValid(c: WorkerCall, events: seq<WorkerCallEvent>, stopsSender: bool)
    requires CallPosted(c)
    ensures CallPosted(WorkerRun(c, events, stopsSender))
    ensures c.sent <= WorkerRun(c, events, stopsSender).sent
    ensures stopsSender && CallValid(c) ==> CallValid(WorkerRun(c, events, stopsSender))
  {
    if events != [] {
      WorkerRunValid(c, events[..|events| - 1], stopsSender);
      WorkerCallStepFacts(WorkerRun(c, events[..|events| - 1], stopsSender), events[|events| - 1], stopsSender);
    }
  }

  /**
   * As written, a call unsubscribed before the bridge is ready still posts its
   * start when readiness arrives, after its own cancel.
   */
  lemma StartAfterCancelAsWritten(id: int, target: CallTarget, service: string)
    ensures var c0 := WorkerSubscribe(id, target, service, Pending);
      var c1 := WorkerCallStepAsWritten(c0, Unsubscribe);
      var c2 := WorkerCallStepAsWritten(c1, ReadinessValue(Ready));
      c2.sent == [CancelPacket(id, target, service), WorkerStart(id, target, service)]
  {
  }

  /** As intended, the same call posts only its cancel. */
  lemma NoStartAfterCancel(id: int, target: CallTarget, service: string)
    ensures var c0 := WorkerSubscribe(id, target, service, Pending);
      var c1 := WorkerCallStep(c0, Unsubscribe);
      var c2 := WorkerCallStep(c1, ReadinessValue(Ready));
      c2.sent == [CancelPacket(id, target, service)]
  {
  }

  /**
   * The late start of a call that has already ended reaches the host after its
   * cancel: the cancel finds no stream, the start adds a joint and a running
   * stream, and the call that would cancel it is gone.
   */
  lemma LateStartLeaks(h: HostService, s: WorkerHostState, id: int, name: string, args: seq<Value>, service: string, initial: seq<Joint>)
    requires id != HandshakeId && name != "" && name in h.members && h.members[name] == MethodMember(ReturnsStream)
    requires s.stopped.None? && Accounted(s.joints, initial, s.streams, Worker)
    requires forall k :: 0 <= k < |s.streams| ==> s.streams[k].start.id != id
    ensures var target := MethodTarget(name, args);
      var s1 := WorkerHostStep(s, h, service, Message(CancelPacket(id, target, service)));
      var s2 := WorkerHostStep(s1, h, service, Message(WorkerStart(id, target, service)));
      && s2.joints == s.joints + [Joint(Worker, service, Some(name), id)]
      && s2.streams == s.streams + [HostStream(WorkerStart(id, target, service), Live)]
      && Held(s2.streams) == Held(s.streams) + 1
  {
    var target := MethodTarget(name, args);
    CancelFindsNothing(s, id, service, 0);
    var s2 := WorkerHostStep(s, h, service, Message(WorkerStart(id, target, service)));
    assert s2.streams[..|s.streams|] == s.streams;
  }

  lemma {:induction false} CancelFindsNothing(s: WorkerHostState, id: int, service: string, k: nat)
    requires k <= |s.streams|
    requires forall i :: k <= i < |s.streams| ==> !(s.streams[i].status == Live && s.streams[i].start.id == id)
    ensures CancelFrom(s, id, service, k, false) == s
    decreases |s.streams| - k
  {
    if k < |s.streams| {
      CancelFindsNothing(s, id, service, k + 1);
    }
  }

  // ---------------------------------------------------------------------------
  // Host and caller together

  /**
   * A method whose stream completes at once: the call delivers no value and
   * completes once, the host posts the `C` envelope and its completion packet,
   * and the call's cancel finds no stream, so the registry ends as it began.
   */
  lemma EmptyStream(h: HostService, s: WorkerHostState, id: int, name: string, args: seq<Value>, service: string, initial: seq<Joint>)
    requires id != HandshakeId && name != "" && name in h.members && h.members[name] == MethodMember(ReturnsStream)
    requires s.stopped.None? && Accounted(s.joints, initial, s.streams, Worker)
    requires forall k :: 0 <= k < |s.joints| ==> !Matches(s.joints[k], id, Worker)
    requires forall k :: 0 <= k < |s.streams| ==> s.streams[k].start.id != id
    ensures var target := MethodTarget(name, args);
      var call0 := WorkerSubscribe(id, target, service, Ready);
      var start := WorkerStart(id, target, service);
      var s1 := WorkerHostStep(s, h, service, Message(start));
      var s2 := WorkerHostStep(s1, h, service, SourceComplete(|s.streams|));
      var call1 := WorkerCallStep(call0, Inbound(ResultPacket(start, C, service)));
      var call2 := WorkerCallStep(call1, Inbound(CompletionPacket(start, service)));
      var s3 := WorkerHostStep(s2, h, service, Message(CancelPacket(id, target, service)));
      && call0.sent == [start]
      && s2.posted == s.posted + [ResultPacket(start, C, service), CompletionPacket(start, service)]
      && call2.delivered == []
      && call2.phase == Done(Completed)
      && call2.sent == [start, CancelPacket(id, target, service)]
      && s3.joints == s.joints
      && s3.posted == s2.posted
  {
    var target := MethodTarget(name, args);
    var start := WorkerStart(id, target, service);
    var j := Joint(Worker, service, Some(name), id);
    var s1 := WorkerHostStep(s, h, service, Message(start));
    assert s1 == s.(joints := s.joints + [j], streams := s.streams + [HostStream(start, Live)]);
    var s2 := WorkerHostStep(s1, h, service, SourceComplete(|s.streams|));
    RemoveAppended(s.joints, j);
    assert s2.joints == s.joints;
    assert s2.streams == s.streams + [HostStream(start, Ended)];
    forall i | 0 <= i < |s2.streams|
      ensures !(s2.streams[i].status == Live && s2.streams[i].start.id == id)
    {
      if i < |s.streams| {
        assert s2.streams[i] == s.streams[i];
      }
    }
    CancelFindsNothing(s2, id, service, 0);
  }
}
