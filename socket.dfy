/**
 * The WebSocket transport: the host's handling of one client connection
 * (routing, dispatch, the lifecycle of every stream it serves and the joints
 * it keeps for them), and one call made through a socket bridge (its
 * correlation id, its start and cancel packets, its gating on the connection
 * and on readiness, and the packets it accepts).
 */
module SocketBridge {
  import opened Wire
  import opened HealthMonitor
  import opened Handshake
  import opened Host
  import opened Calls

  // ---------------------------------------------------------------------------
  // Host side

  /** What the host does with one packet from a client. */
  datatype SocketAction =
    | Ignore                       // another service's packet
    | ReplyCapabilities(reply: Packet)
    | WatchCancel                  // `complete: true`: seen only by the running streams' cancel watchers
    | SyncError(reply: Packet)     // the method threw: one error envelope goes back
    | StartStream(joint: Joint)    // a joint is added and the stream is subscribed
    | StartFails(joint: Joint)     // a joint is added, then piping the value throws and dispatch stops

  /** The packet classifier of the connection's message handler and dispatch pipeline. */
  function SocketClassify(h: HostService, service: string, p: Packet): (a: SocketAction)
    ensures p.service != service <==> a == Ignore
    ensures p.service == service && p.id == HandshakeId <==> a == ReplyCapabilities(CapabilityReply(h, service))
    ensures p.complete && p.id != HandshakeId && p.service == service <==> a == WatchCancel
    ensures a.SyncError? ==> && a.reply.id == p.id && a.reply.methodName == p.methodName && a.reply.property == p.property
                             && !a.reply.complete && a.reply.service == service
                             && a.reply.data.Envelope? && a.reply.data.notification.E?
                             && Truthy(p.methodName)
    ensures a.StartStream? || a.StartFails? ==> a.joint == JointOf(p, Socket, service)
    ensures a.StartStream? <==> && p.service == service && p.id != HandshakeId && !p.complete
                                && (if Truthy(p.methodName) then Invoke(h, Key(p.methodName), p.data) == Produced(ReturnsStream)
                                    else Observable(h, Key(p.property)))
  {
    if p.service != service then Ignore
    else if p.id == HandshakeId then ReplyCapabilities(CapabilityReply(h, service))
    else if p.complete then WatchCancel
    else if Truthy(p.methodName) then
      match Invoke(h, Key(p.methodName), p.data)
      case Raised(e) => SyncError(ResultPacket(p, E(e), service))
      case Produced(ReturnsStream) => StartStream(JointOf(p, Socket, service))
      case Produced(_) => StartFails(JointOf(p, Socket, service))
    else if Observable(h, Key(p.property)) then StartStream(JointOf(p, Socket, service))
    else StartFails(JointOf(p, Socket, service))
  }

  /**
   * One client connection: its remote address, whether it is still open,
   * whether its dispatch pipeline still runs, the streams dispatched on it,
   * the joint registry, and the packets sent to the client.
   */
  datatype SocketConnection = SocketConnection(
    address: string,
    open: bool,
    dispatching: bool,
    streams: seq<HostStream>,
    joints: seq<Joint>,
    sent: seq<Packet>)

  function NewConnection(address: string, joints: seq<Joint>): SocketConnection
  {
    SocketConnection(address, true, true, [], joints, [])
  }

  datatype SocketHostEvent =
    | Message(p: Packet)                    // a client message arrives
    | SourceNext(k: nat, v: Value)          // the k-th dispatched stream's source emits
    | SourceError(k: nat, e: ErrorRecord)   // it errors
    | SourceComplete(k: nat)                // it completes
    | Close                                 // the connection errors or closes

  /** A send on a closed connection reaches nobody. */
  function Send(c: SocketConnection, p: Packet): SocketConnection
  {
    if c.open then c.(sent := c.sent + [p]) else c
  }

  /** A stream ends and its joint is removed; its materialised completion goes to the client. */
  function EndStream(c: SocketConnection, k: nat, service: string): (r: SocketConnection)
    requires k < |c.streams|
    ensures |r.streams| == |c.streams| && r.open == c.open
  {
    var s := c.streams[k];
    Send(c.(joints := RemoveFirst(c.joints, s.start.id, Socket), streams := c.streams[k := s.(status := Ended)]),
         ResultPacket(s.start, C, service))
  }

  /** A cancel watcher fires on a `complete` packet with the stream's id from the same address. */
  predicate Cancels(sig: Signal, start: Packet, address: string)
  {
    sig.msg.id == start.id && sig.msg.complete && sig.address == address
  }

  /** Every running stream the signal cancels, from the k-th on, in subscription order. */
  function CancelFrom(c: SocketConnection, sig: Signal, service: string, k: nat): (r: SocketConnection)
    requires k <= |c.streams|
    ensures |r.streams| == |c.streams| && r.open == c.open
    decreases |c.streams| - k
  {
    if k == |c.streams| then c
    else if c.streams[k].status == Live && Cancels(sig, c.streams[k].start, c.address) then CancelFrom(EndStream(c, k, service), sig, service, k + 1)
    else CancelFrom(c, sig, service, k + 1)
  }

  /** Every running stream, from the k-th on, ends on close. */
  function CloseFrom(c: SocketConnection, service: string, k: nat): (r: SocketConnection)
    requires k <= |c.streams|
    ensures |r.streams| == |c.streams| && r.open == c.open
    decreases |c.streams| - k
  {
    if k == |c.streams| then c
    else if c.streams[k].status == Live then CloseFrom(EndStream(c, k, service), service, k + 1)
    else CloseFrom(c, service, k + 1)
  }

  predicate LiveAt(c: SocketConnection, k: nat)
  {
    k < |c.streams| && c.streams[k].status == Live
  }

  /** One event on a connection of the host of `service`. */
  function SocketHostStep(c: SocketConnection, h: HostService, service: string, e: SocketHostEvent): SocketConnection
  {
    match e
    case Message(p) =>
      if !c.open then c
      else (match SocketClassify(h, service, p)
        case Ignore => c
        case ReplyCapabilities(reply) => Send(c, reply)
        case WatchCancel => CancelFrom(c, Signal(p, c.address), service, 0)
        case SyncError(reply) => if c.dispatching then Send(c, reply) else c
        case StartStream(j) =>
          if c.dispatching then c.(joints := c.joints + [j], streams := c.streams + [HostStream(p, Live)]) else c
        case StartFails(j) =>
          if c.dispatching then c.(joints := c.joints + [j], streams := c.streams + [HostStream(p, Leaked)], dispatching := false) else c)
    case SourceNext(k, v) =>
      if LiveAt(c, k) then Send(c, ResultPacket(c.streams[k].start, N(v), service)) else c
    case SourceError(k, err) =>
      if LiveAt(c, k) then Send(c.(streams := c.streams[k := c.streams[k].(status := Leaked)]), ResultPacket(c.streams[k].start, E(err), service))
      else c
    case SourceComplete(k) =>
      if LiveAt(c, k) then EndStream(c, k, service) else c
    case Close =>
      if c.open then CloseFrom(c.(open := false), service, 0) else c
  }

  lemma {:induction false} CancelFromAccounted(c: SocketConnection, sig: Signal, service: string, k: nat, initial: seq<Joint>)
    requires k <= |c.streams|
    requires Accounted(c.joints, initial, c.streams, Socket)
    ensures Accounted(CancelFrom(c, sig, service, k).joints, initial, CancelFrom(c, sig, service, k).streams, Socket)
    decreases |c.streams| - k
  {
    if k < |c.streams| {
      if c.streams[k].status == Live && Cancels(sig, c.streams[k].start, c.address) {
        AccountedEnd(c.joints, initial, c.streams, Socket, k);
        CancelFromAccounted(EndStream(c, k, service), sig, service, k + 1, initial);
      } else {
        CancelFromAccounted(c, sig, service, k + 1, initial);
      }
    }
  }

  lemma {:induction false} CloseFromAccounted(c: SocketConnection, service: string, k: nat, initial: seq<Joint>)
    requires k <= |c.streams|
    requires Accounted(c.joints, initial, c.streams, Socket)
    ensures Accounted(CloseFrom(c, service, k).joints, initial, CloseFrom(c, service, k).streams, Socket)
    decreases |c.streams| - k
  {
    if k < |c.streams| {
      if c.streams[k].status == Live {
        AccountedEnd(c.joints, initial, c.streams, Socket, k);
        CloseFromAccounted(EndStream(c, k, service), service, k + 1, initial);
      } else {
        CloseFromAccounted(c, service, k + 1, initial);
      }
    }
  }

  /**
   * The registry stays in agreement with the connection's streams: a
   * dispatched start adds one socket joint, a stream's completion, its cancel
   * or the connection's close removes one, and a stream whose source errors,
   * or whose value cannot be piped, keeps its joint for good.
   */
  lemma SocketHostAccounted(c: SocketConnection, h: HostService, service: string, e: SocketHostEvent, initial: seq<Joint>)
    requires Accounted(c.joints, initial, c.streams, Socket)
    ensures Accounted(SocketHostStep(c, h, service, e).joints, initial, SocketHostStep(c, h, service, e).streams, Socket)
  {
    match e
    case Message(p) =>
      if c.open {
        match SocketClassify(h, service, p)
        case Ignore =>
        case ReplyCapabilities(_) =>
        case WatchCancel => CancelFromAccounted(c, Signal(p, c.address), service, 0, initial);
        case SyncError(_) =>
        case StartStream(j) => AccountedStart(c.joints, initial, c.streams, Socket, p, service, Live);
        case StartFails(j) => AccountedStart(c.joints, initial, c.streams, Socket, p, service, Leaked);
      }
    case SourceNext(k, v) =>
    case SourceError(k, err) =>
      if LiveAt(c, k) {
        AccountedLeak(c.joints, initial, c.streams, Socket, k);
      }
    case SourceComplete(k) =>
      if LiveAt(c, k) {
        AccountedEnd(c.joints, initial, c.streams, Socket, k);
      }
    case Close =>
      if c.open {
        CloseFromAccounted(c.(open := false), service, 0, initial);
      }
  }

  lemma {:induction false} CloseFromEndsAll(c: SocketConnection, service: string, k: nat)
    requires k <= |c.streams|
    ensures forall i :: 0 <= i < |c.streams| ==>
      CloseFrom(c, service, k).streams[i] == (if i >= k && c.streams[i].status == Live then c.streams[i].(status := Ended) else c.streams[i])
    decreases |c.streams| - k
  {
    if k < |c.streams| {
      if c.streams[k].status == Live {
        CloseFromEndsAll(EndStream(c, k, service), service, k + 1);
      } else {
        CloseFromEndsAll(c, service, k + 1);
      }
    }
  }

  /**
   * A close ends every running stream and nothing more reaches the client;
   * afterwards the registry holds, beyond its earlier joints, exactly the
   * joints of the streams whose source errored or could not be piped.
   */
  lemma SocketCloseEndsStreams(c: SocketConnection, h: HostService, service: string, initial: seq<Joint>)
    requires c.open && Accounted(c.joints, initial, c.streams, Socket)
    ensures var r := SocketHostStep(c, h, service, Close);
      && !r.open && r.sent == c.sent
      && (forall i :: 0 <= i < |r.streams| ==> r.streams[i].status != Live)
      && |r.streams| == |c.streams|
      && (forall i :: 0 <= i < |r.streams| ==> (r.streams[i].status == Leaked <==> c.streams[i].status == Leaked))
      && Accounted(r.joints, initial, r.streams, Socket)
  {
    SocketHostAccounted(c, h, service, Close, initial);
    CloseFromEndsAll(c.(open := false), service, 0);
    CloseFromKeepsSent(c.(open := false), service, 0);
  }

  lemma {:induction false} CloseFromKeepsSent(c: SocketConnection, service: string, k: nat)
    requires k <= |c.streams| && !c.open
    ensures CloseFrom(c, service, k).sent == c.sent
    decreases |c.streams| - k
  {
    if k < |c.streams| {
      if c.streams[k].status == Live {
        CloseFromKeepsSent(EndStream(c, k, service), service, k + 1);
      } else {
        CloseFromKeepsSent(c, service, k + 1);
      }
    }
  }

  /**
   * Routing on an open connection: another service's packet changes nothing;
   * a probe gets exactly one capability reply and is not dispatched; a
   * `complete` packet never starts a stream; a method that throws gets one
   * error reply and no joint.
   */
  lemma SocketRouting(c: SocketConnection, h: HostService, service: string, p: Packet)
    requires c.open
    ensures var r := SocketHostStep(c, h, service, Message(p));
      && (p.service != service ==> r == c)
      && (p.service == service && p.id == HandshakeId ==>
            r == c.(sent := c.sent + [CapabilityReply(h, service)]))
      && (p.complete ==> |r.streams| == |c.streams| && |r.joints| <= |c.joints|)
      && (SocketClassify(h, service, p).SyncError? && c.dispatching ==>
            r.joints == c.joints && r.streams == c.streams && |r.sent| == |c.sent| + 1)
      && (SocketClassify(h, service, p).StartStream? && c.dispatching ==>
            r.joints == c.joints + [JointOf(p, Socket, service)] && r.sent == c.sent && r.dispatching)
  {
    if p.complete && p.service == service && p.id != HandshakeId {
      CancelFromShrinks(c, Signal(p, c.address), service, 0);
    }
  }

  lemma {:induction false} CancelFromShrinks(c: SocketConnection, sig: Signal, service: string, k: nat)
    requires k <= |c.streams|
    ensures |CancelFrom(c, sig, service, k).joints| <= |c.joints|
    decreases |c.streams| - k
  {
    if k < |c.streams| {
      if c.streams[k].status == Live && Cancels(sig, c.streams[k].start, c.address) {
        RemoveFirstIdCount(c.joints, c.streams[k].start.id, Socket, 0, Socket);
        CancelFromShrinks(EndStream(c, k, service), sig, service, k + 1);
      } else {
        CancelFromShrinks(c, sig, service, k + 1);
      }
    }
  }

  /**
   * The signals a connection's cancel watchers see carry that connection's
   * address, so a `complete` packet ends exactly the running streams of the
   * connection with its id, from the k-th on, and leaves every other stream as it was.
   */
  lemma {:induction false} CancelEndsMatching(c: SocketConnection, p: Packet, service: string, k: nat)
    requires k <= |c.streams| && p.complete
    ensures forall i :: 0 <= i < |c.streams| ==>
      CancelFrom(c, Signal(p, c.address), service, k).streams[i]
        == (if i >= k && c.streams[i].status == Live && c.streams[i].start.id == p.id then c.streams[i].(status := Ended) else c.streams[i])
    decreases |c.streams| - k
  {
    if k < |c.streams| {
      if c.streams[k].status == Live && Cancels(Signal(p, c.address), c.streams[k].start, c.address) {
        CancelEndsMatching(EndStream(c, k, service), p, service, k + 1);
      } else {
        CancelEndsMatching(c, p, service, k + 1);
      }
    }
  }

  // ---------------------------------------------------------------------------
  // Caller side

  /**
   * One subscription of a bridged method or property: its correlation id, the
   * last readiness value, whether its receiving side has passed the readiness
   * gate, the last connection value its sender let through, whether a rising
   * connection edge waits for readiness, whether its sender still runs, its
   * phase, the values it delivered and the packets it sent.
   */
  datatype SocketCall = SocketCall(
    id: int,
    target: CallTarget,
    service: string,
    readiness: Readiness,
    receiving: bool,
    lastConnected: Option<bool>,
    armed: bool,
    senderAlive: bool,
    phase: Phase,
    delivered: seq<Value>,
    sent: seq<Packet>)

  datatype SocketCallEvent =
    | ConnectedValue(up: bool)        // the handler's connected signal emits
    | ReadinessValue(r: Readiness)    // the readiness flag takes a value
    | Inbound(p: Packet)              // the bridge passes on a packet
    | Disconnected                    // the handler's disconnected signal emits
    | Unsubscribe                     // the consumer unsubscribes

  /** A method start `{id, data: args, method, service}`; a property start `{id, property, service}`. */
  function SocketStart(id: int, target: CallTarget, service: string): Packet
  {
    match target
    case MethodTarget(name, args) => Packet(id, Some(name), None, Args(args), false, service, false)
    case PropertyTarget(key, _) => Packet(id, None, Some(key), NoData, false, service, false)
  }

  /** A method call's completion notifier: a `complete` packet with its id and method name. */
  predicate CompleteSignal(c: SocketCall, p: Packet)
  {
    c.target.MethodTarget? && p.id == c.id && p.methodName == Some(c.target.name) && p.complete
  }

  /** The value filter: id, method name, not `complete`, service; for a property: id, property key, service. */
  predicate Accepts(c: SocketCall, p: Packet)
  {
    match c.target
    case MethodTarget(name, _) => p.id == c.id && p.methodName == Some(name) && !p.complete && p.service == c.service
    case PropertyTarget(key, _) => p.id == c.id && p.property == Some(key) && p.service == c.service
  }

  /** The call ends: its teardown stops the sender and sends the cancel. */
  function EndCall(c: SocketCall, end: End): SocketCall
  {
    c.(phase := Done(end), armed := false, sent := c.sent + [CancelPacket(c.id, c.target, c.service)])
  }

  function SendStart(c: SocketCall): SocketCall
  {
    c.(phase := Sent, armed := false, sent := c.sent + [SocketStart(c.id, c.target, c.service)])
  }

  /**
   * One event of a call. `disconnectEnds` says whether the disconnected
   * signal reaches a method call's completion notifier.
   */
  function CallStep(c: SocketCall, e: SocketCallEvent, disconnectEnds: bool): SocketCall
  {
    if c.phase.Done? then c
    else match e
      case ConnectedValue(up) =>
        if !c.senderAlive || c.lastConnected == Some(up) then c
        else
          var c1 := c.(lastConnected := Some(up));
          if !up then c1
          else (match c.readiness
            case Ready => SendStart(c1)
            case Pending => c1.(armed := true)
            case Failed(_) => c1.(armed := false, senderAlive := false))
      case ReadinessValue(r) =>
        var c1 := c.(readiness := r);
        var c2 :=
          if c1.receiving then c1
          else (match r
            case Ready => c1.(receiving := true)
            case Failed(m) => EndCall(c1, Errored(Local(m)))
            case Pending => c1);
        if c2.phase.Done? || !c2.armed || !c2.senderAlive then c2
        else (match r
          case Ready => SendStart(c2)
          case Failed(_) => c2.(armed := false, senderAlive := false)
          case Pending => c2)
      case Inbound(p) =>
        if CompleteSignal(c, p) then EndCall(c, Completed)
        else if c.receiving && Accepts(c, p) then
          (match Dematerialize(p.data)
            case Deliver(v) => c.(delivered := c.delivered + [v])
            case Finish(end) => EndCall(c, end))
        else c
      case Disconnected =>
        if disconnectEnds && c.target.MethodTarget? then EndCall(c, Completed) else c
      case Unsubscribe =>
        EndCall(c, Unsubscribed)
  }

  /** A call as the code is written: the disconnected signal never reaches the notifier. */
  function SocketCallStepAsWritten(c: SocketCall, e: SocketCallEvent): SocketCall
  {
    CallStep(c, e, false)
  }

  /** A call as intended: a transport disconnect completes a method call. */
  function SocketCallStep(c: SocketCall, e: SocketCallEvent): SocketCall
  {
    CallStep(c, e, true)
  }

  /** A subscription with a fresh id; the readiness flag replays its current value at once. */
  function SocketSubscribe(id: int, target: CallTarget, service: string, readiness: Readiness): SocketCall
  {
    SocketCallStep(SocketCall(id, target, service, Pending, false, None, false, true, Waiting, [], []), ReadinessValue(readiness))
  }

  /** A call after a sequence of events, with the disconnect handled as written or as intended. */
  function SocketRun(c: SocketCall, events: seq<SocketCallEvent>, disconnectEnds: bool): SocketCall
  {
    if events == [] then c
    else CallStep(SocketRun(c, events[..|events| - 1], disconnectEnds), events[|events| - 1], disconnectEnds)
  }

  /**
   * One step of a call: an ended call ignores everything, and a call sends at
   * most one packet per step, its start or its cancel; the teardown's cancel
   * is sent once, last, exactly when the call ends.
   */
  lemma CallStepTornDown(c: SocketCall, e: SocketCallEvent, disconnectEnds: bool)
    ensures var r := CallStep(c, e, disconnectEnds);
      && (c.phase.Done? ==> r == c)
      && (r.sent == c.sent || r.sent == c.sent + [SocketStart(c.id, c.target, c.service)]
          || r.sent == c.sent + [CancelPacket(c.id, c.target, c.service)])
      && (r.sent == c.sent + [CancelPacket(c.id, c.target, c.service)] <==> !c.phase.Done? && r.phase.Done?)
      && (TornDown(c.phase, c.sent) ==> TornDown(r.phase, r.sent))
  {
    var r := CallStep(c, e, disconnectEnds);
    var cancel := CancelPacket(c.id, c.target, c.service);
    var start := SocketStart(c.id, c.target, c.service);
    CallStepShape(c, e, disconnectEnds);
    CancelCountAppend(c.sent, cancel);
    CancelCountAppend(c.sent, start);
    assert (c.sent + [cancel])[|c.sent|] == cancel;
    assert (c.sent + [start])[|c.sent|] == start;
  }

  /** What one step does to the phase and the packets sent, event by event. */
  lemma CallStepShape(c: SocketCall, e: SocketCallEvent, disconnectEnds: bool)
    ensures var r := CallStep(c, e, disconnectEnds);
      && (c.phase.Done? ==> r == c)
      && ((r.sent == c.sent && r.phase.Done? == c.phase.Done?)
          || (r.sent == c.sent + [SocketStart(c.id, c.target, c.service)] && !c.phase.Done? && !r.phase.Done?)
          || (r.sent == c.sent + [CancelPacket(c.id, c.target, c.service)] && !c.phase.Done? && r.phase.Done?))
  {
    if !c.phase.Done? {
      match e {
        case ConnectedValue(up) =>
        case ReadinessValue(rv) => ReadinessShape(c, rv, disconnectEnds);
        case Inbound(p) =>
        case Disconnected =>
        case Unsubscribe =>
      }
    }
  }

  lemma ReadinessShape(c: SocketCall, rv: Readiness, disconnectEnds: bool)
    requires !c.phase.Done?
    ensures var r := CallStep(c, ReadinessValue(rv), disconnectEnds);
      || (r.sent == c.sent && !r.phase.Done?)
      || (r.sent == c.sent + [SocketStart(c.id, c.target, c.service)] && !r.phase.Done?)
      || (r.sent == c.sent + [CancelPacket(c.id, c.target, c.service)] && r.phase.Done?)
  {
    var c1 := c.(readiness := rv);
    if !c1.receiving && rv.Failed? {
      var c2 := EndCall(c1, Errored(Local(rv.message)));
      assert CallStep(c, ReadinessValue(rv), disconnectEnds) == c2;
    }
  }

  /**
   * A start is sent only while the call runs and the readiness is true: on a
   * rising connection edge, or when the readiness turns true while such an
   * edge waits for it.
   */
  lemma CallStepGated(c: SocketCall, e: SocketCallEvent, disconnectEnds: bool)
    requires CallStep(c, e, disconnectEnds).sent == c.sent + [SocketStart(c.id, c.target, c.service)]
    ensures var r := CallStep(c, e, disconnectEnds);
      && !c.phase.Done? && r.readiness == Ready && r.phase == Sent
      && (e == SocketCallEvent.ConnectedValue(true) || (c.armed && e == ReadinessValue(Ready)))
  {
    var r := CallStep(c, e, disconnectEnds);
    assert r.sent[|c.sent|] == SocketStart(c.id, c.target, c.service);
    assert r.sent != c.sent;
  }

  /** A value is delivered only from a packet the call's filter accepts, carrying that value in an `N` envelope. */
  lemma CallStepDelivers(c: SocketCall, e: SocketCallEvent, disconnectEnds: bool)
    requires CallStep(c, e, disconnectEnds).delivered != c.delivered
    ensures && e.Inbound? && c.receiving && Accepts(c, e.p) && e.p.data.Envelope? && e.p.data.notification.N?
            && CallStep(c, e, disconnectEnds).delivered == c.delivered + [e.p.data.notification.value]
  {
  }

  /**
   * Over any run, as written or as intended, a subscription has sent one
   * cancel, as its last packet, exactly when it has ended, and what it sent
   * before stays a prefix of what it sends.
   */
  lemma {:induction false} SocketRunTornDown(c: SocketCall, events: seq<SocketCallEvent>, disconnectEnds: bool)
    requires TornDown(c.phase, c.sent)
    ensures TornDown(SocketRun(c, events, disconnectEnds).phase, SocketRun(c, events, disconnectEnds).sent)
    ensures c.sent <= SocketRun(c, events, disconnectEnds).sent
  {
    if events != [] {
      SocketRunTornDown(c, events[..|events| - 1], disconnectEnds);
      CallStepTornDown(SocketRun(c, events[..|events| - 1], disconnectEnds), events[|events| - 1], disconnectEnds);
    }
  }

  lemma SubscribeTornDown(id: int, target: CallTarget, service: string, readiness: Readiness)
    ensures TornDown(SocketSubscribe(id, target, service, readiness).phase, SocketSubscribe(id, target, service, readiness).sent)
    ensures readiness.Failed? <==> SocketSubscribe(id, target, service, readiness).phase.Done?
  {
    var c := SocketSubscribe(id, target, service, readiness);
    if readiness.Failed? {
      var cancel := CancelPacket(id, target, service);
      assert c.sent == [] + [cancel];
      CancelCountAppend([], cancel);
    } else {
      assert c.sent == [];
    }
  }

  /** Every packet the host sends back for a start is accepted by the call that sent it, unless it is `complete`. */
  lemma ResultsAccepted(c: SocketCall, n: Notification)
    ensures Accepts(c, ResultPacket(SocketStart(c.id, c.target, c.service), n, c.service))
  {
  }

  /**
   * As written, a running method call that has let a connection through
   * ignores the disconnect and the reconnection after it: it neither ends nor
   * sends anything, although the host has ended its stream when the socket closed.
   */
  lemma DisconnectIgnoredAsWritten(c: SocketCall)
    requires c.target.MethodTarget? && !c.phase.Done? && c.lastConnected == Some(true)
    ensures SocketCallStepAsWritten(SocketCallStepAsWritten(c, Disconnected), SocketCallEvent.ConnectedValue(true)) == c
  {
  }

  /** As intended, a disconnect completes a running method call and its teardown sends the cancel. */
  lemma DisconnectEndsCall(c: SocketCall)
    requires c.target.MethodTarget? && !c.phase.Done?
    ensures SocketCallStep(c, Disconnected).phase == Done(Completed)
    ensures SocketCallStep(c, Disconnected).sent == c.sent + [CancelPacket(c.id, c.target, c.service)]
    ensures SocketCallStep(c, Disconnected).delivered == c.delivered
  {
  }

  // ---------------------------------------------------------------------------
  // Host and caller together

  /**
   * A method that throws when the call's start reaches the host: the host's
   * one reply (`complete: false`) ends the waiting call with that very error.
   * Had the reply been `complete: true`, the call's completion notifier would
   * have taken it and the call would end as completed, the error lost.
   */
  lemma SyncErrorReachesCaller(h: HostService, c: SocketCall, err: ErrorRecord)
    requires c.target.MethodTarget? && c.id != HandshakeId && c.receiving && !c.phase.Done?
    requires c.target.name != "" && c.target.name in h.members && h.members[c.target.name] == MethodMember(Throws(err))
    ensures var start := SocketStart(c.id, c.target, c.service);
      && SocketClassify(h, c.service, start) == SyncError(ResultPacket(start, E(err), c.service))
      && SocketCallStep(c, Inbound(ResultPacket(start, E(err), c.service))).phase == Done(Errored(Remote(err)))
      && SocketCallStep(c, Inbound(ResultPacket(start, E(err), c.service).(complete := true))).phase == Done(Completed)
  {
  }

  /**
   * A stream served for a start: one value and then completion reach the
   * client as an `N` and a `C` envelope, and the joint added at the start is
   * removed at the completion.
   */
  lemma SocketStreamLifecycle(h: HostService, c: SocketConnection, service: string, start: Packet, v: Value, initial: seq<Joint>)
    requires c.open && c.dispatching && Accounted(c.joints, initial, c.streams, Socket)
    requires SocketClassify(h, service, start).StartStream?
    ensures var k := |c.streams|;
      var c1 := SocketHostStep(c, h, service, Message(start));
      var c2 := SocketHostStep(c1, h, service, SourceNext(k, v));
      var c3 := SocketHostStep(c2, h, service, SourceComplete(k));
      && c1.joints == c.joints + [JointOf(start, Socket, service)]
      && c3.sent == c.sent + [ResultPacket(start, N(v), service), ResultPacket(start, C, service)]
      && c3.joints == RemoveFirst(c.joints + [JointOf(start, Socket, service)], start.id, Socket)
      && c3.streams == c.streams + [HostStream(start, Ended)]
      && Accounted(c3.joints, initial, c3.streams, Socket)
  {
    var k := |c.streams|;
    var c1 := SocketHostStep(c, h, service, Message(start));
    assert c1 == c.(joints := c.joints + [JointOf(start, Socket, service)], streams := c.streams + [HostStream(start, Live)]);
    var c2 := SocketHostStep(c1, h, service, SourceNext(k, v));
    assert c2 == c1.(sent := c.sent + [ResultPacket(start, N(v), service)]);
    SocketHostAccounted(c, h, service, Message(start), initial);
    SocketHostAccounted(c1, h, service, SourceNext(k, v), initial);
    SocketHostAccounted(c2, h, service, SourceComplete(k), initial);
  }

  /** The call that sent the start delivers the value and completes on the two envelopes. */
  lemma CallConsumesResults(call: SocketCall, v: Value)
    requires call.target.MethodTarget? && call.receiving && !call.phase.Done?
    ensures var start := SocketStart(call.id, call.target, call.service);
      var call1 := SocketCallStep(call, Inbound(ResultPacket(start, N(v), call.service)));
      var call2 := SocketCallStep(call1, Inbound(ResultPacket(start, C, call.service)));
      && call2.delivered == call.delivered + [v]
      && call2.phase == Done(Completed)
      && call2.sent == call.sent + [CancelPacket(call.id, call.target, call.service)]
  {
  }
}
