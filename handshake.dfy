/**
 * The caller side of the capability handshake, shared by the socket bridge and
 * the worker bridge: the readiness subject, the check of a capability reply
 * against the names the bridge declared, and the probe loop that sends
 * `id: -1` probes until the reply arrives or the wait times out.
 */
module Handshake {
  import opened Wire

  /** The state of a `BehaviorSubject<boolean>` used as a readiness flag: false, true, or errored. */
  datatype Readiness = Pending | Ready | Failed(message: string)

  /** `next(b)` on the subject: ignored once the subject has errored. */
  function AfterNext(r: Readiness, b: bool): Readiness
  {
    if r.Failed? then r else if b then Ready else Pending
  }

  /** `error(e)` on the subject: the first error sticks, later calls are ignored. */
  function AfterError(r: Readiness, message: string): Readiness
  {
    if r.Failed? then r else Failed(message)
  }

  class ReadinessSubject {
    var value: Readiness

    constructor ()
      ensures value == Pending
    {
      value := Pending;
    }

    method Next(b: bool)
      modifies this
      ensures value == AfterNext(old(value), b)
    {
      if !value.Failed? {
        value := if b then Ready else Pending;
      }
    }

    method Error(message: string)
      modifies this
      ensures value == AfterError(old(value), message)
    {
      if !value.Failed? {
        value := Failed(message);
      }
    }
  }

  /** The error message for a declared name that a capability reply lacks. */
  function NotSupported(kind: string, name: string, service: string): string
  {
    kind + " " + name + " is not supported by service: " + service
  }

  /** The index of the first declared name that the advertised list lacks. */
  function FirstMissing(names: seq<string>, advertised: seq<string>): (r: Option<nat>)
    ensures r.Some? ==> r.value < |names| && names[r.value] !in advertised
    ensures r.Some? ==> forall k :: 0 <= k < r.value ==> names[k] in advertised
    ensures r.None? ==> forall k :: 0 <= k < |names| ==> names[k] in advertised
  {
    if names == [] then None
    else if names[0] !in advertised then Some(0)
    else match FirstMissing(names[1..], advertised)
      case None => None
      case Some(i) => Some(i + 1)
  }

  /** What one pass over the declared names leaves the readiness at: the first missing name fails it. */
  function MissingOutcome(r: Readiness, kind: string, names: seq<string>, advertised: seq<string>, service: string): Readiness
  {
    match FirstMissing(names, advertised)
    case None => r
    case Some(i) => AfterError(r, NotSupported(kind, names[i], service))
  }

  /**
   * The readiness after one handshake reply, from its capability lists: the
   * first declared method the reply lacks fails it, else the first declared
   * property the reply lacks, else it becomes true. A reply without
   * capability lists makes the check throw at the first declared name, so it
   * changes nothing unless the bridge declares no name at all.
   */
  function OnReply(r: Readiness, bridgedMethods: seq<string>, bridgedProperties: seq<string>, data: Data, service: string): Readiness
  {
    match data
    case Capabilities(properties, methods) =>
      var afterMethods := MissingOutcome(r, "Method", bridgedMethods, methods, service);
      AfterNext(MissingOutcome(afterMethods, "Property", bridgedProperties, properties, service), true)
    case _ =>
      if bridgedMethods == [] && bridgedProperties == [] then AfterNext(r, true) else r
  }

  /** One `.map` over the declared names: `error` on the subject for every name the reply lacks. */
  method ReportMissing(subject: ReadinessSubject, kind: string, names: seq<string>, advertised: seq<string>, service: string)
    modifies subject
    ensures subject.value == MissingOutcome(old(subject.value), kind, names, advertised, service)
  {
    ghost var start := subject.value;
    for i := 0 to |names|
      invariant subject.value == MissingOutcome(start, kind, names[..i], advertised, service)
    {
      if names[i] !in advertised {
        subject.Error(NotSupported(kind, names[i], service));
      }
      assert names[..i + 1][..i] == names[..i];
    }
    assert names[..|names|] == names;
  }

  /** The bridge's handling of an `id: -1` reply (both transports run the same check). */
  method CheckReply(subject: ReadinessSubject, bridgedMethods: seq<string>, bridgedProperties: seq<string>, data: Data, service: string)
    modifies subject
    ensures subject.value == OnReply(old(subject.value), bridgedMethods, bridgedProperties, data, service)
  {
    match data {
      case Capabilities(properties, methods) =>
        ReportMissing(subject, "Method", bridgedMethods, methods, service);
        ReportMissing(subject, "Property", bridgedProperties, properties, service);
        subject.Next(true);
      case _ =>
        if bridgedMethods == [] && bridgedProperties == [] {
          subject.Next(true);
        }
    }
  }

  predicate AllAdvertised(names: seq<string>, advertised: seq<string>)
  {
    forall k :: 0 <= k < |names| ==> names[k] in advertised
  }

  /**
   * A reply makes a not-yet-failed bridge ready exactly when it advertises
   * every declared method and property; otherwise the error names the first
   * missing method, or, when no method is missing, the first missing property.
   */
  lemma ReplyVerdict(r: Readiness, bridgedMethods: seq<string>, bridgedProperties: seq<string>,
                     properties: seq<string>, methods: seq<string>, service: string)
    requires !r.Failed?
    ensures var v := OnReply(r, bridgedMethods, bridgedProperties, Capabilities(properties, methods), service);
      && (v == Ready <==> AllAdvertised(bridgedMethods, methods) && AllAdvertised(bridgedProperties, properties))
      && (!AllAdvertised(bridgedMethods, methods) ==>
            exists i :: 0 <= i < |bridgedMethods| && AllAdvertised(bridgedMethods[..i], methods)
                        && v == Failed(NotSupported("Method", bridgedMethods[i], service)))
      && (AllAdvertised(bridgedMethods, methods) && !AllAdvertised(bridgedProperties, properties) ==>
            exists i :: 0 <= i < |bridgedProperties| && AllAdvertised(bridgedProperties[..i], properties)
                        && v == Failed(NotSupported("Property", bridgedProperties[i], service)))
  {
    match FirstMissing(bridgedMethods, methods)
    case Some(i) =>
      assert AllAdvertised(bridgedMethods[..i], methods);
    case None =>
      match FirstMissing(bridgedProperties, properties)
      case Some(i) =>
        assert AllAdvertised(bridgedProperties[..i], properties);
      case None =>
  }

  /** An errored readiness is final: no later reply changes it. */
  lemma FailureIsFinal(message: string, bridgedMethods: seq<string>, bridgedProperties: seq<string>, data: Data, service: string)
    ensures OnReply(Failed(message), bridgedMethods, bridgedProperties, data, service) == Failed(message)
  {
  }

  /** What a bridge does with one packet from its transport: the new readiness, and the packet it passes on to its calls. */
  datatype Routed = Routed(readiness: Readiness, forwarded: Option<Packet>)

  /**
   * A bridge's inbound handling: packets of other services are dropped, a
   * handshake reply runs the reply check and goes no further, every other
   * packet goes on to the calls.
   */
  function Route(r: Readiness, bridgedMethods: seq<string>, bridgedProperties: seq<string>, p: Packet, service: string): Routed
  {
    if p.service != service then Routed(r, None)
    else if p.id == HandshakeId then Routed(OnReply(r, bridgedMethods, bridgedProperties, p.data, service), None)
    else Routed(r, Some(p))
  }

  /** The calls see only their own service's packets and never a handshake reply, and only a handshake reply moves the readiness. */
  lemma RouteFacts(r: Readiness, bridgedMethods: seq<string>, bridgedProperties: seq<string>, p: Packet, service: string)
    ensures var out := Route(r, bridgedMethods, bridgedProperties, p, service);
      && (out.forwarded.Some? <==> p.service == service && p.id != HandshakeId)
      && (out.forwarded.Some? ==> out.forwarded.value == p && out.readiness == r)
      && (p.service != service ==> out.readiness == r)
  {
  }

  // ---------------------------------------------------------------------------
  // The probe loop

  /** The probe both bridges send: `{id: -1, complete: true, service}`. */
  function ProbePacket(service: string): Packet
  {
    Packet(HandshakeId, None, None, NoData, true, service, false)
  }

  const ProbeIntervalMs: nat := 100
  const SocketHandshakeTimeoutMs: nat := 5000
  const WorkerHandshakeTimeoutMs: nat := 50

  /** The message of the error the timeout operator raises. */
  const TimeoutErrorMessage: string := "Timeout has occurred"

  function NotConnected(service: string): string
  {
    "service " + service + " is not connected"
  }

  /** The error that ends the wait for readiness: the timeout, or the readiness subject's own error. */
  datatype ProbeFailure = TimedOut | Rejected(message: string)

  function FailureMessage(f: ProbeFailure): string
  {
    match f
    case TimedOut => TimeoutErrorMessage
    case Rejected(m) => m
  }

  predicate OccursAt(s: string, part: string, i: int)
  {
    0 <= i <= |s| - |part| && s[i..i + |part|] == part
  }

  predicate Contains(s: string, part: string)
  {
    exists i :: 0 <= i <= |s| - |part| && OccursAt(s, part, i)
  }

  /** The probe loop's `catchError` as written: any error whose message mentions "Timeout" becomes "not connected". */
  function ProbeErrorAsWritten(f: ProbeFailure, service: string): string
  {
    var m := FailureMessage(f);
    if Contains(m, "Timeout") then NotConnected(service) else m
  }

  /** A capability error whose method name contains "Timeout" is reported as a connection failure. */
  lemma ProbeErrorAsWrittenMisreports()
    ensures ProbeErrorAsWritten(Rejected(NotSupported("Method", "getTimeout", "clock")), "clock") == NotConnected("clock")
    ensures NotConnected("clock") != NotSupported("Method", "getTimeout", "clock")
  {
    var m := NotSupported("Method", "getTimeout", "clock");
    assert OccursAt(m, "Timeout", 10);
    assert NotConnected("clock")[0] != m[0];
  }

  /** The probe loop's error with the timeout told apart by its kind rather than by its message. */
  function ProbeError(f: ProbeFailure, service: string): string
  {
    match f
    case TimedOut => NotConnected(service)
    case Rejected(m) => m
  }

  /** The timeout becomes "service <s> is not connected"; a readiness error keeps its own message. */
  lemma ProbeErrorKeepsMessages(f: ProbeFailure, service: string)
    ensures f.TimedOut? ==> ProbeError(f, service) == NotConnected(service) == ProbeErrorAsWritten(f, service)
    ensures f.Rejected? ==> ProbeError(f, service) == f.message
  {
    if f.TimedOut? {
      assert OccursAt(TimeoutErrorMessage, "Timeout", 0);
    }
  }

  /**
   * The probe loop of one bridge. `lastConnected` is the last connection value
   * that passed `distinctUntilChanged`; `probing` says an inner probe timer is
   * running; `failure` is the error that ended the loop for good; `readiness`
   * is the value of the readiness subject the loop waits on.
   */
  datatype Prober = Prober(lastConnected: Option<bool>, probing: bool, failure: Option<string>, readiness: Readiness)
  {
    ghost predicate Valid()
    {
      probing ==> readiness == Pending && failure.None?
    }
  }

  datatype ProbeEvent =
    | Connected(up: bool)       // the transport's connected signal emits
    | Tick                           // the probe interval fires
    | ReadinessChanged(r: Readiness) // the readiness subject takes a new value
    | TimeoutElapsed                 // the wait for readiness times out

  datatype ProbeStepResult = ProbeStepResult(prober: Prober, sent: seq<Packet>)

  /**
   * The message of the error that ends the loop: `byMessage` says whether it is
   * told apart by its message, as the code is written, or by its kind.
   */
  function LoopError(f: ProbeFailure, service: string, byMessage: bool): string
  {
    if byMessage then ProbeErrorAsWritten(f, service) else ProbeError(f, service)
  }

  /** A fresh inner probe timer: it ends at once on a readiness that is already decided, else it probes immediately. */
  function Arm(p: Prober, service: string, byMessage: bool): (res: ProbeStepResult)
    ensures res.sent == [] || res.sent == [ProbePacket(service)]
    ensures res.sent != [] <==> p.readiness == Pending
    ensures res.prober.probing <==> p.readiness == Pending
    ensures res.prober.readiness == p.readiness && res.prober.lastConnected == p.lastConnected
    ensures p.readiness.Failed? ==> res.prober.failure == Some(LoopError(Rejected(p.readiness.message), service, byMessage))
    ensures !p.readiness.Failed? ==> res.prober.failure == p.failure
  {
    match p.readiness
    case Ready => ProbeStepResult(p.(probing := false), [])
    case Failed(m) => ProbeStepResult(p.(probing := false, failure := Some(LoopError(Rejected(m), service, byMessage))), [])
    case Pending => ProbeStepResult(p.(probing := true), [ProbePacket(service)])
  }

  /**
   * The worker bridge starts its probe timer at construction: it probes at
   * once exactly when the readiness is still false, and a readiness that has
   * already failed ends the loop for good.
   */
  function WorkerProberStart(readiness: Readiness, service: string, byMessage: bool): (res: ProbeStepResult)
    ensures res.prober.Valid()
    ensures res.sent == (if readiness == Pending then [ProbePacket(service)] else [])
    ensures res.prober.failure.Some? <==> readiness.Failed?
  {
    Arm(Prober(None, false, None, readiness), service, byMessage)
  }

  /** One event of the probe loop. Only the socket bridge's loop reacts to the connection signal. */
  function ProbeLoopStep(p: Prober, e: ProbeEvent, service: string, byMessage: bool): (res: ProbeStepResult)
  {
    if p.failure.Some? then
      ProbeStepResult(match e case ReadinessChanged(r) => p.(readiness := r) case _ => p, [])
    else
      match e
      case Connected(up) =>
        if p.lastConnected == Some(up) then ProbeStepResult(p, [])
        else if up then Arm(p.(lastConnected := Some(up)), service, byMessage)
        else ProbeStepResult(p.(lastConnected := Some(up)), [])
      case Tick =>
        if p.probing then ProbeStepResult(p, [ProbePacket(service)]) else ProbeStepResult(p, [])
      case ReadinessChanged(r) =>
        var q := p.(readiness := r);
        if !p.probing then ProbeStepResult(q, [])
        else (match r
              case Pending => ProbeStepResult(q, [])
              case Ready => ProbeStepResult(q.(probing := false), [])
              case Failed(m) => ProbeStepResult(q.(probing := false, failure := Some(LoopError(Rejected(m), service, byMessage))), []))
      case TimeoutElapsed =>
        if p.probing then ProbeStepResult(p.(probing := false, failure := Some(LoopError(TimedOut, service, byMessage))), [])
        else ProbeStepResult(p, [])
  }

  /** The loop as the code is written: its `catchError` tests the message for "Timeout". */
  function ProbeStepAsWritten(p: Prober, e: ProbeEvent, service: string): ProbeStepResult
  {
    ProbeLoopStep(p, e, service, true)
  }

  /** The loop as intended: only the timeout itself becomes "not connected". */
  function ProbeStep(p: Prober, e: ProbeEvent, service: string): ProbeStepResult
  {
    ProbeLoopStep(p, e, service, false)
  }

  /**
   * Whichever way the error is told apart, the probe loop probes only while
   * the readiness is still false, every packet it sends is the probe, a
   * decided readiness stops it, the timeout ends it with "not connected", and
   * the error that ends it is final. As intended, a readiness error ends it
   * with that error's own message.
   */
  lemma ProbeStepInvariant(p: Prober, e: ProbeEvent, service: string, byMessage: bool)
    requires p.Valid()
    ensures var res := ProbeLoopStep(p, e, service, byMessage);
      && res.prober.Valid()
      && (forall k :: 0 <= k < |res.sent| ==> res.sent[k] == ProbePacket(service))
      && (res.sent != [] ==> res.prober.probing && res.prober.readiness == Pending)
      && (p.failure.Some? ==> res.prober.failure == p.failure && res.sent == [])
      && (e == TimeoutElapsed && p.probing ==> res.prober.failure == Some(NotConnected(service)))
      && (e.ReadinessChanged? && e.r.Failed? && p.probing ==>
            res.prober.failure == Some(LoopError(Rejected(e.r.message), service, byMessage)))
      && (!byMessage && e.ReadinessChanged? && e.r.Failed? && p.probing ==> res.prober.failure == Some(e.r.message))
      && (e == ReadinessChanged(Ready) ==> !res.prober.probing)
  {
    if e == TimeoutElapsed && p.probing {
      ProbeErrorKeepsMessages(TimedOut, service);
    }
  }

  /**
   * As written, the loop waiting for readiness reports the capability error
   * of a method named `getTimeout` as a connection failure; as intended it
   * ends with the capability error itself.
   */
  lemma ProbeLoopMisreports()
    ensures var m := NotSupported("Method", "getTimeout", "clock");
      var p := Prober(Some(true), true, None, Pending);
      && ProbeStepAsWritten(p, ReadinessChanged(Failed(m)), "clock").prober.failure == Some(NotConnected("clock"))
      && ProbeStep(p, ReadinessChanged(Failed(m)), "clock").prober.failure == Some(m)
      && NotConnected("clock") != m
  {
    ProbeErrorAsWrittenMisreports();
  }
}
