/**
 * What the caller side of both transports shares: the target of a call, how
 * a call ends, the cancel packet its teardown sends, the decoding of a
 * result envelope (`dematerialize`), and the bookkeeping that says a call's
 * teardown has sent exactly one cancel, as its last packet, once it has ended.
 */
module Calls {
  import opened Wire

  /** A bridged method with the arguments of this call, or a bridged property with its decorator's operator list. */
  datatype CallTarget = MethodTarget(name: string, args: seq<Value>) | PropertyTarget(key: string, operators: nat)
  {
    /** The name the teardown puts in the cancel packet's `method` field. */
    function Name(): string
    {
      if MethodTarget? then name else key
    }
  }

  /** Why a call failed: an error record sent by the host, or an error raised on the caller's side. */
  datatype Failure = Remote(error: ErrorRecord) | Local(message: string)

  datatype End = Completed | Errored(failure: Failure) | Unsubscribed

  /** Waiting for its start to be sent, started, or ended. */
  datatype Phase = Waiting | Sent | Done(end: End)

  /** The teardown's cancel: `{id, method: <method or property key>, complete: true, service}`. */
  function CancelPacket(id: int, target: CallTarget, service: string): Packet
  {
    Packet(id, Some(target.Name()), None, NoData, true, service, false)
  }

  /** The message of the error `dematerialize` raises for data that is not an envelope. */
  const InvalidNotification: string := "Invalid notification, missing \"kind\""

  datatype Delivery = Deliver(value: Value) | Finish(end: End)

  /** What `dematerialize` makes of a result packet's data. */
  function Dematerialize(d: Data): (r: Delivery)
    ensures r.Deliver? <==> d.Envelope? && d.notification.N?
    ensures d.Envelope? && d.notification.N? ==> r == Deliver(d.notification.value)
    ensures d.Envelope? && d.notification.E? ==> r == Finish(Errored(Remote(d.notification.error)))
    ensures r == Finish(Completed) <==> d == Envelope(C)
    ensures !d.Envelope? ==> r == Finish(Errored(Local(InvalidNotification)))
    ensures r.Finish? ==> r.end != Unsubscribed
  {
    match d
    case Envelope(N(v)) => Deliver(v)
    case Envelope(E(e)) => Finish(Errored(Remote(e)))
    case Envelope(C) => Finish(Completed)
    case _ => Finish(Errored(Local(InvalidNotification)))
  }

  /** The number of packets with `complete: true`; the only such packet a caller sends is its cancel. */
  function CancelCount(sent: seq<Packet>): nat
  {
    if sent == [] then 0
    else CancelCount(sent[..|sent| - 1]) + (if sent[|sent| - 1].complete then 1 else 0)
  }

  /** A call's teardown has run exactly when it has ended: one cancel, sent last. */
  predicate TornDown(phase: Phase, sent: seq<Packet>)
  {
    && CancelCount(sent) == (if phase.Done? then 1 else 0)
    && (phase.Done? ==> sent[|sent| - 1].complete)
  }

  lemma CancelCountAppend(sent: seq<Packet>, p: Packet)
    ensures CancelCount(sent + [p]) == CancelCount(sent) + (if p.complete then 1 else 0)
  {
    assert (sent + [p])[..|sent|] == sent;
  }
}
