/**
 * What both hosts share: the service object as explicit name tables in place
 * of reflection, the capability reply to a handshake probe, the invocation of
 * a named method, the list of registered service names, and the bookkeeping
 * that ties the streams a host serves to the joints it keeps in the registry.
 */
module Host {
  import opened Wire
  import opened HealthMonitor
  import opened Handshake

  /** What calling a service method does with the arguments it is given. */
  datatype CallOutcome =
    | Throws(error: ErrorRecord)  // throws synchronously
    | ReturnsStream               // returns an observable
    | ReturnsUndefined            // returns nothing
    | ReturnsOther                // returns a value that is not an observable

  /** The value `this[name]` finds on the service object. */
  datatype Member =
    | MethodMember(outcome: CallOutcome)  // a function
    | StreamMember                        // an observable
    | PlainMember(truthy: bool)           // any other value, with its JavaScript truthiness

  /**
   * A host service object: the names `Object.getOwnPropertyNames` lists on the
   * instance and on the decorated class's prototype, and what `this[name]`
   * finds for each name (a name outside the table is `undefined`).
   */
  datatype HostService = HostService(ownNames: seq<string>, prototypeNames: seq<string>, members: map<string, Member>)

  /** Whether `this[name]` is truthy. */
  predicate Present(h: HostService, name: string)
  {
    name in h.members && (h.members[name].PlainMember? ==> h.members[name].truthy)
  }

  /** Whether `this[name]` can be piped and subscribed. */
  predicate Observable(h: HostService, name: string)
  {
    name in h.members && h.members[name].StreamMember?
  }

  /** The prototype names the capability reply leaves out. */
  const Hidden: seq<string> := ["constructor", "_bridgeConnected"]

  /** The names of a list that are not excluded, in their order. */
  function Without(names: seq<string>, excluded: seq<string>): (r: seq<string>)
    ensures forall x :: x in r <==> x in names && x !in excluded
    ensures |r| <= |names|
  {
    if names == [] then []
    else if names[0] in excluded then Without(names[1..], excluded)
    else [names[0]] + Without(names[1..], excluded)
  }

  function AdvertisedMethods(h: HostService): seq<string>
  {
    Without(h.prototypeNames, Hidden)
  }

  /** The reply to a probe: `{id: -1, data: {properties, methods}, complete: true, service}`. */
  function CapabilityReply(h: HostService, service: string): Packet
  {
    Packet(HandshakeId, None, None, Capabilities(h.ownNames, AdvertisedMethods(h)), true, service, false)
  }

  /**
   * A bridge that declares no hidden name is made ready by this host's reply
   * exactly when every declared method is on the host's prototype and every
   * declared property is an own property of the host instance.
   */
  lemma HandshakeAgainstHost(r: Readiness, bridgedMethods: seq<string>, bridgedProperties: seq<string>, h: HostService, service: string)
    requires !r.Failed?
    requires forall k :: 0 <= k < |bridgedMethods| ==> bridgedMethods[k] !in Hidden
    ensures OnReply(r, bridgedMethods, bridgedProperties, CapabilityReply(h, service).data, service) == Ready
        <==> ((forall k :: 0 <= k < |bridgedMethods| ==> bridgedMethods[k] in h.prototypeNames)
              && (forall k :: 0 <= k < |bridgedProperties| ==> bridgedProperties[k] in h.ownNames))
  {
    ReplyVerdict(r, bridgedMethods, bridgedProperties, h.ownNames, AdvertisedMethods(h), service);
  }

  /** A runtime `TypeError`, kept as its message only. */
  function TypeError(message: string): ErrorRecord
  {
    ErrorRecord(message, map[])
  }

  /** The spread `...data` of a start whose data is not an array. */
  const SpreadFailure: ErrorRecord := TypeError("Spread syntax requires ...iterable[Symbol.iterator] to be a function")

  function NotCallable(name: string): ErrorRecord
  {
    TypeError(name + " is not a function")
  }

  /** What `this[name](...data)` does. */
  datatype Invocation = Raised(error: ErrorRecord) | Produced(outcome: CallOutcome)

  /**
   * `this[name](...data)`: the arguments are spread before the callee is
   * checked, so data that is not an array fails first; a name that is not a
   * function fails next; otherwise the method runs.
   */
  function Invoke(h: HostService, name: string, data: Data): (r: Invocation)
    ensures r.Produced? ==> !r.outcome.Throws?
    ensures r.Produced? <==> (data.Args? || data.Operators?) && name in h.members && h.members[name].MethodMember?
                             && !h.members[name].outcome.Throws?
    ensures r == Produced(ReturnsStream) <==> (data.Args? || data.Operators?) && name in h.members
                                              && h.members[name] == MethodMember(ReturnsStream)
  {
    if !(data.Args? || data.Operators?) then Raised(SpreadFailure)
    else if name !in h.members || !h.members[name].MethodMember? then Raised(NotCallable(name))
    else match h.members[name].outcome
      case Throws(e) => Raised(e)
      case outcome => Produced(outcome)
  }

  /** The module-level `registeredServices` list of one transport. */
  class ServiceRegistry {
    var registeredServices: seq<string>

    constructor ()
      ensures registeredServices == []
    {
      registeredServices := [];
    }

    ghost predicate Valid()
      reads this
    {
      forall i, j :: 0 <= i < j < |registeredServices| ==> registeredServices[i] != registeredServices[j]
    }

    /**
     * A host's construction: the first service of a name is recorded and gets
     * its message handling installed; a later one of the same name installs nothing.
     */
    method Register(serviceName: string) returns (installed: bool)
      modifies this
      ensures installed <==> serviceName !in old(registeredServices)
      ensures registeredServices == if installed then old(registeredServices) + [serviceName] else old(registeredServices)
      ensures old(Valid()) ==> Valid()
    {
      installed := serviceName !in registeredServices;
      if installed {
        registeredServices := registeredServices + [serviceName];
      }
    }
  }

  // ---------------------------------------------------------------------------
  // The streams a host serves and the joints it keeps for them

  /**
   * The lifecycle of one served stream: running, ended without its joint
   * being removed, or ended with its joint removed.
   */
  datatype StreamStatus = Live | Leaked | Ended

  /** One start a host has dispatched, with the packet that started it. */
  datatype HostStream = HostStream(start: Packet, status: StreamStatus)

  predicate Holds(s: HostStream)
  {
    s.status != Ended
  }

  /** The joint a host adds for a start. */
  function JointOf(start: Packet, kind: TransportType, service: string): Joint
  {
    Joint(kind, service, start.methodName, start.id)
  }

  /** The number of streams that still hold a joint. */
  function Held(streams: seq<HostStream>): nat
  {
    if streams == [] then 0
    else Held(streams[..|streams| - 1]) + (if Holds(streams[|streams| - 1]) then 1 else 0)
  }

  /** The number of streams with one id that still hold a joint. */
  function Holding(streams: seq<HostStream>, id: int): nat
  {
    if streams == [] then 0
    else Holding(streams[..|streams| - 1], id) + (if Holds(streams[|streams| - 1]) && streams[|streams| - 1].start.id == id then 1 else 0)
  }

  lemma {:induction false} HoldingUpdate(streams: seq<HostStream>, k: nat, s: HostStream, id: int)
    requires k < |streams|
    ensures Holding(streams[k := s], id) == Holding(streams, id)
      - (if Holds(streams[k]) && streams[k].start.id == id then 1 else 0)
      + (if Holds(s) && s.start.id == id then 1 else 0)
    ensures Held(streams[k := s]) == Held(streams) - (if Holds(streams[k]) then 1 else 0) + (if Holds(s) then 1 else 0)
  {
    var n := |streams| - 1;
    if k < n {
      assert streams[k := s][..n] == streams[..n][k := s];
      HoldingUpdate(streams[..n], k, s, id);
    } else {
      assert streams[k := s][..n] == streams[..n];
    }
  }

  lemma HoldingPositive(streams: seq<HostStream>, k: nat)
    requires k < |streams| && Holds(streams[k])
    ensures Holding(streams, streams[k].start.id) > 0
  {
    HoldingUpdate(streams, k, streams[k].(status := Ended), streams[k].start.id);
  }

  /**
   * The registry agrees with the streams: for every id, the joints of the
   * transport with that id are those present before plus one per stream with
   * that id that still holds a joint, and likewise for the list's length and
   * the transport's amount.
   */
  ghost predicate Accounted(joints: seq<Joint>, initial: seq<Joint>, streams: seq<HostStream>, kind: TransportType)
  {
    && (forall x :: IdCount(joints, x, kind) == IdCount(initial, x, kind) + Holding(streams, x))
    && |joints| == |initial| + Held(streams)
    && Count(joints, Selector(kind, None, None)) == Count(initial, Selector(kind, None, None)) + Held(streams)
  }

  lemma AccountedInit(initial: seq<Joint>, kind: TransportType)
    ensures Accounted(initial, initial, [], kind)
  {
  }

  /** A dispatched start adds one stream and one joint. */
  lemma AccountedStart(joints: seq<Joint>, initial: seq<Joint>, streams: seq<HostStream>, kind: TransportType,
                       start: Packet, service: string, status: StreamStatus)
    requires Accounted(joints, initial, streams, kind)
    requires status != Ended
    ensures Accounted(joints + [JointOf(start, kind, service)], initial, streams + [HostStream(start, status)], kind)
  {
    var j := JointOf(start, kind, service);
    var s' := streams + [HostStream(start, status)];
    assert s'[..|s'| - 1] == streams;
    assert (joints + [j])[..|joints|] == joints;
    forall x
      ensures IdCount(joints + [j], x, kind) == IdCount(initial, x, kind) + Holding(s', x)
    {
    }
  }

  /** A stream that ends and removes the joint of its id keeps the registry in agreement. */
  lemma AccountedEnd(joints: seq<Joint>, initial: seq<Joint>, streams: seq<HostStream>, kind: TransportType, k: nat)
    requires Accounted(joints, initial, streams, kind)
    requires k < |streams| && Holds(streams[k])
    ensures Accounted(RemoveFirst(joints, streams[k].start.id, kind), initial,
                      streams[k := streams[k].(status := Ended)], kind)
  {
    var id := streams[k].start.id;
    var s' := streams[k := streams[k].(status := Ended)];
    var j' := RemoveFirst(joints, id, kind);
    HoldingPositive(streams, k);
    HoldingUpdate(streams, k, streams[k].(status := Ended), id);
    RemoveFirstIdCount(joints, id, kind, id, kind);
    IdCountPositive(joints, id, kind);
    forall x
      ensures IdCount(j', x, kind) == IdCount(initial, x, kind) + Holding(s', x)
    {
      RemoveFirstIdCount(joints, id, kind, x, kind);
      HoldingUpdate(streams, k, streams[k].(status := Ended), x);
    }
    RemoveFirstCount(joints, id, kind, Selector(kind, None, None));
  }

  /** A stream that ends without removing its joint keeps the registry in agreement. */
  lemma AccountedLeak(joints: seq<Joint>, initial: seq<Joint>, streams: seq<HostStream>, kind: TransportType, k: nat)
    requires Accounted(joints, initial, streams, kind)
    requires k < |streams| && Holds(streams[k])
    ensures Accounted(joints, initial, streams[k := streams[k].(status := Leaked)], kind)
  {
    var s' := streams[k := streams[k].(status := Leaked)];
    forall x
      ensures IdCount(joints, x, kind) == IdCount(initial, x, kind) + Holding(s', x)
    {
      HoldingUpdate(streams, k, streams[k].(status := Leaked), x);
    }
    HoldingUpdate(streams, k, streams[k].(status := Leaked), 0);
  }

  /** In agreement, the registry's report counts the transport's earlier joints plus one per stream that holds a joint. */
  lemma AccountedHealth(joints: seq<Joint>, initial: seq<Joint>, streams: seq<HostStream>, kind: TransportType)
    requires Accounted(joints, initial, streams, kind)
    ensures HealthOf(joints).JointAmount(kind) == HealthOf(initial).JointAmount(kind) + Held(streams)
    ensures HealthOf(joints).totalJointAmount == HealthOf(initial).totalJointAmount + Held(streams)
  {
    HealthTotals(joints);
    HealthTotals(initial);
  }
}
