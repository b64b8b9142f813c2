/**
 * The per-class bridging state the decorators keep on a bridge class's
 * prototype: the declared method and property names, the correlation-id
 * counter and the readiness flag, with the idempotent initializer
 * `initRxBridgeProps` and the `_packetId++` allocation.
 */
module Utils {
  import opened Wire
  import opened Handshake

  /** A snapshot of the four fields the initializer looks at; `None` is an unset field. */
  datatype BridgeFields = BridgeFields(
    bridgedMethods: Option<seq<string>>,
    bridgedProperties: Option<seq<string>>,
    packetId: Option<int>,
    readiness: Option<Readiness>)

  /**
   * What `initRxBridgeProps` leaves: every field that is set keeps its value
   * (a counter of 0 included), a missing name list becomes empty, a missing
   * counter becomes 0 and a missing readiness flag starts out false.
   */
  function InitFields(f: BridgeFields): (r: BridgeFields)
    ensures r.bridgedMethods.Some? && r.bridgedProperties.Some? && r.packetId.Some? && r.readiness.Some?
    ensures f.bridgedMethods.Some? ==> r.bridgedMethods == f.bridgedMethods
    ensures f.bridgedProperties.Some? ==> r.bridgedProperties == f.bridgedProperties
    ensures f.packetId.Some? ==> r.packetId == f.packetId
    ensures f.readiness.Some? ==> r.readiness == f.readiness
    ensures f.bridgedMethods.None? ==> r.bridgedMethods == Some([])
    ensures f.bridgedProperties.None? ==> r.bridgedProperties == Some([])
    ensures f.packetId.None? ==> r.packetId == Some(0)
    ensures f.readiness.None? ==> r.readiness == Some(Pending)
  {
    BridgeFields(
      if f.bridgedMethods.None? then Some([]) else f.bridgedMethods,
      if f.bridgedProperties.None? then Some([]) else f.bridgedProperties,
      if f.packetId.None? then Some(0) else f.packetId,
      if f.readiness.None? then Some(Pending) else f.readiness)
  }

  /** Initializing twice is initializing once. */
  lemma InitIdempotent(f: BridgeFields)
    ensures InitFields(InitFields(f)) == InitFields(f)
  {
  }

  class BridgeTarget {
    var bridgedMethods: Option<seq<string>>
    var bridgedProperties: Option<seq<string>>
    var packetId: Option<int>
    var bridgeConnected: ReadinessSubject?
    /** The ids handed out since the counter was last reset. */
    ghost var issued: seq<int>

    /** A prototype no decorator has touched yet. */
    constructor ()
      ensures bridgedMethods.None? && bridgedProperties.None? && packetId.None? && bridgeConnected == null
      ensures issued == []
    {
      bridgedMethods := None;
      bridgedProperties := None;
      packetId := None;
      bridgeConnected := null;
      issued := [];
    }

    function Fields(): BridgeFields
      reads this, bridgeConnected
    {
      BridgeFields(bridgedMethods, bridgedProperties, packetId,
                   if bridgeConnected == null then None else Some(bridgeConnected.value))
    }

    /** `initRxBridgeProps(target)`: fills in what is missing and returns the same target. */
    method InitRxBridgeProps() returns (r: BridgeTarget)
      modifies this
      ensures r == this
      ensures Fields() == InitFields(old(Fields()))
      ensures old(bridgeConnected) != null ==> bridgeConnected == old(bridgeConnected)
      ensures old(bridgeConnected) == null ==> fresh(bridgeConnected)
      ensures issued == old(issued)
    {
      if bridgedMethods.None? {
        bridgedMethods := Some([]);
      }
      if bridgedProperties.None? {
        bridgedProperties := Some([]);
      }
      if packetId.None? {
        packetId := Some(0);
      }
      if bridgeConnected == null {
        bridgeConnected := new ReadinessSubject();
      }
      r := this;
    }

    /** A method decorator records its method name after initializing the target. */
    method DeclareMethod(name: string)
      modifies this
      ensures bridgedMethods == Some(InitFields(old(Fields())).bridgedMethods.value + [name])
      ensures bridgedProperties == InitFields(old(Fields())).bridgedProperties
      ensures packetId == InitFields(old(Fields())).packetId
      ensures bridgeConnected != null && bridgeConnected.value == InitFields(old(Fields())).readiness.value
      ensures issued == old(issued)
    {
      var _ := InitRxBridgeProps();
      bridgedMethods := Some(bridgedMethods.value + [name]);
    }

    /** A property decorator records its property key after initializing the target. */
    method DeclareProperty(key: string)
      modifies this
      ensures bridgedProperties == Some(InitFields(old(Fields())).bridgedProperties.value + [key])
      ensures bridgedMethods == InitFields(old(Fields())).bridgedMethods
      ensures packetId == InitFields(old(Fields())).packetId
      ensures bridgeConnected != null && bridgeConnected.value == InitFields(old(Fields())).readiness.value
      ensures issued == old(issued)
    {
      var _ := InitRxBridgeProps();
      bridgedProperties := Some(bridgedProperties.value + [key]);
    }

    /** The ids issued since the last reset are non-negative, increasing and below the counter. */
    ghost predicate IdsValid()
      reads this
    {
      && packetId.Some? && packetId.value >= 0
      && (forall i :: 0 <= i < |issued| ==> 0 <= issued[i] < packetId.value)
      && (forall i, j :: 0 <= i < j < |issued| ==> issued[i] < issued[j])
    }

    /** `constructor.prototype._packetId = 0` at the end of a bridge's construction. */
    method ResetPacketId()
      modifies this
      ensures packetId == Some(0) && issued == [] && IdsValid()
      ensures bridgedMethods == old(bridgedMethods) && bridgedProperties == old(bridgedProperties)
      ensures bridgeConnected == old(bridgeConnected)
    {
      packetId := Some(0);
      issued := [];
    }

    /** `const packetId = target._packetId++` when a call is subscribed. */
    method NextPacketId() returns (id: int)
      requires packetId.Some?
      modifies this
      ensures id == old(packetId).value && packetId == Some(id + 1)
      ensures issued == old(issued) + [id]
      ensures old(IdsValid()) ==> IdsValid() && id >= 0 && id != HandshakeId && id !in old(issued)
      ensures bridgedMethods == old(bridgedMethods) && bridgedProperties == old(bridgedProperties)
      ensures bridgeConnected == old(bridgeConnected)
    {
      id := packetId.value;
      packetId := Some(id + 1);
      issued := issued + [id];
    }
  }

  /**
   * Three calls after a bridge's construction get the ids 0, 1 and 2: distinct,
   * and none of them the handshake id.
   */
  method ThreeCalls(target: BridgeTarget) returns (ids: seq<int>)
    modifies target
    ensures ids == [0, 1, 2]
    ensures forall i :: 0 <= i < |ids| ==> ids[i] != HandshakeId
  {
    target.ResetPacketId();
    var a := target.NextPacketId();
    var b := target.NextPacketId();
    var c := target.NextPacketId();
    ids := [a, b, c];
  }
}
