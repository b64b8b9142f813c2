# rxjs-bridge in Dafny

This project models the message-level core of rxjs-bridge. rxjs-bridge is a
streaming-RPC bridge: a *bridge* class in one place (a browser page or a
client process) calls methods and subscribes to observable properties of a
*host* class in another (a Web Worker or a WebSocket server). Each
subscription becomes a stream of packets tagged with a correlation id.

The model has five parts:

- **The joint registry** (`health.dfy`, module `HealthMonitor`). This is
  the process-wide list of streams a host serves. It has `addJoint`,
  `removeJoint` (the first joint with the id and transport is spliced out)
  and `checkHealth`, which folds the list into totals, per-transport
  amounts and per-service/per-method tables with a `_total` roll-up. The
  class methods are proved against the fold `HealthOf`, and every count is
  tied to an independent count `Count` over the list.
- **Handshake and readiness** (`handshake.dfy`, module `Handshake`). The
  readiness flag is a latch: false, then true or errored, and the first
  error sticks. The `id: -1` reply check tests the declared methods, then
  the declared properties. The probe loop, its timeout, and the mapping of
  the timeout to `service <s> is not connected` are modelled as an
  event-driven state machine, with the error mapping as written and as
  intended.
- **The bridging state** (`utils.dfy`, module `Utils`). This is the
  idempotent initializer `initRxBridgeProps`, the decorators' name lists,
  and the `_packetId++` id allocation with its reset at bridge construction.
- **What the hosts share** (`host.dfy`, module `Host`):
  - name tables in place of reflection;
  - the capability reply and method invocation;
  - the `registeredServices` list;
  - `Accounted`, the invariant that ties a host's streams to the joints it
    keeps in the registry.
- **The two transports** (`socket.dfy`, module `SocketBridge`; `worker.dfy`,
  module `WorkerBridge`). Each has:
  - a packet classifier for the host;
  - a state machine for one connection or worker host, with its streams,
    joints and outbound packets;
  - a state machine for one call on the bridge side (its filters, its
    start and cancel packets, and the gating of the start);
  - lemmas that connect the two sides.

  The transports keep their real differences:
  - A synchronous error goes back with `complete: false` over a socket and
    `complete: true` from a worker.
  - The socket host keeps the joint of a stream whose source errors.
  - The worker host answers `isCheck` packets and stops dispatching on an
    unknown name.

`calls.dfy` (module `Calls`) holds what both callers share: the call
target, `dematerialize`, the cancel packet, and `TornDown`. `TornDown` is
the bookkeeping that says a call has sent one cancel, as its last packet,
exactly when it has ended. `wire.dfy` (module `Wire`) holds the packet
shape, the `N`/`E`/`C` envelope, and JavaScript's key coercion and
truthiness of optional fields.

The reactive plumbing becomes explicit events. The events are:
- a packet arrives;
- a source emits, errors or completes;
- the connection closes;
- the readiness flag changes;
- the probe interval ticks;
- the timeout elapses;
- the consumer unsubscribes.

A transport's behaviour is then a step function over these events, and
the properties are proved per step and over runs.

## Model

| member | source | states |
|---|---|---|
| HealthMonitor.RxjsBridgeHealth.constructor | src/lib/health.monitor.ts:1-2 | The registry starts with no joints. |
| HealthMonitor.RxjsBridgeHealth.AddJoint | src/lib/health.monitor.ts:4-6 | The joint is appended at the end; every earlier joint keeps its place. |
| HealthMonitor.RxjsBridgeHealth.RemoveJoint | src/lib/health.monitor.ts:8-13 | The new list is the old one with the first joint of that id and transport spliced out, or unchanged when none matches. The method argument plays no part. |
| HealthMonitor.FirstMatch | src/lib/health.monitor.ts:9 | The index `find` stops at holds a joint with the id and transport, and no earlier joint has both. None means no joint matches. |
| HealthMonitor.RxjsBridgeHealth.CheckHealth | src/lib/health.monitor.ts:15-54 | The report is the fold of one counting step per joint, in list order; the list is not modified. |
| HealthMonitor.CountJoint | src/lib/health.monitor.ts:27-37 | One `forEach` iteration's updates on a service table. A missing service gets `{_total: 0}`; a missing or zero method entry becomes 1, otherwise it is incremented; then `_total` is incremented. |
| HealthMonitor.Tally | src/lib/health.monitor.ts:40-50 | Every service table keeps its `_total` entry, and the tables' keys gain exactly the joint's service. |
| HealthMonitor.HealthWellFormed | src/lib/health.monitor.ts:27-31 | In every report, every service table has a `_total` entry. |
| HealthMonitor.HealthTotals | src/lib/health.monitor.ts:23-26 | `totalJointAmount` is the list length. Each transport's amount is the number of its joints, and the two amounts add up to the total. |
| HealthMonitor.ServiceTotal | src/lib/health.monitor.ts:26-37 | A service has a table exactly when it has a joint of that transport. Its `_total` is its number of joints, plus the joints whose method is itself named `_total`. |
| HealthMonitor.MethodEntry | src/lib/health.monitor.ts:32-36 | Every method entry other than `_total` is the number of joints with that transport, service and method key, and a present entry is positive. |
| HealthMonitor.TallyEntry | src/lib/health.monitor.ts:45-49 | One counting step adds one to the entry of the joint's own service and method key and to no other entry, and keeps present entries positive. |
| HealthMonitor.SumOfTotals | src/lib/health.monitor.ts:37-50 | A transport's `_total` entries add up to its amount, plus one per joint whose method is named `_total`. |
| HealthMonitor.RemoveFirstLength | src/lib/health.monitor.ts:9-11 | Removal shortens the list by one when some joint matches the id and transport, and is a no-op when none does. |
| HealthMonitor.RemoveFirstCount | src/lib/health.monitor.ts:8-13 | Every count drops by one if it selects the removed joint, and is otherwise unchanged. |
| HealthMonitor.RemoveAppended | src/lib/health.monitor.ts:4-13 | Adding a joint and then removing its id and transport restores the list, when no earlier joint shares that id and transport. |
| HealthMonitor.IdCountPositive | src/lib/health.monitor.ts:9-10 | `find` succeeds exactly when some joint has the id and transport. |
| HealthMonitor.RemoveFirstIdCount | src/lib/health.monitor.ts:8-13 | Removal lowers the number of joints with that id and transport by one when it is positive, and changes no other id's count. |
| HealthMonitor.Perform | src/lib/health.monitor.ts:4-13 | A sequence of `addJoint`/`removeJoint` calls leaves the list as the effects applied in order. |
| HealthMonitor.AddRemoveScenario | tests/socketBridge/socket.test.ts:95-109 | Two joints of one transport with different ids, added and then removed one by one, give amounts 2, 1 and 0. |
| Handshake.ReadinessSubject.constructor | src/lib/utils.ts:14-16 | A new readiness flag is false. |
| Handshake.ReadinessSubject.Next | src/lib/socket-bridge.ts:304 | `next(true)` makes the flag true unless it has errored. |
| Handshake.ReadinessSubject.Error | src/lib/socket-bridge.ts:284-288 | The first error sticks; later errors are ignored. |
| Handshake.FirstMissing | src/lib/socket-bridge.ts:282-291 | The index is the first declared name the reply lacks; None means the reply has them all. |
| Handshake.ReportMissing | src/lib/socket-bridge.ts:282-303 | One pass over the declared names leaves the flag failed with the first missing name's message, or as it was. |
| Handshake.CheckReply | src/lib/socket-bridge.ts:281-306 | The reply check leaves the flag at the value of the pure reply verdict `OnReply`. The worker bridge runs the same check at src/lib/worker-bridge.ts:170-184. |
| Handshake.ReplyVerdict | src/lib/socket-bridge.ts:281-306 | A reply makes a not-yet-failed flag true exactly when every declared method and property is advertised. Otherwise the error names the first missing method, or, if no method is missing, the first missing property. |
| Handshake.FailureIsFinal | src/lib/worker-bridge.ts:170-184 | Once failed, no later reply changes the flag. |
| Handshake.RouteFacts | src/lib/socket-bridge.ts:277-308 | The calls see only their own service's packets and never a handshake reply, and a forwarded packet leaves readiness unchanged. |
| Handshake.ProbeStepInvariant | src/lib/socket-bridge.ts:313-344 | With the error told apart by its message, as written, or by its kind: the loop sends only probes, and only while readiness is false. A true readiness stops it, the timeout ends it with `service <s> is not connected`, a readiness error ends it with the mapped message, and that error is final. Told apart by kind, a readiness error keeps its own message. |
| Handshake.Arm | src/lib/socket-bridge.ts:316-334 | A fresh inner timer probes at once exactly when readiness is still false; an already true readiness ends it silently; an already failed readiness ends the loop with the mapped error. |
| Handshake.WorkerProberStart | src/lib/worker-bridge.ts:188-211 | At construction the worker bridge probes at once exactly when readiness is still false, and the loop has failed exactly when readiness has. |
| Handshake.ProbeLoopMisreports | src/lib/socket-bridge.ts:322-331 | As written, a waiting loop that sees the capability error for `getTimeout` ends with `service clock is not connected`; as intended it ends with the capability error. |
| Handshake.ProbeErrorAsWrittenMisreports | src/lib/socket-bridge.ts:325-331 | As written, a capability error for a method named `getTimeout` is replaced by `service clock is not connected`. |
| Handshake.ProbeErrorKeepsMessages | src/lib/worker-bridge.ts:197-202 | Corrected: the timeout becomes `service <s> is not connected`, as written, and a readiness error keeps its own message. |
| Utils.InitFields | src/lib/utils.ts:4-18 | Fields that are set keep their values, a counter of 0 included. Missing name lists become empty, a missing counter becomes 0 and a missing flag starts false. |
| Utils.InitIdempotent | src/lib/utils.ts:4-18 | Initializing twice equals initializing once. |
| Utils.BridgeTarget.constructor | src/lib/rxjsbridge.ts:5-11 | A prototype that no decorator has touched has none of the fields set. |
| Utils.BridgeTarget.InitRxBridgeProps | src/lib/utils.ts:4-18 | The fields become `InitFields` of the old ones. An existing flag object is kept, a missing one is new, and the same target is returned. |
| Utils.BridgeTarget.DeclareMethod | src/lib/socket-bridge.ts:359-360 | The method decorator initializes the target, then appends the method name and changes nothing else. |
| Utils.BridgeTarget.DeclareProperty | src/lib/worker-bridge.ts:89-91 | The property decorator initializes the target, then appends the property key and changes nothing else. |
| Utils.BridgeTarget.ResetPacketId | src/lib/socket-bridge.ts:345 | Bridge construction resets the counter to 0. |
| Utils.BridgeTarget.NextPacketId | src/lib/socket-bridge.ts:364 | A call takes the counter's value and increments it. The id is non-negative, never the handshake id -1, and differs from every id issued since the last reset. |
| Utils.ThreeCalls | src/lib/worker-bridge.ts:37 | Three calls after construction get the ids 0, 1 and 2. |
| Host.Without | src/lib/socket-bridge.ts:127-131 | The advertised methods are exactly the prototype names other than `constructor` and `_bridgeConnected`. |
| Host.HandshakeAgainstHost | src/lib/socket-bridge.ts:121-137 | A host's capability reply makes a bridge ready exactly when its declared methods are on the host's prototype and its declared properties are own properties of the host. |
| Host.Invoke | src/lib/socket-bridge.ts:152-177 | `this[m](...data)` produces a result exactly when the data can be spread and the member is a method that does not throw. |
| Host.ServiceRegistry.constructor | src/lib/socket-bridge.ts:36 | The list of registered services starts empty. |
| Host.ServiceRegistry.Register | src/lib/socket-bridge.ts:100-105 | A service name is recorded, and its handling installed, only the first time; the names stay distinct. The worker host does the same at src/lib/worker-bridge.ts:228-233. |
| Host.AccountedInit | src/lib/socket-bridge.ts:106-108 | A connection with no streams is in agreement with the registry it found. |
| Host.AccountedStart | src/lib/socket-bridge.ts:183-189 | A dispatched start adds one stream and one joint with its id, keeping the agreement. |
| Host.AccountedEnd | src/lib/socket-bridge.ts:192-221 | A stream that ends and removes the first joint of its id keeps the agreement. |
| Host.AccountedLeak | src/lib/socket-bridge.ts:223-246 | A stream that ends without removing its joint keeps the agreement; its joint stays for good. |
| Host.AccountedHealth | src/lib/health.monitor.ts:23-39 | In agreement, the transport's reported amount is the earlier amount plus the streams that still hold a joint. |
| Calls.Dematerialize | src/lib/socket-bridge.ts:401-402 | An `N` envelope delivers its value, `C` completes, `E` fails with the sent error, and anything else fails locally. |
| SocketBridge.SocketClassify | src/lib/socket-bridge.ts:116-189 | The host's verdict on a packet: ignored exactly when it is another service's; a capability reply exactly for `id -1`; only the cancel watchers for `complete`; a synchronous error reply with `complete: false`; a stream started exactly when the method returns an observable or the property is one. |
| SocketBridge.CancelFromAccounted | src/lib/socket-bridge.ts:201-221 | Cancelling keeps the registry in agreement with the streams. |
| SocketBridge.CloseFromAccounted | src/lib/socket-bridge.ts:212-219 | Closing keeps the registry in agreement with the streams. |
| SocketBridge.SocketHostAccounted | src/lib/socket-bridge.ts:183-246 | Every event keeps the registry in agreement with the connection's streams. A start adds a joint; completion, cancel or close removes it; a source error or a value that cannot be piped keeps it. |
| SocketBridge.CloseFromEndsAll | src/lib/socket-bridge.ts:212 | On close, exactly the running streams end and every other stream is unchanged. |
| SocketBridge.SocketCloseEndsStreams | src/lib/socket-bridge.ts:109-115 | After close no stream runs and nothing more reaches the client. The registry then keeps exactly the joints of streams whose source errored or could not be piped. |
| SocketBridge.SocketRouting | src/lib/socket-bridge.ts:116-189 | Another service's packet changes nothing; a probe gets exactly one capability reply and is not dispatched; `complete` never starts a stream; a synchronous error gives one reply and no joint; a start adds exactly one socket joint with the packet's id. |
| SocketBridge.CancelEndsMatching | src/lib/socket-bridge.ts:201-211 | A `complete` packet on a connection ends exactly the running streams of that connection with its id and leaves every other stream as it was. |
| SocketBridge.CallStepTornDown | src/lib/socket-bridge.ts:438-447 | An ended call ignores every event. A step sends at most one packet, the start or the cancel, and sends the cancel exactly when the call ends. |
| SocketBridge.CallStepGated | src/lib/socket-bridge.ts:417-437 | A start is sent only by a running call with readiness true, on a rising connection edge or when readiness turns true after such an edge. |
| SocketBridge.CallStepDelivers | src/lib/socket-bridge.ts:394-402 | A value is delivered only from an `N` packet that passes the call's filter, and it is that packet's value. |
| SocketBridge.SocketRunTornDown | src/lib/socket-bridge.ts:438-447 | Over any run, with the disconnect ignored as written or ending the call as intended, a call has sent one cancel, as its last packet, exactly when it has ended, and earlier packets stay a prefix. |
| SocketBridge.SubscribeTornDown | src/lib/socket-bridge.ts:363-370 | A new subscription ends at once exactly when readiness has failed, and is then torn down. |
| SocketBridge.ResultsAccepted | src/lib/socket-bridge.ts:394-400 | Every envelope the host sends back for a start passes the filter of the call that sent it. |
| SocketBridge.DisconnectIgnoredAsWritten | src/lib/socket-bridge.ts:372-383 | As written, a running method call ignores a disconnect and the reconnection after it. |
| SocketBridge.DisconnectEndsCall | src/lib/socket-bridge.ts:372-383 | Corrected: a disconnect completes a running method call, which sends its cancel and delivers nothing more. |
| SocketBridge.SyncErrorReachesCaller | src/lib/socket-bridge.ts:159-177 | A method that throws makes the host send one `E` reply with `complete: false`, and that reply fails the waiting call with the very error. The same reply with `complete: true` would complete it instead. |
| SocketBridge.SocketStreamLifecycle | src/lib/socket-bridge.ts:183-246 | A start adds a joint. A value and then completion reach the client as `N` and `C`, the joint is removed, and the registry stays in agreement. |
| SocketBridge.CallConsumesResults | src/lib/socket-bridge.ts:394-416 | The call delivers the `N` value and completes on `C`, sending its cancel. |
| WorkerBridge.WorkerClassify | src/lib/worker-bridge.ts:241-325 | The worker host's verdict on a packet. Ignored exactly when another service's. Capability reply exactly for `id -1`. Only cancel watchers for `complete`. An OK reply exactly for `isCheck`. The "does not exist in host service" error exactly when neither name is present. A synchronous error reply with `complete: true`. A started stream's joint carries the packet's id. |
| WorkerBridge.CancelFromAccounted | src/lib/worker-bridge.ts:336-374 | With one removal per stream end, cancelling keeps the registry in agreement. |
| WorkerBridge.WorkerHostAccounted | src/lib/worker-bridge.ts:327-374 | With one removal per stream end, every event keeps the registry in agreement. A start adds a joint; completion, error or cancel removes it; a value that cannot be piped keeps it. |
| WorkerBridge.WorkerRouting | src/lib/worker-bridge.ts:244-325 | On the host as written or as intended: another service's packet changes nothing. A probe sets the host flag and gets exactly one capability reply. `complete` never starts a stream. `isCheck` gets one OK reply and no joint. An unknown name stops dispatch before any joint. A synchronous error gives one `complete: true` reply and no joint. Once stopped, starts change nothing. |
| WorkerBridge.CancelRemovesTwiceAsWritten | src/lib/worker-bridge.ts:336-374 | As written, cancelling one stream also removes another worker service's joint with the same id, emptying the registry while that stream still runs. |
| WorkerBridge.CancelRemovesOnce | src/lib/worker-bridge.ts:336-374 | Corrected: the same cancel removes one joint, and the registry still counts the running stream. |
| WorkerBridge.UnsubscribeScenario | tests/workerBridge/worker.test.ts:44-52 | On the host as written, as on the host as intended, two calls and then their cancels one after the other give worker amounts 2, 1 and 0. |
| WorkerBridge.WorkerCallStepFacts | src/lib/worker-bridge.ts:36-81 | As written or as intended, a step posts at most the start or the cancel; the cancel is posted exactly when the call ends; a start is posted only when readiness turns true while it waits; after the end only that pending start may still be posted; a value is delivered only from an accepted `N` packet. Corrected: the cancel stays last and an ended call ignores every event. |
| WorkerBridge.SubscribeValid | src/lib/worker-bridge.ts:58-72 | A subscription posts its start at once when readiness is true and waits while it is false. When readiness has failed, it never posts and stays waiting. |
| WorkerBridge.WorkerRunValid | src/lib/worker-bridge.ts:74-81 | Over any run, as written or as intended, a call has posted one cancel exactly when it has ended, followed by at most its pending start, and earlier packets stay a prefix. Corrected: the cancel is last and nothing is pending after it. |
| WorkerBridge.StartAfterCancelAsWritten | src/lib/worker-bridge.ts:58-81 | As written, a call unsubscribed before readiness posts its start after its own cancel when readiness arrives. |
| WorkerBridge.NoStartAfterCancel | src/lib/worker-bridge.ts:58-81 | Corrected: the same call posts only its cancel. |
| WorkerBridge.LateStartLeaks | src/lib/worker-bridge.ts:327-344 | At the host, that late start after its cancel adds a running stream and a joint that nothing will remove. |
| WorkerBridge.EmptyStream | tests/workerBridge/worker.test.ts:18-29 | A stream that completes at once delivers no value and one completion. The call posts its start and one cancel, and the registry ends as it began. |

## Left out

- Transport I/O is not modelled. This covers `WebSocketHandler` (connect, the 500 ms reconnect, `onopen`/`close`), the `wss.on("connection")` wiring, `HostSocketHandler` with `hasAccessTo`, and the abstract handler shells. Each connection is one `SocketConnection` value, and the handler's `connected$`/`disconnected$` signals are call events.
- `interval(100)`, `timeout(5000)` and `timeout(50)` are events (`Tick`, `TimeoutElapsed`); the constants are recorded but time is not.
- `share`, `race` and `switchMap` scheduling become explicit state machines; a run is a sequence of events, not interleaved callbacks.
- A property's operator list is kept as its length only. The operators applied to delivered values are not modelled, and neither is how a transport serialises the list.
- JSON encoding and decoding are left out. Packets are values, and errors are opaque records; the wording of runtime `TypeError` messages is approximate.
- Reflection and decorator mechanics are replaced by name tables (`HostService`). Members every object inherits from `Object.prototype` (`toString`, `constructor`, ...) exist on a host only when the table lists them.
- The socket bridge's property declarations are records `{key, operators, observable}`; the model keeps their keys.
- The legacy duplicate types in rxbridge.ts and the test mocks are not part of this model.
- The socket `done$` subject belongs to a decorated member, not to a subscription. The model gives each subscription its own, so a second subscription of the same member observable is not modelled.
- A socket call made before any bridge instance exists (the "SocketHandler not initialized" branch) is not modelled.
- Errors that reach no handler are not modelled past their local effect: the probe's final error, the readiness error seen by a worker call's sender, and the dispatch error in the worker host. What the process then does with them is out of scope.
- Utils.BridgeTarget.NextPacketId: ids are distinct only since the last counter reset; a second bridge construction reissues ids from 0, and the model does not track ids across resets.
- SocketBridge.SocketHostAccounted: the registry is process-wide, but the model follows one connection or one worker host at a time over the joints it found (`initial`).
- WorkerBridge.WorkerHostAccounted: holds for the corrected step only. The as-written double removal is the subject of the findings below.
- WorkerBridge.CancelFromAccounted: holds with one removal per stream end only; as written, a cancel may remove the joint of another stream with the same id.
- WorkerBridge.WorkerCallStepFacts: for the call as written it promises only that the cancel is followed by at most the pending start, not that the cancel is last; the late start is the subject of the findings below.
- WorkerBridge.WorkerRunValid: the same as for WorkerBridge.WorkerCallStepFacts; `CallValid` is proved for the corrected call only.
- HealthMonitor.Tally: the report tables are maps with no inherited keys. The source's tables are `{}` literals, so a service or method named after an `Object.prototype` member (`constructor`, `toString`, `__proto__`) finds the inherited value: such a method entry becomes `NaN`, and such a service gets no table of its own. The model assumes no name is such a key.
- HealthMonitor.CountJoint: the same restriction on service and method names as for HealthMonitor.Tally.
- HealthMonitor.ServiceTotal: holds for service names outside the `Object.prototype` members, as for HealthMonitor.Tally.
- HealthMonitor.MethodEntry: holds for method names outside the `Object.prototype` members, as for HealthMonitor.Tally.
- `checkHealth` counts the joints whose method is named `_total` twice, in their method entry and in the roll-up, which is the same counter. The model states this as it is (HealthMonitor.ServiceTotal, HealthMonitor.SumOfTotals).

## Findings

| source | as written | input that shows it | evidently intended | confidence | as-written member | corrected member |
|---|---|---|---|---|---|---|
| src/lib/socket-bridge.ts:325-331 | any error whose message contains "Timeout" is replaced by `service <s> is not connected` | a bridge of service `clock` declaring a method `getTimeout` the host lacks: "Method getTimeout is not supported by service: clock" is reported as "service clock is not connected" | only the timeout becomes "not connected"; a readiness error keeps its message | high, not executed | Handshake.ProbeLoopMisreports | Handshake.ProbeErrorKeepsMessages |
| src/lib/socket-bridge.ts:376 | the disconnect notifier is subscribed with the unbound `observer.next`, which fails when called, so the disconnect never reaches the race | a running method call whose socket closes and reconnects: the call neither ends nor sends anything, although the host ended its stream on close | a transport disconnect completes the call | medium, not executed | SocketBridge.DisconnectIgnoredAsWritten | SocketBridge.DisconnectEndsCall |
| src/lib/worker-bridge.ts:58-81 | the teardown posts the cancel but leaves the pending start sender subscribed | subscribe while readiness is false, unsubscribe, then readiness turns true: the bridge posts the cancel, then the start, and the host serves a stream nobody cancels | the teardown also drops a start not yet posted | high, not executed | WorkerBridge.StartAfterCancelAsWritten | WorkerBridge.NoStartAfterCancel |
| src/lib/worker-bridge.ts:336-374 | a cancel calls `removeJoint` in the cancel watcher and again in the completion handler | a worker joint of another service with id 0 is registered; this host starts id 0 and receives its cancel: both joints are removed and the registry reads 0 while the other stream runs | one removal per stream end | high, not executed | WorkerBridge.CancelRemovesTwiceAsWritten | WorkerBridge.CancelRemovesOnce |
