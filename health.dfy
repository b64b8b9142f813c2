/**
 * The process-wide joint registry (the health monitor): the list of streams a
 * host currently serves for remote callers, and the counts it reports.
 */
module HealthMonitor {
  import opened Wire

  datatype TransportType = Socket | Worker

  /** One active remote-backed stream. A property stream has no method name. */
  datatype Joint = Joint(kind: TransportType, service: string, methodName: Option<string>, id: int)

  /** The counters of one service: one entry per method key, plus the `_total` roll-up. */
  type Counters = map<string, int>

  datatype HealthStatus = HealthStatus(
    totalJointAmount: int,
    socketJointAmount: int,
    workerJointAmount: int,
    socketServiceJoints: map<string, Counters>,
    workerServiceJoints: map<string, Counters>)
  {
    function JointAmount(kind: TransportType): int
    {
      if kind == Socket then socketJointAmount else workerJointAmount
    }

    function ServiceJoints(kind: TransportType): map<string, Counters>
    {
      if kind == Socket then socketServiceJoints else workerServiceJoints
    }
  }

  const TotalKey: string := "_total"

  const EmptyStatus: HealthStatus := HealthStatus(0, 0, 0, map[], map[])

  /** Every service table carries its `_total` entry. */
  ghost predicate WellFormed(services: map<string, Counters>)
  {
    forall s :: s in services ==> TotalKey in services[s]
  }

  /**
   * Counts one joint into the service table of its transport: the service
   * gets a table `{_total: 0}` when it has none, the method entry is set to 1
   * when it is missing or zero and incremented otherwise, then `_total` is
   * incremented.
   */
  function Tally(services: map<string, Counters>, j: Joint): (r: map<string, Counters>)
    ensures WellFormed(services) ==> WellFormed(r)
    ensures r.Keys == services.Keys + {j.service}
  {
    var counters := if j.service in services then services[j.service] else map[TotalKey := 0];
    var key := Key(j.methodName);
    var counted := if key in counters && counters[key] != 0 then counters[key := counters[key] + 1] else counters[key := 1];
    var total := if TotalKey in counted then counted[TotalKey] else 0;
    services[j.service := counted[TotalKey := total + 1]]
  }

  /** One iteration of the counting loop of `checkHealth`. */
  function Record(status: HealthStatus, j: Joint): HealthStatus
  {
    var s := status.(totalJointAmount := status.totalJointAmount + 1);
    match j.kind
    case Socket =>
      s.(socketJointAmount := s.socketJointAmount + 1, socketServiceJoints := Tally(s.socketServiceJoints, j))
    case Worker =>
      s.(workerJointAmount := s.workerJointAmount + 1, workerServiceJoints := Tally(s.workerServiceJoints, j))
  }

  /** The report `checkHealth` builds from a list of joints, folding from the first joint to the last. */
  function HealthOf(joints: seq<Joint>): HealthStatus
  {
    if joints == [] then EmptyStatus
    else Record(HealthOf(joints[..|joints| - 1]), joints[|joints| - 1])
  }

  /** Which joints a count selects: a transport, optionally a service, optionally a method key. */
  datatype Selector = Selector(kind: TransportType, service: Option<string>, key: Option<string>)

  predicate Selects(sel: Selector, j: Joint)
  {
    && j.kind == sel.kind
    && (sel.service.Some? ==> j.service == sel.service.value)
    && (sel.key.Some? ==> Key(j.methodName) == sel.key.value)
  }

  /** The number of joints a selector selects: the independent reference for every reported count. */
  function Count(joints: seq<Joint>, sel: Selector): nat
  {
    if joints == [] then 0
    else Count(joints[..|joints| - 1], sel) + (if Selects(sel, joints[|joints| - 1]) then 1 else 0)
  }

  predicate Matches(j: Joint, id: int, kind: TransportType)
  {
    j.id == id && j.kind == kind
  }

  /** The index `find` stops at: the first joint with this id and transport. */
  function FirstMatch(joints: seq<Joint>, id: int, kind: TransportType): (r: Option<nat>)
    ensures r.Some? ==> r.value < |joints| && Matches(joints[r.value], id, kind)
    ensures r.Some? ==> forall k :: 0 <= k < r.value ==> !Matches(joints[k], id, kind)
    ensures r.None? ==> forall k :: 0 <= k < |joints| ==> !Matches(joints[k], id, kind)
  {
    if joints == [] then None
    else if Matches(joints[0], id, kind) then Some(0)
    else match FirstMatch(joints[1..], id, kind)
      case None => None
      case Some(i) => Some(i + 1)
  }

  /** The list after `removeJoint(id, type)`: the first matching joint spliced out, or the list unchanged. */
  function RemoveFirst(joints: seq<Joint>, id: int, kind: TransportType): seq<Joint>
  {
    match FirstMatch(joints, id, kind)
    case None => joints
    case Some(i) => joints[..i] + joints[i + 1..]
  }

  class RxjsBridgeHealth {
    var activeJoints: seq<Joint>

    constructor ()
      ensures activeJoints == []
    {
      activeJoints := [];
    }

    method AddJoint(joint: Joint)
      modifies this
      ensures activeJoints == old(activeJoints) + [joint]
    {
      activeJoints := activeJoints + [joint];
    }

    /** The method name is accepted and ignored: only the id and the transport select the joint. */
    method RemoveJoint(id: int, kind: TransportType, methodName: Option<string>)
      modifies this
      ensures activeJoints == RemoveFirst(old(activeJoints), id, kind)
    {
      var i := 0;
      while i < |activeJoints| && !Matches(activeJoints[i], id, kind)
        invariant 0 <= i <= |activeJoints|
        invariant forall k :: 0 <= k < i ==> !Matches(activeJoints[k], id, kind)
      {
        i := i + 1;
      }
      if i < |activeJoints| {
        activeJoints := activeJoints[..i] + activeJoints[i + 1..];
      }
    }

    method CheckHealth() returns (status: HealthStatus)
      ensures status == HealthOf(activeJoints)
    {
      status := EmptyStatus;
      var i := 0;
      while i < |activeJoints|
        invariant 0 <= i <= |activeJoints|
        invariant status == HealthOf(activeJoints[..i])
        invariant WellFormed(status.socketServiceJoints) && WellFormed(status.workerServiceJoints)
      {
        var joint := activeJoints[i];
        status := status.(totalJointAmount := status.totalJointAmount + 1);
        if joint.kind == Socket {
          var services := CountJoint(status.socketServiceJoints, joint);
          status := status.(socketJointAmount := status.socketJointAmount + 1, socketServiceJoints := services);
        } else {
          var services := CountJoint(status.workerServiceJoints, joint);
          status := status.(workerJointAmount := status.workerJointAmount + 1, workerServiceJoints := services);
        }
        assert activeJoints[..i + 1][..i] == activeJoints[..i];
        i := i + 1;
      }
      assert activeJoints[..i] == activeJoints;
    }
  }

  /** The map updates one `forEach` iteration makes on a service table. */
  method CountJoint(services: map<string, Counters>, joint: Joint) returns (r: map<string, Counters>)
    requires WellFormed(services)
    ensures r == Tally(services, joint)
  {
    r := services;
    if joint.service !in r {
      r := r[joint.service := map[TotalKey := 0]];
    }
    var key := Key(joint.methodName);
    var counters := r[joint.service];
    if !(key in counters && counters[key] != 0) {
      counters := counters[key := 1];
    } else {
      counters := counters[key := counters[key] + 1];
    }
    counters := counters[TotalKey := counters[TotalKey] + 1];
    r := r[joint.service := counters];
  }

  // ---------------------------------------------------------------------------
  // What the counts mean

  /** The counter of one service and key in a report table, 0 where the table has none. */
  function Entry(services: map<string, Counters>, service: string, key: string): int
  {
    if service in services && key in services[service] then services[service][key] else 0
  }

  lemma {:induction false} CountAppend(a: seq<Joint>, b: seq<Joint>, sel: Selector)
    ensures Count(a + b, sel) == Count(a, sel) + Count(b, sel)
    decreases |b|
  {
    if b == [] {
      assert a + b == a;
    } else {
      var b' := b[..|b| - 1];
      assert (a + b)[..|a + b| - 1] == a + b';
      CountAppend(a, b', sel);
    }
  }

  lemma {:induction false} HealthWellFormed(joints: seq<Joint>)
    ensures WellFormed(HealthOf(joints).socketServiceJoints)
    ensures WellFormed(HealthOf(joints).workerServiceJoints)
    decreases |joints|
  {
    if joints != [] {
      HealthWellFormed(joints[..|joints| - 1]);
    }
  }

  /** `totalJointAmount` is the length of the list and splits into the socket and the worker amounts. */
  lemma {:induction false} HealthTotals(joints: seq<Joint>)
    ensures HealthOf(joints).totalJointAmount == |joints|
    ensures HealthOf(joints).socketJointAmount == Count(joints, Selector(Socket, None, None))
    ensures HealthOf(joints).workerJointAmount == Count(joints, Selector(Worker, None, None))
    ensures HealthOf(joints).totalJointAmount == HealthOf(joints).socketJointAmount + HealthOf(joints).workerJointAmount
    decreases |joints|
  {
    if joints != [] {
      HealthTotals(joints[..|joints| - 1]);
    }
  }

  /**
   * A service appears in its transport's table exactly when it has a joint of
   * that transport, and its `_total` counts those joints; a joint whose method
   * is itself named `_total` is counted twice, since its method entry and the
   * roll-up are the same counter.
   */
  lemma {:induction false} ServiceTotal(joints: seq<Joint>, kind: TransportType, service: string)
    ensures service in HealthOf(joints).ServiceJoints(kind) <==> Count(joints, Selector(kind, Some(service), None)) > 0
    ensures Entry(HealthOf(joints).ServiceJoints(kind), service, TotalKey)
         == Count(joints, Selector(kind, Some(service), None)) + Count(joints, Selector(kind, Some(service), Some(TotalKey)))
    decreases |joints|
  {
    if joints != [] {
      ServiceTotal(joints[..|joints| - 1], kind, service);
      HealthWellFormed(joints[..|joints| - 1]);
    }
  }

  /** Every other method key of a service counts the joints of that transport, service and method. */
  lemma {:induction false} MethodEntry(joints: seq<Joint>, kind: TransportType, service: string, key: string)
    requires key != TotalKey
    ensures Entry(HealthOf(joints).ServiceJoints(kind), service, key) == Count(joints, Selector(kind, Some(service), Some(key)))
    ensures service in HealthOf(joints).ServiceJoints(kind) && key in HealthOf(joints).ServiceJoints(kind)[service]
            ==> HealthOf(joints).ServiceJoints(kind)[service][key] > 0
    decreases |joints|
  {
    if joints != [] {
      var prefix, j := joints[..|joints| - 1], joints[|joints| - 1];
      MethodEntry(prefix, kind, service, key);
      if j.kind == kind {
        TallyEntry(HealthOf(prefix).ServiceJoints(kind), j, service, key);
      }
    }
  }

  /** One counting step adds one to the entry of the joint's own service and method key, and to no other. */
  lemma TallyEntry(services: map<string, Counters>, j: Joint, service: string, key: string)
    requires key != TotalKey
    requires service in services && key in services[service] ==> services[service][key] > 0
    ensures Entry(Tally(services, j), service, key)
         == Entry(services, service, key) + (if j.service == service && Key(j.methodName) == key then 1 else 0)
    ensures service in Tally(services, j) && key in Tally(services, j)[service] ==> Tally(services, j)[service][key] > 0
  {
  }

  // ---------------------------------------------------------------------------
  // The `_total` entries add up to the transport's amount

  function TotalOf(counters: Counters): int
  {
    if TotalKey in counters then counters[TotalKey] else 0
  }

  ghost function Pick(keys: set<string>): string
    requires keys != {}
  {
    var k :| k in keys; k
  }

  /** The sum of the `_total` entries of the services in `keys`. */
  ghost function SumOver(services: map<string, Counters>, keys: set<string>): int
    requires keys <= services.Keys
    decreases keys
  {
    if keys == {} then 0
    else var k := Pick(keys); TotalOf(services[k]) + SumOver(services, keys - {k})
  }

  ghost function SumTotals(services: map<string, Counters>): int
  {
    SumOver(services, services.Keys)
  }

  lemma {:induction false} SumOverRemove(services: map<string, Counters>, keys: set<string>, k: string)
    requires k in keys && keys <= services.Keys
    ensures SumOver(services, keys) == TotalOf(services[k]) + SumOver(services, keys - {k})
    decreases keys
  {
    var p := Pick(keys);
    if p != k {
      SumOverRemove(services, keys - {p}, k);
      assert keys - {p} - {k} == keys - {k} - {p};
      SumOverRemove(services, keys - {k}, p);
    }
  }

  lemma {:induction false} SumOverSame(a: map<string, Counters>, b: map<string, Counters>, keys: set<string>)
    requires keys <= a.Keys && keys <= b.Keys
    requires forall k :: k in keys ==> TotalOf(a[k]) == TotalOf(b[k])
    ensures SumOver(a, keys) == SumOver(b, keys)
    decreases keys
  {
    if keys != {} {
      SumOverSame(a, b, keys - {Pick(keys)});
    }
  }

  lemma SumTotalsUpdate(services: map<string, Counters>, service: string, counters: Counters)
    ensures SumTotals(services[service := counters])
         == SumTotals(services) - (if service in services then TotalOf(services[service]) else 0) + TotalOf(counters)
  {
    var updated := services[service := counters];
    var rest := services.Keys - {service};
    SumOverRemove(updated, updated.Keys, service);
    assert updated.Keys - {service} == rest;
    SumOverSame(updated, services, rest);
    if service in services {
      SumOverRemove(services, services.Keys, service);
    } else {
      assert services.Keys == rest;
    }
  }

  /**
   * The `_total` entries of a transport's table add up to that transport's
   * amount, plus one for each joint whose method is named `_total`.
   */
  lemma {:induction false} SumOfTotals(joints: seq<Joint>, kind: TransportType)
    ensures SumTotals(HealthOf(joints).ServiceJoints(kind))
         == HealthOf(joints).JointAmount(kind) + Count(joints, Selector(kind, None, Some(TotalKey)))
    decreases |joints|
  {
    if joints != [] {
      var prefix, j := joints[..|joints| - 1], joints[|joints| - 1];
      SumOfTotals(prefix, kind);
      HealthWellFormed(prefix);
      if j.kind == kind {
        var services := HealthOf(prefix).ServiceJoints(kind);
        var counters := Tally(services, j)[j.service];
        assert Tally(services, j) == services[j.service := counters];
        SumTotalsUpdate(services, j.service, counters);
      }
    }
  }

  // ---------------------------------------------------------------------------
  // Removal

  /**
   * `removeJoint` removes one joint exactly when some joint has the id and the
   * transport, and is a no-op otherwise.
   */
  lemma RemoveFirstLength(joints: seq<Joint>, id: int, kind: TransportType)
    ensures (exists k :: 0 <= k < |joints| && Matches(joints[k], id, kind)) ==> |RemoveFirst(joints, id, kind)| == |joints| - 1
    ensures (forall k :: 0 <= k < |joints| ==> !Matches(joints[k], id, kind)) ==> RemoveFirst(joints, id, kind) == joints
  {
  }

  /** Removing the joint just appended, when no earlier joint shares its id and transport, restores the list. */
  lemma RemoveAppended(joints: seq<Joint>, j: Joint)
    requires forall k :: 0 <= k < |joints| ==> !Matches(joints[k], j.id, j.kind)
    ensures RemoveFirst(joints + [j], j.id, j.kind) == joints
  {
    assert Matches((joints + [j])[|joints|], j.id, j.kind);
    assert (joints + [j])[..|joints|] == joints;
  }

  /** Every count drops by one for the removed joint and is unchanged for the others. */
  lemma RemoveFirstCount(joints: seq<Joint>, id: int, kind: TransportType, sel: Selector)
    ensures Count(RemoveFirst(joints, id, kind), sel)
         == Count(joints, sel) - (match FirstMatch(joints, id, kind)
                                  case Some(i) => if Selects(sel, joints[i]) then 1 else 0
                                  case None => 0)
  {
    match FirstMatch(joints, id, kind)
    case None =>
    case Some(i) =>
      assert joints == joints[..i] + [joints[i]] + joints[i + 1..];
      CountAppend(joints[..i] + [joints[i]], joints[i + 1..], sel);
      CountAppend(joints[..i], [joints[i]], sel);
      CountAppend(joints[..i], joints[i + 1..], sel);
      assert [joints[i]][..0] == [];
  }

  /**
   * Two joints of one transport with different ids, added and then removed one
   * by one: the transport's amount reads 2, then 1, then 0.
   */
  method AddRemoveScenario(j1: Joint, j2: Joint) returns (amounts: seq<int>)
    requires j1.kind == j2.kind && j1.id != j2.id
    ensures amounts == [2, 1, 0]
  {
    var kind := j1.kind;
    var monitor := new RxjsBridgeHealth();
    monitor.AddJoint(j1);
    monitor.AddJoint(j2);
    var before := monitor.CheckHealth();
    HealthTotals(monitor.activeJoints);
    assert monitor.activeJoints == [j1, j2];
    ghost var all := Selector(kind, None, None);
    assert Count([j1, j2], all) == 2 by {
      assert [j1, j2][..1] == [j1];
      assert [j1][..0] == [];
    }
    monitor.RemoveJoint(j1.id, kind, j1.methodName);
    assert monitor.activeJoints == [j2] by {
      assert FirstMatch([j1, j2], j1.id, kind) == Some(0);
    }
    var middle := monitor.CheckHealth();
    HealthTotals(monitor.activeJoints);
    assert Count([j2], all) == 1 by {
      assert [j2][..0] == [];
    }
    monitor.RemoveJoint(j2.id, kind, j2.methodName);
    assert monitor.activeJoints == [] by {
      assert FirstMatch([j2], j2.id, kind) == Some(0);
    }
    var after := monitor.CheckHealth();
    amounts := [before.JointAmount(kind), middle.JointAmount(kind), after.JointAmount(kind)];
  }

  // ---------------------------------------------------------------------------
  // Counting by id, and the hosts' registry effects

  /** The number of joints of one transport with one id: the only fields `removeJoint` looks at. */
  function IdCount(joints: seq<Joint>, id: int, kind: TransportType): nat
  {
    if joints == [] then 0
    else IdCount(joints[..|joints| - 1], id, kind) + (if Matches(joints[|joints| - 1], id, kind) then 1 else 0)
  }

  lemma {:induction false} IdCountAppend(a: seq<Joint>, b: seq<Joint>, id: int, kind: TransportType)
    ensures IdCount(a + b, id, kind) == IdCount(a, id, kind) + IdCount(b, id, kind)
  {
    if b != [] {
      assert (a + b)[..|a + b| - 1] == a + b[..|b| - 1];
      IdCountAppend(a, b[..|b| - 1], id, kind);
    } else {
      assert a + b == a;
    }
  }

  lemma {:induction false} IdCountPositive(joints: seq<Joint>, id: int, kind: TransportType)
    ensures IdCount(joints, id, kind) > 0 <==> FirstMatch(joints, id, kind).Some?
  {
    if joints != [] {
      var n := |joints| - 1;
      IdCountPositive(joints[..n], id, kind);
      if FirstMatch(joints[..n], id, kind).Some? {
        var i := FirstMatch(joints[..n], id, kind).value;
        assert Matches(joints[i], id, kind);
      }
      if FirstMatch(joints, id, kind).Some? {
        var i := FirstMatch(joints, id, kind).value;
        if i < n {
          assert Matches(joints[..n][i], id, kind);
        }
      }
    }
  }

  /**
   * `removeJoint(id, type)` lowers the count of that id and transport by one
   * when it is positive and leaves the count of every other id or transport as
   * it was; the list shrinks by one exactly when the count was positive.
   */
  lemma RemoveFirstIdCount(joints: seq<Joint>, id: int, kind: TransportType, other: int, otherKind: TransportType)
    ensures IdCount(RemoveFirst(joints, id, kind), other, otherKind)
         == IdCount(joints, other, otherKind) - (if other == id && otherKind == kind && IdCount(joints, id, kind) > 0 then 1 else 0)
    ensures |RemoveFirst(joints, id, kind)| == |joints| - (if IdCount(joints, id, kind) > 0 then 1 else 0)
  {
    IdCountPositive(joints, id, kind);
    match FirstMatch(joints, id, kind)
    case None =>
    case Some(i) =>
      assert joints == joints[..i] + [joints[i]] + joints[i + 1..];
      IdCountAppend(joints[..i] + [joints[i]], joints[i + 1..], other, otherKind);
      IdCountAppend(joints[..i], [joints[i]], other, otherKind);
      IdCountAppend(joints[..i], joints[i + 1..], other, otherKind);
      assert [joints[i]][..0] == [];
  }

  /** A change a host makes to the registry: `addJoint` or `removeJoint`. */
  datatype JointEffect = AddEffect(joint: Joint) | RemoveEffect(id: int, kind: TransportType)

  /** The registry after a host's changes, applied in order. */
  function ApplyEffects(joints: seq<Joint>, effects: seq<JointEffect>): seq<Joint>
  {
    if effects == [] then joints
    else
      var before := ApplyEffects(joints, effects[..|effects| - 1]);
      match effects[|effects| - 1]
      case AddEffect(j) => before + [j]
      case RemoveEffect(id, kind) => RemoveFirst(before, id, kind)
  }

  /** Performs a host's changes on the registry one call at a time. */
  method Perform(monitor: RxjsBridgeHealth, effects: seq<JointEffect>)
    modifies monitor
    ensures monitor.activeJoints == ApplyEffects(old(monitor.activeJoints), effects)
  {
    ghost var start := monitor.activeJoints;
    for i := 0 to |effects|
      invariant monitor.activeJoints == ApplyEffects(start, effects[..i])
    {
      assert effects[..i + 1][..i] == effects[..i];
      match effects[i] {
        case AddEffect(j) => monitor.AddJoint(j);
        case RemoveEffect(id, kind) => monitor.RemoveJoint(id, kind, None);
      }
    }
    assert effects[..|effects|] == effects;
  }
}
