/** The bookkeeping of the distributed coordinator: the table of nodes that completed a
    handshake, the set of nodes with an open connection, the tests in progress, and the
    cluster metrics reported by the nodes. Messages arrive already decrypted; the wall
    clock is the parameter `now`; sending a message is represented by what would be
    sent (or by a flag saying whether the send succeeded). */
module Coordinator {
  import opened Wrappers
  import Seqs
  import Cluster

  datatype NodeRole = Master | Worker | Observer

  datatype NodeStatus = Initializing | Ready | Running | Paused | Error | Disconnected

  datatype MessageType = Handshake | Heartbeat | Command | StatusUpdate | Metrics | ErrorReport | Shutdown

  /** A value in the data of a decrypted message: a string, a number, a JSON object, or
      any other JSON value (a list, a boolean, null). */
  datatype Field = Text(text: string) | Number(number: real) | Table(entries: map<string, Field>) | Other

  datatype Message = Message(messageType: MessageType, data: map<string, Field>)

  /** `NodeInfo`: what the coordinator knows about a node. */
  datatype NodeInfo = NodeInfo(
    nodeId: string,
    role: NodeRole,
    status: NodeStatus,
    address: Field,
    port: Field,
    capabilities: Field,
    lastHeartbeat: real,
    connectionTime: real)

  /** The value of the `NodeRole` enumeration member. */
  function RoleName(role: NodeRole): string
  {
    match role
    case Master => "master"
    case Worker => "worker"
    case Observer => "observer"
  }

  /** The value of the `NodeStatus` enumeration member. */
  function StatusName(status: NodeStatus): string
  {
    match status
    case Initializing => "initializing"
    case Ready => "ready"
    case Running => "running"
    case Paused => "paused"
    case Error => "error"
    case Disconnected => "disconnected"
  }

  /** `NodeRole(value)`: the member whose value the field is, or None where the
      enumeration raises `ValueError`. */
  function ParseRole(f: Field): (r: Option<NodeRole>)
    ensures r.Some? ==> f == Text(RoleName(r.value))
  {
    if f == Text("master") then Some(Master)
    else if f == Text("worker") then Some(Worker)
    else if f == Text("observer") then Some(Observer)
    else None
  }

  /** `NodeStatus(value)`: the member whose value the field is, or None where the
      enumeration raises `ValueError`. */
  function ParseStatus(f: Field): (r: Option<NodeStatus>)
    ensures r.Some? ==> f == Text(StatusName(r.value))
  {
    if f == Text("initializing") then Some(Initializing)
    else if f == Text("ready") then Some(Ready)
    else if f == Text("running") then Some(Running)
    else if f == Text("paused") then Some(Paused)
    else if f == Text("error") then Some(Error)
    else if f == Text("disconnected") then Some(Disconnected)
    else None
  }

  /** Every role is recognised by its own name. */
  lemma ParseRoleName(role: NodeRole)
    ensures ParseRole(Text(RoleName(role))) == Some(role)
  {
    match role
    case Master =>
    case Worker => assert Text("worker") != Text("master");
    case Observer => assert Text("observer") != Text("master") && Text("observer") != Text("worker");
  }

  /** Every status is recognised by its own name. */
  lemma ParseStatusName(status: NodeStatus)
    ensures ParseStatus(Text(StatusName(status))) == Some(status)
  {
    var names := ["initializing", "ready", "running", "paused", "error", "disconnected"];
    assert forall i, j :: 0 <= i < j < |names| ==> Text(names[i]) != Text(names[j]) by {
      forall i, j | 0 <= i < j < |names| ensures names[i] != names[j] {
        assert names[i][..2] != names[j][..2] || names[i][2] != names[j][2] || |names[i]| != |names[j]|;
      }
    }
    assert StatusName(status) in names;
  }

  /** `data.get(key, default)`. */
  function FieldOr(data: map<string, Field>, key: string, default: Field): Field
  {
    if key in data then data[key] else default
  }

  /** The node described by the first message of a connection, or None when
      `_perform_handshake` fails on it: the message is not a handshake, `node_id`,
      `role` or `address` is missing, or the role is not the name of a role. An
      admitted node is READY, has just been heard from, and takes `port` and
      `capabilities` from the message (0 and `{}` when absent). */
  function Admit(m: Message, now: real): (r: Option<NodeInfo>)
    ensures r.Some? ==>
      && m.messageType == Handshake
      && "node_id" in m.data && m.data["node_id"] == Text(r.value.nodeId)
      && "role" in m.data && m.data["role"] == Text(RoleName(r.value.role))
      && "address" in m.data && r.value.address == m.data["address"]
      && r.value.status == Ready && r.value.lastHeartbeat == now && r.value.connectionTime == now
      && r.value.port == FieldOr(m.data, "port", Number(0.0))
      && r.value.capabilities == FieldOr(m.data, "capabilities", Table(map[]))
    ensures m.messageType != Handshake ==> r.None?
  {
    if m.messageType != Handshake || "node_id" !in m.data || !m.data["node_id"].Text?
       || "role" !in m.data || "address" !in m.data
    then None
    else match ParseRole(m.data["role"])
      case None => None
      case Some(role) =>
        Some(NodeInfo(m.data["node_id"].text, role, Ready, m.data["address"],
                      FieldOr(m.data, "port", Number(0.0)),
                      FieldOr(m.data, "capabilities", Table(map[])), now, now))
  }

  /** A well-formed handshake from a node of any role is admitted. */
  lemma AdmitWellFormed(m: Message, now: real, id: string, role: NodeRole)
    requires m.messageType == Handshake && "address" in m.data
    requires "node_id" in m.data && m.data["node_id"] == Text(id)
    requires "role" in m.data && m.data["role"] == Text(RoleName(role))
    ensures Admit(m, now).Some? && Admit(m, now).value.nodeId == id && Admit(m, now).value.role == role
  {
    ParseRoleName(role);
  }

  /** `capabilities.update(new)`: when both are JSON objects, the keys of both are kept
      and the new values win. A number, a string or a boolean makes the update raise
      (an empty string does nothing), so the capabilities stay as they were. Any other
      value is returned unchanged too; a JSON list of key/value pairs, which the update
      would merge, is not modelled. */
  function Merge(caps: Field, update: Field): (r: Field)
    ensures caps.Table? && update.Table? ==>
      && r.Table? && r.entries.Keys == caps.entries.Keys + update.entries.Keys
      && (forall k :: k in update.entries ==> r.entries[k] == update.entries[k])
      && (forall k :: k in caps.entries && k !in update.entries ==> r.entries[k] == caps.entries[k])
    ensures !(caps.Table? && update.Table?) ==> r == caps
  {
    if caps.Table? && update.Table? then Table(caps.entries + update.entries) else caps
  }

  /** The new entry of a known node after one decrypted message from it
      (`_handle_node_message` with its handlers). */
  function Handle(n: NodeInfo, m: Message, now: real): (r: NodeInfo)
    ensures r.lastHeartbeat == now
    ensures r.nodeId == n.nodeId && r.role == n.role && r.address == n.address
    ensures r.port == n.port && r.connectionTime == n.connectionTime
    ensures m.messageType == ErrorReport ==> r.status == Error
    ensures m.messageType != StatusUpdate ==> r.capabilities == n.capabilities
    ensures m.messageType != Heartbeat && m.messageType != StatusUpdate && m.messageType != ErrorReport ==>
      r.status == n.status
    ensures m.messageType == Heartbeat && r.status != n.status ==>
      "status" in m.data && m.data["status"] == Text(StatusName(r.status))
    ensures m.messageType == StatusUpdate && r != n.(lastHeartbeat := now) ==>
      FieldOr(m.data, "status", Text("ready")) == Text(StatusName(r.status))
    // a recognised heartbeat status is adopted; any other leaves the status alone
    ensures m.messageType == Heartbeat ==>
      r.status == if "status" in m.data && ParseStatus(m.data["status"]).Some?
                  then ParseStatus(m.data["status"]).value else n.status
    // a recognised status update is adopted and its capabilities merged in
    ensures m.messageType == StatusUpdate && ParseStatus(FieldOr(m.data, "status", Text("ready"))).Some? ==>
      && r.status == ParseStatus(FieldOr(m.data, "status", Text("ready"))).value
      && r.capabilities == if "capabilities" in m.data then Merge(n.capabilities, m.data["capabilities"])
                           else n.capabilities
    // an unrecognised one raises before anything but the heartbeat time changes
    ensures m.messageType == StatusUpdate && ParseStatus(FieldOr(m.data, "status", Text("ready"))).None? ==>
      r == n.(lastHeartbeat := now)
  {
    var n := n.(lastHeartbeat := now);
    match m.messageType
    case Heartbeat =>
      if "status" in m.data && ParseStatus(m.data["status"]).Some?
      then n.(status := ParseStatus(m.data["status"]).value)
      else n
    case StatusUpdate =>
      (match ParseStatus(FieldOr(m.data, "status", Text("ready")))
       case None => n
       case Some(s) =>
         n.(status := s,
            capabilities := if "capabilities" in m.data then Merge(n.capabilities, m.data["capabilities"])
                            else n.capabilities))
    case ErrorReport => n.(status := Error)
    case _ => n
  }

  /** A message handler sees the entry with its heartbeat already refreshed. */
  lemma HandleRefreshesFirst(n: NodeInfo, m: Message, now: real)
    ensures Handle(n.(lastHeartbeat := now), m, now) == Handle(n, m, now)
  {
  }

  /** The numeric fields of a metrics report. */
  function Numeric(data: map<string, Field>): (e: Cluster.Entry)
    ensures e.Keys == set k | k in data && data[k].Number?
    ensures forall k :: k in e ==> data[k] == Number(e[k])
  {
    map k | k in data && data[k].Number? :: data[k].number
  }

  /** The `_heartbeat_monitor` timeout, in seconds. */
  const HeartbeatTimeout: real := 30.0

  /** A node whose last heartbeat is older than the timeout and that is not yet
      flagged as disconnected. */
  predicate TimedOut(n: NodeInfo, now: real)
  {
    now - n.lastHeartbeat > HeartbeatTimeout && n.status != Disconnected
  }

  /** A node's entry after one pass of the heartbeat monitor. */
  function Expire(n: NodeInfo, now: real): (r: NodeInfo)
    ensures r.status == Disconnected <==> n.status == Disconnected || now - n.lastHeartbeat > HeartbeatTimeout
    ensures r.(status := n.status) == n
  {
    if TimedOut(n, now) then n.(status := Disconnected) else n
  }

  /** The keys among `ks` whose nodes time out, in the order of `ks`. */
  function TimedOutAmong(ks: seq<string>, nodes: map<string, NodeInfo>, now: real): (r: seq<string>)
    ensures forall k :: k in r <==> k in ks && k in nodes && TimedOut(nodes[k], now)
  {
    if ks == [] then []
    else
      var k := ks[|ks| - 1];
      TimedOutAmong(ks[..|ks| - 1], nodes, now) + (if k in nodes && TimedOut(nodes[k], now) then [k] else [])
  }

  /** The table after the heartbeat check of the keys `ks`, one after the other. */
  function ExpireAll(ks: seq<string>, nodes: map<string, NodeInfo>, now: real): map<string, NodeInfo>
  {
    if ks == [] then nodes
    else
      var m := ExpireAll(ks[..|ks| - 1], nodes, now);
      var k := ks[|ks| - 1];
      if k in m then m[k := Expire(m[k], now)] else m
  }

  /** Checking distinct keys one after the other checks each of them once, against
      its entry before the pass: no key is added or removed, the checked entries expire
      and every other entry is untouched. */
  lemma {:induction false} ExpireAllSpec(ks: seq<string>, nodes: map<string, NodeInfo>, now: real)
    requires Seqs.Distinct(ks)
    ensures ExpireAll(ks, nodes, now).Keys == nodes.Keys
    ensures forall k :: k in nodes ==>
      ExpireAll(ks, nodes, now)[k] == if k in ks then Expire(nodes[k], now) else nodes[k]
  {
    if ks != [] {
      var init := ks[..|ks| - 1];
      assert Seqs.Distinct(init);
      ExpireAllSpec(init, nodes, now);
      assert forall k :: k in ks <==> k in init || k == ks[|ks| - 1];
      assert ks[|ks| - 1] !in init;
    }
  }

  /** One more distinct key checks that key against its entry before the pass. */
  lemma ExpireAllStep(ks: seq<string>, i: nat, nodes: map<string, NodeInfo>, now: real)
    requires Seqs.Distinct(ks) && i < |ks| && ks[i] in nodes
    ensures ks[i] in ExpireAll(ks[..i], nodes, now)
    ensures ExpireAll(ks[..i], nodes, now)[ks[i]] == nodes[ks[i]]
    ensures ExpireAll(ks[..i + 1], nodes, now)
            == ExpireAll(ks[..i], nodes, now)[ks[i] := Expire(nodes[ks[i]], now)]
    ensures TimedOutAmong(ks[..i + 1], nodes, now)
            == TimedOutAmong(ks[..i], nodes, now) + (if TimedOut(nodes[ks[i]], now) then [ks[i]] else [])
  {
    assert ks[..i + 1][..i] == ks[..i];
    assert ks[i] !in ks[..i];
    assert Seqs.Distinct(ks[..i]);
    ExpireAllSpec(ks[..i], nodes, now);
  }

  /** The test configuration fields the coordinator reads. */
  datatype TestConfig = TestConfig(targetUrl: Option<string>, targetRps: Option<int>, duration: Option<int>)

  /** `node_assignment` of the start command sent to one node. */
  datatype Assignment = Assignment(nodeId: string, assignedRps: int, totalNodes: nat, nodeIndex: nat)

  /** `TestCommand`, with its `coordination_data` as `startTime` and `syncInterval`. */
  datatype TestCommand = TestCommand(
    commandId: string,
    config: TestConfig,
    targetUrl: string,
    assignedNodes: seq<string>,
    totalRps: int,
    durationSeconds: int,
    startTime: real,
    syncInterval: int)

  /** The errors the coordinator raises: `ValueError` when no worker is available or a
      test is unknown, `KeyError` when the test configuration has no `target_url`. */
  datatype CoordinatorError = NoWorkersAvailable | MissingTargetUrl | TestNotFound

  /** A node that can take part in a test: a READY worker with an open connection. */
  predicate Eligible(nodes: map<string, NodeInfo>, connections: set<string>, k: string)
  {
    k in nodes && nodes[k].role == Worker && nodes[k].status == Ready && k in connections
  }

  /** The eligible keys among `ks`, in the order of `ks`. */
  function EligibleAmong(ks: seq<string>, nodes: map<string, NodeInfo>, connections: set<string>): (r: seq<string>)
    ensures forall k :: k in r <==> k in ks && Eligible(nodes, connections, k)
    ensures |r| <= |ks|
  {
    if ks == [] then []
    else
      var k := ks[|ks| - 1];
      EligibleAmong(ks[..|ks| - 1], nodes, connections) + (if Eligible(nodes, connections, k) then [k] else [])
  }

  /** Filtering distinct keys keeps them distinct. */
  lemma {:induction false} EligibleAmongDistinct(ks: seq<string>, nodes: map<string, NodeInfo>, connections: set<string>)
    requires Seqs.Distinct(ks)
    ensures Seqs.Distinct(EligibleAmong(ks, nodes, connections))
  {
    if ks != [] {
      var init := ks[..|ks| - 1];
      EligibleAmongDistinct(init, nodes, connections);
      var k := ks[|ks| - 1];
      assert k !in init;
      var r0 := EligibleAmong(init, nodes, connections);
      var r := EligibleAmong(ks, nodes, connections);
      if Eligible(nodes, connections, k) {
        assert r == r0 + [k];
        forall i, j | 0 <= i < j < |r| ensures r[i] != r[j] {
          if j == |r0| {
            assert r[i] in r0;
          }
        }
      }
    }
  }

  /** The rate of node `i` among `n`: an equal share, and the remainder on node 0.
      Dafny's `/` and `%` agree with Python's `//` and `%` for a positive divisor. */
  function Share(total: int, n: nat, i: nat): int
    requires n > 0
  {
    total / n + (if i == 0 then total % n else 0)
  }

  /** The rates handed out. */
  function TotalRps(assignments: seq<Assignment>): int
  {
    if assignments == [] then 0
    else TotalRps(assignments[..|assignments| - 1]) + assignments[|assignments| - 1].assignedRps
  }

  /** The first `k` shares add up to `k` equal shares plus the remainder. */
  lemma {:induction false} SharesSoFar(assignments: seq<Assignment>, total: int, n: nat)
    requires n > 0 && |assignments| >= 1
    requires forall i :: 0 <= i < |assignments| ==> assignments[i].assignedRps == Share(total, n, i)
    ensures TotalRps(assignments) == |assignments| * (total / n) + total % n
  {
    if |assignments| > 1 {
      SharesSoFar(assignments[..|assignments| - 1], total, n);
    } else {
      assert TotalRps(assignments[..0]) == 0;
    }
  }

  /** The rates handed out to all `n` nodes add up exactly to the total rate. */
  lemma SharesSumToTotal(assignments: seq<Assignment>, total: int)
    requires |assignments| > 0
    requires forall i :: 0 <= i < |assignments| ==> assignments[i].assignedRps == Share(total, |assignments|, i)
    ensures TotalRps(assignments) == total
  {
    SharesSoFar(assignments, total, |assignments|);
  }

  /** The keys among `ks` that have an open connection, in the order of `ks`. */
  function ConnectedAmong(ks: seq<string>, connections: set<string>): (r: seq<string>)
    ensures forall k :: k in r <==> k in ks && k in connections
    ensures |r| <= |ks|
  {
    if ks == [] then []
    else
      var k := ks[|ks| - 1];
      ConnectedAmong(ks[..|ks| - 1], connections) + (if k in connections then [k] else [])
  }

  /** `DistributedCoordinator`: the master's view of the cluster. */
  class DistributedCoordinator {
    /** `nodes`, keyed by node id. */
    var nodes: map<string, NodeInfo>
    /** The keys of `nodes` in the dictionary's iteration order. */
    var order: seq<string>
    /** The keys of `active_connections`. */
    var connections: set<string>
    var activeTests: map<string, TestCommand>
    const metrics: Cluster.ClusterMetrics

    ghost predicate Valid()
      reads this, metrics
    {
      && metrics.Valid()
      && Seqs.Distinct(order)
      && (forall k :: k in order <==> k in nodes)
      && (forall k :: k in nodes ==> nodes[k].nodeId == k)
    }

    constructor (now: real)
      ensures Valid()
      ensures nodes == map[] && order == [] && connections == {} && activeTests == map[]
      ensures fresh(metrics) && metrics.nodeMetrics == map[] && metrics.aggregated == None
    {
      metrics := new Cluster.ClusterMetrics(now);
      nodes := map[];
      order := [];
      connections := {};
      activeTests := map[];
    }

    /** `_perform_handshake`: an admitted node is stored (replacing an entry with the
        same id) whether or not the response can be sent; its id is returned only when
        it was. A rejected first message stores nothing. */
    method PerformHandshake(received: Option<Message>, sendOk: bool, now: real) returns (r: Option<string>)
      requires Valid()
      modifies this`nodes, this`order
      ensures Valid()
      ensures received.None? || Admit(received.value, now).None? ==>
        nodes == old(nodes) && order == old(order) && r == None
      ensures received.Some? && Admit(received.value, now).Some? ==>
        var info := Admit(received.value, now).value;
        && nodes == old(nodes)[info.nodeId := info]
        && order == (if info.nodeId in old(nodes) then old(order) else old(order) + [info.nodeId])
        && r == (if sendOk then Some(info.nodeId) else None)
    {
      if received.None? {
        return None;
      }
      var admitted := Admit(received.value, now);
      if admitted.None? {
        return None;
      }
      var info := admitted.value;
      if info.nodeId !in nodes {
        order := order + [info.nodeId];
      }
      nodes := nodes[info.nodeId := info];
      r := if sendOk then Some(info.nodeId) else None;
    }

    /** `_handle_connection` up to the message loop: after a successful handshake a
        node with a non-empty id is registered as connected. */
    method HandleConnection(received: Option<Message>, sendOk: bool, now: real) returns (r: Option<string>)
      requires Valid()
      modifies this`nodes, this`order, this`connections
      ensures Valid()
      ensures received.None? || Admit(received.value, now).None? ==>
        nodes == old(nodes) && order == old(order) && r == None
      ensures received.Some? && Admit(received.value, now).Some? ==>
        var info := Admit(received.value, now).value;
        && nodes == old(nodes)[info.nodeId := info]
        && order == (if info.nodeId in old(nodes) then old(order) else old(order) + [info.nodeId])
        && r == (if sendOk then Some(info.nodeId) else None)
      ensures connections == if r.Some? && r.value != "" then old(connections) + {r.value} else old(connections)
    {
      r := PerformHandshake(received, sendOk, now);
      if r.Some? && r.value != "" {
        connections := connections + {r.value};
      }
    }

    /** `_handle_node_message`: a message that cannot be decrypted changes nothing; any
        other refreshes a known node's heartbeat and is dispatched on its type. A
        metrics report is stored even for a node that is not in the table. */
    method HandleNodeMessage(nodeId: string, received: Option<Message>, now: real)
      requires Valid()
      modifies this`nodes, metrics
      ensures Valid()
      ensures received.Some? && nodeId in old(nodes) ==>
        nodes == old(nodes)[nodeId := Handle(old(nodes)[nodeId], received.value, now)]
      ensures received.None? || nodeId !in old(nodes) ==> nodes == old(nodes)
      ensures received.Some? && received.value.messageType == Metrics ==>
        && metrics.nodeMetrics == old(metrics.nodeMetrics)[nodeId := Cluster.Stamp(Numeric(received.value.data), now)]
        && metrics.order == (if nodeId in old(metrics.nodeMetrics) then old(metrics.order) else old(metrics.order) + [nodeId])
        && metrics.aggregated == Some(Cluster.Aggregate(Cluster.Column(metrics.order, metrics.nodeMetrics), now))
        && metrics.lastUpdate == now
      ensures !(received.Some? && received.value.messageType == Metrics) ==> unchanged(metrics)
    {
      if received.None? {
        return;
      }
      var m := received.value;
      if nodeId in nodes {
        HandleRefreshesFirst(nodes[nodeId], m, now);
      }
      Touch(nodeId, now);
      if m.messageType == Metrics {
        metrics.UpdateNodeMetrics(nodeId, Numeric(m.data), now);
      } else {
        Dispatch(nodeId, m, now);
      }
    }

    /** The heartbeat refresh every message gives a known node. */
    method Touch(nodeId: string, now: real)
      requires Valid()
      modifies this`nodes
      ensures Valid()
      ensures nodes == if nodeId in old(nodes) then old(nodes)[nodeId := old(nodes)[nodeId].(lastHeartbeat := now)] else old(nodes)
    {
      if nodeId in nodes {
        nodes := nodes[nodeId := nodes[nodeId].(lastHeartbeat := now)];
      }
    }

    /** The dispatch of a message other than a metrics report to its handler. */
    method Dispatch(nodeId: string, m: Message, now: real)
      requires Valid() && m.messageType != Metrics
      requires nodeId in nodes ==> nodes[nodeId].lastHeartbeat == now
      modifies this`nodes
      ensures Valid()
      ensures nodeId in old(nodes) ==> nodes == old(nodes)[nodeId := Handle(old(nodes)[nodeId], m, now)]
      ensures nodeId !in old(nodes) ==> nodes == old(nodes)
    {
      if m.messageType == Heartbeat {
        HandleHeartbeat(nodeId, m, now);
      } else if m.messageType == StatusUpdate {
        HandleStatusUpdate(nodeId, m);
      } else if m.messageType == ErrorReport {
        HandleNodeError(nodeId);
      }
    }

    /** `_handle_heartbeat`: a known node is refreshed and takes the reported status
        when that is the name of a status. */
    method HandleHeartbeat(nodeId: string, m: Message, now: real)
      requires Valid()
      modifies this`nodes
      ensures Valid()
      ensures nodeId in old(nodes) ==>
        var n := old(nodes)[nodeId].(lastHeartbeat := now);
        nodes == old(nodes)[nodeId := if "status" in m.data && ParseStatus(m.data["status"]).Some?
                                      then n.(status := ParseStatus(m.data["status"]).value) else n]
      ensures nodeId !in old(nodes) ==> nodes == old(nodes)
    {
      if nodeId in nodes {
        nodes := nodes[nodeId := nodes[nodeId].(lastHeartbeat := now)];
        if "status" in m.data {
          var status := ParseStatus(m.data["status"]);
          if status.Some? {
            nodes := nodes[nodeId := nodes[nodeId].(status := status.value)];
          }
        }
      }
    }

    /** `_handle_status_update`: a known node takes the reported status (READY when
        none is reported) and merges the reported capabilities; an unrecognised status
        stops the update before the capabilities. */
    method HandleStatusUpdate(nodeId: string, m: Message)
      requires Valid()
      modifies this`nodes
      ensures Valid()
      ensures nodeId in old(nodes) && ParseStatus(FieldOr(m.data, "status", Text("ready"))).Some? ==>
        var n := old(nodes)[nodeId];
        nodes == old(nodes)[nodeId := n.(status := ParseStatus(FieldOr(m.data, "status", Text("ready"))).value,
                                         capabilities := if "capabilities" in m.data then Merge(n.capabilities, m.data["capabilities"])
                                                         else n.capabilities)]
      ensures nodeId !in old(nodes) || ParseStatus(FieldOr(m.data, "status", Text("ready"))).None? ==>
        nodes == old(nodes)
    {
      if nodeId in nodes {
        var status := ParseStatus(FieldOr(m.data, "status", Text("ready")));
        if status.None? {
          return;
        }
        nodes := nodes[nodeId := nodes[nodeId].(status := status.value)];
        if "capabilities" in m.data {
          nodes := nodes[nodeId := nodes[nodeId].(capabilities := Merge(nodes[nodeId].capabilities, m.data["capabilities"]))];
        }
      }
    }

    /** `_handle_node_error`: a known node is flagged ERROR. */
    method HandleNodeError(nodeId: string)
      requires Valid()
      modifies this`nodes
      ensures Valid()
      ensures nodes == if nodeId in old(nodes) then old(nodes)[nodeId := old(nodes)[nodeId].(status := Error)] else old(nodes)
    {
      if nodeId in nodes {
        nodes := nodes[nodeId := nodes[nodeId].(status := Error)];
      }
    }

    /** `_handle_node_disconnect`: the connection is dropped and a known node is flagged
        DISCONNECTED; it stays in the table. */
    method HandleNodeDisconnect(nodeId: string)
      requires Valid()
      modifies this`nodes, this`connections
      ensures Valid()
      ensures connections == old(connections) - {nodeId}
      ensures nodes == if nodeId in old(nodes) then old(nodes)[nodeId := old(nodes)[nodeId].(status := Disconnected)] else old(nodes)
    {
      connections := connections - {nodeId};
      if nodeId in nodes {
        nodes := nodes[nodeId := nodes[nodeId].(status := Disconnected)];
      }
    }

    /** One pass of `_heartbeat_monitor`: every node that timed out is flagged
        DISCONNECTED and loses its connection; no node leaves the table and every other
        node is untouched. Returns the timed-out nodes in iteration order. */
    method HeartbeatPass(now: real) returns (expired: seq<string>)
      requires Valid()
      modifies this`nodes, this`connections
      ensures Valid()
      ensures nodes.Keys == old(nodes).Keys
      ensures forall k :: k in old(nodes) ==> nodes[k] == Expire(old(nodes)[k], now)
      ensures expired == TimedOutAmong(order, old(nodes), now)
      ensures forall k :: k in connections <==> k in old(connections) && k !in expired
    {
      expired := ExpireNodes(now);
      DropConnections(expired);
    }

    /** The scan of the heartbeat monitor over the table, in iteration order. */
    method ExpireNodes(now: real) returns (expired: seq<string>)
      requires Seqs.Distinct(order) && forall k :: k in order <==> k in nodes
      modifies this`nodes
      ensures nodes.Keys == old(nodes).Keys
      ensures forall k :: k in old(nodes) ==> nodes[k] == Expire(old(nodes)[k], now)
      ensures expired == TimedOutAmong(order, old(nodes), now)
    {
      expired := [];
      var i := 0;
      while i < |order|
        invariant 0 <= i <= |order|
        invariant nodes == ExpireAll(order[..i], old(nodes), now)
        invariant expired == TimedOutAmong(order[..i], old(nodes), now)
      {
        var k := order[i];
        ExpireAllStep(order, i, old(nodes), now);
        var timedOut := ExpireOne(k, now);
        if timedOut {
          expired := expired + [k];
        }
        i := i + 1;
      }
      assert order[..i] == order;
      ExpireAllSpec(order, old(nodes), now);
    }

    /** The heartbeat check of one node. */
    method ExpireOne(k: string, now: real) returns (timedOut: bool)
      requires k in nodes
      modifies this`nodes
      ensures timedOut == TimedOut(old(nodes)[k], now)
      ensures nodes == old(nodes)[k := Expire(old(nodes)[k], now)]
    {
      timedOut := TimedOut(nodes[k], now);
      if timedOut {
        nodes := nodes[k := nodes[k].(status := Disconnected)];
      }
    }

    /** The clean-up of the heartbeat monitor: the listed nodes lose their connection. */
    method DropConnections(ks: seq<string>)
      modifies this`connections
      ensures forall k :: k in connections <==> k in old(connections) && k !in ks
    {
      var j := 0;
      while j < |ks|
        invariant 0 <= j <= |ks|
        invariant forall k :: k in connections <==> k in old(connections) && k !in ks[..j]
      {
        assert ks[..j + 1] == ks[..j] + [ks[j]];
        connections := connections - {ks[j]};
        j := j + 1;
      }
      assert ks[..j] == ks;
    }

    /** `start_distributed_test`: the eligible nodes are the READY workers with an open
        connection, in iteration order. Without one, or without a target URL, the call
        fails and no test is registered. Otherwise the test is registered under its id
        and every eligible node gets its index, the node count and its share of the
        total rate (100 by default); the shares add up to the total. */
    method StartDistributedTest(testId: string, config: TestConfig, now: real)
      returns (r: Result<seq<Assignment>, CoordinatorError>)
      requires Valid()
      modifies this`activeTests
      ensures var eligible := EligibleAmong(order, nodes, connections);
        && (eligible == [] ==> r == Err(NoWorkersAvailable) && activeTests == old(activeTests))
        && (eligible != [] && config.targetUrl.None? ==> r == Err(MissingTargetUrl) && activeTests == old(activeTests))
        && (eligible != [] && config.targetUrl.Some? ==>
             var total := config.targetRps.GetOr(100);
             && activeTests == old(activeTests)[testId := TestCommand(testId, config, config.targetUrl.value, eligible,
                                                                       total, config.duration.GetOr(60), now + 10.0, 5)]
             && Seqs.Distinct(eligible)
             && r.Ok? && |r.value| == |eligible|
             && (forall i :: 0 <= i < |eligible| ==>
                   r.value[i] == Assignment(eligible[i], Share(total, |eligible|, i), |eligible|, i))
             && TotalRps(r.value) == total)
    {
      var available: seq<string> := [];
      var i := 0;
      while i < |order|
        invariant 0 <= i <= |order|
        invariant available == EligibleAmong(order[..i], nodes, connections)
      {
        assert order[..i + 1][..i] == order[..i];
        var k := order[i];
        if nodes[k].role == Worker && nodes[k].status == Ready && k in connections {
          available := available + [k];
        }
        i := i + 1;
      }
      assert order[..i] == order;
      if available == [] {
        return Err(NoWorkersAvailable);
      }
      var n := |available|;
      var total := config.targetRps.GetOr(100);
      var perNode := total / n;
      var remaining := total % n;
      if config.targetUrl.None? {
        return Err(MissingTargetUrl);
      }
      activeTests := activeTests[testId := TestCommand(testId, config, config.targetUrl.value, available,
                                                       total, config.duration.GetOr(60), now + 10.0, 5)];
      var assignments: seq<Assignment> := [];
      var j := 0;
      while j < n
        invariant 0 <= j <= n && |assignments| == j
        invariant forall a :: 0 <= a < j ==> assignments[a] == Assignment(available[a], Share(total, n, a), n, a)
      {
        var nodeRps := perNode;
        if j == 0 {
          nodeRps := nodeRps + remaining;
        }
        assignments := assignments + [Assignment(available[j], nodeRps, n, j)];
        j := j + 1;
      }
      SharesSumToTotal(assignments, total);
      EligibleAmongDistinct(order, nodes, connections);
      return Ok(assignments);
    }

    /** `stop_test`: an unknown id fails and changes nothing; a known test is removed,
        and the stop command goes to its target nodes that still have a connection. */
    method StopTest(testId: string) returns (r: Result<seq<string>, CoordinatorError>)
      requires Valid()
      modifies this`activeTests
      ensures testId !in old(activeTests) ==> r == Err(TestNotFound) && activeTests == old(activeTests)
      ensures testId in old(activeTests) ==>
        && activeTests == old(activeTests) - {testId}
        && r == Ok(ConnectedAmong(old(activeTests)[testId].assignedNodes, connections))
    {
      if testId !in activeTests {
        return Err(TestNotFound);
      }
      var targets := activeTests[testId].assignedNodes;
      var recipients: seq<string> := [];
      var i := 0;
      while i < |targets|
        invariant 0 <= i <= |targets|
        invariant recipients == ConnectedAmong(targets[..i], connections)
      {
        assert targets[..i + 1][..i] == targets[..i];
        if targets[i] in connections {
          recipients := recipients + [targets[i]];
        }
        i := i + 1;
      }
      assert targets[..i] == targets;
      activeTests := activeTests - {testId};
      return Ok(recipients);
    }
  }

  /** A test of the single-node `TestCoordinator`. */
  datatype TestRecord = TestRecord(config: TestConfig, startTime: real, status: string, endTime: Option<real>)

  /** `TestCoordinator`: bookkeeping of single-node tests. */
  class TestCoordinator {
    var activeTests: map<string, TestRecord>

    constructor ()
      ensures activeTests == map[]
    {
      activeTests := map[];
    }

    /** `start_test`: the test is recorded as running from `now`. */
    method StartTest(testId: string, config: TestConfig, now: real) returns (id: string)
      modifies this
      ensures id == testId
      ensures activeTests == old(activeTests)[testId := TestRecord(config, now, "running", None)]
    {
      activeTests := activeTests[testId := TestRecord(config, now, "running", None)];
      id := testId;
    }

    /** `stop_test`: a known test is marked stopped at `now`; an unknown id is ignored. */
    method StopTest(testId: string, now: real)
      modifies this
      ensures testId in old(activeTests) ==>
        activeTests == old(activeTests)[testId := old(activeTests)[testId].(status := "stopped", endTime := Some(now))]
      ensures testId !in old(activeTests) ==> activeTests == old(activeTests)
    {
      if testId in activeTests {
        activeTests := activeTests[testId := activeTests[testId].(status := "stopped", endTime := Some(now))];
      }
    }

    /** `get_test_status`. */
    function GetTestStatus(testId: string): (r: Option<TestRecord>)
      reads this
      ensures r.Some? <==> testId in activeTests
      ensures r.Some? ==> r.value == activeTests[testId]
    {
      if testId in activeTests then Some(activeTests[testId]) else None
    }
  }
}
