/** The coordinator's node registry: who is connected, when each node was last
    heard from, and which stream reaches it. */
module Registries {
  import opened Base

  type NodeId = string
  type StreamId = nat

  datatype RunnerKind = RunnerUnspecified | RunnerDocker | RunnerNativeMetal

  datatype NodeStatus = Online | Offline

  /** What a Register message says about the machine. A usableVram of 0 means "not measured". */
  datatype NodeInfo = NodeInfo(hostname: string, usableVram: nat, runners: seq<RunnerKind>)

  datatype Node = Node(
    info: NodeInfo,
    lastSeen: Time,
    status: NodeStatus,
    dataPlaneAddr: string,
    send: Option<StreamId>)

  type Nodes = map<NodeId, Node>

  const HEARTBEAT_INTERVAL: Time := 10 * SECOND
  const MISSED_INTERVALS := 3

  // ---- what each operation does to the table ----

  function ResolvedId(claimed: NodeId, minted: NodeId): NodeId {
    if claimed == "" then minted else claimed
  }

  function Upserted(nodes: Nodes, id: NodeId, info: NodeInfo, stream: StreamId, now: Time): Nodes {
    var addr := if id in nodes then nodes[id].dataPlaneAddr else "";
    nodes[id := Node(info, now, Online, addr, Some(stream))]
  }

  function Touched(nodes: Nodes, id: NodeId, addr: string, now: Time): Nodes {
    if id !in nodes then nodes
    else
      var n := nodes[id].(lastSeen := now, status := Online);
      nodes[id := if addr != "" then n.(dataPlaneAddr := addr) else n]
  }

  function Disconnected(nodes: Nodes, id: NodeId): Nodes {
    if id !in nodes then nodes else nodes[id := nodes[id].(status := Offline, send := None)]
  }

  function ReapedNode(n: Node, interval: Time, now: Time): Node {
    if n.status == Online && now - n.lastSeen > MISSED_INTERVALS * interval
    then n.(status := Offline, send := None)
    else n
  }

  function Reaped(nodes: Nodes, interval: Time, now: Time): Nodes {
    map id | id in nodes :: ReapedNode(nodes[id], interval, now)
  }

  predicate IsOnline(nodes: Nodes, id: NodeId) {
    id in nodes && nodes[id].status == Online
  }

  predicate Sendable(nodes: Nodes, id: NodeId) {
    id in nodes && nodes[id].send.Some?
  }

  // ---- what each operation means, field by field ----

  ghost predicate OthersStay(nodes: Nodes, nodes': Nodes, id: NodeId) {
    && (forall n | n in nodes && n != id :: n in nodes' && nodes'[n] == nodes[n])
    && (forall n | n in nodes' && n != id :: n in nodes)
  }

  ghost predicate RegisterMeans(nodes: Nodes, nodes': Nodes, id: NodeId, info: NodeInfo, stream: StreamId, now: Time) {
    && OthersStay(nodes, nodes', id) && id in nodes'
    && nodes'[id].info == info && nodes'[id].status == Online && nodes'[id].lastSeen == now
    && nodes'[id].send == Some(stream)
    && nodes'[id].dataPlaneAddr == if id in nodes then nodes[id].dataPlaneAddr else ""
  }

  ghost predicate TouchMeans(nodes: Nodes, nodes': Nodes, id: NodeId, addr: string, now: Time) {
    && OthersStay(nodes, nodes', id) && (id in nodes' <==> id in nodes)
    && (id in nodes ==>
          && nodes'[id].status == Online && nodes'[id].lastSeen == now
          && nodes'[id].info == nodes[id].info && nodes'[id].send == nodes[id].send
          && nodes'[id].dataPlaneAddr == if addr != "" then addr else nodes[id].dataPlaneAddr)
  }

  ghost predicate DisconnectMeans(nodes: Nodes, nodes': Nodes, id: NodeId) {
    && OthersStay(nodes, nodes', id) && (id in nodes' <==> id in nodes)
    && (id in nodes ==>
          && nodes'[id].status == Offline && nodes'[id].send == None
          && nodes'[id].info == nodes[id].info && nodes'[id].lastSeen == nodes[id].lastSeen
          && nodes'[id].dataPlaneAddr == nodes[id].dataPlaneAddr)
  }

  ghost predicate ReapMeans(nodes: Nodes, nodes': Nodes, allowed: Time, now: Time) {
    && nodes'.Keys == nodes.Keys
    && forall n | n in nodes ::
         if nodes[n].status == Online && now - nodes[n].lastSeen > allowed
         then nodes'[n] == nodes[n].(status := Offline, send := None)
         else nodes'[n] == nodes[n]
  }

  lemma RegistryMeans(nodes: Nodes, id: NodeId, info: NodeInfo, stream: StreamId, addr: string, now: Time)
    ensures RegisterMeans(nodes, Upserted(nodes, id, info, stream, now), id, info, stream, now)
    ensures TouchMeans(nodes, Touched(nodes, id, addr, now), id, addr, now)
    ensures DisconnectMeans(nodes, Disconnected(nodes, id), id)
    ensures ReapMeans(nodes, Reaped(nodes, HEARTBEAT_INTERVAL, now), 30 * SECOND, now)
  {
  }

  // ---- what every operation keeps ----

  /** A live handle implies ONLINE. The converse is not an invariant. */
  ghost predicate HandlesOnline(nodes: Nodes) {
    forall id | id in nodes :: nodes[id].send.Some? ==> nodes[id].status == Online
  }

  /** Every ONLINE node had been heard from recently enough to survive the last reap. */
  ghost predicate SurvivedReap(nodes: Nodes, lastReap: Time) {
    forall id | id in nodes && nodes[id].status == Online ::
      lastReap - MISSED_INTERVALS * HEARTBEAT_INTERVAL <= nodes[id].lastSeen
  }

  /** Objects of this class are updated in place; each method is its specification function. */
  class Registry {
    var nodes: Nodes

    constructor ()
      ensures nodes == map[]
    {
      nodes := map[];
    }

    method Upsert(claimed: NodeId, info: NodeInfo, stream: StreamId, minted: NodeId, now: Time) returns (id: NodeId)
      modifies this
      ensures id == ResolvedId(claimed, minted)
      ensures nodes == Upserted(old(nodes), id, info, stream, now)
      ensures id == (if claimed != "" then claimed else minted) && RegisterMeans(old(nodes), nodes, id, info, stream, now)
    {
      id := claimed;
      if id == "" {
        id := minted;
      }
      var addr := "";
      if id in nodes {
        addr := nodes[id].dataPlaneAddr;
      }
      nodes := nodes[id := Node(info, now, Online, addr, Some(stream))];
    }

    method Touch(id: NodeId, addr: string, now: Time)
      modifies this
      ensures nodes == Touched(old(nodes), id, addr, now)
      ensures TouchMeans(old(nodes), nodes, id, addr, now)
    {
      if id !in nodes {
        return;
      }
      nodes := nodes[id := nodes[id].(lastSeen := now, status := Online)];
      if addr != "" {
        nodes := nodes[id := nodes[id].(dataPlaneAddr := addr)];
      }
    }

    method MarkDisconnected(id: NodeId)
      modifies this
      ensures nodes == Disconnected(old(nodes), id)
      ensures DisconnectMeans(old(nodes), nodes, id)
    {
      if id in nodes {
        nodes := nodes[id := nodes[id].(status := Offline, send := None)];
      }
    }

    method Get(id: NodeId) returns (r: Option<Node>)
      ensures r.Some? <==> id in nodes
      ensures r.Some? ==> r.value == nodes[id]
    {
      if id !in nodes {
        return None;
      }
      return Some(nodes[id]);
    }

    /** Visits the nodes in an arbitrary order, as iteration over the table does. */
    method Reap(interval: Time, now: Time)
      modifies this
      ensures nodes == Reaped(old(nodes), interval, now)
      ensures ReapMeans(old(nodes), nodes, 3 * interval, now)
    {
      var todo := nodes.Keys;
      while todo != {}
        invariant todo <= nodes.Keys == old(nodes).Keys
        invariant forall id | id in todo :: nodes[id] == old(nodes)[id]
        invariant forall id | id in nodes && id !in todo :: nodes[id] == ReapedNode(old(nodes)[id], interval, now)
        decreases |todo|
      {
        var id :| id in todo;
        todo := todo - {id};
        var n := nodes[id];
        if n.status == Online && now - n.lastSeen > MISSED_INTERVALS * interval {
          nodes := nodes[id := n.(status := Offline, send := None)];
        }
      }
    }
  }
}
