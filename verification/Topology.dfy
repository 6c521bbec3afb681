/**
 The node and cluster tables, the orders queued to agents and the per-cluster primary
 record in etcd, with the single-row writes the server applies to them.
 */
module Topology {
  import opened Wrappers
  import opened Commands

  datatype NodeRole = NoRole | PrimaryRole | ReplicaRole

  datatype NodeStatus = Online | Offline | Degraded | Syncing | Promoting | Drained | Deleting

  datatype ClusterStatus = Creating | Running | ClusterDegraded | Stopped

  datatype Endpoint = Endpoint(address: string, port: int)

  datatype Node = Node(id: Id, agent: string, cluster: Option<Id>, role: NodeRole, status: NodeStatus,
                       lastSeen: Time, endpoint: Endpoint)

  datatype Cluster = Cluster(name: string, replicas: int, status: ClusterStatus)

  /** A queued failover command; a node without an agent is addressed through the sentinel. */
  datatype Order = Order(agent: string, node: Id, action: Action, target: Option<Endpoint>)

  datatype PrimaryRecord = PrimaryRecord(node: Id, endpoint: Endpoint)

  /** Nodes are kept in created_at order. */
  datatype Tables = Tables(
    nodes: seq<Node>, clusters: map<Id, Cluster>, orders: seq<Order>, etcd: map<Id, PrimaryRecord>)

  datatype Write =
    | SetStatus(node: Id, status: NodeStatus)
    | SetRole(node: Id, role: NodeRole)
    | SetClusterStatus(cluster: Id, clusterStatus: ClusterStatus)
    | QueueOrder(node: Id, action: Action, target: Option<Endpoint>)
    | SetEtcdPrimary(cluster: Id, record: PrimaryRecord)

  const SENTINEL := "failover-sentinel"

  function Rewrite(n: Node, w: Write): Node {
    match w
    case SetStatus(id, status) => if n.id == id then n.(status := status) else n
    case SetRole(id, role) => if n.id == id then n.(role := role) else n
    case _ => n
  }

  function RewriteAll(nodes: seq<Node>, w: Write): (r: seq<Node>)
    ensures |r| == |nodes|
    ensures forall i | 0 <= i < |nodes| :: r[i] == Rewrite(nodes[i], w)
  {
    seq(|nodes|, i requires 0 <= i < |nodes| => Rewrite(nodes[i], w))
  }

  function NodeById(nodes: seq<Node>, id: Id): Option<Node> {
    if |nodes| == 0 then None
    else if nodes[0].id == id then Some(nodes[0])
    else NodeById(nodes[1..], id)
  }

  function OrderFor(n: Node, action: Action, target: Option<Endpoint>): Order {
    Order(if n.agent == "" then SENTINEL else n.agent, n.id, action, target)
  }

  function Apply(s: Tables, w: Write): Tables {
    match w
    case SetStatus(_, _) => s.(nodes := RewriteAll(s.nodes, w))
    case SetRole(_, _) => s.(nodes := RewriteAll(s.nodes, w))
    case SetClusterStatus(id, status) =>
      if id in s.clusters then s.(clusters := s.clusters[id := s.clusters[id].(status := status)]) else s
    case QueueOrder(id, action, target) =>
      var n := NodeById(s.nodes, id);
      if n.Some? then s.(orders := s.orders + [OrderFor(n.value, action, target)]) else s
    case SetEtcdPrimary(id, record) => s.(etcd := s.etcd[id := record])
  }

  function Applied(s: Tables, ws: seq<Write>): Tables {
    if |ws| == 0 then s else Apply(Applied(s, ws[..|ws| - 1]), ws[|ws| - 1])
  }

  lemma AppliedSnoc(s: Tables, ws: seq<Write>, w: Write)
    ensures Applied(s, ws + [w]) == Apply(Applied(s, ws), w)
  {
  }

  lemma AppliedOne(s: Tables, w: Write)
    ensures Applied(s, [w]) == Apply(s, w)
  {
  }

  lemma AppliedTwo(s: Tables, a: Write, b: Write)
    ensures Applied(s, [a, b]) == Apply(Apply(s, a), b)
  {
    AppliedOne(s, a);
    AppliedSnoc(s, [a], b);
    assert [a] + [b] == [a, b];
  }

  lemma AppliedFour(s: Tables, a: Write, b: Write, c: Write, d: Write)
    ensures Applied(s, [a, b, c, d]) == Apply(Apply(Apply(Apply(s, a), b), c), d)
  {
    AppliedTwo(s, a, b);
    AppliedSnoc(s, [a, b], c);
    AppliedSnoc(s, [a, b, c], d);
    assert [a, b] + [c] == [a, b, c] && [a, b, c] + [d] == [a, b, c, d];
  }

  lemma AppliedConcat(s: Tables, a: seq<Write>, b: seq<Write>)
    ensures Applied(s, a + b) == Applied(Applied(s, a), b)
  {
    if |b| == 0 {
      assert a + b == a;
    } else {
      var n := |b| - 1;
      assert (a + b)[..|a| + n] == a + b[..n];
      AppliedConcat(s, a, b[..n]);
    }
  }

  // ---- Membership ----

  predicate InCluster(n: Node, c: Id, role: NodeRole) {
    n.cluster == Some(c) && n.role == role
  }

  function Members(nodes: seq<Node>, c: Id, role: NodeRole): set<Id> {
    set n <- nodes | InCluster(n, c, role) :: n.id
  }

  ghost predicate UniqueNodes(nodes: seq<Node>) {
    forall i, j | 0 <= i < j < |nodes| :: nodes[i].id != nodes[j].id
  }

  /** Nodes with the replica role, oldest row first. */
  function Replicas(nodes: seq<Node>, c: Id): seq<Node> {
    if |nodes| == 0 then []
    else (if InCluster(nodes[0], c, ReplicaRole) then [nodes[0]] else []) + Replicas(nodes[1..], c)
  }

  lemma ReplicasAre(nodes: seq<Node>, c: Id)
    ensures forall n :: n in Replicas(nodes, c) <==> n in nodes && InCluster(n, c, ReplicaRole)
  {
  }

  lemma SameNode(nodes: seq<Node>, a: Node, b: Node)
    requires UniqueNodes(nodes) && a in nodes && b in nodes && a.id == b.id
    ensures a == b
  {
  }

  lemma NodeByIdFinds(nodes: seq<Node>, n: Node)
    requires UniqueNodes(nodes) && n in nodes
    ensures NodeById(nodes, n.id) == Some(n)
  {
  }

  lemma MemberIndex(nodes: seq<Node>, c: Id, role: NodeRole, x: Id) returns (i: nat)
    requires x in Members(nodes, c, role)
    ensures i < |nodes| && nodes[i].id == x && InCluster(nodes[i], c, role)
  {
    var n :| n in nodes && InCluster(n, c, role) && n.id == x;
    i :| 0 <= i < |nodes| && nodes[i] == n;
  }

  lemma MemberAt(nodes: seq<Node>, i: nat, c: Id, role: NodeRole)
    requires UniqueNodes(nodes) && i < |nodes|
    ensures nodes[i].id in Members(nodes, c, role) <==> InCluster(nodes[i], c, role)
  {
  }

  function Moved(members: set<Id>, id: Id, joins: bool): set<Id> {
    if joins then members + {id} else members - {id}
  }

  /** A role write moves one node of its own cluster and touches no other cluster. */
  lemma RoleMovesMember(nodes: seq<Node>, m: Node, role: NodeRole, c: Id, r: NodeRole)
    requires UniqueNodes(nodes) && m in nodes
    ensures Members(RewriteAll(nodes, SetRole(m.id, role)), c, r) ==
            if m.cluster == Some(c) then Moved(Members(nodes, c, r), m.id, r == role) else Members(nodes, c, r)
  {
  }

  lemma NodeByIdSome(nodes: seq<Node>, n: Node)
    requires n in nodes
    ensures NodeById(nodes, n.id).Some?
  {
  }

  lemma NodeByIdRewritten(nodes: seq<Node>, w: Write, id: Id)
    ensures NodeById(RewriteAll(nodes, w), id).Some? == NodeById(nodes, id).Some?
  {
    if |nodes| > 0 {
      assert RewriteAll(nodes, w)[1..] == RewriteAll(nodes[1..], w);
      NodeByIdRewritten(nodes[1..], w, id);
    }
  }

  /** The shared tables; every method is one statement. */
  class TopologyStore {
    var nodes: seq<Node>
    var clusters: map<Id, Cluster>
    var orders: seq<Order>
    var etcd: map<Id, PrimaryRecord>

    constructor (s: Tables)
      ensures State() == s
    {
      nodes, clusters, orders, etcd := s.nodes, s.clusters, s.orders, s.etcd;
    }

    function State(): Tables
      reads this
    {
      Tables(nodes, clusters, orders, etcd)
    }

    method UpdateStatus(id: Id, status: NodeStatus)
      modifies this`nodes
      ensures State() == Apply(old(State()), SetStatus(id, status))
    {
      nodes := RewriteAll(nodes, SetStatus(id, status));
    }

    method UpdateRole(id: Id, role: NodeRole)
      modifies this`nodes
      ensures State() == Apply(old(State()), SetRole(id, role))
    {
      nodes := RewriteAll(nodes, SetRole(id, role));
    }

    method UpdateClusterStatus(c: Id, status: ClusterStatus)
      modifies this`clusters
      ensures State() == Apply(old(State()), SetClusterStatus(c, status))
    {
      if c in clusters {
        clusters := clusters[c := clusters[c].(status := status)];
      }
    }

    method CreateCommand(id: Id, action: Action, target: Option<Endpoint>) returns (ok: bool)
      modifies this`orders
      ensures State() == Apply(old(State()), QueueOrder(id, action, target))
      ensures ok == NodeById(old(nodes), id).Some?
    {
      var n := NodeById(nodes, id);
      ok := n.Some?;
      if ok {
        orders := orders + [OrderFor(n.value, action, target)];
      }
    }

    method SetPrimary(c: Id, record: PrimaryRecord)
      modifies this`etcd
      ensures State() == Apply(old(State()), SetEtcdPrimary(c, record))
    {
      etcd := etcd[c := record];
    }
  }
}
