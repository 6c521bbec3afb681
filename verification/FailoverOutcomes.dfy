/** What a health check leaves in every table: whom it spares, and what a failover makes of each row. */
module FailoverOutcomes {
  import opened Wrappers
  import opened Commands
  import opened Topology
  import opened Failover
  import opened FailoverSafety
  import opened TopologyRuns

  predicate OnlineReplica(n: Node, c: Id) {
    n.cluster == Some(c) && n.role == ReplicaRole && n.status == Online
  }

  function WithStatus(clusters: map<Id, Cluster>, c: Id, status: ClusterStatus): map<Id, Cluster> {
    if c in clusters then clusters[c := clusters[c].(status := status)] else clusters
  }

  /** Nobody to promote: the primary is offline, its cluster degraded, and nothing was ordered. */
  ghost predicate LeftDegraded(s: Tables, t: Tables, c: Id, failed: Node) {
    && |t.nodes| == |s.nodes|
    && (forall i | 0 <= i < |s.nodes| ::
          t.nodes[i] == if s.nodes[i].id == failed.id then s.nodes[i].(status := Offline) else s.nodes[i])
    && t.clusters == WithStatus(s.clusters, c, ClusterDegraded)
    && t.orders == s.orders && t.etcd == s.etcd
  }

  /** The two nodes have changed places, the cluster runs, and etcd names the new primary where it is used. */
  ghost predicate TakenOver(s: Tables, t: Tables, c: Id, failed: Node, best: Node, dcs: bool) {
    && |t.nodes| == |s.nodes|
    && (forall i | 0 <= i < |s.nodes| :: t.nodes[i] ==
          if s.nodes[i].id == failed.id then s.nodes[i].(role := ReplicaRole, status := Offline)
          else if s.nodes[i].id == best.id then s.nodes[i].(role := PrimaryRole, status := Online)
          else s.nodes[i])
    && t.clusters == WithStatus(s.clusters, c, Running)
    && t.etcd == if dcs then s.etcd[c := PrimaryRecord(best.id, best.endpoint)] else s.etcd
  }

  lemma OpeningLeaves(s: Tables, c: Id, failed: Node)
    ensures LeftDegraded(s, Applied(s, Opening(c, failed)), c, failed)
  {
    AppliedTwo(s, SetStatus(failed.id, Offline), SetClusterStatus(c, ClusterDegraded));
  }

  /** Both nodes change roles in four single-row writes; everything else of these stages is orders. */
  lemma PromotionLeaves(s: Tables, best: Node)
    ensures var t := Applied(s, Promotion(best));
            && |t.nodes| == |s.nodes| && t.clusters == s.clusters && t.etcd == s.etcd
            && forall i | 0 <= i < |s.nodes| :: t.nodes[i] ==
                 if s.nodes[i].id == best.id then s.nodes[i].(role := PrimaryRole, status := Online) else s.nodes[i]
  {
    AppliedFour(s, SetStatus(best.id, Promoting), QueueOrder(best.id, PgPromote, None),
                SetRole(best.id, PrimaryRole), SetStatus(best.id, Online));
  }

  lemma {:induction false} RepointsLeave(s: Tables, replicas: seq<Node>, best: Node)
    ensures var t := Applied(s, Repoints(replicas, best));
            t.nodes == s.nodes && t.clusters == s.clusters && t.etcd == s.etcd
  {
    if |replicas| > 0 {
      var before := Repoints(replicas[..|replicas| - 1], best);
      RepointsLeave(s, replicas[..|replicas| - 1], best);
      if Repointed(replicas[|replicas| - 1], best) {
        AppliedSnoc(s, before, QueueOrder(replicas[|replicas| - 1].id, RepointReplica, Some(best.endpoint)));
      } else {
        assert Repoints(replicas, best) == before;
      }
    }
  }

  lemma RolesLeave(s: Tables, failed: Node, best: Node)
    requires failed.id != best.id
    ensures var t := Applied(Applied(s, Promotion(best)), Demotion(failed, best));
            && |t.nodes| == |s.nodes| && t.clusters == s.clusters && t.etcd == s.etcd
            && forall i | 0 <= i < |s.nodes| :: t.nodes[i] ==
                 if s.nodes[i].id == failed.id then s.nodes[i].(role := ReplicaRole)
                 else if s.nodes[i].id == best.id then s.nodes[i].(role := PrimaryRole, status := Online)
                 else s.nodes[i]
  {
    PromotionLeaves(s, best);
    AppliedOne(Applied(s, Promotion(best)), SetRole(failed.id, ReplicaRole));
  }

  lemma ClosingLeaves(s: Tables, c: Id, best: Node, dcs: bool)
    ensures var t := Applied(s, Closing(c, best, dcs));
            && t.nodes == s.nodes
            && t.clusters == WithStatus(s.clusters, c, Running)
            && t.etcd == if dcs then s.etcd[c := PrimaryRecord(best.id, best.endpoint)] else s.etcd
  {
    if dcs {
      AppliedTwo(s, SetClusterStatus(c, Running), SetEtcdPrimary(c, PrimaryRecord(best.id, best.endpoint)));
    } else {
      AppliedOne(s, SetClusterStatus(c, Running));
      assert Closing(c, best, dcs) == [SetClusterStatus(c, Running)];
    }
  }

  /** The takeover after its opening. */
  lemma StagesLeave(s: Tables, c: Id, failed: Node, replicas: seq<Node>, best: Node, dcs: bool)
    requires failed.id != best.id
    ensures var t := Applied(s, Takeover(c, failed, replicas, best, dcs));
            && t.nodes == Applied(Applied(s, Promotion(best)), Demotion(failed, best)).nodes
            && t.clusters == WithStatus(s.clusters, c, Running)
            && t.etcd == if dcs then s.etcd[c := PrimaryRecord(best.id, best.endpoint)] else s.etcd
  {
    TakeoverInStages(s, c, failed, replicas, best, dcs);
    RolesLeave(s, failed, best);
    var b := Applied(Applied(s, Promotion(best)), Demotion(failed, best));
    RepointsLeave(b, replicas, best);
    var d := Applied(b, Repoints(replicas, best));
    AppliedOne(d, QueueOrder(failed.id, PgRewind, Some(best.endpoint)));
    ClosingLeaves(Applied(d, Rewind(failed, best)), c, best, dcs);
  }

  lemma TakeoverLeaves(s: Tables, c: Id, failed: Node, replicas: seq<Node>, best: Node, dcs: bool)
    requires failed.id != best.id
    ensures TakenOver(s, Applied(Applied(s, Opening(c, failed)), Takeover(c, failed, replicas, best, dcs)),
                      c, failed, best, dcs)
  {
    var a := Applied(s, Opening(c, failed));
    OpeningLeaves(s, c, failed);
    StagesLeave(a, c, failed, replicas, best, dcs);
    RolesLeave(a, failed, best);
  }

  /** The freshest online replica, or none. */
  ghost predicate Freshest(nodes: seq<Node>, c: Id, best: Option<Node>) {
    match best
    case None => forall n <- nodes :: !OnlineReplica(n, c)
    case Some(b) =>
      b in nodes && OnlineReplica(b, c) && forall n <- nodes | OnlineReplica(n, c) :: n.lastSeen <= b.lastSeen
  }

  lemma ChosenIsFreshest(s: Tables, c: Id)
    ensures Freshest(s.nodes, c, Chosen(s, c))
  {
    var rs := Replicas(s.nodes, c);
    BestIsFreshest(rs);
    ReplicasAre(s.nodes, c);
    if Chosen(s, c).Some? {
      var k :| 0 <= k < |rs| && rs[k] == Chosen(s, c).value && Failover.Freshest(rs, k);
      forall n <- s.nodes | OnlineReplica(n, c) ensures n.lastSeen <= rs[k].lastSeen {
        assert n in rs;
      }
    }
  }

  /** A primary that was heard of in time, or is being promoted, is left alone; so is a cluster without one. */
  lemma HealthyIsSpared(s: Tables, c: Id, read: Id, now: Time, timeout: Time, dcs: bool)
    requires forall p | PrimaryRead(s.nodes, c, read) == Some(p) :: now - p.lastSeen <= timeout || p.status == Promoting
    ensures Checked(s, c, read, now, timeout, dcs) == s
  {
  }

  /** An overdue primary is replaced by the freshest online replica, or leaves its cluster degraded if there is none. */
  lemma OverdueIsReplaced(s: Tables, c: Id, read: Id, now: Time, timeout: Time, dcs: bool) returns (best: Option<Node>)
    requires UniqueNodes(s.nodes) && PrimaryRead(s.nodes, c, read).Some?
    requires var p := PrimaryRead(s.nodes, c, read).value; now - p.lastSeen > timeout && p.status != Promoting
    ensures Freshest(s.nodes, c, best)
    ensures var t, p := Checked(s, c, read, now, timeout, dcs), PrimaryRead(s.nodes, c, read).value;
            if best.Some? then best.value.id != p.id && TakenOver(s, t, c, p, best.value, dcs)
            else LeftDegraded(s, t, c, p)
  {
    var p := PrimaryRead(s.nodes, c, read).value;
    best := Chosen(s, c);
    PrimaryReadIs(s.nodes, c, read);
    ChosenIsFreshest(s, c);
    PlanIs(s, c, p, dcs);
    if best.Some? {
      AppliedConcat(s, Opening(c, p), Takeover(c, p, Replicas(s.nodes, c), best.value, dcs));
      TakeoverLeaves(s, c, p, Replicas(s.nodes, c), best.value, dcs);
    } else {
      assert Opening(c, p) + [] == Opening(c, p);
      OpeningLeaves(s, c, p);
    }
  }

  /** An order, through the node's agent or, for a node without one, through the sentinel. */
  function OrderTo(n: Node, action: Action, target: Option<Endpoint>): Order {
    Order(if n.agent == "" then "failover-sentinel" else n.agent, n.id, action, target)
  }

  /** What a replaced primary's cluster is ordered to do, node by node. */
  lemma OrdersSent(s: Tables, c: Id, read: Id, now: Time, timeout: Time, dcs: bool, n: Node)
    returns (best: Option<Node>)
    requires UniqueNodes(s.nodes) && PrimaryRead(s.nodes, c, read).Some? && n in s.nodes
    requires var p := PrimaryRead(s.nodes, c, read).value; now - p.lastSeen > timeout && p.status != Promoting
    ensures Freshest(s.nodes, c, best)
    ensures var t, p := Checked(s, c, read, now, timeout, dcs), PrimaryRead(s.nodes, c, read).value;
            OrdersTo(t.orders, n.id) == OrdersTo(s.orders, n.id) +
            if best.None? then []
            else if n.id == best.value.id then [OrderTo(n, PgPromote, None)]
            else if n.id == p.id then [OrderTo(n, PgRewind, Some(best.value.endpoint))]
            else if OnlineReplica(n, c) then [OrderTo(n, RepointReplica, Some(best.value.endpoint))]
            else []
  {
    best := Chosen(s, c);
    PrimaryReadIs(s.nodes, c, read);
    ChosenIsFreshest(s, c);
    FanOutIsExact(s, c, PrimaryRead(s.nodes, c, read).value, dcs, n);
  }
}
