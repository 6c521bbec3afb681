/** What a failover keeps at every crash point, and exactly what it orders the agents to do. */
module FailoverSafety {
  import opened Wrappers
  import opened Commands
  import opened Topology
  import opened Failover

  /** The node table before a failover: distinct rows, and one primary, about to be failed over. */
  ghost predicate IsPrimary(s: Tables, c: Id, failed: Node) {
    UniqueNodes(s.nodes) && failed in s.nodes && InCluster(failed, c, PrimaryRole)
  }

  ghost predicate OnePrimary(s: Tables, c: Id, failed: Node) {
    IsPrimary(s, c, failed) && Members(s.nodes, c, PrimaryRole) == {failed.id}
  }

  // ---- Only two writes change roles ----

  ghost predicate SameFrame(a: seq<Node>, b: seq<Node>) {
    |a| == |b| && forall i | 0 <= i < |a| :: b[i] == a[i].(role := b[i].role, status := b[i].status)
  }

  lemma {:induction false} AppliedFrame(s: Tables, ws: seq<Write>)
    ensures SameFrame(s.nodes, Applied(s, ws).nodes)
  {
    if |ws| > 0 {
      AppliedFrame(s, ws[..|ws| - 1]);
    }
  }

  lemma {:induction false} RepointsAreOrders(replicas: seq<Node>, best: Node)
    ensures forall w <- Repoints(replicas, best) :: w.QueueOrder? && w.action == RepointReplica
  {
    if |replicas| > 0 {
      RepointsAreOrders(replicas[..|replicas| - 1], best);
    }
  }

  lemma ReplicasKept(nodes: seq<Node>, failed: Node, c: Id)
    requires UniqueNodes(nodes) && failed in nodes && failed.role == PrimaryRole
    ensures Replicas(RewriteAll(nodes, SetStatus(failed.id, Offline)), c) == Replicas(nodes, c)
  {
    var i :| 0 <= i < |nodes| && nodes[i] == failed;
    assert forall n <- nodes :: n.id == failed.id ==> n == failed;
    ReplicasOfOthers(nodes, failed.id, c);
  }

  lemma {:induction false} ReplicasOfOthers(nodes: seq<Node>, id: Id, c: Id)
    requires forall n <- nodes :: n.id == id ==> n.role == PrimaryRole
    ensures Replicas(RewriteAll(nodes, SetStatus(id, Offline)), c) == Replicas(nodes, c)
  {
    if |nodes| > 0 {
      assert RewriteAll(nodes, SetStatus(id, Offline))[1..] == RewriteAll(nodes[1..], SetStatus(id, Offline));
      assert nodes[0] in nodes;
      ReplicasOfOthers(nodes[1..], id, c);
    }
  }

  /** The replica a failover of this state promotes. */
  function Chosen(s: Tables, c: Id): Option<Node> {
    Best(Replicas(s.nodes, c))
  }

  lemma ChosenIs(s: Tables, c: Id, failed: Node)
    requires IsPrimary(s, c, failed) && Chosen(s, c).Some?
    ensures var b := Chosen(s, c).value;
            b in s.nodes && InCluster(b, c, ReplicaRole) && b.status == Online && b.id != failed.id
  {
    BestIsReplica(Replicas(s.nodes, c));
    ReplicasAre(s.nodes, c);
  }

  lemma PlanIs(s: Tables, c: Id, failed: Node, dcs: bool)
    requires IsPrimary(s, c, failed)
    ensures Plan(s, c, failed, dcs) == Opening(c, failed) +
            (if Chosen(s, c).None? then [] else Takeover(c, failed, Replicas(s.nodes, c), Chosen(s, c).value, dcs))
    ensures Chosen(s, c).Some? ==> var b := Chosen(s, c).value;
              b in s.nodes && InCluster(b, c, ReplicaRole) && b.status == Online && b.id != failed.id
  {
    AppliedTwo(s, SetStatus(failed.id, Offline), SetClusterStatus(c, ClusterDegraded));
    ReplicasKept(s.nodes, failed, c);
    if Chosen(s, c).Some? {
      ChosenIs(s, c, failed);
    }
  }

  /** The fifth and the seventh write change roles; no other does. */
  lemma RoleWrites(s: Tables, c: Id, failed: Node, dcs: bool, i: nat)
    requires IsPrimary(s, c, failed) && i < |Plan(s, c, failed, dcs)|
    ensures var p := Plan(s, c, failed, dcs); var b := Chosen(s, c);
            && (p[i].SetRole? <==> i == 4 || i == 6)
            && (i == 4 ==> b.Some? && p[i] == SetRole(b.value.id, PrimaryRole))
            && (i == 6 ==> b.Some? && p[i] == SetRole(failed.id, ReplicaRole))
  {
    PlanIs(s, c, failed, dcs);
    if Chosen(s, c).Some? {
      TakeoverRoles(c, failed, Replicas(s.nodes, c), Chosen(s, c).value, dcs, i);
    }
  }

  lemma TakeoverRoles(c: Id, failed: Node, replicas: seq<Node>, b: Node, dcs: bool, i: nat)
    requires failed.id != b.id && i < |Opening(c, failed) + Takeover(c, failed, replicas, b, dcs)|
    ensures var p := Opening(c, failed) + Takeover(c, failed, replicas, b, dcs);
            && (p[i].SetRole? <==> i == 4 || i == 6)
            && (i == 4 ==> p[i] == SetRole(b.id, PrimaryRole)) && (i == 6 ==> p[i] == SetRole(failed.id, ReplicaRole))
  {
    RepointsAreOrders(replicas, b);
    var head := Opening(c, failed) + Promotion(b) + Demotion(failed, b);
    var tail := Repoints(replicas, b) + Rewind(failed, b) + Closing(c, b, dcs);
    NoRoleIn(tail);
    assert Opening(c, failed) + Takeover(c, failed, replicas, b, dcs) == head + tail;
  }

  lemma NoRoleIn(tail: seq<Write>)
    requires forall w <- tail :: w.QueueOrder? || w.SetClusterStatus? || w.SetEtcdPrimary?
    ensures forall w <- tail :: !w.SetRole?
  {
  }

  lemma StepMembers(t: Tables, w: Write, c: Id, r: NodeRole)
    requires UniqueNodes(t.nodes)
    ensures !w.SetRole? ==> Members(Apply(t, w).nodes, c, r) == Members(t.nodes, c, r)
  {
  }

  lemma RoleStep(s: Tables, ws: seq<Write>, n: Node, role: NodeRole, c: Id, r: NodeRole)
    requires UniqueNodes(s.nodes) && n in s.nodes
    ensures var t := Applied(s, ws);
            Members(Apply(t, SetRole(n.id, role)).nodes, c, r) ==
            if n.cluster == Some(c) then Moved(Members(t.nodes, c, r), n.id, r == role) else Members(t.nodes, c, r)
  {
    var t := Applied(s, ws);
    AppliedFrame(s, ws);
    var i :| 0 <= i < |s.nodes| && s.nodes[i] == n;
    RoleMovesMember(t.nodes, t.nodes[i], role, c, r);
  }

  /** Role members of a cluster after the first k writes. */
  function MembersAfter(before: set<Id>, mine: bool, role: NodeRole, failed: Id, best: Id, k: nat): set<Id> {
    var promoted := if mine && k > 4 then Moved(before, best, role == PrimaryRole) else before;
    if mine && k > 6 then Moved(promoted, failed, role == ReplicaRole) else promoted
  }

  lemma AppliedAt(s: Tables, ws: seq<Write>, k: nat)
    requires UniqueNodes(s.nodes) && 0 < k <= |ws|
    ensures var before := Applied(s, ws[..k - 1]);
            Applied(s, ws[..k]) == Apply(before, ws[k - 1]) && UniqueNodes(before.nodes)
  {
    assert ws[..k][..k - 1] == ws[..k - 1];
    AppliedFrame(s, ws[..k - 1]);
  }

  lemma {:induction false} MembersAtCrash(s: Tables, c: Id, failed: Node, dcs: bool, k: nat, d: Id, role: NodeRole)
    requires IsPrimary(s, c, failed) && k <= |Plan(s, c, failed, dcs)|
    ensures var t, b := Applied(s, Plan(s, c, failed, dcs)[..k]), Chosen(s, c);
            Members(t.nodes, d, role) ==
            if b.None? then Members(s.nodes, d, role)
            else MembersAfter(Members(s.nodes, d, role), c == d, role, failed.id, b.value.id, k)
  {
    var p := Plan(s, c, failed, dcs);
    if k == 0 {
      assert p[..0] == [];
    } else {
      MembersAtCrash(s, c, failed, dcs, k - 1, d, role);
      RoleWrites(s, c, failed, dcs, k - 1);
      PlanIs(s, c, failed, dcs);
      AppliedAt(s, p, k);
      StepMembers(Applied(s, p[..k - 1]), p[k - 1], d, role);
      if k == 5 {
        RoleStep(s, p[..4], Chosen(s, c).value, PrimaryRole, d, role);
      } else if k == 7 {
        RoleStep(s, p[..6], failed, ReplicaRole, d, role);
      }
    }
  }

  /**
   At every crash point the cluster has a primary: the old one up to the fifth write, the
   new one from the seventh on, and both in between.
   */
  lemma PrimariesAtCrash(s: Tables, c: Id, failed: Node, dcs: bool, k: nat)
    requires OnePrimary(s, c, failed) && k <= |Plan(s, c, failed, dcs)|
    ensures var t, b := Applied(s, Plan(s, c, failed, dcs)[..k]), Chosen(s, c);
            && Members(t.nodes, c, PrimaryRole) ==
               (if b.None? || k <= 4 then {failed.id} else if k <= 6 then {failed.id, b.value.id} else {b.value.id})
            && (|Members(t.nodes, c, PrimaryRole)| == 2 <==> b.Some? && 5 <= k <= 6)
  {
    MembersAtCrash(s, c, failed, dcs, k, c, PrimaryRole);
    PlanIs(s, c, failed, dcs);
    if Chosen(s, c).Some? {
      assert |{failed.id, Chosen(s, c).value.id}| == 2;
    }
  }

  // ---- Fan-out ----

  function OrdersTo(orders: seq<Order>, id: Id): seq<Order> {
    if |orders| == 0 then []
    else OrdersTo(orders[..|orders| - 1], id) + if orders[|orders| - 1].node == id then [orders[|orders| - 1]] else []
  }

  /** What one write sends to a node. */
  function Sent(w: Write, n: Node): seq<Order> {
    if w.QueueOrder? && w.node == n.id then [OrderFor(n, w.action, w.target)] else []
  }

  function SentAll(ws: seq<Write>, n: Node): seq<Order> {
    if |ws| == 0 then [] else SentAll(ws[..|ws| - 1], n) + Sent(ws[|ws| - 1], n)
  }

  lemma SentConcat(a: seq<Write>, b: seq<Write>, n: Node)
    ensures SentAll(a + b, n) == SentAll(a, n) + SentAll(b, n)
  {
    if |b| == 0 {
      assert a + b == a;
    } else {
      assert (a + b)[..|a| + |b| - 1] == a + b[..|b| - 1];
      SentConcat(a, b[..|b| - 1], n);
    }
  }

  lemma OrdersToSnoc(orders: seq<Order>, o: Order, id: Id)
    ensures OrdersTo(orders + [o], id) == OrdersTo(orders, id) + if o.node == id then [o] else []
  {
  }

  lemma NodeByIdIs(nodes: seq<Node>, id: Id)
    ensures NodeById(nodes, id).Some? ==> NodeById(nodes, id).value.id == id
  {
  }

  lemma ApplySends(s: Tables, ws: seq<Write>, w: Write, n: Node)
    requires UniqueNodes(s.nodes) && n in s.nodes
    ensures OrdersTo(Apply(Applied(s, ws), w).orders, n.id) == OrdersTo(Applied(s, ws).orders, n.id) + Sent(w, n)
  {
    var t := Applied(s, ws);
    AppliedFrame(s, ws);
    if w.QueueOrder? {
      var i :| 0 <= i < |s.nodes| && s.nodes[i] == n;
      NodeByIdIs(t.nodes, w.node);
      if w.node == n.id {
        NodeByIdFinds(t.nodes, t.nodes[i]);
      }
      if NodeById(t.nodes, w.node).Some? {
        OrdersToSnoc(t.orders, OrderFor(NodeById(t.nodes, w.node).value, w.action, w.target), n.id);
      }
    }
  }

  /** A node receives exactly the orders the writes address to it, in order, through its own agent. */
  lemma {:induction false} AppliedSends(s: Tables, ws: seq<Write>, n: Node)
    requires UniqueNodes(s.nodes) && n in s.nodes
    ensures OrdersTo(Applied(s, ws).orders, n.id) == OrdersTo(s.orders, n.id) + SentAll(ws, n)
  {
    if |ws| > 0 {
      AppliedSends(s, ws[..|ws| - 1], n);
      ApplySends(s, ws[..|ws| - 1], ws[|ws| - 1], n);
    }
  }

  lemma NoOrdersSent(ws: seq<Write>, n: Node)
    requires forall w <- ws :: !w.QueueOrder?
    ensures SentAll(ws, n) == []
  {
  }

  lemma RepointSnoc(replicas: seq<Node>, best: Node, n: Node)
    requires replicas != []
    ensures var k := |replicas| - 1; var m := replicas[k];
            SentAll(Repoints(replicas, best), n) == SentAll(Repoints(replicas[..k], best), n) +
            if Repointed(m, best) && m.id == n.id then [OrderFor(n, RepointReplica, Some(best.endpoint))] else []
  {
    var k := |replicas| - 1;
    var w := QueueOrder(replicas[k].id, RepointReplica, Some(best.endpoint));
    if Repointed(replicas[k], best) {
      SentConcat(Repoints(replicas[..k], best), [w], n);
    } else {
      assert Repoints(replicas, best) == Repoints(replicas[..k], best);
    }
  }

  lemma {:induction false} RepointsTo(replicas: seq<Node>, best: Node, n: Node)
    requires UniqueNodes(replicas) && forall r <- replicas :: r.id == n.id ==> r == n
    ensures SentAll(Repoints(replicas, best), n) ==
            if n in replicas && Repointed(n, best) then [OrderFor(n, RepointReplica, Some(best.endpoint))] else []
  {
    if |replicas| > 0 {
      RepointsTo(replicas[..|replicas| - 1], best, n);
      RepointSnoc(replicas, best, n);
      assert replicas[|replicas| - 1] in replicas;
    }
  }

  lemma ReplicasUnique(nodes: seq<Node>, c: Id)
    requires UniqueNodes(nodes)
    ensures UniqueNodes(Replicas(nodes, c))
  {
    if |nodes| > 0 {
      ReplicasUnique(nodes[1..], c);
      ReplicasAre(nodes[1..], c);
      assert forall n <- nodes[1..] :: n.id != nodes[0].id;
    }
  }

  /** The orders of a complete failover, node by node. */
  function Orders(s: Tables, c: Id, failed: Node, best: Node, n: Node): seq<Order> {
    if n.id == best.id then [OrderFor(n, PgPromote, None)]
    else if n.id == failed.id then [OrderFor(n, PgRewind, Some(best.endpoint))]
    else if InCluster(n, c, ReplicaRole) && n.status == Online then [OrderFor(n, RepointReplica, Some(best.endpoint))]
    else []
  }

  lemma SentFive(a: seq<Write>, b: seq<Write>, d: seq<Write>, e: seq<Write>, f: seq<Write>, n: Node)
    ensures SentAll(a + b + d + e + f, n) ==
            SentAll(a, n) + SentAll(b, n) + SentAll(d, n) + SentAll(e, n) + SentAll(f, n)
  {
    SentConcat(a, b, n);
    SentConcat(a + b, d, n);
    SentConcat(a + b + d, e, n);
    SentConcat(a + b + d + e, f, n);
  }

  lemma PromotionSends(best: Node, n: Node)
    ensures SentAll(Promotion(best), n) == Sent(QueueOrder(best.id, PgPromote, None), n)
  {
    var w, rest := QueueOrder(best.id, PgPromote, None), [SetRole(best.id, PrimaryRole), SetStatus(best.id, Online)];
    assert Promotion(best) == [SetStatus(best.id, Promoting)] + [w] + rest;
    SentConcat([SetStatus(best.id, Promoting)] + [w], rest, n);
    SentConcat([SetStatus(best.id, Promoting)], [w], n);
    NoOrdersSent(rest, n);
    NoOrdersSent([SetStatus(best.id, Promoting)], n);
  }

  lemma Glue(a: seq<Order>, d: seq<Order>, e: seq<Order>)
    ensures a + [] + d + e + [] == a + d + e
  {
  }

  lemma TakeoverSends(c: Id, failed: Node, replicas: seq<Node>, best: Node, dcs: bool, n: Node)
    requires failed.id != best.id
    ensures SentAll(Takeover(c, failed, replicas, best, dcs), n) ==
            Sent(QueueOrder(best.id, PgPromote, None), n) + SentAll(Repoints(replicas, best), n) +
            Sent(QueueOrder(failed.id, PgRewind, Some(best.endpoint)), n)
  {
    var b, d, e, f := Demotion(failed, best), Repoints(replicas, best), Rewind(failed, best), Closing(c, best, dcs);
    SentFive(Promotion(best), b, d, e, f, n);
    PromotionSends(best, n);
    NoOrdersSent(b, n);
    NoOrdersSent(f, n);
    Glue(SentAll(Promotion(best), n), SentAll(d, n), SentAll(e, n));
  }

  lemma RepointsOfReplicas(s: Tables, c: Id, best: Node, n: Node)
    requires UniqueNodes(s.nodes) && n in s.nodes
    ensures SentAll(Repoints(Replicas(s.nodes, c), best), n) ==
            if InCluster(n, c, ReplicaRole) && Repointed(n, best)
            then [OrderFor(n, RepointReplica, Some(best.endpoint))] else []
  {
    var rs := Replicas(s.nodes, c);
    ReplicasUnique(s.nodes, c);
    ReplicasAre(s.nodes, c);
    forall r <- rs | r.id == n.id ensures r == n {
      SameNode(s.nodes, r, n);
    }
    RepointsTo(rs, best, n);
  }

  /**
   Fan-out is exact: the promoted node gets one promote, every other online replica one
   repoint to it, the old primary one rewind, and nobody else anything.
   */
  lemma FanOutIsExact(s: Tables, c: Id, failed: Node, dcs: bool, n: Node)
    requires IsPrimary(s, c, failed) && n in s.nodes
    ensures var t, b := Applied(s, Plan(s, c, failed, dcs)), Chosen(s, c);
            OrdersTo(t.orders, n.id) ==
            OrdersTo(s.orders, n.id) + if b.None? then [] else Orders(s, c, failed, b.value, n)
  {
    PlanIs(s, c, failed, dcs);
    AppliedSends(s, Plan(s, c, failed, dcs), n);
    NoOrdersSent(Opening(c, failed), n);
    if Chosen(s, c).None? {
      assert Opening(c, failed) + [] == Opening(c, failed);
    } else {
      var b := Chosen(s, c).value;
      TakeoverOrders(s, c, failed, b, dcs, n);
      SentConcat(Opening(c, failed), Takeover(c, failed, Replicas(s.nodes, c), b, dcs), n);
      assert [] + Orders(s, c, failed, b, n) == Orders(s, c, failed, b, n);
    }
  }

  lemma TakeoverOrders(s: Tables, c: Id, failed: Node, best: Node, dcs: bool, n: Node)
    requires IsPrimary(s, c, failed) && n in s.nodes && best.id != failed.id
    ensures SentAll(Takeover(c, failed, Replicas(s.nodes, c), best, dcs), n) == Orders(s, c, failed, best, n)
  {
    TakeoverSends(c, failed, Replicas(s.nodes, c), best, dcs, n);
    RepointsOfReplicas(s, c, best, n);
    if n.id == failed.id {
      SameNode(s.nodes, n, failed);
    }
  }

  lemma {:induction false} QuietWrites(s: Tables, ws: seq<Write>)
    requires forall w <- ws :: !w.SetEtcdPrimary?
    ensures Applied(s, ws).etcd == s.etcd && Applied(s, ws).clusters.Keys == s.clusters.Keys
  {
    if |ws| > 0 {
      QuietWrites(s, ws[..|ws| - 1]);
    }
  }

  /** Everything but the last two writes. */
  function Body(s: Tables, c: Id, failed: Node, best: Node): seq<Write> {
    Opening(c, failed) + Promotion(best) + Demotion(failed, best)
    + Repoints(Replicas(s.nodes, c), best) + Rewind(failed, best)
  }

  lemma BodyIsQuiet(s: Tables, c: Id, failed: Node, best: Node)
    ensures forall w <- Body(s, c, failed, best) :: !w.SetEtcdPrimary?
  {
    RepointsAreOrders(Replicas(s.nodes, c), best);
  }

  /** A complete failover ends running, and etcd names the primary of the node table. */
  lemma EtcdNamesThePrimary(s: Tables, c: Id, failed: Node)
    requires OnePrimary(s, c, failed) && Chosen(s, c).Some? && c in s.clusters
    ensures var t, b := Applied(s, Plan(s, c, failed, true)), Chosen(s, c).value;
            && t.etcd == s.etcd[c := PrimaryRecord(b.id, b.endpoint)] && Members(t.nodes, c, PrimaryRole) == {b.id}
            && c in t.clusters && t.clusters[c].status == Running
  {
    var b := Chosen(s, c).value;
    PlanIs(s, c, failed, true);
    PlanSplits(s, c, failed, b);
    LastPrimary(s, c, failed);
    BodyIsQuiet(s, c, failed, b);
    Ending(s, Body(s, c, failed, b), c, b);
  }

  lemma PlanSplits(s: Tables, c: Id, failed: Node, b: Node)
    ensures Opening(c, failed) + Takeover(c, failed, Replicas(s.nodes, c), b, true) ==
            Body(s, c, failed, b) + Closing(c, b, true)
  {
  }

  lemma LastPrimary(s: Tables, c: Id, failed: Node)
    requires OnePrimary(s, c, failed) && Chosen(s, c).Some?
    ensures Members(Applied(s, Plan(s, c, failed, true)).nodes, c, PrimaryRole) == {Chosen(s, c).value.id}
  {
    var n := |Plan(s, c, failed, true)|;
    PlanIs(s, c, failed, true);
    PrimariesAtCrash(s, c, failed, true, n);
    assert Plan(s, c, failed, true)[..n] == Plan(s, c, failed, true);
  }

  /** What the last two writes leave after a body that touched neither. */
  lemma Ending(s: Tables, body: seq<Write>, c: Id, b: Node)
    requires c in s.clusters && forall w <- body :: !w.SetEtcdPrimary?
    ensures var t := Applied(s, body + Closing(c, b, true));
            t.etcd == s.etcd[c := PrimaryRecord(b.id, b.endpoint)] && c in t.clusters && t.clusters[c].status == Running
  {
    QuietWrites(s, body);
    AppliedConcat(s, body, Closing(c, b, true));
    AppliedTwo(Applied(s, body), SetClusterStatus(c, Running), SetEtcdPrimary(c, PrimaryRecord(b.id, b.endpoint)));
  }
}
