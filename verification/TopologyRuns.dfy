/**
 Cluster topology over whole runs: creations, deletions, failovers that complete or crash,
 and arbitrary status reports in between. Failovers do not overlap.
 */
module TopologyRuns {
  import opened Wrappers
  import opened Commands
  import opened Topology
  import opened Failover
  import opened FailoverSafety
  import opened ClusterService

  datatype TopologyEvent =
    | Create(request: CreateRequest, id: Id)
    | Delete(cluster: Id, busy: bool)
    | Failover(failing: Id, read: Id, crashAt: nat)   // the primary row it read; the crash leaves that many writes
    | Register(id: Id, agent: string, endpoint: Endpoint)
    | Remove(removed: Id)                   // a node without agent is deleted, or its deactivation succeeded
    | Heartbeat(node: Id, status: NodeStatus, lastSeen: Time)
    | ClusterReport(reported: Id, clusterStatus: ClusterStatus)

  function Beat(n: Node, id: Id, status: NodeStatus, lastSeen: Time): Node {
    if n.id == id then n.(status := status, lastSeen := lastSeen) else n
  }

  function BeatRow(nodes: seq<Node>, id: Id, status: NodeStatus, lastSeen: Time): (r: seq<Node>)
    ensures |r| == |nodes|
    ensures forall i | 0 <= i < |nodes| :: r[i] == Beat(nodes[i], id, status, lastSeen)
  {
    seq(|nodes|, i requires 0 <= i < |nodes| => Beat(nodes[i], id, status, lastSeen))
  }

  function Removed(nodes: seq<Node>, id: Id): seq<Node> {
    if |nodes| == 0 then []
    else Removed(nodes[..|nodes| - 1], id) + if nodes[|nodes| - 1].id == id then [] else [nodes[|nodes| - 1]]
  }

  function Prefix<T>(s: seq<T>, k: nat): seq<T> {
    if k <= |s| then s[..k] else s
  }

  function FailedOver(s: Tables, c: Id, read: Id, crashAt: nat): Tables {
    var p := PrimaryRead(s.nodes, c, read);
    if p.None? then s else Applied(s, Prefix(Plan(s, c, p.value, true), crashAt))
  }

  function TopologyStep(s: Tables, e: TopologyEvent): Tables {
    match e
    case Create(r, id) => Created(s, r, id)
    case Delete(c, busy) => Deleted(s, c, busy)
    case Failover(c, read, crashAt) => FailedOver(s, c, read, crashAt)
    case Register(id, agent, endpoint) =>
      if NodeById(s.nodes, id).Some? then s
      else s.(nodes := s.nodes + [Node(id, agent, None, NoRole, Offline, 0, endpoint)])
    case Remove(id) => s.(nodes := Removed(s.nodes, id))
    case Heartbeat(id, status, lastSeen) => s.(nodes := BeatRow(s.nodes, id, status, lastSeen))
    case ClusterReport(c, status) => Apply(s, SetClusterStatus(c, status))
  }

  function TopologyRun(s: Tables, run: seq<TopologyEvent>): Tables {
    if |run| == 0 then s else TopologyStep(TopologyRun(s, run[..|run| - 1]), run[|run| - 1])
  }

  ghost predicate Unassigned(nodes: seq<Node>, id: Id) {
    forall n <- nodes :: n.id == id ==> n.cluster.None?
  }

  /**
   What is asked of a step: fresh cluster ids, no node listed twice, no crash between the two
   role writes, and no node taken into a cluster while its deactivation is pending.
   */
  ghost predicate Orderly(s: Tables, e: TopologyEvent) {
    match e
    case Create(r, id) => id !in s.clusters && Distinct(r.nodeIds)
    case Failover(_, _, crashAt) => !(5 <= crashAt <= 6)
    case Remove(id) => Unassigned(s.nodes, id)
    case _ => true
  }

  ghost predicate AllOrderly(s: Tables, run: seq<TopologyEvent>) {
    forall k | 0 <= k < |run| :: Orderly(TopologyRun(s, run[..k]), run[k])
  }

  ghost predicate Refers(nodes: seq<Node>, clusters: map<Id, Cluster>) {
    forall n <- nodes :: n.cluster.Some? ==> n.cluster.value in clusters
  }

  /** Every cluster has one primary and its replicas; no node refers to a missing cluster. */
  ghost predicate WellShaped(s: Tables) {
    && UniqueNodes(s.nodes)
    && Refers(s.nodes, s.clusters)
    && (forall c <- s.clusters :: Shaped(s, c))
  }

  // ---- Creation and deletion ----

  /** The members of one cluster, row by row, are the same. */
  ghost predicate SameIn(a: seq<Node>, b: seq<Node>, d: Id) {
    |a| == |b| && forall i | 0 <= i < |a| ::
      b[i].id == a[i].id && (b[i].cluster == Some(d) <==> a[i].cluster == Some(d))
      && (a[i].cluster == Some(d) ==> b[i].role == a[i].role)
  }

  lemma OthersUntouched(nodes: seq<Node>, after: seq<Node>, d: Id, role: NodeRole)
    requires UniqueNodes(nodes) && UniqueNodes(after) && SameIn(nodes, after, d)
    ensures Members(after, d, role) == Members(nodes, d, role)
  {
  }

  lemma ShapeStays(s: Tables, t: Tables, d: Id)
    requires UniqueNodes(s.nodes) && UniqueNodes(t.nodes) && SameIn(s.nodes, t.nodes, d) && Shaped(s, d)
    requires d in t.clusters && t.clusters[d].replicas == s.clusters[d].replicas
    ensures Shaped(t, d)
  {
    OthersUntouched(s.nodes, t.nodes, d, PrimaryRole);
    OthersUntouched(s.nodes, t.nodes, d, ReplicaRole);
  }

  lemma CreatedKeepsOthers(s: Tables, r: CreateRequest, c: Id, d: Id)
    requires UniqueNodes(s.nodes) && Refusal(s, r).None? && d != c
    ensures SameIn(s.nodes, Assigned(s.nodes, r.nodeIds, c), d)
  {
    var after := Assigned(s.nodes, r.nodeIds, c);
    AcceptedFacts(s, r);
    AssignedAs(s.nodes, r.nodeIds, c);
    forall i | 0 <= i < |s.nodes|
      ensures after[i].id == s.nodes[i].id && (after[i].cluster == Some(d) <==> s.nodes[i].cluster == Some(d))
              && (s.nodes[i].cluster == Some(d) ==> after[i].role == s.nodes[i].role)
    {
      assert JoinedAs(s.nodes[i], after[i], r.nodeIds, c) && s.nodes[i] in s.nodes;
    }
  }

  lemma CreateKeeps(s: Tables, r: CreateRequest, c: Id)
    requires WellShaped(s) && c !in s.clusters && Distinct(r.nodeIds)
    ensures WellShaped(Created(s, r, c))
  {
    if Refusal(s, r).None? {
      var t := Created(s, r, c);
      CreatedShapedIff(s, r, c);
      AssignedUnique(s.nodes, r.nodeIds, c);
      forall d <- t.clusters ensures Shaped(t, d) {
        if d != c {
          CreatedKeepsOthers(s, r, c, d);
          ShapeStays(s, t, d);
        }
      }
      CreatedRefers(s, r, c);
    }
  }

  lemma CreatedRefers(s: Tables, r: CreateRequest, c: Id)
    requires UniqueNodes(s.nodes) && Refers(s.nodes, s.clusters) && Refusal(s, r).None?
    ensures Refers(Created(s, r, c).nodes, Created(s, r, c).clusters)
  {
    var after := Assigned(s.nodes, r.nodeIds, c);
    AcceptedFacts(s, r);
    AssignedAs(s.nodes, r.nodeIds, c);
    forall n <- after ensures n.cluster.Some? ==> n.cluster.value == c || n.cluster.value in s.clusters {
      var i :| 0 <= i < |after| && after[i] == n;
      assert JoinedAs(s.nodes[i], after[i], r.nodeIds, c) && s.nodes[i] in s.nodes;
    }
  }

  lemma ReleasedSame(nodes: seq<Node>, c: Id, d: Id)
    requires d != c
    ensures SameIn(nodes, Released(nodes, c), d)
  {
  }

  lemma DeleteKeeps(s: Tables, c: Id, busy: bool)
    requires WellShaped(s)
    ensures WellShaped(Deleted(s, c, busy))
  {
    var t := Deleted(s, c, busy);
    if !(c !in s.clusters || busy || StillOnline(s.nodes, c)) {
      forall d <- t.clusters ensures Shaped(t, d) {
        ReleasedSame(s.nodes, c, d);
        ShapeStays(s, t, d);
      }
    }
  }

  // ---- Failover ----

  lemma FirstPrimaryIs(nodes: seq<Node>, c: Id)
    ensures FirstPrimary(nodes, c).Some? ==>
              FirstPrimary(nodes, c).value in nodes && InCluster(FirstPrimary(nodes, c).value, c, PrimaryRole)
  {
  }

  /** Whichever primary the query returns, it returns one if there is one. */
  lemma PrimaryReadIs(nodes: seq<Node>, c: Id, read: Id)
    ensures PrimaryRead(nodes, c, read).Some? <==> exists n <- nodes :: InCluster(n, c, PrimaryRole)
    ensures PrimaryRead(nodes, c, read).Some? ==>
              PrimaryRead(nodes, c, read).value in nodes && InCluster(PrimaryRead(nodes, c, read).value, c, PrimaryRole)
  {
    FirstPrimaryIs(nodes, c);
    if NodeById(nodes, read).Some? {
      NodeByIdIn(nodes, read);
    }
    if exists n <- nodes :: InCluster(n, c, PrimaryRole) {
      var i :| 0 <= i < |nodes| && InCluster(nodes[i], c, PrimaryRole);
      SomeFirst(nodes, c, i);
    }
  }

  lemma ThePrimary(s: Tables, c: Id, read: Id)
    requires WellShaped(s) && PrimaryRead(s.nodes, c, read).Some?
    ensures c in s.clusters && OnePrimary(s, c, PrimaryRead(s.nodes, c, read).value)
  {
    PrimaryReadIs(s.nodes, c, read);
    var p := PrimaryRead(s.nodes, c, read).value;
    assert Shaped(s, c);
    assert p.id in Members(s.nodes, c, PrimaryRole);
    Singleton(Members(s.nodes, c, PrimaryRole), p.id);
  }

  lemma Singleton(s: set<Id>, x: Id)
    requires |s| == 1 && x in s
    ensures s == {x}
  {
    assert |s - {x}| == 0;
  }

  lemma {:induction false} AppliedKeepsClusters(s: Tables, ws: seq<Write>)
    ensures Applied(s, ws).clusters.Keys == s.clusters.Keys
    ensures forall c <- s.clusters :: Applied(s, ws).clusters[c].replicas == s.clusters[c].replicas
  {
    if |ws| > 0 {
      AppliedKeepsClusters(s, ws[..|ws| - 1]);
    }
  }

  /** Two members that change places leave the sizes as they were. */
  lemma SwapKeepsSizes(s: Tables, c: Id, failed: Node, best: Id)
    requires OnePrimary(s, c, failed) && best in Members(s.nodes, c, ReplicaRole) && failed.id != best
    requires failed.id !in Members(s.nodes, c, ReplicaRole)
    ensures |MembersAfter(Members(s.nodes, c, PrimaryRole), true, PrimaryRole, failed.id, best, 7)|
            == |Members(s.nodes, c, PrimaryRole)|
    ensures |MembersAfter(Members(s.nodes, c, ReplicaRole), true, ReplicaRole, failed.id, best, 7)|
            == |Members(s.nodes, c, ReplicaRole)|
  {
    Swapped(Members(s.nodes, c, ReplicaRole), best, failed.id);
    Swapped(Members(s.nodes, c, PrimaryRole), failed.id, best);
  }

  lemma CrashSizes(s: Tables, c: Id, failed: Node, k: nat, d: Id)
    requires OnePrimary(s, c, failed) && k <= |Plan(s, c, failed, true)| && !(5 <= k <= 6)
    ensures var t := Applied(s, Plan(s, c, failed, true)[..k]);
            && |Members(t.nodes, d, PrimaryRole)| == |Members(s.nodes, d, PrimaryRole)|
            && |Members(t.nodes, d, ReplicaRole)| == |Members(s.nodes, d, ReplicaRole)|
  {
    MembersAtCrash(s, c, failed, true, k, d, PrimaryRole);
    MembersAtCrash(s, c, failed, true, k, d, ReplicaRole);
    PlanIs(s, c, failed, true);
    if Chosen(s, c).Some? && k > 6 && c == d {
      var b := Chosen(s, c).value;
      assert b.id in Members(s.nodes, c, ReplicaRole);
      NotReplica(s.nodes, c, failed);
      SwapKeepsSizes(s, c, failed, b.id);
    }
  }

  lemma NotReplica(nodes: seq<Node>, c: Id, n: Node)
    requires UniqueNodes(nodes) && n in nodes && InCluster(n, c, PrimaryRole)
    ensures n.id !in Members(nodes, c, ReplicaRole)
  {
    var i :| 0 <= i < |nodes| && nodes[i] == n;
    MemberAt(nodes, i, c, ReplicaRole);
  }

  lemma CrashShape(s: Tables, c: Id, failed: Node, k: nat, d: Id)
    requires WellShaped(s) && OnePrimary(s, c, failed) && c in s.clusters && d in s.clusters
    requires k <= |Plan(s, c, failed, true)| && !(5 <= k <= 6)
    ensures Shaped(Applied(s, Plan(s, c, failed, true)[..k]), d)
  {
    AppliedKeepsClusters(s, Plan(s, c, failed, true)[..k]);
    CrashSizes(s, c, failed, k, d);
    assert Shaped(s, d);
  }

  lemma Swapped(members: set<Id>, leaves: Id, joins: Id)
    requires leaves in members && joins !in members
    ensures |Topology.Moved(Topology.Moved(members, leaves, false), joins, true)| == |members|
    ensures |Topology.Moved(Topology.Moved(members, joins, true), leaves, false)| == |members|
  {
  }

  lemma FrameRefers(s: Tables, t: Tables)
    requires Refers(s.nodes, s.clusters) && SameFrame(s.nodes, t.nodes) && t.clusters.Keys == s.clusters.Keys
    ensures Refers(t.nodes, t.clusters)
  {
  }

  lemma CrashKeeps(s: Tables, c: Id, failed: Node, k: nat)
    requires WellShaped(s) && OnePrimary(s, c, failed) && c in s.clusters
    requires k <= |Plan(s, c, failed, true)| && !(5 <= k <= 6)
    ensures WellShaped(Applied(s, Plan(s, c, failed, true)[..k]))
  {
    var ws := Plan(s, c, failed, true)[..k];
    var t := Applied(s, ws);
    AppliedFrame(s, ws);
    AppliedKeepsClusters(s, ws);
    FrameRefers(s, t);
    forall d <- t.clusters ensures Shaped(t, d) {
      CrashShape(s, c, failed, k, d);
    }
  }

  lemma FailoverKeeps(s: Tables, c: Id, read: Id, crashAt: nat)
    requires WellShaped(s) && !(5 <= crashAt <= 6)
    ensures WellShaped(FailedOver(s, c, read, crashAt))
  {
    if PrimaryRead(s.nodes, c, read).Some? {
      var failed := PrimaryRead(s.nodes, c, read).value;
      ThePrimary(s, c, read);
      var p := Plan(s, c, failed, true);
      var k := if crashAt <= |p| then crashAt else |p|;
      assert p[..|p|] == p;
      CrashKeeps(s, c, failed, k);
    }
  }

  // ---- The other events ----

  lemma RegisterKeeps(s: Tables, n: Node)
    requires WellShaped(s) && NodeById(s.nodes, n.id).None? && n.cluster.None?
    ensures WellShaped(s.(nodes := s.nodes + [n]))
  {
    var t := s.(nodes := s.nodes + [n]);
    forall m <- s.nodes ensures m.id != n.id {
      NodeByIdFinds(s.nodes, m);
    }
    assert forall i | 0 <= i < |s.nodes| :: s.nodes[i] in s.nodes;
    assert UniqueNodes(t.nodes);
    forall d <- t.clusters ensures Shaped(t, d) {
      NewcomerOutside(s.nodes, n, d, PrimaryRole);
      NewcomerOutside(s.nodes, n, d, ReplicaRole);
      assert Shaped(s, d);
    }
  }

  lemma NewcomerOutside(nodes: seq<Node>, n: Node, d: Id, role: NodeRole)
    requires n.cluster.None?
    ensures Members(nodes + [n], d, role) == Members(nodes, d, role)
  {
  }

  lemma {:induction false} RemovedAre(nodes: seq<Node>, id: Id)
    requires UniqueNodes(nodes)
    ensures forall n :: n in Removed(nodes, id) <==> n in nodes && n.id != id
    ensures UniqueNodes(Removed(nodes, id))
  {
    if |nodes| > 0 {
      var n := |nodes| - 1;
      RemovedAre(nodes[..n], id);
      assert nodes == nodes[..n] + [nodes[n]];
      var rest := Removed(nodes[..n], id);
      forall i | 0 <= i < |rest| ensures rest[i].id != nodes[n].id {
        assert rest[i] in nodes[..n];
        var k :| 0 <= k < n && nodes[..n][k] == rest[i];
        assert nodes[k].id != nodes[n].id;
      }
    }
  }

  /** A removed node leaves the members of its cluster and role, and no others. */
  lemma RemovedMembers(nodes: seq<Node>, n: Node, d: Id, role: NodeRole)
    requires UniqueNodes(nodes) && n in nodes
    ensures Members(Removed(nodes, n.id), d, role) ==
            if InCluster(n, d, role) then Members(nodes, d, role) - {n.id} else Members(nodes, d, role)
    ensures InCluster(n, d, role) ==> n.id in Members(nodes, d, role)
  {
    RemovedAre(nodes, n.id);
    forall x ensures x in Members(Removed(nodes, n.id), d, role) <==>
                     x in Members(nodes, d, role) && (InCluster(n, d, role) ==> x != n.id)
    {
      if x in Members(nodes, d, role) && (InCluster(n, d, role) ==> x != n.id) {
        var i := MemberIndex(nodes, d, role, x);
        if x == n.id {
          SameNode(nodes, nodes[i], n);
        }
      }
    }
  }

  lemma RemovedShape(s: Tables, n: Node, d: Id)
    requires UniqueNodes(s.nodes) && n in s.nodes && Shaped(s, d)
    ensures Shaped(s.(nodes := Removed(s.nodes, n.id)), d) <==>
            !InCluster(n, d, PrimaryRole) && !InCluster(n, d, ReplicaRole)
  {
    RemovedMembers(s.nodes, n, d, PrimaryRole);
    RemovedMembers(s.nodes, n, d, ReplicaRole);
  }

  /** Removing a node keeps every cluster's shape iff it holds no role in any: the deactivation must have come first. */
  lemma RemovalKeepsIff(s: Tables, n: Node)
    requires WellShaped(s) && n in s.nodes
    ensures WellShaped(s.(nodes := Removed(s.nodes, n.id))) <==> n.cluster.None? || n.role == NoRole
  {
    RemovedAre(s.nodes, n.id);
    forall d <- s.clusters
      ensures Shaped(s.(nodes := Removed(s.nodes, n.id)), d) <==>
              !InCluster(n, d, PrimaryRole) && !InCluster(n, d, ReplicaRole)
    {
      RemovedShape(s, n, d);
    }
  }

  lemma {:induction false} RemovedAbsent(nodes: seq<Node>, id: Id)
    requires forall n <- nodes :: n.id != id
    ensures Removed(nodes, id) == nodes
  {
    if |nodes| > 0 {
      RemovedAbsent(nodes[..|nodes| - 1], id);
    }
  }

  lemma RemoveKeeps(s: Tables, id: Id)
    requires WellShaped(s) && Unassigned(s.nodes, id)
    ensures WellShaped(s.(nodes := Removed(s.nodes, id)))
  {
    if exists n <- s.nodes :: n.id == id {
      var n :| n in s.nodes && n.id == id;
      RemovalKeepsIff(s, n);
    } else {
      RemovedAbsent(s.nodes, id);
    }
  }

  lemma BeatSame(nodes: seq<Node>, id: Id, status: NodeStatus, lastSeen: Time, d: Id)
    ensures SameIn(nodes, BeatRow(nodes, id, status, lastSeen), d)
  {
  }

  lemma BeatKeeps(s: Tables, id: Id, status: NodeStatus, lastSeen: Time)
    requires WellShaped(s)
    ensures WellShaped(s.(nodes := BeatRow(s.nodes, id, status, lastSeen)))
  {
    var t := s.(nodes := BeatRow(s.nodes, id, status, lastSeen));
    forall d <- t.clusters ensures Shaped(t, d) {
      BeatSame(s.nodes, id, status, lastSeen, d);
      ShapeStays(s, t, d);
    }
  }

  lemma StatusKeeps(s: Tables, c: Id, status: ClusterStatus)
    requires WellShaped(s)
    ensures WellShaped(Apply(s, SetClusterStatus(c, status)))
  {
  }

  lemma StepKeeps(s: Tables, e: TopologyEvent)
    requires WellShaped(s) && Orderly(s, e)
    ensures WellShaped(TopologyStep(s, e))
  {
    match e
    case Create(r, id) => CreateKeeps(s, r, id);
    case Delete(c, busy) => DeleteKeeps(s, c, busy);
    case Failover(c, read, crashAt) => FailoverKeeps(s, c, read, crashAt);
    case Register(id, agent, endpoint) =>
      if NodeById(s.nodes, id).None? {
        RegisterKeeps(s, Node(id, agent, None, NoRole, Offline, 0, endpoint));
      }
    case Remove(id) => RemoveKeeps(s, id);
    case Heartbeat(id, status, lastSeen) => BeatKeeps(s, id, status, lastSeen);
    case ClusterReport(c, status) => StatusKeeps(s, c, status);
  }

  /** From empty tables on, every cluster has exactly one primary and its replicas, and no node dangles. */
  lemma {:induction false} TopologyHolds(run: seq<TopologyEvent>)
    requires AllOrderly(Tables([], map[], [], map[]), run)
    ensures WellShaped(TopologyRun(Tables([], map[], [], map[]), run))
  {
    var empty := Tables([], map[], [], map[]);
    if |run| > 0 {
      var n := |run| - 1;
      forall k | 0 <= k < n ensures Orderly(TopologyRun(empty, run[..n][..k]), run[..n][k]) {
        assert run[..n][..k] == run[..k];
      }
      TopologyHolds(run[..n]);
      StepKeeps(TopologyRun(empty, run[..n]), run[n]);
    }
  }

  /** A crash between the two role writes leaves two primaries, exactly when there is a replica to promote. */
  lemma CrashBetweenRoleWrites(s: Tables, c: Id, read: Id, crashAt: nat)
    requires WellShaped(s) && c in s.clusters && 5 <= crashAt <= 6
    ensures Shaped(FailedOver(s, c, read, crashAt), c) <==> Chosen(s, c).None?
  {
    assert Shaped(s, c);
    HasPrimary(s.nodes, c, read);
    ThePrimary(s, c, read);
    var failed := PrimaryRead(s.nodes, c, read).value;
    var p := Plan(s, c, failed, true);
    PlanIs(s, c, failed, true);
    if Chosen(s, c).Some? {
      assert |p| > 6 && Prefix(p, crashAt) == p[..crashAt];
      PrimariesAtCrash(s, c, failed, true, crashAt);
    } else {
      assert Prefix(p, crashAt) == p[..2];
      CrashShape(s, c, failed, 2, c);
    }
  }

  lemma HasPrimary(nodes: seq<Node>, c: Id, read: Id)
    requires |Members(nodes, c, PrimaryRole)| == 1
    ensures PrimaryRead(nodes, c, read).Some?
  {
    var x :| x in Members(nodes, c, PrimaryRole);
    var i := MemberIndex(nodes, c, PrimaryRole, x);
    PrimaryReadIs(nodes, c, read);
  }

  lemma SomeFirst(nodes: seq<Node>, c: Id, i: nat)
    requires i < |nodes| && InCluster(nodes[i], c, PrimaryRole)
    ensures FirstPrimary(nodes, c).Some?
  {
    if i > 0 {
      SomeFirst(nodes[1..], c, i - 1);
    }
  }
}
