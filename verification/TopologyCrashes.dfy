/**
 Topology when failovers may crash anywhere, between their role writes included: a cluster
 may then have two primaries for a while, but never none. Concrete inputs show the states in
 which the stronger shape is lost.
 */
module TopologyCrashes {
  import opened Wrappers
  import opened Commands
  import opened Topology
  import opened Failover
  import opened FailoverSafety
  import opened ClusterService
  import opened TopologyRuns

  /** Every cluster has a primary, and no node refers to a missing cluster. */
  ghost predicate Led(s: Tables) {
    && UniqueNodes(s.nodes) && Refers(s.nodes, s.clusters)
    && forall c <- s.clusters :: Members(s.nodes, c, PrimaryRole) != {}
  }

  /** Orderly, but failovers may crash anywhere. */
  ghost predicate Tame(s: Tables, e: TopologyEvent) {
    e.Failover? || Orderly(s, e)
  }

  ghost predicate AllTame(s: Tables, run: seq<TopologyEvent>) {
    forall k | 0 <= k < |run| :: Tame(TopologyRun(s, run[..k]), run[k])
  }

  lemma LedStays(s: Tables, t: Tables, d: Id)
    requires UniqueNodes(s.nodes) && UniqueNodes(t.nodes) && SameIn(s.nodes, t.nodes, d)
    requires Members(s.nodes, d, PrimaryRole) != {}
    ensures Members(t.nodes, d, PrimaryRole) != {}
  {
    OthersUntouched(s.nodes, t.nodes, d, PrimaryRole);
  }

  lemma CreateLeads(s: Tables, r: CreateRequest, c: Id)
    requires Led(s) && c !in s.clusters && Distinct(r.nodeIds)
    ensures Led(Created(s, r, c))
  {
    if Refusal(s, r).None? {
      var t := Created(s, r, c);
      CreatedShapedIff(s, r, c);
      AssignedUnique(s.nodes, r.nodeIds, c);
      CreatedRefers(s, r, c);
      forall d <- t.clusters ensures Members(t.nodes, d, PrimaryRole) != {} {
        if d != c {
          CreatedKeepsOthers(s, r, c, d);
          LedStays(s, t, d);
        }
      }
    }
  }

  lemma DeleteLeads(s: Tables, c: Id, busy: bool)
    requires Led(s)
    ensures Led(Deleted(s, c, busy))
  {
    var t := Deleted(s, c, busy);
    if !(c !in s.clusters || busy || StillOnline(s.nodes, c)) {
      forall d <- t.clusters ensures Members(t.nodes, d, PrimaryRole) != {} {
        ReleasedSame(s.nodes, c, d);
        LedStays(s, t, d);
      }
    }
  }

  /** The promoted replica is a primary before the failed one stops being one. */
  lemma CrashLeads(s: Tables, c: Id, failed: Node, k: nat, d: Id)
    requires IsPrimary(s, c, failed) && k <= |Plan(s, c, failed, true)|
    requires Members(s.nodes, d, PrimaryRole) != {}
    ensures Members(Applied(s, Plan(s, c, failed, true)[..k]).nodes, d, PrimaryRole) != {}
  {
    MembersAtCrash(s, c, failed, true, k, d, PrimaryRole);
    if Chosen(s, c).Some? && c == d && k > 4 {
      ChosenIs(s, c, failed);
      var b := Chosen(s, c).value.id;
      assert b in MembersAfter(Members(s.nodes, d, PrimaryRole), true, PrimaryRole, failed.id, b, k);
    }
  }

  lemma FailoverLeads(s: Tables, c: Id, read: Id, crashAt: nat)
    requires Led(s)
    ensures Led(FailedOver(s, c, read, crashAt))
  {
    var first := PrimaryRead(s.nodes, c, read);
    if first.Some? {
      PrimaryReadIs(s.nodes, c, read);
      var p := Plan(s, c, first.value, true);
      var k := if crashAt <= |p| then crashAt else |p|;
      assert p[..|p|] == p;
      PrefixLeads(s, c, first.value, k);
    }
  }

  lemma PrefixLeads(s: Tables, c: Id, failed: Node, k: nat)
    requires Led(s) && IsPrimary(s, c, failed) && k <= |Plan(s, c, failed, true)|
    ensures Led(Applied(s, Plan(s, c, failed, true)[..k]))
  {
    var ws := Plan(s, c, failed, true)[..k];
    var t := Applied(s, ws);
    AppliedFrame(s, ws);
    AppliedKeepsClusters(s, ws);
    FrameRefers(s, t);
    forall d <- t.clusters ensures Members(t.nodes, d, PrimaryRole) != {} {
      CrashLeads(s, c, failed, k, d);
    }
  }

  lemma RemoveLeads(s: Tables, id: Id)
    requires Led(s) && Unassigned(s.nodes, id)
    ensures Led(s.(nodes := Removed(s.nodes, id)))
  {
    var t := s.(nodes := Removed(s.nodes, id));
    RemovedAre(s.nodes, id);
    if exists n <- s.nodes :: n.id == id {
      var n :| n in s.nodes && n.id == id;
      forall d <- t.clusters ensures Members(t.nodes, d, PrimaryRole) != {} {
        RemovedMembers(s.nodes, n, d, PrimaryRole);
      }
    } else {
      RemovedAbsent(s.nodes, id);
    }
  }

  lemma RegisterLeads(s: Tables, n: Node)
    requires Led(s) && NodeById(s.nodes, n.id).None? && n.cluster.None?
    ensures Led(s.(nodes := s.nodes + [n]))
  {
    var t := s.(nodes := s.nodes + [n]);
    forall m <- s.nodes ensures m.id != n.id {
      NodeByIdFinds(s.nodes, m);
    }
    assert forall i | 0 <= i < |s.nodes| :: s.nodes[i] in s.nodes;
    forall d <- t.clusters ensures Members(t.nodes, d, PrimaryRole) != {} {
      NewcomerOutside(s.nodes, n, d, PrimaryRole);
    }
  }

  lemma BeatLeads(s: Tables, id: Id, status: NodeStatus, lastSeen: Time)
    requires Led(s)
    ensures Led(s.(nodes := BeatRow(s.nodes, id, status, lastSeen)))
  {
    var t := s.(nodes := BeatRow(s.nodes, id, status, lastSeen));
    forall d <- t.clusters ensures Members(t.nodes, d, PrimaryRole) != {} {
      BeatSame(s.nodes, id, status, lastSeen, d);
      LedStays(s, t, d);
    }
  }

  lemma StepLeads(s: Tables, e: TopologyEvent)
    requires Led(s) && Tame(s, e)
    ensures Led(TopologyStep(s, e))
  {
    match e
    case Create(r, id) => CreateLeads(s, r, id);
    case Delete(c, busy) => DeleteLeads(s, c, busy);
    case Failover(c, read, crashAt) => FailoverLeads(s, c, read, crashAt);
    case Register(id, agent, endpoint) =>
      if NodeById(s.nodes, id).None? {
        RegisterLeads(s, Node(id, agent, None, NoRole, Offline, 0, endpoint));
      }
    case Remove(id) => RemoveLeads(s, id);
    case Heartbeat(id, status, lastSeen) => BeatLeads(s, id, status, lastSeen);
    case ClusterReport(_, _) =>
  }

  const EMPTY := Tables([], map[], [], map[])

  /** Over all runs, wherever failovers crash, no cluster is ever without a primary. */
  lemma {:induction false} AlwaysLed(run: seq<TopologyEvent>)
    requires AllTame(EMPTY, run)
    ensures Led(TopologyRun(EMPTY, run))
  {
    if |run| > 0 {
      var n := |run| - 1;
      forall k | 0 <= k < n ensures Tame(TopologyRun(EMPTY, run[..n][..k]), run[..n][k]) {
        assert run[..n][..k] == run[..k];
      }
      AlwaysLed(run[..n]);
      StepLeads(TopologyRun(EMPTY, run[..n]), run[n]);
    }
  }

  // ---- Inputs for which the shape is lost ----

  const HERE := Endpoint("10.0.0.1", 5432)

  const IDLE := Node(0, "agent", None, NoRole, Online, 0, HERE)

  /** A request that lists one node twice is accepted, and the cluster has no primary. */
  lemma NodeListedTwice()
    ensures var s := Tables([IDLE], map[], [], map[]); var r := CreateRequest("db", true, 1, [0, 0]);
            Refusal(s, r).None? && Members(Created(s, r, 7).nodes, 7, PrimaryRole) == {}
  {
    var s, r := Tables([IDLE], map[], [], map[]), CreateRequest("db", true, 1, [0, 0]);
    assert [0, 0][..1] == [0] && [0][..0] == [];
    assert NodeById(s.nodes, 0) == Some(IDLE) && Selected(s.nodes, []) == Some([]);
    assert [] + [IDLE] == [IDLE] && [IDLE] + [IDLE] == [IDLE, IDLE];
    assert Selected(s.nodes, [0]) == Some([IDLE]);
    assert Selected(s.nodes, [0, 0]) == Some([IDLE, IDLE]);
    AssignedMembers(s.nodes, r.nodeIds, 7);
    assert [0, 0][1..] == [0];
  }

  const OLD := Node(0, "a", Some(7), PrimaryRole, Offline, 0, HERE)
  const NEW := Node(1, "b", Some(7), ReplicaRole, Online, 0, HERE)

  /** Five writes into the failover of a two-node cluster both nodes are primaries. */
  lemma TwoPrimaries()
    ensures var s := Tables([OLD, NEW], map[7 := Cluster("db", 1, Running)], [], map[]);
            WellShaped(s) && Members(FailedOver(s, 7, 0, 5).nodes, 7, PrimaryRole) == {0, 1}
  {
    var s := Tables([OLD, NEW], map[7 := Cluster("db", 1, Running)], [], map[]);
    assert Members(s.nodes, 7, PrimaryRole) == {0} by {
      assert s.nodes[0] in s.nodes;
    }
    assert Members(s.nodes, 7, ReplicaRole) == {1} by {
      assert s.nodes[1] in s.nodes;
    }
    assert PrimaryRead(s.nodes, 7, 0) == Some(OLD);
    assert s.nodes[1..] == [NEW] && [NEW][1..] == [];
    assert Replicas([NEW], 7) == [NEW];
    assert Replicas(s.nodes, 7) == [NEW];
    assert [NEW][..0] == [] && Best([]) == None;
    assert Best([NEW]) == Some(NEW);
    PlanIs(s, 7, OLD, true);
    PrimariesAtCrash(s, 7, OLD, true, 5);
  }
}
