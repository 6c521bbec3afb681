/**
 Failover as the sequence of single-row writes it is: choice of the replica, role changes,
 fan-out of orders. A crash leaves a prefix of the writes applied.
 */
module Failover {
  import opened Wrappers
  import opened Commands
  import opened Topology

  /** Freshest heartbeat among the online replicas; the earliest row wins a tie. */
  function Best(replicas: seq<Node>): Option<Node> {
    if |replicas| == 0 then None
    else
      var n := |replicas| - 1;
      var b := Best(replicas[..n]);
      if replicas[n].status == Online && (b.None? || replicas[n].lastSeen > b.value.lastSeen)
      then Some(replicas[n]) else b
  }

  function Opening(c: Id, failed: Node): seq<Write> {
    [SetStatus(failed.id, Offline), SetClusterStatus(c, ClusterDegraded)]
  }

  predicate Repointed(n: Node, best: Node) {
    n.id != best.id && n.status == Online
  }

  function Repoints(replicas: seq<Node>, best: Node): seq<Write> {
    if |replicas| == 0 then []
    else
      var n := |replicas| - 1;
      Repoints(replicas[..n], best) +
      if Repointed(replicas[n], best) then [QueueOrder(replicas[n].id, RepointReplica, Some(best.endpoint))] else []
  }

  function Promotion(best: Node): seq<Write> {
    [SetStatus(best.id, Promoting), QueueOrder(best.id, PgPromote, None), SetRole(best.id, PrimaryRole),
     SetStatus(best.id, Online)]
  }

  function Demotion(failed: Node, best: Node): seq<Write> {
    if failed.id != best.id then [SetRole(failed.id, ReplicaRole)] else []
  }

  function Rewind(failed: Node, best: Node): seq<Write> {
    if failed.id != best.id then [QueueOrder(failed.id, PgRewind, Some(best.endpoint))] else []
  }

  function Closing(c: Id, best: Node, dcs: bool): seq<Write> {
    [SetClusterStatus(c, Running)] +
    if dcs then [SetEtcdPrimary(c, PrimaryRecord(best.id, best.endpoint))] else []
  }

  function Takeover(c: Id, failed: Node, replicas: seq<Node>, best: Node, dcs: bool): seq<Write> {
    Promotion(best) + Demotion(failed, best) + Repoints(replicas, best) + Rewind(failed, best) + Closing(c, best, dcs)
  }

  /** Every write of one failover, in order. */
  function Plan(s: Tables, c: Id, failed: Node, dcs: bool): seq<Write> {
    var replicas := Replicas(Applied(s, Opening(c, failed)).nodes, c);
    var best := Best(replicas);
    Opening(c, failed) + if best.None? then [] else Takeover(c, failed, replicas, best.value, dcs)
  }

  function FirstPrimary(nodes: seq<Node>, c: Id): Option<Node> {
    if |nodes| == 0 then None
    else if InCluster(nodes[0], c, PrimaryRole) then Some(nodes[0])
    else FirstPrimary(nodes[1..], c)
  }

  /** LIMIT 1 without an order: some primary of the cluster, `read` if it is one. */
  function PrimaryRead(nodes: seq<Node>, c: Id, read: Id): Option<Node> {
    var n := NodeById(nodes, read);
    if n.Some? && InCluster(n.value, c, PrimaryRole) then n else FirstPrimary(nodes, c)
  }

  predicate Overdue(primary: Node, now: Time, timeout: Time) {
    now - primary.lastSeen > timeout && primary.status != Promoting
  }

  /** One health check: a failover of the primary it read, or nothing. */
  function Checked(s: Tables, c: Id, read: Id, now: Time, timeout: Time, dcs: bool): Tables {
    var p := PrimaryRead(s.nodes, c, read);
    if p.Some? && Overdue(p.value, now, timeout) then Applied(s, Plan(s, c, p.value, dcs)) else s
  }

  class FailoverEngine {
    const db: TopologyStore
    const dcs: bool
    const heartbeatTimeout: Time

    constructor (db: TopologyStore, dcs: bool, heartbeatTimeout: Time)
      ensures this.db == db && this.dcs == dcs && this.heartbeatTimeout == heartbeatTimeout
    {
      this.db, this.dcs, this.heartbeatTimeout := db, dcs, heartbeatTimeout;
    }

    method SelectBest(replicas: seq<Node>) returns (best: Option<Node>)
      ensures best == Best(replicas)
    {
      best := None;
      var i := 0;
      while i < |replicas|
        invariant 0 <= i <= |replicas| && best == Best(replicas[..i])
      {
        assert replicas[..i + 1][..i] == replicas[..i];
        if replicas[i].status == Online && (best.None? || replicas[i].lastSeen > best.value.lastSeen) {
          best := Some(replicas[i]);
        }
        i := i + 1;
      }
      assert replicas[..i] == replicas;
    }

    method RepointReplicas(replicas: seq<Node>, best: Node)
      modifies db
      ensures db.State() == Applied(old(db.State()), Repoints(replicas, best))
    {
      ghost var s := db.State();
      var i := 0;
      while i < |replicas|
        invariant 0 <= i <= |replicas|
        invariant db.State() == Applied(s, Repoints(replicas[..i], best))
      {
        assert replicas[..i + 1][..i] == replicas[..i];
        ghost var done := Repoints(replicas[..i], best);
        if replicas[i].id != best.id && replicas[i].status == Online {
          AppliedSnoc(s, done, QueueOrder(replicas[i].id, RepointReplica, Some(best.endpoint)));
          var _ := db.CreateCommand(replicas[i].id, RepointReplica, Some(best.endpoint));
          assert Repoints(replicas[..i + 1], best) ==
              done + [QueueOrder(replicas[i].id, RepointReplica, Some(best.endpoint))];
        } else {
          assert Repoints(replicas[..i + 1], best) == done;
        }
        i := i + 1;
      }
      assert replicas[..i] == replicas;
    }

    method Promote(best: Node)
      requires NodeById(db.nodes, best.id).Some?
      modifies db
      ensures db.State() == Applied(old(db.State()), Promotion(best))
    {
      AppliedFour(db.State(), SetStatus(best.id, Promoting), QueueOrder(best.id, PgPromote, None),
                  SetRole(best.id, PrimaryRole), SetStatus(best.id, Online));
      db.UpdateStatus(best.id, Promoting);
      NodeByIdRewritten(old(db.nodes), SetStatus(best.id, Promoting), best.id);
      var ok := db.CreateCommand(best.id, PgPromote, None);
      if !ok {
        return;
      }
      db.UpdateRole(best.id, PrimaryRole);
      db.UpdateStatus(best.id, Online);
    }

    method Demote(failed: Node, best: Node)
      modifies db
      ensures db.State() == Applied(old(db.State()), Demotion(failed, best))
    {
      if failed.id != best.id {
        AppliedOne(db.State(), SetRole(failed.id, ReplicaRole));
        db.UpdateRole(failed.id, ReplicaRole);
      }
    }

    method RewindOld(failed: Node, best: Node)
      modifies db
      ensures db.State() == Applied(old(db.State()), Rewind(failed, best))
    {
      if failed.id != best.id {
        AppliedOne(db.State(), QueueOrder(failed.id, PgRewind, Some(best.endpoint)));
        var _ := db.CreateCommand(failed.id, PgRewind, Some(best.endpoint));
      }
    }

    method Close(c: Id, best: Node)
      modifies db
      ensures db.State() == Applied(old(db.State()), Closing(c, best, dcs))
    {
      ghost var s := db.State();
      AppliedOne(s, SetClusterStatus(c, Running));
      db.UpdateClusterStatus(c, Running);
      if dcs {
        AppliedSnoc(s, [SetClusterStatus(c, Running)], SetEtcdPrimary(c, PrimaryRecord(best.id, best.endpoint)));
        db.SetPrimary(c, PrimaryRecord(best.id, best.endpoint));
      } else {
        assert Closing(c, best, dcs) == [SetClusterStatus(c, Running)];
      }
    }

    method TakeOver(c: Id, failed: Node, replicas: seq<Node>, best: Node)
      requires NodeById(db.nodes, best.id).Some?
      modifies db
      ensures db.State() == Applied(old(db.State()), Takeover(c, failed, replicas, best, dcs))
    {
      TakeoverInStages(db.State(), c, failed, replicas, best, dcs);
      Promote(best);
      Demote(failed, best);
      RepointReplicas(replicas, best);
      RewindOld(failed, best);
      Close(c, best);
    }

    method ExecuteFailover(c: Id, failed: Node)
      modifies db
      ensures db.State() == Applied(old(db.State()), Plan(old(db.State()), c, failed, dcs))
    {
      ghost var s := db.State();
      ghost var opening := Opening(c, failed);
      AppliedTwo(s, SetStatus(failed.id, Offline), SetClusterStatus(c, ClusterDegraded));
      db.UpdateStatus(failed.id, Offline);
      db.UpdateClusterStatus(c, ClusterDegraded);
      assert opening + [] == opening && db.State() == Applied(s, opening);
      var replicas := Replicas(db.nodes, c);
      if |replicas| == 0 {
        return;
      }
      var best := SelectBest(replicas);
      if best.None? {
        return;
      }
      BestIsReplica(replicas);
      ReplicasAre(db.nodes, c);
      NodeByIdSome(db.nodes, best.value);
      TakeOver(c, failed, replicas, best.value);
      AppliedConcat(s, opening, Takeover(c, failed, replicas, best.value, dcs));
    }

    method CheckClusterHealth(c: Id, read: Id, now: Time)
      modifies db
      ensures db.State() == Checked(old(db.State()), c, read, now, heartbeatTimeout, dcs)
    {
      var primary := PrimaryRead(db.nodes, c, read);
      if primary.None? {
        return;
      }
      if now - primary.value.lastSeen <= heartbeatTimeout {
        return;
      }
      if primary.value.status == Promoting {
        return;
      }
      ExecuteFailover(c, primary.value);
    }
  }

  lemma TakeoverInStages(s: Tables, c: Id, failed: Node, replicas: seq<Node>, best: Node, dcs: bool)
    ensures Applied(s, Takeover(c, failed, replicas, best, dcs)) ==
            Applied(Applied(Applied(Applied(Applied(s, Promotion(best)), Demotion(failed, best)),
                Repoints(replicas, best)),
                            Rewind(failed, best)), Closing(c, best, dcs))
  {
    var a := Promotion(best);
    var b := a + Demotion(failed, best);
    var d := b + Repoints(replicas, best);
    AppliedConcat(s, a, Demotion(failed, best));
    AppliedConcat(s, b, Repoints(replicas, best));
    AppliedConcat(s, d, Rewind(failed, best));
    AppliedConcat(s, d + Rewind(failed, best), Closing(c, best, dcs));
  }

  lemma BestIsReplica(replicas: seq<Node>)
    ensures Best(replicas).Some? ==> Best(replicas).value in replicas && Best(replicas).value.status == Online
  {
  }

  ghost predicate Freshest(replicas: seq<Node>, k: nat)
    requires k < |replicas|
  {
    && replicas[k].status == Online
    && (forall j | 0 <= j < |replicas| && replicas[j].status == Online :: replicas[j].lastSeen <= replicas[k].lastSeen)
    && (forall j | 0 <= j < k && replicas[j].status == Online :: replicas[j].lastSeen < replicas[k].lastSeen)
  }

  /**
   The chosen replica is online with the freshest heartbeat, the earliest row among ties,
   and missing only if none is.
   */
  lemma {:induction false} BestIsFreshest(replicas: seq<Node>)
    ensures match Best(replicas)
            case None => forall n <- replicas :: n.status != Online
            case Some(b) => exists k | 0 <= k < |replicas| :: replicas[k] == b && Freshest(replicas, k)
  {
    if |replicas| > 0 {
      var n := |replicas| - 1;
      var before := replicas[..n];
      BestIsFreshest(before);
      if Best(before).Some? {
        var k :| 0 <= k < n && before[k] == Best(before).value && Freshest(before, k);
        if Best(replicas) == Best(before) {
          assert Freshest(replicas, k);
        } else {
          assert forall j | 0 <= j < n && replicas[j].status == Online :: before[j].lastSeen <= before[k].lastSeen;
          assert Freshest(replicas, n);
        }
      } else {
        assert forall j | 0 <= j < n :: before[j] in before && replicas[j].status != Online;
        if Best(replicas).Some? {
          assert Freshest(replicas, n);
        }
      }
    }
  }
}
