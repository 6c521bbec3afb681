/**
 What the thousand-row limit of the provisioning decision costs: the decision can be trusted,
 whatever the statuses of the commands, iff no provisioning command of the cluster stands
 beyond the limit.
 */
module ProvisioningLimit {
  import opened Wrappers
  import opened Commands
  import opened AgentCommandRepo
  import opened Provisioning

  ghost predicate AllCompleted(s: Site, c: Id)
    requires c in s.clusters
  {
    forall x <- HostCommands(s, c) :: Counts(x, s.clusters[c].createdAt) ==> x.status == Completed
  }

  /** No provisioning command of this cluster's creation is beyond what a decision reads. */
  ghost predicate NoneBeyond(s: Site, c: Id)
    requires c in s.clusters
  {
    forall i | LIST_LIMIT <= i < |HostCommands(s, c)| :: !Counts(HostCommands(s, c)[i], s.clusters[c].createdAt)
  }

  /** For a cluster decided running: all its commands completed iff those beyond the limit did. */
  lemma RunningSoundIff(s: Site, c: Id)
    requires c in s.clusters && s.clusters[c].phase == Creating && Decided(s, c).clusters[c].phase == Running
    ensures AllCompleted(s, c) <==>
            forall i | LIST_LIMIT <= i < |HostCommands(s, c)| ::
              Counts(HostCommands(s, c)[i], s.clusters[c].createdAt) ==> HostCommands(s, c)[i].status == Completed
  {
    var cmds := HostCommands(s, c);
    forall i | 0 <= i < |cmds| && i < LIST_LIMIT && Counts(cmds[i], s.clusters[c].createdAt)
      ensures cmds[i].status == Completed
    {
      RunningMeansCompleted(s, c, i);
    }
  }

  ghost predicate SameRow(a: Command, b: Command) {
    b == a.(status := b.status)
  }

  /** The same rows with other statuses of commands and other installation states. */
  ghost predicate Variant(s: Site, t: Site) {
    && t.clusters == s.clusters
    && |t.hosts| == |s.hosts| && (forall i | 0 <= i < |s.hosts| :: t.hosts[i] == s.hosts[i].(state := t.hosts[i].state))
    && |t.commands| == |s.commands| && forall i | 0 <= i < |s.commands| :: SameRow(s.commands[i], t.commands[i])
  }

  lemma {:induction false} SameOfNodes(a: seq<Command>, b: seq<Command>, nodes: set<Id>)
    requires |a| == |b| && forall i | 0 <= i < |a| :: SameRow(a[i], b[i])
    ensures var x, y := OfNodes(a, nodes), OfNodes(b, nodes);
            |x| == |y| && forall i | 0 <= i < |x| :: SameRow(x[i], y[i])
  {
    if |a| > 0 {
      assert SameRow(a[|a| - 1], b[|b| - 1]);
      SameOfNodes(a[..|a| - 1], b[..|b| - 1], nodes);
    }
  }

  /** Where the i-th command of the hosts stands in the table. */
  lemma {:induction false} OfNodesAt(t: seq<Command>, nodes: set<Id>, i: nat) returns (k: nat)
    requires i < |OfNodes(t, nodes)|
    ensures k < |t| && t[k] == OfNodes(t, nodes)[i] && |OfNodes(t[..k], nodes)| == i && t[k].nodeId in nodes
  {
    var n := |t| - 1;
    if i < |OfNodes(t[..n], nodes)| {
      k := OfNodesAt(t[..n], nodes, i);
      assert t[..n][..k] == t[..k];
    } else {
      k := n;
    }
  }

  lemma {:induction false} FilterIn(hosts: seq<Host>, c: Id, primary: bool)
    ensures forall h <- Filter(hosts, c, primary) :: h in hosts
  {
    if |hosts| > 0 {
      FilterIn(hosts[1..], c, primary);
    }
  }

  function Statused(c: Command, status: Status): Command {
    c.(status := status)
  }

  /** Everything before k completed, everything from k on pending, every host installed. */
  function Split(s: Site, k: nat): Site {
    s.(hosts := seq(|s.hosts|, i requires 0 <= i < |s.hosts| => s.hosts[i].(state := Installed)),
       commands := seq(|s.commands|, i requires 0 <= i < |s.commands| =>
                        Statused(s.commands[i], if i < k then Completed else Pending)))
  }

  lemma SplitRuns(s: Site, c: Id, k: nat)
    requires c in s.clusters && s.clusters[c].phase == Creating && HostsOf(s.hosts, c) != []
    requires k <= |s.commands| && |OfNodes(s.commands[..k], Ids(HostsOf(s.hosts, c)))| >= LIST_LIMIT
    ensures var t := Split(s, k);
            Variant(s, t) && Ids(HostsOf(t.hosts, c)) == Ids(HostsOf(s.hosts, c))
            && Decided(t, c).clusters[c].phase == Running
  {
    var t := Split(s, k);
    assert Variant(s, t);
    SameHosts(s.hosts, t.hosts, c);
    SameHostCount(s.hosts, t.hosts, c);
    SplitThrough(s, c, k);
    SplitCompleted(s, Ids(HostsOf(s.hosts, c)), k);
    RunningIff(t, c);
  }

  lemma SplitThrough(s: Site, c: Id, k: nat)
    ensures forall h <- HostsOf(Split(s, k).hosts, c) :: Through(h)
  {
    var hosts := Split(s, k).hosts;
    FilterIn(hosts, c, true);
    FilterIn(hosts, c, false);
    forall h <- HostsOf(hosts, c) ensures Through(h) {
      assert h in Filter(hosts, c, true) + Filter(hosts, c, false);
      assert h in hosts;
    }
  }

  lemma SplitCompleted(s: Site, nodes: set<Id>, k: nat)
    requires k <= |s.commands| && |OfNodes(s.commands[..k], nodes)| >= LIST_LIMIT
    ensures forall x <- Take(OfNodes(Split(s, k).commands, nodes), LIST_LIMIT) :: x.status == Completed
  {
    var t := Split(s, k).commands;
    SameOfNodes(s.commands[..k], t[..k], nodes);
    OfNodesAre(t[..k], nodes);
    OfNodesPrefix(t, nodes, k);
    var early := OfNodes(t[..k], nodes);
    forall x <- Take(OfNodes(t, nodes), LIST_LIMIT) ensures x.status == Completed {
      var i :| 0 <= i < LIST_LIMIT && i < |OfNodes(t, nodes)| && OfNodes(t, nodes)[i] == x;
      assert early[i] == x && x in early;
    }
  }

  lemma SameHostCount(a: seq<Host>, b: seq<Host>, c: Id)
    requires |a| == |b| && forall i | 0 <= i < |a| :: b[i] == a[i].(state := b[i].state)
    ensures |HostsOf(a, c)| == |HostsOf(b, c)|
  {
    SameFilter(a, b, c, true);
    SameFilter(a, b, c, false);
  }

  /**
   "Running means every provisioning command completed" holds whatever the statuses and states
   iff no provisioning command of the cluster's hosts stands beyond the limit.
   */
  lemma DecisionSoundIff(s: Site, c: Id)
    requires c in s.clusters && s.clusters[c].phase == Creating && HostsOf(s.hosts, c) != []
    ensures (forall t :: Variant(s, t) && Decided(t, c).clusters[c].phase == Running ==> AllCompleted(t, c))
            <==> NoneBeyond(s, c)
  {
    if NoneBeyond(s, c) {
      forall t | Variant(s, t) && Decided(t, c).clusters[c].phase == Running ensures AllCompleted(t, c) {
        SameHosts(s.hosts, t.hosts, c);
        SameOfNodes(s.commands, t.commands, Ids(HostsOf(s.hosts, c)));
        RunningSoundIff(t, c);
        forall i | LIST_LIMIT <= i < |HostCommands(t, c)|
          ensures !Counts(HostCommands(t, c)[i], t.clusters[c].createdAt)
        {
          assert SameRow(HostCommands(s, c)[i], HostCommands(t, c)[i]);
        }
      }
    } else {
      var i :| LIST_LIMIT <= i < |HostCommands(s, c)| && Counts(HostCommands(s, c)[i], s.clusters[c].createdAt);
      var k := OfNodesAt(s.commands, Ids(HostsOf(s.hosts, c)), i);
      var t := Split(s, k);
      SplitRuns(s, c, k);
      OfNodesAre(t.commands, Ids(HostsOf(s.hosts, c)));
      assert t.commands[k] in t.commands && t.commands[k].status == Pending;
      assert t.commands[k] in HostCommands(t, c);
    }
  }

  // ---- A site where it happens ----

  const OLD: seq<Command> := seq(LIST_LIMIT, i requires 0 <= i => Command(i, 0, 0, PgStart, NoPayload, Completed, 0))

  const HIDDEN := Command(LIST_LIMIT, 0, 0, PgInit, NoPayload, Pending, 1)

  /** A reused node with a thousand commands of its past, and a new cluster that waits for pg_init. */
  const REUSED := Site([Host(0, Some(0), true, Installed)], map[0 := ClusterRow(Creating, 1)], OLD + [HIDDEN])

  lemma {:induction false} AllOfNode(t: seq<Command>, nodes: set<Id>)
    requires forall x <- t :: x.nodeId in nodes
    ensures OfNodes(t, nodes) == t
  {
    if |t| > 0 {
      AllOfNode(t[..|t| - 1], nodes);
    }
  }

  /** The cluster is declared running while a command of its own creation is still pending. */
  lemma HiddenPending()
    ensures Decided(REUSED, 0).clusters[0].phase == Running
    ensures HIDDEN in HostCommands(REUSED, 0) && HIDDEN.status == Pending && Counts(HIDDEN, 1)
  {
    var h := Host(0, Some(0), true, Installed);
    assert Filter([h][1..], 0, true) == [] && Filter([h][1..], 0, false) == [];
    assert HostsOf(REUSED.hosts, 0) == [h];
    AllOfNode(REUSED.commands, Ids([h]));
    RunningIff(REUSED, 0);
    assert Take(REUSED.commands, LIST_LIMIT) == OLD;
    assert forall x <- OLD :: !Counts(x, 1);
    assert REUSED.commands[LIST_LIMIT] == HIDDEN;
  }
}
