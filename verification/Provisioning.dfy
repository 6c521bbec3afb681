/**
 Provisioning of one server's clusters: how a reported command result moves installation
 states, and how the creating cluster's fate is then decided from node and command rows.
 */
module Provisioning {
  import opened Wrappers
  import opened Commands
  import opened Metadata
  import opened AgentCommandRepo

  datatype InstallState =
    | Unspecified | PendingPreflight | NothingFound | Conflict | Installing | Installed | InstallFailed | Adopted

  datatype Host = Host(id: Id, cluster: Option<Id>, primary: bool, state: InstallState)

  datatype Phase = Creating | Running | Degraded | Stopped | Removing

  datatype ClusterRow = ClusterRow(phase: Phase, createdAt: Time)

  /** Hosts in created_at order. */
  datatype Site = Site(hosts: seq<Host>, clusters: map<Id, ClusterRow>, commands: seq<Command>)

  predicate IsProvisioning(a: Action) {
    match a
    case PgPreflight => true
    case PgInstallNative => true
    case PgInstallDocker => true
    case PgPurgeNative => true
    case PgAdoptNative => true
    case PgInit => true
    case PgStart => true
    case PgStop => true
    case PgCreateReplUser => true
    case PgBasebackup => true
    case RepointReplica => true
    case _ => false
  }

  const PROVISIONING_ACTIONS: set<Action> :=
    {PgPreflight, PgInstallNative, PgInstallDocker, PgPurgeNative, PgAdoptNative, PgInit, PgStart, PgStop,
     PgCreateReplUser, PgBasebackup, RepointReplica}

  /**
   The list the server cancels by names exactly the actions its predicate accepts: all but
   failover's, and those that manage a server already set up.
   */
  lemma ProvisioningActions(a: Action)
    ensures a in PROVISIONING_ACTIONS <==> IsProvisioning(a)
    ensures !IsProvisioning(a) <==>
            || a in {PgPromote, PgRewind, AgentDeactivate, PgApplySettings, PgApplyHba, PgApplyTls, PgApplyExtensions}
            || a in {PgEnsureAdminRole, PgEnsureRole, PgRotateRolePassword, PgDropRole}
            || a in {PgEnsureDatabase, PgGrantDatabasePrivileges, PgDropDatabase}
  {
  }

  function HostById(hosts: seq<Host>, id: Id): Option<Host> {
    if |hosts| == 0 then None
    else if hosts[0].id == id then Some(hosts[0])
    else HostById(hosts[1..], id)
  }

  function Filter(hosts: seq<Host>, c: Id, primary: bool): seq<Host> {
    if |hosts| == 0 then []
    else (if hosts[0].cluster == Some(c) && hosts[0].primary == primary then [hosts[0]] else [])
         + Filter(hosts[1..], c, primary)
  }

  /** ORDER BY role, created_at: the primary sorts first. */
  function HostsOf(hosts: seq<Host>, c: Id): seq<Host> {
    Take(Filter(hosts, c, true) + Filter(hosts, c, false), LIST_LIMIT)
  }

  function Ids(hosts: seq<Host>): set<Id> {
    set h <- hosts :: h.id
  }

  datatype Verdict = Wait | Fail | Go

  predicate Blocks(st: InstallState) {
    st == Conflict || st == PendingPreflight || st == Installing
  }

  /** The first host that is not through decides. */
  function HostVerdict(hosts: seq<Host>): Verdict {
    if |hosts| == 0 then Go
    else if Blocks(hosts[0].state) then Wait
    else if hosts[0].state == InstallFailed then Fail
    else HostVerdict(hosts[1..])
  }

  predicate Counts(c: Command, since: Time) {
    c.createdAt >= since && IsProvisioning(c.action)
  }

  ghost predicate Has(cmds: seq<Command>, since: Time, status: Status) {
    exists c <- cmds :: Counts(c, since) && c.status == status
  }

  ghost function CommandVerdict(cmds: seq<Command>, since: Time): Verdict {
    if Has(cmds, since, Failed) then Fail else if Has(cmds, since, Pending) then Wait else Go
  }

  ghost function FateOf(s: Site, c: Id): Verdict
    requires c in s.clusters
  {
    var hosts := HostsOf(s.hosts, c);
    if |hosts| == 0 then Wait
    else if HostVerdict(hosts) != Go then HostVerdict(hosts)
    else CommandVerdict(Take(OfNodes(s.commands, Ids(hosts)), LIST_LIMIT), s.clusters[c].createdAt)
  }

  /** The provisioning decision for a creating cluster. */
  ghost function Decided(s: Site, c: Id): Site {
    if c !in s.clusters || s.clusters[c].phase != Creating || FateOf(s, c) == Wait then s
    else if FateOf(s, c) == Fail then
      s.(commands := Cancel(s.commands, Ids(HostsOf(s.hosts, c)), PROVISIONING_ACTIONS),
         clusters := s.clusters[c := s.clusters[c].(phase := Stopped)])
    else s.(clusters := s.clusters[c := s.clusters[c].(phase := Running)])
  }

  function ClusterOfCommand(s: Site, id: Id): Option<Id> {
    var c := Find(s.commands, id);
    var h := if c.Some? then HostById(s.hosts, c.value.nodeId) else None;
    if h.Some? then h.value.cluster else None
  }

  class ProvisioningServer {
    var hosts: seq<Host>
    var clusters: map<Id, ClusterRow>
    const repo: AgentCommandRepository

    constructor (repo: AgentCommandRepository, hosts: seq<Host>, clusters: map<Id, ClusterRow>)
      ensures this.repo == repo && this.hosts == hosts && this.clusters == clusters
    {
      this.repo, this.hosts, this.clusters := repo, hosts, clusters;
    }

    function State(): Site
      reads this, repo
    {
      Site(hosts, clusters, repo.rows)
    }

    method InspectHosts(list: seq<Host>) returns (v: Verdict)
      ensures v == HostVerdict(list)
    {
      var i := 0;
      while i < |list|
        invariant 0 <= i <= |list| && HostVerdict(list) == HostVerdict(list[i..])
      {
        match list[i].state {
          case Conflict => return Wait;
          case PendingPreflight => return Wait;
          case Installing => return Wait;
          case InstallFailed => return Fail;
          case _ =>
        }
        i := i + 1;
      }
      return Go;
    }

    method InspectCommands(cmds: seq<Command>, since: Time) returns (v: Verdict)
      ensures v == CommandVerdict(cmds, since)
    {
      var hasPending := false;
      var i := 0;
      while i < |cmds|
        invariant 0 <= i <= |cmds|
        invariant forall j | 0 <= j < i :: Counts(cmds[j], since) ==> cmds[j].status != Failed
        invariant hasPending <==> exists j | 0 <= j < i :: Counts(cmds[j], since) && cmds[j].status == Pending
      {
        if Counts(cmds[i], since) {
          match cmds[i].status {
            case Failed => return Fail;
            case Pending => hasPending := true;
            case Completed =>
          }
        }
        i := i + 1;
      }
      assert hasPending <==> Has(cmds, since, Pending) by {
        if hasPending {
          var j :| 0 <= j < i && Counts(cmds[j], since) && cmds[j].status == Pending;
          assert cmds[j] in cmds;
        }
      }
      return if hasPending then Wait else Go;
    }

    method UpdateClusterProvisioningStatus(commandId: Id)
      modifies this, repo
      ensures var c := ClusterOfCommand(old(State()), commandId);
              State() == if c.Some? then Decided(old(State()), c.value) else old(State())
    {
      var cmd := Find(repo.rows, commandId);
      if cmd.None? {
        return;
      }
      var host := HostById(hosts, cmd.value.nodeId);
      if host.None? || host.value.cluster.None? {
        return;
      }
      var c := host.value.cluster.value;
      if c !in clusters || clusters[c].phase != Creating {
        return;
      }
      var list := HostsOf(hosts, c);
      if |list| == 0 {
        return;
      }
      var ids := set h <- list :: h.id;
      assert ids == Ids(list);
      var v := InspectHosts(list);
      if v == Wait {
        return;
      }
      if v == Go {
        var cmds := repo.ListByNodeIDs(ids);
        v := InspectCommands(cmds, clusters[c].createdAt);
      }
      if v == Fail {
        repo.MarkPendingFailedByNodeIDs(ids, PROVISIONING_ACTIONS);
        clusters := clusters[c := clusters[c].(phase := Stopped)];
      } else if v == Go {
        clusters := clusters[c := clusters[c].(phase := Running)];
      }
    }
  }

  // ---- What a decision means ----

  predicate Through(h: Host) {
    !Blocks(h.state) && h.state != InstallFailed
  }

  lemma {:induction false} GoMeansThrough(hosts: seq<Host>)
    ensures HostVerdict(hosts) == Go <==> forall h <- hosts :: Through(h)
  {
    if |hosts| > 0 {
      GoMeansThrough(hosts[1..]);
      assert hosts[0] in hosts;
      assert forall h :: h in hosts <==> h == hosts[0] || h in hosts[1..] by {
        assert hosts == [hosts[0]] + hosts[1..];
      }
    }
  }

  /** A creating cluster is declared running iff every listed host is through and every listed command completed. */
  lemma RunningIff(s: Site, c: Id)
    requires c in s.clusters && s.clusters[c].phase == Creating
    ensures var hosts := HostsOf(s.hosts, c);
            Decided(s, c).clusters[c].phase == Running <==>
            && hosts != []
            && (forall h <- hosts ::
                  && h.state != Conflict && h.state != PendingPreflight && h.state != Installing
                  && h.state != InstallFailed)
            && forall x <- Take(OfNodes(s.commands, Ids(hosts)), LIST_LIMIT) ::
                 Counts(x, s.clusters[c].createdAt) ==> x.status == Completed
  {
    var hosts := HostsOf(s.hosts, c);
    var cmds := Take(OfNodes(s.commands, Ids(hosts)), LIST_LIMIT);
    GoMeansThrough(hosts);
    assert forall h <- hosts :: Through(h) <==>
             h.state != Conflict && h.state != PendingPreflight && h.state != Installing && h.state != InstallFailed;
    assert CommandVerdict(cmds, s.clusters[c].createdAt) == Go <==>
           forall x <- cmds :: Counts(x, s.clusters[c].createdAt) ==> x.status == Completed;
  }

  /** The first host that is not through is the one whose installation failed. */
  ghost predicate FailsFirst(hosts: seq<Host>) {
    exists i | 0 <= i < |hosts| :: hosts[i].state == InstallFailed && forall j | 0 <= j < i :: Through(hosts[j])
  }

  lemma {:induction false} FailMeansFirst(hosts: seq<Host>)
    ensures HostVerdict(hosts) == Fail <==> FailsFirst(hosts)
  {
    if |hosts| > 0 {
      FailMeansFirst(hosts[1..]);
      if FailsFirst(hosts) && Through(hosts[0]) {
        var i :| 0 <= i < |hosts| && hosts[i].state == InstallFailed && forall j | 0 <= j < i :: Through(hosts[j]);
        assert hosts[1..][i - 1].state == InstallFailed;
        assert forall j | 0 <= j < i - 1 :: hosts[1..][j] == hosts[j + 1];
      }
      if FailsFirst(hosts[1..]) && Through(hosts[0]) {
        var i :| 0 <= i < |hosts| - 1 && hosts[1..][i].state == InstallFailed
                 && forall j | 0 <= j < i :: Through(hosts[1..][j]);
        assert hosts[i + 1].state == InstallFailed;
        assert forall j | 0 < j < i + 1 :: hosts[j] == hosts[1..][j - 1];
      }
    }
  }

  /** It is stopped iff an installation failed before any host to wait for, or all are through and a command failed. */
  lemma StoppedIff(s: Site, c: Id)
    requires c in s.clusters && s.clusters[c].phase == Creating
    ensures var hosts := HostsOf(s.hosts, c);
            Decided(s, c).clusters[c].phase == Stopped <==>
            || FailsFirst(hosts)
            || (hosts != [] && (forall h <- hosts :: Through(h))
                && exists x <- Take(OfNodes(s.commands, Ids(hosts)), LIST_LIMIT) ::
                     Counts(x, s.clusters[c].createdAt) && x.status == Failed)
  {
    GoMeansThrough(HostsOf(s.hosts, c));
    FailMeansFirst(HostsOf(s.hosts, c));
  }

  lemma {:induction false} OfNodesAre(t: seq<Command>, nodes: set<Id>)
    ensures forall c :: c in OfNodes(t, nodes) <==> c in t && c.nodeId in nodes
  {
    if |t| > 0 {
      OfNodesAre(t[..|t| - 1], nodes);
      assert t == t[..|t| - 1] + [t[|t| - 1]];
    }
  }

  /** The commands of a cluster's hosts, oldest first; a decision reads the first LIST_LIMIT of them. */
  function HostCommands(s: Site, c: Id): seq<Command> {
    OfNodes(s.commands, Ids(HostsOf(s.hosts, c)))
  }

  /** A cluster is declared running only if the commands the decision reads have completed. */
  lemma RunningMeansCompleted(s: Site, c: Id, i: nat)
    requires c in s.clusters && s.clusters[c].phase == Creating && Decided(s, c).clusters[c].phase == Running
    requires i < |HostCommands(s, c)| && i < LIST_LIMIT && Counts(HostCommands(s, c)[i], s.clusters[c].createdAt)
    ensures HostCommands(s, c)[i].status == Completed
  {
    RunningIff(s, c);
    assert Take(HostCommands(s, c), LIST_LIMIT)[i] == HostCommands(s, c)[i];
  }

  /** When provisioning stops a cluster, none of its hosts has a provisioning command pending. */
  lemma StoppedMeansNonePending(s: Site, c: Id, x: Command)
    requires c in s.clusters && s.clusters[c].phase == Creating && Decided(s, c).clusters[c].phase == Stopped
    requires x in Decided(s, c).commands && x.nodeId in Ids(HostsOf(s.hosts, c)) && IsProvisioning(x.action)
    ensures x.status != Pending
  {
  }

  // ---- Whole runs ----

  /** What the result handler does to the host's installation state while its cluster is creating. */
  function StateAfter(h: Host, a: Action, success: bool, preflight: InstallState): InstallState {
    if !success then (if IsProvisioning(a) then InstallFailed else h.state)
    else match a
      case PgPreflight => preflight
      case PgInstallNative => Installed
      case PgInstallDocker => Installed
      case PgPurgeNative => Installing
      case PgAdoptNative => Adopted
      case _ => h.state
  }

  function SetState(h: Host, id: Id, state: InstallState): Host {
    if h.id == id then h.(state := state) else h
  }

  function WithState(hosts: seq<Host>, id: Id, state: InstallState): (r: seq<Host>)
    ensures |r| == |hosts|
    ensures forall i | 0 <= i < |hosts| :: r[i] == SetState(hosts[i], id, state)
  {
    seq(|hosts|, i requires 0 <= i < |hosts| => SetState(hosts[i], id, state))
  }

  datatype SiteEvent =
    | HostReport(host: Id, state: InstallState)                              // anything an agent may report
    | CommandReport(id: Id, success: bool, preflight: InstallState)
    | QueueCommand(command: Command)
    | PhaseSet(cluster: Id, phase: Phase)                                    // lifecycle requests, failover

  /** A failed command of a cluster that is past creation degrades the cluster instead of the host. */
  predicate DegradesCluster(s: Site, h: Host, a: Action, success: bool) {
    !success && IsProvisioning(a) && h.cluster.Some? && h.cluster.value in s.clusters
    && s.clusters[h.cluster.value].phase != Creating
  }

  /** The recorded status and the handler's effect: the state in which the fate is decided. */
  function BeforeDecision(s: Site, id: Id, success: bool, preflight: InstallState): Site {
    var t := s.(commands := Report(s.commands, id, success));
    var c := Find(t.commands, id);
    var h := if c.Some? then HostById(t.hosts, c.value.nodeId) else None;
    if h.None? then t
    else if DegradesCluster(t, h.value, c.value.action, success) then
      var k := h.value.cluster.value; t.(clusters := t.clusters[k := t.clusters[k].(phase := Degraded)])
    else t.(hosts := WithState(t.hosts, h.value.id, StateAfter(h.value, c.value.action, success, preflight)))
  }

  /** A recorded result: status, installation state of the host, then the cluster's fate. */
  ghost function Reacted(s: Site, id: Id, success: bool, preflight: InstallState): Site {
    var u := BeforeDecision(s, id, success, preflight);
    var k := ClusterOfCommand(u, id);
    if k.Some? then Decided(u, k.value) else u
  }

  ghost function SiteStep(s: Site, e: SiteEvent): Site {
    match e
    case HostReport(host, state) => s.(hosts := WithState(s.hosts, host, state))
    case CommandReport(id, success, preflight) => Reacted(s, id, success, preflight)
    case QueueCommand(c) => if HasId(s.commands, c.id) then s else s.(commands := Insert(s.commands, c))
    case PhaseSet(c, phase) =>
      if c in s.clusters then s.(clusters := s.clusters[c := s.clusters[c].(phase := phase)]) else s
  }

  ghost function SiteRun(s: Site, run: seq<SiteEvent>): Site {
    if |run| == 0 then s else SiteStep(SiteRun(s, run[..|run| - 1]), run[|run| - 1])
  }

  /** Hosts keep identity and cluster, clusters their birth, commands their row. */
  ghost predicate Onward(s: Site, t: Site) {
    && |t.hosts| == |s.hosts| && (forall i | 0 <= i < |s.hosts| :: t.hosts[i] == s.hosts[i].(state := t.hosts[i].state))
    && (forall c <- s.clusters :: c in t.clusters && t.clusters[c].createdAt == s.clusters[c].createdAt)
    && (forall x <- s.commands :: Kept(x, t.commands))
  }

  ghost predicate Kept(x: Command, t: seq<Command>) {
    exists y <- t :: y == x.(status := y.status)
  }

  lemma KeptCancel(t: seq<Command>, nodes: set<Id>, actions: set<Action>)
    ensures forall x <- t :: Kept(x, Cancel(t, nodes, actions))
  {
  }

  lemma OnwardTrans(a: Site, b: Site, c: Site)
    requires Onward(a, b) && Onward(b, c)
    ensures Onward(a, c)
  {
  }

  lemma OnwardDecided(s: Site, c: Id)
    ensures Onward(s, Decided(s, c))
  {
    if Decided(s, c) == s || FateOf(s, c) == Go {
      KeptAll(s.commands);
    } else {
      KeptCancel(s.commands, Ids(HostsOf(s.hosts, c)), PROVISIONING_ACTIONS);
    }
  }

  lemma KeptAll(t: seq<Command>)
    ensures forall x <- t :: Kept(x, t)
  {
    forall x <- t ensures Kept(x, t) {
      assert x == x.(status := x.status);
    }
  }

  lemma OnwardReport(s: Site, id: Id, ok: bool, hosts: seq<Host>, host: Id, state: InstallState)
    requires hosts == s.hosts || hosts == WithState(s.hosts, host, state)
    ensures Onward(s, s.(commands := Report(s.commands, id, ok), hosts := hosts))
  {
  }

  lemma OnwardBefore(s: Site, id: Id, success: bool, preflight: InstallState)
    ensures Onward(s, BeforeDecision(s, id, success, preflight))
  {
    var t := s.(commands := Report(s.commands, id, success));
    var c := Find(t.commands, id);
    var h := if c.Some? then HostById(t.hosts, c.value.nodeId) else None;
    if h.Some? && !DegradesCluster(t, h.value, c.value.action, success) {
      var st := StateAfter(h.value, c.value.action, success, preflight);
      OnwardReport(s, id, success, WithState(s.hosts, h.value.id, st), h.value.id, st);
    } else {
      OnwardReport(s, id, success, s.hosts, 0, Unspecified);
    }
  }

  lemma OnwardStep(s: Site, e: SiteEvent)
    ensures Onward(s, SiteStep(s, e))
  {
    forall x <- s.commands ensures Kept(x, s.commands) {
      assert x == x.(status := x.status);
    }
    match e {
      case CommandReport(id, success, preflight) =>
        var u := BeforeDecision(s, id, success, preflight);
        OnwardBefore(s, id, success, preflight);
        var k := ClusterOfCommand(u, id);
        if k.Some? {
          OnwardDecided(u, k.value);
          OnwardTrans(s, u, Decided(u, k.value));
        }
      case QueueCommand(c) =>
        InsertMembers(s.commands, c);
        forall x <- s.commands ensures Kept(x, Insert(s.commands, c)) {
          assert x in Insert(s.commands, c) && x == x.(status := x.status);
        }
      case HostReport(_, _) =>
      case PhaseSet(_, _) =>
    }
  }

  lemma {:induction false} OnwardRun(s: Site, run: seq<SiteEvent>)
    ensures Onward(s, SiteRun(s, run))
  {
    if |run| == 0 {
      forall x <- s.commands ensures Kept(x, s.commands) {
        assert x == x.(status := x.status);
      }
    } else {
      OnwardRun(s, run[..|run| - 1]);
      OnwardStep(SiteRun(s, run[..|run| - 1]), run[|run| - 1]);
      OnwardTrans(s, SiteRun(s, run[..|run| - 1]), SiteRun(s, run));
    }
  }

  /** Which hosts a cluster has does not depend on their states. */
  lemma {:induction false} SameFilter(a: seq<Host>, b: seq<Host>, c: Id, primary: bool)
    requires |a| == |b| && forall i | 0 <= i < |a| :: b[i] == a[i].(state := b[i].state)
    ensures var f, g := Filter(a, c, primary), Filter(b, c, primary);
            |f| == |g| && forall i | 0 <= i < |f| :: f[i].id == g[i].id
  {
    if |a| > 0 {
      assert b[0] == a[0].(state := b[0].state);
      SameFilter(a[1..], b[1..], c, primary);
    }
  }

  lemma SameHosts(a: seq<Host>, b: seq<Host>, c: Id)
    requires |a| == |b| && forall i | 0 <= i < |a| :: b[i] == a[i].(state := b[i].state)
    ensures Ids(HostsOf(a, c)) == Ids(HostsOf(b, c))
  {
    SameFilter(a, b, c, true);
    SameFilter(a, b, c, false);
    var f, g := HostsOf(a, c), HostsOf(b, c);
    assert |f| == |g| && forall i | 0 <= i < |f| :: f[i].id == g[i].id;
  }

  /** A reported result moves the cluster from creating to running. */
  ghost predicate StartsRunning(t: Site, e: SiteEvent, c: Id) {
    && e.CommandReport? && c in t.clusters && t.clusters[c].phase == Creating
    && var after := SiteStep(t, e).clusters; c in after && after[c].phase == Running
  }

  /** A provisioning command queued for one of the cluster's hosts. */
  ghost predicate QueuedFor(s: Site, c: Id, x: Command) {
    && c in s.clusters && x in s.commands && x.nodeId in Ids(HostsOf(s.hosts, c))
    && Counts(x, s.clusters[c].createdAt)
  }

  /** The command, in whatever status, is among those a decision reads. */
  ghost predicate Listed(s: Site, c: Id, x: Command) {
    exists i | 0 <= i < |HostCommands(s, c)| && i < LIST_LIMIT ::
      HostCommands(s, c)[i] == x.(status := HostCommands(s, c)[i].status)
  }

  /**
   A cluster goes from creating to running by a reported result only once every provisioning
   command that was queued for its hosts and is listed has completed, whatever was reported
   meanwhile.
   */
  lemma RunningOnlyWhenProvisioned(s: Site, run: seq<SiteEvent>, e: SiteEvent, c: Id, x: Command)
    requires QueuedFor(s, c, x) && StartsRunning(SiteRun(s, run), e, c) && Listed(SiteRun(s, run), c, x)
    ensures x.(status := Completed) in SiteStep(SiteRun(s, run), e).commands
  {
    OnwardRun(s, run);
    StartsProvisioned(s, SiteRun(s, run), e, c, x);
  }

  lemma StartsProvisioned(s: Site, t: Site, e: SiteEvent, c: Id, x: Command)
    requires Onward(s, t) && QueuedFor(s, c, x) && StartsRunning(t, e, c) && Listed(t, c, x)
    ensures x.(status := Completed) in SiteStep(t, e).commands
  {
    StartDecides(t, e, c);
    assert t.clusters[c].createdAt == s.clusters[c].createdAt;
    DecidedProvisioned(t, BeforeDecision(t, e.id, e.success, e.preflight), e, c, x);
  }

  lemma DecidedProvisioned(t: Site, u: Site, e: SiteEvent, c: Id, x: Command)
    requires e.CommandReport? && u == BeforeDecision(t, e.id, e.success, e.preflight)
    requires u.commands == Report(t.commands, e.id, e.success) && c in u.clusters && u.clusters[c].phase == Creating
    requires Decided(u, c).clusters[c].phase == Running && Counts(x, u.clusters[c].createdAt) && Listed(t, c, x)
    ensures x.(status := Completed) in Decided(u, c).commands
  {
    OnwardBefore(t, e.id, e.success, e.preflight);
    SameHosts(t.hosts, u.hosts, c);
    OfNodesReported(t.commands, Ids(HostsOf(t.hosts, c)), e.id, e.success);
    var i :| 0 <= i < |HostCommands(t, c)| && i < LIST_LIMIT
             && HostCommands(t, c)[i] == x.(status := HostCommands(t, c)[i].status);
    assert HostCommands(u, c)[i] == Reported(HostCommands(t, c)[i], e.id, e.success);
    RunningMeansCompleted(u, c, i);
    OfNodesAre(u.commands, Ids(HostsOf(u.hosts, c)));
    assert HostCommands(u, c)[i] == x.(status := Completed) && HostCommands(u, c)[i] in HostCommands(u, c);
    RunningKeepsCommands(u, c);
  }

  lemma RunningKeepsCommands(s: Site, c: Id)
    requires c in s.clusters && s.clusters[c].phase == Creating && Decided(s, c).clusters[c].phase == Running
    ensures Decided(s, c).commands == s.commands
  {
  }

  /** With no more than LIST_LIMIT commands on the hosts every one of them is listed. */
  lemma FewAreListed(s: Site, c: Id, x: Command)
    requires x in s.commands && x.nodeId in Ids(HostsOf(s.hosts, c)) && |HostCommands(s, c)| <= LIST_LIMIT
    ensures Listed(s, c, x)
  {
    OfNodesAre(s.commands, Ids(HostsOf(s.hosts, c)));
    var i :| 0 <= i < |HostCommands(s, c)| && HostCommands(s, c)[i] == x;
  }

  /** The decision that starts a cluster is taken on the reported tables, with the cluster still creating. */
  lemma StartDecides(t: Site, e: SiteEvent, c: Id)
    requires StartsRunning(t, e, c)
    ensures var u := BeforeDecision(t, e.id, e.success, e.preflight);
            && SiteStep(t, e) == Decided(u, c) && u.commands == Report(t.commands, e.id, e.success)
            && c in u.clusters && u.clusters[c].phase == Creating && Decided(u, c).clusters[c].phase == Running
            && u.clusters[c].createdAt == t.clusters[c].createdAt
  {
  }

  lemma {:induction false} OfNodesReported(t: seq<Command>, nodes: set<Id>, id: Id, ok: bool)
    ensures var a, b := OfNodes(t, nodes), OfNodes(Report(t, id, ok), nodes);
            |b| == |a| && forall i | 0 <= i < |a| :: b[i] == Reported(a[i], id, ok)
  {
    if |t| > 0 {
      var n := |t| - 1;
      assert Report(t, id, ok)[..n] == Report(t[..n], id, ok);
      OfNodesReported(t[..n], nodes, id, ok);
    }
  }
}
