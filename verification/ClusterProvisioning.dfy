/**
 From the creation of a cluster to the end of its provisioning: exactly the commands a creation
 queues, and what the decision about the cluster waits for, fails on and cancels.
 */
module ClusterProvisioning {
  import opened Wrappers
  import opened Commands
  import opened Metadata
  import opened AgentCommandRepo
  import opened Provisioning
  import Made = ClusterCommands

  // ---- What a creation queues ----

  /** The k-th command of a creation. */
  function Row(c: Made.Creation, k: nat, h: Made.Host, action: Action, payload: Payload): Command {
    Command(c.next + k, h.agent, h.node, action, payload, Pending, c.clock + k)
  }

  /** Where a replica finds its primary: the address, or the host name of a node without one. */
  function AddressOf(h: Made.Host): Payload {
    AddressPayload(if h.address != "" then h.address else h.hostname, h.port)
  }

  predicate PrimaryRow(c: Made.Creation, h: Made.Host, x: Command) {
    || x == Row(c, 0, h, PgInstallDocker, NoPayload) || x == Row(c, 1, h, PgInit, NoPayload)
    || x == Row(c, 2, h, PgStart, NoPayload) || x == Row(c, 3, h, PgCreateReplUser, NoPayload)
  }

  /** A replica's four commands, the first of them the k-th of the creation. */
  predicate ReplicaRow(c: Made.Creation, k: nat, r: Made.Host, primary: Made.Host, x: Command) {
    || x == Row(c, k, r, PgInstallDocker, NoPayload)
    || x == Row(c, k + 1, r, PgBasebackup, AddressOf(primary))
    || x == Row(c, k + 2, r, RepointReplica, AddressOf(primary)) || x == Row(c, k + 3, r, PgStart, NoPayload)
  }

  ghost predicate ReplicaRows(c: Made.Creation, replicas: seq<Made.Host>, primary: Made.Host, x: Command) {
    exists i | 0 <= i < |replicas| :: ReplicaRow(c, 5 + 4 * i, replicas[i], primary, x)
  }

  /** A command a Docker creation queues for a host, the admin role's aside. */
  ghost predicate HostRow(c: Made.Creation, primary: Made.Host, replicas: seq<Made.Host>, x: Command) {
    PrimaryRow(c, primary, x) || ReplicaRows(c, replicas, primary, x)
  }

  lemma ReplicaRowsSnoc(c: Made.Creation, replicas: seq<Made.Host>, primary: Made.Host, x: Command)
    requires replicas != []
    ensures var n := |replicas| - 1;
            ReplicaRows(c, replicas, primary, x)
            <==> ReplicaRows(c, replicas[..n], primary, x) || ReplicaRow(c, 5 + 4 * n, replicas[n], primary, x)
  {
    var n := |replicas| - 1;
    assert forall i | 0 <= i < n :: replicas[..n][i] == replicas[i];
  }

  lemma QueuedOne(c: Made.Creation, h: Made.Host, o: Made.Order)
    ensures var d := Made.WithOrder(c, h, o); var x := Row(c, 0, h, o.action, o.payload);
            && d == c.(commands := d.commands, next := c.next + 1, clock := c.clock + 1)
            && |d.commands| == |c.commands| + 1 && forall y :: y in d.commands <==> y in c.commands || y == x
  {
    InsertMembers(c.commands, Row(c, 0, h, o.action, o.payload));
  }

  lemma QueuedSnoc(c: Made.Creation, h: Made.Host, orders: seq<Made.Order>, o: Made.Order)
    ensures Made.QueuedAll(c, h, orders + [o]) == Made.WithOrder(Made.QueuedAll(c, h, orders), h, o)
  {
    assert (orders + [o])[..|orders|] == orders;
  }

  lemma QueuedFour(c: Made.Creation, h: Made.Host, orders: seq<Made.Order>)
    requires |orders| == 4
    ensures var d := Made.QueuedAll(c, h, orders);
            && d == c.(commands := d.commands, next := c.next + 4, clock := c.clock + 4)
            && |d.commands| == |c.commands| + 4
            && forall y :: y in d.commands <==>
                 || y in c.commands
                 || y == Row(c, 0, h, orders[0].action, orders[0].payload)
                 || y == Row(c, 1, h, orders[1].action, orders[1].payload)
                 || y == Row(c, 2, h, orders[2].action, orders[2].payload)
                 || y == Row(c, 3, h, orders[3].action, orders[3].payload)
  {
    assert orders == [] + [orders[0]] + [orders[1]] + [orders[2]] + [orders[3]];
    var c1 := Made.WithOrder(c, h, orders[0]);
    var c2 := Made.WithOrder(c1, h, orders[1]);
    var c3 := Made.WithOrder(c2, h, orders[2]);
    QueuedSnoc(c, h, [], orders[0]);
    QueuedSnoc(c, h, [] + [orders[0]], orders[1]);
    QueuedSnoc(c, h, [] + [orders[0]] + [orders[1]], orders[2]);
    QueuedSnoc(c, h, [] + [orders[0]] + [orders[1]] + [orders[2]], orders[3]);
    QueuedOne(c, h, orders[0]);
    QueuedOne(c1, h, orders[1]);
    QueuedOne(c2, h, orders[2]);
    QueuedOne(c3, h, orders[3]);
  }

  lemma QueuedThree(c: Made.Creation, h: Made.Host, orders: seq<Made.Order>)
    requires |orders| == 3
    ensures var d := Made.QueuedAll(c, h, orders);
            && |d.commands| == |c.commands| + 3
            && forall y :: y in d.commands <==>
                 || y in c.commands
                 || y == Row(c, 0, h, orders[0].action, orders[0].payload)
                 || y == Row(c, 1, h, orders[1].action, orders[1].payload)
                 || y == Row(c, 2, h, orders[2].action, orders[2].payload)
  {
    assert orders == [] + [orders[0]] + [orders[1]] + [orders[2]];
    var c1 := Made.WithOrder(c, h, orders[0]);
    QueuedSnoc(c, h, [], orders[0]);
    QueuedSnoc(c, h, [] + [orders[0]], orders[1]);
    QueuedSnoc(c, h, [] + [orders[0]] + [orders[1]], orders[2]);
    QueuedOne(c, h, orders[0]);
    QueuedOne(c1, h, orders[1]);
    QueuedOne(Made.WithOrder(c1, h, orders[1]), h, orders[2]);
  }

  lemma PrimaryQueues(c: Made.Creation, h: Made.Host)
    ensures var d := Made.QueuedAll(c, h, Made.PrimaryOrders(h, Made.Docker));
            && d == c.(commands := d.commands, next := c.next + 4, clock := c.clock + 4)
            && |d.commands| == |c.commands| + 4
            && forall x :: x in d.commands <==> x in c.commands || PrimaryRow(c, h, x)
  {
    QueuedFour(c, h, Made.PrimaryOrders(h, Made.Docker));
  }

  lemma ReplicaQueues(c: Made.Creation, k: nat, start: Made.Creation, r: Made.Host, primary: Made.Host)
    requires c.next == start.next + k && c.clock == start.clock + k
    ensures var d := Made.QueuedAll(c, r, Made.ReplicaOrders(r, primary, Made.Docker));
            && d == c.(commands := d.commands, next := c.next + 4, clock := c.clock + 4)
            && |d.commands| == |c.commands| + 4
            && forall x :: x in d.commands <==> x in c.commands || ReplicaRow(start, k, r, primary, x)
  {
    QueuedFour(c, r, Made.ReplicaOrders(r, primary, Made.Docker));
  }

  lemma {:induction false} ReplicasQueue(c: Made.Creation, start: Made.Creation, replicas: seq<Made.Host>,
                                         primary: Made.Host)
    requires c.next == start.next + 5 && c.clock == start.clock + 5
    ensures var d := Made.ReplicasQueued(c, replicas, primary, Made.Docker);
            && d == c.(commands := d.commands, next := c.next + 4 * |replicas|, clock := c.clock + 4 * |replicas|)
            && |d.commands| == |c.commands| + 4 * |replicas|
            && forall x :: x in d.commands <==> x in c.commands || ReplicaRows(start, replicas, primary, x)
  {
    if |replicas| > 0 {
      var n := |replicas| - 1;
      var before := Made.ReplicasQueued(c, replicas[..n], primary, Made.Docker);
      ReplicasQueue(c, start, replicas[..n], primary);
      ReplicaQueues(before, 5 + 4 * n, start, replicas[n], primary);
      var d := Made.ReplicasQueued(c, replicas, primary, Made.Docker);
      forall x ensures x in d.commands <==> x in c.commands || ReplicaRows(start, replicas, primary, x) {
        ReplicaRowsSnoc(start, replicas, primary, x);
      }
    }
  }

  /**
   A Docker creation queues five commands for the primary, the admin role's last, and four for
   each replica, in this order, under consecutive identifiers and strictly later times.
   */
  lemma DockerCreationQueues(c: Made.Creation, primary: Made.Host, replicas: seq<Made.Host>, password: Secret)
    ensures var d := Made.ClusterQueued(c, primary, replicas, Made.Docker, password);
            && |d.commands| == |c.commands| + 5 + 4 * |replicas|
            && d.secrets == c.secrets[c.next + 4 := Secrets(None, Some(password))] && d.admin == Some(password)
            && forall x :: x in d.commands <==>
                 || x in c.commands || HostRow(c, primary, replicas, x)
                 || x == Row(c, 4, primary, PgEnsureAdminRole, NoPayload)
  {
    var p := Made.QueuedAll(c, primary, Made.PrimaryOrders(primary, Made.Docker));
    PrimaryQueues(c, primary);
    QueuedOne(p, primary, Made.Order(PgEnsureAdminRole, NoPayload));
    QueuedOne(p.(admin := Some(password)), primary, Made.Order(PgEnsureAdminRole, NoPayload));
    ReplicasQueue(Made.AdminQueued(p, primary, Made.Docker, password), c, replicas, primary);
  }

  lemma {:induction false} PreflightsQueue(c: Made.Creation, start: Made.Creation, replicas: seq<Made.Host>,
                                           primary: Made.Host)
    requires c.next == start.next + 1 && c.clock == start.clock + 1
    ensures var d := Made.ReplicasQueued(c, replicas, primary, Made.Native);
            && d == c.(commands := d.commands, next := c.next + |replicas|, clock := c.clock + |replicas|)
            && |d.commands| == |c.commands| + |replicas|
            && forall x :: x in d.commands <==>
                 x in c.commands || PreflightRows(start, replicas, x)
  {
    if |replicas| > 0 {
      var n := |replicas| - 1;
      var before := Made.ReplicasQueued(c, replicas[..n], primary, Made.Native);
      PreflightsQueue(c, start, replicas[..n], primary);
      OneQueues(before, replicas[n], Made.ReplicaOrders(replicas[n], primary, Made.Native));
      var d := Made.ReplicasQueued(c, replicas, primary, Made.Native);
      forall x ensures x in d.commands <==> x in c.commands || PreflightRows(start, replicas, x) {
        PreflightRowsSnoc(start, replicas, x);
      }
    }
  }

  ghost predicate PreflightRows(c: Made.Creation, replicas: seq<Made.Host>, x: Command) {
    exists i | 0 <= i < |replicas| :: x == Row(c, 1 + i, replicas[i], PgPreflight, NoPayload)
  }

  lemma PreflightRowsSnoc(c: Made.Creation, replicas: seq<Made.Host>, x: Command)
    requires replicas != []
    ensures var n := |replicas| - 1;
            PreflightRows(c, replicas, x)
            <==> PreflightRows(c, replicas[..n], x) || x == Row(c, 1 + n, replicas[n], PgPreflight, NoPayload)
  {
    var n := |replicas| - 1;
    assert forall i | 0 <= i < n :: replicas[..n][i] == replicas[i];
  }

  lemma OneQueues(c: Made.Creation, h: Made.Host, orders: seq<Made.Order>)
    requires |orders| == 1
    ensures Made.QueuedAll(c, h, orders) == Made.WithOrder(c, h, orders[0])
    ensures var d := Made.WithOrder(c, h, orders[0]); var x := Row(c, 0, h, orders[0].action, orders[0].payload);
            && d == c.(commands := d.commands, next := c.next + 1, clock := c.clock + 1)
            && |d.commands| == |c.commands| + 1 && forall y :: y in d.commands <==> y in c.commands || y == x
  {
    assert orders == [] + [orders[0]];
    QueuedSnoc(c, h, [], orders[0]);
    QueuedOne(c, h, orders[0]);
  }

  /** A native creation asks every host for a preflight, the primary first, and waits for what it finds. */
  lemma NativeCreationQueues(c: Made.Creation, primary: Made.Host, replicas: seq<Made.Host>, password: Secret)
    ensures var d := Made.ClusterQueued(c, primary, replicas, Made.Native, password);
            && |d.commands| == |c.commands| + 1 + |replicas| && d.secrets == c.secrets && d.admin == Some(password)
            && forall x :: x in d.commands <==>
                 x in c.commands || x == Row(c, 0, primary, PgPreflight, NoPayload) || PreflightRows(c, replicas, x)
  {
    var p := Made.QueuedAll(c, primary, Made.PrimaryOrders(primary, Made.Native));
    OneQueues(c, primary, Made.PrimaryOrders(primary, Made.Native));
    PreflightsQueue(Made.AdminQueued(p, primary, Made.Native, password), c, replicas, primary);
  }

  /** What a native node runs after a preflight that found nothing: installation if it is missing, then the set-up. */
  lemma ContinuationQueues(c: Made.Creation, h: Made.Host, primary: Option<Made.Host>, skipInstall: bool)
    ensures var d := Made.QueuedAll(c, h, Made.ContinuationOrders(h, primary, skipInstall));
            var k := if skipInstall || h.installed then 0 else 1;
            && |d.commands| == |c.commands| + k + 3
            && forall x :: x in d.commands <==>
                 || x in c.commands || (k == 1 && x == Row(c, 0, h, PgInstallNative, NoPayload))
                 || (primary.None? && (|| x == Row(c, k, h, PgInit, NoPayload)
                                       || x == Row(c, k + 1, h, PgStart, NoPayload)
                                       || x == Row(c, k + 2, h, PgCreateReplUser, NoPayload)))
                 || (primary.Some? && (|| x == Row(c, k, h, PgBasebackup, AddressOf(primary.value))
                                       || x == Row(c, k + 1, h, RepointReplica, AddressOf(primary.value))
                                       || x == Row(c, k + 2, h, PgStart, NoPayload)))
  {
    var orders := Made.ContinuationOrders(h, primary, skipInstall);
    if skipInstall || h.installed {
      QueuedThree(c, h, orders);
    } else {
      QueuedFour(c, h, orders);
    }
  }

  // ---- What the decision about the cluster makes of them ----

  /** With fewer than a thousand hosts, the hosts of the cluster are all there, and nobody else's. */
  lemma HostsListed(hosts: seq<Host>, k: Id, h: Host)
    ensures h in HostsOf(hosts, k) ==> h in hosts && h.cluster == Some(k)
    ensures |HostsOf(hosts, k)| < 1000 && h in hosts && h.cluster == Some(k) ==> h in HostsOf(hosts, k)
  {
    FilterIs(hosts, k, true, h);
    FilterIs(hosts, k, false, h);
  }

  lemma {:induction false} FilterIs(hosts: seq<Host>, k: Id, primary: bool, h: Host)
    ensures h in Filter(hosts, k, primary) <==> h in hosts && h.cluster == Some(k) && h.primary == primary
  {
    if |hosts| > 0 {
      FilterIs(hosts[1..], k, primary, h);
      assert hosts == [hosts[0]] + hosts[1..];
    }
  }

  /** A cluster's tables as its Docker creation leaves them, k its identifier. */
  ghost predicate CreatedSite(s: Site, k: Id, c: Made.Creation, primary: Made.Host, replicas: seq<Made.Host>,
                              password: Secret)
  {
    && s.commands == Made.ClusterQueued(c, primary, replicas, Made.Docker, password).commands
    && k in s.clusters && s.clusters[k].createdAt <= c.clock
  }

  lemma RowCounts(c: Made.Creation, primary: Made.Host, replicas: seq<Made.Host>, x: Command, since: Time)
    requires HostRow(c, primary, replicas, x) && since <= c.clock
    ensures Counts(x, since)
  {
  }

  /**
   A Docker cluster goes from creating to running only once every command its creation queued
   for its hosts has completed, whatever was reported, queued or changed meanwhile.
   */
  lemma RunningAfterEveryCommand(s: Site, k: Id, c: Made.Creation, primary: Made.Host, replicas: seq<Made.Host>,
                                 password: Secret, run: seq<SiteEvent>, e: SiteEvent, x: Command)
    requires CreatedSite(s, k, c, primary, replicas, password) && HostRow(c, primary, replicas, x)
    requires x.nodeId in Ids(HostsOf(s.hosts, k)) && Listed(SiteRun(s, run), k, x)
    requires StartsRunning(SiteRun(s, run), e, k)
    ensures x.(status := Completed) in SiteStep(SiteRun(s, run), e).commands
  {
    DockerCreationQueues(c, primary, replicas, password);
    RowCounts(c, primary, replicas, x, s.clusters[k].createdAt);
    RunningOnlyWhenProvisioned(s, run, e, k, x);
  }

  /** A reported result stops the creating cluster. */
  ghost predicate Stops(t: Site, e: SiteEvent, k: Id) {
    && e.CommandReport? && k in t.clusters && t.clusters[k].phase == Creating
    && var after := SiteStep(t, e).clusters; k in after && after[k].phase == Stopped
  }

  lemma StopDecides(t: Site, e: SiteEvent, k: Id)
    requires Stops(t, e, k)
    ensures var u := BeforeDecision(t, e.id, e.success, e.preflight);
            && SiteStep(t, e) == Decided(u, k) && k in u.clusters && u.clusters[k].phase == Creating
            && Decided(u, k).clusters[k].phase == Stopped
  {
  }

  /** Once it is stopped, none of those commands is pending. */
  lemma NonePendingOnceStopped(s: Site, k: Id, c: Made.Creation, primary: Made.Host, replicas: seq<Made.Host>,
                               password: Secret, run: seq<SiteEvent>, e: SiteEvent, x: Command, now: Command)
    requires CreatedSite(s, k, c, primary, replicas, password) && HostRow(c, primary, replicas, x)
    requires x.nodeId in Ids(HostsOf(s.hosts, k)) && Stops(SiteRun(s, run), e, k)
    requires now in SiteStep(SiteRun(s, run), e).commands && now == x.(status := now.status)
    ensures now.status != Pending
  {
    var t := SiteRun(s, run);
    var u := BeforeDecision(t, e.id, e.success, e.preflight);
    StopDecides(t, e, k);
    OnwardRun(s, run);
    OnwardBefore(t, e.id, e.success, e.preflight);
    SameHosts(s.hosts, t.hosts, k);
    SameHosts(t.hosts, u.hosts, k);
    RowCounts(c, primary, replicas, x, s.clusters[k].createdAt);
    StoppedMeansNonePending(u, k, now);
  }

  // ---- What one report does to its host and cluster ----

  /** The reported command and the host it ran on. */
  ghost predicate RanOn(s: Site, x: Command, h: Host) {
    UniqueIds(s.commands) && x in s.commands && HostById(s.hosts, x.nodeId) == Some(h)
  }

  lemma ReportedRow(s: Site, x: Command, h: Host, success: bool)
    requires RanOn(s, x, h)
    ensures h in s.hosts && h.id == x.nodeId
    ensures var f := Find(Report(s.commands, x.id, success), x.id);
            f == Some(x.(status := if success then Completed else Failed))
  {
    var i :| 0 <= i < |s.commands| && s.commands[i] == x;
    assert Report(s.commands, x.id, success)[i] == Reported(x, x.id, success);
    assert UniqueIds(Report(s.commands, x.id, success));
    FindUnique(Report(s.commands, x.id, success), Report(s.commands, x.id, success)[i]);
    HostByIdIs(s.hosts, x.nodeId);
  }

  lemma HostByIdIs(hosts: seq<Host>, id: Id)
    ensures HostById(hosts, id).Some? ==> HostById(hosts, id).value in hosts && HostById(hosts, id).value.id == id
  {
  }

  /** A set-up command failed whose cluster is past its creation. */
  predicate FailedLater(s: Site, x: Command, h: Host, success: bool) {
    && !success && IsProvisioning(x.action) && h.cluster.Some? && h.cluster.value in s.clusters
    && s.clusters[h.cluster.value].phase != Creating
  }

  /** The installation state a report puts its host in; one that a later failure degrades keeps its own. */
  lemma ReportMovesHost(s: Site, x: Command, h: Host, success: bool, preflight: InstallState)
    requires RanOn(s, x, h)
    ensures var t := SiteStep(s, CommandReport(x.id, success, preflight));
            && |t.hosts| == |s.hosts|
            && forall i | 0 <= i < |s.hosts| ::
                 t.hosts[i] ==
                 if s.hosts[i].id != x.nodeId || FailedLater(s, x, h, success) then s.hosts[i]
                 else if !success && IsProvisioning(x.action) then s.hosts[i].(state := InstallFailed)
                 else if success && x.action == PgPreflight then s.hosts[i].(state := preflight)
                 else if success && (x.action == PgInstallNative || x.action == PgInstallDocker)
                 then s.hosts[i].(state := Installed)
                 else if success && x.action == PgPurgeNative then s.hosts[i].(state := Installing)
                 else if success && x.action == PgAdoptNative then s.hosts[i].(state := Adopted)
                 else s.hosts[i].(state := h.state)
  {
    ReportedRow(s, x, h, success);
  }

  lemma SettledStays(u: Site, d: Id, k: Id)
    requires k in u.clusters && u.clusters[k].phase != Creating
    ensures k in Decided(u, d).clusters && Decided(u, d).clusters[k] == u.clusters[k]
  {
  }

  /** A cluster that is past its creation moves by a failed set-up command of one of its hosts, and degrades. */
  lemma ReportMovesCluster(s: Site, x: Command, h: Host, success: bool, preflight: InstallState, k: Id)
    requires RanOn(s, x, h) && k in s.clusters && s.clusters[k].phase != Creating
    ensures var t := SiteStep(s, CommandReport(x.id, success, preflight));
            k in t.clusters && t.clusters[k] ==
            if h.cluster == Some(k) && !success && IsProvisioning(x.action) then s.clusters[k].(phase := Degraded)
            else s.clusters[k]
  {
    ReportedRow(s, x, h, success);
    var u := BeforeDecision(s, x.id, success, preflight);
    assert k in u.clusters && u.clusters[k] ==
        if h.cluster == Some(k) && !success && IsProvisioning(x.action) then s.clusters[k].(phase := Degraded)
        else s.clusters[k];
    var d := ClusterOfCommand(u, x.id);
    if d.Some? {
      SettledStays(u, d.value, k);
    }
  }

  lemma {:induction false} SomeFailedFails(hosts: seq<Host>)
    requires (forall h <- hosts :: !Blocks(h.state)) && exists h <- hosts :: h.state == InstallFailed
    ensures HostVerdict(hosts) == Fail
  {
    assert hosts == [hosts[0]] + hosts[1..];
    assert hosts[0] in hosts;
    if hosts[0].state != InstallFailed {
      SomeFailedFails(hosts[1..]);
    }
  }

  /** Reporting the failure of any command its creation queued for a host stops a cluster that waits for no host. */
  lemma FailureStops(s: Site, k: Id, h: Host, c: Made.Creation, primary: Made.Host, replicas: seq<Made.Host>,
                     x: Command, preflight: InstallState)
    requires RanOn(s, x, h) && h.cluster == Some(k) && k in s.clusters && s.clusters[k].phase == Creating
    requires exists row :: HostRow(c, primary, replicas, row) && x == row.(status := x.status)
    requires |HostsOf(s.hosts, k)| < 1000
    requires forall g <- s.hosts | g.cluster == Some(k) ::
               g.state != Conflict && g.state != PendingPreflight && g.state != Installing
    ensures Stops(s, CommandReport(x.id, false, preflight), k)
  {
    var u := BeforeDecision(s, x.id, false, preflight);
    ReportedRow(s, x, h, false);
    assert u == s.(commands := Report(s.commands, x.id, false), hosts := WithState(s.hosts, h.id, InstallFailed));
    FailedHostListed(s.hosts, k, h);
    StoppedIff(u, k);
    HostByIdKept(s.hosts, x.nodeId, InstallFailed);
  }

  /** The failed host is listed, and no other one of the cluster is being waited for. */
  lemma FailedHostListed(hosts: seq<Host>, k: Id, h: Host)
    requires h in hosts && h.cluster == Some(k) && |HostsOf(hosts, k)| < 1000
    requires forall g <- hosts | g.cluster == Some(k) ::
               g.state != Conflict && g.state != PendingPreflight && g.state != Installing
    ensures FailsFirst(HostsOf(WithState(hosts, h.id, InstallFailed), k))
  {
    var after := WithState(hosts, h.id, InstallFailed);
    var list := HostsOf(after, k);
    SameFilter(hosts, after, k, true);
    SameFilter(hosts, after, k, false);
    var i :| 0 <= i < |hosts| && hosts[i] == h;
    HostsListed(after, k, after[i]);
    forall g <- list ensures !Blocks(g.state) {
      HostsListed(after, k, g);
      var j :| 0 <= j < |after| && after[j] == g;
      assert hosts[j] in hosts;
    }
    SomeFailedFails(list);
    FailMeansFirst(list);
  }

  lemma {:induction false} HostByIdKept(hosts: seq<Host>, id: Id, state: InstallState)
    requires HostById(hosts, id).Some?
    ensures HostById(WithState(hosts, id, state), id) == Some(HostById(hosts, id).value.(state := state))
  {
    if hosts[0].id != id {
      assert WithState(hosts, id, state)[1..] == WithState(hosts[1..], id, state);
      HostByIdKept(hosts[1..], id, state);
    }
  }
}
