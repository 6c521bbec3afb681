/**
 The commands a new cluster's nodes are sent, in queueing order, and what they mean for the
 bootstrap of skylex_admin: a Docker cluster starts with the order the control loop needs,
 a native one stores the password without queueing the role.
 */
module ClusterCommands {
  import opened Wrappers
  import opened Commands
  import opened Metadata
  import opened ManagementService
  import opened PostgresRoles
  import opened AgentProtocol
  import opened ControlLoop
  import opened ControlView
  import opened RoleChanges
  import opened AdminBootstrap
  import opened AdminPassword

  datatype Location = Native | Docker

  datatype Host = Host(agent: Id, node: Id, address: string, hostname: string, port: int, installed: bool)

  datatype Order = Order(action: Action, payload: Payload)

  function NodeAddress(h: Host): string {
    if h.address != "" then h.address else h.hostname
  }

  function InstallCommands(h: Host, location: Location, resolvedNativeConflict: bool): seq<Order> {
    if location == Native && !resolvedNativeConflict then [Order(PgPreflight, NoPayload)]
    else if location == Docker then [Order(PgInstallDocker, NoPayload)]
    else if !h.installed then [Order(PgInstallNative, NoPayload)]
    else []
  }

  function PrimaryCommands(): seq<Order> {
    [Order(PgInit, NoPayload), Order(PgStart, NoPayload), Order(PgCreateReplUser, NoPayload)]
  }

  function ReplicaCommands(primary: Host): seq<Order> {
    var payload := AddressPayload(NodeAddress(primary), primary.port);
    [Order(PgBasebackup, payload), Order(RepointReplica, payload), Order(PgStart, NoPayload)]
  }

  function PrimaryOrders(primary: Host, location: Location): seq<Order> {
    InstallCommands(primary, location, false) + if location != Native then PrimaryCommands() else []
  }

  function ReplicaOrders(replica: Host, primary: Host, location: Location): seq<Order> {
    InstallCommands(replica, location, false) + if location != Native then ReplicaCommands(primary) else []
  }

  /** The queue, the secrets and the identifier and clock the next command draws. */
  datatype Creation = Creation(commands: seq<Command>, secrets: map<Id, Secrets>, admin: Option<Secret>, next: Id,
      clock: Time)

  function NewCommand(c: Creation, h: Host, o: Order): Command {
    Command(c.next, h.agent, h.node, o.action, o.payload, Pending, c.clock)
  }

  function WithOrder(c: Creation, h: Host, o: Order): Creation {
    c.(commands := Insert(c.commands, NewCommand(c, h, o)),
       next := c.next + 1, clock := c.clock + 1)
  }

  function QueuedAll(c: Creation, h: Host, orders: seq<Order>): Creation {
    if |orders| == 0 then c else WithOrder(QueuedAll(c, h, orders[..|orders| - 1]), h, orders[|orders| - 1])
  }

  /** The password is always stored; its command is queued unless the location is native. */
  function AdminQueued(c: Creation, primary: Host, location: Location, password: Secret): Creation {
    var stored := c.(admin := Some(password));
    if location == Native then stored
    else WithOrder(stored, primary, Order(PgEnsureAdminRole, NoPayload))
         .(secrets := c.secrets[c.next := Secrets(None, Some(password))])
  }

  function ReplicasQueued(c: Creation, replicas: seq<Host>, primary: Host, location: Location): Creation {
    if |replicas| == 0 then c
    else
      var r := replicas[|replicas| - 1];
      QueuedAll(ReplicasQueued(c, replicas[..|replicas| - 1], primary, location), r,
          ReplicaOrders(r, primary, location))
  }

  /** Primary, admin role, replicas: the order in which CreateCluster queues. */
  function ClusterQueued(c: Creation, primary: Host, replicas: seq<Host>, location: Location,
          password: Secret): Creation {
    var p := QueuedAll(c, primary, PrimaryOrders(primary, location));
    ReplicasQueued(AdminQueued(p, primary, location, password), replicas, primary, location)
  }

  /** After its preflight a native node is installed unless that is skipped, and then set up like a Docker one. */
  function ContinuationOrders(h: Host, primary: Option<Host>, skipInstall: bool): seq<Order> {
    (if skipInstall then [] else InstallCommands(h, Native, true))
    + if primary.Some? then ReplicaCommands(primary.value) else PrimaryCommands()
  }

  class Provisioner {
    var commands: seq<Command>
    var secrets: map<Id, Secrets>
    var admin: Option<Secret>
    var next: Id
    var clock: Time

    constructor (c: Creation)
      ensures State() == c
    {
      commands, secrets, admin, next, clock := c.commands, c.secrets, c.admin, c.next, c.clock;
    }

    function State(): Creation
      reads this
    {
      Creation(commands, secrets, admin, next, clock)
    }

    method Create(h: Host, o: Order)
      modifies this
      ensures State() == WithOrder(old(State()), h, o)
    {
      commands := Insert(commands, Command(next, h.agent, h.node, o.action, o.payload, Pending, clock));
      next, clock := next + 1, clock + 1;
    }

    method QueueNodeCommands(h: Host, orders: seq<Order>)
      modifies this
      ensures State() == QueuedAll(old(State()), h, orders)
    {
      var i := 0;
      while i < |orders|
        invariant 0 <= i <= |orders| && State() == QueuedAll(old(State()), h, orders[..i])
      {
        assert orders[..i + 1][..i] == orders[..i];
        Create(h, orders[i]);
        i := i + 1;
      }
      assert orders[..i] == orders;
    }

    /** A primary goes without a `primary`; a replica needs the one its cluster has. */
    method QueueNativeProvisioningContinuation(h: Host, primary: Option<Host>, skipInstall: bool)
      modifies this
      ensures State() == QueuedAll(old(State()), h, ContinuationOrders(h, primary, skipInstall))
    {
      var orders := InstallCommands(h, Native, true);
      if skipInstall {
        orders := [];
      }
      if primary.None? {
        orders := orders + PrimaryCommands();
      } else {
        orders := orders + ReplicaCommands(primary.value);
      }
      QueueNodeCommands(h, orders);
    }

    method QueueAdminRoleCommand(primary: Host, location: Location, password: Secret)
      modifies this
      ensures State() == AdminQueued(old(State()), primary, location, password)
    {
      admin := Some(password);
      if location == Native {
        return;
      }
      secrets := secrets[next := Secrets(None, Some(password))];
      Create(primary, Order(PgEnsureAdminRole, NoPayload));
    }

    method QueueCluster(primary: Host, replicas: seq<Host>, location: Location, password: Secret)
      modifies this
      ensures State() == ClusterQueued(old(State()), primary, replicas, location, password)
    {
      var orders := InstallCommands(primary, location, false);
      if location != Native {
        orders := orders + PrimaryCommands();
      }
      QueueNodeCommands(primary, orders);
      QueueAdminRoleCommand(primary, location, password);
      ghost var before := State();
      var i := 0;
      while i < |replicas|
        invariant 0 <= i <= |replicas| && State() == ReplicasQueued(before, replicas[..i], primary, location)
      {
        assert replicas[..i + 1][..i] == replicas[..i];
        orders := InstallCommands(replicas[i], location, false);
        if location != Native {
          orders := orders + ReplicaCommands(primary);
        }
        QueueNodeCommands(replicas[i], orders);
        i := i + 1;
      }
      assert replicas[..i] == replicas;
    }
  }

  // ---- The bootstrap order at creation ----

  /** Ids and times in the queue are behind the counters, and secrets belong to queued commands. */
  ghost predicate Behind(c: Creation) {
    CommandsBounded(c.commands, c.next, c.clock) && forall id <- c.secrets :: id < c.next
  }

  ghost predicate Plain(orders: seq<Order>) {
    forall o <- orders :: o.action != PgEnsureAdminRole && !IsManaged(o.action)
  }

  /** Queueing an ordinary command keeps whatever order there is. */
  lemma QueuedOrdered(c: Creation, h: Host, o: Order, agent: Id, node: Id, admin: bool, id: Id)
    requires Behind(c) && o.action != PgEnsureAdminRole && !IsManaged(o.action)
    requires Ordered(c.commands, c.secrets, admin, agent, node, id)
    ensures Ordered(WithOrder(c, h, o).commands, c.secrets, admin, agent, node, id)
    ensures AdminIds(WithOrder(c, h, o).commands) == AdminIds(c.commands)
  {
    var x := Command(c.next, h.agent, h.node, o.action, o.payload, Pending, c.clock);
    IdsInserted(c.commands, x);
    if admin {
      NeutralInsert(c.commands, c.secrets, agent, node, x, id);
    } else {
      assert forall y :: y in c.commands + [x] <==> y in c.commands || y == x;
    }
  }

  lemma {:induction false} QueuedAllOrdered(c: Creation, h: Host, orders: seq<Order>, agent: Id, node: Id, admin: bool,
                                            id: Id)
    requires Behind(c) && Plain(orders) && Ordered(c.commands, c.secrets, admin, agent, node, id)
    ensures var d := QueuedAll(c, h, orders);
            Behind(d) && d.secrets == c.secrets && d.admin == c.admin && d.next == c.next + |orders|
                && Ordered(d.commands, d.secrets, admin, agent, node, id)
                && AdminIds(d.commands) == AdminIds(c.commands)
  {
    if |orders| > 0 {
      var n := |orders| - 1;
      QueuedAllOrdered(c, h, orders[..n], agent, node, admin, id);
      QueuedOrdered(QueuedAll(c, h, orders[..n]), h, orders[n], agent, node, admin, id);
    }
  }

  lemma OrdersPlain(h: Host, primary: Host, location: Location)
    ensures Plain(PrimaryOrders(h, location)) && Plain(ReplicaOrders(h, primary, location))
  {
    InstallPlain(h, location);
    PrimaryPlain();
    ReplicaPlain(primary);
  }

  lemma InstallPlain(h: Host, location: Location)
    ensures Plain(InstallCommands(h, location, false))
  {
  }

  lemma PrimaryPlain()
    ensures Plain(PrimaryCommands())
  {
  }

  lemma ReplicaPlain(primary: Host)
    ensures Plain(ReplicaCommands(primary))
  {
  }

  lemma AdminQueuedOrdered(c: Creation, primary: Host, location: Location, password: Secret)
    requires Behind(c) && Untouched(c.commands, c.secrets, primary.agent, primary.node)
    ensures var d := AdminQueued(c, primary, location, password);
            && Behind(d) && d.admin.Some?
            && Ordered(d.commands, d.secrets, location == Docker, primary.agent, primary.node, c.next)
            && AdminIds(d.commands) == AdminIds(c.commands) + if location == Docker then {c.next} else {}
  {
    if location == Docker {
      var o := Order(PgEnsureAdminRole, NoPayload);
      var x := Command(c.next, primary.agent, primary.node, o.action, o.payload, Pending, c.clock);
      var secrets := c.secrets[c.next := Secrets(None, Some(password))];
      SecretsWeaken(c.commands, c.secrets, secrets, false, primary.agent, primary.node, c.next);
      AdminAppend(c.commands, secrets, primary.agent, primary.node, x);
      IdsInserted(c.commands, x);
    }
  }

  lemma {:induction false} ReplicasOrdered(c: Creation, replicas: seq<Host>, primary: Host, location: Location,
          admin: bool, id: Id)
    requires Behind(c) && Ordered(c.commands, c.secrets, admin, primary.agent, primary.node, id)
    ensures var d := ReplicasQueued(c, replicas, primary, location);
            && Behind(d) && d.admin == c.admin && d.secrets == c.secrets
            && Ordered(d.commands, d.secrets, admin, primary.agent, primary.node, id)
            && AdminIds(d.commands) == AdminIds(c.commands)
  {
    if |replicas| > 0 {
      var n := |replicas| - 1;
      ReplicasOrdered(c, replicas[..n], primary, location, admin, id);
      OrdersPlain(replicas[n], primary, location);
      QueuedAllOrdered(ReplicasQueued(c, replicas[..n], primary, location), replicas[n],
                       ReplicaOrders(replicas[n], primary, location), primary.agent, primary.node, admin, id);
    }
  }

  /** The identifier of the admin command in a Docker creation. */
  function AdminOf(c: Creation, primary: Host, location: Location): Id {
    c.next + |PrimaryOrders(primary, location)|
  }

  lemma ClusterOrdered(c: Creation, primary: Host, replicas: seq<Host>, location: Location, password: Secret)
    requires Behind(c) && Untouched(c.commands, c.secrets, primary.agent, primary.node)
    ensures var d, id := ClusterQueued(c, primary, replicas, location, password), AdminOf(c, primary, location);
            && Behind(d) && d.admin == Some(password)
            && Ordered(d.commands, d.secrets, location == Docker, primary.agent, primary.node, id)
            && AdminIds(d.commands) == AdminIds(c.commands) + (if location == Docker then {id} else {})
            && d.secrets == if location == Docker then c.secrets[id := Secrets(None, Some(password))] else c.secrets
  {
    OrdersPlain(primary, primary, location);
    var id := AdminOf(c, primary, location);
    QueuedAllOrdered(c, primary, PrimaryOrders(primary, location), primary.agent, primary.node, false, id);
    var p := QueuedAll(c, primary, PrimaryOrders(primary, location));
    AdminQueuedOrdered(p, primary, location, password);
    ReplicasOrdered(AdminQueued(p, primary, location, password), replicas, primary, location, location == Docker, id);
  }

  /** A command of this creation provisions the role, ahead of everything on the primary that needs it. */
  ghost predicate Provisions(c: Creation, d: Creation, primary: Host) {
    exists id | c.next <= id :: AdminFirst(d.commands, d.secrets, primary.agent, primary.node, id)
  }

  /**
   After CreateCluster the password is stored. The admin role's command is queued with it,
   ahead of anything that could need the role, exactly when the location is Docker.
   */
  lemma BootstrapOrderIff(c: Creation, primary: Host, replicas: seq<Host>, location: Location, password: Secret)
    requires Behind(c) && Untouched(c.commands, c.secrets, primary.agent, primary.node)
    ensures var d := ClusterQueued(c, primary, replicas, location, password);
            d.admin == Some(password) && (Provisions(c, d, primary) <==> location == Docker)
  {
    ClusterOrdered(c, primary, replicas, location, password);
    var d := ClusterQueued(c, primary, replicas, location, password);
    if location == Docker {
      assert AdminFirst(d.commands, d.secrets, primary.agent, primary.node, AdminOf(c, primary, location));
    } else {
      forall id | c.next <= id ensures !AdminFirst(d.commands, d.secrets, primary.agent, primary.node, id) {
        LeaderIsAdmin(d.commands, d.secrets, primary.agent, primary.node, id);
      }
    }
  }

  lemma LeaderIsAdmin(t: seq<Command>, secrets: map<Id, Secrets>, agent: Id, node: Id, id: Id)
    ensures AdminFirst(t, secrets, agent, node, id) ==> id in AdminIds(t)
  {
  }

  // ---- A created cluster is where the runs start ----

  /** What is pending on a node leaves its data directory in place and manages nothing. */
  ghost predicate Harmless(t: seq<Command>, agent: Id, node: Id) {
    forall x <- t | InQueue(x, agent, node) :: !IsManaged(x.action) && !ReplacesData(x.action)
  }

  /** The orders queued for a host leave another node's queue alone, or are harmless themselves. */
  ghost predicate Elsewhere(h: Host, orders: seq<Order>, agent: Id, node: Id) {
    (h.agent != agent && h.node != node) || forall o <- orders :: !ReplacesData(o.action)
  }

  lemma {:induction false} QueuedAllHarmless(c: Creation, h: Host, orders: seq<Order>, agent: Id, node: Id)
    requires Harmless(c.commands, agent, node) && Plain(orders) && Elsewhere(h, orders, agent, node)
    ensures Harmless(QueuedAll(c, h, orders).commands, agent, node)
  {
    if |orders| > 0 {
      var n := |orders| - 1;
      var d := QueuedAll(c, h, orders[..n]);
      QueuedAllHarmless(c, h, orders[..n], agent, node);
      InsertMembers(d.commands, NewCommand(d, h, orders[n]));
    }
  }

  lemma {:induction false} ReplicasHarmless(c: Creation, replicas: seq<Host>, primary: Host, location: Location)
    requires Harmless(c.commands, primary.agent, primary.node)
    requires forall r <- replicas :: r.agent != primary.agent && r.node != primary.node
    ensures Harmless(ReplicasQueued(c, replicas, primary, location).commands, primary.agent, primary.node)
  {
    if |replicas| > 0 {
      var n := |replicas| - 1;
      ReplicasHarmless(c, replicas[..n], primary, location);
      OrdersPlain(replicas[n], primary, location);
      QueuedAllHarmless(ReplicasQueued(c, replicas[..n], primary, location), replicas[n],
                        ReplicaOrders(replicas[n], primary, location), primary.agent, primary.node);
    }
  }

  lemma PrimaryStays(h: Host, location: Location)
    ensures forall o <- PrimaryOrders(h, location) :: !ReplacesData(o.action)
  {
    assert forall o <- InstallCommands(h, location, false) :: !ReplacesData(o.action);
    assert forall o <- PrimaryCommands() :: !ReplacesData(o.action);
  }

  lemma AdminHarmless(c: Creation, primary: Host, location: Location, password: Secret)
    requires Harmless(c.commands, primary.agent, primary.node)
    ensures Harmless(AdminQueued(c, primary, location, password).commands, primary.agent, primary.node)
  {
    InsertMembers(c.commands, NewCommand(c, primary, Order(PgEnsureAdminRole, NoPayload)));
  }

  lemma ClusterHarmless(c: Creation, primary: Host, replicas: seq<Host>, location: Location, password: Secret)
    requires Harmless(c.commands, primary.agent, primary.node)
    requires forall r <- replicas :: r.agent != primary.agent && r.node != primary.node
    ensures Harmless(ClusterQueued(c, primary, replicas, location, password).commands, primary.agent, primary.node)
  {
    OrdersPlain(primary, primary, location);
    PrimaryStays(primary, location);
    QueuedAllHarmless(c, primary, PrimaryOrders(primary, location), primary.agent, primary.node);
    var p := QueuedAll(c, primary, PrimaryOrders(primary, location));
    AdminHarmless(p, primary, location, password);
    ReplicasHarmless(AdminQueued(p, primary, location, password), replicas, primary, location);
  }

  lemma {:induction false} QueuedAllKeeps(c: Creation, h: Host, orders: seq<Order>)
    ensures forall x <- c.commands :: x in QueuedAll(c, h, orders).commands
  {
    if |orders| > 0 {
      var n := |orders| - 1;
      var d := QueuedAll(c, h, orders[..n]);
      QueuedAllKeeps(c, h, orders[..n]);
      InsertMembers(d.commands, NewCommand(d, h, orders[n]));
    }
  }

  lemma {:induction false} ReplicasKeep(c: Creation, replicas: seq<Host>, primary: Host, location: Location)
    ensures forall x <- c.commands :: x in ReplicasQueued(c, replicas, primary, location).commands
  {
    if |replicas| > 0 {
      var n := |replicas| - 1;
      ReplicasKeep(c, replicas[..n], primary, location);
      QueuedAllKeeps(ReplicasQueued(c, replicas[..n], primary, location), replicas[n],
                     ReplicaOrders(replicas[n], primary, location));
    }
  }

  lemma ClusterWaits(c: Creation, primary: Host, replicas: seq<Host>, password: Secret)
    ensures AdminWaiting(ClusterQueued(c, primary, replicas, Docker, password).commands, primary.agent, primary.node)
  {
    var p := QueuedAll(c, primary, PrimaryOrders(primary, Docker));
    var x := Command(p.next, primary.agent, primary.node, PgEnsureAdminRole, NoPayload, Pending, p.clock);
    InsertMembers(p.commands, x);
    ReplicasKeep(AdminQueued(p, primary, Docker, password), replicas, primary, Docker);
    assert x in AdminQueued(p, primary, Docker, password).commands;
  }

  /** The control loop of a cluster that has just been created. */
  function Started(d: Creation, primary: Host, pg: RoleTable, accounts: Accounts): System {
    System(Store(map[], map[], map[], d.commands, d.secrets, d.admin), pg, d.next, d.clock, primary.agent, primary.node,
           accounts)
  }

  /**
   Whatever the command table held of other nodes and of the past, and however many replicas
   there are: right after CreateCluster the runs may start. With Docker skylex_admin is
   bootstrapped, and its stored password is on its way.
   */
  lemma CreatedClusterStarts(c: Creation, primary: Host, replicas: seq<Host>, location: Location, password: Secret,
                             pg: RoleTable, accounts: Accounts)
    requires Behind(c) && Untouched(c.commands, c.secrets, primary.agent, primary.node)
    requires Harmless(c.commands, primary.agent, primary.node)
    requires forall r <- replicas :: r.agent != primary.agent && r.node != primary.node
    ensures var s := Started(ClusterQueued(c, primary, replicas, location, password), primary, pg, accounts);
            && Initial(s)
            && (location == Docker ==> Bootstrapped(s, AdminOf(c, primary, location)) && AdminSettled(s))
  {
    ClusterOrdered(c, primary, replicas, location, password);
    ClusterHarmless(c, primary, replicas, location, password);
    if location == Docker {
      var d, id := ClusterQueued(c, primary, replicas, location, password), AdminOf(c, primary, location);
      StartedKeyed(d, primary, id, password);
      ClusterWaits(c, primary, replicas, password);
    }
  }

  /** The one pending admin command of the primary is the new one, and has its key. */
  lemma StartedKeyed(d: Creation, primary: Host, id: Id, password: Secret)
    requires AdminFirst(d.commands, d.secrets, primary.agent, primary.node, id) && d.admin == Some(password)
    requires id in d.secrets && d.secrets[id] == Secrets(None, Some(password))
    ensures AdminKeyed(Store(map[], map[], map[], d.commands, d.secrets, d.admin), primary.agent, primary.node)
  {
    var k: nat :| AdminAt(d.commands, d.secrets, primary.agent, primary.node, k) && d.commands[k].id == id;
    forall x <- d.commands | IsAdmin(x) && InQueue(x, primary.agent, primary.node) ensures x.id == id {
      var j :| 0 <= j < |d.commands| && d.commands[j] == x;
      assert j == k;
    }
  }
}
