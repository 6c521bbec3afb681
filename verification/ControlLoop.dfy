/**
 One cluster's asynchronous control loop over whole runs: management requests queue
 commands on a fixed primary, its agent polls, executes and reports, and reports may be
 lost. Requests, polls and result reports are single steps.
 */
module ControlLoop {
  import opened Wrappers
  import opened Commands
  import opened Metadata
  import opened ManagedRoleRepo
  import DB = ManagedDatabaseRepo
  import opened ManagementService
  import opened PostgresRoles
  import opened AgentProtocol

  datatype System = System(
    store: Store, pg: RoleTable, nextId: Id, clock: Time, agent: Id, node: Id, accounts: Accounts)

  /** The part of a step that the code does not decide: elapsed time, primary readiness, generated values. */
  datatype Circumstance = Circumstance(wait: nat, gap: nat, ready: bool, allowPromote: bool, adminPassword: Secret)

  /** Requests appear from the moment they hold the cluster lock. */
  datatype Event =
    | CreateRoleEvent(name: string, kind: RoleKind, password: Secret)
    | RotateRoleEvent(roleId: Id, password: Secret)
    | DeleteRoleEvent(roleId: Id)
    | CreateDatabaseEvent(name: string, owner: Option<Owner>)
    | DeleteDatabaseEvent(databaseId: Id)
    | ApplyExtensionsEvent
    | QueueOtherEvent(action: Action, agentId: Id, nodeId: Id)
    | PollEvent(fault: Fault, delivered: bool)

  datatype Occurrence = Occurrence(event: Event, given: Circumstance)

  predicate IsManaged(a: Action) {
    OperationTypeForRoleAction(a).Some? || DB.OperationTypeForDatabaseAction(a).Some?
  }

  /** Commands of other subsystems; those for the primary leave its data directory in place. */
  predicate IsForeign(c: Command, agent: Id, node: Id) {
    !IsManaged(c.action) && c.action != PgEnsureAdminRole && (InQueue(c, agent, node) ==> !ReplacesData(c.action))
  }

  /** A command of another subsystem, for any agent. */
  function OtherCommand(e: Event, w: Draw): Command
    requires e.QueueOtherEvent?
  {
    Command(w.first, e.agentId, e.nodeId, e.action, NoPayload, Pending, w.now)
  }

  /** Fresh identifiers and strictly later clock readings, before-actions excepted. */
  function DrawFor(s: System, given: Circumstance): Draw {
    Draw(s.nextId, s.clock + 1 + given.wait, s.clock + 2 + given.wait + given.gap, given.adminPassword,
         if given.ready then Some(Primary(s.agent, s.node)) else None, given.allowPromote)
  }

  ghost function Requested(s: Store, e: Event, w: Draw): Store
    requires !e.PollEvent? && !e.QueueOtherEvent?
  {
    match e
    case CreateRoleEvent(name, kind, password) => CreateRole(s, name, kind, password, w)
    case RotateRoleEvent(roleId, password) => RotateRole(s, roleId, password, w)
    case DeleteRoleEvent(roleId) => DeleteRole(s, roleId, w)
    case CreateDatabaseEvent(name, owner) => CreateDatabase(s, name, owner, w)
    case DeleteDatabaseEvent(id) => DeleteDatabase(s, id, w)
    case ApplyExtensionsEvent => ApplyExtensions(s, w)
  }

  function Poll(s: System, fault: Fault, delivered: bool, w: Draw): System {
    var q := Queue(s.store.commands, s.agent, s.node);
    if q == [] then s
    else
      var (pg, ok) := Executed(s.accounts, s.pg, q[0], s.store.secrets, fault);
      s.(pg := pg, store := if delivered then ReportResult(s.store, q[0].id, ok, w) else s.store)
  }

  ghost function Step(s: System, o: Occurrence): System {
    var w := DrawFor(s, o.given);
    var after :=
      match o.event
      case PollEvent(fault, delivered) => Poll(s, fault, delivered, w)
      case QueueOtherEvent(_, _, _) =>
        var c := OtherCommand(o.event, w);
        if !IsForeign(c, s.agent, s.node) then s
        else s.(store := s.store.(commands := Insert(s.store.commands, c)))
      case _ => s.(store := Requested(s.store, o.event, w));
    after.(nextId := s.nextId + DRAWN, clock := w.now)
  }

  ghost function Run(s: System, run: seq<Occurrence>): System {
    if |run| == 0 then s else Step(Run(s, run[..|run| - 1]), run[|run| - 1])
  }

  // ---- Freshness: identifiers and times drawn by a step are new ----

  ghost predicate CommandsBounded(t: seq<Command>, next: Id, clock: Time) {
    UniqueIds(t) && forall c <- t :: c.id < next && c.createdAt <= clock
  }

  ghost predicate Bounded(s: Store, next: Id, clock: Time) {
    && CommandsBounded(s.commands, next, clock)
    && (forall id <- s.operations :: id < next)
    && (forall id <- s.roles :: id < next)
    && (forall id <- s.databases :: id < next)
    && (forall id <- s.secrets :: id < next)
    && UniqueNames(s.roles)
  }

  ghost predicate Fresh(s: System) {
    Bounded(s.store, s.nextId, s.clock)
  }

  // ---- The queue as seen by role and database management ----

  function Managed(q: seq<Command>): seq<Command> {
    if |q| == 0 then []
    else Managed(q[..|q| - 1]) + if IsManaged(q[|q| - 1].action) then [q[|q| - 1]] else []
  }

  /** The pending management commands of the primary, oldest first. */
  function Backlog(s: System): seq<Command> {
    Managed(Queue(s.store.commands, s.agent, s.node))
  }

  lemma ManagedAppend(a: seq<Command>, b: seq<Command>)
    ensures Managed(a + b) == Managed(a) + Managed(b)
  {
    if |b| == 0 {
      assert a + b == a;
    } else {
      var n := |b| - 1;
      assert (a + b)[..|a| + n] == a + b[..n];
      ManagedAppend(a, b[..n]);
    }
  }

  lemma ManagedSound(q: seq<Command>)
    ensures forall c <- Managed(q) :: c in q && IsManaged(c.action)
  {
  }

  lemma NoneManaged(q: seq<Command>)
    requires forall c <- q :: !IsManaged(c.action)
    ensures Managed(q) == []
  {
  }

  lemma {:induction false} ManagedEntered(before: seq<Command>, c: Command, after: seq<Command>)
    requires Entered(before, c, after) && !IsManaged(c.action)
    ensures Managed(after) == Managed(before)
  {
    var n := |after| - 1;
    if !(after[n] == c && after[..n] == before) {
      ManagedEntered(before[..|before| - 1], c, after[..n]);
    }
  }

  lemma ManagedTail(q: seq<Command>)
    requires q != []
    ensures IsManaged(q[0].action) ==> Managed(q) == [q[0]] + Managed(q[1..])
    ensures !IsManaged(q[0].action) ==> Managed(q[1..]) == Managed(q)
  {
    ManagedAppend([q[0]], q[1..]);
    assert [q[0]] + q[1..] == q;
    assert Managed([q[0]]) == if IsManaged(q[0].action) then [q[0]] else [];
  }

  /** Inserting a command that is not a management command does not show in the backlog. */
  lemma BacklogUnchanged(t: seq<Command>, c: Command, agent: Id, node: Id)
    requires !IsManaged(c.action)
    ensures Managed(Queue(Insert(t, c), agent, node)) == Managed(Queue(t, agent, node))
  {
    if InQueue(c, agent, node) {
      QueueAfterInsert(t, c, agent, node);
      ManagedEntered(Queue(t, agent, node), c, Queue(Insert(t, c), agent, node));
    } else {
      QueueAfterOther(t, c, agent, node);
    }
  }

  lemma BacklogSnoc(t: seq<Command>, c: Command, agent: Id, node: Id)
    requires forall x <- t :: x.createdAt <= c.createdAt
    requires c.status == Pending && Addressed(c, agent, node) && IsManaged(c.action)
    ensures Managed(Queue(Insert(t, c), agent, node)) == Managed(Queue(t, agent, node)) + [c]
  {
  }

  // ---- What one step does to the rows and to the backlog ----

  lemma InsertBounded(t: seq<Command>, c: Command, next: Id, clock: Time, later: Time)
    requires CommandsBounded(t, next, clock) && next <= c.id && clock <= later && c.createdAt <= later
    ensures !HasId(t, c.id)
    ensures CommandsBounded(Insert(t, c), c.id + 1, later)
  {
    InsertUnique(t, c);
    InsertMembers(t, c);
  }

  ghost predicate SecretsKept(before: map<Id, Secrets>, after: map<Id, Secrets>, next: Id) {
    && (forall k <- before :: k in after && after[k] == before[k])
    && (forall k <- after :: k in before || next <= k < next + DRAWN)
  }

  lemma AdminCommands(s: Store, w: Draw, p: Primary, next: Id, clock: Time)
    requires CommandsBounded(s.commands, next, clock) && next == w.first && clock < w.adminAt
    ensures CommandsBounded(EnsureAdmin(s, w, p).0.commands, next + 1, w.adminAt)
    ensures Managed(Queue(EnsureAdmin(s, w, p).0.commands, p.agent, p.node)) ==
            Managed(Queue(s.commands, p.agent, p.node))
  {
    if s.adminSecret.None? {
      InsertBounded(s.commands, AdminCommand(w, p), next, clock, w.adminAt);
      BacklogUnchanged(s.commands, AdminCommand(w, p), p.agent, p.node);
    }
  }

  /** Commands of a management request: the before-action may land anywhere, the command lands last. */
  lemma RequestCommands(t: seq<Command>, d: Dispatch, action: Action, payload: Payload, next: Id, clock: Time)
    requires CommandsBounded(t, next, clock) && clock < d.now && IsManaged(action)
    requires d.before.Some? ==> d.before.value == next
    requires d.command == next + 1
    ensures var q := QueueCommands(t, d, action, payload);
            && q.Some?
            && CommandsBounded(q.value, next + 2, d.now)
            && Managed(Queue(q.value, d.agent, d.node)) ==
               Managed(Queue(t, d.agent, d.node)) + [MainCommand(d, action, payload)]
  {
    var queued := t;
    if d.before.Some? {
      InsertBounded(t, BeforeCommand(d), next, clock, d.now);
      BacklogUnchanged(t, BeforeCommand(d), d.agent, d.node);
      queued := Insert(t, BeforeCommand(d));
    }
    InsertBounded(queued, MainCommand(d, action, payload), next + 1, d.now, d.now);
    BacklogSnoc(queued, MainCommand(d, action, payload), d.agent, d.node);
  }

  /** What a queued management request leaves in the command table. */
  ghost predicate QueuedCommand(s: Store, q: Store, w: Draw, p: Primary, c: Command) {
    && c.id == w.first + 2 && c.status == Pending
    && CommandsBounded(q.commands, w.first + DRAWN, w.now)
    && Managed(Queue(q.commands, p.agent, p.node)) == Managed(Queue(s.commands, p.agent, p.node)) + [c]
  }

  /** ... and in the other tables, the row it is about aside. */
  ghost predicate QueuedRows(s: Store, q: Store, w: Draw, kind: OperationType) {
    && q.operations == s.operations[w.first + 3 := Operation(kind, OpRunning)]
    && SecretsKept(s.secrets, q.secrets, w.first)
    && q.adminSecret == (if s.adminSecret.Some? then s.adminSecret else Some(w.adminPassword))
  }

  lemma SecretAdded(before: map<Id, Secrets>, after: map<Id, Secrets>, next: Id, id: Id, secrets: Secrets)
    requires (forall k <- before :: k < next) && SecretsKept(before, after, next) && next <= id < next + DRAWN
    ensures SecretsKept(before, after[id := secrets], next)
  {
  }

  lemma AdminSecrets(s: Store, w: Draw, p: Primary)
    requires forall k <- s.secrets :: k < w.first
    ensures SecretsKept(s.secrets, EnsureAdmin(s, w, p).0.secrets, w.first)
  {
  }

  ghost function RequestOutcome(s: Store, w: Draw, p: Primary, roles: map<Id, Role>, databases: map<Id, Database>,
                                kind: OperationType, action: Action, payload: Payload, password: Option<Secret>)
    : Option<Store>
  {
    var base := EnsureAdmin(s, w, p).0.(roles := roles, databases := databases);
    QueueOperation(base, DispatchFor(s, w, p), kind, action, payload, password)
  }

  lemma RequestCommandEffect(s: Store, w: Draw, p: Primary, roles: map<Id, Role>, databases: map<Id, Database>,
                             kind: OperationType, action: Action, payload: Payload, password: Option<Secret>,
                             clock: Time)
    requires CommandsBounded(s.commands, w.first, clock) && clock < w.adminAt < w.now && IsManaged(action)
    requires forall o <- s.operations :: o < w.first
    ensures var q := RequestOutcome(s, w, p, roles, databases, kind, action, payload, password);
            q.Some? && QueuedCommand(s, q.value, w, p, MainCommand(DispatchFor(s, w, p), action, payload))
  {
    var d := DispatchFor(s, w, p);
    var admin := EnsureAdmin(s, w, p).0;
    AdminCommands(s, w, p, w.first, clock);
    RequestCommands(admin.commands, d, action, payload, w.first + 1, w.adminAt);
    BoundsGrow(QueueCommands(admin.commands, d, action, payload).value, w.first + 3, w.first + DRAWN, w.now);
  }

  lemma BoundsGrow(t: seq<Command>, next: Id, later: Id, clock: Time)
    requires CommandsBounded(t, next, clock) && next <= later
    ensures CommandsBounded(t, later, clock)
  {
  }

  lemma RequestRowEffect(s: Store, w: Draw, p: Primary, roles: map<Id, Role>, databases: map<Id, Database>,
                         kind: OperationType, action: Action, payload: Payload, password: Option<Secret>)
    requires forall k <- s.secrets :: k < w.first
    requires RequestOutcome(s, w, p, roles, databases, kind, action, payload, password).Some?
    ensures var q := RequestOutcome(s, w, p, roles, databases, kind, action, payload, password).value;
            && QueuedRows(s, q, w, kind) && q.roles == roles && q.databases == databases
            && SecretsOf(q.secrets, w.first + 2).password == password
  {
    var admin := EnsureAdmin(s, w, p).0;
    var d := DispatchFor(s, w, p);
    AdminSecrets(s, w, p);
    SecretAdded(s.secrets, admin.secrets, w.first, w.first + 2, Secrets(password, d.admin));
    OperationRows(admin.(roles := roles, databases := databases), d, kind, action, payload, password);
  }

  /** The tables besides the queue that a queued operation changes. */
  lemma OperationRows(s: Store, d: Dispatch, kind: OperationType, action: Action, payload: Payload,
          password: Option<Secret>)
    requires QueueOperation(s, d, kind, action, payload, password).Some?
    ensures var q := QueueOperation(s, d, kind, action, payload, password).value;
            && q.operations == s.operations[d.operation := Operation(kind, OpRunning)]
            && q.secrets == s.secrets[d.command := Secrets(password, d.admin)]
            && q.roles == s.roles && q.databases == s.databases && q.adminSecret == s.adminSecret
  {
  }
}
