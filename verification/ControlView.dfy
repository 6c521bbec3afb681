/**
 The control loop seen through the rows management cares about and the backlog of pending
 management commands. Every step of a run is one of a few moves of this view; the
 invariants of the later modules are proved move by move.
 */
module ControlView {
  import opened Wrappers
  import opened Commands
  import opened Metadata
  import opened ManagedRoleRepo
  import DB = ManagedDatabaseRepo
  import opened ManagementService
  import opened PostgresRoles
  import opened AgentProtocol
  import opened ControlLoop

  datatype View = View(
    roles: map<Id, Role>, databases: map<Id, Database>, operations: map<Id, Operation>,
    backlog: seq<Command>, secrets: map<Id, Secrets>, pg: RoleTable, next: Id, own: set<string>)

  function ViewOf(s: System): View {
    View(s.store.roles, s.store.databases, s.store.operations, Backlog(s), s.store.secrets, s.pg, s.nextId,
         {s.accounts.superuser, s.accounts.replication})
  }

  ghost predicate SameSecrets(m: seq<Command>, a: map<Id, Secrets>, b: map<Id, Secrets>) {
    forall c <- m :: SecretsOf(a, c.id) == SecretsOf(b, c.id)
  }

  function At(pg: RoleTable, name: string): Option<PgRole> {
    if name in pg then Some(pg[name]) else None
  }

  predicate Creates(c: Command, id: Id) {
    c.action == PgEnsureRole && c.payload.RolePayload? && c.payload.roleId == id
  }

  /** No row's role has been created yet: the commands are all still pending. */
  ghost predicate AllCreating(roles: map<Id, Role>, m: seq<Command>) {
    forall id <- roles :: exists c <- m :: Creates(c, id)
  }

  /** The server's own roles may appear; skylex_admin may change, as long as no row's role has been created. */
  ghost predicate Calm(a: View, b: View) {
    forall name ::
      || At(b.pg, name) == At(a.pg, name)
      || (At(a.pg, name).None? && name in a.own)
      || (name == SKYLEX_ADMIN && name in b.pg && AllCreating(a.roles, a.backlog))
  }

  // ---- The moves ----

  ghost predicate SameRows(a: View, b: View) {
    a.roles == b.roles && a.databases == b.databases && a.operations == b.operations
  }

  /** A refused request, a command of another subsystem, or a poll that found one. */
  ghost predicate Quiet(a: View, b: View) {
    SameRows(a, b) && a.backlog == b.backlog && SameSecrets(a.backlog, a.secrets, b.secrets) && Calm(a, b)
  }

  /** The operation a management command belongs to. */
  function OperationOf(c: Command): Option<Id> {
    PayloadOperation(c.payload)
  }

  function PayloadOperation(p: Payload): Option<Id> {
    match p
    case RolePayload(_, op, _, _) => Some(op)
    case DatabasePayload(_, op, _, _, _) => Some(op)
    case _ => None
  }

  /** One command queued last, opening one operation under a new identifier. */
  ghost predicate Queued(a: View, b: View, c: Command, kind: OperationType, password: Option<Secret>) {
    && b.backlog == a.backlog + [c] && a.next <= c.id < b.next
    && OperationOf(c).Some? && a.next <= OperationOf(c).value < b.next
    && b.operations == a.operations[OperationOf(c).value := Operation(kind, OpRunning)]
    && SameSecrets(a.backlog, a.secrets, b.secrets) && SecretsOf(b.secrets, c.id).password == password
    && b.pg == a.pg
  }

  ghost predicate RoleQueued(a: View, b: View, action: Action, kind: OperationType, id: Id, roleKind: RoleKind,
                             password: Option<Secret>)
  {
    && id in b.roles && b.databases == a.databases && b.backlog != []
    && var c := b.backlog[|b.backlog| - 1];
    && c.action == action && c.payload.RolePayload?
    && c.payload.roleId == id && c.payload.roleName == b.roles[id].name && c.payload.roleKind == roleKind
    && Queued(a, b, c, kind, password)
  }

  ghost predicate RoleCreated(a: View, b: View, name: string, kind: RoleKind, password: Secret) {
    exists id | a.next <= id < b.next ::
      && id !in a.roles && !NameTaken(a.roles, name)
      && b.roles == a.roles[id := Role(name, kind, password, 1, RowPending)]
      && RoleQueued(a, b, PgEnsureRole, CreateRoleOp, id, kind, Some(password))
  }

  ghost predicate RoleRetried(a: View, b: View, name: string, kind: RoleKind, password: Secret) {
    exists id <- a.roles ::
      && a.roles[id].status == RowFailed && a.roles[id].name == name
      && b.roles == a.roles[id := Role(name, kind, password, a.roles[id].version + 1, RowPending)]
      && RoleQueued(a, b, PgEnsureRole, CreateRoleOp, id, kind, Some(password))
  }

  ghost predicate RoleRotated(a: View, b: View, id: Id, password: Secret) {
    && id in a.roles && a.roles[id].status != RowDeleting
    && b.roles == a.roles[id := a.roles[id].(password := password, version := a.roles[id].version + 1,
        status := RowPending)]
    && RoleQueued(a, b, PgRotateRolePassword, RotateRoleOp, id, Custom, Some(password))
  }

  ghost predicate RoleDeleted(a: View, b: View, id: Id) {
    && id in a.roles && b.roles == a.roles[id := a.roles[id].(status := RowDeleting)]
    && RoleQueued(a, b, PgDropRole, DeleteRoleOp, id, Custom, None)
  }

  ghost predicate DatabaseQueued(a: View, b: View, action: Action, kind: OperationType, id: Id) {
    && id in b.databases && b.roles == a.roles && b.backlog != []
    && var c := b.backlog[|b.backlog| - 1];
    && c.action == action && c.payload.DatabasePayload? && c.payload.databaseId == id
    && Queued(a, b, c, kind, None)
  }

  ghost predicate DatabaseCreated(a: View, b: View, name: string, owner: Option<Owner>) {
    exists id | a.next <= id < b.next ::
      && id !in a.databases
      && b.databases == a.databases[id := Database(name, OwnerId(owner), RowPending)]
      && DatabaseQueued(a, b, PgEnsureDatabase, CreateDatabaseOp, id)
  }

  ghost predicate DatabaseDeleted(a: View, b: View, id: Id) {
    && id in a.databases
    && b.databases == a.databases[id := a.databases[id].(status := RowDeleting)]
    && DatabaseQueued(a, b, PgDropDatabase, DeleteDatabaseOp, id)
  }

  /** The oldest management command ran and its report was lost. */
  ghost predicate Repeatable(a: View, b: View, fault: Fault) {
    && a.backlog != [] && SameRows(a, b) && b.backlog == a.backlog && b.secrets == a.secrets
    && b.pg == Execute(a.pg, a.backlog[0], a.secrets, fault).0
  }

  function RolesAfter(roles: map<Id, Role>, h: Command, ok: bool): map<Id, Role> {
    if !h.payload.RolePayload? || OperationTypeForRoleAction(h.action).None? then roles
    else if !ok then SetRoleStatus(roles, h.payload.roleId, RowFailed)
    else if h.action == PgDropRole then roles - {h.payload.roleId}
    else SetRoleStatus(roles, h.payload.roleId, RowReady)
  }

  function OperationsAfterRole(operations: map<Id, Operation>, h: Command, ok: bool): map<Id, Operation>
    requires h.payload.RolePayload? && OperationTypeForRoleAction(h.action).Some?
  {
    CloseOperation(operations, h.payload.roleOperation, OperationTypeForRoleAction(h.action).value, ok)
  }

  /** An ensure of an owned database succeeded: the grant is still to come. */
  predicate Granting(h: Command, ok: bool) {
    h.action == PgEnsureDatabase && ok && h.payload.DatabasePayload? && h.payload.owner.Some?
  }

  ghost predicate DatabaseClosed(a: View, b: View, h: Command, ok: bool)
    requires h.payload.DatabasePayload? && DB.OperationTypeForDatabaseAction(h.action).Some?
  {
    && a.backlog != [] && b.backlog == a.backlog[1..]
    && b.databases == (if h.action == PgDropDatabase && ok then a.databases - {h.payload.databaseId}
                       else DB.SetDatabaseStatus(a.databases, h.payload.databaseId, if ok then RowReady else RowFailed))
    && b.operations == CloseOperation(a.operations, h.payload.databaseOperation,
                                      DB.OperationTypeForDatabaseAction(h.action).value, ok)
  }

  ghost predicate GrantQueued(a: View, b: View, h: Command)
    requires h.payload.DatabasePayload?
  {
    && b.databases == a.databases && b.operations == a.operations && a.backlog != [] && b.backlog != []
    && var g := b.backlog[|b.backlog| - 1];
    && b.backlog == a.backlog[1..] + [g] && a.next <= g.id < b.next && g.action == PgGrantDatabasePrivileges
    && g.payload.DatabasePayload? && g.payload.databaseId == h.payload.databaseId
    && g.payload.databaseOperation == h.payload.databaseOperation
  }

  ghost predicate DatabaseSettled(a: View, b: View, h: Command, ok: bool)
    requires h.payload.DatabasePayload? && DB.OperationTypeForDatabaseAction(h.action).Some?
  {
    && b.roles == a.roles
    && if !Granting(h, ok) then DatabaseClosed(a, b, h, ok)
       else if h.payload.databaseId !in a.databases
       then a.backlog != [] && b.backlog == a.backlog[1..] && b.databases == a.databases && b.operations == a.operations
       else GrantQueued(a, b, h) || DatabaseClosed(a, b, h, false)
  }

  ghost predicate RoleSettled(a: View, b: View, h: Command, ok: bool)
    requires h.payload.RolePayload? && OperationTypeForRoleAction(h.action).Some?
  {
    && b.roles == RolesAfter(a.roles, h, ok) && b.databases == a.databases
    && b.operations == OperationsAfterRole(a.operations, h, ok)
    && a.backlog != [] && b.backlog == a.backlog[1..]
  }

  predicate WellFormed(c: Command) {
    && (c.payload.RolePayload? <==> OperationTypeForRoleAction(c.action).Some?)
    && (c.payload.DatabasePayload? <==> DB.OperationTypeForDatabaseAction(c.action).Some?)
  }

  /** The oldest management command ran and its report was handled. */
  ghost predicate Settled(a: View, b: View, fault: Fault) {
    && a.backlog != [] && WellFormed(a.backlog[0])
    && var h := a.backlog[0]; var (pg, ok) := Execute(a.pg, h, a.secrets, fault);
    && b.pg == pg && SameSecrets(a.backlog[1..], a.secrets, b.secrets)
    && (h.payload.RolePayload? ==> RoleSettled(a, b, h, ok))
    && (h.payload.DatabasePayload? ==> DatabaseSettled(a, b, h, ok))
  }

  ghost predicate Moved(a: View, b: View, e: Event) {
    && b.next == a.next + DRAWN && b.own == a.own
    && (Quiet(a, b) ||
        match e
        case CreateRoleEvent(name, kind, password) =>
          RoleCreated(a, b, name, kind, password) || RoleRetried(a, b, name, kind, password)
        case RotateRoleEvent(id, password) => RoleRotated(a, b, id, password)
        case DeleteRoleEvent(id) => RoleDeleted(a, b, id)
        case CreateDatabaseEvent(name, owner) => DatabaseCreated(a, b, name, owner)
        case DeleteDatabaseEvent(id) => DatabaseDeleted(a, b, id)
        case ApplyExtensionsEvent => false
        case QueueOtherEvent(_, _, _) => false
        case PollEvent(fault, delivered) => if delivered then Settled(a, b, fault) else Repeatable(a, b, fault))
  }

  // ---- skylex_admin comes first ----

  predicate IsAdmin(c: Command) {
    c.action == PgEnsureAdminRole
  }

  /** No rows, and no management command for the primary to run. */
  predicate NothingManaged(s: Store, agent: Id, node: Id) {
    s.roles == map[] && s.databases == map[] && forall c <- s.commands | InQueue(c, agent, node) :: !IsManaged(c.action)
  }

  /** No pending management command of the primary is older than a pending admin command of it. */
  ghost predicate AdminsLead(t: seq<Command>, agent: Id, node: Id) {
    forall i, j | 0 <= i < j < |t| && IsAdmin(t[j]) && InQueue(t[i], agent, node) && InQueue(t[j], agent, node) ::
      !IsManaged(t[i].action)
  }

  predicate AdminWaiting(t: seq<Command>, agent: Id, node: Id) {
    exists c <- t :: IsAdmin(c) && InQueue(c, agent, node)
  }

  /** Provisioning precedes management, and while it is pending no row's role has been created. */
  ghost predicate ProvisionedFirst(s: System) {
    && (s.store.adminSecret.None? ==> NothingManaged(s.store, s.agent, s.node))
    && AdminsLead(s.store.commands, s.agent, s.node)
    && (AdminWaiting(s.store.commands, s.agent, s.node) ==> AllCreating(s.store.roles, Backlog(s)))
  }

  // ---- Requests are moves ----

  /** What any one accepted request leaves, in terms of the view. */
  lemma OutcomeQueued(s: System, w: Draw, roles: map<Id, Role>, databases: map<Id, Database>,
                      kind: OperationType, action: Action, payload: Payload, password: Option<Secret>)
    returns (q: Store)
    requires Fresh(s) && IsManaged(action) && PayloadOperation(payload) == Some(w.first + 3)
    requires w.first == s.nextId && s.clock < w.adminAt < w.now && w.primary == Some(Primary(s.agent, s.node))
    ensures RequestOutcome(s.store, w, w.primary.value, roles, databases, kind, action, payload, password) == Some(q)
    ensures CommandsBounded(q.commands, s.nextId + DRAWN, w.now)
    ensures SecretsKept(s.store.secrets, q.secrets, w.first)
    ensures var after := s.(store := q, nextId := s.nextId + DRAWN, clock := w.now);
            Queued(ViewOf(s), ViewOf(after), MainCommand(DispatchFor(s.store, w, w.primary.value), action, payload),
                   kind, password)
    ensures q.roles == roles && q.databases == databases
    ensures q.operations == s.store.operations[w.first + 3 := Operation(kind, OpRunning)]
  {
    var p := w.primary.value;
    RequestCommandEffect(s.store, w, p, roles, databases, kind, action, payload, password, s.clock);
    RequestRowEffect(s.store, w, p, roles, databases, kind, action, payload, password);
    q := RequestOutcome(s.store, w, p, roles, databases, kind, action, payload, password).value;
    QueueSound(s.store.commands, s.agent, s.node);
    ManagedSound(Queue(s.store.commands, s.agent, s.node));
    KeptForBacklog(s, q.secrets);
  }

  /** Secrets of commands that are already queued are not touched by a request. */
  lemma KeptForBacklog(s: System, secrets: map<Id, Secrets>)
    requires Fresh(s) && SecretsKept(s.store.secrets, secrets, s.nextId)
    ensures SameSecrets(Backlog(s), s.store.secrets, secrets)
  {
    QueueSound(s.store.commands, s.agent, s.node);
    ManagedSound(Queue(s.store.commands, s.agent, s.node));
    forall c <- Backlog(s) ensures SecretsOf(s.store.secrets, c.id) == SecretsOf(secrets, c.id) {
      assert c in s.store.commands;
    }
  }

  ghost predicate Stepped(s: System, o: Occurrence) {
    Fresh(Step(s, o)) && Moved(ViewOf(s), ViewOf(Step(s, o)), o.event)
  }

  predicate IsRequest(e: Event) {
    !e.PollEvent? && !e.QueueOtherEvent?
  }

  ghost function Advanced(s: System, q: Store, given: Circumstance): System {
    s.(store := q, nextId := s.nextId + DRAWN, clock := DrawFor(s, given).now)
  }

  lemma StepRequested(s: System, o: Occurrence)
    requires IsRequest(o.event)
    ensures Step(s, o) == Advanced(s, Requested(s.store, o.event, DrawFor(s, o.given)), o.given)
  {
  }

  ghost predicate MovesTo(s: System, t: System, e: Event) {
    Fresh(t) && Moved(ViewOf(s), ViewOf(t), e)
  }

  lemma RefusedMoves(s: System, e: Event, given: Circumstance)
    requires Fresh(s)
    ensures MovesTo(s, Advanced(s, s.store, given), e)
  {
    assert Quiet(ViewOf(s), ViewOf(Advanced(s, s.store, given)));
  }

  /** A transaction that fails leaves the provisioning behind. */
  lemma ProvisionedMoves(s: System, e: Event, given: Circumstance)
    requires Fresh(s) && given.ready
    ensures var w := DrawFor(s, given);
            MovesTo(s, Advanced(s, EnsureAdmin(s.store, w, w.primary.value).0, given), e)
  {
    var w := DrawFor(s, given);
    var q := EnsureAdmin(s.store, w, w.primary.value).0;
    AdminCommands(s.store, w, w.primary.value, s.nextId, s.clock);
    AdminSecrets(s.store, w, w.primary.value);
    BoundsLater(q.commands, s.nextId + 1, s.nextId + DRAWN, w.adminAt, w.now);
    UnseenMoves(s, q, e, given);
  }

  lemma BoundsLater(t: seq<Command>, next: Id, later: Id, clock: Time, now: Time)
    requires CommandsBounded(t, next, clock) && next <= later && clock <= now
    ensures CommandsBounded(t, later, now)
  {
  }

  /** The row a request is about: an old one, or one under an identifier it drew. */
  ghost predicate OneRow(s: System, roles: map<Id, Role>, databases: map<Id, Database>) {
    && (forall k <- roles :: k < s.nextId + DRAWN) && (forall k <- databases :: k < s.nextId + DRAWN)
    && UniqueNames(roles)
  }

  /** An accepted request opens one operation and queues its command last; the rows are the caller's. */
  lemma Accepted(s: System, given: Circumstance, roles: map<Id, Role>, databases: map<Id, Database>,
                 kind: OperationType, action: Action, payload: Payload, password: Option<Secret>)
    returns (q: Store)
    requires Fresh(s) && IsManaged(action) && given.ready && OneRow(s, roles, databases)
    requires PayloadOperation(payload) == Some(s.nextId + 3)
    ensures var w := DrawFor(s, given);
            && RequestOutcome(s.store, w, w.primary.value, roles, databases, kind, action, payload, password) == Some(q)
            && q.roles == roles && q.databases == databases
            && Queued(ViewOf(s), ViewOf(Advanced(s, q, given)),
                      MainCommand(DispatchFor(s.store, w, w.primary.value), action, payload), kind, password)
    ensures Fresh(Advanced(s, q, given))
  {
    q := OutcomeQueued(s, DrawFor(s, given), roles, databases, kind, action, payload, password);
  }

  lemma OneRole(s: System, id: Id, row: Role)
    requires Fresh(s) && id < s.nextId + DRAWN
    requires forall k <- s.store.roles | k != id :: s.store.roles[k].name != row.name
    ensures OneRow(s, s.store.roles[id := row], s.store.databases)
  {
  }

  /** Keeping a row's name keeps names unique. */
  lemma SameName(s: System, id: Id, row: Role)
    requires Fresh(s) && id in s.store.roles && s.store.roles[id].name == row.name
    ensures OneRow(s, s.store.roles[id := row], s.store.databases)
  {
  }

  lemma CreateRoleOutcome(s: Store, name: string, kind: RoleKind, password: Secret, w: Draw, id: Id, row: Role)
    requires w.primary.Some? && (w.first + 4) !in s.roles
    requires var existing := RoleNamed(s.roles, name);
             && (existing.None? ==> id == w.first + 4 && row == Role(name, kind, password, 1, RowPending))
             && (existing.Some? ==>
                   && id == existing.value && s.roles[id].status == RowFailed
                   && row == Role(name, kind, password, s.roles[id].version + 1, RowPending))
    ensures var q := RequestOutcome(s, w, w.primary.value, s.roles[id := row], s.databases, CreateRoleOp, PgEnsureRole,
                                    RolePayload(id, w.first + 3, name, kind), Some(password));
            q.Some? ==> CreateRole(s, name, kind, password, w) == q.value
  {
  }

  lemma CreateRoleMoved(a: View, b: View, name: string, kind: RoleKind, password: Secret, id: Id, c: Command)
    requires b.next == a.next + DRAWN && b.own == a.own && b.databases == a.databases
    requires || (a.next <= id < b.next && id !in a.roles && !NameTaken(a.roles, name)
                 && b.roles == a.roles[id := Role(name, kind, password, 1, RowPending)])
             || (id in a.roles && a.roles[id].status == RowFailed && a.roles[id].name == name
                 && b.roles == a.roles[id := Role(name, kind, password, a.roles[id].version + 1, RowPending)])
    requires c.action == PgEnsureRole && c.payload.RolePayload?
    requires c.payload == RolePayload(id, c.payload.roleOperation, name, kind)
    requires Queued(a, b, c, CreateRoleOp, Some(password))
    ensures Moved(a, b, CreateRoleEvent(name, kind, password))
  {
    if id !in a.roles {
      assert RoleCreated(a, b, name, kind, password);
    } else {
      assert RoleRetried(a, b, name, kind, password);
    }
  }

  /** No row has the name, or the one that has it failed. */
  ghost predicate Creatable(roles: map<Id, Role>, name: string) {
    var existing := RoleNamed(roles, name);
    existing.None? || roles[existing.value].status == RowFailed
  }

  lemma CreateRoleAccepted(s: System, name: string, kind: RoleKind, password: Secret, given: Circumstance)
    requires Fresh(s) && given.ready
    requires Creatable(s.store.roles, name)
    ensures MovesTo(s, Advanced(s, CreateRole(s.store, name, kind, password, DrawFor(s, given)), given),
            CreateRoleEvent(name, kind, password))
    ensures |Backlog(Advanced(s, CreateRole(s.store, name, kind, password, DrawFor(s, given)), given))| ==
            |Backlog(s)| + 1
  {
    var w, rows, existing := DrawFor(s, given), s.store, RoleNamed(s.store.roles, name);
    var id := if existing.Some? then existing.value else w.first + 4;
    var row := Role(name, kind, password, if existing.Some? then rows.roles[id].version + 1 else 1, RowPending);
    OneRole(s, id, row);
    var q := Accepted(s, given, rows.roles[id := row], rows.databases, CreateRoleOp, PgEnsureRole,
                      RolePayload(id, w.first + 3, name, kind), Some(password));
    CreateRoleOutcome(rows, name, kind, password, w, id, row);
    CreateRoleMoved(ViewOf(s), ViewOf(Advanced(s, q, given)), name, kind, password, id,
                    MainCommand(DispatchFor(rows, w, w.primary.value), PgEnsureRole,
                        RolePayload(id, w.first + 3, name, kind)));
  }

  lemma CreateRoleMoves(s: System, name: string, kind: RoleKind, password: Secret, given: Circumstance)
    requires Fresh(s)
    ensures Stepped(s, Occurrence(CreateRoleEvent(name, kind, password), given))
  {
    var o := Occurrence(CreateRoleEvent(name, kind, password), given);
    StepRequested(s, o);
    if given.ready && Creatable(s.store.roles, name) {
      CreateRoleAccepted(s, name, kind, password, given);
    } else {
      RefusedMoves(s, o.event, given);
    }
  }

  lemma RotateRoleOutcome(s: Store, id: Id, password: Secret, w: Draw, row: Role)
    requires w.primary.Some? && id in s.roles && s.roles[id].status != RowDeleting
    requires row == s.roles[id].(password := password, version := s.roles[id].version + 1, status := RowPending)
    ensures var q := RequestOutcome(s, w, w.primary.value, s.roles[id := row], s.databases, RotateRoleOp,
                                    PgRotateRolePassword, RolePayload(id, w.first + 3, row.name, Custom),
                                    Some(password));
            q.Some? ==> RotateRole(s, id, password, w) == q.value
  {
  }

  lemma RotateRoleAccepted(s: System, id: Id, password: Secret, given: Circumstance)
    requires Fresh(s) && given.ready
    requires id in s.store.roles && s.store.roles[id].status != RowDeleting
    ensures MovesTo(s, Advanced(s, RotateRole(s.store, id, password, DrawFor(s, given)), given),
            RotateRoleEvent(id, password))
  {
    var w, rows := DrawFor(s, given), s.store;
    var row := rows.roles[id].(password := password, version := rows.roles[id].version + 1, status := RowPending);
    SameName(s, id, row);
    var q := Accepted(s, given, rows.roles[id := row], rows.databases, RotateRoleOp, PgRotateRolePassword,
                      RolePayload(id, w.first + 3, row.name, Custom), Some(password));
    RotateRoleOutcome(rows, id, password, w, row);
  }

  lemma RotateRoleMoves(s: System, id: Id, password: Secret, given: Circumstance)
    requires Fresh(s)
    ensures Stepped(s, Occurrence(RotateRoleEvent(id, password), given))
  {
    var o := Occurrence(RotateRoleEvent(id, password), given);
    StepRequested(s, o);
    if given.ready && (id in s.store.roles && s.store.roles[id].status != RowDeleting) {
      RotateRoleAccepted(s, id, password, given);
    } else if given.ready {
      ProvisionedMoves(s, o.event, given);
    } else {
      RefusedMoves(s, o.event, given);
    }
  }

  lemma DeleteRoleOutcome(s: Store, id: Id, w: Draw, row: Role)
    requires w.primary.Some? && id in s.roles && row == s.roles[id].(status := RowDeleting)
    ensures var q := RequestOutcome(s, w, w.primary.value, s.roles[id := row], s.databases, DeleteRoleOp,
                                    PgDropRole, RolePayload(id, w.first + 3, row.name, Custom), None);
            q.Some? ==> DeleteRole(s, id, w) == q.value
  {
  }

  lemma DeleteRoleAccepted(s: System, id: Id, given: Circumstance)
    requires Fresh(s) && given.ready && id in s.store.roles
    ensures MovesTo(s, Advanced(s, DeleteRole(s.store, id, DrawFor(s, given)), given), DeleteRoleEvent(id))
  {
    var w, rows := DrawFor(s, given), s.store;
    var row := rows.roles[id].(status := RowDeleting);
    SameName(s, id, row);
    var q := Accepted(s, given, rows.roles[id := row], rows.databases, DeleteRoleOp, PgDropRole,
                      RolePayload(id, w.first + 3, row.name, Custom), None);
    DeleteRoleOutcome(rows, id, w, row);
  }

  lemma DeleteRoleMoves(s: System, id: Id, given: Circumstance)
    requires Fresh(s)
    ensures Stepped(s, Occurrence(DeleteRoleEvent(id), given))
  {
    var o := Occurrence(DeleteRoleEvent(id), given);
    StepRequested(s, o);
    if given.ready && id in s.store.roles {
      DeleteRoleAccepted(s, id, given);
    } else if given.ready {
      ProvisionedMoves(s, o.event, given);
    } else {
      RefusedMoves(s, o.event, given);
    }
  }

  lemma CreateDatabaseOutcome(s: Store, name: string, owner: Option<Owner>, w: Draw, row: Database)
    requires w.primary.Some? && !DB.DatabaseNameTaken(s.databases, name)
    requires (w.first + 4) !in s.databases && row == Database(name, OwnerId(owner), RowPending)
    ensures var q := RequestOutcome(s, w, w.primary.value, s.roles, s.databases[w.first + 4 := row], CreateDatabaseOp,
                                    PgEnsureDatabase,
                                    DatabasePayload(w.first + 4, w.first + 3, name, OwnerName(owner), None), None);
            q.Some? ==> CreateDatabase(s, name, owner, w) == q.value
  {
    assert EnsureAdmin(s, w, w.primary.value).0.databases == s.databases;
  }

  lemma CreateDatabaseMoved(a: View, b: View, id: Id, name: string, owner: Option<Owner>, c: Command)
    requires b.next == a.next + DRAWN && b.own == a.own && b.roles == a.roles
    requires a.next <= id < b.next && id !in a.databases
    requires b.databases == a.databases[id := Database(name, OwnerId(owner), RowPending)]
    requires c.action == PgEnsureDatabase && c.payload.DatabasePayload? && c.payload.databaseId == id
    requires Queued(a, b, c, CreateDatabaseOp, None)
    ensures Moved(a, b, CreateDatabaseEvent(name, owner))
  {
  }

  lemma CreateDatabaseAccepted(s: System, name: string, owner: Option<Owner>, given: Circumstance)
    requires Fresh(s) && given.ready
    requires !DB.DatabaseNameTaken(s.store.databases, name)
    ensures MovesTo(s, Advanced(s, CreateDatabase(s.store, name, owner, DrawFor(s, given)), given),
            CreateDatabaseEvent(name, owner))
  {
    var w, rows := DrawFor(s, given), s.store;
    var id, row := w.first + 4, Database(name, OwnerId(owner), RowPending);
    var q := Accepted(s, given, rows.roles, rows.databases[id := row], CreateDatabaseOp, PgEnsureDatabase,
                      DatabasePayload(id, w.first + 3, name, OwnerName(owner), None), None);
    CreateDatabaseOutcome(rows, name, owner, w, row);
    CreateDatabaseMoved(ViewOf(s), ViewOf(Advanced(s, q, given)), id, name, owner,
                        MainCommand(DispatchFor(rows, w, w.primary.value), PgEnsureDatabase,
                                    DatabasePayload(id, w.first + 3, name, OwnerName(owner), None)));
  }

  lemma CreateDatabaseMoves(s: System, name: string, owner: Option<Owner>, given: Circumstance)
    requires Fresh(s)
    ensures Stepped(s, Occurrence(CreateDatabaseEvent(name, owner), given))
  {
    var o := Occurrence(CreateDatabaseEvent(name, owner), given);
    StepRequested(s, o);
    if given.ready && !DB.DatabaseNameTaken(s.store.databases, name) {
      CreateDatabaseAccepted(s, name, owner, given);
    } else {
      RefusedMoves(s, o.event, given);
    }
  }

  lemma DeleteDatabaseOutcome(s: Store, id: Id, w: Draw, row: Database)
    requires w.primary.Some? && id in s.databases && row == s.databases[id].(status := RowDeleting)
    ensures var q := RequestOutcome(s, w, w.primary.value, s.roles, s.databases[id := row], DeleteDatabaseOp,
                                    PgDropDatabase, DatabasePayload(id, w.first + 3, row.name, None, None), None);
            q.Some? ==> DeleteDatabase(s, id, w) == q.value
  {
  }

  lemma DeleteDatabaseMoved(a: View, b: View, id: Id, c: Command)
    requires b.next == a.next + DRAWN && b.own == a.own && b.roles == a.roles && id in a.databases
    requires b.databases == a.databases[id := a.databases[id].(status := RowDeleting)]
    requires c.action == PgDropDatabase && c.payload.DatabasePayload? && c.payload.databaseId == id
    requires Queued(a, b, c, DeleteDatabaseOp, None)
    ensures Moved(a, b, DeleteDatabaseEvent(id))
  {
  }

  lemma DeleteDatabaseAccepted(s: System, id: Id, given: Circumstance)
    requires Fresh(s) && given.ready && id in s.store.databases
    ensures MovesTo(s, Advanced(s, DeleteDatabase(s.store, id, DrawFor(s, given)), given), DeleteDatabaseEvent(id))
  {
    var w, rows := DrawFor(s, given), s.store;
    var row := rows.databases[id].(status := RowDeleting);
    var q := Accepted(s, given, rows.roles, rows.databases[id := row], DeleteDatabaseOp, PgDropDatabase,
                      DatabasePayload(id, w.first + 3, row.name, None, None), None);
    DeleteDatabaseOutcome(rows, id, w, row);
    DeleteDatabaseMoved(ViewOf(s), ViewOf(Advanced(s, q, given)), id,
                        MainCommand(DispatchFor(rows, w, w.primary.value), PgDropDatabase,
                                    DatabasePayload(id, w.first + 3, row.name, None, None)));
  }

  lemma DeleteDatabaseMoves(s: System, id: Id, given: Circumstance)
    requires Fresh(s)
    ensures Stepped(s, Occurrence(DeleteDatabaseEvent(id), given))
  {
    var o := Occurrence(DeleteDatabaseEvent(id), given);
    StepRequested(s, o);
    if given.ready && id in s.store.databases {
      DeleteDatabaseAccepted(s, id, given);
    } else if given.ready {
      ProvisionedMoves(s, o.event, given);
    } else {
      RefusedMoves(s, o.event, given);
    }
  }

  // ---- Polls are moves ----

  /** The command the agent polls next. */
  ghost predicate IsOldest(s: System, h: Command) {
    Queue(s.store.commands, s.agent, s.node) != [] && h == Queue(s.store.commands, s.agent, s.node)[0]
  }

  /** Queue facts behind one handled report of the head. */
  ghost predicate Reporting(t: seq<Command>, r: seq<Command>, agent: Id, node: Id, h: Command, next: Id, clock: Time) {
    && CommandsBounded(r, next, clock)
    && Queue(t, agent, node) != [] && h == Queue(t, agent, node)[0]
    && Queue(r, agent, node) == Queue(t, agent, node)[1..]
    && Managed(Queue(r, agent, node)) ==
       (if IsManaged(h.action) && Managed(Queue(t, agent, node)) != [] then Managed(Queue(t, agent, node))[1..]
        else Managed(Queue(t, agent, node)))
    && forall c <- Managed(Queue(r, agent, node)) :: c.id != h.id
  }

  lemma ReportKeepsBounds(t: seq<Command>, id: Id, ok: bool, next: Id, clock: Time)
    requires CommandsBounded(t, next, clock)
    ensures CommandsBounded(Report(t, id, ok), next, clock)
  {
  }

  lemma ReportFacts(t: seq<Command>, agent: Id, node: Id, ok: bool, next: Id, clock: Time)
    requires CommandsBounded(t, next, clock) && Queue(t, agent, node) != []
    ensures var h := Queue(t, agent, node)[0];
            Reporting(t, Report(t, h.id, ok), agent, node, h, next, clock)
  {
    var h := Queue(t, agent, node)[0];
    var r := Report(t, h.id, ok);
    ReportKeepsBounds(t, h.id, ok, next, clock);
    QueueAfterReport(t, agent, node, ok);
    ManagedTail(Queue(t, agent, node));
    QueueSound(r, agent, node);
    ManagedSound(Queue(r, agent, node));
  }

  lemma FindReported(t: seq<Command>, agent: Id, node: Id, ok: bool)
    requires UniqueIds(t) && Queue(t, agent, node) != []
    ensures var h := Queue(t, agent, node)[0];
            Find(Report(t, h.id, ok), h.id) == Some(h.(status := if ok then Completed else Failed))
  {
    var h := Queue(t, agent, node)[0];
    var r := Report(t, h.id, ok);
    QueueSound(t, agent, node);
    var i :| 0 <= i < |t| && t[i] == h;
    assert r[i] == Reported(t[i], h.id, ok);
    FindUnique(r, r[i]);
  }

  ghost predicate SameRequest(a: Command, b: Command) {
    a.id == b.id && a.action == b.action && a.payload == b.payload
  }

  lemma OtherReport(s: Store, h: Command, ok: bool, w: Draw)
    requires var f := Find(Report(s.commands, h.id, ok), h.id); f.Some? && SameRequest(f.value, h)
    requires !IsManaged(h.action)
    ensures ReportResult(s, h.id, ok, w) ==
            s.(commands := Report(s.commands, h.id, ok), secrets := s.secrets - {h.id})
  {
  }

  lemma RoleReport(s: Store, h: Command, ok: bool, w: Draw)
    requires var f := Find(Report(s.commands, h.id, ok), h.id); f.Some? && SameRequest(f.value, h)
    requires h.payload.RolePayload? && WellFormed(h)
    ensures ReportResult(s, h.id, ok, w) ==
            s.(commands := Report(s.commands, h.id, ok), roles := RolesAfter(s.roles, h, ok),
               operations := OperationsAfterRole(s.operations, h, ok), secrets := s.secrets - {h.id})
  {
    assert (s.secrets - {h.id}) - {h.id} == s.secrets - {h.id};
  }

  function ReportedStore(s: Store, h: Command, ok: bool): Store {
    s.(commands := Report(s.commands, h.id, ok))
  }

  function ClosedRows(s: Store, h: Command, ok: bool): Store
    requires h.payload.DatabasePayload? && DB.OperationTypeForDatabaseAction(h.action).Some?
  {
    var kind := DB.OperationTypeForDatabaseAction(h.action).value;
    s.(databases := if h.action == PgDropDatabase && ok then s.databases - {h.payload.databaseId}
                    else DB.SetDatabaseStatus(s.databases, h.payload.databaseId, if ok then RowReady else RowFailed),
       operations := CloseOperation(s.operations, h.payload.databaseOperation, kind, ok))
  }

  function GrantOf(h: Command): DB.GrantRequest
    requires h.payload.DatabasePayload? && h.payload.owner.Some?
  {
    DB.GrantRequest(h.payload.databaseId, h.payload.databaseOperation, h.payload.databaseName, h.payload.owner.value)
  }

  function DatabaseRows(s: Store, h: Command, ok: bool, w: Draw): Store
    requires h.payload.DatabasePayload? && DB.OperationTypeForDatabaseAction(h.action).Some?
  {
    if !Granting(h, ok) then ClosedRows(s, h, ok)
    else if h.payload.databaseId !in s.databases then s
    else HandOver(s, GrantOf(h), w)
  }

  lemma DatabaseReported(s: Store, h: Command, ok: bool, w: Draw)
    requires var f := Find(Report(s.commands, h.id, ok), h.id); f.Some? && SameRequest(f.value, h)
    requires h.payload.DatabasePayload? && WellFormed(h)
    ensures var rows := DatabaseRows(ReportedStore(s, h, ok), h, ok, w);
            ReportResult(s, h.id, ok, w) == rows.(secrets := rows.secrets - {h.id})
  {
  }

  lemma ExecutedManaged(a: Accounts, pg: RoleTable, h: Command, secrets: map<Id, Secrets>, fault: Fault)
    requires IsManaged(h.action)
    ensures Executed(a, pg, h, secrets, fault) == Execute(pg, h, secrets, fault)
  {
  }

  /** A command of another subsystem adds own roles at most, and only the admin command changes one. */
  lemma ExecuteOther(a: Accounts, pg: RoleTable, h: Command, secrets: map<Id, Secrets>, fault: Fault)
    requires !IsManaged(h.action)
    ensures var after := Executed(a, pg, h, secrets, fault).0;
            forall name :: At(after, name) == At(pg, name)
                           || (At(pg, name).None? && name in {a.superuser, a.replication})
                           || (name == SKYLEX_ADMIN && name in after && IsAdmin(h))
  {
  }

  /** While the admin command is the oldest pending one, every row's creation is pending too. */
  lemma OldestIsCalm(s: System, h: Command, fault: Fault, t: System)
    requires ProvisionedFirst(s) && IsOldest(s, h) && !IsManaged(h.action) && t.accounts == s.accounts
    requires t.pg == Executed(s.accounts, s.pg, h, s.store.secrets, fault).0
    ensures Calm(ViewOf(s), ViewOf(t))
  {
    ExecuteOther(s.accounts, s.pg, h, s.store.secrets, fault);
    QueueSound(s.store.commands, s.agent, s.node);
    assert h in Queue(s.store.commands, s.agent, s.node);
  }

  lemma SecretsGone(m: seq<Command>, secrets: map<Id, Secrets>, id: Id)
    requires forall c <- m :: c.id != id
    ensures SameSecrets(m, secrets, secrets - {id})
  {
  }

  /** The system after a poll that ran h, leaving `rows`. */
  ghost function Polled(s: System, pg: RoleTable, rows: Store, given: Circumstance): System {
    s.(pg := pg, store := rows, nextId := s.nextId + DRAWN, clock := DrawFor(s, given).now)
  }

  /** A delivered poll, spelled out. */
  lemma DeliveredStep(s: System, o: Occurrence, h: Command)
    requires IsOldest(s, h) && o.event.PollEvent? && o.event.delivered
    ensures var (pg, ok) := Executed(s.accounts, s.pg, h, s.store.secrets, o.event.fault);
            Step(s, o) == Polled(s, pg, ReportResult(s.store, h.id, ok, DrawFor(s, o.given)), o.given)
  {
  }

  lemma IdlePollMoves(s: System, fault: Fault, delivered: bool, given: Circumstance)
    requires Fresh(s) && Queue(s.store.commands, s.agent, s.node) == []
    ensures MovesTo(s, Polled(s, s.pg, s.store, given), PollEvent(fault, delivered))
  {
    assert Quiet(ViewOf(s), ViewOf(Polled(s, s.pg, s.store, given)));
  }

  lemma LostReport(a: View, b: View, fault: Fault)
    requires a.backlog != [] && b == a.(pg := Execute(a.pg, a.backlog[0], a.secrets, fault).0, next := a.next + DRAWN)
    ensures Moved(a, b, PollEvent(fault, false))
  {
  }

  lemma LostReportMoves(s: System, fault: Fault, given: Circumstance)
    requires Fresh(s) && ProvisionedFirst(s) && Queue(s.store.commands, s.agent, s.node) != []
    ensures var h := Queue(s.store.commands, s.agent, s.node)[0];
            MovesTo(s, Polled(s, Executed(s.accounts, s.pg, h, s.store.secrets, fault).0, s.store, given),
                PollEvent(fault, false))
  {
    var h := Queue(s.store.commands, s.agent, s.node)[0];
    ManagedTail(Queue(s.store.commands, s.agent, s.node));
    if IsManaged(h.action) {
      ExecutedManaged(s.accounts, s.pg, h, s.store.secrets, fault);
      var t := Polled(s, Execute(s.pg, h, s.store.secrets, fault).0, s.store, given);
      LostReport(ViewOf(s), ViewOf(t), fault);
    } else {
      LostOtherMoves(s, h, fault, given);
    }
  }

  lemma LostOtherMoves(s: System, h: Command, fault: Fault, given: Circumstance)
    requires Fresh(s) && ProvisionedFirst(s) && IsOldest(s, h) && !IsManaged(h.action)
    ensures MovesTo(s, Polled(s, Executed(s.accounts, s.pg, h, s.store.secrets, fault).0, s.store, given),
                PollEvent(fault, false))
  {
    var t := Polled(s, Executed(s.accounts, s.pg, h, s.store.secrets, fault).0, s.store, given);
    OldestIsCalm(s, h, fault, t);
    assert Quiet(ViewOf(s), ViewOf(t));
  }

  lemma OtherHandled(s: System, pg: RoleTable, ok: bool, fault: Fault, given: Circumstance, h: Command)
    requires Fresh(s) && ProvisionedFirst(s) && IsOldest(s, h)
    requires !IsManaged(h.action) && (pg, ok) == Executed(s.accounts, s.pg, h, s.store.secrets, fault)
    ensures MovesTo(s, Polled(s, pg, ReportResult(s.store, h.id, ok, DrawFor(s, given)), given), PollEvent(fault, true))
  {
    var q := ReportResult(s.store, h.id, ok, DrawFor(s, given));
    FindReported(s.store.commands, s.agent, s.node, ok);
    OtherReport(s.store, h, ok, DrawFor(s, given));
    ReportFacts(s.store.commands, s.agent, s.node, ok, s.nextId, s.clock);
    OldestIsCalm(s, h, fault, Polled(s, pg, q, given));
    SecretsGone(Backlog(s), s.store.secrets, h.id);
    assert Quiet(ViewOf(s), ViewOf(Polled(s, pg, q, given)));
  }

  lemma RolesAfterBounded(roles: map<Id, Role>, h: Command, ok: bool)
    requires UniqueNames(roles)
    ensures UniqueNames(RolesAfter(roles, h, ok))
    ensures forall id <- RolesAfter(roles, h, ok) :: id in roles && RolesAfter(roles, h, ok)[id].name == roles[id].name
  {
  }

  /** A handled report only shortens the key sets of the other tables. */
  lemma HandledFresh(s: System, q: Store, later: Time)
    requires Fresh(s) && s.clock <= later && CommandsBounded(q.commands, s.nextId + DRAWN, later)
    requires (forall id <- q.operations :: id in s.store.operations) && (forall id <- q.roles :: id in s.store.roles)
    requires (forall id <- q.databases :: id in s.store.databases)
    requires (forall id <- q.secrets :: id < s.nextId + DRAWN)
    requires UniqueNames(q.roles)
    ensures Bounded(q, s.nextId + DRAWN, later)
  {
  }

  lemma SettledMoves(s: System, t: System, fault: Fault)
    requires Fresh(t) && t.nextId == s.nextId + DRAWN && t.accounts == s.accounts
    requires Settled(ViewOf(s), ViewOf(t), fault)
    ensures MovesTo(s, t, PollEvent(fault, true))
  {
  }

  lemma RoleHandled(s: System, pg: RoleTable, ok: bool, fault: Fault, given: Circumstance, h: Command)
    requires Fresh(s) && IsOldest(s, h)
    requires h.payload.RolePayload? && WellFormed(h) && (pg, ok) == Execute(s.pg, h, s.store.secrets, fault)
    ensures MovesTo(s, Polled(s, pg, ReportResult(s.store, h.id, ok, DrawFor(s, given)), given), PollEvent(fault, true))
  {
    var q := ReportResult(s.store, h.id, ok, DrawFor(s, given));
    FindReported(s.store.commands, s.agent, s.node, ok);
    RoleReport(s.store, h, ok, DrawFor(s, given));
    ReportFacts(s.store.commands, s.agent, s.node, ok, s.nextId, s.clock);
    ManagedTail(Queue(s.store.commands, s.agent, s.node));
    RolesAfterBounded(s.store.roles, h, ok);
    var t := Polled(s, pg, q, given);
    HandledFresh(s, q, t.clock);
    SecretsGone(Backlog(t), s.store.secrets, h.id);
    assert RoleSettled(ViewOf(s), ViewOf(t), h, ok);
    SettledMoves(s, t, fault);
  }

  /** The grant joins the backlog last, whether or not the admin role is provisioned on the way. */
  lemma GrantRows(s: Store, g: DB.GrantRequest, w: Draw, p: Primary, clock: Time)
    requires CommandsBounded(s.commands, w.first, clock) && clock < w.adminAt < w.now && w.primary == Some(p)
    ensures var rows := HandOver(s, g, w); var grant := GrantCommand(g, w, p);
            && rows.roles == s.roles && rows.databases == s.databases && rows.operations == s.operations
            && CommandsBounded(rows.commands, w.first + DRAWN, w.now)
            && Managed(Queue(rows.commands, p.agent, p.node)) == Managed(Queue(s.commands, p.agent, p.node)) + [grant]
            && rows.secrets == EnsureAdmin(s, w, p).0.secrets[grant.id := Secrets(None, s.adminSecret)]
  {
    AdminCommands(s, w, p, w.first, clock);
    GrantInserted(EnsureAdmin(s, w, p).0.commands, GrantCommand(g, w, p), w.first + 1, w.adminAt, w.now, p);
    HandOverIs(s, g, w, p);
  }

  lemma GrantInserted(t: seq<Command>, grant: Command, next: Id, clock: Time, now: Time, p: Primary)
    requires CommandsBounded(t, next, clock) && clock <= now && grant.createdAt == now && next <= grant.id
    requires grant.status == Pending && Addressed(grant, p.agent, p.node) && IsManaged(grant.action)
    ensures !HasId(t, grant.id) && CommandsBounded(Insert(t, grant), grant.id + 1, now)
    ensures Managed(Queue(Insert(t, grant), p.agent, p.node)) == Managed(Queue(t, p.agent, p.node)) + [grant]
  {
  }

  lemma HandOverIs(s: Store, g: DB.GrantRequest, w: Draw, p: Primary)
    requires w.primary == Some(p) && !HasId(EnsureAdmin(s, w, p).0.commands, w.first + 2)
    ensures var base, grant := EnsureAdmin(s, w, p).0, GrantCommand(g, w, p);
            HandOver(s, g, w) == base.(commands := Insert(base.commands, grant),
                                       secrets := base.secrets[grant.id := Secrets(None, s.adminSecret)])
  {
  }

  lemma GrantSecrets(s: Store, w: Draw, p: Primary, m: seq<Command>, command: Id, secrets: Secrets, id: Id)
    requires (forall k <- s.secrets :: k < w.first) && w.first <= command < w.first + DRAWN
    requires forall c <- m :: c.id < w.first && c.id != id
    ensures var after := EnsureAdmin(s, w, p).0.secrets[command := secrets] - {id};
            SameSecrets(m, s.secrets, after) && forall k <- after :: k < w.first + DRAWN
  {
  }

  lemma DatabaseClosedMoves(s: System, pg: RoleTable, ok: bool, closing: bool, fault: Fault, given: Circumstance,
                            h: Command, rows: Store)
    requires Fresh(s) && IsOldest(s, h)
    requires h.payload.DatabasePayload? && WellFormed(h) && (pg, ok) == Execute(s.pg, h, s.store.secrets, fault)
    requires rows == ClosedRows(ReportedStore(s.store, h, ok), h, closing)
    requires if Granting(h, ok) then !closing && h.payload.databaseId in s.store.databases else closing == ok
    ensures MovesTo(s, Polled(s, pg, rows.(secrets := rows.secrets - {h.id}), given), PollEvent(fault, true))
  {
    var q := rows.(secrets := rows.secrets - {h.id});
    var t := Polled(s, pg, q, given);
    ReportFacts(s.store.commands, s.agent, s.node, ok, s.nextId, s.clock);
    ManagedTail(Queue(s.store.commands, s.agent, s.node));
    HandledFresh(s, q, t.clock);
    SecretsGone(Backlog(t), s.store.secrets, h.id);
    assert DatabaseClosed(ViewOf(s), ViewOf(t), h, closing);
    assert DatabaseSettled(ViewOf(s), ViewOf(t), h, ok);
    SettledMoves(s, t, fault);
  }

  lemma DatabaseMissingMoves(s: System, pg: RoleTable, ok: bool, fault: Fault, given: Circumstance, h: Command)
    requires Fresh(s) && IsOldest(s, h)
    requires h.payload.DatabasePayload? && WellFormed(h) && (pg, ok) == Execute(s.pg, h, s.store.secrets, fault)
    requires Granting(h, ok) && h.payload.databaseId !in s.store.databases
    ensures var rows := ReportedStore(s.store, h, ok);
            MovesTo(s, Polled(s, pg, rows.(secrets := rows.secrets - {h.id}), given), PollEvent(fault, true))
  {
    var rows := ReportedStore(s.store, h, ok);
    var q := rows.(secrets := rows.secrets - {h.id});
    var t := Polled(s, pg, q, given);
    ReportFacts(s.store.commands, s.agent, s.node, ok, s.nextId, s.clock);
    ManagedTail(Queue(s.store.commands, s.agent, s.node));
    HandledFresh(s, q, t.clock);
    SecretsGone(Backlog(t), s.store.secrets, h.id);
    assert DatabaseSettled(ViewOf(s), ViewOf(t), h, ok);
    SettledMoves(s, t, fault);
  }

  lemma GrantQueuedMoves(s: System, pg: RoleTable, ok: bool, fault: Fault, given: Circumstance, h: Command)
    requires Fresh(s) && IsOldest(s, h)
    requires h.payload.DatabasePayload? && WellFormed(h) && (pg, ok) == Execute(s.pg, h, s.store.secrets, fault)
    requires Granting(h, ok) && h.payload.databaseId in s.store.databases && given.ready
    ensures var rows := HandOver(ReportedStore(s.store, h, ok), GrantOf(h), DrawFor(s, given));
            MovesTo(s, Polled(s, pg, rows.(secrets := rows.secrets - {h.id}), given), PollEvent(fault, true))
  {
    var w, base := DrawFor(s, given), ReportedStore(s.store, h, ok);
    var p := w.primary.value;
    var grant := GrantCommand(GrantOf(h), w, p);
    var rows := HandOver(base, GrantOf(h), w);
    var q := rows.(secrets := rows.secrets - {h.id});
    var t := Polled(s, pg, q, given);
    ReportFacts(s.store.commands, s.agent, s.node, ok, s.nextId, s.clock);
    ManagedTail(Queue(s.store.commands, s.agent, s.node));
    GrantRows(base, GrantOf(h), w, p, s.clock);
    BacklogBounded(base.commands, s.agent, s.node, s.nextId, s.clock);
    GrantSecrets(base, w, p, Managed(Queue(base.commands, s.agent, s.node)), grant.id,
        Secrets(None, base.adminSecret), h.id);
    HandledFresh(s, q, t.clock);
    assert Backlog(t)[|Backlog(t)| - 1] == grant;
    assert GrantQueued(ViewOf(s), ViewOf(t), h);
    assert DatabaseSettled(ViewOf(s), ViewOf(t), h, ok);
    SettledMoves(s, t, fault);
  }

  lemma BacklogBounded(t: seq<Command>, agent: Id, node: Id, next: Id, clock: Time)
    requires CommandsBounded(t, next, clock)
    ensures forall c <- Managed(Queue(t, agent, node)) :: c.id < next
  {
    QueueSound(t, agent, node);
    ManagedSound(Queue(t, agent, node));
  }

  lemma DatabaseHandled(s: System, pg: RoleTable, ok: bool, fault: Fault, given: Circumstance, h: Command)
    requires Fresh(s) && IsOldest(s, h)
    requires h.payload.DatabasePayload? && WellFormed(h) && (pg, ok) == Execute(s.pg, h, s.store.secrets, fault)
    ensures MovesTo(s, Polled(s, pg, ReportResult(s.store, h.id, ok, DrawFor(s, given)), given), PollEvent(fault, true))
  {
    FindReported(s.store.commands, s.agent, s.node, ok);
    DatabaseReported(s.store, h, ok, DrawFor(s, given));
    var base := ReportedStore(s.store, h, ok);
    if !Granting(h, ok) {
      DatabaseClosedMoves(s, pg, ok, ok, fault, given, h, ClosedRows(base, h, ok));
    } else if h.payload.databaseId !in s.store.databases {
      DatabaseMissingMoves(s, pg, ok, fault, given, h);
    } else if given.ready {
      GrantQueuedMoves(s, pg, ok, fault, given, h);
    } else {
      DatabaseClosedMoves(s, pg, ok, false, fault, given, h, ClosedRows(base, h, false));
    }
  }

  lemma ManagedPayload(c: Command)
    requires WellFormed(c) && IsManaged(c.action)
    ensures c.payload.RolePayload? || c.payload.DatabasePayload?
  {
  }

  lemma PollMoves(s: System, fault: Fault, delivered: bool, given: Circumstance)
    requires Fresh(s) && ProvisionedFirst(s) && forall c <- Backlog(s) :: WellFormed(c)
    ensures Stepped(s, Occurrence(PollEvent(fault, delivered), given))
  {
    var q := Queue(s.store.commands, s.agent, s.node);
    if q == [] {
      IdlePollMoves(s, fault, delivered, given);
    } else if !delivered {
      LostReportMoves(s, fault, given);
    } else {
      var h := q[0];
      var (pg, ok) := Executed(s.accounts, s.pg, h, s.store.secrets, fault);
      ManagedTail(q);
      if !IsManaged(h.action) {
        OtherHandled(s, pg, ok, fault, given, h);
      } else {
        assert h == Backlog(s)[0];
        ExecutedManaged(s.accounts, s.pg, h, s.store.secrets, fault);
        ManagedPayload(h);
        if h.payload.RolePayload? {
          RoleHandled(s, pg, ok, fault, given, h);
        } else {
          DatabaseHandled(s, pg, ok, fault, given, h);
        }
      }
    }
  }

  lemma OtherMoves(s: System, o: Occurrence)
    requires Fresh(s) && o.event.QueueOtherEvent?
    ensures Stepped(s, o)
  {
    var w := DrawFor(s, o.given);
    var c := OtherCommand(o.event, w);
    if IsForeign(c, s.agent, s.node) {
      InsertBounded(s.store.commands, c, s.nextId, s.clock, w.now);
      BacklogUnchanged(s.store.commands, c, s.agent, s.node);
    }
    assert Quiet(ViewOf(s), ViewOf(Step(s, o)));
  }

  lemma ApplyExtensionsRows(s: Store, w: Draw, p: Primary, clock: Time)
    requires CommandsBounded(s.commands, w.first, clock) && clock < w.adminAt < w.now && w.primary == Some(p)
    ensures var q := ApplyExtensions(s, w);
            && q.roles == s.roles && q.databases == s.databases && q.operations == s.operations
            && q.secrets == EnsureAdmin(s, w, p).0.secrets[w.first + 2 := Secrets(None, s.adminSecret)]
            && CommandsBounded(q.commands, w.first + DRAWN, w.now)
            && Managed(Queue(q.commands, p.agent, p.node)) == Managed(Queue(s.commands, p.agent, p.node))
  {
    var base, c := EnsureAdmin(s, w, p).0, ExtensionsCommand(w, p);
    AdminCommands(s, w, p, w.first, clock);
    ForeignInserted(base.commands, c, w.first + 1, w.adminAt, w.now, p);
    BoundsGrow(Insert(base.commands, c), w.first + 3, w.first + DRAWN, w.now);
    ApplyExtensionsIs(s, w, p);
  }

  lemma ApplyExtensionsIs(s: Store, w: Draw, p: Primary)
    requires w.primary == Some(p) && !HasId(EnsureAdmin(s, w, p).0.commands, w.first + 2)
    ensures var base, c := EnsureAdmin(s, w, p).0, ExtensionsCommand(w, p);
            && ApplyExtensions(s, w) == base.(commands := Insert(base.commands, c),
                                              secrets := base.secrets[c.id := Secrets(None, s.adminSecret)])
            && base.roles == s.roles && base.databases == s.databases && base.operations == s.operations
  {
  }

  lemma ForeignInserted(t: seq<Command>, c: Command, next: Id, clock: Time, now: Time, p: Primary)
    requires CommandsBounded(t, next, clock) && clock <= now && c.createdAt == now && next <= c.id
    requires c.status == Pending && Addressed(c, p.agent, p.node) && !IsManaged(c.action)
    ensures !HasId(t, c.id) && CommandsBounded(Insert(t, c), c.id + 1, now)
    ensures Managed(Queue(Insert(t, c), p.agent, p.node)) == Managed(Queue(t, p.agent, p.node))
  {
    InsertBounded(t, c, next, clock, now);
    BacklogUnchanged(t, c, p.agent, p.node);
  }

  lemma ApplyExtensionsSecrets(s: Store, w: Draw, p: Primary)
    requires forall k <- s.secrets :: k < w.first
    ensures SecretsKept(s.secrets, EnsureAdmin(s, w, p).0.secrets[w.first + 2 := Secrets(None, s.adminSecret)], w.first)
  {
    AdminSecrets(s, w, p);
    SecretAdded(s.secrets, EnsureAdmin(s, w, p).0.secrets, w.first, w.first + 2, Secrets(None, s.adminSecret));
  }

  /** Applying extensions shows in the queue and the secrets alone. */
  lemma ApplyExtensionsMoves(s: System, given: Circumstance)
    requires Fresh(s)
    ensures Stepped(s, Occurrence(ApplyExtensionsEvent, given))
  {
    var o, w := Occurrence(ApplyExtensionsEvent, given), DrawFor(s, given);
    StepRequested(s, o);
    if given.ready {
      ApplyExtensionsRows(s.store, w, w.primary.value, s.clock);
      ApplyExtensionsSecrets(s.store, w, w.primary.value);
      UnseenMoves(s, ApplyExtensions(s.store, w), o.event, given);
    } else {
      RefusedMoves(s, o.event, given);
    }
  }

  /** A request that shows neither in the rows nor in the backlog. */
  lemma UnseenMoves(s: System, q: Store, e: Event, given: Circumstance)
    requires Fresh(s) && q.roles == s.store.roles && q.databases == s.store.databases
    requires q.operations == s.store.operations && SecretsKept(s.store.secrets, q.secrets, s.nextId)
    requires CommandsBounded(q.commands, s.nextId + DRAWN, DrawFor(s, given).now)
    requires Managed(Queue(q.commands, s.agent, s.node)) == Backlog(s)
    ensures MovesTo(s, Advanced(s, q, given), e)
  {
    KeptForBacklog(s, q.secrets);
    assert Quiet(ViewOf(s), ViewOf(Advanced(s, q, given)));
  }

  /** Every step of a run is a move of the view. */
  lemma StepMoves(s: System, o: Occurrence)
    requires Fresh(s) && ProvisionedFirst(s) && forall c <- Backlog(s) :: WellFormed(c)
    ensures Fresh(Step(s, o)) && Moved(ViewOf(s), ViewOf(Step(s, o)), o.event)
  {
    match o.event
    case CreateRoleEvent(name, kind, password) => CreateRoleMoves(s, name, kind, password, o.given);
    case RotateRoleEvent(id, password) => RotateRoleMoves(s, id, password, o.given);
    case DeleteRoleEvent(id) => DeleteRoleMoves(s, id, o.given);
    case CreateDatabaseEvent(name, owner) => CreateDatabaseMoves(s, name, owner, o.given);
    case DeleteDatabaseEvent(id) => DeleteDatabaseMoves(s, id, o.given);
    case ApplyExtensionsEvent => ApplyExtensionsMoves(s, o.given);
    case QueueOtherEvent(_, _, _) => OtherMoves(s, o);
    case PollEvent(fault, delivered) => PollMoves(s, fault, delivered, o.given);
  }
}
