/** The moves of the view as managed roles see them, and what every run keeps about rows and commands. */
module RoleChanges {
  import opened Wrappers
  import opened Commands
  import opened Metadata
  import opened ManagedRoleRepo
  import DB = ManagedDatabaseRepo
  import opened ManagementService
  import opened PostgresRoles
  import opened AgentProtocol
  import opened ControlLoop
  import opened ControlView
  import opened AdminLead

  predicate IsRole(c: Command) {
    (c.action == PgEnsureRole || c.action == PgRotateRolePassword || c.action == PgDropRole) && c.payload.RolePayload?
  }

  predicate About(c: Command, roleId: Id) {
    IsRole(c) && c.payload.roleId == roleId
  }

  function SubjectOf(c: Command): Id {
    match c.payload
    case RolePayload(id, _, _, _) => id
    case DatabasePayload(id, _, _, _, _) => id
    case _ => 0
  }

  /** What a pending management command is: well formed, about known identifiers, naming its row's role. */
  ghost predicate SaneCommand(c: Command, roles: map<Id, Role>, next: Id) {
    && IsManaged(c.action) && WellFormed(c) && c.id < next && SubjectOf(c) < next
    && OperationOf(c).Some? && OperationOf(c).value < next
    && (IsRole(c) && c.payload.roleId in roles ==> roles[c.payload.roleId].name == c.payload.roleName)
  }

  ghost predicate SaneBacklog(m: seq<Command>, roles: map<Id, Role>, next: Id) {
    forall c <- m :: SaneCommand(c, roles, next)
  }

  ghost predicate Sane(v: View) {
    && SaneBacklog(v.backlog, v.roles, v.next)
    && (forall id <- v.roles :: id < v.next) && (forall id <- v.databases :: id < v.next)
    && (forall id <- v.operations :: id < v.next)
    && UniqueNames(v.roles)
  }

  /** One step seen from the roles. */
  datatype RoleChange =
    | Unrelated                                       // rows, backlog and managed roles stay
    | Sets(id: Id, row: Role, command: Command)       // create, retry or rotate
    | Deletes(id: Id, command: Command)
    | Appends(command: Command)                       // a database request
    | Replaces(followUp: Option<Command>)             // a database command settled, a grant may follow
    | Repeats                                         // the head ran, its report was lost
    | Settles                                         // the head, a role command, ran and was handled

  ghost predicate SetsPassword(a: View, b: View, id: Id, row: Role, c: Command) {
    && b.roles == a.roles[id := row] && b.backlog == a.backlog + [c] && b.pg == a.pg
    && SameSecrets(a.backlog, a.secrets, b.secrets) && SecretsOf(b.secrets, c.id).password == Some(row.password)
    && About(c, id) && c.payload.roleName == row.name && row.status == RowPending
    && if c.action == PgEnsureRole
       then c.payload.roleKind == row.kind
            && if id in a.roles then a.roles[id].status == RowFailed && a.roles[id].name == row.name
               else a.next <= id && !NameTaken(a.roles, row.name)
       else c.action == PgRotateRolePassword && id in a.roles
            && row.name == a.roles[id].name && row.kind == a.roles[id].kind
  }

  ghost predicate StartsDelete(a: View, b: View, id: Id, c: Command) {
    && id in a.roles && b.roles == a.roles[id := a.roles[id].(status := RowDeleting)]
    && b.backlog == a.backlog + [c] && b.pg == a.pg && SameSecrets(a.backlog, a.secrets, b.secrets)
    && About(c, id) && c.action == PgDropRole && c.payload.roleName == a.roles[id].name
  }

  ghost predicate AppendsOther(a: View, b: View, c: Command) {
    && b.roles == a.roles && b.backlog == a.backlog + [c] && b.pg == a.pg && !IsRole(c)
    && SameSecrets(a.backlog, a.secrets, b.secrets)
  }

  ghost predicate ReplacesOther(a: View, b: View, followUp: Option<Command>) {
    && a.backlog != [] && !IsRole(a.backlog[0]) && b.roles == a.roles && b.pg == a.pg
    && b.backlog == a.backlog[1..] + (if followUp.Some? then [followUp.value] else [])
    && (followUp.Some? ==> !IsRole(followUp.value))
    && SameSecrets(a.backlog[1..], a.secrets, b.secrets)
  }

  ghost predicate SettlesRole(a: View, b: View, fault: Fault) {
    && a.backlog != [] && IsRole(a.backlog[0]) && b.backlog == a.backlog[1..]
    && var h := a.backlog[0]; var (pg, ok) := Execute(a.pg, h, a.secrets, fault);
    && b.pg == pg && b.roles == RolesAfter(a.roles, h, ok)
    && SameSecrets(a.backlog[1..], a.secrets, b.secrets)
  }

  ghost predicate IsChange(a: View, b: View, ch: RoleChange, fault: Fault) {
    match ch
    case Unrelated => a.roles == b.roles && a.backlog == b.backlog && SameSecrets(a.backlog, a.secrets, b.secrets)
                      && Calm(a, b)
    case Sets(id, row, c) => SetsPassword(a, b, id, row, c)
    case Deletes(id, c) => StartsDelete(a, b, id, c)
    case Appends(c) => AppendsOther(a, b, c)
    case Replaces(f) => ReplacesOther(a, b, f)
    case Repeats => a.roles == b.roles && Repeatable(a, b, fault)
    case Settles => SettlesRole(a, b, fault)
  }

  /** The fault of the step; only polls have one. */
  function FaultOf(e: Event): Fault {
    if e.PollEvent? then e.fault else NoFault
  }

  lemma ExecuteDatabase(pg: RoleTable, h: Command, secrets: map<Id, Secrets>, fault: Fault)
    requires IsManaged(h.action) && !h.payload.RolePayload? && WellFormed(h)
    ensures Execute(pg, h, secrets, fault).0 == pg
  {
  }

  lemma ClassifyCreate(a: View, b: View, name: string, kind: RoleKind, password: Secret) returns (ch: RoleChange)
    requires RoleCreated(a, b, name, kind, password) || RoleRetried(a, b, name, kind, password)
    ensures ch.Sets? && IsChange(a, b, ch, NoFault) && ch.command.action == PgEnsureRole
    ensures ch.id in b.roles && ch.id == ch.command.payload.roleId
    ensures ch.row == b.roles[ch.id] && ch.row.password == password
    ensures RoleQueued(a, b, PgEnsureRole, CreateRoleOp, ch.id, kind, Some(password))
    ensures ch.command == b.backlog[|b.backlog| - 1]
    ensures (ch.id in a.roles || ch.id < b.next) && ch.row.name == name
  {
    var c := b.backlog[|b.backlog| - 1];
    if RoleCreated(a, b, name, kind, password) {
      var id :| a.next <= id < b.next && id !in a.roles && !NameTaken(a.roles, name)
        && b.roles == a.roles[id := Role(name, kind, password, 1, RowPending)]
        && RoleQueued(a, b, PgEnsureRole, CreateRoleOp, id, kind, Some(password));
      ch := Sets(id, b.roles[id], c);
    } else {
      var id :| id in a.roles && a.roles[id].status == RowFailed && a.roles[id].name == name
        && b.roles == a.roles[id := Role(name, kind, password, a.roles[id].version + 1, RowPending)]
        && RoleQueued(a, b, PgEnsureRole, CreateRoleOp, id, kind, Some(password));
      ch := Sets(id, b.roles[id], c);
    }
  }

  lemma ClassifySettled(a: View, b: View, fault: Fault) returns (ch: RoleChange)
    requires Sane(a) && Settled(a, b, fault)
    ensures IsChange(a, b, ch, fault) && !ch.Sets?
  {
    var h := a.backlog[0];
    assert SaneCommand(h, a.roles, a.next);
    if IsRole(h) {
      ch := Settles;
    } else {
      ManagedPayload(h);
      ExecuteDatabase(a.pg, h, a.secrets, fault);
      ch := Replaces(if GrantQueued(a, b, h) then Some(b.backlog[|b.backlog| - 1]) else None);
    }
  }

  lemma Classify(a: View, b: View, e: Event) returns (ch: RoleChange)
    requires Sane(a) && Moved(a, b, e)
    ensures IsChange(a, b, ch, FaultOf(e))
    ensures ch.Sets? && ch.command.action == PgEnsureRole ==> e.CreateRoleEvent? && ch.row.name == e.name
  {
    if Quiet(a, b) {
      ch := Unrelated;
      return;
    }
    match e {
      case CreateRoleEvent(name, kind, password) => ch := ClassifyCreate(a, b, name, kind, password);
      case RotateRoleEvent(id, password) => ch := Sets(id, b.roles[id], b.backlog[|b.backlog| - 1]);
      case DeleteRoleEvent(id) => ch := Deletes(id, b.backlog[|b.backlog| - 1]);
      case CreateDatabaseEvent(_, _) => ch := Appends(b.backlog[|b.backlog| - 1]);
      case DeleteDatabaseEvent(_) => ch := Appends(b.backlog[|b.backlog| - 1]);
      case ApplyExtensionsEvent => ch := Unrelated;
      case PollEvent(fault, delivered) =>
        if delivered {
          ch := ClassifySettled(a, b, fault);
        } else {
          ch := Repeats;
        }
    }
  }

  // ---- Every run stays sane ----

  lemma SaneAppend(m: seq<Command>, roles: map<Id, Role>, next: Id, c: Command, rows: map<Id, Role>, later: Id)
    requires SaneBacklog(m, roles, next) && next <= later && SaneCommand(c, rows, later)
    requires forall id <- rows :: (id in roles && rows[id].name == roles[id].name) || next <= id
    ensures SaneBacklog(m + [c], rows, later)
  {
  }

  lemma SanePop(m: seq<Command>, roles: map<Id, Role>, next: Id, rows: map<Id, Role>, later: Id)
    requires SaneBacklog(m, roles, next) && next <= later && m != []
    requires forall id <- rows :: id in roles && rows[id].name == roles[id].name
    ensures SaneBacklog(m[1..], rows, later)
  {
    forall x <- m[1..] ensures SaneCommand(x, rows, later) {
      assert SaneCommand(x, roles, next);
    }
  }

  lemma SaneQueued(a: View, b: View, c: Command, kind: OperationType, password: Option<Secret>)
    requires Sane(a) && a.next < b.next && Queued(a, b, c, kind, password)
    requires IsManaged(c.action) && WellFormed(c) && SubjectOf(c) < b.next
    requires IsRole(c) && c.payload.roleId in b.roles ==> b.roles[c.payload.roleId].name == c.payload.roleName
    requires forall id <- b.roles :: (id in a.roles && b.roles[id].name == a.roles[id].name) || a.next <= id < b.next
    requires (forall id <- b.databases :: id < b.next) && UniqueNames(b.roles)
    ensures Sane(b)
  {
    SaneAppend(a.backlog, a.roles, a.next, c, b.roles, b.next);
  }

  lemma SaneSets(a: View, b: View, id: Id, row: Role, c: Command, kind: OperationType)
    requires Sane(a) && a.next < b.next && id < b.next && SetsPassword(a, b, id, row, c) && WellFormed(c)
    requires b.databases == a.databases && Queued(a, b, c, kind, Some(row.password))
    ensures Sane(b)
  {
    SaneQueued(a, b, c, kind, Some(row.password));
  }

  lemma SaneCreate(a: View, b: View, name: string, kind: RoleKind, password: Secret)
    requires Sane(a) && a.next < b.next
    requires RoleCreated(a, b, name, kind, password) || RoleRetried(a, b, name, kind, password)
    ensures Sane(b)
  {
    var ch := ClassifyCreate(a, b, name, kind, password);
    SaneSets(a, b, ch.id, ch.row, ch.command, CreateRoleOp);
  }

  lemma SaneDelete(a: View, b: View, id: Id)
    requires Sane(a) && a.next < b.next && RoleDeleted(a, b, id)
    ensures Sane(b)
  {
    SaneQueued(a, b, b.backlog[|b.backlog| - 1], DeleteRoleOp, None);
  }

  lemma SaneRoleRequest(a: View, b: View, e: Event)
    requires Sane(a) && Moved(a, b, e) && !Quiet(a, b)
    requires e.CreateRoleEvent? || e.RotateRoleEvent? || e.DeleteRoleEvent?
    ensures Sane(b)
  {
    if e.CreateRoleEvent? {
      SaneCreate(a, b, e.name, e.kind, e.password);
    } else if e.RotateRoleEvent? {
      SaneSets(a, b, e.roleId, b.roles[e.roleId], b.backlog[|b.backlog| - 1], RotateRoleOp);
    } else {
      SaneDelete(a, b, e.roleId);
    }
  }

  lemma SaneDatabaseRequest(a: View, b: View, e: Event)
    requires Sane(a) && Moved(a, b, e) && !Quiet(a, b)
    requires e.CreateDatabaseEvent? || e.DeleteDatabaseEvent?
    ensures Sane(b)
  {
    var c := b.backlog[|b.backlog| - 1];
    if e.CreateDatabaseEvent? {
      SaneQueued(a, b, c, CreateDatabaseOp, None);
    } else {
      SaneQueued(a, b, c, DeleteDatabaseOp, None);
    }
  }

  lemma SaneSettled(a: View, b: View, fault: Fault)
    requires Sane(a) && Settled(a, b, fault) && a.next < b.next
    ensures Sane(b)
  {
    var h := a.backlog[0];
    assert SaneCommand(h, a.roles, a.next);
    RolesAfterBounded(a.roles, h, Execute(a.pg, h, a.secrets, fault).1);
    SanePop(a.backlog, a.roles, a.next, b.roles, a.next);
    if b.backlog == a.backlog[1..] {
      SanePop(a.backlog, a.roles, a.next, b.roles, b.next);
    } else {
      SaneAppend(a.backlog[1..], b.roles, a.next, b.backlog[|b.backlog| - 1], b.roles, b.next);
    }
  }

  lemma SaneKept(a: View, b: View, e: Event)
    requires Sane(a) && Moved(a, b, e)
    ensures Sane(b)
  {
    if Quiet(a, b) || (e.PollEvent? && !e.delivered) {
      forall c <- b.backlog ensures SaneCommand(c, b.roles, b.next) {
        assert SaneCommand(c, a.roles, a.next);
      }
    } else if e.PollEvent? {
      SaneSettled(a, b, e.fault);
    } else if e.CreateDatabaseEvent? || e.DeleteDatabaseEvent? {
      SaneDatabaseRequest(a, b, e);
    } else {
      SaneRoleRequest(a, b, e);
    }
  }

  /**
   Nothing managed yet. The table may hold anything of other agents and of the past; what is
   pending on the primary are commands of other subsystems, cluster creation's included, that
   leave its data directory in place.
   */
  ghost predicate Initial(s: System) {
    && NothingManaged(s.store, s.agent, s.node) && s.store.operations == map[]
    && CommandsBounded(s.store.commands, s.nextId, s.clock)
    && (forall c <- s.store.commands | InQueue(c, s.agent, s.node) :: !ReplacesData(c.action))
    && (forall id <- s.store.secrets :: id < s.nextId)
  }

  lemma InitialBacklog(s: System)
    requires Initial(s)
    ensures Backlog(s) == []
  {
    QueueSound(s.store.commands, s.agent, s.node);
    NoneManaged(Queue(s.store.commands, s.agent, s.node));
  }

  ghost predicate Reached(s: System) {
    Fresh(s) && Sane(ViewOf(s)) && ProvisionedFirst(s)
  }

  lemma StepReached(s: System, o: Occurrence)
    requires Reached(s)
    ensures Reached(Step(s, o)) && Moved(ViewOf(s), ViewOf(Step(s, o)), o.event)
  {
    forall c <- Backlog(s) ensures WellFormed(c) {
      assert SaneCommand(c, s.store.roles, s.nextId);
    }
    StepMoves(s, o);
    StepEarly(s, o);
    SaneKept(ViewOf(s), ViewOf(Step(s, o)), o.event);
  }

  lemma {:induction false} RunReached(s: System, run: seq<Occurrence>)
    requires Initial(s)
    ensures Reached(Run(s, run))
  {
    if |run| == 0 {
      InitialBacklog(s);
    } else {
      RunReached(s, run[..|run| - 1]);
      StepReached(Run(s, run[..|run| - 1]), run[|run| - 1]);
    }
  }
}
