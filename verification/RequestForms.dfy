/** What a request commits and what a report leaves, in one form each. */
module RequestForms {
  import opened Wrappers
  import opened Commands
  import opened Metadata
  import opened ManagedRoleRepo
  import DB = ManagedDatabaseRepo
  import opened ManagementService
  import opened PostgresRoles
  import opened AgentProtocol
  import opened ControlLoop
  import opened ControlView

  /** The parameters of an accepted request's transaction. */
  datatype Form = Form(roles: map<Id, Role>, databases: map<Id, Database>, kind: OperationType, action: Action,
                       payload: Payload, password: Option<Secret>)

  ghost function FormOutcome(s: Store, w: Draw, p: Primary, f: Form): Option<Store> {
    RequestOutcome(s, w, p, f.roles, f.databases, f.kind, f.action, f.payload, f.password)
  }

  /** The form of a request, if its transaction commits; what a refused one may leave is the provisioning. */
  ghost predicate HasForm(s: Store, after: Store, w: Draw, f: Option<Form>) {
    if f.None? then after == s || (w.primary.Some? && after == EnsureAdmin(s, w, w.primary.value).0)
    else w.primary.Some? && IsManaged(f.value.action)
         && FormOutcome(s, w, w.primary.value, f.value) == Some(after)
  }

  lemma CreateRoleForm(s: Store, name: string, kind: RoleKind, password: Secret, w: Draw, clock: Time)
          returns (f: Option<Form>)
    requires Bounded(s, w.first, clock) && clock < w.adminAt < w.now
    ensures HasForm(s, CreateRole(s, name, kind, password, w), w, f)
  {
    f := None;
    var existing := RoleNamed(s.roles, name);
    if w.primary.Some? && (existing.None? || s.roles[existing.value].status == RowFailed) {
      var id := if existing.Some? then existing.value else w.first + 4;
      var row := Role(name, kind, password, if existing.Some? then s.roles[id].version + 1 else 1, RowPending);
      f := Some(Form(s.roles[id := row], s.databases, CreateRoleOp, PgEnsureRole,
                     RolePayload(id, w.first + 3, name, kind), Some(password)));
      FormAccepted(s, w, f.value, clock);
      CreateRoleOutcome(s, name, kind, password, w, id, row);
    }
  }

  lemma RotateRoleForm(s: Store, id: Id, password: Secret, w: Draw, clock: Time) returns (f: Option<Form>)
    requires Bounded(s, w.first, clock) && clock < w.adminAt < w.now
    ensures HasForm(s, RotateRole(s, id, password, w), w, f)
  {
    f := None;
    if w.primary.Some? && id in s.roles && s.roles[id].status != RowDeleting {
      var row := s.roles[id].(password := password, version := s.roles[id].version + 1, status := RowPending);
      f := Some(Form(s.roles[id := row], s.databases, RotateRoleOp, PgRotateRolePassword,
                     RolePayload(id, w.first + 3, row.name, Custom), Some(password)));
      FormAccepted(s, w, f.value, clock);
      RotateRoleOutcome(s, id, password, w, row);
    }
  }

  lemma DeleteRoleForm(s: Store, id: Id, w: Draw, clock: Time) returns (f: Option<Form>)
    requires Bounded(s, w.first, clock) && clock < w.adminAt < w.now
    ensures HasForm(s, DeleteRole(s, id, w), w, f)
  {
    f := None;
    if w.primary.Some? && id in s.roles {
      var row := s.roles[id].(status := RowDeleting);
      f := Some(Form(s.roles[id := row], s.databases, DeleteRoleOp, PgDropRole,
                     RolePayload(id, w.first + 3, row.name, Custom), None));
      FormAccepted(s, w, f.value, clock);
      DeleteRoleOutcome(s, id, w, row);
    }
  }

  lemma CreateDatabaseForm(s: Store, name: string, owner: Option<Owner>, w: Draw, clock: Time) returns (f: Option<Form>)
    requires Bounded(s, w.first, clock) && clock < w.adminAt < w.now
    ensures HasForm(s, CreateDatabase(s, name, owner, w), w, f)
  {
    f := None;
    if w.primary.Some? && !DB.DatabaseNameTaken(s.databases, name) {
      var row := Database(name, OwnerId(owner), RowPending);
      f := Some(Form(s.roles, s.databases[w.first + 4 := row], CreateDatabaseOp, PgEnsureDatabase,
                     DatabasePayload(w.first + 4, w.first + 3, name, OwnerName(owner), None), None));
      FormAccepted(s, w, f.value, clock);
      CreateDatabaseOutcome(s, name, owner, w, row);
    }
  }

  lemma DeleteDatabaseForm(s: Store, id: Id, w: Draw, clock: Time) returns (f: Option<Form>)
    requires Bounded(s, w.first, clock) && clock < w.adminAt < w.now
    ensures HasForm(s, DeleteDatabase(s, id, w), w, f)
  {
    f := None;
    if w.primary.Some? && id in s.databases {
      var row := s.databases[id].(status := RowDeleting);
      f := Some(Form(s.roles, s.databases[id := row], DeleteDatabaseOp, PgDropDatabase,
                     DatabasePayload(id, w.first + 3, row.name, None, None), None));
      FormAccepted(s, w, f.value, clock);
      DeleteDatabaseOutcome(s, id, w, row);
    }
  }

  /** Every management request changes nothing, or provisions, or commits one transaction of the common form. */
  lemma RequestForm(s: Store, e: Event, w: Draw, clock: Time) returns (f: Option<Form>)
    requires Bounded(s, w.first, clock) && clock < w.adminAt < w.now && IsRequest(e) && !e.ApplyExtensionsEvent?
    ensures HasForm(s, Requested(s, e, w), w, f)
  {
    match e {
      case CreateRoleEvent(name, kind, password) => f := CreateRoleForm(s, name, kind, password, w, clock);
      case RotateRoleEvent(id, password) => f := RotateRoleForm(s, id, password, w, clock);
      case DeleteRoleEvent(id) => f := DeleteRoleForm(s, id, w, clock);
      case CreateDatabaseEvent(name, owner) => f := CreateDatabaseForm(s, name, owner, w, clock);
      case DeleteDatabaseEvent(id) => f := DeleteDatabaseForm(s, id, w, clock);
    }
  }

  lemma FormAccepted(s: Store, w: Draw, f: Form, clock: Time)
    requires Bounded(s, w.first, clock) && clock < w.adminAt < w.now && w.primary.Some? && IsManaged(f.action)
    ensures FormOutcome(s, w, w.primary.value, f).Some?
  {
    RequestCommandEffect(s, w, w.primary.value, f.roles, f.databases, f.kind, f.action, f.payload, f.password, clock);
  }

  /** A handled report leaves the reported commands, or those of a hand-over, and drops one command's secrets. */
  lemma ReportRows(s: Store, h: Command, ok: bool, w: Draw, agent: Id, node: Id) returns (rows: Store)
    requires UniqueIds(s.commands) && Queue(s.commands, agent, node) != [] && h == Queue(s.commands, agent, node)[0]
    requires IsManaged(h.action) ==> WellFormed(h)
    ensures ReportResult(s, h.id, ok, w) == rows.(secrets := rows.secrets - {h.id})
    ensures var r := ReportedStore(s, h, ok);
            || (rows.commands == r.commands && rows.secrets == r.secrets && rows.adminSecret == r.adminSecret)
            || (w.primary.Some? && h.payload.DatabasePayload? && h.payload.owner.Some?
                && rows == HandOver(r, GrantOf(h), w))
  {
    FindReported(s.commands, agent, node, ok);
    rows := ReportedStore(s, h, ok);
    if !IsManaged(h.action) {
      OtherReport(s, h, ok, w);
    } else {
      ManagedPayload(h);
      if h.payload.RolePayload? {
        RoleReport(s, h, ok, w);
        rows := rows.(roles := RolesAfter(s.roles, h, ok), operations := OperationsAfterRole(s.operations, h, ok));
      } else {
        DatabaseReported(s, h, ok, w);
        rows := DatabaseRows(rows, h, ok, w);
      }
    }
  }
}
