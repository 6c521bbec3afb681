/**
 Management requests. What a request checks before it takes the cluster lock may be stale by
 the time it holds it; the functions are the locked parts - lazy skylex_admin provisioning
 and one repository transaction - on whatever the tables then hold.
 */
module ManagementService {
  import opened Wrappers
  import opened Commands
  import opened Metadata
  import opened ManagedRoleRepo
  import DB = ManagedDatabaseRepo

  datatype Primary = Primary(agent: Id, node: Id)

  /**
   What a request draws from its surroundings: fresh identifiers starting at `first`, two
   clock readings, a generated password, and the cluster's primary when it is ready.
   */
  datatype Draw = Draw(
    first: Id, adminAt: Time, now: Time, adminPassword: Secret, primary: Option<Primary>, allowPromote: bool)

  /** Identifiers a request may draw. */
  const DRAWN: nat := 5

  function AdminCommand(w: Draw, p: Primary): Command {
    Command(w.first, p.agent, p.node, PgEnsureAdminRole, NoPayload, Pending, w.adminAt)
  }

  /** Store the admin password once and queue its role on the primary; true when this call did it. */
  function EnsureAdmin(s: Store, w: Draw, p: Primary): (Store, bool) {
    if s.adminSecret.Some? then (s, false)
    else (s.(adminSecret := Some(w.adminPassword),
             commands := Insert(s.commands, AdminCommand(w, p)),
             secrets := s.secrets[w.first := Secrets(None, Some(w.adminPassword))]), true)
  }

  /** The command that triggers the provisioning is queued without the admin secret. */
  function DispatchFor(s: Store, w: Draw, p: Primary): Dispatch {
    Dispatch(w.first + 3, w.first + 2, if w.allowPromote then Some(w.first + 1) else None,
             p.agent, p.node, w.now, s.adminSecret)
  }

  ghost predicate UniqueNames(roles: map<Id, Role>) {
    forall a, b | a in roles && b in roles && roles[a].name == roles[b].name :: a == b
  }

  ghost function RoleNamed(roles: map<Id, Role>, name: string): Option<Id> {
    if NameTaken(roles, name) then
      var id :| id in roles && roles[id].name == name; Some(id)
    else None
  }

  /** A failed transaction leaves the provisioning of the admin role behind. */
  function Settle<E>(provisioned: Store, r: Result<Store, E>): Store {
    match r
    case Success(s) => s
    case Failure(_) => provisioned
  }

  ghost function CreateRole(s: Store, name: string, kind: RoleKind, password: Secret, w: Draw): Store {
    var existing := RoleNamed(s.roles, name);
    if w.primary.None? then s
    else if existing.Some? && s.roles[existing.value].status != RowFailed then s
    else
      var d := DispatchFor(s, w, w.primary.value);
      var (p, _) := EnsureAdmin(s, w, w.primary.value);
      var roleId := if existing.Some? then existing.value else w.first + 4;
      var input := RoleInput(roleId, name, kind, password, password, RolePayload(roleId, d.operation, name, kind));
      Settle(p, if existing.Some? then RetryRoleTx(p, input, d) else CreateRoleTx(p, input, d))
  }

  /** What a request may have read before it got the lock; a row's name never changes. */
  function RoleNameOf(roles: map<Id, Role>, id: Id): string {
    if id in roles then roles[id].name else ""
  }

  function DatabaseNameOf(databases: map<Id, Database>, id: Id): string {
    if id in databases then databases[id].name else ""
  }

  predicate MayRotate(s: Store, roleId: Id) {
    roleId in s.roles && s.roles[roleId].status != RowDeleting
  }

  function RotateRole(s: Store, roleId: Id, password: Secret, w: Draw): Store {
    if w.primary.None? then s
    else
      var d := DispatchFor(s, w, w.primary.value);
      var (p, _) := EnsureAdmin(s, w, w.primary.value);
      var payload := RolePayload(roleId, d.operation, RoleNameOf(s.roles, roleId), Custom);
      Settle(p, RotateRoleTx(p, roleId, password, password, payload, d))
  }

  /** The whole request: what it reads before the lock, and the part under it. */
  function RotateRoleRequest(s: Store, roleId: Id, password: Secret, w: Draw): Store {
    if MayRotate(s, roleId) then RotateRole(s, roleId, password, w) else s
  }

  predicate OwnsDatabase(databases: map<Id, Database>, roleId: Id) {
    exists id :: id in databases && databases[id].owner == Some(roleId) && databases[id].status != RowDeleting
  }

  predicate MayDelete(s: Store, roleId: Id) {
    roleId in s.roles && s.roles[roleId].status != RowDeleting && !OwnsDatabase(s.databases, roleId)
  }

  function DeleteRole(s: Store, roleId: Id, w: Draw): Store {
    if w.primary.None? then s
    else
      var d := DispatchFor(s, w, w.primary.value);
      var (p, _) := EnsureAdmin(s, w, w.primary.value);
      Settle(p, DeleteRoleTx(p, roleId, RolePayload(roleId, d.operation, RoleNameOf(s.roles, roleId), Custom), d))
  }

  function DeleteRoleRequest(s: Store, roleId: Id, w: Draw): Store {
    if MayDelete(s, roleId) then DeleteRole(s, roleId, w) else s
  }

  /** The owner of a database to be created, as read before the lock. */
  datatype Owner = Owner(roleId: Id, roleName: string)

  function OwnerId(owner: Option<Owner>): Option<Id> {
    if owner.Some? then Some(owner.value.roleId) else None
  }

  function OwnerName(owner: Option<Owner>): Option<string> {
    if owner.Some? then Some(owner.value.roleName) else None
  }

  predicate MayOwn(s: Store, owner: Option<Id>) {
    owner.Some? ==> owner.value in s.roles && s.roles[owner.value].status == RowReady
                    && s.roles[owner.value].kind != ReadOnly
  }

  function OwnerRead(s: Store, owner: Option<Id>): Option<Owner>
    requires MayOwn(s, owner)
  {
    if owner.Some? then Some(Owner(owner.value, s.roles[owner.value].name)) else None
  }

  function Lower(c: char): char {
    if 'A' <= c <= 'Z' then c - 'A' + 'a' else c
  }

  /** Compared in lower case. */
  predicate Reserved(name: string) {
    seq(|name|, i requires 0 <= i < |name| => Lower(name[i])) in ["postgres", "template0", "template1"]
  }

  function CreateDatabase(s: Store, name: string, owner: Option<Owner>, w: Draw): Store {
    if w.primary.None? || DB.DatabaseNameTaken(s.databases, name) then s
    else
      var d := DispatchFor(s, w, w.primary.value);
      var (p, _) := EnsureAdmin(s, w, w.primary.value);
      var payload := DatabasePayload(w.first + 4, d.operation, name, OwnerName(owner), None);
      Settle(p, DB.CreateDatabaseTx(p, w.first + 4, name, OwnerId(owner), payload, d))
  }

  function CreateDatabaseRequest(s: Store, name: string, owner: Option<Id>, w: Draw): Store {
    if !Reserved(name) && MayOwn(s, owner) then CreateDatabase(s, name, OwnerRead(s, owner), w) else s
  }

  predicate MayDrop(s: Store, id: Id) {
    id in s.databases && s.databases[id].status != RowDeleting
  }

  function DeleteDatabase(s: Store, id: Id, w: Draw): Store {
    if w.primary.None? then s
    else
      var d := DispatchFor(s, w, w.primary.value);
      var (p, _) := EnsureAdmin(s, w, w.primary.value);
      var payload := DatabasePayload(id, d.operation, DatabaseNameOf(s.databases, id), None, None);
      Settle(p, DB.DeleteDatabaseTx(p, id, payload, d))
  }

  function DeleteDatabaseRequest(s: Store, id: Id, w: Draw): Store {
    if MayDrop(s, id) then DeleteDatabase(s, id, w) else s
  }

  /** One command and the admin password it carries; a taken identifier changes nothing. */
  function WithCommand(s: Store, c: Command, admin: Option<Secret>): Store {
    if HasId(s.commands, c.id) then s
    else s.(commands := Insert(s.commands, c), secrets := s.secrets[c.id := Secrets(None, admin)])
  }

  function ExtensionsCommand(w: Draw, p: Primary): Command {
    Command(w.first + 2, p.agent, p.node, PgApplyExtensions, NoPayload, Pending, w.now)
  }

  /** The lazy provisioning and the one command of ApplyExtensions; its rows are another module's. */
  function ApplyExtensions(s: Store, w: Draw): Store {
    if w.primary.None? then s
    else
      WithCommand(EnsureAdmin(s, w, w.primary.value).0, ExtensionsCommand(w, w.primary.value), s.adminSecret)
  }

  class PostgresManagementService {
    const conn: MetadataStore
    const roles: ManagedRoleRepository
    const databases: DB.ManagedDatabaseRepository

    constructor (conn: MetadataStore)
      ensures this.conn == conn && roles.conn == conn && databases.conn == conn
    {
      this.conn := conn;
      this.roles := new ManagedRoleRepository(conn);
      this.databases := new DB.ManagedDatabaseRepository(conn);
    }

    ghost predicate Wired() {
      roles.conn == conn && databases.conn == conn
    }

    method EnsureSkylexAdminProvisioned(w: Draw, p: Primary) returns (newlyProvisioned: bool)
      requires !HasId(conn.commands, w.first)
      modifies conn
      ensures (conn.Rows(), newlyProvisioned) == EnsureAdmin(old(conn.Rows()), w, p)
    {
      if conn.adminSecret.Some? {
        return false;
      }
      conn.adminSecret := Some(w.adminPassword);
      var _ := conn.InsertAgentCommand(AdminCommand(w, p));
      conn.AttachSecrets(w.first, None, Some(w.adminPassword));
      return true;
    }

    /** Provision lazily, then decide which secret the management command carries. */
    method Prepare(w: Draw, p: Primary) returns (d: Dispatch)
      requires !HasId(conn.commands, w.first)
      modifies conn
      ensures conn.Rows() == EnsureAdmin(old(conn.Rows()), w, p).0
      ensures d == DispatchFor(old(conn.Rows()), w, p)
    {
      var newlyProvisioned := EnsureSkylexAdminProvisioned(w, p);
      var admin := None;
      if !newlyProvisioned {
        admin := conn.adminSecret;
      }
      d := Dispatch(w.first + 3, w.first + 2, if w.allowPromote then Some(w.first + 1) else None,
                    p.agent, p.node, w.now, admin);
    }

    method HandleCreateRole(name: string, kind: RoleKind, password: Secret, w: Draw)
      requires Wired() && UniqueNames(conn.roles) && !HasId(conn.commands, w.first)
      modifies conn
      ensures conn.Rows() == CreateRole(old(conn.Rows()), name, kind, password, w)
    {
      if w.primary.None? {
        return;
      }
      var existing := None;
      if NameTaken(conn.roles, name) {
        var id :| id in conn.roles && conn.roles[id].name == name;
        existing := Some(id);
      }
      assert existing == RoleNamed(conn.roles, name);
      if existing.Some? && conn.roles[existing.value].status != RowFailed {
        return;
      }
      var d := Prepare(w, w.primary.value);
      var roleId := if existing.Some? then existing.value else w.first + 4;
      var input := RoleInput(roleId, name, kind, password, password, RolePayload(roleId, d.operation, name, kind));
      if existing.Some? {
        var _ := roles.RetryCreateWithCommand(input, d);
      } else {
        var _ := roles.CreateWithCommand(input, d);
      }
    }

    /** The part under the lock; `name` is what the request read of the row before it. */
    method Rotate(roleId: Id, name: string, password: Secret, w: Draw)
      requires Wired() && !HasId(conn.commands, w.first)
      requires roleId in conn.roles ==> name == conn.roles[roleId].name
      modifies conn
      ensures conn.Rows() == RotateRole(old(conn.Rows()), roleId, password, w)
    {
      if w.primary.None? {
        return;
      }
      var d := Prepare(w, w.primary.value);
      var _ := roles.RotateWithCommand(roleId, password, password, RolePayload(roleId, d.operation, name, Custom), d);
    }

    method HandleRotateRolePassword(roleId: Id, password: Secret, w: Draw)
      requires Wired() && !HasId(conn.commands, w.first)
      modifies conn
      ensures conn.Rows() == RotateRoleRequest(old(conn.Rows()), roleId, password, w)
    {
      if roleId !in conn.roles || conn.roles[roleId].status == RowDeleting {
        return;
      }
      Rotate(roleId, conn.roles[roleId].name, password, w);
    }

    method Delete(roleId: Id, name: string, w: Draw)
      requires Wired() && !HasId(conn.commands, w.first)
      requires roleId in conn.roles ==> name == conn.roles[roleId].name
      modifies conn
      ensures conn.Rows() == DeleteRole(old(conn.Rows()), roleId, w)
    {
      if w.primary.None? {
        return;
      }
      var d := Prepare(w, w.primary.value);
      var _ := roles.DeleteWithCommand(roleId, RolePayload(roleId, d.operation, name, Custom), d);
    }

    method HandleDeleteRole(roleId: Id, w: Draw)
      requires Wired() && !HasId(conn.commands, w.first)
      modifies conn
      ensures conn.Rows() == DeleteRoleRequest(old(conn.Rows()), roleId, w)
    {
      if roleId !in conn.roles || conn.roles[roleId].status == RowDeleting {
        return;
      }
      if OwnsDatabase(conn.databases, roleId) {
        return;
      }
      Delete(roleId, conn.roles[roleId].name, w);
    }

    method Create(name: string, owner: Option<Owner>, w: Draw)
      requires Wired() && !HasId(conn.commands, w.first)
      modifies conn
      ensures conn.Rows() == CreateDatabase(old(conn.Rows()), name, owner, w)
    {
      if w.primary.None? || DB.DatabaseNameTaken(conn.databases, name) {
        return;
      }
      var d := Prepare(w, w.primary.value);
      var payload := DatabasePayload(w.first + 4, d.operation, name, OwnerName(owner), None);
      var _ := databases.CreateWithCommand(w.first + 4, name, OwnerId(owner), payload, d);
    }

    method HandleCreateDatabase(name: string, owner: Option<Id>, w: Draw)
      requires Wired() && !HasId(conn.commands, w.first)
      modifies conn
      ensures conn.Rows() == CreateDatabaseRequest(old(conn.Rows()), name, owner, w)
    {
      if Reserved(name) {
        return;
      }
      var read := None;
      if owner.Some? {
        if owner.value !in conn.roles {
          return;
        }
        var role := conn.roles[owner.value];
        if role.status != RowReady || role.kind == ReadOnly {
          return;
        }
        read := Some(Owner(owner.value, role.name));
      }
      Create(name, read, w);
    }

    method Drop(id: Id, name: string, w: Draw)
      requires Wired() && !HasId(conn.commands, w.first)
      requires id in conn.databases ==> name == conn.databases[id].name
      modifies conn
      ensures conn.Rows() == DeleteDatabase(old(conn.Rows()), id, w)
    {
      if w.primary.None? {
        return;
      }
      var d := Prepare(w, w.primary.value);
      var _ := databases.DeleteWithCommand(id, DatabasePayload(id, d.operation, name, None, None), d);
    }

    method HandleDeleteDatabase(id: Id, w: Draw)
      requires Wired() && !HasId(conn.commands, w.first)
      modifies conn
      ensures conn.Rows() == DeleteDatabaseRequest(old(conn.Rows()), id, w)
    {
      if id !in conn.databases || conn.databases[id].status == RowDeleting {
        return;
      }
      Drop(id, conn.databases[id].name, w);
    }

    method HandleApplyExtensions(toggled: bool, w: Draw)
      requires Wired() && !HasId(conn.commands, w.first)
      modifies conn
      ensures conn.Rows() == if toggled then ApplyExtensions(old(conn.Rows()), w) else old(conn.Rows())
    {
      if w.primary.None? || !toggled {
        return;
      }
      var d := Prepare(w, w.primary.value);
      QueueWithSecret(ExtensionsCommand(w, w.primary.value), d.admin);
    }

    method QueueWithSecret(c: Command, admin: Option<Secret>)
      modifies conn
      ensures conn.Rows() == WithCommand(old(conn.Rows()), c, admin)
    {
      var ok := conn.InsertAgentCommand(c);
      if ok {
        conn.AttachSecrets(c.id, None, admin);
      }
    }
  }
}
