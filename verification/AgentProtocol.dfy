/** The two ends of the command protocol: the server's fetch and report handlers and the agent's loop. */
module AgentProtocol {
  import opened Wrappers
  import opened Commands
  import opened Metadata
  import opened ManagedRoleRepo
  import DB = ManagedDatabaseRepo
  import Repo = AgentCommandRepo
  import opened ManagementService
  import opened PostgresRoles

  const SKYLEX_ADMIN := "skylex_admin"

  function GrantCommand(g: DB.GrantRequest, w: Draw, p: Primary): Command {
    Command(w.first + 2, p.agent, p.node, PgGrantDatabasePrivileges,
            DatabasePayload(g.databaseId, g.operationId, g.databaseName, None, Some(g.roleName)), Pending, w.now)
  }

  /** From ensure to grant: queue the grant on the current primary, or close the creation as failed. */
  function HandOver(s: Store, g: DB.GrantRequest, w: Draw): Store {
    if w.primary.None? then DB.MarkCreateFailedTx(s, g.databaseId, g.operationId)
    else
      var (p, _) := EnsureAdmin(s, w, w.primary.value);
      var q := DB.QueueGrantTx(p, GrantCommand(g, w, w.primary.value), s.adminSecret);
      if q.Some? then q.value else DB.MarkCreateFailedTx(p, g.databaseId, g.operationId)
  }

  function DatabaseReport(s: Store, id: Id, success: bool, w: Draw): Store {
    var (rows, _, grant) := DB.DatabaseResult(s, id, success);
    if grant.Some? then HandOver(rows, grant.value, w) else rows
  }

  /** Everything one accepted result report changes, from the status update to the deferred secret cleanup. */
  function ReportResult(s: Store, id: Id, success: bool, w: Draw): Store {
    var s1 := s.(commands := Report(s.commands, id, success));
    var (s2, handled) := RoleResult(s1, id, success);
    var s3 := if handled == Handled then s2 else DatabaseReport(s2, id, success, w);
    s3.(secrets := s3.secrets - {id})
  }

  /** Effect of a management or admin command on the role table, and whether the agent reports success. */
  function Execute(pg: RoleTable, c: Command, secrets: map<Id, Secrets>, fault: Fault): (RoleTable, bool) {
    var key := SecretsOf(secrets, c.id);
    match c.action
    case PgEnsureRole =>
      if c.payload.RolePayload? && key.password.Some?
      then (Ensured(pg, c.payload.roleName, c.payload.roleKind, key.password.value, fault), fault == NoFault)
      else (pg, false)
    case PgEnsureAdminRole =>
      if key.admin.Some?
      then (Ensured(pg, SKYLEX_ADMIN, Admin, key.admin.value, fault), fault == NoFault)
      else (pg, false)
    case PgRotateRolePassword =>
      if c.payload.RolePayload? && key.password.Some?
      then (Rotated(pg, c.payload.roleName, key.password.value, fault),
            fault == NoFault && c.payload.roleName in pg)
      else (pg, false)
    case PgDropRole =>
      if c.payload.RolePayload? then (Dropped(pg, c.payload.roleName, fault), fault == NoFault) else (pg, false)
    case _ => (pg, fault == NoFault)
  }

  /** Effect of any command: some lifecycle commands create the server's own roles. */
  function Executed(a: Accounts, pg: RoleTable, c: Command, secrets: map<Id, Secrets>, fault: Fault)
    : (RoleTable, bool)
  {
    match c.action
    case PgInstallDocker | PgInit | PgStart => (Initialized(pg, a, fault), fault == NoFault)
    case PgCreateReplUser => (WithReplication(pg, a, fault), fault == NoFault)
    case _ => Execute(pg, c, secrets, fault)
  }

  /** The roles Skylex itself makes in PostgreSQL. */
  function OwnNames(a: Accounts): set<string> {
    {a.superuser, a.replication, SKYLEX_ADMIN}
  }

  /** Commands that put another data directory in place of the server's; not part of the role table's model. */
  predicate ReplacesData(a: Action) {
    a == PgPurgeNative || a == PgBasebackup || a == PgRewind
  }

  class AgentService {
    const conn: MetadataStore
    const management: PostgresManagementService

    constructor (conn: MetadataStore)
      ensures this.conn == conn && Wired()
    {
      this.conn := conn;
      this.management := new PostgresManagementService(conn);
    }

    ghost predicate Wired() {
      management.conn == conn && management.Wired()
    }

    /** The oldest pending row addressed to the agent, if any. */
    method FetchCommand(agent: Id, node: Id) returns (cmds: seq<Command>)
      ensures cmds == Repo.Take(Queue(conn.commands, agent, node), 1)
    {
      cmds := Repo.ListPendingLimit(conn.commands, agent, node, 1);
    }

    method HandleDatabaseManagementResult(id: Id, success: bool, w: Draw)
      requires Wired() && !HasId(conn.commands, w.first)
      modifies conn
      ensures conn.Rows() == DatabaseReport(old(conn.Rows()), id, success, w)
    {
      var _, grant := management.databases.HandleCommandResult(id, success);
      if grant.None? {
        return;
      }
      var g := grant.value;
      if w.primary.None? {
        management.databases.MarkCreateFailed(g.databaseId, g.operationId);
        return;
      }
      var d := management.Prepare(w, w.primary.value);
      var ok := management.databases.QueueGrantCommand(GrantCommand(g, w, w.primary.value), d.admin);
      if !ok {
        management.databases.MarkCreateFailed(g.databaseId, g.operationId);
      }
    }

    method ReportCommandResult(agent: Id, node: Id, id: Id, success: bool, w: Draw) returns (accepted: bool)
      requires Wired() && !HasId(conn.commands, w.first)
      modifies conn
      ensures var c := Find(old(conn.commands), id);
              accepted == (c.Some? && (c.value.agentId == agent || c.value.nodeId == node))
      ensures conn.Rows() == if accepted then ReportResult(old(conn.Rows()), id, success, w) else old(conn.Rows())
    {
      var c := Find(conn.commands, id);
      if c.None? || !Addressed(c.value, agent, node) {
        return false;
      }
      conn.commands := Report(conn.commands, id, success);
      assert !HasId(conn.commands, w.first);
      var handled := management.roles.HandleCommandResult(id, success);
      if handled != Handled {
        HandleDatabaseManagementResult(id, success, w);
      }
      conn.secrets := conn.secrets - {id};
      return true;
    }
  }

  class Agent {
    const agentId: Id
    const nodeId: Id
    const client: AgentService
    const pg: Instance

    constructor (agentId: Id, nodeId: Id, client: AgentService, pg: Instance)
      ensures this.agentId == agentId && this.nodeId == nodeId && this.client == client && this.pg == pg
    {
      this.agentId, this.nodeId, this.client, this.pg := agentId, nodeId, client, pg;
    }

    method ExecuteCommand(c: Command, secrets: map<Id, Secrets>, fault: Fault) returns (ok: bool)
      requires !ReplacesData(c.action)
      modifies pg
      ensures (pg.roles, ok) == Executed(pg.accounts, old(pg.roles), c, secrets, fault)
    {
      var key := SecretsOf(secrets, c.id);
      match c.action {
        case PgEnsureRole =>
          if !c.payload.RolePayload? || key.password.None? {
            return false;
          }
          ok := pg.EnsureRole(c.payload.roleName, c.payload.roleKind, key.password.value, fault);
        case PgEnsureAdminRole =>
          if key.admin.None? {
            return false;
          }
          ok := pg.EnsureRole(SKYLEX_ADMIN, Admin, key.admin.value, fault);
        case PgRotateRolePassword =>
          if !c.payload.RolePayload? || key.password.None? {
            return false;
          }
          ok := pg.RotateRolePassword(c.payload.roleName, key.password.value, fault);
        case PgDropRole =>
          if !c.payload.RolePayload? {
            return false;
          }
          ok := pg.DropRole(c.payload.roleName, fault);
        case PgInstallDocker | PgInit | PgStart =>
          ok := pg.InitDB(fault);
        case PgCreateReplUser =>
          ok := pg.CreateReplicationUser(fault);
        case _ =>
          ok := fault == NoFault;
      }
    }

    /** Fetch, execute, report. A lost report leaves the command pending on the server. */
    method FetchCommands(fault: Fault, delivered: bool, w: Draw)
      requires client.Wired() && UniqueIds(client.conn.commands) && !HasId(client.conn.commands, w.first)
      requires var q := Queue(client.conn.commands, agentId, nodeId); q != [] ==> !ReplacesData(q[0].action)
      modifies client.conn, pg
      ensures var q := Queue(old(client.conn.commands), agentId, nodeId);
              if q == [] then pg.roles == old(pg.roles) && client.conn.Rows() == old(client.conn.Rows())
              else
                var (table, ok) := Executed(pg.accounts, old(pg.roles), q[0], old(client.conn.secrets), fault);
                && pg.roles == table
                && client.conn.Rows() ==
                   if delivered then ReportResult(old(client.conn.Rows()), q[0].id, ok, w) else old(client.conn.Rows())
    {
      var cmds := client.FetchCommand(agentId, nodeId);
      var i := 0;
      while i < |cmds|
        invariant 0 <= i <= |cmds| <= 1
        invariant i == 0 ==> pg.roles == old(pg.roles) && client.conn.Rows() == old(client.conn.Rows())
        invariant i == 1 ==>
                    var (table, ok) := Executed(pg.accounts, old(pg.roles), cmds[0], old(client.conn.secrets), fault);
                    && pg.roles == table
                    && client.conn.Rows() ==
                       if delivered then ReportResult(old(client.conn.Rows()), cmds[0].id, ok, w)
                       else old(client.conn.Rows())
      {
        var ok := ExecuteCommand(cmds[i], client.conn.secrets, fault);
        if delivered {
          QueueSound(client.conn.commands, agentId, nodeId);
          FindUnique(client.conn.commands, cmds[i]);
          var _ := client.ReportCommandResult(agentId, nodeId, cmds[i].id, ok, w);
        }
        i := i + 1;
      }
    }
  }
}
