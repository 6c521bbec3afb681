/** The role table of one PostgreSQL server and what each role statement sequence does to it. */
module PostgresRoles {
  import opened Wrappers
  import opened Commands
  import opened Metadata

  datatype PgRole = PgRole(superuser: bool, password: Option<Secret>)

  type RoleTable = map<string, PgRole>

  /** Names and password of the agent's configuration: the bootstrap superuser and the replication user. */
  datatype Accounts = Accounts(superuser: string, replication: string, password: Secret)

  /** Where a statement sequence breaks off: not at all, before its first change, or before its last. */
  datatype Fault = NoFault | Early | Late

  /** ALTER ROLE keeps the password; CREATE ROLE starts without one. */
  function WithAttributes(roles: RoleTable, name: string, kind: RoleKind): RoleTable {
    roles[name := PgRole(kind == Admin, if name in roles then roles[name].password else None)]
  }

  function Ensured(roles: RoleTable, name: string, kind: RoleKind, password: Secret, fault: Fault): RoleTable {
    match fault
    case Early => roles
    case Late => WithAttributes(roles, name, kind)
    case NoFault => roles[name := PgRole(kind == Admin, Some(password))]
  }

  /** ALTER ROLE ... PASSWORD is an error for a role that does not exist. */
  function Rotated(roles: RoleTable, name: string, password: Secret, fault: Fault): RoleTable {
    if fault == NoFault && name in roles then roles[name := roles[name].(password := Some(password))] else roles
  }

  function Dropped(roles: RoleTable, name: string, fault: Fault): RoleTable {
    if fault == NoFault then roles - {name} else roles
  }

  /** A server without a single role has no data directory yet; initialising creates its superuser. */
  function Initialized(roles: RoleTable, a: Accounts, fault: Fault): RoleTable {
    if fault == NoFault && roles == map[] then map[a.superuser := PgRole(true, Some(a.password))] else roles
  }

  /** CREATE ROLE for the replication user unless pg_roles has the name. */
  function WithReplication(roles: RoleTable, a: Accounts, fault: Fault): RoleTable {
    if fault == NoFault && a.replication !in roles then roles[a.replication := PgRole(false, Some(a.password))]
    else roles
  }

  class Instance {
    const accounts: Accounts
    var roles: RoleTable

    constructor (accounts: Accounts, roles: RoleTable)
      ensures this.accounts == accounts && this.roles == roles
    {
      this.accounts, this.roles := accounts, roles;
    }

    method InitDB(fault: Fault) returns (ok: bool)
      modifies this
      ensures ok == (fault == NoFault) && roles == Initialized(old(roles), accounts, fault)
      ensures ok && old(roles) == map[] ==> roles == map[accounts.superuser := PgRole(true, Some(accounts.password))]
      ensures !ok || old(roles) != map[] ==> roles == old(roles)
    {
      if fault != NoFault {
        return false;
      }
      if roles == map[] {
        roles := map[accounts.superuser := PgRole(true, Some(accounts.password))];
      }
      ok := true;
    }

    method CreateReplicationUser(fault: Fault) returns (ok: bool)
      modifies this
      ensures ok == (fault == NoFault) && roles == WithReplication(old(roles), accounts, fault)
      ensures roles == if ok && accounts.replication !in old(roles)
                       then old(roles)[accounts.replication := PgRole(false, Some(accounts.password))] else old(roles)
    {
      if fault != NoFault {
        return false;
      }
      if accounts.replication !in roles {
        roles := roles[accounts.replication := PgRole(false, Some(accounts.password))];
      }
      ok := true;
    }

    method SetRolePassword(name: string, password: Secret) returns (ok: bool)
      modifies this
      ensures ok == (name in old(roles))
      ensures roles == if ok then old(roles)[name := old(roles)[name].(password := Some(password))] else old(roles)
    {
      ok := name in roles;
      if ok {
        roles := roles[name := roles[name].(password := Some(password))];
      }
    }

    method EnsureRole(name: string, kind: RoleKind, password: Secret, fault: Fault) returns (ok: bool)
      modifies this
      ensures ok == (fault == NoFault) && roles == Ensured(old(roles), name, kind, password, fault)
      ensures ok ==> roles == old(roles)[name := PgRole(kind == Admin, Some(password))]
      ensures fault == Late && name in old(roles) ==>
                roles == old(roles)[name := PgRole(kind == Admin, old(roles)[name].password)]
      ensures fault == Late && name !in old(roles) ==> roles == old(roles)[name := PgRole(kind == Admin, None)]
      ensures fault == Early ==> roles == old(roles)
    {
      if fault == Early {
        return false;
      }
      if name in roles {
        roles := roles[name := roles[name].(superuser := kind == Admin)];
      } else {
        roles := roles[name := PgRole(kind == Admin, None)];
      }
      if fault == Late {
        return false;
      }
      ok := SetRolePassword(name, password);
    }

    method RotateRolePassword(name: string, password: Secret, fault: Fault) returns (ok: bool)
      modifies this
      ensures ok == (fault == NoFault && name in old(roles)) && roles == Rotated(old(roles), name, password, fault)
      ensures roles == if ok then old(roles)[name := old(roles)[name].(password := Some(password))] else old(roles)
    {
      if fault != NoFault {
        return false;
      }
      ok := SetRolePassword(name, password);
    }

    method DropRole(name: string, fault: Fault) returns (ok: bool)
      modifies this
      ensures ok == (fault == NoFault) && roles == Dropped(old(roles), name, fault)
      ensures roles == if ok then old(roles) - {name} else old(roles)
    {
      if fault != NoFault {
        return false;
      }
      roles := roles - {name};
      ok := true;
    }
  }
}
