/** Transactions of the managed-role repository: each changes role, operation, command and secret rows together. */
module ManagedRoleRepo {
  import opened Wrappers
  import opened Commands
  import opened Metadata

  datatype RoleError = NotFound | NotFailed | Mismatch | BeingDeleted | Conflict

  predicate NameTaken(roles: map<Id, Role>, name: string) {
    exists id :: id in roles && roles[id].name == name
  }

  /** Input of a create or retry; the stored password and the command secret arrive separately. */
  datatype RoleInput = RoleInput(
    roleId: Id, name: string, kind: RoleKind, stored: Secret, secret: Secret, payload: Payload)

  function CreateRoleTx(s: Store, r: RoleInput, d: Dispatch): Result<Store, RoleError> {
    if r.roleId in s.roles || NameTaken(s.roles, r.name) then Failure(Conflict)
    else
      var rows := s.(roles := s.roles[r.roleId := Role(r.name, r.kind, r.stored, 1, RowPending)]);
      var q := QueueOperation(rows, d, CreateRoleOp, PgEnsureRole, r.payload, Some(r.secret));
      if q.None? then Failure(Conflict) else Success(q.value)
  }

  function RetryRoleTx(s: Store, r: RoleInput, d: Dispatch): Result<Store, RoleError> {
    if r.roleId !in s.roles then Failure(NotFound)
    else if s.roles[r.roleId].status != RowFailed then Failure(NotFailed)
    else if s.roles[r.roleId].name != r.name then Failure(Mismatch)
    else
      var row := s.roles[r.roleId].(
        kind := r.kind, password := r.stored, version := s.roles[r.roleId].version + 1, status := RowPending);
      var rows := s.(roles := s.roles[r.roleId := row]);
      var q := QueueOperation(rows, d, CreateRoleOp, PgEnsureRole, r.payload, Some(r.secret));
      if q.None? then Failure(Conflict) else Success(q.value)
  }

  function RotateRoleTx(s: Store, roleId: Id, stored: Secret, secret: Secret, payload: Payload, d: Dispatch)
    : Result<Store, RoleError>
  {
    if roleId !in s.roles then Failure(NotFound)
    else if s.roles[roleId].status == RowDeleting then Failure(BeingDeleted)
    else
      var row := s.roles[roleId].(password := stored, version := s.roles[roleId].version + 1, status := RowPending);
      var rows := s.(roles := s.roles[roleId := row]);
      var q := QueueOperation(rows, d, RotateRoleOp, PgRotateRolePassword, payload, Some(secret));
      if q.None? then Failure(Conflict) else Success(q.value)
  }

  /** The transaction itself does not refuse a role that is already being deleted. */
  function DeleteRoleTx(s: Store, roleId: Id, payload: Payload, d: Dispatch): Result<Store, RoleError> {
    if roleId !in s.roles then Failure(NotFound)
    else
      var rows := s.(roles := s.roles[roleId := s.roles[roleId].(status := RowDeleting)]);
      var q := QueueOperation(rows, d, DeleteRoleOp, PgDropRole, payload, None);
      if q.None? then Failure(Conflict) else Success(q.value)
  }

  function OperationTypeForRoleAction(action: Action): Option<OperationType> {
    match action
    case PgEnsureRole => Some(CreateRoleOp)
    case PgRotateRolePassword => Some(RotateRoleOp)
    case PgDropRole => Some(DeleteRoleOp)
    case _ => None
  }

  /** UPDATE managed_roles SET status = ? WHERE id = ?: no row, no change. */
  function SetRoleStatus(roles: map<Id, Role>, id: Id, status: RowStatus): map<Id, Role> {
    if id in roles then roles[id := roles[id].(status := status)] else roles
  }

  function RoleResult(s: Store, commandId: Id, success: bool): (Store, Handling) {
    var c := Find(s.commands, commandId);
    if c.None? || OperationTypeForRoleAction(c.value.action).None? then (s, NotMine)
    else if !c.value.payload.RolePayload? then (s, HandlerError)
    else
      var p := c.value.payload;
      var roles :=
        if !success then SetRoleStatus(s.roles, p.roleId, RowFailed)
        else if c.value.action == PgDropRole then s.roles - {p.roleId}
        else SetRoleStatus(s.roles, p.roleId, RowReady);
      var kind := OperationTypeForRoleAction(c.value.action).value;
      (s.(roles := roles,
          operations := CloseOperation(s.operations, p.roleOperation, kind, success),
          secrets := s.secrets - {commandId}), Handled)
  }

  class ManagedRoleRepository {
    const conn: MetadataStore

    constructor (conn: MetadataStore)
      ensures this.conn == conn
    {
      this.conn := conn;
    }

    method CreateWithCommand(r: RoleInput, d: Dispatch) returns (e: Option<RoleError>)
      modifies conn
      ensures match CreateRoleTx(old(conn.Rows()), r, d)
              case Success(s) => e == None && conn.Rows() == s
              case Failure(err) => e == Some(err) && conn.Rows() == old(conn.Rows())
    {
      var saved := conn.Rows();
      if r.roleId in conn.roles || NameTaken(conn.roles, r.name) {
        return Some(Conflict);
      }
      conn.roles := conn.roles[r.roleId := Role(r.name, r.kind, r.stored, 1, RowPending)];
      var ok := conn.QueueCommand(d, CreateRoleOp, PgEnsureRole, r.payload, Some(r.secret));
      if !ok {
        conn.Rollback(saved);
        return Some(Conflict);
      }
      return None;
    }

    method RetryCreateWithCommand(r: RoleInput, d: Dispatch) returns (e: Option<RoleError>)
      modifies conn
      ensures match RetryRoleTx(old(conn.Rows()), r, d)
              case Success(s) => e == None && conn.Rows() == s
              case Failure(err) => e == Some(err) && conn.Rows() == old(conn.Rows())
    {
      var saved := conn.Rows();
      if r.roleId !in conn.roles {
        return Some(NotFound);
      }
      var role := conn.roles[r.roleId];
      if role.status != RowFailed {
        return Some(NotFailed);
      }
      if role.name != r.name {
        return Some(Mismatch);
      }
      role := role.(version := role.version + 1);
      role := role.(kind := r.kind);
      role := role.(password := r.stored);
      role := role.(status := RowPending);
      conn.roles := conn.roles[r.roleId := role];
      var ok := conn.QueueCommand(d, CreateRoleOp, PgEnsureRole, r.payload, Some(r.secret));
      if !ok {
        conn.Rollback(saved);
        return Some(Conflict);
      }
      return None;
    }

    method RotateWithCommand(roleId: Id, stored: Secret, secret: Secret, payload: Payload, d: Dispatch)
      returns (e: Option<RoleError>)
      modifies conn
      ensures match RotateRoleTx(old(conn.Rows()), roleId, stored, secret, payload, d)
              case Success(s) => e == None && conn.Rows() == s
              case Failure(err) => e == Some(err) && conn.Rows() == old(conn.Rows())
    {
      var saved := conn.Rows();
      if roleId !in conn.roles {
        return Some(NotFound);
      }
      var role := conn.roles[roleId];
      if role.status == RowDeleting {
        return Some(BeingDeleted);
      }
      role := role.(version := role.version + 1);
      role := role.(password := stored);
      role := role.(status := RowPending);
      conn.roles := conn.roles[roleId := role];
      var ok := conn.QueueCommand(d, RotateRoleOp, PgRotateRolePassword, payload, Some(secret));
      if !ok {
        conn.Rollback(saved);
        return Some(Conflict);
      }
      return None;
    }

    method DeleteWithCommand(roleId: Id, payload: Payload, d: Dispatch) returns (e: Option<RoleError>)
      modifies conn
      ensures match DeleteRoleTx(old(conn.Rows()), roleId, payload, d)
              case Success(s) => e == None && conn.Rows() == s
              case Failure(err) => e == Some(err) && conn.Rows() == old(conn.Rows())
    {
      var saved := conn.Rows();
      if roleId !in conn.roles {
        return Some(NotFound);
      }
      conn.roles := conn.roles[roleId := conn.roles[roleId].(status := RowDeleting)];
      var ok := conn.QueueCommand(d, DeleteRoleOp, PgDropRole, payload, None);
      if !ok {
        conn.Rollback(saved);
        return Some(Conflict);
      }
      return None;
    }

    method HandleCommandResult(commandId: Id, success: bool) returns (h: Handling)
      modifies conn
      ensures (conn.Rows(), h) == RoleResult(old(conn.Rows()), commandId, success)
    {
      var c := Find(conn.commands, commandId);
      if c.None? {
        return NotMine;
      }
      var kind := OperationTypeForRoleAction(c.value.action);
      if kind.None? {
        return NotMine;
      }
      if !c.value.payload.RolePayload? {
        return HandlerError;
      }
      var p := c.value.payload;
      if success {
        if c.value.action == PgDropRole {
          conn.roles := conn.roles - {p.roleId};
        } else {
          conn.roles := SetRoleStatus(conn.roles, p.roleId, RowReady);
        }
      } else {
        conn.roles := SetRoleStatus(conn.roles, p.roleId, RowFailed);
      }
      conn.operations := CloseOperation(conn.operations, p.roleOperation, kind.value, success);
      conn.secrets := conn.secrets - {commandId};
      return Handled;
    }
  }

  /** Which rows a role transaction accepts, and why it refuses the others; a taken identifier is a conflict. */
  lemma RoleRefusals(s: Store, r: RoleInput, d: Dispatch, id: Id, stored: Secret, secret: Secret, payload: Payload)
    ensures CreateRoleTx(s, r, d).Failure? ==> CreateRoleTx(s, r, d).error == Conflict
    ensures CreateRoleTx(s, r, d).Success? ==> r.roleId !in s.roles && forall k <- s.roles :: s.roles[k].name != r.name
    ensures var retry := RetryRoleTx(s, r, d);
            && (retry == Failure(NotFound) <==> r.roleId !in s.roles)
            && (retry == Failure(NotFailed) <==> r.roleId in s.roles && s.roles[r.roleId].status != RowFailed)
            && (retry == Failure(Mismatch) <==> r.roleId in s.roles && s.roles[r.roleId].status == RowFailed
                                                && s.roles[r.roleId].name != r.name)
            && retry != Failure(BeingDeleted)
    ensures var rotate := RotateRoleTx(s, id, stored, secret, payload, d);
            && (rotate == Failure(NotFound) <==> id !in s.roles)
            && (rotate == Failure(BeingDeleted) <==> id in s.roles && s.roles[id].status == RowDeleting)
            && rotate != Failure(NotFailed) && rotate != Failure(Mismatch)
    ensures var drop := DeleteRoleTx(s, id, payload, d);
            && (drop == Failure(NotFound) <==> id !in s.roles)
            && (drop.Failure? && id in s.roles ==> drop.error == Conflict)
  {
  }
}
