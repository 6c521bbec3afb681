/** Transactions of the managed-database repository; creation has two phases, ensure and then grant. */
module ManagedDatabaseRepo {
  import opened Wrappers
  import opened Commands
  import opened Metadata

  datatype DatabaseError = NotFound | Conflict

  predicate DatabaseNameTaken(databases: map<Id, Database>, name: string) {
    exists id :: id in databases && databases[id].name == name
  }

  function CreateDatabaseTx(s: Store, id: Id, name: string, owner: Option<Id>, payload: Payload, d: Dispatch)
    : Result<Store, DatabaseError>
  {
    if id in s.databases || DatabaseNameTaken(s.databases, name) then Failure(Conflict)
    else
      var rows := s.(databases := s.databases[id := Database(name, owner, RowPending)]);
      var q := QueueOperation(rows, d, CreateDatabaseOp, PgEnsureDatabase, payload, None);
      if q.None? then Failure(Conflict) else Success(q.value)
  }

  function DeleteDatabaseTx(s: Store, id: Id, payload: Payload, d: Dispatch): Result<Store, DatabaseError> {
    if id !in s.databases then Failure(NotFound)
    else
      var rows := s.(databases := s.databases[id := s.databases[id].(status := RowDeleting)]);
      var q := QueueOperation(rows, d, DeleteDatabaseOp, PgDropDatabase, payload, None);
      if q.None? then Failure(Conflict) else Success(q.value)
  }

  /** The grant reuses the operation opened by the create; it inserts no operation row. */
  function QueueGrantTx(s: Store, command: Command, admin: Option<Secret>): Option<Store> {
    if HasId(s.commands, command.id) then None
    else Some(s.(commands := Insert(s.commands, command),
                 secrets := s.secrets[command.id := Secrets(None, admin)]))
  }

  function SetDatabaseStatus(databases: map<Id, Database>, id: Id, status: RowStatus): map<Id, Database> {
    if id in databases then databases[id := databases[id].(status := status)] else databases
  }

  function MarkCreateFailedTx(s: Store, databaseId: Id, operationId: Id): Store {
    s.(databases := SetDatabaseStatus(s.databases, databaseId, RowFailed),
       operations := CloseOperation(s.operations, operationId, CreateDatabaseOp, false))
  }

  function OperationTypeForDatabaseAction(action: Action): Option<OperationType> {
    match action
    case PgEnsureDatabase => Some(CreateDatabaseOp)
    case PgGrantDatabasePrivileges => Some(CreateDatabaseOp)
    case PgDropDatabase => Some(DeleteDatabaseOp)
    case _ => None
  }

  /** A follow-up the server must queue after a successful ensure of an owned database. */
  datatype GrantRequest = GrantRequest(databaseId: Id, operationId: Id, databaseName: string, roleName: string)

  function CloseDatabase(s: Store, p: Payload, kind: OperationType, success: bool): Store
    requires p.DatabasePayload?
  {
    s.(databases := SetDatabaseStatus(s.databases, p.databaseId, if success then RowReady else RowFailed),
       operations := CloseOperation(s.operations, p.databaseOperation, kind, success))
  }

  function DatabaseResult(s: Store, commandId: Id, success: bool): (Store, Handling, Option<GrantRequest>) {
    var c := Find(s.commands, commandId);
    if c.None? || OperationTypeForDatabaseAction(c.value.action).None? then (s, NotMine, None)
    else if !c.value.payload.DatabasePayload? then (s, HandlerError, None)
    else
      var p := c.value.payload;
      var kind := OperationTypeForDatabaseAction(c.value.action).value;
      if c.value.action == PgDropDatabase && success then
        (s.(databases := s.databases - {p.databaseId},
            operations := CloseOperation(s.operations, p.databaseOperation, kind, true)), Handled, None)
      else if c.value.action == PgEnsureDatabase && success && p.owner.Some? then
        // The cluster is looked up through the database row; without the row the handler fails.
        if p.databaseId !in s.databases then (s, HandlerError, None)
        else (s, Handled, Some(GrantRequest(p.databaseId, p.databaseOperation, p.databaseName, p.owner.value)))
      else (CloseDatabase(s, p, kind, success), Handled, None)
  }

  class ManagedDatabaseRepository {
    const conn: MetadataStore

    constructor (conn: MetadataStore)
      ensures this.conn == conn
    {
      this.conn := conn;
    }

    method CreateWithCommand(id: Id, name: string, owner: Option<Id>, payload: Payload, d: Dispatch)
      returns (e: Option<DatabaseError>)
      modifies conn
      ensures match CreateDatabaseTx(old(conn.Rows()), id, name, owner, payload, d)
              case Success(s) => e == None && conn.Rows() == s
              case Failure(err) => e == Some(err) && conn.Rows() == old(conn.Rows())
    {
      var saved := conn.Rows();
      if id in conn.databases || DatabaseNameTaken(conn.databases, name) {
        return Some(Conflict);
      }
      conn.databases := conn.databases[id := Database(name, owner, RowPending)];
      var ok := conn.QueueCommand(d, CreateDatabaseOp, PgEnsureDatabase, payload, None);
      if !ok {
        conn.Rollback(saved);
        return Some(Conflict);
      }
      return None;
    }

    method DeleteWithCommand(id: Id, payload: Payload, d: Dispatch) returns (e: Option<DatabaseError>)
      modifies conn
      ensures match DeleteDatabaseTx(old(conn.Rows()), id, payload, d)
              case Success(s) => e == None && conn.Rows() == s
              case Failure(err) => e == Some(err) && conn.Rows() == old(conn.Rows())
    {
      var saved := conn.Rows();
      if id !in conn.databases {
        return Some(NotFound);
      }
      conn.databases := conn.databases[id := conn.databases[id].(status := RowDeleting)];
      var ok := conn.QueueCommand(d, DeleteDatabaseOp, PgDropDatabase, payload, None);
      if !ok {
        conn.Rollback(saved);
        return Some(Conflict);
      }
      return None;
    }

    method QueueGrantCommand(command: Command, admin: Option<Secret>) returns (ok: bool)
      modifies conn
      ensures var q := QueueGrantTx(old(conn.Rows()), command, admin);
              ok == q.Some? && conn.Rows() == if ok then q.value else old(conn.Rows())
    {
      ok := conn.InsertAgentCommand(command);
      if ok {
        conn.AttachSecrets(command.id, None, admin);
      }
    }

    method MarkCreateFailed(databaseId: Id, operationId: Id)
      modifies conn
      ensures conn.Rows() == MarkCreateFailedTx(old(conn.Rows()), databaseId, operationId)
    {
      conn.databases := SetDatabaseStatus(conn.databases, databaseId, RowFailed);
      conn.operations := CloseOperation(conn.operations, operationId, CreateDatabaseOp, false);
    }

    method HandleCommandResult(commandId: Id, success: bool) returns (h: Handling, followUp: Option<GrantRequest>)
      modifies conn
      ensures (conn.Rows(), h, followUp) == DatabaseResult(old(conn.Rows()), commandId, success)
    {
      followUp := None;
      var c := Find(conn.commands, commandId);
      if c.None? {
        return NotMine, None;
      }
      var kind := OperationTypeForDatabaseAction(c.value.action);
      if kind.None? {
        return NotMine, None;
      }
      if !c.value.payload.DatabasePayload? {
        return HandlerError, None;
      }
      var p := c.value.payload;
      var operationType := kind.value;
      if c.value.action == PgEnsureDatabase && success && p.owner.Some? {
        if p.databaseId !in conn.databases {
          return HandlerError, None;
        }
        followUp := Some(GrantRequest(p.databaseId, p.databaseOperation, p.databaseName, p.owner.value));
      } else if c.value.action == PgDropDatabase && success {
        conn.databases := conn.databases - {p.databaseId};
        conn.operations := CloseOperation(conn.operations, p.databaseOperation, operationType, true);
      } else {
        conn.databases := SetDatabaseStatus(conn.databases, p.databaseId, if success then RowReady else RowFailed);
        conn.operations := CloseOperation(conn.operations, p.databaseOperation, operationType, success);
      }
      return Handled, followUp;
    }
  }

  /** A database is created unless its name or identifier is taken, and deleted only if it is there. */
  lemma DatabaseRefusals(s: Store, id: Id, name: string, owner: Option<Id>, payload: Payload, d: Dispatch)
    ensures CreateDatabaseTx(s, id, name, owner, payload, d).Failure? ==>
              CreateDatabaseTx(s, id, name, owner, payload, d).error == Conflict
    ensures CreateDatabaseTx(s, id, name, owner, payload, d).Success? ==>
              id !in s.databases && forall k <- s.databases :: s.databases[k].name != name
    ensures var drop := DeleteDatabaseTx(s, id, payload, d);
            && (drop == Failure(NotFound) <==> id !in s.databases)
            && (drop.Failure? && id in s.databases ==> drop.error == Conflict)
  {
  }
}
