/**
 The metadata tables behind one cluster's PostgreSQL management: managed roles and
 databases, service operations, queued commands with their secrets, and the cluster's
 durable skylex_admin password.
 */
module Metadata {
  import opened Wrappers
  import opened Commands

  /** Plaintexts are opaque; encryption and decryption are not part of this model. */
  type Secret = nat

  datatype RowStatus = RowPending | RowReady | RowFailed | RowDeleting

  datatype Role = Role(name: string, kind: RoleKind, password: Secret, version: nat, status: RowStatus)

  datatype Database = Database(name: string, owner: Option<Id>, status: RowStatus)

  datatype OperationType = CreateRoleOp | RotateRoleOp | DeleteRoleOp | CreateDatabaseOp | DeleteDatabaseOp

  datatype OperationStatus = OpPending | OpRunning | OpSucceeded | OpFailed

  datatype Operation = Operation(kind: OperationType, status: OperationStatus)

  /** The secret rows of one command, by key: the role password and the skylex_admin password. */
  datatype Secrets = Secrets(password: Option<Secret>, admin: Option<Secret>)

  datatype Store = Store(
    roles: map<Id, Role>,
    databases: map<Id, Database>,
    operations: map<Id, Operation>,
    commands: seq<Command>,
    secrets: map<Id, Secrets>,
    adminSecret: Option<Secret>)

  /** Nanoseconds; a before-action is stamped one millisecond ahead of its command. */
  const MILLISECOND: Time := 1_000_000

  /** Where and when a command is queued, and the identifiers drawn for its rows. */
  datatype Dispatch = Dispatch(
    operation: Id, command: Id, before: Option<Id>, agent: Id, node: Id, now: Time, admin: Option<Secret>)

  function SecretsOf(secrets: map<Id, Secrets>, command: Id): Secrets {
    if command in secrets then secrets[command] else Secrets(None, None)
  }

  function BeforeCommand(d: Dispatch): Command
    requires d.before.Some?
  {
    Command(d.before.value, d.agent, d.node, PgPromote, NoPayload, Pending, d.now - MILLISECOND)
  }

  function MainCommand(d: Dispatch, action: Action, payload: Payload): Command {
    Command(d.command, d.agent, d.node, action, payload, Pending, d.now)
  }

  /** The optional before-action, then the command itself; None is a primary-key clash. */
  function QueueCommands(t: seq<Command>, d: Dispatch, action: Action, payload: Payload): Option<seq<Command>> {
    if d.before.Some? && HasId(t, d.before.value) then None
    else
      var queued := if d.before.Some? then Insert(t, BeforeCommand(d)) else t;
      if HasId(queued, d.command) then None else Some(Insert(queued, MainCommand(d, action, payload)))
  }

  /**
   The rows shared by every create, rotate and delete transaction: a running operation, the
   optional before-action, the command and its secrets. A primary-key clash aborts it.
   */
  function QueueOperation(s: Store, d: Dispatch, kind: OperationType, action: Action, payload: Payload,
                          password: Option<Secret>): Option<Store>
  {
    var commands := QueueCommands(s.commands, d, action, payload);
    if d.operation in s.operations || commands.None? then None
    else Some(s.(
      operations := s.operations[d.operation := Operation(kind, OpRunning)],
      commands := commands.value,
      secrets := s.secrets[d.command := Secrets(password, d.admin)]))
  }

  function Find(t: seq<Command>, id: Id): Option<Command> {
    if |t| == 0 then None
    else if t[|t| - 1].id == id then Some(t[|t| - 1])
    else Find(t[..|t| - 1], id)
  }

  lemma FindUnique(t: seq<Command>, c: Command)
    requires UniqueIds(t) && c in t
    ensures Find(t, c.id) == Some(c)
  {
  }

  /** UPDATE service_operations ... WHERE id = ? AND operation_type = ? */
  function CloseOperation(operations: map<Id, Operation>, id: Id, kind: OperationType, success: bool)
    : map<Id, Operation>
  {
    if id in operations && operations[id].kind == kind
    then operations[id := operations[id].(status := if success then OpSucceeded else OpFailed)]
    else operations
  }

  lemma Overwritten(m: map<Id, Operation>, id: Id, a: Operation, b: Operation)
    ensures m[id := a][id := b] == m[id := b]
  {
  }

  datatype Handling = NotMine | Handled | HandlerError

  /** The tables as the server's repositories share them through one connection. */
  class MetadataStore {
    var roles: map<Id, Role>
    var databases: map<Id, Database>
    var operations: map<Id, Operation>
    var commands: seq<Command>
    var secrets: map<Id, Secrets>
    var adminSecret: Option<Secret>

    constructor (s: Store)
      ensures Rows() == s
    {
      roles, databases, operations := s.roles, s.databases, s.operations;
      commands, secrets, adminSecret := s.commands, s.secrets, s.adminSecret;
    }

    function Rows(): Store
      reads this
    {
      Store(roles, databases, operations, commands, secrets, adminSecret)
    }

    method Rollback(s: Store)
      modifies this
      ensures Rows() == s
    {
      roles, databases, operations := s.roles, s.databases, s.operations;
      commands, secrets, adminSecret := s.commands, s.secrets, s.adminSecret;
    }

    method InsertServiceOperation(id: Id, kind: OperationType) returns (ok: bool)
      modifies this`operations
      ensures ok == (id !in old(operations))
      ensures operations == if ok then old(operations)[id := Operation(kind, OpPending)] else old(operations)
    {
      ok := id !in operations;
      if ok {
        operations := operations[id := Operation(kind, OpPending)];
      }
    }

    method InsertAgentCommand(c: Command) returns (ok: bool)
      modifies this`commands
      ensures ok == !HasId(old(commands), c.id)
      ensures commands == if ok then Insert(old(commands), c) else old(commands)
    {
      ok := !HasId(commands, c.id);
      if ok {
        commands := Insert(commands, c);
      }
    }

    method AttachSecrets(command: Id, password: Option<Secret>, admin: Option<Secret>)
      modifies this`secrets
      ensures secrets == old(secrets)[command := Secrets(password, admin)]
    {
      secrets := secrets[command := Secrets(None, None)];
      if password.Some? {
        secrets := secrets[command := secrets[command].(password := password)];
      }
      if admin.Some? {
        secrets := secrets[command := secrets[command].(admin := admin)];
      }
    }

    method QueueBoth(d: Dispatch, action: Action, payload: Payload) returns (ok: bool)
      modifies this`commands
      ensures var q := QueueCommands(old(commands), d, action, payload);
              ok == q.Some? && (ok ==> commands == q.value)
    {
      if d.before.Some? {
        ok := InsertAgentCommand(BeforeCommand(d));
        if !ok { return; }
      }
      ok := InsertAgentCommand(MainCommand(d, action, payload));
    }

    method MarkRunning(id: Id, kind: OperationType)
      requires id in operations && operations[id] == Operation(kind, OpPending)
      modifies this`operations
      ensures operations == old(operations)[id := Operation(kind, OpRunning)]
    {
      operations := operations[id := operations[id].(status := OpRunning)];
    }

    method AttachAndRun(d: Dispatch, kind: OperationType, password: Option<Secret>)
      requires d.operation in operations && operations[d.operation] == Operation(kind, OpPending)
      modifies this`operations, this`secrets
      ensures operations == old(operations)[d.operation := Operation(kind, OpRunning)]
      ensures secrets == old(secrets)[d.command := Secrets(password, d.admin)]
    {
      AttachSecrets(d.command, password, d.admin);
      MarkRunning(d.operation, kind);
    }

    /** The statements after the row change of every management transaction, in source order. */
    method QueueCommand(d: Dispatch, kind: OperationType, action: Action, payload: Payload, password: Option<Secret>)
      returns (ok: bool)
      modifies this
      ensures var q := QueueOperation(old(Rows()), d, kind, action, payload, password);
              ok == q.Some? && (ok ==> Rows() == q.value)
    {
      ghost var before := operations;
      ok := InsertServiceOperation(d.operation, kind);
      if !ok { return; }
      ok := QueueBoth(d, action, payload);
      if !ok { return; }
      AttachAndRun(d, kind, password);
      Overwritten(before, d.operation, Operation(kind, OpPending), Operation(kind, OpRunning));
    }
  }

  /** A transaction commits iff none of the identifiers it drew is taken. */
  lemma CommitsIff(s: Store, d: Dispatch, kind: OperationType, action: Action, payload: Payload,
                   password: Option<Secret>)
    ensures QueueOperation(s, d, kind, action, payload, password).Some? <==>
            && d.operation !in s.operations && (forall c <- s.commands :: c.id != d.command)
            && (d.before.Some? ==>
                  d.before.value != d.command && forall c <- s.commands :: c.id != d.before.value)
  {
    if d.before.Some? {
      InsertMembers(s.commands, BeforeCommand(d));
    }
  }
}
