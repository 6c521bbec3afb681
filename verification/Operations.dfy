/**
 Service operations over whole runs: an operation is running iff exactly one pending
 command carries its identifier. The two-phase database creation hands the operation over
 from the ensure to the grant, or closes it.
 */
module Operations {
  import opened Wrappers
  import opened Commands
  import opened Metadata
  import opened ManagedRoleRepo
  import DB = ManagedDatabaseRepo
  import opened PostgresRoles
  import opened AgentProtocol
  import opened ControlLoop
  import opened ControlView
  import opened RoleChanges

  function KindOf(a: Action): Option<OperationType> {
    if OperationTypeForRoleAction(a).Some? then OperationTypeForRoleAction(a) else DB.OperationTypeForDatabaseAction(a)
  }

  predicate Carries(c: Command, op: Id) {
    OperationOf(c) == Some(op)
  }

  /** Exactly one pending command carries the operation. */
  ghost predicate CarriedOnce(m: seq<Command>, op: Id) {
    exists k :: 0 <= k < |m| && Carries(m[k], op) && forall j | 0 <= j < |m| && j != k :: !Carries(m[j], op)
  }

  ghost predicate OneEach(m: seq<Command>) {
    forall i, j | 0 <= i < j < |m| :: OperationOf(m[i]) != OperationOf(m[j])
  }

  predicate IsRunning(operations: map<Id, Operation>, op: Id) {
    op in operations && operations[op].status == OpRunning
  }

  /** A pending command's operation is running under the kind its result handler will close. */
  ghost predicate Open(m: seq<Command>, operations: map<Id, Operation>) {
    forall c <- m :: OperationOf(c).Some? && IsRunning(operations, OperationOf(c).value)
                     && KindOf(c.action) == Some(operations[OperationOf(c).value].kind)
  }

  ghost predicate AllCarried(m: seq<Command>, operations: map<Id, Operation>) {
    forall op <- operations :: operations[op].status == OpRunning ==> exists c <- m :: Carries(c, op)
  }

  predicate DropsDatabase(c: Command, id: Id) {
    c.action == PgDropDatabase && c.payload.DatabasePayload? && c.payload.databaseId == id
  }

  /** A database still to be created has its row, and no drop ahead of the creation. */
  ghost predicate Creatable(m: seq<Command>, databases: map<Id, Database>) {
    forall j | 0 <= j < |m| && m[j].action == PgEnsureDatabase && m[j].payload.DatabasePayload? ::
      m[j].payload.databaseId in databases && NoDropBefore(m, j)
  }

  ghost predicate NoDropBefore(m: seq<Command>, j: nat)
    requires j < |m| && m[j].payload.DatabasePayload?
  {
    forall i | 0 <= i < j :: !DropsDatabase(m[i], m[j].payload.databaseId)
  }

  ghost predicate Accounted(v: View) {
    && OneEach(v.backlog) && Open(v.backlog, v.operations) && AllCarried(v.backlog, v.operations)
    && Creatable(v.backlog, v.databases)
  }

  // ---- Opening, closing, handing over ----

  lemma OpenQueued(m: seq<Command>, operations: map<Id, Operation>, c: Command, op: Id, kind: OperationType)
    requires OneEach(m) && Open(m, operations) && AllCarried(m, operations)
    requires op !in operations && Carries(c, op) && KindOf(c.action) == Some(kind)
    ensures var after := operations[op := Operation(kind, OpRunning)];
            OneEach(m + [c]) && Open(m + [c], after) && AllCarried(m + [c], after)
  {
  }

  lemma CloseHead(m: seq<Command>, operations: map<Id, Operation>, op: Id, kind: OperationType, success: bool)
    requires m != [] && OneEach(m) && Open(m, operations) && AllCarried(m, operations)
    requires Carries(m[0], op) && KindOf(m[0].action) == Some(kind)
    ensures var after := CloseOperation(operations, op, kind, success);
            OneEach(m[1..]) && Open(m[1..], after) && AllCarried(m[1..], after)
  {
  }

  lemma HandOverHead(m: seq<Command>, operations: map<Id, Operation>, op: Id, g: Command)
    requires m != [] && OneEach(m) && Open(m, operations) && AllCarried(m, operations)
    requires Carries(m[0], op) && Carries(g, op) && KindOf(g.action) == KindOf(m[0].action)
    ensures OneEach(m[1..] + [g]) && Open(m[1..] + [g], operations) && AllCarried(m[1..] + [g], operations)
  {
  }

  lemma CreatableAppend(m: seq<Command>, databases: map<Id, Database>, rows: map<Id, Database>, c: Command)
    requires Creatable(m, databases) && databases.Keys <= rows.Keys
    requires c.action == PgEnsureDatabase && c.payload.DatabasePayload? ==>
               c.payload.databaseId in rows && forall x <- m :: !DropsDatabase(x, c.payload.databaseId)
    ensures Creatable(m + [c], rows)
  {
  }

  lemma CreatablePop(m: seq<Command>, databases: map<Id, Database>, rows: map<Id, Database>)
    requires m != [] && Creatable(m, databases)
    requires forall id <- databases :: id in rows || DropsDatabase(m[0], id)
    ensures Creatable(m[1..], rows)
  {
  }

  // ---- The moves ----

  lemma QueuedAccounted(a: View, b: View, c: Command, kind: OperationType, password: Option<Secret>)
    requires Sane(a) && Accounted(a) && Queued(a, b, c, kind, password)
    requires KindOf(c.action) == Some(kind) && a.databases.Keys <= b.databases.Keys
    requires c.action == PgEnsureDatabase && c.payload.DatabasePayload? ==>
               c.payload.databaseId in b.databases && a.next <= c.payload.databaseId
    ensures Accounted(b)
  {
    OpenQueued(a.backlog, a.operations, c, OperationOf(c).value, kind);
    forall x <- a.backlog ensures a.next <= SubjectOf(c) ==> !DropsDatabase(x, SubjectOf(c)) {
      assert SaneCommand(x, a.roles, a.next);
    }
    CreatableAppend(a.backlog, a.databases, b.databases, c);
  }

  lemma RoleQueuedAccounted(a: View, b: View, action: Action, kind: OperationType, id: Id, roleKind: RoleKind,
                            password: Option<Secret>)
    requires Sane(a) && Accounted(a) && RoleQueued(a, b, action, kind, id, roleKind, password)
    requires KindOf(action) == Some(kind) && action != PgEnsureDatabase
    ensures Accounted(b)
  {
    QueuedAccounted(a, b, b.backlog[|b.backlog| - 1], kind, password);
  }

  lemma CreateRoleAccounted(a: View, b: View, name: string, kind: RoleKind, password: Secret)
    requires Sane(a) && Accounted(a)
    requires RoleCreated(a, b, name, kind, password) || RoleRetried(a, b, name, kind, password)
    ensures Accounted(b)
  {
    var ch := ClassifyCreate(a, b, name, kind, password);
    RoleQueuedAccounted(a, b, PgEnsureRole, CreateRoleOp, ch.id, kind, Some(password));
  }

  lemma RotateRoleAccounted(a: View, b: View, id: Id, password: Secret)
    requires Sane(a) && Accounted(a) && RoleRotated(a, b, id, password)
    ensures Accounted(b)
  {
    RoleQueuedAccounted(a, b, PgRotateRolePassword, RotateRoleOp, id, Custom, Some(password));
  }

  lemma DeleteRoleAccounted(a: View, b: View, id: Id)
    requires Sane(a) && Accounted(a) && RoleDeleted(a, b, id)
    ensures Accounted(b)
  {
    RoleQueuedAccounted(a, b, PgDropRole, DeleteRoleOp, id, Custom, None);
  }

  lemma RoleRequestAccounted(a: View, b: View, e: Event)
    requires Sane(a) && Accounted(a) && Moved(a, b, e) && !Quiet(a, b)
    requires e.CreateRoleEvent? || e.RotateRoleEvent? || e.DeleteRoleEvent?
    ensures Accounted(b)
  {
    if e.CreateRoleEvent? {
      CreateRoleAccounted(a, b, e.name, e.kind, e.password);
    } else if e.RotateRoleEvent? {
      RotateRoleAccounted(a, b, e.roleId, e.password);
    } else {
      DeleteRoleAccounted(a, b, e.roleId);
    }
  }

  lemma DatabaseRequestAccounted(a: View, b: View, e: Event)
    requires Sane(a) && Accounted(a) && Moved(a, b, e) && !Quiet(a, b)
    requires e.CreateDatabaseEvent? || e.DeleteDatabaseEvent?
    ensures Accounted(b)
  {
    var c := b.backlog[|b.backlog| - 1];
    QueuedAccounted(a, b, c, if e.CreateDatabaseEvent? then CreateDatabaseOp else DeleteDatabaseOp, None);
  }

  lemma RoleSettledAccounted(a: View, b: View, h: Command, ok: bool)
    requires Accounted(a) && a.backlog != [] && h == a.backlog[0] && h.payload.RolePayload?
    requires OperationTypeForRoleAction(h.action).Some? && RoleSettled(a, b, h, ok)
    ensures Accounted(b)
  {
    CloseHead(a.backlog, a.operations, h.payload.roleOperation, KindOf(h.action).value, ok);
    CreatablePop(a.backlog, a.databases, b.databases);
  }

  lemma DatabaseClosedAccounted(a: View, b: View, h: Command, ok: bool)
    requires Accounted(a) && a.backlog != [] && h == a.backlog[0] && h.payload.DatabasePayload?
    requires WellFormed(h) && DatabaseClosed(a, b, h, ok)
    ensures Accounted(b)
  {
    CloseHead(a.backlog, a.operations, h.payload.databaseOperation, KindOf(h.action).value, ok);
    CreatablePop(a.backlog, a.databases, b.databases);
  }

  lemma GrantAccounted(a: View, b: View, h: Command)
    requires Accounted(a) && a.backlog != [] && h == a.backlog[0] && h.payload.DatabasePayload?
    requires h.action == PgEnsureDatabase && GrantQueued(a, b, h)
    ensures Accounted(b)
  {
    var g := b.backlog[|b.backlog| - 1];
    HandOverHead(a.backlog, a.operations, h.payload.databaseOperation, g);
    CreatablePop(a.backlog, a.databases, b.databases);
  }

  lemma SettledAccounted(a: View, b: View, fault: Fault)
    requires Sane(a) && Accounted(a) && Settled(a, b, fault)
    ensures Accounted(b)
  {
    var h := a.backlog[0];
    var ok := Execute(a.pg, h, a.secrets, fault).1;
    assert SaneCommand(h, a.roles, a.next);
    ManagedPayload(h);
    if h.payload.RolePayload? {
      RoleSettledAccounted(a, b, h, ok);
    } else if !Granting(h, ok) {
      DatabaseClosedAccounted(a, b, h, ok);
    } else {
      assert h.payload.databaseId in a.databases;
      if GrantQueued(a, b, h) {
        GrantAccounted(a, b, h);
      } else {
        DatabaseClosedAccounted(a, b, h, false);
      }
    }
  }

  lemma MoveAccounted(a: View, b: View, e: Event)
    requires Sane(a) && Accounted(a) && Moved(a, b, e)
    ensures Accounted(b)
  {
    if Quiet(a, b) {
    } else if e.PollEvent? {
      if e.delivered {
        SettledAccounted(a, b, e.fault);
      }
    } else if e.CreateDatabaseEvent? || e.DeleteDatabaseEvent? {
      DatabaseRequestAccounted(a, b, e);
    } else {
      RoleRequestAccounted(a, b, e);
    }
  }

  lemma {:induction false} RunAccounted(s: System, run: seq<Occurrence>)
    requires Initial(s)
    ensures Accounted(ViewOf(Run(s, run)))
  {
    if |run| == 0 {
      InitialBacklog(s);
    } else {
      var before, o := Run(s, run[..|run| - 1]), run[|run| - 1];
      RunAccounted(s, run[..|run| - 1]);
      RunReached(s, run[..|run| - 1]);
      StepReached(before, o);
      MoveAccounted(ViewOf(before), ViewOf(Step(before, o)), o.event);
    }
  }

  /** No stuck and no doubled operations, whatever fails or gets lost. */
  lemma RunningIffCarriedOnce(s: System, run: seq<Occurrence>, op: Id)
    requires Initial(s)
    ensures IsRunning(Run(s, run).store.operations, op) <==> CarriedOnce(Backlog(Run(s, run)), op)
  {
    RunAccounted(s, run);
    var v := ViewOf(Run(s, run));
    if IsRunning(v.operations, op) {
      var c :| c in v.backlog && Carries(c, op);
      var k :| 0 <= k < |v.backlog| && v.backlog[k] == c;
      assert forall j | 0 <= j < |v.backlog| && j != k :: !Carries(v.backlog[j], op);
    }
    if CarriedOnce(v.backlog, op) {
      var k :| 0 <= k < |v.backlog| && Carries(v.backlog[k], op);
      assert v.backlog[k] in v.backlog;
    }
  }
}
