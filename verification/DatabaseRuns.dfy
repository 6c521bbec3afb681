/** Databases over whole runs: the status of a row and the status of the operation that created it. */
module DatabaseRuns {
  import opened Wrappers
  import opened Commands
  import opened Metadata
  import opened ManagementService
  import opened PostgresRoles
  import opened AgentProtocol
  import opened ControlLoop
  import opened ControlView
  import opened RoleChanges
  import opened Operations

  /** The create operation of each database so far, and the databases a delete was accepted for. */
  datatype History = History(created: map<Id, Id>, dropped: set<Id>)

  predicate EnsuresDatabase(c: Command, id: Id) {
    c.action == PgEnsureDatabase && c.payload.DatabasePayload? && c.payload.databaseId == id
  }

  /** A longer backlog means an accepted request, with its command last. */
  function Noted(h: History, before: seq<Command>, after: seq<Command>): History {
    if |after| <= |before| || !after[|after| - 1].payload.DatabasePayload? then h
    else
      var c := after[|after| - 1];
      if c.action == PgEnsureDatabase then h.(created := h.created[c.payload.databaseId := c.payload.databaseOperation])
      else if c.action == PgDropDatabase then h.(dropped := h.dropped + {c.payload.databaseId})
      else h
  }

  ghost function Told(s: System, run: seq<Occurrence>): History {
    if |run| == 0 then History(map[], {})
    else
      var before := run[..|run| - 1];
      Noted(Told(s, before), Backlog(Run(s, before)), Backlog(Run(s, run)))
  }

  /** Ready means the creation succeeded; without a delete the row and the operation say the same. */
  ghost predicate Matching(row: RowStatus, op: OperationStatus, dropped: bool) {
    && (row == RowReady ==> op == OpSucceeded)
    && (!dropped ==> row != RowDeleting && (row == RowPending <==> op == OpRunning)
                     && (row == RowReady <==> op == OpSucceeded) && (row == RowFailed <==> op == OpFailed))
  }

  ghost predicate RowFollows(v: View, h: History, id: Id)
    requires id in v.databases
  {
    && id in h.created && h.created[id] in v.operations && v.operations[h.created[id]].kind == CreateDatabaseOp
    && Matching(v.databases[id].status, v.operations[h.created[id]].status, id in h.dropped)
  }

  ghost predicate CommandFollows(c: Command, h: History) {
    c.payload.DatabasePayload? ==>
      && (c.action == PgEnsureDatabase || c.action == PgGrantDatabasePrivileges ==>
            c.payload.databaseId in h.created && h.created[c.payload.databaseId] == c.payload.databaseOperation)
      && (c.action == PgDropDatabase ==> c.payload.databaseId in h.dropped)
  }

  ghost predicate Known(h: History, next: Id) {
    && (forall id <- h.created :: id < next && h.created[id] < next) && (forall id <- h.dropped :: id < next)
    && (forall a, b | a in h.created && b in h.created && a != b :: h.created[a] != h.created[b])
  }

  ghost predicate Followed(v: View, h: History) {
    && (forall id <- v.databases :: RowFollows(v, h, id))
    && (forall c <- v.backlog :: CommandFollows(c, h)) && Known(h, v.next)
  }

  // ---- The moves ----

  lemma QuietFollowed(a: View, b: View, h: History)
    requires Followed(a, h) && a.databases == b.databases && a.operations == b.operations && a.backlog == b.backlog
    requires a.next <= b.next
    ensures Followed(b, Noted(h, a.backlog, b.backlog))
  {
  }

  lemma RoleQueuedFollowed(a: View, b: View, h: History, c: Command, kind: OperationType, password: Option<Secret>)
    requires Followed(a, h) && Sane(a) && a.next <= b.next && Queued(a, b, c, kind, password)
    requires b.databases == a.databases && !c.payload.DatabasePayload?
    ensures Followed(b, Noted(h, a.backlog, b.backlog))
  {
    OldRowsFollow(a, b, h, OperationOf(c).value, kind);
  }

  /** Opening an operation under a new identifier disturbs no row. */
  lemma OldRowsFollow(a: View, b: View, h: History, op: Id, kind: OperationType)
    requires Followed(a, h) && a.next <= op && b.operations == a.operations[op := Operation(kind, OpRunning)]
    ensures forall id <- a.databases | id in b.databases && b.databases[id] == a.databases[id] :: RowFollows(b, h, id)
  {
  }

  lemma CreateFollowed(a: View, b: View, h: History, name: string, owner: Option<Id>, id: Id, c: Command)
    requires Followed(a, h) && Sane(a) && a.next <= id < b.next
    requires b.databases == a.databases[id := Database(name, owner, RowPending)] && EnsuresDatabase(c, id)
    requires Queued(a, b, c, CreateDatabaseOp, None)
    ensures Followed(b, Noted(h, a.backlog, b.backlog))
  {
    var after := Noted(h, a.backlog, b.backlog);
    var op := c.payload.databaseOperation;
    OldRowsFollow(a, b, h, op, CreateDatabaseOp);
    forall k <- b.databases ensures RowFollows(b, after, k) {
      if k != id {
        assert RowFollows(b, h, k);
      }
    }
    forall x <- b.backlog ensures CommandFollows(x, after) {
      if x in a.backlog {
        assert CommandFollows(x, h);
      }
    }
  }

  lemma DeleteFollowed(a: View, b: View, h: History, id: Id, c: Command)
    requires Followed(a, h) && Sane(a) && a.next <= b.next && id in a.databases && DropsDatabase(c, id)
    requires b.databases == a.databases[id := a.databases[id].(status := RowDeleting)]
    requires Queued(a, b, c, DeleteDatabaseOp, None)
    ensures Followed(b, Noted(h, a.backlog, b.backlog))
  {
    var after := Noted(h, a.backlog, b.backlog);
    OldRowsFollow(a, b, h, c.payload.databaseOperation, DeleteDatabaseOp);
    forall k <- b.databases ensures RowFollows(b, after, k) {
      assert RowFollows(a, h, k);
    }
    forall x <- b.backlog ensures CommandFollows(x, after) {
      if x in a.backlog {
        assert CommandFollows(x, h);
      }
    }
  }

  lemma Shorter(h: History, before: seq<Command>, after: seq<Command>)
    requires before != [] && (after == before[1..] || exists g :: after == before[1..] + [g])
    ensures Noted(h, before, after) == h && forall c <- after :: c in before || c == after[|after| - 1]
  {
  }

  lemma RoleSettledFollowed(a: View, b: View, h: History, head: Command, ok: bool)
    requires Followed(a, h) && a.next <= b.next && a.backlog != [] && head == a.backlog[0]
    requires head.payload.RolePayload? && WellFormed(head) && RoleSettled(a, b, head, ok)
    ensures Followed(b, Noted(h, a.backlog, b.backlog))
  {
    Shorter(h, a.backlog, b.backlog);
    forall id <- b.databases ensures RowFollows(b, h, id) {
      assert RowFollows(a, h, id);
    }
    forall c <- b.backlog ensures CommandFollows(c, h) {
      assert c in a.backlog;
    }
  }

  lemma ClosedFollowed(a: View, b: View, h: History, head: Command, ok: bool)
    requires Followed(a, h) && a.next <= b.next && a.backlog != [] && head == a.backlog[0]
    requires head.payload.DatabasePayload? && WellFormed(head) && DatabaseClosed(a, b, head, ok)
    ensures Followed(b, Noted(h, a.backlog, b.backlog))
  {
    Shorter(h, a.backlog, b.backlog);
    assert CommandFollows(head, h);
    forall id <- b.databases ensures RowFollows(b, h, id) {
      assert RowFollows(a, h, id);
    }
    forall c <- b.backlog ensures CommandFollows(c, h) {
      assert c in a.backlog;
    }
  }

  lemma HandedFollowed(a: View, b: View, h: History, head: Command)
    requires Followed(a, h) && a.next <= b.next && a.backlog != [] && head == a.backlog[0]
    requires head.action == PgEnsureDatabase && head.payload.DatabasePayload?
    requires b.databases == a.databases && b.operations == a.operations
    requires b.backlog == a.backlog[1..] || GrantQueued(a, b, head)
    ensures Followed(b, Noted(h, a.backlog, b.backlog))
  {
    Shorter(h, a.backlog, b.backlog);
    assert CommandFollows(head, h);
    forall id <- b.databases ensures RowFollows(b, h, id) {
      assert RowFollows(a, h, id);
    }
    forall c <- b.backlog ensures CommandFollows(c, h) {
      if c in a.backlog {
        assert CommandFollows(c, h);
      }
    }
  }

  lemma SettledFollowed(a: View, b: View, h: History, fault: Fault)
    requires Followed(a, h) && a.next <= b.next && Sane(a) && Settled(a, b, fault)
    ensures Followed(b, Noted(h, a.backlog, b.backlog))
  {
    var head := a.backlog[0];
    var ok := Execute(a.pg, head, a.secrets, fault).1;
    assert SaneCommand(head, a.roles, a.next);
    ManagedPayload(head);
    if head.payload.RolePayload? {
      RoleSettledFollowed(a, b, h, head, ok);
    } else if !Granting(head, ok) {
      ClosedFollowed(a, b, h, head, ok);
    } else if head.payload.databaseId !in a.databases || GrantQueued(a, b, head) {
      HandedFollowed(a, b, h, head);
    } else {
      ClosedFollowed(a, b, h, head, false);
    }
  }

  lemma RequestFollowed(a: View, b: View, h: History, e: Event)
    requires Followed(a, h) && Sane(a) && Moved(a, b, e) && !Quiet(a, b) && !e.PollEvent?
    ensures Followed(b, Noted(h, a.backlog, b.backlog))
  {
    var c := b.backlog[|b.backlog| - 1];
    match e {
      case CreateRoleEvent(name, kind, password) =>
        var _ := ClassifyCreate(a, b, name, kind, password);
        RoleQueuedFollowed(a, b, h, c, CreateRoleOp, Some(password));
      case RotateRoleEvent(_, password) => RoleQueuedFollowed(a, b, h, c, RotateRoleOp, Some(password));
      case DeleteRoleEvent(_) => RoleQueuedFollowed(a, b, h, c, DeleteRoleOp, None);
      case CreateDatabaseEvent(name, owner) =>
        CreateFollowed(a, b, h, name, OwnerId(owner), c.payload.databaseId, c);
      case DeleteDatabaseEvent(id) => DeleteFollowed(a, b, h, id, c);
    }
  }

  lemma MoveFollowed(a: View, b: View, h: History, e: Event)
    requires Followed(a, h) && Sane(a) && Moved(a, b, e)
    ensures Followed(b, Noted(h, a.backlog, b.backlog))
  {
    if Quiet(a, b) {
      QuietFollowed(a, b, h);
    } else if !e.PollEvent? {
      RequestFollowed(a, b, h, e);
    } else if e.delivered {
      SettledFollowed(a, b, h, e.fault);
    } else {
      QuietFollowed(a, b, h);
    }
  }

  lemma {:induction false} RunFollowed(s: System, run: seq<Occurrence>)
    requires Initial(s)
    ensures Followed(ViewOf(Run(s, run)), Told(s, run))
  {
    if |run| == 0 {
      InitialBacklog(s);
    } else {
      var before, o := Run(s, run[..|run| - 1]), run[|run| - 1];
      RunFollowed(s, run[..|run| - 1]);
      RunReached(s, run[..|run| - 1]);
      StepReached(before, o);
      MoveFollowed(ViewOf(before), ViewOf(Step(before, o)), Told(s, run[..|run| - 1]), o.event);
    }
  }

  // ---- The history, told by the commands that were queued ----

  lemma PrefixRun(s: System, run: seq<Occurrence>, j: nat)
    requires j < |run|
    ensures run[..|run| - 1][..j] == run[..j] && run[..|run|] == run
  {
  }

  ghost predicate WasQueued(s: System, run: seq<Occurrence>, c: Command) {
    exists k | 0 <= k <= |run| :: c in Backlog(Run(s, run[..k]))
  }

  lemma WasQueuedLater(s: System, run: seq<Occurrence>, c: Command)
    requires |run| > 0 && (WasQueued(s, run[..|run| - 1], c) || c in Backlog(Run(s, run)))
    ensures WasQueued(s, run, c)
  {
    PrefixRun(s, run, 0);
    if c !in Backlog(Run(s, run)) {
      var k :| 0 <= k <= |run| - 1 && c in Backlog(Run(s, run[..|run| - 1][..k]));
      PrefixRun(s, run, k);
    }
  }

  lemma CreateNotes(a: View, b: View, h: History, name: string, owner: Option<Owner>)
    requires Followed(a, h) && DatabaseCreated(a, b, name, owner)
    ensures forall id <- h.created :: var n := Noted(h, a.backlog, b.backlog).created; id in n && n[id] == h.created[id]
  {
    var id :| a.next <= id < b.next && id !in a.databases
      && b.databases == a.databases[id := Database(name, OwnerId(owner), RowPending)]
      && DatabaseQueued(a, b, PgEnsureDatabase, CreateDatabaseOp, id);
    assert id !in h.created;
  }

  lemma RoleRequestNotes(a: View, b: View, h: History, e: Event)
    requires Moved(a, b, e) && (e.CreateRoleEvent? || e.RotateRoleEvent? || e.DeleteRoleEvent?)
    ensures Noted(h, a.backlog, b.backlog) == h
  {
    if e.CreateRoleEvent? && !Quiet(a, b) {
      var _ := ClassifyCreate(a, b, e.name, e.kind, e.password);
    }
  }

  /** A row is never created twice, so its create operation stays the one it had. */
  lemma NotedKeeps(a: View, b: View, h: History, e: Event)
    requires Followed(a, h) && Sane(a) && Moved(a, b, e)
    ensures forall id <- h.created :: var n := Noted(h, a.backlog, b.backlog).created; id in n && n[id] == h.created[id]
  {
    if Quiet(a, b) {
      assert Noted(h, a.backlog, b.backlog) == h;
    } else if e.CreateDatabaseEvent? {
      CreateNotes(a, b, h, e.name, e.owner);
    } else if e.DeleteDatabaseEvent? {
      assert b.backlog[|b.backlog| - 1].action == PgDropDatabase;
    } else if e.PollEvent? {
      PollNotes(a, b, h, e);
    } else {
      RoleRequestNotes(a, b, h, e);
    }
  }

  /** Only requests lengthen the backlog. */
  lemma PollNotes(a: View, b: View, h: History, e: Event)
    requires Sane(a) && Moved(a, b, e) && e.PollEvent?
    ensures Noted(h, a.backlog, b.backlog) == h
  {
    if !Quiet(a, b) && e.delivered {
      assert SaneCommand(a.backlog[0], a.roles, a.next);
      ManagedPayload(a.backlog[0]);
      Shorter(h, a.backlog, b.backlog);
    }
  }

  lemma {:induction false} CreationTold(s: System, run: seq<Occurrence>, c: Command)
    requires Initial(s) && WasQueued(s, run, c) && c.action == PgEnsureDatabase && c.payload.DatabasePayload?
    ensures var h := Told(s, run).created;
            c.payload.databaseId in h && h[c.payload.databaseId] == c.payload.databaseOperation
  {
    RunFollowed(s, run);
    PrefixRunAll(run);
    if c in Backlog(Run(s, run)) {
      assert CommandFollows(c, Told(s, run));
    } else {
      var k :| 0 <= k <= |run| && c in Backlog(Run(s, run[..k]));
      var before, o := Run(s, run[..|run| - 1]), run[|run| - 1];
      PrefixRun(s, run, k);
      assert WasQueued(s, run[..|run| - 1], c);
      CreationTold(s, run[..|run| - 1], c);
      RunFollowed(s, run[..|run| - 1]);
      RunReached(s, run[..|run| - 1]);
      StepReached(before, o);
      NotedKeeps(ViewOf(before), ViewOf(Step(before, o)), Told(s, run[..|run| - 1]), o.event);
    }
  }

  lemma PrefixRunAll(run: seq<Occurrence>)
    ensures run[..|run|] == run
  {
  }

  lemma {:induction false} DropTold(s: System, run: seq<Occurrence>, id: Id) returns (c: Command)
    requires id in Told(s, run).dropped
    ensures WasQueued(s, run, c) && c.action == PgDropDatabase
    ensures c.payload.DatabasePayload? && c.payload.databaseId == id
  {
    if id in Told(s, run[..|run| - 1]).dropped {
      c := DropTold(s, run[..|run| - 1], id);
    } else {
      c := Backlog(Run(s, run))[|Backlog(Run(s, run))| - 1];
    }
    WasQueuedLater(s, run, c);
  }

  lemma {:induction false} RowTold(s: System, run: seq<Occurrence>, id: Id) returns (c: Command)
    requires id in Told(s, run).created
    ensures WasQueued(s, run, c) && EnsuresDatabase(c, id) && c.payload.databaseOperation == Told(s, run).created[id]
  {
    var before := Told(s, run[..|run| - 1]).created;
    if id in before && before[id] == Told(s, run).created[id] {
      c := RowTold(s, run[..|run| - 1], id);
    } else {
      c := Backlog(Run(s, run))[|Backlog(Run(s, run))| - 1];
    }
    WasQueuedLater(s, run, c);
  }

  /** Every database row was created by one ensure command of the run. */
  lemma RowsHaveCreations(s: System, run: seq<Occurrence>, id: Id) returns (c: Command)
    requires Initial(s) && id in Run(s, run).store.databases
    ensures WasQueued(s, run, c) && c.action == PgEnsureDatabase
    ensures c.payload.DatabasePayload? && c.payload.databaseId == id
  {
    RunFollowed(s, run);
    assert RowFollows(ViewOf(Run(s, run)), Told(s, run), id);
    c := RowTold(s, run, id);
  }

  /**
   Whatever fails, gets lost or is deleted: a database is ready only if the operation that
   created it succeeded. Unless a delete was accepted for it, its row and that operation agree
   throughout: pending and running, ready and succeeded, failed and failed.
   */
  lemma RowFollowsItsOperation(s: System, run: seq<Occurrence>, c: Command)
    requires Initial(s) && WasQueued(s, run, c) && c.action == PgEnsureDatabase && c.payload.DatabasePayload?
    requires c.payload.databaseId in Run(s, run).store.databases
    ensures var e, id, op := Run(s, run).store, c.payload.databaseId, c.payload.databaseOperation;
            && op in e.operations && e.operations[op].kind == CreateDatabaseOp
            && (e.databases[id].status == RowReady ==> e.operations[op].status == OpSucceeded)
            && ((forall d | WasQueued(s, run, d) && d.action == PgDropDatabase && d.payload.DatabasePayload? ::
                   d.payload.databaseId != id)
                ==> match e.operations[op].status
                    case OpPending => false
                    case OpRunning => e.databases[id].status == RowPending
                    case OpSucceeded => e.databases[id].status == RowReady
                    case OpFailed => e.databases[id].status == RowFailed)
  {
    var id, h := c.payload.databaseId, Told(s, run);
    RunFollowed(s, run);
    CreationTold(s, run, c);
    assert RowFollows(ViewOf(Run(s, run)), h, id);
    if id in h.dropped {
      var d := DropTold(s, run, id);
    }
  }
}
