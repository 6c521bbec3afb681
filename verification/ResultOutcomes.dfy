/**
 What a delivered poll leaves behind, value by value: the row its command is about, the
 command's operation, the command table and the secrets.
 */
module ResultOutcomes {
  import opened Wrappers
  import opened Commands
  import opened Metadata
  import DB = ManagedDatabaseRepo
  import opened ManagementService
  import opened PostgresRoles
  import opened AgentProtocol
  import opened ControlLoop
  import opened ControlView
  import opened RoleChanges
  import opened Operations

  ghost predicate Reachable(s: System) {
    exists first: System, run: seq<Occurrence> :: Initial(first) && s == Run(first, run)
  }

  lemma ReachableFacts(s: System)
    requires Reachable(s)
    ensures Reached(s) && Accounted(ViewOf(s))
  {
    var first: System, run: seq<Occurrence> :| Initial(first) && s == Run(first, run);
    RunReached(first, run);
    RunAccounted(first, run);
  }

  /** The agent runs its oldest pending command h, and the report arrives. */
  ghost predicate Delivers(s: System, o: Occurrence, h: Command) {
    Reachable(s) && IsOldest(s, h) && o.event.PollEvent? && o.event.delivered
  }

  /** No row but the one under `id` differs, and none is new. */
  ghost predicate OnlyAt<R>(a: map<Id, R>, b: map<Id, R>, id: Id) {
    && (forall k <- b :: k in a) && (forall k <- a | k != id :: k in b && b[k] == a[k])
  }

  predicate OnDatabase(a: Action) {
    a == PgEnsureDatabase || a == PgGrantDatabasePrivileges || a == PgDropDatabase
  }

  predicate OnRole(a: Action) {
    a == PgEnsureRole || a == PgRotateRolePassword || a == PgDropRole
  }

  /** A management command at the head of the queue is the head of the backlog, and well formed. */
  lemma ManagedHead(s: System, h: Command)
    requires Reachable(s) && IsOldest(s, h) && IsManaged(h.action)
    ensures Reached(s) && Accounted(ViewOf(s)) && Backlog(s) != [] && h == Backlog(s)[0] && WellFormed(h)
    ensures s.store.adminSecret.Some?
  {
    ReachableFacts(s);
    ManagedTail(Queue(s.store.commands, s.agent, s.node));
    assert SaneCommand(Backlog(s)[0], s.store.roles, s.nextId);
    QueueSound(s.store.commands, s.agent, s.node);
    assert h in Queue(s.store.commands, s.agent, s.node);
  }

  /** A delivered role command, as one update of the tables. */
  lemma RoleStep(s: System, o: Occurrence, h: Command)
    requires Delivers(s, o, h) && OnRole(h.action)
    ensures h.payload.RolePayload? && WellFormed(h)
    ensures var ok := Executed(s.accounts, s.pg, h, s.store.secrets, o.event.fault).1;
            Step(s, o).store ==
            s.store.(commands := Report(s.store.commands, h.id, ok), roles := RolesAfter(s.store.roles, h, ok),
                     operations := OperationsAfterRole(s.store.operations, h, ok),
                     secrets := s.store.secrets - {h.id})
  {
    var ok := Executed(s.accounts, s.pg, h, s.store.secrets, o.event.fault).1;
    ManagedHead(s, h);
    FindReported(s.store.commands, s.agent, s.node, ok);
    DeliveredStep(s, o, h);
    RoleReport(s.store, h, ok, DrawFor(s, o.given));
  }

  /** An ensure of an owned database that succeeded: the grant is still to come. */
  predicate EnsuredOwned(h: Command, fault: Fault) {
    fault == NoFault && h.action == PgEnsureDatabase && h.payload.DatabasePayload? && h.payload.owner.Some?
  }

  lemma DatabaseStep(s: System, o: Occurrence, h: Command)
    requires Delivers(s, o, h) && OnDatabase(h.action)
    ensures h.payload.DatabasePayload? && WellFormed(h)
    ensures var ok := o.event.fault == NoFault;
            var rows := DatabaseRows(ReportedStore(s.store, h, ok), h, ok, DrawFor(s, o.given));
            Step(s, o).store == rows.(secrets := rows.secrets - {h.id})
  {
    var ok := o.event.fault == NoFault;
    ManagedHead(s, h);
    FindReported(s.store.commands, s.agent, s.node, ok);
    DeliveredStep(s, o, h);
    ExecutedManaged(s.accounts, s.pg, h, s.store.secrets, o.event.fault);
    DatabaseReported(s.store, h, ok, DrawFor(s, o.given));
  }

  /** Unless it hands over to a grant, a delivered database command closes its row and operation. */
  lemma ClosingStep(s: System, o: Occurrence, h: Command)
    requires Delivers(s, o, h) && OnDatabase(h.action) && !(EnsuredOwned(h, o.event.fault) && o.given.ready)
    ensures h.payload.DatabasePayload? && WellFormed(h)
    ensures var ok := o.event.fault == NoFault;
            Step(s, o).store ==
            ClosedRows(ReportedStore(s.store, h, ok), h, ok && !EnsuredOwned(h, o.event.fault))
            .(secrets := s.store.secrets - {h.id})
  {
    DatabaseStep(s, o, h);
    if EnsuredOwned(h, o.event.fault) {
      HeadHasRow(s, h);
    }
  }

  /** Handing over changes no row and no operation. */
  lemma HandOverStep(s: System, o: Occurrence, h: Command)
    requires Delivers(s, o, h) && EnsuredOwned(h, o.event.fault) && o.given.ready
    ensures var t, w, r := Step(s, o).store, DrawFor(s, o.given), ReportedStore(s.store, h, true);
            && t == HandOver(r, GrantOf(h), w).(secrets := t.secrets)
            && t.secrets == HandOver(r, GrantOf(h), w).secrets - {h.id}
            && t.roles == s.store.roles && t.databases == s.store.databases && t.operations == s.store.operations
  {
    var w, r := DrawFor(s, o.given), ReportedStore(s.store, h, true);
    DatabaseStep(s, o, h);
    HeadHasRow(s, h);
    ReachableFacts(s);
    ReportKeepsBounds(s.store.commands, h.id, true, s.nextId, s.clock);
    GrantRows(r, GrantOf(h), w, w.primary.value, s.clock);
  }

  /** The row of a database still to be created is there. */
  lemma HeadHasRow(s: System, h: Command)
    requires Reachable(s) && IsOldest(s, h) && h.action == PgEnsureDatabase && h.payload.DatabasePayload?
    ensures h.payload.databaseId in s.store.databases
  {
    ManagedHead(s, h);
    assert Operations.Creatable(Backlog(s), s.store.databases);
  }

  /** Ready after a grant or an unowned ensure, failed after any failure, untouched while the grant is to come. */
  lemma DatabaseOutcome(s: System, o: Occurrence, h: Command)
    requires Delivers(s, o, h) && OnDatabase(h.action)
    ensures h.payload.DatabasePayload? && Step(s, o).store.roles == s.store.roles
    ensures var id, ok := h.payload.databaseId, o.event.fault == NoFault;
            var before, after := s.store.databases, Step(s, o).store.databases;
            && OnlyAt(before, after, id)
            && (id in before ==>
                  if ok && h.action == PgDropDatabase then id !in after
                  else if ok && h.action == PgEnsureDatabase && h.payload.owner.Some? && o.given.ready
                  then id in after && after[id] == before[id]
                  else if ok && !(h.action == PgEnsureDatabase && h.payload.owner.Some?)
                  then id in after && after[id] == before[id].(status := RowReady)
                  else id in after && after[id] == before[id].(status := RowFailed))
  {
    DatabaseStep(s, o, h);
    if EnsuredOwned(h, o.event.fault) && o.given.ready {
      HandOverStep(s, o, h);
    } else {
      ClosingStep(s, o, h);
    }
  }

  /** Every handled role command decides its row: ready, failed or gone. */
  lemma RoleOutcome(s: System, o: Occurrence, h: Command)
    requires Delivers(s, o, h) && OnRole(h.action)
    ensures h.payload.RolePayload? && Step(s, o).store.databases == s.store.databases
    ensures var id, ok := h.payload.roleId, Executed(s.accounts, s.pg, h, s.store.secrets, o.event.fault).1;
            var before, after := s.store.roles, Step(s, o).store.roles;
            && OnlyAt(before, after, id)
            && (id in before ==>
                  if ok && h.action == PgDropRole then id !in after
                  else id in after && after[id] == before[id].(status := if ok then RowReady else RowFailed))
  {
    RoleStep(s, o, h);
  }

  /** A pending command's operation is running, under the kind its result will close. */
  lemma HeadOperation(s: System, h: Command)
    requires Reachable(s) && IsOldest(s, h) && IsManaged(h.action)
    ensures OperationOf(h).Some? && IsRunning(s.store.operations, OperationOf(h).value)
    ensures KindOf(h.action) == Some(s.store.operations[OperationOf(h).value].kind)
  {
    ManagedHead(s, h);
    assert Open(Backlog(s), s.store.operations) && h in Backlog(s);
  }

  /** The operation of a handled role command ends as the report says. */
  lemma RoleOperationOutcome(s: System, o: Occurrence, h: Command)
    requires Delivers(s, o, h) && OnRole(h.action) && h.payload.RolePayload?
    ensures var ok := Executed(s.accounts, s.pg, h, s.store.secrets, o.event.fault).1;
            var before, after := s.store.operations, Step(s, o).store.operations;
            && h.payload.roleOperation in before && before[h.payload.roleOperation].status == OpRunning
            && OnlyAt(before, after, h.payload.roleOperation) && h.payload.roleOperation in after
            && after[h.payload.roleOperation] ==
               before[h.payload.roleOperation].(status := if ok then OpSucceeded else OpFailed)
  {
    HeadOperation(s, h);
    RoleStep(s, o, h);
  }

  /** So does that of a database command, except that a hand-over leaves it running for the grant. */
  lemma DatabaseOperationOutcome(s: System, o: Occurrence, h: Command)
    requires Delivers(s, o, h) && OnDatabase(h.action) && h.payload.DatabasePayload?
    ensures var op, ok := h.payload.databaseOperation, o.event.fault == NoFault;
            var before, after := s.store.operations, Step(s, o).store.operations;
            && op in before && before[op].status == OpRunning && OnlyAt(before, after, op) && op in after
            && after[op] ==
               if ok && h.action == PgEnsureDatabase && h.payload.owner.Some? && o.given.ready then before[op]
               else if ok && !(h.action == PgEnsureDatabase && h.payload.owner.Some?)
               then before[op].(status := OpSucceeded)
               else before[op].(status := OpFailed)
  {
    HeadOperation(s, h);
    if EnsuredOwned(h, o.event.fault) && o.given.ready {
      HandOverStep(s, o, h);
    } else {
      ClosingStep(s, o, h);
    }
  }

  /** The same rows, h completed or failed. */
  ghost predicate OnlyClosed(t: seq<Command>, u: seq<Command>, h: Command, ok: bool) {
    |u| == |t| && forall i | 0 <= i < |t| ::
      u[i] == if t[i].id == h.id then t[i].(status := if ok then Completed else Failed) else t[i]
  }

  /** A report that hands nothing over closes its command, drops its secrets and queues nothing. */
  lemma ReportClosesCommand(s: System, o: Occurrence, h: Command)
    requires Delivers(s, o, h) && (OnRole(h.action) || OnDatabase(h.action))
    requires !(o.given.ready && o.event.fault == NoFault && h.action == PgEnsureDatabase && h.payload.DatabasePayload?
               && h.payload.owner.Some?)
    ensures var ok := Executed(s.accounts, s.pg, h, s.store.secrets, o.event.fault).1;
            && OnlyClosed(s.store.commands, Step(s, o).store.commands, h, ok)
            && Step(s, o).store.secrets == s.store.secrets - {h.id}
            && Step(s, o).store.adminSecret == s.store.adminSecret
  {
    if OnRole(h.action) {
      RoleStep(s, o, h);
    } else {
      ClosingStep(s, o, h);
      ExecutedManaged(s.accounts, s.pg, h, s.store.secrets, o.event.fault);
    }
  }

  /** The grant for the database h ensured, as the server queues it at this step. */
  function GrantFor(s: System, h: Command, at: Time): Command
    requires h.payload.DatabasePayload? && h.payload.owner.Some?
  {
    Command(s.nextId + 2, s.agent, s.node, PgGrantDatabasePrivileges,
            DatabasePayload(h.payload.databaseId, h.payload.databaseOperation, h.payload.databaseName, None,
                            Some(h.payload.owner.value)), Pending, at)
  }

  /** A hand-over closes the ensure and queues one grant to the owner, last, with the stored admin password. */
  lemma HandOverOutcome(s: System, o: Occurrence, h: Command)
    requires Delivers(s, o, h) && h.action == PgEnsureDatabase && o.event.fault == NoFault && o.given.ready
    requires h.payload.DatabasePayload? && h.payload.owner.Some?
    ensures var t := Step(s, o); var grant := GrantFor(s, h, t.clock);
            && t.store.commands != [] && var n := |t.store.commands| - 1;
            && t.store.commands[n] == grant && OnlyClosed(s.store.commands, t.store.commands[..n], h, true)
            && t.store.secrets == s.store.secrets[grant.id := Secrets(None, s.store.adminSecret)] - {h.id}
            && t.store.adminSecret == s.store.adminSecret && s.store.adminSecret.Some?
  {
    HandOverStep(s, o, h);
    GrantJoins(s, o, h);
  }

  /** The grant joins last, with the password that is already stored. */
  lemma GrantLast(r: Store, h: Command, w: Draw, p: Primary, clock: Time)
    requires h.payload.DatabasePayload? && h.payload.owner.Some? && w.primary == Some(p) && r.adminSecret.Some?
    requires CommandsBounded(r.commands, w.first, clock) && clock < w.now
    ensures var grant := Command(w.first + 2, p.agent, p.node, PgGrantDatabasePrivileges,
                                 DatabasePayload(h.payload.databaseId, h.payload.databaseOperation,
                                                 h.payload.databaseName, None, Some(h.payload.owner.value)),
                                 Pending, w.now);
            HandOver(r, GrantOf(h), w) ==
            r.(commands := r.commands + [grant], secrets := r.secrets[grant.id := Secrets(None, r.adminSecret)])
  {
    InsertLast(r.commands, GrantCommand(GrantOf(h), w, p));
  }

  lemma GrantJoins(s: System, o: Occurrence, h: Command)
    requires Delivers(s, o, h) && EnsuredOwned(h, o.event.fault) && o.given.ready
    ensures var w, r := DrawFor(s, o.given), ReportedStore(s.store, h, true);
            var rows, grant := HandOver(r, GrantOf(h), w), GrantFor(s, h, w.now);
            && s.store.adminSecret.Some? && rows.adminSecret == s.store.adminSecret
            && rows.commands == Report(s.store.commands, h.id, true) + [grant]
            && rows.secrets == s.store.secrets[grant.id := Secrets(None, s.store.adminSecret)]
  {
    var w := DrawFor(s, o.given);
    ManagedHead(s, h);
    ReportKeepsBounds(s.store.commands, h.id, true, s.nextId, s.clock);
    GrantLast(ReportedStore(s.store, h, true), h, w, w.primary.value, s.clock);
  }

  lemma InsertLast(t: seq<Command>, c: Command)
    requires forall x <- t :: x.createdAt <= c.createdAt
    ensures Insert(t, c) == t + [c]
  {
  }

  /** When an agent reports success: no statement failed, and the command had all it needs. */
  lemma SuccessIff(a: Accounts, pg: RoleTable, c: Command, secrets: map<Id, Secrets>, fault: Fault)
    ensures Executed(a, pg, c, secrets, fault).1 <==>
            && fault == NoFault
            && (OnRole(c.action) ==> c.payload.RolePayload?)
            && (c.action == PgEnsureRole || c.action == PgRotateRolePassword ==>
                  c.id in secrets && secrets[c.id].password.Some?)
            && (c.action == PgRotateRolePassword && c.payload.RolePayload? ==> c.payload.roleName in pg)
            && (c.action == PgEnsureAdminRole ==> c.id in secrets && secrets[c.id].admin.Some?)
  {
  }

  /** The commands that make the server's own roles, on a server that has none yet and on one that has. */
  lemma OwnRolesMade(a: Accounts, pg: RoleTable, c: Command, secrets: map<Id, Secrets>)
    ensures c.action == PgInit || c.action == PgInstallDocker || c.action == PgStart ==>
              Executed(a, pg, c, secrets, NoFault).0 ==
              if pg == map[] then map[a.superuser := PgRole(true, Some(a.password))] else pg
    ensures c.action == PgCreateReplUser ==>
              Executed(a, pg, c, secrets, NoFault).0 ==
              if a.replication in pg then pg else pg[a.replication := PgRole(false, Some(a.password))]
  {
  }
}
