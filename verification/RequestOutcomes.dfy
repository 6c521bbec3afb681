/**
 What a management request leaves behind, value by value: the row it is about, its operation,
 and every command it queues. Each guard is met by a lemma that says when it refuses.
 */
module RequestOutcomes {
  import opened Wrappers
  import opened Commands
  import opened Metadata
  import opened ManagedRoleRepo
  import opened ManagementService
  import opened ControlLoop
  import opened ControlView
  import opened RequestForms

  /** Distinct rows, and draws that are new: a later clock and identifiers no table holds. */
  ghost predicate Drawn(s: Store, w: Draw) {
    exists clock | clock < w.adminAt < w.now :: Bounded(s, w.first, clock)
  }

  /** The new commands of an accepted request, and nothing else; its own comes last in the primary's queue. */
  ghost predicate Queues(t: seq<Command>, u: seq<Command>, main: Command, w: Draw, provisions: bool) {
    var promote := Command(w.first + 1, main.agentId, main.nodeId, PgPromote, NoPayload, Pending, w.now - 1_000_000);
    var admin := Command(w.first, main.agentId, main.nodeId, PgEnsureAdminRole, NoPayload, Pending, w.adminAt);
    && |u| == |t| + 1 + (if w.allowPromote then 1 else 0) + (if provisions then 1 else 0)
    && (forall x :: x in u <==>
          x in t || x == main || (w.allowPromote && x == promote) || (provisions && x == admin))
    && var q := Queue(u, main.agentId, main.nodeId);
    && q != [] && q[|q| - 1] == main
    && (w.allowPromote ==> promote in q[..|q| - 1]) && (provisions ==> admin in q[..|q| - 1])
  }

  /** The secrets an accepted request attaches: its command's, and the admin command's if it queues one. */
  ghost predicate Attaches(s: Store, t: Store, w: Draw, password: Option<Secret>) {
    t.secrets == (if s.adminSecret.Some? then s.secrets
                  else s.secrets[w.first := Secrets(None, Some(w.adminPassword))])
                 [w.first + 2 := Secrets(password, s.adminSecret)]
  }

  /** One committed transaction: one operation, one command of its own, the password stored if none was. */
  ghost predicate Commits(s: Store, t: Store, w: Draw, kind: OperationType, action: Action, payload: Payload,
                          password: Option<Secret>)
  {
    && w.primary.Some?
    && t.operations == s.operations[w.first + 3 := Operation(kind, OpRunning)]
    && t.adminSecret == (if s.adminSecret.Some? then s.adminSecret else Some(w.adminPassword))
    && Attaches(s, t, w, password)
    && Queues(s.commands, t.commands,
              Command(w.first + 2, w.primary.value.agent, w.primary.value.node, action, payload, Pending, w.now), w,
              s.adminSecret.None?)
  }

  lemma Inserted(t: seq<Command>, c: Command)
    ensures |Insert(t, c)| == |t| + 1 && forall x :: x in Insert(t, c) <==> x in t || x == c
  {
    InsertMembers(t, c);
  }

  /** The newest command is the last of its queue, and the pending ones before it are ahead of it. */
  lemma LastInQueue(t: seq<Command>, main: Command)
    requires main.status == Pending && forall x <- t :: x.createdAt <= main.createdAt
    ensures var q := Queue(Insert(t, main), main.agentId, main.nodeId);
            && q != [] && q[|q| - 1] == main
            && forall x <- t | InQueue(x, main.agentId, main.nodeId) :: x in q[..|q| - 1]
  {
    var q := Queue(t, main.agentId, main.nodeId);
    assert Insert(t, main) == t + [main];
    QueueSnoc(t, main, main.agentId, main.nodeId);
    assert (q + [main])[..|q|] == q;
    forall x <- t | InQueue(x, main.agentId, main.nodeId) ensures x in q {
      QueueComplete(t, main.agentId, main.nodeId, x);
    }
  }

  /** The admin command if it is due, the promotion if it is allowed, the command itself. */
  lemma AssembledQueues(t: seq<Command>, base: seq<Command>, queued: seq<Command>, main: Command, w: Draw, due: bool)
    requires main.status == Pending && main.createdAt == w.now && w.adminAt < w.now
    requires forall x <- t :: x.createdAt < w.now
    requires var admin := Command(w.first, main.agentId, main.nodeId, PgEnsureAdminRole, NoPayload, Pending, w.adminAt);
             base == if due then Insert(t, admin) else t
    requires var promote := Command(w.first + 1, main.agentId, main.nodeId, PgPromote, NoPayload, Pending,
                                    w.now - 1_000_000);
             queued == if w.allowPromote then Insert(base, promote) else base
    ensures Queues(t, Insert(queued, main), main, w, due)
  {
    var promote := Command(w.first + 1, main.agentId, main.nodeId, PgPromote, NoPayload, Pending, w.now - 1_000_000);
    var admin := Command(w.first, main.agentId, main.nodeId, PgEnsureAdminRole, NoPayload, Pending, w.adminAt);
    Inserted(t, admin);
    Inserted(base, promote);
    Inserted(queued, main);
    LastInQueue(queued, main);
    assert due ==> admin in queued && InQueue(admin, main.agentId, main.nodeId);
    assert w.allowPromote ==> promote in queued && InQueue(promote, main.agentId, main.nodeId);
  }

  /** The transaction's two inserts, after the provisioning's one. */
  lemma FormInserts(s: Store, w: Draw, f: Form) returns (base: seq<Command>, queued: seq<Command>)
    requires w.primary.Some? && FormOutcome(s, w, w.primary.value, f).Some?
    ensures var p := w.primary.value;
            && base == (if s.adminSecret.None?
                        then Insert(s.commands, Command(w.first, p.agent, p.node, PgEnsureAdminRole, NoPayload, Pending,
                                                        w.adminAt)) else s.commands)
            && queued == (if w.allowPromote
                          then Insert(base, Command(w.first + 1, p.agent, p.node, PgPromote, NoPayload, Pending,
                                                    w.now - 1_000_000)) else base)
            && FormOutcome(s, w, p, f).value.commands ==
               Insert(queued, Command(w.first + 2, p.agent, p.node, f.action, f.payload, Pending, w.now))
  {
    var p := w.primary.value;
    base := EnsureAdmin(s, w, p).0.commands;
    queued := if w.allowPromote then Insert(base, BeforeCommand(DispatchFor(s, w, p))) else base;
  }

  lemma CommandsOf(s: Store, w: Draw, f: Form, clock: Time)
    requires CommandsBounded(s.commands, w.first, clock) && clock < w.adminAt < w.now && w.primary.Some?
    requires FormOutcome(s, w, w.primary.value, f).Some?
    ensures var p := w.primary.value;
            Queues(s.commands, FormOutcome(s, w, p, f).value.commands,
                   Command(w.first + 2, p.agent, p.node, f.action, f.payload, Pending, w.now), w, s.adminSecret.None?)
  {
    var p := w.primary.value;
    var base, queued := FormInserts(s, w, f);
    AssembledQueues(s.commands, base, queued,
                    Command(w.first + 2, p.agent, p.node, f.action, f.payload, Pending, w.now), w, s.adminSecret.None?);
  }

  /** The common form of an accepted request, spelled out. */
  lemma FormCommits(s: Store, w: Draw, f: Form, clock: Time)
    requires Bounded(s, w.first, clock) && clock < w.adminAt < w.now && w.primary.Some? && IsManaged(f.action)
    ensures FormOutcome(s, w, w.primary.value, f).Some?
    ensures var t := FormOutcome(s, w, w.primary.value, f).value;
            && Commits(s, t, w, f.kind, f.action, f.payload, f.password)
            && t.roles == f.roles && t.databases == f.databases
  {
    FormAccepted(s, w, f, clock);
    CommandsOf(s, w, f, clock);
    var base := EnsureAdmin(s, w, w.primary.value).0.(roles := f.roles, databases := f.databases);
    OperationRows(base, DispatchFor(s, w, w.primary.value), f.kind, f.action, f.payload, f.password);
  }

  // ---- The requests ----

  /** The form of a request that the repository accepts commits, and its rows are the form's. */
  lemma AcceptedCommits(s: Store, w: Draw, f: Form, t: Store)
    requires Drawn(s, w) && w.primary.Some? && IsManaged(f.action)
    requires FormOutcome(s, w, w.primary.value, f).Some? ==> t == FormOutcome(s, w, w.primary.value, f).value
    ensures Commits(s, t, w, f.kind, f.action, f.payload, f.password)
    ensures t.roles == f.roles && t.databases == f.databases
  {
    var clock :| clock < w.adminAt < w.now && Bounded(s, w.first, clock);
    FormCommits(s, w, f, clock);
  }

  lemma RotateCommits(s: Store, id: Id, password: Secret, w: Draw, row: Role)
    requires Drawn(s, w) && w.primary.Some? && id in s.roles && s.roles[id].status != RowDeleting
    requires row == s.roles[id].(password := password, version := s.roles[id].version + 1, status := RowPending)
    ensures var t := RotateRole(s, id, password, w);
            && t.roles == s.roles[id := row] && t.databases == s.databases
            && Commits(s, t, w, RotateRoleOp, PgRotateRolePassword, RolePayload(id, w.first + 3, row.name, Custom),
                       Some(password))
  {
    RotateRoleOutcome(s, id, password, w, row);
    AcceptedCommits(s, w, Form(s.roles[id := row], s.databases, RotateRoleOp, PgRotateRolePassword,
                               RolePayload(id, w.first + 3, row.name, Custom), Some(password)),
                    RotateRole(s, id, password, w));
  }

  /** A rotation is refused without a ready primary, without the role, or while it is being deleted. */
  lemma RotateOutcome(s: Store, id: Id, password: Secret, w: Draw)
    requires Drawn(s, w)
    ensures var t := RotateRoleRequest(s, id, password, w);
            if w.primary.Some? && id in s.roles && s.roles[id].status != RowDeleting then
              var row := s.roles[id].(password := password, version := s.roles[id].version + 1, status := RowPending);
              && t.roles == s.roles[id := row] && t.databases == s.databases
              && Commits(s, t, w, RotateRoleOp, PgRotateRolePassword, RolePayload(id, w.first + 3, row.name, Custom),
                         Some(password))
            else t == s
  {
    if w.primary.Some? && id in s.roles && s.roles[id].status != RowDeleting {
      var row := s.roles[id].(password := password, version := s.roles[id].version + 1, status := RowPending);
      RotateCommits(s, id, password, w, row);
    }
  }

  lemma DeleteCommits(s: Store, id: Id, w: Draw)
    requires Drawn(s, w) && w.primary.Some? && id in s.roles
    ensures var t := DeleteRole(s, id, w);
            && t.roles == s.roles[id := s.roles[id].(status := RowDeleting)] && t.databases == s.databases
            && Commits(s, t, w, DeleteRoleOp, PgDropRole, RolePayload(id, w.first + 3, s.roles[id].name, Custom), None)
  {
    var row := s.roles[id].(status := RowDeleting);
    DeleteRoleOutcome(s, id, w, row);
    AcceptedCommits(s, w, Form(s.roles[id := row], s.databases, DeleteRoleOp, PgDropRole,
                               RolePayload(id, w.first + 3, row.name, Custom), None), DeleteRole(s, id, w));
  }

  /** A role is deleted iff it is not being deleted already and every database it owns is. */
  lemma DeleteOutcome(s: Store, id: Id, w: Draw)
    requires Drawn(s, w)
    ensures var t := DeleteRoleRequest(s, id, w);
            if w.primary.Some? && id in s.roles && s.roles[id].status != RowDeleting
               && forall k <- s.databases | s.databases[k].owner == Some(id) :: s.databases[k].status == RowDeleting
            then
              && t.roles == s.roles[id := s.roles[id].(status := RowDeleting)] && t.databases == s.databases
              && Commits(s, t, w, DeleteRoleOp, PgDropRole, RolePayload(id, w.first + 3, s.roles[id].name, Custom),
                         None)
            else t == s
  {
    if w.primary.Some? && id in s.roles {
      DeleteCommits(s, id, w);
    }
  }

  lemma CreateCommits(s: Store, name: string, kind: RoleKind, password: Secret, w: Draw, id: Id, row: Role)
    requires Drawn(s, w) && w.primary.Some?
    requires var existing := RoleNamed(s.roles, name);
             && (existing.None? ==> id == w.first + 4 && row == Role(name, kind, password, 1, RowPending))
             && (existing.Some? ==>
                   && id == existing.value && s.roles[id].status == RowFailed
                   && row == Role(name, kind, password, s.roles[id].version + 1, RowPending))
    ensures var t := CreateRole(s, name, kind, password, w);
            && t.roles == s.roles[id := row] && t.databases == s.databases
            && Commits(s, t, w, CreateRoleOp, PgEnsureRole, RolePayload(id, w.first + 3, name, kind), Some(password))
  {
    CreateRoleOutcome(s, name, kind, password, w, id, row);
    AcceptedCommits(s, w, Form(s.roles[id := row], s.databases, CreateRoleOp, PgEnsureRole,
                               RolePayload(id, w.first + 3, name, kind), Some(password)),
                    CreateRole(s, name, kind, password, w));
  }

  /** A new name gets a new row. */
  lemma CreateOutcome(s: Store, name: string, kind: RoleKind, password: Secret, w: Draw)
    requires Drawn(s, w) && forall k <- s.roles :: s.roles[k].name != name
    ensures var t := CreateRole(s, name, kind, password, w);
            if w.primary.Some? then
              && t.roles == s.roles[w.first + 4 := Role(name, kind, password, 1, RowPending)]
              && t.databases == s.databases
              && Commits(s, t, w, CreateRoleOp, PgEnsureRole, RolePayload(w.first + 4, w.first + 3, name, kind),
                         Some(password))
            else t == s
  {
    if w.primary.Some? {
      CreateCommits(s, name, kind, password, w, w.first + 4, Role(name, kind, password, 1, RowPending));
    }
  }

  /** A name that a row has is created again iff that row failed, and then under the row's identifier. */
  lemma RetryOutcome(s: Store, id: Id, name: string, kind: RoleKind, password: Secret, w: Draw)
    requires Drawn(s, w) && id in s.roles && s.roles[id].name == name
    ensures var t := CreateRole(s, name, kind, password, w);
            if w.primary.Some? && s.roles[id].status == RowFailed then
              && t.roles == s.roles[id := Role(name, kind, password, s.roles[id].version + 1, RowPending)]
              && t.databases == s.databases
              && Commits(s, t, w, CreateRoleOp, PgEnsureRole, RolePayload(id, w.first + 3, name, kind), Some(password))
            else t == s
  {
    assert RoleNamed(s.roles, name) == Some(id);
    if w.primary.Some? && s.roles[id].status == RowFailed {
      CreateCommits(s, name, kind, password, w, id,
                    Role(name, kind, password, s.roles[id].version + 1, RowPending));
    }
  }

  /** The word, in small or capital letters. */
  predicate Spells(name: string, word: string) {
    |name| == |word| && forall i | 0 <= i < |word| ::
      name[i] == word[i] || ('a' <= word[i] <= 'z' && name[i] == word[i] - 'a' + 'A')
  }

  lemma LowerSpells(name: string, word: string)
    requires forall c <- word :: !('A' <= c <= 'Z')
    ensures seq(|name|, i requires 0 <= i < |name| => Lower(name[i])) == word <==> Spells(name, word)
  {
    var low := seq(|name|, i requires 0 <= i < |name| => Lower(name[i]));
    if |name| == |word| {
      forall i | 0 <= i < |word| ensures low[i] == word[i] <==>
        name[i] == word[i] || ('a' <= word[i] <= 'z' && name[i] == word[i] - 'a' + 'A')
      {
        assert word[i] in word;
      }
    }
  }

  lemma CreateDatabaseCommits(s: Store, name: string, owner: Option<Owner>, w: Draw)
    requires Drawn(s, w) && w.primary.Some? && forall k <- s.databases :: s.databases[k].name != name
    ensures var t := CreateDatabase(s, name, owner, w);
            && t.databases == s.databases[w.first + 4 := Database(name, OwnerId(owner), RowPending)]
            && t.roles == s.roles
            && Commits(s, t, w, CreateDatabaseOp, PgEnsureDatabase,
                       DatabasePayload(w.first + 4, w.first + 3, name, OwnerName(owner), None), None)
  {
    var row := Database(name, OwnerId(owner), RowPending);
    CreateDatabaseOutcome(s, name, owner, w, row);
    AcceptedCommits(s, w, Form(s.roles, s.databases[w.first + 4 := row], CreateDatabaseOp, PgEnsureDatabase,
                               DatabasePayload(w.first + 4, w.first + 3, name, OwnerName(owner), None), None),
                    CreateDatabase(s, name, owner, w));
  }

  /** No reserved name in any spelling, no name twice, and an owner that is ready and may write. */
  lemma DatabaseRequestOutcome(s: Store, name: string, owner: Option<Id>, w: Draw)
    requires Drawn(s, w)
    ensures var t := CreateDatabaseRequest(s, name, owner, w);
            if && w.primary.Some?
               && !Spells(name, "postgres") && !Spells(name, "template0") && !Spells(name, "template1")
               && (forall k <- s.databases :: s.databases[k].name != name)
               && (owner.Some? ==> owner.value in s.roles && s.roles[owner.value].status == RowReady
                                   && s.roles[owner.value].kind != ReadOnly)
            then
              var ownerName := if owner.Some? then Some(s.roles[owner.value].name) else None;
              && t.databases == s.databases[w.first + 4 := Database(name, owner, RowPending)] && t.roles == s.roles
              && Commits(s, t, w, CreateDatabaseOp, PgEnsureDatabase,
                         DatabasePayload(w.first + 4, w.first + 3, name, ownerName, None), None)
            else t == s
  {
    LowerSpells(name, "postgres");
    LowerSpells(name, "template0");
    LowerSpells(name, "template1");
    if w.primary.Some? && (forall k <- s.databases :: s.databases[k].name != name) && MayOwn(s, owner) {
      CreateDatabaseCommits(s, name, OwnerRead(s, owner), w);
    }
  }

  lemma DropCommits(s: Store, id: Id, w: Draw)
    requires Drawn(s, w) && w.primary.Some? && id in s.databases
    ensures var t := DeleteDatabase(s, id, w);
            && t.databases == s.databases[id := s.databases[id].(status := RowDeleting)] && t.roles == s.roles
            && Commits(s, t, w, DeleteDatabaseOp, PgDropDatabase,
                       DatabasePayload(id, w.first + 3, s.databases[id].name, None, None), None)
  {
    var row := s.databases[id].(status := RowDeleting);
    DeleteDatabaseOutcome(s, id, w, row);
    AcceptedCommits(s, w, Form(s.roles, s.databases[id := row], DeleteDatabaseOp, PgDropDatabase,
                               DatabasePayload(id, w.first + 3, row.name, None, None), None), DeleteDatabase(s, id, w));
  }

  /** A database is dropped iff it is there and not being dropped already. */
  lemma DropOutcome(s: Store, id: Id, w: Draw)
    requires Drawn(s, w)
    ensures var t := DeleteDatabaseRequest(s, id, w);
            if w.primary.Some? && id in s.databases && s.databases[id].status != RowDeleting then
              && t.databases == s.databases[id := s.databases[id].(status := RowDeleting)] && t.roles == s.roles
              && Commits(s, t, w, DeleteDatabaseOp, PgDropDatabase,
                         DatabasePayload(id, w.first + 3, s.databases[id].name, None, None), None)
            else t == s
  {
    if w.primary.Some? && id in s.databases {
      DropCommits(s, id, w);
    }
  }

  /** Applying extensions touches no row: one command without promotion, and the provisioning if it is due. */
  lemma ExtensionsOutcome(s: Store, w: Draw)
    requires Drawn(s, w)
    ensures var t := ApplyExtensions(s, w);
            if w.primary.Some? then
              var p := w.primary.value;
              && t == s.(commands := t.commands, secrets := t.secrets, adminSecret := t.adminSecret)
              && t.adminSecret == (if s.adminSecret.Some? then s.adminSecret else Some(w.adminPassword))
              && Attaches(s, t, w, None)
              && Queues(s.commands, t.commands,
                        Command(w.first + 2, p.agent, p.node, PgApplyExtensions, NoPayload, Pending, w.now),
                        w.(allowPromote := false), s.adminSecret.None?)
            else t == s
  {
    if w.primary.Some? {
      var p := w.primary.value;
      var clock :| clock < w.adminAt < w.now && Bounded(s, w.first, clock);
      AdminCommands(s, w, p, w.first, clock);
      ApplyExtensionsIs(s, w, p);
      AssembledQueues(s.commands, EnsureAdmin(s, w, p).0.commands, EnsureAdmin(s, w, p).0.commands,
                      Command(w.first + 2, p.agent, p.node, PgApplyExtensions, NoPayload, Pending, w.now),
                      w.(allowPromote := false), s.adminSecret.None?);
    }
  }

  /** The admin role's password and command, once, and nothing else. */
  ghost predicate ProvisionsOnly(s: Store, t: Store, w: Draw, p: Primary) {
    if s.adminSecret.Some? then t == s
    else
      && t == s.(commands := t.commands, adminSecret := Some(w.adminPassword),
                 secrets := s.secrets[w.first := Secrets(None, Some(w.adminPassword))])
      && |t.commands| == |s.commands| + 1
      && forall x :: x in t.commands <==>
           x in s.commands || x == Command(w.first, p.agent, p.node, PgEnsureAdminRole, NoPayload, Pending, w.adminAt)
  }

  /** A row that went away while the request waited for the lock: only the provisioning is left. */
  lemma StaleOutcome(s: Store, id: Id, password: Secret, w: Draw)
    requires w.primary.Some?
    ensures id !in s.roles || s.roles[id].status == RowDeleting ==>
              ProvisionsOnly(s, RotateRole(s, id, password, w), w, w.primary.value)
    ensures id !in s.roles ==> ProvisionsOnly(s, DeleteRole(s, id, w), w, w.primary.value)
    ensures id !in s.databases ==> ProvisionsOnly(s, DeleteDatabase(s, id, w), w, w.primary.value)
  {
    Inserted(s.commands, AdminCommand(w, w.primary.value));
  }

  // ---- On the steps of a run ----

  /** A request that opened an operation committed one transaction. */
  lemma AcceptedStep(s: System, o: Occurrence) returns (main: Command)
    requires Fresh(s) && IsRequest(o.event) && !o.event.ApplyExtensionsEvent?
    requires Step(s, o).store.operations != s.store.operations
    ensures Step(s, o).clock == s.clock + 2 + o.given.wait + o.given.gap
    ensures main == Command(s.nextId + 2, s.agent, s.node, main.action, main.payload, Pending, Step(s, o).clock)
    ensures Queues(s.store.commands, Step(s, o).store.commands, main, DrawFor(s, o.given), s.store.adminSecret.None?)
  {
    var w := DrawFor(s, o.given);
    StepRequested(s, o);
    var f := RequestForm(s.store, o.event, w, s.clock);
    FormCommits(s.store, w, f.value, s.clock);
    main := Command(s.nextId + 2, s.agent, s.node, f.value.action, f.value.payload, Pending, w.now);
  }

  /** The promotion and the provisioning that may go with a request's command. */
  function PromotionOf(s: System, at: Time): Command {
    Command(s.nextId + 1, s.agent, s.node, PgPromote, NoPayload, Pending, at - 1_000_000)
  }

  function ProvisioningOf(s: System, given: Circumstance): Command {
    Command(s.nextId, s.agent, s.node, PgEnsureAdminRole, NoPayload, Pending, s.clock + 1 + given.wait)
  }

  /**
   An accepted request queues its own command last; where promotion is allowed, and only
   there, one promotion of the primary goes ahead of it, stamped a millisecond earlier.
   */
  lemma PromotionGoesAhead(s: System, o: Occurrence) returns (main: Command)
    requires Fresh(s) && IsRequest(o.event) && !o.event.ApplyExtensionsEvent?
    requires Step(s, o).store.operations != s.store.operations
    ensures main == Command(s.nextId + 2, s.agent, s.node, main.action, main.payload, Pending, Step(s, o).clock)
    ensures forall x :: x in Step(s, o).store.commands <==>
              || x in s.store.commands || x == main
              || (o.given.allowPromote && x == PromotionOf(s, main.createdAt))
              || (s.store.adminSecret.None? && x == ProvisioningOf(s, o.given))
    ensures |Step(s, o).store.commands| == |s.store.commands| + 1 + (if o.given.allowPromote then 1 else 0)
                                           + (if s.store.adminSecret.None? then 1 else 0)
    ensures var q := Queue(Step(s, o).store.commands, s.agent, s.node);
            && q != [] && q[|q| - 1] == main
            && (o.given.allowPromote ==> PromotionOf(s, main.createdAt) in q[..|q| - 1])
  {
    main := AcceptedStep(s, o);
  }
}
