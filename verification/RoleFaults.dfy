/**
 Managed roles when commands fail. Two guarantees survive any mix of faults, retries and
 lost reports: a ready row with nothing pending on its name is served with its stored
 password, and PostgreSQL holds no managed role without a row as long as no create is
 retried while the same role's drop is pending. The last condition is exact.
 */
module RoleFaults {
  import opened Wrappers
  import opened Commands
  import opened Metadata
  import opened ManagedRoleRepo
  import opened ManagementService
  import opened PostgresRoles
  import opened AgentProtocol
  import opened ControlLoop
  import opened ControlView
  import opened RoleChanges
  import opened RoleConvergence

  predicate OnName(c: Command, name: string) {
    IsRole(c) && c.payload.roleName == name
  }

  /** The youngest pending role command on a name. */
  function LastOn(m: seq<Command>, name: string): (r: Option<Command>)
    ensures r.Some? ==> r.value in m && OnName(r.value, name)
    ensures r.None? ==> forall c <- m :: !OnName(c, name)
  {
    if |m| == 0 then None
    else if OnName(m[|m| - 1], name) then Some(m[|m| - 1])
    else LastOn(m[..|m| - 1], name)
  }

  lemma {:induction false} LastTail(m: seq<Command>, name: string)
    requires m != []
    ensures LastOn(m, name) ==
            if LastOn(m[1..], name).Some? then LastOn(m[1..], name)
            else if OnName(m[0], name) then Some(m[0]) else None
  {
    var n := |m| - 1;
    if n > 0 {
      assert m[..n][1..] == m[1..][..n - 1];
      LastTail(m[..n], name);
    }
  }

  /**
   The youngest command on the row's name is the row's own and carries its password; with
   none pending, a ready row is served with its password.
   */
  ghost predicate Faithful(row: Role, id: Id, last: Option<Command>, secrets: map<Id, Secrets>, pg: RoleTable) {
    match last
    case Some(c) => About(c, id) && (c.action != PgDropRole ==> SecretsOf(secrets, c.id).password == Some(row.password))
    case None => row.status == RowReady ==> row.name in pg && pg[row.name].password == Some(row.password)
  }

  ghost predicate AllFaithful(v: View) {
    forall id <- v.roles :: Faithful(v.roles[id], id, LastOn(v.backlog, v.roles[id].name), v.secrets, v.pg)
  }

  lemma AppendFaithful(a: View, b: View, id: Id, row: Role, c: Command)
    requires AllFaithful(a) && UniqueNames(b.roles) && b.roles == a.roles[id := row]
    requires b.backlog == a.backlog + [c] && b.pg == a.pg && SameSecrets(a.backlog, a.secrets, b.secrets)
    requires About(c, id) && c.payload.roleName == row.name
    requires c.action != PgDropRole ==> SecretsOf(b.secrets, c.id).password == Some(row.password)
    ensures AllFaithful(b)
  {
    forall x <- b.roles
      ensures Faithful(b.roles[x], x, LastOn(b.backlog, b.roles[x].name), b.secrets, b.pg)
    {
      if x != id {
        assert b.roles[id].name != b.roles[x].name;
        assert Faithful(a.roles[x], x, LastOn(a.backlog, a.roles[x].name), a.secrets, a.pg);
      }
    }
  }

  /** Steps that leave the rows and their pending commands alone; nothing served is touched. */
  lemma IdleFaithful(a: View, b: View)
    requires AllFaithful(a) && b.roles == a.roles
    requires forall name :: LastOn(b.backlog, name) == LastOn(a.backlog, name)
    requires forall name :: LastOn(a.backlog, name).Some?
               ==> SecretsOf(b.secrets, LastOn(a.backlog, name).value.id) ==
                   SecretsOf(a.secrets, LastOn(a.backlog, name).value.id)
    requires forall id <- a.roles | LastOn(a.backlog, a.roles[id].name).None? ::
               At(a.pg, a.roles[id].name).Some? ==> At(b.pg, a.roles[id].name) == At(a.pg, a.roles[id].name)
    ensures AllFaithful(b)
  {
  }

  lemma CreatingPending(a: View, id: Id)
    requires Sane(a) && AllCreating(a.roles, a.backlog) && id in a.roles
    ensures LastOn(a.backlog, a.roles[id].name).Some?
  {
    var c :| c in a.backlog && Creates(c, id);
    assert SaneCommand(c, a.roles, a.next) && OnName(c, a.roles[id].name);
  }

  lemma CalmFaithful(a: View, b: View)
    requires Sane(a) && AllFaithful(a) && IsChange(a, b, Unrelated, NoFault)
    ensures AllFaithful(b)
  {
    forall id <- a.roles | LastOn(a.backlog, a.roles[id].name).None? && At(a.pg, a.roles[id].name).Some?
      ensures At(b.pg, a.roles[id].name) == At(a.pg, a.roles[id].name)
    {
      if AllCreating(a.roles, a.backlog) {
        CreatingPending(a, id);
      }
    }
    IdleFaithful(a, b);
  }

  lemma AppendOtherFaithful(a: View, b: View, c: Command)
    requires AllFaithful(a) && AppendsOther(a, b, c)
    ensures AllFaithful(b)
  {
  }

  lemma ReplaceFaithful(a: View, b: View, f: Option<Command>)
    requires AllFaithful(a) && ReplacesOther(a, b, f)
    ensures AllFaithful(b)
  {
    var mid := b.(backlog := a.backlog[1..]);
    forall name ensures LastOn(mid.backlog, name) == LastOn(a.backlog, name) {
      LastTail(a.backlog, name);
    }
    IdleFaithful(a, mid);
    if f.Some? {
      AppendOtherFaithful(mid, b, f.value);
    } else {
      assert b.backlog == mid.backlog;
    }
  }

  /** A role command touches only its own name. */
  lemma ExecuteLocal(pg: RoleTable, c: Command, secrets: map<Id, Secrets>, fault: Fault, name: string)
    requires IsRole(c) && !OnName(c, name)
    ensures At(Execute(pg, c, secrets, fault).0, name) == At(pg, name)
  {
  }

  lemma RepeatFaithful(a: View, b: View, fault: Fault)
    requires Sane(a) && AllFaithful(a) && a.roles == b.roles && Repeatable(a, b, fault)
    ensures AllFaithful(b)
  {
    var h := a.backlog[0];
    assert SaneCommand(h, a.roles, a.next);
    forall name | LastOn(a.backlog, name).None? ensures At(b.pg, name) == At(a.pg, name) {
      assert !OnName(h, name);
      if IsRole(h) {
        ExecuteLocal(a.pg, h, a.secrets, fault, name);
      } else {
        ExecuteDatabase(a.pg, h, a.secrets, fault);
      }
    }
    IdleFaithful(a, b);
  }

  /** The command that was the last one on its row's name has run and been handled. */
  lemma LastSettled(row: Role, id: Id, h: Command, secrets: map<Id, Secrets>, pg: RoleTable, fault: Fault,
          roles: map<Id, Role>)
    requires id in roles && roles[id] == row && Faithful(row, id, Some(h), secrets, pg) && OnName(h, row.name)
    ensures var (after, ok) := Execute(pg, h, secrets, fault);
            id in RolesAfter(roles, h, ok) ==> Faithful(RolesAfter(roles, h, ok)[id], id, None, secrets, after)
  {
  }

  lemma SettleFaithful(a: View, b: View, fault: Fault)
    requires Sane(a) && AllFaithful(a) && SettlesRole(a, b, fault)
    ensures AllFaithful(b)
  {
    var h := a.backlog[0];
    assert SaneCommand(h, a.roles, a.next);
    forall x <- b.roles
      ensures Faithful(b.roles[x], x, LastOn(b.backlog, b.roles[x].name), b.secrets, b.pg)
    {
      var name := a.roles[x].name;
      assert Faithful(a.roles[x], x, LastOn(a.backlog, name), a.secrets, a.pg);
      LastTail(a.backlog, name);
      if LastOn(b.backlog, name).None? {
        if OnName(h, name) {
          LastSettled(a.roles[x], x, h, a.secrets, a.pg, fault, a.roles);
        } else {
          ExecuteLocal(a.pg, h, a.secrets, fault, name);
        }
      }
    }
  }

  lemma ChangeFaithful(a: View, b: View, ch: RoleChange, fault: Fault)
    requires Sane(a) && Sane(b) && AllFaithful(a) && IsChange(a, b, ch, fault)
    ensures AllFaithful(b)
  {
    match ch
    case Unrelated => CalmFaithful(a, b);
    case Sets(id, row, c) => AppendFaithful(a, b, id, row, c);
    case Deletes(id, c) => AppendFaithful(a, b, id, b.roles[id], c);
    case Appends(c) => AppendOtherFaithful(a, b, c);
    case Replaces(f) => ReplaceFaithful(a, b, f);
    case Repeats => RepeatFaithful(a, b, fault);
    case Settles => SettleFaithful(a, b, fault);
  }

  lemma {:induction false} RunFaithful(s: System, run: seq<Occurrence>)
    requires Initial(s)
    ensures AllFaithful(ViewOf(Run(s, run)))
  {
    if |run| > 0 {
      var before, o := Run(s, run[..|run| - 1]), run[|run| - 1];
      RunFaithful(s, run[..|run| - 1]);
      RunReached(s, run[..|run| - 1]);
      StepReached(before, o);
      var ch := Classify(ViewOf(before), ViewOf(Step(before, o)), o.event);
      ChangeFaithful(ViewOf(before), ViewOf(Step(before, o)), ch, FaultOf(o.event));
    }
  }

  /**
   In every run, faults included: a ready row with no pending command on its name is served
   with its password. Whether the attribute is right as well is `AttributeServed`.
   */
  lemma ReadyMeansServed(s: System, run: seq<Occurrence>, id: Id)
    requires Initial(s)
    requires var e := Run(s, run);
             && id in e.store.roles && e.store.roles[id].status == RowReady
             && forall c <- Backlog(e) :: !OnName(c, e.store.roles[id].name)
    ensures var e := Run(s, run); var row := e.store.roles[id];
            row.name in e.pg && e.pg[row.name].password == Some(row.password)
  {
    RunFaithful(s, run);
    var v := ViewOf(Run(s, run));
    assert Faithful(v.roles[id], id, LastOn(v.backlog, v.roles[id].name), v.secrets, v.pg);
  }

  // ---- No role without a row ----

  predicate DropOf(c: Command, id: Id) {
    About(c, id) && c.action == PgDropRole
  }

  /** No pending creation of a role behind its own pending drop. */
  ghost predicate DropsLast(m: seq<Command>) {
    forall i, j | 0 <= i < j < |m| && IsRole(m[j]) && m[j].action == PgEnsureRole :: !DropOf(m[i], m[j].payload.roleId)
  }

  ghost predicate EnsuresRows(m: seq<Command>, roles: map<Id, Role>) {
    forall c <- m :: IsRole(c) && c.action == PgEnsureRole ==> c.payload.roleId in roles
  }

  ghost predicate NamesTaken(roles: map<Id, Role>, pg: RoleTable, builtin: set<string>) {
    forall name <- pg :: name !in builtin ==> NameTaken(roles, name)
  }

  ghost predicate NoOrphans(v: View, builtin: set<string>) {
    NamesTaken(v.roles, v.pg, builtin) && EnsuresRows(v.backlog, v.roles) && DropsLast(v.backlog)
  }

  lemma AppendNoOrphans(a: View, b: View, builtin: set<string>, c: Command)
    requires NoOrphans(a, builtin) && b.backlog == a.backlog + [c] && b.pg == a.pg
    requires forall id <- a.roles :: id in b.roles && b.roles[id].name == a.roles[id].name
    requires IsRole(c) && c.action == PgEnsureRole
             ==> c.payload.roleId in b.roles && !DropPending(a.backlog, c.payload.roleId)
    ensures NoOrphans(b, builtin)
  {
  }

  lemma ReplaceNoOrphans(a: View, b: View, builtin: set<string>, f: Option<Command>)
    requires NoOrphans(a, builtin) && ReplacesOther(a, b, f)
    ensures NoOrphans(b, builtin)
  {
  }

  lemma RemovedTaken(roles: map<Id, Role>, pg: RoleTable, builtin: set<string>, id: Id, name: string)
    requires NamesTaken(roles, pg, builtin) && (id in roles ==> roles[id].name == name)
    ensures NamesTaken(roles - {id}, pg - {name}, builtin)
  {
    forall n <- pg - {name} | n !in builtin ensures NameTaken(roles - {id}, n) {
      assert NameTaken(roles, n);
      var x :| x in roles && roles[x].name == n;
      assert x in roles - {id} && (roles - {id})[x].name == n;
    }
  }

  lemma SettleTaken(roles: map<Id, Role>, pg: RoleTable, builtin: set<string>, h: Command, secrets: map<Id, Secrets>,
                    fault: Fault, next: Id)
    requires NamesTaken(roles, pg, builtin) && SaneCommand(h, roles, next) && IsRole(h)
    requires h.action == PgEnsureRole ==> h.payload.roleId in roles
    ensures var (after, ok) := Execute(pg, h, secrets, fault); NamesTaken(RolesAfter(roles, h, ok), after, builtin)
  {
    var (after, ok) := Execute(pg, h, secrets, fault);
    if h.action == PgDropRole && ok {
      RemovedTaken(roles, pg, builtin, h.payload.roleId, h.payload.roleName);
    } else {
      forall n <- after | n !in builtin ensures NameTaken(RolesAfter(roles, h, ok), n) {
        assert NameTaken(roles, n);
        var x :| x in roles && roles[x].name == n;
        assert x in RolesAfter(roles, h, ok) && RolesAfter(roles, h, ok)[x].name == n;
      }
    }
  }

  lemma SettleNoOrphans(a: View, b: View, builtin: set<string>, fault: Fault)
    requires Sane(a) && NoOrphans(a, builtin) && SettlesRole(a, b, fault)
    ensures NoOrphans(b, builtin)
  {
    var h := a.backlog[0];
    assert SaneCommand(h, a.roles, a.next) && h in a.backlog;
    SettleTaken(a.roles, a.pg, builtin, h, a.secrets, fault, a.next);
  }

  /** The create is a retry of a failed row whose drop is still queued. */
  ghost predicate RetriesDuringDrop(s: System, e: Event) {
    e.CreateRoleEvent? && exists id <- s.store.roles ::
      s.store.roles[id].name == e.name && s.store.roles[id].status == RowFailed && DropPending(Backlog(s), id)
  }

  lemma ChangeNoOrphans(a: View, b: View, ch: RoleChange, fault: Fault, builtin: set<string>)
    requires Sane(a) && NoOrphans(a, builtin) && IsChange(a, b, ch, fault)
    requires a.own <= builtin && SKYLEX_ADMIN in builtin
    requires ch.Sets? && ch.command.action == PgEnsureRole && ch.id in a.roles ==> !DropPending(a.backlog, ch.id)
    ensures NoOrphans(b, builtin)
  {
    match ch
    case Unrelated =>
      forall name <- b.pg | name !in builtin ensures NameTaken(b.roles, name) {
        assert At(a.pg, name) == At(b.pg, name);
      }
    case Sets(id, row, c) =>
      if c.action == PgEnsureRole && id !in a.roles {
        NoDropOfNew(a.backlog, a.roles, a.next, id);
      }
      AppendNoOrphans(a, b, builtin, c);
    case Deletes(id, c) => AppendNoOrphans(a, b, builtin, c);
    case Appends(c) => AppendNoOrphans(a, b, builtin, c);
    case Replaces(f) => ReplaceNoOrphans(a, b, builtin, f);
    case Repeats =>
      assert SaneCommand(a.backlog[0], a.roles, a.next) && a.backlog[0] in a.backlog;
    case Settles => SettleNoOrphans(a, b, builtin, fault);
  }

  ghost predicate Careful(s: System, run: seq<Occurrence>) {
    forall k | 0 <= k < |run| :: !RetriesDuringDrop(Run(s, run[..k]), run[k].event)
  }

  lemma StepNoOrphans(s: System, o: Occurrence, builtin: set<string>)
    requires Reached(s) && NoOrphans(ViewOf(s), builtin) && !RetriesDuringDrop(s, o.event)
    requires OwnNames(s.accounts) <= builtin
    ensures NoOrphans(ViewOf(Step(s, o)), builtin)
  {
    StepReached(s, o);
    var ch := Classify(ViewOf(s), ViewOf(Step(s, o)), o.event);
    ChangeNoOrphans(ViewOf(s), ViewOf(Step(s, o)), ch, FaultOf(o.event), builtin);
  }

  lemma CarefulPrefix(s: System, run: seq<Occurrence>)
    requires run != [] && Careful(s, run)
    ensures Careful(s, run[..|run| - 1]) && !RetriesDuringDrop(Run(s, run[..|run| - 1]), run[|run| - 1].event)
  {
    var n := |run| - 1;
    forall k | 0 <= k < n ensures !RetriesDuringDrop(Run(s, run[..n][..k]), run[..n][k].event) {
      assert run[..n][..k] == run[..k];
    }
  }

  lemma {:induction false} RunNoOrphans(s: System, run: seq<Occurrence>)
    requires Initial(s) && Careful(s, run)
    ensures NoOrphans(ViewOf(Run(s, run)), Builtin(s))
  {
    if |run| == 0 {
      InitialBacklog(s);
    } else {
      CarefulPrefix(s, run);
      RunNoOrphans(s, run[..|run| - 1]);
      RunReached(s, run[..|run| - 1]);
      SameAccounts(s, run[..|run| - 1]);
      StepNoOrphans(Run(s, run[..|run| - 1]), run[|run| - 1], Builtin(s));
    }
  }

  /** Faults and lost reports leave no managed role in PostgreSQL without its row. */
  lemma EveryRoleHasItsRow(s: System, run: seq<Occurrence>, name: string)
    requires Initial(s) && Careful(s, run) && name in Run(s, run).pg && name !in Builtin(s)
    ensures NameTaken(Run(s, run).store.roles, name)
  {
    RunNoOrphans(s, run);
  }

  // ---- The condition is exact ----

  /** Agreement but for one row: whether its role is there, and what it is, is left open. */
  ghost predicate AgreesExcept(roles: map<Id, Role>, id: Id, m: seq<Command>, table: RoleTable, builtin: set<string>)
    requires id in roles
  {
    && (forall x <- roles | x != id :: !DropPending(m, x) ==> Served(roles[x], table))
    && forall name <- table :: name !in builtin && name != roles[id].name ==> Justified(roles, m, name)
  }

  /**
   Retrying a failed create brings the queue and the rows into agreement, whatever the failed
   attempt left in PostgreSQL, iff no drop of the role is pending.
   */
  lemma RetryAgreesIff(s: System, o: Occurrence, id: Id, builtin: set<string>)
    requires Reached(s) && o.event.CreateRoleEvent? && o.given.ready && o.event.name !in builtin
    requires id in s.store.roles && s.store.roles[id].name == o.event.name && s.store.roles[id].status == RowFailed
    requires var v := ViewOf(s); AgreesExcept(v.roles, id, v.backlog, Drained(v.backlog, v.secrets, v.pg), builtin)
    ensures var v := ViewOf(Step(s, o));
            Agrees(v.roles, v.backlog, Drained(v.backlog, v.secrets, v.pg), builtin) <==> !DropPending(Backlog(s), id)
  {
    var ch := RetryAccepted(s, o, id);
    var a, b := ViewOf(s), ViewOf(Step(s, o));
    if !DropPending(a.backlog, id) {
      RetryAgrees(a, b, builtin, id, ch.row, ch.command);
    } else {
      RetryStrays(a, b, builtin, id, ch.row, ch.command);
    }
  }

  lemma RetryAgrees(a: View, b: View, builtin: set<string>, id: Id, row: Role, c: Command)
    requires SetsPassword(a, b, id, row, c) && c.action == PgEnsureRole && UniqueNames(b.roles) && id in a.roles
    requires !DropPending(a.backlog, id)
    requires AgreesExcept(a.roles, id, a.backlog, Drained(a.backlog, a.secrets, a.pg), builtin)
    ensures Agrees(b.roles, b.backlog, Drained(b.backlog, b.secrets, b.pg), builtin)
  {
    var m, t, u := a.backlog, Drained(a.backlog, a.secrets, a.pg), Drained(b.backlog, b.secrets, b.pg);
    DrainedFrame(m, a.secrets, b.secrets, a.pg);
    DrainedSnoc(m, c, b.secrets, a.pg);
    SetTable(t, row, c, b.secrets);
    forall x <- b.roles | !DropPending(b.backlog, x) ensures Served(b.roles[x], u) {
      DropPendingSnoc(m, c, x);
      if x != id {
        assert Served(a.roles[x], t) && b.roles[id].name != b.roles[x].name;
        assert At(u, b.roles[x].name) == At(t, b.roles[x].name);
      }
    }
    forall name <- u | name !in builtin ensures Justified(b.roles, b.backlog, name) {
      DropPendingSnoc(m, c, id);
      assert b.roles[id].name == row.name;
      if name != row.name {
        assert At(u, name) == At(t, name);
        var x :| x in a.roles && a.roles[x].name == name && !DropPending(m, x);
        DropPendingSnoc(m, c, x);
        assert x in b.roles && b.roles[x].name == name;
      }
    }
  }

  /** An ordinary failed create, nothing of it in PostgreSQL and nothing pending: the retry is covered. */
  lemma FailedCreateIsExcepted(v: View, id: Id, builtin: set<string>)
    requires id in v.roles && v.backlog == [] && v.roles[id].name !in v.pg
    requires forall x <- v.roles | x != id :: Served(v.roles[x], v.pg)
    requires forall name <- v.pg | name !in builtin :: NameTaken(v.roles, name)
    ensures AgreesExcept(v.roles, id, v.backlog, Drained(v.backlog, v.secrets, v.pg), builtin)
    ensures !Agrees(v.roles, v.backlog, Drained(v.backlog, v.secrets, v.pg), builtin)
  {
    assert forall x :: !DropPending(v.backlog, x);
    assert !Served(v.roles[id], v.pg);
  }

  lemma RetryStrays(a: View, b: View, builtin: set<string>, id: Id, row: Role, c: Command)
    requires SetsPassword(a, b, id, row, c) && c.action == PgEnsureRole && UniqueNames(b.roles)
    requires id in a.roles && row.name !in builtin && DropPending(a.backlog, id)
    ensures !Agrees(b.roles, b.backlog, Drained(b.backlog, b.secrets, b.pg), builtin)
  {
    var t := Drained(a.backlog, b.secrets, b.pg);
    DrainedSnoc(a.backlog, c, b.secrets, b.pg);
    SetTable(t, row, c, b.secrets);
    DropPendingSnoc(a.backlog, c, id);
    assert At(Drained(b.backlog, b.secrets, b.pg), row.name).Some?;
    assert b.roles[id].name == row.name;
    assert forall x <- b.roles :: b.roles[x].name == row.name ==> x == id;
  }

  /** A create on a failed row of the same name is accepted as a retry. */
  lemma RetryAccepted(s: System, o: Occurrence, id: Id) returns (ch: RoleChange)
    requires Reached(s) && o.event.CreateRoleEvent? && o.given.ready
    requires id in s.store.roles && s.store.roles[id].name == o.event.name && s.store.roles[id].status == RowFailed
    ensures Reached(Step(s, o)) && ch.Sets? && ch.id == id && ch.command.action == PgEnsureRole
    ensures SetsPassword(ViewOf(s), ViewOf(Step(s, o)), id, ch.row, ch.command)
    ensures ch.row.name == o.event.name
  {
    StepReached(s, o);
    RetryMoves(s, o, id);
    ch := ClassifyCreate(ViewOf(s), ViewOf(Step(s, o)), o.event.name, o.event.kind, o.event.password);
    assert ch.row.name == o.event.name;
    assert NameTaken(s.store.roles, o.event.name);
    assert ch.id == id;
  }

  lemma RetryMoves(s: System, o: Occurrence, id: Id)
    requires Reached(s) && o.event.CreateRoleEvent? && o.given.ready
    requires id in s.store.roles && s.store.roles[id].name == o.event.name && s.store.roles[id].status == RowFailed
    ensures |Backlog(Step(s, o))| == |Backlog(s)| + 1
  {
    CreateRoleAccepted(s, o.event.name, o.event.kind, o.event.password, o.given);
    StepRequested(s, o);
  }

  // ---- The attribute ----

  /** A retry that changes the kind of its failed row. */
  ghost predicate ChangesKind(s: System, e: Event) {
    e.CreateRoleEvent? && exists id <- s.store.roles ::
      s.store.roles[id].name == e.name && s.store.roles[id].status == RowFailed && s.store.roles[id].kind != e.kind
  }

  ghost predicate KindsKept(s: System, run: seq<Occurrence>) {
    forall k | 0 <= k < |run| :: !ChangesKind(Run(s, run[..k]), run[k].event)
  }

  /** A row's role, where it exists, has the row's attribute, and its pending creations have the row's kind. */
  ghost predicate RightKind(v: View, id: Id)
    requires id in v.roles
  {
    var row := v.roles[id];
    && (row.name in v.pg ==> v.pg[row.name].superuser == (row.kind == Admin))
    && forall c <- v.backlog :: Creates(c, id) ==> c.payload.roleKind == row.kind
  }

  ghost predicate RightKinds(v: View, builtin: set<string>) {
    forall id <- v.roles | v.roles[id].name !in builtin :: RightKind(v, id)
  }

  lemma SetsRightKinds(a: View, b: View, builtin: set<string>, id: Id, row: Role, c: Command)
    requires Sane(a) && Sane(b) && RightKinds(a, builtin) && NoOrphans(a, builtin) && SetsPassword(a, b, id, row, c)
    requires id in a.roles ==> row.kind == a.roles[id].kind
    ensures RightKinds(b, builtin)
  {
    forall x <- b.roles | b.roles[x].name !in builtin ensures RightKind(b, x) {
      if x in a.roles {
        assert RightKind(a, x);
      } else {
        forall d <- a.backlog ensures !Creates(d, x) {
          assert SaneCommand(d, a.roles, a.next);
        }
      }
    }
  }

  lemma KeptRightKinds(a: View, b: View, builtin: set<string>)
    requires RightKinds(a, builtin)
    requires forall id <- b.roles :: id in a.roles && b.roles[id].name == a.roles[id].name
                                     && b.roles[id].kind == a.roles[id].kind
    requires forall c <- b.backlog :: c in a.backlog || !IsRole(c) || c.action == PgDropRole
    requires forall id <- b.roles | b.roles[id].name !in builtin ::
               var name := b.roles[id].name;
               name in b.pg ==> b.pg[name].superuser == (b.roles[id].kind == Admin)
    ensures RightKinds(b, builtin)
  {
    forall id <- b.roles | b.roles[id].name !in builtin ensures RightKind(b, id) {
      assert RightKind(a, id);
    }
  }

  /** Running a command keeps the attribute of every row's role right. */
  lemma ExecutedRightKind(a: View, h: Command, fault: Fault, builtin: set<string>, id: Id)
    requires Sane(a) && RightKinds(a, builtin) && NoOrphans(a, builtin) && h in a.backlog
    requires id in a.roles && a.roles[id].name !in builtin
    ensures var after, name := Execute(a.pg, h, a.secrets, fault).0, a.roles[id].name;
            name in after ==> after[name].superuser == (a.roles[id].kind == Admin)
  {
    assert RightKind(a, id) && SaneCommand(h, a.roles, a.next);
    if !IsRole(h) {
      ManagedPayload(h);
      ExecuteDatabase(a.pg, h, a.secrets, fault);
    }
  }

  /** No change but a create, retry or rotation touches names or kinds, or queues more than drops. */
  lemma KindsStay(a: View, b: View, ch: RoleChange, fault: Fault)
    requires IsChange(a, b, ch, fault) && !ch.Sets?
    ensures forall id <- b.roles :: id in a.roles && b.roles[id].name == a.roles[id].name
                                    && b.roles[id].kind == a.roles[id].kind
    ensures forall c <- b.backlog :: c in a.backlog || !IsRole(c) || c.action == PgDropRole
  {
  }

  lemma ChangedTable(a: View, b: View, ch: RoleChange, fault: Fault, builtin: set<string>, id: Id)
    requires Sane(a) && RightKinds(a, builtin) && NoOrphans(a, builtin) && IsChange(a, b, ch, fault) && !ch.Sets?
    requires a.own <= builtin && SKYLEX_ADMIN in builtin && id in a.roles && a.roles[id].name !in builtin
    ensures var name := a.roles[id].name; name in b.pg ==> b.pg[name].superuser == (a.roles[id].kind == Admin)
  {
    assert RightKind(a, id);
    if ch.Repeats? || ch.Settles? {
      assert a.backlog[0] in a.backlog;
      ExecutedRightKind(a, a.backlog[0], fault, builtin, id);
    } else if ch.Unrelated? {
      assert At(b.pg, a.roles[id].name) == At(a.pg, a.roles[id].name);
    }
  }

  lemma ChangeRightKinds(a: View, b: View, ch: RoleChange, fault: Fault, builtin: set<string>)
    requires Sane(a) && Sane(b) && RightKinds(a, builtin) && NoOrphans(a, builtin) && IsChange(a, b, ch, fault)
    requires a.own <= builtin && SKYLEX_ADMIN in builtin
    requires ch.Sets? && ch.id in a.roles ==> ch.row.kind == a.roles[ch.id].kind
    ensures RightKinds(b, builtin)
  {
    if ch.Sets? {
      SetsRightKinds(a, b, builtin, ch.id, ch.row, ch.command);
    } else {
      KindsStay(a, b, ch, fault);
      forall id <- b.roles | b.roles[id].name !in builtin
        ensures var name := b.roles[id].name; name in b.pg ==> b.pg[name].superuser == (b.roles[id].kind == Admin)
      {
        ChangedTable(a, b, ch, fault, builtin, id);
      }
      KeptRightKinds(a, b, builtin);
    }
  }

  lemma StepRightKinds(s: System, o: Occurrence, builtin: set<string>)
    requires Reached(s) && RightKinds(ViewOf(s), builtin) && NoOrphans(ViewOf(s), builtin)
    requires OwnNames(s.accounts) <= builtin && !ChangesKind(s, o.event)
    ensures RightKinds(ViewOf(Step(s, o)), builtin)
  {
    StepReached(s, o);
    var a, b := ViewOf(s), ViewOf(Step(s, o));
    var ch := Classify(a, b, o.event);
    if ch.Sets? && ch.id in a.roles && ch.command.action == PgEnsureRole {
      SameKind(a, b, ch, o.event);
    }
    ChangeRightKinds(a, b, ch, FaultOf(o.event), builtin);
  }

  lemma SameKind(a: View, b: View, ch: RoleChange, e: Event)
    requires ch.Sets? && ch.id in a.roles && IsChange(a, b, ch, NoFault) && ch.command.action == PgEnsureRole
    requires e.CreateRoleEvent? && Moved(a, b, e) && ch.row.name == e.name
    requires forall id <- a.roles :: a.roles[id].name == e.name && a.roles[id].status == RowFailed
                                     ==> a.roles[id].kind == e.kind
    ensures ch.row.kind == a.roles[ch.id].kind
  {
  }

  lemma {:induction false} RunRightKinds(s: System, run: seq<Occurrence>)
    requires Initial(s) && Careful(s, run) && KindsKept(s, run)
    ensures RightKinds(ViewOf(Run(s, run)), Builtin(s))
  {
    if |run| > 0 {
      var n := |run| - 1;
      CarefulPrefix(s, run);
      forall k | 0 <= k < n ensures !ChangesKind(Run(s, run[..n][..k]), run[..n][k].event) {
        assert run[..n][..k] == run[..k];
      }
      RunRightKinds(s, run[..n]);
      RunNoOrphans(s, run[..n]);
      RunReached(s, run[..n]);
      SameAccounts(s, run[..n]);
      StepRightKinds(Run(s, run[..n]), run[n], Builtin(s));
    }
  }

  /**
   In every run in which no retry changes a kind or stands behind its own pending drop, faults
   included: what PostgreSQL has under a row's name has the row's attribute.
   */
  lemma AttributeServed(s: System, run: seq<Occurrence>, id: Id)
    requires Initial(s) && Careful(s, run) && KindsKept(s, run)
    requires id in Run(s, run).store.roles && Run(s, run).store.roles[id].name !in Builtin(s)
    ensures var e := Run(s, run); var row := e.store.roles[id];
            row.name in e.pg ==> e.pg[row.name].superuser == (row.kind == Admin)
  {
    RunRightKinds(s, run);
    assert RightKind(ViewOf(Run(s, run)), id);
  }

  /**
   A creation that fails anywhere and a rotation that then succeeds make the row ready. The
   attribute is right whatever the fault iff the name is new to PostgreSQL or has it already.
   */
  lemma AttributeRightIff(pg: RoleTable, name: string, kind: RoleKind, first: Secret, second: Secret)
    ensures (forall fault :: var t := Ensured(pg, name, kind, first, fault);
                             name in t ==> Rotated(t, name, second, NoFault)[name].superuser == (kind == Admin))
            <==> name !in pg || pg[name].superuser == (kind == Admin)
  {
    assert Ensured(pg, name, kind, first, Early) == pg;
  }

  /** An administrator's failed row taken over as an ordinary role: the failed statement left the attribute. */
  lemma AttributeWrong()
    ensures var pg: RoleTable := map["app" := PgRole(true, Some(1))];
            Rotated(Ensured(pg, "app", Custom, 2, Early), "app", 3, NoFault) == map["app" := PgRole(true, Some(3))]
  {
  }
}
