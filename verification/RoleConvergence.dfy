/**
 What the pending role commands still owe PostgreSQL. `Drained` is the role table after
 every pending command has run without fault; convergence says that it agrees with the
 stored rows, whatever part of the queue has already been executed.
 */
module RoleConvergence {
  import opened Wrappers
  import opened Commands
  import opened Metadata
  import opened ManagedRoleRepo
  import opened ManagementService
  import opened PostgresRoles
  import opened AgentProtocol
  import opened ControlLoop
  import opened ControlView
  import opened RoleChanges

  function Drained(m: seq<Command>, secrets: map<Id, Secrets>, pg: RoleTable): RoleTable {
    if |m| == 0 then pg
    else Execute(Drained(m[..|m| - 1], secrets, pg), m[|m| - 1], secrets, NoFault).0
  }

  predicate DropPending(m: seq<Command>, roleId: Id) {
    exists c <- m :: About(c, roleId) && c.action == PgDropRole
  }

  /** The role a row stands for. */
  function Wanted(r: Role): PgRole {
    PgRole(r.kind == Admin, Some(r.password))
  }

  predicate Served(r: Role, table: RoleTable) {
    r.name in table && table[r.name] == Wanted(r)
  }

  ghost predicate RowsServed(roles: map<Id, Role>, m: seq<Command>, table: RoleTable) {
    forall id <- roles :: !DropPending(m, id) ==> Served(roles[id], table)
  }

  ghost predicate Justified(roles: map<Id, Role>, m: seq<Command>, name: string) {
    exists id <- roles :: roles[id].name == name && !DropPending(m, id)
  }

  ghost predicate NamesJustified(roles: map<Id, Role>, m: seq<Command>, table: RoleTable, builtin: set<string>) {
    forall name <- table :: name !in builtin ==> Justified(roles, m, name)
  }

  /** Every row without a pending drop is served as stored; outside the built-in names nothing else is there. */
  ghost predicate Agrees(roles: map<Id, Role>, m: seq<Command>, table: RoleTable, builtin: set<string>) {
    RowsServed(roles, m, table) && NamesJustified(roles, m, table, builtin)
  }

  // ---- Draining ----

  lemma {:induction false} DrainedHead(m: seq<Command>, secrets: map<Id, Secrets>, pg: RoleTable)
    requires m != []
    ensures Drained(m, secrets, pg) == Drained(m[1..], secrets, Execute(pg, m[0], secrets, NoFault).0)
  {
    var n := |m| - 1;
    if n > 0 {
      DrainedHead(m[..n], secrets, pg);
      assert m[..n][1..] == m[1..][..n - 1];
    }
  }

  /** Execution touches a name in a way that depends on nothing else in the table. */
  lemma ExecutePointwise(c: Command, secrets: map<Id, Secrets>, a: RoleTable, b: RoleTable, name: string)
    requires At(a, name) == At(b, name)
    ensures At(Execute(a, c, secrets, NoFault).0, name) == At(Execute(b, c, secrets, NoFault).0, name)
  {
  }

  lemma {:induction false} DrainedPointwise(m: seq<Command>, secrets: map<Id, Secrets>, a: RoleTable, b: RoleTable,
                                            name: string)
    requires At(a, name) == At(b, name)
    ensures At(Drained(m, secrets, a), name) == At(Drained(m, secrets, b), name)
  {
    if |m| > 0 {
      var n := |m| - 1;
      DrainedPointwise(m[..n], secrets, a, b, name);
      ExecutePointwise(m[n], secrets, Drained(m[..n], secrets, a), Drained(m[..n], secrets, b), name);
    }
  }

  lemma {:induction false} DrainedFrame(m: seq<Command>, a: map<Id, Secrets>, b: map<Id, Secrets>, pg: RoleTable)
    requires SameSecrets(m, a, b)
    ensures Drained(m, a, pg) == Drained(m, b, pg)
  {
    if |m| > 0 {
      var n := |m| - 1;
      assert SameSecrets(m[..n], a, b);
      DrainedFrame(m[..n], a, b, pg);
    }
  }

  lemma DrainedSnoc(m: seq<Command>, c: Command, secrets: map<Id, Secrets>, pg: RoleTable)
    ensures Drained(m + [c], secrets, pg) == Execute(Drained(m, secrets, pg), c, secrets, NoFault).0
  {
  }

  /** A command that ran but whose report was lost may run again without changing the outcome. */
  lemma RerunHarmless(m: seq<Command>, secrets: map<Id, Secrets>, pg: RoleTable)
    requires m != []
    ensures Drained(m, secrets, Execute(pg, m[0], secrets, NoFault).0) == Drained(m, secrets, pg)
  {
    DrainedHead(m, secrets, Execute(pg, m[0], secrets, NoFault).0);
    DrainedHead(m, secrets, pg);
  }

  lemma DropPendingSnoc(m: seq<Command>, c: Command, id: Id)
    ensures DropPending(m + [c], id) <==> DropPending(m, id) || (About(c, id) && c.action == PgDropRole)
  {
  }

  lemma DropPendingTail(m: seq<Command>, id: Id)
    requires m != []
    ensures DropPending(m, id) <==> DropPending(m[1..], id) || (About(m[0], id) && m[0].action == PgDropRole)
  {
  }

  // ---- Agreement, one command at a time ----

  /** A role command that sets a password: what it turns a drained table into. */
  ghost predicate SetTo(t: RoleTable, u: RoleTable, row: Role, c: Command) {
    && (forall n | n != row.name :: At(u, n) == At(t, n))
    && if c.action == PgEnsureRole then At(u, row.name) == Some(Wanted(row))
       else At(u, row.name) == if row.name in t then Some(t[row.name].(password := Some(row.password))) else None
  }

  /** The row before and after: the same name, and for a rotation the same kind. */
  ghost predicate RowChange(roles: map<Id, Role>, m: seq<Command>, id: Id, row: Role, c: Command) {
    && About(c, id) && UniqueNames(roles[id := row]) && (id in roles ==> roles[id].name == row.name)
    && if c.action == PgEnsureRole then !DropPending(m, id)
       else c.action == PgRotateRolePassword && id in roles && row.kind == roles[id].kind
  }

  lemma SetKeepsRows(roles: map<Id, Role>, m: seq<Command>, t: RoleTable, u: RoleTable, id: Id, row: Role, c: Command)
    requires RowsServed(roles, m, t) && RowChange(roles, m, id, row, c) && SetTo(t, u, row, c)
    ensures RowsServed(roles[id := row], m + [c], u)
  {
    var rows := roles[id := row];
    forall x <- rows | !DropPending(m + [c], x) ensures Served(rows[x], u) {
      DropPendingSnoc(m, c, x);
      if x == id {
        assert id in roles ==> Served(roles[id], t);
      } else {
        assert Served(roles[x], t);
        assert rows[id].name != rows[x].name;
        assert At(u, rows[x].name) == At(t, rows[x].name);
      }
    }
  }

  lemma SetKeepsNames(roles: map<Id, Role>, m: seq<Command>, t: RoleTable, u: RoleTable, builtin: set<string>,
                      id: Id, row: Role, c: Command)
    requires NamesJustified(roles, m, t, builtin) && RowChange(roles, m, id, row, c) && SetTo(t, u, row, c)
    ensures NamesJustified(roles[id := row], m + [c], u, builtin)
  {
    var rows := roles[id := row];
    forall name <- u | name !in builtin ensures Justified(rows, m + [c], name) {
      if name == row.name && c.action == PgEnsureRole {
        DropPendingSnoc(m, c, id);
        assert rows[id].name == name;
      } else {
        assert At(u, name).Some? && name in t;
        var x :| x in roles && roles[x].name == name && !DropPending(m, x);
        DropPendingSnoc(m, c, x);
        assert x in rows && rows[x].name == name;
      }
    }
  }

  lemma DropKeepsAgreement(roles: map<Id, Role>, m: seq<Command>, t: RoleTable, builtin: set<string>,
                           id: Id, row: Role, c: Command)
    requires Agrees(roles, m, t, builtin) && UniqueNames(roles)
    requires id in roles && row.name == roles[id].name && About(c, id) && c.action == PgDropRole
    ensures Agrees(roles[id := row], m + [c], t - {row.name}, builtin)
  {
    var rows, u := roles[id := row], t - {row.name};
    forall x <- rows | !DropPending(m + [c], x) ensures Served(rows[x], u) {
      DropPendingSnoc(m, c, x);
      assert Served(roles[x], t);
    }
    forall name <- u | name !in builtin ensures Justified(rows, m + [c], name) {
      assert Justified(roles, m, name);
      var x :| x in roles && roles[x].name == name && !DropPending(m, x);
      DropPendingSnoc(m, c, x);
      assert x in rows && rows[x].name == name;
    }
  }

  /** The head was handled: its row is gone if it was a drop, and keeps name, kind and password otherwise. */
  lemma SettleKeepsAgreement(roles: map<Id, Role>, m: seq<Command>, t: RoleTable, builtin: set<string>, ok: bool)
    requires Agrees(roles, m, t, builtin) && m != [] && IsRole(m[0]) && (m[0].action == PgDropRole ==> ok)
    ensures Agrees(RolesAfter(roles, m[0], ok), m[1..], t, builtin)
  {
    var rows := RolesAfter(roles, m[0], ok);
    forall x <- rows | !DropPending(m[1..], x) ensures Served(rows[x], t) {
      DropPendingTail(m, x);
      assert Served(roles[x], t);
    }
    forall name <- t | name !in builtin ensures Justified(rows, m[1..], name) {
      assert Justified(roles, m, name);
      var x :| x in roles && roles[x].name == name && !DropPending(m, x);
      DropPendingTail(m, x);
      assert x in rows && rows[x].name == name;
    }
  }

  // ---- Rotations find their role ----

  /** The k-th pending command, if a rotation of a row not dropped before it, will find the role. */
  ghost predicate FindsRole(roles: map<Id, Role>, m: seq<Command>, secrets: map<Id, Secrets>, pg: RoleTable, k: nat)
    requires k < |m|
  {
    IsRole(m[k]) && m[k].action == PgRotateRolePassword && m[k].payload.roleId in roles
    && !DropPending(m[..k], m[k].payload.roleId)
    ==> m[k].payload.roleName in Drained(m[..k], secrets, pg)
  }

  ghost predicate Rotatable(roles: map<Id, Role>, m: seq<Command>, secrets: map<Id, Secrets>, pg: RoleTable) {
    forall k | 0 <= k < |m| :: FindsRole(roles, m, secrets, pg, k)
  }

  ghost predicate Keyed(m: seq<Command>, secrets: map<Id, Secrets>) {
    forall c <- m :: IsRole(c) && c.action != PgDropRole ==> SecretsOf(secrets, c.id).password.Some?
  }

  lemma RotatableAppend(roles: map<Id, Role>, m: seq<Command>, a: map<Id, Secrets>, b: map<Id, Secrets>, pg: RoleTable,
                        rows: map<Id, Role>, c: Command)
    requires Rotatable(roles, m, a, pg) && SameSecrets(m, a, b)
    requires forall x <- m :: IsRole(x) && x.payload.roleId in rows ==> x.payload.roleId in roles
    requires IsRole(c) && c.action == PgRotateRolePassword && !DropPending(m, c.payload.roleId)
             ==> c.payload.roleName in Drained(m, b, pg)
    ensures Rotatable(rows, m + [c], b, pg)
  {
    forall k | 0 <= k < |m| + 1 ensures FindsRole(rows, m + [c], b, pg, k) {
      assert (m + [c])[..k] == m[..k];
      if k < |m| {
        assert FindsRole(roles, m, a, pg, k);
        assert SameSecrets(m[..k], a, b);
        DrainedFrame(m[..k], a, b, pg);
      } else {
        assert m[..k] == m;
      }
    }
  }

  lemma RotatablePop(roles: map<Id, Role>, m: seq<Command>, a: map<Id, Secrets>, b: map<Id, Secrets>, pg: RoleTable,
                     rows: map<Id, Role>)
    requires Rotatable(roles, m, a, pg) && m != [] && SameSecrets(m[1..], a, b)
    requires forall id <- rows :: id in roles && (About(m[0], id) ==> m[0].action != PgDropRole)
    ensures Rotatable(rows, m[1..], b, Execute(pg, m[0], a, NoFault).0)
  {
    var after := Execute(pg, m[0], a, NoFault).0;
    forall k | 0 <= k < |m| - 1 ensures FindsRole(rows, m[1..], b, after, k) {
      assert FindsRole(roles, m, a, pg, k + 1);
      assert m[..k + 1][1..] == m[1..][..k];
      DrainedHead(m[..k + 1], a, pg);
      assert SameSecrets(m[1..][..k], a, b);
      DrainedFrame(m[1..][..k], a, b, after);
      if IsRole(m[k + 1]) {
        DropPendingTail(m[..k + 1], m[k + 1].payload.roleId);
      }
    }
  }

  lemma RotatableRepeat(roles: map<Id, Role>, m: seq<Command>, secrets: map<Id, Secrets>, pg: RoleTable)
    requires Rotatable(roles, m, secrets, pg) && m != []
    ensures Rotatable(roles, m, secrets, Execute(pg, m[0], secrets, NoFault).0)
  {
    forall k | 0 <= k < |m| ensures FindsRole(roles, m, secrets, Execute(pg, m[0], secrets, NoFault).0, k) {
      assert FindsRole(roles, m, secrets, pg, k);
      if k > 0 {
        assert m[..k][0] == m[0];
        RerunHarmless(m[..k], secrets, pg);
      }
    }
  }

  lemma {:induction false} DrainedMonotone(m: seq<Command>, secrets: map<Id, Secrets>, a: RoleTable, b: RoleTable,
                                           name: string)
    requires name in a ==> name in b
    ensures name in Drained(m, secrets, a) ==> name in Drained(m, secrets, b)
  {
    if |m| > 0 {
      DrainedMonotone(m[..|m| - 1], secrets, a, b, name);
    }
  }

  lemma RotatableAdmin(roles: map<Id, Role>, m: seq<Command>, a: map<Id, Secrets>, b: map<Id, Secrets>, pg: RoleTable,
                       after: RoleTable)
    requires Rotatable(roles, m, a, pg) && SameSecrets(m, a, b)
    requires forall name <- pg :: name in after
    ensures Rotatable(roles, m, b, after)
  {
    forall k | 0 <= k < |m| ensures FindsRole(roles, m, b, after, k) {
      assert FindsRole(roles, m, a, pg, k);
      assert SameSecrets(m[..k], a, b);
      DrainedFrame(m[..k], a, b, pg);
      if IsRole(m[k]) {
        DrainedMonotone(m[..k], b, pg, after, m[k].payload.roleName);
      }
    }
  }

  // ---- The invariant of faultless runs ----

  ghost predicate NoneFailed(roles: map<Id, Role>) {
    forall id <- roles :: roles[id].status != RowFailed
  }

  ghost predicate Converging(v: View, builtin: set<string>) {
    && Agrees(v.roles, v.backlog, Drained(v.backlog, v.secrets, v.pg), builtin)
    && Rotatable(v.roles, v.backlog, v.secrets, v.pg)
    && Keyed(v.backlog, v.secrets) && NoneFailed(v.roles)
  }

  lemma NoDropOfNew(m: seq<Command>, roles: map<Id, Role>, next: Id, id: Id)
    requires SaneBacklog(m, roles, next) && next <= id
    ensures !DropPending(m, id)
  {
  }

  lemma KeyedAppend(m: seq<Command>, a: map<Id, Secrets>, b: map<Id, Secrets>, c: Command)
    requires Keyed(m, a) && SameSecrets(m, a, b)
    requires IsRole(c) && c.action != PgDropRole ==> SecretsOf(b, c.id).password.Some?
    ensures Keyed(m + [c], b)
  {
  }

  lemma SetTable(t: RoleTable, row: Role, c: Command, secrets: map<Id, Secrets>)
    requires IsRole(c) && c.payload.roleName == row.name && SecretsOf(secrets, c.id).password == Some(row.password)
    requires (c.action == PgEnsureRole && c.payload.roleKind == row.kind) || c.action == PgRotateRolePassword
    ensures SetTo(t, Execute(t, c, secrets, NoFault).0, row, c)
  {
  }

  /** An accepted create, retry or rotation keeps agreement unless it retries a role whose drop is pending. */
  lemma SetAgrees(a: View, b: View, builtin: set<string>, id: Id, row: Role, c: Command)
    requires Agrees(a.roles, a.backlog, Drained(a.backlog, a.secrets, a.pg), builtin)
    requires SetsPassword(a, b, id, row, c) && UniqueNames(b.roles)
    requires c.action == PgEnsureRole ==> !DropPending(a.backlog, id)
    ensures Agrees(b.roles, b.backlog, Drained(b.backlog, b.secrets, b.pg), builtin)
  {
    var m, t, u := a.backlog, Drained(a.backlog, a.secrets, a.pg), Drained(b.backlog, b.secrets, b.pg);
    DrainedFrame(m, a.secrets, b.secrets, a.pg);
    DrainedSnoc(m, c, b.secrets, a.pg);
    SetTable(t, row, c, b.secrets);
    SetKeepsRows(a.roles, m, t, u, id, row, c);
    SetKeepsNames(a.roles, m, t, u, builtin, id, row, c);
  }

  lemma SetRotatable(a: View, b: View, id: Id, row: Role, c: Command)
    requires Sane(a) && SetsPassword(a, b, id, row, c) && Rotatable(a.roles, a.backlog, a.secrets, a.pg)
    requires RowsServed(a.roles, a.backlog, Drained(a.backlog, a.secrets, a.pg))
    ensures Rotatable(b.roles, b.backlog, b.secrets, b.pg)
  {
    forall x <- a.backlog ensures IsRole(x) && x.payload.roleId in b.roles ==> x.payload.roleId in a.roles {
      assert SaneCommand(x, a.roles, a.next);
    }
    DrainedFrame(a.backlog, a.secrets, b.secrets, a.pg);
    if c.action == PgRotateRolePassword && !DropPending(a.backlog, id) {
      assert Served(a.roles[id], Drained(a.backlog, a.secrets, a.pg));
    }
    RotatableAppend(a.roles, a.backlog, a.secrets, b.secrets, a.pg, b.roles, c);
  }

  lemma SetConverges(a: View, b: View, builtin: set<string>, id: Id, row: Role, c: Command)
    requires Sane(a) && Sane(b) && Converging(a, builtin) && SetsPassword(a, b, id, row, c)
    ensures Converging(b, builtin)
  {
    if c.action == PgEnsureRole {
      assert id !in a.roles;
      NoDropOfNew(a.backlog, a.roles, a.next, id);
    }
    SetAgrees(a, b, builtin, id, row, c);
    SetRotatable(a, b, id, row, c);
    KeyedAppend(a.backlog, a.secrets, b.secrets, c);
  }

  lemma DeleteConverges(a: View, b: View, builtin: set<string>, id: Id, c: Command)
    requires Sane(a) && Converging(a, builtin) && StartsDelete(a, b, id, c)
    ensures Converging(b, builtin)
  {
    DrainedFrame(a.backlog, a.secrets, b.secrets, a.pg);
    DrainedSnoc(a.backlog, c, b.secrets, a.pg);
    DropKeepsAgreement(a.roles, a.backlog, Drained(a.backlog, a.secrets, a.pg), builtin, id, b.roles[id], c);
    RotatableAppend(a.roles, a.backlog, a.secrets, b.secrets, a.pg, b.roles, c);
    KeyedAppend(a.backlog, a.secrets, b.secrets, c);
  }

  lemma AppendConverges(a: View, b: View, builtin: set<string>, c: Command)
    requires Sane(b) && Converging(a, builtin) && AppendsOther(a, b, c)
    ensures Converging(b, builtin)
  {
    assert SaneCommand(c, b.roles, b.next);
    var t := Drained(a.backlog, a.secrets, a.pg);
    DrainedFrame(a.backlog, a.secrets, b.secrets, a.pg);
    DrainedSnoc(a.backlog, c, b.secrets, a.pg);
    ExecuteDatabase(t, c, b.secrets, NoFault);
    forall id ensures DropPending(b.backlog, id) == DropPending(a.backlog, id) {
      DropPendingSnoc(a.backlog, c, id);
    }
    RotatableAppend(a.roles, a.backlog, a.secrets, b.secrets, a.pg, b.roles, c);
    KeyedAppend(a.backlog, a.secrets, b.secrets, c);
  }

  lemma PopConverges(a: View, b: View, builtin: set<string>)
    requires Sane(a) && Converging(a, builtin) && ReplacesOther(a, b, None)
    ensures Converging(b, builtin)
  {
    var m := a.backlog;
    assert SaneCommand(m[0], a.roles, a.next);
    ExecuteDatabase(a.pg, m[0], a.secrets, NoFault);
    DrainedHead(m, a.secrets, a.pg);
    DrainedFrame(m[1..], a.secrets, b.secrets, a.pg);
    forall id ensures DropPending(b.backlog, id) == DropPending(m, id) {
      DropPendingTail(m, id);
    }
    assert b.backlog == m[1..];
    RotatablePop(a.roles, m, a.secrets, b.secrets, a.pg, b.roles);
  }

  lemma ReplaceConverges(a: View, b: View, builtin: set<string>, f: Option<Command>)
    requires Sane(a) && Sane(b) && Converging(a, builtin) && ReplacesOther(a, b, f)
    ensures Converging(b, builtin)
  {
    var mid := b.(backlog := a.backlog[1..]);
    PopConverges(a, mid, builtin);
    if f.Some? {
      AppendConverges(mid, b, builtin, f.value);
    }
  }

  /** Without faults only a rotation can fail, and only when its row is already gone. */
  lemma FaultlessOutcome(a: View)
    requires a.backlog != [] && IsRole(a.backlog[0])
    requires Rotatable(a.roles, a.backlog, a.secrets, a.pg) && Keyed(a.backlog, a.secrets)
    ensures var ok := Execute(a.pg, a.backlog[0], a.secrets, NoFault).1;
            ok || (a.backlog[0].action == PgRotateRolePassword && a.backlog[0].payload.roleId !in a.roles)
  {
    assert FindsRole(a.roles, a.backlog, a.secrets, a.pg, 0);
    assert a.backlog[..0] == [];
    assert a.backlog[0] in a.backlog;
  }

  lemma SettleConverges(a: View, b: View, builtin: set<string>)
    requires Converging(a, builtin) && SettlesRole(a, b, NoFault)
    ensures Converging(b, builtin)
  {
    var m := a.backlog;
    var ok := Execute(a.pg, m[0], a.secrets, NoFault).1;
    FaultlessOutcome(a);
    DrainedHead(m, a.secrets, a.pg);
    DrainedFrame(m[1..], a.secrets, b.secrets, b.pg);
    SettleKeepsAgreement(a.roles, m, Drained(m, a.secrets, a.pg), builtin, ok);
    RotatablePop(a.roles, m, a.secrets, b.secrets, a.pg, b.roles);
  }

  /** A role command that, when it runs, decides what its name stands for, whatever was there before. */
  predicate Decides(c: Command, secrets: map<Id, Secrets>, name: string) {
    c.action == PgEnsureRole && c.payload.RolePayload? && c.payload.roleName == name
    && SecretsOf(secrets, c.id).password.Some?
  }

  /** What was at a name before does not matter if a pending creation decides it. */
  lemma {:induction false} DrainedDecided(m: seq<Command>, secrets: map<Id, Secrets>, a: RoleTable, b: RoleTable,
                                          name: string)
    requires exists c <- m :: Decides(c, secrets, name)
    ensures At(Drained(m, secrets, a), name) == At(Drained(m, secrets, b), name)
  {
    var n := |m| - 1;
    var t, u := Drained(m[..n], secrets, a), Drained(m[..n], secrets, b);
    if !Decides(m[n], secrets, name) {
      var c :| c in m && Decides(c, secrets, name);
      assert c in m[..n];
      DrainedDecided(m[..n], secrets, a, b, name);
      ExecutePointwise(m[n], secrets, t, u, name);
    }
  }

  /** ... nor if nothing was there and draining makes it: only a creation does that. */
  lemma {:induction false} DrainedFilled(m: seq<Command>, secrets: map<Id, Secrets>, a: RoleTable, b: RoleTable,
                                         name: string)
    requires name !in a && name in Drained(m, secrets, a)
    ensures At(Drained(m, secrets, a), name) == At(Drained(m, secrets, b), name)
  {
    var n := |m| - 1;
    if name in Drained(m[..n], secrets, a) {
      DrainedFilled(m[..n], secrets, a, b, name);
      ExecutePointwise(m[n], secrets, Drained(m[..n], secrets, a), Drained(m[..n], secrets, b), name);
    }
  }

  /** The name of a row drains to the same role after a calm step. */
  lemma CalmRow(a: View, b: View, id: Id)
    requires Sane(a) && Calm(a, b) && Keyed(a.backlog, a.secrets) && id in a.roles
    requires a.roles[id].name in Drained(a.backlog, a.secrets, a.pg)
    ensures var name := a.roles[id].name;
            At(Drained(a.backlog, a.secrets, b.pg), name) == At(Drained(a.backlog, a.secrets, a.pg), name)
  {
    var m, name := a.backlog, a.roles[id].name;
    if At(b.pg, name) == At(a.pg, name) {
      DrainedPointwise(m, a.secrets, a.pg, b.pg, name);
    } else if At(a.pg, name).None? {
      DrainedFilled(m, a.secrets, a.pg, b.pg, name);
    } else {
      var c :| c in m && Creates(c, id);
      assert SaneCommand(c, a.roles, a.next) && Decides(c, a.secrets, name);
      DrainedDecided(m, a.secrets, a.pg, b.pg, name);
    }
  }

  lemma CalmAgrees(a: View, b: View, builtin: set<string>)
    requires Sane(a) && Calm(a, b) && Keyed(a.backlog, a.secrets) && a.own <= builtin && SKYLEX_ADMIN in builtin
    requires Agrees(a.roles, a.backlog, Drained(a.backlog, a.secrets, a.pg), builtin)
    ensures Agrees(a.roles, a.backlog, Drained(a.backlog, a.secrets, b.pg), builtin)
  {
    var m, t, u := a.backlog, Drained(a.backlog, a.secrets, a.pg), Drained(a.backlog, a.secrets, b.pg);
    forall id <- a.roles | !DropPending(m, id) ensures Served(a.roles[id], u) {
      assert Served(a.roles[id], t);
      CalmRow(a, b, id);
    }
    forall name <- u | name !in builtin ensures Justified(a.roles, m, name) {
      DrainedPointwise(m, a.secrets, a.pg, b.pg, name);
    }
  }

  lemma UnrelatedConverges(a: View, b: View, builtin: set<string>)
    requires Sane(a) && Converging(a, builtin) && IsChange(a, b, Unrelated, NoFault)
    requires a.own <= builtin && SKYLEX_ADMIN in builtin
    ensures Converging(b, builtin)
  {
    CalmAgrees(a, b, builtin);
    DrainedFrame(a.backlog, a.secrets, b.secrets, b.pg);
    forall name <- a.pg ensures name in b.pg {
      assert At(a.pg, name).Some?;
    }
    RotatableAdmin(a.roles, a.backlog, a.secrets, b.secrets, a.pg, b.pg);
  }

  lemma RepeatConverges(a: View, b: View, builtin: set<string>)
    requires Converging(a, builtin) && a.roles == b.roles && Repeatable(a, b, NoFault)
    ensures Converging(b, builtin)
  {
    RerunHarmless(a.backlog, a.secrets, a.pg);
    RotatableRepeat(a.roles, a.backlog, a.secrets, a.pg);
  }

  /** Everything but the calm steps, for any set of names left out. */
  lemma MoveConverges(a: View, b: View, ch: RoleChange, builtin: set<string>)
    requires Sane(a) && Sane(b) && Converging(a, builtin) && IsChange(a, b, ch, NoFault) && !ch.Unrelated?
    ensures Converging(b, builtin)
  {
    match ch
    case Sets(id, row, c) => SetConverges(a, b, builtin, id, row, c);
    case Deletes(id, c) => DeleteConverges(a, b, builtin, id, c);
    case Appends(c) => AppendConverges(a, b, builtin, c);
    case Replaces(f) => ReplaceConverges(a, b, builtin, f);
    case Repeats => RepeatConverges(a, b, builtin);
    case Settles => SettleConverges(a, b, builtin);
  }

  lemma ChangeConverges(a: View, b: View, ch: RoleChange, builtin: set<string>)
    requires Sane(a) && Sane(b) && Converging(a, builtin) && IsChange(a, b, ch, NoFault)
    requires a.own <= builtin && SKYLEX_ADMIN in builtin
    ensures Converging(b, builtin)
  {
    if ch.Unrelated? {
      UnrelatedConverges(a, b, builtin);
    } else {
      MoveConverges(a, b, ch, builtin);
    }
  }

  // ---- The theorems ----

  ghost predicate Faultless(run: seq<Occurrence>) {
    forall o <- run :: FaultOf(o.event) == NoFault
  }

  /** PostgreSQL's roles at the start and those Skylex makes for itself. */
  function Builtin(s: System): set<string> {
    s.pg.Keys + OwnNames(s.accounts)
  }

  lemma InitialConverges(s: System)
    requires Initial(s)
    ensures Converging(ViewOf(s), Builtin(s))
  {
    InitialBacklog(s);
  }

  lemma StepConverges(s: System, o: Occurrence, builtin: set<string>)
    requires Reached(s) && Converging(ViewOf(s), builtin) && FaultOf(o.event) == NoFault
    requires OwnNames(s.accounts) <= builtin
    ensures Reached(Step(s, o)) && Converging(ViewOf(Step(s, o)), builtin)
  {
    StepReached(s, o);
    var ch := Classify(ViewOf(s), ViewOf(Step(s, o)), o.event);
    ChangeConverges(ViewOf(s), ViewOf(Step(s, o)), ch, builtin);
  }

  lemma {:induction false} SameAccounts(s: System, run: seq<Occurrence>)
    ensures Run(s, run).accounts == s.accounts
  {
    if |run| > 0 {
      SameAccounts(s, run[..|run| - 1]);
    }
  }

  lemma {:induction false} RunConverges(s: System, run: seq<Occurrence>)
    requires Initial(s) && Faultless(run)
    ensures Reached(Run(s, run)) && Converging(ViewOf(Run(s, run)), Builtin(s))
  {
    if |run| == 0 {
      InitialConverges(s);
      RunReached(s, run);
    } else {
      var n := |run| - 1;
      assert forall o <- run[..n] :: o in run;
      RunConverges(s, run[..n]);
      SameAccounts(s, run[..n]);
      StepConverges(Run(s, run[..n]), run[n], Builtin(s));
    }
  }

  /**
   Draining the queue makes PostgreSQL agree with the metadata, at every point of every run
   without faults, however many result reports were lost on the way.
   */
  lemma DrainAgrees(s: System, run: seq<Occurrence>)
    requires Initial(s) && Faultless(run)
    ensures var v := ViewOf(Run(s, run));
            Agrees(v.roles, v.backlog, Drained(v.backlog, v.secrets, v.pg), Builtin(s)) && NoneFailed(v.roles)
  {
    RunConverges(s, run);
  }

  /**
   With no management command pending every row is served as stored, whatever its name, and a
   name that was not PostgreSQL's or Skylex's own to begin with is there only with its row.
   */
  lemma EmptyQueueAgrees(s: System, run: seq<Occurrence>)
    requires Initial(s) && Faultless(run) && Backlog(Run(s, run)) == []
    ensures var e := Run(s, run);
            && (forall id <- e.store.roles :: Served(e.store.roles[id], e.pg))
            && forall name | name !in Builtin(s) :: name in e.pg <==> NameTaken(e.store.roles, name)
  {
    RunConverges(s, run);
    var v := ViewOf(Run(s, run));
    forall id <- v.roles ensures Served(v.roles[id], v.pg) {
      assert !DropPending([], id);
    }
    forall name | name !in Builtin(s) ensures name in v.pg <==> NameTaken(v.roles, name) {
      if name in v.pg {
        assert Justified(v.roles, [], name);
      }
    }
  }
}
