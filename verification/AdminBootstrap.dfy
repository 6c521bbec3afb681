/**
 Bootstrapping skylex_admin: on one primary the command that creates the role is queued at
 most once, and every command that carries its password is executed only after that
 command was executed and reported.
 */
module AdminBootstrap {
  import opened Wrappers
  import opened Commands
  import opened Metadata
  import opened ManagedRoleRepo
  import DB = ManagedDatabaseRepo
  import opened ManagementService
  import opened PostgresRoles
  import opened AgentProtocol
  import opened ControlLoop
  import opened ControlView
  import opened RequestForms
  import opened RoleChanges

  predicate CarriesAdmin(c: Command, secrets: map<Id, Secrets>) {
    SecretsOf(secrets, c.id).admin.Some?
  }

  /** Neither the admin command nor one that needs the role. */
  predicate Neutral(c: Command, secrets: map<Id, Secrets>) {
    !IsAdmin(c) && !CarriesAdmin(c, secrets)
  }

  /** An admin command of the primary, ahead of every pending command that carries the admin password. */
  ghost predicate AdminAt(t: seq<Command>, secrets: map<Id, Secrets>, agent: Id, node: Id, k: nat) {
    && k < |t| && IsAdmin(t[k]) && Addressed(t[k], agent, node)
    && forall j | 0 <= j < |t| && j != k && InQueue(t[j], agent, node) ::
         !IsAdmin(t[j]) && (CarriesAdmin(t[j], secrets) ==> k < j)
  }

  /** The admin command with that identifier is the one ahead. */
  ghost predicate AdminFirst(t: seq<Command>, secrets: map<Id, Secrets>, agent: Id, node: Id, id: Id) {
    exists k: nat :: AdminAt(t, secrets, agent, node, k) && t[k].id == id
  }

  /** Before the password exists: nothing pending is an admin command, a carrier or a management command. */
  ghost predicate Untouched(t: seq<Command>, secrets: map<Id, Secrets>, agent: Id, node: Id) {
    forall c <- t | InQueue(c, agent, node) :: Neutral(c, secrets) && !IsManaged(c.action)
  }

  ghost predicate Ordered(t: seq<Command>, secrets: map<Id, Secrets>, admin: bool, agent: Id, node: Id, id: Id) {
    if admin then AdminFirst(t, secrets, agent, node, id) else Untouched(t, secrets, agent, node)
  }

  ghost predicate Bootstrapped(s: System, id: Id) {
    Ordered(s.store.commands, s.store.secrets, s.store.adminSecret.Some?, s.agent, s.node, id)
  }

  // ---- One insertion at a time ----

  lemma NeutralInsert(t: seq<Command>, secrets: map<Id, Secrets>, agent: Id, node: Id, c: Command, id: Id)
    requires AdminFirst(t, secrets, agent, node, id) && (InQueue(c, agent, node) ==> Neutral(c, secrets))
    ensures AdminFirst(Insert(t, c), secrets, agent, node, id)
  {
    var i := InsertSplices(t, c);
    var u := Insert(t, c);
    var k: nat :| AdminAt(t, secrets, agent, node, k) && t[k].id == id;
    var l := if k < i then k else k + 1;
    forall j | 0 <= j < |u| && j != l && InQueue(u[j], agent, node)
      ensures !IsAdmin(u[j]) && (CarriesAdmin(u[j], secrets) ==> l < j)
    {
      assert u[j] == if j < i then t[j] else if j == i then c else t[j - 1];
    }
    assert AdminAt(u, secrets, agent, node, l) && u[l] == t[k];
  }

  lemma CarrierAppend(t: seq<Command>, secrets: map<Id, Secrets>, agent: Id, node: Id, c: Command, id: Id)
    requires AdminFirst(t, secrets, agent, node, id) && !IsAdmin(c)
    ensures AdminFirst(t + [c], secrets, agent, node, id)
  {
    var k: nat :| AdminAt(t, secrets, agent, node, k) && t[k].id == id;
    assert AdminAt(t + [c], secrets, agent, node, k) && (t + [c])[k].id == id;
  }

  lemma AdminAppend(t: seq<Command>, secrets: map<Id, Secrets>, agent: Id, node: Id, c: Command)
    requires Untouched(t, secrets, agent, node) && IsAdmin(c) && Addressed(c, agent, node)
    ensures AdminFirst(t + [c], secrets, agent, node, c.id)
  {
    assert forall j | 0 <= j < |t| :: t[j] in t;
    assert AdminAt(t + [c], secrets, agent, node, |t|) && (t + [c])[|t|].id == c.id;
  }

  /** Fewer secrets, or secrets of commands that are not there, keep the order. */
  lemma SecretsWeaken(t: seq<Command>, a: map<Id, Secrets>, b: map<Id, Secrets>, admin: bool, agent: Id, node: Id,
                      id: Id)
    requires Ordered(t, a, admin, agent, node, id)
    requires forall c <- t :: CarriesAdmin(c, b) ==> CarriesAdmin(c, a) || IsAdmin(c)
    ensures Ordered(t, b, admin, agent, node, id)
  {
    if admin {
      var k: nat :| AdminAt(t, a, agent, node, k) && t[k].id == id;
      assert AdminAt(t, b, agent, node, k);
    }
  }

  // ---- Requests ----

  /** The admin command that is ahead after a request: the one there was, or the one it queued. */
  function AdminId(s: Store, w: Draw, id: Id): Id {
    if s.adminSecret.Some? then id else w.first
  }

  lemma EnsureAdminOrdered(s: Store, w: Draw, p: Primary, clock: Time, id: Id)
    requires CommandsBounded(s.commands, w.first, clock) && clock < w.adminAt
    requires Ordered(s.commands, s.secrets, s.adminSecret.Some?, p.agent, p.node, id)
    ensures var q := EnsureAdmin(s, w, p).0; AdminFirst(q.commands, q.secrets, p.agent, p.node, AdminId(s, w, id))
  {
    if s.adminSecret.None? {
      var c := AdminCommand(w, p);
      SecretsWeaken(s.commands, s.secrets, EnsureAdmin(s, w, p).0.secrets, false, p.agent, p.node, id);
      AdminAppend(s.commands, EnsureAdmin(s, w, p).0.secrets, p.agent, p.node, c);
    }
  }

  /** A management command goes last; its before-action carries nothing. */
  lemma QueueOrdered(t: seq<Command>, secrets: map<Id, Secrets>, d: Dispatch, action: Action, payload: Payload,
                     own: Secrets, next: Id, clock: Time, id: Id)
    requires CommandsBounded(t, next, clock) && clock < d.now && action != PgEnsureAdminRole
    requires d.command == next + 1 && (d.before.Some? ==> d.before.value == next && next !in secrets)
    requires AdminFirst(t, secrets, d.agent, d.node, id) && QueueCommands(t, d, action, payload).Some?
    ensures AdminFirst(QueueCommands(t, d, action, payload).value, secrets[d.command := own], d.agent, d.node, id)
  {
    var after := secrets[d.command := own];
    SecretsWeaken(t, secrets, after, true, d.agent, d.node, id);
    var queued := t;
    if d.before.Some? {
      NeutralInsert(t, after, d.agent, d.node, BeforeCommand(d), id);
      InsertMembers(t, BeforeCommand(d));
      queued := Insert(t, BeforeCommand(d));
    }
    CarrierAppend(queued, after, d.agent, d.node, MainCommand(d, action, payload), id);
  }

  /** The extensions command goes last and may carry the password, like a management command. */
  lemma ApplyExtensionsOrdered(s: Store, w: Draw, p: Primary, clock: Time, id: Id)
    requires CommandsBounded(s.commands, w.first, clock) && clock < w.adminAt < w.now && w.primary == Some(p)
    requires Ordered(s.commands, s.secrets, s.adminSecret.Some?, p.agent, p.node, id)
    ensures var q := ApplyExtensions(s, w);
            q.adminSecret.Some? && AdminFirst(q.commands, q.secrets, p.agent, p.node, AdminId(s, w, id))
  {
    var base, c, q := EnsureAdmin(s, w, p).0, ExtensionsCommand(w, p), ApplyExtensions(s, w);
    EnsureAdminOrdered(s, w, p, clock, id);
    AdminCommands(s, w, p, w.first, clock);
    InsertBounded(base.commands, c, w.first + 1, w.adminAt, w.now);
    SecretsWeaken(base.commands, base.secrets, q.secrets, true, p.agent, p.node, AdminId(s, w, id));
    CarrierAppend(base.commands, q.secrets, p.agent, p.node, c, AdminId(s, w, id));
  }

  lemma FormOrdered(s: Store, w: Draw, p: Primary, f: Form, clock: Time, id: Id)
    requires Bounded(s, w.first, clock) && clock < w.adminAt < w.now && IsManaged(f.action)
    requires Ordered(s.commands, s.secrets, s.adminSecret.Some?, p.agent, p.node, id)
    requires FormOutcome(s, w, p, f).Some?
    ensures var q := FormOutcome(s, w, p, f).value;
            q.adminSecret.Some? && AdminFirst(q.commands, q.secrets, p.agent, p.node, AdminId(s, w, id))
  {
    var d, base := DispatchFor(s, w, p), EnsureAdmin(s, w, p).0;
    EnsureAdminOrdered(s, w, p, clock, id);
    AdminCommands(s, w, p, w.first, clock);
    QueueOrdered(base.commands, base.secrets, d, f.action, f.payload, Secrets(f.password, d.admin), w.first + 1,
                 w.adminAt, AdminId(s, w, id));
  }

  /** The identifier of the admin command after a step. */
  ghost function AdminAfter(s: System, o: Occurrence, id: Id): Id {
    AdminId(s.store, DrawFor(s, o.given), id)
  }

  lemma RequestOrdered(s: System, o: Occurrence, id: Id)
    requires Fresh(s) && Bootstrapped(s, id) && IsRequest(o.event)
    ensures Bootstrapped(Step(s, o), AdminAfter(s, o, id))
  {
    var w := DrawFor(s, o.given);
    StepRequested(s, o);
    if o.event.ApplyExtensionsEvent? {
      if w.primary.Some? {
        ApplyExtensionsOrdered(s.store, w, w.primary.value, s.clock, id);
      }
      return;
    }
    var f := RequestForm(s.store, o.event, w, s.clock);
    if w.primary.Some? {
      EnsureAdminOrdered(s.store, w, w.primary.value, s.clock, id);
    }
    if f.Some? {
      FormOrdered(s.store, w, w.primary.value, f.value, s.clock, id);
    }
  }

  // ---- Reports ----

  lemma ReportOrdered(t: seq<Command>, secrets: map<Id, Secrets>, admin: bool, agent: Id, node: Id, head: Id, ok: bool,
                      id: Id)
    requires Ordered(t, secrets, admin, agent, node, id)
    ensures Ordered(Report(t, head, ok), secrets, admin, agent, node, id)
  {
    var r := Report(t, head, ok);
    if admin {
      var k: nat :| AdminAt(t, secrets, agent, node, k) && t[k].id == id;
      forall j | 0 <= j < |r| && j != k && InQueue(r[j], agent, node)
        ensures !IsAdmin(r[j]) && (CarriesAdmin(r[j], secrets) ==> k < j)
      {
        assert r[j] == Reported(t[j], head, ok);
      }
      assert AdminAt(r, secrets, agent, node, k) && r[k] == Reported(t[k], head, ok);
    } else {
      forall c <- r | InQueue(c, agent, node) ensures Neutral(c, secrets) && !IsManaged(c.action) {
        var j :| 0 <= j < |r| && r[j] == c;
        assert r[j] == Reported(t[j], head, ok) && t[j] in t;
      }
    }
  }

  lemma HandOverOrdered(s: Store, g: DB.GrantRequest, w: Draw, p: Primary, clock: Time, id: Id)
    requires CommandsBounded(s.commands, w.first, clock) && clock < w.adminAt < w.now && w.primary == Some(p)
    requires Ordered(s.commands, s.secrets, s.adminSecret.Some?, p.agent, p.node, id)
    ensures var q := HandOver(s, g, w);
            q.adminSecret.Some? && AdminFirst(q.commands, q.secrets, p.agent, p.node, AdminId(s, w, id))
  {
    var base, grant := EnsureAdmin(s, w, p).0, GrantCommand(g, w, p);
    EnsureAdminOrdered(s, w, p, clock, id);
    AdminCommands(s, w, p, w.first, clock);
    InsertBounded(base.commands, grant, w.first + 1, w.adminAt, w.now);
    SecretsWeaken(base.commands, base.secrets, HandOver(s, g, w).secrets, true, p.agent, p.node, AdminId(s, w, id));
    CarrierAppend(base.commands, HandOver(s, g, w).secrets, p.agent, p.node, grant, AdminId(s, w, id));
  }

  lemma ReportResultOrdered(s: Store, h: Command, ok: bool, w: Draw, agent: Id, node: Id, clock: Time, id: Id)
    requires CommandsBounded(s.commands, w.first, clock) && clock < w.adminAt < w.now
    requires Queue(s.commands, agent, node) != [] && h == Queue(s.commands, agent, node)[0]
    requires IsManaged(h.action) ==> WellFormed(h)
    requires w.primary.Some? ==> w.primary == Some(Primary(agent, node))
    requires Ordered(s.commands, s.secrets, s.adminSecret.Some?, agent, node, id)
    ensures var q := ReportResult(s, h.id, ok, w);
            Ordered(q.commands, q.secrets, q.adminSecret.Some?, agent, node, AdminId(s, w, id))
  {
    var r := ReportedStore(s, h, ok);
    ReportOrdered(s.commands, s.secrets, s.adminSecret.Some?, agent, node, h.id, ok, id);
    ReportKeepsBounds(s.commands, h.id, ok, w.first, clock);
    var rows := ReportRows(s, h, ok, w, agent, node);
    if w.primary.Some? && h.payload.DatabasePayload? && h.payload.owner.Some? {
      HandOverOrdered(r, GrantOf(h), w, w.primary.value, clock, id);
    }
    SecretsWeaken(rows.commands, rows.secrets, rows.secrets - {h.id}, rows.adminSecret.Some?, agent, node,
                  AdminId(s, w, id));
  }

  lemma OtherBootstrapped(s: System, o: Occurrence, id: Id)
    requires Fresh(s) && Bootstrapped(s, id) && o.event.QueueOtherEvent?
    ensures Bootstrapped(Step(s, o), AdminAfter(s, o, id))
  {
    var c := OtherCommand(o.event, DrawFor(s, o.given));
    if IsForeign(c, s.agent, s.node) {
      InsertMembers(s.store.commands, c);
      if s.store.adminSecret.Some? {
        NeutralInsert(s.store.commands, s.store.secrets, s.agent, s.node, c, id);
      }
    }
  }

  lemma PollBootstrapped(s: System, o: Occurrence, id: Id)
    requires Reached(s) && Bootstrapped(s, id) && o.event.PollEvent?
    ensures Bootstrapped(Step(s, o), AdminAfter(s, o, id))
  {
    var q := Queue(s.store.commands, s.agent, s.node);
    if q != [] && o.event.delivered {
      var ok := Executed(s.accounts, s.pg, q[0], s.store.secrets, o.event.fault).1;
      ManagedTail(q);
      assert IsManaged(q[0].action) ==> SaneCommand(Backlog(s)[0], s.store.roles, s.nextId);
      ReportResultOrdered(s.store, q[0], ok, DrawFor(s, o.given), s.agent, s.node, s.clock, id);
    }
  }

  lemma StepBootstrapped(s: System, o: Occurrence, id: Id)
    requires Reached(s) && Bootstrapped(s, id)
    ensures Bootstrapped(Step(s, o), AdminAfter(s, o, id))
  {
    if IsRequest(o.event) {
      RequestOrdered(s, o, id);
    } else if o.event.PollEvent? {
      PollBootstrapped(s, o, id);
    } else {
      OtherBootstrapped(s, o, id);
    }
  }

  // ---- Queued at most once ----

  function AdminIds(t: seq<Command>): set<Id> {
    set c <- t | IsAdmin(c) :: c.id
  }

  lemma IdsInserted(t: seq<Command>, c: Command)
    ensures AdminIds(Insert(t, c)) == AdminIds(t) + if IsAdmin(c) then {c.id} else {}
  {
    InsertMembers(t, c);
  }

  lemma IdsReported(t: seq<Command>, head: Id, ok: bool)
    ensures AdminIds(Report(t, head, ok)) == AdminIds(t)
  {
    var r := Report(t, head, ok);
    forall x ensures x in AdminIds(r) <==> x in AdminIds(t) {
      if x in AdminIds(r) {
        var c :| c in r && IsAdmin(c) && c.id == x;
        var i :| 0 <= i < |r| && r[i] == c;
        assert r[i] == Reported(t[i], head, ok) && t[i] in t;
      }
      if x in AdminIds(t) {
        var c :| c in t && IsAdmin(c) && c.id == x;
        var i :| 0 <= i < |t| && t[i] == c;
        assert r[i] == Reported(t[i], head, ok) && r[i] in r;
      }
    }
  }

  /** Storing the password and queueing its command happen together, and once. */
  ghost predicate ProvisionsOnce(s: Store, q: Store, first: Id) {
    && (s.adminSecret.Some? ==> q.adminSecret == s.adminSecret)
    && AdminIds(q.commands) ==
       AdminIds(s.commands) + if s.adminSecret.None? && q.adminSecret.Some? then {first} else {}
  }

  lemma EnsureAdminOnce(s: Store, w: Draw, p: Primary)
    ensures ProvisionsOnce(s, EnsureAdmin(s, w, p).0, w.first)
  {
    IdsInserted(s.commands, AdminCommand(w, p));
  }

  lemma ApplyExtensionsOnce(s: Store, w: Draw, p: Primary)
    requires w.primary == Some(p)
    ensures ProvisionsOnce(s, ApplyExtensions(s, w), w.first)
  {
    EnsureAdminOnce(s, w, p);
    IdsInserted(EnsureAdmin(s, w, p).0.commands, ExtensionsCommand(w, p));
  }

  lemma CommandsOnce(t: seq<Command>, d: Dispatch, action: Action, payload: Payload)
    requires action != PgEnsureAdminRole && QueueCommands(t, d, action, payload).Some?
    ensures AdminIds(QueueCommands(t, d, action, payload).value) == AdminIds(t)
  {
    var queued := t;
    if d.before.Some? {
      IdsInserted(t, BeforeCommand(d));
      queued := Insert(t, BeforeCommand(d));
    }
    IdsInserted(queued, MainCommand(d, action, payload));
  }

  lemma FormOnce(s: Store, w: Draw, p: Primary, f: Form)
    requires IsManaged(f.action) && FormOutcome(s, w, p, f).Some?
    ensures ProvisionsOnce(s, FormOutcome(s, w, p, f).value, w.first)
  {
    EnsureAdminOnce(s, w, p);
    CommandsOnce(EnsureAdmin(s, w, p).0.commands, DispatchFor(s, w, p), f.action, f.payload);
  }

  lemma RequestOnce(s: Store, e: Event, w: Draw, clock: Time)
    requires Bounded(s, w.first, clock) && clock < w.adminAt < w.now && IsRequest(e)
    ensures ProvisionsOnce(s, Requested(s, e, w), w.first)
  {
    if e.ApplyExtensionsEvent? {
      if w.primary.Some? {
        ApplyExtensionsOnce(s, w, w.primary.value);
      }
    } else {
      var f := RequestForm(s, e, w, clock);
      if f.Some? {
        FormOnce(s, w, w.primary.value, f.value);
      } else if w.primary.Some? {
        EnsureAdminOnce(s, w, w.primary.value);
      }
    }
  }

  lemma ReportOnce(s: Store, h: Command, ok: bool, w: Draw, agent: Id, node: Id)
    requires UniqueIds(s.commands) && Queue(s.commands, agent, node) != [] && h == Queue(s.commands, agent, node)[0]
    requires IsManaged(h.action) ==> WellFormed(h)
    ensures ProvisionsOnce(s, ReportResult(s, h.id, ok, w), w.first)
  {
    var r := ReportedStore(s, h, ok);
    IdsReported(s.commands, h.id, ok);
    var rows := ReportRows(s, h, ok, w, agent, node);
    if w.primary.Some? && h.payload.DatabasePayload? && h.payload.owner.Some? {
      HandOverOnce(r, GrantOf(h), w, w.primary.value);
    }
  }

  lemma HandOverOnce(s: Store, g: DB.GrantRequest, w: Draw, p: Primary)
    requires w.primary == Some(p)
    ensures ProvisionsOnce(s, HandOver(s, g, w), w.first)
  {
    EnsureAdminOnce(s, w, p);
    IdsInserted(EnsureAdmin(s, w, p).0.commands, GrantCommand(g, w, p));
  }

  lemma StepOnce(s: System, o: Occurrence)
    requires Reached(s)
    ensures ProvisionsOnce(s.store, Step(s, o).store, s.nextId)
  {
    var w, q := DrawFor(s, o.given), Queue(s.store.commands, s.agent, s.node);
    if IsRequest(o.event) {
      StepRequested(s, o);
      RequestOnce(s.store, o.event, w, s.clock);
    } else if o.event.QueueOtherEvent? {
      IdsInserted(s.store.commands, OtherCommand(o.event, w));
    } else if q != [] && o.event.delivered {
      ManagedTail(q);
      assert IsManaged(q[0].action) ==> SaneCommand(Backlog(s)[0], s.store.roles, s.nextId);
      var ok := Executed(s.accounts, s.pg, q[0], s.store.secrets, o.event.fault).1;
      ReportOnce(s.store, q[0], ok, w, s.agent, s.node);
    }
  }

  // ---- The order ----

  /** The admin command of the cluster: the one it started with, or the only one the run queued. */
  ghost predicate AdminCommandIs(s: System, e: System, first: Id, id: Id) {
    && (s.store.adminSecret.Some? ==> id == first && e.store.adminSecret == s.store.adminSecret)
    && AdminIds(e.store.commands) ==
       AdminIds(s.store.commands) + if s.store.adminSecret.None? && e.store.adminSecret.Some? then {id} else {}
  }

  lemma {:induction false} RunBootstrapped(s: System, run: seq<Occurrence>, first: Id) returns (id: Id)
    requires Initial(s) && Bootstrapped(s, first)
    ensures Bootstrapped(Run(s, run), id) && AdminCommandIs(s, Run(s, run), first, id)
  {
    id := first;
    if |run| > 0 {
      var before, o := Run(s, run[..|run| - 1]), run[|run| - 1];
      id := RunBootstrapped(s, run[..|run| - 1], first);
      RunReached(s, run[..|run| - 1]);
      StepBootstrapped(before, o, id);
      StepOnce(before, o);
      id := AdminAfter(before, o, id);
    }
  }

  /**
   Where the password was stored together with queueing the command `first`, or is not stored
   yet, the admin role's command is queued at most once, and every command that needs the role
   runs after that very command was executed and its report recorded.
   */
  lemma AdminRoleFirst(s: System, run: seq<Occurrence>, first: Id) returns (id: Id)
    requires Initial(s) && Bootstrapped(s, first)
    ensures AdminCommandIs(s, Run(s, run), first, id)
    ensures var e := Run(s, run); var t := e.store.commands; var q := Queue(t, e.agent, e.node);
            q != [] && CarriesAdmin(q[0], e.store.secrets) && !IsAdmin(q[0])
            ==> exists c <- t :: c.id == id && IsAdmin(c) && c.status != Pending
  {
    id := RunBootstrapped(s, run, first);
    var e := Run(s, run);
    var t, q := e.store.commands, Queue(e.store.commands, e.agent, e.node);
    QueueSound(t, e.agent, e.node);
    if q != [] && CarriesAdmin(q[0], e.store.secrets) && !IsAdmin(q[0]) {
      var j := HeadIndex(t, e.agent, e.node);
      assert q[0] in q && t[j] in t;
      var k: nat :| AdminAt(t, e.store.secrets, e.agent, e.node, k) && t[k].id == id;
      assert k < j && t[k] in t;
    }
  }

  /** A grant never provisions: whenever a database command is pending the password is already stored. */
  lemma GrantsFindThePassword(s: System, run: seq<Occurrence>)
    requires Initial(s) && Backlog(Run(s, run)) != []
    ensures Run(s, run).store.adminSecret.Some?
  {
    RunReached(s, run);
    var e := Run(s, run);
    QueueSound(e.store.commands, e.agent, e.node);
    ManagedSound(Queue(e.store.commands, e.agent, e.node));
    assert Backlog(e)[0] in Backlog(e);
  }
}
