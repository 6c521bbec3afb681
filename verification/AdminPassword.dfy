/**
 The password the server stores for skylex_admin. It opens the role in PostgreSQL as long as
 no managed role is created under that name; the name is not reserved, and the first accepted
 creation of it loses the password for good.
 */
module AdminPassword {
  import opened Wrappers
  import opened Commands
  import opened Metadata
  import opened ManagedRoleRepo
  import DB = ManagedDatabaseRepo
  import opened ManagementService
  import opened PostgresRoles
  import opened AgentProtocol
  import opened ControlLoop
  import opened ControlView
  import opened RequestForms
  import opened AdminLead
  import opened RoleChanges
  import opened RoleConvergence
  import opened AdminBootstrap

  /** A login as skylex_admin with this password succeeds. */
  predicate Opens(pg: RoleTable, secret: Secret) {
    SKYLEX_ADMIN in pg && pg[SKYLEX_ADMIN].password == Some(secret)
  }

  /** A pending admin command carries the stored password. */
  ghost predicate AdminKeyed(s: Store, agent: Id, node: Id) {
    forall c <- s.commands | IsAdmin(c) && InQueue(c, agent, node) ::
      s.adminSecret.Some? && SecretsOf(s.secrets, c.id).admin == s.adminSecret
  }

  /** The stored password is on its way to PostgreSQL, or there. */
  ghost predicate AdminSettled(s: System) {
    && AdminKeyed(s.store, s.agent, s.node)
    && (s.store.adminSecret.Some? && !AdminWaiting(s.store.commands, s.agent, s.node)
        ==> Opens(s.pg, s.store.adminSecret.value))
  }

  // ---- Which creations take the name ----

  /** The request is accepted: the primary is ready and no row, or a failed one, has the name. */
  ghost predicate TakesName(s: System, o: Occurrence) {
    o.event.CreateRoleEvent? && o.event.name == SKYLEX_ADMIN && o.given.ready && Creatable(s.store.roles, SKYLEX_ADMIN)
  }

  ghost predicate NameTakenBy(s: System, run: seq<Occurrence>) {
    exists k | 0 <= k < |run| :: TakesName(Run(s, run[..k]), run[k])
  }

  lemma TakenPrefix(s: System, run: seq<Occurrence>)
    requires run != []
    ensures var n := |run| - 1;
            NameTakenBy(s, run) <==> NameTakenBy(s, run[..n]) || TakesName(Run(s, run[..n]), run[n])
  {
    var n := |run| - 1;
    forall k | 0 <= k < n ensures run[..n][..k] == run[..k] {
    }
    if NameTakenBy(s, run) {
      var k :| 0 <= k < |run| && TakesName(Run(s, run[..k]), run[k]);
      assert k < n ==> TakesName(Run(s, run[..n][..k]), run[..n][k]);
    }
    if NameTakenBy(s, run[..n]) {
      var k :| 0 <= k < n && TakesName(Run(s, run[..n][..k]), run[..n][k]);
      assert TakesName(Run(s, run[..k]), run[k]);
    }
  }

  // ---- Before the name is taken ----

  /** No row has the name, and no pending role command is about it. */
  ghost predicate Unnamed(v: View) {
    && (forall id <- v.roles :: v.roles[id].name != SKYLEX_ADMIN)
    && forall c <- v.backlog :: IsRole(c) ==> c.payload.roleName != SKYLEX_ADMIN
  }

  lemma UnnamedKept(a: View, b: View, ch: RoleChange, fault: Fault)
    requires Unnamed(a) && IsChange(a, b, ch, fault)
    requires ch.Sets? && ch.command.action == PgEnsureRole ==> ch.row.name != SKYLEX_ADMIN
    ensures Unnamed(b)
  {
  }

  /** A refused creation changes nothing. */
  lemma RefusedCreate(s: System, o: Occurrence)
    requires o.event.CreateRoleEvent? && o.event.name == SKYLEX_ADMIN && !TakesName(s, o)
    ensures Step(s, o) == Advanced(s, s.store, o.given)
  {
  }

  lemma UnnamedStep(s: System, o: Occurrence)
    requires Reached(s) && Unnamed(ViewOf(s)) && !TakesName(s, o)
    ensures Unnamed(ViewOf(Step(s, o)))
  {
    if o.event.CreateRoleEvent? && o.event.name == SKYLEX_ADMIN {
      RefusedCreate(s, o);
    } else {
      StepReached(s, o);
      var ch := Classify(ViewOf(s), ViewOf(Step(s, o)), o.event);
      UnnamedKept(ViewOf(s), ViewOf(Step(s, o)), ch, FaultOf(o.event));
    }
  }

  // ---- The pending admin command keeps its key ----

  lemma KeyedGrows(s: Store, q: Store, agent: Id, node: Id)
    requires AdminKeyed(s, agent, node) && q.adminSecret == s.adminSecret
    requires forall c <- q.commands | IsAdmin(c) && InQueue(c, agent, node) ::
               c in s.commands && SecretsOf(q.secrets, c.id) == SecretsOf(s.secrets, c.id)
    ensures AdminKeyed(q, agent, node)
  {
  }

  lemma KeyedProvisioned(s: Store, w: Draw, p: Primary, clock: Time)
    requires CommandsBounded(s.commands, w.first, clock) && AdminKeyed(s, p.agent, p.node)
    ensures AdminKeyed(EnsureAdmin(s, w, p).0, p.agent, p.node) && EnsureAdmin(s, w, p).0.adminSecret.Some?
    ensures s.adminSecret.None? ==> AdminWaiting(EnsureAdmin(s, w, p).0.commands, p.agent, p.node)
  {
    if s.adminSecret.None? {
      InsertMembers(s.commands, AdminCommand(w, p));
      assert AdminCommand(w, p) in EnsureAdmin(s, w, p).0.commands;
    }
  }

  /** A new command that is not the admin command, with secrets of its own. */
  lemma KeyedInserted(s: Store, c: Command, own: Secrets, agent: Id, node: Id)
    requires AdminKeyed(s, agent, node) && !IsAdmin(c) && !HasId(s.commands, c.id)
    ensures AdminKeyed(s.(commands := Insert(s.commands, c)), agent, node)
    ensures AdminKeyed(s.(commands := Insert(s.commands, c), secrets := s.secrets[c.id := own]), agent, node)
    ensures AdminWaiting(s.commands, agent, node) ==> AdminWaiting(Insert(s.commands, c), agent, node)
  {
    InsertMembers(s.commands, c);
  }

  lemma CommandsKeyed(s: Store, d: Dispatch, action: Action, payload: Payload, own: Secrets)
    requires AdminKeyed(s, d.agent, d.node) && IsManaged(action) && QueueCommands(s.commands, d, action, payload).Some?
    ensures var t := QueueCommands(s.commands, d, action, payload).value;
            AdminKeyed(s.(commands := t, secrets := s.secrets[d.command := own]), d.agent, d.node)
            && (AdminWaiting(s.commands, d.agent, d.node) ==> AdminWaiting(t, d.agent, d.node))
  {
    var mid := s;
    if d.before.Some? {
      KeyedInserted(s, BeforeCommand(d), Secrets(None, None), d.agent, d.node);
      mid := s.(commands := Insert(s.commands, BeforeCommand(d)));
    }
    KeyedInserted(mid, MainCommand(d, action, payload), own, d.agent, d.node);
  }

  lemma FormKeyed(s: Store, w: Draw, p: Primary, f: Form, clock: Time)
    requires CommandsBounded(s.commands, w.first, clock) && IsManaged(f.action)
    requires AdminKeyed(s, p.agent, p.node) && FormOutcome(s, w, p, f).Some?
    ensures var q := FormOutcome(s, w, p, f).value;
            AdminKeyed(q, p.agent, p.node) && q.adminSecret.Some?
            && (AdminWaiting(EnsureAdmin(s, w, p).0.commands, p.agent, p.node)
                ==> AdminWaiting(q.commands, p.agent, p.node))
  {
    var d, base := DispatchFor(s, w, p), EnsureAdmin(s, w, p).0;
    KeyedProvisioned(s, w, p, clock);
    CommandsKeyed(base, d, f.action, f.payload, Secrets(f.password, d.admin));
  }

  /** What a request does to the stored password, its command and its key. */
  ghost predicate StaysKeyed(s: Store, q: Store, agent: Id, node: Id) {
    && AdminKeyed(q, agent, node)
    && (s.adminSecret.Some? ==> q.adminSecret == s.adminSecret)
    && (s.adminSecret.None? && q.adminSecret.Some? ==> AdminWaiting(q.commands, agent, node))
    && (AdminWaiting(s.commands, agent, node) ==> AdminWaiting(q.commands, agent, node))
  }

  lemma ProvisionedStays(s: Store, w: Draw, p: Primary, clock: Time)
    requires CommandsBounded(s.commands, w.first, clock) && AdminKeyed(s, p.agent, p.node)
    ensures StaysKeyed(s, EnsureAdmin(s, w, p).0, p.agent, p.node)
  {
    KeyedProvisioned(s, w, p, clock);
  }

  lemma FormStays(s: Store, w: Draw, p: Primary, f: Form, clock: Time)
    requires Bounded(s, w.first, clock) && clock < w.adminAt < w.now && IsManaged(f.action)
    requires AdminKeyed(s, p.agent, p.node) && FormOutcome(s, w, p, f).Some?
    ensures StaysKeyed(s, FormOutcome(s, w, p, f).value, p.agent, p.node)
  {
    ProvisionedStays(s, w, p, clock);
    FormKeyed(s, w, p, f, clock);
  }

  lemma ApplyExtensionsStays(s: Store, w: Draw, p: Primary, clock: Time)
    requires CommandsBounded(s.commands, w.first, clock) && clock < w.adminAt < w.now && w.primary == Some(p)
    requires AdminKeyed(s, p.agent, p.node)
    ensures StaysKeyed(s, ApplyExtensions(s, w), p.agent, p.node)
  {
    ProvisionedStays(s, w, p, clock);
    AdminCommands(s, w, p, w.first, clock);
    KeyedInserted(EnsureAdmin(s, w, p).0, ExtensionsCommand(w, p), Secrets(None, s.adminSecret), p.agent, p.node);
  }

  lemma RequestStays(s: Store, e: Event, w: Draw, clock: Time, p: Primary)
    requires Bounded(s, w.first, clock) && clock < w.adminAt < w.now && IsRequest(e)
    requires w.primary.Some? ==> w.primary == Some(p)
    requires AdminKeyed(s, p.agent, p.node)
    ensures StaysKeyed(s, Requested(s, e, w), p.agent, p.node)
  {
    if e.ApplyExtensionsEvent? {
      if w.primary.Some? {
        ApplyExtensionsStays(s, w, p, clock);
      }
    } else {
      var f := RequestForm(s, e, w, clock);
      if f.Some? {
        FormStays(s, w, p, f.value, clock);
      } else if w.primary.Some? {
        ProvisionedStays(s, w, p, clock);
      }
    }
  }

  // ---- Reports ----

  lemma ReportedKeyed(s: Store, h: Command, ok: bool, agent: Id, node: Id)
    requires UniqueIds(s.commands) && AdminKeyed(s, agent, node) && h in s.commands
    ensures AdminKeyed(ReportedStore(s, h, ok), agent, node)
    ensures forall c <- ReportedStore(s, h, ok).commands | InQueue(c, agent, node) :: c in s.commands && c.id != h.id
  {
    ReportedLeft(s, h, ok, agent, node);
  }

  lemma HandOverKeyed(s: Store, g: DB.GrantRequest, w: Draw, p: Primary, clock: Time)
    requires CommandsBounded(s.commands, w.first, clock) && w.primary == Some(p) && s.adminSecret.Some?
    requires AdminKeyed(s, p.agent, p.node)
    ensures AdminKeyed(HandOver(s, g, w), p.agent, p.node) && HandOver(s, g, w).adminSecret == s.adminSecret
    ensures forall c <- HandOver(s, g, w).commands | IsAdmin(c) :: c in s.commands
  {
    KeyedInserted(s, GrantCommand(g, w, p), Secrets(None, s.adminSecret), p.agent, p.node);
    InsertMembers(s.commands, GrantCommand(g, w, p));
  }

  lemma HandedOverStays(s: Store, r: Store, h: Command, g: DB.GrantRequest, w: Draw, p: Primary, clock: Time)
    requires CommandsBounded(r.commands, w.first, clock) && w.primary == Some(p) && r.adminSecret.Some?
    requires AdminKeyed(r, p.agent, p.node)
    requires forall c <- r.commands | InQueue(c, p.agent, p.node) :: c in s.commands && c.id != h.id
    ensures var q := HandOver(r, g, w).(secrets := HandOver(r, g, w).secrets - {h.id});
            && AdminKeyed(q, p.agent, p.node) && q.adminSecret == r.adminSecret
            && forall c <- q.commands | IsAdmin(c) && InQueue(c, p.agent, p.node) :: c in s.commands && c.id != h.id
  {
    HandOverKeyed(r, g, w, p, clock);
    KeyedGrows(HandOver(r, g, w), HandOver(r, g, w).(secrets := HandOver(r, g, w).secrets - {h.id}), p.agent, p.node);
  }

  lemma KeptStays(s: Store, r: Store, rows: Store, h: Command, agent: Id, node: Id)
    requires rows.commands == r.commands && rows.secrets == r.secrets && rows.adminSecret == r.adminSecret
    requires AdminKeyed(r, agent, node)
    requires forall c <- r.commands | InQueue(c, agent, node) :: c in s.commands && c.id != h.id
    ensures AdminKeyed(rows.(secrets := rows.secrets - {h.id}), agent, node)
  {
  }

  /** A handled report keeps the password, the keys of what is pending, and queues no admin command. */
  lemma ReportStays(s: Store, h: Command, ok: bool, w: Draw, clock: Time, agent: Id, node: Id)
    requires Bounded(s, w.first, clock) && clock < w.adminAt < w.now
    requires w.primary.Some? ==> w.primary == Some(Primary(agent, node))
    requires Queue(s.commands, agent, node) != [] && h == Queue(s.commands, agent, node)[0]
    requires IsManaged(h.action) ==> WellFormed(h) && s.adminSecret.Some?
    requires AdminKeyed(s, agent, node)
    ensures var q := ReportResult(s, h.id, ok, w);
            && AdminKeyed(q, agent, node) && q.adminSecret == s.adminSecret
            && forall c <- q.commands | IsAdmin(c) && InQueue(c, agent, node) :: c in s.commands && c.id != h.id
  {
    var r := ReportedStore(s, h, ok);
    QueueSound(s.commands, agent, node);
    assert h in Queue(s.commands, agent, node);
    ReportedKeyed(s, h, ok, agent, node);
    if !IsManaged(h.action) {
      HandOverManaged(s, h, ok, w, agent, node);
      KeptStays(s, r, r, h, agent, node);
    } else {
      ReportKeepsBounds(s.commands, h.id, ok, w.first, clock);
      var rows := ReportRows(s, h, ok, w, agent, node);
      if rows.commands == r.commands && rows.secrets == r.secrets && rows.adminSecret == r.adminSecret {
        KeptStays(s, r, rows, h, agent, node);
      } else {
        HandedOverStays(s, r, h, GrantOf(h), w, w.primary.value, clock);
      }
    }
  }

  /** Only a management command's report can hand over. */
  lemma HandOverManaged(s: Store, h: Command, ok: bool, w: Draw, agent: Id, node: Id)
    requires UniqueIds(s.commands) && Queue(s.commands, agent, node) != [] && h == Queue(s.commands, agent, node)[0]
    ensures !IsManaged(h.action) ==> var q := ReportResult(s, h.id, ok, w); var r := ReportedStore(s, h, ok);
                                     q == r.(secrets := r.secrets - {h.id})
  {
    FindReported(s.commands, agent, node, ok);
    if !IsManaged(h.action) {
      OtherReport(s, h, ok, w);
    }
  }

  // ---- Steps before the name is taken ----

  lemma RequestSettled(s: System, o: Occurrence)
    requires Reached(s) && AdminSettled(s) && IsRequest(o.event)
    ensures AdminSettled(Step(s, o))
  {
    StepRequested(s, o);
    RequestStays(s.store, o.event, DrawFor(s, o.given), s.clock, Primary(s.agent, s.node));
  }

  lemma OtherSettled(s: System, o: Occurrence)
    requires Reached(s) && AdminSettled(s) && o.event.QueueOtherEvent?
    ensures AdminSettled(Step(s, o))
  {
    var c := OtherCommand(o.event, DrawFor(s, o.given));
    if IsForeign(c, s.agent, s.node) {
      KeyedInserted(s.store, c, Secrets(None, None), s.agent, s.node);
    }
  }

  /** The oldest pending command is a row of the table, and well formed if it manages something. */
  lemma HeadFacts(s: System, h: Command)
    requires Reached(s) && IsOldest(s, h)
    ensures h in s.store.commands && InQueue(h, s.agent, s.node)
    ensures IsManaged(h.action) ==>
              && Backlog(s) != [] && h == Backlog(s)[0] && h in Backlog(s) && WellFormed(h)
              && SaneCommand(h, s.store.roles, s.nextId) && s.store.adminSecret.Some?
  {
    QueueSound(s.store.commands, s.agent, s.node);
    assert h in Queue(s.store.commands, s.agent, s.node);
    ManagedTail(Queue(s.store.commands, s.agent, s.node));
  }

  /** A management command that is not about skylex_admin leaves it alone. */
  lemma ManagedSpares(pg: RoleTable, h: Command, secrets: map<Id, Secrets>, fault: Fault)
    requires IsManaged(h.action) && WellFormed(h) && (IsRole(h) ==> h.payload.roleName != SKYLEX_ADMIN)
    ensures At(Execute(pg, h, secrets, fault).0, SKYLEX_ADMIN) == At(pg, SKYLEX_ADMIN)
  {
    if !IsRole(h) {
      ManagedPayload(h);
      ExecuteDatabase(pg, h, secrets, fault);
    }
  }

  /** A command that is not about skylex_admin, or that installs the stored password. */
  lemma ExecutedOpens(s: System, h: Command)
    requires Reached(s) && AdminSettled(s) && Unnamed(ViewOf(s)) && IsOldest(s, h) && s.store.adminSecret.Some?
    ensures var after := Executed(s.accounts, s.pg, h, s.store.secrets, NoFault).0;
            && (IsAdmin(h) ==> Opens(after, s.store.adminSecret.value))
            && (!IsAdmin(h) && Opens(s.pg, s.store.adminSecret.value) ==> Opens(after, s.store.adminSecret.value))
  {
    HeadFacts(s, h);
    var after := Executed(s.accounts, s.pg, h, s.store.secrets, NoFault).0;
    if IsManaged(h.action) {
      ExecutedManaged(s.accounts, s.pg, h, s.store.secrets, NoFault);
      ManagedSpares(s.pg, h, s.store.secrets, NoFault);
      assert At(after, SKYLEX_ADMIN) == At(s.pg, SKYLEX_ADMIN);
    } else if !IsAdmin(h) {
      ExecuteOther(s.accounts, s.pg, h, s.store.secrets, NoFault);
      assert At(s.pg, SKYLEX_ADMIN).Some? ==> At(after, SKYLEX_ADMIN) == At(s.pg, SKYLEX_ADMIN);
    }
  }

  lemma PollSettled(s: System, o: Occurrence)
    requires Reached(s) && AdminSettled(s) && Unnamed(ViewOf(s)) && o.event.PollEvent? && o.event.fault == NoFault
    ensures AdminSettled(Step(s, o))
  {
    var q := Queue(s.store.commands, s.agent, s.node);
    if q != [] {
      HeadFacts(s, q[0]);
      if s.store.adminSecret.Some? {
        ExecutedOpens(s, q[0]);
      }
      if o.event.delivered {
        DeliveredSettled(s, o, q[0]);
      }
    }
  }

  lemma DeliveredSettled(s: System, o: Occurrence, h: Command)
    requires Reached(s) && AdminSettled(s) && IsOldest(s, h) && o.event == PollEvent(NoFault, true)
    requires s.store.adminSecret.Some? ==>
               var after := Executed(s.accounts, s.pg, h, s.store.secrets, NoFault).0;
               && (IsAdmin(h) ==> Opens(after, s.store.adminSecret.value))
               && (!IsAdmin(h) && Opens(s.pg, s.store.adminSecret.value) ==> Opens(after, s.store.adminSecret.value))
    ensures AdminSettled(Step(s, o))
  {
    var w := DrawFor(s, o.given);
    var ok := Executed(s.accounts, s.pg, h, s.store.secrets, NoFault).1;
    HeadFacts(s, h);
    DeliveredStep(s, o, h);
    ReportStays(s.store, h, ok, w, s.clock, s.agent, s.node);
    if !IsAdmin(h) && AdminWaiting(s.store.commands, s.agent, s.node) {
      StillWaiting(s.store, h, ok, w, s.agent, s.node);
    }
  }

  /** Reporting another command leaves a pending admin command pending. */
  lemma StillWaiting(s: Store, h: Command, ok: bool, w: Draw, agent: Id, node: Id)
    requires UniqueIds(s.commands) && Queue(s.commands, agent, node) != [] && h == Queue(s.commands, agent, node)[0]
    requires !IsAdmin(h) && AdminWaiting(s.commands, agent, node) && AdminsLead(s.commands, agent, node)
    ensures AdminWaiting(ReportResult(s, h.id, ok, w).commands, agent, node)
  {
    WaitingHead(s.commands, agent, node);
    HandOverManaged(s, h, ok, w, agent, node);
    var c :| c in s.commands && IsAdmin(c) && InQueue(c, agent, node);
    var i :| 0 <= i < |s.commands| && s.commands[i] == c;
    QueueSound(s.commands, agent, node);
    assert h in Queue(s.commands, agent, node);
    var k :| 0 <= k < |s.commands| && s.commands[k] == h;
    assert Report(s.commands, h.id, ok)[i] == Reported(c, h.id, ok) == c;
  }

  lemma SettledStep(s: System, o: Occurrence)
    requires Reached(s) && AdminSettled(s) && Unnamed(ViewOf(s)) && FaultOf(o.event) == NoFault
    ensures AdminSettled(Step(s, o))
  {
    if IsRequest(o.event) {
      RequestSettled(s, o);
    } else if o.event.PollEvent? {
      PollSettled(s, o);
    } else {
      OtherSettled(s, o);
    }
  }

  lemma {:induction false} UntakenRun(s: System, run: seq<Occurrence>)
    requires Initial(s) && AdminSettled(s) && Faultless(run) && !NameTakenBy(s, run)
    ensures Unnamed(ViewOf(Run(s, run))) && AdminSettled(Run(s, run))
  {
    if |run| == 0 {
      InitialBacklog(s);
    } else {
      var n := |run| - 1;
      assert forall o <- run[..n] :: o in run;
      TakenPrefix(s, run);
      UntakenRun(s, run[..n]);
      RunReached(s, run[..n]);
      UnnamedStep(Run(s, run[..n]), run[n]);
      SettledStep(Run(s, run[..n]), run[n]);
    }
  }

  // ---- After the name is taken ----

  ghost predicate Waiting(s: System) {
    AdminWaiting(s.store.commands, s.agent, s.node)
  }

  /** Draining leaves the role only with a row of that name. */
  ghost predicate OnlyWithRow(v: View) {
    SKYLEX_ADMIN in Drained(v.backlog, v.secrets, v.pg) ==> Justified(v.roles, v.backlog, SKYLEX_ADMIN)
  }

  /** The name is a row's now: while the admin command waits the row is there, and nothing else makes the role. */
  ghost predicate Taken(s: System) {
    OnlyWithRow(ViewOf(s)) && s.store.adminSecret.Some? && (Waiting(s) ==> NameTaken(s.store.roles, SKYLEX_ADMIN))
  }

  lemma TakesIt(s: System, o: Occurrence, builtin: set<string>)
    requires Reached(s) && Converging(ViewOf(s), builtin) && TakesName(s, o)
    ensures Taken(Step(s, o))
  {
    StepReached(s, o);
    CreateRoleAccepted(s, SKYLEX_ADMIN, o.event.kind, o.event.password, o.given);
    StepRequested(s, o);
    var a, b := ViewOf(s), ViewOf(Step(s, o));
    var ch := ClassifyCreate(a, b, SKYLEX_ADMIN, o.event.kind, o.event.password);
    assert NameTaken(b.roles, SKYLEX_ADMIN);
    assert ch.id !in a.roles;
    NoDropOfNew(a.backlog, a.roles, a.next, ch.id);
    DropPendingSnoc(a.backlog, ch.command, ch.id);
    assert Justified(b.roles, b.backlog, SKYLEX_ADMIN);
    assert RoleCreated(a, b, SKYLEX_ADMIN, o.event.kind, o.event.password);
  }

  /** Any step but a calm one: what holds outside a set of names holds outside this one name. */
  lemma MovedOnlyWithRow(a: View, b: View, ch: RoleChange, builtin: set<string>)
    requires Sane(a) && Sane(b) && Converging(a, builtin) && IsChange(a, b, ch, NoFault) && !ch.Unrelated?
    requires OnlyWithRow(a)
    ensures OnlyWithRow(b)
  {
    var t, u := Drained(a.backlog, a.secrets, a.pg), Drained(b.backlog, b.secrets, b.pg);
    var others := t.Keys + u.Keys - {SKYLEX_ADMIN};
    assert Converging(a, others);
    MoveConverges(a, b, ch, others);
  }

  lemma CreatingDecides(v: View, pg: RoleTable)
    requires Sane(v) && Keyed(v.backlog, v.secrets) && AllCreating(v.roles, v.backlog)
    requires NameTaken(v.roles, SKYLEX_ADMIN)
    ensures At(Drained(v.backlog, v.secrets, pg), SKYLEX_ADMIN) ==
            At(Drained(v.backlog, v.secrets, v.pg), SKYLEX_ADMIN)
  {
    var id :| id in v.roles && v.roles[id].name == SKYLEX_ADMIN;
    var c :| c in v.backlog && Creates(c, id);
    assert SaneCommand(c, v.roles, v.next) && Decides(c, v.secrets, SKYLEX_ADMIN);
    DrainedDecided(v.backlog, v.secrets, pg, v.pg, SKYLEX_ADMIN);
  }

  /** A calm step: the admin command finds the creation of the row still pending. */
  lemma CalmOnlyWithRow(a: View, b: View)
    requires Sane(a) && OnlyWithRow(a) && IsChange(a, b, Unrelated, NoFault) && Keyed(a.backlog, a.secrets)
    requires At(b.pg, SKYLEX_ADMIN) == At(a.pg, SKYLEX_ADMIN)
             || (NameTaken(a.roles, SKYLEX_ADMIN) && AllCreating(a.roles, a.backlog))
    ensures OnlyWithRow(b)
  {
    DrainedFrame(a.backlog, a.secrets, b.secrets, b.pg);
    if At(b.pg, SKYLEX_ADMIN) == At(a.pg, SKYLEX_ADMIN) {
      DrainedPointwise(a.backlog, a.secrets, a.pg, b.pg, SKYLEX_ADMIN);
    } else {
      CreatingDecides(a, b.pg);
    }
  }

  /** Skylex's three own names are different. */
  predicate OwnNamesDiffer(a: Accounts) {
    SKYLEX_ADMIN != a.superuser && SKYLEX_ADMIN != a.replication
  }

  /** A poll that finds a command of another subsystem touches the role only through the admin command. */
  lemma OtherPolled(s: System, h: Command)
    requires Reached(s) && Taken(s) && OwnNamesDiffer(s.accounts) && IsOldest(s, h) && !IsManaged(h.action)
    ensures var after := Executed(s.accounts, s.pg, h, s.store.secrets, NoFault).0;
            At(after, SKYLEX_ADMIN) == At(s.pg, SKYLEX_ADMIN)
            || (NameTaken(s.store.roles, SKYLEX_ADMIN) && AllCreating(s.store.roles, Backlog(s)))
  {
    ExecuteOther(s.accounts, s.pg, h, s.store.secrets, NoFault);
    QueueSound(s.store.commands, s.agent, s.node);
    assert h in Queue(s.store.commands, s.agent, s.node);
  }

  lemma LostManaged(s: System, o: Occurrence, h: Command)
    requires IsOldest(s, h) && IsManaged(h.action) && o.event == PollEvent(NoFault, false)
    ensures IsChange(ViewOf(s), ViewOf(Step(s, o)), Repeats, NoFault)
  {
    ManagedTail(Queue(s.store.commands, s.agent, s.node));
    ExecutedManaged(s.accounts, s.pg, h, s.store.secrets, NoFault);
  }

  lemma PolledOnlyWithRow(s: System, o: Occurrence, h: Command, builtin: set<string>)
    requires Reached(s) && Converging(ViewOf(s), builtin) && Taken(s) && OwnNamesDiffer(s.accounts)
    requires o.event.PollEvent? && o.event.fault == NoFault && IsOldest(s, h)
    ensures OnlyWithRow(ViewOf(Step(s, o)))
  {
    StepReached(s, o);
    var a, b := ViewOf(s), ViewOf(Step(s, o));
    var ch := Classify(a, b, o.event);
    if IsManaged(h.action) && !o.event.delivered {
      LostManaged(s, o, h);
      MovedOnlyWithRow(a, b, Repeats, builtin);
    } else if !ch.Unrelated? {
      MovedOnlyWithRow(a, b, ch, builtin);
    } else {
      if IsManaged(h.action) {
        ManagedHeadLeaves(s, o, h);
      }
      OtherPolled(s, h);
      CalmOnlyWithRow(a, b);
    }
  }

  lemma ReportedGone(s: Store, h: Command, ok: bool, w: Draw, clock: Time, agent: Id, node: Id)
    requires Bounded(s, w.first, clock) && clock < w.adminAt < w.now && s.adminSecret.Some?
    requires w.primary.Some? ==> w.primary == Some(Primary(agent, node))
    requires Queue(s.commands, agent, node) != [] && h == Queue(s.commands, agent, node)[0]
    requires IsManaged(h.action) ==> WellFormed(h)
    ensures forall c <- ReportResult(s, h.id, ok, w).commands | InQueue(c, agent, node) :: c.id != h.id
  {
    QueueSound(s.commands, agent, node);
    assert h in Queue(s.commands, agent, node);
    ReportedLeft(s, h, ok, agent, node);
    var rows := ReportRows(s, h, ok, w, agent, node);
    if w.primary.Some? && h.payload.DatabasePayload? && h.payload.owner.Some? {
      InsertMembers(ReportedStore(s, h, ok).commands, GrantCommand(GrantOf(h), w, w.primary.value));
    }
  }

  lemma ReportedLeft(s: Store, h: Command, ok: bool, agent: Id, node: Id)
    requires UniqueIds(s.commands) && h in s.commands
    ensures forall c <- ReportedStore(s, h, ok).commands | InQueue(c, agent, node) :: c in s.commands && c.id != h.id
  {
    var r := Report(s.commands, h.id, ok);
    forall c <- r | InQueue(c, agent, node) ensures c in s.commands && c.id != h.id {
      var i :| 0 <= i < |r| && r[i] == c;
      assert r[i] == Reported(s.commands[i], h.id, ok);
    }
  }

  /** A delivered report of a management command shows in the backlog. */
  lemma ManagedHeadLeaves(s: System, o: Occurrence, h: Command)
    requires Reached(s) && IsOldest(s, h) && IsManaged(h.action) && o.event.PollEvent? && o.event.delivered
    ensures Backlog(Step(s, o)) != Backlog(s)
  {
    var ok := Executed(s.accounts, s.pg, h, s.store.secrets, o.event.fault).1;
    var t := ReportResult(s.store, h.id, ok, DrawFor(s, o.given)).commands;
    HeadFacts(s, h);
    DeliveredStep(s, o, h);
    ReportedGone(s.store, h, ok, DrawFor(s, o.given), s.clock, s.agent, s.node);
    NotInBacklog(t, h, s.agent, s.node);
  }

  lemma NotInBacklog(t: seq<Command>, h: Command, agent: Id, node: Id)
    requires forall c <- t | InQueue(c, agent, node) :: c.id != h.id
    ensures h !in Managed(Queue(t, agent, node))
  {
    QueueSound(t, agent, node);
    ManagedSound(Queue(t, agent, node));
  }

  lemma StillOnlyWithRow(s: System, o: Occurrence, builtin: set<string>)
    requires Reached(s) && Converging(ViewOf(s), builtin) && Taken(s) && OwnNamesDiffer(s.accounts)
    requires FaultOf(o.event) == NoFault
    ensures OnlyWithRow(ViewOf(Step(s, o)))
  {
    StepReached(s, o);
    var a, b := ViewOf(s), ViewOf(Step(s, o));
    var q := Queue(s.store.commands, s.agent, s.node);
    if o.event.PollEvent? && q != [] {
      PolledOnlyWithRow(s, o, q[0], builtin);
    } else {
      var ch := Classify(a, b, o.event);
      if ch.Unrelated? {
        CalmOnlyWithRow(a, b);
      } else {
        MovedOnlyWithRow(a, b, ch, builtin);
      }
    }
  }

  /** Requests keep the names of the rows there are. */
  lemma RequestKeepsNames(a: View, b: View, e: Event)
    requires Moved(a, b, e) && IsRequest(e)
    ensures forall id <- a.roles :: id in b.roles && b.roles[id].name == a.roles[id].name
  {
  }

  lemma NoNewWaiting(s: System, o: Occurrence)
    requires Reached(s) && s.store.adminSecret.Some? && Waiting(Step(s, o))
    ensures Waiting(s)
  {
    var w, q := DrawFor(s, o.given), Queue(s.store.commands, s.agent, s.node);
    if IsRequest(o.event) {
      StepRequested(s, o);
      RequestEarly(s.store, o.event, w, s.clock, Primary(s.agent, s.node), Waiting(s));
    } else if o.event.QueueOtherEvent? {
      var c := OtherCommand(o.event, w);
      if IsForeign(c, s.agent, s.node) {
        WaitingInserted(s.store.commands, c, s.agent, s.node);
      }
    } else if q != [] && o.event.delivered {
      ManagedTail(q);
      assert IsManaged(q[0].action) ==> SaneCommand(Backlog(s)[0], s.store.roles, s.nextId);
      var ok := Executed(s.accounts, s.pg, q[0], s.store.secrets, o.event.fault).1;
      ReportEarly(s.store, q[0], ok, w, s.clock, s.agent, s.node, Waiting(s));
    }
  }

  /** While the admin command waits a poll changes no row. */
  lemma WaitingPoll(s: System, o: Occurrence)
    requires Reached(s) && Waiting(s) && o.event.PollEvent?
    ensures Step(s, o).store.roles == s.store.roles
  {
    if o.event.delivered {
      WaitingHead(s.store.commands, s.agent, s.node);
      var h := Queue(s.store.commands, s.agent, s.node)[0];
      var ok := Executed(s.accounts, s.pg, h, s.store.secrets, o.event.fault).1;
      DeliveredStep(s, o, h);
      HandOverManaged(s.store, h, ok, DrawFor(s, o.given), s.agent, s.node);
    }
  }

  /** While the admin command waits no row goes. */
  lemma WaitingKeepsName(s: System, o: Occurrence)
    requires Reached(s) && Taken(s) && Waiting(Step(s, o))
    ensures NameTaken(Step(s, o).store.roles, SKYLEX_ADMIN)
  {
    NoNewWaiting(s, o);
    var id :| id in s.store.roles && s.store.roles[id].name == SKYLEX_ADMIN;
    if IsRequest(o.event) {
      StepReached(s, o);
      RequestKeepsNames(ViewOf(s), ViewOf(Step(s, o)), o.event);
    } else if o.event.PollEvent? {
      WaitingPoll(s, o);
    }
    assert id in Step(s, o).store.roles;
  }

  lemma SecretStays(s: System, o: Occurrence)
    requires Reached(s) && s.store.adminSecret.Some?
    ensures Step(s, o).store.adminSecret == s.store.adminSecret
  {
    var w, q := DrawFor(s, o.given), Queue(s.store.commands, s.agent, s.node);
    if IsRequest(o.event) {
      StepRequested(s, o);
      RequestOnce(s.store, o.event, w, s.clock);
    } else if o.event.PollEvent? && q != [] && o.event.delivered {
      ManagedTail(q);
      assert IsManaged(q[0].action) ==> SaneCommand(Backlog(s)[0], s.store.roles, s.nextId);
      ReportOnce(s.store, q[0], Executed(s.accounts, s.pg, q[0], s.store.secrets, o.event.fault).1, w, s.agent, s.node);
    }
  }

  lemma TakenStep(s: System, o: Occurrence, builtin: set<string>)
    requires Reached(s) && Converging(ViewOf(s), builtin) && Taken(s) && OwnNamesDiffer(s.accounts)
    requires FaultOf(o.event) == NoFault
    ensures Taken(Step(s, o))
  {
    StillOnlyWithRow(s, o, builtin);
    SecretStays(s, o);
    if Waiting(Step(s, o)) {
      WaitingKeepsName(s, o);
    }
  }

  lemma {:induction false} TakenRun(s: System, run: seq<Occurrence>)
    requires Initial(s) && OwnNamesDiffer(s.accounts) && Faultless(run) && NameTakenBy(s, run)
    ensures Taken(Run(s, run))
  {
    var n := |run| - 1;
    assert forall o <- run[..n] :: o in run;
    TakenPrefix(s, run);
    RunConverges(s, run[..n]);
    SameAccounts(s, run[..n]);
    if NameTakenBy(s, run[..n]) {
      TakenRun(s, run[..n]);
      TakenStep(Run(s, run[..n]), run[n], Builtin(s));
    } else {
      TakesIt(Run(s, run[..n]), run[n], Builtin(s));
    }
  }

  // ---- The exact condition ----

  /** The end of a run: nothing is pending on the primary. */
  ghost predicate Quiescent(e: System) {
    Queue(e.store.commands, e.agent, e.node) == []
  }

  lemma QuiescentFacts(e: System)
    requires Quiescent(e)
    ensures Backlog(e) == [] && !Waiting(e)
  {
    if Waiting(e) {
      var c :| c in e.store.commands && IsAdmin(c) && InQueue(c, e.agent, e.node);
      QueueComplete(e.store.commands, e.agent, e.node, c);
    }
  }

  /**
   At the end of every faultless run the stored password opens skylex_admin iff no accepted
   creation took the name, or the row that has it now happens to have that very password.
   */
  lemma AdminPasswordKeptIff(s: System, run: seq<Occurrence>, secret: Secret)
    requires Initial(s) && AdminSettled(s) && OwnNamesDiffer(s.accounts) && Faultless(run)
    requires Quiescent(Run(s, run)) && Run(s, run).store.adminSecret == Some(secret)
    ensures var e := Run(s, run);
            Opens(e.pg, secret) <==>
            !NameTakenBy(s, run)
            || exists id <- e.store.roles ::
                 e.store.roles[id].name == SKYLEX_ADMIN && e.store.roles[id].password == secret
  {
    var e := Run(s, run);
    QuiescentFacts(e);
    EmptyQueueAgrees(s, run);
    if !NameTakenBy(s, run) {
      UntakenRun(s, run);
    } else {
      TakenRun(s, run);
      if SKYLEX_ADMIN in e.pg {
        assert Justified(e.store.roles, [], SKYLEX_ADMIN);
      }
    }
  }

  // ---- Generated passwords ----

  ghost predicate NoneStores(roles: map<Id, Role>, secret: Secret) {
    forall id <- roles :: roles[id].password != secret
  }

  /** Passwords are generated: none of the run's is the given one. */
  ghost predicate Unguessed(run: seq<Occurrence>, secret: Secret) {
    forall o <- run ::
      && (o.event.CreateRoleEvent? ==> o.event.password != secret)
      && (o.event.RotateRoleEvent? ==> o.event.password != secret)
  }

  lemma CreatedPasswords(a: View, b: View, name: string, kind: RoleKind, password: Secret, secret: Secret)
    requires RoleCreated(a, b, name, kind, password) || RoleRetried(a, b, name, kind, password)
    requires NoneStores(a.roles, secret) && password != secret
    ensures NoneStores(b.roles, secret)
  {
    var ch := ClassifyCreate(a, b, name, kind, password);
  }

  lemma PolledPasswords(a: View, b: View, fault: Fault, secret: Secret)
    requires Sane(a) && Settled(a, b, fault) && NoneStores(a.roles, secret)
    ensures NoneStores(b.roles, secret)
  {
    var ch := ClassifySettled(a, b, fault);
    SettledPasswords(a, b, ch, fault);
  }

  lemma RotatedPasswords(a: View, b: View, id: Id, password: Secret, secret: Secret)
    requires RoleRotated(a, b, id, password) && NoneStores(a.roles, secret) && password != secret
    ensures NoneStores(b.roles, secret)
  {
  }

  lemma NoneStoresKept(a: View, b: View, e: Event, secret: Secret)
    requires Sane(a) && Moved(a, b, e) && NoneStores(a.roles, secret)
    requires (e.CreateRoleEvent? || e.RotateRoleEvent?) ==> e.password != secret
    ensures NoneStores(b.roles, secret)
  {
    if Quiet(a, b) || (e.PollEvent? && !e.delivered) {
      assert b.roles == a.roles;
    } else if e.CreateRoleEvent? {
      CreatedPasswords(a, b, e.name, e.kind, e.password, secret);
    } else if e.RotateRoleEvent? {
      RotatedPasswords(a, b, e.roleId, e.password, secret);
    } else if e.PollEvent? {
      PolledPasswords(a, b, e.fault, secret);
    } else {
      PasswordsKept(a, b, e);
    }
  }

  lemma PasswordsKept(a: View, b: View, e: Event)
    requires Moved(a, b, e) && !e.CreateRoleEvent? && !e.RotateRoleEvent? && !e.PollEvent?
    ensures forall id <- b.roles :: id in a.roles && b.roles[id].password == a.roles[id].password
  {
  }

  lemma SettledPasswords(a: View, b: View, ch: RoleChange, fault: Fault)
    requires IsChange(a, b, ch, fault) && !ch.Sets?
    ensures forall id <- b.roles :: id in a.roles && b.roles[id].password == a.roles[id].password
  {
  }

  lemma {:induction false} NoneStoresRun(s: System, run: seq<Occurrence>, secret: Secret)
    requires Initial(s) && Unguessed(run, secret)
    ensures NoneStores(Run(s, run).store.roles, secret)
  {
    if |run| > 0 {
      var n := |run| - 1;
      assert forall o <- run[..n] :: o in run;
      NoneStoresRun(s, run[..n], secret);
      RunReached(s, run[..n]);
      StepReached(Run(s, run[..n]), run[n]);
      NoneStoresKept(ViewOf(Run(s, run[..n])), ViewOf(Run(s, run)), run[n].event, secret);
    }
  }

  /** With generated passwords the stored one opens skylex_admin iff no accepted creation took the name. */
  lemma AdminPasswordLostIff(s: System, run: seq<Occurrence>, secret: Secret)
    requires Initial(s) && AdminSettled(s) && OwnNamesDiffer(s.accounts) && Faultless(run) && Unguessed(run, secret)
    requires Quiescent(Run(s, run)) && Run(s, run).store.adminSecret == Some(secret)
    ensures !Opens(Run(s, run).pg, secret) <==> NameTakenBy(s, run)
  {
    AdminPasswordKeptIff(s, run, secret);
    NoneStoresRun(s, run, secret);
  }
}
