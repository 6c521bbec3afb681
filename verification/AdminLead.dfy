/**
 skylex_admin is provisioned before anything is managed: its command is older than every
 management command, and while it is still pending the creation of every row is pending too.
 So the admin command never undoes what a management command has done.
 */
module AdminLead {
  import opened Wrappers
  import opened Commands
  import opened Metadata
  import opened ManagedRoleRepo
  import DB = ManagedDatabaseRepo
  import opened ManagementService
  import opened PostgresRoles
  import opened AgentProtocol
  import opened ControlLoop
  import opened ControlView
  import opened RequestForms

  // ---- Age in the table ----

  lemma LeadInsert(t: seq<Command>, c: Command, agent: Id, node: Id)
    requires AdminsLead(t, agent, node) && !IsAdmin(c) && !IsManaged(c.action)
    ensures AdminsLead(Insert(t, c), agent, node)
  {
    var k := InsertSplices(t, c);
    var u := Insert(t, c);
    forall i, j | 0 <= i < j < |u| && IsAdmin(u[j]) && InQueue(u[i], agent, node) && InQueue(u[j], agent, node)
      ensures !IsManaged(u[i].action)
    {
      assert u[j] == t[if j < k then j else j - 1] && j != k;
      assert i != k ==> u[i] == t[if i < k then i else i - 1];
    }
  }

  lemma LeadAppend(t: seq<Command>, c: Command, agent: Id, node: Id)
    requires AdminsLead(t, agent, node)
    requires IsAdmin(c) ==> forall x <- t | InQueue(x, agent, node) :: !IsManaged(x.action)
    ensures AdminsLead(t + [c], agent, node)
  {
    assert forall i | 0 <= i < |t| :: t[i] in t;
  }

  lemma LeadReport(t: seq<Command>, id: Id, ok: bool, agent: Id, node: Id)
    requires AdminsLead(t, agent, node)
    ensures AdminsLead(Report(t, id, ok), agent, node)
  {
    var r := Report(t, id, ok);
    forall i, j | 0 <= i < j < |r| && IsAdmin(r[j]) && InQueue(r[i], agent, node) && InQueue(r[j], agent, node)
      ensures !IsManaged(r[i].action)
    {
      assert r[i] == Reported(t[i], id, ok) && r[j] == Reported(t[j], id, ok);
    }
  }

  /** Whatever is pending after a report was pending before it. */
  lemma WaitingReported(t: seq<Command>, id: Id, ok: bool, agent: Id, node: Id)
    ensures AdminWaiting(Report(t, id, ok), agent, node) ==> AdminWaiting(t, agent, node)
  {
    var r := Report(t, id, ok);
    if AdminWaiting(r, agent, node) {
      var c :| c in r && IsAdmin(c) && InQueue(c, agent, node);
      var i :| 0 <= i < |r| && r[i] == c;
      assert r[i] == Reported(t[i], id, ok) && t[i] in t;
    }
  }

  lemma WaitingInserted(t: seq<Command>, c: Command, agent: Id, node: Id)
    requires !IsAdmin(c)
    ensures AdminWaiting(Insert(t, c), agent, node) ==> AdminWaiting(t, agent, node)
  {
    InsertMembers(t, c);
  }

  /** While the admin command waits, the oldest pending command is not a management command. */
  lemma WaitingHead(t: seq<Command>, agent: Id, node: Id)
    requires AdminsLead(t, agent, node) && AdminWaiting(t, agent, node)
    ensures Queue(t, agent, node) != [] && !IsManaged(Queue(t, agent, node)[0].action)
  {
    var c :| c in t && IsAdmin(c) && InQueue(c, agent, node);
    QueueComplete(t, agent, node, c);
    var j := HeadIndex(t, agent, node);
    var k :| 0 <= k < |t| && t[k] == c;
    QueueSound(t, agent, node);
    assert t[j] in Queue(t, agent, node) && k >= j;
  }

  // ---- The three parts of the invariant on a store ----

  /** What holds of the store alone; `waiting` is whether the admin command may be pending. */
  ghost predicate StoreEarly(s: Store, agent: Id, node: Id, waiting: bool) {
    && (s.adminSecret.None? ==> NothingManaged(s, agent, node)) && AdminsLead(s.commands, agent, node)
    && (AdminWaiting(s.commands, agent, node) ==> waiting)
  }

  lemma ProvisionedEarly(s: Store, w: Draw, p: Primary, clock: Time, waiting: bool)
    requires CommandsBounded(s.commands, w.first, clock) && clock < w.adminAt
    requires StoreEarly(s, p.agent, p.node, waiting) && (s.adminSecret.None? ==> waiting)
    ensures StoreEarly(EnsureAdmin(s, w, p).0, p.agent, p.node, waiting) && EnsureAdmin(s, w, p).0.adminSecret.Some?
  {
    if s.adminSecret.None? {
      LeadAppend(s.commands, AdminCommand(w, p), p.agent, p.node);
    }
  }

  lemma QueuedEarly(t: seq<Command>, d: Dispatch, action: Action, payload: Payload, next: Id, clock: Time,
                    agent: Id, node: Id)
    requires CommandsBounded(t, next, clock) && clock < d.now && action != PgEnsureAdminRole
    requires AdminsLead(t, agent, node)
    requires QueueCommands(t, d, action, payload).Some?
    ensures var q := QueueCommands(t, d, action, payload).value;
            AdminsLead(q, agent, node) && (AdminWaiting(q, agent, node) ==> AdminWaiting(t, agent, node))
  {
    var queued := t;
    if d.before.Some? {
      LeadInsert(t, BeforeCommand(d), agent, node);
      InsertMembers(t, BeforeCommand(d));
      queued := Insert(t, BeforeCommand(d));
    }
    LeadAppend(queued, MainCommand(d, action, payload), agent, node);
  }

  lemma RequestEarly(s: Store, e: Event, w: Draw, clock: Time, p: Primary, waiting: bool)
    requires Bounded(s, w.first, clock) && clock < w.adminAt < w.now && IsRequest(e)
    requires w.primary.Some? ==> w.primary == Some(p)
    requires StoreEarly(s, p.agent, p.node, waiting) && (s.adminSecret.None? ==> waiting)
    ensures StoreEarly(Requested(s, e, w), p.agent, p.node, waiting)
  {
    if e.ApplyExtensionsEvent? {
      if w.primary.Some? {
        var base, c := EnsureAdmin(s, w, p).0, ExtensionsCommand(w, p);
        ProvisionedEarly(s, w, p, clock, waiting);
        LeadInsert(base.commands, c, p.agent, p.node);
        WaitingInserted(base.commands, c, p.agent, p.node);
      }
      return;
    }
    var f := RequestForm(s, e, w, clock);
    if w.primary.Some? {
      ProvisionedEarly(s, w, p, clock, waiting);
    }
    if f.Some? {
      AdminCommands(s, w, p, w.first, clock);
      QueuedEarly(EnsureAdmin(s, w, p).0.commands, DispatchFor(s, w, p), f.value.action, f.value.payload, w.first + 1,
                  w.adminAt, p.agent, p.node);
    }
  }

  lemma HandOverEarly(s: Store, g: DB.GrantRequest, w: Draw, clock: Time, p: Primary, waiting: bool)
    requires CommandsBounded(s.commands, w.first, clock) && clock < w.adminAt < w.now && w.primary == Some(p)
    requires StoreEarly(s, p.agent, p.node, waiting) && s.adminSecret.Some?
    ensures StoreEarly(HandOver(s, g, w), p.agent, p.node, waiting) && HandOver(s, g, w).adminSecret.Some?
  {
    var grant := GrantCommand(g, w, p);
    InsertBounded(s.commands, grant, w.first, clock, w.now);
    LeadAppend(s.commands, grant, p.agent, p.node);
    WaitingInserted(s.commands, grant, p.agent, p.node);
  }

  /** A management command is pending only where the admin password is stored. */
  lemma ManagedMeansProvisioned(s: Store, h: Command, agent: Id, node: Id, waiting: bool)
    requires StoreEarly(s, agent, node, waiting) && Queue(s.commands, agent, node) != []
    requires h == Queue(s.commands, agent, node)[0] && IsManaged(h.action)
    ensures s.adminSecret.Some?
  {
    QueueSound(s.commands, agent, node);
    assert h in Queue(s.commands, agent, node);
  }

  lemma ReportedEarly(s: Store, h: Command, ok: bool, agent: Id, node: Id, waiting: bool)
    requires StoreEarly(s, agent, node, waiting)
    ensures StoreEarly(ReportedStore(s, h, ok), agent, node, waiting)
  {
    var t := s.commands;
    LeadReport(t, h.id, ok, agent, node);
    WaitingReported(t, h.id, ok, agent, node);
    forall c <- Report(t, h.id, ok) | InQueue(c, agent, node) ensures c in t {
      var i :| 0 <= i < |t| && Report(t, h.id, ok)[i] == c;
      assert c == Reported(t[i], h.id, ok) && t[i] in t;
    }
  }

  lemma ReportEarly(s: Store, h: Command, ok: bool, w: Draw, clock: Time, agent: Id, node: Id, waiting: bool)
    requires Bounded(s, w.first, clock) && clock < w.adminAt < w.now
    requires w.primary.Some? ==> w.primary == Some(Primary(agent, node))
    requires Queue(s.commands, agent, node) != [] && h == Queue(s.commands, agent, node)[0]
    requires IsManaged(h.action) ==> WellFormed(h)
    requires StoreEarly(s, agent, node, waiting)
    ensures StoreEarly(ReportResult(s, h.id, ok, w), agent, node, waiting)
  {
    ReportedEarly(s, h, ok, agent, node, waiting);
    FindReported(s.commands, agent, node, ok);
    if !IsManaged(h.action) {
      OtherReport(s, h, ok, w);
    } else {
      ManagedMeansProvisioned(s, h, agent, node, waiting);
      ManagedPayload(h);
      if h.payload.RolePayload? {
        RoleReport(s, h, ok, w);
      } else {
        DatabaseEarly(s, h, ok, w, clock, agent, node, waiting);
      }
    }
  }

  lemma DatabaseEarly(s: Store, h: Command, ok: bool, w: Draw, clock: Time, agent: Id, node: Id, waiting: bool)
    requires Bounded(s, w.first, clock) && clock < w.adminAt < w.now && s.adminSecret.Some?
    requires w.primary.Some? ==> w.primary == Some(Primary(agent, node))
    requires var f := Find(Report(s.commands, h.id, ok), h.id); f.Some? && SameRequest(f.value, h)
    requires h.payload.DatabasePayload? && WellFormed(h) && StoreEarly(ReportedStore(s, h, ok), agent, node, waiting)
    ensures StoreEarly(ReportResult(s, h.id, ok, w), agent, node, waiting)
  {
    DatabaseReported(s, h, ok, w);
    if Granting(h, ok) && h.payload.databaseId in s.databases && w.primary.Some? {
      ReportKeepsBounds(s.commands, h.id, ok, w.first, clock);
      HandOverEarly(ReportedStore(s, h, ok), GrantOf(h), w, clock, w.primary.value, waiting);
    }
  }

  // ---- Steps ----

  lemma CreatingKept(a: View, b: View, e: Event)
    requires Moved(a, b, e) && (IsRequest(e) || Quiet(a, b)) && AllCreating(a.roles, a.backlog)
    ensures AllCreating(b.roles, b.backlog)
  {
    forall id <- b.roles ensures exists c <- b.backlog :: Creates(c, id) {
      if id in a.roles {
        var c :| c in a.backlog && Creates(c, id);
        assert c in b.backlog;
      } else {
        assert b.backlog[|b.backlog| - 1] in b.backlog;
      }
    }
  }

  ghost predicate Ready(s: System) {
    Fresh(s) && ProvisionedFirst(s) && forall c <- Backlog(s) :: WellFormed(c)
  }

  lemma RequestStepEarly(s: System, o: Occurrence)
    requires Ready(s) && IsRequest(o.event)
    ensures ProvisionedFirst(Step(s, o))
  {
    var w := DrawFor(s, o.given);
    StepRequested(s, o);
    RequestEarly(s.store, o.event, w, s.clock, Primary(s.agent, s.node), AllCreating(s.store.roles, Backlog(s)));
    StepMoves(s, o);
    if AllCreating(s.store.roles, Backlog(s)) {
      CreatingKept(ViewOf(s), ViewOf(Step(s, o)), o.event);
    }
  }

  lemma ForeignEarly(s: System, c: Command)
    requires ProvisionedFirst(s) && IsForeign(c, s.agent, s.node)
    ensures ProvisionedFirst(s.(store := s.store.(commands := Insert(s.store.commands, c))))
  {
    LeadInsert(s.store.commands, c, s.agent, s.node);
    InsertMembers(s.store.commands, c);
    WaitingInserted(s.store.commands, c, s.agent, s.node);
    BacklogUnchanged(s.store.commands, c, s.agent, s.node);
  }

  lemma OtherStepEarly(s: System, o: Occurrence)
    requires Ready(s) && o.event.QueueOtherEvent?
    ensures ProvisionedFirst(Step(s, o))
  {
    var c := OtherCommand(o.event, DrawFor(s, o.given));
    if IsForeign(c, s.agent, s.node) {
      ForeignEarly(s, c);
      assert Step(s, o).store == s.store.(commands := Insert(s.store.commands, c));
    }
  }

  lemma PollStepEarly(s: System, o: Occurrence)
    requires Ready(s) && o.event.PollEvent?
    ensures ProvisionedFirst(Step(s, o))
  {
    var q := Queue(s.store.commands, s.agent, s.node);
    if q != [] && o.event.delivered {
      var ok := Executed(s.accounts, s.pg, q[0], s.store.secrets, o.event.fault).1;
      ManagedTail(q);
      assert IsManaged(q[0].action) ==> q[0] in Backlog(s);
      HandledEarly(s, q[0], ok, DrawFor(s, o.given));
    }
  }

  lemma HandledEarly(s: System, h: Command, ok: bool, w: Draw)
    requires Fresh(s) && ProvisionedFirst(s) && IsOldest(s, h) && (IsManaged(h.action) ==> WellFormed(h))
    requires w.first == s.nextId && s.clock < w.adminAt < w.now
    requires w.primary.Some? ==> w.primary == Some(Primary(s.agent, s.node))
    ensures var q := ReportResult(s.store, h.id, ok, w);
            StoreEarly(q, s.agent, s.node, AllCreating(q.roles, Managed(Queue(q.commands, s.agent, s.node))))
  {
    var t := s.store.commands;
    ReportEarly(s.store, h, ok, w, s.clock, s.agent, s.node, AdminWaiting(t, s.agent, s.node));
    if AdminWaiting(t, s.agent, s.node) {
      WaitingHead(t, s.agent, s.node);
      FindReported(t, s.agent, s.node, ok);
      OtherReport(s.store, h, ok, w);
      ReportFacts(t, s.agent, s.node, ok, s.nextId, s.clock);
    }
  }

  /** Every step keeps the provisioning ahead of management. */
  lemma StepEarly(s: System, o: Occurrence)
    requires Ready(s)
    ensures ProvisionedFirst(Step(s, o))
  {
    if IsRequest(o.event) {
      RequestStepEarly(s, o);
    } else if o.event.PollEvent? {
      PollStepEarly(s, o);
    } else {
      OtherStepEarly(s, o);
    }
  }
}
