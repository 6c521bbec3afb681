/**
 Draining ends: polling without faults or losses empties the queue, grants and lazy
 provisioning queued on the way included, and PostgreSQL's roles then are the rows.
 */
module Draining {
  import opened Wrappers
  import opened Commands
  import opened Metadata
  import opened ManagedRoleRepo
  import DB = ManagedDatabaseRepo
  import opened ManagementService
  import opened PostgresRoles
  import opened AgentProtocol
  import opened ControlLoop
  import opened ControlView
  import opened RoleChanges
  import opened RoleConvergence

  /** An ensure may be followed by the admin command and a grant. */
  function Weight(c: Command): nat {
    if c.action == PgEnsureDatabase then 3 else 1
  }

  function TotalWeight(q: seq<Command>): nat {
    if |q| == 0 then 0 else TotalWeight(q[..|q| - 1]) + Weight(q[|q| - 1])
  }

  lemma WeightConcat(a: seq<Command>, b: seq<Command>)
    ensures TotalWeight(a + b) == TotalWeight(a) + TotalWeight(b)
  {
    if |b| == 0 {
      assert a + b == a;
    } else {
      assert (a + b)[..|a| + |b| - 1] == a + b[..|b| - 1];
      WeightConcat(a, b[..|b| - 1]);
    }
  }

  lemma WeightTail(q: seq<Command>)
    requires q != []
    ensures TotalWeight(q) == Weight(q[0]) + TotalWeight(q[1..])
  {
    assert q == [q[0]] + q[1..];
    WeightConcat([q[0]], q[1..]);
  }

  lemma WeightInsert(t: seq<Command>, c: Command, agent: Id, node: Id)
    requires c.status == Pending && Addressed(c, agent, node)
    ensures TotalWeight(Queue(Insert(t, c), agent, node)) == TotalWeight(Queue(t, agent, node)) + Weight(c)
  {
    QueueAfterInsert(t, c, agent, node);
    WeightEntered(Queue(t, agent, node), c, Queue(Insert(t, c), agent, node));
  }

  lemma {:induction false} WeightEntered(q: seq<Command>, c: Command, r: seq<Command>)
    requires Entered(q, c, r)
    ensures TotalWeight(r) == TotalWeight(q) + Weight(c)
  {
    var n := |r| - 1;
    if !(r[n] == c && r[..n] == q) {
      WeightEntered(q[..|q| - 1], c, r[..n]);
    }
  }

  lemma AdminWeight(s: Store, w: Draw, p: Primary)
    ensures TotalWeight(Queue(EnsureAdmin(s, w, p).0.commands, p.agent, p.node))
         <= TotalWeight(Queue(s.commands, p.agent, p.node)) + 1
  {
    if s.adminSecret.None? {
      WeightInsert(s.commands, AdminCommand(w, p), p.agent, p.node);
    }
  }

  lemma HandOverCommands(s: Store, g: DB.GrantRequest, w: Draw, p: Primary)
    requires w.primary == Some(p)
    ensures var base, q := EnsureAdmin(s, w, p).0.commands, HandOver(s, g, w).commands;
            q == base || q == Insert(base, GrantCommand(g, w, p))
  {
  }

  /** A hand-over queues at most two commands of weight one. */
  lemma HandOverWeight(s: Store, g: DB.GrantRequest, w: Draw, agent: Id, node: Id)
    requires w.primary.Some? ==> w.primary.value == Primary(agent, node)
    ensures TotalWeight(Queue(HandOver(s, g, w).commands, agent, node)) <=
            TotalWeight(Queue(s.commands, agent, node)) + 2
  {
    if w.primary.Some? {
      AdminWeight(s, w, w.primary.value);
      HandOverCommands(s, g, w, w.primary.value);
      WeightInsert(EnsureAdmin(s, w, w.primary.value).0.commands, GrantCommand(g, w, w.primary.value), agent, node);
    }
  }

  /** A handled report takes more weight off the queue than it may add. */
  lemma ReportShrinks(s: Store, h: Command, ok: bool, w: Draw, agent: Id, node: Id)
    requires UniqueIds(s.commands) && Queue(s.commands, agent, node) != [] && h == Queue(s.commands, agent, node)[0]
    requires IsManaged(h.action) ==> WellFormed(h)
    requires w.primary.Some? ==> w.primary.value == Primary(agent, node)
    ensures TotalWeight(Queue(ReportResult(s, h.id, ok, w).commands, agent, node)) <
            TotalWeight(Queue(s.commands, agent, node))
  {
    FindReported(s.commands, agent, node, ok);
    QueueAfterReport(s.commands, agent, node, ok);
    WeightTail(Queue(s.commands, agent, node));
    if !IsManaged(h.action) {
      OtherReport(s, h, ok, w);
    } else {
      ManagedPayload(h);
      if h.payload.RolePayload? {
        RoleReport(s, h, ok, w);
      } else {
        DatabaseReported(s, h, ok, w);
        if Granting(h, ok) && h.payload.databaseId in s.databases {
          HandOverWeight(ReportedStore(s, h, ok), GrantOf(h), w, agent, node);
        }
      }
    }
  }

  function CleanPoll(given: Circumstance): Occurrence {
    Occurrence(PollEvent(NoFault, true), given)
  }

  lemma PollShrinks(s: System, given: Circumstance)
    requires Reached(s) && Queue(s.store.commands, s.agent, s.node) != []
    ensures var t := Step(s, CleanPoll(given));
            && t.agent == s.agent && t.node == s.node
            && TotalWeight(Queue(t.store.commands, t.agent, t.node)) <
                TotalWeight(Queue(s.store.commands, s.agent, s.node))
  {
    var q := Queue(s.store.commands, s.agent, s.node);
    ManagedTail(q);
    assert IsManaged(q[0].action) ==> SaneCommand(Backlog(s)[0], s.store.roles, s.nextId);
    var ok := Executed(s.accounts, s.pg, q[0], s.store.secrets, NoFault).1;
    ReportShrinks(s.store, q[0], ok, DrawFor(s, given), s.agent, s.node);
  }

  /** Clean polls, one after the other. */
  function Polls(n: nat, given: Circumstance): seq<Occurrence> {
    if n == 0 then [] else Polls(n - 1, given) + [CleanPoll(given)]
  }

  lemma {:induction false} RunConcat(s: System, a: seq<Occurrence>, b: seq<Occurrence>)
    ensures Run(s, a + b) == Run(Run(s, a), b)
  {
    if |b| == 0 {
      assert a + b == a;
    } else {
      assert (a + b)[..|a| + |b| - 1] == a + b[..|b| - 1];
      RunConcat(s, a, b[..|b| - 1]);
    }
  }

  function Load(s: System): nat {
    TotalWeight(Queue(s.store.commands, s.agent, s.node))
  }

  lemma RunPolls(s: System, m: nat, given: Circumstance)
    ensures Run(s, Polls(m + 1, given)) == Run(Step(s, CleanPoll(given)), Polls(m, given))
  {
    var one := [CleanPoll(given)];
    RunConcat(s, one, Polls(m, given));
    assert one[..0] == [];
    PollsFront(m, given);
  }

  /** One clean poll: less load, and the rest of the polls go on from there. */
  lemma OnePoll(s: System, given: Circumstance) returns (t: System)
    requires Reached(s) && Queue(s.store.commands, s.agent, s.node) != []
    ensures Reached(t) && Load(t) < Load(s)
    ensures forall m: nat :: Run(s, Polls(m + 1, given)) == Run(t, Polls(m, given))
  {
    t := Step(s, CleanPoll(given));
    PollShrinks(s, given);
    StepReached(s, CleanPoll(given));
    forall m: nat ensures Run(s, Polls(m + 1, given)) == Run(t, Polls(m, given)) {
      RunPolls(s, m, given);
    }
  }

  ghost predicate Idle(s: System) {
    Queue(s.store.commands, s.agent, s.node) == []
  }

  lemma {:induction false} PollsDrain(s: System, given: Circumstance) returns (n: nat)
    requires Reached(s)
    ensures Idle(Run(s, Polls(n, given)))
    decreases Load(s)
  {
    if Idle(s) {
      n := 0;
    } else {
      var t := OnePoll(s, given);
      var m := PollsDrain(t, given);
      n := m + 1;
    }
  }

  lemma {:induction false} PollsFront(m: nat, given: Circumstance)
    ensures [CleanPoll(given)] + Polls(m, given) == Polls(m + 1, given)
  {
    if m > 0 {
      PollsFront(m - 1, given);
      assert [CleanPoll(given)] + Polls(m, given) == ([CleanPoll(given)] + Polls(m - 1, given)) + [CleanPoll(given)];
    } else {
      assert Polls(1, given) == Polls(0, given) + [CleanPoll(given)];
    }
  }

  lemma {:induction false} PollsFaultless(n: nat, given: Circumstance)
    ensures Faultless(Polls(n, given))
  {
    if n > 0 {
      PollsFaultless(n - 1, given);
    }
  }

  /**
   From every point of every faultless run, some number of clean polls empties the queue. Then
   every row is served as stored, and PostgreSQL holds no other role but its own and Skylex's.
   */
  lemma EventuallyConverges(s: System, run: seq<Occurrence>, given: Circumstance) returns (n: nat)
    requires Initial(s) && Faultless(run)
    ensures var e := Run(s, run + Polls(n, given));
            && Idle(e)
            && (forall id <- e.store.roles :: Served(e.store.roles[id], e.pg))
            && forall name | name !in Builtin(s) :: name in e.pg <==> NameTaken(e.store.roles, name)
  {
    RunReached(s, run);
    n := PollsDrain(Run(s, run), given);
    RunConcat(s, run, Polls(n, given));
    PollsFaultless(n, given);
    var all := run + Polls(n, given);
    var e := Run(s, all);
    assert Faultless(all);
    NoneManaged(Queue(e.store.commands, e.agent, e.node));
    EmptyQueueAgrees(s, all);
  }
}
