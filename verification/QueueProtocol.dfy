/**
 Safety of the command queue over whole runs, for any number of agents: commands may be
 queued, handed out, reported once, late, twice or never, and cancelled in batches.
 */
module QueueProtocol {
  import opened Wrappers
  import opened Commands
  import opened Metadata
  import opened AgentCommandRepo

  datatype Happening =
    | Enqueue(command: Command)
    | PollAt(agent: Id, node: Id, success: bool, delivered: bool)   // fetch, execute, report
    | ReportAt(id: Id, success: bool)                               // a repeated or belated report
    | CancelAt(nodes: set<Id>, actions: set<Action>)                // a cluster being deleted

  /** The command an agent executes in this step. */
  function Executed(t: seq<Command>, h: Happening): Option<Id> {
    if h.PollAt? && Queue(t, h.agent, h.node) != [] then Some(Queue(t, h.agent, h.node)[0].id) else None
  }

  /** Whether this step records a result for the command. */
  predicate Records(t: seq<Command>, h: Happening, id: Id) {
    match h
    case PollAt(_, _, _, delivered) => delivered && Executed(t, h) == Some(id)
    case ReportAt(reported, _) => reported == id
    case CancelAt(nodes, actions) => exists c <- t :: c.id == id && InBatch(c, nodes, actions)
    case Enqueue(_) => false
  }

  function Next(t: seq<Command>, h: Happening): seq<Command> {
    match h
    case Enqueue(c) => if HasId(t, c.id) || c.status != Pending then t else Insert(t, c)
    case PollAt(_, _, success, delivered) =>
      if delivered && Executed(t, h).Some? then Report(t, Executed(t, h).value, success) else t
    case ReportAt(id, success) => Report(t, id, success)
    case CancelAt(nodes, actions) => Cancel(t, nodes, actions)
  }

  function After(t: seq<Command>, trace: seq<Happening>): seq<Command> {
    if |trace| == 0 then t else Next(After(t, trace[..|trace| - 1]), trace[|trace| - 1])
  }

  ghost predicate Sorted(t: seq<Command>) {
    forall i, j | 0 <= i < j < |t| :: t[i].createdAt <= t[j].createdAt
  }

  ghost predicate InOrder(t: seq<Command>) {
    UniqueIds(t) && Sorted(t)
  }

  /** The same row later on: only its status may have changed, and never back to pending. */
  ghost predicate LaterRow(c: Command, d: Command) {
    d.(status := c.status) == c && (d.status == Pending ==> c.status == Pending)
  }

  lemma {:induction false} InsertInOrder(t: seq<Command>, c: Command)
    requires Sorted(t)
    ensures Sorted(Insert(t, c))
  {
    if !(|t| == 0 || t[|t| - 1].createdAt <= c.createdAt) {
      var n := |t| - 1;
      InsertInOrder(t[..n], c);
      var u, v := Insert(t[..n], c), Insert(t, c);
      InsertMembers(t[..n], c);
      forall i | 0 <= i < |u| ensures u[i].createdAt <= t[n].createdAt {
        assert u[i] in u;
      }
    }
  }

  lemma NextInOrder(t: seq<Command>, h: Happening)
    requires InOrder(t)
    ensures InOrder(Next(t, h))
  {
    if h.Enqueue? {
      if HasId(t, h.command.id) || h.command.status != Pending {
        assert Next(t, h) == t;
      } else {
        InsertUnique(t, h.command);
        InsertInOrder(t, h.command);
      }
    } else {
      SameShape(t, Next(t, h));
    }
  }

  lemma SameShape(t: seq<Command>, u: seq<Command>)
    requires InOrder(t) && |u| == |t|
    requires forall i | 0 <= i < |t| :: u[i].id == t[i].id && u[i].createdAt == t[i].createdAt
    ensures InOrder(u)
  {
  }

  lemma NextKeepsRow(t: seq<Command>, h: Happening, c: Command) returns (d: Command)
    requires InOrder(t) && c in t
    ensures d in Next(t, h) && LaterRow(c, d)
    ensures c.status == Pending && d.status != Pending ==> Records(t, h, c.id)
    ensures Records(t, h, c.id) ==> d.status != Pending
  {
    var i :| 0 <= i < |t| && t[i] == c;
    d := c;
    match h {
      case Enqueue(x) =>
        InsertMembers(t, x);
      case PollAt(_, _, _, _) =>
        d := Next(t, h)[i];
      case ReportAt(_, _) =>
        d := Next(t, h)[i];
      case CancelAt(nodes, actions) =>
        d := Next(t, h)[i];
    }
  }

  lemma AfterSnoc(t: seq<Command>, trace: seq<Happening>, k: nat)
    requires k < |trace|
    ensures After(t, trace[..k + 1]) == Next(After(t, trace[..k]), trace[k])
  {
    assert trace[..k + 1][..k] == trace[..k];
  }

  lemma {:induction false} AfterInOrder(t: seq<Command>, trace: seq<Happening>)
    requires InOrder(t)
    ensures InOrder(After(t, trace))
  {
    if |trace| > 0 {
      AfterInOrder(t, trace[..|trace| - 1]);
      NextInOrder(After(t, trace[..|trace| - 1]), trace[|trace| - 1]);
    }
  }

  ghost predicate Unrecorded(t: seq<Command>, trace: seq<Happening>, i: nat, j: nat, id: Id)
    requires j <= |trace|
  {
    forall k | i <= k < j :: !Records(After(t, trace[..k]), trace[k], id)
  }

  lemma UnrecordedSnoc(t: seq<Command>, trace: seq<Happening>, i: nat, j: nat, id: Id)
    requires i <= j < |trace| && Unrecorded(t, trace, i, j, id) && !Records(After(t, trace[..j]), trace[j], id)
    ensures Unrecorded(t, trace, i, j + 1, id)
  {
  }

  /** A row is never lost, and once it has left pending it stays out. */
  lemma {:induction false} RowsLast(t: seq<Command>, trace: seq<Happening>, i: nat, j: nat, c: Command)
          returns (d: Command)
    requires InOrder(t) && i <= j <= |trace| && c in After(t, trace[..i])
    ensures d in After(t, trace[..j]) && LaterRow(c, d)
    ensures d.status == Pending ==> Unrecorded(t, trace, i, j, c.id)
  {
    if i == j {
      d := c;
    } else {
      var e := RowsLast(t, trace, i, j - 1, c);
      AfterSnoc(t, trace, j - 1);
      AfterInOrder(t, trace[..j - 1]);
      d := NextKeepsRow(After(t, trace[..j - 1]), trace[j - 1], e);
      if d.status == Pending {
        UnrecordedSnoc(t, trace, i, j - 1, c.id);
      }
    }
  }

  /** Whoever is executed has nothing older pending at the same agent. */
  lemma NothingOlderPending(t: seq<Command>, agent: Id, node: Id, x: Command)
    requires InOrder(t) && Queue(t, agent, node) != [] && x in t && Addressed(x, agent, node)
    requires x.createdAt < Queue(t, agent, node)[0].createdAt
    ensures x.status != Pending
  {
    var j := HeadIndex(t, agent, node);
    var i :| 0 <= i < |t| && t[i] == x;
    assert i < j;
  }

  lemma ExecutedRow(t: seq<Command>, h: Happening) returns (c: Command)
    requires Executed(t, h).Some?
    ensures c in t && c.id == Executed(t, h).value && c.status == Pending && c == Queue(t, h.agent, h.node)[0]
  {
    QueueSound(t, h.agent, h.node);
    c := Queue(t, h.agent, h.node)[0];
  }

  lemma SameId(t: seq<Command>, c: Command, d: Command)
    requires UniqueIds(t) && c in t && d in t && c.id == d.id
    ensures c == d
  {
  }

  /**
   First in, first out: when a command is executed, every earlier one queued for the same
   agent has left pending, and it never comes back.
   */
  lemma OlderHasLeft(t: seq<Command>, trace: seq<Happening>, i: nat, j: nat, x: Command, y: Command)
    requires InOrder(t) && i <= j < |trace|
    requires x in After(t, trace[..i]) && y in After(t, trace[..i]) && x.createdAt < y.createdAt
    requires trace[j].PollAt? && Addressed(x, trace[j].agent, trace[j].node)
    requires Executed(After(t, trace[..j]), trace[j]) == Some(y.id)
    ensures forall k, d | j <= k <= |trace| && d in After(t, trace[..k]) && d.id == x.id :: d.status != Pending
  {
    var now := After(t, trace[..j]);
    AfterInOrder(t, trace[..j]);
    var x1 := RowsLast(t, trace, i, j, x);
    var y1 := RowsLast(t, trace, i, j, y);
    var head := ExecutedRow(now, trace[j]);
    SameId(now, head, y1);
    NothingOlderPending(now, trace[j].agent, trace[j].node, x1);
    forall k, d | j <= k <= |trace| && d in After(t, trace[..k]) && d.id == x.id ensures d.status != Pending {
      var x2 := RowsLast(t, trace, j, k, x1);
      AfterInOrder(t, trace[..k]);
      SameId(After(t, trace[..k]), d, x2);
    }
  }

  /** A command that left pending is never handed out again. */
  lemma NeverHandedOutAgain(t: seq<Command>, trace: seq<Happening>, i: nat, j: nat, x: Command)
    requires InOrder(t) && i <= j < |trace| && x in After(t, trace[..i]) && x.status != Pending
    ensures Executed(After(t, trace[..j]), trace[j]) != Some(x.id)
  {
    var now := After(t, trace[..j]);
    AfterInOrder(t, trace[..j]);
    var x1 := RowsLast(t, trace, i, j, x);
    if Executed(now, trace[j]) == Some(x.id) {
      var head := ExecutedRow(now, trace[j]);
      SameId(now, head, x1);
    }
  }

  /** A command runs a second time only if no result of it was recorded in between, the first run's included. */
  lemma RerunOnlyIfUnrecorded(t: seq<Command>, trace: seq<Happening>, i: nat, j: nat, id: Id)
    requires InOrder(t) && i < j < |trace|
    requires Executed(After(t, trace[..i]), trace[i]) == Some(id)
    requires Executed(After(t, trace[..j]), trace[j]) == Some(id)
    ensures !trace[i].delivered
    ensures forall k | i <= k < j :: !Records(After(t, trace[..k]), trace[k], id)
  {
    var c := ExecutedRow(After(t, trace[..i]), trace[i]);
    var d := RowsLast(t, trace, i, j, c);
    AfterInOrder(t, trace[..j]);
    var e := ExecutedRow(After(t, trace[..j]), trace[j]);
    SameId(After(t, trace[..j]), d, e);
    assert !Records(After(t, trace[..i]), trace[i], id);
  }

  /** The same rows, the one with the id completed or failed. */
  ghost predicate Closed(t: seq<Command>, u: seq<Command>, id: Id, success: bool) {
    |u| == |t| && forall i | 0 <= i < |t| ::
      u[i] == if t[i].id == id then t[i].(status := if success then Completed else Failed) else t[i]
  }

  /** A fresh pending row joins; anything else is refused. */
  lemma EnqueueAdds(t: seq<Command>, c: Command)
    ensures if c.status == Pending && forall x <- t :: x.id != c.id
            then |Next(t, Enqueue(c))| == |t| + 1 && forall x :: x in Next(t, Enqueue(c)) <==> x in t || x == c
            else Next(t, Enqueue(c)) == t
  {
    InsertMembers(t, c);
  }

  /** A delivered poll closes the oldest pending row, a report the row it names, a cancellation fails a batch. */
  lemma OthersClose(t: seq<Command>, agent: Id, node: Id, success: bool, delivered: bool, id: Id, nodes: set<Id>,
                    actions: set<Action>)
    ensures var q, u := Queue(t, agent, node), Next(t, PollAt(agent, node, success, delivered));
            if delivered && q != [] then Closed(t, u, q[0].id, success) else u == t
    ensures Closed(t, Next(t, ReportAt(id, success)), id, success)
    ensures var u := Next(t, CancelAt(nodes, actions));
            |u| == |t| && forall i | 0 <= i < |t| ::
              u[i] == if t[i].status == Pending && t[i].nodeId in nodes && t[i].action in actions
                      then t[i].(status := Failed) else t[i]
  {
  }
}
