/** The repository of `agent_commands`: inserts, updates by key, and the two list queries. */
module AgentCommandRepo {
  import opened Commands

  predicate InBatch(c: Command, nodes: set<Id>, actions: set<Action>) {
    c.status == Pending && c.nodeId in nodes && c.action in actions
  }

  function Cancelled(c: Command, nodes: set<Id>, actions: set<Action>): Command {
    if InBatch(c, nodes, actions) then c.(status := Failed) else c
  }

  function Cancel(t: seq<Command>, nodes: set<Id>, actions: set<Action>): (r: seq<Command>)
    ensures |r| == |t|
    ensures forall i | 0 <= i < |t| :: r[i] == Cancelled(t[i], nodes, actions)
  {
    seq(|t|, i requires 0 <= i < |t| => Cancelled(t[i], nodes, actions))
  }

  function Take<T>(s: seq<T>, n: nat): seq<T> {
    if |s| <= n then s else s[..n]
  }

  /** The rows of a set of nodes, oldest first, whatever their status. */
  function OfNodes(t: seq<Command>, nodes: set<Id>): seq<Command> {
    if |t| == 0 then []
    else OfNodes(t[..|t| - 1], nodes) + if t[|t| - 1].nodeId in nodes then [t[|t| - 1]] else []
  }

  const LIST_LIMIT: nat := 1000

  /** The oldest pending rows of one agent, at most `limit` of them; a limit outside 1 to 100 means 100. */
  method ListPendingLimit(t: seq<Command>, agent: Id, node: Id, limit: int) returns (cmds: seq<Command>)
    ensures cmds == Take(Queue(t, agent, node), if 0 < limit <= 100 then limit else 100)
  {
    var bound := if limit <= 0 || limit > 100 then 100 else limit;
    cmds := [];
    var i := 0;
    while i < |t| && |cmds| < bound
      invariant 0 <= i <= |t|
      invariant cmds == Take(Queue(t[..i], agent, node), bound)
    {
      assert t[..i + 1][..i] == t[..i];
      if t[i].status == Pending && Addressed(t[i], agent, node) {
        cmds := cmds + [t[i]];
      }
      i := i + 1;
    }
    QueuePrefix(t, agent, node, i);
    assert t[..|t|] == t;
  }

  lemma {:induction false} QueuePrefix(t: seq<Command>, agent: Id, node: Id, i: nat)
    requires i <= |t|
    ensures Queue(t[..i], agent, node) <= Queue(t, agent, node)
  {
    if i < |t| {
      var n := |t| - 1;
      QueuePrefix(t[..n], agent, node, i);
      assert t[..n][..i] == t[..i];
    } else {
      assert t[..i] == t;
    }
  }

  class AgentCommandRepository {
    var rows: seq<Command>

    constructor ()
      ensures rows == []
    {
      rows := [];
    }

    method Create(c: Command) returns (ok: bool)
      requires c.status == Pending
      modifies this
      ensures ok == !HasId(old(rows), c.id)
      ensures rows == if ok then Insert(old(rows), c) else old(rows)
    {
      ok := !HasId(rows, c.id);
      if ok {
        rows := Insert(rows, c);
      }
    }

    /** No guard on the current status: a later report overwrites an earlier one. */
    method UpdateResult(id: Id, success: bool)
      modifies this
      ensures rows == Report(old(rows), id, success)
    {
      rows := Report(rows, id, success);
    }

    method MarkPendingFailedByNodeIDs(nodes: set<Id>, actions: set<Action>)
      modifies this
      ensures rows == Cancel(old(rows), nodes, actions)
      ensures |rows| == |old(rows)|
      ensures forall i | 0 <= i < |rows| :: var c := old(rows)[i];
                rows[i] == if c.status == Pending && c.nodeId in nodes && c.action in actions
                           then c.(status := Failed) else c
    {
      if nodes == {} || actions == {} {
        assert Cancel(rows, nodes, actions) == rows;
        return;
      }
      rows := Cancel(rows, nodes, actions);
    }

    /** The oldest commands of the nodes; at most a thousand are ever looked at. */
    method ListByNodeIDs(nodes: set<Id>) returns (cmds: seq<Command>)
      ensures cmds == Take(OfNodes(rows, nodes), 1000)
    {
      cmds := [];
      var i := 0;
      while i < |rows| && |cmds| < LIST_LIMIT
        invariant 0 <= i <= |rows|
        invariant cmds == Take(OfNodes(rows[..i], nodes), LIST_LIMIT)
      {
        assert rows[..i + 1][..i] == rows[..i];
        if rows[i].nodeId in nodes {
          cmds := cmds + [rows[i]];
        }
        i := i + 1;
      }
      OfNodesPrefix(rows, nodes, i);
      assert rows[..|rows|] == rows;
    }
  }

  lemma {:induction false} OfNodesPrefix(t: seq<Command>, nodes: set<Id>, i: nat)
    requires i <= |t|
    ensures OfNodes(t[..i], nodes) <= OfNodes(t, nodes)
  {
    if i < |t| {
      var n := |t| - 1;
      OfNodesPrefix(t[..n], nodes, i);
      assert t[..n][..i] == t[..i];
    } else {
      assert t[..i] == t;
    }
  }
}
