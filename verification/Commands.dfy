/**
 The `agent_commands` table and the per-node queue the server serves from it.

 Rows are kept in `created_at` order, which is the order every query of the server asks
 for, so "ORDER BY created_at ASC" is the order of the sequence.
 */
module Commands {
  import opened Wrappers

  type Id = nat
  type Time = int

  datatype Status = Pending | Completed | Failed

  datatype Action =
    | PgPreflight | PgInstallNative | PgInstallDocker | PgPurgeNative | PgAdoptNative
    | PgInit | PgStart | PgStop | PgCreateReplUser | PgBasebackup | RepointReplica
    | PgPromote | PgRewind | PgApplySettings | AgentDeactivate
    | PgEnsureAdminRole | PgEnsureRole | PgRotateRolePassword | PgDropRole
    | PgEnsureDatabase | PgGrantDatabasePrivileges | PgDropDatabase
    | PgApplyHba | PgApplyTls | PgApplyExtensions

  datatype RoleKind = Admin | ReadWrite | ReadOnly | Custom

  /** The parsed payload; the JSON text itself is not part of this model. */
  datatype Payload =
    | NoPayload
    | RolePayload(roleId: Id, roleOperation: Id, roleName: string, roleKind: RoleKind)
    | DatabasePayload(databaseId: Id, databaseOperation: Id, databaseName: string,
                      owner: Option<string>, grantee: Option<string>)
    | AddressPayload(host: string, port: int)

  datatype Command = Command(
    id: Id, agentId: Id, nodeId: Id, action: Action, payload: Payload, status: Status, createdAt: Time)

  ghost predicate UniqueIds(t: seq<Command>) {
    forall i, j | 0 <= i < j < |t| :: t[i].id != t[j].id
  }

  predicate HasId(t: seq<Command>, id: Id) {
    exists c <- t :: c.id == id
  }

  /** The rows an agent may fetch and report on: addressed by agent or by node. */
  predicate Addressed(c: Command, agent: Id, node: Id) {
    c.agentId == agent || c.nodeId == node
  }

  /** The rows the agent's fetch chooses from. */
  predicate InQueue(c: Command, agent: Id, node: Id) {
    c.status == Pending && Addressed(c, agent, node)
  }

  /** INSERT: the row takes its place in `created_at` order, after rows of the same instant. */
  function Insert(t: seq<Command>, c: Command): seq<Command> {
    if |t| == 0 || t[|t| - 1].createdAt <= c.createdAt then t + [c]
    else Insert(t[..|t| - 1], c) + [t[|t| - 1]]
  }

  /** The pending rows of one node, oldest first. */
  function Queue(t: seq<Command>, agent: Id, node: Id): seq<Command> {
    if |t| == 0 then []
    else
      var c := t[|t| - 1];
      Queue(t[..|t| - 1], agent, node) + if c.status == Pending && Addressed(c, agent, node) then [c] else []
  }

  function Reported(c: Command, id: Id, success: bool): Command {
    if c.id == id then c.(status := if success then Completed else Failed) else c
  }

  /** UPDATE of status and result by primary key, with no guard on the current status. */
  function Report(t: seq<Command>, id: Id, success: bool): (r: seq<Command>)
    ensures |r| == |t|
    ensures forall i | 0 <= i < |t| :: r[i] == Reported(t[i], id, success)
  {
    seq(|t|, i requires 0 <= i < |t| => Reported(t[i], id, success))
  }

  // ---- Facts about the queue ----

  lemma QueueSound(t: seq<Command>, agent: Id, node: Id)
    ensures forall c <- Queue(t, agent, node) :: c in t && c.status == Pending && Addressed(c, agent, node)
  {
  }

  lemma QueueComplete(t: seq<Command>, agent: Id, node: Id, c: Command)
    requires c in t && c.status == Pending && Addressed(c, agent, node)
    ensures c in Queue(t, agent, node)
  {
  }

  /** What an agent may be handed: whatever is pending for it or for its node. */
  lemma QueueIs(t: seq<Command>, agent: Id, node: Id, c: Command)
    ensures c in Queue(t, agent, node) <==> c in t && c.status == Pending && (c.agentId == agent || c.nodeId == node)
  {
    QueueSound(t, agent, node);
    if c in t && c.status == Pending && Addressed(c, agent, node) {
      QueueComplete(t, agent, node, c);
    }
  }

  lemma QueueUnaffected(t: seq<Command>, agent: Id, node: Id, id: Id, success: bool)
    requires forall c <- Queue(t, agent, node) :: c.id != id
    ensures Queue(Report(t, id, success), agent, node) == Queue(t, agent, node)
  {
    if |t| > 0 {
      var n := |t| - 1;
      assert Report(t, id, success)[..n] == Report(t[..n], id, success);
      QueueUnaffected(t[..n], agent, node, id, success);
    }
  }

  /** Reporting the head of a queue removes the head and nothing else. */
  lemma QueueAfterReport(t: seq<Command>, agent: Id, node: Id, success: bool)
    requires UniqueIds(t) && Queue(t, agent, node) != []
    ensures Queue(Report(t, Queue(t, agent, node)[0].id, success), agent, node) == Queue(t, agent, node)[1..]
  {
    var n, id := |t| - 1, Queue(t, agent, node)[0].id;
    assert Report(t, id, success)[..n] == Report(t[..n], id, success);
    QueueSound(t[..n], agent, node);
    if Queue(t[..n], agent, node) == [] {
      QueueUnaffected(t[..n], agent, node, id, success);
    } else {
      QueueAfterReport(t[..n], agent, node, success);
    }
  }

  lemma InsertMembers(t: seq<Command>, c: Command)
    ensures forall x :: x in Insert(t, c) <==> x in t || x == c
    ensures |Insert(t, c)| == |t| + 1
  {
  }

  lemma InsertUnique(t: seq<Command>, c: Command)
    requires UniqueIds(t) && !HasId(t, c.id)
    ensures UniqueIds(Insert(t, c))
  {
    if !(|t| == 0 || t[|t| - 1].createdAt <= c.createdAt) {
      var n := |t| - 1;
      InsertUnique(t[..n], c);
      InsertMembers(t[..n], c);
      forall i | 0 <= i < n + 1 ensures Insert(t[..n], c)[i].id != t[n].id {
        assert Insert(t[..n], c)[i] in Insert(t[..n], c);
      }
    }
  }

  lemma QueueSnoc(t: seq<Command>, c: Command, agent: Id, node: Id)
    ensures Queue(t + [c], agent, node) ==
            Queue(t, agent, node) + if c.status == Pending && Addressed(c, agent, node) then [c] else []
  {
  }

  /** after is before with one c put in somewhere. */
  ghost predicate Entered(before: seq<Command>, c: Command, after: seq<Command>) {
    && after != []
    && var n := |after| - 1;
    || (after[n] == c && after[..n] == before)
    || (before != [] && after[n] == before[|before| - 1] && Entered(before[..|before| - 1], c, after[..n]))
  }

  /** A row for another agent does not show in this one's queue. */
  lemma {:induction false} QueueAfterOther(t: seq<Command>, c: Command, agent: Id, node: Id)
    requires !InQueue(c, agent, node)
    ensures Queue(Insert(t, c), agent, node) == Queue(t, agent, node)
  {
    if |t| == 0 || t[|t| - 1].createdAt <= c.createdAt {
      QueueSnoc(t, c, agent, node);
    } else {
      var n := |t| - 1;
      QueueAfterOther(t[..n], c, agent, node);
      QueueSnoc(Insert(t[..n], c), t[n], agent, node);
    }
  }

  lemma EnteredSnoc(before: seq<Command>, c: Command, after: seq<Command>, last: Command)
    requires Entered(before, c, after)
    ensures Entered(before + [last], c, after + [last])
  {
    assert (before + [last])[..|before|] == before && (after + [last])[..|after|] == after;
  }

  lemma EnteredLast(q: seq<Command>, c: Command)
    ensures Entered(q, c, q + [c])
  {
    assert (q + [c])[..|q|] == q;
  }

  /** A row behind a newcomer enters its queue, or does not show there. */
  lemma EnteredBehind(t: seq<Command>, c: Command, u: seq<Command>, last: Command, agent: Id, node: Id)
    requires Entered(Queue(t, agent, node), c, Queue(u, agent, node))
    ensures Entered(Queue(t + [last], agent, node), c, Queue(u + [last], agent, node))
  {
    QueueSnoc(t, last, agent, node);
    QueueSnoc(u, last, agent, node);
    if InQueue(last, agent, node) {
      EnteredSnoc(Queue(t, agent, node), c, Queue(u, agent, node), last);
    } else {
      assert Queue(t, agent, node) + [] == Queue(t, agent, node) && Queue(u, agent, node) + [] == Queue(u, agent, node);
    }
  }

  /** A new pending row enters its own queue at some position and leaves the others in order. */
  lemma {:induction false} QueueAfterInsert(t: seq<Command>, c: Command, agent: Id, node: Id)
    requires InQueue(c, agent, node)
    ensures Entered(Queue(t, agent, node), c, Queue(Insert(t, c), agent, node))
  {
    if |t| == 0 || t[|t| - 1].createdAt <= c.createdAt {
      QueueSnoc(t, c, agent, node);
      EnteredLast(Queue(t, agent, node), c);
    } else {
      var n := |t| - 1;
      QueueAfterInsert(t[..n], c, agent, node);
      EnteredBehind(t[..n], c, Insert(t[..n], c), t[n], agent, node);
      assert t == t[..n] + [t[n]];
    }
  }

  /** The oldest pending row comes before every other pending row of the same agent. */
  lemma {:induction false} HeadIndex(t: seq<Command>, agent: Id, node: Id) returns (j: nat)
    requires Queue(t, agent, node) != []
    ensures j < |t| && t[j] == Queue(t, agent, node)[0]
    ensures forall k | 0 <= k < j :: !(t[k].status == Pending && Addressed(t[k], agent, node))
  {
    var n := |t| - 1;
    if Queue(t[..n], agent, node) == [] {
      j := n;
      forall k | 0 <= k < n ensures !(t[k].status == Pending && Addressed(t[k], agent, node)) {
        if t[k].status == Pending && Addressed(t[k], agent, node) {
          QueueComplete(t[..n], agent, node, t[..n][k]);
        }
      }
    } else {
      j := HeadIndex(t[..n], agent, node);
    }
  }

  lemma {:induction false} InsertSplices(t: seq<Command>, c: Command) returns (k: nat)
    ensures k <= |t| && Insert(t, c) == t[..k] + [c] + t[k..]
  {
    if |t| == 0 || t[|t| - 1].createdAt <= c.createdAt {
      k := |t|;
    } else {
      var n := |t| - 1;
      k := InsertSplices(t[..n], c);
      assert t[..n][k..] + [t[n]] == t[k..];
    }
  }
}
