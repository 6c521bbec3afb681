/** Creating and deleting clusters: the node assignment and its guards. Queued commands are modelled in Provisioning. */
module ClusterService {
  import opened Wrappers
  import opened Commands
  import opened Topology
  import Repo = AgentCommandRepo

  datatype CreateRequest = CreateRequest(name: string, engineKnown: bool, replicaCount: int, nodeIds: seq<Id>)

  /** Why a request fails; the last one is a run-time panic inside the open transaction. */
  datatype CreateError =
    NameTaken | BadEngine | WrongNodeCount | MissingNode | AlreadyAssigned | MissingAgent | IndexPanic

  predicate NameExists(clusters: map<Id, Cluster>, name: string) {
    exists c :: c in clusters && clusters[c].name == name
  }

  function Selected(nodes: seq<Node>, ids: seq<Id>): Option<seq<Node>> {
    if |ids| == 0 then Some([])
    else
      var rest := Selected(nodes, ids[..|ids| - 1]);
      var n := NodeById(nodes, ids[|ids| - 1]);
      if rest.Some? && n.Some? then Some(rest.value + [n.value]) else None
  }

  function RoleAt(i: nat): NodeRole {
    if i == 0 then PrimaryRole else ReplicaRole
  }

  function Join(n: Node, id: Id, c: Id, role: NodeRole): Node {
    if n.id == id then n.(cluster := Some(c), role := role) else n
  }

  function JoinRow(nodes: seq<Node>, id: Id, c: Id, role: NodeRole): (r: seq<Node>)
    ensures |r| == |nodes|
    ensures forall i | 0 <= i < |nodes| :: r[i] == Join(nodes[i], id, c, role)
  {
    seq(|nodes|, i requires 0 <= i < |nodes| => Join(nodes[i], id, c, role))
  }

  /** One UPDATE per entry of the list: a repeated node keeps the role of its last entry. */
  function Assigned(nodes: seq<Node>, ids: seq<Id>, c: Id): seq<Node> {
    if |ids| == 0 then nodes
    else JoinRow(Assigned(nodes, ids[..|ids| - 1], c), ids[|ids| - 1], c, RoleAt(|ids| - 1))
  }

  function Refusal(s: Tables, r: CreateRequest): Option<CreateError> {
    var selected := Selected(s.nodes, r.nodeIds);
    if NameExists(s.clusters, r.name) then Some(NameTaken)
    else if !r.engineKnown then Some(BadEngine)
    else if |r.nodeIds| != r.replicaCount + 1 then Some(WrongNodeCount)
    else if selected.None? then Some(MissingNode)
    else if exists n <- selected.value :: n.cluster.Some? then Some(AlreadyAssigned)
    else if exists n <- selected.value :: n.agent == "" then Some(MissingAgent)
    else if |selected.value| == 0 then Some(IndexPanic)
    else None
  }

  function Created(s: Tables, r: CreateRequest, c: Id): Tables {
    if Refusal(s, r).Some? then s
    else s.(nodes := Assigned(s.nodes, r.nodeIds, c),
            clusters := s.clusters[c := Cluster(r.name, r.replicaCount, Creating)])
  }

  function Leave(n: Node, c: Id): Node {
    if n.cluster == Some(c) then n.(cluster := None, role := NoRole) else n
  }

  function Released(nodes: seq<Node>, c: Id): (r: seq<Node>)
    ensures |r| == |nodes|
    ensures forall i | 0 <= i < |nodes| :: r[i] == Leave(nodes[i], c)
  {
    seq(|nodes|, i requires 0 <= i < |nodes| => Leave(nodes[i], c))
  }

  predicate StillOnline(nodes: seq<Node>, c: Id) {
    exists n <- nodes :: n.cluster == Some(c) && n.status == Online
  }

  /** `busy` stands for a pending lifecycle command or a status detail that says running. */
  function Deleted(s: Tables, c: Id, busy: bool): Tables {
    if c !in s.clusters || busy || StillOnline(s.nodes, c) then s
    else s.(nodes := Released(s.nodes, c), clusters := s.clusters - {c})
  }

  function MembersOf(nodes: seq<Node>, c: Id): set<Id> {
    set n <- nodes | n.cluster == Some(c) :: n.id
  }

  function CancelledRow(x: Command, nodes: set<Id>): Command {
    if x.status == Pending && x.nodeId in nodes then x.(status := Failed) else x
  }

  /** Deleting a cluster fails whatever is still pending on its nodes. */
  function CancelledAll(t: seq<Command>, nodes: set<Id>): (r: seq<Command>)
    ensures |r| == |t|
    ensures forall i | 0 <= i < |t| :: r[i] == CancelledRow(t[i], nodes)
  {
    seq(|t|, i requires 0 <= i < |t| => CancelledRow(t[i], nodes))
  }

  /** No command is left for the nodes of a deleted cluster, and the queues of other nodes are as they were. */
  lemma {:induction false} DeletionEmptiesQueues(t: seq<Command>, nodes: set<Id>, agent: Id, node: Id)
    ensures (forall x <- t | Addressed(x, agent, node) :: x.nodeId in nodes)
              ==> Queue(CancelledAll(t, nodes), agent, node) == []
    ensures (forall x <- t | Addressed(x, agent, node) :: x.nodeId !in nodes)
              ==> Queue(CancelledAll(t, nodes), agent, node) == Queue(t, agent, node)
  {
    if |t| > 0 {
      var n := |t| - 1;
      assert CancelledAll(t, nodes)[..n] == CancelledAll(t[..n], nodes);
      DeletionEmptiesQueues(t[..n], nodes, agent, node);
      assert t[n] in t && forall x <- t[..n] :: x in t;
    }
  }

  class ClusterServer {
    const db: TopologyStore
    const queue: Repo.AgentCommandRepository

    constructor (db: TopologyStore, queue: Repo.AgentCommandRepository)
      ensures this.db == db && this.queue == queue
    {
      this.db, this.queue := db, queue;
    }

    method ResolveNodes(ids: seq<Id>) returns (selected: Option<seq<Node>>)
      ensures selected == Selected(db.nodes, ids)
    {
      var found := [];
      var i := 0;
      while i < |ids|
        invariant 0 <= i <= |ids| && Selected(db.nodes, ids[..i]) == Some(found)
      {
        assert ids[..i + 1][..i] == ids[..i];
        var n := NodeById(db.nodes, ids[i]);
        if n.None? {
          SelectedPrefix(db.nodes, ids, i + 1);
          return None;
        }
        found := found + [n.value];
        i := i + 1;
      }
      assert ids[..i] == ids;
      return Some(found);
    }

    method AssignNodes(ids: seq<Id>, c: Id)
      modifies db`nodes
      ensures db.nodes == Assigned(old(db.nodes), ids, c)
    {
      var i := 0;
      while i < |ids|
        invariant 0 <= i <= |ids| && db.nodes == Assigned(old(db.nodes), ids[..i], c)
      {
        assert ids[..i + 1][..i] == ids[..i];
        db.nodes := JoinRow(db.nodes, ids[i], c, if i == 0 then PrimaryRole else ReplicaRole);
        i := i + 1;
      }
      assert ids[..i] == ids;
    }

    method CreateCluster(r: CreateRequest, c: Id) returns (e: Option<CreateError>)
      modifies db
      ensures e == Refusal(old(db.State()), r) && db.State() == Created(old(db.State()), r, c)
    {
      if NameExists(db.clusters, r.name) {
        return Some(NameTaken);
      }
      if !r.engineKnown {
        return Some(BadEngine);
      }
      if |r.nodeIds| != r.replicaCount + 1 {
        return Some(WrongNodeCount);
      }
      var selected := ResolveNodes(r.nodeIds);
      if selected.None? {
        return Some(MissingNode);
      }
      if exists n <- selected.value :: n.cluster.Some? {
        return Some(AlreadyAssigned);
      }
      if exists n <- selected.value :: n.agent == "" {
        return Some(MissingAgent);
      }
      if |selected.value| == 0 {
        // roles[0] of an empty slice: the deferred rollback undoes the insert.
        return Some(IndexPanic);
      }
      db.clusters := db.clusters[c := Cluster(r.name, r.replicaCount, Creating)];
      AssignNodes(r.nodeIds, c);
      return None;
    }

    method DeleteCluster(c: Id, busy: bool)
      modifies db, queue
      ensures db.State() == Deleted(old(db.State()), c, busy)
      ensures queue.rows == if db.State() == old(db.State()) then old(queue.rows)
                            else CancelledAll(old(queue.rows), MembersOf(old(db.nodes), c))
      ensures db.State() != old(db.State()) ==> |queue.rows| == |old(queue.rows)|
      ensures db.State() != old(db.State()) ==> forall i | 0 <= i < |queue.rows| ::
                var x := old(queue.rows)[i];
                queue.rows[i] ==
                if x.status == Pending && exists n <- old(db.nodes) :: n.cluster == Some(c) && n.id == x.nodeId
                then x.(status := Failed) else x
    {
      if c !in db.clusters || busy || StillOnline(db.nodes, c) {
        return;
      }
      queue.rows := CancelledAll(queue.rows, MembersOf(db.nodes, c));
      db.nodes := Released(db.nodes, c);
      db.clusters := db.clusters - {c};
    }
  }

  lemma {:induction false} SelectedPrefix(nodes: seq<Node>, ids: seq<Id>, i: nat)
    requires i <= |ids| && Selected(nodes, ids[..i]).None?
    ensures Selected(nodes, ids).None?
  {
    if i < |ids| {
      assert ids[..|ids| - 1][..i] == ids[..i];
      SelectedPrefix(nodes, ids[..|ids| - 1], i);
    } else {
      assert ids[..i] == ids;
    }
  }

  lemma {:induction false} SelectedFree(nodes: seq<Node>, ids: seq<Id>)
    requires Selected(nodes, ids).Some?
    ensures forall id <- ids :: NodeById(nodes, id).Some? && NodeById(nodes, id).value in Selected(nodes, ids).value
  {
    if |ids| > 0 {
      SelectedFree(nodes, ids[..|ids| - 1]);
      assert ids == ids[..|ids| - 1] + [ids[|ids| - 1]];
    }
  }

  // ---- The new cluster's shape ----

  function SetOf(ids: seq<Id>): set<Id> {
    set id <- ids
  }

  ghost predicate Distinct(ids: seq<Id>) {
    forall i, j | 0 <= i < j < |ids| :: ids[i] != ids[j]
  }

  lemma SetOfSnoc(a: seq<Id>, x: Id)
    ensures |SetOf(a + [x])| == |SetOf(a)| + if x in a then 0 else 1
  {
    assert SetOf(a + [x]) == SetOf(a) + {x};
    assert x in a ==> SetOf(a) + {x} == SetOf(a);
  }

  lemma DistinctSnoc(a: seq<Id>, x: Id)
    ensures Distinct(a + [x]) <==> Distinct(a) && x !in a
  {
    var b := a + [x];
    assert forall i | 0 <= i < |a| :: b[i] == a[i];
    if Distinct(b) {
      forall i | 0 <= i < |a| ensures a[i] != x {
        assert b[i] != b[|a|];
      }
      assert forall i, j | 0 <= i < j < |a| :: b[i] != b[j];
    }
  }

  lemma {:induction false} SetSize(ids: seq<Id>)
    ensures |SetOf(ids)| <= |ids| && (|SetOf(ids)| == |ids| <==> Distinct(ids))
  {
    if |ids| > 0 {
      var n := |ids| - 1;
      SetSize(ids[..n]);
      SetOfSnoc(ids[..n], ids[n]);
      DistinctSnoc(ids[..n], ids[n]);
      assert ids == ids[..n] + [ids[n]];
    }
  }

  /** A node of the new cluster: whether it is, and with which role. */
  ghost predicate JoinedAs(n: Node, m: Node, ids: seq<Id>, c: Id) {
    if n.id !in ids then m == n
    else m == n.(cluster := Some(c), role := if n.id in ids[1..] then ReplicaRole else PrimaryRole)
  }

  lemma {:induction false} AssignedAs(nodes: seq<Node>, ids: seq<Id>, c: Id)
    ensures |Assigned(nodes, ids, c)| == |nodes|
    ensures forall i | 0 <= i < |nodes| :: |ids| > 0 ==> JoinedAs(nodes[i], Assigned(nodes, ids, c)[i], ids, c)
  {
    if |ids| > 0 {
      var n := |ids| - 1;
      AssignedAs(nodes, ids[..n], c);
    }
  }

  ghost predicate Free(nodes: seq<Node>, c: Id) {
    forall n <- nodes :: n.cluster != Some(c)
  }

  lemma AssignedUnique(nodes: seq<Node>, ids: seq<Id>, c: Id)
    requires UniqueNodes(nodes)
    ensures UniqueNodes(Assigned(nodes, ids, c))
  {
  }

  ghost predicate AllKnown(nodes: seq<Node>, ids: seq<Id>) {
    forall id <- ids :: exists n <- nodes :: n.id == id
  }

  /** The last UPDATE of a node decides: whoever is repeated after the first entry is a replica. */
  lemma AssignedMembers(nodes: seq<Node>, ids: seq<Id>, c: Id)
    requires UniqueNodes(nodes) && Free(nodes, c) && AllKnown(nodes, ids) && |ids| > 0
    ensures Members(Assigned(nodes, ids, c), c, ReplicaRole) == SetOf(ids[1..])
    ensures Members(Assigned(nodes, ids, c), c, PrimaryRole) == {ids[0]} - SetOf(ids[1..])
  {
    var after := Assigned(nodes, ids, c);
    AssignedAs(nodes, ids, c);
    AssignedUnique(nodes, ids, c);
    assert forall id :: id in ids <==> id == ids[0] || id in ids[1..] by {
      assert ids == [ids[0]] + ids[1..];
    }
    forall x, role: NodeRole
      ensures x in Members(after, c, role) <==> x in ids && role == if x in ids[1..] then ReplicaRole else PrimaryRole
    {
      if x in Members(after, c, role) {
        var i := MemberIndex(after, c, role, x);
        assert JoinedAs(nodes[i], after[i], ids, c) && nodes[i] in nodes;
      }
      if x in ids {
        var n :| n in nodes && n.id == x;
        var i :| 0 <= i < |nodes| && nodes[i] == n;
        assert JoinedAs(nodes[i], after[i], ids, c);
        MemberAt(after, i, c, role);
      }
    }
  }

  /** One primary and as many replicas as the cluster row says. */
  ghost predicate Shaped(s: Tables, c: Id) {
    c in s.clusters && |Members(s.nodes, c, PrimaryRole)| == 1
    && |Members(s.nodes, c, ReplicaRole)| == s.clusters[c].replicas
  }

  lemma ShapedIffDistinct(ids: seq<Id>)
    requires |ids| > 0
    ensures (|{ids[0]} - SetOf(ids[1..])| == 1 && |SetOf(ids[1..])| == |ids| - 1) <==> Distinct(ids)
  {
    SetSize(ids[1..]);
    if ids[0] in ids[1..] {
      assert {ids[0]} - SetOf(ids[1..]) == {};
      var i :| 0 <= i < |ids| - 1 && ids[1..][i] == ids[0];
      assert ids[i + 1] == ids[0];
    } else {
      assert {ids[0]} - SetOf(ids[1..]) == {ids[0]};
      assert forall i | 0 <= i < |ids| - 1 :: ids[1..][i] == ids[i + 1] && ids[1..][i] in ids[1..];
    }
  }

  lemma AcceptedFacts(s: Tables, r: CreateRequest)
    requires Refusal(s, r).None? && UniqueNodes(s.nodes)
    ensures |r.nodeIds| > 0 && AllKnown(s.nodes, r.nodeIds)
    ensures forall n <- s.nodes :: n.id in r.nodeIds ==> n.cluster.None?
  {
    SelectedFree(s.nodes, r.nodeIds);
    forall id <- r.nodeIds ensures exists n <- s.nodes :: n.id == id {
      NodeByIdIn(s.nodes, id);
    }
    forall n <- s.nodes | n.id in r.nodeIds ensures n.cluster.None? {
      NodeByIdFinds(s.nodes, n);
    }
  }

  lemma NodeByIdIn(nodes: seq<Node>, id: Id)
    requires NodeById(nodes, id).Some?
    ensures NodeById(nodes, id).value in nodes && NodeById(nodes, id).value.id == id
  {
  }

  /** An accepted creation gives one primary and the requested replicas iff no node is listed twice. */
  lemma CreatedShapedIff(s: Tables, r: CreateRequest, c: Id)
    requires Refusal(s, r).None? && UniqueNodes(s.nodes) && Free(s.nodes, c)
    ensures Shaped(Created(s, r, c), c) <==> Distinct(r.nodeIds)
  {
    AcceptedFacts(s, r);
    AssignedMembers(s.nodes, r.nodeIds, c);
    ShapedIffDistinct(r.nodeIds);
  }

  lemma {:induction false} SelectedKnown(nodes: seq<Node>, ids: seq<Id>)
    requires UniqueNodes(nodes)
    ensures Selected(nodes, ids).Some? <==> AllKnown(nodes, ids)
    ensures Selected(nodes, ids).Some? ==>
              && |Selected(nodes, ids).value| == |ids|
              && forall n :: n in Selected(nodes, ids).value <==> n in nodes && n.id in ids
  {
    if |ids| > 0 {
      var k := |ids| - 1;
      SelectedKnown(nodes, ids[..k]);
      assert ids == ids[..k] + [ids[k]];
      KnownById(nodes, ids[k]);
      assert AllKnown(nodes, ids) <==> AllKnown(nodes, ids[..k]) && exists n <- nodes :: n.id == ids[k] by {
        assert ids[k] in ids && forall id <- ids[..k] :: id in ids;
      }
    }
  }

  lemma KnownById(nodes: seq<Node>, id: Id)
    requires UniqueNodes(nodes)
    ensures NodeById(nodes, id).Some? <==> exists n <- nodes :: n.id == id
    ensures forall n <- nodes :: n.id == id ==> NodeById(nodes, id) == Some(n)
  {
    if NodeById(nodes, id).Some? {
      NodeByIdIn(nodes, id);
    }
    forall n <- nodes | n.id == id ensures NodeById(nodes, id) == Some(n) {
      NodeByIdFinds(nodes, n);
    }
  }

  /** Which requests are accepted, and the error of each of the others. */
  lemma RefusalIs(s: Tables, r: CreateRequest)
    requires UniqueNodes(s.nodes)
    ensures var known := forall id <- r.nodeIds :: exists n <- s.nodes :: n.id == id;
            Refusal(s, r) ==
            if exists k <- s.clusters :: s.clusters[k].name == r.name then Some(NameTaken)
            else if !r.engineKnown then Some(BadEngine)
            else if |r.nodeIds| != r.replicaCount + 1 then Some(WrongNodeCount)
            else if !known then Some(MissingNode)
            else if exists n <- s.nodes :: n.id in r.nodeIds && n.cluster.Some? then Some(AlreadyAssigned)
            else if exists n <- s.nodes :: n.id in r.nodeIds && n.agent == "" then Some(MissingAgent)
            else if r.nodeIds == [] then Some(IndexPanic)
            else None
  {
    SelectedKnown(s.nodes, r.nodeIds);
  }

  /** A refused request changes nothing; an accepted one adds its row and joins the listed nodes. */
  lemma CreatedIs(s: Tables, r: CreateRequest, c: Id)
    ensures Refusal(s, r).Some? ==> Created(s, r, c) == s
    ensures Refusal(s, r).None? ==>
              var t := Created(s, r, c);
              && t == s.(nodes := t.nodes, clusters := s.clusters[c := Cluster(r.name, r.replicaCount, Creating)])
              && |t.nodes| == |s.nodes|
              && forall i | 0 <= i < |s.nodes| ::
                   t.nodes[i] ==
                   if s.nodes[i].id !in r.nodeIds then s.nodes[i]
                   else if s.nodes[i].id in r.nodeIds[1..]
                   then s.nodes[i].(cluster := Some(c), role := ReplicaRole)
                   else s.nodes[i].(cluster := Some(c), role := PrimaryRole)
  {
    if Refusal(s, r).None? {
      SelectedSize(s.nodes, r.nodeIds);
      AssignedAs(s.nodes, r.nodeIds, c);
    }
  }

  lemma SelectedSize(nodes: seq<Node>, ids: seq<Id>)
    ensures Selected(nodes, ids).Some? ==> |Selected(nodes, ids).value| == |ids|
  {
  }

  /** A cluster is deleted iff it exists, nothing about it is pending or running, and no node of it is online. */
  lemma DeletedIs(s: Tables, c: Id, busy: bool)
    ensures if c in s.clusters && !busy && forall n <- s.nodes | n.cluster == Some(c) :: n.status != Online then
              var t := Deleted(s, c, busy);
              && t == s.(nodes := t.nodes, clusters := s.clusters - {c}) && |t.nodes| == |s.nodes|
              && forall i | 0 <= i < |s.nodes| ::
                   t.nodes[i] == if s.nodes[i].cluster == Some(c)
                                 then s.nodes[i].(cluster := None, role := NoRole) else s.nodes[i]
            else Deleted(s, c, busy) == s
  {
  }
}
