/**
 Apply status per cluster, node and feature: the HBA and TLS repositories share one table.
 The rows are characterised by the whole history of requests and results.
 */
module ApplyStatus {
  import opened Wrappers
  import opened Commands

  datatype Feature = Hba | Tls

  datatype Key = Key(cluster: Id, node: Id, feature: Feature)

  datatype Outcome = OutcomePending | OutcomeSucceeded | OutcomeFailed

  datatype StatusRow = StatusRow(command: Id, outcome: Outcome, mode: string, tlsActive: bool, appliedAt: Option<Time>)

  /** The payload of a queued apply command, as its result handler reads it back. */
  datatype ApplyPayload = ApplyPayload(key: Key, mode: string)

  datatype NodeCommand = NodeCommand(id: Id, node: Id)

  datatype StatusTables = StatusTables(rows: map<Key, StatusRow>, commands: map<Id, ApplyPayload>)

  const DISABLED := "disabled"

  /** HBA rows have no detail. */
  function ModeOf(feature: Feature, requested: string): string {
    if feature == Tls then requested else ""
  }

  function PendingRow(id: Id, feature: Feature, mode: string): StatusRow {
    StatusRow(id, OutcomePending, ModeOf(feature, mode), false, None)
  }

  function ResultRow(id: Id, p: ApplyPayload, ok: bool, at: Time): StatusRow {
    StatusRow(id, if ok then OutcomeSucceeded else OutcomeFailed, ModeOf(p.key.feature, p.mode),
              p.key.feature == Tls && ok && p.mode != DISABLED, if ok then Some(at) else None)
  }

  /** One node of a request: the command, then delete and insert of its status row; None on a duplicate id. */
  function QueueOne(t: StatusTables, feature: Feature, cluster: Id, mode: string,
          c: NodeCommand): Option<StatusTables> {
    if c.id in t.commands then None
    else
      var key := Key(cluster, c.node, feature);
      Some(StatusTables(t.rows[key := PendingRow(c.id, feature, mode)], t.commands[c.id := ApplyPayload(key, mode)]))
  }

  function QueueAll(t: StatusTables, feature: Feature, cluster: Id, mode: string,
          cs: seq<NodeCommand>): Option<StatusTables> {
    if |cs| == 0 then Some(t)
    else
      var before := QueueAll(t, feature, cluster, mode, cs[..|cs| - 1]);
      if before.None? then None else QueueOne(before.value, feature, cluster, mode, cs[|cs| - 1])
  }

  /** Only the row that still names this command takes its result. */
  function ResultTx(t: StatusTables, id: Id, ok: bool, at: Time): StatusTables {
    if id !in t.commands then t
    else
      var p := t.commands[id];
      if p.key in t.rows && t.rows[p.key].command == id
      then t.(rows := t.rows[p.key := ResultRow(id, p, ok, at)]) else t
  }

  class ApplyStatusRepository {
    var rows: map<Key, StatusRow>
    var commands: map<Id, ApplyPayload>

    constructor ()
      ensures State() == StatusTables(map[], map[])
    {
      rows, commands := map[], map[];
    }

    function State(): StatusTables
      reads this
    {
      StatusTables(rows, commands)
    }

    method QueueApplyCommands(feature: Feature, cluster: Id, mode: string, cs: seq<NodeCommand>)
            returns (committed: bool)
      modifies this
      ensures var q := QueueAll(old(State()), feature, cluster, mode, cs);
              committed == q.Some? && State() == if committed then q.value else old(State())
    {
      var saved := State();
      var i := 0;
      while i < |cs|
        invariant 0 <= i <= |cs|
        invariant QueueAll(saved, feature, cluster, mode, cs[..i]) == Some(State())
      {
        assert cs[..i + 1][..i] == cs[..i];
        if cs[i].id in commands {
          QueueAllPrefix(saved, feature, cluster, mode, cs, i + 1);
          rows, commands := saved.rows, saved.commands;
          return false;
        }
        var key := Key(cluster, cs[i].node, feature);
        commands := commands[cs[i].id := ApplyPayload(key, mode)];
        ghost var before := rows;
        rows := rows - {key};
        rows := rows[key := PendingRow(cs[i].id, feature, mode)];
        assert rows == before[key := PendingRow(cs[i].id, feature, mode)];
        i := i + 1;
      }
      assert cs[..i] == cs;
      return true;
    }

    /** Each repository handles its own action; the other feature's command is not its business. */
    method HandleCommandResult(feature: Feature, id: Id, ok: bool, at: Time) returns (handled: bool)
      modifies this
      ensures handled == (id in old(commands) && old(commands)[id].key.feature == feature)
      ensures State() == if handled then ResultTx(old(State()), id, ok, at) else old(State())
    {
      if id !in commands || commands[id].key.feature != feature {
        return false;
      }
      var p := commands[id];
      var active := feature == Tls && ok && p.mode != DISABLED;
      if p.key in rows && rows[p.key].command == id {
        rows := rows[p.key := StatusRow(id, if ok then OutcomeSucceeded else OutcomeFailed, ModeOf(feature, p.mode),
                                        active,
                                        if ok then Some(at) else None)];
      }
      return true;
    }
  }

  lemma {:induction false} QueueAllPrefix(t: StatusTables, feature: Feature, cluster: Id, mode: string,
          cs: seq<NodeCommand>, i: nat)
    requires i <= |cs| && QueueAll(t, feature, cluster, mode, cs[..i]).None?
    ensures QueueAll(t, feature, cluster, mode, cs).None?
  {
    if i < |cs| {
      assert cs[..|cs| - 1][..i] == cs[..i];
      QueueAllPrefix(t, feature, cluster, mode, cs[..|cs| - 1], i);
    } else {
      assert cs[..i] == cs;
    }
  }

  // ---- The history that defines the rows ----

  datatype StatusEvent =
    | Request(feature: Feature, cluster: Id, mode: string, nodes: seq<NodeCommand>)
    | Reply(id: Id, ok: bool, at: Time)

  /** What has been committed: commands queued, and results of commands that exist. */
  datatype Entry = Queued(command: Id, payload: ApplyPayload) | Replied(of: Id, ok: bool, at: Time)

  function StatusStep(t: StatusTables, e: StatusEvent): StatusTables {
    match e
    case Request(feature, cluster, mode, nodes) =>
      var q := QueueAll(t, feature, cluster, mode, nodes);
      if q.Some? then q.value else t
    case Reply(id, ok, at) => ResultTx(t, id, ok, at)
  }

  function StatusRun(run: seq<StatusEvent>): StatusTables {
    if |run| == 0 then StatusTables(map[], map[]) else StatusStep(StatusRun(run[..|run| - 1]), run[|run| - 1])
  }

  function QueuedEntries(feature: Feature, cluster: Id, mode: string, nodes: seq<NodeCommand>): seq<Entry> {
    if |nodes| == 0 then []
    else
      var c := nodes[|nodes| - 1];
      QueuedEntries(feature, cluster, mode, nodes[..|nodes| - 1])
      + [Queued(c.id, ApplyPayload(Key(cluster, c.node, feature), mode))]
  }

  function Entries(t: StatusTables, e: StatusEvent): seq<Entry> {
    match e
    case Request(feature, cluster, mode, nodes) =>
      if QueueAll(t, feature, cluster, mode, nodes).Some? then QueuedEntries(feature, cluster, mode, nodes) else []
    case Reply(id, ok, at) => if id in t.commands then [Replied(id, ok, at)] else []
  }

  function Journal(run: seq<StatusEvent>): seq<Entry> {
    if |run| == 0 then []
    else Journal(run[..|run| - 1]) + Entries(StatusRun(run[..|run| - 1]), run[|run| - 1])
  }

  /** The most recently queued command of a key. */
  function Latest(j: seq<Entry>, key: Key): Option<Entry> {
    if |j| == 0 then None
    else if j[|j| - 1].Queued? && j[|j| - 1].payload.key == key then Some(j[|j| - 1])
    else Latest(j[..|j| - 1], key)
  }

  function LastReply(j: seq<Entry>, id: Id): Option<Entry> {
    if |j| == 0 then None
    else if j[|j| - 1].Replied? && j[|j| - 1].of == id then Some(j[|j| - 1])
    else LastReply(j[..|j| - 1], id)
  }

  /** The row the history calls for: the latest command with its last recorded result. */
  function RowFrom(j: seq<Entry>, key: Key): Option<StatusRow> {
    var q := Latest(j, key);
    if q.None? || !q.value.Queued? then None
    else
      var r := LastReply(j, q.value.command);
      if r.Some? && r.value.Replied?
      then Some(ResultRow(q.value.command, ApplyPayload(key, q.value.payload.mode), r.value.ok, r.value.at))
      else Some(PendingRow(q.value.command, key.feature, q.value.payload.mode))
  }

  function RowAt(rows: map<Key, StatusRow>, key: Key): Option<StatusRow> {
    if key in rows then Some(rows[key]) else None
  }

  // ---- The rows are what the history calls for ----

  ghost predicate KnownCommands(j: seq<Entry>, commands: map<Id, ApplyPayload>) {
    forall e <- j :: if e.Queued? then e.command in commands && commands[e.command] == e.payload else e.of in commands
  }

  ghost predicate Explained(t: StatusTables, j: seq<Entry>) {
    KnownCommands(j, t.commands) && forall key :: RowAt(t.rows, key) == RowFrom(j, key)
  }

  lemma LastReplySnoc(j: seq<Entry>, e: Entry, id: Id)
    ensures LastReply(j + [e], id) == if e.Replied? && e.of == id then Some(e) else LastReply(j, id)
  {
  }

  lemma LatestIs(j: seq<Entry>, key: Key)
    ensures Latest(j, key).Some? ==> Latest(j, key).value in j && Latest(j, key).value.Queued?
                                     && Latest(j, key).value.payload.key == key
  {
  }

  lemma LastReplyIs(j: seq<Entry>, id: Id)
    ensures LastReply(j, id).Some? ==> LastReply(j, id).value in j && LastReply(j, id).value.Replied?
                                       && LastReply(j, id).value.of == id
  {
  }

  lemma QueueExplained(t: StatusTables, j: seq<Entry>, feature: Feature, cluster: Id, mode: string, c: NodeCommand)
    requires Explained(t, j) && QueueOne(t, feature, cluster, mode, c).Some?
    ensures Explained(QueueOne(t, feature, cluster, mode, c).value,
                      j + [Queued(c.id, ApplyPayload(Key(cluster, c.node, feature), mode))])
  {
    var u := QueueOne(t, feature, cluster, mode, c).value;
    var e := Queued(c.id, ApplyPayload(Key(cluster, c.node, feature), mode));
    forall key ensures RowAt(u.rows, key) == RowFrom(j + [e], key) {
      LatestIs(j, key);
      if key == e.payload.key {
        LastReplySnoc(j, e, c.id);
        LastReplyIs(j, c.id);
      } else {
        assert RowAt(t.rows, key) == RowFrom(j, key);
        if Latest(j, key).Some? {
          LastReplySnoc(j, e, Latest(j, key).value.command);
        }
      }
    }
    forall x <- j + [e]
      ensures if x.Queued? then x.command in u.commands && u.commands[x.command] == x.payload else x.of in u.commands
    {
      assert x in j || x == e;
    }
  }

  lemma ReplyExplained(t: StatusTables, j: seq<Entry>, id: Id, ok: bool, at: Time)
    requires Explained(t, j) && id in t.commands
    ensures Explained(ResultTx(t, id, ok, at), j + [Replied(id, ok, at)])
  {
    var u, e := ResultTx(t, id, ok, at), Replied(id, ok, at);
    forall key ensures RowAt(u.rows, key) == RowFrom(j + [e], key) {
      LatestIs(j, key);
      assert RowAt(t.rows, key) == RowFrom(j, key);
      if Latest(j, key).Some? {
        LastReplySnoc(j, e, Latest(j, key).value.command);
        LastReplyIs(j, Latest(j, key).value.command);
      }
    }
    assert forall x :: x in j + [e] <==> x in j || x == e;
  }

  lemma {:induction false} RequestExplained(t: StatusTables, j: seq<Entry>, feature: Feature, cluster: Id, mode: string,
                                            nodes: seq<NodeCommand>)
    requires Explained(t, j) && QueueAll(t, feature, cluster, mode, nodes).Some?
    ensures Explained(QueueAll(t, feature, cluster, mode, nodes).value,
            j + QueuedEntries(feature, cluster, mode, nodes))
  {
    if |nodes| == 0 {
      assert j + [] == j;
    } else {
      var n := |nodes| - 1;
      RequestExplained(t, j, feature, cluster, mode, nodes[..n]);
      var k := j + QueuedEntries(feature, cluster, mode, nodes[..n]);
      QueueExplained(QueueAll(t, feature, cluster, mode, nodes[..n]).value, k, feature, cluster, mode, nodes[n]);
      assert k + [Queued(nodes[n].id, ApplyPayload(Key(cluster, nodes[n].node, feature), mode))]
          == j + QueuedEntries(feature, cluster, mode, nodes);
    }
  }

  lemma StepExplained(t: StatusTables, j: seq<Entry>, e: StatusEvent)
    requires Explained(t, j)
    ensures Explained(StatusStep(t, e), j + Entries(t, e))
  {
    match e
    case Request(feature, cluster, mode, nodes) =>
      if QueueAll(t, feature, cluster, mode, nodes).Some? {
        RequestExplained(t, j, feature, cluster, mode, nodes);
      } else {
        assert j + [] == j;
      }
    case Reply(id, ok, at) =>
      if id in t.commands {
        ReplyExplained(t, j, id, ok, at);
      } else {
        assert j + [] == j;
      }
  }

  /**
   Latest wins: after any interleaving of requests and results, each row is the one the
   history calls for. Results of superseded commands, in any order and number, change nothing.
   */
  lemma {:induction false} LatestWins(run: seq<StatusEvent>)
    ensures Explained(StatusRun(run), Journal(run))
  {
    if |run| > 0 {
      LatestWins(run[..|run| - 1]);
      StepExplained(StatusRun(run[..|run| - 1]), Journal(run[..|run| - 1]), run[|run| - 1]);
    }
  }

  /** A row is active only for a TLS command that succeeded with a mode other than disabled. */
  lemma ActiveMeansApplied(run: seq<StatusEvent>, key: Key)
    requires key in StatusRun(run).rows
    ensures var row := StatusRun(run).rows[key];
            row.tlsActive <==> key.feature == Tls && row.outcome == OutcomeSucceeded && row.mode != DISABLED
    ensures StatusRun(run).rows[key].outcome == OutcomeSucceeded <==> StatusRun(run).rows[key].appliedAt.Some?
  {
    LatestWins(run);
    assert RowAt(StatusRun(run).rows, key) == RowFrom(Journal(run), key);
  }

  function FeatureOf(t: StatusTables, e: StatusEvent): Option<Feature> {
    match e
    case Request(feature, _, _, _) => Some(feature)
    case Reply(id, _, _) => if id in t.commands then Some(t.commands[id].key.feature) else None
  }

  /** The two features never touch each other's rows. */
  lemma FeaturesIndependent(t: StatusTables, e: StatusEvent, key: Key)
    requires FeatureOf(t, e) != Some(key.feature)
    ensures RowAt(StatusStep(t, e).rows, key) == RowAt(t.rows, key)
  {
    if e.Request? {
      RequestElsewhere(t, e.feature, e.cluster, e.mode, e.nodes, key);
    }
  }

  lemma {:induction false} RequestElsewhere(t: StatusTables, feature: Feature, cluster: Id, mode: string,
                                            nodes: seq<NodeCommand>, key: Key)
    requires feature != key.feature
    ensures var q := QueueAll(t, feature, cluster, mode, nodes);
            q.Some? ==> RowAt(q.value.rows, key) == RowAt(t.rows, key)
  {
    if |nodes| > 0 && QueueAll(t, feature, cluster, mode, nodes).Some? {
      RequestElsewhere(t, feature, cluster, mode, nodes[..|nodes| - 1], key);
    }
  }

  lemma {:induction false} LatestOf(j: seq<Entry>, k: nat, key: Key)
    requires k < |j| && j[k].Queued? && j[k].payload.key == key
    requires forall i | k < i < |j| :: !(j[i].Queued? && j[i].payload.key == key)
    ensures Latest(j, key) == Some(j[k])
  {
    if k < |j| - 1 {
      LatestOf(j[..|j| - 1], k, key);
    }
  }

  lemma {:induction false} LastReplyOf(j: seq<Entry>, id: Id)
    ensures match LastReply(j, id)
            case None => forall i | 0 <= i < |j| :: !(j[i].Replied? && j[i].of == id)
            case Some(e) => exists k | 0 <= k < |j| ::
              j[k] == e && e.Replied? && e.of == id && forall i | k < i < |j| :: !(j[i].Replied? && j[i].of == id)
  {
    if |j| > 0 {
      var n := |j| - 1;
      LastReplyOf(j[..n], id);
      if !(j[n].Replied? && j[n].of == id) && LastReply(j, id).Some? {
        var k :| 0 <= k < n && j[..n][k] == LastReply(j, id).value
          && forall i | k < i < n :: !(j[..n][i].Replied? && j[..n][i].of == id);
        assert forall i | k < i < n :: j[..n][i] == j[i];
        assert j[k] == LastReply(j, id).value;
      } else if LastReply(j, id).None? {
        assert forall i | 0 <= i < n :: j[..n][i] == j[i];
      }
    }
  }

  /** Value by value: the row of a key after the k-th journal entry queued its latest command. */
  lemma RowIs(run: seq<StatusEvent>, key: Key, k: nat)
    requires var j := Journal(run); k < |j| && j[k].Queued? && j[k].payload.key == key
    requires var j := Journal(run); forall i | k < i < |j| :: !(j[i].Queued? && j[i].payload.key == key)
    ensures key in StatusRun(run).rows
    ensures var j, row := Journal(run), StatusRun(run).rows[key];
            var mode := if key.feature == Tls then j[k].payload.mode else "";
            && row.command == j[k].command && row.mode == mode
            && match LastReply(j, j[k].command)
               case None => row == StatusRow(j[k].command, OutcomePending, mode, false, None)
               case Some(e) =>
                 e.Replied? ==>
                 row == if e.ok
                        then StatusRow(j[k].command, OutcomeSucceeded, mode, key.feature == Tls && mode != "disabled",
                                       Some(e.at))
                        else StatusRow(j[k].command, OutcomeFailed, mode, false, None)
  {
    LatestWins(run);
    LatestOf(Journal(run), k, key);
    assert RowAt(StatusRun(run).rows, key) == RowFrom(Journal(run), key);
    LastReplyIs(Journal(run), Journal(run)[k].command);
  }
}
