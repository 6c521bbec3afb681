/**
 The in-memory fan-out of live command logs: bounded channels, one per subscriber, that
 never block the publisher.
 */
module LogBroker {
  import opened Commands

  datatype LogLine = LogLine(command: string, node: string, text: string)

  /** Empty strings mean any. */
  datatype Filter = Filter(cluster: string, node: string, command: string)

  const CAPACITY: nat := 256

  /** `received` is what the consumer has taken out. */
  datatype Channel = Channel(buffer: seq<LogLine>, closed: bool, received: seq<LogLine>)

  /** Channels outlive their subscription so that a consumer can drain them. */
  datatype Broker = Broker(subscribers: map<Id, Filter>, channels: map<Id, Channel>, nextId: Id)

  datatype BrokerEvent =
    | Subscribe(filter: Filter)
    | Unsubscribe(id: Id)
    | Publish(cluster: string, logs: seq<LogLine>)
    | Receive(consumer: Id)

  predicate Matches(f: Filter, log: LogLine) {
    if f.command != "" then f.command == log.command
    else if f.node != "" then f.node == log.node
    else true
  }

  predicate ForCluster(f: Filter, cluster: string) {
    f.cluster == "" || f.cluster == cluster
  }

  function Offer(c: Channel, log: LogLine): Channel {
    if |c.buffer| < CAPACITY then c.(buffer := c.buffer + [log]) else c
  }

  /** Matching logs in order; one that finds the buffer full is dropped. */
  function OfferAll(c: Channel, f: Filter, logs: seq<LogLine>): Channel {
    if |logs| == 0 then c
    else
      var before := OfferAll(c, f, logs[..|logs| - 1]);
      if Matches(f, logs[|logs| - 1]) then Offer(before, logs[|logs| - 1]) else before
  }

  function PublishedTo(c: Channel, f: Filter, cluster: string, logs: seq<LogLine>): Channel {
    if ForCluster(f, cluster) then OfferAll(c, f, logs) else c
  }

  function Taken(c: Channel): Channel {
    if |c.buffer| == 0 then c else c.(buffer := c.buffer[1..], received := c.received + [c.buffer[0]])
  }

  /** Subscribers have an open channel; ids count up. */
  predicate Valid(b: Broker) {
    && (forall id <- b.subscribers :: id in b.channels && !b.channels[id].closed)
    && (forall id <- b.channels :: id <= b.nextId)
  }

  function BrokerStep(b: Broker, e: BrokerEvent): Broker {
    match e
    case Subscribe(f) =>
      var id := b.nextId + 1;
      Broker(b.subscribers[id := f], b.channels[id := Channel([], false, [])], id)
    case Unsubscribe(id) =>
      if id in b.subscribers && id in b.channels
      then b.(subscribers := b.subscribers - {id}, channels := b.channels[id := b.channels[id].(closed := true)])
      else b
    case Publish(cluster, logs) =>
      b.(channels := map id <- b.channels ::
        if id in b.subscribers then PublishedTo(b.channels[id], b.subscribers[id], cluster, logs) else b.channels[id])
    case Receive(id) => if id in b.channels then b.(channels := b.channels[id := Taken(b.channels[id])]) else b
  }

  class Hub {
    var subscribers: map<Id, Filter>
    var channels: map<Id, Channel>
    var nextId: Id

    constructor ()
      ensures State() == Broker(map[], map[], 0) && Valid(State())
    {
      subscribers, channels, nextId := map[], map[], 0;
    }

    function State(): Broker
      reads this
    {
      Broker(subscribers, channels, nextId)
    }

    /** Sending on a closed channel would panic; a full one is left alone. */
    method TrySend(id: Id, log: LogLine)
      requires id in channels && !channels[id].closed
      modifies this`channels
      ensures channels == old(channels)[id := Offer(old(channels)[id], log)]
    {
      if |channels[id].buffer| < CAPACITY {
        channels := channels[id := channels[id].(buffer := channels[id].buffer + [log])];
      }
    }

    /** Closing a channel twice would panic. */
    method CloseChannel(id: Id)
      requires id in channels && !channels[id].closed
      modifies this`channels
      ensures channels == old(channels)[id := old(channels)[id].(closed := true)]
    {
      channels := channels[id := channels[id].(closed := true)];
    }

    method Subscribe(f: Filter) returns (id: Id)
      requires Valid(State())
      modifies this
      ensures Valid(State()) && State() == BrokerStep(old(State()), BrokerEvent.Subscribe(f))
      ensures id == nextId && id !in old(channels) && id !in old(subscribers)
    {
      nextId := nextId + 1;
      id := nextId;
      channels := channels[id := Channel([], false, [])];
      subscribers := subscribers[id := f];
    }

    method Unsubscribe(id: Id)
      requires Valid(State())
      modifies this
      ensures Valid(State()) && State() == BrokerStep(old(State()), BrokerEvent.Unsubscribe(id))
    {
      if id in subscribers {
        subscribers := subscribers - {id};
        CloseChannel(id);
      }
    }

    method Send(id: Id, f: Filter, logs: seq<LogLine>)
      requires id in channels && !channels[id].closed
      modifies this`channels
      ensures channels == old(channels)[id := OfferAll(old(channels)[id], f, logs)]
    {
      var i := 0;
      assert channels == channels[id := channels[id]];
      while i < |logs|
        invariant 0 <= i <= |logs|
        invariant channels == old(channels)[id := OfferAll(old(channels)[id], f, logs[..i])]
        invariant !OfferAll(old(channels)[id], f, logs[..i]).closed
      {
        assert logs[..i + 1][..i] == logs[..i];
        if Matches(f, logs[i]) {
          TrySend(id, logs[i]);
        }
        i := i + 1;
      }
      assert logs[..i] == logs;
    }

    /** Subscribers are visited in whatever order the map yields them. */
    method Publish(cluster: string, logs: seq<LogLine>)
      requires Valid(State())
      modifies this`channels
      ensures State() == BrokerStep(old(State()), BrokerEvent.Publish(cluster, logs))
    {
      ghost var before := channels;
      if |logs| == 0 || |subscribers| == 0 {
        assert BrokerStep(State(), BrokerEvent.Publish(cluster, logs)).channels == channels;
        return;
      }
      var todo := subscribers.Keys;
      while todo != {}
        invariant todo <= subscribers.Keys && channels.Keys == before.Keys
        invariant forall id <- before :: channels[id] ==
                    if id in subscribers && id !in todo then PublishedTo(before[id], subscribers[id], cluster, logs)
                    else before[id]
      {
        var id :| id in todo;
        if subscribers[id].cluster == "" || subscribers[id].cluster == cluster {
          Send(id, subscribers[id], logs);
        }
        todo := todo - {id};
      }
    }
  }

  // ---- One subscriber on its own ----

  /** What an event means to one subscriber: others do not occur in it. */
  function SoloStep(c: Channel, f: Filter, id: Id, e: BrokerEvent): Channel {
    match e
    case Subscribe(_) => c
    case Unsubscribe(other) => if other == id then c.(closed := true) else c
    case Publish(cluster, logs) => if c.closed then c else PublishedTo(c, f, cluster, logs)
    case Receive(other) => if other == id then Taken(c) else c
  }

  function SoloRun(f: Filter, id: Id, run: seq<BrokerEvent>): Channel {
    if |run| == 0 then Channel([], false, [])
    else SoloStep(SoloRun(f, id, run[..|run| - 1]), f, id, run[|run| - 1])
  }

  function BrokerRun(b: Broker, run: seq<BrokerEvent>): Broker {
    if |run| == 0 then b else BrokerStep(BrokerRun(b, run[..|run| - 1]), run[|run| - 1])
  }

  lemma OfferKeepsClosed(c: Channel, f: Filter, logs: seq<LogLine>)
    ensures OfferAll(c, f, logs).closed == c.closed
  {
  }

  lemma StepValid(b: Broker, e: BrokerEvent)
    requires Valid(b)
    ensures Valid(BrokerStep(b, e)) && b.nextId <= BrokerStep(b, e).nextId
  {
    if e.Publish? {
      forall id <- b.subscribers ensures !BrokerStep(b, e).channels[id].closed {
        OfferKeepsClosed(b.channels[id], b.subscribers[id], e.logs);
      }
    }
  }

  /** A channel and its subscription, at one moment. */
  ghost predicate Tracks(b: Broker, f: Filter, id: Id, c: Channel) {
    && id in b.channels && b.channels[id] == c && id <= b.nextId
    && (id in b.subscribers <==> !c.closed) && (id in b.subscribers ==> b.subscribers[id] == f)
  }

  lemma StepTracks(b: Broker, f: Filter, id: Id, c: Channel, e: BrokerEvent)
    requires Valid(b) && Tracks(b, f, id, c)
    ensures Tracks(BrokerStep(b, e), f, id, SoloStep(c, f, id, e))
  {
    if e.Publish? {
      OfferKeepsClosed(c, f, e.logs);
    }
  }

  /**
   Isolation: a subscriber's channel is a function of its own filter, its own receives and
   the publishes since it subscribed. No other subscriber, slow or gone, affects it, and its
   id is never given out again.
   */
  lemma {:induction false} Isolated(b: Broker, f: Filter, run: seq<BrokerEvent>)
    requires Valid(b)
    ensures var id := b.nextId + 1; var after := BrokerRun(BrokerStep(b, Subscribe(f)), run);
            Valid(after) && Tracks(after, f, id, SoloRun(f, id, run))
  {
    var id, start := b.nextId + 1, BrokerStep(b, Subscribe(f));
    StepValid(b, Subscribe(f));
    if |run| > 0 {
      var n := |run| - 1;
      Isolated(b, f, run[..n]);
      StepTracks(BrokerRun(start, run[..n]), f, id, SoloRun(f, id, run[..n]), run[n]);
      StepValid(BrokerRun(start, run[..n]), run[n]);
    }
  }

  // ---- Delivery ----

  function Wanted(f: Filter, logs: seq<LogLine>): seq<LogLine> {
    if |logs| == 0 then []
    else Wanted(f, logs[..|logs| - 1]) + if Matches(f, logs[|logs| - 1]) then [logs[|logs| - 1]] else []
  }

  /** Every matching log published while the subscription was open. */
  function Published(f: Filter, id: Id, run: seq<BrokerEvent>): seq<LogLine> {
    if |run| == 0 then []
    else
      var before, e := run[..|run| - 1], run[|run| - 1];
      Published(f, id, before)
      + if e.Publish? && !SoloRun(f, id, before).closed && ForCluster(f, e.cluster) then Wanted(f, e.logs) else []
  }

  function Held(c: Channel): seq<LogLine> {
    c.received + c.buffer
  }

  ghost predicate Subsequence(a: seq<LogLine>, b: seq<LogLine>) {
    if |a| == 0 then true
    else if |b| == 0 then false
    else if a[|a| - 1] == b[|b| - 1] && Subsequence(a[..|a| - 1], b[..|b| - 1]) then true
    else Subsequence(a, b[..|b| - 1])
  }

  /** How many matching logs of one batch found the buffer full. */
  function Dropped(c: Channel, f: Filter, logs: seq<LogLine>): nat {
    if |logs| == 0 then 0
    else
      var before := logs[..|logs| - 1];
      Dropped(c, f, before)
      + if Matches(f, logs[|logs| - 1]) && |OfferAll(c, f, before).buffer| >= CAPACITY then 1 else 0
  }

  function Drops(f: Filter, id: Id, run: seq<BrokerEvent>): nat {
    if |run| == 0 then 0
    else
      var c, e := SoloRun(f, id, run[..|run| - 1]), run[|run| - 1];
      Drops(f, id, run[..|run| - 1])
      + if e.Publish? && !c.closed && ForCluster(f, e.cluster) then Dropped(c, f, e.logs) else 0
  }

  /** One more matching log: taken into the buffer, or dropped because it is full. */
  lemma OfferDelivered(d: Channel, p: seq<LogLine>, w: seq<LogLine>, x: LogLine)
    requires Subsequence(Held(d), p + w) && |d.buffer| <= CAPACITY
    ensures var o := Offer(d, x);
            && Subsequence(Held(o), p + (w + [x])) && |o.buffer| <= CAPACITY
            && |Held(o)| + (if |d.buffer| >= CAPACITY then 1 else 0) == |Held(d)| + 1
  {
    assert p + (w + [x]) == (p + w) + [x];
    assert Held(d.(buffer := d.buffer + [x])) == Held(d) + [x];
    SubsequenceSnoc(Held(d), p + w, x);
  }

  lemma SubsequenceSnoc(a: seq<LogLine>, b: seq<LogLine>, x: LogLine)
    requires Subsequence(a, b)
    ensures Subsequence(a + [x], b + [x]) && Subsequence(a, b + [x])
  {
    assert (a + [x])[..|a|] == a && (b + [x])[..|b|] == b;
  }

  lemma {:induction false} BatchDelivered(c: Channel, f: Filter, logs: seq<LogLine>, p: seq<LogLine>)
    requires Subsequence(Held(c), p) && |c.buffer| <= CAPACITY
    ensures var d := OfferAll(c, f, logs);
            && Subsequence(Held(d), p + Wanted(f, logs)) && |d.buffer| <= CAPACITY
            && |Held(d)| + Dropped(c, f, logs) == |Held(c)| + |Wanted(f, logs)|
  {
    if |logs| == 0 {
      assert p + [] == p;
    } else {
      var before, x := logs[..|logs| - 1], logs[|logs| - 1];
      BatchDelivered(c, f, before, p);
      if Matches(f, x) {
        OfferDelivered(OfferAll(c, f, before), p, Wanted(f, before), x);
      } else {
        assert Wanted(f, logs) == Wanted(f, before);
      }
    }
  }

  lemma TakenHolds(c: Channel)
    ensures Held(Taken(c)) == Held(c) && |Taken(c).buffer| <= |c.buffer|
  {
  }

  /** What a subscriber has received or still holds, in order, is what was published minus what was dropped. */
  lemma {:induction false} Delivered(f: Filter, id: Id, run: seq<BrokerEvent>)
    ensures var c := SoloRun(f, id, run);
            && Subsequence(Held(c), Published(f, id, run)) && |c.buffer| <= CAPACITY
            && |Held(c)| + Drops(f, id, run) == |Published(f, id, run)|
  {
    if |run| > 0 {
      var before, e := run[..|run| - 1], run[|run| - 1];
      Delivered(f, id, before);
      var c := SoloRun(f, id, before);
      if e.Publish? && !c.closed && ForCluster(f, e.cluster) {
        BatchDelivered(c, f, e.logs, Published(f, id, before));
      } else {
        TakenHolds(c);
        assert Published(f, id, run) == Published(f, id, before);
      }
    }
  }

  lemma {:induction false} FullSubsequence(a: seq<LogLine>, b: seq<LogLine>)
    requires Subsequence(a, b)
    ensures |a| <= |b| && (|a| == |b| ==> a == b)
  {
    if |a| > 0 {
      if a[|a| - 1] == b[|b| - 1] && Subsequence(a[..|a| - 1], b[..|b| - 1]) {
        FullSubsequence(a[..|a| - 1], b[..|b| - 1]);
        assert a == a[..|a| - 1] + [a[|a| - 1]] && b == b[..|b| - 1] + [b[|b| - 1]];
      } else {
        FullSubsequence(a, b[..|b| - 1]);
      }
    }
  }

  /** Everything published is delivered iff the 256-slot buffer was never found full. */
  lemma AllDeliveredIff(f: Filter, id: Id, run: seq<BrokerEvent>)
    ensures Held(SoloRun(f, id, run)) == Published(f, id, run) <==> Drops(f, id, run) == 0
  {
    Delivered(f, id, run);
    FullSubsequence(Held(SoloRun(f, id, run)), Published(f, id, run));
  }

  /** A command filter decides alone, then a node filter; with neither every line matches. */
  lemma MatchesIff(f: Filter, log: LogLine)
    ensures f.command != "" ==> (Matches(f, log) <==> log.command == f.command)
    ensures f.command == "" && f.node != "" ==> (Matches(f, log) <==> log.node == f.node)
    ensures f.command == "" && f.node == "" ==> Matches(f, log)
  {
  }

  /** What one published line does to one open subscription: it is appended, or dropped behind 256 unread ones. */
  lemma OnePublished(f: Filter, id: Id, run: seq<BrokerEvent>, cluster: string, log: LogLine)
    ensures var c := SoloRun(f, id, run); var after := SoloRun(f, id, run + [Publish(cluster, [log])]);
            if && !c.closed && (f.cluster == "" || f.cluster == cluster)
               && (if f.command != "" then log.command == f.command else f.node == "" || log.node == f.node)
               && |c.buffer| < 256
            then after == c.(buffer := c.buffer + [log]) else after == c
  {
    var e := Publish(cluster, [log]);
    assert (run + [e])[..|run|] == run;
    assert [log][..0] == [];
    assert OfferAll(SoloRun(f, id, run), f, []) == SoloRun(f, id, run);
  }

  /** A consumer takes the oldest unread line; its channel stays readable after the subscription is closed. */
  lemma ReceiveTakes(f: Filter, id: Id, run: seq<BrokerEvent>)
    ensures var c := SoloRun(f, id, run); var after := SoloRun(f, id, run + [Receive(id)]);
            && after.closed == c.closed
            && (c.buffer == [] ==> after == c)
            && (c.buffer != [] ==> after.buffer == c.buffer[1..] && after.received == c.received + [c.buffer[0]])
  {
    assert (run + [Receive(id)])[..|run|] == run;
  }
}
