/** Paging through command logs: a window of the newest rows, reversed in place for display. */
module LogPages {
  import opened Wrappers
  import opened Commands

  datatype LogRow = LogRow(id: Id, command: Id, level: string, createdAt: Time, message: string)

  /** Empty level and absent bounds do not constrain. */
  datatype LogFilter = LogFilter(level: string, since: Option<Time>, until: Option<Time>)

  predicate Keeps(f: LogFilter, r: LogRow) {
    && (f.level == "" || r.level == f.level)
    && (f.since.None? || f.since.value <= r.createdAt) && (f.until.None? || r.createdAt <= f.until.value)
  }

  /** The rows a query selects, oldest first. */
  function Selected(rows: seq<LogRow>, command: Id, f: LogFilter): seq<LogRow> {
    if |rows| == 0 then []
    else
      var r := rows[|rows| - 1];
      Selected(rows[..|rows| - 1], command, f) + if r.command == command && Keeps(f, r) then [r] else []
  }

  function Backwards(s: seq<LogRow>): seq<LogRow> {
    if |s| == 0 then [] else [s[|s| - 1]] + Backwards(s[..|s| - 1])
  }

  function Drop(s: seq<LogRow>, n: nat): seq<LogRow> {
    if n <= |s| then s[n..] else []
  }

  function Take(s: seq<LogRow>, n: nat): seq<LogRow> {
    if n <= |s| then s[..n] else s
  }

  /** ORDER BY created_at DESC, id DESC LIMIT limit OFFSET offset */
  function Newest(log: seq<LogRow>, limit: nat, offset: nat): seq<LogRow> {
    Take(Drop(Backwards(log), offset), limit)
  }

  function ClampLogLimit(limit: int): nat {
    if limit <= 0 then 500 else if limit > 10000 then 10000 else limit
  }

  function ClampPageSize(size: int): nat {
    if size <= 0 then 50 else if size > 1000 then 1000 else size
  }

  /** Scans the rows in query order and turns the result around in place. */
  method ScanCommandLogs(rows: seq<LogRow>, reverse: bool) returns (logs: array<LogRow>)
    ensures fresh(logs) && logs[..] == if reverse then Backwards(rows) else rows
  {
    logs := new LogRow[|rows|](i requires 0 <= i < |rows| => rows[i]);
    assert logs[..] == rows;
    if reverse {
      TurnAround(logs);
    }
  }

  method TurnAround(logs: array<LogRow>)
    modifies logs
    ensures logs[..] == Backwards(old(logs[..]))
  {
    var i, j := 0, logs.Length - 1;
    while i < j
      invariant 0 <= i <= logs.Length && j == logs.Length - 1 - i
      invariant forall k | 0 <= k < i || j < k < logs.Length :: logs[k] == old(logs[logs.Length - 1 - k])
      invariant forall k | i <= k <= j :: logs[k] == old(logs[k])
    {
      logs[i], logs[j] := logs[j], logs[i];
      i, j := i + 1, j - 1;
    }
    BackwardsAt(old(logs[..]));
    assert logs[..] == Backwards(old(logs[..]));
  }

  function OffsetOf(pageSize: int, page: int): nat {
    var number := if page <= 0 then 1 else page;
    (number - 1) * ClampPageSize(pageSize)
  }

  /** The page a request for (page, pageSize) shows. */
  function Page(log: seq<LogRow>, pageSize: int, page: int): seq<LogRow> {
    Backwards(Newest(log, ClampLogLimit(ClampPageSize(pageSize)), OffsetOf(pageSize, page)))
  }

  method ListByCommandID(rows: seq<LogRow>, command: Id, f: LogFilter, pageSize: int, page: int)
          returns (logs: array<LogRow>)
    ensures fresh(logs) && logs[..] == Page(Selected(rows, command, f), pageSize, page)
  {
    var size := ClampPageSize(pageSize);
    var offset := OffsetOf(pageSize, page);
    var window := Newest(Selected(rows, command, f), ClampLogLimit(size), offset);
    logs := ScanCommandLogs(window, true);
  }

  lemma {:induction false} BackwardsAt(s: seq<LogRow>)
    ensures |Backwards(s)| == |s| && forall k | 0 <= k < |s| :: Backwards(s)[k] == s[|s| - 1 - k]
  {
    if |s| > 0 {
      BackwardsAt(s[..|s| - 1]);
    }
  }

  /** How many rows are older than the newest n. */
  function Older(log: seq<LogRow>, n: nat): nat {
    if n <= |log| then |log| - n else 0
  }

  lemma NewestAt(log: seq<LogRow>, limit: nat, offset: nat)
    ensures var w := Newest(log, limit, offset);
            |w| == Older(log, offset) - Older(log, offset + limit)
            && forall k | 0 <= k < |w| :: w[k] == log[Older(log, offset) - 1 - k]
  {
    BackwardsAt(log);
    var d := Drop(Backwards(log), offset);
    assert forall k | 0 <= k < |d| :: d[k] == Backwards(log)[offset + k];
  }

  /** Counted from the end: the rows before the last `offset`, at most `limit` of them, in log order. */
  lemma WindowIs(log: seq<LogRow>, limit: nat, offset: nat)
    ensures Backwards(Newest(log, limit, offset)) == log[Older(log, offset + limit)..Older(log, offset)]
  {
    NewestAt(log, limit, offset);
    Turned(log, Newest(log, limit, offset), Older(log, offset + limit), Older(log, offset));
  }

  lemma Turned(log: seq<LogRow>, w: seq<LogRow>, lo: nat, hi: nat)
    requires lo <= hi <= |log| && |w| == hi - lo && forall k | 0 <= k < |w| :: w[k] == log[hi - 1 - k]
    ensures Backwards(w) == log[lo..hi]
  {
    BackwardsAt(w);
    var shown, part := Backwards(w), log[lo..hi];
    assert |shown| == |part|;
    forall k | 0 <= k < |w| ensures shown[k] == part[k] {
      assert shown[k] == w[|w| - 1 - k] && part[k] == log[lo + k];
    }
  }

  /** Rows on the first n pages. */
  function Rows(size: nat, n: nat): nat {
    if n == 0 then 0 else Rows(size, n - 1) + size
  }

  lemma {:induction false} RowsAre(size: nat, n: nat)
    ensures Rows(size, n) == n * size
  {
    if n > 0 {
      RowsAre(size, n - 1);
      assert n * size == (n - 1) * size + size;
    }
  }

  /** Pages `count` down to 1, one after the other. */
  function Pages(log: seq<LogRow>, pageSize: int, count: nat): seq<LogRow> {
    if count == 0 then [] else Page(log, pageSize, count) + Pages(log, pageSize, count - 1)
  }

  lemma PageIs(log: seq<LogRow>, pageSize: int, page: nat)
    requires page > 0
    ensures var size := ClampPageSize(pageSize);
            Page(log, pageSize, page) == log[Older(log, Rows(size, page))..Older(log, Rows(size, page - 1))]
  {
    var size := ClampPageSize(pageSize);
    RowsAre(size, page - 1);
    WindowIs(log, ClampLogLimit(size), Rows(size, page - 1));
  }

  lemma {:induction false} PagesAre(log: seq<LogRow>, pageSize: int, count: nat)
    ensures Pages(log, pageSize, count) == log[Older(log, Rows(ClampPageSize(pageSize), count))..]
  {
    if count == 0 {
      assert log[|log|..] == [];
    } else {
      var size := ClampPageSize(pageSize);
      PagesAre(log, pageSize, count - 1);
      PageIs(log, pageSize, count);
      Abut(log, Page(log, pageSize, count), Pages(log, pageSize, count - 1),
           Older(log, Rows(size, count)), Older(log, Rows(size, count - 1)));
    }
  }

  lemma Abut(log: seq<LogRow>, a: seq<LogRow>, b: seq<LogRow>, lo: nat, hi: nat)
    requires lo <= hi <= |log| && a == log[lo..hi] && b == log[hi..]
    ensures a + b == log[lo..]
  {
  }

  /**
   Pages partition the log: from the last one down to page 1 they give the whole filtered
   log, in order, with no gap and no duplicate, whatever the page size.
   */
  lemma PagesPartition(rows: seq<LogRow>, command: Id, f: LogFilter, pageSize: int, count: nat)
    requires count * ClampPageSize(pageSize) >= |Selected(rows, command, f)|
    ensures Pages(Selected(rows, command, f), pageSize, count) == Selected(rows, command, f)
  {
    var log := Selected(rows, command, f);
    RowsAre(ClampPageSize(pageSize), count);
    PagesAre(log, pageSize, count);
    assert log[0..] == log;
  }

  /** The rows of the command that have the level, if one is asked for, and lie within both bounds, in log order. */
  lemma {:induction false} SelectedAre(rows: seq<LogRow>, command: Id, f: LogFilter)
    ensures forall r :: r in Selected(rows, command, f) <==>
              && r in rows && r.command == command && (f.level == "" || r.level == f.level)
              && (f.since.Some? ==> r.createdAt >= f.since.value) && (f.until.Some? ==> r.createdAt <= f.until.value)
  {
    if |rows| > 0 {
      SelectedAre(rows[..|rows| - 1], command, f);
      assert rows == rows[..|rows| - 1] + [rows[|rows| - 1]];
    }
  }

  /** A page number below one means the first page, a size below one fifty rows; no page has over a thousand. */
  lemma PageSizes(log: seq<LogRow>, pageSize: int, page: int)
    ensures page <= 0 ==> Page(log, pageSize, page) == Page(log, pageSize, 1)
    ensures pageSize <= 0 ==> Page(log, pageSize, page) == Page(log, 50, page)
    ensures pageSize > 1000 ==> Page(log, pageSize, page) == Page(log, 1000, page)
    ensures 1 <= pageSize <= 1000 ==>
              |Page(log, pageSize, 1)| == if |log| < pageSize then |log| else pageSize
  {
    PageIs(log, pageSize, 1);
  }
}
