/** The managed block at the top of pg_hba.conf, and how it is replaced. */
module HbaPrefix {
  import opened Wrappers
  import opened Text

  const HBA_BEGIN := "# BEGIN SKYLEX MANAGED HBA"
  const HBA_END := "# END SKYLEX MANAGED HBA"

  const OPENING := "# BEGIN SKYLEX MANAGED HBA\nlocal   all             "

  // The columns of the fixed lines.
  const SCRAM := " scram-sha-256\n"
  const HOST := "host    "
  const ALL := "all             "
  const REPLICATION := "replication     "
  const LOOPBACK_V4 := " 127.0.0.1/32           "
  const LOOPBACK_V6 := " ::1/128                "
  const ANY_V4 := "0.0.0.0/0               "
  const ANY_V6 := "::/0                    "
  const REJECT := "reject\n"
  const INCLUDE := "include_if_exists "
  const INCLUDE_FILE := "skylex.pg_hba.conf\n"

  function HbaField(value: string): string {
    if value == "" then "all" else value
  }

  /** The fixed text of the block: before the first name, after each of the three, and the two markers. */
  datatype Layout = Layout(
    begin: string, end: string, opening: string, afterLocal: string, afterV4: string, afterV6: string)

  function Concat(parts: seq<string>): string {
    if |parts| == 0 then "" else Concat(parts[..|parts| - 1]) + parts[|parts| - 1]
  }

  function LocalParts(f: string): seq<string> {
    [Spaces(39 - |f|), SCRAM, HOST, ALL]
  }

  function V4Parts(f: string): seq<string> {
    [Spaces(16 - |f|), LOOPBACK_V4, SCRAM, HOST, ALL]
  }

  /** The last loopback line, the include directive and the four reject lines. */
  function V6Parts(f: string): seq<string> {
    [Spaces(16 - |f|), LOOPBACK_V6, SCRAM, INCLUDE, INCLUDE_FILE,
     HOST, ALL, ALL, ANY_V4, REJECT, HOST, ALL, ALL, ANY_V6, REJECT,
     HOST, REPLICATION, ALL, ANY_V4, REJECT, HOST, REPLICATION, ALL, ANY_V6, REJECT]
  }

  function Skylex(f: string): Layout {
    Layout(HBA_BEGIN, HBA_END, OPENING, Concat(LocalParts(f)), Concat(V4Parts(f)), Concat(V6Parts(f)))
  }

  /** Everything of the block before its end marker. */
  function Block(l: Layout, f: string): string {
    l.opening + f + l.afterLocal + f + l.afterV4 + f + l.afterV6
  }

  function Managed(l: Layout, f: string): string {
    Block(l, f) + (l.end + "\n")
  }

  function Remove(content: string, begin: string, end: string): string {
    var b := Index(content, begin);
    if b.None? then content
    else
      var e := Index(content[b.value..], end);
      if e.None? then content
      else
        Without(content, b.value, e.value + b.value + |end|)
  }

  /** Drops content[from..to] and the newline behind it. */
  function Without(content: string, from: nat, to: nat): string
    requires from <= to <= |content|
  {
    content[..from] + content[if to < |content| && content[to] == '\n' then to + 1 else to..]
  }

  function Replaced(content: string, l: Layout, f: string): string {
    Managed(l, f) + TrimLeftNewlines(Remove(content, l.begin, l.end))
  }

  function RemoveManaged(content: string): string {
    Remove(content, HBA_BEGIN, HBA_END)
  }

  function WithManaged(content: string, superuser: string): string {
    Replaced(content, Skylex(HbaField(superuser)), HbaField(superuser))
  }

  // ---- Where the end marker stands ----

  ghost predicate Plain(p: string) {
    forall i | 0 <= i < |p| :: p[i] != '#'
  }

  /** What may follow the name: a blank, and then no capital of the marker. */
  predicate Tail(t: string) {
    |t| > 1 && t[0] == ' ' && t[1] in {' ', 's', '1', ':'}
  }

  /** The marker starts with the only hash sign, and its blanks are followed by capitals. */
  ghost predicate Marker(e: string) {
    && |e| > 2 && e[0] == '#'
    && forall r | 0 < r < |e| && e[r] == ' ' :: r + 1 < |e| && e[r + 1] in {'E', 'S', 'M', 'H'}
  }

  ghost predicate Good(l: Layout) {
    && Marker(l.end) && |l.begin| > 2 && l.begin <= l.opening && l.opening[2] != l.end[2]
    && (forall i | 1 <= i < |l.opening| :: l.opening[i] != '#')
    && Plain(l.afterLocal) && Tail(l.afterLocal) && Plain(l.afterV4) && Tail(l.afterV4)
    && Plain(l.afterV6) && Tail(l.afterV6)
  }

  ghost predicate NoneStartsIn(s: string, e: string, lo: nat, hi: nat) {
    forall i: nat | lo <= i < hi :: !StartsAt(s, i, e)
  }

  /** No marker starts in text without a hash sign. */
  lemma PlainText(s: string, e: string, lo: nat, hi: nat)
    requires Marker(e) && hi <= |s| && forall i | lo <= i < hi :: s[i] != '#'
    ensures NoneStartsIn(s, e, lo, hi)
  {
    forall i: nat | lo <= i < hi ensures !StartsAt(s, i, e) {
      assert i + |e| <= |s| ==> s[i..i + |e|][0] == s[i];
    }
  }

  /** A marker that starts inside the name lies inside it: what follows the name breaks it off. */
  lemma FieldText(s: string, e: string, lo: nat, f: string)
    requires Marker(e) && lo + |f| + 1 < |s| && s[lo..lo + |f|] == f && !Contains(f, e)
    requires s[lo + |f|] == ' ' && s[lo + |f| + 1] in {' ', 's', '1', ':'}
    ensures NoneStartsIn(s, e, lo, lo + |f|)
  {
    forall i: nat | lo <= i < lo + |f| ensures !StartsAt(s, i, e) {
      var j := i - lo;
      if j + |e| <= |f| {
        SubSlice(s, lo, |f|, j, |e|);
        assert !StartsAt(f, j, e);
      } else if i + |e| <= |s| {
        var r := |f| - j;
        var u := s[i..i + |e|];
        assert u[r] == s[i + r] && r + 1 < |e| ==> u[r + 1] == s[i + r + 1];
        assert r + 1 == |e| || u != e;
        assert u[r] == ' ';
      }
    }
  }

  lemma OpeningText(s: string, l: Layout)
    requires Good(l) && |l.opening| <= |s| && s[..|l.opening|] == l.opening
    ensures NoneStartsIn(s, l.end, 0, |l.opening|)
  {
    assert forall i | 0 <= i < |l.opening| :: s[i] == s[..|l.opening|][i];
    PlainText(s, l.end, 1, |l.opening|);
    assert |l.end| <= |s| ==> s[0..0 + |l.end|][2] == s[2];
  }

  /** One occurrence of the name with what follows it. */
  lemma Piece(s: string, e: string, lo: nat, f: string, t: string)
    requires Marker(e) && !Contains(f, e) && Plain(t) && Tail(t)
    requires lo + |f| + |t| <= |s| && s[lo..lo + |f| + |t|] == f + t
    ensures NoneStartsIn(s, e, lo, lo + |f| + |t|)
  {
    var u := s[lo..lo + |f| + |t|];
    assert s[lo..lo + |f|] == u[..|f|] == f;
    assert forall i | 0 <= i < |t| :: s[lo + |f| + i] == u[|f| + i] == t[i];
    FieldText(s, e, lo, f);
    assert forall i | lo + |f| <= i < lo + |f| + |t| :: s[i] == t[i - lo - |f|];
    PlainText(s, e, lo + |f|, lo + |f| + |t|);
  }

  lemma BlockText(l: Layout, f: string, rest: string)
    requires Good(l) && !Contains(f, l.end)
    ensures NoneStartsIn(Block(l, f) + rest, l.end, 0, |Block(l, f)|)
  {
    var s := Block(l, f) + rest;
    var a := |l.opening|;
    var b := a + |f| + |l.afterLocal|;
    var c := b + |f| + |l.afterV4|;
    assert s[..a] == l.opening;
    OpeningText(s, l);
    assert s[a..b] == f + l.afterLocal;
    Piece(s, l.end, a, f, l.afterLocal);
    assert s[b..c] == f + l.afterV4;
    Piece(s, l.end, b, f, l.afterV4);
    assert s[c..c + |f| + |l.afterV6|] == f + l.afterV6;
    Piece(s, l.end, c, f, l.afterV6);
  }

  // ---- Replacing the block ----

  lemma BeginsAtOnce(l: Layout, f: string, rest: string)
    requires Good(l)
    ensures Index(Managed(l, f) + rest, l.begin) == Some(0)
  {
    var s := Managed(l, f) + rest;
    assert s[..|l.begin|] == l.opening[..|l.begin|] == l.begin;
  }

  /** Removing the block takes exactly the block, marker line included. */
  lemma RemovesTheBlock(l: Layout, f: string, rest: string)
    requires Good(l) && !Contains(f, l.end)
    ensures Remove(Managed(l, f) + rest, l.begin, l.end) == rest
  {
    var s, n := Managed(l, f) + rest, |Block(l, f)|;
    BeginsAtOnce(l, f, rest);
    assert s[0..] == s;
    assert s == Block(l, f) + (l.end + "\n" + rest);
    BlockText(l, f, l.end + "\n" + rest);
    assert s[n..n + |l.end|] == l.end;
    IndexAt(s, l.end, n);
    assert s[n + |l.end|] == '\n' && s[n + |l.end| + 1..] == rest && s[..0] == "";
  }

  /** The first end marker stands inside the first name. */
  lemma MarkerInField(l: Layout, f: string, rest: string) returns (k: nat)
    requires Good(l) && Contains(f, l.end)
    ensures Index(Managed(l, f) + rest, l.end) == Some(k) && k + |l.end| <= |l.opening| + |f|
  {
    var j: nat :| StartsAt(f, j, l.end);
    FieldStands(l, f, rest);
    ShiftedStart(Managed(l, f) + rest, |l.opening|, f, l.end, j);
    k := FirstUpTo(Managed(l, f) + rest, l.end, |l.opening| + j);
  }

  lemma ShiftedStart(s: string, lo: nat, f: string, sub: string, j: nat)
    requires lo + |f| <= |s| && s[lo..lo + |f|] == f && StartsAt(f, j, sub)
    ensures StartsAt(s, lo + j, sub)
  {
    SubSlice(s, lo, |f|, j, |sub|);
  }

  lemma FieldStands(l: Layout, f: string, rest: string)
    ensures var s := Managed(l, f) + rest; |l.opening| + |f| <= |s| && s[|l.opening|..|l.opening| + |f|] == f
  {
    var t := l.afterLocal + f + l.afterV4 + f + l.afterV6 + (l.end + "\n") + rest;
    assert Managed(l, f) + rest == l.opening + (f + t);
  }

  lemma FirstUpTo(s: string, sub: string, i: nat) returns (k: nat)
    requires StartsAt(s, i, sub)
    ensures k <= i && Index(s, sub) == Some(k)
  {
    IndexIsFirst(s, sub);
    k := Index(s, sub).value;
  }

  lemma EndStands(l: Layout, f: string, rest: string)
    requires Good(l)
    ensures var n := |Block(l, f)|; var s := Managed(l, f) + rest;
            n < |s| && s[n] == '#' && |s| - n > |rest| && n > |l.opening| + |f| + 1
  {
    assert Managed(l, f) + rest == Block(l, f) + (l.end + "\n" + rest);
  }

  /** A name that holds the end marker makes the removal stop inside the block. */
  lemma StopsInside(l: Layout, f: string, rest: string)
    requires Good(l) && Contains(f, l.end)
    ensures |TrimLeftNewlines(Remove(Managed(l, f) + rest, l.begin, l.end))| > |rest|
  {
    var s, n := Managed(l, f) + rest, |Block(l, f)|;
    BeginsAtOnce(l, f, rest);
    var k := MarkerInField(l, f, rest);
    EndStands(l, f, rest);
    RemoveFrom(s, l.begin, l.end, k);
    var cut := if s[k + |l.end|] == '\n' then k + |l.end| + 1 else k + |l.end|;
    TrimCut(s, cut, n);
  }

  lemma RemoveFrom(s: string, begin: string, end: string, k: nat)
    requires Index(s, begin) == Some(0) && Index(s, end) == Some(k) && k + |end| < |s|
    ensures Remove(s, begin, end) == s[if s[k + |end|] == '\n' then k + |end| + 1 else k + |end|..]
  {
    assert s[0..] == s;
    RemoveAt(s, begin, end, 0, k);
  }

  lemma Cuts(s: string, begin: string, end: string, b: nat, e: nat, to: nat)
    requires Index(s, begin) == Some(b) && Index(s[b..], end) == Some(e) && to == e + b + |end| && to <= |s|
    ensures Remove(s, begin, end) == Without(s, b, to)
  {
  }

  lemma RemoveAt(s: string, begin: string, end: string, b: nat, e: nat)
    requires Index(s, begin) == Some(b) && Index(s[b..], end) == Some(e) && b + e + |end| < |s|
    ensures Remove(s, begin, end) == Without(s, b, b + e + |end|)
  {
    Cuts(s, begin, end, b, e, e + b + |end|);
  }

  lemma TrimCut(s: string, cut: nat, n: nat)
    requires cut <= n < |s| && s[n] != '\n'
    ensures |TrimLeftNewlines(s[cut..])| >= |s| - n
  {
    assert s[cut..][n - cut] == s[n];
    TrimStops(s[cut..], n - cut);
  }

  // ---- The texts themselves ----

  /** Text without a hash sign, and where it starts. */
  lemma {:induction false} PlainConcat(parts: seq<string>)
    requires forall p <- parts :: Plain(p)
    ensures Plain(Concat(parts))
  {
    if |parts| > 0 {
      PlainConcat(parts[..|parts| - 1]);
      assert Plain(parts[|parts| - 1]);
    }
  }

  lemma {:induction false} ConcatStarts(parts: seq<string>)
    requires |parts| >= 2
    ensures |Concat(parts)| >= |parts[0]| + |parts[1]|
    ensures Concat(parts)[..|parts[0]| + |parts[1]|] == parts[0] + parts[1]
  {
    if |parts| == 2 {
      assert parts[..1] == [parts[0]] && parts[..1][..0] == [];
      assert Concat([parts[0]]) == parts[0];
    } else {
      ConcatStarts(parts[..|parts| - 1]);
      assert Concat(parts)[..|parts[0]| + |parts[1]|] == Concat(parts[..|parts| - 1])[..|parts[0]| + |parts[1]|];
    }
  }

  /** Padding does not hide a tail. */
  lemma PaddedTail(n: int, parts: seq<string>)
    requires |parts| >= 2 && parts[0] == Spaces(n) && Tail(parts[1]) && forall p <- parts :: Plain(p)
    ensures Plain(Concat(parts)) && Tail(Concat(parts))
  {
    SpacesAre(n);
    PlainConcat(parts);
    ConcatStarts(parts);
    var t, u := Concat(parts), parts[0] + parts[1];
    assert t[0] == t[..|u|][0] == u[0] && t[1] == t[..|u|][1] == u[1];
  }

  lemma PlainSpaces(n: int)
    ensures Plain(Spaces(n))
  {
    SpacesAre(n);
  }

  lemma PlainColumns()
    ensures Plain(SCRAM) && Plain(HOST) && Plain(ALL) && Plain(REPLICATION) && Plain(REJECT)
    ensures Tail(SCRAM)
  {
  }

  lemma PlainAddresses()
    ensures Plain(LOOPBACK_V4) && Plain(LOOPBACK_V6) && Plain(ANY_V4) && Plain(ANY_V6)
    ensures Tail(LOOPBACK_V4) && Tail(LOOPBACK_V6)
  {
  }

  lemma PlainInclude()
    ensures Plain(INCLUDE) && Plain(INCLUDE_FILE)
  {
  }

  lemma MarkersGood()
    ensures Marker(HBA_END) && HBA_BEGIN <= OPENING && OPENING[2] != HBA_END[2] && |HBA_BEGIN| > 2
    ensures forall i | 1 <= i < |OPENING| :: OPENING[i] != '#'
  {
    forall r | 0 < r < |HBA_END| && HBA_END[r] == ' '
      ensures r + 1 < |HBA_END| && HBA_END[r + 1] in {'E', 'S', 'M', 'H'}
    {
      assert r == 1 || r == 5 || r == 12 || r == 20;
    }
  }

  lemma LocalGood(f: string)
    ensures Plain(Concat(LocalParts(f))) && Tail(Concat(LocalParts(f)))
  {
    PlainSpaces(39 - |f|);
    PlainColumns();
    PaddedTail(39 - |f|, LocalParts(f));
  }

  lemma V4Good(f: string)
    ensures Plain(Concat(V4Parts(f))) && Tail(Concat(V4Parts(f)))
  {
    PlainSpaces(16 - |f|);
    PlainColumns();
    PlainAddresses();
    PaddedTail(16 - |f|, V4Parts(f));
  }

  lemma V6Good(f: string)
    ensures Plain(Concat(V6Parts(f))) && Tail(Concat(V6Parts(f)))
  {
    PlainSpaces(16 - |f|);
    PlainColumns();
    PlainAddresses();
    PlainInclude();
    PaddedTail(16 - |f|, V6Parts(f));
  }

  lemma SkylexGood(f: string)
    ensures Good(Skylex(f))
  {
    MarkersGood();
    LocalGood(f);
    V4Good(f);
    V6Good(f);
  }

  // ---- The theorems ----

  lemma ReplacedTwice(content: string, l: Layout, f: string, m: Layout, g: string)
    requires Good(l) && m.begin == l.begin && m.end == l.end
    ensures Replaced(Replaced(content, l, f), m, g) == Replaced(content, m, g) <==> !Contains(f, l.end)
  {
    var rest := TrimLeftNewlines(Remove(content, l.begin, l.end));
    if Contains(f, l.end) {
      StopsInside(l, f, rest);
      assert |Replaced(Replaced(content, l, f), m, g)| > |Replaced(content, m, g)|;
    } else {
      RemovesTheBlock(l, f, rest);
      TrimTwice(Remove(content, l.begin, l.end));
    }
  }

  /** Whatever markers the content holds, what stands behind the new block is the old remainder. */
  lemma RemainderKept(content: string, superuser: string)
    requires !Contains(HbaField(superuser), HBA_END)
    ensures RemoveManaged(WithManaged(content, superuser)) == TrimLeftNewlines(RemoveManaged(content))
  {
    SkylexGood(HbaField(superuser));
    RemovesTheBlock(Skylex(HbaField(superuser)), HbaField(superuser), TrimLeftNewlines(RemoveManaged(content)));
  }

  /**
   The block absorbs itself: applying it twice is applying it once with the second
   superuser, exactly when the first superuser's name does not hold the end marker.
   */
  lemma AbsorbsIff(content: string, first: string, second: string)
    ensures WithManaged(WithManaged(content, first), second) == WithManaged(content, second)
            <==> !Contains(HbaField(first), HBA_END)
  {
    var f, g := HbaField(first), HbaField(second);
    SkylexGood(f);
    ReplacedTwice(content, Skylex(f), f, Skylex(g), g);
  }

  /** A superuser whose name is the end marker: the second refresh leaves part of the first block behind. */
  lemma NameHoldsMarker(content: string, second: string)
    ensures WithManaged(WithManaged(content, HBA_END), second) != WithManaged(content, second)
  {
    assert StartsAt(HbaField(HBA_END), 0, HBA_END);
    AbsorbsIff(content, HBA_END, second);
  }
}
