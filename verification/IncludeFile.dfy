/** The settings include file: its printer, its parser, and when reading undoes writing. */
module IncludeFile {
  import opened Wrappers
  import opened Text
  import opened Ordering

  type Settings = map<string, string>

  const HEADER := "# Managed by Skylex. Last updated: "

  predicate OneLine(s: string) {
    '\n' !in s
  }

  function Entry(key: string, value: string): string {
    key + " = " + value
  }

  function EntryLines(keys: seq<string>, m: Settings): string
    requires forall k <- keys :: k in m
  {
    if |keys| == 0 then ""
    else var k := keys[|keys| - 1]; EntryLines(keys[..|keys| - 1], m) + (Entry(k, m[k]) + "\n")
  }

  /** Keys in ascending order under a comment line; no settings, no text. */
  ghost function Written(m: Settings, stamp: string): string {
    if m == map[] then "" else HEADER + stamp + "\n" + EntryLines(InOrder(m.Keys), m)
  }

  /** strings.Split(text, "\n") */
  function Split(text: string): (r: seq<string>)
    ensures |r| > 0
  {
    if |text| == 0 then [""]
    else if text[0] == '\n' then [""] + Split(text[1..])
    else var r := Split(text[1..]); [[text[0]] + r[0]] + r[1..]
  }

  datatype Pair = Pair(key: string, value: string)

  /** One line: blank and comment lines say nothing, nor does a line without an equals sign. */
  function Parse(line: string): Option<Pair> {
    var t := TrimSpace(line);
    var cut := Index(t, "=");
    if t == "" || t[0] == '#' || cut.None? then None
    else Some(Pair(TrimSpace(t[..cut.value]), TrimSpace(t[cut.value + 1..])))
  }

  function Assign(m: Settings, line: string): Settings {
    var p := Parse(line);
    if p.Some? then m[p.value.key := p.value.value] else m
  }

  function ReadLines(lines: seq<string>): Settings {
    if |lines| == 0 then map[] else Assign(ReadLines(lines[..|lines| - 1]), lines[|lines| - 1])
  }

  function Read(text: string): Settings {
    ReadLines(Split(text))
  }

  method ReadSettings(text: string) returns (settings: Settings)
    ensures settings == Read(text)
  {
    settings := map[];
    var lines := Split(text);
    var i := 0;
    while i < |lines|
      invariant 0 <= i <= |lines| && settings == ReadLines(lines[..i])
    {
      assert lines[..i + 1][..i] == lines[..i];
      var t := TrimSpace(lines[i]);
      if t != "" && t[0] != '#' {
        var cut := Index(t, "=");
        if cut.Some? {
          settings := settings[TrimSpace(t[..cut.value]) := TrimSpace(t[cut.value + 1..])];
        }
      }
      i := i + 1;
    }
    assert lines[..i] == lines;
  }

  /** The keys of a map, in whatever order it yields them. */
  method CollectKeys(m: Settings) returns (keys: seq<string>)
    ensures NoRepeats(keys) && Elements(keys) == m.Keys
  {
    keys := [];
    var rest := m.Keys;
    while rest != {}
      invariant NoRepeats(keys) && Elements(keys) !! rest && Elements(keys) + rest == m.Keys
    {
      var k :| k in rest;
      keys := keys + [k];
      rest := rest - {k};
    }
  }

  method PrintEntries(keys: seq<string>, m: Settings) returns (text: string)
    requires forall k <- keys :: k in m
    ensures text == EntryLines(keys, m)
  {
    text := "";
    var i := 0;
    while i < |keys|
      invariant 0 <= i <= |keys| && text == EntryLines(keys[..i], m)
    {
      assert keys[..i + 1][..i] == keys[..i];
      text := text + (Entry(keys[i], m[keys[i]]) + "\n");
      i := i + 1;
    }
    assert keys[..i] == keys;
  }

  /** Collects the keys in any order, sorts them, prints them. */
  method WriteSettings(m: Settings, stamp: string) returns (text: string)
    ensures text == Written(m, stamp)
  {
    if m == map[] {
      return "";
    }
    var keys := CollectKeys(m);
    SortedAscending(keys);
    AscendingUnique(Sorted(keys), InOrder(m.Keys));
    keys := Sorted(keys);
    assert forall k <- keys :: k in Elements(keys);
    var entries := PrintEntries(keys, m);
    text := HEADER + stamp + "\n" + entries;
  }

  // ---- Lines ----

  lemma {:induction false} SplitLine(a: string, rest: string)
    requires OneLine(a)
    ensures Split(a + "\n" + rest) == [a] + Split(rest)
  {
    var s := a + "\n" + rest;
    if |a| == 0 {
      assert s[0] == '\n' && s[1..] == rest;
    } else {
      assert s[1..] == a[1..] + "\n" + rest && s[0] == a[0];
      SplitLine(a[1..], rest);
      assert [a[0]] + a[1..] == a;
    }
  }

  lemma {:induction false} SplitLines(text: string)
    ensures forall l <- Split(text) :: OneLine(l)
  {
    if |text| > 0 {
      SplitLines(text[1..]);
      var r := Split(text[1..]);
      assert r[0] in r && forall l <- r[1..] :: l in r;
    }
  }

  lemma {:induction false} ReadConcat(a: seq<string>, b: seq<string>)
    ensures ReadLines(a + b) == ReadLines(a) + ReadLines(b)
  {
    if |b| == 0 {
      assert a + b == a;
    } else {
      var n := |b| - 1;
      assert (a + b)[..|a| + n] == a + b[..n];
      ReadConcat(a, b[..n]);
    }
  }

  // ---- What can be written and read back ----

  /** Trimmed, on one line, and for keys: no equals sign and no comment sign in front. */
  predicate PrintableKey(k: string) {
    Trimmed(k) && OneLine(k) && '=' !in k && (|k| > 0 ==> k[0] != '#')
  }

  predicate PrintableValue(v: string) {
    Trimmed(v) && OneLine(v)
  }

  ghost predicate Printable(m: Settings) {
    forall k <- m :: PrintableKey(k) && PrintableValue(m[k])
  }

  lemma {:induction false} IndexOfChar(s: string, k: nat)
    requires k < |s| && s[k] == '=' && forall i | 0 <= i < k :: s[i] != '='
    ensures Index(s, "=") == Some(k)
  {
    forall i: nat | i < k ensures !StartsAt(s, i, "=") {
      assert s[i..i + 1][0] == s[i];
    }
    assert s[k..k + 1] == "=";
    IndexAt(s, "=", k);
  }

  /** The trimmed text of an entry line. */
  function Stripped(k: string, v: string): string {
    (if k == "" then "" else k + " ") + "=" + (if v == "" then "" else " " + v)
  }

  lemma StrippedIs(k: string, v: string)
    requires Trimmed(k) && Trimmed(v)
    ensures TrimSpace(Entry(k, v)) == Stripped(k, v)
  {
    var a, b := if k == "" then " " else "", if v == "" then " " else "";
    assert IsSpace(' ') && !IsSpace('=');
    assert Entry(k, v) == a + Stripped(k, v) + b;
    TrimIs(a, Stripped(k, v), b);
  }

  lemma TrimPad(s: string)
    requires Trimmed(s)
    ensures TrimSpace(s + " ") == s && TrimSpace(" " + s) == s && TrimSpace(s) == s
  {
    assert IsSpace(' ');
    TrimIs("", s, " ");
    TrimIs(" ", s, "");
    TrimIs("", s, "");
    assert "" + s + " " == s + " " && " " + s + "" == " " + s && "" + s + "" == s;
  }

  lemma CutStripped(k: string, v: string)
    requires PrintableKey(k) && PrintableValue(v)
    ensures var t := Stripped(k, v); var n := if k == "" then 0 else |k| + 1;
            && Index(t, "=") == Some(n) && t != "" && t[0] != '#'
            && t[..n] == (if k == "" then "" else k + " ") && t[n + 1..] == (if v == "" then "" else " " + v)
  {
    var t := Stripped(k, v);
    var n := if k == "" then 0 else |k| + 1;
    assert forall i | 0 <= i < |k| :: k[i] in k;
    IndexOfChar(t, n);
  }

  lemma ParseEntry(k: string, v: string)
    requires PrintableKey(k) && PrintableValue(v)
    ensures Parse(Entry(k, v)) == Some(Pair(k, v))
  {
    StrippedIs(k, v);
    CutStripped(k, v);
    TrimPad(k);
    TrimPad(v);
  }

  lemma Regroup(a: string, line: string, tail: string)
    ensures a + (line + "\n") + tail == a + (line + "\n" + tail)
  {
  }

  lemma {:induction false} ReadEntries(keys: seq<string>, m: Settings, tail: string)
    requires Printable(m) && forall k <- keys :: k in m
    ensures Split(EntryLines(keys, m) + tail) == LinesOf(keys, m) + Split(tail)
  {
    if |keys| == 0 {
      assert EntryLines(keys, m) + tail == tail;
    } else {
      var n := |keys| - 1;
      var line := Entry(keys[n], m[keys[n]]);
      ReadEntries(keys[..n], m, line + "\n" + tail);
      SplitLine(line, tail);
      Regroup(EntryLines(keys[..n], m), line, tail);
      assert LinesOf(keys[..n], m) + ([line] + Split(tail)) == LinesOf(keys, m) + Split(tail);
    }
  }

  function LinesOf(keys: seq<string>, m: Settings): seq<string>
    requires forall k <- keys :: k in m
  {
    if |keys| == 0 then []
    else LinesOf(keys[..|keys| - 1], m) + [Entry(keys[|keys| - 1], m[keys[|keys| - 1]])]
  }

  lemma ReadSnoc(before: seq<string>, line: string)
    ensures ReadLines(before + [line]) == Assign(ReadLines(before), line)
  {
    assert (before + [line])[..|before|] == before;
  }

  lemma AssignEntry(before: Settings, k: string, v: string)
    requires PrintableKey(k) && PrintableValue(v)
    ensures Assign(before, Entry(k, v)) == before[k := v]
  {
    ParseEntry(k, v);
  }

  lemma PickedSnoc(keys: seq<string>, last: string, m: Settings)
    requires forall k <- keys + [last] :: k in m
    ensures (map k <- keys :: m[k])[last := m[last]] == map k <- keys + [last] :: m[k]
  {
  }

  lemma {:induction false} ReadLinesOf(keys: seq<string>, m: Settings)
    requires Printable(m) && forall k <- keys :: k in m
    ensures ReadLines(LinesOf(keys, m)) == map k <- keys :: m[k]
  {
    if |keys| > 0 {
      var n := |keys| - 1;
      var k := keys[n];
      assert keys == keys[..n] + [k];
      ReadLinesOf(keys[..n], m);
      ReadSnoc(LinesOf(keys[..n], m), Entry(k, m[k]));
      AssignEntry(ReadLines(LinesOf(keys[..n], m)), k, m[k]);
      PickedSnoc(keys[..n], k, m);
    }
  }

  lemma CommentSaysNothing(line: string)
    requires |line| > 0 && line[0] == '#'
    ensures Parse(line) == None
  {
    var a, b := TrimParts(line);
    assert !IsSpace('#');
    assert a == line[..|a|];
    if TrimSpace(line) != "" {
      assert TrimSpace(line)[0] == line[0];
    }
  }

  lemma ReadWritten(m: Settings, stamp: string)
    requires Printable(m) && OneLine(stamp)
    ensures Read(Written(m, stamp)) == m
  {
    if m == map[] {
      assert Split("") == [""] && [""][..0] == [];
      assert TrimSpace("") == "";
    } else {
      var keys := InOrder(m.Keys);
      assert forall k <- keys :: k in Elements(keys);
      HeaderLine(stamp);
      SplitLine(HEADER + stamp, EntryLines(keys, m));
      ReadBody(keys, m, HEADER + stamp);
      assert (map k <- keys :: m[k]) == m;
    }
  }

  /** Only the comment line and the trailing empty line add nothing. */
  lemma ReadBody(keys: seq<string>, m: Settings, header: string)
    requires Printable(m) && (forall k <- keys :: k in m) && Parse(header) == None && Parse("") == None
    ensures ReadLines([header] + Split(EntryLines(keys, m))) == map k <- keys :: m[k]
  {
    ReadEntries(keys, m, "");
    assert EntryLines(keys, m) + "" == EntryLines(keys, m);
    assert Split("") == [""];
    ReadConcat([header], LinesOf(keys, m) + [""]);
    ReadConcat(LinesOf(keys, m), [""]);
    ReadLinesOf(keys, m);
  }

  lemma HeaderLine(stamp: string)
    requires OneLine(stamp)
    ensures OneLine(HEADER + stamp) && Parse(HEADER + stamp) == None && Parse("") == None
  {
    assert OneLine(HEADER);
    assert (HEADER + stamp)[0] == '#';
    CommentSaysNothing(HEADER + stamp);
    assert TrimSpace("") == "";
  }

  // ---- And only that ----

  lemma TrimOneLine(s: string)
    requires OneLine(s)
    ensures OneLine(TrimSpace(s)) && Trimmed(TrimSpace(s))
  {
    var a, b := TrimParts(s);
  }

  /** Whatever a file holds, reading it gives settings that can be written. */
  lemma ParsedPrintable(line: string)
    requires OneLine(line)
    ensures Parse(line).Some? ==> PrintableKey(Parse(line).value.key) && PrintableValue(Parse(line).value.value)
  {
    var t := TrimSpace(line);
    TrimOneLine(line);
    if Parse(line).Some? {
      var n := Index(t, "=").value;
      IndexIsFirst(t, "=");
      TrimOneLine(t[..n]);
      TrimOneLine(t[n + 1..]);
      var a, b := TrimParts(t[..n]);
      var key := TrimSpace(t[..n]);
      forall i | 0 <= i < |key| ensures key[i] != '=' {
        assert t[..n] == a + key + b;
        assert key[i] == t[|a| + i];
        assert !StartsAt(t, |a| + i, "=");
        assert t[|a| + i..|a| + i + 1] == [t[|a| + i]];
      }
    }
  }

  lemma {:induction false} ReadLinesPrintable(lines: seq<string>)
    requires forall l <- lines :: OneLine(l)
    ensures Printable(ReadLines(lines))
  {
    if |lines| > 0 {
      var n := |lines| - 1;
      ReadLinesPrintable(lines[..n]);
      ParsedPrintable(lines[n]);
    }
  }

  lemma ReadPrintable(text: string)
    ensures Printable(Read(text))
  {
    SplitLines(text);
    ReadLinesPrintable(Split(text));
  }

  /** Reading undoes writing exactly for the settings a line can hold. */
  lemma RoundTripIff(m: Settings, stamp: string)
    requires OneLine(stamp)
    ensures Read(Written(m, stamp)) == m <==> Printable(m)
  {
    if Printable(m) {
      ReadWritten(m, stamp);
    } else {
      ReadPrintable(Written(m, stamp));
    }
  }

  /** The text of one setting. */
  lemma OneSetting(k: string, v: string, stamp: string)
    ensures Written(map[k := v], stamp) == "# Managed by Skylex. Last updated: " + stamp + "\n" + k + " = " + v + "\n"
  {
    var keys := InOrder({k});
    assert k in Elements(keys);
    AscendingUnique(keys, [k]);
    assert map[k := v].Keys == {k};
    assert EntryLines([k], map[k := v]) == Entry(k, v) + "\n";
  }
}
