/**
 The HBA texts as they are read: lines that are not comments, split into columns at blanks.
 Quoting and continuation, which the texts do not use, are not read.
 */
module HbaRules {
  import opened Wrappers
  import opened Text
  import opened Ordering
  import opened HbaPrefix
  import opened HbaPolicy
  import Files = IncludeFile

  // ---- The reader ----

  function WordEnd(s: string): (k: nat)
    ensures k <= |s|
  {
    if |s| == 0 || s[0] == ' ' then 0 else 1 + WordEnd(s[1..])
  }

  function Words(s: string): seq<string> {
    if |s| == 0 then []
    else if s[0] == ' ' then Words(s[1..])
    else [s[..WordEnd(s)]] + Words(s[WordEnd(s)..])
  }

  /** Nothing for a blank line or a comment. */
  function Rule(line: string): seq<seq<string>> {
    if Words(line) == [] || "#" <= Words(line)[0] then [] else [Words(line)]
  }

  function RulesOf(lines: seq<string>): seq<seq<string>> {
    if |lines| == 0 then [] else Rule(lines[0]) + RulesOf(lines[1..])
  }

  function Rules(text: string): seq<seq<string>> {
    RulesOf(Files.Split(text))
  }

  predicate Unbroken(w: string) {
    w != "" && ' ' !in w && '\n' !in w
  }

  predicate Blanks(g: string) {
    forall i | 0 <= i < |g| :: g[i] == ' '
  }

  lemma {:induction false} WordEndConcat(w: string, rest: string)
    requires ' ' !in w && (rest == "" || rest[0] == ' ')
    ensures WordEnd(w + rest) == |w|
  {
    if |w| > 0 {
      assert (w + rest)[1..] == w[1..] + rest;
      assert w[0] in w;
      WordEndConcat(w[1..], rest);
    }
  }

  lemma OneWord(w: string, rest: string)
    requires Unbroken(w) && (rest == "" || rest[0] == ' ')
    ensures Words(w + rest) == [w] + Words(rest)
  {
    assert w[0] in w;
    WordEndConcat(w, rest);
    assert (w + rest)[..|w|] == w && (w + rest)[|w|..] == rest;
  }

  lemma {:induction false} SkipBlanks(g: string, rest: string)
    requires Blanks(g)
    ensures Words(g + rest) == Words(rest)
  {
    if |g| > 0 {
      assert (g + rest)[1..] == g[1..] + rest;
      SkipBlanks(g[1..], rest);
    } else {
      assert g + rest == rest;
    }
  }

  /** A word, the blanks behind it, and what follows. */
  lemma Column(w: string, g: string, rest: string)
    requires Unbroken(w) && Blanks(g) && g != ""
    ensures Words(w + (g + rest)) == [w] + Words(rest)
  {
    assert (g + rest)[0] == g[0];
    OneWord(w, g + rest);
    SkipBlanks(g, rest);
  }

  // ---- Lines ----

  predicate Ended(text: string) {
    text == "" || text[|text| - 1] == '\n'
  }

  lemma RulesLine(line: string, rest: string)
    requires Files.OneLine(line)
    ensures Rules(line + "\n" + rest) == Rule(line) + Rules(rest)
  {
    Files.SplitLine(line, rest);
    assert ([line] + Files.Split(rest))[1..] == Files.Split(rest);
  }

  lemma NoRules()
    ensures Rules("") == []
  {
    assert Files.Split("") == [""] && Words("") == [];
    assert RulesOf([""]) == Rule("") + RulesOf([""][1..]);
  }

  lemma LineRules(line: string)
    requires Files.OneLine(line)
    ensures Rules(line + "\n") == Rule(line)
  {
    RulesLine(line, "");
    NoRules();
    assert line + "\n" + "" == line + "\n";
  }

  /** The first line of a text and the rest of it. */
  lemma {:induction false} FirstLine(text: string) returns (line: string, rest: string)
    requires text != "" && Ended(text)
    ensures text == line + "\n" + rest && Files.OneLine(line) && Ended(rest)
  {
    if text[0] == '\n' {
      line, rest := "", text[1..];
      assert text == "" + "\n" + rest;
    } else {
      line, rest := FirstLine(text[1..]);
      assert text == [text[0]] + text[1..];
      assert [text[0]] + (line + "\n" + rest) == ([text[0]] + line) + "\n" + rest;
      line := [text[0]] + line;
    }
  }

  /** Rules of a text that ends with a line are unaffected by what follows. */
  lemma {:induction false} RulesConcat(a: string, b: string)
    requires Ended(a)
    ensures Rules(a + b) == Rules(a) + Rules(b)
    decreases |a|
  {
    if a == "" {
      NoRules();
      assert a + b == b;
    } else {
      var line, rest := FirstLine(a);
      RulesConcat(rest, b);
      RulesBefore(a, line, rest, "");
      RulesBefore(a, line, rest, b);
      Glue(Rule(line), Rules(rest), Rules(b));
      assert a + "" == a && rest + "" == rest;
    }
  }

  lemma RulesBefore(a: string, line: string, rest: string, b: string)
    requires a == line + "\n" + rest && Files.OneLine(line)
    ensures Rules(a + b) == Rule(line) + Rules(rest + b)
  {
    RulesLine(line, rest + b);
    assert a + b == line + "\n" + (rest + b);
  }

  lemma Glue(a: seq<seq<string>>, b: seq<seq<string>>, c: seq<seq<string>>)
    ensures (a + b) + c == a + (b + c)
  {
  }

  lemma EndedConcat(a: string, b: string)
    requires Ended(a) && Ended(b)
    ensures Ended(a + b)
  {
  }

  // ---- The include file ----

  lemma Assoc(a: string, b: string, c: string)
    ensures a + (b + c) == a + b + c
  {
  }

  /** Five columns, each but the last with the blanks behind it. */
  function Five(a: string, ga: string, b: string, gb: string, c: string, gc: string, d: string, gd: string, e: string)
    : string
  {
    a + (ga + (b + (gb + (c + (gc + (d + (gd + e)))))))
  }

  predicate IsGap(g: string) {
    g != "" && Blanks(g)
  }

  lemma FiveWords(a: string, ga: string, b: string, gb: string, c: string, gc: string, d: string, gd: string, e: string)
    requires Unbroken(a) && Unbroken(b) && Unbroken(c) && Unbroken(d) && Unbroken(e)
    requires IsGap(ga) && IsGap(gb) && IsGap(gc) && IsGap(gd)
    ensures Words(Five(a, ga, b, gb, c, gc, d, gd, e)) == [a, b, c, d, e]
  {
    assert e + "" == e && Words("") == [];
    OneWord(e, "");
    Column(d, gd, e);
    Column(c, gc, d + (gd + e));
    Column(b, gb, c + (gc + (d + (gd + e))));
    Column(a, ga, b + (gb + (c + (gc + (d + (gd + e))))));
    assert [a] + ([b] + ([c] + ([d] + [e]))) == [a, b, c, d, e];
  }

  lemma FiveOneLine(a: string, ga: string, b: string, gb: string, c: string, gc: string, d: string, gd: string,
                    e: string)
    requires Unbroken(a) && Unbroken(b) && Unbroken(c) && Unbroken(d) && Unbroken(e)
    requires Blanks(ga) && Blanks(gb) && Blanks(gc) && Blanks(gd)
    ensures Files.OneLine(Five(a, ga, b, gb, c, gc, d, gd, e))
  {
  }

  /** The text of a line, put together from the left. */
  lemma FiveJoined(a: string, ga: string, b: string, gb: string, c: string, gc: string, d: string, sp: string,
                   one: string, e: string)
    ensures a + (ga + (b + (gb + c))) + gc + (d + sp) + (one + e) == Five(a, ga, b, gb, c, gc, d, sp + one, e)
  {
    var t := d + ((sp + one) + e);
    assert d + sp + (one + e) == t;
    var left := a + (ga + (b + (gb + c)));
    Assoc(left + gc, d + sp, one + e);
    assert left + gc + t == left + (gc + t);
    assert gb + c + (gc + t) == gb + (c + (gc + t));
    assert b + (gb + c) + (gc + t) == b + (gb + c + (gc + t));
    assert ga + (b + (gb + c)) + (gc + t) == ga + (b + (gb + c) + (gc + t));
    assert left + (gc + t) == a + (ga + (b + (gb + c)) + (gc + t));
  }

  lemma FiveLine(prefix: string, a: string, ga: string, b: string, gb: string, c: string, gc: string, d: string,
                 sp: string, one: string, e: string, auth: string, nl: string)
    requires prefix == a + (ga + (b + (gb + c))) && auth == one + e + nl
    ensures prefix + gc + (d + sp) + auth == Five(a, ga, b, gb, c, gc, d, sp + one, e) + nl
  {
    FiveJoined(a, ga, b, gb, c, gc, d, sp, one, e);
    Assoc(prefix + gc + (d + sp), one + e, nl);
  }

  lemma AuthIs()
    ensures SCRAM_AUTH == " " + "scram-sha-256" + "\n"
  {
  }

  lemma Padded(s: string, n: nat)
    ensures PadRight(s, n) == s + Spaces(n - |s|)
  {
  }

  /** Access for a role to a database from a network, password required. */
  function Access(db: string, role: string, cidr: string): seq<string> {
    ["host", db, role, cidr, "scram-sha-256"]
  }

  lemma AccessIs(text: string, prefix: string, host: string, gap: string, db: string, g: string, role: string,
                 gc: string, cidr: string, sp: string, one: string, scram: string, auth: string, nl: string)
    requires prefix == host + (gap + (db + (g + role))) && auth == one + scram + nl
    requires text == prefix + gc + (cidr + sp) + auth
    ensures text == Five(host, gap, db, g, role, gc, cidr, sp + one, scram) + nl
  {
    FiveLine(prefix, host, gap, db, g, role, gc, cidr, sp, one, scram, auth, nl);
  }

  /** One access line, read back. */
  lemma AccessReads(text: string, prefix: string, db: string, g: string, role: string, cidr: string, sp: string)
    requires prefix == "host" + ("    " + (db + (g + role))) && IsGap(g) && Blanks(sp)
    requires text == prefix + GAP + (cidr + sp) + SCRAM_AUTH
    requires Unbroken(db) && Unbroken(role) && Unbroken(cidr)
    ensures Rules(text) == [Access(db, role, cidr)] && Ended(text)
  {
    var h := sp + " ";
    AuthIs();
    AccessIs(text, prefix, "host", "    ", db, g, role, GAP, cidr, sp, " ", "scram-sha-256", SCRAM_AUTH, "\n");
    FiveWords("host", "    ", db, g, role, GAP, cidr, h, "scram-sha-256");
    FiveOneLine("host", "    ", db, g, role, GAP, cidr, h, "scram-sha-256");
    LineRules(Five("host", "    ", db, g, role, GAP, cidr, h, "scram-sha-256"));
  }

  lemma LineReads(prefix: string, db: string, g: string, role: string, cidr: string)
    requires prefix == "host" + ("    " + (db + (g + role))) && IsGap(g)
    requires Unbroken(db) && Unbroken(role) && Unbroken(cidr)
    ensures Rules(Line(prefix, cidr)) == [Access(db, role, cidr)] && Ended(Line(prefix, cidr))
  {
    Padded(cidr, 22);
    SpacesAre(22 - |cidr|);
    AccessReads(Line(prefix, cidr), prefix, db, g, role, cidr, Spaces(22 - |cidr|));
  }

  lemma PrefixIs(host: string, gap: string, db: string, g: string, role: string)
    ensures host + gap + db + g + role == host + (gap + (db + (g + role)))
  {
    Assoc(host + gap + db, g, role);
    Assoc(host + gap, db, g + role);
    Assoc(host, gap, db + (g + role));
  }

  ghost predicate AllUnbroken(words: seq<string>) {
    forall i | 0 <= i < |words| :: Unbroken(words[i])
  }

  /** One rule per network. */
  function NetworkRules(db: string, role: string, cidrs: seq<string>): seq<seq<string>> {
    if |cidrs| == 0 then []
    else NetworkRules(db, role, cidrs[..|cidrs| - 1]) + [Access(db, role, cidrs[|cidrs| - 1])]
  }

  /** One rule per role. */
  function RoleRules(roles: seq<string>, cidr: string): seq<seq<string>> {
    if |roles| == 0 then [] else RoleRules(roles[..|roles| - 1], cidr) + [Access("all", roles[|roles| - 1], cidr)]
  }

  lemma {:induction false} LinesRead(prefix: string, db: string, g: string, role: string, cidrs: seq<string>)
    requires prefix == "host" + ("    " + (db + (g + role))) && IsGap(g)
    requires Unbroken(db) && Unbroken(role) && AllUnbroken(cidrs)
    ensures Ended(Lines(prefix, cidrs))
    ensures Rules(Lines(prefix, cidrs)) == NetworkRules(db, role, cidrs)
  {
    NoRules();
    if |cidrs| > 0 {
      var n := |cidrs| - 1;
      LinesRead(prefix, db, g, role, cidrs[..n]);
      LineReads(prefix, db, g, role, cidrs[n]);
      RulesConcat(Lines(prefix, cidrs[..n]), Line(prefix, cidrs[n]));
    }
  }

  lemma HostAllIs()
    ensures HOST_ALL == "host" + "    " + "all" + GAP
  {
  }

  lemma RoleLineReads(role: string, cidr: string)
    requires Unbroken(role) && Unbroken(cidr)
    ensures Rules(Line(HOST_ALL + role, cidr)) == [Access("all", role, cidr)] && Ended(Line(HOST_ALL + role, cidr))
  {
    HostAllIs();
    PrefixIs("host", "    ", "all", GAP, role);
    LineReads(HOST_ALL + role, "all", GAP, role, cidr);
  }

  lemma {:induction false} RoleLinesRead(roles: seq<string>, cidr: string)
    requires AllUnbroken(roles) && Unbroken(cidr)
    ensures Ended(RoleLines(roles, cidr))
    ensures Rules(RoleLines(roles, cidr)) == RoleRules(roles, cidr)
  {
    NoRules();
    if |roles| > 0 {
      var n := |roles| - 1;
      RoleLinesRead(roles[..n], cidr);
      RoleLineReads(roles[n], cidr);
      RulesConcat(RoleLines(roles[..n], cidr), Line(HOST_ALL + roles[n], cidr));
    }
  }

  /** Network by network, role by role. */
  function AdminRules(cidrs: seq<string>, roles: seq<string>): seq<seq<string>> {
    if |cidrs| == 0 then [] else AdminRules(cidrs[..|cidrs| - 1], roles) + RoleRules(roles, cidrs[|cidrs| - 1])
  }

  lemma {:induction false} AdminLinesRead(cidrs: seq<string>, roles: seq<string>)
    requires AllUnbroken(cidrs) && AllUnbroken(roles)
    ensures Ended(AdminLines(cidrs, roles)) && Rules(AdminLines(cidrs, roles)) == AdminRules(cidrs, roles)
  {
    NoRules();
    if |cidrs| > 0 {
      var n := |cidrs| - 1;
      AdminLinesRead(cidrs[..n], roles);
      RoleLinesRead(roles, cidrs[n]);
      RulesConcat(AdminLines(cidrs[..n], roles), RoleLines(roles, cidrs[n]));
    }
  }

  // ---- The header ----

  lemma CommentReads(line: string)
    requires |line| > 1 && line[0] == '#' && line[1] == ' ' && Files.OneLine(line)
    ensures Rules(line + "\n") == [] && Ended(line + "\n")
  {
    assert line == "#" + line[1..];
    OneWord("#", line[1..]);
    LineRules(line);
  }

  lemma CommentsRead()
    ensures Rules(MANAGED_COMMENT + "\n") == [] && Ended(MANAGED_COMMENT + "\n")
    ensures Rules(LOCAL_COMMENT + "\n") == [] && Ended(LOCAL_COMMENT + "\n")
  {
    ManagedOneLine();
    LocalOneLine();
    CommentReads(MANAGED_COMMENT);
    CommentReads(LOCAL_COMMENT);
  }

  lemma ManagedOneLine()
    ensures var c := MANAGED_COMMENT; |c| > 1 && c[0] == '#' && c[1] == ' ' && Files.OneLine(c)
  {
    assert Files.OneLine("# Managed by Skylex. ") && Files.OneLine("Do not edit manually.");
  }

  lemma LocalOneLine()
    ensures var c := LOCAL_COMMENT; |c| > 1 && c[0] == '#' && c[1] == ' ' && Files.OneLine(c)
  {
    assert Files.OneLine("# Local administrative ") && Files.OneLine("access for the ");
    assert Files.OneLine("PostgreSQL service account.");
  }

  /** Four columns, the last without blanks behind it. */
  function Four(a: string, ga: string, b: string, gb: string, c: string, gc: string, d: string): string {
    a + (ga + (b + (gb + (c + (gc + d)))))
  }

  lemma FourWords(a: string, ga: string, b: string, gb: string, c: string, gc: string, d: string)
    requires Unbroken(a) && Unbroken(b) && Unbroken(c) && Unbroken(d) && IsGap(ga) && IsGap(gb) && IsGap(gc)
    ensures Words(Four(a, ga, b, gb, c, gc, d)) == [a, b, c, d] && Files.OneLine(Four(a, ga, b, gb, c, gc, d))
  {
    assert d + "" == d && Words("") == [];
    OneWord(d, "");
    Column(c, gc, d);
    Column(b, gb, c + (gc + d));
    Column(a, ga, b + (gb + (c + (gc + d))));
    assert [a] + ([b] + ([c] + [d])) == [a, b, c, d];
  }

  lemma FourReads(text: string, a: string, ga: string, b: string, gb: string, c: string, gc: string, d: string)
    requires Unbroken(a) && Unbroken(b) && Unbroken(c) && Unbroken(d) && IsGap(ga) && IsGap(gb) && IsGap(gc)
    requires !("#" <= a) && text == Four(a, ga, b, gb, c, gc, d) + "\n"
    ensures Rules(text) == [[a, b, c, d]] && Ended(text)
  {
    FourWords(a, ga, b, gb, c, gc, d);
    LineRules(Four(a, ga, b, gb, c, gc, d));
  }

  lemma HeaderJoined(c1: string, n: string, c2: string, l: string, g: string, a: string, h: string, f: string,
                     v4: string, v6: string)
    ensures c1 + n + c2 + n + l + g + a + h + f + v4 + a + h + f + v6 + a ==
            (c1 + n) + ((c2 + n) + ((l + g + a) + ((h + f + v4 + a) + (h + f + v6 + a))))
  {
    var t := h + f + v6 + a;
    var u := h + f + v4 + a;
    var x := c1 + n + c2 + n + l + g + a;
    assert x + h + f + v4 + a == x + u;
    assert x + u + h + f + v6 + a == x + u + t;
    Assoc(x, u, t);
    assert x == (c1 + n) + ((c2 + n) + (l + g + a));
    Assoc(c1 + n, (c2 + n) + (l + g + a), u + t);
    Assoc(c2 + n, l + g + a, u + t);
  }

  lemma FourJoined(a: string, ga: string, b: string, gb: string, c: string, g: string, one: string, d: string,
                   nl: string)
    ensures a + ga + b + gb + c + g + (one + d + nl) == Four(a, ga, b, gb, c, g + one, d) + nl
  {
    Assoc(a + ga + b + gb + c + g, one + d, nl);
    assert a + ga + b + gb + c + g + (one + d) == a + ga + b + gb + c + ((g + one) + d);
    assert a + ga + b + gb + c + ((g + one) + d) == a + ga + b + gb + (c + ((g + one) + d));
    assert a + ga + b + gb + (c + ((g + one) + d)) == a + ga + b + (gb + (c + ((g + one) + d)));
    assert a + ga + b + (gb + (c + ((g + one) + d))) == a + ga + (b + (gb + (c + ((g + one) + d))));
    Assoc(a, ga, b + (gb + (c + ((g + one) + d))));
  }

  lemma LocalTextIs()
    ensures LOCAL_ALL == "local" + "   " + "all" + "             " + "all"
    ensures Blanks(WIDE_GAP) && WIDE_GAP != ""
  {
  }

  lemma LocalReads()
    ensures var text := LOCAL_ALL + WIDE_GAP + SCRAM_AUTH;
            Rules(text) == [["local", "all", "all", "scram-sha-256"]] && Ended(text)
  {
    AuthIs();
    LocalTextIs();
    LocalJoined("local", "   ", "all", "             ", "all", WIDE_GAP, " ", "scram-sha-256", "\n");
    assert "local"[0] != "#"[0];
    FourReads(LOCAL_ALL + WIDE_GAP + SCRAM_AUTH, "local", "   ", "all", "             ", "all", WIDE_GAP + " ",
              "scram-sha-256");
  }

  lemma LocalJoined(a: string, ga: string, b: string, gb: string, c: string, g: string, one: string, d: string,
                    nl: string)
    requires LOCAL_ALL == a + ga + b + gb + c && SCRAM_AUTH == one + d + nl
    ensures LOCAL_ALL + g + SCRAM_AUTH == Four(a, ga, b, gb, c, g + one, d) + nl
  {
    FourJoined(a, ga, b, gb, c, g, one, d, nl);
  }

  /** A service account's own line: its address stands in the literal, with the blanks around it. */
  lemma OwnReads(f: string, address: string, cidr: string, sp: string)
    requires Unbroken(f) && Unbroken(cidr) && Blanks(sp) && address == GAP + (cidr + sp)
    ensures var text := HOST_ALL + f + address + SCRAM_AUTH;
            Rules(text) == [Access("all", f, cidr)] && Ended(text)
  {
    HostAllIs();
    PrefixIs("host", "    ", "all", GAP, f);
    Assoc(HOST_ALL + f, GAP, cidr + sp);
    AccessReads(HOST_ALL + f + address + SCRAM_AUTH, HOST_ALL + f, "all", GAP, f, cidr, sp);
  }

  lemma AddressesAre()
    ensures OWN_V4 == GAP + ("127.0.0.1/32" + "           ") && OWN_V6 == GAP + ("::1/128" + "                ")
  {
  }

  /** Every local user, and the service account from this machine. */
  function OwnRules(f: string): seq<seq<string>> {
    [["local", "all", "all", "scram-sha-256"], Access("all", f, "127.0.0.1/32"), Access("all", f, "::1/128")]
  }

  lemma RulesOfFive(a: string, b: string, c: string, d: string, e: string)
    requires Ended(a) && Ended(b) && Ended(c) && Ended(d) && Ended(e)
    ensures Rules(a + (b + (c + (d + e)))) == Rules(a) + (Rules(b) + (Rules(c) + (Rules(d) + Rules(e))))
    ensures Ended(a + (b + (c + (d + e))))
  {
    RulesConcat(d, e);
    RulesConcat(c, d + e);
    RulesConcat(b, c + (d + e));
    RulesConcat(a, b + (c + (d + e)));
    EndedConcat(d, e);
    EndedConcat(c, d + e);
    EndedConcat(b, c + (d + e));
    EndedConcat(a, b + (c + (d + e)));
  }

  lemma OwnLinesRead(f: string)
    requires Unbroken(f)
    ensures var v4 := HOST_ALL + f + OWN_V4 + SCRAM_AUTH; Rules(v4) == [Access("all", f, "127.0.0.1/32")] && Ended(v4)
    ensures var v6 := HOST_ALL + f + OWN_V6 + SCRAM_AUTH; Rules(v6) == [Access("all", f, "::1/128")] && Ended(v6)
  {
    AddressesAre();
    OwnReads(f, OWN_V4, "127.0.0.1/32", "           ");
    OwnReads(f, OWN_V6, "::1/128", "                ");
  }

  lemma HeaderSplits(superuser: string)
    ensures var f := HbaField(superuser);
            Header(superuser) ==
            (MANAGED_COMMENT + "\n") + ((LOCAL_COMMENT + "\n") + ((LOCAL_ALL + WIDE_GAP + SCRAM_AUTH) +
            ((HOST_ALL + f + OWN_V4 + SCRAM_AUTH) + (HOST_ALL + f + OWN_V6 + SCRAM_AUTH))))
  {
    HeaderJoined(MANAGED_COMMENT, "\n", LOCAL_COMMENT, LOCAL_ALL, WIDE_GAP, SCRAM_AUTH, HOST_ALL, HbaField(superuser),
                 OWN_V4, OWN_V6);
  }

  lemma Stacked(x: seq<string>, y: seq<string>, z: seq<string>)
    ensures [] + ([] + ([x] + ([y] + [z]))) == [x, y, z]
  {
  }

  lemma HeaderReads(superuser: string)
    requires Unbroken(HbaField(superuser))
    ensures Rules(Header(superuser)) == OwnRules(HbaField(superuser)) && Ended(Header(superuser))
  {
    var f := HbaField(superuser);
    var v4, v6 := HOST_ALL + f + OWN_V4 + SCRAM_AUTH, HOST_ALL + f + OWN_V6 + SCRAM_AUTH;
    HeaderSplits(superuser);
    OwnLinesRead(f);
    LocalReads();
    CommentsRead();
    RulesOfFive(MANAGED_COMMENT + "\n", LOCAL_COMMENT + "\n", LOCAL_ALL + WIDE_GAP + SCRAM_AUTH, v4, v6);
    Stacked(["local", "all", "all", "scram-sha-256"], Access("all", f, "127.0.0.1/32"), Access("all", f, "::1/128"));
  }

  // ---- Lists in one column ----

  /** A column split at its commas. */
  function Items(s: string): (r: seq<string>)
    ensures |r| > 0
  {
    if |s| == 0 then [""]
    else if s[0] == ',' then [""] + Items(s[1..])
    else var r := Items(s[1..]); [[s[0]] + r[0]] + r[1..]
  }

  ghost predicate NoCommas(words: seq<string>) {
    forall i | 0 <= i < |words| :: ',' !in words[i]
  }

  lemma {:induction false} ItemsSnoc(s: string, w: string)
    requires ',' !in w
    ensures Items(s + "," + w) == Items(s) + [w]
  {
    if |s| == 0 {
      assert s + "," + w == "," + w && ("," + w)[1..] == w;
      ItemsOne(w);
    } else {
      assert (s + "," + w)[1..] == s[1..] + "," + w;
      ItemsSnoc(s[1..], w);
    }
  }

  lemma {:induction false} ItemsOne(w: string)
    requires ',' !in w
    ensures Items(w) == [w]
  {
    if |w| > 0 {
      ItemsOne(w[1..]);
      assert w == [w[0]] + w[1..];
    }
  }

  /** A list written into one column reads back as the list. */
  lemma {:induction false} ItemsJoined(items: seq<string>)
    requires NoCommas(items) && |items| > 0
    ensures Items(Joined(items)) == items
  {
    var n := |items| - 1;
    if n == 0 {
      ItemsOne(items[0]);
    } else {
      ItemsJoined(items[..n]);
      ItemsSnoc(Joined(items[..n]), items[n]);
    }
  }

  lemma {:induction false} JoinedUnbroken(items: seq<string>)
    requires AllUnbroken(items)
    ensures if |items| == 0 then Joined(items) == "" else Unbroken(Joined(items))
  {
    if |items| > 1 {
      JoinedUnbroken(items[..|items| - 1]);
    }
  }

  // ---- The whole policy ----

  ghost predicate CleanEntries(values: seq<string>) {
    forall e <- Entries(values) :: Unbroken(e) && ',' !in e
  }

  /** Names and networks without blanks, line breaks and commas. */
  ghost predicate Clean(p: Policy, superuser: string, replUser: string) {
    && CleanEntries(p.adminCidrs) && CleanEntries(p.replicationCidrs) && CleanEntries(p.applicationCidrs)
    && CleanEntries(p.adminRoles) && CleanEntries(p.applicationRoles) && CleanEntries(p.applicationDbs)
    && Unbroken(HbaField(superuser)) && Unbroken(HbaField(replUser))
  }

  lemma CleanCanonical(values: seq<string>)
    requires CleanEntries(values)
    ensures AllUnbroken(Canonical(values)) && NoCommas(Canonical(values))
    ensures Canonical(values) == [] <==> Entries(values) == {}
    ensures HbaList(values) == "" <==> Entries(values) == {}
    ensures Entries(values) != {} ==> Unbroken(HbaList(values)) && Items(HbaList(values)) == Canonical(values)
  {
    CanonicalIs(values);
    var c := Canonical(values);
    assert forall i | 0 <= i < |c| :: c[i] in Elements(c);
    JoinedUnbroken(c);
    if c != [] {
      assert c[0] in Entries(values);
      ItemsJoined(c);
    }
  }

  lemma ReplicationReads(p: Policy, replUser: string)
    requires CleanEntries(p.replicationCidrs) && Unbroken(HbaField(replUser))
    ensures var text := Lines(HOST_REPLICATION + HbaField(replUser), Canonical(p.replicationCidrs));
            && Ended(text)
            && Rules(text) == NetworkRules("replication", HbaField(replUser), Canonical(p.replicationCidrs))
  {
    assert HOST_REPLICATION == "host" + "    " + "replication" + "     ";
    PrefixIs("host", "    ", "replication", "     ", HbaField(replUser));
    CleanCanonical(p.replicationCidrs);
    LinesRead(HOST_REPLICATION + HbaField(replUser), "replication", "     ", HbaField(replUser),
              Canonical(p.replicationCidrs));
  }

  /** Databases stand in the second column and roles in the third, each as one comma-separated list. */
  lemma ApplicationReads(p: Policy)
    requires CleanEntries(p.applicationCidrs) && CleanEntries(p.applicationRoles) && CleanEntries(p.applicationDbs)
    requires Entries(p.applicationRoles) != {} && Entries(p.applicationDbs) != {}
    ensures var text := Lines(ApplicationPrefix(p), Canonical(p.applicationCidrs));
            && Ended(text)
            && Rules(text) ==
               NetworkRules(HbaList(p.applicationDbs), HbaList(p.applicationRoles), Canonical(p.applicationCidrs))
  {
    var dbs, roles := HbaList(p.applicationDbs), HbaList(p.applicationRoles);
    assert "host    " == "host" + "    ";
    PrefixIs("host", "    ", dbs, GAP, roles);
    CleanCanonical(p.applicationCidrs);
    CleanCanonical(p.applicationRoles);
    CleanCanonical(p.applicationDbs);
    LinesRead(ApplicationPrefix(p), dbs, GAP, roles, Canonical(p.applicationCidrs));
  }

  lemma AdminReads(p: Policy, f: string)
    requires CleanEntries(p.adminCidrs) && CleanEntries(p.adminRoles) && Unbroken(f)
    ensures var text := AdminLines(Canonical(p.adminCidrs), [f] + Canonical(p.adminRoles));
            Ended(text) && Rules(text) == AdminRules(Canonical(p.adminCidrs), [f] + Canonical(p.adminRoles))
  {
    CleanCanonical(p.adminCidrs);
    CleanCanonical(p.adminRoles);
    AdminLinesRead(Canonical(p.adminCidrs), [f] + Canonical(p.adminRoles));
  }

  /** What the application section says. */
  ghost function ApplicationRules(p: Policy): seq<seq<string>> {
    if Entries(p.applicationRoles) == {} || Entries(p.applicationDbs) == {} then []
    else NetworkRules(HbaList(p.applicationDbs), HbaList(p.applicationRoles), Canonical(p.applicationCidrs))
  }

  lemma RulesOfFour(a: string, b: string, c: string, d: string)
    requires Ended(a) && Ended(b) && Ended(c)
    ensures Rules(a + b + c + d) == Rules(a) + Rules(b) + Rules(c) + Rules(d)
  {
    RulesConcat(a, b);
    EndedConcat(a, b);
    RulesConcat(a + b, c);
    EndedConcat(a + b, c);
    RulesConcat(a + b + c, d);
  }

  /** The application section of the text, which may be empty. */
  lemma SectionReads(p: Policy)
    requires CleanEntries(p.applicationCidrs) && CleanEntries(p.applicationRoles) && CleanEntries(p.applicationDbs)
    ensures var text := if HbaList(p.applicationRoles) != "" && HbaList(p.applicationDbs) != ""
                        then Lines(ApplicationPrefix(p), Canonical(p.applicationCidrs)) else "";
            Rules(text) == ApplicationRules(p)
  {
    NoRules();
    CleanCanonical(p.applicationRoles);
    CleanCanonical(p.applicationDbs);
    if Entries(p.applicationRoles) != {} && Entries(p.applicationDbs) != {} {
      ApplicationReads(p);
    }
  }

  /** The rendered policy read back: four sections, in this order, and no other line. */
  lemma PolicyReads(p: Policy, superuser: string, replUser: string)
    requires Clean(p, superuser, replUser)
    ensures var f := HbaField(superuser);
            Rules(Rendered(p, superuser, replUser)) ==
            OwnRules(f) + AdminRules(Canonical(p.adminCidrs), [f] + Canonical(p.adminRoles))
            + NetworkRules("replication", HbaField(replUser), Canonical(p.replicationCidrs)) + ApplicationRules(p)
  {
    var f := HbaField(superuser);
    HeaderReads(superuser);
    AdminReads(p, f);
    ReplicationReads(p, replUser);
    SectionReads(p);
    RulesOfFour(Header(superuser), AdminLines(Canonical(p.adminCidrs), [f] + Canonical(p.adminRoles)),
                Lines(HOST_REPLICATION + HbaField(replUser), Canonical(p.replicationCidrs)),
                if HbaList(p.applicationRoles) != "" && HbaList(p.applicationDbs) != ""
                then Lines(ApplicationPrefix(p), Canonical(p.applicationCidrs)) else "");
  }

  // ---- Who may connect ----

  lemma {:induction false} NetworkRulesAre(db: string, role: string, cidrs: seq<string>, rule: seq<string>)
    ensures rule in NetworkRules(db, role, cidrs) <==> exists c <- cidrs :: rule == Access(db, role, c)
  {
    if |cidrs| > 0 {
      NetworkRulesAre(db, role, cidrs[..|cidrs| - 1], rule);
      assert cidrs == cidrs[..|cidrs| - 1] + [cidrs[|cidrs| - 1]];
    }
  }

  lemma {:induction false} RoleRulesAre(roles: seq<string>, cidr: string, rule: seq<string>)
    ensures rule in RoleRules(roles, cidr) <==> exists r <- roles :: rule == Access("all", r, cidr)
  {
    if |roles| > 0 {
      RoleRulesAre(roles[..|roles| - 1], cidr, rule);
      assert roles == roles[..|roles| - 1] + [roles[|roles| - 1]];
    }
  }

  lemma {:induction false} AdminRulesAre(cidrs: seq<string>, roles: seq<string>, rule: seq<string>)
    ensures rule in AdminRules(cidrs, roles) <==> exists c <- cidrs :: rule in RoleRules(roles, c)
  {
    if |cidrs| > 0 {
      var n := |cidrs| - 1;
      AdminRulesAre(cidrs[..n], roles, rule);
      assert cidrs[n] in cidrs && forall c <- cidrs[..n] :: c in cidrs;
      forall c <- cidrs | c !in cidrs[..n] ensures c == cidrs[n] {
        assert cidrs == cidrs[..n] + [cidrs[n]];
      }
    }
  }

  /** The service account and the admin roles, from the admin networks, to every database. */
  ghost predicate ForAdmins(p: Policy, f: string, rule: seq<string>) {
    exists c <- Entries(p.adminCidrs) :: exists r <- {f} + Entries(p.adminRoles) :: rule == Access("all", r, c)
  }

  ghost predicate ForReplication(p: Policy, user: string, rule: seq<string>) {
    exists c <- Entries(p.replicationCidrs) :: rule == Access("replication", user, c)
  }

  /** The application roles, from the application networks, to the application databases. */
  ghost predicate ForApplications(p: Policy, rule: seq<string>) {
    && Entries(p.applicationRoles) != {} && Entries(p.applicationDbs) != {}
    && exists c <- Entries(p.applicationCidrs) ::
         rule == Access(HbaList(p.applicationDbs), HbaList(p.applicationRoles), c)
  }

  lemma AdminsAre(p: Policy, f: string, rule: seq<string>)
    ensures rule in AdminRules(Canonical(p.adminCidrs), [f] + Canonical(p.adminRoles)) <==> ForAdmins(p, f, rule)
  {
    var roles := [f] + Canonical(p.adminRoles);
    CanonicalIs(p.adminCidrs);
    CanonicalIs(p.adminRoles);
    AdminRulesAre(Canonical(p.adminCidrs), roles, rule);
    assert forall r :: r in roles <==> r in {f} + Entries(p.adminRoles);
    assert forall c :: c in Canonical(p.adminCidrs) <==> c in Entries(p.adminCidrs);
    forall c
      ensures rule in RoleRules(roles, c) <==> exists r <- {f} + Entries(p.adminRoles) :: rule == Access("all", r, c)
    {
      RoleRulesAre(roles, c, rule);
    }
  }

  lemma OthersAre(p: Policy, user: string, rule: seq<string>)
    ensures rule in NetworkRules("replication", user, Canonical(p.replicationCidrs)) <==> ForReplication(p, user, rule)
    ensures rule in ApplicationRules(p) <==> ForApplications(p, rule)
  {
    CanonicalIs(p.replicationCidrs);
    CanonicalIs(p.applicationCidrs);
    NetworkRulesAre("replication", user, Canonical(p.replicationCidrs), rule);
    NetworkRulesAre(HbaList(p.applicationDbs), HbaList(p.applicationRoles), Canonical(p.applicationCidrs), rule);
    assert forall c :: c in Canonical(p.replicationCidrs) <==> c in Entries(p.replicationCidrs);
    assert forall c :: c in Canonical(p.applicationCidrs) <==> c in Entries(p.applicationCidrs);
  }

  lemma OwnAre(f: string, rule: seq<string>)
    ensures rule in OwnRules(f) <==>
            || rule == ["local", "all", "all", "scram-sha-256"]
            || rule == Access("all", f, "127.0.0.1/32") || rule == Access("all", f, "::1/128")
  {
  }

  /**
   The policy lets in, with a password: every local user, the service account from this machine,
   the service account and the admin roles from the admin networks, the replication user from
   the replication networks, the application roles to the application databases from the
   application networks - and nobody else.
   */
  lemma AllowedIff(p: Policy, superuser: string, replUser: string, rule: seq<string>)
    requires Clean(p, superuser, replUser)
    ensures rule in Rules(Rendered(p, superuser, replUser)) <==>
            || rule == ["local", "all", "all", "scram-sha-256"]
            || rule == Access("all", HbaField(superuser), "127.0.0.1/32")
            || rule == Access("all", HbaField(superuser), "::1/128")
            || ForAdmins(p, HbaField(superuser), rule) || ForReplication(p, HbaField(replUser), rule)
            || ForApplications(p, rule)
  {
    PolicyReads(p, superuser, replUser);
    OwnAre(HbaField(superuser), rule);
    AdminsAre(p, HbaField(superuser), rule);
    OthersAre(p, HbaField(replUser), rule);
  }
}
