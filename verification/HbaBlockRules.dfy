/** The managed block of pg_hba.conf as it is read, and what stands before and behind the include line. */
module HbaBlockRules {
  import opened Text
  import opened HbaPrefix
  import opened HbaRules
  import Files = IncludeFile

  lemma {:induction false} ConcatAppend(a: seq<string>, b: seq<string>)
    ensures Concat(a + b) == Concat(a) + Concat(b)
  {
    if |b| == 0 {
      assert a + b == a;
    } else {
      var n := |b| - 1;
      assert (a + b)[..|a| + n] == a + b[..n];
      ConcatAppend(a, b[..n]);
      Assoc(Concat(a), Concat(b[..n]), b[n]);
    }
  }

  lemma ConcatOne(a: string)
    ensures Concat([a]) == a
  {
    assert [a][..0] == [] && Concat([]) == "";
    assert "" + a == a;
  }

  lemma ConcatTwo(a: string, b: string)
    ensures Concat([a, b]) == a + b
  {
    ConcatOne(a);
    assert [a, b][..1] == [a];
  }

  lemma ConcatThree(a: string, b: string, c: string)
    ensures Concat([a, b, c]) == a + b + c
  {
    ConcatTwo(a, b);
    assert [a, b, c][..2] == [a, b];
  }

  lemma ConcatFive(a: string, b: string, c: string, d: string, e: string)
    ensures Concat([a, b, c, d, e]) == a + b + c + d + e
  {
    ConcatThree(a, b, c);
    assert [a, b, c, d][..3] == [a, b, c] && [a, b, c, d, e][..4] == [a, b, c, d];
  }

  // ---- The lines of the block ----

  /** A line of five columns, each in a part of its own with the blanks behind it. */
  lemma PartsAreFive(a: string, ga: string, b: string, gb: string, c: string, gc: string, d: string, gd: string,
                     e: string, nl: string)
    ensures (a + ga) + (b + gb) + (c + gc) + (d + gd) + (e + nl) == Five(a, ga, b, gb, c, gc, d, gd, e) + nl
  {
    var t := gd + e;
    assert (d + gd) + (e + nl) == (d + t) + nl;
    assert (a + ga) + (b + gb) + (c + gc) + (d + gd) + (e + nl) == (a + ga) + (b + gb) + (c + gc) + ((d + t) + nl);
    Assoc((a + ga) + (b + gb) + (c + gc), d + t, nl);
    assert (a + ga) + (b + gb) + (c + gc) + (d + t) == (a + ga) + (b + gb) + (c + (gc + (d + t)));
    assert (a + ga) + (b + gb) + (c + (gc + (d + t))) == (a + ga) + (b + (gb + (c + (gc + (d + t)))));
    assert (a + ga) + (b + (gb + (c + (gc + (d + t))))) == a + (ga + (b + (gb + (c + (gc + (d + t))))));
  }

  lemma FiveReads(text: string, a: string, ga: string, b: string, gb: string, c: string, gc: string, d: string,
                  gd: string, e: string)
    requires Unbroken(a) && Unbroken(b) && Unbroken(c) && Unbroken(d) && Unbroken(e) && !("#" <= a)
    requires IsGap(ga) && IsGap(gb) && IsGap(gc) && IsGap(gd)
    requires text == Five(a, ga, b, gb, c, gc, d, gd, e) + "\n"
    ensures Rules(text) == [[a, b, c, d, e]] && Ended(text)
  {
    FiveWords(a, ga, b, gb, c, gc, d, gd, e);
    FiveOneLine(a, ga, b, gb, c, gc, d, gd, e);
    LineRules(Five(a, ga, b, gb, c, gc, d, gd, e));
  }

  lemma ColumnsAre()
    ensures HOST == "host" + "    " && ALL == "all" + "             " && REPLICATION == "replication" + "     "
    ensures ANY_V4 == "0.0.0.0/0" + "               " && ANY_V6 == "::/0" + "                    "
    ensures REJECT == "reject" + "\n"
  {
  }

  /** Nobody comes in over the network by any other rule. */
  lemma RejectReads(scope: string, db: string, g: string, any: string, cidr: string, h: string)
    requires scope == db + g && any == cidr + h && Unbroken(db) && Unbroken(cidr) && IsGap(g) && IsGap(h)
    ensures var text := Concat([HOST, scope, ALL, any, REJECT]);
            Rules(text) == [["host", db, "all", cidr, "reject"]] && Ended(text)
  {
    ColumnsAre();
    ConcatFive(HOST, scope, ALL, any, REJECT);
    PartsAreFive("host", "    ", db, g, "all", "             ", cidr, h, "reject", "\n");
    assert "host"[0] != "#"[0];
    FiveReads(Concat([HOST, scope, ALL, any, REJECT]),
              "host", "    ", db, g, "all", "             ", cidr, h, "reject");
  }

  lemma IncludeReads()
    ensures var text := Concat([INCLUDE, INCLUDE_FILE]);
            Rules(text) == [["include_if_exists", "skylex.pg_hba.conf"]] && Ended(text)
  {
    ConcatTwo(INCLUDE, INCLUDE_FILE);
    assert INCLUDE == "include_if_exists" + " " && INCLUDE_FILE == "skylex.pg_hba.conf" + "\n";
    assert "include_if_exists"[0] != "#"[0];
    IncludeLine("include_if_exists", " ", "skylex.pg_hba.conf");
  }

  lemma IncludeWords(word: string, gap: string, file: string)
    requires Unbroken(word) && IsGap(gap) && Unbroken(file)
    ensures Words(word + (gap + file)) == [word, file] && Files.OneLine(word + (gap + file))
  {
    assert file + "" == file && Words("") == [];
    OneWord(file, "");
    Column(word, gap, file);
    assert [word] + [file] == [word, file];
  }

  lemma IncludeLine(word: string, gap: string, file: string)
    requires Unbroken(word) && IsGap(gap) && Unbroken(file) && !("#" <= word)
    ensures var text := (word + gap) + (file + "\n"); Rules(text) == [[word, file]] && Ended(text)
  {
    IncludeWords(word, gap, file);
    LineRules(word + (gap + file));
    assert (word + gap) + (file + "\n") == word + (gap + file) + "\n";
  }

  // ---- The names in the block ----

  lemma LoopbackReads(f: string, sp: string, address: string, cidr: string, h: string, auth: string)
    requires Unbroken(f) && Unbroken(cidr) && Blanks(sp) && Blanks(h)
    requires address == " " + cidr + h && auth == " " + "scram-sha-256" + "\n"
    ensures var text := (HOST + ALL) + f + (sp + address + auth);
            Rules(text) == [["host", "all", f, cidr, "scram-sha-256"]] && Ended(text)
  {
    ColumnsAre();
    LoopbackIs("host", "    ", "all", "             ", f, sp, " ", cidr, h, "scram-sha-256", address, auth, "\n");
    assert "host"[0] != "#"[0];
    FiveReads((HOST + ALL) + f + (sp + address + auth),
              "host", "    ", "all", "             ", f, sp + " ", cidr, h + " ", "scram-sha-256");
  }

  lemma LoopbackIs(a: string, ga: string, b: string, gb: string, f: string, sp: string, one: string, cidr: string,
                   h: string, scram: string, address: string, auth: string, nl: string)
    requires address == one + cidr + h && auth == one + scram + nl
    ensures ((a + ga) + (b + gb)) + f + (sp + address + auth) ==
            Five(a, ga, b, gb, f, sp + one, cidr, h + one, scram) + nl
  {
    var left := (a + ga) + (b + gb);
    assert sp + address + auth == (sp + one) + (cidr + (h + one)) + (scram + nl);
    assert left + f + (sp + address + auth) == left + (f + (sp + one)) + (cidr + (h + one)) + (scram + nl);
    PartsAreFive(a, ga, b, gb, f, sp + one, cidr, h + one, scram, nl);
  }

  const LOCAL := "local   all             "

  lemma OpeningIs()
    ensures OPENING == HBA_BEGIN + "\n" + LOCAL
  {
  }

  lemma LocalIs()
    ensures LOCAL == ("local" + "   ") + ("all" + "             ") && SCRAM == " " + "scram-sha-256" + "\n"
  {
  }

  lemma MarkersRead()
    ensures Rules(HBA_BEGIN + "\n") == [] && Ended(HBA_BEGIN + "\n")
    ensures Rules(HBA_END + "\n") == [] && Ended(HBA_END + "\n")
  {
    CommentReads(HBA_BEGIN);
    CommentReads(HBA_END);
  }

  lemma LocalLineIs(a: string, ga: string, b: string, gb: string, f: string, sp: string, one: string, scram: string,
                    auth: string, nl: string)
    requires auth == one + scram + nl
    ensures ((a + ga) + (b + gb)) + f + (sp + auth) == Four(a, ga, b, gb, f, sp + one, scram) + nl
  {
    FourJoined(a, ga, b, gb, f, sp, one, scram, nl);
    assert (a + ga) + (b + gb) == a + ga + b + gb;
    assert a + ga + b + gb + f + (sp + auth) == a + ga + b + gb + f + sp + auth;
  }

  lemma LocalLineReads(f: string, sp: string)
    requires Unbroken(f) && Blanks(sp)
    ensures var text := LOCAL + f + (sp + SCRAM);
            Rules(text) == [["local", "all", f, "scram-sha-256"]] && Ended(text)
  {
    LocalIs();
    LocalLineIs("local", "   ", "all", "             ", f, sp, " ", "scram-sha-256", SCRAM, "\n");
    assert "local"[0] != "#"[0];
    FourReads(LOCAL + f + (sp + SCRAM), "local", "   ", "all", "             ", f, sp + " ", "scram-sha-256");
  }

  lemma OwnAddressesAre()
    ensures LOOPBACK_V4 == " " + "127.0.0.1/32" + "           " && LOOPBACK_V6 == " " + "::1/128" + "                "
  {
  }

  // ---- The block ----

  /** The four lines that refuse every other connection. */
  function Rejects(): string {
    Concat([HOST, ALL, ALL, ANY_V4, REJECT]) + (Concat([HOST, ALL, ALL, ANY_V6, REJECT]) +
    (Concat([HOST, REPLICATION, ALL, ANY_V4, REJECT]) + Concat([HOST, REPLICATION, ALL, ANY_V6, REJECT])))
  }

  lemma ConcatSix(a: seq<string>, b: seq<string>, c: seq<string>, d: seq<string>, e: seq<string>, f: seq<string>)
    ensures Concat(a + (b + (c + (d + (e + f))))) ==
            Concat(a) + (Concat(b) + (Concat(c) + (Concat(d) + (Concat(e) + Concat(f)))))
  {
    ConcatAppend(e, f);
    ConcatAppend(d, e + f);
    ConcatAppend(c, d + (e + f));
    ConcatAppend(b, c + (d + (e + f)));
    ConcatAppend(a, b + (c + (d + (e + f))));
  }

  lemma Grouped(sp: string, own: string, auth: string, inc: string, file: string, h: string, a: string, r: string,
                v4: string, v6: string, no: string)
    ensures [sp, own, auth, inc, file, h, a, a, v4, no, h, a, a, v6, no, h, r, a, v4, no, h, r, a, v6, no] ==
            [sp, own, auth] + ([inc, file] + ([h, a, a, v4, no] + ([h, a, a, v6, no] +
            ([h, r, a, v4, no] + [h, r, a, v6, no]))))
  {
  }

  /** What follows the last name: its line's end, the include line, the refusals. */
  lemma TailIs(f: string)
    ensures Concat(V6Parts(f)) == Concat([Spaces(16 - |f|), LOOPBACK_V6, SCRAM])
                                  + (Concat([INCLUDE, INCLUDE_FILE]) + Rejects())
  {
    Grouped(Spaces(16 - |f|), LOOPBACK_V6, SCRAM, INCLUDE, INCLUDE_FILE, HOST, ALL, REPLICATION, ANY_V4, ANY_V6,
            REJECT);
    ConcatSix([Spaces(16 - |f|), LOOPBACK_V6, SCRAM], [INCLUDE, INCLUDE_FILE],
              [HOST, ALL, ALL, ANY_V4, REJECT], [HOST, ALL, ALL, ANY_V6, REJECT],
              [HOST, REPLICATION, ALL, ANY_V4, REJECT], [HOST, REPLICATION, ALL, ANY_V6, REJECT]);
  }

  lemma ConcatFour(a: string, b: string, c: string, d: string)
    ensures Concat([a, b, c, d]) == (a + b) + (c + d)
  {
    assert [a, b, c, d] == [a, b] + [c, d];
    ConcatAppend([a, b], [c, d]);
    ConcatTwo(a, b);
    ConcatTwo(c, d);
  }

  lemma ConcatThreeTwo(a: string, b: string, c: string, d: string, e: string)
    ensures Concat([a, b, c, d, e]) == (a + b + c) + (d + e)
  {
    assert [a, b, c, d, e] == [a, b, c] + [d, e];
    ConcatAppend([a, b, c], [d, e]);
    ConcatThree(a, b, c);
    ConcatTwo(d, e);
  }

  lemma Regrouped(o: string, l: string, f: string, a: string, h: string, c: string, e: string, r: string, end: string)
    ensures (o + l) + f + (a + h) + f + (c + h) + f + (e + r) + end ==
            o + ((l + f + a) + ((h + f + c) + ((h + f + e) + (r + end))))
  {
    var x, y, z := l + f + a, h + f + c, h + f + e;
    assert (o + l) + f + (a + h) + f + (c + h) + f + (e + r) + end == o + x + y + z + (r + end);
    Assoc(o + x + y, z, r + end);
    Assoc(o + x, y, z + (r + end));
    Assoc(o, x, y + (z + (r + end)));
  }

  /** Both families of one scope. */
  lemma PairReads(scope: string, db: string, g: string)
    requires scope == db + g && Unbroken(db) && IsGap(g)
    ensures var a, b := Concat([HOST, scope, ALL, ANY_V4, REJECT]), Concat([HOST, scope, ALL, ANY_V6, REJECT]);
            && Rules(a) == [["host", db, "all", "0.0.0.0/0", "reject"]] && Ended(a)
            && Rules(b) == [["host", db, "all", "::/0", "reject"]] && Ended(b)
  {
    ColumnsAre();
    RejectReads(scope, db, g, ANY_V4, "0.0.0.0/0", "               ");
    RejectReads(scope, db, g, ANY_V6, "::/0", "                    ");
  }

  lemma StackFour(w: seq<string>, x: seq<string>, y: seq<string>, z: seq<string>)
    ensures [w] + ([x] + ([y] + [z])) == [w, x, y, z]
  {
  }

  lemma FourTexts(a: string, b: string, c: string, d: string, w: seq<string>, x: seq<string>, y: seq<string>,
                  z: seq<string>)
    requires Ended(a) && Ended(b) && Ended(c) && Ended(d)
    requires Rules(a) == [w] && Rules(b) == [x] && Rules(c) == [y] && Rules(d) == [z]
    ensures Rules(a + (b + (c + d))) == [w, x, y, z] && Ended(a + (b + (c + d)))
  {
    RulesConcat(c, d);
    RulesConcat(b, c + d);
    RulesConcat(a, b + (c + d));
    StackFour(w, x, y, z);
    EndedConcat(c, d);
    EndedConcat(b, c + d);
    EndedConcat(a, b + (c + d));
  }

  lemma RejectsRead()
    ensures Rules(Rejects()) == [["host", "all", "all", "0.0.0.0/0", "reject"],
                                 ["host", "all", "all", "::/0", "reject"],
                                 ["host", "replication", "all", "0.0.0.0/0", "reject"],
                                 ["host", "replication", "all", "::/0", "reject"]]
    ensures Ended(Rejects())
  {
    ColumnsAre();
    PairReads(ALL, "all", "             ");
    PairReads(REPLICATION, "replication", "     ");
    FourTexts(Concat([HOST, ALL, ALL, ANY_V4, REJECT]), Concat([HOST, ALL, ALL, ANY_V6, REJECT]),
              Concat([HOST, REPLICATION, ALL, ANY_V4, REJECT]), Concat([HOST, REPLICATION, ALL, ANY_V6, REJECT]),
              ["host", "all", "all", "0.0.0.0/0", "reject"], ["host", "all", "all", "::/0", "reject"],
              ["host", "replication", "all", "0.0.0.0/0", "reject"], ["host", "replication", "all", "::/0", "reject"]);
  }

  /** The block, read: the service account with its password, then the include file, then nobody else. */
  function BlockRules(f: string): seq<seq<string>> {
    [["local", "all", f, "scram-sha-256"]] + ([["host", "all", f, "127.0.0.1/32", "scram-sha-256"]]
    + ([["host", "all", f, "::1/128", "scram-sha-256"]] + ([["include_if_exists", "skylex.pg_hba.conf"]]
    + [["host", "all", "all", "0.0.0.0/0", "reject"], ["host", "all", "all", "::/0", "reject"],
       ["host", "replication", "all", "0.0.0.0/0", "reject"], ["host", "replication", "all", "::/0", "reject"]])))
  }

  lemma BlockJoined(l: Layout, f: string, o: string, local: string, a: string, h: string, c: string, e: string,
                    r: string)
    requires l.opening == o + local && l.afterLocal == a + h && l.afterV4 == c + h && l.afterV6 == e + r
    ensures Managed(l, f) == o + ((local + f + a) + ((h + f + c) + ((h + f + e) + (r + (l.end + "\n")))))
  {
    Regrouped(o, local, f, a, h, c, e, r, l.end + "\n");
  }

  lemma SkylexIs(f: string)
    ensures var l := Skylex(f);
            && l.opening == (HBA_BEGIN + "\n") + LOCAL && l.end == HBA_END
            && l.afterLocal == (Spaces(39 - |f|) + SCRAM) + (HOST + ALL)
            && l.afterV4 == (Spaces(16 - |f|) + LOOPBACK_V4 + SCRAM) + (HOST + ALL)
            && l.afterV6 == (Spaces(16 - |f|) + LOOPBACK_V6 + SCRAM) + (Concat([INCLUDE, INCLUDE_FILE]) + Rejects())
  {
    OpeningIs();
    ConcatFour(Spaces(39 - |f|), SCRAM, HOST, ALL);
    ConcatThreeTwo(Spaces(16 - |f|), LOOPBACK_V4, SCRAM, HOST, ALL);
    TailIs(f);
    ConcatThree(Spaces(16 - |f|), LOOPBACK_V6, SCRAM);
  }

  lemma RulesOfSix(o: string, x: string, y: string, z: string, i: string, r: string, end: string)
    requires Ended(o) && Ended(x) && Ended(y) && Ended(z) && Ended(i) && Ended(r) && Ended(end)
    requires Rules(o) == [] && Rules(end) == []
    ensures Rules(o + (x + (y + (z + ((i + r) + end))))) == Rules(x) + (Rules(y) + (Rules(z) + (Rules(i) + Rules(r))))
    ensures Ended(o + (x + (y + (z + ((i + r) + end)))))
  {
    RulesConcat(i, r);
    EndedConcat(i, r);
    EndedConcat(i + r, end);
    RulesConcat(i + r, end);
    RulesOfFive(o, x, y, z, (i + r) + end);
    Dropped(Rules(x), Rules(y), Rules(z), Rules(i), Rules(r));
  }

  lemma Dropped(x: seq<seq<string>>, y: seq<seq<string>>, z: seq<seq<string>>, i: seq<seq<string>>,
                r: seq<seq<string>>)
    ensures [] + (x + (y + (z + ((i + r) + [])))) == x + (y + (z + (i + r)))
  {
  }

  lemma BlockReads(f: string)
    requires Unbroken(f)
    ensures Rules(Managed(Skylex(f), f)) == BlockRules(f) && Ended(Managed(Skylex(f), f))
  {
    SkylexIs(f);
    var a, c := Spaces(39 - |f|) + SCRAM, Spaces(16 - |f|) + LOOPBACK_V4 + SCRAM;
    var e := Spaces(16 - |f|) + LOOPBACK_V6 + SCRAM;
    BlockJoined(Skylex(f), f, HBA_BEGIN + "\n", LOCAL, a, HOST + ALL, c, e,
                Concat([INCLUDE, INCLUDE_FILE]) + Rejects());
    SpacesBlank(39 - |f|);
    SpacesBlank(16 - |f|);
    LocalLineReads(f, Spaces(39 - |f|));
    OwnLoopbacksRead(f, Spaces(16 - |f|));
    MarkersRead();
    IncludeReads();
    RejectsRead();
    RulesOfSix(HBA_BEGIN + "\n", LOCAL + f + a, (HOST + ALL) + f + c, (HOST + ALL) + f + e,
               Concat([INCLUDE, INCLUDE_FILE]), Rejects(), HBA_END + "\n");
  }

  lemma OwnLoopbacksRead(f: string, sp: string)
    requires Unbroken(f) && Blanks(sp)
    ensures var c := (HOST + ALL) + f + (sp + LOOPBACK_V4 + SCRAM);
            Rules(c) == [["host", "all", f, "127.0.0.1/32", "scram-sha-256"]] && Ended(c)
    ensures var e := (HOST + ALL) + f + (sp + LOOPBACK_V6 + SCRAM);
            Rules(e) == [["host", "all", f, "::1/128", "scram-sha-256"]] && Ended(e)
  {
    LocalIs();
    OwnAddressesAre();
    LoopbackReads(f, sp, LOOPBACK_V4, "127.0.0.1/32", "           ", SCRAM);
    LoopbackReads(f, sp, LOOPBACK_V6, "::1/128", "                ", SCRAM);
  }

  lemma SpacesBlank(n: int)
    ensures Blanks(Spaces(n))
  {
    SpacesAre(n);
  }

  /**
   Whatever pg_hba.conf held, its first rules are now these: the service account, the include
   file, and a refusal of every other network connection, so that no rule left behind the block
   lets anyone else in over the network.
   */
  lemma ManagedRulesComeFirst(content: string, superuser: string)
    requires Unbroken(HbaField(superuser))
    ensures Rules(WithManaged(content, superuser)) ==
            BlockRules(HbaField(superuser)) + Rules(TrimLeftNewlines(RemoveManaged(content)))
  {
    BlockReads(HbaField(superuser));
    RulesConcat(Managed(Skylex(HbaField(superuser)), HbaField(superuser)), TrimLeftNewlines(RemoveManaged(content)));
  }
}
