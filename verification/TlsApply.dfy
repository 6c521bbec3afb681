/** TLS settings in the include file: what an apply changes, and what a failed one leaves. */
module TlsApply {
  import opened Wrappers
  import opened Text
  import opened IncludeFile

  datatype Mode = TlsDisabled | TlsPrefer | TlsRequired

  /** A configuration whose certificate paths are resolved. */
  datatype TlsConfig = TlsConfig(mode: Mode, certFile: string, keyFile: string, caFile: string)

  const SSL := "ssl"
  const SSL_CERT := "ssl_cert_file"
  const SSL_KEY := "ssl_key_file"
  const SSL_CA := "ssl_ca_file"

  function SslKeys(): set<string> {
    {SSL, SSL_CERT, SSL_KEY, SSL_CA}
  }

  /** Every quote doubled, as strings.ReplaceAll does. */
  function Doubled(s: string): string {
    if |s| == 0 then "" else (if s[0] == '\'' then "''" else [s[0]]) + Doubled(s[1..])
  }

  function Quote(s: string): string {
    "'" + Doubled(s) + "'"
  }

  /** PostgreSQL's reading of a quoted value: the outer quotes go, a doubled quote is one quote. */
  function Collapsed(s: string): string {
    if |s| == 0 then ""
    else if |s| > 1 && s[0] == '\'' && s[1] == '\'' then "'" + Collapsed(s[2..])
    else [s[0]] + Collapsed(s[1..])
  }

  function Unquote(s: string): string {
    if |s| < 2 then s else Collapsed(s[1..|s| - 1])
  }

  function WithTls(m: Settings, c: TlsConfig): Settings {
    if c.mode == TlsDisabled then (m - {SSL_CERT, SSL_KEY, SSL_CA})[SSL := "off"]
    else
      var on := m[SSL := "on"][SSL_CERT := Quote(c.certFile)][SSL_KEY := Quote(c.keyFile)];
      if c.caFile != "" then on[SSL_CA := Quote(c.caFile)] else on - {SSL_CA}
  }

  method TlsSettings(m: Settings, c: TlsConfig) returns (settings: Settings)
    ensures settings == WithTls(m, c)
  {
    settings := m;
    if c.mode == TlsDisabled {
      settings := settings - {SSL_CERT};
      settings := settings - {SSL_KEY};
      settings := settings - {SSL_CA};
      settings := settings[SSL := "off"];
      assert settings == WithTls(m, c);
      return;
    }
    settings := settings[SSL := "on"];
    settings := settings[SSL_CERT := Quote(c.certFile)];
    settings := settings[SSL_KEY := Quote(c.keyFile)];
    if c.caFile != "" {
      settings := settings[SSL_CA := Quote(c.caFile)];
    } else {
      settings := settings - {SSL_CA};
    }
  }

  // ---- Quoting ----

  lemma {:induction false} CollapsedDoubled(s: string)
    ensures Collapsed(Doubled(s)) == s
  {
    if |s| > 0 {
      CollapsedDoubled(s[1..]);
      if s[0] == '\'' {
        assert Doubled(s)[2..] == Doubled(s[1..]);
      } else {
        assert Doubled(s)[1..] == Doubled(s[1..]);
      }
      assert s == [s[0]] + s[1..];
    }
  }

  /** Quoting loses nothing. */
  lemma UnquoteQuote(s: string)
    ensures Unquote(Quote(s)) == s
  {
    assert Quote(s)[1..|Quote(s)| - 1] == Doubled(s);
    CollapsedDoubled(s);
  }

  lemma {:induction false} DoubledOneLine(s: string)
    ensures OneLine(Doubled(s)) <==> OneLine(s)
  {
    if |s| > 0 {
      DoubledOneLine(s[1..]);
      assert s == [s[0]] + s[1..];
    }
  }

  lemma QuotePrintable(s: string)
    ensures PrintableValue(Quote(s)) <==> OneLine(s)
  {
    DoubledOneLine(s);
    var q := Quote(s);
    assert q[0] == '\'' && q[|q| - 1] == '\'' && !IsSpace('\'');
    assert forall c :: c in q <==> c == '\'' || c in Doubled(s);
  }

  // ---- The settings ----

  /** The paths the configuration writes. */
  ghost predicate PathsOneLine(c: TlsConfig) {
    c.mode != TlsDisabled ==> OneLine(c.certFile) && OneLine(c.keyFile) && (c.caFile != "" ==> OneLine(c.caFile))
  }

  lemma KeysPrintable()
    ensures PrintableKey(SSL) && PrintableKey(SSL_CERT) && PrintableKey(SSL_KEY) && PrintableKey(SSL_CA)
    ensures PrintableValue("on") && PrintableValue("off")
  {
  }

  /** The new settings can be written and read back iff every path they name is on one line. */
  lemma WithTlsPrintableIff(m: Settings, c: TlsConfig)
    requires Printable(m)
    ensures Printable(WithTls(m, c)) <==> PathsOneLine(c)
  {
    KeysPrintable();
    QuotePrintable(c.certFile);
    QuotePrintable(c.keyFile);
    QuotePrintable(c.caFile);
    var w := WithTls(m, c);
    if c.mode != TlsDisabled {
      assert w[SSL_CERT] == Quote(c.certFile) && w[SSL_KEY] == Quote(c.keyFile);
      assert c.caFile != "" ==> w[SSL_CA] == Quote(c.caFile);
    }
  }

  lemma WithTlsTwice(m: Settings, c: TlsConfig)
    ensures WithTls(WithTls(m, c), c) == WithTls(m, c)
  {
  }

  // ---- The apply ----

  datatype Disk = Disk(includeFile: Option<string>, confFile: Option<string>)

  datatype Fault = NoFault | IncludeWrite | ConfWrite | ReloadFails | VerifyFails

  datatype TlsResult = Applied | Refused | WriteFailed | DirectiveFailed | ReloadFailed | VerifyFailed

  const DIRECTIVE := "include_if_exists = 'skylex.conf.include'"

  function Existing(d: Disk): Settings {
    if d.includeFile.Some? then Read(d.includeFile.value) else map[]
  }

  function WithDirective(conf: string): string {
    if Index(conf, DIRECTIVE).Some? then conf else DIRECTIVE + "\n" + conf
  }

  /** Which step of installing a text is the first to fail. */
  function ResultOf(d: Disk, fault: Fault): TlsResult {
    if fault == IncludeWrite then WriteFailed
    else if d.confFile.None? then DirectiveFailed
    else if fault == ConfWrite && Index(d.confFile.value, DIRECTIVE).None? then DirectiveFailed
    else if fault == ReloadFails then ReloadFailed
    else if fault == VerifyFails then VerifyFailed
    else Applied
  }

  /** The files that are left; every failure puts the include file back. */
  function Installed(d: Disk, text: string, fault: Fault): (TlsResult, Disk) {
    var r := ResultOf(d, fault);
    (r, Disk(if r == Applied then Some(text) else d.includeFile,
             if r in {Applied, ReloadFailed, VerifyFailed} then Some(WithDirective(d.confFile.value)) else d.confFile))
  }

  /** `ready` stands for an initialised instance and a configuration that validates and resolves. */
  ghost function Outcome(d: Disk, c: TlsConfig, ready: bool, stamp: string, fault: Fault): (TlsResult, Disk) {
    if !ready then (Refused, d) else Installed(d, Written(WithTls(Existing(d), c), stamp), fault)
  }

  class TlsInstance {
    var includeFile: Option<string>
    var confFile: Option<string>

    constructor (d: Disk)
      ensures State() == d
    {
      includeFile, confFile := d.includeFile, d.confFile;
    }

    function State(): Disk
      reads this
    {
      Disk(includeFile, confFile)
    }

    method EnsureIncludeDirective(fault: Fault) returns (ok: bool)
      modifies this`confFile
      ensures ok == (old(confFile).Some? && !(fault == ConfWrite && Index(old(confFile).value, DIRECTIVE).None?))
      ensures confFile == if ok then Some(WithDirective(old(confFile).value)) else old(confFile)
    {
      if confFile.None? {
        return false;
      }
      if Index(confFile.value, DIRECTIVE).Some? {
        return true;
      }
      if fault == ConfWrite {
        return false;
      }
      confFile := Some(DIRECTIVE + "\n" + confFile.value);
      return true;
    }

    method Install(text: string, fault: Fault) returns (r: TlsResult)
      modifies this
      ensures (r, State()) == Installed(old(State()), text, fault)
    {
      var previous := includeFile;
      if fault == IncludeWrite {
        return WriteFailed;
      }
      includeFile := Some(text);
      var ok := EnsureIncludeDirective(fault);
      if !ok {
        includeFile := previous;
        return DirectiveFailed;
      }
      if fault == ReloadFails {
        includeFile := previous;
        return ReloadFailed;
      }
      if fault == VerifyFails {
        includeFile := previous;
        return VerifyFailed;
      }
      return Applied;
    }

    method ApplyTLS(c: TlsConfig, ready: bool, stamp: string, fault: Fault) returns (r: TlsResult)
      modifies this
      ensures (r, State()) == Outcome(old(State()), c, ready, stamp, fault)
    {
      if !ready {
        return Refused;
      }
      var existing: Settings := map[];
      if includeFile.Some? {
        existing := ReadSettings(includeFile.value);
      }
      var settings := TlsSettings(existing, c);
      var text := WriteSettings(settings, stamp);
      r := Install(text, fault);
    }
  }

  lemma ExistingPrintable(d: Disk)
    ensures Printable(Existing(d))
  {
    if d.includeFile.Some? {
      ReadPrintable(d.includeFile.value);
    }
  }

  /** The include file an apply leaves. */
  ghost function After(d: Disk, c: TlsConfig, stamp: string): Disk {
    d.(includeFile := Some(Written(WithTls(Existing(d), c), stamp)))
  }

  /** An apply reads back as written exactly when its paths are on one line. */
  lemma TlsRoundTripIff(d: Disk, c: TlsConfig, stamp: string)
    requires OneLine(stamp)
    ensures Existing(After(d, c, stamp)) == WithTls(Existing(d), c) <==> PathsOneLine(c)
  {
    ExistingPrintable(d);
    WithTlsPrintableIff(Existing(d), c);
    RoundTripIff(WithTls(Existing(d), c), stamp);
  }

  /** Nothing but the four ssl settings changes. */
  lemma OnlySslChanges(d: Disk, c: TlsConfig, stamp: string, key: string)
    requires OneLine(stamp) && PathsOneLine(c) && key !in SslKeys()
    ensures var m, before := Existing(After(d, c, stamp)), Existing(d);
            (key in m <==> key in before) && (key in m ==> m[key] == before[key])
  {
    TlsRoundTripIff(d, c, stamp);
  }

  /** A second apply of the same configuration writes the same settings, and the paths survive the quoting. */
  lemma ApplyIsIdempotent(d: Disk, c: TlsConfig, first: string, second: string)
    requires OneLine(first) && OneLine(second) && PathsOneLine(c)
    ensures var once := After(d, c, first);
            && Existing(After(once, c, second)) == Existing(once)
            && After(once, c, first).includeFile == once.includeFile
    ensures c.mode != TlsDisabled ==>
              var m := Existing(After(d, c, first));
              SSL_CERT in m && SSL_KEY in m && Unquote(m[SSL_CERT]) == c.certFile && Unquote(m[SSL_KEY]) == c.keyFile
  {
    var once := After(d, c, first);
    TlsRoundTripIff(d, c, first);
    TlsRoundTripIff(once, c, second);
    WithTlsTwice(Existing(d), c);
    UnquoteQuote(c.certFile);
    UnquoteQuote(c.keyFile);
  }

  // ---- What a failed apply leaves ----

  predicate HasDirective(d: Disk) {
    d.confFile.Some? && Index(d.confFile.value, DIRECTIVE).Some?
  }

  /** A failed apply leaves both files as they were iff the directive was not added before the failure. */
  lemma FailedRunRestoresIff(d: Disk, c: TlsConfig, ready: bool, stamp: string, fault: Fault)
    requires Outcome(d, c, ready, stamp, fault).0 != Applied
    ensures Outcome(d, c, ready, stamp, fault).1 == d
            <==> HasDirective(d) || d.confFile.None? || !ready || fault == IncludeWrite || fault == ConfWrite
  {
    if d.confFile.Some? {
      assert |DIRECTIVE + "\n" + d.confFile.value| > |d.confFile.value|;
    }
  }

  /**
   Every failed apply leaves both files as they were iff the directive was there beforehand, or
   there is no postgresql.conf to add it to.
   */
  lemma FailureRestoresIff(d: Disk)
    ensures (forall c, ready, stamp, fault :: Outcome(d, c, ready, stamp, fault).0 != Applied
                                              ==> Outcome(d, c, ready, stamp, fault).1 == d)
            <==> HasDirective(d) || d.confFile.None?
  {
    forall c, ready, stamp, fault | Outcome(d, c, ready, stamp, fault).0 != Applied
      ensures Outcome(d, c, ready, stamp, fault).1 == d
              <==> HasDirective(d) || d.confFile.None? || !ready || fault == IncludeWrite || fault == ConfWrite
    {
      FailedRunRestoresIff(d, c, ready, stamp, fault);
    }
    var off := TlsConfig(TlsDisabled, "", "", "");
    assert d.confFile.Some? ==> Outcome(d, off, true, "", ReloadFails).0 == ReloadFailed;
  }

  /** An empty postgresql.conf and a reload that fails: the include line stays. */
  lemma DirectiveStays(c: TlsConfig, stamp: string)
    ensures Outcome(Disk(None, Some("")), c, true, stamp, ReloadFails) ==
            (ReloadFailed, Disk(None, Some(DIRECTIVE + "\n")))
  {
    assert Index("", DIRECTIVE) == None;
    assert DIRECTIVE + "\n" + "" == DIRECTIVE + "\n";
  }

  // ---- Which configurations are accepted ----

  /** A configuration as it arrives: manual paths, or certificates to be stored, or neither. */
  datatype TlsRequest = TlsRequest(config: TlsConfig, certPem: string, keyPem: string, caPem: string)

  predicate ValidPath(path: string, readable: set<string>) {
    path == "" || ('\0' !in path && '\r' !in path && '\n' !in path && path[0] == '/' && path in readable)
  }

  predicate Validates(r: TlsRequest, readable: set<string>) {
    var c := r.config;
    if c.mode == TlsDisabled then true
    else if r.certPem != "" || r.keyPem != "" then r.certPem != "" && r.keyPem != ""
    else (c.certFile == "" <==> c.keyFile == "")
         && ValidPath(c.certFile, readable) && ValidPath(c.keyFile, readable) && ValidPath(c.caFile, readable)
  }

  /** Without manual paths the certificate lives under the data directory. */
  function Resolved(r: TlsRequest, dataDir: string): TlsConfig {
    var c := r.config;
    if c.mode == TlsDisabled || (c.certFile != "" && c.keyFile != "") then c
    else c.(certFile := dataDir + "/skylex-tls/server.crt", keyFile := dataDir + "/skylex-tls/server.key",
            caFile := if r.caPem != "" then dataDir + "/skylex-tls/ca.crt" else c.caFile)
  }

  /** Validated manual paths are on one line, so the settings they write read back. */
  lemma ValidatedPathsOneLine(r: TlsRequest, readable: set<string>, dataDir: string)
    requires Validates(r, readable) && OneLine(dataDir) && r.certPem == "" && r.keyPem == ""
    ensures PathsOneLine(Resolved(r, dataDir))
  {
    assert OneLine("/skylex-tls/server.crt") && OneLine("/skylex-tls/server.key") && OneLine("/skylex-tls/ca.crt");
  }

  /** The manual paths a request would have written, as they arrived. */
  ghost predicate GivenOneLine(r: TlsRequest) {
    var c := r.config;
    if c.mode == TlsDisabled then true
    else if c.certFile != "" && c.keyFile != "" then OneLine(c.certFile) && OneLine(c.keyFile) && OneLine(c.caFile)
    else r.caPem != "" || OneLine(c.caFile)
  }

  /** An accepted request reads back iff it brings no certificates or its manual paths are on one line anyway. */
  lemma AcceptedReadsBackIff(r: TlsRequest, readable: set<string>, dataDir: string, d: Disk, stamp: string)
    requires Validates(r, readable) && OneLine(dataDir) && OneLine(stamp)
    ensures var c := Resolved(r, dataDir);
            Existing(After(d, c, stamp)) == WithTls(Existing(d), c)
            <==> (r.certPem == "" && r.keyPem == "") || GivenOneLine(r)
  {
    TlsRoundTripIff(d, Resolved(r, dataDir), stamp);
    if r.certPem == "" && r.keyPem == "" {
      ValidatedPathsOneLine(r, readable, dataDir);
    }
    assert OneLine("/skylex-tls/server.crt") && OneLine("/skylex-tls/server.key") && OneLine("/skylex-tls/ca.crt");
  }

  /** With stored certificates the CA path is not looked at, and a line break in it passes. */
  lemma StoredCertificatesSkipTheCheck(dataDir: string)
    ensures var r := TlsRequest(TlsConfig(TlsRequired, "", "", "/ca\nssl = off"), "cert", "key", "");
            Validates(r, {}) && !PathsOneLine(Resolved(r, dataDir))
  {
    var ca := "/ca\nssl = off";
    assert ca[3] == '\n';
  }

  // ---- Value by value ----

  lemma {:induction false} UnquotedStays(s: string)
    requires '\'' !in s
    ensures Doubled(s) == s
  {
    if |s| > 0 {
      UnquotedStays(s[1..]);
      assert s == [s[0]] + s[1..];
    }
  }

  /** A quote is doubled, everything else is kept, and the whole stands between quotes. */
  lemma QuoteIs(a: string, b: string)
    requires '\'' !in a && '\'' !in b
    ensures Quote(a) == "'" + a + "'" && Quote(a + ("'" + b)) == "'" + (a + ("''" + b)) + "'"
  {
    UnquotedStays(a);
    DoubledConcat(a, "'" + b);
    QuoteFirst(b);
  }

  lemma QuoteFirst(b: string)
    requires '\'' !in b
    ensures Doubled("'" + b) == "''" + b
  {
    UnquotedStays(b);
    assert ("'" + b)[1..] == b;
  }

  lemma {:induction false} DoubledConcat(a: string, b: string)
    ensures Doubled(a + b) == Doubled(a) + Doubled(b)
  {
    if |a| == 0 {
      assert a + b == b;
    } else {
      assert (a + b)[1..] == a[1..] + b;
      DoubledConcat(a[1..], b);
    }
  }

  lemma KeysDiffer()
    ensures "ssl" != "ssl_cert_file" && "ssl" != "ssl_key_file" && "ssl" != "ssl_ca_file"
    ensures "ssl_cert_file" != "ssl_key_file" && "ssl_cert_file" != "ssl_ca_file" && "ssl_key_file" != "ssl_ca_file"
  {
    assert "ssl_cert_file"[4] != "ssl_key_file"[4];
    assert |"ssl"| == 3 && |"ssl_ca_file"| == 11 && |"ssl_key_file"| == 12;
  }

  lemma TlsIsOff(m: Settings, c: TlsConfig)
    requires c.mode == TlsDisabled
    ensures var w := WithTls(m, c);
            && "ssl" in w && w["ssl"] == "off"
            && "ssl_cert_file" !in w && "ssl_key_file" !in w && "ssl_ca_file" !in w
  {
    KeysDiffer();
  }

  lemma TlsIsOn(m: Settings, c: TlsConfig)
    requires c.mode != TlsDisabled
    ensures var w := WithTls(m, c);
            && "ssl" in w && w["ssl"] == "on" && "ssl_cert_file" in w && "ssl_key_file" in w
            && Unquote(w["ssl_cert_file"]) == c.certFile && Unquote(w["ssl_key_file"]) == c.keyFile
            && ("ssl_ca_file" in w <==> c.caFile != "")
            && (c.caFile != "" ==> Unquote(w["ssl_ca_file"]) == c.caFile)
  {
    KeysDiffer();
    UnquoteQuote(c.certFile);
    UnquoteQuote(c.keyFile);
    UnquoteQuote(c.caFile);
  }

  /** What the four settings are after an apply: on with the given files, or off without any. */
  lemma AppliedSettings(d: Disk, c: TlsConfig, stamp: string)
    requires OneLine(stamp) && PathsOneLine(c)
    ensures var m := Existing(After(d, c, stamp));
            if c.mode == TlsDisabled then
              && "ssl" in m && m["ssl"] == "off"
              && "ssl_cert_file" !in m && "ssl_key_file" !in m && "ssl_ca_file" !in m
            else
              && "ssl" in m && m["ssl"] == "on" && "ssl_cert_file" in m && "ssl_key_file" in m
              && Unquote(m["ssl_cert_file"]) == c.certFile && Unquote(m["ssl_key_file"]) == c.keyFile
              && ("ssl_ca_file" in m <==> c.caFile != "")
              && (c.caFile != "" ==> Unquote(m["ssl_ca_file"]) == c.caFile)
  {
    TlsRoundTripIff(d, c, stamp);
    if c.mode == TlsDisabled {
      TlsIsOff(Existing(d), c);
    } else {
      TlsIsOn(Existing(d), c);
    }
  }

  /** postgresql.conf with the include line, which is put on top if it is nowhere in it. */
  ghost predicate Includes(conf: string, after: string) {
    var line := "include_if_exists = 'skylex.conf.include'";
    after == if Contains(conf, line) then conf else line + "\n" + conf
  }

  /** The result of every way an apply can go, and the two files it leaves. */
  lemma OutcomeIs(d: Disk, c: TlsConfig, ready: bool, stamp: string, fault: Fault)
    ensures var (r, after) := Outcome(d, c, ready, stamp, fault);
            var listed := d.confFile.Some? && Contains(d.confFile.value, "include_if_exists = 'skylex.conf.include'");
            && r == (if !ready then Refused
                     else if fault == IncludeWrite then WriteFailed
                     else if d.confFile.None? || (fault == ConfWrite && !listed) then DirectiveFailed
                     else if fault == ReloadFails then ReloadFailed
                     else if fault == VerifyFails then VerifyFailed
                     else Applied)
            && (r in {Refused, WriteFailed, DirectiveFailed} ==> after == d)
            && (r in {ReloadFailed, VerifyFailed} ==> after.includeFile == d.includeFile)
            && (r == Applied ==> after.includeFile == After(d, c, stamp).includeFile)
            && (r in {ReloadFailed, VerifyFailed, Applied} ==>
                  d.confFile.Some? && after.confFile.Some? && Includes(d.confFile.value, after.confFile.value))
  {
    if d.confFile.Some? {
      IndexIsFirst(d.confFile.value, DIRECTIVE);
    }
  }

  /** Certificate and key come together; manual paths are absolute, readable, and free of NUL and line breaks. */
  lemma ValidatesIff(r: TlsRequest, readable: set<string>)
    ensures var c := r.config;
            Validates(r, readable) <==>
            || c.mode == TlsDisabled || (r.certPem != "" && r.keyPem != "")
            || (r.certPem == "" && r.keyPem == "" && (c.certFile == "" <==> c.keyFile == "")
                && forall path <- [c.certFile, c.keyFile, c.caFile] | path != "" ::
                     path in readable && path[0] == '/' && forall k <- path :: k != '\0' && k != '\r' && k != '\n')
  {
    var c := r.config;
    assert c.certFile in [c.certFile, c.keyFile, c.caFile] && c.keyFile in [c.certFile, c.keyFile, c.caFile];
    assert c.caFile in [c.certFile, c.keyFile, c.caFile];
  }

  /** Where the certificates of a request end up. */
  lemma ResolvedTo(r: TlsRequest, dataDir: string)
    requires r.config.mode != TlsDisabled
    ensures var c := Resolved(r, dataDir);
            if r.config.certFile != "" && r.config.keyFile != "" then c == r.config
            else
              && c.mode == r.config.mode && c.certFile == dataDir + "/skylex-tls/server.crt"
              && c.keyFile == dataDir + "/skylex-tls/server.key"
              && c.caFile == if r.caPem != "" then dataDir + "/skylex-tls/ca.crt" else r.config.caFile
  {
  }
}
