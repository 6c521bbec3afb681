/**
 Extension toggles, their single apply command, and the agent's convergence of every
 database, which may break off part-way and is repaired by running it again.
 */
module Extensions {
  import opened Wrappers
  import opened Commands

  // ---- The agent ----

  /** Enabled and disabled names and the target databases of one command. */
  datatype ApplyExtensions = ApplyExtensions(databases: seq<string>, enable: seq<string>, disable: seq<string>)

  type Installed = map<string, set<string>>

  datatype Change = Ensure(database: string, extension: string) | Drop(database: string, extension: string)

  function ExtensionsOf(m: Installed, database: string): set<string> {
    if database in m then m[database] else {}
  }

  function Changed(m: Installed, c: Change): Installed {
    var now := ExtensionsOf(m, c.database);
    m[c.database := if c.Ensure? then now + {c.extension} else now - {c.extension}]
  }

  function ChangedAll(m: Installed, cs: seq<Change>): Installed {
    if |cs| == 0 then m else Changed(ChangedAll(m, cs[..|cs| - 1]), cs[|cs| - 1])
  }

  function Ensures(database: string, names: seq<string>): seq<Change> {
    seq(|names|, i requires 0 <= i < |names| => Ensure(database, names[i]))
  }

  function Drops(database: string, names: seq<string>): seq<Change> {
    seq(|names|, i requires 0 <= i < |names| => Drop(database, names[i]))
  }

  /** The statements for one database; one without a name is skipped. */
  function Block(p: ApplyExtensions, d: string): seq<Change> {
    if d == "" then [] else Ensures(d, p.enable) + Drops(d, p.disable)
  }

  /** The statements of one run, in order. */
  function Changes(p: ApplyExtensions, databases: seq<string>): seq<Change> {
    if |databases| == 0 then []
    else
      Changes(p, databases[..|databases| - 1]) + Block(p, databases[|databases| - 1])
  }

  /** PostgreSQL fails the statement after `luck` successful ones. */
  function Done(p: ApplyExtensions, luck: nat): seq<Change> {
    var all := Changes(p, p.databases);
    if luck < |all| then all[..luck] else all
  }

  /** The first n statements of a run have been carried out. */
  ghost predicate Progress(m: Installed, all: seq<Change>, n: nat, now: Installed) {
    n <= |all| && now == ChangedAll(m, all[..n])
  }

  class ExtensionAgent {
    var installed: Installed
    var luck: nat

    constructor (installed: Installed, luck: nat)
      ensures this.installed == installed && this.luck == luck
    {
      this.installed, this.luck := installed, luck;
    }

    method Run(c: Change) returns (ok: bool)
      modifies this
      ensures ok == (old(luck) > 0)
      ensures installed == (if ok then Changed(old(installed), c) else old(installed))
      ensures luck == if ok then old(luck) - 1 else old(luck)
    {
      ok := luck > 0;
      if ok {
        luck := luck - 1;
        installed := Changed(installed, c);
      }
    }

    /** Runs one list of statements, which stand at `start` in the whole run. */
    method RunAll(cs: seq<Change>, ghost m: Installed, ghost all: seq<Change>, ghost start: nat)
      returns (applied: nat, ok: bool)
      requires start + |cs| <= |all| && all[start..start + |cs|] == cs && Progress(m, all, start, installed)
      modifies this
      ensures applied == (if old(luck) < |cs| then old(luck) else |cs|) && ok == (old(luck) >= |cs|)
      ensures Progress(m, all, start + applied, installed) && luck == old(luck) - applied
    {
      applied, ok := 0, true;
      while applied < |cs|
        invariant applied <= |cs| && luck == old(luck) - applied && ok
        invariant Progress(m, all, start + applied, installed)
      {
        SliceAt(all, start, cs, applied);
        ok := Run(cs[applied]);
        if !ok {
          return;
        }
        ChangedNext(m, all, start + applied);
        applied := applied + 1;
      }
    }

    method RunBoth(a: seq<Change>, b: seq<Change>, ghost m: Installed, ghost all: seq<Change>, ghost start: nat)
      returns (applied: nat, ok: bool)
      requires start + |a| + |b| <= |all| && Progress(m, all, start, installed)
      requires all[start..start + |a|] == a && all[start + |a|..start + |a| + |b|] == b
      modifies this
      ensures applied == (if old(luck) < |a| + |b| then old(luck) else |a| + |b|) && ok == (old(luck) >= |a| + |b|)
      ensures Progress(m, all, start + applied, installed) && luck == old(luck) - applied
    {
      applied, ok := RunAll(a, m, all, start);
      if ok {
        var n;
        n, ok := RunAll(b, m, all, start + |a|);
        applied := applied + n;
      }
    }

    method ApplyDatabase(p: ApplyExtensions, d: string, ghost m: Installed, ghost all: seq<Change>, ghost start: nat)
      returns (applied: nat, ok: bool)
      requires d != "" && start + |Block(p, d)| <= |all| && all[start..start + |Block(p, d)|] == Block(p, d)
      requires Progress(m, all, start, installed)
      modifies this
      ensures applied == (if old(luck) < |Block(p, d)| then old(luck) else |Block(p, d)|)
      ensures ok == (old(luck) >= |Block(p, d)|)
      ensures Progress(m, all, start + applied, installed) && luck == old(luck) - applied
    {
      ListsAt(p, d, all, start);
      applied, ok := RunBoth(Ensures(d, p.enable), Drops(d, p.disable), m, all, start);
    }

    method ApplyAll(p: ApplyExtensions, ghost m: Installed, ghost all: seq<Change>, ghost starts: seq<nat>)
      returns (ok: bool, applied: nat)
      requires Layout(p, all, starts) && Progress(m, all, 0, installed)
      modifies this
      ensures ok == (old(luck) >= |all|) && applied == (if ok then |all| else old(luck))
      ensures Progress(m, all, applied, installed)
    {
      applied := 0;
      var i := 0;
      while i < |p.databases|
        invariant 0 <= i <= |p.databases| && applied == starts[i] <= |all|
        invariant luck == old(luck) - applied && Progress(m, all, applied, installed)
      {
        assert PlacedAt(p, all, starts, i);
        if p.databases[i] != "" {
          var n, fine := ApplyDatabase(p, p.databases[i], m, all, applied);
          applied := applied + n;
          if !fine {
            return false, applied;
          }
        }
        i := i + 1;
      }
      return true, applied;
    }

    /** Both lists of every database in turn; the first failing statement ends the run. */
    method ExecuteApplyExtensions(p: ApplyExtensions) returns (ok: bool, applied: nat)
      modifies this
      ensures ok == (old(luck) >= |Changes(p, p.databases)|)
      ensures installed == ChangedAll(old(installed), Done(p, old(luck)))
      ensures applied == |Done(p, old(luck))|
    {
      ghost var all := Changes(p, p.databases);
      ghost var starts := Places(p);
      ok, applied := ApplyAll(p, installed, all, starts);
      assert all[..|all|] == all;
    }
  }

  /** The i-th database's statements stand at its start. */
  ghost predicate PlacedAt(p: ApplyExtensions, all: seq<Change>, starts: seq<nat>, i: nat)
    requires |starts| == |p.databases| + 1 && i < |p.databases|
  {
    starts[i] + |Block(p, p.databases[i])| == starts[i + 1] <= |all|
    && all[starts[i]..starts[i + 1]] == Block(p, p.databases[i])
  }

  ghost predicate Layout(p: ApplyExtensions, all: seq<Change>, starts: seq<nat>) {
    && |starts| == |p.databases| + 1 && starts[0] == 0 && starts[|p.databases|] == |all|
    && forall i | 0 <= i < |p.databases| :: PlacedAt(p, all, starts, i)
  }

  lemma Places(p: ApplyExtensions) returns (starts: seq<nat>)
    ensures Layout(p, Changes(p, p.databases), starts)
  {
    starts := seq(|p.databases| + 1, i requires 0 <= i <= |p.databases| => |Changes(p, p.databases[..i])|);
    assert p.databases[..|p.databases|] == p.databases;
    forall i | 0 <= i < |p.databases| ensures PlacedAt(p, Changes(p, p.databases), starts, i) {
      BlockAt(p, i);
    }
  }

  lemma ChangedNext(m: Installed, all: seq<Change>, n: nat)
    requires n < |all|
    ensures ChangedAll(m, all[..n + 1]) == Changed(ChangedAll(m, all[..n]), all[n])
  {
    assert all[..n + 1][..n] == all[..n];
  }

  lemma SliceAt(all: seq<Change>, start: nat, cs: seq<Change>, k: nat)
    requires start + |cs| <= |all| && all[start..start + |cs|] == cs && k < |cs|
    ensures all[start + k] == cs[k]
  {
  }

  /** Where one database's statements stand in the whole run. */
  lemma BlockAt(p: ApplyExtensions, i: nat)
    requires i < |p.databases|
    ensures var start, block, all := |Changes(p, p.databases[..i])|, Block(p, p.databases[i]), Changes(p, p.databases);
            && start + |block| == |Changes(p, p.databases[..i + 1])| <= |all|
            && all[start..start + |block|] == block
  {
    ChangesPrefix(p, p.databases, i + 1);
    ChangesSnoc(p, p.databases, i);
    Slice(Changes(p, p.databases[..i]), Block(p, p.databases[i]), Changes(p, p.databases));
  }

  lemma ChangesSnoc(p: ApplyExtensions, databases: seq<string>, i: nat)
    requires i < |databases|
    ensures Changes(p, databases[..i + 1]) == Changes(p, databases[..i]) + Block(p, databases[i])
  {
    assert databases[..i + 1][..i] == databases[..i];
  }

  lemma Slice(a: seq<Change>, b: seq<Change>, all: seq<Change>)
    requires a + b <= all
    ensures |a| + |b| <= |all| && all[|a|..|a| + |b|] == b
  {
  }

  lemma ListsAt(p: ApplyExtensions, d: string, all: seq<Change>, start: nat)
    requires d != "" && start + |Block(p, d)| <= |all| && all[start..start + |Block(p, d)|] == Block(p, d)
    ensures var n, k := |p.enable|, |p.disable|;
            && |Block(p, d)| == n + k
            && all[start..start + n] == Ensures(d, p.enable) && all[start + n..start + n + k] == Drops(d, p.disable)
  {
    var n := |p.enable|;
    var b := Block(p, d);
    assert all[start..start + n] == all[start..start + |b|][..n];
    assert all[start + n..start + |b|] == all[start..start + |b|][n..];
  }

  lemma {:induction false} ChangedConcat(m: Installed, a: seq<Change>, b: seq<Change>)
    ensures ChangedAll(m, a + b) == ChangedAll(ChangedAll(m, a), b)
  {
    if |b| == 0 {
      assert a + b == a;
    } else {
      var n := |b| - 1;
      assert (a + b)[..|a| + n] == a + b[..n] && (a + b)[|a| + n] == b[n];
      ChangedConcat(m, a, b[..n]);
    }
  }

  lemma {:induction false} ChangesPrefix(p: ApplyExtensions, databases: seq<string>, i: nat)
    requires i <= |databases|
    ensures Changes(p, databases[..i]) <= Changes(p, databases)
  {
    if i < |databases| {
      var n := |databases| - 1;
      ChangesPrefix(p, databases[..n], i);
      assert databases[..n][..i] == databases[..i];
    } else {
      assert databases[..i] == databases;
    }
  }

  // ---- Convergence ----

  function Names(s: seq<string>): set<string> {
    set x <- s
  }

  /** Where a full run takes one database. */
  function Target(p: ApplyExtensions, before: set<string>): set<string> {
    (before + Names(p.enable)) - Names(p.disable)
  }

  /** Two states differing only in extensions the payload decides. */
  ghost predicate AgreeElsewhere(p: ApplyExtensions, a: set<string>, b: set<string>) {
    forall x :: x !in Names(p.enable) && x !in Names(p.disable) ==> (x in a <==> x in b)
  }

  lemma {:induction false} EnsuresAdd(m: Installed, d: string, names: seq<string>, e: string)
    ensures ExtensionsOf(ChangedAll(m, Ensures(d, names)), e) ==
            if e == d then ExtensionsOf(m, e) + Names(names) else ExtensionsOf(m, e)
  {
    if |names| > 0 {
      var n := |names| - 1;
      EnsuresAdd(m, d, names[..n], e);
      assert Ensures(d, names)[..n] == Ensures(d, names[..n]);
      assert names == names[..n] + [names[n]];
      assert Names(names) == Names(names[..n]) + {names[n]};
    }
  }

  lemma {:induction false} DropsRemove(m: Installed, d: string, names: seq<string>, e: string)
    ensures ExtensionsOf(ChangedAll(m, Drops(d, names)), e) ==
            if e == d then ExtensionsOf(m, e) - Names(names) else ExtensionsOf(m, e)
  {
    if |names| > 0 {
      var n := |names| - 1;
      DropsRemove(m, d, names[..n], e);
      assert Drops(d, names)[..n] == Drops(d, names[..n]);
      assert names == names[..n] + [names[n]];
      assert Names(names) == Names(names[..n]) + {names[n]};
    }
  }

  /** One database's statements take it to its target. */
  lemma BlockTakes(p: ApplyExtensions, d: string, t: Installed, e: string)
    ensures ExtensionsOf(ChangedAll(t, Block(p, d)), e) ==
            if e == d && d != "" then Target(p, ExtensionsOf(t, e)) else ExtensionsOf(t, e)
  {
    if d != "" {
      ChangedConcat(t, Ensures(d, p.enable), Drops(d, p.disable));
      EnsuresAdd(t, d, p.enable, e);
      DropsRemove(ChangedAll(t, Ensures(d, p.enable)), d, p.disable, e);
    }
  }

  lemma TargetTwice(p: ApplyExtensions, before: set<string>)
    ensures Target(p, Target(p, before)) == Target(p, before)
  {
  }

  /** A full run takes each listed database to its target and leaves every other alone. */
  lemma {:induction false} FullRun(p: ApplyExtensions, databases: seq<string>, m: Installed, e: string)
    ensures ExtensionsOf(ChangedAll(m, Changes(p, databases)), e) ==
            if e in databases && e != "" then Target(p, ExtensionsOf(m, e)) else ExtensionsOf(m, e)
  {
    if |databases| > 0 {
      var n := |databases| - 1;
      var d, before := databases[n], Changes(p, databases[..n]);
      FullRun(p, databases[..n], m, e);
      assert databases == databases[..n] + [d];
      assert e in databases <==> e in databases[..n] || e == d;
      ChangedConcat(m, before, Block(p, d));
      BlockTakes(p, d, ChangedAll(m, before), e);
      TargetTwice(p, ExtensionsOf(m, e));
    }
  }

  ghost predicate Decided(p: ApplyExtensions, c: Change) {
    c.database in p.databases && c.database != "" && (c.extension in Names(p.enable) || c.extension in Names(p.disable))
  }

  lemma {:induction false} ChangesDecided(p: ApplyExtensions, databases: seq<string>)
    requires forall d <- databases :: d in p.databases
    ensures forall c <- Changes(p, databases) :: Decided(p, c)
  {
    if |databases| > 0 {
      ChangesDecided(p, databases[..|databases| - 1]);
    }
  }

  /** Any part of a run touches only what the payload decides. */
  lemma {:induction false} PartAgrees(p: ApplyExtensions, cs: seq<Change>, m: Installed, e: string)
    requires forall c <- cs :: Decided(p, c)
    ensures AgreeElsewhere(p, ExtensionsOf(ChangedAll(m, cs), e), ExtensionsOf(m, e))
    ensures e !in p.databases || e == "" ==> ExtensionsOf(ChangedAll(m, cs), e) == ExtensionsOf(m, e)
  {
    if |cs| > 0 {
      PartAgrees(p, cs[..|cs| - 1], m, e);
      assert Decided(p, cs[|cs| - 1]);
    }
  }

  /** The databases after several runs that each broke off somewhere. */
  function AfterRuns(p: ApplyExtensions, m: Installed, lucks: seq<nat>): Installed {
    if |lucks| == 0 then m
    else ChangedAll(AfterRuns(p, m, lucks[..|lucks| - 1]), Done(p, lucks[|lucks| - 1]))
  }

  lemma {:induction false} RunsAgree(p: ApplyExtensions, m: Installed, lucks: seq<nat>, e: string)
    ensures AgreeElsewhere(p, ExtensionsOf(AfterRuns(p, m, lucks), e), ExtensionsOf(m, e))
    ensures e !in p.databases || e == "" ==> ExtensionsOf(AfterRuns(p, m, lucks), e) == ExtensionsOf(m, e)
  {
    if |lucks| > 0 {
      var n := |lucks| - 1;
      RunsAgree(p, m, lucks[..n], e);
      ChangesDecided(p, p.databases);
      PartAgrees(p, Done(p, lucks[n]), AfterRuns(p, m, lucks[..n]), e);
    }
  }

  /**
   After any number of runs that failed part-way, one full run leaves each listed database
   with (previous + enable) - disable, and every other database as it was.
   */
  lemma FullRunRepairs(p: ApplyExtensions, m: Installed, lucks: seq<nat>, e: string)
    ensures ExtensionsOf(ChangedAll(AfterRuns(p, m, lucks), Changes(p, p.databases)), e) ==
            if e in p.databases && e != "" then Target(p, ExtensionsOf(m, e)) else ExtensionsOf(m, e)
  {
    FullRun(p, p.databases, AfterRuns(p, m, lucks), e);
    RunsAgree(p, m, lucks, e);
  }

  // ---- The server's rows ----

  datatype ExtensionStatus = Off | ApplyPending | Ready | ApplyFailed

  datatype ExtensionRow = ExtensionRow(enabled: bool, status: ExtensionStatus, command: Option<Id>)

  /** The toggles of one cluster. */
  type Toggles = map<string, ExtensionRow>

  function Toggled(t: Toggles, name: string, enabled: bool): Toggles {
    if name in t then t[name := t[name].(enabled := enabled)] else t[name := ExtensionRow(enabled, Off, None)]
  }

  function Attached(t: Toggles, id: Id): Toggles {
    map name <- t :: t[name].(status := ApplyPending, command := Some(id))
  }

  function Resulted(t: Toggles, id: Id, success: bool): Toggles {
    if success then
      map name <- t | t[name].command != Some(id) || t[name].enabled ::
        if t[name].command == Some(id) then t[name].(status := Ready) else t[name]
    else map name <- t :: if t[name].command == Some(id) then t[name].(status := ApplyFailed) else t[name]
  }

  class ExtensionRepository {
    var rows: Toggles

    constructor ()
      ensures rows == map[]
    {
      rows := map[];
    }

    method SetEnabled(name: string, enabled: bool)
      modifies this
      ensures rows == Toggled(old(rows), name, enabled)
    {
      if name in rows {
        rows := rows[name := rows[name].(enabled := enabled)];
      } else {
        rows := rows[name := ExtensionRow(enabled, Off, None)];
      }
    }

    method QueueApplyCommand(id: Id)
      modifies this
      ensures rows == Attached(old(rows), id)
    {
      rows := map name <- rows :: rows[name].(status := ApplyPending, command := Some(id));
    }

    method HandleCommandResult(id: Id, success: bool)
      modifies this
      ensures rows == Resulted(old(rows), id, success)
    {
      if success {
        rows := map name <- rows | !(rows[name].command == Some(id) && !rows[name].enabled) :: rows[name];
        rows := map name <- rows ::
          if rows[name].command == Some(id) && rows[name].enabled then rows[name].(status := Ready) else rows[name];
        assert rows == Resulted(old(rows), id, true);
      } else {
        rows := map name <- rows ::
          if rows[name].command == Some(id) then rows[name].(status := ApplyFailed) else rows[name];
      }
    }
  }

  /** The names the apply request sends to be enabled. */
  function EnabledNames(t: Toggles): set<string> {
    set name <- t | t[name].enabled
  }

  datatype Toggle = Toggle(name: string, enabled: bool)

  function ToggledAll(t: Toggles, ts: seq<Toggle>): Toggles {
    if |ts| == 0 then t
    else Toggled(ToggledAll(t, ts[..|ts| - 1]), ts[|ts| - 1].name, ts[|ts| - 1].enabled)
  }

  /** Rows first toggled after the command was queued are not attached to it. */
  lemma {:induction false} ToggledRows(t: Toggles, ts: seq<Toggle>, id: Id)
    requires forall name <- t :: t[name].command == Some(id) && t[name].status == ApplyPending
    ensures var u := ToggledAll(t, ts);
            && (forall name <- t :: name in u && u[name] == t[name].(enabled := u[name].enabled))
            && (forall name <- u :: name !in t ==> u[name].command.None? && u[name].status == Off)
  {
    if |ts| > 0 {
      ToggledRows(t, ts[..|ts| - 1], id);
    }
  }

  /** The enabled rows left in the table as applied by the command. */
  function ReadyNames(t: Toggles, id: Id): set<string> {
    set name <- t | t[name].command == Some(id) && t[name].status == Ready
  }

  /** A success turns its enabled rows ready, removes its disabled rows and leaves later ones untouched. */
  lemma SuccessSettlesItsRows(t: Toggles, ts: seq<Toggle>, id: Id, name: string)
    ensures var u := ToggledAll(Attached(t, id), ts); var v := Resulted(u, id, true);
            && (name in t ==> name in u && (name in v <==> u[name].enabled))
            && (name in t && name in v ==> v[name] == ExtensionRow(true, Ready, Some(id)))
            && (name !in t ==> (name in v <==> name in u))
            && (name !in t && name in v ==> v[name] == u[name] && v[name].status == Off)
  {
  }

  /** The ready rows are exactly what the command enabled iff no attached row changed its flag in between. */
  lemma ReadyIsEnabledIff(t: Toggles, ts: seq<Toggle>, id: Id)
    ensures var u := ToggledAll(Attached(t, id), ts);
            ReadyNames(Resulted(u, id, true), id) == EnabledNames(t)
            <==> forall name <- t :: name in u && u[name].enabled == t[name].enabled
  {
    var u := ToggledAll(Attached(t, id), ts);
    var v := Resulted(u, id, true);
    ToggledRows(Attached(t, id), ts, id);
    forall name ensures name in ReadyNames(v, id) <==> name in t && u[name].enabled {
      SuccessSettlesItsRows(t, ts, id, name);
    }
    if ReadyNames(v, id) == EnabledNames(t) {
      forall name <- t ensures u[name].enabled == t[name].enabled {
        assert name in ReadyNames(v, id) <==> name in EnabledNames(t);
      }
    }
  }

  // ---- Rows and PostgreSQL ----

  /** The request enables the enabled rows and drops the others. */
  ghost predicate PayloadOf(p: ApplyExtensions, t: Toggles) {
    Names(p.enable) == EnabledNames(t) && Names(p.disable) == t.Keys - EnabledNames(t)
  }

  /**
   After a full run and its recorded success, every listed database has of the attached
   extensions exactly those whose rows are ready iff no attached row changed its flag meanwhile.
   */
  lemma RowsAgreeWithPostgresIff(p: ApplyExtensions, t: Toggles, ts: seq<Toggle>, id: Id, m: Installed, e: string)
    requires PayloadOf(p, t) && e in p.databases && e != ""
    ensures var u := ToggledAll(Attached(t, id), ts);
            var now := ExtensionsOf(ChangedAll(m, Changes(p, p.databases)), e);
            (forall name <- t :: name in now <==> name in ReadyNames(Resulted(u, id, true), id))
            <==> forall name <- t :: name in u && u[name].enabled == t[name].enabled
  {
    var u := ToggledAll(Attached(t, id), ts);
    var v := Resulted(u, id, true);
    FullRun(p, p.databases, m, e);
    ToggledRows(Attached(t, id), ts, id);
    forall name <- t ensures name in ReadyNames(v, id) <==> u[name].enabled {
      SuccessSettlesItsRows(t, ts, id, name);
    }
    forall name <- t
      ensures name in ExtensionsOf(ChangedAll(m, Changes(p, p.databases)), e) <==> t[name].enabled
    {
      assert name in Names(p.enable) <==> t[name].enabled;
    }
  }

  /** An extension disabled while its creation is in flight: installed, and its row is gone. */
  lemma ToggledInFlight(id: Id)
    ensures var t := map["vector" := ExtensionRow(true, Off, None)];
            var p := ApplyExtensions(["app"], ["vector"], []);
            && PayloadOf(p, t)
            && "vector" in ExtensionsOf(ChangedAll(map[], Changes(p, p.databases)), "app")
            && Resulted(ToggledAll(Attached(t, id), [Toggle("vector", false)]), id, true) == map[]
  {
    var t := map["vector" := ExtensionRow(true, Off, None)];
    var p := ApplyExtensions(["app"], ["vector"], []);
    assert Names(p.enable) == {"vector"} && Names(p.disable) == {};
    FullRun(p, p.databases, map[], "app");
    assert [Toggle("vector", false)][..0] == [];
    assert ToggledAll(Attached(t, id), [Toggle("vector", false)]) == Toggled(Attached(t, id), "vector", false);
  }

  /** A toggle sets the flag and nothing else; a name seen for the first time starts off, with no command. */
  lemma ToggleSets(t: Toggles, name: string, enabled: bool, other: string)
    ensures var u := Toggled(t, name, enabled);
            && name in u && u[name].enabled == enabled
            && (name in t ==> u[name].status == t[name].status && u[name].command == t[name].command)
            && (name !in t ==> u[name].status == Off && u[name].command == None)
            && (other != name ==> (other in u <==> other in t) && (other in t ==> u[other] == t[other]))
  {
  }

  /** A failure marks every row attached to the command, however it was toggled meanwhile, and removes none. */
  lemma FailureMarksItsRows(t: Toggles, ts: seq<Toggle>, id: Id, name: string)
    ensures var u := ToggledAll(Attached(t, id), ts); var v := Resulted(u, id, false);
            && (name in v <==> name in u)
            && (name in t ==> name in v && v[name] == ExtensionRow(u[name].enabled, ApplyFailed, Some(id)))
            && (name !in t && name in u ==> v[name] == u[name] && v[name].status == Off)
  {
    ToggledRows(Attached(t, id), ts, id);
  }

  /** Queueing attaches every row as it is toggled; a result of any other command leaves them all pending. */
  lemma OthersLeavePending(t: Toggles, id: Id, other: Id, success: bool, name: string)
    requires other != id && name in t
    ensures var v := Resulted(Attached(t, id), other, success);
            name in v && v[name] == ExtensionRow(t[name].enabled, ApplyPending, Some(id))
  {
  }
}
