/** A concrete run in which retrying a creation behind its own queued drop strays a role. */
module StrayRun {
  import opened Wrappers
  import opened Commands
  import opened Metadata
  import opened ManagedRoleRepo
  import opened ManagementService
  import opened PostgresRoles
  import opened AgentProtocol
  import opened ControlLoop
  import opened ControlView
  import opened RoleChanges
  import opened RoleConvergence

  const GIVEN := Circumstance(0, 0, true, false, 0)
  const APP := Role("app", Custom, 7, 1, RowPending)

  function Begun(roles: map<Id, Role>, operations: map<Id, Operation>, commands: seq<Command>,
                 secrets: map<Id, Secrets>, pg: RoleTable, step: nat): System
  {
    System(Store(roles, map[], operations, commands, secrets, Some(0)), pg, 5 * step, 2 * step, 0, 0,
           Accounts("postgres", "replicator", 1))
  }

  function Ensuring(id: Id, op: Id, status: Status, at: Time): Command {
    Command(id, 0, 0, PgEnsureRole, RolePayload(4, op, "app", Custom), status, at)
  }

  function Dropping(status: Status): Command {
    Command(7, 0, 0, PgDropRole, RolePayload(4, 8, "app", Custom), status, 4)
  }

  const STRAY_RUN: seq<Occurrence> := [
    Occurrence(CreateRoleEvent("app", Custom, 7), GIVEN), Occurrence(DeleteRoleEvent(4), GIVEN),
    Occurrence(PollEvent(Early, true), GIVEN), Occurrence(CreateRoleEvent("app", Custom, 7), GIVEN),
    Occurrence(PollEvent(NoFault, true), GIVEN), Occurrence(PollEvent(NoFault, true), GIVEN)]

  const S0: System := Begun(map[], map[], [], map[], map[], 0)
  const S1: System := Begun(map[4 := APP], map[3 := Operation(CreateRoleOp, OpRunning)],
                            [Ensuring(2, 3, Pending, 2)], map[2 := Secrets(Some(7), Some(0))], map[], 1)

  const S2: System := Begun(map[4 := APP.(status := RowDeleting)],
                            map[3 := Operation(CreateRoleOp, OpRunning), 8 := Operation(DeleteRoleOp, OpRunning)],
                            [Ensuring(2, 3, Pending, 2), Dropping(Pending)],
                            map[2 := Secrets(Some(7), Some(0)), 7 := Secrets(None, Some(0))], map[], 2)
  const S3: System := Begun(map[4 := APP.(status := RowFailed)],
                            map[3 := Operation(CreateRoleOp, OpFailed), 8 := Operation(DeleteRoleOp, OpRunning)],
                            [Ensuring(2, 3, Failed, 2), Dropping(Pending)], map[7 := Secrets(None, Some(0))], map[], 3)
  const S4: System := Begun(map[4 := APP.(version := 2)],
                            map[3 := Operation(CreateRoleOp, OpFailed), 8 := Operation(DeleteRoleOp, OpRunning),
                                18 := Operation(CreateRoleOp, OpRunning)],
                            [Ensuring(2, 3, Failed, 2), Dropping(Pending), Ensuring(17, 18, Pending, 8)],
                            map[7 := Secrets(None, Some(0)), 17 := Secrets(Some(7), Some(0))], map[], 4)
  const S5: System := Begun(map[],
                            map[3 := Operation(CreateRoleOp, OpFailed), 8 := Operation(DeleteRoleOp, OpSucceeded),
                                18 := Operation(CreateRoleOp, OpRunning)],
                            [Ensuring(2, 3, Failed, 2), Dropping(Completed), Ensuring(17, 18, Pending, 8)],
                            map[17 := Secrets(Some(7), Some(0))], map[], 5)
  const S6: System := Begun(map[],
                            map[3 := Operation(CreateRoleOp, OpFailed), 8 := Operation(DeleteRoleOp, OpSucceeded),
                                18 := Operation(CreateRoleOp, OpSucceeded)],
                            [Ensuring(2, 3, Failed, 2), Dropping(Completed), Ensuring(17, 18, Completed, 8)],
                            map[], map["app" := PgRole(false, Some(7))], 6)

  function Due(c: Command): seq<Command> {
    if c.status == Pending && Addressed(c, 0, 0) then [c] else []
  }

  lemma QueueOfTwo(a: Command, b: Command)
    ensures Queue([a, b], 0, 0) == Due(a) + Due(b)
  {
    QueueSnoc([], a, 0, 0);
    QueueSnoc([a], b, 0, 0);
    assert [] + [a] == [a] && [a] + [b] == [a, b];
  }

  lemma QueueOfThree(a: Command, b: Command, c: Command)
    ensures Queue([a, b, c], 0, 0) == Due(a) + Due(b) + Due(c)
  {
    QueueOfTwo(a, b);
    QueueSnoc([a, b], c, 0, 0);
    assert [a, b] + [c] == [a, b, c];
  }

  lemma Stray1()
    ensures Step(S0, STRAY_RUN[0]) == S1
  {
    assert CreateRole(S0.store, "app", Custom, 7, DrawFor(S0, GIVEN)) == S1.store;
  }

  lemma Stray2()
    ensures Step(S1, STRAY_RUN[1]) == S2
  {
    assert DeleteRole(S1.store, 4, DrawFor(S1, GIVEN)) == S2.store;
  }

  lemma Stray3Report()
    ensures ReportResult(S2.store, 2, false, DrawFor(S2, GIVEN)) == S3.store
  {
    var t := S2.store.commands;
    assert Report(t, 2, false) == S3.store.commands;
    assert S3.store.commands[..1][0] == S3.store.commands[0];
    assert Find(S3.store.commands, 2) == Some(S3.store.commands[0]);
    RoleReport(S2.store, t[0], false, DrawFor(S2, GIVEN));
    assert S2.store.secrets - {2} == S3.store.secrets;
  }

  lemma Stray3()
    ensures Step(S2, STRAY_RUN[2]) == S3
  {
    var t := S2.store.commands;
    QueueOfTwo(t[0], t[1]);
    assert Queue(t, 0, 0) == [t[0], t[1]];
    Stray3Report();
    Stray3Poll();
  }

  lemma PolledHead(s: System, h: Command, fault: Fault, w: Draw)
    requires Queue(s.store.commands, s.agent, s.node) != [] && Queue(s.store.commands, s.agent, s.node)[0] == h
    ensures var (pg, ok) := Executed(s.accounts, s.pg, h, s.store.secrets, fault);
            Poll(s, fault, true, w) == s.(pg := pg, store := ReportResult(s.store, h.id, ok, w))
  {
  }

  lemma Stray3Poll()
    requires Queue(S2.store.commands, 0, 0) == [S2.store.commands[0], S2.store.commands[1]]
    requires ReportResult(S2.store, 2, false, DrawFor(S2, GIVEN)) == S3.store
    ensures Poll(S2, Early, true, DrawFor(S2, GIVEN)) == S2.(store := S3.store)
  {
    PolledHead(S2, S2.store.commands[0], Early, DrawFor(S2, GIVEN));
  }

  lemma Stray4()
    ensures Step(S3, STRAY_RUN[3]) == S4
  {
    assert RoleNamed(S3.store.roles, "app") == Some(4) by {
      assert 4 in S3.store.roles;
    }
    assert CreateRole(S3.store, "app", Custom, 7, DrawFor(S3, GIVEN)) == S4.store;
  }

  lemma Stray5Report()
    ensures ReportResult(S4.store, 7, true, DrawFor(S4, GIVEN)) == S5.store
  {
    var t := S4.store.commands;
    assert Report(t, 7, true) == S5.store.commands;
    assert S5.store.commands[..2][1] == S5.store.commands[1];
    assert Find(S5.store.commands, 7) == Some(S5.store.commands[1]);
    RoleReport(S4.store, t[1], true, DrawFor(S4, GIVEN));
    assert S4.store.secrets - {7} == S5.store.secrets;
  }

  lemma Stray5()
    ensures Step(S4, STRAY_RUN[4]) == S5
  {
    var t := S4.store.commands;
    QueueOfThree(t[0], t[1], t[2]);
    assert Queue(t, 0, 0) == [t[1], t[2]];
    Stray5Report();
    Stray5Poll();
  }

  lemma Stray5Poll()
    requires Queue(S4.store.commands, 0, 0) == [S4.store.commands[1], S4.store.commands[2]]
    requires ReportResult(S4.store, 7, true, DrawFor(S4, GIVEN)) == S5.store
    ensures Poll(S4, NoFault, true, DrawFor(S4, GIVEN)) == S4.(store := S5.store)
  {
    PolledHead(S4, S4.store.commands[1], NoFault, DrawFor(S4, GIVEN));
  }

  lemma Stray6()
    ensures Step(S5, STRAY_RUN[5]) == S6
  {
    var t := S5.store.commands;
    QueueOfThree(t[0], t[1], t[2]);
    assert Queue(t, 0, 0) == [t[2]];
    assert Report(t, 17, true) == S6.store.commands;
    assert Find(S6.store.commands, 17) == Some(S6.store.commands[2]);
    assert ReportResult(S5.store, 17, true, DrawFor(S5, GIVEN)) == S6.store;
  }

  lemma StrayRuns()
    ensures Run(S0, STRAY_RUN) == S6
  {
    Stray1(); Stray2(); Stray3(); Stray4(); Stray5(); Stray6();
    RunOfSix(S0, STRAY_RUN, S1, S2, S3, S4, S5, S6);
  }

  lemma RunSnoc(s: System, run: seq<Occurrence>, k: nat)
    requires k < |run|
    ensures Run(s, run[..k + 1]) == Step(Run(s, run[..k]), run[k])
  {
    assert run[..k + 1][..k] == run[..k];
  }

  lemma RunOfSix(s: System, run: seq<Occurrence>, a: System, b: System, c: System, d: System, e: System, f: System)
    requires |run| == 6 && Step(s, run[0]) == a && Step(a, run[1]) == b && Step(b, run[2]) == c
    requires Step(c, run[3]) == d && Step(d, run[4]) == e && Step(e, run[5]) == f
    ensures Run(s, run) == f
  {
    RunSnoc(s, run, 0); RunSnoc(s, run, 1); RunSnoc(s, run, 2);
    RunSnoc(s, run, 3); RunSnoc(s, run, 4); RunSnoc(s, run, 5);
    assert run[..0] == [] && run[..6] == run;
  }

  /** A creation fails behind a queued drop and is retried: the role survives in PostgreSQL, its row does not. */
  lemma StrayRun()
    ensures Initial(S0) && var e := Run(S0, STRAY_RUN);
            Backlog(e) == [] && "app" in e.pg && "app" !in Builtin(S0) && !NameTaken(e.store.roles, "app")
  {
    StrayRuns();
    var t := S6.store.commands;
    QueueOfThree(t[0], t[1], t[2]);
    assert Queue(t, 0, 0) == [];
    assert "app"[0] != SKYLEX_ADMIN[0];
  }
}
