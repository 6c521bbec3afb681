/**
 A concrete run in which a managed role takes the name skylex_admin: first the server's own
 password is lost, then, with the deletion of the role, skylex_admin itself.
 */
module TakeoverRun {
  import opened Wrappers
  import opened Commands
  import opened Metadata
  import opened ManagedRoleRepo
  import opened ManagementService
  import opened PostgresRoles
  import opened AgentProtocol
  import opened ControlLoop
  import opened ControlView
  import opened RoleChanges
  import opened AdminBootstrap
  import opened AdminPassword
  import opened StrayRun

  const DONE := Command(0, 0, 0, PgEnsureAdminRole, NoPayload, Completed, 0)

  const TAKER := Role(SKYLEX_ADMIN, Custom, 7, 1, RowPending)

  function Taking(status: Status): Command {
    Command(7, 0, 0, PgEnsureRole, RolePayload(9, 8, SKYLEX_ADMIN, Custom), status, 4)
  }

  function Leaving(status: Status): Command {
    Command(17, 0, 0, PgDropRole, RolePayload(9, 18, SKYLEX_ADMIN, Custom), status, 8)
  }

  const TAKEOVER_RUN: seq<Occurrence> := [
    Occurrence(CreateRoleEvent(SKYLEX_ADMIN, Custom, 7), GIVEN), Occurrence(PollEvent(NoFault, true), GIVEN),
    Occurrence(DeleteRoleEvent(9), GIVEN), Occurrence(PollEvent(NoFault, true), GIVEN)]

  const OURS: RoleTable := map[SKYLEX_ADMIN := PgRole(true, Some(0))]
  const THEIRS: RoleTable := map[SKYLEX_ADMIN := PgRole(false, Some(7))]

  const CREATED := map[8 := Operation(CreateRoleOp, OpSucceeded)]

  const T0: System := Begun(map[], map[], [DONE], map[], OURS, 1)
  const T1: System := Begun(map[9 := TAKER], map[8 := Operation(CreateRoleOp, OpRunning)], [DONE, Taking(Pending)],
                            map[7 := Secrets(Some(7), Some(0))], OURS, 2)
  const T2: System := Begun(map[9 := TAKER.(status := RowReady)], CREATED, [DONE, Taking(Completed)], map[], THEIRS, 3)
  const T3: System := Begun(map[9 := TAKER.(status := RowDeleting)], CREATED[18 := Operation(DeleteRoleOp, OpRunning)],
                            [DONE, Taking(Completed), Leaving(Pending)], map[17 := Secrets(None, Some(0))], THEIRS, 4)
  const T4: System := Begun(map[], CREATED[18 := Operation(DeleteRoleOp, OpSucceeded)],
                            [DONE, Taking(Completed), Leaving(Completed)], map[], map[], 5)

  lemma Takeover1()
    ensures Step(T0, TAKEOVER_RUN[0]) == T1
  {
    assert CreateRole(T0.store, SKYLEX_ADMIN, Custom, 7, DrawFor(T0, GIVEN)) == T1.store;
  }

  lemma Takeover2Report()
    ensures ReportResult(T1.store, 7, true, DrawFor(T1, GIVEN)) == T2.store
  {
    var t := T1.store.commands;
    assert Report(t, 7, true) == T2.store.commands;
    assert Find(T2.store.commands, 7) == Some(T2.store.commands[1]);
    RoleReport(T1.store, t[1], true, DrawFor(T1, GIVEN));
    assert T1.store.secrets - {7} == T2.store.secrets;
  }

  lemma Takeover2()
    ensures Step(T1, TAKEOVER_RUN[1]) == T2
  {
    var t := T1.store.commands;
    QueueOfTwo(t[0], t[1]);
    assert Queue(t, 0, 0) == [t[1]];
    Takeover2Report();
    DeliveredStep(T1, TAKEOVER_RUN[1], t[1]);
  }

  lemma Takeover3()
    ensures Step(T2, TAKEOVER_RUN[2]) == T3
  {
    assert DeleteRole(T2.store, 9, DrawFor(T2, GIVEN)) == T3.store;
  }

  lemma Takeover4Report()
    ensures ReportResult(T3.store, 17, true, DrawFor(T3, GIVEN)) == T4.store
  {
    var t := T3.store.commands;
    assert Report(t, 17, true) == T4.store.commands;
    assert Find(T4.store.commands, 17) == Some(T4.store.commands[2]);
    RoleReport(T3.store, t[2], true, DrawFor(T3, GIVEN));
    assert T3.store.secrets - {17} == T4.store.secrets;
  }

  lemma Takeover4()
    ensures Step(T3, TAKEOVER_RUN[3]) == T4
  {
    var t := T3.store.commands;
    QueueOfThree(t[0], t[1], t[2]);
    assert Queue(t, 0, 0) == [t[2]];
    Takeover4Report();
    DeliveredStep(T3, TAKEOVER_RUN[3], t[2]);
    assert THEIRS - {SKYLEX_ADMIN} == map[];
  }

  /** Where the run starts the admin command has run and its password opens the role. */
  lemma TakeoverStarts()
    ensures Initial(T0) && AdminSettled(T0) && Bootstrapped(T0, 0) && OwnNamesDiffer(T0.accounts)
    ensures T0.store.adminSecret == Some(0) && Opens(T0.pg, 0)
  {
    assert AdminAt(T0.store.commands, T0.store.secrets, 0, 0, 0);
    assert SKYLEX_ADMIN[0] != "postgres"[0] && SKYLEX_ADMIN[0] != "replicator"[0];
  }

  /** The server still stores the password 0; PostgreSQL knows the role by 7. */
  lemma TakeoverRun()
    ensures var e := Run(T0, TAKEOVER_RUN[..2]);
            Quiescent(e) && e.store.adminSecret == Some(0)
            && SKYLEX_ADMIN in e.pg && e.pg[SKYLEX_ADMIN].password == Some(7)
  {
    Takeover1();
    Takeover2();
    RunSnoc(T0, TAKEOVER_RUN, 0);
    RunSnoc(T0, TAKEOVER_RUN, 1);
    assert TAKEOVER_RUN[..0] == [];
    QueueOfTwo(T2.store.commands[0], T2.store.commands[1]);
  }

  lemma RunOfFour(s: System, run: seq<Occurrence>, a: System, b: System, c: System, d: System)
    requires |run| == 4 && Step(s, run[0]) == a && Step(a, run[1]) == b && Step(b, run[2]) == c && Step(c, run[3]) == d
    ensures Run(s, run) == d
  {
    RunSnoc(s, run, 0); RunSnoc(s, run, 1); RunSnoc(s, run, 2); RunSnoc(s, run, 3);
    assert run[..0] == [] && run[..4] == run;
  }

  lemma DeletionEnds()
    ensures Run(T0, TAKEOVER_RUN) == T4
  {
    Takeover1(); Takeover2(); Takeover3(); Takeover4();
    RunOfFour(T0, TAKEOVER_RUN, T1, T2, T3, T4);
  }

  /** After the deletion no row has the name, the password is still stored, and the role is gone. */
  lemma DeletionRun()
    ensures var e := Run(T0, TAKEOVER_RUN);
            Quiescent(e) && e.store.adminSecret == Some(0) && !NameTaken(e.store.roles, SKYLEX_ADMIN)
            && SKYLEX_ADMIN !in e.pg
  {
    DeletionEnds();
    var t := T4.store.commands;
    QueueOfThree(t[0], t[1], t[2]);
  }
}
