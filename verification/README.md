# Skylex: a Dafny model of the control loop and its sequential cores

Skylex's server keeps desired state in rows and queues commands; one agent per node fetches
the oldest pending command, runs it against PostgreSQL and reports back; result handlers move
the rows on. Reports may be lost, commands may fail, and a crash may leave any prefix of a
sequence of writes. This project models that loop and proves what it guarantees over whole
runs, together with the algorithms around it: failover, cluster creation, provisioning, apply
status, extensions, the managed pg_hba.conf block, the include file, the command logger, the
log broker, the migration runner and log paging.

`dafny verify dfyconfig.toml` checks everything. Each module stands for a source file or for
one theorem about several:

- `Commands`, `AgentCommandRepo`, `QueueProtocol` - the command table, its queries, and the
  safety of the per-node queue for any number of agents.
- `Metadata`, `ManagedRoleRepo`, `ManagedDatabaseRepo`, `ManagementService`, `PostgresRoles`,
  `AgentProtocol` - repositories, request handlers, the agent's loop and PostgreSQL's role
  table, as classes proved equal to functions on their state.
- `ControlLoop`, `ControlView`, `RequestForms`, `AdminLead` - runs of one cluster as sequences
  of events, the proof that every step is one of a few moves of a smaller view, and that
  skylex_admin is provisioned before anything is managed.
- `RoleChanges`, `RoleConvergence`, `Draining`, `RoleFaults`, `StrayRun`, `TakeoverRun`,
  `Operations`, `DatabaseRuns`, `AdminBootstrap`, `AdminPassword`, `ClusterCommands` - the theorems
  about those runs.
- `RequestOutcomes`, `ResultOutcomes` - what each request and each report leaves in every table,
  value by value, guards included.
- `Topology`, `Failover`, `FailoverSafety`, `FailoverOutcomes`, `ClusterService`, `TopologyRuns`,
  `TopologyCrashes`, `Provisioning`, `ProvisioningLimit`, `ClusterProvisioning` - nodes and clusters.
- `ApplyStatus`, `Extensions`, `Text`, `Ordering`, `HbaPrefix`, `HbaPolicy`, `HbaRules`,
  `HbaBlockRules`, `IncludeFile`, `TlsApply`, `CommandLogger`, `LogBroker`, `Migrations`,
  `LogPages` - the remaining cores.

Methods of the classes are proved equal to functions of the old state, and the theorems then
say what those functions achieve: `QueueProtocol` and `Commands` for the command repository,
`RoleConvergence`, `RoleFaults`, `Draining` and `Operations` for the role and database
repositories, the request handlers, the agent and the report handler, `AdminBootstrap` and
`AdminLead` for the provisioning, `FailoverSafety` and `TopologyRuns` for the failover engine
and the cluster service, `Provisioning.RunningOnlyWhenProvisioned` for the provisioning server,
`ApplyStatus.LatestWins` for the apply rows, `Extensions.FullRunRepairs` and
`Extensions.RowsAgreeWithPostgresIff` for the extensions, `CommandLogger.Conservation` for the
logger, `LogBroker.Delivered` for the hub, `Migrations.CompleteRunResumes` for the migration
runner. What every single request, report, health check and apply leaves in each row is stated
without those functions in `RequestOutcomes`, `ResultOutcomes`, `FailoverOutcomes`,
`ClusterProvisioning`, `ApplyStatus.RowIs`, `HbaRules`, `HbaBlockRules` and `TlsApply.OutcomeIs`.

## What holds, and where the code falls short of what one would expect

Hypotheses of the runs: identifiers are fresh, clock readings strictly increase from one
queued command to the next (a before-action is stamped a millisecond ahead of its command and
may land anywhere), one primary is fixed in the control loop, database writes succeed, command
secrets are not expired when fetched, no command pending on that primary puts another data
directory in place of its own (purge, base backup, rewind, or a pgBackRest restore, which is not
among the modelled actions), failovers do not overlap, and a node whose deactivation is pending
is not taken into a cluster. The command table may hold anything else: commands of other nodes
and agents, and whatever has left pending (`ClusterCommands.CreatedClusterStarts`).

A request appears in the runs from the moment it holds the cluster lock. What it checked before
(the row's status, the owner of a database) may be stale by then and is not assumed: two
deletions of one role may both pass their checks and queue two drops, and the theorems cover that.

Some expected properties are false of the code. For each the project keeps the code's
behaviour and proves exactly when the property holds:

- A failed create that is retried while the same role's drop is still queued leaves a role in
  PostgreSQL without a row. A retry brings rows and queue into agreement, whatever the failed
  attempt left behind, iff no drop is pending (`RoleFaults.RetryAgreesIff`);
  `StrayRun.StrayRun` is a run that gets there.
- A ready row is served with its password in every run, faults included
  (`RoleFaults.ReadyMeansServed`), but its attribute may be an older one: a creation that fails
  before it sets the attribute and a later rotation make the row ready. The attribute is right
  whatever the fault iff the name is new to PostgreSQL or has it already
  (`RoleFaults.AttributeRightIff`, `RoleFaults.AttributeWrong`), so it is right in every run in
  which no retry changes a kind (`RoleFaults.AttributeServed`).
- Built-in names are not reserved: a managed role may be called `skylex_admin`, like the
  replication user, or like a role PostgreSQL already had. Its row is served as stored all the
  same (`RoleConvergence.EmptyQueueAgrees`), because the admin command never runs after a
  management command (`AdminLead.StepEarly`) and the replication user is only created when
  missing. What is lost is the other side. With nothing pending any more, the password the
  server stored opens skylex_admin iff no accepted creation of the run took the name, or the row
  that has it now happens to have the same password (`AdminPassword.AdminPasswordKeptIff`);
  passwords are generated, so iff none took it (`AdminPassword.AdminPasswordLostIff`). This asks
  that the run starts with the password not stored, on its way in a pending command, or in
  force, and that the configured superuser and replication user are called something else.
  `TakeoverRun.TakeoverRun` loses the password, and `TakeoverRun.DeletionRun` goes on to lose
  the role. A role in PostgreSQL without a row is one PostgreSQL had at the start, or the
  superuser, the replication user or skylex_admin.
- The ordering of the admin role holds for clusters whose password was stored together with
  queueing the role's command; after CreateCluster that is so iff the location is Docker
  (`ClusterCommands.BootstrapOrderIff`).
- The grant path provisions the admin role without holding the cluster lock. It never gets
  that far: whenever a management command is pending the password is already stored
  (`AdminBootstrap.GrantsFindThePassword`).
- CreateCluster accepts repeated node ids, and the last UPDATE of a node wins. The cluster has
  one primary and its replicas iff no id is repeated (`ClusterService.CreatedShapedIff`;
  `TopologyCrashes.NodeListedTwice` is a request). With `replica_count` -1 and no node ids it
  panics on an empty slice after opening the transaction.
- A node may be taken into a cluster while its deactivation is pending; the later removal keeps
  the shape of the clusters iff the node holds no role in any (`TopologyRuns.RemovalKeepsIff`).
- A crash between a failover's two role writes leaves two primaries iff there was a replica to
  promote (`TopologyRuns.CrashBetweenRoleWrites`, `TopologyCrashes.TwoPrimaries`); every other
  crash point leaves exactly one. No cluster is ever without a primary, wherever failovers
  crash (`TopologyCrashes.AlwaysLed`).
- The provisioning decision looks at a thousand commands at most. "Running means every
  provisioning command completed" can be relied on, whatever the statuses, iff no provisioning
  command of the cluster stands beyond the thousandth of its hosts
  (`ProvisioningLimit.DecisionSoundIff`); `ProvisioningLimit.HiddenPending` is a reused node
  whose cluster is declared running while pg_init is pending. CreateCluster
  queues its commands one by one after committing the cluster, so the provisioning theorem
  speaks of the commands that are queued by the time the run starts.
- Toggling an extension while its apply command is in flight makes the success handler treat
  the row by its new flag: rows and PostgreSQL agree iff no attached row changed its flag
  (`Extensions.RowsAgreeWithPostgresIff`; `Extensions.ToggledInFlight` is a case).
- The managed HBA block absorbs itself iff the old superuser's name does not contain the end
  marker (`HbaPrefix.AbsorbsIff`, `HbaPrefix.NameHoldsMarker`); the same condition decides
  whether a second apply is quiet.
- A failed TLS apply restores the include file but leaves the include directive it added to
  postgresql.conf: every failure leaves both files as before iff the directive was there already
  or there is no postgresql.conf (`TlsApply.FailureRestoresIff`, `TlsApply.DirectiveStays`).
- Validated manual certificate paths are on one line, so an apply reads back as written
  (`TlsApply.ValidatedPathsOneLine`). With stored certificates the agent does not look at the
  paths (`TlsApply.StoredCertificatesSkipTheCheck`): an accepted request reads back iff it
  brings no certificates or its paths are on one line anyway (`TlsApply.AcceptedReadsBackIff`).
- Two migrations with the same 14-character prefix: the later one is silently skipped
  (`Migrations.AppliesAllIff`, `Migrations.OnePrefixTwice`). A shorter file name makes the run
  panic there (`Migrations.Database.Migrate`).

## Model

| member | source | states |
|---|---|---|
| `Commands.QueueAfterReport` | internal/db/agent_command_repo.go:89-108 | reporting the oldest pending command removes it from the node's queue and nothing else |
| `Commands.QueueIs` | internal/db/agent_command_repo.go:89-94 | the queue holds exactly the pending rows addressed to the agent or to its node |
| `Commands.QueueAfterInsert` | internal/db/agent_command_repo.go:37-58 | a new pending row enters its own queue at one position and leaves all others in order |
| `Commands.HeadIndex` | internal/db/agent_command_repo.go:93-94 | the command handed out precedes every other pending row of the agent |
| `AgentCommandRepo.ListPendingLimit` | internal/db/agent_command_repo.go:82-108 | the scan returns exactly the oldest pending rows by agent or node, at most the limit; a limit outside 1 to 100 means 100 |
| `AgentCommandRepo.AgentCommandRepository.Create` | internal/db/agent_command_repo.go:37-58 | a fresh row takes its place in created_at order; a duplicate id changes nothing |
| `AgentCommandRepo.AgentCommandRepository.UpdateResult` | internal/db/agent_command_repo.go:171-185 | exactly the row with the id changes status, whatever it was before |
| `AgentCommandRepo.AgentCommandRepository.MarkPendingFailedByNodeIDs` | internal/db/agent_command_repo.go:110-134 | exactly the pending rows of the given nodes and actions fail; an empty list changes nothing |
| `AgentCommandRepo.AgentCommandRepository.ListByNodeIDs` | internal/db/agent_command_repo.go:136-169 | the oldest rows of the nodes in any status, never more than a thousand |
| `QueueProtocol.NextKeepsRow` | internal/db/agent_command_repo.go:171-185 | a step changes of a row only its status, never back to pending, and takes it out of pending iff it records a result for it |
| `QueueProtocol.RowsLast` | internal/db/agent_command_repo.go:89-185 | over any run no row is lost and one that left pending stays out |
| `QueueProtocol.NothingOlderPending` | internal/server/agent_service.go:328-364 | nothing older of the same agent is pending when a command is handed out |
| `QueueProtocol.OlderHasLeft` | internal/server/agent_service.go:328-364 | when a command is executed every earlier one queued for the same agent has left pending and never returns, for any interleaving of agents, late reports and cancellations |
| `QueueProtocol.NeverHandedOutAgain` | internal/db/agent_command_repo.go:89-108 | a command that left pending is never handed out again |
| `QueueProtocol.RerunOnlyIfUnrecorded` | internal/agent/agent.go:481-514 | a command runs twice only if no result of it was recorded from its first run up to the second |
| `QueueProtocol.EnqueueAdds` | internal/db/agent_command_repo.go:37-58 | a fresh pending row joins the table; a taken identifier adds nothing |
| `QueueProtocol.OthersClose` | internal/db/agent_command_repo.go:110-185 | a delivered poll completes or fails the oldest pending row, a report the row it names, a cancellation fails its batch, and every other row stays |
| `Metadata.CommitsIff` | internal/db/managed_role_repo.go:195-236 | a transaction commits iff none of the identifiers it draws is taken |
| `Metadata.MetadataStore.InsertAgentCommand` | internal/db/managed_role_repo.go:616-629 | inserts the row or, on a key clash, nothing |
| `Metadata.MetadataStore.QueueBoth` | internal/db/managed_role_repo.go:203-222 | the before-action and then the command, or a key clash |
| `Metadata.MetadataStore.QueueCommand` | internal/db/managed_role_repo.go:195-236 | opens a running operation and queues its commands with their secrets, as one function of the old tables |
| `ManagedRoleRepo.ManagedRoleRepository.CreateWithCommand` | internal/db/managed_role_repo.go:177-241 | inserts a pending row with its command, or changes nothing on a name or key clash |
| `ManagedRoleRepo.ManagedRoleRepository.RetryCreateWithCommand` | internal/db/managed_role_repo.go:244-320 | takes over a failed row of the same name with new kind and password, or changes nothing with the matching error |
| `ManagedRoleRepo.ManagedRoleRepository.RotateWithCommand` | internal/db/managed_role_repo.go:323-392 | stores the new password and queues the rotation; refuses a missing or deleting row |
| `ManagedRoleRepo.ManagedRoleRepository.DeleteWithCommand` | internal/db/managed_role_repo.go:395-452 | marks the row deleting and queues the drop |
| `ManagedRoleRepo.ManagedRoleRepository.HandleCommandResult` | internal/db/managed_role_repo.go:455-594 | moves role, operation and secret rows by the command's action and result, and knows which commands are not its own |
| `ManagedRoleRepo.RoleRefusals` | internal/db/managed_role_repo.go:244-452 | which rows each role transaction refuses, and with which error |
| `ManagedDatabaseRepo.ManagedDatabaseRepository.CreateWithCommand` | internal/db/managed_database_repo.go:95-161 | inserts a pending database with its ensure command, or changes nothing |
| `ManagedDatabaseRepo.ManagedDatabaseRepository.DeleteWithCommand` | internal/db/managed_database_repo.go:163-220 | marks the row deleting and queues the drop |
| `ManagedDatabaseRepo.ManagedDatabaseRepository.QueueGrantCommand` | internal/db/managed_database_repo.go:222-241 | queues the grant under the operation the create opened, with the admin secret it is given |
| `ManagedDatabaseRepo.ManagedDatabaseRepository.MarkCreateFailed` | internal/db/managed_database_repo.go:243-261 | fails the row and closes the create operation |
| `ManagedDatabaseRepo.ManagedDatabaseRepository.HandleCommandResult` | internal/db/managed_database_repo.go:266-441 | closes row and operation in each phase, or asks for the grant after a successful ensure of an owned database |
| `ManagedDatabaseRepo.DatabaseRefusals` | internal/db/managed_database_repo.go:95-220 | a taken name or identifier is a conflict, a missing row is not found |
| `PostgresRoles.Instance.EnsureRole` | internal/postgres/roles.go:93-126 | leaves the role with the kind's attributes and the password, or what the statements before a fault did |
| `PostgresRoles.Instance.RotateRolePassword` | internal/postgres/roles.go:129-143 | changes the password of an existing role only |
| `PostgresRoles.Instance.DropRole` | internal/postgres/roles.go:156-170 | removes the role, existing or not |
| `PostgresRoles.Instance.InitDB` | internal/postgres/postgres.go:267-308 | creates the bootstrap superuser on a server without a data directory, and nothing on an initialised one |
| `PostgresRoles.Instance.CreateReplicationUser` | internal/postgres/postgres.go:609-624 | creates the replication user only if the name is missing |
| `ManagementService.PostgresManagementService.EnsureSkylexAdminProvisioned` | internal/server/postgres_management_service.go:158-207 | stores the admin password once and queues its role with it; later calls change nothing |
| `ManagementService.PostgresManagementService.Prepare` | internal/server/postgres_management_service.go:1384-1396 | the command that provisions goes without the admin secret, every later one carries it |
| `ManagementService.PostgresManagementService.HandleCreateRole` | internal/server/postgres_management_service.go:1284-1429 | creates, or retries the failed row of that name, or refuses; provisioning stays when the transaction fails |
| `ManagementService.PostgresManagementService.HandleRotateRolePassword` | internal/server/postgres_management_service.go:1433-1538 | refuses a missing or deleting role, otherwise takes the lock and rotates |
| `ManagementService.PostgresManagementService.Rotate` | internal/server/postgres_management_service.go:1458-1538 | the part under the lock, on whatever the row has become since it was checked |
| `ManagementService.PostgresManagementService.HandleDeleteRole` | internal/server/postgres_management_service.go:1542-1637 | refuses a role that is being deleted or owns a live database, otherwise takes the lock and deletes |
| `ManagementService.PostgresManagementService.Delete` | internal/server/postgres_management_service.go:1576-1637 | the part under the lock; a role that has been marked deleting since is marked and dropped again |
| `ManagementService.PostgresManagementService.HandleCreateDatabase` | internal/server/postgres_management_service.go:1680-1807 | refuses a reserved name and an owner that is missing, not ready or read-only, otherwise takes the lock; a taken name is refused there |
| `ManagementService.PostgresManagementService.Create` | internal/server/postgres_management_service.go:1730-1807 | the part under the lock, for the owner as it was read before |
| `ManagementService.PostgresManagementService.HandleDeleteDatabase` | internal/server/postgres_management_service.go:1809-1897 | refuses a missing or deleting database, otherwise takes the lock and deletes |
| `ManagementService.PostgresManagementService.Drop` | internal/server/postgres_management_service.go:1836-1897 | the part under the lock, on whatever the row has become since |
| `ManagementService.PostgresManagementService.HandleApplyExtensions` | internal/server/postgres_extensions.go:117-222 | provisions like a management request and queues one command that carries the admin secret unless this call stored it |
| `AgentProtocol.AgentService.FetchCommand` | internal/server/agent_service.go:328-364 | hands out the oldest pending command of the agent, one at most |
| `AgentProtocol.AgentService.HandleDatabaseManagementResult` | internal/server/agent_service.go:384-474 | after an ensure queues the grant on the ready primary, or closes the creation as failed in every other branch |
| `AgentProtocol.AgentService.ReportCommandResult` | internal/server/agent_service.go:505-531 | accepts results of the agent's own commands only; records the status, runs the handlers in order and deletes the secrets |
| `AgentProtocol.Agent.ExecuteCommand` | internal/agent/agent.go:516-761 | the effect of each action on PostgreSQL's roles and the success it reports; of the lifecycle actions, initialising an empty server and creating the replication user make a role |
| `AgentProtocol.Agent.FetchCommands` | internal/agent/agent.go:481-514 | executes before reporting; a lost report leaves the server's tables as they were; asks only that the command handed out leaves the data directory in place |
| `ControlView.CreateRoleMoves` | internal/server/postgres_management_service.go:1284-1429 | a CreateRole request that holds the lock either leaves rows and backlog alone or changes its one row, opens one operation and queues one command last |
| `ControlView.RotateRoleMoves` | internal/server/postgres_management_service.go:1458-1538 | a RotateRole request that holds the lock either leaves rows and backlog alone or changes its one row, opens one operation and queues one command last |
| `ControlView.DeleteRoleMoves` | internal/server/postgres_management_service.go:1576-1637 | a DeleteRole request that holds the lock either leaves rows and backlog alone or changes its one row, opens one operation and queues one command last |
| `ControlView.CreateDatabaseMoves` | internal/server/postgres_management_service.go:1730-1807 | a CreateDatabase request that holds the lock either leaves rows and backlog alone or changes its one row, opens one operation and queues one command last |
| `ControlView.DeleteDatabaseMoves` | internal/server/postgres_management_service.go:1836-1897 | a DeleteDatabase request that holds the lock either leaves rows and backlog alone or changes its one row, opens one operation and queues one command last |
| `ControlView.ApplyExtensionsMoves` | internal/server/postgres_extensions.go:117-222 | applying extensions leaves rows, operations and the management backlog alone |
| `ControlView.RoleReport` | internal/db/managed_role_repo.go:494-529 | a reported role command changes its row, its operation, its status and its secrets and nothing else |
| `ControlView.DatabaseReported` | internal/server/agent_service.go:384-474 | a reported database command closes its row and operation or hands over to the grant |
| `ControlView.GrantRows` | internal/server/agent_service.go:423-466 | the grant joins the backlog last, whether or not the admin role is provisioned on the way |
| `ControlView.LostReportMoves` | internal/agent/agent.go:481-514 | a lost report changes PostgreSQL at most |
| `ControlView.PollMoves` | internal/server/agent_service.go:505-531 | every poll, delivered or not, is one move of the view |
| `ControlView.StepMoves` | internal/server/agent_service.go:328-531 | every step of a run is a move of the view and keeps identifiers fresh and names unique |
| `RequestForms.RequestForm` | internal/server/postgres_management_service.go:1284-1897 | every management request changes nothing, or provisions only, or commits one transaction of one common form |
| `RequestOutcomes.PromotionGoesAhead` | internal/server/postgres_management_service.go:1923-1938 | an accepted request adds its own pending command, last in the primary's queue; where promotion is allowed, and only there, exactly one pg_promote of the primary, a millisecond older and ahead of it; the admin command iff no password is stored; and no other command |
| `RequestOutcomes.RotateOutcome` | internal/server/postgres_management_service.go:1433-1538 | rotates iff the primary is ready and the role is there and not deleting: new password, next version, pending row, one operation, one command with both secrets; otherwise no table changes |
| `RequestOutcomes.DeleteOutcome` | internal/db/managed_database_repo.go:85-93 | a role becomes deleting, with exactly one drop queued, iff it is there, not deleting already, and every database it owns is deleting; otherwise no table changes |
| `RequestOutcomes.CreateOutcome` | internal/server/postgres_management_service.go:1284-1429 | a name no row has gets a new pending row of version 1 and one ensure command with its password |
| `RequestOutcomes.RetryOutcome` | internal/server/postgres_management_service.go:1332-1360 | a name a row has is created again, under the row's identifier and next version, iff that row failed |
| `RequestOutcomes.DatabaseRequestOutcome` | internal/server/postgres_management_service.go:1680-1807 | a database is created iff its name is not postgres, template0 or template1 in any spelling, no row has it, and the owner, if any, is ready and not read-only; the command names the owner |
| `RequestOutcomes.DropOutcome` | internal/server/postgres_management_service.go:1809-1897 | a database becomes deleting, with exactly one drop queued, iff it is there and not deleting already |
| `RequestOutcomes.ExtensionsOutcome` | internal/server/postgres_extensions.go:117-222 | one command without a promotion, the provisioning if it is due, and no row of roles, databases or operations changed |
| `RequestOutcomes.StaleOutcome` | internal/server/postgres_management_service.go:1458-1637 | a request whose row went away while it waited for the lock leaves the provisioning at most |
| `AdminLead.WaitingHead` | internal/db/agent_command_repo.go:89-94 | while the admin command is pending the oldest pending command is not a management command |
| `AdminLead.StepEarly` | internal/server/postgres_management_service.go:158-207 | every step keeps the admin command older than all management commands, and every row's creation pending as long as the admin command is |
| `RoleChanges.Classify` | internal/db/managed_role_repo.go:177-529 | every move changes at most one role row, in one of seven ways |
| `RoleChanges.RunReached` | internal/db/managed_role_repo.go:177-594 | in every run pending commands are well formed and name the role of their row, and names stay unique |
| `RoleConvergence.RerunHarmless` | internal/postgres/roles.go:93-170 | executing the oldest command once more, after its report was lost, does not change what draining leads to |
| `RoleConvergence.SetAgrees` | internal/db/managed_role_repo.go:177-392 | a create, retry or rotation keeps the drained table equal to the rows, unless it retries behind a pending drop |
| `RoleConvergence.DropKeepsAgreement` | internal/db/managed_role_repo.go:395-452 | queueing a drop takes the row out of the agreement and the role out of the drained table together |
| `RoleConvergence.SettleKeepsAgreement` | internal/db/managed_role_repo.go:494-513 | handling the oldest command keeps rows and drained table in agreement |
| `RoleConvergence.FaultlessOutcome` | internal/postgres/roles.go:129-143 | without faults only a rotation can fail, and only when its row is gone |
| `RoleConvergence.DrainAgrees` | internal/server/postgres_management_service.go:1332-1339 | at every point of every run without faults, with any lost reports, folding the pending commands over PostgreSQL serves every row without a pending drop as stored, leaves no other name that was not PostgreSQL's or Skylex's own, and no row is failed |
| `RoleConvergence.EmptyQueueAgrees` | internal/db/managed_role_repo.go:177-529 | with an empty backlog every row, whatever its name, is served with the stored password and attribute, and any name that was not PostgreSQL's or Skylex's own is there iff it has a row |
| `RoleConvergence.DrainedDecided` | internal/postgres/roles.go:93-126 | what a name stood for before does not matter once a pending creation decides it |
| `AdminPassword.RequestStays` | internal/server/postgres_management_service.go:158-207 | every request keeps the stored password, stores one only together with queueing its command, and leaves a pending admin command its key |
| `AdminPassword.UntakenRun` | internal/server/postgres_management_service.go:158-207 | as long as no accepted creation takes the name skylex_admin, the stored password is on its way in a pending command or opens the role |
| `AdminPassword.TakenRun` | internal/server/postgres_management_service.go:1332-1339 | once one has, draining leaves skylex_admin in PostgreSQL only with a row of that name |
| `AdminPassword.AdminPasswordKeptIff` | internal/server/postgres_management_service.go:158-207 | at the end of a faultless run the stored password opens skylex_admin iff no accepted creation took the name or the row that has it has that password |
| `AdminPassword.AdminPasswordLostIff` | internal/server/postgres_management_service.go:1340-1360 | with generated passwords the stored one is lost iff an accepted creation took the name |
| `TakeoverRun.TakeoverRun` | internal/server/postgres_management_service.go:1284-1429 | a concrete run in which a managed role takes the name skylex_admin and its password |
| `TakeoverRun.DeletionRun` | internal/server/postgres_management_service.go:1542-1637 | the same run with the role deleted again: the password is stored, and skylex_admin is gone |
| `Draining.ReportShrinks` | internal/server/agent_service.go:505-531 | a handled report takes more off the queue than the commands it may add |
| `Draining.EventuallyConverges` | internal/agent/agent.go:481-514 | from every point of every faultless run some number of clean polls empties the queue, and then every row is served as stored and PostgreSQL holds no other role but its own and Skylex's |
| `RoleFaults.ReadyMeansServed` | internal/db/managed_role_repo.go:496-507 | in every run, faults and lost reports included, a ready row with nothing pending on its name is served with its stored password |
| `RoleFaults.EveryRoleHasItsRow` | internal/db/managed_role_repo.go:244-320 | faults and lost reports leave no role without a row but PostgreSQL's and Skylex's own, if no create is retried behind its own pending drop |
| `RoleFaults.RetryAgreesIff` | internal/db/managed_role_repo.go:244-320 | with every other row and name in agreement, a retry brings rows and queue into agreement iff no drop of the role is pending |
| `RoleFaults.FailedCreateIsExcepted` | internal/db/managed_role_repo.go:494-513 | an ordinary failed create, its role absent and nothing pending, is such a state, and itself not in agreement |
| `RoleFaults.AttributeRightIff` | internal/postgres/roles.go:93-143 | after a creation that failed anywhere and a rotation that succeeded the attribute is right iff the name was new or had it already |
| `RoleFaults.AttributeWrong` | internal/postgres/roles.go:93-143 | a role left with the attribute of its former kind |
| `RoleFaults.AttributeServed` | internal/db/managed_role_repo.go:244-320 | in every run in which no retry changes a kind or stands behind its own pending drop, the role under a row's name has the row's attribute |
| `StrayRun.StrayRun` | internal/db/managed_role_repo.go:244-320 | a concrete run: the retry behind a drop leaves a role in PostgreSQL and no row |
| `Operations.CloseHead` | internal/db/managed_role_repo.go:509-522 | closing the oldest command's operation leaves every other running operation with its one command |
| `Operations.HandOverHead` | internal/server/agent_service.go:384-474 | the grant takes over the ensure's operation, one command for one running operation |
| `Operations.SettledAccounted` | internal/db/managed_database_repo.go:266-372 | every branch of a result handler closes the operation or hands it over |
| `Operations.RunningIffCarriedOnce` | internal/db/managed_role_repo.go:455-529 | in every run an operation is running iff exactly one pending command carries its id |
| `ResultOutcomes.DatabaseOutcome` | internal/db/managed_database_repo.go:301-380 | a delivered poll of a database command, at any point of any run: ready after a grant or an unowned ensure, failed after any failure and after a hand-over that found no ready primary, gone after a drop, unchanged while the grant is to come; no other row changes |
| `ResultOutcomes.RoleOutcome` | internal/db/managed_role_repo.go:494-513 | a delivered poll of a role command makes its row ready whatever it was, failed, or gone, and changes no other row |
| `ResultOutcomes.RoleOperationOutcome` | internal/db/managed_role_repo.go:509-522 | the operation of a handled role command was running and has succeeded or failed as reported; no other operation changes |
| `ResultOutcomes.DatabaseOperationOutcome` | internal/db/managed_database_repo.go:301-380 | so has that of a database command, unless it is handed over to the grant and still running |
| `ResultOutcomes.ReportClosesCommand` | internal/server/agent_service.go:505-531 | a report that hands nothing over completes or fails its command, removes its secrets, and queues nothing |
| `ResultOutcomes.HandOverOutcome` | internal/server/agent_service.go:423-466 | a hand-over completes the ensure and queues, last, one grant to the owner on the primary under the same operation, with the stored admin password |
| `ResultOutcomes.SuccessIff` | internal/agent/agent.go:516-761 | an agent reports success iff no statement failed, the command had its payload and secret, and the role to rotate exists |
| `ResultOutcomes.OwnRolesMade` | internal/postgres/postgres.go:267-308 | which lifecycle commands make the superuser and the replication user, and with which attributes |
| `DatabaseRuns.RowFollowsItsOperation` | internal/db/managed_database_repo.go:301-380 | in every run a database is ready only if the operation that created it succeeded; unless a delete was accepted its row is pending, ready or failed exactly as that operation is running, succeeded or failed |
| `DatabaseRuns.RowsHaveCreations` | internal/db/managed_database_repo.go:95-161 | every database row of a run was created by an ensure command of that run |
| `AdminBootstrap.NeutralInsert` | internal/db/agent_command_repo.go:89-94 | a command that carries no admin secret may land anywhere without disturbing the order |
| `AdminBootstrap.HandOverOrdered` | internal/server/agent_service.go:417-466 | a hand-over keeps the admin command ahead of every carrier of its password |
| `AdminBootstrap.ApplyExtensionsOrdered` | internal/server/postgres_extensions.go:193-216 | the extensions command provisions and carries the password without disturbing the order |
| `AdminBootstrap.AdminRoleFirst` | internal/server/postgres_management_service.go:158-207 | the admin role's command is queued at most once, and whatever carries its password runs after that very command was executed and reported |
| `AdminBootstrap.StepOnce` | internal/server/postgres_management_service.go:158-207 | every step stores the password and queues the admin command together, and only where none is stored |
| `AdminBootstrap.GrantsFindThePassword` | internal/server/agent_service.go:417-440 | whenever a management command is pending the password is stored, so the unlocked grant path never provisions |
| `ClusterCommands.Provisioner.QueueNodeCommands` | internal/server/cluster_service.go:1011-1018 | queues a node's commands in order |
| `ClusterCommands.Provisioner.QueueAdminRoleCommand` | internal/server/cluster_service.go:1027-1065 | stores the password, and queues the role with it unless the location is native |
| `ClusterCommands.Provisioner.QueueCluster` | internal/server/cluster_service.go:312-330 | primary, admin role, then each replica, by the install, primary and replica command lists |
| `ClusterCommands.BootstrapOrderIff` | internal/server/cluster_service.go:1036-1062 | after creation a command of that creation provisions the role ahead of all carriers on the primary iff the location is Docker |
| `ClusterCommands.CreatedClusterStarts` | internal/server/cluster_service.go:312-330 | right after a creation, with any replicas and any table of other nodes' and past commands, the runs may start; with Docker the admin role is bootstrapped and its password on its way |
| `ClusterCommands.Provisioner.QueueNativeProvisioningContinuation` | internal/server/agent_service.go:742-765 | queues what is left of a native node's installation and then the set-up of a primary or a replica |
| `ClusterProvisioning.DockerCreationQueues` | internal/server/cluster_service.go:995-1108 | a Docker creation adds exactly five commands for the primary and four for each replica, in this order, the replicas pointed at the primary's address or host name |
| `ClusterProvisioning.NativeCreationQueues` | internal/server/cluster_service.go:995-1108 | a native creation adds exactly one preflight per host |
| `ClusterProvisioning.ContinuationQueues` | internal/server/agent_service.go:742-765 | a continuation adds the installation iff it is neither skipped nor done, and then the three set-up commands |
| `Topology.RoleMovesMember` | internal/db/node_repo.go:134-142 | a role write moves one node within its own cluster and touches no other |
| `Topology.TopologyStore.CreateCommand` | internal/server/failover.go:240-257 | queues one order through the node's agent or the sentinel; a missing node queues nothing |
| `Failover.FailoverEngine.SelectBest` | internal/server/failover.go:140-148 | the loop finds the specified replica |
| `Failover.BestIsFreshest` | internal/server/failover.go:140-148 | the chosen replica is online with the freshest heartbeat, the earliest row among ties; none only if none is online |
| `Failover.FailoverEngine.RepointReplicas` | internal/server/failover.go:192-207 | one repoint write per other online replica of the snapshot, in order |
| `Failover.FailoverEngine.TakeOver` | internal/server/failover.go:160-232 | promotion, demotion, repoints, rewind, cluster and etcd writes in source order |
| `Failover.FailoverEngine.ExecuteFailover` | internal/server/failover.go:113-238 | a complete failover is exactly the planned sequence of writes; without a healthy replica only the first two |
| `Failover.FailoverEngine.CheckClusterHealth` | internal/server/failover.go:82-111 | fails over iff the primary the query returned is overdue and not being promoted |
| `FailoverOutcomes.HealthyIsSpared` | internal/server/failover.go:82-105 | a cluster without a primary, or whose primary was heard of within the timeout or is being promoted, keeps all its tables |
| `FailoverOutcomes.OverdueIsReplaced` | internal/server/failover.go:90-232 | any other primary is offline afterwards: a replica behind the freshest online one, which is the online primary of a running cluster and of etcd, or still primary of a degraded cluster if no replica is online; every other row is as it was |
| `FailoverOutcomes.OrdersSent` | internal/server/failover.go:160-257 | who is ordered what in such a check, through its own agent or the sentinel |
| `TopologyRuns.PrimaryReadIs` | internal/db/node_repo.go:227-234 | the query returns a primary iff there is one, whichever it is |
| `FailoverSafety.MembersAtCrash` | internal/server/failover.go:119-189 | primaries and replicas of every cluster after any prefix of the writes |
| `FailoverSafety.PrimariesAtCrash` | internal/server/failover.go:178-189 | at every crash point at least one primary; two exactly between the two role writes |
| `FailoverSafety.AppliedSends` | internal/server/failover.go:240-257 | a node receives exactly the orders addressed to it, in order |
| `FailoverSafety.FanOutIsExact` | internal/server/failover.go:160-215 | one promote to the chosen replica, one repoint to each other online replica, one rewind to the old primary, nothing to anyone else |
| `FailoverSafety.EtcdNamesThePrimary` | internal/server/failover.go:217-232 | a complete failover ends running with etcd naming the primary of the node table |
| `ClusterService.ClusterServer.ResolveNodes` | internal/db/node_repo.go:160-209 | the listed nodes in input order, repeats included, or none if one is missing |
| `ClusterService.ClusterServer.AssignNodes` | internal/server/cluster_service.go:262-276 | one update per list entry, the first as primary |
| `ClusterService.ClusterServer.CreateCluster` | internal/server/cluster_service.go:155-280 | every refusal in source order, the panic of an empty list included, and the assignment otherwise |
| `ClusterService.ClusterServer.DeleteCluster` | internal/server/cluster_service.go:417-482 | cancels what is pending on the nodes, releases them and removes the cluster, unless it still runs |
| `ClusterService.RefusalIs` | internal/server/cluster_service.go:155-260 | the error of every refused request in source order, in terms of the rows, and none for the others |
| `ClusterService.CreatedIs` | internal/server/cluster_service.go:230-280 | a refused request changes nothing, an accepted one adds a creating cluster and changes exactly the listed nodes |
| `ClusterService.DeletedIs` | internal/server/cluster_service.go:417-482 | a cluster goes iff it exists, is not busy and has no node online, and then exactly its nodes are freed |
| `ClusterService.DeletionEmptiesQueues` | internal/server/cluster_service.go:439-448 | nothing is left pending for the nodes of a deleted cluster, and other nodes' queues are as they were |
| `ClusterService.AssignedMembers` | internal/server/cluster_service.go:262-276 | who is listed again after the first entry ends as a replica |
| `ClusterService.CreatedShapedIff` | internal/server/cluster_service.go:262-276 | one primary and replica_count replicas iff no node id is repeated |
| `TopologyRuns.CreateKeeps` | internal/server/cluster_service.go:182-282 | a creation with distinct ids keeps every cluster well shaped |
| `TopologyRuns.DeleteKeeps` | internal/server/cluster_service.go:439-475 | a deletion keeps the other clusters' members and leaves no dangling reference |
| `TopologyRuns.FailoverKeeps` | internal/server/failover.go:119-232 | a failover, complete or crashed outside the two role writes, keeps every cluster well shaped |
| `TopologyRuns.RemovalKeepsIff` | internal/server/agent_service.go:566-580 | removing a deactivated node keeps every cluster's shape iff the node holds no role in any |
| `TopologyRuns.TopologyHolds` | internal/server/cluster_service.go:182-475 | over all runs of creations, deletions, node removals, failovers and status reports every cluster has one primary and its replicas, and no node refers to a missing cluster |
| `TopologyRuns.CrashBetweenRoleWrites` | internal/server/failover.go:178-189 | a crash between the role writes keeps the shape iff there was no replica to promote |
| `TopologyCrashes.AlwaysLed` | internal/server/failover.go:119-189 | over all such runs with failovers crashing anywhere, no cluster is ever without a primary |
| `TopologyCrashes.NodeListedTwice` | internal/server/cluster_service.go:262-276 | an accepted request whose cluster has no primary |
| `TopologyCrashes.TwoPrimaries` | internal/server/failover.go:178-189 | a crash five writes into a failover that leaves two primaries |
| `Provisioning.ProvisioningActions` | internal/server/agent_service.go:893-904 | the list used for cancelling names exactly the actions the predicate accepts: all but failover's and those that manage a running server |
| `Provisioning.ProvisioningServer.InspectHosts` | internal/server/agent_service.go:790-804 | the first host that is not through decides |
| `Provisioning.ProvisioningServer.InspectCommands` | internal/server/agent_service.go:814-829 | a failed provisioning command since the cluster's creation fails it, a pending one makes it wait |
| `Provisioning.ProvisioningServer.UpdateClusterProvisioningStatus` | internal/server/agent_service.go:767-834 | the whole decision, cancellation included, as a function of host, cluster and command rows |
| `Provisioning.RunningIff` | internal/server/agent_service.go:790-832 | a creating cluster is declared running iff no listed host is in conflict, waiting for its preflight, installing or failed, and every listed command completed |
| `Provisioning.StoppedIff` | internal/server/agent_service.go:790-826 | it is stopped iff an installation failed ahead of any host to wait for, or all are through and a listed command failed |
| `Provisioning.StoppedMeansNonePending` | internal/server/agent_service.go:794-826 | after provisioning stops a cluster none of its hosts has a provisioning command pending |
| `Provisioning.RunningOnlyWhenProvisioned` | internal/server/agent_service.go:767-834 | over any run, creating turns into running only once every provisioning command that was queued for the hosts and is among the first thousand has completed, whatever was reported meanwhile |
| `Provisioning.FewAreListed` | internal/db/agent_command_repo.go:136-149 | with at most a thousand commands on the hosts every one of them is among those read |
| `ClusterProvisioning.RunningAfterEveryCommand` | internal/server/cluster_service.go:1067-1100 | a Docker cluster turns from creating to running only once every command its creation queued for its hosts has completed, whatever happened meanwhile |
| `ClusterProvisioning.NonePendingOnceStopped` | internal/server/agent_service.go:794-826 | once it is stopped instead, none of those commands is pending |
| `ClusterProvisioning.FailureStops` | internal/server/agent_service.go:605-630 | reporting the failure of any of them stops a creating cluster that waits for no host |
| `ClusterProvisioning.ReportMovesHost` | internal/server/agent_service.go:605-700 | the installation state a report puts its host in, action by action; no other host moves |
| `ClusterProvisioning.ReportMovesCluster` | internal/server/agent_service.go:615-630 | a cluster past its creation degrades by a failed set-up command of its host and moves by no other report |
| `ClusterProvisioning.HostsListed` | internal/db/node_repo.go:79-122 | with fewer than a thousand hosts the listed ones are exactly the cluster's |
| `ProvisioningLimit.RunningSoundIff` | internal/db/agent_command_repo.go:136-149 | for a cluster declared running every command completed iff those beyond the thousandth did |
| `ProvisioningLimit.DecisionSoundIff` | internal/server/agent_service.go:805-832 | running means every provisioning command completed, whatever the statuses, iff none of them stands beyond the thousandth |
| `ProvisioningLimit.HiddenPending` | internal/db/agent_command_repo.go:136-149 | a reused node whose new cluster is declared running with its pg_init still pending |
| `ApplyStatus.ApplyStatusRepository.QueueApplyCommands` | internal/db/tls_apply_repo.go:75-138 | replaces each node's row by a pending one for the new command, or changes nothing when an id is taken |
| `ApplyStatus.ApplyStatusRepository.HandleCommandResult` | internal/db/tls_apply_repo.go:140-197 | handles its own feature's commands; a result lands only in the row that still names the command |
| `ApplyStatus.LatestWins` | internal/db/network_access_repo.go:65-166 | after any interleaving each row is the one of the most recently queued command with its last result, and superseded results change nothing |
| `ApplyStatus.RowIs` | internal/db/tls_apply_repo.go:140-197 | the row of a key, value by value: pending, succeeded or failed, with mode, activity and time, as its latest command and last reply say |
| `ApplyStatus.ActiveMeansApplied` | internal/db/tls_apply_repo.go:172-190 | a row is active iff it is a TLS row that succeeded with a mode other than disabled |
| `ApplyStatus.FeaturesIndependent` | internal/db/network_access_repo.go:78-99 | requests and results of one feature never touch rows of the other |
| `Extensions.ExtensionAgent.ExecuteApplyExtensions` | internal/agent/extension_commands.go:29-62 | the nested loop carries out exactly the statements before the first failure and counts them |
| `Extensions.FullRun` | internal/agent/extension_commands.go:40-59 | a full run takes each listed database to (previous + enable) - disable and no other database anywhere |
| `Extensions.FullRunRepairs` | internal/agent/extension_commands.go:40-59 | so it does after any number of runs that broke off part-way |
| `Extensions.ExtensionRepository.SetEnabled` | internal/db/cluster_extension_repo.go:78-92 | sets the flag and keeps status and command, or inserts an off row |
| `Extensions.ExtensionRepository.QueueApplyCommand` | internal/db/cluster_extension_repo.go:104-134 | attaches every row to the command as pending |
| `Extensions.ExtensionRepository.HandleCommandResult` | internal/db/cluster_extension_repo.go:140-200 | settles exactly the rows attached to the command |
| `Extensions.SuccessSettlesItsRows` | internal/db/cluster_extension_repo.go:166-183 | a success turns its enabled rows ready, removes its disabled rows and leaves rows first toggled later untouched |
| `Extensions.FailureMarksItsRows` | internal/db/cluster_extension_repo.go:184-192 | a failure marks every row attached to the command failed, removes none and leaves rows first toggled later alone |
| `Extensions.ToggleSets` | internal/db/cluster_extension_repo.go:78-92 | a toggle changes the flag only; a new name starts off, without a command |
| `Extensions.OthersLeavePending` | internal/db/cluster_extension_repo.go:140-200 | the result of any other command leaves the attached rows pending |
| `Extensions.ReadyIsEnabledIff` | internal/db/cluster_extension_repo.go:166-183 | the ready rows are what the command enabled iff no attached row changed its flag in between |
| `Extensions.RowsAgreeWithPostgresIff` | internal/server/postgres_extensions.go:145-188 | after a full run and its success, every listed database has of the attached extensions exactly the ready ones iff no attached row changed its flag meanwhile |
| `Extensions.ToggledInFlight` | internal/db/cluster_extension_repo.go:166-183 | an extension disabled in flight stays installed without a row |
| `HbaPrefix.RemovesTheBlock` | internal/postgres/hba.go:168-182 | removal takes exactly the managed block, its final newline included |
| `HbaPrefix.RemainderKept` | internal/postgres/hba.go:112-129 | whatever markers the content holds, behind the new block stands the old remainder without leading newlines |
| `HbaPrefix.AbsorbsIff` | internal/postgres/hba.go:112-129 | replacing the block twice is replacing it once iff the first superuser's name does not hold the end marker |
| `HbaPrefix.NameHoldsMarker` | internal/postgres/hba.go:168-182 | a superuser named like the end marker leaves part of the old block behind |
| `HbaBlockRules.BlockReads` | internal/postgres/hba.go:112-129 | the managed block read line by line: the service account locally and from loopback with a password, the include file, and four rejects of every other network connection |
| `HbaBlockRules.ManagedRulesComeFirst` | internal/postgres/hba.go:112-129 | whatever pg_hba.conf held, these rules come first and the remaining ones follow |
| `HbaPolicy.CanonicalStrings` | internal/postgres/hba.go:192-205 | the loop with its seen-set computes the canonical list |
| `HbaPolicy.CanonicalIs` | internal/postgres/hba.go:192-205 | each trimmed non-empty entry once, in ascending order |
| `HbaPolicy.CanonicalIff` | internal/postgres/hba.go:192-205 | two inputs have the same canonical list iff they have the same trimmed non-empty entries |
| `Ordering.LessIff` | internal/postgres/hba.go:192-205 | the order of the library sort: a prefix first, otherwise the smaller character at the first difference |
| `HbaPolicy.RenderHBAPolicy` | internal/postgres/hba.go:77-110 | the builder's loops produce the specified text |
| `HbaPolicy.RenderingIsCanonical` | internal/postgres/hba.go:77-110 | permuting, repeating or padding entries changes no byte of the rendering |
| `HbaRules.PolicyReads` | internal/postgres/hba.go:77-110 | the rendered text read line by line is the four sections of rules in order, and nothing else |
| `HbaRules.AllowedIff` | internal/postgres/hba.go:77-110 | a rule is in it iff it is a local user's, the service account's, an admin role's from an admin network, the replication user's from a replication network, or the application roles' to the application databases from an application network, always with a password |
| `HbaRules.ItemsJoined` | internal/postgres/hba.go:214-220 | a list written into one column reads back as the list |
| `HbaPolicy.Hba.ApplyHBA` | internal/postgres/hba.go:33-74 | writes and reloads once, or not at all when both files are current, and leaves both files unchanged on any failure |
| `HbaPolicy.ApplyIs` | internal/postgres/hba.go:33-74 | the result of every step that may fail; only a completed apply changes the files, to the rendered policy and the managed block |
| `HbaPolicy.SecondApplyIsQuietIff` | internal/postgres/hba.go:55-58 | a second apply of an equivalent policy writes and reloads nothing iff the superuser's name does not hold the end marker |
| `IncludeFile.WriteSettings` | internal/postgres/postgres.go:977-996 | collecting, sorting and printing the keys gives the specified text |
| `IncludeFile.ReadSettings` | internal/postgres/tls.go:192-213 | the parsing loop computes the settings of a text, later lines winning |
| `IncludeFile.ParseEntry` | internal/postgres/tls.go:201-211 | a printed entry parses back to its key and value |
| `IncludeFile.ReadPrintable` | internal/postgres/tls.go:192-213 | whatever a file holds, what is read can be written |
| `IncludeFile.RoundTripIff` | internal/postgres/postgres.go:977-996 | reading undoes writing iff keys and values are trimmed, on one line, and keys hold no equals sign and start with no comment sign |
| `IncludeFile.OneSetting` | internal/postgres/postgres.go:977-996 | the text of a single setting, comment line included |
| `TlsApply.TlsSettings` | internal/postgres/tls.go:172-190 | the map updates give the specified settings |
| `TlsApply.UnquoteQuote` | internal/postgres/tls.go:215-217 | collapsing doubled quotes undoes the quoting of any value |
| `TlsApply.TlsInstance.EnsureIncludeDirective` | internal/postgres/postgres.go:1008-1022 | adds the directive on top iff it is missing |
| `TlsApply.TlsInstance.ApplyTLS` | internal/postgres/postgres.go:913-959 | the first failing step decides the result; every failure restores the include file |
| `TlsApply.TlsRoundTripIff` | internal/postgres/tls.go:172-213 | an apply reads back as written iff its paths are on one line |
| `TlsApply.FailureRestoresIff` | internal/postgres/postgres.go:933-958 | every failed apply leaves both files as they were iff the directive was there beforehand or there is no postgresql.conf |
| `TlsApply.FailedRunRestoresIff` | internal/postgres/postgres.go:933-958 | one failed apply leaves both files as they were iff the directive was there, or there is no postgresql.conf, or it was refused or failed at a write |
| `TlsApply.DirectiveStays` | internal/postgres/postgres.go:949-952 | a failed reload that leaves the directive in postgresql.conf |
| `TlsApply.ValidatedPathsOneLine` | internal/postgres/tls.go:43-91 | validated manual paths are on one line |
| `TlsApply.AcceptedReadsBackIff` | internal/postgres/tls.go:43-91 | an accepted request reads back as written iff it brings no certificates or its manual paths are on one line |
| `TlsApply.StoredCertificatesSkipTheCheck` | internal/postgres/tls.go:52-57 | with stored certificates a CA path with a line break validates |
| `TlsApply.OnlySslChanges` | internal/postgres/tls.go:172-190 | no setting but the four ssl keys changes |
| `TlsApply.AppliedSettings` | internal/postgres/tls.go:172-190 | what reads back after an apply: ssl on with the given files, or off without any |
| `TlsApply.QuoteIs` | internal/postgres/tls.go:215-217 | a quote inside a value is doubled, everything else kept, and the whole stands between quotes |
| `TlsApply.OutcomeIs` | internal/postgres/postgres.go:913-959 | the result and both files for every step that may fail |
| `TlsApply.ValidatesIff` | internal/postgres/tls.go:43-73 | accepted are certificate and key together, and manual paths that are absolute, readable and free of NUL and line breaks |
| `TlsApply.ResolvedTo` | internal/postgres/tls.go:75-87 | where the certificates of a request end up |
| `TlsApply.ApplyIsIdempotent` | internal/postgres/postgres.go:913-959 | a second apply reads back the same settings, and paths survive the quoting |
| `CommandLogger.Logger.LogMessage` | internal/agent/log.go:93-132 | accepts unless closed, hands off at fifty, otherwise arms the timer |
| `CommandLogger.Logger.FlushLocked` | internal/agent/log.go:151-171 | hands the buffer off as one batch and disarms; an empty buffer does nothing |
| `CommandLogger.Logger.Close` | internal/agent/log.go:173-178 | closes and flushes |
| `CommandLogger.Conservation` | internal/agent/log.go:93-178 | batches and buffer are exactly the accepted messages in order, batches hold 1 to 50, a buffered message has a timer, and after a close the buffer is empty and nothing is accepted |
| `CommandLogger.TimerDrains` | internal/agent/log.go:145-171 | a timer firing, stale or not, leaves nothing stranded |
| `CommandLogger.FiftiethFlushes` | internal/agent/log.go:93-132 | a message is handed off with the 49 before it, or waits under an armed timer, or is ignored after a close |
| `LogBroker.Hub.Subscribe` | internal/server/logstream.go:57-71 | a new id, never given out before, with an open empty channel |
| `LogBroker.Hub.Unsubscribe` | internal/server/logstream.go:73-80 | closes the channel once and forgets the subscriber |
| `LogBroker.Hub.Publish` | internal/server/logstream.go:86-115 | offers the batch to each subscriber of the cluster in any visiting order; no send reaches a closed channel |
| `LogBroker.Isolated` | internal/server/logstream.go:86-115 | a subscriber's channel depends only on its own filter, its receives and the publishes since it subscribed |
| `LogBroker.Delivered` | internal/server/logstream.go:96-114 | received and buffered logs are, in order, the published matching ones minus the counted drops |
| `LogBroker.AllDeliveredIff` | internal/server/logstream.go:102-112 | everything is delivered iff the 256-slot buffer was never found full |
| `LogBroker.MatchesIff` | internal/server/logstream.go:24-35 | a command filter decides alone, then a node filter |
| `LogBroker.OnePublished` | internal/server/logstream.go:86-115 | a published line is appended iff the subscription is open, cluster and filter match, and fewer than 256 are unread |
| `LogBroker.ReceiveTakes` | internal/server/logstream.go:57-80 | a consumer takes the oldest unread line, also after the subscription is closed |
| `Migrations.Database.Migrate` | internal/db/db.go:92-157 | applies and records the unrecorded files in name order up to the end, the first failing transaction, or the panic at a name too short to slice |
| `Migrations.FilesOfDirectory` | internal/db/db.go:107-113 | the files, subdirectories skipped, come in ascending order of their names |
| `Migrations.RunReaches` | internal/db/db.go:111-155 | a run over a prefix of the files extends what earlier runs left |
| `Migrations.CompleteRunResumes` | internal/db/db.go:92-157 | after any interrupted runs a complete run has every file applied exactly once, in order, and every version recorded; a further run changes nothing |
| `Migrations.AppliesAllIff` | internal/db/db.go:116-131 | a first run applies every file iff no 14-character prefix repeats |
| `Migrations.OnePrefixTwice` | internal/db/db.go:116-131 | two files with one prefix: only the first is applied |
| `LogPages.TurnAround` | internal/db/agent_command_log_repo.go:259-263 | the two-index swap reverses the rows in place |
| `LogPages.ScanCommandLogs` | internal/db/agent_command_log_repo.go:241-265 | the rows in query order, turned around when asked |
| `LogPages.ListByCommandID` | internal/db/agent_command_log_repo.go:145-167 | the page of the filtered log, for any page number and size |
| `LogPages.WindowIs` | internal/db/agent_command_log_repo.go:155-166 | the newest window turned around is a chronological slice counted from the end |
| `LogPages.SelectedAre` | internal/db/agent_command_log_repo.go:145-167 | exactly the command's rows of the level within both bounds |
| `LogPages.PageSizes` | internal/server/node_service.go:408-450 | page numbers below one mean the first page, sizes below one fifty rows, above a thousand a thousand |
| `LogPages.PagesPartition` | internal/server/node_service.go:408-450 | the pages from the last down to the first are the whole filtered log, without gap or duplicate, for any page size |

## Left out

- AgentProtocol.AgentService.ReportCommandResult: the role and database handlers only; the HBA, TLS and extension handlers are `ApplyStatus` and `Extensions`, the provisioning handler is `Provisioning`, each on its own tables.
- ClusterService.ClusterServer.CreateCluster: the node's cluster and role; its installation state is `Provisioning`'s, its service location is not modelled.
- The agent's connection identity, which a command with the admin secret switches to skylex_admin: a management command that cannot log in is a fault. An initdb after such a switch would name its superuser skylex_admin, which is one of Skylex's own names as well.
- The foreign key from databases to their owner, enforced on PostgreSQL only: a creation whose owner vanished after the check is queued here.
- SQL text, drivers, gRPC and HTTP plumbing, protobuf conversion, the web UI, authentication, configuration, metrics and backups: no decisions of the modelled kind.
- Encryption, hashing, certificate generation, docker and package installers: foreign calls; secrets are opaque values and certificate paths are taken as resolved.
- Error texts, audit entries, log output and JSON encoding: payloads are parsed values, malformed ones a handler error.
- Secret expiry, role expiry and temporary connections of the agent: hypotheses of the runs; faults stand for every failing statement.
- PostgreSQL's databases and grants: the control loop tracks their rows, operations and commands, not their contents in PostgreSQL.
- Several clusters and a changing primary in the control loop: the theorems are about one cluster on one primary; `QueueProtocol` covers any number of agents.
- Reports that arrive twice or late in the control loop: `QueueProtocol` has them, the convergence runs have at most one report per execution.
- Wrap-around of the broker's 64-bit subscriber counter: ids are unbounded here.
- Partly written files: a failing write leaves the file as it was.
- Heartbeat and status report internals: events that set node status and installation state arbitrarily.
- Etcd election and leases: only the primary record written by a failover.
- Failovers overlapping each other or a deletion of the same cluster: the runs take a failover's writes together, up to its crash point.
- When native provisioning continues, and the purge and adopt flows: their installation states appear as results of reports, the commands they queue as queued commands of a run.
- Start, stop and settings requests of a running cluster: arbitrary phase changes in `Provisioning`.
- Regex redaction of log messages, level normalisation and the other two log listings, which differ from the modelled one in one column.
- HBA names with blanks, line breaks or commas, quoting, and how PostgreSQL matches a rule: the rules are read for plain names, as columns.
